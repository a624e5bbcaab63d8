/** The engine as the program runs it: queue and batch tables that are written
    one statement at a time, batch rows that are loaded, changed in place and
    saved, and branches on a remote. Every method computes the function of
    Model.dfy with the same name, and every single write leaves tables from
    which ReconcileLive can recover. */
module Engine {
  import opened Lists
  import opened Commits
  import opened Checks
  import opened Stacking
  import opened Model
  import opened Transitions
  import opened Invariants
  import opened Recovery
  import opened Routing
  import opened Forges
  import Pending

  // ----- the tables ---------------------------------------------------------

  /** What survives a crash, besides the branches on the forge. */
  datatype Tables = Tables(next: Id, rows: Rows, batches: seq<Batch>)

  ghost predicate Survives(d: Tables) { Recoverable(State(Root(0), d.next, d.rows, d.batches)) }

  lemma SurvivesAnyTip(d: Tables, tip: Commit)
    ensures Survives(d) <==> Recoverable(State(tip, d.next, d.rows, d.batches))
  {
  }

  lemma EnqueueSurvives(d: Tables)
    requires Survives(d)
    ensures Survives(Tables(d.next + 1, d.rows[d.next := Row(Queued, None, None, map[])], d.batches))
  {
    hide Apart, Batch.InPlay;
    var s := State(Root(0), d.next, d.rows, d.batches);
    var rows := d.rows[d.next := Row(Queued, None, None, map[])];
    if HasLive(s) {
      assert Fits(rows, |d.batches| - 1, d.batches[|d.batches| - 1]);
    }
  }

  /** Queued rows of an idle queue may be claimed for a new batch. */
  lemma ClaimSurvives(d: Tables, ids: seq<Id>, tip: Commit)
    requires Survives(d) && (d.batches == [] || !d.batches[|d.batches| - 1].Live())
    requires Unique(ids) && forall i :: i in ids ==> i in d.rows
    ensures Survives(Tables(d.next, Claimed(d.rows, ids, |d.batches|), d.batches + [NewBatch(ids, tip)]))
  {
    SubRefl(ids);
    assert NewBatch(ids, tip).Line() == ids;
  }

  /** A current member of the live batch may be routed at any moment. */
  lemma StampSurvives(d: Tables, id: Id, sha: Commit)
    requires Survives(d) && d.batches != [] && d.batches[|d.batches| - 1].Live()
    requires id in d.batches[|d.batches| - 1].current
    ensures Survives(d.(rows := Stamped(d.rows, [id], sha)))
  {
    StampedFits(State(Root(0), d.next, d.rows, d.batches), id, sha);
  }

  /** The batch row is saved, and no result is wiped yet. */
  ghost predicate Unwiped(d: Tables, rows: Rows, batches: seq<Batch>) {
    d.batches == batches && forall i :: i in d.rows ==> i in rows && d.rows[i].checks == rows[i].checks
  }

  /** A batch row in memory. */
  class BatchRow {
    const id: nat
    const members: seq<Id>
    var phase: Phase
    var current: seq<Id>
    var pending: seq<seq<Id>>
    var landed: seq<Id>
    var ejected: seq<Id>
    var sha: Option<Commit>
    var builds: nat
    var ffRetries: nat
    var flaky: bool
    var base: Commit
    var splits: nat
    var extra: nat

    constructor (id: nat, b: Batch)
      ensures this.id == id && Value() == b
    {
      this.id, members, phase := id, b.members, b.phase;
      current, pending, landed, ejected := b.current, b.pending, b.landed, b.ejected;
      sha, builds, ffRetries, flaky := b.sha, b.builds, b.ffRetries, b.flaky;
      base, splits, extra := b.base, b.splits, b.extra;
    }

    function Value(): Batch
      reads this
    {
      Batch(phase, members, current, pending, landed, ejected, sha, builds, ffRetries, flaky, base, splits, extra)
    }
  }

  class Store {
    var next: Id
    var rows: Rows
    var batches: seq<Batch>
    /** Every state of the tables so far: a crash leaves one of them. */
    ghost var trail: set<Tables>

    function Now(): Tables
      reads this
    {
      Tables(next, rows, batches)
    }

    ghost predicate Valid()
      reads this
    {
      Now() in trail && forall d :: d in trail ==> Survives(d)
    }

    constructor ()
      ensures Valid() && next == 0 && rows == map[] && batches == []
    {
      next, rows, batches := 0, map[], [];
      trail := {Tables(0, map[], [])};
    }

    /** The tables as found at startup. */
    constructor Reopen(d: Tables)
      requires Survives(d)
      ensures Valid() && Now() == d
    {
      next, rows, batches := d.next, d.rows, d.batches;
      trail := {d};
    }

    ghost method Log()
      modifies this`trail
      ensures trail == old(trail) + {Now()}
    {
      trail := trail + {Now()};
    }

    method Enqueue() returns (id: Id)
      requires Valid()
      modifies this
      ensures Valid() && old(trail) <= trail && batches == old(batches)
      ensures id == old(next) && next == old(next) + 1
      ensures rows == old(rows)[id := Row(Queued, None, None, map[])]
    {
      hide Survives;
      EnqueueSurvives(Now());
      id := next;
      rows, next := rows[id := Row(Queued, None, None, map[])], next + 1;
      Log();
    }

    /** GetHeadOfQueue: the oldest row, whatever its state. */
    method Head() returns (head: Option<Id>)
      requires Valid()
      ensures head.Some? ==> IsHead(rows, head.value)
      ensures head.None? ==> rows == map[]
    {
      for i := 0 to next
        invariant forall j :: j in rows ==> i <= j
      {
        if i in rows {
          return Some(i);
        }
      }
      assert forall j :: j in rows ==> j < next;
      return None;
    }

    method UpdateState(id: Id, state: RowState)
      requires Valid() && id in rows
      modifies this`rows, this`trail
      ensures Valid() && old(trail) <= trail
      ensures rows == old(rows)[id := old(rows)[id].(state := state)]
    {
      ghost var before := State(Root(0), next, rows, batches);
      rows := rows[id := rows[id].(state := state)];
      FewerCarriers(before, rows);
      Log();
    }

    /** The rows that exist, in the order of the ids asked for. */
    method GetEntriesByIDs(ids: seq<Id>) returns (out: seq<Id>)
      ensures out == Existing(rows, ids)
    {
      out := [];
      var byID := map i | i in rows && i in ids :: rows[i];
      for n := 0 to |ids|
        invariant out == Existing(rows, ids[..n])
      {
        assert ids[..n + 1][..n] == ids[..n];
        if ids[n] in byID {
          out := out + [ids[n]];
        }
      }
      assert ids[..|ids|] == ids;
    }

    method Dequeue(id: Id)
      requires Valid()
      modifies this`rows, this`trail
      ensures Valid() && old(trail) <= trail
      ensures rows == Dequeued(old(rows), [id])
    {
      ghost var before := State(Root(0), next, rows, batches);
      rows := map i | i in rows && i != id :: rows[i];
      FewerCarriers(before, rows);
      Log();
    }

    /** Valid if the tables it leaves are, as for a current member. */
    method SetMergeBranch(id: Id, sha: Commit)
      modifies this`rows, this`trail
      ensures trail == old(trail) + {Now()}
      ensures old(Valid()) && Survives(Now()) ==> Valid()
      ensures rows == Stamped(old(rows), [id], sha)
    {
      rows := Stamped(rows, [id], sha);
      Log();
    }

    method ClearMergeBranch(ids: seq<Id>)
      requires Valid()
      modifies this`rows, this`trail
      ensures Valid() && old(trail) <= trail
      ensures rows == Unrouted(old(rows), ids)
    {
      ghost var before := State(Root(0), next, rows, batches);
      rows := Unrouted(rows, ids);
      FewerCarriers(before, rows);
      Log();
    }

    method ClearCheckStatuses(ids: seq<Id>)
      requires Valid()
      modifies this`rows, this`trail
      ensures Valid() && trail == old(trail) + {Now()}
      ensures rows == map i | i in old(rows) :: if i in ids then old(rows)[i].(checks := map[]) else old(rows)[i]
    {
      ghost var before := State(Root(0), next, rows, batches);
      rows := map i | i in rows :: if i in ids then rows[i].(checks := map[]) else rows[i];
      FewerCarriers(before, rows);
      Log();
    }

    method SaveCheckStatus(id: Id, context: string, result: Result)
      requires Valid() && id in rows
      modifies this`rows, this`trail
      ensures Valid() && old(trail) <= trail
      ensures rows == old(rows)[id := old(rows)[id].(checks := old(rows)[id].checks[context := result])]
    {
      ghost var before := State(Root(0), next, rows, batches);
      rows := rows[id := rows[id].(checks := rows[id].checks[context := result])];
      FewerCarriers(before, rows);
      Log();
    }

    /** The stored results of one row, in no particular order. */
    method GetCheckStatuses(id: Id) returns (statuses: seq<CheckStatus>)
      requires id in rows
      ensures Listing(statuses, Standings(rows[id].checks))
    {
      statuses := [];
      var checks := rows[id].checks;
      var left := checks.Keys;
      while left != {}
        invariant left <= checks.Keys
        invariant forall s :: s in statuses ==> s.context in checks && checks[s.context].state == s.state
        invariant forall x :: x in checks ==> x in left || exists s :: s in statuses && s.context == x
        decreases left
      {
        var x :| x in left;
        var s := CheckStatus(x, checks[x].state, "");
        assert s in statuses + [s];
        statuses := statuses + [s];
        left := left - {x};
      }
    }

    /** Overwrite the one row, if it exists. What the caller saves decides whether
        the tables it leaves are good. */
    method SaveBatch(b: BatchRow) returns (ok: bool)
      modifies this`batches, this`trail
      ensures ok <==> b.id < |old(batches)|
      ensures batches == if ok then old(batches)[b.id := b.Value()] else old(batches)
      ensures trail == old(trail) + {Now()}
      ensures old(Valid()) && Survives(Now()) ==> Valid()
    {
      ok := b.id < |batches|;
      if ok {
        batches := batches[b.id := b.Value()];
      }
      Log();
    }

    method GetBatch(id: nat) returns (b: BatchRow?)
      ensures b == null <==> id >= |batches|
      ensures b != null ==> fresh(b) && b.id == id && b.Value() == batches[id]
    {
      if id >= |batches| {
        return null;
      }
      b := new BatchRow(id, batches[id]);
    }

    method GetLiveBatch() returns (b: BatchRow?)
      requires Valid()
      ensures b == null <==> batches == [] || !batches[|batches| - 1].Live()
      ensures b != null ==> fresh(b) && b.id == |batches| - 1 && b.Value() == batches[b.id]
    {
      for i := 0 to |batches|
        invariant forall j :: 0 <= j < i ==> !batches[j].Live()
      {
        if batches[i].Live() {
          b := new BatchRow(i, batches[i]);
          return;
        }
      }
      return null;
    }

    /** TakeQueuedHead: the oldest queued rows, up to the limit. */
    method TakeQueuedHead(max: nat) returns (ids: seq<Id>)
      ensures ids == QueuedHead(rows, next, max)
    {
      ids := [];
      for i := 0 to next
        invariant ids == QueuedHead(rows, i, max)
      {
        if |ids| < max && i in rows && rows[i].state.Queued? {
          ids := ids + [i];
        }
      }
    }

    /** One transaction: nobody sees the claimed rows without their batch. While
        a live batch exists the unique index rolls it back. */
    method FormBatch(max: int, tip: Commit) returns (b: BatchRow?)
      requires Valid()
      modifies this`rows, this`batches, this`trail
      ensures Valid() && old(trail) <= trail
      ensures var ids := QueuedHead(old(rows), next, if max <= 0 then EVERYTHING else max);
              if ids == [] || (old(batches) != [] && old(batches)[|old(batches)| - 1].Live())
              then b == null && rows == old(rows) && batches == old(batches)
              else
                && b != null && fresh(b) && b.id == |old(batches)| && b.Value() == NewBatch(ids, tip)
                && rows == Claimed(old(rows), ids, b.id)
                && batches == old(batches) + [b.Value()]
    {
      var ids := TakeQueuedHead(if max <= 0 then EVERYTHING else max);
      var live := GetLiveBatch();
      if |ids| == 0 || live != null {
        return null;
      }
      QueuedHeadFacts(rows, next, if max <= 0 then EVERYTHING else max);
      AscendingUnique(ids);
      ClaimSurvives(Now(), ids, tip);
      var k := |batches|;
      rows, batches := Claimed(rows, ids, k), batches + [NewBatch(ids, tip)];
      Log();
      b := new BatchRow(k, batches[k]);
    }
  }

  // ----- row algebra --------------------------------------------------------

  lemma DequeuedMore(rows: Rows, ids: seq<Id>, id: Id)
    ensures Dequeued(Dequeued(rows, ids), [id]) == Dequeued(rows, ids + [id])
    ensures Dequeued(rows, []) == rows
  {
  }

  lemma StampedMore(rows: Rows, ids: seq<Id>, id: Id, sha: Commit)
    ensures Stamped(Stamped(rows, ids, sha), [id], sha) == Stamped(rows, ids + [id], sha)
    ensures Stamped(rows, [], sha) == rows
  {
  }

  lemma RoutedIs(rows: Rows, ids: seq<Id>, sha: Commit)
    ensures var r := Stamped(rows, ids, sha);
            (map i | i in r :: if i in ids then r[i].(checks := map[]) else r[i]) == Routed(rows, ids, sha)
  {
  }

  lemma DequeuedExisting(rows: Rows, ids: seq<Id>)
    ensures Dequeued(rows, Existing(rows, ids)) == Dequeued(rows, ids)
  {
    ExistingFacts(rows, ids);
  }

  // ----- counting clean merges ----------------------------------------------

  /** If anybody survives, some merge was clean. */
  lemma {:induction false} SomeClean(ids: seq<Id>, answers: seq<Answer>)
    requires |ids| == |answers| && Pick(ids, answers, true) != []
    ensures AnyClean(answers)
  {
    var n := |ids| - 1;
    assert answers[n] in answers;
    if !answers[n].Clean? {
      SomeClean(ids[..n], answers[..n]);
      assert forall a :: a in answers[..n] ==> a in answers;
    }
  }

  lemma {:induction false} PickMore(ids: seq<Id>, answers: seq<Answer>, i: nat, clean: bool)
    requires |ids| == |answers| && i < |ids|
    ensures Pick(ids[..i + 1], answers[..i + 1], clean)
         == Pick(ids[..i], answers[..i], clean) + (if answers[i].Clean? == clean then [ids[i]] else [])
  {
    assert ids[..i + 1][..i] == ids[..i] && answers[..i + 1][..i] == answers[..i];
  }

  // ----- the engine of one target branch ------------------------------------

  class Engine {
    const config: Config
    const store: Store
    const remote: Remote
    const target: string
    const branch: string
    /** Where a merge attempt that fails on the remote fails. */
    const stages: nat -> Stage

    constructor (config: Config, store: Store, remote: Remote, target: string, branch: string, stages: nat -> Stage)
      requires target in remote.refs && target != branch && store.Valid()
      ensures Valid() && this.config == config && this.store == store && this.remote == remote
      ensures this.target == target && this.branch == branch
    {
      this.config, this.store, this.remote := config, store, remote;
      this.target, this.branch, this.stages := target, branch, stages;
    }

    ghost predicate Valid()
      reads store, remote
    {
      target in remote.refs && target != branch && store.Valid()
    }

    /** The state of the model that the tables and the target branch stand for. */
    function View(): State
      requires target in remote.refs
      reads store, remote
    {
      State(remote.refs[target], store.next, store.rows, store.batches)
    }

    /** The same with a batch row as it is in memory, saved or not. */
    function With(b: BatchRow): State
      requires target in remote.refs && b.id < |store.batches|
      reads store, remote, b
    {
      Put(View(), b.id, b.Value())
    }

    /** Good tables, and a row in memory that may be saved at any moment. */
    ghost predicate Working(b: BatchRow)
      reads store, remote, b
    {
      Valid() && b.id + 1 == |store.batches| && b.phase != Done && Midway(With(b), b.id)
    }

    /** A batch under test is what the batch branch points at. */
    ghost predicate Pointed()
      reads store, remote
    {
      store.batches != [] && store.batches[|store.batches| - 1].phase.Testing? ==>
        branch in remote.refs && store.batches[|store.batches| - 1].sha == Some(remote.refs[branch])
    }

    /** Saving is safe while the row is fit to be saved. */
    method Save(b: BatchRow)
      requires Working(b) && HasSha(b.Value())
      modifies store`batches, store`trail
      ensures Valid() && store.trail == old(store.trail) + {store.Now()}
      ensures View() == old(With(b))
    {
      SavedFits(With(b), b.id);
      SurvivesAnyTip(Tables(store.next, store.rows, store.batches[b.id := b.Value()]), remote.refs[target]);
      var _ := store.SaveBatch(b);
    }

    method HeadsOf(entries: seq<Id>) returns (heads: seq<Commit>)
      ensures heads == Heads(config, entries)
    {
      heads := [];
      for i := 0 to |entries|
        invariant heads == Heads(config, entries[..i])
      {
        assert entries[..i + 1][..i] == entries[..i];
        heads := heads + [config.head(entries[i])];
      }
      assert entries[..|entries|] == entries;
    }

    /** Stack the heads on the target's tip, in whichever way the forge offers.
        Only the clone can fail as a whole. */
    method Stack(heads: seq<Commit>, oracle: Oracle, reachable: bool)
      returns (ok: bool, tip: Option<Commit>, steps: seq<Answer>)
      requires target in remote.refs && target != branch
      modifies remote
      ensures ok <==> config.noop || reachable
      ensures target in remote.refs && remote.refs[target] == old(remote.refs)[target]
      ensures ok ==> steps == Stacked(config.noop, remote.refs[target], heads, oracle).answers
      ensures ok ==> tip == TipOf(config.noop, remote.refs[target], heads, oracle)
      ensures ok && tip.Some? ==> branch in remote.refs && remote.refs[branch] == tip.value
      ensures !ok ==> remote.refs == old(remote.refs)
    {
      if config.noop {
        ok := true;
        tip, steps := remote.Stack(target, heads, branch, oracle, stages);
      } else {
        var clone := new Clone(remote);
        var results;
        ok, tip, results := clone.StackMerges(target, heads, branch, oracle, reachable);
        steps := results[..];
      }
    }

    /** Remove a single member. */
    method Eject(b: BatchRow, id: Id)
      requires store.Valid()
      modifies store`rows, store`trail, b`ejected
      ensures store.Valid() && old(store.trail) <= store.trail
      ensures store.rows == Dequeued(old(store.rows), [id])
      ensures b.ejected == old(b.ejected) + [id]
    {
      store.Dequeue(id);
      b.ejected := b.ejected + [id];
    }

    method EjectCurrent(b: BatchRow)
      requires Valid() && b.id < |store.batches|
      modifies store`rows, store`trail, b`ejected, b`current
      ensures Valid() && old(store.trail) <= store.trail
      ensures With(b) == Model.EjectCurrent(old(With(b)), b.id)
    {
      hide Survives;
      var entries := store.GetEntriesByIDs(b.current);
      DequeuedMore(store.rows, [], 0);
      for i := 0 to |entries|
        invariant store.Valid() && old(store.trail) <= store.trail
        invariant store.rows == Dequeued(old(store.rows), entries[..i])
        invariant b.ejected == old(b.ejected) + entries[..i]
        invariant b.current == old(b.current)
      {
        DequeuedMore(old(store.rows), entries[..i], entries[i]);
        assert entries[..i + 1] == entries[..i] + [entries[i]];
        Eject(b, entries[i]);
      }
      assert entries[..|entries|] == entries;
      b.current := [];
    }

    /** Eject the members whose merge was not clean. */
    method Weed(b: BatchRow, entries: seq<Id>, steps: seq<Answer>)
      requires Valid() && b.id < |store.batches| && |entries| == |steps|
      modifies store`rows, store`trail, b`ejected, b`current
      ensures Valid() && old(store.trail) <= store.trail
      ensures With(b) == Model.Eject(old(With(b)), b.id, Pick(entries, steps, true), Pick(entries, steps, false))
    {
      hide Survives;
      var survivors := [];
      DequeuedMore(store.rows, [], 0);
      for i := 0 to |entries|
        invariant store.Valid() && old(store.trail) <= store.trail
        invariant survivors == Pick(entries[..i], steps[..i], true)
        invariant store.rows == Dequeued(old(store.rows), Pick(entries[..i], steps[..i], false))
        invariant b.ejected == old(b.ejected) + Pick(entries[..i], steps[..i], false)
        invariant b.current == old(b.current)
      {
        PickMore(entries, steps, i, true);
        PickMore(entries, steps, i, false);
        DequeuedMore(old(store.rows), Pick(entries[..i], steps[..i], false), entries[i]);
        if steps[i].Clean? {
          survivors := survivors + [entries[i]];
        } else {
          Eject(b, entries[i]);
        }
      }
      assert entries[..|entries|] == entries && steps[..|steps|] == steps;
      b.current := survivors;
    }

    /** Route a current member of the live batch. */
    method Stamp(id: Id, sha: Commit)
      requires store.Valid()
      requires store.batches != [] && store.batches[|store.batches| - 1].Live()
      requires id in store.batches[|store.batches| - 1].current
      modifies store`rows, store`trail
      ensures store.Valid() && store.trail == old(store.trail) + {store.Now()}
      ensures store.rows == Stamped(old(store.rows), [id], sha)
    {
      StampSurvives(store.Now(), id, sha);
      store.SetMergeBranch(id, sha);
    }

    /** Route the members under test to the new commit, then wipe their old
        results. */
    method Route(b: BatchRow, tip: Commit)
      requires store.Valid() && b.id + 1 == |store.batches| && store.batches[b.id] == b.Value() && b.phase.Testing?
      modifies store`rows, store`trail
      ensures store.Valid() && old(store.trail) <= store.trail
      ensures store.rows == Routed(old(store.rows), b.current, tip)
      ensures forall d :: d in store.trail ==>
                d in old(store.trail) || d == store.Now() || Unwiped(d, old(store.rows), store.batches)
    {
      hide Survives;
      StampedMore(store.rows, [], 0, tip);
      for i := 0 to |b.current|
        invariant store.Valid() && old(store.trail) <= store.trail
        invariant store.rows == Stamped(old(store.rows), b.current[..i], tip)
        invariant forall d :: d in store.trail ==> d in old(store.trail) || Unwiped(d, old(store.rows), store.batches)
      {
        StampedMore(old(store.rows), b.current[..i], b.current[i], tip);
        assert b.current[..i + 1] == b.current[..i] + [b.current[i]];
        Stamp(b.current[i], tip);
      }
      assert b.current[..|b.current|] == b.current;
      store.ClearCheckStatuses(b.current);
      RoutedIs(old(store.rows), b.current, tip);
    }

    /** Put the built branch under test: save the row first, then route. */
    method Install(b: BatchRow, tip: Commit)
      requires Working(b)
      modifies store`rows, store`batches, store`trail, b
      ensures Valid() && old(store.trail) <= store.trail
      ensures View() == Model.Install(old(With(b)), b.id, tip)
      ensures forall d :: d in store.trail ==>
                d in old(store.trail) || d == store.Now() || Unwiped(d, old(store.rows), store.batches)
    {
      hide Survives, Midway;
      ghost var b0 := b.Value();
      PutTwice(View(), b.id, b0, b0.Built(tip, remote.refs[target]));
      BuiltMidway(View(), b.id, b0, tip, remote.refs[target]);
      b.sha, b.phase := Some(tip), Testing;
      b.builds, b.base := b.builds + 1, remote.refs[target];
      Save(b);
      Route(b, tip);
    }

    /** Build: whatever the batch branch was, stack the current members on the
        target, and either put the result under test or go on. */
    method Build(w: World, b: BatchRow)
      requires Working(b) && store.batches[b.id] == b.Value() && b.phase.Forming?
      modifies store`rows, store`batches, store`trail, remote, b
      ensures Valid() && old(store.trail) <= store.trail && Pointed()
      ensures View() == Model.Build(config, w, old(View()), b.id)
      decreases |b.pending|, 1
    {
      hide Survives, Midway, Existing, Routed, Heads;
      ghost var s := View();
      remote.DeleteBranch(branch);
      // Somebody else may push in between.
      remote.OutsidePush(target, w.drift(|b.pending|));
      if config.noop && w.broken(|b.pending|) {
        // The members could not be loaded.
        return;
      }
      var entries := store.GetEntriesByIDs(b.current);
      var heads := HeadsOf(entries);
      var ok, tip, steps := Stack(heads, w.merge(|b.pending|), !w.broken(|b.pending|));
      if !ok {
        // Nobody is to blame; the row stays as it was saved.
        return;
      }
      Weed(b, entries, steps);
      PutSame(s, b.id);
      WeededMidway(config, w, s, b.id);
      assert With(b) == Weeded(config, w, s, b.id);
      if |b.current| == 0 {
        Next(w, b);
      } else {
        SomeClean(entries, steps);
        Install(b, tip.value);
      }
    }

    /** rebuild: persist the row as forming first, then build. */
    method Rebuild(w: World, b: BatchRow)
      requires Working(b)
      modifies store`rows, store`batches, store`trail, remote, b
      ensures Valid() && old(store.trail) <= store.trail && Pointed()
      ensures View() == Model.Build(config, w, Put(old(View()), b.id, old(b.Value()).(phase := Forming)), b.id)
      decreases |b.pending|, 2
    {
      hide Survives, Midway;
      MidwayPhase(View(), b.id, b.Value(), Forming);
      b.phase := Forming;
      Save(b);
      PutSame(View(), b.id);
      Build(w, b);
    }

    /** The batch is over. */
    method Finish(b: BatchRow)
      requires Working(b) && b.current == [] && b.pending == []
      modifies store`batches, store`trail, remote, b
      ensures Valid() && old(store.trail) <= store.trail && Pointed()
      ensures View() == Put(old(View()), b.id, old(b.Value()).Finish())
    {
      hide Survives, Midway;
      ghost var b0 := b.Value();
      PutTwice(View(), b.id, b0, b0.Finish());
      FinishedFits(With(b), b.id);
      SurvivesAnyTip(Tables(store.next, store.rows, store.batches[b.id := b0.Finish()]), remote.refs[target]);
      b.flaky := |b.ejected| == 0 && b.builds > 1 && |b.landed| == |b.members|;
      b.phase := Done;
      b.current := [];
      var _ := store.SaveBatch(b);
      remote.DeleteBranch(branch);
    }

    /** next: pop the stack and rebuild, or finish. */
    method Next(w: World, b: BatchRow)
      requires Working(b) && b.current == []
      modifies store`rows, store`batches, store`trail, remote, b
      ensures Valid() && old(store.trail) <= store.trail && Pointed()
      ensures View() == Model.Next(config, w, old(With(b)), b.id)
      decreases |b.pending|, 0
    {
      hide Survives, Midway;
      ghost var s, b0 := View(), b.Value();
      var n := |b.pending|;
      if n > 0 {
        PopMidway(With(b), b.id);
        PutTwice(s, b.id, b0, b0.Pop());
        MidwayPhase(s, b.id, b0.Pop(), if b0.phase.Testing? then Testing else Forming);
        b.current := b.pending[n - 1];
        b.pending := b.pending[..n - 1];
        assert b.Value().(phase := Forming) == b0.Pop();
        Rebuild(w, b);
      } else {
        PutTwice(s, b.id, b0, b0.Finish());
        Finish(b);
      }
    }

    // ----- verdicts ---------------------------------------------------------

    /** ejectCurrent, then next. */
    method GiveUp(w: World, b: BatchRow)
      requires Valid() && b.id + 1 == |store.batches| && b.phase != Done
      requires Midway(Model.EjectCurrent(With(b), b.id), b.id)
      modifies store`rows, store`batches, store`trail, remote, b
      ensures Valid() && old(store.trail) <= store.trail
      ensures View() == Model.Next(config, w, Model.EjectCurrent(old(With(b)), b.id), b.id)
    {
      hide Survives, Midway;
      EjectCurrent(b);
      Next(w, b);
    }

    method DequeueAll(entries: seq<Id>)
      requires store.Valid()
      modifies store`rows, store`trail
      ensures store.Valid() && old(store.trail) <= store.trail
      ensures store.rows == Dequeued(old(store.rows), entries)
    {
      hide Survives;
      DequeuedMore(store.rows, [], 0);
      for i := 0 to |entries|
        invariant store.Valid() && old(store.trail) <= store.trail
        invariant store.rows == Dequeued(old(store.rows), entries[..i])
      {
        DequeuedMore(old(store.rows), entries[..i], entries[i]);
        assert entries[..i + 1] == entries[..i] + [entries[i]];
        store.Dequeue(entries[i]);
      }
      assert entries[..|entries|] == entries;
    }

    /** The target is at the tested commit: the members leave the queue. */
    method Land(b: BatchRow)
      requires Valid() && b.id < |store.batches|
      modifies store`rows, store`trail, b
      ensures Valid() && old(store.trail) <= store.trail
      ensures With(b) == LandCurrent(old(With(b)), b.id, remote.refs[target])
    {
      b.ffRetries := 0;
      var entries := store.GetEntriesByIDs(b.current);
      DequeuedExisting(store.rows, b.current);
      DequeueAll(entries);
      b.landed := b.landed + b.current;
      b.current := [];
    }

    method LandAndGoOn(w: World, b: BatchRow)
      requires Working(b)
      modifies store`rows, store`batches, store`trail, remote, b
      ensures Valid() && old(store.trail) <= store.trail
      ensures View() == Model.Next(config, w, LandCurrent(old(With(b)), b.id, old(remote.refs)[target]), b.id)
    {
      hide Survives, Midway;
      LandMidway(With(b), b.id, remote.refs[target]);
      Land(b);
      Next(w, b);
    }

    /** The target moved in the meantime: build again. */
    method Retry(w: World, b: BatchRow)
      requires Working(b) && b.phase.Testing?
      modifies store`rows, store`batches, store`trail, remote, b
      ensures Valid() && old(store.trail) <= store.trail
      ensures View() == Model.Build(config, w, Put(old(View()), b.id, old(b.Value()).Rebuilding()), b.id)
    {
      hide Survives, Midway;
      CountMidway(View(), b.id, b.Value(), b.Value().(extra := b.extra + 1));
      b.extra := b.extra + 1;
      Rebuild(w, b);
    }

    /** A live row as it is stored may be worked on. */
    lemma StoredMidway(b: BatchRow)
      requires Valid() && b.id < |store.batches| && store.batches[b.id] == b.Value() && b.phase != Done
      ensures Working(b) && HasSha(b.Value()) && With(b) == View() && b.id + 1 == |store.batches|
    {
      SurvivesAnyTip(store.Now(), remote.refs[target]);
      LiveMidway(View(), b.id);
      PutSame(View(), b.id);
    }

    method HandlePass(w: World, push: Push, b: BatchRow)
      requires Valid() && b.id < |store.batches| && store.batches[b.id] == b.Value()
      modifies store`rows, store`batches, store`trail, remote, b
      ensures Valid() && old(store.trail) <= store.trail
      ensures View() == Model.HandlePass(config, w, push, old(View()), b.id)
    {
      hide Survives, Midway;
      if !b.phase.Testing? || b.sha.None? {
        return;
      }
      ghost var s, b0 := View(), b.Value();
      StoredMidway(b);
      PutSame(s, b.id);
      PutTwice(s, b.id, b0.Race(), b0.Race().Rebuilding());
      CountMidway(s, b.id, b0, b0.Race());
      var pushed := remote.FastForward(target, b.sha.value, push);
      match pushed
      case Unreachable =>
      case PushDenied =>
        EjectCurrentMidway(With(b), b.id);
        GiveUp(w, b);
      case NotFastForward =>
        b.ffRetries := b.ffRetries + 1;
        assert b.Value() == b0.Race();
        if b.ffRetries < MAX_FF_RETRIES {
          Retry(w, b);
        } else {
          EjectCurrentMidway(With(b), b.id);
          GiveUp(w, b);
        }
      case Updated =>
        TargetMidway(s, b.id, remote.refs[target]);
        PutSame(View(), b.id);
        LandAndGoOn(w, b);
    }

    /** Cap on builds: what waits is drained too, so that next() finishes. */
    method Drain(b: BatchRow)
      modifies b`current, b`pending
      ensures b.Value() == old(b.Value()).Drain()
    {
      for i := 0 to |b.pending|
        invariant b.pending == old(b.pending)
        invariant b.current == old(b.current) + Concat(b.pending[..i])
      {
        assert b.pending[..i + 1][..i] == b.pending[..i];
        b.current := b.current + b.pending[i];
      }
      assert b.pending[..|b.pending|] == b.pending;
      b.pending := [];
    }

    /** Bisect: the second half goes onto the stack. */
    method Halve(b: BatchRow) returns (right: seq<Id>)
      modifies b`current, b`pending, b`splits
      ensures right == old(b.current)[|old(b.current)| / 2..]
      ensures b.Value().(phase := Forming) == old(b.Value()).Split()
    {
      var mid := |b.current| / 2;
      var left := b.current[..mid];
      right := b.current[mid..];
      b.pending := b.pending + [right];
      b.current := left;
      b.splits := b.splits + 1;
    }

    /** The second half waits without routing, the first is built. */
    method Split(w: World, b: BatchRow)
      requires Working(b)
      modifies store`rows, store`batches, store`trail, remote, b
      ensures Valid() && old(store.trail) <= store.trail
      ensures View() == Model.Build(config, w, AfterSplit(old(With(b)), b.id), b.id)
    {
      hide Survives, Midway;
      ghost var s, b0 := View(), b.Value();
      SplitMidway(With(b), b.id);
      PutTwice(s, b.id, b0, b0.Split());
      var right := Halve(b);
      store.ClearMergeBranch(right);
      assert Put(View(), b.id, b0.Split()) == AfterSplit(Put(s, b.id, b0), b.id);
      MidwayPhase(View(), b.id, b0.Split(), if b0.phase.Testing? then Testing else Forming);
      Rebuild(w, b);
    }

    method HandleFail(w: World, b: BatchRow)
      requires Valid() && b.id < |store.batches| && store.batches[b.id] == b.Value()
      modifies store`rows, store`batches, store`trail, remote, b
      ensures Valid() && old(store.trail) <= store.trail
      ensures View() == Model.HandleFail(config, w, old(View()), b.id)
    {
      hide Survives, Midway;
      if !b.phase.Testing? {
        return;
      }
      StoredMidway(b);
      PutTwice(View(), b.id, b.Value(), b.Value().Drain());
      if |b.current| == 1 {
        EjectCurrentMidway(With(b), b.id);
        GiveUp(w, b);
      } else if config.bisectMax > 0 && b.builds >= config.bisectMax {
        DrainMidway(With(b), b.id);
        Drain(b);
        GiveUp(w, b);
      } else {
        Split(w, b);
      }
    }

    // ----- entry points, each under the branch's lock -------------------------

    method FormAndBuild(w: World)
      requires Valid()
      modifies store`rows, store`batches, store`trail, remote
      ensures Valid() && old(store.trail) <= store.trail
      ensures View() == OnForm(config, w, old(View()))
    {
      hide Survives, Midway;
      var live := store.GetLiveBatch();
      if live != null {
        // A forming batch means an earlier build failed as a whole.
        if live.phase.Forming? {
          StoredMidway(live);
          Build(w, live);
        }
        return;
      }
      var b := store.FormBatch(config.batchMax, remote.refs[target]);
      if b != null {
        StoredMidway(b);
        Build(w, b);
      }
    }

    method HandleTimeout(w: World, id: nat, elapsed: bool)
      requires Valid()
      modifies store`rows, store`batches, store`trail, remote
      ensures Valid() && old(store.trail) <= store.trail
      ensures View() == if id < |old(store.batches)| && elapsed
                        then Model.HandleFail(config, w, old(View()), id) else old(View())
    {
      var b := store.GetBatch(id);
      if b == null || !b.phase.Testing? || !elapsed {
        return;
      }
      HandleFail(w, b);
    }

    method Discard(b: BatchRow, id: Id)
      modifies b`current, b`pending, b`ejected
      ensures b.Value() == old(b.Value()).Discard(id)
    {
      b.current := Pending.Delete(b.current, id);
      b.pending := Pending.Remove(b.pending, id);
      b.ejected := b.ejected + [id];
    }

    /** A removed member was on the branch under test. */
    method RebuildWithout(w: World, b: BatchRow)
      requires Working(b)
      modifies store`rows, store`batches, store`trail, remote, b
      ensures Valid() && old(store.trail) <= store.trail
      ensures View() == if old(b.current) == [] then Model.Next(config, w, old(With(b)), b.id)
                        else Model.Build(config, w, Put(old(View()), b.id, old(b.Value()).Rebuilding()), b.id)
    {
      hide Survives, Midway;
      if |b.current| == 0 {
        Next(w, b);
      } else {
        CountMidway(View(), b.id, b.Value(), b.Value().(extra := b.extra + 1));
        b.extra := if b.phase.Testing? then b.extra + 1 else b.extra;
        Rebuild(w, b);
      }
    }

    /** The caller has taken the member's row out of the queue. */
    method OnMemberRemoved(w: World, batch: nat, id: Id)
      requires Valid() && id !in store.rows
      modifies store`rows, store`batches, store`trail, remote
      ensures Valid() && old(store.trail) <= store.trail
      ensures View() == Model.OnMemberRemoved(config, w, old(View()), batch, id)
    {
      hide Survives, Midway;
      var b := store.GetBatch(batch);
      if b == null || (!b.phase.Forming? && !b.phase.Testing?) {
        return;
      }
      ghost var s, b1 := View(), b.Value().Discard(id);
      StoredMidway(b);
      DiscardMidway(s, batch, id);
      PutTwice(s, batch, b1, b1.Rebuilding());
      var wasCurrent := id in b.current;
      Discard(b, id);
      if !wasCurrent {
        Save(b);
      } else {
        RebuildWithout(w, b);
      }
    }

    /** removePR, and then the report to the engine, as one step. */
    method Remove(w: World, id: Id, snapBatch: Option<nat>)
      requires Valid()
      modifies store`rows, store`batches, store`trail, remote
      ensures Valid() && old(store.trail) <= store.trail
      ensures View() == OnRemove(config, w, old(View()), id, snapBatch)
    {
      var batch := if id in store.rows then store.rows[id].batch else snapBatch;
      store.Dequeue(id);
      if batch.Some? {
        OnMemberRemoved(w, batch.value, id);
      }
    }

    /** The single entry from the check pipeline: guard, record, judge, act. */
    method HandleCheck(snap: Snapshot, context: string, state: CheckState, required: Option<seq<string>>,
                       timedOut: bool, push: Push, w: World)
      requires Valid()
      modifies store`rows, store`batches, store`trail, remote
      ensures Valid() && old(store.trail) <= store.trail
      ensures View() == OnCheck(config, old(View()), snap, context, state, required, timedOut, push, w)
    {
      hide Survives, Midway, Model.HandlePass, Model.HandleFail, Judge;
      var b := store.GetBatch(snap.batch);
      if b == null || !b.phase.Testing? {
        return;
      }
      if snap.sha.None? || snap.sha != b.sha {
        return;
      }
      if snap.id !in store.rows {
        return;
      }
      store.SaveCheckStatus(snap.id, context, Result(state, snap.sha.value, b.builds));
      if required.None? {
        return;
      }
      var verdict := JudgeResults(snap.id, required.value);
      Act(w, push, b, verdict, timedOut);
    }

    /** What the results on record for a row say, in whatever order the store
        lists them. */
    method JudgeResults(id: Id, required: seq<string>) returns (verdict: Verdict)
      requires Valid() && id in store.rows
      ensures RulingOf(verdict) == Judge(Standings(store.rows[id].checks), required)
    {
      hide Survives, Evaluate, Judge, Listing;
      var statuses := store.GetCheckStatuses(id);
      verdict := EvaluateChecks(statuses, required);
      ListingVerdict(statuses, Standings(store.rows[id].checks), required);
    }

    method Act(w: World, push: Push, b: BatchRow, verdict: Verdict, timedOut: bool)
      requires Valid() && b.id < |store.batches| && store.batches[b.id] == b.Value()
      modifies store`rows, store`batches, store`trail, remote, b
      ensures Valid() && old(store.trail) <= store.trail
      ensures View() ==
        match RulingOf(verdict)
        case Passes => Model.HandlePass(config, w, push, old(View()), b.id)
        case Fails => Model.HandleFail(config, w, old(View()), b.id)
        case Waits => if timedOut then Model.HandleFail(config, w, old(View()), b.id) else old(View())
    {
      hide Survives, Midway, Model.HandlePass, Model.HandleFail;
      match verdict
      case Passed => HandlePass(w, push, b);
      case Failed(_, _) => HandleFail(w, b);
      case Waiting => if timedOut { HandleFail(w, b); }
    }

    /** At startup: build a forming batch again, re-stamp a testing one's rows. */
    method ReconcileLive(w: World)
      requires Valid()
      modifies store`rows, store`batches, store`trail, remote
      ensures Valid() && old(store.trail) <= store.trail
      ensures View() == OnReconcile(config, w, old(View()))
    {
      hide Survives, Midway;
      var b := store.GetLiveBatch();
      if b == null {
        return;
      }
      StoredMidway(b);
      if b.phase.Forming? {
        Build(w, b);
      } else {
        var entries := store.GetEntriesByIDs(b.current);
        Restamp(b, entries);
      }
    }

    method Restamp(b: BatchRow, entries: seq<Id>)
      requires Valid() && b.id + 1 == |store.batches| && store.batches[b.id] == b.Value()
      requires b.phase.Testing? && b.sha.Some? && entries == Existing(store.rows, b.current)
      modifies store`rows, store`trail
      ensures Valid() && old(store.trail) <= store.trail
      ensures store.rows == Stamped(old(store.rows), b.current, b.sha.value)
    {
      hide Survives;
      var sha := b.sha.value;
      ExistingFacts(store.rows, b.current);
      StampedMore(store.rows, [], 0, sha);
      for i := 0 to |entries|
        invariant store.Valid() && old(store.trail) <= store.trail
        invariant store.rows == Stamped(old(store.rows), entries[..i], sha)
      {
        StampedMore(old(store.rows), entries[..i], entries[i], sha);
        assert entries[..i + 1] == entries[..i] + [entries[i]];
        Stamp(entries[i], sha);
      }
      assert entries[..|entries|] == entries;
    }

    /** tryFastForwardSuccess: a queued head that is up to date skips testing. */
    method Promote()
      requires Valid()
      modifies store`rows, store`trail
      ensures Valid() && old(store.trail) <= store.trail
      ensures View() == OnPromote(old(View()))
    {
      hide Survives;
      var head := store.Head();
      if head.Some? && store.rows[head.value].state.Queued? {
        store.UpdateState(head.value, Succeeded);
        assert forall i :: i in old(store.rows) && IsHead(old(store.rows), i) ==> i == head.value;
      }
      assert store.rows == OnPromote(old(View())).rows;
    }

    method Handle(e: Event)
      requires Valid()
      modifies store, remote
      ensures Valid() && old(store.trail) <= store.trail
      ensures View() == Step(config, old(View()), e)
    {
      hide Survives, OnForm, OnCheck, OnRemove, OnReconcile, OnPromote;
      match e
      case Enqueue => var _ := store.Enqueue();
      case Promote => Promote();
      case FormAndBuild(w) => FormAndBuild(w);
      case Check(snap, context, state, required, timedOut, push, w) =>
        HandleCheck(snap, context, state, required, timedOut, push, w);
      case Timeout(id, elapsed, w) => HandleTimeout(w, id, elapsed);
      case Remove(id, snapBatch, w) => Remove(w, id, snapBatch);
      case Reconcile(w) => ReconcileLive(w);
      case OutsidePush(commit) => remote.OutsidePush(target, commit);
    }

    /** A run of the program is a run of the model, and leaves nothing but
        recoverable tables behind at any moment. */
    method Serve(events: seq<Event>)
      requires Valid()
      modifies store, remote
      ensures Valid() && old(store.trail) <= store.trail
      ensures View() == Run(config, old(View()), events)
    {
      for i := 0 to |events|
        invariant Valid() && old(store.trail) <= store.trail
        invariant View() == Run(config, old(View()), events[..i])
      {
        assert events[..i + 1][..i] == events[..i];
        Handle(events[i]);
      }
      assert events[..|events|] == events;
    }
  }

  /** A restart from whatever a crash left: reconciling restores the routing,
      and with it the webhook's way to the batch. */
  method Restart(config: Config, store: Store, remote: Remote, target: string, branch: string,
                 stages: nat -> Stage, crashed: Tables, w: World)
    returns (engine: Engine)
    requires store.Valid() && crashed in store.trail && target in remote.refs && target != branch
    modifies remote
    ensures fresh(engine) && fresh(engine.store) && engine.remote == remote && engine.target == target
    ensures engine.Valid() && RoutesRight(engine.View())
    ensures engine.View() == OnReconcile(config, w,
                               State(old(remote.refs)[target], crashed.next, crashed.rows, crashed.batches))
  {
    var reopened := new Store.Reopen(crashed);
    engine := new Engine(config, reopened, remote, target, branch, stages);
    SurvivesAnyTip(crashed, remote.refs[target]);
    ReconcileRoutes(config, w, engine.View());
    engine.ReconcileLive(w);
  }
}
