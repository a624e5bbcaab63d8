/** Telling builds apart. Commits are compared by content, so two builds can make
    the same commit: the right half rebuilt on its landed left half is the commit
    their parent slice was tested as. Routing by commit stays sound all the same:
    a row that once carried the commit under test, and still exists, is under
    test, whatever the run, as long as each build ends with a real merge. */
module Identity {
  import opened Lists
  import opened Commits
  import opened Model
  import opened Invariants
  import opened Transitions
  import opened Guarantees
  import opened Landing
  import opened Routing

  // ----- what a step does to the rows ---------------------------------------

  /** Rows only disappear, keep their batch and state, and get a new commit only if batch
      `k` goes under test. */
  ghost predicate RowsKept(s: State, s': State, k: nat) {
    forall i :: i in s'.rows ==>
      && i in s.rows && s'.rows[i].batch == s.rows[i].batch && s'.rows[i].state == s.rows[i].state
      && (s'.rows[i].sha == s.rows[i].sha || s'.rows[i].sha.None? ||
          (k < |s'.batches| && s'.batches[k].phase.Testing?))
  }

  lemma {:induction false} BuildRows(c: Config, w: World, s: State, k: nat)
    requires k < |s.batches|
    ensures RowsKept(s, Build(c, w, s, k), k)
    decreases |s.batches[k].pending|, 1
  {
    if !w.broken(|s.batches[k].pending|) {
      var s1 := Weeded(c, w, s, k);
      if s1.batches[k].current == [] { NextRows(c, w, s1, k); }
    }
  }

  lemma {:induction false} NextRows(c: Config, w: World, s: State, k: nat)
    requires k < |s.batches|
    ensures RowsKept(s, Next(c, w, s, k), k)
    decreases |s.batches[k].pending|, 0
  {
    var b := s.batches[k];
    if b.pending != [] { BuildRows(c, w, Put(s, k, b.Pop()), k); }
  }

  lemma PassRows(c: Config, w: World, push: Push, s: State, k: nat)
    requires k < |s.batches|
    ensures RowsKept(s, HandlePass(c, w, push, s, k), k)
  {
    var b := s.batches[k];
    if b.phase.Testing? && b.sha.Some? {
      match push
      case Unavailable =>
      case Denied => NextRows(c, w, EjectCurrent(s, k), k);
      case Reach =>
        if IsAncestor(s.target, b.sha.value) {
          NextRows(c, w, LandCurrent(s, k, b.sha.value), k);
        } else if b.ffRetries + 1 < MAX_FF_RETRIES {
          BuildRows(c, w, Put(Put(s, k, b.Race()), k, b.Race().Rebuilding()), k);
        } else {
          NextRows(c, w, EjectCurrent(Put(s, k, b.Race()), k), k);
        }
    }
  }

  lemma FailRows(c: Config, w: World, s: State, k: nat)
    requires k < |s.batches|
    ensures RowsKept(s, HandleFail(c, w, s, k), k)
  {
    var b := s.batches[k];
    if b.phase.Testing? {
      if |b.current| == 1 {
        NextRows(c, w, EjectCurrent(s, k), k);
      } else if Capped(c, b) {
        NextRows(c, w, EjectCurrent(Put(s, k, b.Drain()), k), k);
      } else {
        BuildRows(c, w, AfterSplit(s, k), k);
      }
    }
  }

  lemma RemovedRows(c: Config, w: World, s: State, k: nat, id: Id)
    ensures RowsKept(s, OnMemberRemoved(c, w, s, k, id), k)
  {
    if k < |s.batches| && s.batches[k].Live() {
      var b := s.batches[k];
      var s1 := Put(s, k, b.Discard(id));
      if id in b.current {
        if Without(b.current, id) == [] {
          NextRows(c, w, s1, k);
        } else {
          BuildRows(c, w, Put(s1, k, b.Discard(id).Rebuilding()), k);
        }
      }
    }
  }

  /** A row that belongs to a batch never changes it, and a row that carries a
      commit got it in an earlier step, or carries the one now under test. */
  ghost predicate Lineage(s: State, s': State) {
    && (forall i :: i in s'.rows && i in s.rows && s.rows[i].batch.Some? ==> s'.rows[i].batch == s.rows[i].batch)
    && (forall i :: i in s'.rows && s'.rows[i].sha.Some? ==>
          UnderTest(s') || (i in s.rows && s.rows[i].sha == s'.rows[i].sha))
  }

  lemma KeptLineage(c: Config, s: State, s': State, k: nat)
    requires RowsKept(s, s', k) && Inv(c, s')
    ensures Lineage(s, s')
  {
    if k < |s'.batches| && s'.batches[k].phase.Testing? { LiveIsLast(c, s', k); }
  }

  lemma RecordedRows(s: State, s': State, e: Event, k: nat)
    requires e.Check? && Fresh(s, e.snap) && RowsKept(Recorded(s, e), s', k)
    ensures RowsKept(s, s', k)
  {
  }

  lemma ActingRows(c: Config, s: State, e: Event)
    requires Inv(c, s) && Acts(s, e)
    ensures RowsKept(Recorded(s, e), Step(c, s, e), e.snap.batch)
  {
    var s1, k := Recorded(s, e), e.snap.batch;
    match Decision(s, e)
    case Passes => PassRows(c, e.w, e.push, s1, k);
    case Fails => FailRows(c, e.w, s1, k);
    case Waits => FailRows(c, e.w, s1, k);
  }

  lemma CheckLineage(c: Config, s: State, e: Event)
    requires Inv(c, s) && e.Check?
    ensures Lineage(s, Step(c, s, e))
  {
    hide Inv, Progresses, Credit, Decision;
    StepOk(c, s, e);
    CheckResult(c, s, e);
    if Acts(s, e) {
      ActingRows(c, s, e);
      RecordedRows(s, Step(c, s, e), e, e.snap.batch);
      KeptLineage(c, s, Step(c, s, e), e.snap.batch);
    }
  }

  /** Claiming rows of an idle queue gives no row a commit and moves none from
      one batch to another. */
  lemma AdoptedLineage(c: Config, s: State, s': State)
    requires Idle(c, s) && RowsKept(Adopted(c, s), s', |s.batches|) && Inv(c, s')
    ensures Lineage(s, s')
  {
    KeptLineage(c, Adopted(c, s), s', |s.batches|);
  }

  lemma FormLineage(c: Config, w: World, s: State)
    requires Inv(c, s)
    ensures Lineage(s, OnForm(c, w, s))
  {
    FormOk(c, w, s);
    if HasLive(s) {
      BuildRows(c, w, s, |s.batches| - 1);
      if s.batches[|s.batches| - 1].phase.Forming? { KeptLineage(c, s, OnForm(c, w, s), |s.batches| - 1); }
    } else if QueuedHead(s.rows, s.next, Limit(c)) != [] {
      BuildRows(c, w, Adopted(c, s), |s.batches|);
      AdoptedLineage(c, s, OnForm(c, w, s));
    }
  }

  lemma RemoveLineage(c: Config, w: World, s: State, id: Id, snapBatch: Option<nat>)
    requires Inv(c, s)
    ensures Lineage(s, OnRemove(c, w, s, id, snapBatch))
  {
    OnRemoveOk(c, w, s, id, snapBatch);
    var batch := if id in s.rows then s.rows[id].batch else snapBatch;
    if batch.Some? {
      var s1 := s.(rows := Dequeued(s.rows, [id]));
      RemovedRows(c, w, s1, batch.value, id);
      KeptLineage(c, s1, OnRemove(c, w, s, id, snapBatch), batch.value);
    }
  }

  lemma TimeoutLineage(c: Config, s: State, k: nat, elapsed: bool, w: World)
    requires Inv(c, s)
    ensures Lineage(s, Step(c, s, Timeout(k, elapsed, w)))
  {
    TimeoutOk(c, s, k, elapsed, w);
    if k < |s.batches| && elapsed {
      FailRows(c, w, s, k);
      KeptLineage(c, s, HandleFail(c, w, s, k), k);
    }
  }

  lemma RestampLineage(c: Config, s: State)
    requires Inv(c, s) && UnderTest(s) && TestedSha(s).Some?
    ensures Lineage(s, s.(rows := Stamped(s.rows, Tester(s).current, TestedSha(s).value)))
  {
  }

  lemma ReconcileLineage(c: Config, w: World, s: State)
    requires Inv(c, s)
    ensures Lineage(s, OnReconcile(c, w, s))
  {
    if UnderTest(s) {
      if TestedSha(s).Some? { RestampLineage(c, s); }
    } else if HasLive(s) {
      ReconcileOk(c, w, s);
      BuildRows(c, w, s, |s.batches| - 1);
      KeptLineage(c, s, OnReconcile(c, w, s), |s.batches| - 1);
    }
  }

  lemma StepLineage(c: Config, s: State, e: Event)
    requires Inv(c, s)
    ensures Lineage(s, Step(c, s, e))
  {
    match e
    case Enqueue =>
    case Promote =>
    case FormAndBuild(w) => FormLineage(c, w, s);
    case Check(_, _, _, _, _, _, _) => CheckLineage(c, s, e);
    case Timeout(k, elapsed, w) => TimeoutLineage(c, s, k, elapsed, w);
    case Remove(id, snapBatch, w) => RemoveLineage(c, w, s, id, snapBatch);
    case Reconcile(w) => ReconcileLineage(c, w, s);
    case OutsidePush(_) =>
  }

  lemma NextLineage(c: Config, tip: Commit, events: seq<Event>, t: nat)
    requires t < |events|
    ensures Lineage(At(c, tip, events, t), At(c, tip, events, t + 1))
  {
    AtNext(c, tip, events, t);
    StepLineage(c, At(c, tip, events, t), events[t]);
  }

  /** A row keeps its batch for as long as it exists. */
  lemma {:induction false} BatchKept(c: Config, tip: Commit, events: seq<Event>, u: nat, t: nat, id: Id)
    requires u <= t <= |events|
    requires id in At(c, tip, events, u).rows && At(c, tip, events, u).rows[id].batch.Some?
    requires id in At(c, tip, events, t).rows
    ensures At(c, tip, events, t).rows[id].batch == At(c, tip, events, u).rows[id].batch
    decreases t
  {
    if u < t {
      NeverAway(c, tip, events, u, t - 1, id);
      BatchKept(c, tip, events, u, t - 1, id);
      NextLineage(c, tip, events, t - 1);
    }
  }

  // ----- the shape of the commits that rows carry ---------------------------

  /** The merge of the last member's head made a commit. A forge that always
      commits does so; one that reports a contained head does unless that head
      was in the branch already. */
  predicate Extends(c: Config, s: State) {
    UnderTest(s) && Tester(s).current != [] ==>
      var b := Tester(s);
      var n := |b.current| - 1;
      !c.noop || !IsAncestor(c.head(b.current[n]), Fold(c.noop, b.base, Heads(c, b.current[..n])))
  }

  predicate EndsWith(c: Config, sha: Commit, j: Id) { sha.Merge? && sha.head == c.head(j) }

  /** The commit ends with the head of one of these members, no older than the row. */
  ghost predicate Shaped(c: Config, members: seq<Id>, id: Id, sha: Commit) {
    exists j: Id :: j in members && id <= j && EndsWith(c, sha, j)
  }

  ghost predicate ShapedRow(c: Config, s: State, i: Id)
    requires i in s.rows
  {
    s.rows[i].sha.Some? ==>
      && s.rows[i].batch.Some? && s.rows[i].batch.value < |s.batches|
      && Shaped(c, s.batches[s.rows[i].batch.value].members, i, s.rows[i].sha.value)
  }

  ghost predicate AllShaped(c: Config, s: State) { forall i :: i in s.rows ==> ShapedRow(c, s, i) }

  /** A built commit ends with the head of the last current member. */
  lemma BuiltShape(c: Config, s: State)
    requires Inv(c, s) && UnderTest(s) && Extends(c, s)
    ensures Tester(s).current != [] && TestedSha(s).Some?
    ensures EndsWith(c, TestedSha(s).value, Tester(s).current[|Tester(s).current| - 1])
  {
    assert Tested(c, s, |s.batches| - 1);
  }

  lemma TestedShaped(c: Config, s: State)
    requires Inv(c, s) && InOrder(s) && UnderTest(s) && Extends(c, s)
    ensures AllShaped(c, s)
  {
    BuiltShape(c, s);
    InvRoutesRight(c, s);
    CurrentAscending(c, s);
    UniqueParts(Tester(s));
    var current := Tester(s).current;
    var last := current[|current| - 1];
    assert last in Tester(s).Line();
    forall i | i in s.rows && s.rows[i].sha.Some?
      ensures ShapedRow(c, s, i)
    {
      CarriersAreCurrent(c, s, i, s.rows[i].sha.value);
      assert Tester(s).InPlay(i);
      var p :| 0 <= p < |current| && current[p] == i;
      assert i <= last;
    }
  }

  lemma ShapedNext(c: Config, s: State, s': State)
    requires Inv(c, s') && InOrder(s') && Extends(c, s') && AllShaped(c, s) && Lineage(s, s') && Grown(s, s')
    ensures AllShaped(c, s')
  {
    if UnderTest(s') {
      TestedShaped(c, s');
    } else {
      forall i | i in s'.rows
        ensures ShapedRow(c, s', i)
      {
        if s'.rows[i].sha.Some? { assert ShapedRow(c, s, i); }
      }
    }
  }

  ghost predicate ExtendsAt(c: Config, tip: Commit, events: seq<Event>, u: nat)
    requires u <= |events|
  {
    Extends(c, At(c, tip, events, u))
  }

  /** Every build up to `t` ends with a real merge. */
  ghost predicate AllExtend(c: Config, tip: Commit, events: seq<Event>, t: nat)
    requires t <= |events|
  {
    forall u :: 0 <= u <= t ==> ExtendsAt(c, tip, events, u)
  }

  /** A forge that always commits needs no further premise. */
  lemma CloneExtends(c: Config, tip: Commit, events: seq<Event>, t: nat)
    requires t <= |events| && !c.noop
    ensures AllExtend(c, tip, events, t)
  {
  }

  lemma ShapedAtNext(c: Config, tip: Commit, events: seq<Event>, t: nat)
    requires t < |events| && ExtendsAt(c, tip, events, t + 1) && AllShaped(c, At(c, tip, events, t))
    ensures AllShaped(c, At(c, tip, events, t + 1))
  {
    RunOk(c, tip, events[..t + 1]);
    NextLineage(c, tip, events, t);
    HistoryGrows(c, tip, events, t, t + 1);
    RunInOrder(c, tip, events[..t + 1]);
    ShapedNext(c, At(c, tip, events, t), At(c, tip, events, t + 1));
  }

  lemma {:induction false} CarriedShaped(c: Config, tip: Commit, events: seq<Event>, t: nat)
    requires t <= |events| && AllExtend(c, tip, events, t)
    ensures AllShaped(c, At(c, tip, events, t))
    decreases t
  {
    if t > 0 {
      CarriedShaped(c, tip, events, t - 1);
      assert ExtendsAt(c, tip, events, t);
      ShapedAtNext(c, tip, events, t - 1);
    }
  }

  // ----- why no row is mistaken ---------------------------------------------

  predicate SameHead(c: Config, i: Id, j: Id) { c.head(i) == c.head(j) }

  /** No two members of one batch have the same head. The same head may be
      enqueued again once its row is gone. */
  ghost predicate DistinctHeads(c: Config, s: State) {
    forall k :: 0 <= k < |s.batches| ==> DistinctAmong(c, s.batches[k].members)
  }

  ghost predicate DistinctAmong(c: Config, members: seq<Id>) {
    forall i, j :: i in members && j in members && SameHead(c, i, j) ==> i == j
  }

  lemma DistinctEarlier(c: Config, tip: Commit, events: seq<Event>, u: nat, t: nat)
    requires u <= t <= |events| && DistinctHeads(c, At(c, tip, events, t))
    ensures DistinctHeads(c, At(c, tip, events, u))
  {
    HistoryGrows(c, tip, events, u, t);
  }

  /** Whoever waits is younger than whoever is current. */
  lemma WaitingIsYounger(c: Config, s: State, i: Id, j: Id)
    requires Inv(c, s) && HasLive(s) && InOrder(s)
    requires i in Upcoming(s.batches[|s.batches| - 1].pending) && j in s.batches[|s.batches| - 1].current
    ensures j < i
  {
    var b := s.batches[|s.batches| - 1];
    SubAscending(b.Line(), b.members);
    LineOrder(b.landed, b.current, Upcoming(b.pending), i, j);
  }

  lemma LineOrder(landed: seq<Id>, current: seq<Id>, up: seq<Id>, i: Id, j: Id)
    requires Ascending(landed + current + up) && i in up && j in current
    ensures j < i
  {
    var p :| 0 <= p < |up| && up[p] == i;
    var q :| 0 <= q < |current| && current[q] == j;
    var line := landed + current + up;
    assert line[|landed| + q] == j && line[|landed| + |current| + p] == i;
  }

  /** A row of the live batch whose commit ends like the one under test is
      under test. */
  lemma ShapeIsCurrent(c: Config, s: State, id: Id, sha: Commit)
    requires Inv(c, s) && InOrder(s) && UnderTest(s) && Extends(c, s) && DistinctHeads(c, s)
    requires Shaped(c, Tester(s).members, id, sha) && TestedSha(s) == Some(sha)
    requires id in s.rows && s.rows[id].batch.Some?
    ensures id in Tester(s).current
  {
    hide Inv, Extends, InOrder, Batch.Account;
    BuiltShape(c, s);
    LastIsMember(c, s);
    OwnerIsLive(c, s, id);
    var b := Tester(s);
    var last := b.current[|b.current| - 1];
    var j: Id :| j in b.members && id <= j && EndsWith(c, sha, j);
    assert DistinctAmong(c, b.members);
    assert SameHead(c, j, last);
    if id !in b.current { WaitingIsYounger(c, s, id, last); }
  }

  lemma LastIsMember(c: Config, s: State)
    requires Inv(c, s) && UnderTest(s) && Tester(s).current != []
    ensures Tester(s).current[|Tester(s).current| - 1] in Tester(s).members
  {
    var b := Tester(s);
    UniqueParts(b);
    assert b.current[|b.current| - 1] in b.Line();
  }

  lemma OwnerIsLive(c: Config, s: State, id: Id)
    requires Inv(c, s) && id in s.rows && s.rows[id].batch.Some?
    ensures HasLive(s) && s.rows[id].batch == Some(|s.batches| - 1)
    ensures s.batches[|s.batches| - 1].InPlay(id)
  {
  }

  lemma CarriedBefore(c: Config, tip: Commit, events: seq<Event>, u: nat, v: nat, id: Id, sha: Commit)
    requires v <= u < |events| && AllExtend(c, tip, events, u + 1) && DistinctHeads(c, At(c, tip, events, u + 1))
    requires CarriedAt(At(c, tip, events, v), id, sha)
    requires var s' := At(c, tip, events, u + 1); UnderTest(s') && TestedSha(s') == Some(sha) && id in s'.rows
    ensures id in Tester(At(c, tip, events, u + 1)).current
  {
    hide Inv, InOrder, Extends, Shaped, Run;
    assert AllExtend(c, tip, events, v);
    CarriedShaped(c, tip, events, v);
    assert ShapedRow(c, At(c, tip, events, v), id);
    BatchKept(c, tip, events, v, u + 1, id);
    HistoryGrows(c, tip, events, v, u + 1);
    RunOk(c, tip, events[..u + 1]);
    RunInOrder(c, tip, events[..u + 1]);
    assert ExtendsAt(c, tip, events, u + 1);
    OwnerIsLive(c, At(c, tip, events, u + 1), id);
    ShapeIsCurrent(c, At(c, tip, events, u + 1), id, sha);
  }

  /** In every run, whatever the environment does: if no batch has two members
      with the same head and each build ends with a real merge, builds are unambiguous. */
  lemma BuildsAreUnambiguous(c: Config, tip: Commit, events: seq<Event>, t: nat)
    requires t <= |events| && AllExtend(c, tip, events, t) && DistinctHeads(c, At(c, tip, events, t))
    ensures Unambiguous(c, tip, events, t)
  {
    forall u | 0 <= u < t
      ensures UnambiguousAt(c, tip, events, u)
    {
      DistinctEarlier(c, tip, events, u + 1, t);
      forall id, sha | Carried(c, tip, events, u, id, sha) && UnderTest(At(c, tip, events, u + 1))
          && TestedSha(At(c, tip, events, u + 1)) == Some(sha) && id in At(c, tip, events, u + 1).rows
        ensures id in Tester(At(c, tip, events, u + 1)).current
      {
        var v :| 0 <= v <= u && CarriedAt(At(c, tip, events, v), id, sha);
        CarriedBefore(c, tip, events, u, v, id, sha);
      }
    }
  }

  /** Tested is what lands: for each landing, with a snapshot of any age, what is
      pushed is the fold of exactly the current members' heads on the tip their
      build saw, and every result it was judged by belongs to that build. A forge
      that always commits needs nothing of the builds; one that reports contained
      heads needs that no build ends with one. */
  lemma TestedAlwaysLands(c: Config, tip: Commit, events: seq<Event>, t: nat)
    requires t < |events| && (!c.noop || AllExtend(c, tip, events, t)) && DistinctHeads(c, At(c, tip, events, t))
    requires var s, e := At(c, tip, events, t), events[t];
             Lands(s, e) && Carried(c, tip, events, t, e.snap.id, e.snap.sha.value)
    ensures var s, e := At(c, tip, events, t), events[t];
            var b := s.batches[e.snap.batch];
            && b.sha == e.snap.sha
            && e.snap.sha.value == Fold(c.noop, b.base, Heads(c, b.current))
            && GreenOn(Recorded(s, e).rows[e.snap.id].checks, e.required.value, b)
            && IsAncestor(e.snap.sha.value, At(c, tip, events, t + 1).target)
            && (Undisturbed(e.w) ==> At(c, tip, events, t + 1).target == e.snap.sha.value)
  {
    if !c.noop { CloneExtends(c, tip, events, t); }
    BuildsAreUnambiguous(c, tip, events, t);
    TestedIsWhatLands(c, tip, events, t);
  }
}
