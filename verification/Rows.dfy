/** The life of a queue row: how it enters, who may skip testing, which batch
    takes it, and that a row that was taken out never comes back, is in no later
    batch, and does not land any more. */
module Rows {
  import opened Lists
  import opened Commits
  import opened Model
  import opened Invariants
  import opened Transitions
  import opened Guarantees
  import opened Landing
  import opened Identity
  import opened Recovery
  import opened Aftermath
  import opened Causes

  // ----- skipping the test --------------------------------------------------

  /** Promotion changes a row if and only if it is queued and no older row exists;
      that row becomes Succeeded, and nothing else moves. */
  lemma PromoteIff(c: Config, s: State)
    ensures var s' := Step(c, s, Promote);
            && s'.target == s.target && s'.next == s.next && s'.batches == s.batches && s'.rows.Keys == s.rows.Keys
            && (forall i :: i in s.rows ==>
                  (s'.rows[i] != s.rows[i] <==> s.rows[i].state.Queued? && forall j :: j in s.rows ==> i <= j))
            && (forall i :: i in s.rows && s'.rows[i] != s.rows[i] ==> s'.rows[i] == s.rows[i].(state := Succeeded))
  {
  }

  /** What a step makes of the state of a row that stays. */
  ghost predicate StateKept(s: State, e: Event, s': State, i: Id)
    requires i in s.rows && i in s'.rows
  {
    || s'.rows[i].state == s.rows[i].state
    || (s'.rows[i].state.Succeeded? && e.Promote? && s.rows[i].state.Queued? && Oldest(s.rows, i))
    || (s'.rows[i].state.InTesting? && e.FormAndBuild? && s.rows[i].state.Queued?)
  }

  lemma FormStates(c: Config, w: World, s: State, i: Id)
    requires i in OnForm(c, w, s).rows
    ensures i in s.rows && StateKept(s, FormAndBuild(w), OnForm(c, w, s), i)
  {
    if HasLive(s) {
      BuildRows(c, w, s, |s.batches| - 1);
    } else if QueuedHead(s.rows, s.next, Limit(c)) != [] {
      QueuedHeadFacts(s.rows, s.next, Limit(c));
      BuildRows(c, w, Adopted(c, s), |s.batches|);
    }
  }

  lemma CheckStates(c: Config, s: State, e: Event, i: Id)
    requires e.Check? && i in Step(c, s, e).rows
    ensures i in s.rows && StateKept(s, e, Step(c, s, e), i)
  {
    hide HandlePass, HandleFail;
    if Fresh(s, e.snap) {
      PassRows(c, e.w, e.push, Recorded(s, e), e.snap.batch);
      FailRows(c, e.w, Recorded(s, e), e.snap.batch);
    }
  }

  lemma RemoveStates(c: Config, s: State, e: Event, i: Id)
    requires e.Remove? && i in Step(c, s, e).rows
    ensures i in s.rows && i != e.id && StateKept(s, e, Step(c, s, e), i)
  {
    var k := ReportedTo(s, e);
    if k.Some? { RemovedRows(c, e.w, s.(rows := Dequeued(s.rows, [e.id])), k.value, e.id); }
  }

  lemma OtherStates(c: Config, s: State, e: Event, i: Id)
    requires (e.Timeout? || e.Reconcile?) && i in Step(c, s, e).rows
    ensures i in s.rows && StateKept(s, e, Step(c, s, e), i)
  {
    if e.Timeout? {
      if e.batch < |s.batches| && e.elapsed { FailRows(c, e.w, s, e.batch); }
    } else if HasLive(s) {
      BuildRows(c, e.w, s, |s.batches| - 1);
    }
  }

  /** A row is new, or was there and kept its state, or was claimed or promoted. */
  lemma RowFollows(c: Config, s: State, e: Event, i: Id)
    requires i in Step(c, s, e).rows
    ensures (e.Enqueue? && i == s.next && Step(c, s, e).rows[i] == Row(Queued, None, None, map[])) ||
            (i in s.rows && StateKept(s, e, Step(c, s, e), i))
  {
    hide OnForm, OnCheck, OnRemove, OnReconcile, HandleFail;
    match e
    case Enqueue =>
    case Promote => PromoteIff(c, s);
    case FormAndBuild(w) => FormStates(c, w, s, i);
    case Check(_, _, _, _, _, _, _) => CheckStates(c, s, e, i);
    case Timeout(_, _, _) => OtherStates(c, s, e, i);
    case Remove(_, _, _) => RemoveStates(c, s, e, i);
    case Reconcile(_) => OtherStates(c, s, e, i);
    case OutsidePush(_) =>
  }

  ghost predicate PromotedFirst(s: State) {
    forall i, j :: i in s.rows && j in s.rows && s.rows[i].state.Succeeded? ==> i <= j
  }

  lemma PromotedStep(c: Config, s: State, e: Event)
    requires Inv(c, s) && PromotedFirst(s)
    ensures PromotedFirst(Step(c, s, e))
  {
    var s' := Step(c, s, e);
    forall i, j | i in s'.rows && j in s'.rows && s'.rows[i].state.Succeeded?
      ensures i <= j
    {
      RowFollows(c, s, e, i);
      RowFollows(c, s, e, j);
      KeysBelow(c, s, i);
    }
  }

  lemma {:induction false} PromotedRun(c: Config, tip: Commit, events: seq<Event>)
    ensures PromotedFirst(Run(c, Initial(tip), events))
  {
    if events != [] {
      var before := events[..|events| - 1];
      PromotedRun(c, tip, before);
      RunOk(c, tip, before);
      PromotedStep(c, Run(c, Initial(tip), before), events[|events| - 1]);
    }
  }

  /** In every reachable state a row that skipped testing is the oldest of the
      queue, so there is at most one. */
  lemma SucceededIsOldest(c: Config, tip: Commit, events: seq<Event>, i: Id, j: Id)
    requires var rows := Run(c, Initial(tip), events).rows; i in rows && j in rows && rows[i].state.Succeeded?
    ensures i <= j && (Run(c, Initial(tip), events).rows[j].state.Succeeded? ==> i == j)
  {
    PromotedRun(c, tip, events);
  }

  // ----- being taken out ----------------------------------------------------

  lemma {:induction false} BuildTouches(c: Config, w: World, s: State, k: nat, i: Id)
    requires k < |s.batches| && i in s.rows && !s.batches[k].InPlay(i)
    ensures i in Build(c, w, s, k).rows && Build(c, w, s, k).rows[i] == s.rows[i]
    decreases |s.batches[k].pending|, 1
  {
    if !w.broken(|s.batches[k].pending|) {
      var s1 := Weeded(c, w, s, k);
      WeededDraws(c, w, s, k);
      WeededTouches(c, w, s, k, i);
      if s1.batches[k].current == [] { NextTouches(c, w, s1, k, i); }
    }
  }

  lemma WeededTouches(c: Config, w: World, s: State, k: nat, i: Id)
    requires k < |s.batches| && i in s.rows && !s.batches[k].InPlay(i)
    ensures i in Weeded(c, w, s, k).rows && Weeded(c, w, s, k).rows[i] == s.rows[i]
  {
    var entries := Existing(s.rows, s.batches[k].current);
    ExistingFacts(s.rows, s.batches[k].current);
    PickedOf(entries, Merges(c, w, s, k).answers);
  }

  lemma {:induction false} NextTouches(c: Config, w: World, s: State, k: nat, i: Id)
    requires k < |s.batches| && i in s.rows && !s.batches[k].InPlay(i)
    ensures i in Next(c, w, s, k).rows && Next(c, w, s, k).rows[i] == s.rows[i]
    decreases |s.batches[k].pending|, 0
  {
    var b := s.batches[k];
    if b.pending != [] {
      PopDraws(s, k);
      BuildTouches(c, w, Put(s, k, b.Pop()), k, i);
    }
  }

  lemma DiscardedPlays(b: Batch, id: Id, i: Id)
    requires !b.InPlay(i)
    ensures !b.Discard(id).InPlay(i) && !b.Discard(id).Rebuilding().InPlay(i)
  {
    WithoutFilters(b.current, id);
    WithoutFilters(Upcoming(b.pending), id);
    TrimUpcoming(b.pending, id);
  }

  /** The member is in play for the live batch that the removal is reported to. */
  predicate InPlayFor(s: State, e: Event, i: Id)
    requires e.Remove?
  {
    var k := ReportedTo(s, e);
    k.Some? && k.value < |s.batches| && s.batches[k.value].Live() && s.batches[k.value].InPlay(i)
  }

  /** In every state whatever, a batch at work or none: the removed row is gone,
      and a row that is neither it nor in play for the batch it is reported to
      stays as it was. */
  lemma RemovedIsGone(c: Config, s: State, e: Event, i: Id)
    requires e.Remove?
    ensures e.id !in Step(c, s, e).rows
    ensures i in s.rows && i != e.id && !InPlayFor(s, e, i) ==>
              i in Step(c, s, e).rows && Step(c, s, e).rows[i] == s.rows[i]
  {
    var k := ReportedTo(s, e);
    if e.id in Step(c, s, e).rows { RemoveStates(c, s, e, e.id); }
    if k.Some? && k.value < |s.batches| && s.batches[k.value].Live() {
      RemovedTouches(c, e.w, s, k.value, e.id, i);
    }
  }

  lemma RemovedTouches(c: Config, w: World, s: State, k: nat, id: Id, i: Id)
    requires k < |s.batches| && s.batches[k].Live()
    ensures i in s.rows && i != id && !s.batches[k].InPlay(i) ==>
              var s' := OnMemberRemoved(c, w, s.(rows := Dequeued(s.rows, [id])), k, id);
              i in s'.rows && s'.rows[i] == s.rows[i]
  {
    var b := s.batches[k];
    RemovedIs(c, w, s, k, id);
    if i in s.rows && i != id && !b.InPlay(i) {
      DiscardedPlays(b, id, i);
      if id in b.current {
        if b.Discard(id).current == [] {
          NextTouches(c, w, Discarded(s, k, b.Discard(id), id), k, i);
        } else {
          BuildTouches(c, w, Discarded(s, k, b.Discard(id).Rebuilding(), id), k, i);
        }
      }
    }
  }

  /** A key below the next one that is not in the queue never comes back. */
  lemma {:induction false} GoneForGood(c: Config, tip: Commit, events: seq<Event>, t: nat, u: nat, id: Id)
    requires t <= u <= |events|
    requires id !in At(c, tip, events, t).rows && id < At(c, tip, events, t).next
    ensures id !in At(c, tip, events, u).rows && id < At(c, tip, events, u).next
    decreases u
  {
    if t < u {
      GoneForGood(c, tip, events, t, u - 1, id);
      NextMoves(c, tip, events, u - 1);
    }
  }

  lemma NewMembersQueued(c: Config, s: State, e: Event, k: nat, id: Id)
    requires Inv(c, s) && |s.batches| <= k < |Step(c, s, e).batches| && id in Step(c, s, e).batches[k].members
    ensures id in s.rows
  {
    hide Inv, Step;
    NewIsAdopted(c, s, e);
    QueuedHeadFacts(s.rows, s.next, Limit(c));
  }

  /** No batch that is formed later has the id among its members. */
  lemma {:induction false} InNoLaterBatch(c: Config, tip: Commit, events: seq<Event>, t: nat, u: nat, k: nat, id: Id)
    requires t <= u <= |events|
    requires id !in At(c, tip, events, t).rows && id < At(c, tip, events, t).next
    requires |At(c, tip, events, t).batches| <= k < |At(c, tip, events, u).batches|
    ensures id !in At(c, tip, events, u).batches[k].members
    decreases u
  {
    hide Inv, Step, Run, Moves;
    if t < u {
      var s := At(c, tip, events, u - 1);
      AtNext(c, tip, events, u - 1);
      HistoryGrows(c, tip, events, u - 1, u);
      if k < |s.batches| {
        InNoLaterBatch(c, tip, events, t, u - 1, k, id);
      } else {
        GoneForGood(c, tip, events, t, u - 1, id);
        if id in At(c, tip, events, u).batches[k].members { NewMembersQueued(c, s, events[u - 1], k, id); }
      }
    }
  }

  lemma CurrentHasRow(c: Config, s: State, k: nat, id: Id)
    requires Inv(c, s) && k < |s.batches| && id in s.batches[k].current
    ensures id in s.rows
  {
    AnyBatch(c, s, k);
    assert s.batches[k].InPlay(id);
  }

  /** No batch lands it that had not landed it before. */
  lemma {:induction false} LandsNoMore(c: Config, tip: Commit, events: seq<Event>, t: nat, u: nat, k: nat, id: Id)
    requires t <= u <= |events|
    requires id !in At(c, tip, events, t).rows && id < At(c, tip, events, t).next
    requires k < |At(c, tip, events, u).batches| && id in At(c, tip, events, u).batches[k].landed
    ensures k < |At(c, tip, events, t).batches| && id in At(c, tip, events, t).batches[k].landed
    decreases u
  {
    hide Inv, Step, Run;
    if t < u {
      var s, e := At(c, tip, events, u - 1), events[u - 1];
      AtNext(c, tip, events, u - 1);
      GoneForGood(c, tip, events, t, u - 1, id);
      if k < |s.batches| {
        InvIsRecoverable(c, s);
        LandedAndEjected(c, s, e, k, id);
        if id in s.batches[k].current { CurrentHasRow(c, s, k, id); }
        LandsNoMore(c, tip, events, t, u - 1, k, id);
      } else {
        NothingLandedYet(c, s, e, k);
      }
    }
  }

  lemma NothingLandedYet(c: Config, s: State, e: Event, k: nat)
    requires Inv(c, s) && |s.batches| <= k < |Step(c, s, e).batches|
    ensures Step(c, s, e).batches[k].landed == []
  {
    hide Inv, Step;
    NewIsAdopted(c, s, e);
  }

  /** Over every run: once a removal is reported, whether a batch is live or not,
      the row is gone for good, no batch formed later has it, and no batch lands
      it that had not landed it before. */
  lemma RemovedStaysAway(c: Config, tip: Commit, events: seq<Event>, t: nat, u: nat, k: nat)
    requires t < u <= |events| && events[t].Remove? && events[t].id < At(c, tip, events, t).next
    ensures var id := events[t].id;
            && id !in At(c, tip, events, u).rows
            && (|At(c, tip, events, t).batches| <= k < |At(c, tip, events, u).batches| ==>
                  id !in At(c, tip, events, u).batches[k].members)
            && (k < |At(c, tip, events, u).batches| && id in At(c, tip, events, u).batches[k].landed ==>
                  k < |At(c, tip, events, t).batches| && id in At(c, tip, events, t).batches[k].landed)
  {
    var id, s, s' := events[t].id, At(c, tip, events, t), At(c, tip, events, t + 1);
    AtNext(c, tip, events, t);
    NextMoves(c, tip, events, t);
    RemovedIsGone(c, s, events[t], id);
    GoneForGood(c, tip, events, t + 1, u, id);
    RemovalForms(c, s, events[t]);
    if |s.batches| <= k < |At(c, tip, events, u).batches| { InNoLaterBatch(c, tip, events, t + 1, u, k, id); }
    if k < |At(c, tip, events, u).batches| && id in At(c, tip, events, u).batches[k].landed {
      LandsNoMore(c, tip, events, t + 1, u, k, id);
      InvIsRecoverable(c, s);
      LandedAndEjected(c, s, events[t], k, id);
    }
  }

  lemma RemovalForms(c: Config, s: State, e: Event)
    requires Inv(c, s) && e.Remove?
    ensures |Step(c, s, e).batches| == |s.batches|
  {
    StepMoves(c, s, e);
    if |s.batches| < |Step(c, s, e).batches| { OnlyFormingAdds(c, s, e); }
  }

  // ----- which rows a batch takes -------------------------------------------

  /** A batch takes everything queued unless that many rows reach the configured
      maximum; a maximum of zero or less stands for 2^30. */
  lemma TakesAll(c: Config, rows: Rows, upTo: Id)
    ensures var r, max := QueuedHead(rows, upTo, Limit(c)), if c.batchMax <= 0 then 0x4000_0000 else c.batchMax;
            |r| <= max && (|r| == max || forall i :: i in r <==> i < upTo && i in rows && rows[i].state.Queued?)
  {
    QueuedHeadFacts(rows, upTo, Limit(c));
    QueuedHeadOldest(rows, upTo, Limit(c));
  }
}
