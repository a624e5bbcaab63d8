/** The promises of the batch engine over whole runs: any order of events,
    arbitrary verdicts, stale snapshots, conflicts, failed builds, removals and
    pushes by others. */
module Guarantees {
  import opened Lists
  import opened Commits
  import opened Checks
  import opened Model
  import opened Invariants
  import opened Transitions

  // ----- what one step may change -------------------------------------------

  ghost predicate Later(b: Batch, b': Batch) {
    && b'.members == b.members
    && b.landed <= b'.landed
    && b.builds <= b'.builds
    && (b.phase.Done? ==> b' == b)
    && (b'.phase.Testing? && b'.builds == b.builds ==>
          b.phase.Testing? && b'.sha == b.sha && b'.current == b.current)
  }

  ghost predicate Moves(s: State, s': State) {
    && IsAncestor(s.target, s'.target)
    && s.next <= s'.next
    && |s.batches| <= |s'.batches|
    && (forall j :: 0 <= j < |s.batches| ==> Later(s.batches[j], s'.batches[j]))
    && (forall i :: i in s'.rows ==> i in s.rows || s.next <= i)
  }

  lemma AnyBatch(c: Config, s: State, j: nat)
    requires Inv(c, s) && j < |s.batches|
    ensures Sound(c, s, s.batches[j])
    ensures s.batches[j].Live() ==> j == |s.batches| - 1 && LiveOk(c, s, j)
    ensures !s.batches[j].Live() ==> Closed(c, s, s.batches[j])
  {
  }

  lemma ProgressMoves(s: State, s': State, k: nat)
    requires k < |s.batches| && s.batches[k].Live()
    requires Progresses(s, s', k)
    ensures Moves(s, s')
  {
  }

  lemma EvolvesMoves(s: State, s': State, k: nat)
    requires k < |s.batches| && s.batches[k].Live()
    requires Evolves(s, s', k)
    ensures Moves(s, s')
  {
  }

  lemma AdoptMoves(c: Config, s: State, s': State)
    requires Evolves(Adopted(c, s), s', |s.batches|)
    ensures Moves(s, s')
  {
  }

  lemma FormMoves(c: Config, w: World, s: State)
    requires Inv(c, s)
    ensures Moves(s, OnForm(c, w, s))
  {
    if HasLive(s) {
      var k := |s.batches| - 1;
      if s.batches[k].phase.Forming? {
        BuildOk(c, w, s, k);
        EvolvesMoves(s, Build(c, w, s, k), k);
      }
    } else if QueuedHead(s.rows, s.next, Limit(c)) != [] {
      AdoptOk(c, s);
      BuildOk(c, w, Adopted(c, s), |s.batches|);
      AdoptMoves(c, s, OnForm(c, w, s));
    }
  }

  /** The result as a fresh event stores it. */
  function NewResult(s: State, e: Event): Result
    requires e.Check? && Fresh(s, e.snap)
  {
    Result(e.state, e.snap.sha.value, s.batches[e.snap.batch].builds)
  }

  /** The state a fresh event is judged in: the result is saved. */
  function Recorded(s: State, e: Event): State
    requires e.Check? && Fresh(s, e.snap)
  {
    Saved(s, e.snap.id, e.context, NewResult(s, e))
  }

  /** What the recorded results say, if the required checks are known. */
  function Decision(s: State, e: Event): Ruling
    requires e.Check? && Fresh(s, e.snap)
  {
    if e.required.None? then Waits
    else Judge(Standings(Recorded(s, e).rows[e.snap.id].checks), e.required.value)
  }

  /** The event makes the engine act on the batch. */
  predicate Acts(s: State, e: Event) {
    e.Check? && Fresh(s, e.snap) &&
    match Decision(s, e)
    case Passes => !e.push.Unavailable?
    case Fails => true
    case Waits => e.required.Some? && e.timedOut
  }

  /** A check event is dropped, or only recorded, or makes the engine act. */
  lemma CheckResult(c: Config, s: State, e: Event)
    requires Inv(c, s) && e.Check?
    ensures !Fresh(s, e.snap) ==> Step(c, s, e) == s
    ensures Fresh(s, e.snap) ==>
              && e.snap.batch == |s.batches| - 1
              && s.batches[e.snap.batch].Live()
              && Inv(c, Recorded(s, e))
    ensures Fresh(s, e.snap) && !Acts(s, e) ==> Step(c, s, e) == Recorded(s, e)
    ensures Acts(s, e) ==>
              && Progresses(Recorded(s, e), Step(c, s, e), e.snap.batch)
              && Credit(Step(c, s, e).batches[e.snap.batch]) < Credit(s.batches[e.snap.batch])
  {
    hide Progresses, LiveOk, Idle, Credit, HandlePass, HandleFail;
    if Fresh(s, e.snap) {
      SavedOk(c, s, e.snap, e.context, NewResult(s, e));
      FreshIsLast(c, s, e.snap);
      var s1 := Recorded(s, e);
      if e.required.Some? {
        match Decision(s, e)
        case Passes => PassOk(c, e.w, e.push, s1, e.snap.batch);
        case Fails => FailOk(c, e.w, s1, e.snap.batch);
        case Waits => if e.timedOut { FailOk(c, e.w, s1, e.snap.batch); }
      }
    }
  }

  lemma CheckMoves(c: Config, s: State, e: Event)
    requires Inv(c, s) && e.Check?
    ensures Moves(s, Step(c, s, e))
  {
    hide Inv, Progresses, Credit, Batch.Account, Decision;
    CheckResult(c, s, e);
    if Acts(s, e) {
      ProgressMoves(Recorded(s, e), Step(c, s, e), e.snap.batch);
    }
  }

  lemma OneMoves(s: State, s': State, k: nat)
    requires k < |s.batches| == |s'.batches|
    requires IsAncestor(s.target, s'.target) && s'.next == s.next
    requires forall j :: 0 <= j < |s.batches| && j != k ==> s'.batches[j] == s.batches[j]
    requires forall i :: i in s'.rows ==> i in s.rows
    requires Later(s.batches[k], s'.batches[k])
    ensures Moves(s, s')
  {
  }

  lemma RemovalMoves(s: State, s': State, k: nat, id: Id)
    requires k < |s.batches| && s.batches[k].Live() && Removal(s, s', k, id)
    ensures Moves(s, s')
  {
    OneMoves(s, s', k);
  }

  lemma DropMoves(s: State, id: Id)
    ensures Moves(s, s.(rows := Dequeued(s.rows, [id])))
  {
  }

  lemma RemoveMoves(c: Config, w: World, s: State, id: Id, snapBatch: Option<nat>)
    requires Inv(c, s)
    ensures Moves(s, OnRemove(c, w, s, id, snapBatch))
  {
    hide Inv, LiveOk, Moves, Removal, Build, Next, Batch.Account;
    var batch := if id in s.rows then s.rows[id].batch else snapBatch;
    if batch.Some? && batch.value < |s.batches| && s.batches[batch.value].Live() {
      LiveIsLast(c, s, batch.value);
      AnyBatch(c, s, batch.value);
      RemoveOk(c, w, s, batch.value, id);
      RemovalMoves(s, OnRemove(c, w, s, id, snapBatch), batch.value, id);
    } else {
      DropMoves(s, id);
    }
  }

  lemma RestampMoves(s: State, ids: seq<Id>, sha: Commit)
    ensures Moves(s, s.(rows := Stamped(s.rows, ids, sha)))
  {
  }

  lemma NothingMoves(s: State)
    ensures Moves(s, s)
  {
  }

  lemma ReconcileMoves(c: Config, w: World, s: State)
    requires Inv(c, s)
    ensures Moves(s, OnReconcile(c, w, s))
  {
    hide Moves, Evolves, Build, Batch.Account;
    NothingMoves(s);
    if HasLive(s) {
      var k := |s.batches| - 1;
      if s.batches[k].phase.Forming? {
        BuildOk(c, w, s, k);
        EvolvesMoves(s, Build(c, w, s, k), k);
      } else if s.batches[k].sha.Some? {
        RestampMoves(s, s.batches[k].current, s.batches[k].sha.value);
      }
    }
  }

  lemma TimeoutMoves(c: Config, s: State, k: nat, elapsed: bool, w: World)
    requires Inv(c, s)
    ensures Moves(s, Step(c, s, Timeout(k, elapsed, w)))
  {
    hide Inv, LiveOk, Progresses, Batch.Account, Credit;
    if k < |s.batches| && elapsed && s.batches[k].phase.Testing? {
      LiveIsLast(c, s, k);
      AnyBatch(c, s, k);
      FailOk(c, w, s, k);
      ProgressMoves(s, HandleFail(c, w, s, k), k);
    }
  }

  lemma StepMoves(c: Config, s: State, e: Event)
    requires Inv(c, s)
    ensures Moves(s, Step(c, s, e))
  {
    match e
    case Enqueue =>
    case Promote =>
    case FormAndBuild(w) => FormMoves(c, w, s);
    case Check(_, _, _, _, _, _, _) => CheckMoves(c, s, e);
    case Timeout(k, elapsed, w) => TimeoutMoves(c, s, k, elapsed, w);
    case Remove(id, snapBatch, w) => RemoveMoves(c, w, s, id, snapBatch);
    case Reconcile(w) => ReconcileMoves(c, w, s);
    case OutsidePush(commit) =>
  }

  /** The state after the first `t` events. */
  function At(c: Config, tip: Commit, events: seq<Event>, t: nat): State
    requires t <= |events|
  {
    Run(c, Initial(tip), events[..t])
  }

  lemma AtNext(c: Config, tip: Commit, events: seq<Event>, t: nat)
    requires t < |events|
    ensures At(c, tip, events, t + 1) == Step(c, At(c, tip, events, t), events[t])
    ensures Inv(c, At(c, tip, events, t)) && Inv(c, At(c, tip, events, t + 1))
  {
    assert events[..t + 1][..t] == events[..t];
    RunOk(c, tip, events[..t]);
    RunOk(c, tip, events[..t + 1]);
  }

  lemma NextMoves(c: Config, tip: Commit, events: seq<Event>, t: nat)
    requires t < |events|
    ensures Moves(At(c, tip, events, t), At(c, tip, events, t + 1))
  {
    AtNext(c, tip, events, t);
    StepMoves(c, At(c, tip, events, t), events[t]);
  }

  // ----- history only grows -------------------------------------------------

  /** The earlier tip is an ancestor of the later one; a batch that is done
      stays as it is; landings are only appended. */
  ghost predicate Grown(s: State, s': State) {
    && IsAncestor(s.target, s'.target)
    && s.next <= s'.next
    && |s.batches| <= |s'.batches|
    && (forall j :: 0 <= j < |s.batches| ==>
          && s.batches[j].landed <= s'.batches[j].landed
          && s.batches[j].members == s'.batches[j].members
          && (s.batches[j].phase.Done? ==> s'.batches[j] == s.batches[j]))
  }

  lemma GrownMore(s: State, t: State, u: State)
    requires Grown(s, t) && Moves(t, u)
    ensures Grown(s, u)
  {
    AncestorTrans(s.target, t.target, u.target);
    forall j | 0 <= j < |s.batches|
      ensures s.batches[j].landed <= u.batches[j].landed
    {
      assert Later(t.batches[j], u.batches[j]);
    }
  }

  /** History only grows, between any two moments of any run. */
  lemma {:induction false} HistoryGrows(c: Config, tip: Commit, events: seq<Event>, t: nat, u: nat)
    requires t <= u <= |events|
    ensures Grown(At(c, tip, events, t), At(c, tip, events, u))
    decreases u
  {
    if t < u {
      HistoryGrows(c, tip, events, t, u - 1);
      NextMoves(c, tip, events, u - 1);
      GrownMore(At(c, tip, events, t), At(c, tip, events, u - 1), At(c, tip, events, u));
    }
  }

  lemma {:induction false} BuildsGrow(c: Config, tip: Commit, events: seq<Event>, t: nat, u: nat, k: nat)
    requires t <= u <= |events| && k < |At(c, tip, events, t).batches|
    ensures k < |At(c, tip, events, u).batches|
    ensures At(c, tip, events, t).batches[k].builds <= At(c, tip, events, u).batches[k].builds
    decreases u
  {
    if t < u {
      BuildsGrow(c, tip, events, t, u - 1, k);
      NextMoves(c, tip, events, u - 1);
      assert Later(At(c, tip, events, u - 1).batches[k], At(c, tip, events, u).batches[k]);
    }
  }

  /** Once landed, a member's head is reachable from the target branch for the
      rest of the run. */
  lemma LandedStaysReachable(c: Config, tip: Commit, events: seq<Event>, t: nat, u: nat, j: nat, id: Id)
    requires t <= u <= |events|
    requires j < |At(c, tip, events, t).batches| && id in At(c, tip, events, t).batches[j].landed
    ensures IsAncestor(c.head(id), At(c, tip, events, u).target)
  {
    HistoryGrows(c, tip, events, t, u);
    RunOk(c, tip, events[..t]);
    var s := At(c, tip, events, t);
    AnyBatch(c, s, j);
    AncestorTrans(c.head(id), s.target, At(c, tip, events, u).target);
  }

  // ----- accounting ---------------------------------------------------------

  lemma Covered(b: Batch)
    requires Accounted(b)
    ensures Sub(b.landed + b.current + Upcoming(b.pending), b.members)
    ensures Unique(b.landed + b.current + Upcoming(b.pending))
    ensures forall i :: i in b.members ==> b.InPlay(i) || i in b.landed || i in b.ejected
  {
    UniqueParts(b);
    forall i | i in b.members
      ensures b.InPlay(i) || i in b.landed || i in b.ejected
    {
      assert i in multiset(b.members);
      assert i in b.Account();
    }
  }

  /** First in, first out, with no loss, in every batch of every reachable state. */
  lemma NothingLost(c: Config, tip: Commit, events: seq<Event>, j: nat)
    requires j < |Run(c, Initial(tip), events).batches|
    ensures var b := Run(c, Initial(tip), events).batches[j];
            && Sub(b.landed + b.current + Upcoming(b.pending), b.members)
            && Unique(b.landed + b.current + Upcoming(b.pending))
            && (forall i :: i in b.members ==> b.InPlay(i) || i in b.landed || i in b.ejected)
            && (b.phase.Done? ==> b.current == [] && b.pending == [])
  {
    RunOk(c, tip, events);
    AnyBatch(c, Run(c, Initial(tip), events), j);
    Covered(Run(c, Initial(tip), events).batches[j]);
  }

  /** Every member accounted for exactly once. */
  ghost predicate Exact(b: Batch) { b.Account() == multiset(b.members) }

  /** The batch a removal is reported to. */
  function ReportedTo(s: State, e: Event): Option<nat>
    requires e.Remove?
  {
    if e.id in s.rows then s.rows[e.id].batch else e.snapBatch
  }

  /** The removal is reported to batch `k`, which is live. */
  predicate Addresses(s: State, e: Event, k: nat) {
    e.Remove? && ReportedTo(s, e) == Some(k) && k < |s.batches| && s.batches[k].Live()
  }

  /** The removal reaches the engine while the member is still in play. */
  predicate Punctual(s: State, e: Event) {
    e.Remove? && ReportedTo(s, e).Some? && Addresses(s, e, ReportedTo(s, e).value) ==>
      s.batches[ReportedTo(s, e).value].InPlay(e.id)
  }

  lemma AddressedStep(c: Config, s: State, e: Event, k: nat)
    requires Inv(c, s) && Addresses(s, e, k)
    ensures Step(c, s, e) == OnMemberRemoved(c, e.w, s.(rows := Dequeued(s.rows, [e.id])), k, e.id)
    ensures Inv(c, Step(c, s, e)) && Removal(s, Step(c, s, e), k, e.id)
  {
    AnyBatch(c, s, k);
    hide Removal, Inv, LiveOk, OnMemberRemoved, Batch.Account;
    RemoveOk(c, e.w, s, k, e.id);
  }

  /** A removal keeps the accounting exact if and only if the member is still in
      play. A poll that works from an old snapshot can report a member that the
      engine landed or ejected in the meantime; the row then names it twice. */
  lemma RemovalExactIff(c: Config, s: State, e: Event, k: nat)
    requires Inv(c, s) && Addresses(s, e, k) && Exact(s.batches[k])
    ensures k < |Step(c, s, e).batches|
    ensures Exact(Step(c, s, e).batches[k]) <==> s.batches[k].InPlay(e.id)
  {
    AddressedStep(c, s, e, k);
    OneMore(s.batches[k].Account(), e.id);
  }

  lemma OneMore(m: multiset<Id>, id: Id)
    ensures m + multiset{id} != m
  {
    assert (m + multiset{id})[id] == m[id] + 1;
  }

  /** Every other event conserves the accounted members. */
  lemma Conserved(c: Config, s: State, e: Event, j: nat)
    requires Inv(c, s) && j < |s.batches|
    requires !Addresses(s, e, j)
    ensures j < |Step(c, s, e).batches| && Step(c, s, e).batches[j].Account() == s.batches[j].Account()
  {
    hide Inv, LiveOk, Batch.Account, Sound, Closed, Credit;
    StepMoves(c, s, e);
    AnyBatch(c, s, j);
    if s.batches[j].Live() {
      match e
      case Check(_, _, _, _, _, _, _) => CheckResult(c, s, e);
      case Timeout(k, elapsed, w) => TimeoutConserves(c, s, k, elapsed, w, j);
      case FormAndBuild(w) => if s.batches[j].phase.Forming? { BuildOk(c, w, s, j); }
      case Reconcile(w) => if s.batches[j].phase.Forming? { BuildOk(c, w, s, j); }
      case Remove(id, snapBatch, w) => NotAddressed(c, s, e, j);
      case _ =>
    }
  }

  lemma TimeoutConserves(c: Config, s: State, k: nat, elapsed: bool, w: World, j: nat)
    requires Inv(c, s) && j < |s.batches|
    ensures j < |Step(c, s, Timeout(k, elapsed, w)).batches|
    ensures Step(c, s, Timeout(k, elapsed, w)).batches[j].Account() == s.batches[j].Account()
  {
    hide Inv, LiveOk, Batch.Account, Credit;
    if k < |s.batches| && s.batches[k].phase.Testing? {
      AnyBatch(c, s, k);
      FailOk(c, w, s, k);
    }
  }

  lemma NotAddressed(c: Config, s: State, e: Event, j: nat)
    requires Inv(c, s) && e.Remove? && j < |s.batches| && s.batches[j].Live() && !Addresses(s, e, j)
    ensures Step(c, s, e).batches == s.batches
  {
    AnyBatch(c, s, j);
    var batch := if e.id in s.rows then s.rows[e.id].batch else e.snapBatch;
    if batch.Some? && batch.value < |s.batches| {
      AnyBatch(c, s, batch.value);
    }
  }

  lemma NewAccount(ids: seq<Id>, onto: Commit)
    ensures NewBatch(ids, onto).Account() == multiset(ids)
  {
  }

  lemma NewBatchExact(c: Config, s: State, e: Event)
    requires Inv(c, s) && |s.batches| < |Step(c, s, e).batches|
    ensures |Step(c, s, e).batches| == |s.batches| + 1
    ensures Exact(Step(c, s, e).batches[|s.batches|])
  {
    hide Inv, Step, Batch.Account;
    NewIsAdopted(c, s, e);
    NewAccount(Adopted(c, s).batches[|s.batches|].members, s.target);
  }

  /** A new batch is what adopting the queued head and building it makes. */
  lemma NewIsAdopted(c: Config, s: State, e: Event)
    requires Inv(c, s) && |s.batches| < |Step(c, s, e).batches|
    ensures e.FormAndBuild? && Step(c, s, e) == Build(c, e.w, Adopted(c, s), |s.batches|)
    ensures Evolves(Adopted(c, s), Step(c, s, e), |s.batches|)
    ensures Credit(Step(c, s, e).batches[|s.batches|]) <= Credit(Adopted(c, s).batches[|s.batches|])
  {
    OnlyFormingAdds(c, s, e);
    assert Idle(c, s);
    hide Inv, Idle, Evolves, Credit, Build;
    AdoptOk(c, s);
    BuildOk(c, e.w, Adopted(c, s), |s.batches|);
  }

  lemma OnlyFormingAdds(c: Config, s: State, e: Event)
    requires Inv(c, s) && |s.batches| < |Step(c, s, e).batches|
    ensures e.FormAndBuild? && !HasLive(s) && QueuedHead(s.rows, s.next, Limit(c)) != []
  {
  }

  lemma PunctualInPlay(s: State, e: Event, j: nat)
    requires Punctual(s, e) && Addresses(s, e, j)
    ensures s.batches[j].InPlay(e.id)
  {
  }

  lemma ExactRemoved(c: Config, s: State, e: Event, j: nat)
    requires Inv(c, s) && Punctual(s, e) && Addresses(s, e, j) && Exact(s.batches[j])
    ensures j < |Step(c, s, e).batches| && Exact(Step(c, s, e).batches[j])
  {
    PunctualInPlay(s, e, j);
    RemovalExactIff(c, s, e, j);
  }

  lemma ExactNew(c: Config, s: State, e: Event, j: nat)
    requires Inv(c, s) && |s.batches| <= j < |Step(c, s, e).batches|
    ensures Exact(Step(c, s, e).batches[j])
  {
    NewBatchExact(c, s, e);
    assert j == |s.batches|;
  }

  lemma ExactOld(c: Config, s: State, e: Event, j: nat)
    requires Inv(c, s) && Punctual(s, e) && j < |s.batches| && Exact(s.batches[j])
    ensures j < |Step(c, s, e).batches| && Exact(Step(c, s, e).batches[j])
  {
    if Addresses(s, e, j) { ExactRemoved(c, s, e, j); } else { ExactKept(c, s, e, j); }
  }

  lemma ExactStep(c: Config, s: State, e: Event, j: nat)
    requires Inv(c, s) && Punctual(s, e)
    requires j < |s.batches| ==> Exact(s.batches[j])
    requires j < |Step(c, s, e).batches|
    ensures Exact(Step(c, s, e).batches[j])
  {
    if j < |s.batches| { ExactOld(c, s, e, j); } else { ExactNew(c, s, e, j); }
  }

  lemma ExactKept(c: Config, s: State, e: Event, j: nat)
    requires Inv(c, s) && j < |s.batches| && !Addresses(s, e, j) && Exact(s.batches[j])
    ensures j < |Step(c, s, e).batches| && Exact(Step(c, s, e).batches[j])
  {
    Conserved(c, s, e, j);
    StepMoves(c, s, e);
    assert Later(s.batches[j], Step(c, s, e).batches[j]);
  }

  /** If every removal reaches the engine in time, every member of every batch
      is landed, ejected, under test or waiting, and is so exactly once. */
  lemma {:induction false} ExactAccounting(c: Config, tip: Commit, events: seq<Event>, t: nat)
    requires t <= |events|
    requires forall u :: 0 <= u < t ==> Punctual(At(c, tip, events, u), events[u])
    ensures forall j :: 0 <= j < |At(c, tip, events, t).batches| ==> Exact(At(c, tip, events, t).batches[j])
    decreases t
  {
    if t > 0 {
      var s, e := At(c, tip, events, t - 1), events[t - 1];
      ExactAccounting(c, tip, events, t - 1);
      AtNext(c, tip, events, t - 1);
      forall j | 0 <= j < |Step(c, s, e).batches|
        ensures Exact(Step(c, s, e).batches[j])
      {
        ExactStep(c, s, e, j);
      }
    }
  }

  // ----- the members as a set -----------------------------------------------

  /** Nobody but members is accounted for. */
  ghost predicate OnlyMembers(b: Batch) { forall i :: i in b.Account() ==> i in b.members }

  /** A poll that still remembers a row remembers the batch it was in. */
  predicate Honest(s: State, e: Event) {
    e.Remove? && ReportedTo(s, e).Some? && ReportedTo(s, e).value < |s.batches| ==>
      e.id in s.batches[ReportedTo(s, e).value].members
  }

  lemma OnlyMembersNew(c: Config, s: State, e: Event, j: nat)
    requires Inv(c, s) && |s.batches| <= j < |Step(c, s, e).batches|
    ensures OnlyMembers(Step(c, s, e).batches[j])
  {
    ExactNew(c, s, e, j);
    var b := Step(c, s, e).batches[j];
    assert forall i :: i in multiset(b.members) ==> i in b.members;
  }

  lemma OnlyMembersKept(c: Config, s: State, e: Event, j: nat)
    requires Inv(c, s) && j < |s.batches| && OnlyMembers(s.batches[j])
    requires Addresses(s, e, j) ==> e.id in s.batches[j].members
    ensures j < |Step(c, s, e).batches| && OnlyMembers(Step(c, s, e).batches[j])
  {
    StepMoves(c, s, e);
    assert Later(s.batches[j], Step(c, s, e).batches[j]);
    if Addresses(s, e, j) { AddressedStep(c, s, e, j); } else { Conserved(c, s, e, j); }
  }

  lemma OnlyMembersStep(c: Config, s: State, e: Event, j: nat)
    requires Inv(c, s) && Honest(s, e) && j < |Step(c, s, e).batches|
    requires j < |s.batches| ==> OnlyMembers(s.batches[j])
    ensures OnlyMembers(Step(c, s, e).batches[j])
  {
    if j < |s.batches| { OnlyMembersKept(c, s, e, j); } else { OnlyMembersNew(c, s, e, j); }
  }

  ghost predicate HonestAt(c: Config, tip: Commit, events: seq<Event>, u: nat)
    requires u < |events|
  {
    Honest(At(c, tip, events, u), events[u])
  }

  lemma OnlyMembersAtNext(c: Config, tip: Commit, events: seq<Event>, t: nat, j: nat)
    requires t < |events| && j < |At(c, tip, events, t + 1).batches| && HonestAt(c, tip, events, t)
    requires j < |At(c, tip, events, t).batches| ==> OnlyMembers(At(c, tip, events, t).batches[j])
    ensures OnlyMembers(At(c, tip, events, t + 1).batches[j])
  {
    AtNext(c, tip, events, t);
    OnlyMembersStep(c, At(c, tip, events, t), events[t], j);
  }

  lemma {:induction false} OnlyMembersAt(c: Config, tip: Commit, events: seq<Event>, t: nat, j: nat)
    requires t <= |events| && j < |At(c, tip, events, t).batches|
    requires forall u :: 0 <= u < t ==> HonestAt(c, tip, events, u)
    ensures OnlyMembers(At(c, tip, events, t).batches[j])
    decreases t
  {
    if t > 0 {
      if j < |At(c, tip, events, t - 1).batches| { OnlyMembersAt(c, tip, events, t - 1, j); }
      OnlyMembersAtNext(c, tip, events, t - 1, j);
    }
  }

  lemma MembersCovered(b: Batch, i: Id)
    requires Accounted(b) && OnlyMembers(b)
    ensures i in b.members <==> b.InPlay(i) || i in b.landed || i in b.ejected
  {
  }

  /** The design's invariant: as sets, current, waiting, landed and ejected
      together are the members, in every reachable state and however late a
      removal is reported. */
  lemma MembersInvariant(c: Config, tip: Commit, events: seq<Event>, j: nat, i: Id)
    requires j < |Run(c, Initial(tip), events).batches|
    requires forall u :: 0 <= u < |events| ==> HonestAt(c, tip, events, u)
    ensures var b := Run(c, Initial(tip), events).batches[j];
            i in b.members <==> b.InPlay(i) || i in b.landed || i in b.ejected
  {
    assert events[..|events|] == events;
    RunOk(c, tip, events);
    AnyBatch(c, Run(c, Initial(tip), events), j);
    OnlyMembersAt(c, tip, events, |events|, j);
    MembersCovered(Run(c, Initial(tip), events).batches[j], i);
  }

  /** The stored row of a live batch has somebody current and no empty slice
      waiting, so a pop always has something to build. */
  lemma LiveRowShape(c: Config, tip: Commit, events: seq<Event>, j: nat)
    requires j < |Run(c, Initial(tip), events).batches| && Run(c, Initial(tip), events).batches[j].Live()
    ensures var b := Run(c, Initial(tip), events).batches[j];
            b.current != [] && forall s :: s in b.pending ==> s != []
  {
    RunOk(c, tip, events);
    AnyBatch(c, Run(c, Initial(tip), events), j);
  }
}
