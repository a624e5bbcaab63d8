/** Life after a crash. The tables a crash leaves are weaker than those between
    two steps; this is what the engine does with them from then on: what every
    step keeps, which members are accounted for, exactly how a member can be lost
    track of, and when nothing but a timeout can end a batch. */
module Aftermath {
  import opened Lists
  import opened Commits
  import opened Model
  import opened Invariants
  import opened Transitions
  import opened Guarantees
  import opened Landing
  import opened Routing
  import opened Recovery

  // ----- every step keeps the crash invariant -------------------------------

  lemma RaceMidway(s: State, k: nat)
    requires k < |s.batches| && Midway(s, k)
    ensures Midway(Put(s, k, s.batches[k].Race()), k) && Midway(Put(s, k, s.batches[k].Race().Rebuilding()), k)
  {
    PutSame(s, k);
    SameMidway(s, k, s.batches[k], s.batches[k].Race());
    SameMidway(s, k, s.batches[k], s.batches[k].Race().Rebuilding());
  }

  lemma PassRecovers(c: Config, w: World, push: Push, s: State, k: nat)
    requires k < |s.batches| && Midway(s, k) && HasSha(s.batches[k]) && s.batches[k].phase.Testing?
    ensures Recoverable(HandlePass(c, w, push, s, k))
  {
    hide Midway, RoutesRight;
    var b := s.batches[k];
    match push
    case Unavailable => SavedFits(s, k);
    case Denied =>
      EjectCurrentMidway(s, k);
      NextRecovers(c, w, EjectCurrent(s, k), k);
    case Reach =>
      if IsAncestor(s.target, b.sha.value) {
        LandMidway(s, k, b.sha.value);
        NextRecovers(c, w, LandCurrent(s, k, b.sha.value), k);
      } else {
        RaceMidway(s, k);
        if b.ffRetries + 1 < MAX_FF_RETRIES {
          PutTwice(s, k, b.Race(), b.Race().Rebuilding());
          BuildRecovers(c, w, Put(s, k, b.Race().Rebuilding()), k);
        } else {
          EjectCurrentMidway(Put(s, k, b.Race()), k);
          NextRecovers(c, w, EjectCurrent(Put(s, k, b.Race()), k), k);
        }
      }
  }

  lemma FailRecovers(c: Config, w: World, s: State, k: nat)
    requires k < |s.batches| && Midway(s, k) && s.batches[k].phase.Testing?
    ensures Recoverable(HandleFail(c, w, s, k))
  {
    hide Midway, RoutesRight;
    var b := s.batches[k];
    if |b.current| == 1 {
      EjectCurrentMidway(s, k);
      NextRecovers(c, w, EjectCurrent(s, k), k);
    } else if Capped(c, b) {
      DrainMidway(s, k);
      NextRecovers(c, w, EjectCurrent(Put(s, k, b.Drain()), k), k);
    } else {
      SplitMidway(s, k);
      BuildRecovers(c, w, AfterSplit(s, k), k);
    }
  }

  lemma DequeuedMidway(s: State, k: nat, id: Id)
    requires k < |s.batches| && Midway(s, k)
    ensures Midway(s.(rows := Dequeued(s.rows, [id])), k)
  {
    MidwayFrom(s, s.(rows := Dequeued(s.rows, [id])), k);
  }

  lemma DiscardedMidway(s: State, k: nat, id: Id)
    requires k < |s.batches| && Midway(s, k)
    ensures Midway(Discarded(s, k, s.batches[k].Discard(id), id), k)
    ensures Midway(Discarded(s, k, s.batches[k].Discard(id).Rebuilding(), id), k)
  {
    hide Midway;
    DequeuedMidway(s, k, id);
    var s0 := s.(rows := Dequeued(s.rows, [id]));
    var b' := s.batches[k].Discard(id);
    DiscardMidway(s0, k, id);
    SameMidway(s0, k, b', b'.Rebuilding());
  }

  /** A removal reported to the live batch: drop, pop or build again. */
  lemma RemovedIs(c: Config, w: World, s: State, k: nat, id: Id)
    requires k < |s.batches| && s.batches[k].Live()
    ensures var b := s.batches[k];
            OnMemberRemoved(c, w, s.(rows := Dequeued(s.rows, [id])), k, id) ==
            if id !in b.current then Discarded(s, k, b.Discard(id), id)
            else if b.Discard(id).current == [] then Next(c, w, Discarded(s, k, b.Discard(id), id), k)
            else Build(c, w, Discarded(s, k, b.Discard(id).Rebuilding(), id), k)
  {
    var b := s.batches[k];
    PutTwice(s.(rows := Dequeued(s.rows, [id])), k, b.Discard(id), b.Discard(id).Rebuilding());
  }

  lemma RemovedRecovers(c: Config, w: World, s: State, k: nat, id: Id)
    requires Midway(s, k) && HasSha(s.batches[k])
    ensures Recoverable(OnMemberRemoved(c, w, s.(rows := Dequeued(s.rows, [id])), k, id))
  {
    var b := s.batches[k];
    RemovedIs(c, w, s, k, id);
    DiscardedMidway(s, k, id);
    if id !in b.current {
      SavedFits(Discarded(s, k, b.Discard(id), id), k);
    } else if b.Discard(id).current == [] {
      NextRecovers(c, w, Discarded(s, k, b.Discard(id), id), k);
    } else {
      BuildRecovers(c, w, Discarded(s, k, b.Discard(id).Rebuilding(), id), k);
    }
  }

  lemma NewApart(ids: seq<Id>, onto: Commit)
    requires Unique(ids)
    ensures Apart(NewBatch(ids, onto)) && forall i: Id :: NewBatch(ids, onto).InPlay(i) <==> i in ids
  {
    SubRefl(ids);
    assert NewBatch(ids, onto).Line() == ids;
  }

  lemma AdoptMidway(c: Config, s: State)
    requires AtRest(s)
    ensures Midway(Adopted(c, s), |s.batches|)
  {
    hide Apart, Batch.InPlay, QueuedHead, Unique;
    var ids := QueuedHead(s.rows, s.next, Limit(c));
    QueuedHeadFacts(s.rows, s.next, Limit(c));
    AscendingUnique(ids);
    NewApart(ids, s.target);
  }

  lemma FormRecovers(c: Config, w: World, s: State)
    requires Recoverable(s)
    ensures Recoverable(OnForm(c, w, s))
  {
    if HasLive(s) {
      if s.batches[|s.batches| - 1].phase.Forming? { BuildRecovers(c, w, s, |s.batches| - 1); }
    } else if QueuedHead(s.rows, s.next, Limit(c)) != [] {
      AdoptMidway(c, s);
      BuildRecovers(c, w, Adopted(c, s), |s.batches|);
    }
  }

  /** Rows that belong to no batch may come and change state, and results may be
      recorded. */
  lemma RowsRecover(s: State, s': State)
    requires Recoverable(s) && s'.batches == s.batches && s.next <= s'.next
    requires forall i :: i in s'.rows ==> i < s'.next
    requires forall i :: i in s'.rows && i !in s.rows ==>
               s.next <= i && s'.rows[i].sha.None? && s'.rows[i].batch.None?
    requires forall i :: i in s'.rows && i in s.rows ==>
               s'.rows[i].sha == s.rows[i].sha && s'.rows[i].batch == s.rows[i].batch
    ensures Recoverable(s')
  {
    hide Apart, Batch.InPlay;
    if HasLive(s) {
      var k := |s.batches| - 1;
      forall i | i in s'.rows
        ensures s'.rows[i].sha.Some? ==> i in s.batches[k].current
        ensures s'.rows[i].batch.Some? ==> s'.rows[i].batch.value == k
        ensures s'.rows[i].batch.Some? <==> s.batches[k].InPlay(i)
      {
      }
      assert Fits(s'.rows, k, s.batches[k]);
    }
  }

  lemma LiveIsLastToo(s: State, k: nat)
    requires Recoverable(s) && k < |s.batches| && s.batches[k].Live()
    ensures HasLive(s) && k == |s.batches| - 1 && Midway(s, k) && HasSha(s.batches[k])
  {
  }

  lemma CheckRecovers(c: Config, s: State, e: Event)
    requires Recoverable(s) && e.Check?
    ensures Recoverable(Step(c, s, e))
  {
    hide Recoverable, HandlePass, HandleFail, Midway;
    if Fresh(s, e.snap) {
      var s1 := Recorded(s, e);
      RecordedRecovers(s, e);
      LiveIsLastToo(s1, e.snap.batch);
      match Decision(s, e)
      case Passes => PassRecovers(c, e.w, e.push, s1, e.snap.batch);
      case Fails => FailRecovers(c, e.w, s1, e.snap.batch);
      case Waits => FailRecovers(c, e.w, s1, e.snap.batch);
    }
  }

  lemma RecordedRecovers(s: State, e: Event)
    requires Recoverable(s) && e.Check? && Fresh(s, e.snap)
    ensures Recoverable(Recorded(s, e))
  {
    RowsRecover(s, Recorded(s, e));
  }

  lemma RemoveRecovers(c: Config, s: State, e: Event)
    requires Recoverable(s) && e.Remove?
    ensures Recoverable(Step(c, s, e))
  {
    var k := ReportedTo(s, e);
    if k.Some? && k.value < |s.batches| && s.batches[k.value].Live() {
      LiveIsLastToo(s, k.value);
      RemovedRecovers(c, e.w, s, k.value, e.id);
    } else {
      FewerCarriers(s, Dequeued(s.rows, [e.id]));
    }
  }

  lemma TimeoutRecovers(c: Config, s: State, e: Event)
    requires Recoverable(s) && e.Timeout?
    ensures Recoverable(Step(c, s, e))
  {
    if e.batch < |s.batches| && e.elapsed && s.batches[e.batch].phase.Testing? {
      LiveIsLastToo(s, e.batch);
      FailRecovers(c, e.w, s, e.batch);
    }
  }

  lemma OutsideRecovers(s: State, tip: Commit)
    requires Recoverable(s)
    ensures Recoverable(s.(target := tip))
  {
  }

  /** Any event, from any tables a crash can leave, keeps to such tables. */
  lemma StepRecovers(c: Config, s: State, e: Event)
    requires Recoverable(s)
    ensures Recoverable(Step(c, s, e))
  {
    hide Recoverable, OnForm, OnCheck, OnRemove, OnReconcile, OnPromote, HandleFail;
    match e
    case Enqueue => EnqueueRecovers(c, s);
    case Promote => PromoteRecovers(s);
    case FormAndBuild(w) => FormRecovers(c, w, s);
    case Check(_, _, _, _, _, _, _) => CheckRecovers(c, s, e);
    case Timeout(_, _, _) => TimeoutRecovers(c, s, e);
    case Remove(_, _, _) => RemoveRecovers(c, s, e);
    case Reconcile(w) => ReconcileRoutes(c, w, s);
    case OutsidePush(commit) => OutsideRecovers(s, Outside(s.target, commit));
  }

  lemma EnqueueRecovers(c: Config, s: State)
    requires Recoverable(s)
    ensures Recoverable(Step(c, s, Enqueue))
  {
    assert s.next !in s.rows;
    RowsRecover(s, Step(c, s, Enqueue));
  }

  lemma PromoteRecovers(s: State)
    requires Recoverable(s)
    ensures Recoverable(OnPromote(s))
  {
    RowsRecover(s, OnPromote(s));
  }

  lemma {:induction false} RunRecovers(c: Config, s: State, events: seq<Event>)
    requires Recoverable(s)
    ensures Recoverable(Run(c, s, events))
  {
    if events != [] {
      RunRecovers(c, s, events[..|events| - 1]);
      StepRecovers(c, Run(c, s, events[..|events| - 1]), events[|events| - 1]);
    }
  }

  // ----- whoever has a row is accounted for ---------------------------------

  predicate Noted(b: Batch, i: Id) { i in b.landed || i in b.ejected }

  /** What batch `k` noted stays noted, and a row that names it stays, or its
      member is noted. */
  ghost predicate Notes(s: State, s': State, k: nat)
    requires k < |s.batches|
  {
    && k < |s'.batches|
    && (forall i :: Noted(s.batches[k], i) ==> Noted(s'.batches[k], i))
    && (forall i :: i in s.rows && s.rows[i].batch == Some(k) ==>
          (i in s'.rows && s'.rows[i].batch == Some(k)) || Noted(s'.batches[k], i))
  }

  lemma NotesThenAccounts(s: State, t: State, u: State, k: nat)
    requires k < |s.batches| && Notes(s, t, k) && Accounts(t, u, k)
    ensures Notes(s, u, k)
  {
    assert forall i :: Noted(t.batches[k], i) ==> Noted(u.batches[k], i);
  }

  lemma EjectNotes(s: State, k: nat)
    requires k < |s.batches|
    ensures Notes(s, EjectCurrent(s, k), k)
  {
    ExistingFacts(s.rows, s.batches[k].current);
  }

  lemma LandNotes(s: State, k: nat, sha: Commit)
    requires k < |s.batches|
    ensures Notes(s, LandCurrent(s, k, sha), k)
  {
  }

  lemma PassNotes(c: Config, w: World, push: Push, s: State, k: nat)
    requires k < |s.batches|
    ensures Notes(s, HandlePass(c, w, push, s, k), k)
  {
    hide Accounts, Notes;
    var b := s.batches[k];
    NothingNotes(s, k);
    if b.phase.Testing? && b.sha.Some? {
      match push
      case Unavailable =>
      case Denied => EjectThenNotes(c, w, s, s, k);
      case Reach =>
        if IsAncestor(s.target, b.sha.value) {
          LandNotes(s, k, b.sha.value);
          NextAccounts(c, w, LandCurrent(s, k, b.sha.value), k);
          NotesThenAccounts(s, LandCurrent(s, k, b.sha.value), HandlePass(c, w, push, s, k), k);
        } else if b.ffRetries + 1 < MAX_FF_RETRIES {
          PutTwice(s, k, b.Race(), b.Race().Rebuilding());
          PutNotes(s, k, b.Race().Rebuilding());
          BuildAccounts(c, w, Put(s, k, b.Race().Rebuilding()), k);
          NotesThenAccounts(s, Put(s, k, b.Race().Rebuilding()), HandlePass(c, w, push, s, k), k);
        } else {
          PutNotes(s, k, b.Race());
          EjectThenNotes(c, w, s, Put(s, k, b.Race()), k);
        }
    }
  }

  lemma NothingNotes(s: State, k: nat)
    requires k < |s.batches|
    ensures Notes(s, s, k)
  {
  }

  /** Rearranging the row of a batch loses no note. */
  lemma PutNotes(s: State, k: nat, b': Batch)
    requires k < |s.batches| && b'.landed == s.batches[k].landed && b'.ejected == s.batches[k].ejected
    ensures Notes(s, Put(s, k, b'), k)
  {
  }

  lemma NotesTwice(s: State, t: State, u: State, k: nat)
    requires k < |s.batches| && Notes(s, t, k) && Notes(t, u, k)
    ensures Notes(s, u, k)
  {
  }

  lemma EjectThenNotes(c: Config, w: World, s: State, t: State, k: nat)
    requires k < |s.batches| && k < |t.batches| && Notes(s, t, k)
    ensures Notes(s, Next(c, w, EjectCurrent(t, k), k), k)
  {
    hide Accounts, Notes;
    EjectNotes(t, k);
    NotesTwice(s, t, EjectCurrent(t, k), k);
    NextAccounts(c, w, EjectCurrent(t, k), k);
    NotesThenAccounts(s, EjectCurrent(t, k), Next(c, w, EjectCurrent(t, k), k), k);
  }

  lemma SplitNotes(s: State, k: nat)
    requires k < |s.batches|
    ensures Notes(s, AfterSplit(s, k), k)
  {
  }

  lemma FailNotes(c: Config, w: World, s: State, k: nat)
    requires k < |s.batches|
    ensures Notes(s, HandleFail(c, w, s, k), k)
  {
    hide Accounts, Notes;
    var b := s.batches[k];
    NothingNotes(s, k);
    if b.phase.Testing? {
      if |b.current| == 1 {
        EjectThenNotes(c, w, s, s, k);
      } else if Capped(c, b) {
        PutNotes(s, k, b.Drain());
        EjectThenNotes(c, w, s, Put(s, k, b.Drain()), k);
      } else {
        SplitNotes(s, k);
        BuildAccounts(c, w, AfterSplit(s, k), k);
        NotesThenAccounts(s, AfterSplit(s, k), HandleFail(c, w, s, k), k);
      }
    }
  }

  lemma DiscardNotes(s: State, k: nat, id: Id, b': Batch)
    requires k < |s.batches|
    requires b'.landed == s.batches[k].landed && b'.ejected == s.batches[k].ejected + [id]
    ensures Notes(s, Discarded(s, k, b', id), k)
  {
  }

  lemma RemovedNotes(c: Config, w: World, s: State, k: nat, id: Id)
    requires k < |s.batches| && s.batches[k].Live()
    ensures Notes(s, OnMemberRemoved(c, w, s.(rows := Dequeued(s.rows, [id])), k, id), k)
  {
    hide Accounts, Notes;
    var b := s.batches[k];
    RemovedIs(c, w, s, k, id);
    if id !in b.current || b.Discard(id).current == [] {
      var t := Discarded(s, k, b.Discard(id), id);
      DiscardNotes(s, k, id, b.Discard(id));
      NextAccounts(c, w, t, k);
      NotesThenAccounts(s, t, Next(c, w, t, k), k);
    } else {
      var t := Discarded(s, k, b.Discard(id).Rebuilding(), id);
      DiscardNotes(s, k, id, b.Discard(id).Rebuilding());
      BuildAccounts(c, w, t, k);
      NotesThenAccounts(s, t, Build(c, w, t, k), k);
    }
  }

  lemma CheckNotes(c: Config, s: State, e: Event)
    requires e.Check? && Fresh(s, e.snap)
    ensures Notes(s, Step(c, s, e), e.snap.batch)
  {
    hide HandlePass, HandleFail;
    var s1, k := Recorded(s, e), e.snap.batch;
    assert Notes(s, s1, k);
    PassNotes(c, e.w, e.push, s1, k);
    FailNotes(c, e.w, s1, k);
    if Step(c, s, e) != s1 { NotesTwice(s, s1, Step(c, s, e), k); }
  }

  lemma BuildNotes(c: Config, w: World, s: State, k: nat)
    requires k < |s.batches|
    ensures Notes(s, Build(c, w, s, k), k)
  {
    BuildAccounts(c, w, s, k);
    NothingNotes(s, k);
    NotesThenAccounts(s, s, Build(c, w, s, k), k);
  }

  lemma RemoveNotes(c: Config, s: State, e: Event, k: nat)
    requires Recoverable(s) && e.Remove? && k < |s.batches| && s.batches[k].Live()
    ensures Notes(s, Step(c, s, e), k)
  {
    LiveIsLastToo(s, k);
    hide Recoverable, Midway;
    if ReportedTo(s, e) == Some(k) {
      RemovedNotes(c, e.w, s, k, e.id);
    } else {
      NotReported(c, s, e, k);
    }
  }

  /** A removal that is not reported to the live batch takes no row of it. */
  lemma NotReported(c: Config, s: State, e: Event, k: nat)
    requires Recoverable(s) && e.Remove? && k < |s.batches| && s.batches[k].Live() && ReportedTo(s, e) != Some(k)
    ensures Step(c, s, e) == s.(rows := Dequeued(s.rows, [e.id])) && Notes(s, Step(c, s, e), k)
  {
    LiveIsLastToo(s, k);
  }

  /** The same for the live batch and any event. */
  lemma LiveNotes(c: Config, s: State, e: Event, k: nat)
    requires Recoverable(s) && k < |s.batches| && s.batches[k].Live()
    ensures Notes(s, Step(c, s, e), k)
  {
    hide Recoverable, Notes, OnCheck, OnForm, OnReconcile, OnPromote, OnRemove, HandleFail;
    NothingNotes(s, k);
    match e
    case Check(_, _, _, _, _, _, _) => CheckNotesToo(c, s, e, k);
    case Timeout(j, elapsed, w) =>
      if j < |s.batches| && elapsed { FailNotes(c, w, s, j); OtherBatch(c, w, s, j, k); }
    case Remove(_, _, _) => RemoveNotes(c, s, e, k);
    case FormAndBuild(w) => FormNotes(c, w, s, k);
    case Reconcile(w) => FormNotes(c, w, s, k);
    case Enqueue => EnqueueNotes(c, s, k);
    case Promote => PromoteNotes(s, k);
    case OutsidePush(commit) => OutsideNotes(s, Outside(s.target, commit), k);
  }

  lemma CheckNotesToo(c: Config, s: State, e: Event, k: nat)
    requires Recoverable(s) && e.Check? && k < |s.batches| && s.batches[k].Live()
    ensures Notes(s, Step(c, s, e), k)
  {
    hide Recoverable, Notes, HandlePass, HandleFail;
    NothingNotes(s, k);
    LiveIsLastToo(s, k);
    if Fresh(s, e.snap) { LiveIsLastToo(s, e.snap.batch); CheckNotes(c, s, e); }
  }

  lemma FormNotes(c: Config, w: World, s: State, k: nat)
    requires Recoverable(s) && k < |s.batches| && s.batches[k].Live()
    ensures Notes(s, OnForm(c, w, s), k) && Notes(s, OnReconcile(c, w, s), k)
  {
    hide Recoverable, Midway, Build;
    LiveIsLastToo(s, k);
    BuildNotes(c, w, s, k);
  }

  lemma EnqueueNotes(c: Config, s: State, k: nat)
    requires Recoverable(s) && k < |s.batches| && s.batches[k].Live()
    ensures Notes(s, Step(c, s, Enqueue), k)
  {
    LiveIsLastToo(s, k);
    assert s.next !in s.rows;
  }

  lemma PromoteNotes(s: State, k: nat)
    requires k < |s.batches|
    ensures Notes(s, OnPromote(s), k)
  {
  }

  lemma OutsideNotes(s: State, tip: Commit, k: nat)
    requires k < |s.batches|
    ensures Notes(s, s.(target := tip), k)
  {
  }

  lemma OtherBatch(c: Config, w: World, s: State, j: nat, k: nat)
    requires Recoverable(s) && j < |s.batches| && k < |s.batches| && s.batches[k].Live()
    ensures j != k ==> HandleFail(c, w, s, j) == s
  {
  }

  // A finished batch is never touched again.

  lemma {:induction false} BuildSpares(c: Config, w: World, s: State, k: nat, j: nat)
    requires k < |s.batches| && j < |s.batches| && j != k
    ensures Build(c, w, s, k).batches[j] == s.batches[j]
    decreases |s.batches[k].pending|, 1
  {
    if !w.broken(|s.batches[k].pending|) {
      var s1 := Weeded(c, w, s, k);
      if s1.batches[k].current == [] { NextSpares(c, w, s1, k, j); }
    }
  }

  lemma {:induction false} NextSpares(c: Config, w: World, s: State, k: nat, j: nat)
    requires k < |s.batches| && j < |s.batches| && j != k
    ensures Next(c, w, s, k).batches[j] == s.batches[j]
    decreases |s.batches[k].pending|, 0
  {
    var b := s.batches[k];
    if b.pending != [] { BuildSpares(c, w, Put(s, k, b.Pop()), k, j); }
  }

  lemma PassSpares(c: Config, w: World, push: Push, s: State, k: nat, j: nat)
    requires k < |s.batches| && j < |s.batches| && j != k
    ensures HandlePass(c, w, push, s, k).batches[j] == s.batches[j]
  {
    var b := s.batches[k];
    if b.phase.Testing? && b.sha.Some? {
      match push
      case Unavailable =>
      case Denied => NextSpares(c, w, EjectCurrent(s, k), k, j);
      case Reach =>
        if IsAncestor(s.target, b.sha.value) {
          NextSpares(c, w, LandCurrent(s, k, b.sha.value), k, j);
        } else if b.ffRetries + 1 < MAX_FF_RETRIES {
          BuildSpares(c, w, Put(Put(s, k, b.Race()), k, b.Race().Rebuilding()), k, j);
        } else {
          NextSpares(c, w, EjectCurrent(Put(s, k, b.Race()), k), k, j);
        }
    }
  }

  lemma FailSpares(c: Config, w: World, s: State, k: nat, j: nat)
    requires k < |s.batches| && j < |s.batches| && j != k
    ensures HandleFail(c, w, s, k).batches[j] == s.batches[j]
  {
    var b := s.batches[k];
    if b.phase.Testing? {
      if |b.current| == 1 {
        NextSpares(c, w, EjectCurrent(s, k), k, j);
      } else if Capped(c, b) {
        NextSpares(c, w, EjectCurrent(Put(s, k, b.Drain()), k), k, j);
      } else {
        BuildSpares(c, w, AfterSplit(s, k), k, j);
      }
    }
  }

  lemma RemovedSpares(c: Config, w: World, s: State, k: nat, id: Id, j: nat)
    requires k < |s.batches| && s.batches[k].Live() && j < |s.batches| && j != k
    ensures OnMemberRemoved(c, w, s.(rows := Dequeued(s.rows, [id])), k, id).batches[j] == s.batches[j]
  {
    var b := s.batches[k];
    RemovedIs(c, w, s, k, id);
    if id in b.current {
      if b.Discard(id).current == [] {
        NextSpares(c, w, Discarded(s, k, b.Discard(id), id), k, j);
      } else {
        BuildSpares(c, w, Discarded(s, k, b.Discard(id).Rebuilding(), id), k, j);
      }
    }
  }

  lemma DoneStays(c: Config, s: State, e: Event, j: nat)
    requires j < |s.batches| && !s.batches[j].Live()
    ensures j < |Step(c, s, e).batches| && Step(c, s, e).batches[j] == s.batches[j]
  {
    hide HandlePass, HandleFail, Build, Next;
    match e
    case Check(snap, _, _, _, _, _, _) =>
      if Fresh(s, snap) {
        PassSpares(c, e.w, e.push, Recorded(s, e), snap.batch, j);
        FailSpares(c, e.w, Recorded(s, e), snap.batch, j);
      }
    case Timeout(k, _, w) => DoneUnfailed(c, w, s, k, j);
    case Remove(id, _, w) =>
      var k := ReportedTo(s, e);
      if k.Some? && k.value < |s.batches| && s.batches[k.value].Live() { RemovedSpares(c, w, s, k.value, id, j); }
    case FormAndBuild(w) => FormSpares(c, w, s, j);
    case Reconcile(w) => if HasLive(s) { BuildSpares(c, w, s, |s.batches| - 1, j); }
    case Enqueue =>
    case Promote =>
    case OutsidePush(_) =>
  }

  lemma DoneUnfailed(c: Config, w: World, s: State, k: nat, j: nat)
    requires j < |s.batches| && !s.batches[j].Live()
    ensures k < |s.batches| ==> HandleFail(c, w, s, k).batches[j] == s.batches[j]
  {
    if k < |s.batches| && k != j { FailSpares(c, w, s, k, j); }
  }

  lemma FormSpares(c: Config, w: World, s: State, j: nat)
    requires j < |s.batches| && !s.batches[j].Live()
    ensures j < |OnForm(c, w, s).batches| && OnForm(c, w, s).batches[j] == s.batches[j]
  {
    if HasLive(s) {
      BuildSpares(c, w, s, |s.batches| - 1, j);
    } else if QueuedHead(s.rows, s.next, Limit(c)) != [] {
      BuildSpares(c, w, Adopted(c, s), |s.batches|, j);
    }
  }

  /** What became of the member is on record, or its row is in the queue and
      names the batch. */
  ghost predicate Safe(s: State, k: nat, i: Id) {
    k < |s.batches| && (Noted(s.batches[k], i) || (i in s.rows && s.rows[i].batch == Some(k)))
  }

  /** A row that names a batch is that of a member under test or waiting. */
  lemma SafeMeaning(s: State, k: nat, i: Id)
    requires Recoverable(s) && Safe(s, k, i)
    ensures Noted(s.batches[k], i) || (s.batches[k].Live() && s.batches[k].InPlay(i) && i in s.rows)
  {
    if !Noted(s.batches[k], i) { CrashStrandsNobody(s, i); }
  }

  lemma SafeStep(c: Config, s: State, e: Event, k: nat, i: Id)
    requires Recoverable(s) && Safe(s, k, i)
    ensures Safe(Step(c, s, e), k, i)
  {
    if s.batches[k].Live() {
      LiveNotes(c, s, e, k);
    } else {
      SafeMeaning(s, k, i);
      DoneStays(c, s, e, k);
    }
  }

  /** From any tables a crash can leave, and through any run: whoever is on record
      or has a row stays so. Nobody with a row is ever lost track of. */
  lemma {:induction false} SafeForever(c: Config, s: State, events: seq<Event>, k: nat, i: Id)
    requires Recoverable(s) && Safe(s, k, i)
    ensures Safe(Run(c, s, events), k, i)
  {
    if events != [] {
      var before := events[..|events| - 1];
      SafeForever(c, s, before, k, i);
      RunRecovers(c, s, before);
      SafeStep(c, Run(c, s, before), events[|events| - 1], k, i);
    }
  }

  // ----- whoever has no row -------------------------------------------------

  /** In play for the batch, but the row is gone and nothing is on record: the
      program stopped between taking the row out and saving why. */
  ghost predicate Adrift(s: State, k: nat, i: Id) {
    k < |s.batches| && s.batches[k].InPlay(i) && i !in s.rows && !Noted(s.batches[k], i)
  }

  /** The row is gone and the batch does not know the member any more. */
  ghost predicate Forgotten(s: State, k: nat, i: Id) {
    k < |s.batches| && i !in s.rows && !s.batches[k].InPlay(i) && !Noted(s.batches[k], i)
  }

  /** A build or a pop takes from what is there: it brings nobody back, and
      ejects only members that have a row. */
  ghost predicate Draws(s: State, s': State, k: nat)
    requires k < |s.batches|
  {
    && k < |s'.batches|
    && (forall i :: i in s'.rows ==> i in s.rows)
    && (forall i: Id :: s'.batches[k].InPlay(i) ==> s.batches[k].InPlay(i))
    && (forall i :: i in s'.batches[k].ejected ==> i in s.batches[k].ejected || i in s.rows)
    && s'.batches[k].landed == s.batches[k].landed
  }

  lemma DrawsMore(s: State, t: State, u: State, k: nat)
    requires k < |s.batches| && Draws(s, t, k) && Draws(t, u, k)
    ensures Draws(s, u, k)
  {
  }

  lemma WeededDraws(c: Config, w: World, s: State, k: nat)
    requires k < |s.batches|
    ensures Draws(s, Weeded(c, w, s, k), k)
  {
    var entries := Existing(s.rows, s.batches[k].current);
    ExistingFacts(s.rows, s.batches[k].current);
    PickedOf(entries, Merges(c, w, s, k).answers);
  }

  lemma PopDraws(s: State, k: nat)
    requires k < |s.batches| && s.batches[k].pending != []
    ensures Draws(s, Put(s, k, s.batches[k].Pop()), k)
  {
    var p := s.batches[k].pending;
    assert Upcoming(p) == p[|p| - 1] + Upcoming(p[..|p| - 1]);
  }

  lemma {:induction false} BuildDraws(c: Config, w: World, s: State, k: nat)
    requires k < |s.batches|
    ensures Draws(s, Build(c, w, s, k), k)
    decreases |s.batches[k].pending|, 1
  {
    if !w.broken(|s.batches[k].pending|) {
      var s1 := Weeded(c, w, s, k);
      WeededDraws(c, w, s, k);
      if s1.batches[k].current == [] {
        NextDraws(c, w, s1, k);
        DrawsMore(s, s1, Next(c, w, s1, k), k);
      }
    }
  }

  lemma {:induction false} NextDraws(c: Config, w: World, s: State, k: nat)
    requires k < |s.batches|
    ensures Draws(s, Next(c, w, s, k), k)
    decreases |s.batches[k].pending|, 0
  {
    var b := s.batches[k];
    if b.pending != [] {
      PopDraws(s, k);
      BuildDraws(c, w, Put(s, k, b.Pop()), k);
      DrawsMore(s, Put(s, k, b.Pop()), Next(c, w, s, k), k);
    }
  }

  lemma DrawsForgets(s: State, s': State, k: nat, i: Id)
    requires k < |s.batches| && Draws(s, s', k) && Forgotten(s, k, i)
    ensures Forgotten(s', k, i)
  {
  }

  /** The build merges the slice that holds the member, at once or after the
      slices above it were ejected whole. */
  predicate Stacks(c: Config, w: World, s: State, k: nat, i: Id)
    requires k < |s.batches|
    decreases |s.batches[k].pending|, 1
  {
    var b := s.batches[k];
    && !w.broken(|b.pending|)
    && (i in b.current ||
        (Weeded(c, w, s, k).batches[k].current == [] && PopStacks(c, w, Weeded(c, w, s, k), k, i)))
  }

  predicate PopStacks(c: Config, w: World, s: State, k: nat, i: Id)
    requires k < |s.batches|
    decreases |s.batches[k].pending|, 0
  {
    s.batches[k].pending != [] && Stacks(c, w, Put(s, k, s.batches[k].Pop()), k, i)
  }

  ghost predicate Fate(s': State, k: nat, i: Id, lost: bool) {
    if lost then Forgotten(s', k, i) else Adrift(s', k, i)
  }

  /** A member without a row is neither kept nor ejected when its slice is merged. */
  lemma WeededForgets(c: Config, w: World, s: State, k: nat, i: Id)
    requires Adrift(s, k, i) && i !in Upcoming(s.batches[k].pending)
    ensures Forgotten(Weeded(c, w, s, k), k, i)
  {
    var entries := Existing(s.rows, s.batches[k].current);
    ExistingFacts(s.rows, s.batches[k].current);
    PickedOf(entries, Merges(c, w, s, k).answers);
  }

  lemma WeededWaits(c: Config, w: World, s: State, k: nat, i: Id)
    requires Adrift(s, k, i) && i in Upcoming(s.batches[k].pending)
    ensures Adrift(Weeded(c, w, s, k), k, i)
  {
    WeededDraws(c, w, s, k);
    assert Weeded(c, w, s, k).batches[k].InPlay(i);
  }

  lemma InstallFate(s: State, k: nat, tip: Commit, i: Id, lost: bool)
    requires k < |s.batches| && Fate(s, k, i, lost)
    ensures Fate(Install(s, k, tip), k, i, lost)
  {
  }

  lemma {:induction false} BuildFate(c: Config, w: World, s: State, k: nat, i: Id)
    requires k < |s.batches| && Midway(s, k) && Adrift(s, k, i)
    ensures Fate(Build(c, w, s, k), k, i, Stacks(c, w, s, k, i))
    decreases |s.batches[k].pending|, 1
  {
    var b := s.batches[k];
    if !w.broken(|b.pending|) {
      var s1 := Weeded(c, w, s, k);
      ApartParts(b);
      if i in b.current { WeededForgets(c, w, s, k, i); } else { WeededWaits(c, w, s, k, i); }
      if s1.batches[k].current != [] {
        InstallFate(s1, k, Merges(c, w, s, k).tip, i, i in b.current);
      } else if i in b.current {
        NextDraws(c, w, s1, k);
        DrawsForgets(s1, Next(c, w, s1, k), k, i);
      } else {
        WeededMidway(c, w, s, k);
        NextFate(c, w, s1, k, i);
      }
    }
  }

  lemma {:induction false} NextFate(c: Config, w: World, s: State, k: nat, i: Id)
    requires k < |s.batches| && Midway(s, k) && s.batches[k].current == [] && Adrift(s, k, i)
    ensures Fate(Next(c, w, s, k), k, i, PopStacks(c, w, s, k, i))
    decreases |s.batches[k].pending|, 0
  {
    var b := s.batches[k];
    if b.pending != [] {
      ApartPop(b);
      PopMidway(s, k);
      BuildFate(c, w, Put(s, k, b.Pop()), k, i);
    }
  }

  // ----- which steps lose a member without a row ----------------------------

  /** Ejecting the slice under test, or the pop that follows. */
  predicate EjectLoses(c: Config, w: World, s: State, k: nat, i: Id)
    requires k < |s.batches|
  {
    i in s.batches[k].current || PopStacks(c, w, EjectCurrent(s, k), k, i)
  }

  predicate PassLoses(c: Config, w: World, push: Push, s: State, k: nat, i: Id)
    requires k < |s.batches| && s.batches[k].sha.Some?
  {
    var b := s.batches[k];
    match push
    case Unavailable => false
    case Denied => EjectLoses(c, w, s, k, i)
    case Reach =>
      if IsAncestor(s.target, b.sha.value) then
        i !in b.current && PopStacks(c, w, LandCurrent(s, k, b.sha.value), k, i)
      else if b.ffRetries + 1 < MAX_FF_RETRIES then
        Stacks(c, w, Put(s, k, b.Race().Rebuilding()), k, i)
      else
        EjectLoses(c, w, Put(s, k, b.Race()), k, i)
  }

  predicate FailLoses(c: Config, w: World, s: State, k: nat, i: Id)
    requires k < |s.batches|
  {
    var b := s.batches[k];
    if |b.current| == 1 then EjectLoses(c, w, s, k, i)
    else Capped(c, b) || Stacks(c, w, AfterSplit(s, k), k, i)
  }

  predicate RemovalLoses(c: Config, w: World, s: State, k: nat, id: Id, i: Id)
    requires k < |s.batches|
  {
    var b' := s.batches[k].Discard(id);
    && id in s.batches[k].current
    && if b'.current == [] then PopStacks(c, w, Discarded(s, k, b', id), k, i)
       else Stacks(c, w, Discarded(s, k, b'.Rebuilding(), id), k, i)
  }

  predicate CheckLoses(c: Config, s: State, e: Event, k: nat, i: Id)
    requires k < |s.batches| && e.Check? && Fresh(s, e.snap) && e.snap.batch == k
  {
    match Decision(s, e)
    case Passes => PassLoses(c, e.w, e.push, Recorded(s, e), k, i)
    case Fails => FailLoses(c, e.w, Recorded(s, e), k, i)
    case Waits => e.required.Some? && e.timedOut && FailLoses(c, e.w, Recorded(s, e), k, i)
  }

  /** The step merges, ejects or drops the slice that holds the member. */
  predicate Loses(c: Config, s: State, e: Event, k: nat, i: Id)
    requires k < |s.batches|
  {
    match e
    case Check(snap, _, _, _, _, _, _) => Fresh(s, snap) && snap.batch == k && CheckLoses(c, s, e, k, i)
    case Timeout(j, elapsed, w) => j == k && elapsed && s.batches[k].phase.Testing? && FailLoses(c, w, s, k, i)
    case Remove(id, _, w) => Addresses(s, e, k) && id != i && RemovalLoses(c, w, s, k, id, i)
    case FormAndBuild(w) => s.batches[k].phase.Forming? && Stacks(c, w, s, k, i)
    case Reconcile(w) => s.batches[k].phase.Forming? && Stacks(c, w, s, k, i)
    case _ => false
  }

  lemma EjectFate(s: State, k: nat, i: Id)
    requires k < |s.batches| && Midway(s, k) && Adrift(s, k, i)
    ensures Fate(EjectCurrent(s, k), k, i, i in s.batches[k].current)
  {
    ApartParts(s.batches[k]);
    ExistingFacts(s.rows, s.batches[k].current);
  }

  lemma EjectThenFate(c: Config, w: World, s: State, k: nat, i: Id)
    requires k < |s.batches| && Midway(s, k) && Adrift(s, k, i)
    ensures Fate(Next(c, w, EjectCurrent(s, k), k), k, i, EjectLoses(c, w, s, k, i))
  {
    var t := EjectCurrent(s, k);
    EjectFate(s, k, i);
    if i in s.batches[k].current {
      NextDraws(c, w, t, k);
      DrawsForgets(t, Next(c, w, t, k), k, i);
    } else {
      EjectCurrentMidway(s, k);
      NextFate(c, w, t, k, i);
    }
  }

  lemma PutAdrift(s: State, k: nat, b': Batch, i: Id)
    requires Adrift(s, k, i)
    requires b'.current == s.batches[k].current && b'.pending == s.batches[k].pending
    requires b'.landed == s.batches[k].landed && b'.ejected == s.batches[k].ejected
    ensures Adrift(Put(s, k, b'), k, i)
  {
  }

  /** The member was under test and its commit was pushed: it is noted as landed. */
  lemma LandFate(c: Config, w: World, s: State, k: nat, sha: Commit, i: Id)
    requires k < |s.batches| && Midway(s, k) && Adrift(s, k, i)
    ensures var s' := Next(c, w, LandCurrent(s, k, sha), k);
            if i in s.batches[k].current
            then k < |s'.batches| && i in s'.batches[k].landed && i !in s'.batches[k].ejected
            else Fate(s', k, i, PopStacks(c, w, LandCurrent(s, k, sha), k, i))
  {
    var t := LandCurrent(s, k, sha);
    if i in s.batches[k].current {
      NextDraws(c, w, t, k);
    } else {
      LandMidway(s, k, sha);
      assert Adrift(t, k, i);
      NextFate(c, w, t, k, i);
    }
  }

  lemma PassFate(c: Config, w: World, push: Push, s: State, k: nat, i: Id)
    requires k < |s.batches| && Midway(s, k) && Adrift(s, k, i)
    requires s.batches[k].phase.Testing? && s.batches[k].sha.Some?
    ensures var s' := HandlePass(c, w, push, s, k);
            if push.Reach? && IsAncestor(s.target, s.batches[k].sha.value) && i in s.batches[k].current
            then k < |s'.batches| && i in s'.batches[k].landed && i !in s'.batches[k].ejected
            else Fate(s', k, i, PassLoses(c, w, push, s, k, i))
  {
    hide Midway, Stacks, PopStacks, EjectLoses, Adrift, Forgotten;
    var b := s.batches[k];
    match push
    case Unavailable =>
    case Denied => EjectThenFate(c, w, s, k, i);
    case Reach =>
      if IsAncestor(s.target, b.sha.value) {
        LandFate(c, w, s, k, b.sha.value, i);
      } else {
        RaceMidway(s, k);
        PutAdrift(s, k, b.Race(), i);
        PutAdrift(s, k, b.Race().Rebuilding(), i);
        PutTwice(s, k, b.Race(), b.Race().Rebuilding());
        if b.ffRetries + 1 < MAX_FF_RETRIES {
          BuildFate(c, w, Put(s, k, b.Race().Rebuilding()), k, i);
        } else {
          EjectThenFate(c, w, Put(s, k, b.Race()), k, i);
        }
      }
  }

  lemma SplitAdrift(s: State, k: nat, i: Id)
    requires Adrift(s, k, i)
    ensures Adrift(AfterSplit(s, k), k, i)
  {
    SplitApart(s.batches[k]);
  }

  lemma DrainForgets(c: Config, w: World, s: State, k: nat, i: Id)
    requires k < |s.batches| && Midway(s, k) && Adrift(s, k, i)
    ensures Forgotten(Next(c, w, EjectCurrent(Put(s, k, s.batches[k].Drain()), k), k), k, i)
  {
    var t := Put(s, k, s.batches[k].Drain());
    ExistingFacts(s.rows, t.batches[k].current);
    assert Forgotten(EjectCurrent(t, k), k, i);
  }

  lemma FailFate(c: Config, w: World, s: State, k: nat, i: Id)
    requires k < |s.batches| && Midway(s, k) && Adrift(s, k, i) && s.batches[k].phase.Testing?
    ensures Fate(HandleFail(c, w, s, k), k, i, FailLoses(c, w, s, k, i))
  {
    hide Midway, Stacks, PopStacks, EjectLoses, Adrift, Forgotten;
    var b := s.batches[k];
    if |b.current| == 1 {
      EjectThenFate(c, w, s, k, i);
    } else if Capped(c, b) {
      DrainForgets(c, w, s, k, i);
    } else {
      SplitMidway(s, k);
      SplitAdrift(s, k, i);
      BuildFate(c, w, AfterSplit(s, k), k, i);
    }
  }

  lemma DiscardAdrift(s: State, k: nat, id: Id, b': Batch, i: Id)
    requires Adrift(s, k, i) && id != i
    requires b'.current == s.batches[k].Discard(id).current && b'.pending == s.batches[k].Discard(id).pending
    requires b'.landed == s.batches[k].landed && b'.ejected == s.batches[k].ejected + [id]
    ensures Adrift(Discarded(s, k, b', id), k, i)
  {
    var b := s.batches[k];
    WithoutFilters(b.current, id);
    WithoutFilters(Upcoming(b.pending), id);
    TrimUpcoming(b.pending, id);
  }

  lemma RemovedFate(c: Config, w: World, s: State, k: nat, id: Id, i: Id)
    requires k < |s.batches| && Midway(s, k) && Adrift(s, k, i) && id != i
    ensures Fate(OnMemberRemoved(c, w, s.(rows := Dequeued(s.rows, [id])), k, id), k, i,
                 RemovalLoses(c, w, s, k, id, i))
  {
    hide Midway, Stacks, PopStacks, Adrift, Forgotten;
    LiveNow(s, k);
    var b := s.batches[k];
    RemovedIs(c, w, s, k, id);
    DiscardedMidway(s, k, id);
    DiscardAdrift(s, k, id, b.Discard(id), i);
    DiscardAdrift(s, k, id, b.Discard(id).Rebuilding(), i);
    if id in b.current {
      if b.Discard(id).current == [] {
        NextFate(c, w, Discarded(s, k, b.Discard(id), id), k, i);
      } else {
        BuildFate(c, w, Discarded(s, k, b.Discard(id).Rebuilding(), id), k, i);
      }
    }
  }

  lemma LiveNow(s: State, k: nat)
    requires k < |s.batches| && Midway(s, k)
    ensures s.batches[k].Live()
  {
  }

  /** The report of the member's own removal is noted, late as it is. */
  lemma ReportedFate(c: Config, w: World, s: State, k: nat, i: Id)
    requires k < |s.batches| && Midway(s, k) && Adrift(s, k, i)
    ensures var s' := OnMemberRemoved(c, w, s.(rows := Dequeued(s.rows, [i])), k, i);
            k < |s'.batches| && i in s'.batches[k].ejected && i !in s'.batches[k].landed
  {
    var b := s.batches[k];
    RemovedIs(c, w, s, k, i);
    var t, t' := Discarded(s, k, b.Discard(i), i), Discarded(s, k, b.Discard(i).Rebuilding(), i);
    NextAccounts(c, w, t, k);
    BuildAccounts(c, w, t', k);
  }

  /** The step lands the member: its slice is under test and is pushed. */
  predicate LandsIt(s: State, e: Event, i: Id) {
    Lands(s, e) && e.snap.batch < |s.batches| && i in s.batches[e.snap.batch].current
  }

  /** The step is the report of the member's removal to batch `k`. */
  predicate ReportsIt(s: State, e: Event, k: nat, i: Id) { Addresses(s, e, k) && e.id == i }

  lemma RecordedAdrift(s: State, e: Event, k: nat, i: Id)
    requires e.Check? && Fresh(s, e.snap) && Adrift(s, k, i)
    ensures Adrift(Recorded(s, e), k, i)
  {
  }

  lemma CheckFate(c: Config, s: State, e: Event, k: nat, i: Id)
    requires Recoverable(s) && e.Check? && Fresh(s, e.snap) && e.snap.batch == k && Adrift(s, k, i)
    ensures var s' := Step(c, s, e);
            if LandsIt(s, e, i) then k < |s'.batches| && i in s'.batches[k].landed && i !in s'.batches[k].ejected
            else Fate(s', k, i, CheckLoses(c, s, e, k, i))
  {
    hide HandlePass, HandleFail, PassLoses, FailLoses, Recoverable, Adrift, Forgotten;
    var s1 := Recorded(s, e);
    RecordedRecovers(s, e);
    LiveIsLastToo(s1, k);
    RecordedAdrift(s, e, k, i);
    match Decision(s, e)
    case Passes => PassFate(c, e.w, e.push, s1, k, i);
    case Fails => FailFate(c, e.w, s1, k, i);
    case Waits => FailFate(c, e.w, s1, k, i);
  }

  lemma OwnRemoval(c: Config, s: State, e: Event, k: nat, i: Id)
    requires Recoverable(s) && Adrift(s, k, i) && e.Remove? && s.batches[k].Live()
    ensures var s' := Step(c, s, e);
            if ReportsIt(s, e, k, i) then k < |s'.batches| && i in s'.batches[k].ejected && i !in s'.batches[k].landed
            else Fate(s', k, i, Addresses(s, e, k) && RemovalLoses(c, e.w, s, k, e.id, i))
  {
    LiveIsLastToo(s, k);
    hide Midway, Recoverable, RemovalLoses;
    if Addresses(s, e, k) {
      if e.id == i { ReportedFate(c, e.w, s, k, i); } else { RemovedFate(c, e.w, s, k, e.id, i); }
    } else {
      NotReported(c, s, e, k);
    }
  }

  /** One of four: landed, noted as ejected, lost track of, or as before. */
  ghost predicate OneOf(s': State, k: nat, i: Id, landed: bool, ejected: bool, lost: bool) {
    && k < |s'.batches|
    && (i in s'.batches[k].landed <==> landed)
    && (i in s'.batches[k].ejected <==> ejected)
    && (Forgotten(s', k, i) <==> !landed && !ejected && lost)
    && (Adrift(s', k, i) <==> !landed && !ejected && !lost)
  }

  lemma FateIsOne(s': State, k: nat, i: Id, lost: bool)
    requires Fate(s', k, i, lost)
    ensures OneOf(s', k, i, false, false, lost)
  {
  }

  lemma NotedIsOne(s': State, k: nat, i: Id, lost: bool)
    requires k < |s'.batches| && Noted(s'.batches[k], i)
    ensures OneOf(s', k, i, i in s'.batches[k].landed, i in s'.batches[k].ejected, lost)
  {
  }

  lemma BuildOne(c: Config, w: World, s: State, k: nat, i: Id)
    requires Recoverable(s) && Adrift(s, k, i) && s.batches[k].Live()
    ensures OneOf(Build(c, w, s, k), k, i, false, false, Stacks(c, w, s, k, i))
  {
    LiveIsLastToo(s, k);
    BuildFate(c, w, s, k, i);
    FateIsOne(Build(c, w, s, k), k, i, Stacks(c, w, s, k, i));
  }

  lemma TimeoutOne(c: Config, s: State, e: Event, k: nat, i: Id)
    requires Recoverable(s) && Adrift(s, k, i) && s.batches[k].Live() && e.Timeout?
    ensures OneOf(Step(c, s, e), k, i, false, false, Loses(c, s, e, k, i))
  {
    LiveIsLastToo(s, k);
    hide Recoverable, Midway, FailLoses, OneOf, Adrift, Forgotten;
    if e.batch == k && e.elapsed && s.batches[k].phase.Testing? {
      FailFate(c, e.w, s, k, i);
    } else if e.batch < |s.batches| {
      OtherBatch(c, e.w, s, e.batch, k);
    }
    FateIsOne(Step(c, s, e), k, i, Loses(c, s, e, k, i));
  }

  /** Exactly what becomes of a member whose row is gone, through any event from
      any tables a crash can leave: it lands if its slice is under test and is
      pushed, it is noted if its removal is reported, and it is lost track of if
      its slice is merged again, ejected or dropped; otherwise nothing changes. */
  lemma AdriftFate(c: Config, s: State, e: Event, k: nat, i: Id)
    requires Recoverable(s) && Adrift(s, k, i) && s.batches[k].Live()
    ensures OneOf(Step(c, s, e), k, i, LandsIt(s, e, i), ReportsIt(s, e, k, i), Loses(c, s, e, k, i))
  {
    LiveIsLastToo(s, k);
    match e
    case Check(_, _, _, _, _, _, _) => CheckOne(c, s, e, k, i);
    case Timeout(_, _, _) => TimeoutOne(c, s, e, k, i);
    case Remove(_, _, _) => RemoveOne(c, s, e, k, i);
    case FormAndBuild(w) => FormOne(c, s, e, k, i);
    case Reconcile(w) => FormOne(c, s, e, k, i);
    case Enqueue => QuietOne(c, s, e, k, i);
    case Promote => QuietOne(c, s, e, k, i);
    case OutsidePush(_) => QuietOne(c, s, e, k, i);
  }

  lemma CheckOne(c: Config, s: State, e: Event, k: nat, i: Id)
    requires Recoverable(s) && Adrift(s, k, i) && s.batches[k].Live() && e.Check?
    ensures OneOf(Step(c, s, e), k, i, LandsIt(s, e, i), false, Loses(c, s, e, k, i))
  {
    LiveIsLastToo(s, k);
    if Fresh(s, e.snap) {
      LiveIsLastToo(s, e.snap.batch);
      hide Recoverable, Midway, Adrift, Forgotten, OneOf, CheckLoses, OnCheck;
      CheckFate(c, s, e, k, i);
      if LandsIt(s, e, i) {
        NotedIsOne(Step(c, s, e), k, i, CheckLoses(c, s, e, k, i));
      } else {
        FateIsOne(Step(c, s, e), k, i, CheckLoses(c, s, e, k, i));
      }
    } else {
      FateIsOne(s, k, i, false);
    }
  }

  lemma RemoveOne(c: Config, s: State, e: Event, k: nat, i: Id)
    requires k < |s.batches| && Recoverable(s) && Adrift(s, k, i) && s.batches[k].Live() && e.Remove?
    ensures OneOf(Step(c, s, e), k, i, false, ReportsIt(s, e, k, i), Loses(c, s, e, k, i))
  {
    hide Recoverable, Adrift, Forgotten, OneOf, RemovalLoses, OnRemove;
    OwnRemoval(c, s, e, k, i);
    if ReportsIt(s, e, k, i) {
      NotedIsOne(Step(c, s, e), k, i, Loses(c, s, e, k, i));
    } else {
      FateIsOne(Step(c, s, e), k, i, Loses(c, s, e, k, i));
    }
  }

  lemma FormOne(c: Config, s: State, e: Event, k: nat, i: Id)
    requires Recoverable(s) && Adrift(s, k, i) && s.batches[k].Live() && (e.FormAndBuild? || e.Reconcile?)
    ensures OneOf(Step(c, s, e), k, i, false, false, Loses(c, s, e, k, i))
  {
    LiveIsLastToo(s, k);
    if s.batches[k].phase.Forming? {
      BuildOne(c, e.w, s, k, i);
    } else {
      FateIsOne(Step(c, s, e), k, i, false);
    }
  }

  lemma QuietOne(c: Config, s: State, e: Event, k: nat, i: Id)
    requires Recoverable(s) && Adrift(s, k, i) && s.batches[k].Live()
    requires e.Enqueue? || e.Promote? || e.OutsidePush?
    ensures OneOf(Step(c, s, e), k, i, false, false, false)
  {
    LiveIsLastToo(s, k);
    FateIsOne(Step(c, s, e), k, i, false);
  }

  /** What reconciling makes of a crash, for every member in play with nothing on
      record, under test or waiting, forming or testing: it is accounted for, by
      its row or by a note, if and only if its row is still there; without one, it
      is lost track of at once if its slice is merged by the rebuild, and else as
      AdriftFate says later. */
  lemma ForgottenIff(c: Config, w: World, s: State, i: Id)
    requires Recoverable(s) && HasLive(s)
    requires var b := s.batches[|s.batches| - 1]; b.InPlay(i) && !Noted(b, i)
    ensures var k, s' := |s.batches| - 1, OnReconcile(c, w, s);
            && k < |s'.batches|
            && (Safe(s', k, i) <==> i in s.rows)
            && (Forgotten(s', k, i) <==>
                  i !in s.rows && s.batches[k].phase.Forming? && Stacks(c, w, s, k, i))
            && (Adrift(s', k, i) <==>
                  i !in s.rows && !(s.batches[k].phase.Forming? && Stacks(c, w, s, k, i)))
  {
    var k, s' := |s.batches| - 1, OnReconcile(c, w, s);
    LiveIsLastToo(s, k);
    if i in s.rows {
      RowIsSafe(s, k, i);
      SafeStep(c, s, Reconcile(w), k, i);
      StepRecovers(c, s, Reconcile(w));
      SafeMeaning(s', k, i);
    } else {
      AdriftFate(c, s, Reconcile(w), k, i);
    }
  }

  lemma RowIsSafe(s: State, k: nat, i: Id)
    requires k < |s.batches| && Midway(s, k) && i in s.rows && s.batches[k].InPlay(i)
    ensures Safe(s, k, i)
  {
  }

  /** Over any run after the crash: a member with nothing on record can be lost
      track of only if its row was gone at the crash. */
  lemma OnlyRowlessAreLost(c: Config, s: State, events: seq<Event>, i: Id)
    requires Recoverable(s) && HasLive(s)
    requires s.batches[|s.batches| - 1].InPlay(i)
    requires Forgotten(Run(c, s, events), |s.batches| - 1, i)
    ensures i !in s.rows
  {
    var k := |s.batches| - 1;
    LiveIsLastToo(s, k);
    if i in s.rows {
      RowIsSafe(s, k, i);
      SafeForever(c, s, events, k, i);
    }
  }

  /** The length test in the finish of a batch decides only for a batch that lost
      track of a member. */
  lemma FlakyUnlessLost(b: Batch)
    requires Apart(b) && b.current == [] && b.pending == []
    ensures b.Finish().flaky <==> b.ejected == [] && b.builds > 1 && forall i :: i in b.members ==> Noted(b, i)
  {
    assert b.Line() == b.landed;
    if |b.landed| == |b.members| { SubFull(b.landed, b.members); }
    if forall i :: i in b.members ==> i in b.landed { AllThere(b.landed, b.members); }
  }

  lemma AllThere(a: seq<Id>, b: seq<Id>)
    requires Sub(a, b) && Unique(b) && forall i :: i in b ==> i in a
    ensures a == b
  {
    SubMultiset(a, b);
    forall i | i in multiset(b)
      ensures multiset(b)[i] <= multiset(a)[i]
    {
      assert i in b && i in a;
    }
    assert multiset(b) == multiset(a);
    assert |multiset(a)| == |a| && |multiset(b)| == |b|;
    SubFull(a, b);
  }

  // ----- who can still report -----------------------------------------------

  /** A batch is under test, and none of the members under test has a row. */
  ghost predicate Silent(s: State) {
    UnderTest(s) && forall i :: i in Tester(s).current ==> i !in s.rows
  }

  /** After reconciling, a batch under test has a row through which a result about
      its commit passes the guard, or no row at all. */
  lemma RoutedOrSilent(c: Config, w: World, s: State)
    requires Recoverable(s) && UnderTest(OnReconcile(c, w, s))
    ensures var s' := OnReconcile(c, w, s);
            !Silent(s') <==>
            exists i :: i in Tester(s').current && Fresh(s', Snapshot(i, |s'.batches| - 1, TestedSha(s')))
  {
    var s' := OnReconcile(c, w, s);
    ReconcileRoutes(c, w, s);
    if i :| i in Tester(s').current && i in s'.rows {
      assert Fresh(s', Snapshot(i, |s'.batches| - 1, TestedSha(s')));
    }
  }

  /** The webhook's lookup ends at a member under test, in the batch and with the
      commit under test, if and only if one of them has a row. */
  lemma WebhookFindsIff(branches: seq<State>, m: nat, sha: Commit, found: Option<Entry>)
    requires m < |branches| && Recoverable(branches[m]) && RoutesRight(branches[m])
    requires UnderTest(branches[m]) && TestedSha(branches[m]) == Some(sha) && OnlyOn(branches, m, sha)
    requires FirstCarrier(Active(branches), sha, found)
    ensures found.Some? <==> !Silent(branches[m])
    ensures found.Some? ==>
              && found.value.batch.Some? && found.value.id in Tester(branches[m]).current
              && Fresh(branches[m], Snapshot(found.value.id, found.value.batch.value, found.value.sha))
  {
    hide Recoverable, RoutesRight, OnlyOn, Active, FromBranch;
    var s := branches[m];
    if found.Some? {
      FoundIsListed(branches, m, sha, found.value);
      CarrierIsCurrent(s, found.value.id);
    } else {
      NoneIsListed(branches, m, sha);
      forall i | i in Tester(s).current
        ensures i !in s.rows
      {
        if i in s.rows { CurrentCarries(s, i, sha); }
      }
    }
  }

  lemma FoundIsListed(branches: seq<State>, m: nat, sha: Commit, f: Entry)
    requires m < |branches| && OnlyOn(branches, m, sha) && FirstCarrier(Active(branches), sha, Some(f))
    ensures CarriedAt(branches[m], f.id, sha) && f == Line(m, branches[m].rows, f.id)
  {
    ActiveFacts(branches);
    assert FromBranch(branches, f) && CarriedAt(branches[f.branch], f.id, sha);
  }

  lemma NoneIsListed(branches: seq<State>, m: nat, sha: Commit)
    requires m < |branches| && FirstCarrier(Active(branches), sha, None)
    ensures forall i :: i in branches[m].rows && i < branches[m].next ==> !CarriedAt(branches[m], i, sha)
  {
    ActiveFacts(branches);
    forall i | i in branches[m].rows && i < branches[m].next
      ensures !CarriedAt(branches[m], i, sha)
    {
      var line := Line(m, branches[m].rows, i);
      assert FromBranch(branches, line);
      assert !Carries(line, sha);
    }
  }

  lemma CurrentCarries(s: State, i: Id, sha: Commit)
    requires Recoverable(s) && RoutesRight(s) && UnderTest(s) && TestedSha(s) == Some(sha)
    requires i in Tester(s).current && i in s.rows
    ensures CarriedAt(s, i, sha) && i < s.next
  {
    LiveIsLastToo(s, |s.batches| - 1);
  }

  lemma CarrierIsCurrent(s: State, i: Id)
    requires Recoverable(s) && RoutesRight(s) && UnderTest(s) && i in s.rows && s.rows[i].sha.Some?
    ensures i in Tester(s).current && s.rows[i].batch == Some(|s.batches| - 1)
  {
    LiveIsLastToo(s, |s.batches| - 1);
    assert Tester(s).InPlay(i);
  }

  /** The poller asks for the first member under test alone, so it reports only as
      long as that one has a row. */
  lemma PollerFindsIff(s: State)
    requires UnderTest(s) && Tester(s).current != []
    ensures Existing(s.rows, Tester(s).current[..1]) != [] <==> Tester(s).current[0] in s.rows
    ensures Tester(s).current[0] in s.rows ==> Existing(s.rows, Tester(s).current[..1]) == [Tester(s).current[0]]
  {
    var one := Tester(s).current[..1];
    assert one[..0] == [];
    assert Existing(s.rows, one[..0]) == [];
  }

  predicate NoCarrier(s: State) { forall i :: i in s.rows ==> s.rows[i].sha.None? }

  /** What a caller knows it has read since the restart: a result's row carried the
      commit at some moment, a removed row named the batch at some moment. */
  ghost predicate Heard(c: Config, s: State, events: seq<Event>, t: nat)
    requires t < |events|
  {
    match events[t]
    case Check(snap, _, _, _, _, _, _) =>
      snap.sha.Some? ==> exists u :: 0 <= u <= t && CarriedAt(Run(c, s, events[..u]), snap.id, snap.sha.value)
    case Remove(id, snapBatch, _) =>
      snapBatch.Some? ==> exists u :: 0 <= u <= t && NamedBy(Run(c, s, events[..u]), id, snapBatch)
    case _ => true
  }

  predicate NamedBy(s: State, id: Id, batch: Option<nat>) { id in s.rows && s.rows[id].batch == batch }

  /** The clock of batch `k` has run out. */
  predicate RunsOut(e: Event, k: nat) { e.Timeout? && e.batch == k && e.elapsed }

  /** The same build of the same members is still waited for. */
  ghost predicate StillSilent(s: State, s': State) {
    && Silent(s') && NoCarrier(s')
    && UnderTest(s) && |s'.batches| == |s.batches|
    && Tester(s').current == Tester(s).current && Tester(s').sha == Tester(s).sha
    && Tester(s').builds == Tester(s).builds && Tester(s').landed == Tester(s).landed
  }

  lemma DropIsSilent(s: State, k: nat, id: Id)
    requires UnderTest(s) && k == |s.batches| - 1 && StillSilent(s, s) && id !in s.batches[k].current
    ensures StillSilent(s, Discarded(s, k, s.batches[k].Discard(id), id))
  {
    WithoutAbsent(s.batches[k].current, id);
    hide Without, Trim;
    assert s.batches[k].Discard(id).current == s.batches[k].current;
  }

  lemma SilentRemove(c: Config, s: State, e: Event)
    requires Recoverable(s) && StillSilent(s, s) && e.Remove?
    requires ReportedTo(s, e) == Some(|s.batches| - 1) ==> e.id !in Tester(s).current
    ensures StillSilent(s, Step(c, s, e))
  {
    hide Recoverable, OnMemberRemoved, Without, Trim;
    var k := |s.batches| - 1;
    LiveIsLastToo(s, k);
    if ReportedTo(s, e) == Some(k) {
      RemovedIs(c, e.w, s, k, e.id);
      DropIsSilent(s, k, e.id);
    } else {
      NotReported(c, s, e, k);
    }
  }

  lemma SilentStep(c: Config, s: State, e: Event)
    requires Recoverable(s) && StillSilent(s, s) && !RunsOut(e, |s.batches| - 1)
    requires e.Check? ==> !Fresh(s, e.snap)
    requires e.Remove? && ReportedTo(s, e) == Some(|s.batches| - 1) ==> e.id !in Tester(s).current
    ensures StillSilent(s, Step(c, s, e))
  {
    hide Recoverable, StillSilent, OnCheck, OnForm, OnReconcile, OnPromote, OnRemove, HandleFail;
    match e
    case Enqueue => QuietSilent(c, s, e);
    case Promote => QuietSilent(c, s, e);
    case FormAndBuild(_) => QuietSilent(c, s, e);
    case Check(_, _, _, _, _, _, _) => NotFreshIsInert(c, s, e);
    case Timeout(k, elapsed, w) => if k < |s.batches| && elapsed { SilentOther(c, w, s, k); }
    case Remove(_, _, _) => SilentRemove(c, s, e);
    case Reconcile(_) => QuietSilent(c, s, e);
    case OutsidePush(_) => QuietSilent(c, s, e);
  }

  lemma NotFreshIsInert(c: Config, s: State, e: Event)
    requires e.Check? && !Fresh(s, e.snap)
    ensures Step(c, s, e) == s
  {
  }

  lemma SilentOther(c: Config, w: World, s: State, k: nat)
    requires Recoverable(s) && StillSilent(s, s) && k < |s.batches| && k != |s.batches| - 1
    ensures HandleFail(c, w, s, k) == s
  {
    OtherBatch(c, w, s, k, |s.batches| - 1);
  }

  lemma QuietSilent(c: Config, s: State, e: Event)
    requires Recoverable(s) && StillSilent(s, s)
    requires e.Enqueue? || e.Promote? || e.FormAndBuild? || e.Reconcile? || e.OutsidePush?
    ensures StillSilent(s, Step(c, s, e))
  {
    hide Apart, Build;
    LiveIsLastToo(s, |s.batches| - 1);
    match e
    case Enqueue => assert forall i: Id :: i in Tester(s).current ==> Tester(s).InPlay(i);
    case Reconcile(_) => assert Stamped(s.rows, Tester(s).current, Tester(s).sha.value) == s.rows;
    case _ =>
  }

  lemma StillMore(s: State, t: State, u: State)
    requires StillSilent(s, t) && StillSilent(t, u)
    ensures StillSilent(s, u)
  {
  }

  lemma StillNow(s: State, now: State)
    requires StillSilent(s, now)
    ensures StillSilent(now, now) && UnderTest(now) && |now.batches| == |s.batches|
  {
  }

  lemma SilentNow(s: State)
    requires Recoverable(s) && RoutesRight(s) && Silent(s)
    ensures StillSilent(s, s)
  {
  }

  lemma NoneCarried(c: Config, s: State, events: seq<Event>, t: nat)
    requires t <= |events| && forall u :: 0 <= u <= t ==> StillSilent(s, Run(c, s, events[..u]))
    ensures forall u, id, sha :: 0 <= u <= t ==> !CarriedAt(Run(c, s, events[..u]), id, sha)
  {
    hide Run;
    forall u, id, sha | 0 <= u <= t
      ensures !CarriedAt(Run(c, s, events[..u]), id, sha)
    {
      assert StillSilent(s, Run(c, s, events[..u]));
    }
  }

  lemma HeardIsInert(c: Config, s: State, events: seq<Event>, t: nat)
    requires t < |events| && Heard(c, s, events, t)
    requires forall u :: 0 <= u <= t ==> StillSilent(s, Run(c, s, events[..u]))
    ensures var now, e := Run(c, s, events[..t]), events[t];
            && UnderTest(now)
            && (e.Check? ==> !Fresh(now, e.snap))
            && (e.Remove? && ReportedTo(now, e) == Some(|now.batches| - 1) ==> e.id !in Tester(now).current)
  {
    hide Run, Step;
    var now, e := Run(c, s, events[..t]), events[t];
    assert StillSilent(s, now);
    NoneCarried(c, s, events, t);
    if e.Remove? && e.id !in now.rows && e.snapBatch.Some? {
      var u :| 0 <= u <= t && NamedBy(Run(c, s, events[..u]), e.id, e.snapBatch);
      assert StillSilent(s, Run(c, s, events[..u]));
    }
  }

  /** A batch none of whose members under test has a row is ended by its timeout
      and by nothing else: through any run of events that the callers can have
      heard of, the same build of the same members stays under test, no other batch
      is formed, and nothing lands. */
  lemma {:induction false} OnlyTimeoutEnds(c: Config, s: State, events: seq<Event>, t: nat)
    requires Recoverable(s) && RoutesRight(s) && Silent(s) && t <= |events|
    requires forall u :: 0 <= u < t ==> Heard(c, s, events, u) && !RunsOut(events[u], |s.batches| - 1)
    ensures forall u :: 0 <= u <= t ==> StillSilent(s, Run(c, s, events[..u]))
    decreases t
  {
    hide StillSilent, Recoverable, Step, RoutesRight, Silent;
    if t == 0 {
      SilentNow(s);
    } else {
      assert events[..t][..t - 1] == events[..t - 1];
      var now, e := Run(c, s, events[..t - 1]), events[t - 1];
      OnlyTimeoutEnds(c, s, events, t - 1);
      assert Heard(c, s, events, t - 1);
      RunRecovers(c, s, events[..t - 1]);
      HeardIsInert(c, s, events, t - 1);
      StillNow(s, now);
      SilentStep(c, now, e);
      StillMore(s, now, Step(c, now, e));
    }
  }

  lemma {:induction false} BuildTests(c: Config, w: World, s: State, k: nat)
    requires k < |s.batches| && s.batches[k].phase.Forming?
    ensures Build(c, w, s, k).batches[k].phase.Testing? ==> Build(c, w, s, k).batches[k].builds > s.batches[k].builds
    decreases |s.batches[k].pending|, 1
  {
    if !w.broken(|s.batches[k].pending|) {
      var s1 := Weeded(c, w, s, k);
      if s1.batches[k].current == [] { NextTests(c, w, s1, k); }
    }
  }

  lemma {:induction false} NextTests(c: Config, w: World, s: State, k: nat)
    requires k < |s.batches|
    ensures Next(c, w, s, k).batches[k].phase.Testing? ==> Next(c, w, s, k).batches[k].builds > s.batches[k].builds
    decreases |s.batches[k].pending|, 0
  {
    var b := s.batches[k];
    if b.pending != [] { BuildTests(c, w, Put(s, k, b.Pop()), k); }
  }

  /** And its timeout does end it: the batch is done, is to be built again, or
      tests a newer build. */
  lemma TimeoutMovesOn(c: Config, w: World, s: State)
    requires UnderTest(s)
    ensures var k, s' := |s.batches| - 1, Step(c, s, Timeout(|s.batches| - 1, true, w));
            s'.batches[k].phase.Testing? ==> s'.batches[k].builds > s.batches[k].builds
  {
    var k := |s.batches| - 1;
    var b := s.batches[k];
    if |b.current| == 1 {
      NextTests(c, w, EjectCurrent(s, k), k);
    } else if Capped(c, b) {
      NextTests(c, w, EjectCurrent(Put(s, k, b.Drain()), k), k);
    } else {
      BuildTests(c, w, AfterSplit(s, k), k);
    }
  }
}
