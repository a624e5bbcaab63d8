/** The queue with batching off: one PR of a branch is tested at a time. Check
    results arrive with a row as it was read at some earlier time; a failure is
    handled by marking that PR and then dropping the head of its queue. */
module Legacy {
  import opened Lists
  import opened Commits
  import opened Checks

  datatype Stage = Queued | Testing | Succeeded | Dropped

  datatype Entry = Entry(id: nat, pr: nat, branch: string, stage: Stage, sha: Option<Commit>, checks: Standing)

  /** The rows of a repository, oldest first. */
  type Queue = seq<Entry>

  datatype State = State(queue: Queue, next: nat)

  datatype Event =
    | Enqueue(pr: nat, branch: string)
    | Start(branch: string, upToDate: bool, merged: Option<Commit>)
    | Check(snap: Entry, context: string, state: CheckState, required: Option<seq<string>>, timedOut: bool)
    | Remove(pr: nat)

  // ----- the queue operations -----------------------------------------------

  /** The position of the PR's row, or the length if it has none. */
  function Find(q: Queue, pr: nat): (i: nat)
    ensures i <= |q|
    ensures i < |q| ==> q[i].pr == pr
    ensures forall j :: 0 <= j < i ==> q[j].pr != pr
  {
    if q == [] then 0
    else
      var i := Find(q[..|q| - 1], pr);
      if i < |q| - 1 then i else if q[|q| - 1].pr == pr then |q| - 1 else |q|
  }

  /** The position of the branch's oldest row. */
  function Head(q: Queue, branch: string): (i: nat)
    ensures i <= |q|
    ensures i < |q| ==> q[i].branch == branch
    ensures forall j :: 0 <= j < i ==> q[j].branch != branch
  {
    if q == [] then 0
    else
      var i := Head(q[..|q| - 1], branch);
      if i < |q| - 1 then i else if q[|q| - 1].branch == branch then |q| - 1 else |q|
  }

  function Cut(q: Queue, i: nat): Queue { if i < |q| then q[..i] + q[i + 1..] else q }

  function Marked(q: Queue, pr: nat, stage: Stage): (r: Queue)
    ensures |r| == |q|
  {
    var i := Find(q, pr);
    if i < |q| then q[i := q[i].(stage := stage)] else q
  }

  function Advanced(q: Queue, branch: string): Queue { Cut(q, Head(q, branch)) }

  /** removeFromQueue: mark the PR, then drop the head of its branch. */
  function AfterFailure(q: Queue, pr: nat, branch: string): Queue { Advanced(Marked(q, pr, Dropped), branch) }

  predicate HasId(q: Queue, id: nat) { ById(q, id) < |q| }

  /** The position of the row with that key. */
  function ById(q: Queue, id: nat): (i: nat)
    ensures i <= |q|
    ensures i < |q| ==> q[i].id == id
    ensures forall j :: 0 <= j < i ==> q[j].id != id
  {
    if q == [] then 0
    else
      var i := ById(q[..|q| - 1], id);
      if i < |q| - 1 then i else if q[|q| - 1].id == id then |q| - 1 else |q|
  }

  /** SaveCheckStatus: the result is kept under the row's key. */
  function Noted(q: Queue, id: nat, context: string, state: CheckState): (r: Queue)
    ensures |r| == |q|
  {
    var i := ById(q, id);
    if i < |q| then q[i := q[i].(checks := q[i].checks[context := state])] else q
  }

  lemma NotedStays(q: Queue, id: nat, context: string, state: CheckState)
    ensures ById(Noted(q, id, context, state), id) == ById(q, id)
  {
    var r := Noted(q, id, context, state);
    assert forall j :: 0 <= j < |q| ==> r[j].id == q[j].id;
  }

  /** What the row's ledger says once the result is kept, if the required
      checks are known. */
  function Decision(q: Queue, e: Event): Ruling
    requires e.Check? && HasId(q, e.snap.id)
  {
    if e.required.None? then Waits
    else Judge(q[ById(q, e.snap.id)].checks[e.context := e.state], e.required.value)
  }

  function Step(s: State, e: Event): State {
    match e
    case Enqueue(pr, branch) =>
      if Find(s.queue, pr) < |s.queue| then s
      else State(s.queue + [Entry(s.next, pr, branch, Queued, None, map[])], s.next + 1)
    case Start(branch, upToDate, merged) => s.(queue := Started(s.queue, branch, upToDate, merged))
    case Check(_, _, _, _, _) => s.(queue := Judged(s.queue, e))
    case Remove(pr) => s.(queue := Cut(s.queue, Find(s.queue, pr)))
  }

  /** A waiting head is promoted, tested, or dropped because it does not merge. */
  function Started(q: Queue, branch: string, upToDate: bool, merged: Option<Commit>): Queue {
    var i := Head(q, branch);
    if i >= |q| || !q[i].stage.Queued? then q
    else if upToDate then q[i := q[i].(stage := Succeeded)]
    else match merged
      case None => Cut(q, i)
      case Some(sha) => q[i := q[i].(stage := Testing, sha := merged)]
  }

  /** A result is recorded under the row's id first; that fails once the row is
      gone, and then nothing else happens. */
  function Judged(q: Queue, e: Event): Queue
    requires e.Check?
  {
    if !HasId(q, e.snap.id) then q
    else
      var q' := Noted(q, e.snap.id, e.context, e.state);
      if e.required.None? then q'
      else match Decision(q, e)
        case Passes => Marked(q', e.snap.pr, Succeeded)
        case Fails => AfterFailure(q', e.snap.pr, e.snap.branch)
        case Waits => if e.timedOut then AfterFailure(q', e.snap.pr, e.snap.branch) else q'
  }

  function Run(events: seq<Event>): State {
    if events == [] then State([], 0) else Step(Run(events[..|events| - 1]), events[|events| - 1])
  }

  // ----- only the head ever moves -------------------------------------------

  predicate First(q: Queue, i: nat)
    requires i < |q|
  {
    forall j :: 0 <= j < i ==> q[j].branch != q[i].branch
  }

  predicate Moved(e: Entry) { !e.stage.Queued? || e.sha.Some? }

  /** One row per PR; rows are in the order of their ids. */
  ghost predicate Keyed(q: Queue) {
    && (forall i, j :: 0 <= i < j < |q| ==> q[i].pr != q[j].pr)
    && (forall i, j :: 0 <= i < j < |q| ==> q[i].id < q[j].id)
  }

  /** Only a branch's head is past waiting or has a merge commit. */
  ghost predicate OnlyHeadsMoved(q: Queue) {
    forall i :: 0 <= i < |q| && Moved(q[i]) ==> First(q, i)
  }

  ghost predicate Orderly(s: State) {
    && Keyed(s.queue) && OnlyHeadsMoved(s.queue)
    && (forall i :: 0 <= i < |s.queue| ==> s.queue[i].id < s.next)
  }

  lemma FindIs(q: Queue, i: nat)
    requires Keyed(q) && i < |q|
    ensures Find(q, q[i].pr) == i
  {
  }

  lemma HeadIs(q: Queue, i: nat)
    requires i < |q|
    ensures Head(q, q[i].branch) == i <==> First(q, i)
  {
  }

  /** Row `i` is gone, and every other row is still there, unchanged and in order. */
  ghost predicate OneOut(q: Queue, q': Queue, i: nat) {
    && i < |q| && |q'| == |q| - 1
    && (forall j :: 0 <= j < i ==> q'[j] == q[j])
    && (forall j :: i < j < |q| ==> q'[j - 1] == q[j])
  }

  /** Row `i` is replaced, and every other row is unchanged. */
  ghost predicate OneChanged(q: Queue, q': Queue, i: nat, r: Entry) {
    && i < |q| && |q'| == |q| && q'[i] == r
    && (forall j :: 0 <= j < |q| && j != i ==> q'[j] == q[j])
  }

  lemma CutIsOneOut(q: Queue, i: nat)
    ensures if i < |q| then OneOut(q, Cut(q, i), i) else Cut(q, i) == q
  {
    forall j | i < j < |q|
      ensures Cut(q, i)[j - 1] == q[j]
    {
    }
  }

  lemma OneOutIsCut(q: Queue, q': Queue, i: nat)
    requires OneOut(q, q', i)
    ensures q' == Cut(q, i)
  {
    forall j | 0 <= j < |q'|
      ensures q'[j] == Cut(q, i)[j]
    {
      if j >= i { assert q'[j] == q[j + 1]; }
    }
  }

  /** In terms of what is in the queue: a sublist, of exactly the other rows. */
  lemma OneOutMeans(q: Queue, q': Queue, i: nat)
    requires OneOut(q, q', i)
    ensures Sub(q', q)
    ensures Keyed(q) ==> forall e :: e in q' <==> e in q && e != q[i]
  {
    assert q == q[..i] + [q[i]] + q[i + 1..] && q' == q[..i] + [] + q[i + 1..];
    SubMiddle(q[..i], [], [q[i]], q[i + 1..]);
    forall e | Keyed(q) && e in q && e != q[i]
      ensures e in q'
    {
      var j :| 0 <= j < |q| && q[j] == e;
      assert if j < i then q'[j] == e else q'[j - 1] == e;
    }
  }

  lemma CutOrderly(q: Queue, i: nat)
    requires Keyed(q) && OnlyHeadsMoved(q)
    ensures Keyed(Cut(q, i)) && OnlyHeadsMoved(Cut(q, i))
  {
  }

  /** Replacing the head of its branch by the same row in another stage. */
  lemma HeadMoves(q: Queue, i: nat, e: Entry)
    requires Keyed(q) && OnlyHeadsMoved(q) && i < |q| && First(q, i)
    requires e.id == q[i].id && e.pr == q[i].pr && e.branch == q[i].branch
    ensures Keyed(q[i := e]) && OnlyHeadsMoved(q[i := e])
  {
  }

  /** The failure of a PR removes exactly that PR's row if and only if the row
      is the head of its branch; otherwise it is the head that is lost, and the
      failed row stays. */
  lemma FailureRemovesIff(q: Queue, i: nat)
    requires Keyed(q) && i < |q|
    ensures AfterFailure(q, q[i].pr, q[i].branch) == Cut(q, i) <==> First(q, i)
    ensures OneOut(q, AfterFailure(q, q[i].pr, q[i].branch), i) <==> First(q, i)
  {
    hide OneOut, AfterFailure;
    FailureCuts(q, i);
    CutIsOneOut(q, i);
    var q' := AfterFailure(q, q[i].pr, q[i].branch);
    if OneOut(q, q', i) { OneOutIsCut(q, q', i); }
  }

  lemma FailureCuts(q: Queue, i: nat)
    requires Keyed(q) && i < |q|
    ensures AfterFailure(q, q[i].pr, q[i].branch) == Cut(q, i) <==> First(q, i)
  {
    FindIs(q, i);
    var m := Marked(q, q[i].pr, Dropped);
    assert m == q[i := q[i].(stage := Dropped)];
    HeadIs(m, i);
    var h := Head(m, q[i].branch);
    assert First(m, i) <==> First(q, i);
    if First(q, i) {
      assert Cut(m, i) == Cut(q, i);
    } else {
      assert h < i;
      assert m[h].id == q[h].id;
      assert Cut(m, h)[h].id == q[h + 1].id && Cut(q, i)[h].id == q[h].id;
    }
  }

  // ----- over whole runs ----------------------------------------------------

  /** What a row that is still there has not lost. */
  predicate SameRow(e: Entry, f: Entry) {
    && e.id == f.id && e.pr == f.pr && e.branch == f.branch
    && (e.sha.Some? ==> f.sha.Some?)
  }

  ghost predicate Known(s: State, e: Entry) {
    e.id < s.next && forall i :: 0 <= i < |s.queue| && s.queue[i].id == e.id ==> SameRow(e, s.queue[i])
  }

  /** A result's snapshot is of a row that once had the tested merge commit. */
  ghost predicate Genuine(s: State, e: Event) { e.Check? ==> e.snap.sha.Some? && Known(s, e.snap) }

  lemma CutKeeps(s: State, i: nat, e: Entry)
    requires Known(s, e)
    ensures Known(s.(queue := Cut(s.queue, i)), e)
  {
  }

  lemma MoveKeeps(s: State, i: nat, e: Entry, f: Entry)
    requires Known(s, e) && i < |s.queue| && SameRow(s.queue[i], f)
    ensures Known(s.(queue := s.queue[i := f]), e)
  {
  }

  /** A genuine result concerns the head of its branch, or nothing at all. */
  lemma GenuineIsHead(s: State, e: Event) returns (i: nat)
    requires Orderly(s) && Genuine(s, e) && e.Check? && HasId(s.queue, e.snap.id)
    ensures i == ById(s.queue, e.snap.id) < |s.queue| && s.queue[i].pr == e.snap.pr
    ensures First(s.queue, i) && s.queue[i].branch == e.snap.branch
  {
    i := ById(s.queue, e.snap.id);
    assert SameRow(e.snap, s.queue[i]);
    assert Moved(s.queue[i]);
  }

  lemma StepKeeps(s: State, e: Event, f: Entry)
    requires Orderly(s) && Genuine(s, e) && Known(s, f)
    ensures Orderly(Step(s, e)) && Known(Step(s, e), f)
  {
    match e
    case Enqueue(pr, branch) =>
      if Find(s.queue, pr) >= |s.queue| { EnqueueKeeps(s, pr, branch, f); }
    case Start(branch, upToDate, merged) => StartKeeps(s, branch, upToDate, merged, f);
    case Check(_, _, _, _, _) => CheckKeeps(s, e, f);
    case Remove(pr) =>
      CutOrderly(s.queue, Find(s.queue, pr));
      CutKeeps(s, Find(s.queue, pr), f);
  }

  lemma EnqueueKeeps(s: State, pr: nat, branch: string, f: Entry)
    requires Orderly(s) && Known(s, f) && Find(s.queue, pr) >= |s.queue|
    ensures var s' := State(s.queue + [Entry(s.next, pr, branch, Queued, None, map[])], s.next + 1);
            Orderly(s') && Known(s', f)
  {
    var r := s.queue + [Entry(s.next, pr, branch, Queued, None, map[])];
    forall i | 0 <= i < |r| && Moved(r[i])
      ensures First(r, i)
    {
      assert First(s.queue, i);
    }
  }

  lemma StartKeeps(s: State, branch: string, upToDate: bool, merged: Option<Commit>, f: Entry)
    requires Orderly(s) && Known(s, f)
    ensures var s' := s.(queue := Started(s.queue, branch, upToDate, merged));
            Orderly(s') && Known(s', f)
  {
    var i := Head(s.queue, branch);
    if i < |s.queue| {
      HeadIs(s.queue, i);
      CutOrderly(s.queue, i);
      CutKeeps(s, i, f);
      HeadMoves(s.queue, i, s.queue[i].(stage := Succeeded));
      MoveKeeps(s, i, f, s.queue[i].(stage := Succeeded));
      if merged.Some? {
        HeadMoves(s.queue, i, s.queue[i].(stage := Testing, sha := merged));
        MoveKeeps(s, i, f, s.queue[i].(stage := Testing, sha := merged));
      }
    }
  }

  lemma CheckKeeps(s: State, e: Event, f: Entry)
    requires Orderly(s) && Genuine(s, e) && Known(s, f) && e.Check?
    ensures Orderly(Step(s, e)) && Known(Step(s, e), f)
  {
    if HasId(s.queue, e.snap.id) {
      var i := GenuineIsHead(s, e);
      NotedKeeps(s, e, i, f);
      RuledKeeps(s.(queue := Noted(s.queue, e.snap.id, e.context, e.state)), e.snap, i, f);
    }
  }

  lemma NotedKeeps(s: State, e: Event, i: nat, f: Entry)
    requires Orderly(s) && Known(s, f) && e.Check? && i == ById(s.queue, e.snap.id) < |s.queue| && First(s.queue, i)
    ensures var s1 := s.(queue := Noted(s.queue, e.snap.id, e.context, e.state));
            && Orderly(s1) && Known(s1, f)
            && First(s1.queue, i) && s1.queue[i].pr == s.queue[i].pr && s1.queue[i].branch == s.queue[i].branch
  {
    var q := Noted(s.queue, e.snap.id, e.context, e.state);
    HeadMoves(s.queue, i, q[i]);
    MoveKeeps(s, i, f, q[i]);
  }

  lemma RuledKeeps(s: State, snap: Entry, i: nat, f: Entry)
    requires Orderly(s) && Known(s, f) && i < |s.queue| && First(s.queue, i)
    requires s.queue[i].pr == snap.pr && s.queue[i].branch == snap.branch
    ensures var passed := s.(queue := Marked(s.queue, snap.pr, Succeeded)); Orderly(passed) && Known(passed, f)
    ensures var failed := s.(queue := AfterFailure(s.queue, snap.pr, snap.branch)); Orderly(failed) && Known(failed, f)
  {
    FindIs(s.queue, i);
    FailureRemovesIff(s.queue, i);
    CutOrderly(s.queue, i);
    CutKeeps(s, i, f);
    HeadMoves(s.queue, i, s.queue[i].(stage := Succeeded));
    MoveKeeps(s, i, f, s.queue[i].(stage := Succeeded));
  }

  /** The row was read in some state of the run, with its merge commit. */
  ghost predicate Read(events: seq<Event>, t: nat, e: Entry)
    requires t <= |events|
  {
    e.sha.Some? && exists u :: 0 <= u <= t && e in Run(events[..u]).queue
  }

  ghost predicate AllRead(events: seq<Event>, t: nat)
    requires t <= |events|
  {
    forall u :: 0 <= u < t && events[u].Check? ==> Read(events, u, events[u].snap)
  }

  /** Whatever was read once is known from then on. */
  lemma {:induction false} RunKeeps(events: seq<Event>, t: nat, e: Entry)
    requires t <= |events| && AllRead(events, t)
    ensures Orderly(Run(events[..t]))
    ensures (exists u :: 0 <= u <= t && e in Run(events[..u]).queue) ==> Known(Run(events[..t]), e)
    decreases t
  {
    if t > 0 {
      assert events[..t][..t - 1] == events[..t - 1];
      var s, event := Run(events[..t - 1]), events[t - 1];
      RunKeeps(events, t - 1, e);
      if event.Check? { RunKeeps(events, t - 1, event.snap); }
      OrderlyStep(s, event);
      if exists u :: 0 <= u <= t - 1 && e in Run(events[..u]).queue {
        StepKeeps(s, event, e);
      } else if e in Run(events[..t]).queue {
        Fresh(Run(events[..t]), e);
      }
    }
  }

  lemma OrderlyStep(s: State, e: Event)
    requires Orderly(s) && Genuine(s, e)
    ensures Orderly(Step(s, e))
  {
    if s.queue == [] { EmptyKeeps(s, e); } else { StepKeeps(s, e, s.queue[0]); }
  }

  lemma Fresh(s: State, e: Entry)
    requires Orderly(s) && e in s.queue
    ensures Known(s, e)
  {
  }

  lemma EmptyKeeps(s: State, e: Event)
    requires Orderly(s) && s.queue == []
    ensures Orderly(Step(s, e))
  {
  }

  /** In every reachable state only the head of a branch's queue is past waiting
      or carries a merge commit. */
  lemma OnlyHeadsEverMove(events: seq<Event>, i: nat)
    requires AllRead(events, |events|)
    requires i < |Run(events).queue| && Moved(Run(events).queue[i])
    ensures First(Run(events).queue, i)
  {
    assert events[..|events|] == events;
    RunKeeps(events, |events|, Run(events).queue[i]);
  }

  /** However old the snapshot of a failing PR is, what its failure removes is
      that PR's row and no other; if the row is gone already, nothing. */
  lemma FailureRemovesItsPr(events: seq<Event>, t: nat)
    requires t < |events| && AllRead(events, t + 1)
    requires events[t].Check? && events[t].required.Some?
    requires HasId(Run(events[..t]).queue, events[t].snap.id) ==>
               var ruling := Decision(Run(events[..t]).queue, events[t]);
               ruling.Fails? || (ruling.Waits? && events[t].timedOut)
    ensures var q, snap := Run(events[..t]).queue, events[t].snap;
            var q' := Run(events[..t + 1]).queue;
            if HasId(q, snap.id)
            then var i := Find(q, snap.pr);
                 && i < |q| && q[i].id == snap.id
                 && OneOut(q, q', i) && Sub(q', q) && forall e :: e in q' <==> e in q && e != q[i]
            else q' == q
  {
    hide OneOut, Sub, AllRead, Decision, Orderly, Genuine, Judged;
    var s, e := Run(events[..t]), events[t];
    assert events[..t + 1][..t] == events[..t];
    GenuineRun(events, t);
    if HasId(s.queue, e.snap.id) { FailedOut(s, e); } else { UnknownIsInert(s, e); }
  }

  lemma UnknownIsInert(s: State, e: Event)
    requires e.Check? && !HasId(s.queue, e.snap.id)
    ensures Step(s, e) == s
  {
  }

  lemma FailedOut(s: State, e: Event)
    requires Orderly(s) && Genuine(s, e) && e.Check? && e.required.Some? && HasId(s.queue, e.snap.id)
    requires var ruling := Decision(s.queue, e); ruling.Fails? || (ruling.Waits? && e.timedOut)
    ensures var q, q', i := s.queue, Step(s, e).queue, Find(s.queue, e.snap.pr);
            && i < |q| && q[i].id == e.snap.id
            && OneOut(q, q', i) && Sub(q', q) && forall f :: f in q' <==> f in q && f != q[i]
  {
    var i := GenuineIsHead(s, e);
    FindIs(s.queue, i);
    CheckIs(s, e);
    OneOutMeans(s.queue, Step(s, e).queue, i);
  }

  // ----- what every event does ----------------------------------------------

  /** What a result does to the queue: its own row keeps it, and passes, leaves or
      stays according to its own ledger; every other row is untouched. */
  ghost predicate CheckEffect(q: Queue, e: Event, q': Queue)
    requires e.Check?
  {
    if !HasId(q, e.snap.id) then q' == q
    else
      var i := ById(q, e.snap.id);
      var r := q[i].(checks := q[i].checks[e.context := e.state]);
      var ruling := if e.required.None? then Waits else Judge(r.checks, e.required.value);
      if ruling.Passes? then OneChanged(q, q', i, r.(stage := Succeeded))
      else if ruling.Fails? || (e.required.Some? && e.timedOut) then OneOut(q, q', i)
      else OneChanged(q, q', i, r)
  }

  ghost predicate StartEffect(q: Queue, branch: string, upToDate: bool, merged: Option<Commit>, q': Queue) {
    var i := Head(q, branch);
    if i == |q| || !q[i].stage.Queued? then q' == q
    else if upToDate then OneChanged(q, q', i, q[i].(stage := Succeeded))
    else if merged.None? then OneOut(q, q', i)
    else OneChanged(q, q', i, q[i].(stage := Testing, sha := merged))
  }

  ghost predicate Effect(s: State, e: Event, s': State) {
    match e
    case Enqueue(pr, branch) =>
      if exists i :: 0 <= i < |s.queue| && s.queue[i].pr == pr then s' == s
      else s'.next == s.next + 1 && s'.queue == s.queue + [Entry(s.next, pr, branch, Queued, None, map[])]
    case Start(branch, upToDate, merged) => s'.next == s.next && StartEffect(s.queue, branch, upToDate, merged, s'.queue)
    case Check(_, _, _, _, _) => s'.next == s.next && CheckEffect(s.queue, e, s'.queue)
    case Remove(pr) =>
      s'.next == s.next &&
      var i := Find(s.queue, pr); if i < |s.queue| then OneOut(s.queue, s'.queue, i) else s'.queue == s.queue
  }

  lemma CheckIs(s: State, e: Event)
    requires Orderly(s) && Genuine(s, e) && e.Check?
    ensures Step(s, e).next == s.next && CheckEffect(s.queue, e, Step(s, e).queue)
  {
    if HasId(s.queue, e.snap.id) {
      var i := GenuineIsHead(s, e);
      var q := Noted(s.queue, e.snap.id, e.context, e.state);
      HeadMoves(s.queue, i, q[i]);
      FindIs(q, i);
      FailureRemovesIff(q, i);
      NotedOut(s.queue, q, i);
    }
  }

  /** Changing the row that goes does not change what is left. */
  lemma NotedOut(q: Queue, m: Queue, i: nat)
    requires i < |q| && i < |m| && OneChanged(q, m, i, m[i])
    ensures forall q' :: OneOut(m, q', i) ==> OneOut(q, q', i)
  {
  }

  lemma StartIs(s: State, branch: string, upToDate: bool, merged: Option<Commit>)
    ensures StartEffect(s.queue, branch, upToDate, merged, Started(s.queue, branch, upToDate, merged))
  {
    CutIsOneOut(s.queue, Head(s.queue, branch));
  }

  /** Every event, with a result's snapshot of any age, has this effect and no
      other. */
  lemma StepEffect(s: State, e: Event)
    requires Orderly(s) && Genuine(s, e)
    ensures Effect(s, e, Step(s, e))
  {
    match e
    case Enqueue(pr, _) => assert Find(s.queue, pr) < |s.queue| ==> s.queue[Find(s.queue, pr)].pr == pr;
    case Start(branch, upToDate, merged) => StartIs(s, branch, upToDate, merged);
    case Check(_, _, _, _, _) => CheckIs(s, e);
    case Remove(pr) => CutIsOneOut(s.queue, Find(s.queue, pr));
  }

  /** The same over whole runs. */
  lemma RunEffect(events: seq<Event>, t: nat)
    requires t < |events| && AllRead(events, t + 1)
    ensures Effect(Run(events[..t]), events[t], Run(events[..t + 1]))
  {
    assert events[..t + 1][..t] == events[..t];
    GenuineRun(events, t);
    StepEffect(Run(events[..t]), events[t]);
  }

  lemma GenuineRun(events: seq<Event>, t: nat)
    requires t < |events| && AllRead(events, t + 1)
    ensures Orderly(Run(events[..t])) && Genuine(Run(events[..t]), events[t])
  {
    var e := Entry(0, 0, "", Queued, None, map[]);
    RunKeeps(events, t, if events[t].Check? then events[t].snap else e);
  }

  /** A PR whose checks have all passed stays in the queue: its own row becomes
      Succeeded, with the result on record, and no other row changes. */
  lemma PassKeepsPr(events: seq<Event>, t: nat)
    requires t < |events| && AllRead(events, t + 1) && events[t].Check? && events[t].required.Some?
    requires var q := Run(events[..t]).queue; HasId(q, events[t].snap.id) && Decision(q, events[t]).Passes?
    ensures var q, q', e := Run(events[..t]).queue, Run(events[..t + 1]).queue, events[t];
            var i := ById(q, e.snap.id);
            && q[i].pr == e.snap.pr
            && OneChanged(q, q', i, q[i].(stage := Succeeded, checks := q[i].checks[e.context := e.state]))
  {
    RunEffect(events, t);
    GenuineRun(events, t);
    var i := GenuineIsHead(Run(events[..t]), events[t]);
  }

  /** The event marks the row as successful: its head was up to date when its turn
      came, or its own ledger passed. */
  predicate Passing(q: Queue, e: Event, id: nat) {
    match e
    case Start(branch, upToDate, _) =>
      upToDate && Head(q, branch) < |q| && q[Head(q, branch)].id == id && q[Head(q, branch)].stage.Queued?
    case Check(snap, _, _, required, _) =>
      snap.id == id && HasId(q, id) && required.Some? && Decision(q, e).Passes?
    case _ => false
  }

  lemma SucceededStep(s: State, e: Event, i: nat)
    requires Orderly(s) && Genuine(s, e) && i < |Step(s, e).queue| && Step(s, e).queue[i].stage.Succeeded?
    ensures var r := Step(s, e).queue[i];
            || Passing(s.queue, e, r.id)
            || exists j :: 0 <= j < |s.queue| && s.queue[j].id == r.id && s.queue[j].stage.Succeeded?
  {
    var q, q' := s.queue, Step(s, e).queue;
    StepEffect(s, e);
    match e
    case Enqueue(pr, branch) => assert i < |q| ==> q'[i] == q[i];
    case Start(branch, upToDate, merged) =>
      if OneOut(q, q', Head(q, branch)) { OutFollows(q, q', Head(q, branch), i); }
    case Check(_, _, _, _, _) =>
      if OneOut(q, q', ById(q, e.snap.id)) { OutFollows(q, q', ById(q, e.snap.id), i); }
    case Remove(pr) =>
      if OneOut(q, q', Find(q, pr)) { OutFollows(q, q', Find(q, pr), i); }
  }

  lemma OutFollows(q: Queue, q': Queue, h: nat, i: nat)
    requires OneOut(q, q', h) && i < |q'|
    ensures exists j :: 0 <= j < |q| && q[j] == q'[i]
  {
    if i < h { assert q[i] == q'[i]; } else { assert q[i + 1] == q'[i]; }
  }

  /** In every reachable state, a row is Succeeded only after its own ledger passed
      or its head was up to date. */
  lemma {:induction false} SucceededWhy(events: seq<Event>, t: nat, i: nat)
    requires t <= |events| && AllRead(events, t)
    requires i < |Run(events[..t]).queue| && Run(events[..t]).queue[i].stage.Succeeded?
    ensures exists u :: 0 <= u < t && Passing(Run(events[..u]).queue, events[u], Run(events[..t]).queue[i].id)
    decreases t
  {
    if t > 0 {
      var s := Run(events[..t - 1]);
      assert events[..t][..t - 1] == events[..t - 1];
      GenuineRun(events, t - 1);
      SucceededStep(s, events[t - 1], i);
      var id := Run(events[..t]).queue[i].id;
      if !Passing(s.queue, events[t - 1], id) {
        var j :| 0 <= j < |s.queue| && s.queue[j].id == id && s.queue[j].stage.Succeeded?;
        SucceededWhy(events, t - 1, j);
      }
    }
  }

  // ----- the queue service and the handlers, as they run --------------------

  /** Rows of a branch that are still in the running, up to position i. */
  function Ahead(q: Queue, branch: string, i: nat): nat
    requires i <= |q|
  {
    if i == 0 then 0
    else Ahead(q, branch, i - 1) + if q[i - 1].branch == branch && !q[i - 1].stage.Dropped? then 1 else 0
  }

  /** A PR's 1-based position among them, or 0 for a row that failed. */
  function Position(q: Queue, i: nat): nat
    requires i < |q|
  {
    if q[i].stage.Dropped? then 0 else Ahead(q, q[i].branch, i + 1)
  }

  /** The head of a branch is at position 1, and positions grow with age. */
  lemma {:induction false} PositionMeaning(q: Queue, i: nat, j: nat)
    requires i < j < |q| && q[i].branch == q[j].branch
    requires !q[i].stage.Dropped? && !q[j].stage.Dropped?
    ensures 1 <= Position(q, i) < Position(q, j)
    ensures First(q, i) ==> Position(q, i) == 1
    decreases j
  {
    AheadGrows(q, q[i].branch, i + 1, j);
    if First(q, i) { NobodyAhead(q, q[i].branch, i); }
  }

  /** The branch's rows before position i that have not failed. */
  ghost function Running(q: Queue, branch: string, i: nat): set<nat>
    requires i <= |q|
  {
    set j: nat | j < i && q[j].branch == branch && !q[j].stage.Dropped?
  }

  lemma RunningMore(q: Queue, branch: string, i: nat)
    requires 0 < i <= |q|
    ensures Running(q, branch, i) == Running(q, branch, i - 1) +
            if q[i - 1].branch == branch && !q[i - 1].stage.Dropped? then {i - 1} else {}
    ensures i - 1 !in Running(q, branch, i - 1)
  {
  }

  /** The position counts them. */
  lemma {:induction false} AheadCounts(q: Queue, branch: string, i: nat)
    requires i <= |q|
    ensures Ahead(q, branch, i) == |Running(q, branch, i)|
  {
    if i == 0 {
      assert Running(q, branch, 0) == {};
    } else {
      RunningMore(q, branch, i);
      AheadCounts(q, branch, i - 1);
      hide Running;
    }
  }

  lemma {:induction false} AheadGrows(q: Queue, branch: string, i: nat, j: nat)
    requires i <= j <= |q|
    ensures Ahead(q, branch, i) <= Ahead(q, branch, j)
    decreases j
  {
    if i < j { AheadGrows(q, branch, i, j - 1); }
  }

  lemma {:induction false} NobodyAhead(q: Queue, branch: string, i: nat)
    requires i <= |q| && forall j :: 0 <= j < i ==> q[j].branch != branch
    ensures Ahead(q, branch, i) == 0
  {
    if i > 0 { NobodyAhead(q, branch, i - 1); }
  }

  class Service {
    var queue: Queue
    var next: nat

    constructor ()
      ensures queue == [] && next == 0
    {
      queue, next := [], 0;
    }

    function View(): State
      reads this
    {
      State(queue, next)
    }

    method GetEntry(pr: nat) returns (i: nat)
      ensures i == Find(queue, pr)
    {
      i := 0;
      while i < |queue|
        invariant i <= |queue|
        invariant forall j :: 0 <= j < i ==> queue[j].pr != pr
      {
        if queue[i].pr == pr {
          return;
        }
        i := i + 1;
      }
    }

    method GetHead(branch: string) returns (i: nat)
      ensures i == Head(queue, branch)
    {
      i := 0;
      while i < |queue|
        invariant i <= |queue|
        invariant forall j :: 0 <= j < i ==> queue[j].branch != branch
      {
        if queue[i].branch == branch {
          return;
        }
        i := i + 1;
      }
    }

    method CountPosition(i: nat) returns (position: nat)
      requires i < |queue|
      ensures position == Position(queue, i)
    {
      position := 0;
      if queue[i].stage.Dropped? {
        return;
      }
      for j := 0 to i + 1
        invariant position == Ahead(queue, queue[i].branch, j)
      {
        if queue[j].branch == queue[i].branch && !queue[j].stage.Dropped? {
          position := position + 1;
        }
      }
    }

    /** A PR that is queued already keeps its row and its place. */
    method Enqueue(pr: nat, branch: string) returns (position: nat, isNew: bool)
      modifies this
      ensures View() == Step(old(View()), Event.Enqueue(pr, branch))
      ensures isNew <==> Find(old(queue), pr) == |old(queue)|
      ensures position == Position(queue, Find(old(queue), pr))
    {
      var i := GetEntry(pr);
      isNew := i == |queue|;
      if isNew {
        queue, next := queue + [Entry(next, pr, branch, Queued, None, map[])], next + 1;
      }
      position := CountPosition(i);
    }

    method Dequeue(pr: nat) returns (found: bool, wasHead: bool)
      modifies this`queue
      ensures queue == Cut(old(queue), Find(old(queue), pr))
      ensures if found then OneOut(old(queue), queue, Find(old(queue), pr)) else queue == old(queue)
      ensures found <==> Find(old(queue), pr) < |old(queue)|
      ensures wasHead <==> found && First(old(queue), Find(old(queue), pr))
    {
      var i := GetEntry(pr);
      if i == |queue| {
        return false, false;
      }
      var h := GetHead(queue[i].branch);
      HeadIs(queue, i);
      found, wasHead := true, h == i;
      queue := queue[..i] + queue[i + 1..];
    }

    /** Drop the branch's head; the result is the next one, if any. */
    method Advance(branch: string) returns (head: Option<Entry>)
      modifies this`queue
      ensures queue == Advanced(old(queue), branch)
      ensures var i := Head(old(queue), branch);
              if i < |old(queue)| then OneOut(old(queue), queue, i) else queue == old(queue)
      ensures head == if Head(queue, branch) < |queue| && Head(old(queue), branch) < |old(queue)|
                      then Some(queue[Head(queue, branch)]) else None
    {
      var i := GetHead(branch);
      if i == |queue| {
        return None;
      }
      queue := queue[..i] + queue[i + 1..];
      var j := GetHead(branch);
      head := if j < |queue| then Some(queue[j]) else None;
    }

    method UpdateState(pr: nat, stage: Stage)
      modifies this`queue
      ensures queue == Marked(old(queue), pr, stage)
    {
      var i := GetEntry(pr);
      if i < |queue| {
        queue := queue[i := queue[i].(stage := stage)];
      }
    }

    method SetMergeBranch(pr: nat, sha: Commit)
      modifies this`queue
      ensures var i := Find(old(queue), pr);
              queue == if i < |old(queue)| then old(queue)[i := old(queue)[i].(sha := Some(sha))] else old(queue)
    {
      var i := GetEntry(pr);
      if i < |queue| {
        queue := queue[i := queue[i].(sha := Some(sha))];
      }
    }

    method RemoveFromQueue(snap: Entry)
      modifies this`queue
      ensures queue == AfterFailure(old(queue), snap.pr, snap.branch)
    {
      UpdateState(snap.pr, Dropped);
      var _ := Advance(snap.branch);
    }

    /** Whether the result could be stored: its row must still exist. */
    method SaveCheckStatus(id: nat, context: string, state: CheckState) returns (ok: bool)
      modifies this`queue
      ensures ok <==> HasId(old(queue), id)
      ensures queue == Noted(old(queue), id, context, state)
    {
      for i := 0 to |queue|
        invariant queue == old(queue)
        invariant forall j :: 0 <= j < i ==> queue[j].id != id
      {
        if queue[i].id == id {
          queue := queue[i := queue[i].(checks := queue[i].checks[context := state])];
          return true;
        }
      }
      return false;
    }

    method GetCheckStatuses(id: nat) returns (checks: Standing)
      ensures checks == if HasId(queue, id) then queue[ById(queue, id)].checks else map[]
    {
      for i := 0 to |queue|
        invariant forall j :: 0 <= j < i ==> queue[j].id != id
      {
        if queue[i].id == id {
          return queue[i].checks;
        }
      }
      return map[];
    }

    /** `required` is what resolving the required checks gives, if it succeeds. */
    method ProcessCheckStatus(snap: Entry, context: string, state: CheckState,
                              required: Option<seq<string>>, timedOut: bool)
      modifies this`queue
      ensures View() == Step(old(View()), Check(snap, context, state, required, timedOut))
    {
      NotedStays(queue, snap.id, context, state);
      var ok := SaveCheckStatus(snap.id, context, state);
      if !ok || required.None? {
        return;
      }
      var checks := GetCheckStatuses(snap.id);
      match Judge(checks, required.value)
      case Passes => UpdateState(snap.pr, Succeeded);
      case Fails => RemoveFromQueue(snap);
      case Waits => if timedOut { RemoveFromQueue(snap); }
    }

    /** startQueuedHeads for one branch: only its head, and only if it waits. */
    method StartQueuedHead(branch: string, upToDate: bool, merged: Option<Commit>)
      requires Keyed(queue)
      modifies this`queue
      ensures View() == Step(old(View()), Start(branch, upToDate, merged))
    {
      var i := GetHead(branch);
      if i == |queue| || !queue[i].stage.Queued? {
        return;
      }
      FindIs(queue, i);
      var pr := queue[i].pr;
      if upToDate {
        UpdateState(pr, Succeeded);
      } else if merged.None? {
        var _, _ := Dequeue(pr);
      } else {
        SetMergeBranch(pr, merged.value);
        FindIs(queue, i);
        UpdateState(pr, Testing);
      }
    }
  }
}
