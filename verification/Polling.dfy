/** One poll of the batch under test. The poller reads the oldest current row,
    pins the batch's commit on it, and feeds the commit's results to the engine
    one after the other, in whatever order the snapshot map yields them. */
module Polling {
  import opened Lists
  import opened Commits
  import opened Checks
  import opened Model
  import opened Invariants
  import opened Guarantees
  import opened Landing

  /** The event for one result, within the timeout. What the forge answers to
      it is left open. */
  predicate Feeding(e: Event, snap: Snapshot, check: CheckStatus, required: seq<string>) {
    && e.Check? && e.snap == snap && e.context == check.context && e.state == check.state
    && e.required == Some(required) && !e.timedOut
  }

  ghost predicate Feeds(poll: seq<Event>, snap: Snapshot, checks: seq<CheckStatus>, required: seq<string>) {
    && |poll| == |checks|
    && forall i :: 0 <= i < |poll| ==> Feeding(poll[i], snap, checks[i], required)
  }

  /** How many results are fed before the one that decides. */
  function Undecided(m: Standing, checks: seq<CheckStatus>, required: seq<string>): (d: nat)
    ensures d <= |checks|
    ensures d == |checks| <==> Feed(m, checks, required).Waits?
    decreases |checks|
  {
    if checks == [] then 0
    else
      var m' := m[checks[0].context := checks[0].state];
      if Judge(m', required).Waits? then 1 + Undecided(m', checks[1..], required) else 0
  }

  lemma {:induction false} RecordNext(m: Standing, checks: seq<CheckStatus>, i: nat)
    requires i < |checks|
    ensures Record(m, checks[..i + 1]) == Record(m, checks[..i])[checks[i].context := checks[i].state]
    decreases i
  {
    if i > 0 {
      assert checks[..i + 1][1..] == checks[1..][..i] && checks[..i][1..] == checks[1..][..i - 1];
      RecordNext(m[checks[0].context := checks[0].state], checks[1..], i - 1);
    }
  }

  /** Up to the deciding result the ledger says to wait, and with it the ledger
      says what `Feed` rules. */
  lemma {:induction false} UndecidedWaits(m: Standing, checks: seq<CheckStatus>, required: seq<string>, i: nat)
    requires i < |checks| && i <= Undecided(m, checks, required)
    ensures var ruling := Judge(Record(m, checks[..i + 1]), required);
            if i < Undecided(m, checks, required) then ruling.Waits? else ruling == Feed(m, checks, required)
    decreases i
  {
    assert checks[..i + 1][1..] == checks[1..][..i];
    if i > 0 {
      UndecidedWaits(m[checks[0].context := checks[0].state], checks[1..], required, i - 1);
    }
  }

  // ----- the events of a poll -----------------------------------------------

  function Ledger(m: Standing, on: Commit, build: nat): map<string, Result> {
    map x | x in m :: Result(m[x], on, build)
  }

  /** The state with exactly these results on record for the snapshot's row. */
  function Holding(s: State, snap: Snapshot, m: Standing): State
    requires Fresh(s, snap)
  {
    var ledger := Ledger(m, snap.sha.value, s.batches[snap.batch].builds);
    s.(rows := s.rows[snap.id := s.rows[snap.id].(checks := ledger)])
  }

  lemma EmptyHeld(s: State, snap: Snapshot)
    requires Fresh(s, snap) && s.rows[snap.id].checks == map[]
    ensures s == Holding(s, snap, map[])
  {
    assert s.rows[snap.id := s.rows[snap.id].(checks := map[])] == s.rows;
  }

  /** The snapshot the poller pins in a reachable state passes the guard, and the
      row's ledger is what its results say about the present build. */
  lemma PinnedIsFresh(c: Config, s: State)
    requires Inv(c, s) && UnderTest(s)
    ensures Tester(s).current != []
    ensures var id := Tester(s).current[0];
            var snap := Snapshot(id, |s.batches| - 1, TestedSha(s));
            Fresh(s, snap) && s == Holding(s, snap, Standings(s.rows[id].checks))
  {
    var b := Tester(s);
    var id := b.current[0];
    assert b.InPlay(id);
    var row := s.rows[id];
    assert forall x :: x in row.checks ==> Of(row.checks[x], b);
    assert Ledger(Standings(row.checks), b.sha.value, b.builds) == row.checks;
    assert s.rows[id := row] == s.rows;
  }

  /** What acting on a ruling amounts to. */
  function Obeyed(c: Config, s: State, e: Event, ruling: Ruling): State
    requires e.Check? && Fresh(s, e.snap)
  {
    match ruling
    case Waits => s
    case Passes => HandlePass(c, e.w, e.push, s, e.snap.batch)
    case Fails => HandleFail(c, e.w, s, e.snap.batch)
  }

  lemma FedOnce(c: Config, s: State, snap: Snapshot, m: Standing, check: CheckStatus, e: Event, required: seq<string>)
    requires Fresh(s, snap) && Feeding(e, snap, check, required)
    ensures var m', t := m[check.context := check.state], Holding(s, snap, m);
            && Fresh(t, snap)
            && Recorded(t, e) == Holding(s, snap, m')
            && Decision(t, e) == Judge(m', required)
  {
    var m', t := m[check.context := check.state], Holding(s, snap, m);
    assert Recorded(t, e).rows[snap.id].checks == Holding(s, snap, m').rows[snap.id].checks;
    assert Recorded(t, e).rows == Holding(s, snap, m').rows;
    assert Standings(Recorded(t, e).rows[snap.id].checks) == m';
  }

  lemma StepFollowsDecision(c: Config, s: State, e: Event)
    requires e.Check? && Fresh(s, e.snap) && !e.timedOut
    ensures Step(c, s, e) == Obeyed(c, Recorded(s, e), e, Decision(s, e))
  {
  }

  /** Before the deciding result a poll only fills the ledger. */
  lemma {:induction false} FillsLedger(c: Config, s: State, snap: Snapshot, m: Standing, poll: seq<Event>,
                                       checks: seq<CheckStatus>, required: seq<string>, i: nat)
    requires Fresh(s, snap) && s == Holding(s, snap, m) && Feeds(poll, snap, checks, required)
    requires i <= Undecided(m, checks, required)
    ensures Run(c, s, poll[..i]) == Holding(s, snap, Record(m, checks[..i]))
    decreases i
  {
    if i > 0 {
      assert poll[..i][..i - 1] == poll[..i - 1];
      var before := Record(m, checks[..i - 1]);
      FillsLedger(c, s, snap, m, poll, checks, required, i - 1);
      RecordNext(m, checks, i - 1);
      UndecidedWaits(m, checks, required, i - 1);
      FedOnce(c, s, snap, before, checks[i - 1], poll[i - 1], required);
      StepFollowsDecision(c, Holding(s, snap, before), poll[i - 1]);
    }
  }

  /** Results for a commit that is not under test do nothing, however many. */
  lemma {:induction false} RestIsInert(c: Config, s: State, events: seq<Event>, t: nat, u: nat, snap: Snapshot)
    requires t <= u <= |events|
    requires forall i :: t <= i < u ==> events[i].Check? && events[i].snap == snap
    requires !Fresh(Run(c, s, events[..t]), snap)
    ensures Run(c, s, events[..u]) == Run(c, s, events[..t])
    decreases u
  {
    if t < u {
      RestIsInert(c, s, events, t, u - 1, snap);
      assert events[..u][..u - 1] == events[..u - 1];
    }
  }

  /** One poll does what feeding the snapshot to the row's ledger rules: the
      results before the deciding one are only recorded, the deciding one makes
      the engine carry out the ruling, and the rest do nothing once another
      commit is under test. */
  lemma PollActsAsFed(c: Config, s: State, snap: Snapshot, m: Standing, poll: seq<Event>,
                      checks: seq<CheckStatus>, required: seq<string>)
    requires Fresh(s, snap) && s == Holding(s, snap, m) && Feeds(poll, snap, checks, required)
    ensures var ruling, d := Feed(m, checks, required), Undecided(m, checks, required);
            && (forall i :: 0 <= i <= d ==> Run(c, s, poll[..i]) == Holding(s, snap, Record(m, checks[..i])))
            && (d == |poll| <==> ruling.Waits?)
            && (d < |poll| ==>
                  && Run(c, s, poll[..d + 1])
                     == Obeyed(c, Holding(s, snap, Record(m, checks[..d + 1])), poll[d], ruling)
                  && (!Fresh(Run(c, s, poll[..d + 1]), snap) ==> Run(c, s, poll) == Run(c, s, poll[..d + 1])))
  {
    hide Obeyed, Record, Fresh, Run, Judge;
    var d := Undecided(m, checks, required);
    forall i | 0 <= i <= d
      ensures Run(c, s, poll[..i]) == Holding(s, snap, Record(m, checks[..i]))
    {
      FillsLedger(c, s, snap, m, poll, checks, required, i);
    }
    if d < |poll| {
      DeciderActs(c, s, snap, m, poll, checks, required);
      if !Fresh(Run(c, s, poll[..d + 1]), snap) {
        assert poll[..|poll|] == poll;
        RestIsInert(c, s, poll, d + 1, |poll|, snap);
      }
    }
  }

  lemma DeciderActs(c: Config, s: State, snap: Snapshot, m: Standing, poll: seq<Event>,
                    checks: seq<CheckStatus>, required: seq<string>)
    requires Fresh(s, snap) && s == Holding(s, snap, m) && Feeds(poll, snap, checks, required)
    requires Undecided(m, checks, required) < |poll|
    ensures var d := Undecided(m, checks, required);
            Run(c, s, poll[..d + 1])
            == Obeyed(c, Holding(s, snap, Record(m, checks[..d + 1])), poll[d], Feed(m, checks, required))
  {
    hide Obeyed, Judge, Feed, Fresh;
    var d := Undecided(m, checks, required);
    var before := Record(m, checks[..d]);
    assert poll[..d + 1][..d] == poll[..d];
    FillsLedger(c, s, snap, m, poll, checks, required, d);
    RecordNext(m, checks, d);
    UndecidedWaits(m, checks, required, d);
    FedOnce(c, s, snap, before, checks[d], poll[d], required);
    StepFollowsDecision(c, Holding(s, snap, before), poll[d]);
  }

  // ----- the ledger decides, and nothing else reads it ----------------------

  /** The two states differ in recorded results only. */
  ghost predicate Alike(s: State, t: State) {
    && s.target == t.target && s.next == t.next && s.batches == t.batches
    && s.rows.Keys == t.rows.Keys
    && forall i :: i in s.rows ==> SameButResults(s.rows[i], t.rows[i])
  }

  predicate SameButResults(a: Row, b: Row) { a.state == b.state && a.sha == b.sha && a.batch == b.batch }

  lemma {:induction false} ExistingAlike(a: Rows, b: Rows, ids: seq<Id>)
    requires a.Keys == b.Keys
    ensures Existing(a, ids) == Existing(b, ids)
  {
    if ids != [] { ExistingAlike(a, b, ids[..|ids| - 1]); }
  }

  lemma WeededAlike(c: Config, w: World, s: State, t: State, k: nat)
    requires Alike(s, t) && k < |s.batches|
    ensures Merges(c, w, s, k) == Merges(c, w, t, k) && Alike(Weeded(c, w, s, k), Weeded(c, w, t, k))
  {
    ExistingAlike(s.rows, t.rows, s.batches[k].current);
  }

  lemma InstallAlike(s: State, t: State, k: nat, tip: Commit)
    requires Alike(s, t) && k < |s.batches|
    ensures Alike(Install(s, k, tip), Install(t, k, tip))
  {
  }

  lemma PutAlike(s: State, t: State, k: nat, b: Batch)
    requires Alike(s, t) && k < |s.batches|
    ensures Alike(Put(s, k, b), Put(t, k, b))
  {
  }

  lemma {:induction false} BuildAlike(c: Config, w: World, s: State, t: State, k: nat)
    requires Alike(s, t) && k < |s.batches|
    ensures Alike(Build(c, w, s, k), Build(c, w, t, k))
    decreases |s.batches[k].pending|, 1
  {
    if !w.broken(|s.batches[k].pending|) {
      var s1, t1 := Weeded(c, w, s, k), Weeded(c, w, t, k);
      WeededAlike(c, w, s, t, k);
      if s1.batches[k].current == [] {
        NextAlike(c, w, s1, t1, k);
      } else {
        InstallAlike(s1, t1, k, Merges(c, w, s, k).tip);
      }
    }
  }

  lemma {:induction false} NextAlike(c: Config, w: World, s: State, t: State, k: nat)
    requires Alike(s, t) && k < |s.batches|
    ensures Alike(Next(c, w, s, k), Next(c, w, t, k))
    decreases |s.batches[k].pending|, 0
  {
    var b := s.batches[k];
    if b.pending != [] {
      PutAlike(s, t, k, b.Pop());
      BuildAlike(c, w, Put(s, k, b.Pop()), Put(t, k, b.Pop()), k);
    } else {
      PutAlike(s, t, k, b.Finish());
    }
  }

  lemma EjectAlike(s: State, t: State, k: nat)
    requires Alike(s, t) && k < |s.batches|
    ensures Alike(EjectCurrent(s, k), EjectCurrent(t, k))
  {
    ExistingAlike(s.rows, t.rows, s.batches[k].current);
  }

  lemma LandAlike(s: State, t: State, k: nat, sha: Commit)
    requires Alike(s, t) && k < |s.batches|
    ensures Alike(LandCurrent(s, k, sha), LandCurrent(t, k, sha))
  {
  }

  lemma PassAlike(c: Config, w: World, push: Push, s: State, t: State, k: nat)
    requires Alike(s, t) && k < |s.batches|
    ensures Alike(HandlePass(c, w, push, s, k), HandlePass(c, w, push, t, k))
  {
    var b := s.batches[k];
    if b.phase.Testing? && b.sha.Some? {
      match push
      case Unavailable =>
      case Denied =>
        EjectAlike(s, t, k);
        NextAlike(c, w, EjectCurrent(s, k), EjectCurrent(t, k), k);
      case Reach =>
        if IsAncestor(s.target, b.sha.value) {
          LandAlike(s, t, k, b.sha.value);
          NextAlike(c, w, LandCurrent(s, k, b.sha.value), LandCurrent(t, k, b.sha.value), k);
        } else {
          RaceAlike(c, w, s, t, k);
        }
    }
  }

  lemma RaceAlike(c: Config, w: World, s: State, t: State, k: nat)
    requires Alike(s, t) && k < |s.batches|
    ensures var s1, t1 := Put(s, k, s.batches[k].Race()), Put(t, k, t.batches[k].Race());
            var b' := s.batches[k].Race().Rebuilding();
            && Alike(Build(c, w, Put(s1, k, b'), k), Build(c, w, Put(t1, k, b'), k))
            && Alike(Next(c, w, EjectCurrent(s1, k), k), Next(c, w, EjectCurrent(t1, k), k))
  {
    var b := s.batches[k];
    var s1, t1 := Put(s, k, b.Race()), Put(t, k, b.Race());
    PutAlike(s, t, k, b.Race());
    PutAlike(s1, t1, k, b.Race().Rebuilding());
    BuildAlike(c, w, Put(s1, k, b.Race().Rebuilding()), Put(t1, k, b.Race().Rebuilding()), k);
    EjectAlike(s1, t1, k);
    NextAlike(c, w, EjectCurrent(s1, k), EjectCurrent(t1, k), k);
  }

  lemma SplitAlike(s: State, t: State, k: nat)
    requires Alike(s, t) && k < |s.batches|
    ensures var b := s.batches[k];
            var half := b.current[|b.current| / 2..];
            Alike(Put(s, k, b.Split()).(rows := Unrouted(s.rows, half)),
                  Put(t, k, b.Split()).(rows := Unrouted(t.rows, half)))
  {
  }

  lemma FailAlike(c: Config, w: World, s: State, t: State, k: nat)
    requires Alike(s, t) && k < |s.batches|
    ensures Alike(HandleFail(c, w, s, k), HandleFail(c, w, t, k))
  {
    var b := s.batches[k];
    if b.phase.Testing? {
      if |b.current| == 1 {
        EjectAlike(s, t, k);
        NextAlike(c, w, EjectCurrent(s, k), EjectCurrent(t, k), k);
      } else if Capped(c, b) {
        PutAlike(s, t, k, b.Drain());
        EjectAlike(Put(s, k, b.Drain()), Put(t, k, b.Drain()), k);
        NextAlike(c, w, EjectCurrent(Put(s, k, b.Drain()), k), EjectCurrent(Put(t, k, b.Drain()), k), k);
      } else {
        var half := b.current[|b.current| / 2..];
        SplitAlike(s, t, k);
        BuildAlike(c, w, Put(s, k, b.Split()).(rows := Unrouted(s.rows, half)),
                   Put(t, k, b.Split()).(rows := Unrouted(t.rows, half)), k);
      }
    }
  }

  // ----- two polls of one snapshot ------------------------------------------

  /** Where a poll has done what it is going to do. */
  function Ruled(checks: seq<CheckStatus>, required: seq<string>): (n: nat)
    ensures n <= |checks|
  {
    var d := Undecided(map[], checks, required);
    if d < |checks| then d + 1 else d
  }

  lemma RecordSame(checks: seq<CheckStatus>, shuffled: seq<CheckStatus>)
    requires Distinct(checks) && Distinct(shuffled) && multiset(checks) == multiset(shuffled)
    ensures Record(map[], checks) == Record(map[], shuffled)
  {
    hide Record;
    assert forall s :: s in checks <==> s in shuffled by {
      assert forall s :: s in checks <==> s in multiset(checks);
      assert forall s :: s in shuffled <==> s in multiset(shuffled);
    }
    RecordKeeps(map[], checks);
    RecordKeeps(map[], shuffled);
    var a, b := Record(map[], checks), Record(map[], shuffled);
    forall x
      ensures x in a <==> x in b
      ensures x in a ==> a[x] == b[x]
    {
      if s :| s in checks && s.context == x {
        assert s in shuffled;
      }
    }
  }

  /** The forge answers every event of the poll the same. */
  ghost predicate Answers(poll: seq<Event>, w: World, push: Push) {
    forall i :: 0 <= i < |poll| ==> poll[i].Check? && poll[i].w == w && poll[i].push == push
  }

  lemma AllRecorded(c: Config, s: State, snap: Snapshot, poll: seq<Event>,
                    checks: seq<CheckStatus>, required: seq<string>)
    requires Fresh(s, snap) && s.rows[snap.id].checks == map[] && Feeds(poll, snap, checks, required)
    requires Feed(map[], checks, required).Waits?
    ensures Run(c, s, poll) == Holding(s, snap, Record(map[], checks))
  {
    EmptyHeld(s, snap);
    FillsLedger(c, s, snap, map[], poll, checks, required, |poll|);
    assert poll[..|poll|] == poll && checks[..|checks|] == checks;
  }

  lemma ObeyedAlike(c: Config, s: State, e: Event, f: Event, m: Standing, m': Standing, ruling: Ruling)
    requires e.Check? && f.Check? && e.snap == f.snap && Fresh(s, e.snap) && e.w == f.w && e.push == f.push
    ensures Alike(Obeyed(c, Holding(s, e.snap, m), e, ruling), Obeyed(c, Holding(s, e.snap, m'), f, ruling))
  {
    var t, t' := Holding(s, e.snap, m), Holding(s, e.snap, m');
    assert Alike(t, t');
    match ruling
    case Waits =>
    case Passes => PassAlike(c, e.w, e.push, t, t', e.snap.batch);
    case Fails => FailAlike(c, e.w, t, t', e.snap.batch);
  }

  lemma DecidersAgree(c: Config, s: State, snap: Snapshot, poll: seq<Event>, checks: seq<CheckStatus>,
                      other: seq<Event>, shuffled: seq<CheckStatus>, required: seq<string>, w: World, push: Push)
    requires Fresh(s, snap) && s.rows[snap.id].checks == map[]
    requires Feeds(poll, snap, checks, required) && Feeds(other, snap, shuffled, required)
    requires Answers(poll, w, push) && Answers(other, w, push)
    requires Feed(map[], checks, required) == Feed(map[], shuffled, required) && !Feed(map[], checks, required).Waits?
    ensures Alike(Run(c, s, poll[..Undecided(map[], checks, required) + 1]),
                  Run(c, s, other[..Undecided(map[], shuffled, required) + 1]))
  {
    hide Alike, Obeyed, Run, Record;
    var d, d' := Undecided(map[], checks, required), Undecided(map[], shuffled, required);
    EmptyHeld(s, snap);
    DeciderActs(c, s, snap, map[], poll, checks, required);
    DeciderActs(c, s, snap, map[], other, shuffled, required);
    ObeyedAlike(c, s, poll[d], other[d'], Record(map[], checks[..d + 1]), Record(map[], shuffled[..d' + 1]),
                Feed(map[], checks, required));
  }

  /** With required checks, two polls that receive the same results in any two
      orders do the same: without a ruling they leave the same state, and with
      one the deciding results leave states that differ in recorded results
      alone. The forge is taken to answer both alike. */
  lemma PollsAgree(c: Config, s: State, snap: Snapshot, poll: seq<Event>, checks: seq<CheckStatus>,
                   other: seq<Event>, shuffled: seq<CheckStatus>, required: seq<string>, w: World, push: Push)
    requires Fresh(s, snap) && s.rows[snap.id].checks == map[]
    requires Feeds(poll, snap, checks, required) && Feeds(other, snap, shuffled, required)
    requires required != [] && Distinct(checks) && Distinct(shuffled) && multiset(checks) == multiset(shuffled)
    requires Answers(poll, w, push) && Answers(other, w, push)
    ensures Feed(map[], checks, required).Waits? ==> Run(c, s, poll) == Run(c, s, other)
    ensures Alike(Run(c, s, poll[..Ruled(checks, required)]), Run(c, s, other[..Ruled(shuffled, required)]))
  {
    PollOrderIrrelevant(checks, shuffled, required);
    if Feed(map[], checks, required).Waits? {
      AllRecorded(c, s, snap, poll, checks, required);
      AllRecorded(c, s, snap, other, shuffled, required);
      RecordSame(checks, shuffled);
      assert poll[..|poll|] == poll && other[..|other|] == other;
    } else {
      DecidersAgree(c, s, snap, poll, checks, other, shuffled, required, w, push);
    }
  }
}
