/** How a check result finds its batch: the webhook looks a commit up in the
    queue rows of the repository, the poller starts from the batch row. Both
    end at the same member, and no row is left behind by a batch. */
module Routing {
  import opened Lists
  import opened Commits
  import opened Model
  import opened Invariants
  import opened Transitions
  import opened Guarantees
  import opened Landing

  // ----- no stranded entries ------------------------------------------------

  /** At most one batch is live, the rows that name a batch are exactly its
      members in play, and no row names a finished one. */
  ghost predicate NobodyStranded(s: State) {
    && (forall j :: 0 <= j < |s.batches| && s.batches[j].Live() ==> j == |s.batches| - 1)
    && (forall i, j :: i in s.rows && s.rows[i].batch == Some(j) ==>
          j < |s.batches| && s.batches[j].Live() && s.batches[j].InPlay(i))
    && (forall i, j :: 0 <= j < |s.batches| && s.batches[j].InPlay(i) ==>
          i in s.rows && s.rows[i].batch == Some(j))
  }

  lemma IdleStrandsNobody(c: Config, s: State)
    requires Idle(c, s)
    ensures NobodyStranded(s)
  {
  }

  lemma LiveStrandsNobody(c: Config, s: State, k: nat)
    requires Core(c, s, k)
    ensures NobodyStranded(s)
  {
  }

  lemma NoStrandedEntries(c: Config, tip: Commit, events: seq<Event>)
    ensures NobodyStranded(Run(c, Initial(tip), events))
  {
    RunOk(c, tip, events);
    var s := Run(c, Initial(tip), events);
    if HasLive(s) { LiveStrandsNobody(c, s, |s.batches| - 1); } else { IdleStrandsNobody(c, s); }
  }

  // ----- members stay in queue order ----------------------------------------

  predicate Ascending(s: seq<Id>) { forall a, b :: 0 <= a < b < |s| ==> s[a] < s[b] }

  ghost predicate InOrder(s: State) { forall b :: b in s.batches ==> Ascending(b.members) }

  lemma {:induction false} SubAscending(a: seq<Id>, b: seq<Id>)
    requires Sub(a, b) && Ascending(b)
    ensures Ascending(a)
    ensures a != [] ==> b != [] && b[0] <= a[0]
    decreases |b|
  {
    if a != [] {
      if a[0] == b[0] && Sub(a[1..], b[1..]) {
        SubAscending(a[1..], b[1..]);
        assert a == [a[0]] + a[1..];
      } else {
        SubAscending(a, b[1..]);
      }
    }
  }

  lemma NewMembers(c: Config, s: State, e: Event)
    requires Inv(c, s) && |s.batches| < |Step(c, s, e).batches|
    ensures |Step(c, s, e).batches| == |s.batches| + 1
    ensures Ascending(Step(c, s, e).batches[|s.batches|].members)
  {
    hide Inv, Step;
    NewIsAdopted(c, s, e);
    QueuedHeadFacts(s.rows, s.next, Limit(c));
  }

  lemma OrderMoves(s: State, s': State)
    requires Moves(s, s') && InOrder(s) && |s'.batches| <= |s.batches| + 1
    requires |s.batches| < |s'.batches| ==> Ascending(s'.batches[|s.batches|].members)
    ensures InOrder(s')
  {
  }

  lemma OrderStep(c: Config, s: State, e: Event)
    requires Inv(c, s) && InOrder(s)
    ensures InOrder(Step(c, s, e))
  {
    StepMoves(c, s, e);
    if |s.batches| < |Step(c, s, e).batches| { NewMembers(c, s, e); }
    OrderMoves(s, Step(c, s, e));
  }

  lemma {:induction false} RunInOrder(c: Config, tip: Commit, events: seq<Event>)
    ensures InOrder(Run(c, Initial(tip), events))
  {
    if events != [] {
      var before := events[..|events| - 1];
      RunOk(c, tip, before);
      RunInOrder(c, tip, before);
      OrderStep(c, Run(c, Initial(tip), before), events[|events| - 1]);
    }
  }

  lemma CurrentAscending(c: Config, s: State)
    requires Inv(c, s) && HasLive(s) && InOrder(s)
    ensures Ascending(s.batches[|s.batches| - 1].current)
  {
    var b := s.batches[|s.batches| - 1];
    SubAscending(b.Line(), b.members);
    assert Ascending(b.landed + b.current + Upcoming(b.pending));
    forall a, d | 0 <= a < d < |b.current|
      ensures b.current[a] < b.current[d]
    {
      assert b.Line()[|b.landed| + a] == b.current[a] && b.Line()[|b.landed| + d] == b.current[d];
    }
  }

  // ----- the webhook's lookup -----------------------------------------------

  /** One line of the list of active entries of a repository. */
  datatype Entry = Entry(branch: nat, id: Id, batch: Option<nat>, sha: Option<Commit>)

  function Line(branch: nat, rows: Rows, id: Id): Entry
    requires id in rows
  {
    Entry(branch, id, rows[id].batch, rows[id].sha)
  }

  /** One branch's rows, oldest first. */
  function Listed(branch: nat, rows: Rows, upTo: Id): (r: seq<Entry>)
  {
    if upTo == 0 then []
    else
      var r := Listed(branch, rows, upTo - 1);
      if upTo - 1 in rows then r + [Line(branch, rows, upTo - 1)] else r
  }

  /** All rows of the repository, by target branch and then by age. */
  function Active(branches: seq<State>): (r: seq<Entry>)
  {
    if branches == [] then []
    else
      var n := |branches| - 1;
      Active(branches[..n]) + Listed(n, branches[n].rows, branches[n].next)
  }

  predicate Carries(e: Entry, sha: Commit) { e.sha == Some(sha) }

  /** `found` is the first line that carries the commit. */
  ghost predicate FirstCarrier(entries: seq<Entry>, sha: Commit, found: Option<Entry>) {
    match found
    case None => forall e :: e in entries ==> !Carries(e, sha)
    case Some(f) =>
      exists i :: 0 <= i < |entries| && entries[i] == f && Carries(f, sha) &&
                  forall j :: 0 <= j < i ==> !Carries(entries[j], sha)
  }

  method FindEntryForCommit(entries: seq<Entry>, sha: Commit) returns (found: Option<Entry>)
    ensures FirstCarrier(entries, sha, found)
  {
    for i := 0 to |entries|
      invariant forall j :: 0 <= j < i ==> !Carries(entries[j], sha)
    {
      if entries[i].sha.Some? && entries[i].sha.value == sha {
        return Some(entries[i]);
      }
    }
    return None;
  }

  predicate Before(e: Entry, f: Entry) { e.branch < f.branch || (e.branch == f.branch && e.id < f.id) }

  predicate Sorted(entries: seq<Entry>) {
    forall i, j :: 0 <= i < j < |entries| ==> Before(entries[i], entries[j])
  }

  lemma {:induction false} ListedFacts(branch: nat, rows: Rows, upTo: Id)
    ensures Sorted(Listed(branch, rows, upTo))
    ensures forall e :: e in Listed(branch, rows, upTo) <==>
              e.branch == branch && e.id < upTo && e.id in rows && e == Line(branch, rows, e.id)
  {
    if upTo > 0 {
      ListedFacts(branch, rows, upTo - 1);
      var r := Listed(branch, rows, upTo - 1);
      assert forall i :: 0 <= i < |r| ==> r[i] in r;
    }
  }

  predicate FromBranch(branches: seq<State>, e: Entry) {
    && e.branch < |branches|
    && e.id in branches[e.branch].rows
    && e.id < branches[e.branch].next
    && e == Line(e.branch, branches[e.branch].rows, e.id)
  }

  lemma {:induction false} ActiveFacts(branches: seq<State>)
    ensures Sorted(Active(branches))
    ensures forall e :: e in Active(branches) <==> FromBranch(branches, e)
  {
    if branches != [] {
      var n := |branches| - 1;
      var front, last := Active(branches[..n]), Listed(n, branches[n].rows, branches[n].next);
      ActiveFacts(branches[..n]);
      ListedFacts(n, branches[n].rows, branches[n].next);
      forall e
        ensures FromBranch(branches, e) <==> FromBranch(branches[..n], e) || e in last
      {
      }
      assert forall i :: 0 <= i < |front| ==> front[i] in front;
      assert forall i :: 0 <= i < |last| ==> last[i] in last;
    }
  }

  /** The rows that carry the commit under test are exactly the current members
      that still have a row. */
  ghost predicate RoutesRight(s: State) {
    UnderTest(s) ==>
      && TestedSha(s).Some?
      && (forall i :: i in s.rows ==> (s.rows[i].sha.Some? <==> i in Tester(s).current))
      && (forall i :: i in s.rows && i in Tester(s).current ==> s.rows[i].sha == TestedSha(s))
  }

  lemma InvRoutesRight(c: Config, s: State)
    requires Inv(c, s)
    ensures RoutesRight(s)
  {
    if UnderTest(s) {
      var b := Tester(s);
      UniqueParts(b);
      forall i | i in s.rows
        ensures s.rows[i].sha.Some? <==> i in b.current
      {
        assert b.InPlay(i) || s.rows[i].batch.None?;
        assert i in b.current ==> b.InPlay(i);
      }
    }
  }

  /** No other branch of the repository has a row that carries the commit. */
  ghost predicate OnlyOn(branches: seq<State>, m: nat, sha: Commit) {
    forall n, i :: 0 <= n < |branches| && n != m ==> !CarriedAt(branches[n], i, sha)
  }

  lemma FirstIsLeast(entries: seq<Entry>, sha: Commit, f: Entry, e: Entry)
    requires Sorted(entries) && FirstCarrier(entries, sha, Some(f)) && e in entries && Carries(e, sha)
    ensures f in entries && Carries(f, sha) && (f == e || Before(f, e))
  {
  }

  /** The lookup ends at the oldest current member, if it still has a row. */
  lemma LookupFindsOldest(branches: seq<State>, m: nat, sha: Commit, found: Option<Entry>)
    requires m < |branches| && RoutesRight(branches[m]) && UnderTest(branches[m])
    requires TestedSha(branches[m]) == Some(sha) && OnlyOn(branches, m, sha)
    requires Tester(branches[m]).current != [] && Ascending(Tester(branches[m]).current)
    requires Tester(branches[m]).current[0] in branches[m].rows
    requires Tester(branches[m]).current[0] < branches[m].next
    requires FirstCarrier(Active(branches), sha, found)
    ensures found == Some(Line(m, branches[m].rows, Tester(branches[m]).current[0]))
  {
    ActiveFacts(branches);
    var current := Tester(branches[m]).current;
    var oldest := Line(m, branches[m].rows, current[0]);
    assert FromBranch(branches, oldest) && Carries(oldest, sha);
    assert found.Some?;
    var f := found.value;
    FirstIsLeast(Active(branches), sha, f, oldest);
    assert FromBranch(branches, f) && CarriedAt(branches[f.branch], f.id, sha);
    assert f.branch == m && f.id in current;
  }

  /** What the poller feeds the engine: the first current member, with the
      commit of the batch row. */
  function Representative(m: nat, s: State): Entry
    requires UnderTest(s) && Tester(s).current != [] && Tester(s).current[0] in s.rows
  {
    Line(m, s.rows, Tester(s).current[0]).(sha := TestedSha(s))
  }

  ghost predicate Reached(c: Config, s: State) {
    exists tip, events :: s == Run(c, Initial(tip), events)
  }

  /** In every reachable state of all branches of a repository, a webhook about
      a commit under test and the poll of its branch reach the engine through
      the same member, with the same batch and the same commit. */
  lemma WebhookAndPollerAgree(c: Config, branches: seq<State>, m: nat, sha: Commit, found: Option<Entry>)
    requires forall s :: s in branches ==> Reached(c, s)
    requires m < |branches| && UnderTest(branches[m]) && TestedSha(branches[m]) == Some(sha)
    requires OnlyOn(branches, m, sha)
    requires FirstCarrier(Active(branches), sha, found)
    ensures var s := branches[m];
            && Tester(s).current != [] && Tester(s).current[0] in s.rows
            && found == Some(Representative(m, s))
            && found.value.batch == Some(|s.batches| - 1)
            && Fresh(s, Snapshot(found.value.id, found.value.batch.value, found.value.sha))
  {
    var s := branches[m];
    assert s in branches;
    ReachedRoutes(c, s);
    LookupFindsOldest(branches, m, sha, found);
  }

  lemma InvRoutes(c: Config, s: State)
    requires Inv(c, s) && InOrder(s) && UnderTest(s)
    ensures var b := Tester(s);
            && RoutesRight(s) && b.current != [] && Ascending(b.current)
            && b.current[0] in s.rows && b.current[0] < s.next
            && s.rows[b.current[0]].batch == Some(|s.batches| - 1)
  {
    CurrentAscending(c, s);
    InvRoutesRight(c, s);
    assert Tester(s).InPlay(Tester(s).current[0]);
  }

  lemma ReachedRoutes(c: Config, s: State)
    requires Reached(c, s) && UnderTest(s)
    ensures var b := Tester(s);
            && RoutesRight(s) && b.current != [] && Ascending(b.current)
            && b.current[0] in s.rows && b.current[0] < s.next
            && s.rows[b.current[0]].batch == Some(|s.batches| - 1)
  {
    var tip, events :| s == Run(c, Initial(tip), events);
    RunOk(c, tip, events);
    RunInOrder(c, tip, events);
    InvRoutes(c, s);
  }
}
