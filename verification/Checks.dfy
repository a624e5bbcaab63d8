/** Check results and the verdict drawn from them (internal/monitor), the
    dashboard's view of the same results (internal/web), and the order in which
    a poll feeds them (internal/poller). */
module Checks {
  import opened Lists

  datatype CheckState = Pending | Success | Failure | Error

  datatype CheckStatus = CheckStatus(context: string, state: CheckState, url: string)

  datatype Verdict = Waiting | Passed | Failed(check: string, url: string)

  predicate Red(state: CheckState) { state.Failure? || state.Error? }

  /** The status a map keyed by context holds after the list is loaded into it
      in order: the last one with that context. */
  function Last(statuses: seq<CheckStatus>, context: string): (r: Option<CheckStatus>)
    ensures r.Some? ==> r.value in statuses && r.value.context == context
    ensures r.None? <==> forall s :: s in statuses ==> s.context != context
  {
    if statuses == [] then None
    else
      var n := |statuses| - 1;
      if statuses[n].context == context then Some(statuses[n])
      else Last(statuses[..n], context)
  }

  predicate GreenFor(statuses: seq<CheckStatus>, context: string) {
    var s := Last(statuses, context);
    s.Some? && s.value.state.Success?
  }

  predicate RedFor(statuses: seq<CheckStatus>, context: string) {
    var s := Last(statuses, context);
    s.Some? && Red(s.value.state)
  }

  function FirstRed(statuses: seq<CheckStatus>): (r: Option<CheckStatus>)
    ensures r.Some? ==> r.value in statuses && Red(r.value.state)
    ensures r.None? <==> forall s :: s in statuses ==> !Red(s.state)
  {
    if statuses == [] then None
    else if Red(statuses[0].state) then Some(statuses[0])
    else FirstRed(statuses[1..])
  }

  function FirstRequiredRed(statuses: seq<CheckStatus>, required: seq<string>): (r: Option<CheckStatus>)
    ensures r.Some? ==> r.value.context in required && r == Last(statuses, r.value.context) && Red(r.value.state)
    ensures r.None? <==> forall c :: c in required ==> !RedFor(statuses, c)
  {
    if required == [] then None
    else if RedFor(statuses, required[0]) then Last(statuses, required[0])
    else FirstRequiredRed(statuses, required[1..])
  }

  function Evaluate(statuses: seq<CheckStatus>, required: seq<string>): (v: Verdict)
    ensures required != [] ==>
      && (v.Failed? <==> exists c :: c in required && RedFor(statuses, c))
      && (v.Passed? <==> forall c :: c in required ==> GreenFor(statuses, c))
    ensures required == [] ==>
      && (v.Passed? <==> exists s :: s in statuses && s.state.Success?)
      && (v.Failed? <==> (forall s :: s in statuses ==> !s.state.Success?) && exists s :: s in statuses && Red(s.state))
  {
    if required == [] then
      if exists s :: s in statuses && s.state.Success? then Passed
      else match FirstRed(statuses) {
        case None => Waiting
        case Some(s) => Failed(s.context, s.url)
      }
    else
      match FirstRequiredRed(statuses, required)
      case Some(s) => Failed(s.context, s.url)
      case None => if forall c :: c in required ==> GreenFor(statuses, c) then Passed else Waiting
  }

  /** A map keyed by context, loaded from the list in order. */
  ghost predicate Indexes(byContext: map<string, CheckStatus>, statuses: seq<CheckStatus>) {
    forall c :: Last(statuses, c) == if c in byContext then Some(byContext[c]) else None
  }

  method Index(statuses: seq<CheckStatus>) returns (byContext: map<string, CheckStatus>)
    ensures Indexes(byContext, statuses)
  {
    byContext := map[];
    for i := 0 to |statuses|
      invariant Indexes(byContext, statuses[..i])
    {
      assert statuses[..i + 1][..i] == statuses[..i];
      byContext := byContext[statuses[i].context := statuses[i]];
    }
    assert statuses[..|statuses|] == statuses;
  }

  lemma {:induction false} FirstRedPast(statuses: seq<CheckStatus>, i: nat)
    requires i <= |statuses|
    requires forall s :: s in statuses[..i] ==> !Red(s.state)
    ensures FirstRed(statuses) == FirstRed(statuses[i..])
    decreases i
  {
    if i > 0 {
      assert statuses[0] in statuses[..i];
      assert forall s :: s in statuses[1..][..i - 1] ==> s in statuses[..i];
      FirstRedPast(statuses[1..], i - 1);
      assert statuses[1..][i - 1..] == statuses[i..];
    }
  }

  lemma {:induction false} FirstRequiredRedPast(statuses: seq<CheckStatus>, required: seq<string>, i: nat)
    requires i <= |required|
    requires forall c :: c in required[..i] ==> !RedFor(statuses, c)
    ensures FirstRequiredRed(statuses, required) == FirstRequiredRed(statuses, required[i..])
    decreases i
  {
    if i > 0 {
      assert required[0] in required[..i];
      assert forall c :: c in required[1..][..i - 1] ==> c in required[..i];
      FirstRequiredRedPast(statuses, required[1..], i - 1);
      assert required[1..][i - 1..] == required[i..];
    }
  }

  /** The branch without required checks: a success wins, else the first red one. */
  method EvaluateAny(statuses: seq<CheckStatus>) returns (v: Verdict)
    ensures v == Evaluate(statuses, [])
  {
    var failed: Option<CheckStatus> := None;
    for i := 0 to |statuses|
      invariant forall s :: s in statuses[..i] ==> !s.state.Success?
      invariant failed.None? ==> forall s :: s in statuses[..i] ==> !Red(s.state)
      invariant failed.Some? ==> FirstRed(statuses) == failed
    {
      if statuses[i].state.Success? {
        return Passed;
      }
      if failed.None? && Red(statuses[i].state) {
        FirstRedPast(statuses, i);
        failed := Some(statuses[i]);
      }
    }
    assert statuses[..|statuses|] == statuses;
    if failed.Some? {
      return Failed(failed.value.context, failed.value.url);
    }
    return Waiting;
  }

  /** The loops of EvaluateChecks compute exactly that verdict, the reported
      check name and URL included. */
  method EvaluateChecks(statuses: seq<CheckStatus>, required: seq<string>) returns (v: Verdict)
    ensures v == Evaluate(statuses, required)
  {
    if |required| == 0 {
      v := EvaluateAny(statuses);
      return;
    }
    var byContext := Index(statuses);
    for i := 0 to |required|
      invariant forall c :: c in required[..i] ==> !RedFor(statuses, c)
    {
      var req := required[i];
      if req in byContext && Red(byContext[req].state) {
        FirstRequiredRedPast(statuses, required, i);
        return Failed(req, byContext[req].url);
      }
    }
    for i := 0 to |required|
      invariant forall c :: c in required ==> !RedFor(statuses, c)
      invariant forall c :: c in required[..i] ==> GreenFor(statuses, c)
    {
      var req := required[i];
      if req !in byContext || !byContext[req].state.Success? {
        assert req in required && !GreenFor(statuses, req);
        return Waiting;
      }
    }
    return Passed;
  }

  lemma {:induction false} FirstRedIs(statuses: seq<CheckStatus>) returns (i: nat)
    requires FirstRed(statuses).Some?
    ensures i < |statuses| && FirstRed(statuses).value == statuses[i]
    ensures forall j :: 0 <= j < i ==> !Red(statuses[j].state)
  {
    i := 0;
    if !Red(statuses[0].state) {
      var n := FirstRedIs(statuses[1..]);
      i := n + 1;
      assert forall j :: 0 < j < i ==> statuses[j] == statuses[1..][j - 1];
    }
  }

  lemma {:induction false} FirstRequiredRedIs(statuses: seq<CheckStatus>, required: seq<string>) returns (i: nat)
    requires FirstRequiredRed(statuses, required).Some?
    ensures i < |required| && FirstRequiredRed(statuses, required) == Last(statuses, required[i])
    ensures forall j :: 0 <= j < i ==> !RedFor(statuses, required[j])
  {
    i := 0;
    if !RedFor(statuses, required[0]) {
      var n := FirstRequiredRedIs(statuses, required[1..]);
      i := n + 1;
      assert forall j :: 0 < j < i ==> required[j] == required[1..][j - 1];
    }
  }

  /** Without required checks, the check that failed is the one listed first. */
  lemma VerdictNamesAny(statuses: seq<CheckStatus>)
    requires Evaluate(statuses, []).Failed?
    ensures exists i :: 0 <= i < |statuses|
                     && Evaluate(statuses, []) == Failed(statuses[i].context, statuses[i].url)
                     && (statuses[i].state == Failure || statuses[i].state == Error)
                     && forall j :: 0 <= j < i ==> statuses[j].state == Pending
  {
    var i := FirstRedIs(statuses);
    assert forall j :: 0 <= j < i ==> statuses[j] in statuses;
  }

  /** With them, it is the first in the order of that list whose last result is
      red; its name comes with the link of that result. */
  lemma VerdictNames(statuses: seq<CheckStatus>, required: seq<string>)
    requires required != [] && Evaluate(statuses, required).Failed?
    ensures exists i, s :: 0 <= i < |required| && Last(statuses, required[i]) == Some(s)
                        && Evaluate(statuses, required) == Failed(required[i], s.url)
                        && (s.state == Failure || s.state == Error)
                        && forall j, t :: 0 <= j < i && Last(statuses, required[j]) == Some(t) ==>
                             t.state == Pending || t.state == Success
  {
    hide Last, FirstRequiredRed;
    var i := FirstRequiredRedIs(statuses, required);
    var s := Last(statuses, required[i]).value;
    assert 0 <= i < |required| && Last(statuses, required[i]) == Some(s);
  }

  // ----- the dashboard ------------------------------------------------------

  /** The line shown for a required check. */
  function Shown(recorded: seq<CheckStatus>, context: string): (r: CheckStatus)
    ensures r.context == context
  {
    match Last(recorded, context)
    case Some(s) => s
    case None => CheckStatus(context, Pending, "")
  }

  function Reported(recorded: seq<CheckStatus>, required: seq<string>): (r: seq<CheckStatus>)
    ensures |r| == |required|
    ensures forall i :: 0 <= i < |r| ==> r[i] == Shown(recorded, required[i])
  {
    if required == [] then []
    else
      var n := |required| - 1;
      Reported(recorded, required[..n]) + [Shown(recorded, required[n])]
  }

  function Extras(recorded: seq<CheckStatus>, required: seq<string>): (r: seq<CheckStatus>)
    ensures forall s :: s in r <==> s in recorded && s.context !in required
  {
    if recorded == [] then []
    else
      var n := |recorded| - 1;
      Extras(recorded[..n], required) + (if recorded[n].context in required then [] else [recorded[n]])
  }

  function Displayed(recorded: seq<CheckStatus>, required: seq<string>): seq<CheckStatus> {
    if required == [] then recorded else Reported(recorded, required) + Extras(recorded, required)
  }

  method Contains(required: seq<string>, context: string) returns (found: bool)
    ensures found <==> context in required
  {
    found := false;
    for j := 0 to |required|
      invariant context !in required[..j]
    {
      if context == required[j] {
        return true;
      }
    }
  }

  method MergeCheckStatuses(recorded: seq<CheckStatus>, required: seq<string>) returns (result: seq<CheckStatus>)
    ensures result == Displayed(recorded, required)
  {
    if |required| == 0 {
      return recorded;
    }
    result := [];
    var byContext := Index(recorded);
    for i := 0 to |required|
      invariant result == Reported(recorded, required[..i])
    {
      assert required[..i + 1][..i] == required[..i];
      if required[i] in byContext {
        result := result + [byContext[required[i]]];
      } else {
        result := result + [CheckStatus(required[i], Pending, "")];
      }
    }
    assert required[..|required|] == required;
    var extras := CollectExtras(recorded, required);
    result := result + extras;
  }

  method CollectExtras(recorded: seq<CheckStatus>, required: seq<string>) returns (extras: seq<CheckStatus>)
    ensures extras == Extras(recorded, required)
  {
    extras := [];
    for i := 0 to |recorded|
      invariant extras == Extras(recorded[..i], required)
    {
      var found := Contains(required, recorded[i].context);
      assert recorded[..i + 1][..i] == recorded[..i];
      if !found {
        extras := extras + [recorded[i]];
      }
    }
    assert recorded[..|recorded|] == recorded;
  }

  lemma {:induction false} ExtrasSub(recorded: seq<CheckStatus>, required: seq<string>)
    ensures Sub(Extras(recorded, required), recorded)
  {
    hide Sub;
    if recorded == [] {
      SubRefl<CheckStatus>([]);
    } else {
      var n := |recorded| - 1;
      ExtrasSub(recorded[..n], required);
      assert recorded == recorded[..n] + [recorded[n]];
      SubRefl([recorded[n]]);
      if recorded[n].context in required {
        SubWiden(Extras(recorded[..n], required), recorded[..n], [recorded[n]]);
        assert Extras(recorded[..n], required) + [] == Extras(recorded[..n], required);
      } else {
        SubCat(Extras(recorded[..n], required), recorded[..n], [recorded[n]], [recorded[n]]);
      }
    }
  }

  lemma {:induction false} ExtrasCount(recorded: seq<CheckStatus>, required: seq<string>, s: CheckStatus)
    ensures multiset(Extras(recorded, required))[s] == if s.context in required then 0 else multiset(recorded)[s]
  {
    if recorded != [] {
      var n := |recorded| - 1;
      ExtrasCount(recorded[..n], required, s);
      assert recorded == recorded[..n] + [recorded[n]];
    }
  }

  /** What the dashboard lists: without required checks everything on record, else
      first each required check in order, by its last result or as pending, and
      then everything else on record, each as often and in the order recorded. */
  lemma DisplayedLists(recorded: seq<CheckStatus>, required: seq<string>, s: CheckStatus)
    ensures required == [] ==> Displayed(recorded, required) == recorded
    ensures required != [] ==>
              var d, n := Displayed(recorded, required), |required|;
              && n <= |d|
              && (forall i :: 0 <= i < n ==>
                    d[i] == match Last(recorded, required[i])
                            case Some(r) => r
                            case None => CheckStatus(required[i], Pending, ""))
              && Sub(d[n..], recorded)
              && multiset(d[n..])[s] == if s.context in required then 0 else multiset(recorded)[s]
  {
    ExtrasSub(recorded, required);
    ExtrasCount(recorded, required, s);
    if required != [] {
      assert Displayed(recorded, required)[|required|..] == Extras(recorded, required);
    }
  }

  lemma {:induction false} LastCat(a: seq<CheckStatus>, b: seq<CheckStatus>, context: string)
    ensures Last(a + b, context) == (if Last(b, context).Some? then Last(b, context) else Last(a, context))
    decreases |b|
  {
    if b == [] {
      assert a + b == a;
    } else {
      var n := |b| - 1;
      LastCat(a, b[..n], context);
      assert (a + b)[..|a + b| - 1] == a + b[..n];
    }
  }

  /** For a required context the displayed list and the recorded one hold the
      same status, or the displayed one shows a placeholder for a missing one. */
  lemma LastDisplayed(recorded: seq<CheckStatus>, required: seq<string>, context: string)
    requires context in required
    ensures Last(Displayed(recorded, required), context) ==
            (if Last(recorded, context).Some? then Last(recorded, context)
             else Some(CheckStatus(context, Pending, "")))
  {
  }

  lemma {:induction false} SameFirstRed(a: seq<CheckStatus>, b: seq<CheckStatus>, required: seq<string>)
    requires forall c :: c in required ==> (RedFor(a, c) <==> RedFor(b, c))
    requires forall c :: c in required && RedFor(a, c) ==> Last(a, c) == Last(b, c)
    ensures FirstRequiredRed(a, required) == FirstRequiredRed(b, required)
  {
    if required != [] {
      assert required[0] in required;
      SameFirstRed(a, b, required[1..]);
    }
  }

  /** What the dashboard shows leads to the decision the queue takes: same
      verdict, same failing check, same link, for every pair of lists. */
  lemma DashboardAgrees(recorded: seq<CheckStatus>, required: seq<string>)
    ensures Evaluate(Displayed(recorded, required), required) == Evaluate(recorded, required)
  {
    if required != [] {
      var shown := Displayed(recorded, required);
      forall c | c in required
        ensures RedFor(shown, c) <==> RedFor(recorded, c)
        ensures RedFor(shown, c) ==> Last(shown, c) == Last(recorded, c)
        ensures GreenFor(shown, c) <==> GreenFor(recorded, c)
      {
        LastDisplayed(recorded, required, c);
      }
      SameFirstRed(shown, recorded, required);
    }
  }

  // ----- the ledger of one queue entry --------------------------------------

  datatype Ruling = Waits | Passes | Fails

  function RulingOf(v: Verdict): Ruling {
    match v
    case Waiting => Waits
    case Passed => Passes
    case Failed(_, _) => Fails
  }

  /** The stored result for a context: one row per (entry, context). */
  type Standing = map<string, CheckState>

  function Judge(m: Standing, required: seq<string>): (r: Ruling) {
    if required == [] then
      if exists c :: c in m && m[c].Success? then Passes
      else if exists c :: c in m && Red(m[c]) then Fails
      else Waits
    else if exists c :: c in required && c in m && Red(m[c]) then Fails
    else if forall c :: c in required ==> c in m && m[c].Success? then Passes
    else Waits
  }

  /** `statuses` is a listing of the stored rows, in whatever order the store
      returns them. */
  ghost predicate Listing(statuses: seq<CheckStatus>, m: Standing) {
    && (forall s :: s in statuses ==> s.context in m && m[s.context] == s.state)
    && (forall c :: c in m ==> exists s :: s in statuses && s.context == c)
  }

  /** The verdict does not depend on the order in which the store lists the rows. */
  lemma ListingVerdict(statuses: seq<CheckStatus>, m: Standing, required: seq<string>)
    requires Listing(statuses, m)
    ensures RulingOf(Evaluate(statuses, required)) == Judge(m, required)
  {
    forall c
      ensures Last(statuses, c).Some? <==> c in m
      ensures c in m ==> Last(statuses, c).value.state == m[c]
    {
      if c in m {
        var s :| s in statuses && s.context == c;
      }
    }
    if required == [] {
      if exists c :: c in m && m[c].Success? {
        var c :| c in m && m[c].Success?;
        var s :| s in statuses && s.context == c;
      } else if exists c :: c in m && Red(m[c]) {
        var c :| c in m && Red(m[c]);
        var s :| s in statuses && s.context == c;
      }
    } else {
      assert forall c :: RedFor(statuses, c) <==> c in m && Red(m[c]);
      assert forall c :: GreenFor(statuses, c) <==> c in m && m[c].Success?;
    }
  }

  // ----- feeding one snapshot of a commit's checks --------------------------

  function Record(m: Standing, checks: seq<CheckStatus>): (r: Standing)
    decreases |checks|
  {
    if checks == [] then m else Record(m[checks[0].context := checks[0].state], checks[1..])
  }

  /** Save one result, judge, and go on to the next while there is no verdict. */
  function Feed(m: Standing, checks: seq<CheckStatus>, required: seq<string>): (r: Ruling)
    decreases |checks|
  {
    if checks == [] then Waits
    else
      var m' := m[checks[0].context := checks[0].state];
      if Judge(m', required).Waits? then Feed(m', checks[1..], required) else Judge(m', required)
  }

  /** The snapshot comes from a map keyed by context. */
  ghost predicate Distinct(checks: seq<CheckStatus>) {
    forall i, j :: 0 <= i < j < |checks| ==> checks[i].context != checks[j].context
  }

  lemma {:induction false} RecordOther(m: Standing, checks: seq<CheckStatus>, c: string)
    requires forall s :: s in checks ==> s.context != c
    ensures c in Record(m, checks) <==> c in m
    ensures c in m ==> Record(m, checks)[c] == m[c]
    decreases |checks|
  {
    if checks != [] {
      RecordOther(m[checks[0].context := checks[0].state], checks[1..], c);
    }
  }

  lemma {:induction false} RecordMember(m: Standing, checks: seq<CheckStatus>, i: nat)
    requires Distinct(checks) && i < |checks|
    ensures checks[i].context in Record(m, checks) && Record(m, checks)[checks[i].context] == checks[i].state
    decreases |checks|
  {
    var rest, m' := checks[1..], m[checks[0].context := checks[0].state];
    if i == 0 {
      RecordOther(m', rest, checks[0].context);
    } else {
      RecordMember(m', rest, i - 1);
    }
  }

  lemma RecordKeeps(m: Standing, checks: seq<CheckStatus>)
    requires Distinct(checks)
    requires forall s :: s in checks ==> s.context !in m
    ensures forall c :: c in Record(m, checks) <==> c in m || exists s :: s in checks && s.context == c
    ensures forall c :: c in m ==> Record(m, checks)[c] == m[c]
    ensures forall s :: s in checks ==> Record(m, checks)[s.context] == s.state
  {
    forall i | 0 <= i < |checks|
      ensures checks[i].context in Record(m, checks) && Record(m, checks)[checks[i].context] == checks[i].state
    {
      RecordMember(m, checks, i);
    }
    forall c | forall s :: s in checks ==> s.context != c
      ensures c in Record(m, checks) <==> c in m
      ensures c in m ==> Record(m, checks)[c] == m[c]
    {
      RecordOther(m, checks, c);
    }
  }

  /** Stopping at the first verdict loses nothing: it is the verdict on the
      complete snapshot. */
  lemma {:induction false} FeedIsJudge(m: Standing, checks: seq<CheckStatus>, required: seq<string>)
    requires required != [] && Distinct(checks)
    requires forall s :: s in checks ==> s.context !in m
    requires Judge(m, required).Waits?
    ensures Feed(m, checks, required) == Judge(Record(m, checks), required)
    decreases |checks|
  {
    if checks != [] {
      var rest := checks[1..];
      var m' := m[checks[0].context := checks[0].state];
      assert forall i :: 0 <= i < |rest| ==> rest[i] == checks[i + 1];
      if Judge(m', required).Waits? {
        FeedIsJudge(m', rest, required);
      } else {
        RecordKeeps(m', rest);
      }
    }
  }

  /** With required checks, one poll from an empty ledger gives a verdict that
      depends only on the set of results: pass iff every required check
      succeeded, fail iff some required one failed, else wait. */
  lemma PollVerdict(checks: seq<CheckStatus>, required: seq<string>)
    requires required != [] && Distinct(checks)
    ensures Feed(map[], checks, required).Passes? <==>
            forall c :: c in required ==> exists s :: s in checks && s.context == c && s.state.Success?
    ensures Feed(map[], checks, required).Fails? <==>
            exists s :: s in checks && s.context in required && Red(s.state)
  {
    var m := Record(map[], checks);
    assert required[0] in required;
    FeedIsJudge(map[], checks, required);
    RecordKeeps(map[], checks);
    forall s, t | s in checks && t in checks && s.context == t.context
      ensures s == t
    {
      var i :| 0 <= i < |checks| && checks[i] == s;
      var j :| 0 <= j < |checks| && checks[j] == t;
    }
    if exists s :: s in checks && s.context in required && Red(s.state) {
      var s :| s in checks && s.context in required && Red(s.state);
      assert s.context in m && Red(m[s.context]);
      assert forall t :: t in checks && t.context == s.context ==> !t.state.Success?;
    }
  }

  lemma PollOrderIrrelevant(checks: seq<CheckStatus>, shuffled: seq<CheckStatus>, required: seq<string>)
    requires required != [] && Distinct(checks) && Distinct(shuffled)
    requires multiset(checks) == multiset(shuffled)
    ensures Feed(map[], checks, required) == Feed(map[], shuffled, required)
  {
    assert forall s :: s in checks <==> s in multiset(checks);
    assert forall s :: s in shuffled <==> s in multiset(shuffled);
    assert forall s :: s in checks <==> s in shuffled;
    PollVerdict(checks, required);
    PollVerdict(shuffled, required);
  }

  // Without required checks the first decisive result of the poll wins, so the
  // iteration order of the snapshot map can change the outcome.

  lemma {:induction false} FeedAny(m: Standing, checks: seq<CheckStatus>)
    requires Judge(m, []).Waits?
    requires forall s :: s in checks ==> s.context !in m
    requires Distinct(checks)
    ensures Feed(m, checks, []).Waits? <==> forall s :: s in checks ==> s.state.Pending?
    ensures (forall s :: s in checks ==> !Red(s.state)) ==> !Feed(m, checks, []).Fails?
    ensures (forall s :: s in checks ==> !s.state.Success?) ==> !Feed(m, checks, []).Passes?
    ensures checks != [] && checks[0].state.Success? ==> Feed(m, checks, []).Passes?
    ensures checks != [] && Red(checks[0].state) ==> Feed(m, checks, []).Fails?
    decreases |checks|
  {
    if checks != [] {
      var rest := checks[1..];
      var m' := m[checks[0].context := checks[0].state];
      assert forall i :: 0 <= i < |rest| ==> rest[i] == checks[i + 1];
      assert checks == [checks[0]] + rest;
      assert checks[0].context in m';
      forall c | c in m && c != checks[0].context
        ensures c in m' && m'[c] == m[c] && !m[c].Success? && !Red(m[c])
      {
      }
      if Judge(m', []).Waits? {
        FeedAny(m', rest);
      }
    }
  }

  function ToFront(checks: seq<CheckStatus>, i: nat): (r: seq<CheckStatus>)
    requires i < |checks|
  {
    [checks[i]] + checks[..i] + checks[i + 1..]
  }

  lemma ToFrontShuffles(checks: seq<CheckStatus>, i: nat)
    requires i < |checks| && Distinct(checks)
    ensures multiset(ToFront(checks, i)) == multiset(checks) && Distinct(ToFront(checks, i))
  {
    assert checks == checks[..i] + [checks[i]] + checks[i + 1..];
    var r := ToFront(checks, i);
    forall a, b | 0 <= a < b < |r|
      ensures r[a].context != r[b].context
    {
      var a' := if a == 0 then i else if a <= i then a - 1 else a;
      var b' := if b <= i then b - 1 else b;
      assert r[a] == checks[a'] && r[b] == checks[b'] && a' != b';
    }
  }

  predicate Mixed(checks: seq<CheckStatus>) {
    (exists s :: s in checks && s.state.Success?) && (exists s :: s in checks && Red(s.state))
  }

  ghost predicate SameInAnyOrder(checks: seq<CheckStatus>) {
    forall t :: Distinct(t) && multiset(t) == multiset(checks) ==> Feed(map[], t, []) == Feed(map[], checks, [])
  }

  lemma MixedDiffers(checks: seq<CheckStatus>)
    requires Distinct(checks) && Mixed(checks)
    ensures !SameInAnyOrder(checks)
  {
    var i :| 0 <= i < |checks| && checks[i].state.Success?;
    var j :| 0 <= j < |checks| && Red(checks[j].state);
    ToFrontShuffles(checks, i);
    ToFrontShuffles(checks, j);
    FeedAny(map[], ToFront(checks, i));
    FeedAny(map[], ToFront(checks, j));
    assert Feed(map[], ToFront(checks, i), []) != Feed(map[], ToFront(checks, j), []);
  }

  lemma PlainAgrees(checks: seq<CheckStatus>, shuffled: seq<CheckStatus>)
    requires Distinct(checks) && Distinct(shuffled) && multiset(checks) == multiset(shuffled) && !Mixed(checks)
    ensures Feed(map[], shuffled, []) == Feed(map[], checks, [])
  {
    assert forall s :: s in shuffled <==> s in multiset(shuffled);
    assert forall s :: s in checks <==> s in multiset(checks);
    assert forall s :: s in shuffled <==> s in checks;
    FeedAny(map[], checks);
    FeedAny(map[], shuffled);
  }

  /** Order independence without required checks holds exactly when the
      snapshot does not contain both a success and a failure. */
  lemma AnyCheckOrder(checks: seq<CheckStatus>)
    requires Distinct(checks)
    ensures SameInAnyOrder(checks) <==> !Mixed(checks)
  {
    if Mixed(checks) {
      MixedDiffers(checks);
    } else {
      forall t | Distinct(t) && multiset(t) == multiset(checks)
        ensures Feed(map[], t, []) == Feed(map[], checks, [])
      {
        PlainAgrees(checks, t);
      }
    }
  }
}
