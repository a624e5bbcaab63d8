/** The batch engine of one target branch as a state machine on values: the
    queue rows, the batch rows and the branch tip, and one function per
    operation of internal/batch/batch.go and internal/batch/monitor.go. The
    classes in Engine.dfy are proved to compute these functions; the properties
    are proved about them. */
module Model {
  import opened Lists
  import opened Commits
  import opened Checks
  import opened Stacking

  /** A queue row's primary key. Keys grow with every insert, so the order of
      keys is the order of enqueueing. */
  type Id = nat

  const MAX_FF_RETRIES := 3

  /** FormBatch's stand-in for "no limit". */
  const EVERYTHING := 0x4000_0000

  datatype Phase = Forming | Testing | Done

  /** One batch row. The last three fields are not stored by the program: the
      tip the last build started from, and counts of splits and of rebuilds
      that no split paid for. */
  datatype Batch = Batch(
    phase: Phase,
    members: seq<Id>,
    current: seq<Id>,
    pending: seq<seq<Id>>,
    landed: seq<Id>,
    ejected: seq<Id>,
    sha: Option<Commit>,
    builds: nat,
    ffRetries: nat,
    flaky: bool,
    base: Commit,
    splits: nat,
    extra: nat)
  {
    predicate Live() { !phase.Done? }

    /** On the branch under test, or waiting on the stack. */
    predicate InPlay(id: Id) { id in current || id in Upcoming(pending) }

    /** Everything the row still knows about, in landing order. */
    function Line(): seq<Id> { landed + current + Upcoming(pending) }

    /** Everything the row accounts for, with multiplicity. */
    function Account(): multiset<Id> {
      multiset(landed) + multiset(current) + multiset(Upcoming(pending)) + multiset(ejected)
    }

    function Narrow(kept: seq<Id>, lost: seq<Id>): Batch {
      this.(current := kept, ejected := ejected + lost)
    }

    function Built(tip: Commit, onto: Commit): Batch {
      this.(phase := Testing, sha := Some(tip), builds := builds + 1, base := onto)
    }

    function Land(): Batch {
      this.(landed := landed + current, current := [], ffRetries := 0)
    }

    function Race(): Batch { this.(ffRetries := ffRetries + 1) }

    function Rebuilding(): Batch {
      this.(phase := Forming, extra := if phase.Testing? then extra + 1 else extra)
    }

    function Split(): Batch {
      var mid := |current| / 2;
      this.(phase := Forming, current := current[..mid], pending := pending + [current[mid..]], splits := splits + 1)
    }

    function Pop(): Batch
      requires pending != []
    {
      this.(phase := Forming, current := pending[|pending| - 1], pending := pending[..|pending| - 1])
    }

    function Finish(): Batch {
      this.(phase := Done, current := [],
            flaky := |ejected| == 0 && builds > 1 && |landed| == |members|)
    }

    /** Everybody left goes to current, the stack read from its bottom. */
    function Drain(): Batch { this.(current := current + Concat(pending), pending := []) }

    /** OnMemberRemoved's bookkeeping: gone from current and stack, and noted
        as ejected whether or not it was there. */
    function Discard(id: Id): Batch {
      this.(current := Without(current, id), pending := Trim(pending, id), ejected := ejected + [id])
    }
  }

  function NewBatch(members: seq<Id>, onto: Commit): Batch {
    Batch(Forming, members, members, [], [], [], None, 0, 0, false, onto, 0, 0)
  }

  datatype RowState = Queued | InTesting | Succeeded

  /** One stored check result. The commit it was reported on and the build of
      the batch during which it was stored are not columns of the table. */
  datatype Result = Result(state: CheckState, on: Commit, build: nat)

  datatype Row = Row(state: RowState, sha: Option<Commit>, batch: Option<nat>, checks: map<string, Result>)

  type Rows = map<Id, Row>

  /** `next` is the key of the next row; batch ids are positions in `batches`. */
  datatype State = State(target: Commit, next: Id, rows: Rows, batches: seq<Batch>)

  /** What does not change while the program runs. A row's head commit is fixed
      when the row is inserted. */
  datatype Config = Config(batchMax: int, bisectMax: int, noop: bool, head: Id -> Commit)

  /** The forge's side of one engine step. A step builds at most once for each
      height of the pending stack, so answers are indexed by that height:
      a commit an outsider tries to push just before the build, whether the
      build fails as a whole, and the answer to each merge. */
  datatype World = World(
    drift: nat -> Commit,
    broken: nat -> bool,
    merge: nat -> Oracle)

  /** The answer to the fast-forward, when ancestry does not decide it. */
  datatype Push = Reach | Denied | Unavailable

  function Heads(c: Config, ids: seq<Id>): (r: seq<Commit>)
    ensures |r| == |ids|
  {
    if ids == [] then [] else Heads(c, ids[..|ids| - 1]) + [c.head(ids[|ids| - 1])]
  }

  // ----- queue rows ---------------------------------------------------------

  /** GetEntriesByIDs: the ids that still have a row, in the order asked for. */
  function Existing(rows: Rows, ids: seq<Id>): (r: seq<Id>)
  {
    if ids == [] then []
    else
      var n := |ids| - 1;
      if ids[n] in rows then Existing(rows, ids[..n]) + [ids[n]] else Existing(rows, ids[..n])
  }

  function Dequeued(rows: Rows, ids: seq<Id>): Rows {
    map i | i in rows && i !in ids :: rows[i]
  }

  /** SetMergeBranch on each id, then ClearCheckStatuses on all of them. */
  function Routed(rows: Rows, ids: seq<Id>, sha: Commit): Rows {
    map i | i in rows :: if i in ids then rows[i].(sha := Some(sha), checks := map[]) else rows[i]
  }

  function Stamped(rows: Rows, ids: seq<Id>, sha: Commit): Rows {
    map i | i in rows :: if i in ids then rows[i].(sha := Some(sha)) else rows[i]
  }

  function Unrouted(rows: Rows, ids: seq<Id>): Rows {
    map i | i in rows :: if i in ids then rows[i].(sha := None) else rows[i]
  }

  function Claimed(rows: Rows, ids: seq<Id>, k: nat): Rows {
    map i | i in rows :: if i in ids then rows[i].(state := InTesting, batch := Some(k)) else rows[i]
  }

  /** The first `max` queued rows, oldest first. */
  function QueuedHead(rows: Rows, upTo: Id, max: nat): (r: seq<Id>)
  {
    if upTo == 0 then []
    else
      var r := QueuedHead(rows, upTo - 1, max);
      if |r| < max && upTo - 1 in rows && rows[upTo - 1].state.Queued? then r + [upTo - 1] else r
  }

  function Put(s: State, k: nat, b: Batch): (r: State)
    requires k < |s.batches|
    ensures |r.batches| == |s.batches| && r.batches[k] == b
  {
    s.(batches := s.batches[k := b])
  }

  // ----- building and the stack ---------------------------------------------

  /** Remove rows for good and note the change on the batch row. */
  function Eject(s: State, k: nat, kept: seq<Id>, lost: seq<Id>): State
    requires k < |s.batches|
  {
    Put(s, k, s.batches[k].Narrow(kept, lost)).(rows := Dequeued(s.rows, lost))
  }

  function Install(s: State, k: nat, tip: Commit): State
    requires k < |s.batches|
  {
    Put(s, k, s.batches[k].Built(tip, s.target)).(rows := Routed(s.rows, s.batches[k].current, tip))
  }

  /** The tip a build starts from. */
  function Onto(w: World, s: State, k: nat): Commit
    requires k < |s.batches|
  {
    Outside(s.target, w.drift(|s.batches[k].pending|))
  }

  /** Merging the heads of the members that still have a row. */
  function Merges(c: Config, w: World, s: State, k: nat): (r: Steps)
    requires k < |s.batches|
    ensures |r.answers| == |Existing(s.rows, s.batches[k].current)|
  {
    var b := s.batches[k];
    Stacked(c.noop, Onto(w, s, k), Heads(c, Existing(s.rows, b.current)), w.merge(|b.pending|))
  }

  /** The members that did not merge are ejected. */
  function Weeded(c: Config, w: World, s: State, k: nat): State
    requires k < |s.batches|
  {
    var entries := Existing(s.rows, s.batches[k].current);
    var answers := Merges(c, w, s, k).answers;
    Eject(s.(target := Onto(w, s, k)), k, Pick(entries, answers, true), Pick(entries, answers, false))
  }

  /** Build: merge the current members' heads onto the tip, eject those that do
      not merge, and go on to the stack when nobody is left. */
  function Build(c: Config, w: World, s: State, k: nat): (r: State)
    requires k < |s.batches|
    ensures |r.batches| == |s.batches|
    decreases |s.batches[k].pending|, 1
  {
    if w.broken(|s.batches[k].pending|) then s.(target := Onto(w, s, k))
    else
      var s1 := Weeded(c, w, s, k);
      if s1.batches[k].current == [] then Next(c, w, s1, k)
      else Install(s1, k, Merges(c, w, s, k).tip)
  }

  /** next: pop the stack and rebuild, or finish. */
  function Next(c: Config, w: World, s: State, k: nat): (r: State)
    requires k < |s.batches|
    ensures |r.batches| == |s.batches|
    decreases |s.batches[k].pending|, 0
  {
    var b := s.batches[k];
    if b.pending != [] then Build(c, w, Put(s, k, b.Pop()), k)
    else Put(s, k, b.Finish())
  }

  // ----- verdicts -----------------------------------------------------------

  function LandCurrent(s: State, k: nat, sha: Commit): State
    requires k < |s.batches|
  {
    var b := s.batches[k];
    Put(s, k, b.Land()).(target := sha, rows := Dequeued(s.rows, b.current))
  }

  /** ejectCurrent on whatever is in current. */
  function EjectCurrent(s: State, k: nat): State
    requires k < |s.batches|
  {
    Eject(s, k, [], Existing(s.rows, s.batches[k].current))
  }

  function HandlePass(c: Config, w: World, push: Push, s: State, k: nat): (r: State)
    requires k < |s.batches|
    ensures |r.batches| == |s.batches|
  {
    var b := s.batches[k];
    if !b.phase.Testing? || b.sha.None? then s
    else match push
      case Unavailable => s
      case Denied => Next(c, w, EjectCurrent(s, k), k)
      case Reach =>
        if IsAncestor(s.target, b.sha.value) then
          Next(c, w, LandCurrent(s, k, b.sha.value), k)
        else
          var s1 := Put(s, k, b.Race());
          if b.ffRetries + 1 < MAX_FF_RETRIES then Build(c, w, Put(s1, k, b.Race().Rebuilding()), k)
          else Next(c, w, EjectCurrent(s1, k), k)
  }

  predicate Capped(c: Config, b: Batch) { c.bisectMax > 0 && b.builds >= c.bisectMax }

  function HandleFail(c: Config, w: World, s: State, k: nat): (r: State)
    requires k < |s.batches|
    ensures |r.batches| == |s.batches|
  {
    var b := s.batches[k];
    if !b.phase.Testing? then s
    else if |b.current| == 1 then Next(c, w, EjectCurrent(s, k), k)
    else if Capped(c, b) then Next(c, w, EjectCurrent(Put(s, k, b.Drain()), k), k)
    else
      Build(c, w, Put(s, k, b.Split()).(rows := Unrouted(s.rows, b.current[|b.current| / 2..])), k)
  }

  // ----- entry points -------------------------------------------------------

  /** A queue row as some caller read it, at whatever time. */
  datatype Snapshot = Snapshot(id: Id, batch: nat, sha: Option<Commit>)

  datatype Event =
    | Enqueue
    | Promote
    | FormAndBuild(w: World)
    | Check(snap: Snapshot, context: string, state: CheckState, required: Option<seq<string>>,
            timedOut: bool, push: Push, w: World)
    | Timeout(batch: nat, elapsed: bool, w: World)
    | Remove(id: Id, snapBatch: Option<nat>, w: World)
    | Reconcile(w: World)
    | OutsidePush(commit: Commit)

  /** The live batch, if any: batch ids are handed out one at a time and a new
      batch is formed only when no live one exists. */
  predicate HasLive(s: State) {
    s.batches != [] && s.batches[|s.batches| - 1].Live()
  }

  function Limit(c: Config): nat { if c.batchMax <= 0 then EVERYTHING else c.batchMax }

  function OnForm(c: Config, w: World, s: State): State {
    if HasLive(s) then
      var k := |s.batches| - 1;
      if s.batches[k].phase.Forming? then Build(c, w, s, k) else s
    else
      var ids := QueuedHead(s.rows, s.next, Limit(c));
      if ids == [] then s
      else
        var k := |s.batches|;
        Build(c, w, s.(rows := Claimed(s.rows, ids, k), batches := s.batches + [NewBatch(ids, s.target)]), k)
  }

  function Standings(checks: map<string, Result>): Standing {
    map x | x in checks :: checks[x].state
  }

  function Saved(s: State, id: Id, context: string, result: Result): State
    requires id in s.rows
  {
    s.(rows := s.rows[id := s.rows[id].(checks := s.rows[id].checks[context := result])])
  }

  /** HandleCheck's guard: the event concerns the commit now under test. */
  predicate Fresh(s: State, snap: Snapshot) {
    && snap.batch < |s.batches|
    && s.batches[snap.batch].phase.Testing?
    && snap.sha.Some? && snap.sha == s.batches[snap.batch].sha
    && snap.id in s.rows
  }

  function OnCheck(c: Config, s: State, snap: Snapshot, context: string, state: CheckState,
                   required: Option<seq<string>>, timedOut: bool, push: Push, w: World): State
  {
    if !Fresh(s, snap) then s
    else
      var s1 := Saved(s, snap.id, context, Result(state, snap.sha.value, s.batches[snap.batch].builds));
      if required.None? then s1
      else match Judge(Standings(s1.rows[snap.id].checks), required.value)
        case Passes => HandlePass(c, w, push, s1, snap.batch)
        case Fails => HandleFail(c, w, s1, snap.batch)
        case Waits => if timedOut then HandleFail(c, w, s1, snap.batch) else s1
  }

  function OnMemberRemoved(c: Config, w: World, s: State, k: nat, id: Id): State {
    if k >= |s.batches| || !s.batches[k].Live() then s
    else
      var b := s.batches[k];
      var s1 := Put(s, k, b.Discard(id));
      if id !in b.current then s1
      else if Without(b.current, id) == [] then Next(c, w, s1, k)
      else Build(c, w, Put(s1, k, b.Discard(id).Rebuilding()), k)
  }

  /** The poller drops the row, then tells the engine about the batch the row
      belonged to; if the row is gone already, about the batch it remembers. */
  function OnRemove(c: Config, w: World, s: State, id: Id, snapBatch: Option<nat>): State {
    var batch := if id in s.rows then s.rows[id].batch else snapBatch;
    var s1 := s.(rows := Dequeued(s.rows, [id]));
    if batch.None? then s1 else OnMemberRemoved(c, w, s1, batch.value, id)
  }

  function OnReconcile(c: Config, w: World, s: State): State {
    if !HasLive(s) then s
    else
      var k := |s.batches| - 1;
      var b := s.batches[k];
      if b.phase.Forming? then Build(c, w, s, k)
      else if b.sha.None? then s
      else s.(rows := Stamped(s.rows, b.current, b.sha.value))
  }

  predicate IsHead(rows: Rows, id: Id) { id in rows && forall j :: j in rows ==> id <= j }

  /** tryFastForwardSuccess on a queued head row. */
  function OnPromote(s: State): State {
    s.(rows := map i | i in s.rows ::
        if s.rows[i].state.Queued? && IsHead(s.rows, i) then s.rows[i].(state := Succeeded) else s.rows[i])
  }

  function Step(c: Config, s: State, e: Event): State {
    match e
    case Enqueue => s.(next := s.next + 1, rows := s.rows[s.next := Row(Queued, None, None, map[])])
    case Promote => OnPromote(s)
    case FormAndBuild(w) => OnForm(c, w, s)
    case Check(snap, context, state, required, timedOut, push, w) =>
      OnCheck(c, s, snap, context, state, required, timedOut, push, w)
    case Timeout(k, elapsed, w) =>
      if k < |s.batches| && elapsed then HandleFail(c, w, s, k) else s
    case Remove(id, snapBatch, w) => OnRemove(c, w, s, id, snapBatch)
    case Reconcile(w) => OnReconcile(c, w, s)
    case OutsidePush(commit) => s.(target := Outside(s.target, commit))
  }

  function Initial(tip: Commit): State { State(tip, 0, map[], []) }

  /** The state after a whole run. */
  function Run(c: Config, s: State, events: seq<Event>): (r: State)
  {
    if events == [] then s
    else Step(c, Run(c, s, events[..|events| - 1]), events[|events| - 1])
  }
}
