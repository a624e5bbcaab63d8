# The batch engine of gitea-mq, modelled and proved in Dafny

gitea-mq is a merge queue for Gitea, Forgejo and GitHub. With batching on, it
builds one merge branch from several queued PRs, fast-forwards the target branch
to it when CI is green, and bisects on a stack when CI is red. This project
models that engine (`internal/batch`) together with the queue rows, the check
ledger and the git refs it drives, and proves what the engine promises over
every run against an adversarial environment: arbitrary CI verdicts, late and
repeated events, snapshots of any age, pushes by others, removed PRs, merge
conflicts, failing forge calls and crashes.

Run `dafny verify dfyconfig.toml` here to check everything.

## How it is organised

| file | contents |
|---|---|
| `Lists.dfy`, `Commits.dfy` | order-preserving sublists and the pending stack; commits as terms, ancestry, the fold of merges |
| `Checks.dfy` | the verdict on check results, the dashboard's list, the order of a poll |
| `Stacking.dfy`, `Forges.dfy` | merging a list of heads; the one-clone stack and the ref-by-ref stack as classes, and their comparison |
| `Model.dfy` | the engine of one target branch as a state machine on values: one function per operation, `Step`, `Run` |
| `Engine.dfy` | the engine as it runs: a store written one statement at a time, batch rows changed in place; every method is proved to compute its function of `Model.dfy`, so every theorem about `Run` is one about `Engine.Serve` |
| `Invariants.dfy`, `Transitions.dfy` | the invariant of all reachable states, and that every operation keeps it |
| `Guarantees.dfy`, `Landing.dfy`, `Bounds.dfy`, `Races.dfy`, `Routing.dfy` | the properties of whole runs |
| `Identity.dfy` | when two builds make the same commit, and why no row is mistaken then |
| `Cap.dfy` | exactly when a batch stays within the configured number of builds |
| `Polling.dfy` | one poll as a sequence of events, and that it does what feeding the snapshot rules |
| `Witnesses.dfy` | concrete runs from the initial state |
| `Bisection.dfy` | the stack loop refines recursive bisection, and its cost |
| `Recovery.dfy` | crashes between two writes: the states they leave, and routing after reconciling |
| `Aftermath.dfy` | life after a crash: what every step keeps, who is accounted for, exactly how a member is lost track of, and when only a timeout can end a batch |
| `Causes.dfy` | what every event does to target, batches and queue, written out without the functions that compute it; why a member is ejected; builds that fail as a whole |
| `Rows.dfy` | the life of a queue row: who may skip testing, which batch takes it, and that a row taken out stays away |
| `Pending.dfy` | in-place removal from the pending stack, over arrays |
| `Legacy.dfy` | the queue with batching off |

A commit is a term: a root, a push on top of a commit, or a merge of two
commits. Commits are compared by content, so two builds that merge the same heads
onto the same tip make the same commit, as the right half does when it is built
again on its landed left half. The forges' commits also carry times, so the model
lets through a few results that a forge would file under another commit; what is
proved holds all the same, and each stored result also records the number of the
build it belongs to. One step of the state machine is one entry point holding the branch's
lock. The forge's answers during a step are a `World` parameter: what outsiders
push before each build, which builds fail as a whole, and the answer to each
merge. Three fields of a batch row (`base`, `splits`, `extra`) and two of a stored
result (`on`, `build`) are not stored by the program; they record the tip the last
build started from, the number of splits, the rebuilds that no split paid for, and
the commit and build a result was stored for.

## Findings

- `OnMemberRemoved` appends the id to `ejected_ids` even when the member is no
  longer in play (`internal/batch/batch.go:356-358`). The accounting stays exact if
  and only if the member is still current or waiting (`Guarantees.RemovalExactIff`).
  One poll can cause it: it finds the first two PRs of a batch of three closed, the
  removal of the first builds the rest again, the second conflicts there and is
  ejected, and then the poll reaches the second in the list it read before
  (`Witnesses.LateRemovalCountsTwice`). As sets the design's invariant holds in
  every run in which a removal is only reported to a batch the row belonged to
  (`Guarantees.MembersInvariant`).
- The configured maximum of bisection builds is documented as the maximum of
  builds per batch (`openspec/changes/batch-merge-queue/design.md:193`). It is
  tested only when a build of several members fails.
  `Witnesses.CapIsNoLimit` is a run of five events that makes three builds with a
  cap of two. A batch stays within its cap if and only if no event meets it at the
  cap with something to build: a landing or an ejection with a slice waiting, a
  retry after a race, a removal from the branch that leaves somebody current or
  waiting, or a forming batch to be built again
  (`Cap.CapKeptIff` for runs, `Cap.CapExceededIff` for steps). Whatever happens,
  there are at most 2K-1 builds plus rebuilds after races and removals
  (`Bounds.CapBound`, `Bounds.CapBoundUndisrupted`).
- With an empty list of required checks the order in which a poll feeds its
  results decides the verdict exactly when the snapshot holds both a success and
  a failure (`Checks.AnyCheckOrder`). With required checks it never does
  (`Polling.PollsAgree`).
- Merging through GitHub's endpoint leaves the branch alone when a head is
  contained already; merging in Gitea's clone makes a commit. The two forms give
  the same tip exactly when that never happens (`Forges.StacksAgree`); two heads
  on which they differ are in `Forges.ContainedHeadDiffers`.
- The fast-forward retry counter is reset by a landing but not when a slice is
  ejected (`internal/batch/batch.go:252-255`), so after giving up once, the next
  race of the same batch ejects at once (`Races.GivesUpAfterThree`). In the run of
  `Witnesses.RacesOutliveEjection` three races eject the left half, and the first
  race of the right half ejects it too.
- Queue rows are taken out before the batch row is saved, when members are ejected
  (`internal/batch/batch.go:172-193`, `:287-299`), when they land (`:261-278`), and
  when the poller removes one (`internal/poller/poller.go:383-391`). A crash in
  between leaves a member in play for the stored batch whose row is gone, under
  test or waiting, in a forming or a testing batch. Reconciling does not repair
  that. Such a member is noted as landed if its slice is under test and is pushed,
  noted as ejected if its removal is reported, and lost track of by every other
  step that merges, ejects or drops its slice (`Aftermath.AdriftFate`); for the
  step of reconciling this is `Aftermath.ForgottenIff`. A member whose row was
  still there stays accounted for through every later run (`Aftermath.SafeForever`).
  Crashes that lose a member under test, one that has landed, one that waits and one
  of a forming batch are `Witnesses.CrashLosesTested`, `CrashLosesLanded`,
  `CrashLosesWaiting` and `CrashLosesForming`.
- If such a crash takes out the rows of all members under test, no check result
  reaches the batch any more and no other batch is formed: its timeout is the only
  event that ends it (`Aftermath.OnlyTimeoutEnds`, `Aftermath.TimeoutMovesOn`), as
  after the crash of `Witnesses.CrashSilences`. The poller, which asks for the first
  member alone (`internal/poller/poller.go:215-222`), is silent already when that
  one's row is gone (`Aftermath.PollerFindsIff`), while the webhook still finds the
  others (`Aftermath.WebhookFindsIff`).
- The design describes `flaky` without the length test that the code has
  (`internal/batch/batch.go:467-470`); the code is followed. Both agree on every run
  without a crash (`Bounds.FlakyLandedAll`); the test decides only for a batch that
  lost track of a member (`Aftermath.FlakyUnlessLost`).

## Model

| member | source | states |
|---|---|---|
| Engine.Engine.Serve | internal/batch/batch.go:68-81 | any sequence of entry-point calls, each one step under the branch lock, is a run of the state machine, and every state of the tables in between is recoverable |
| Engine.Engine.Handle | internal/batch/batch.go:121-418 | each entry point computes exactly one step of the state machine |
| Engine.Engine.FormAndBuild | internal/batch/batch.go:121-141 | a live forming batch is built again, a live testing one is left alone, otherwise the queued head is formed into a batch and built |
| Engine.Engine.Build | internal/batch/batch.go:147-224 | stacks the current members' heads on the target tip, ejects those that do not merge, and installs the result or goes on to the stack; a failure as a whole leaves the row as saved; what the computed function does is `Causes.BuildEnds` |
| Engine.Engine.Install | internal/batch/batch.go:198-219 | the row is saved as testing before the members are routed, and their old results go last: in every state in between the new row is saved and no result is wiped; all of them are recoverable |
| Engine.Engine.Weed | internal/batch/batch.go:172-193 | exactly the members whose merge was not clean leave the queue and are noted as ejected, in order |
| Engine.Engine.Stack | internal/batch/batch.go:422-445 | both ways of stacking report the outcome of every head and the tip, leave the batch branch there and the target alone; an unreachable clone reports failure |
| Engine.Engine.HandlePass | internal/batch/batch.go:228-279 | landing, race with retry or ejection, refused push and unreachable forge, each with its full effect on tables and target |
| Engine.Engine.HandleFail | internal/batch/batch.go:283-327 | singleton ejection, cap with the stack drained, or split onto the stack, each with its full effect |
| Engine.Engine.HandleTimeout | internal/batch/batch.go:332-339 | a timeout of a testing batch is a failure of it, otherwise nothing happens |
| Engine.Engine.OnMemberRemoved | internal/batch/batch.go:345-366 | the member leaves current and stack; a rebuild, a pop or only a save follows, depending on where it was |
| Engine.Engine.Remove | internal/poller/poller.go:383-391 | taking the row out and reporting it to the batch the row belonged to, as one step; what the computed function does, a batch at work or not, is `Rows.RemovedIsGone` |
| Engine.Engine.ReconcileLive | internal/batch/batch.go:394-418 | a forming batch is built again; the rows of a testing one are stamped with its commit |
| Engine.Engine.Rebuild | internal/batch/batch.go:450-456 | the row is saved as forming before the build starts |
| Engine.Engine.Next | internal/batch/batch.go:459-484 | pops the top slice and builds it, or finishes the batch |
| Engine.Engine.EjectCurrent | internal/batch/batch.go:499-505 | every current member with a row leaves the queue and is noted as ejected |
| Engine.Engine.HandleCheck | internal/batch/monitor.go:15-49 | drops stale and foreign events before touching the ledger, then records, judges and acts |
| Engine.Engine.Promote | internal/poller/poller.go:490-549 | a queued head that is up to date skips testing, and nothing else changes; that it is the head alone is `Rows.PromoteIff` |
| Engine.Store.FormBatch | internal/queue/batch.go:17-60 | claims the oldest queued rows up to the limit for a new batch in one write; nothing when a batch is live or nobody is queued |
| Engine.Store.SaveBatch | internal/queue/batch.go:104-128 | overwrites the one row and nothing else; the tables stay recoverable if they are with the new row |
| Engine.Store.GetEntriesByIDs | internal/queue/batch.go:132-151 | the rows that exist, in the order of the ids asked for |
| Engine.Store.GetLiveBatch | internal/queue/batch.go:63-75 | finds the one live batch, if any |
| Engine.Store.ClearMergeBranch | internal/queue/batch.go:154-159 | only the given rows lose their commit |
| Engine.Store.ClearCheckStatuses | internal/queue/batch.go:164-169 | only the given rows lose their results |
| Engine.Store.TakeQueuedHead | internal/store/pg/query.sql:83-87 | the oldest rows in state queued, up to the limit |
| Engine.Engine.JudgeResults | internal/batch/monitor.go:29-38 | the verdict on the recorded results, whatever order the store lists them in |
| Transitions.QueuedHeadFacts | internal/store/pg/query.sql:83-87 | what is taken is queued, within the limit and in ascending order of age |
| Transitions.QueuedHeadOldest | internal/store/pg/query.sql:83-87 | a queued row is passed over only if the limit was reached by older ones |
| Engine.Restart | internal/batch/batch.go:390-418 | from the tables any crash can leave, reconciling restores the routing |
| Recovery.InvIsRecoverable | internal/batch/batch.go:447-456 | states between two steps are recoverable |
| Recovery.ReconcileRoutes | internal/batch/batch.go:390-418 | after reconciling any recoverable state, the rows carrying a commit are exactly the current members, and they carry the one under test |
| Recovery.BuildRecovers | internal/batch/batch.go:147-224 | a build from any recoverable state ends recoverable and rightly routed |
| Recovery.CrashStrandsNobody | internal/batch/batch.go:390-393 | at every moment of a crash, a row that names a batch names the live one and is in play there exactly once |
| Recovery.ReconcileAccounts | internal/batch/batch.go:390-418 | after reconciling, every member whose row the crash left is under test, waiting, or noted as ejected |
| Aftermath.StepRecovers | internal/batch/batch.go:121-418 | any event, from any tables a crash can leave, leads to such tables again |
| Aftermath.SafeForever | internal/batch/batch.go:172-299 | from any tables a crash can leave, and through any run, a member that is noted or whose row names the batch stays so |
| Aftermath.ForgottenIff | internal/batch/batch.go:390-418 | for every member in play with nothing on record, current or waiting, forming or testing: after reconciling it is accounted for if and only if its row was there, and lost track of if and only if it was not and the rebuild merges its slice |
| Aftermath.AdriftFate | internal/batch/batch.go:228-366 | exactly which events land, note, lose or leave a member whose row is gone, for every event and every answer of the forge |
| Aftermath.OnlyRowlessAreLost | internal/batch/batch.go:172-299 | a member in play at the crash that any later run loses track of had no row at the crash |
| Witnesses.CrashLosesTested | internal/batch/batch.go:287-299 | a crash in the ejection of a single member, after which the next timeout loses track of it, while the waiting member is kept |
| Witnesses.CrashLosesLanded | internal/batch/batch.go:261-278 | a crash after a push, after which a member whose head is on the target is noted nowhere |
| Witnesses.CrashLosesWaiting | internal/poller/poller.go:383-391 | a crash between taking out a waiting member's row and reporting it, after which the pop of its slice loses track of it |
| Witnesses.CrashLosesForming | internal/batch/batch.go:172-193 | a crash while a conflicting member is ejected, after which the rebuild loses track of it |
| Aftermath.RoutedOrSilent | internal/batch/batch.go:390-418 | after reconciling, a batch under test has a member whose row and commit pass the guard, or no member under test has a row |
| Aftermath.WebhookFindsIff | internal/webhook/handler.go:148-162 | the lookup ends at a member under test, and passes the guard, if and only if one of them has a row |
| Aftermath.PollerFindsIff | internal/poller/poller.go:215-222 | the poller finds a row to report with if and only if the first member under test has one |
| Aftermath.OnlyTimeoutEnds | internal/poller/poller.go:204-222 | with no row under test, the same build of the same members stays under test, nothing lands and no batch is formed through any run without its timeout |
| Aftermath.TimeoutMovesOn | internal/batch/batch.go:332-339 | its timeout ends that test, whatever rows are left |
| Witnesses.CrashSilences | internal/batch/batch.go:261-278 | a crash after a landing that leaves such a batch |
| Aftermath.FlakyUnlessLost | internal/batch/batch.go:467-472 | a batch that finishes is marked flaky if and only if it ejected nobody, took more than one build, and has lost track of nobody |
| Transitions.StepOk | internal/batch/batch.go:121-418 | every event keeps the invariant of good states, whatever the environment answers |
| Transitions.RunOk | internal/batch/batch.go:121-418 | every reachable state is good |
| Invariants.BuildOk | internal/batch/batch.go:147-224 | a build keeps the invariant, conserves the members, and does not raise the credit |
| Invariants.NextOk | internal/batch/batch.go:459-484 | a pop or a finish does the same |
| Transitions.PassOk | internal/batch/batch.go:228-279 | a green verdict keeps the invariant, conserves the members, and strictly lowers the credit unless the forge was unreachable |
| Transitions.FailOk | internal/batch/batch.go:283-327 | a red verdict does the same |
| Transitions.RowMustGo | internal/batch/batch.go:341-344 | a removal restores the ownership of rows if the row is gone, and breaks it if the row is still there |
| Transitions.RemoveOk | internal/batch/batch.go:345-366 | a removal keeps the invariant and strictly lowers the credit if the member was on the branch |
| Guarantees.NothingLost | internal/batch/batch.go:193-275 | in every batch of every reachable state landed, current and the stack from its top are a duplicate-free subsequence of the members, and everybody else was ejected |
| Guarantees.MembersInvariant | openspec/changes/batch-merge-queue/design.md:45 | as sets, current, waiting, landed and ejected together are the members, in every reachable state of a run whose removals are reported only to a batch the row belonged to |
| Guarantees.RemovalExactIff | internal/batch/batch.go:355-358 | a removal keeps every member accounted for exactly once if and only if the member is still in play |
| Witnesses.LateRemovalCountsTwice | internal/poller/poller.go:318-391 | a run of one poll with two removals, in which the second names an ejected PR a second time |
| Guarantees.Conserved | internal/batch/batch.go:228-327 | every event that is not a removal reported to the live batch conserves its members, with multiplicity |
| Guarantees.ExactAccounting | internal/batch/batch.go:228-366 | if every removal is reported while the member is in play, every member is accounted for exactly once in every state |
| Guarantees.LiveRowShape | internal/batch/batch.go:107-116 | a live row always has a current member and never an empty slice waiting |
| Guarantees.HistoryGrows | internal/forge/forge.go:217-220 | every tip of the target is an ancestor of every later one, landings are only appended, and a finished batch never changes |
| Guarantees.LandedStaysReachable | internal/batch/batch.go:228-279 | the head of a landed member stays reachable from the target for the rest of the run |
| Guarantees.CheckResult | internal/batch/monitor.go:15-49 | an event is dropped, or only recorded, or makes the engine act on the live batch, and then the credit falls |
| Landing.OnlyLandingMovesTarget | internal/batch/batch.go:228-233 | unless others push, a landing sets the target to the tested commit and no other event moves it |
| Landing.LandingIsFold | internal/batch/batch.go:147-233 | what is pushed is the fold of exactly the current members' heads on the tip their build started from, and exactly they land and leave the queue |
| Landing.TestedIsWhatLands | internal/batch/monitor.go:15-49 | for every landing of every run, with snapshots of any age, what is pushed is the fold of the current heads, and the results that decide are about that commit and that build, if builds are unambiguous |
| Landing.TestedInBuildLands | internal/batch/monitor.go:15-49 | the same with no condition on heads or builds, for snapshots of any age within the present build, as on a forge that never repeats a commit |
| Identity.BuildsAreUnambiguous | internal/batch/monitor.go:18-24 | in every run a row that once carried the commit under test, and still exists, is under test, if no batch has two members with the same head and no build ends with a head that was contained already |
| Identity.TestedAlwaysLands | internal/batch/monitor.go:15-49 | tested is what lands, for every landing of every run, from the two conditions on heads alone, of which a forge that always commits needs only the first |
| Witnesses.LeftLandsRightRebuilt | openspec/changes/batch-merge-queue/design.md:124-132 | a run in which the left half lands, the right half is rebuilt as the same commit that the pair was tested as, and lands, with unambiguous builds throughout |
| Landing.LedgerIsPure | internal/batch/batch.go:205-219 | in every state of a crash-free run, a member under test holds only results about the commit under test and stored during its present build |
| Landing.StaleOrRepeatedIsInert | internal/batch/monitor.go:18-28 | an event about a commit not under test changes nothing; one delivered twice acts once |
| Bounds.BuildBound | internal/batch/batch.go:236-254 | a batch of N members costs at most 2N-1 builds, two more for each landed member, and two |
| Bounds.StepCredit | internal/batch/batch.go:283-366 | each verdict and each removal from the branch strictly lowers the credit of the batch, and nothing raises it |
| Bounds.VerdictsBounded | internal/batch/batch.go:228-366 | a batch of N members absorbs at most 6N-3 verdicts and removals, and is done by then |
| Bounds.CapBound | internal/batch/batch.go:302-313 | with cap K there are fewer than K splits, and at most 2K-1 builds plus the extra rebuilds |
| Bounds.CapBoundUndisrupted | internal/batch/batch.go:302-313 | with cap K and neither races nor removals, at most 2K-1 builds |
| Cap.StepCounts | internal/batch/batch.go:147-327 | a step builds at most once, only if it has something to build, and exactly once then if the forge cooperates |
| Cap.CapExceededIff | internal/batch/batch.go:302-313 | a step exceeds the cap if and only if it meets the batch at the cap with something to build |
| Cap.CapKeptIff | openspec/changes/batch-merge-queue/design.md:193 | a batch stays within the cap over a run if and only if no event meets it at the cap with something to build |
| Witnesses.CapIsNoLimit | openspec/changes/batch-merge-queue/design.md:193 | a concrete run with three builds under a cap of two |
| Bounds.ExtraOnlyBy | internal/batch/batch.go:236-239 | only a race or a removal from the branch adds an extra rebuild |
| Bounds.FailSplits | internal/batch/batch.go:302-327 | a failure splits the slice if and only if it has several members and the number of builds is below the cap |
| Bounds.CapEndsBatch | internal/batch/batch.go:302-313 | when the cap fires, everybody current or waiting is ejected and the batch is done without another build |
| Bounds.FlakyLandedAll | internal/batch/batch.go:467-472 | in every run without a crash a finished batch is marked flaky if and only if it ejected nobody and took more than one build, and it has then landed exactly its members, in order |
| Races.StepRetries | internal/batch/batch.go:236-257 | the retry counter restarts at a landing, counts a refused fast-forward, and nothing else touches it |
| Races.RetriesAreStreak | internal/batch/batch.go:25-27 | in every state the counter is the number of refused fast-forwards since the batch last landed something |
| Races.GivesUpAfterThree | internal/batch/batch.go:236-255 | the first two refused fast-forwards in a row each cost a rebuild, from the third on the members under test are ejected |
| Witnesses.RacesOutliveEjection | internal/batch/batch.go:252-255 | a concrete run in which the first race of a slice ejects it, because three races ejected the slice before |
| Bisection.BisectSeparates | openspec/changes/batch-merge-queue/design.md:124-132 | recursive bisection lands the good members and ejects the bad ones, in order, and the tip is the fold of the good heads |
| Bisection.StackLoopIsBisection | internal/batch/batch.go:315-327 | the stack loop refines recursive bisection: fed CI's verdicts on the slice under test, it reaches the recursion's outcome and puts the next slice under test, for every cap that leaves room |
| Bisection.RoomEnough | internal/batch/batch.go:302-313 | a cap leaves room if it is at least the number of builds the bisection takes, less one |
| Bisection.OneVerdict | internal/batch/batch.go:228-327 | what one verdict does to row and target under a cooperating forge, unless the cap fires |
| Bisection.CostBound | openspec/changes/batch-merge-queue/design.md:144 | k culprits among n members cost at most 1 + 2k*ceil(log2 n) builds |
| Bisection.CeilLog2Meaning | openspec/changes/batch-merge-queue/design.md:144 | the logarithm used is the exponent of the smallest power of two that reaches n |
| Bisection.BisectionFindsCulprits | internal/batch/batch.go:228-327 | end to end: from forming to done, landed are the good members in queue order, ejected the bad ones, the target is the fold of the good heads, within the cost bound, for every cap that leaves room |
| Causes.StepEffect | internal/batch/batch.go:121-418 | the whole effect of every event on target, batches and queue rows, written out without the functions that compute it, in every state of a run and from any tables a crash can leave |
| Causes.BuildEnds | internal/batch/batch.go:147-224 | how every build ends: going down the stack, slices of which no head merges are ejected whole, until of one slice some heads merge and those are tested, or the forge fails as a whole and that slice stays as it was, or no slice is left and the batch is done |
| Causes.CauseOfEjection | internal/batch/batch.go:164-366 | whoever is newly noted as ejected was the only one of a red slice, in play when the cap fired, on a branch that could not be pushed for good or for the third time, reported as removed, or refused by the forge in a build that did not fail as a whole when its turn came |
| Causes.EjectedWhy | internal/batch/batch.go:164-366 | the same over whole runs: for every member noted as ejected there was such an event |
| Causes.LandedAndEjected | internal/batch/batch.go:228-366 | conversely, each of these verdicts and removals ejects; and a landing lands exactly the members under test, no other event lands anybody |
| Causes.WholeFailureKeeps | internal/batch/batch.go:164-168 | a forming batch whose build fails as a whole keeps its row, and the queue all its rows |
| Causes.WholeFailureForms | internal/batch/batch.go:134-168 | a new batch whose build fails as a whole is forming with everybody claimed under test, and no row is lost |
| Causes.FailedBuildIsRetried | internal/batch/batch.go:121-131 | without a crash, the next build that the forge cooperates with tests exactly the members of the failed one, and everybody in play has a row |
| Causes.NothingToRestore | internal/batch/batch.go:390-418 | without a crash, reconciling a batch under test changes nothing |
| Causes.DecisionIs | internal/batch/monitor.go:29-48 | the verdict in terms of what is on record for the row once the result is kept, check by check |
| Rows.PromoteIff | internal/poller/poller.go:490-502 | a row changes if and only if it is queued and no older row exists, it then becomes succeeded, and nothing else moves |
| Rows.SucceededIsOldest | internal/poller/poller.go:529-549 | in every reachable state a row that skipped testing is the oldest of the queue, and at most one did |
| Rows.RemovedIsGone | internal/poller/poller.go:383-391 | in every state, a batch at work or none, the removed row is gone, and rows not in play for the batch it is reported to stay as they were |
| Rows.RemovedStaysAway | internal/poller/poller.go:383-391 | over every run, a removed row never comes back, is in no batch formed later, and is landed by no batch that had not landed it before |
| Rows.TakesAll | internal/queue/batch.go:17-33 | without a maximum, everything queued is taken unless 2^30 rows are |
| Routing.NoStrandedEntries | internal/queue/batch.go:17-60 | at most one batch is live, the rows that name a batch are exactly its members in play, and no row names a finished batch |
| Routing.FindEntryForCommit | internal/webhook/handler.go:148-162 | the first row in list order that carries the commit, or none |
| Routing.InvRoutesRight | internal/batch/batch.go:205-213 | while testing, exactly the current members carry a commit, and it is the one under test |
| Routing.LookupFindsOldest | internal/webhook/handler.go:148-162 | the lookup over all branches ends at the oldest current member of the branch under test |
| Routing.WebhookAndPollerAgree | internal/poller/poller.go:215-223 | in all reachable states the webhook and the poller reach the engine through the same member, batch and commit, and the event passes the guard |
| Routing.RunInOrder | internal/store/pg/query.sql:83-87 | the members of every batch are in queue order |
| Pending.DeleteFunc | internal/batch/batch.go:111 | shrinking a slice in place keeps the other elements in order and clears the rest |
| Pending.Drop | internal/batch/batch.go:107-116 | compacting the stack over its own front, while its slices shrink, leaves each slice without the id and no empty slice |
| Lists.ConcatCat | internal/batch/batch.go:302-313 | the order in which the cap ejects: current first, then the stack from its bottom |
| Lists.TrimCat | internal/batch/batch.go:107-116 | every slice of the stack is trimmed by itself and stays in its place |
| Lists.TrimOne | internal/batch/batch.go:107-116 | a slice goes if it holds nobody else, and otherwise loses only the removed member |
| Lists.TrimUpcoming | internal/batch/batch.go:107-116 | what is left of the stack is, in order, what was waiting without the id |
| Stacking.StackedIsFold | internal/gitea/http.go:486-526 | the tip is the fold of exactly the heads that merged, however many conflict or fail before or between them |
| Causes.AnswerAt | internal/gitea/http.go:486-526 | each outcome is the forge's answer to that head on the tip that the heads before it made |
| Causes.PickMeaning | internal/batch/batch.go:172-193 | whose merge was clean stays, and whose was not goes |
| Stacking.PickSplits | internal/batch/batch.go:172-193 | every member either merges or is ejected |
| Forges.Clone.StackMerges | internal/gitea/http.go:486-526 | per-head outcomes and tip of the one-clone stack; no branch but the batch branch moves, and none if clone or push fails |
| Forges.Remote.Stack | internal/batch/batch.go:422-445 | the same outcomes and tip for the loop over create and merge calls, also when a prefix of the heads conflicts |
| Forges.Remote.CreateMergeBranch | internal/github/forge.go:165-205 | the branch is set to the base whatever it was, then one head is merged; no other branch moves |
| Forges.Remote.MergeInto | internal/github/forge.go:225-243 | merges into the branch; a contained head reports the present tip, a failure moves nothing |
| Forges.Remote.Merge | internal/github/forge.go:211-223 | the endpoint's four answers |
| Forges.Remote.FastForward | internal/github/forge.go:245-269 | the ref moves if and only if the new commit descends from the present one and the push is allowed; the present tip is never discarded |
| Forges.FormsAgreeIff | internal/github/forge.go:199-203 | the two forms fold to the same tip if and only if no head was contained already |
| Forges.StacksAgree | internal/gitea/http.go:486-526 | for every oracle that does not look at the tip, both forms report the same outcome for every head, and agree on the tip under that condition |
| Forges.StacksCoincide | internal/gitea/http.go:446-449 | for every oracle at all, the two runs coincide if nothing merged was contained already |
| Forges.ContainedHeadDiffers | internal/github/forge.go:199-203 | two heads on which the two forms make different tips |
| Commits.AncestorIsReachable | internal/github/ghfake/server.go:667-677 | a commit is an ancestor if and only if a walk from parent to parent leads to it |
| Commits.AncestorTrans | internal/github/ghfake/server.go:667-677 | ancestry is transitive |
| Commits.FoldContains | internal/gitea/http.go:449-467 | a stacked tip contains the base and every head merged |
| Checks.Evaluate | internal/monitor/monitor.go:75-113 | passed iff every required check succeeded, failed iff a required one is red; with none required, success wins over failure |
| Checks.EvaluateChecks | internal/monitor/monitor.go:75-113 | the loops compute that verdict, with the reported check and link |
| Checks.VerdictNames | internal/monitor/monitor.go:98-105 | the failed check that is named is the first in the order of the required list whose last result is red, with the link of that result |
| Checks.VerdictNamesAny | internal/monitor/monitor.go:76-90 | with none required it is the first red result listed, with its link, and only pending ones are before it |
| Checks.DisplayedLists | internal/web/handler.go:469-501 | the dashboard lists each required check in order, by its last result or as pending, and then all others on record, as often and in the order recorded; with none required, what is on record |
| Checks.MergeCheckStatuses | internal/web/handler.go:469-501 | the loops compute the dashboard's list |
| Checks.DashboardAgrees | internal/web/handler.go:469-501 | the verdict on the dashboard's list is the verdict on the recorded one, failing check and link included, for all lists, with duplicates |
| Checks.ListingVerdict | internal/batch/monitor.go:33-38 | the verdict does not depend on the order in which the store lists the results |
| Checks.PollVerdict | internal/poller/poller.go:227-234 | with required checks, one poll from an empty ledger passes iff all succeeded and fails iff one is red |
| Checks.PollOrderIrrelevant | internal/poller/poller.go:227-234 | every order of one snapshot gives the same verdict |
| Checks.AnyCheckOrder | internal/monitor/monitor.go:76-89 | with no required checks, exactly the snapshots without both a success and a failure are independent of the order |
| Polling.PinnedIsFresh | internal/poller/poller.go:215-222 | the row the poller pins passes the guard, and its ledger holds results of the present build alone |
| Polling.PollActsAsFed | internal/poller/poller.go:223-234 | the events of one poll do what feeding the snapshot to the row's ledger rules: only recorded before the deciding result, the ruling carried out at it, nothing after it once another commit is under test |
| Polling.PollsAgree | internal/poller/poller.go:227-234 | with required checks, two orders of one snapshot make the engine do the same to target, batches and queue |
| Legacy.OnlyHeadsEverMove | internal/poller/poller.go:490-516 | in every reachable state only the head of a branch's queue is past queued or has a merge commit |
| Legacy.FailureRemovesItsPr | internal/monitor/monitor.go:191-218 | however old the snapshot, after a failing ledger or a timeout that PR's row is gone and every other row is still there, unchanged and in order; nothing happens if the row was gone |
| Legacy.FailureRemovesIff | internal/monitor/monitor.go:191-218 | after marking a PR and advancing the queue exactly that PR's row is gone, every other one unchanged and in order, if and only if it was the head of its branch |
| Legacy.OneOutMeans | internal/queue/queue.go:135-230 | what one row taken out means: the rest is an ordered sublist of exactly the other rows |
| Legacy.StepEffect | internal/monitor/monitor.go:234-266 | the whole effect of every event on every row, with results of any age |
| Legacy.RunEffect | internal/monitor/monitor.go:234-266 | the same at every step of every run |
| Legacy.PassKeepsPr | internal/monitor/monitor.go:122-146 | a PR whose checks have passed stays in the queue: its own row becomes succeeded with the result on record, and no other row changes |
| Legacy.SucceededWhy | internal/monitor/monitor.go:122-146 | in every reachable state, a row is succeeded only after its own ledger passed or its head was up to date |
| Legacy.AheadCounts | internal/store/pg/query.sql:71-77 | a position counts the rows of the branch up to it that have not failed |
| Legacy.PositionMeaning | internal/store/pg/query.sql:71-77 | the head is at position 1 and positions grow with age |
| Legacy.Service.Enqueue | internal/queue/queue.go:71-130 | a new PR goes to the tail; one that is queued keeps its row and place |
| Legacy.Service.Dequeue | internal/queue/queue.go:135-175 | that row is gone, every other one is still there, unchanged and in order; it says whether the row was the head |
| Legacy.Service.Advance | internal/queue/queue.go:192-230 | the head of the branch is gone, every other row is still there, unchanged and in order; it returns the next head |
| Legacy.Service.RemoveFromQueue | internal/monitor/monitor.go:191-218 | marks the PR, then drops the head of its branch, which `Legacy.FailureRemovesIff` shows to be the PR's row if that is the head, and no other row |
| Legacy.Service.SaveCheckStatus | internal/queue/queue.go:296-304 | the result is kept under the row's key, if the row is still there |
| Legacy.Service.ProcessCheckStatus | internal/monitor/monitor.go:234-268 | a result of a row that is gone does nothing; otherwise it is recorded, the row's ledger is judged, and success, failure or timeout of that PR follows; what that does to every row is `Legacy.RunEffect` |
| Legacy.Service.StartQueuedHead | internal/poller/poller.go:490-521 | a waiting head is promoted, tested or dropped; nothing else moves |

## Premises

- Reads of the queue and `Dequeue` succeed; the code only warns about or drops
  their errors (`internal/batch/batch.go:288`, `:493-495`, `:500`).
- A merge that fails on the forge leaves the ref where it was, and the target
  does not move while one stack is being built. Others may push before each
  build and between steps.
- Enqueue times are distinct and agree with the order of the rows' ids.
- The poller's dequeue and its report to the engine are one step, and a poll's
  list of rows knows the batch of every row that still exists, because only the
  poller forms batches. A row that is gone may be reported with any batch; only
  `Guarantees.MembersInvariant` asks that it is a batch the row belonged to
  (`HonestAt`).
- `Aftermath.OnlyTimeoutEnds` takes that results and removals come from reads of the
  queue since the restart (`Heard`).
- `TestedIsWhatLands` takes that a snapshot's commit was carried by its row at
  some time, and that builds are unambiguous. `Identity.TestedAlwaysLands` replaces
  the second by conditions on the heads: no two members of one batch have the same
  head, and, on a forge that reports contained heads, no build ends with one.
  `Landing.TestedInBuildLands` needs neither: it takes that the commit was carried
  during the build now under test, which is what a commit that is never repeated
  means.
- `Cap.CapKeptIff` and the results of `Bisection.dfy` take a cooperating forge:
  builds do not fail as a whole, heads merge, and nobody else pushes.

## Left out

- Engine.Engine.HandleTimeout: the clock is a parameter, a timeout can happen at any time while testing.
- Engine.Engine.OnMemberRemoved: the caller has taken the member's row out of the queue first, as the poller does. After a failing dequeue the poller reports all the same, and the row then names a batch that does not know it (`Transitions.RowMustGo`) until a later poll; runs with such failures are not modelled.
- Engine.Store.SaveBatch: SQL, transactions and the JSON form of the pending stack; a statement is one atomic write of values.
- Forges.Clone.StackMerges: git subprocesses, the cache and the parsing of push output; the merge result is an oracle, and one answer stands for fetch and merge failures.
- Forges.Remote.FastForward: HTTP status codes and messages are reduced to allowed, denied and unreachable.
- Landing.LedgerIsPure: not claimed across crashes, since ReconcileLive stamps commits but does not clear results.
- Guarantees.ExactAccounting: not claimed across crashes; what holds then is `Aftermath.SafeForever` for members with a row and `Aftermath.AdriftFate` for members without.
- Polling.PollActsAsFed: the list of required checks is taken to be the same for all results of one poll.
- Batch row and queue columns as integers are unbounded; 32-bit counters and ids are not modelled.
- Statuses, comments, mirrored checks, automerge cancellation, closing of landed PRs, logging: no effect on batch, queue or target.
- Cancelling batches and removing repositories from the registry, discovery, configuration, webhook parsing and signatures, caching, pagination, HTML.
- PR numbers in batch mode: a row is its id; uniqueness per PR is modelled in the single-PR queue.
- Goroutines and mutexes: one entry point is one atomic step, branches are independent of each other.
