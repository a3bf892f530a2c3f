# A model of the upgrade accelerator operator

The operator pulls the images of an OpenShift release to the nodes of a cluster before the upgrade starts. Each
reconcile pass moves node names through three lists in the status of an UpgradeAccelerator: `NodesWaiting`,
`NodesWarming` (a pull job exists) and `NodesPreheated` (the job has succeeded). The cluster runs and finishes the jobs
on its own. A pass can end at any API call, and it reports completion by comparing lengths of lists. This project states
what that comes to over whole runs, and proves it.

## How it is built

- `Conditions`, `PullJobs`, `NodeLists`: the condition list, the job store, lists of names.
- `Passes`: a pass as functions on a `Pass`: the status in memory, the saved status, the job store, an audit trail of
  Create calls, and a count of API calls. Any API call may fail: `fails` says which.
- `Controller`: the reconciler as a class. It keeps NodesWaiting as the first `count` cells of an array and cuts it in
  place, so the dispatch loop for `Parallelism` 0 really reads cells that it is moving. `Run` refines `Reconcile`, so
  each theorem below is about the imperative pass as well.
- `FrontFacts`, `IssueFacts`, `NewJobs`: what the parts of a pass leave alone; one rule that carries an invariant through
  every loop that creates jobs; which jobs a pass creates.
- `Runs`: worlds and actions (a pass, a job that succeeds, a job that disappears).
- `Completion`, `Partition`, `PrimerGate`, `Measure`, `JobAudit`, `ListsApart`, `OffAndOn`, `LastingFailure`: theorems on
  whole runs.
- `Truth`: when a written LastCompletedVersion is true, exactly.
- `JobScan`, `Drain`, `Batches`, `Convergence`, `WrittenBatches`, `Resets`: exact effects and exact numbers of passes.
- `StatusReport`: version fields and conditions, exactly.
- `Limits`, `DroppedNode`, `PrimerLimits`, `LatePrimer`, `CutShort`, `ShortBatch`, `LostSuccess`: inputs that show why
  the hypotheses are there, and what follows from them over runs.
- `NameOrder`, `NodeSelection`, `SelectionFacts`, `SelectionAnswers`, `TargetSets`, `ListingOrder`: the selection of
  targets and primers.
- `EndToEnd`: selection and scheduler together.
- `ReleaseImages`: the image filter.

A *steady* run is one whose passes ask for one release and find the accelerator enabled, whose targets only grow, whose
jobs only succeed, and in which the status write directly after a Create comes through; all other API calls may fail. An
*orderly* run is a steady one in which no pass panics between a Create and that write either; with `Parallelism` 0 or
less, or with guards, no pass does. Both start from empty lists, with no job of the release and none whose release has
the same hash. The completion theorem needs only the one release, the audit theorem only that no job disappears.
`Parallelism` > 0 occurs in two forms: `AsWritten`, as the code is, and `WithGuards`, the intended form (stop at the end
of the list; removing an absent node changes nothing).

Where the code and its documentation differ, the model follows the code. The repository's README.md says at line 63 that
the label value `true` makes a primer; the code makes every node a primer that is neither disabled nor labelled `false`.
The comment at upgradeaccelerator_controller.go line 341 says that all remaining nodes are processed; the loop serves
about half of them. The comment at upgradeaccelerator_nodeDetermination.go line 217 promises an idempotent list; primers
appended behind the sorted targets keep the order of the listing. The comment at line 56 of that file and line 59 of the
repository's README.md promise that a disabled node is left out whatever the selectors; with a node selector and a valid
pool that both match (lines 157-176) it is targeted.

## Model

| member | source | states |
|---|---|---|
| `Completion.CompletionIsSound` | internal/controller/upgradeaccelerator_controller.go:252-451 | Over every run for one release, with any API call failing, any pass dying anywhere, nodes and jobs coming and going: when a pass writes LastCompletedVersion, every node of NodesSelected has had a succeeded pull job for exactly that version. For a positive `Parallelism` no node may have left the targets (see `DroppedNode.DroppedInRun`). |
| `Truth.CompletionTruth` | internal/controller/upgradeaccelerator_controller.go:434-451 | The exact condition, for every `Parallelism`, as written or with guards, and from arbitrary saved lists and jobs: a written LastCompletedVersion is true of all selected nodes if and only if every node on NodesPreheated before is done and every done node is targeted. Done is said before the pass: the job is in the store and finishes by the listing, or the pass is going to issue it. |
| `Truth.CompletionTruthUnbatched` | internal/controller/upgradeaccelerator_controller.go:434-451 | The same for a `Parallelism` that is not positive: if and only if every target that was on NodesPreheated before is done. |
| `Truth.CompletedDone` | internal/controller/upgradeaccelerator_controller.go:252-451 | What a completing pass issues jobs for, known before: the candidates without a job (for a batch as written only primers); they and the jobs that finish in time are exactly the successes after it. |
| `NewJobs.WorkExtends` | internal/controller/upgradeaccelerator_controller.go:252-380 | Up to the listing a pass only adds jobs, under their own names and for candidates only, and when it leaves no node waiting, for each candidate without one. |
| `EndToEnd.CompletedMeansPreheated` | internal/controller/upgradeaccelerator_nodeDetermination.go:82-228 | Selection and scheduler together: when the completing pass selected from one snapshot, every node that the selectors want, or that may be a primer, has had a succeeded job for the version written. For a positive `Parallelism` no node may have left the targets. |
| `Partition.PassIsGood` | internal/controller/upgradeaccelerator_controller.go:252-432 | One pass from lists that partition the nodes, any API calls failing, any `Parallelism` as written or with guards: the saved lists again are duplicate-free, disjoint, inside the targets, with a job for exactly the warming and preheated nodes, if and only if the pass did not die between a Create and the status write that follows it (that write lost, or the removal before it out of range). Without a batch, or with guards, no index is out of range. |
| `Partition.PartitionHolds` | internal/controller/upgradeaccelerator_controller.go:252-432 | The partition invariant holds in every state of every orderly run. |
| `ListsApart.NeverPanics` | internal/controller/upgradeaccelerator_controller.go:305-309 | In every run for one release in which no job disappears, after lost writes and earlier panics too: a pass whose `Parallelism` is not positive, or has guards, never indexes a list at -1 or past its end (lines 308, 346, 369, 419). For a positive one as written see `Batches.AsWrittenPanics`. |
| `Partition.ScanIsGood` | internal/controller/upgradeaccelerator_controller.go:385-432 | The job scan keeps the invariant for every honest listing, and an empty listing means that no node is warming or preheated, so the reset for "no jobs" moves nothing in orderly runs; it is for jobs that disappeared (`Resets.LostJobsAreRedone`). |
| `Partition.EarlyExitIsSound` | internal/controller/upgradeaccelerator_controller.go:194-205 | In every run for one release, for every `Parallelism` and whatever fails: if no node has left the targets, the length-only exit is sound. Selected and preheated nodes are the same set, each has had a succeeded job, and none waits. |
| `ListsApart.EarlyExitLeavesNone` | internal/controller/upgradeaccelerator_controller.go:194-205 | In such a run, when no node has left the targets, the early exit leaves no node warming either. |
| `Limits.EarlyExitTruth` | internal/controller/upgradeaccelerator_controller.go:194-205 | From any duplicate-free lists the length-only exit tells the truth if and only if no preheated node has left the targets: the hypothesis that the TODO lacks. |
| `Limits.ReplacedNodeIsMissed` | internal/controller/upgradeaccelerator_controller.go:194-205 | A replaced node defeats the early exit: the pass reports completion, and the new node is not on the preheated list. |
| `Limits.ExitIsFinal` | internal/controller/upgradeaccelerator_controller.go:194-205 | Once as many nodes are preheated as targeted and none waits, no later pass of a run issues a job or moves a node, whichever nodes are targeted, as long as their number stays. |
| `Limits.ReleaseChangeBreaksCompletion` | internal/controller/upgradeaccelerator_setup.go:26-46 | Lists are not cleared when the version changes: a node that pulled the old release only is written off as completed for the new one. |
| `DroppedNode.DroppedInRun` | internal/controller/upgradeaccelerator_controller.go:344-378 | Why completion needs its proviso for a positive `Parallelism`: a run from a clean start, two of whose passes die after a Create, after which a node leaves; the last pass writes the release as completed for a node whose job still runs. |
| `DroppedNode.BatchDropsNode` | internal/controller/upgradeaccelerator_controller.go:344-349 | Its last pass, from any state with such lists and jobs. |
| `ShortBatch.StuckForever` | internal/controller/upgradeaccelerator_controller.go:344-349 | A positive `Parallelism` as written, once the primers are preheated and fewer nodes are due than it, due nodes with running or finished jobs included: in every later pass of a run, whatever fails and whatever jobs succeed, no job is created, no node becomes preheated, no release is completed, the same nodes stay due, and the pass ends on an error or panics before the job scan. |
| `ShortBatch.StuckPass` | internal/controller/upgradeaccelerator_controller.go:338-380 | One such pass. |
| `ShortBatch.RunsAreLoose` | internal/controller/upgradeaccelerator_controller.go:252-432 | What these two ask of the state beside that (no node is both warming and preheated, both kinds have jobs under their own names, preheated nodes are targeted and named once) holds in every state of every run for one release in which no job disappears and no node leaves the targets, whatever fails and whatever panics. |
| `LostSuccess.OpeningIsShort` | internal/controller/upgradeaccelerator_controller.go:344-378 | Such a state is reached from a clean start with `Parallelism` 2 and two nodes: two passes die after a Create, one job succeeds, and the third pass drops both nodes and records one. |
| `LostSuccess.SuccessIsLost` | internal/controller/upgradeaccelerator_controller.go:344-431 | From there, whatever passes follow and whatever fails, the other job succeeds and is never recorded, and no pass completes. |
| `WrittenBatches.WrittenPass` | internal/controller/upgradeaccelerator_controller.go:252-451 | A positive `Parallelism` as written, priming off, no failing call, from every state that such runs reach: which of the five ends the pass has, and the jobs and lists that it leaves, are known before it. It dies on the first node of the batch without a job, or drops the batch. |
| `WrittenBatches.WrittenCompletesExactlyWhen` | internal/controller/upgradeaccelerator_controller.go:344-451 | Over runs with jobs succeeding anywhere: the next pass completes if and only if the due nodes are exactly one batch, all of them have jobs, and every target is preheated or its job done by the listing. |
| `WrittenBatches.FewTargetsNeverComplete` | internal/controller/upgradeaccelerator_controller.go:344-349 | From a clean start with fewer targets than `Parallelism` no pass of any run completes or preheats a node, whatever fails. |
| `WrittenBatches.CompletesIffDivided` | internal/controller/upgradeaccelerator_controller.go:344-378 | When every job is done by the next listing: a run over n = q * p + r targets completes if and only if p divides n, and then in pass n + q. |
| `Measure.StepLowersMeasure` | internal/controller/upgradeaccelerator_controller.go:301-421 | On fixed targets every step of an orderly run lowers 2*waiting + warming by exactly the dispatches and preheatings it makes, and it never rises: passes without a batch however they end, and passes with guards that come to their end. |
| `Measure.RunLowersMeasure` | internal/controller/upgradeaccelerator_controller.go:301-421 | The same over runs. |
| `Measure.MeasureStarts` | internal/controller/upgradeaccelerator_controller.go:252-271 | The measure counts from the first pass without a batch that comes to its end: it leaves every target on some saved list. |
| `Measure.PassHolds` | internal/controller/upgradeaccelerator_controller.go:252-451 | Without a batch, however a pass ends, no node drops out of the saved lists. |
| `Measure.GuardedPassHolds` | internal/controller/upgradeaccelerator_controller.go:343-451 | With guards no node drops out when the pass comes to its end. |
| `Measure.MovesAreBounded` | internal/controller/upgradeaccelerator_controller.go:301-309 | Over every orderly run from empty lists, moves made and moves to do number at most two per node ever targeted, and exactly two once the lists cover all of them. |
| `CutShort.GuardedBatchRaisesMeasure` | internal/controller/upgradeaccelerator_controller.go:343-378 | Why it must: two passes with guards, each cut short by one API error. The first leaves a popped node on no saved list, and the second raises the measure from 1 to 3 without a move. |
| `Measure.StepMoves` | internal/controller/upgradeaccelerator_controller.go:365-421 | No step of an orderly run takes a node off NodesPreheated or undoes a Create, and warming plus preheated nodes are as many as the Creates so far. |
| `JobAudit.AtMostOneJob` | internal/controller/upgradeaccelerator_job.go:190-205 | In every run in which no job disappears, whatever fails and whatever the lists and releases: at most one job is created per node and release, by the existence test alone. |
| `ListsApart.GuardIsAlwaysTrue` | internal/controller/upgradeaccelerator_controller.go:289-289 | In every run for one release in which no job disappears, whatever fails and for every `Parallelism`: the not-warming-or-not-preheated guard is true for every node in the state that a pass starts from. |
| `ListsApart.GuardNeverActs` | internal/controller/upgradeaccelerator_controller.go:355-355 | The same at every turn of the loops inside a pass: the attempt with the guard is the attempt without it. |
| `PullJobs.NameReads` | internal/controller/upgradeaccelerator_controller.go:291-291 | The name of a job is the node, the fixed text and the hash, in this order. |
| `PullJobs.NameDeterminesHash` | internal/controller/upgradeaccelerator_controller.go:291-291 | Two equal job names belong to the same node and the same release hash, whatever the nodes are called. |
| `PullJobs.ForeignJobsDoNotCollide` | internal/controller/upgradeaccelerator_controller.go:291-291 | Jobs of releases with another hash never take the name of a job of this release. |
| `Resets.DisabledClears` | internal/controller/upgradeaccelerator_controller.go:86-97 | Switched off, from every state, once the object is read: all five lists are saved empty if one of the seven status writes comes through, and otherwise the saved status is the old one. |
| `Resets.NoTargetsClear` | internal/controller/upgradeaccelerator_controller.go:157-166 | No node selected: the same with five status writes. |
| `Resets.OffAndOn` | internal/controller/upgradeaccelerator_controller.go:86-97 | After such a pass the next enabled pass on which nothing fails starts over: every target waits again, in order, and is saved so, whatever came before. |
| `Resets.NoneAndSome` | internal/controller/upgradeaccelerator_controller.go:157-166 | The same after a pass that selected no node. |
| `OffAndOn.NeverCompletesAgain` | internal/controller/upgradeaccelerator_controller.go:344-378 | What follows for a node that has its job: after one such pass of a switched-off accelerator, over every run without a batch that targets the node and in which no job disappears, whatever fails, no pass completes and LastCompletedVersion stays as it was. (The cluster removes a finished job after two hours, upgradeaccelerator_types.go line 18.) |
| `OffAndOn.StalledPass` | internal/controller/upgradeaccelerator_controller.go:252-451 | One such pass. |
| `PrimerGate.PrimersComeFirst` | internal/controller/upgradeaccelerator_controller.go:279-380 | Over every steady run with priming on and a fixed non-empty primer set, for every `Parallelism` as written or with guards: a job for a node outside the set exists only if the job of every primer has succeeded, also in the middle of a pass. |
| `PrimerGate.WorkAtGate` | internal/controller/upgradeaccelerator_controller.go:330-380 | Behind a closed gate the parallelism does not matter, and before an open one every primer is done. |
| `PrimerGate.PassKeepsOrder` | internal/controller/upgradeaccelerator_controller.go:175-335 | The inductive step: the reason PrimingCompleted implies that all primers are preheated, however the pass ends. |
| `PrimerGate.RoundEndPromises` | internal/controller/upgradeaccelerator_controller.go:319-327 | Neither running nor scheduled: then every primer is preheated, so the reason Completed is earned. |
| `PrimerGate.GateOpensWhen` | internal/controller/upgradeaccelerator_controller.go:330-335 | In one pass from a good state the gate is open if and only if all primers were preheated, or the saved reason was already Completed or Skipped and every primer has a job. |
| `PrimerLimits.OrderBrokenExactly` | internal/controller/upgradeaccelerator_controller.go:279-380 | The exact condition for one pass on which nothing fails, any primer set and every `Parallelism`: it breaks the order if and only if some primer has not succeeded, the saved reason is Completed or Skipped all the same, every primer has a job, and the dispatch creates a job: some node is due, and `Parallelism` is 0, or positive with guards, or positive and as written but not above the number of due nodes. |
| `PrimerLimits.FirstIssued` | internal/controller/upgradeaccelerator_controller.go:338-378 | Exactly when a dispatch on which nothing fails creates a job at all: then the first waiting node has one, otherwise no node gets one. |
| `LatePrimer.OvertakenInRun` | internal/controller/upgradeaccelerator_controller.go:175-335 | Why the primer set must be fixed: a steady run from a clean start with two failing calls, one of them the condition write after a new primer got its job. The next pass, on which nothing fails, creates a job for another node while that primer still runs. |
| `Controller.Reconciler.DispatchAll` | internal/controller/upgradeaccelerator_controller.go:340-378 | The loop over the list that shares its array with NodesWaiting, as the code has it, is the function `DispatchShared` of the old cells. |
| `Passes.CellsBeyondAreNotRead` | internal/controller/upgradeaccelerator_controller.go:342-378 | The aliased loop depends on the cells of the old list only, not on the spare capacity behind it. |
| `Passes.ShiftedIsCut` | internal/controller/upgradeaccelerator_controller.go:369-369 | Cutting in place leaves in the live cells the list with that one entry taken out. |
| `Controller.CutInPlace` | internal/controller/upgradeaccelerator_controller.go:369-369 | The array after `append(xs[:k], xs[k+1:]...)`, every cell of it, stale ones included. |
| `Drain.OnePassServes` | internal/controller/upgradeaccelerator_controller.go:340-378 | Exact effect of one dispatch with `Parallelism` 0: it creates jobs for the nodes at even positions and the last one, in that order, and leaves exactly the odd positions before the last. |
| `Drain.ReportedCells` | internal/controller/upgradeaccelerator_controller.go:340-380 | The nodes that its condition then reports as warming: those that it left waiting, and the last one over and over. |
| `Drain.PrimerServed` | internal/controller/upgradeaccelerator_controller.go:289-318 | A primer without a job, in whatever lists: it gets one, and the pass dies right after if and only if several nodes wait and it is none of them. |
| `Batches.AsWrittenPanics` | internal/controller/upgradeaccelerator_controller.go:344-378 | `Parallelism` > 0 as written, with no API fault: the dispatch panics before any Create if and only if the batch is longer than the list, and right after a Create if and only if it is not and some node of the batch has no job yet; the job is then that of the first such node, and the saved status is the old one. If it comes through, it only dropped the batch. |
| `Batches.GuardedBatchServes` | internal/controller/upgradeaccelerator_controller.go:343-378 | The intended batch (stop at the end of the list, removing an absent node is no change): the first min(p, n) waiting nodes get their jobs, in order. |
| `Convergence.ClearPass` | internal/controller/upgradeaccelerator_controller.go:252-451 | One pass on which no call fails, with no primer or with all primers preheated, from any good state, however long jobs take: the due nodes shrink to exactly the remainder, the partition holds again, and the end (already complete, completed, pending) is known before. |
| `Convergence.DrainsInRuns` | internal/controller/upgradeaccelerator_controller.go:340-378 | The drain over runs of such passes, with jobs succeeding anywhere between. |
| `Convergence.DueAfterPasses` | internal/controller/upgradeaccelerator_controller.go:340-378 | `Parallelism` 0: of n due nodes, after k passes of such a run exactly every 2^k-th is still due, and none if and only if n + 1 < 2^(k+1): floor(log2(n + 1)) passes, no fewer. (The comment at line 341 says that one pass processes all.) |
| `Convergence.DueAfterBatches` | internal/controller/upgradeaccelerator_controller.go:343-378 | The intended batch of p: after k passes exactly the nodes from position k*p on are still due, so ceil(n / p) passes, no fewer. |
| `Convergence.CompletesExactlyWhen` | internal/controller/upgradeaccelerator_controller.go:194-451 | The pass after k others writes LastCompletedVersion if and only if not all targets are preheated yet, k + 1 passes drain the list, and the job of every target has succeeded by its listing. |
| `Convergence.CompletesExactlyAfter` | internal/controller/upgradeaccelerator_controller.go:252-451 | So never before pass floor(log2(n + 1)), or ceil(n / p), and in that pass exactly if all jobs are done by its listing. |
| `JobScan.ScanSetForm` | internal/controller/upgradeaccelerator_controller.go:404-431 | For every order of the job listing: NodesPreheated becomes its union with the succeeded nodes, NodesWarming loses exactly them and keeps its order. |
| `JobScan.NoJobsReset` | internal/controller/upgradeaccelerator_controller.go:392-403 | With no job at all the warming nodes go behind the waiting ones, in memory and saved alike; the pass goes on if and only if there is nothing to save or the write comes through, and otherwise the saved status is the old one. Waiting plus warming is conserved as a multiset. |
| `Resets.ResetPass` | internal/controller/upgradeaccelerator_controller.go:385-403 | Over a whole pass on which nothing fails, with no job of the release left and nothing to issue: saved as waiting are the nodes that waited, the targets filled in, and then the nodes that were warming; warming is empty. |
| `Resets.ReachesListingExactly` | internal/controller/upgradeaccelerator_controller.go:279-391 | Having nothing to issue (no primer takes part, and no node is due, or the gate is closed, or the `Parallelism` is negative) is exactly what lets such a pass reach its listing without a new job. |
| `Resets.LostJobsAreRedone` | internal/controller/upgradeaccelerator_controller.go:385-403 | After any orderly run, when jobs disappear until none of the release is left: the next pass with nothing to issue puts the warming nodes back, and the one after it issues jobs for exactly its portion of them and the nodes that waited, in that order. |
| `Convergence.FillAppends` | internal/controller/upgradeaccelerator_controller.go:252-262 | The targets that are on no list follow the waiting nodes, in the order of the targets. |
| `NodeLists.JoinParts` | internal/controller/upgradeaccelerator_controller.go:380-380 | The joined text has the separator between any two neighbours. |
| `NodeLists.EqualLengthCoverage` | internal/controller/upgradeaccelerator_controller.go:436-436 | Pigeonhole: of two duplicate-free lists of equal length one covers the other if and only if it is covered by it. |
| `Conditions.ListRefinesMap` | internal/controller/upgradeaccelerator_conditions.go:55-106 | Any sequence of appends and deletes on the list is the same sequence of updates on a map from type to content; types stay unique. |
| `Conditions.ReasonIsLookup` | internal/controller/upgradeaccelerator_conditions.go:120-128 | getConditionReason is lookup in that map, "" for a missing type. |
| `Conditions.StampChangesWithContent` | internal/controller/upgradeaccelerator_conditions.go:64-73 | Equal content leaves the whole list, timestamp included, alone; other content replaces that one condition in its place. |
| `Conditions.DropsAreSubtraction` | internal/controller/upgradeaccelerator_conditions.go:80-99 | deleteConditions is subtraction of the set of types, in any order and with any repetition. |
| `StatusReport.GoesOnExactly` | internal/controller/upgradeaccelerator_controller.go:75-230 | Exactly which passes get to their node lists, call by call: which failing reads and writes end the front part, and that the errors of all other condition writes are dropped. |
| `StatusReport.FrontReports` | internal/controller/upgradeaccelerator_controller.go:86-230 | The exact map of conditions saved when no call of the status fails, with every text, for each way in which the front part of a pass ends (switched off, no infrastructure, no version, no selection, no target, already complete, a resource failed) and for going on. |
| `StatusReport.ResourceReport` | internal/controller/upgradeaccelerator_setup.go:57-134 | Whatever resource failed, the failure SetupFailed is what remains of the report; Running, Successful and the primer and set-up conditions are gone, and the reason that names the resource is overwritten. |
| `StatusReport.ReleaseReport` | internal/controller/upgradeaccelerator_setup.go:15-25 | The same for the cluster version. |
| `StatusReport.RoundReports` | internal/controller/upgradeaccelerator_controller.go:319-327 | The conditions behind the primer loop, with their texts. |
| `StatusReport.DispatchReports` | internal/controller/upgradeaccelerator_controller.go:380-380 | The running condition behind the dispatch. |
| `StatusReport.BatchReports` | internal/controller/upgradeaccelerator_controller.go:344-380 | After a batch it names the nodes taken off the front of the list. |
| `StatusReport.CompletedReports` | internal/controller/upgradeaccelerator_controller.go:434-451 | A pass that completes, whatever failed before, leaves Running saved as False with the reason ReconciliationCompleted. |
| `StatusReport.CompletesExactlyIfWritten` | internal/controller/upgradeaccelerator_controller.go:434-449 | With all nodes preheated the pass completes if and only if both status writes come through; if one fails, the release is not saved as completed. |
| `StatusReport.FrontVersions` | internal/controller/upgradeaccelerator_controller.go:104-140 | A pass that gets past its front part, whatever failed, has saved the selected nodes, the primers and the version fields of the cluster; the platform is saved if and only if it was before or its condition could be written. |
| `LastingFailure.FailureLasts` | internal/controller/upgradeaccelerator_controller.go:104-451 | Once the condition Failure is saved, no run in which the accelerator is never found switched off takes it away, whatever succeeds afterwards, completion included. (The TODO at line 231 asks for its removal.) |
| `Controller.Reconciler.PutCondition` | internal/controller/upgradeaccelerator_conditions.go:58-76 | The loop that overwrites or appends leaves the list that the specification gives. |
| `Controller.Reconciler.AppendCondition` | internal/controller/upgradeaccelerator_conditions.go:55-79 | The list is changed and then the status is written; an error of the write is returned. |
| `Controller.Reconciler.DeleteCondition` | internal/controller/upgradeaccelerator_conditions.go:89-106 | Every condition of the type goes, in order, and the status is written. |
| `Controller.Reconciler.GetConditionReason` | internal/controller/upgradeaccelerator_conditions.go:120-128 | The search returns the reason of the first condition of the type. |
| `Controller.Reconciler.Run` | internal/controller/upgradeaccelerator_controller.go:69-458 | The imperative pass over the object, the array and the store has, from any valid state and with any faults, the outcome and final state of the function `Reconcile` that all theorems are about. |
| `Controller.Reconciler.Begin` | internal/controller/upgradeaccelerator_controller.go:75-140 | Fetch, disabled branch with its five cleared lists (`Resets.DisabledClears`), infrastructure and version fields. |
| `Controller.Reconciler.FindInfrastructure` | internal/controller/upgradeaccelerator_controller.go:104-123 | The infrastructure type is saved with its condition and read back only when it changed. |
| `Controller.Reconciler.FollowRelease` | internal/controller/upgradeaccelerator_setup.go:26-46 | The four version fields follow the cluster; the flag says whether any changed. |
| `Controller.Reconciler.SetupClusterVersion` | internal/controller/upgradeaccelerator_setup.go:15-55 | Version fields with their error paths, including the conditions that `Reconcile` writes on error. |
| `Controller.Reconciler.CheckPrimers` | internal/controller/upgradeaccelerator_controller.go:175-192 | The primer condition that the node lists alone show. |
| `Controller.Reconciler.SelectTargets` | internal/controller/upgradeaccelerator_controller.go:142-217 | Selection errors, no targets, the selected lists, the early exit. |
| `Controller.Reconciler.CheckDone` | internal/controller/upgradeaccelerator_controller.go:200-216 | The early exit, or the status written and read back. |
| `Controller.Reconciler.SetupResources` | internal/controller/upgradeaccelerator_setup.go:57-134 | Each failing resource with its conditions, or setup complete. |
| `Controller.Reconciler.FillWaiting` | internal/controller/upgradeaccelerator_controller.go:252-271 | Targets on no list are appended to NodesWaiting in order; the status is written only then. |
| `Controller.Reconciler.CreateJob` | internal/controller/upgradeaccelerator_job.go:190-205 | Create if absent; an error other than not-found, or of the Create, is returned. |
| `Controller.Reconciler.RemovePrimer` | internal/controller/upgradeaccelerator_controller.go:305-309 | The two removal branches of the primer loop, out of range where the code would be. |
| `Controller.Reconciler.RunPrimerLoop` | internal/controller/upgradeaccelerator_controller.go:281-318 | The primer loop with its two flags. |
| `Controller.Reconciler.SetPrimerConditions` | internal/controller/upgradeaccelerator_controller.go:319-327 | The three conditions behind the primer loop. |
| `Controller.Reconciler.DispatchNode` | internal/controller/upgradeaccelerator_controller.go:352-378 | One turn of the dispatch loop, removal by index in the shared array. |
| `Controller.Reconciler.PopBatch` | internal/controller/upgradeaccelerator_controller.go:344-349 | The batch taken off the front; as written it reads past the end. |
| `Controller.Reconciler.DispatchList` | internal/controller/upgradeaccelerator_controller.go:352-378 | The dispatch loop over a popped batch. |
| `Controller.Reconciler.DispatchWaiting` | internal/controller/upgradeaccelerator_controller.go:333-380 | Gate, batch, loop and the running condition. |
| `Controller.Reconciler.ScanJob` | internal/controller/upgradeaccelerator_controller.go:408-421 | What one listed job moves, and whether anything changed. |
| `Controller.Reconciler.ScanListing` | internal/controller/upgradeaccelerator_controller.go:407-430 | The scan with its status writes. |
| `Controller.Reconciler.ScanJobs` | internal/controller/upgradeaccelerator_controller.go:385-432 | Listing, reset for "no jobs" with its status write (`JobScan.NoJobsReset`), scan. |
| `Controller.Reconciler.FinishPass` | internal/controller/upgradeaccelerator_controller.go:434-451 | The last completion test and the write of LastCompletedVersion. |
| `TargetSets.SelectsExactly` | internal/controller/upgradeaccelerator_nodeDetermination.go:82-279 | In one snapshot: a node is a target if and only if the selectors want it (no selector: not disabled; node selector with no valid pool: labels match and not disabled; both: labels of the selector and of some valid pool match; pools only: never) or priming is on and it is neither disabled nor barred from priming; primers are exactly the latter nodes, so the fallback that picks one primer never picks. |
| `TargetSets.DisabledTargetsExactly` | internal/controller/upgradeaccelerator_nodeDetermination.go:157-176 | In one snapshot a disabled node is a target if and only if a node selector is given and matches it, and a valid pool matches it too: the pool branch never looks at the disabled nodes. |
| `SelectionAnswers.FailsExactly` | internal/controller/upgradeaccelerator_nodeDetermination.go:82-207 | For every answer of the cluster: the selection fails if and only if a call that this selector makes fails, with the reason and the message of the first such call. A failed listing is never read as an empty one. |
| `SelectionAnswers.FailedSelectionKeeps` | internal/controller/upgradeaccelerator_controller.go:142-148 | A pass whose selection failed creates no job and leaves the saved lists as they were. |
| `SelectionAnswers.TargetsAnswer` | internal/controller/upgradeaccelerator_nodeDetermination.go:82-228 | Otherwise, also when the listings differ, the targets are exactly the nodes that the listings of the selectors show (both: of any usable pool, by the merged selector; node selector: not disabled in that listing; none: not disabled) and, with priming, those that may prime. |
| `SelectionAnswers.PrimersAnswer` | internal/controller/upgradeaccelerator_nodeDetermination.go:235-279 | The primers are all nodes that may prime; if there is none, the first target in the order of the sort that the listing of all nodes does not bar. |
| `SelectionAnswers.PlainCluster` | internal/controller/upgradeaccelerator_nodeDetermination.go:52-116 | With no selector and neither label on any node all nodes are targets, in ascending order, and with priming all are primers. |
| `SelectionFacts.PrimersAreTargets` | internal/controller/upgradeaccelerator_nodeDetermination.go:52-279 | For every answer of the cluster, also when its listings differ: primers are targets, none is disabled or barred from priming, neither list has duplicates, and every target is a node of the cluster. |
| `SelectionFacts.SelectionFeedsScheduler` | internal/controller/upgradeaccelerator_controller.go:142-173 | Every selection meets what the theorems on runs ask of one. |
| `ListingOrder.TargetsGrow` | internal/controller/upgradeaccelerator_nodeDetermination.go:82-279 | When nodes only join, targets only grow, which the theorems on runs ask for. |
| `ListingOrder.OrderIrrelevantExactly` | internal/controller/upgradeaccelerator_nodeDetermination.go:209-227 | For names that differ by more than case: every listing order gives identical targets and primers if and only if priming is off, or no node is wanted by the selectors, or at most one primer is appended behind the sorted targets. (The comment at line 217 promises an idempotent list.) |
| `ListingOrder.NoSelectorForgetsOrder` | internal/controller/upgradeaccelerator_nodeDetermination.go:108-116 | With no selector every listing order gives the identical, sorted targets and the identical primers. |
| `NameOrder.SortedIsUnique` | internal/controller/upgradeaccelerator_func.go:21-35 | A sorted permutation is unique when names differ by more than case, so the algorithm and the order of the input do not matter. |
| `NameOrder.SortIsSorted` | internal/controller/upgradeaccelerator_func.go:29-35 | Sorting gives a sorted permutation. |
| `NameOrder.LessIsAscending` | internal/controller/upgradeaccelerator_func.go:23-27 | One name sorts before another if and only if they agree up to case below some position and there the first one ends or has the character of smaller code, small letters counted as capitals. |
| `NameOrder.BeforeIsTotal` | internal/controller/upgradeaccelerator_func.go:23-27 | The order behind Less is total and asymmetric. |
| `NameOrder.SortInPlace` | internal/controller/upgradeaccelerator_func.go:29-35 | Insertion sort in place leaves the sorted list in the array. |
| `NameOrder.SortSliceOfStrings` | internal/controller/upgradeaccelerator_func.go:29-35 | A permutation of the input, ascending in that order. |
| `NodeSelection.DetermineLabeledNodes` | internal/controller/upgradeaccelerator_nodeDetermination.go:52-78 | The three lists, each in listing order, by the label keys and values themselves: disabled if the key is there with "true" in any case, barred from priming if its key is there with "false" in any case, primer if neither. |
| `NodeSelection.LabelsMean` | internal/controller/upgradeaccelerator_nodeDetermination.go:58-72 | What the two labels mean, letter by letter; a node without the key says nothing. |
| `NodeSelection.DetermineValidMachineConfigPools` | internal/controller/upgradeaccelerator_nodeDetermination.go:19-48 | The defined pools that exist and have a selector. |
| `TargetSets.ValidPoolsAre` | internal/controller/upgradeaccelerator_nodeDetermination.go:19-48 | Exactly the listed pools that are defined and have a selector, each with its own labels. |
| `TargetSets.MergePoolsIs` | internal/controller/upgradeaccelerator_nodeDetermination.go:139-155 | With disjoint keys every valid pool ends up with its labels and those of the selector. |
| `TargetSets.ListPoolsIs` | internal/controller/upgradeaccelerator_nodeDetermination.go:156-176 | The union over the pools, without duplicates, for every order of the map. |
| `NodeSelection.TargetPools` | internal/controller/upgradeaccelerator_nodeDetermination.go:134-178 | Merge and listing loops with their errors. |
| `NodeSelection.TargetByNodeSelector` | internal/controller/upgradeaccelerator_nodeDetermination.go:179-207 | Matching nodes without the disabled ones, looked at in this listing. |
| `NodeSelection.DeterminePrimerNodes` | internal/controller/upgradeaccelerator_nodeDetermination.go:235-279 | The four cases of the primer list, with appended primers in listing order. |
| `NodeSelection.DetermineTargetedNodes` | internal/controller/upgradeaccelerator_nodeDetermination.go:82-228 | The whole selection with its error paths is the function `Select`, which `SelectionAnswers.FailsExactly`, `TargetsAnswer` and `PrimersAnswer` describe. |
| `ReleaseImages.KeptInOrder` | internal/controller/oc_get_release_images.go:179-221 | By the infrastructure type and the texts themselves: an image is kept, in its place, if and only if none of the eleven texts occurs anywhere in its name that the type does not need: all of them for None and BareMetal, none for an unlisted type, and otherwise all but the type in small letters and a dash. |
| `ReleaseImages.OwnIsCalledLikeIt` | internal/controller/oc_get_release_images.go:184-206 | The one token that a listed type keeps is that type in small letters and a dash. |
| `ReleaseImages.FilterTwice` | internal/controller/oc_get_release_images.go:179-222 | Filtering twice for one platform is filtering once. |
| `ReleaseImages.TwoPlatformsAreNone` | internal/controller/oc_get_release_images.go:179-222 | Filtering for one platform and then another equals the filter of None on every list if and only if one of them is None or BareMetal, or both are named and differ. |
| `ReleaseImages.PatternsAre` | internal/controller/oc_get_release_images.go:184-206 | Every named platform filters all tokens but its own; IBMCloud still filters `ibm-`. |
| `ReleaseImages.FilterReleaseImages` | internal/controller/oc_get_release_images.go:179-222 | The loop returns the images that no unneeded text marks, in order; an unknown type returns the list unchanged. |

## Left out

- Batches.GuardedBatchServes: is about the intended batch, not the code as written; what the code as written does is `Batches.AsWrittenPanics` and `ShortBatch.StuckForever`. The number of new jobs per pass is bounded, not the length of NodesWarming.
- Convergence.ClearPass: is for passes without primers, or with all primers preheated, on which no call fails; a positive `Parallelism` in the intended form.
- WrittenBatches.WrittenPass: is for priming off and passes on which no call fails; with failing calls the code as written is `ShortBatch.StuckForever`.
- Partition.PartitionHolds: is for runs of one release with growing targets; the code does not restore the invariant after a node leaves, a job disappears, the accelerator is switched off and on (`OffAndOn.NeverCompletesAgain`), or a pass dies between a Create and the status write. With a positive `Parallelism` as written a pass dies there whenever its batch creates a job.
- Measure.StepLowersMeasure: is for passes without a batch and passes with guards that come to their end (`CutShort.GuardedBatchRaisesMeasure` says why).
- Truth.CompletionTruth: for a positive `Parallelism` as written it asks that NodesWaiting names no node twice; the lists of preheated and targeted nodes name none twice either.
- PrimerGate.PrimersComeFirst: is for a fixed primer set and steady runs; `PrimerLimits.OrderBrokenExactly` says when one pass breaks the order for any set.
- TargetSets.SelectsExactly: is for selectors whose label keys are disjoint from those of the pools, because what the merge library does with common keys is not part of this model; `matchExpressions` are not modelled either.
- NameOrder.SortInPlace: is an insertion sort; `sort.Sort` switches to other algorithms on long lists, which give the same list when names differ by more than case.
- NameOrder.SortedIsUnique: folds ASCII letters only; node names and label values are ASCII.
- Controller.Reconciler.FillWaiting: appends, re-slicing `NodesWaiting[1:]` and the reset to an empty list take a fresh array; only the cuts in the shared array are in place. NodesWarming, NodesPreheated and the condition list are sequences that the methods reassign.
- Controller.Reconciler.ReadStatus: a read returns the last status written, never a stale one, and a successful write does not replace the lists in memory.
- Controller.Reconciler.WriteStatus: an API call that reports an error has had no effect on the server; a status write or a Create that took effect and reported an error all the same is not modelled.
- Controller.Reconciler.CreateJob: of the job only node, release and success are kept; pod, volume and toleration fields are data assembly.
- PullJobs.ForeignJobsDoNotCollide: the hash is any function to eight characters; SHA-256 itself and real collisions are left out.
- ReleaseImages.FilterReleaseImages: `oc`, `jq` and the JSON that produces the image list are foreign calls.
- Jobs that succeed while a pass runs become visible when the pass lists the jobs, not before.
- Failures of namespace, config map and script set-up are one input of the pass; what they assemble is left out.
- Several accelerators that share a namespace: the scan label carries no accelerator, so their jobs would mix.
- Kubernetes client, caches, watches, event filters, RBAC, start-up, requeue delays, logging and wall-clock time. The stamp of a condition is the number of the API call.
- Current version, MachineConfig operator lookups and the event predicates: they compute inputs of the pass.
