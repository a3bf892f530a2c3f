/** One reconcile pass as a function of what the controller reads: the specification that the imperative
    `Reconciler` refines, and the step relation of the whole-run theorems. */
module Passes {
  import opened Conditions
  import opened NodeLists
  import opened PullJobs

  // ---- State ----

  datatype Versions = Versions(infrastructure: string, current: string, target: string, desired: string,
                               image: string, lastCompleted: string)

  datatype Status = Status(versions: Versions, conditions: seq<Condition>, selected: seq<string>,
                           primers: seq<string>, waiting: seq<string>, warming: seq<string>,
                           preheated: seq<string>)

  /** The three lists that a node moves through. */
  datatype Lists = Lists(waiting: seq<string>, warming: seq<string>, preheated: seq<string>)

  const NO_LISTS := Lists([], [], [])

  function ListsOf(s: Status): Lists {
    Lists(s.waiting, s.warming, s.preheated)
  }

  function PrimerReason(s: Status): string {
    ReasonOf(s.conditions, PRIMER)
  }

  /** `mem` is the object that the pass works on, `saved` the one that the API server holds, `issued` the
      audit trail of successful Create calls, `clock` the number of API calls so far. */
  datatype Pass = Pass(mem: Status, saved: Status, jobs: JobStore, issued: seq<Issue>, clock: nat)

  /** Which API calls fail. */
  type Faults = nat -> bool

  // ---- What a pass is given ----

  /** How a positive parallelism is served: as the code is written, or with the two missing guards (stop at
      the end of the list; removing a node that is already gone changes nothing). */
  datatype Batching = AsWritten | WithGuards

  datatype Config = Config(prime: bool, parallelism: int, batching: Batching, hash: Hash)

  datatype Reply<+T> = Ok(value: T) | Err(message: string)

  datatype Option<+T> = None | Some(value: T)

  datatype Release = Release(current: string, desired: string, image: string)

  datatype Selection =
    | Selected(targets: seq<string>, primers: seq<string>)
    | Unselected(reason: string, dropRunning: bool, message: string)

  datatype Resources =
    | Ready
    | NoReleaseImages(message: string)
    | NoNamespace(message: string)
    | NoConfigMap(message: string)
    | NoPullScript(message: string)

  /** What the cluster answers during one pass. `late` names the jobs that succeed while the pass runs; their
      success can first be seen when the jobs are listed. `list` answers that listing. */
  datatype Observation = Observation(disabled: bool, infrastructure: Reply<string>, release: Reply<Release>,
                                     selection: Selection, resources: Resources, late: set<string>,
                                     list: (JobStore, string) -> seq<Job>, fails: Faults, errorText: string)

  // ---- How a pass goes on or ends ----

  datatype End =
    | Disabled         // the accelerator is switched off
    | NoTargets        // no node is selected
    | AlreadyComplete  // the early, length-only exit
    | Failed           // an API error, nothing half done
    | LostWrite        // the status write right after a Create failed
    | LostMove         // an index out of range right after a Create, before the status write
    | Panicked         // an index out of range before any Create of that turn
    | Pending          // the whole pass ran, some node is not done
    | Completed        // the whole pass ran and wrote LastCompletedVersion

  datatype Flow = Next(p: Pass) | Stop(p: Pass, end: End)

  // ---- API calls ----

  function Write(p: Pass, fails: Faults): Pass {
    p.(saved := if fails(p.clock) then p.saved else p.mem, clock := p.clock + 1)
  }

  function Read(p: Pass, fails: Faults): Pass {
    p.(mem := if fails(p.clock) then p.mem else p.saved, clock := p.clock + 1)
  }

  /** A write or a read whose error ends the pass. */
  function Checked(before: Pass, after: Pass, fails: Faults, end: End): Flow {
    if fails(before.clock) then Stop(after, end) else Next(after)
  }

  /** A condition call; the error of its write is dropped. */
  function ApplyOp(p: Pass, fails: Faults, op: ConditionOp): Pass {
    Write(p.(mem := p.mem.(conditions := Apply(p.mem.conditions, op, p.clock))), fails)
  }

  function ApplyOps(p: Pass, fails: Faults, ops: seq<ConditionOp>): Pass
    decreases |ops|
  {
    if ops == [] then p else ApplyOps(ApplyOp(p, fails, ops[0]), fails, ops[1..])
  }

  // ---- Condition calls of the error paths ----

  function Fail(reason: string, message: string): ConditionOp {
    Put(FAILURE, STATUS_TRUE, reason, message)
  }

  const PRIMING_TYPES := [PRIMER, PRIMING_IN_PROGRESS, SETUP_COMPLETE]

  function DisabledOps(): seq<ConditionOp> {
    [Put(RUNNING, STATUS_FALSE, "UpdateAcceleratorDisabled", "UpgradeAccelerator is disabled")]
    + Drops([FAILURE, SUCCESSFUL, INFRASTRUCTURE_FOUND] + PRIMING_TYPES)
  }

  function NoInfrastructureOps(message: string): seq<ConditionOp> {
    [Put(INFRASTRUCTURE_FOUND, STATUS_FALSE, "InfrastructureNotFound", message),
     Fail("GetInfrastructureFailed", message)]
    + Drops([SUCCESSFUL] + PRIMING_TYPES)
  }

  /** What `Reconcile` does when a set-up function returned an error. */
  function SetupFailedOps(message: string): seq<ConditionOp> {
    [Fail("SetupFailed", message)] + Drops([RUNNING, SUCCESSFUL] + PRIMING_TYPES)
  }

  function NoVersionOps(message: string): seq<ConditionOp> {
    [Fail("GetClusterVersionFailed", message)] + Drops([SUCCESSFUL, RUNNING] + PRIMING_TYPES)
    + SetupFailedOps(message)
  }

  function UnselectedOps(reason: string, dropRunning: bool, message: string): seq<ConditionOp> {
    [Fail(reason, message)]
    + Drops((if dropRunning then [SUCCESSFUL, RUNNING] else [SUCCESSFUL]) + PRIMING_TYPES)
  }

  function NoTargetsOps(): seq<ConditionOp> {
    [Put(RUNNING, STATUS_FALSE, "NoNodesSelected", "No targeted nodes found")]
    + Drops([SUCCESSFUL] + PRIMING_TYPES)
  }

  function ResourceOps(r: Resources): seq<ConditionOp>
    requires !r.Ready?
  {
    (match r
     case NoReleaseImages(m) =>
       [Fail("GetReleaseImagesFailed", m)] + Drops([RUNNING, SUCCESSFUL] + PRIMING_TYPES)
     case NoNamespace(m) =>
       [Put(SETUP_COMPLETE, STATUS_FALSE, "NamespaceFailure", m)] + SetupFailedOps(m)
     case NoConfigMap(m) =>
       [Put(SETUP_COMPLETE, STATUS_FALSE, "ConfigMapFailure", m)] + SetupFailedOps(m)
     case NoPullScript(m) =>
       SetupFailedOps(m) + [Put(SETUP_COMPLETE, STATUS_FALSE, "ConfigMapFailure", m)])
    + SetupFailedOps(r.message)
  }

  const COMPLETED_MESSAGE := "All targeted nodes have completed"

  const NOT_RUNNING := Put(RUNNING, STATUS_FALSE, "ReconciliationCompleted", COMPLETED_MESSAGE)

  function Warming(message: string): ConditionOp {
    Put(RUNNING, STATUS_TRUE, "JobsScheduled", message)
  }

  // ---- Before the node lists ----

  function NoLists(s: Status): Status {
    s.(selected := [], primers := [], waiting := [], warming := [], preheated := [])
  }

  /** `setupClusterVersion`: the version fields follow the cluster. */
  function WithRelease(v: Versions, r: Release): Versions {
    v.(current := r.current, target := r.desired, desired := r.desired, image := r.image)
  }

  function CheckInfrastructure(p: Pass, o: Observation): Flow {
    match o.infrastructure
    case Err(message) => Stop(ApplyOps(p, o.fails, NoInfrastructureOps(message)), Failed)
    case Ok(kind) =>
      if p.mem.versions.infrastructure == kind then Next(p)
      else
        var q := ApplyOp(p.(mem := p.mem.(versions := p.mem.versions.(infrastructure := kind))), o.fails,
                         Put(INFRASTRUCTURE_FOUND, STATUS_TRUE, "InfrastructureFound", "Platform Type: " + kind));
        Checked(q, Read(q, o.fails), o.fails, Failed)
  }

  function CheckRelease(p: Pass, o: Observation): (f: Flow)
    ensures f.Next? ==> o.release.Ok?
  {
    match o.release
    case Err(message) => Stop(ApplyOps(p, o.fails, NoVersionOps(message)), Failed)
    case Ok(r) =>
      var versions := WithRelease(p.mem.versions, r);
      if versions == p.mem.versions then Next(p)
      else
        WrittenVersions(p.(mem := p.mem.(versions := versions)), o)
  }

  function WrittenVersions(p: Pass, o: Observation): Flow {
    var w := Write(p, o.fails);
    if o.fails(p.clock) then Stop(ApplyOps(w, o.fails, SetupFailedOps(o.errorText)), Failed)
    else Checked(w, Read(w, o.fails), o.fails, Failed)
  }

  /** From the first Get up to the version fields. */
  function Preflight(p: Pass, o: Observation): (f: Flow)
    ensures f.Next? ==> o.release.Ok?
  {
    var q := Read(p, o.fails);
    if o.fails(p.clock) then Stop(q, Failed)
    else if o.disabled then
      Stop(ApplyOps(q.(mem := NoLists(q.mem)), o.fails, DisabledOps()), Disabled)
    else
      var f := CheckInfrastructure(q, o);
      if f.Stop? then f else CheckRelease(f.p, o)
  }

  // ---- Targets and the early exit ----

  predicate AllIn(xs: seq<string>, ys: seq<string>) {
    forall x :: x in xs ==> x in ys
  }

  /** The primer condition as the node lists alone show it. */
  function PrimerCheck(p: Pass, o: Observation, primers: seq<string>): Pass {
    if primers == [] then
      ApplyOp(p, o.fails, Put(PRIMER, STATUS_FALSE, PRIMER_SKIPPED, "Priming effectively disabled"))
    else if AllIn(primers, p.mem.preheated) then
      ApplyOp(p, o.fails, Put(PRIMER, STATUS_TRUE, PRIMER_COMPLETED, "All primer nodes are preheated"))
    else p
  }

  function CheckTargets(p: Pass, o: Observation): (f: Flow)
    ensures f.Next? ==> o.selection.Selected?
  {
    match o.selection
    case Unselected(reason, dropRunning, message) =>
      Stop(ApplyOps(p, o.fails, UnselectedOps(reason, dropRunning, message)), Failed)
    case Selected(targets, primers) =>
      if targets == [] then
        Stop(ApplyOps(p.(mem := NoLists(p.mem)), o.fails, NoTargetsOps()), NoTargets)
      else
        EarlyExit(PrimerCheck(p.(mem := p.mem.(selected := targets, primers := primers)), o, primers), o)
  }

  /** The completion test that looks at lengths only; otherwise the status is written and read back. */
  function EarlyExit(p: Pass, o: Observation): Flow {
    if |p.mem.selected| == |p.mem.preheated| && |p.mem.waiting| == 0 then
      Stop(ApplyOps(p, o.fails,
                    [NOT_RUNNING, Put(COMPLETED, STATUS_TRUE, "ReconciliationCompleted", COMPLETED_MESSAGE)]),
           AlreadyComplete)
    else
      var w := Write(p, o.fails);
      if o.fails(p.clock) then Stop(w, Failed) else Checked(w, Read(w, o.fails), o.fails, Failed)
  }

  function SetUp(p: Pass, o: Observation): Flow {
    if o.resources.Ready? then
      Next(ApplyOp(p, o.fails,
                   Put(SETUP_COMPLETE, STATUS_TRUE, "AllSetupComplete", "All setup tasks completed successfully")))
    else Stop(ApplyOps(p, o.fails, ResourceOps(o.resources)), Failed)
  }

  // ---- Filling the waiting list ----

  function Filled(waiting: seq<string>, targets: seq<string>, warming: seq<string>, preheated: seq<string>): seq<string>
    decreases |targets|
  {
    if targets == [] then waiting
    else
      var n := targets[0];
      var more := if n !in warming && n !in preheated && n !in waiting then waiting + [n] else waiting;
      Filled(more, targets[1..], warming, preheated)
  }

  function Fill(p: Pass, o: Observation, targets: seq<string>): Flow {
    var waiting := Filled(p.mem.waiting, targets, p.mem.warming, p.mem.preheated);
    if waiting == p.mem.waiting then Next(p)
    else
      var q := p.(mem := p.mem.(waiting := waiting));
      Checked(q, Write(q, o.fails), o.fails, Failed)
  }

  // ---- Creating one job ----

  datatype Creation = NotCreated(p: Pass) | Existed(p: Pass) | Created(p: Pass)

  /** `createPullJob`: create the job of this node unless its name is taken. */
  function CreatePullJob(p: Pass, cfg: Config, fails: Faults, node: string): Creation {
    var release := p.mem.versions.desired;
    var name := JobName(cfg.hash, node, release);
    var q := p.(clock := p.clock + 1);
    if fails(p.clock) then NotCreated(q)
    else if name in p.jobs then Existed(q)
    else
      var r := q.(clock := q.clock + 1);
      if fails(q.clock) then NotCreated(r)
      else Created(r.(jobs := r.jobs[name := Job(node, release, false)], issued := r.issued + [Issue(node, release)]))
  }

  /** How the code takes an issued node off the waiting list. */
  datatype Removal =
    | ByPrimer   // at its index if the list has several entries, cleared if it is the only entry
    | ByIndex    // at its index, whatever that is
    | IfPresent  // the guarded form

  predicate RemovalPanics(waiting: seq<string>, node: string, removal: Removal) {
    node !in waiting && (removal.ByIndex? || (removal.ByPrimer? && |waiting| > 1))
  }

  function Remaining(waiting: seq<string>, node: string): (r: seq<string>)
    ensures |r| == |waiting| - (if node in waiting then 1 else 0)
  {
    if node in waiting then CutFirst(waiting, node) else waiting
  }

  /** After a Create: the node moves to the warming list, and the status is written. */
  function Issued(p: Pass, fails: Faults, node: string, removal: Removal): Flow {
    var q := p.(mem := p.mem.(warming := p.mem.warming + [node]));
    if RemovalPanics(q.mem.waiting, node, removal) then Stop(q, LostMove)
    else
      var r := q.(mem := q.mem.(waiting := Remaining(q.mem.waiting, node)));
      Checked(r, Write(r, fails), fails, LostWrite)
  }

  /** What one node goes through in the primer loop and in the dispatch loops. */
  datatype Attempt = Attempt(flow: Flow, created: bool)

  function TryNode(p: Pass, cfg: Config, fails: Faults, node: string, removal: Removal): (a: Attempt)
    ensures a.flow.Next? ==> |a.flow.p.mem.waiting| <= |p.mem.waiting|
  {
    if node in p.mem.warming && node in p.mem.preheated then Attempt(Next(p), false)
    else
      match CreatePullJob(p, cfg, fails, node)
      case NotCreated(q) => Attempt(Stop(q, Failed), false)
      case Existed(q) => Attempt(Next(q), false)
      case Created(q) => Attempt(Issued(q, fails, node, removal), true)
  }

  // ---- Primers ----

  datatype PrimerRound = PrimerRound(flow: Flow, scheduled: bool, running: bool)

  function PrimerLoop(p: Pass, cfg: Config, fails: Faults, primers: seq<string>, scheduled: bool,
                      running: bool): PrimerRound
    decreases |primers|
  {
    if primers == [] then PrimerRound(Next(p), scheduled, running)
    else
      var n := primers[0];
      var stillRunning := running || n in p.mem.warming;
      var a := TryNode(p, cfg, fails, n, ByPrimer);
      if a.flow.Stop? then PrimerRound(a.flow, scheduled || a.created, stillRunning)
      else PrimerLoop(a.flow.p, cfg, fails, primers[1..], scheduled || a.created, stillRunning)
  }

  function PrimerConditions(p: Pass, fails: Faults, primers: seq<string>, scheduled: bool, running: bool): Pass {
    var names := Join(primers, ", ");
    var q := if scheduled then
               ApplyOp(p, fails,
                       Put(PRIMER, STATUS_TRUE, PRIMER_IN_PROGRESS, "Primer nodes warming in progress: " + names))
             else p;
    var r := if running then ApplyOp(q, fails, Warming("Following primer nodes currently warming: " + names)) else q;
    if !running && !scheduled then
      ApplyOp(r, fails, Put(PRIMER, STATUS_TRUE, PRIMER_COMPLETED, "Primer nodes warming completed: " + names))
    else r
  }

  function SchedulePrimers(p: Pass, cfg: Config, o: Observation, primers: seq<string>): Flow {
    if cfg.prime && |primers| > 0 then
      var round := PrimerLoop(p, cfg, o.fails, primers, false, false);
      if round.flow.Stop? then round.flow
      else Next(PrimerConditions(round.flow.p, o.fails, primers, round.scheduled, round.running))
    else Next(p)
  }

  // ---- Dispatch ----

  predicate GateOpen(s: Status) {
    PrimerReason(s) == PRIMER_SKIPPED || PrimerReason(s) == PRIMER_COMPLETED
  }

  /** The cells of an array after `append(xs[:k], xs[k+1:]...)` on its first `live` cells: the tail moves
      down by one, and the last live cell keeps its old value beyond the new end. */
  function Shifted(cells: seq<string>, k: nat, live: nat): (r: seq<string>)
    requires k < live <= |cells|
    ensures |r| == |cells|
  {
    seq(|cells|, x requires 0 <= x < |cells| => cells[if k <= x < live - 1 then x + 1 else x])
  }

  /** The live cells are the list with entry `k` cut out. */
  lemma ShiftedIsCut(cells: seq<string>, k: nat, live: nat)
    requires k < live <= |cells|
    ensures Shifted(cells, k, live)[..live - 1] == Cut(cells[..live], k)
  {
  }

  /** The cells after `node` was taken off the list in the first `live` of them. */
  function AfterRemoval(cells: seq<string>, live: nat, node: string): (r: seq<string>)
    requires live <= |cells|
    ensures |r| == |cells|
  {
    var k := IndexOf(cells[..live], node);
    if k < 0 then cells else Shifted(cells, k, live)
  }

  datatype Round = Round(flow: Flow, cells: seq<string>)

  /** The dispatch loop for parallelism 0. It ranges over the first `n` cells of the array that also holds the
      waiting list, so every removal moves the cells that are still to be read. */
  function DispatchShared(p: Pass, cfg: Config, fails: Faults, cells: seq<string>, n: nat, i: nat): Round
    requires i <= n <= |cells| && |p.mem.waiting| <= |cells|
    decreases n - i
  {
    if i == n then Round(Next(p), cells[..n])
    else
      var a := TryNode(p, cfg, fails, cells[i], ByIndex);
      var cells' := if a.created then AfterRemoval(cells, |p.mem.waiting|, cells[i]) else cells;
      if a.flow.Stop? then Round(a.flow, cells'[..n])
      else DispatchShared(a.flow.p, cfg, fails, cells', n, i + 1)
  }

  lemma RemovalBelow(cells: seq<string>, live: nat, n: nat, node: string)
    requires live <= n <= |cells|
    ensures AfterRemoval(cells, live, node)[..n] == AfterRemoval(cells[..n], live, node)
  {
    assert cells[..n][..live] == cells[..live];
  }

  /** The loop depends on the cells below `n` only. */
  lemma {:induction false} CellsBeyondAreNotRead(p: Pass, cfg: Config, fails: Faults, cells: seq<string>, n: nat,
                                                 i: nat)
    requires i <= n <= |cells| && |p.mem.waiting| <= n
    ensures DispatchShared(p, cfg, fails, cells, n, i) == DispatchShared(p, cfg, fails, cells[..n], n, i)
    decreases n - i
  {
    var below := cells[..n];
    assert below[..n] == below;
    if i < n {
      var a := TryNode(p, cfg, fails, cells[i], ByIndex);
      var cells' := if a.created then AfterRemoval(cells, |p.mem.waiting|, cells[i]) else cells;
      var below' := if a.created then AfterRemoval(below, |p.mem.waiting|, below[i]) else below;
      RemovalBelow(cells, |p.mem.waiting|, n, cells[i]);
      assert cells'[..n] == below';
      if a.flow.Next? {
        CellsBeyondAreNotRead(a.flow.p, cfg, fails, cells', n, i + 1);
      } else {
        assert below'[..n] == below';
      }
    }
  }

  /** The dispatch loop over a list of its own. */
  function DispatchBatch(p: Pass, cfg: Config, fails: Faults, batch: seq<string>, removal: Removal): Flow
    decreases |batch|
  {
    if batch == [] then Next(p)
    else
      var a := TryNode(p, cfg, fails, batch[0], removal);
      if a.flow.Stop? then a.flow else DispatchBatch(a.flow.p, cfg, fails, batch[1..], removal)
  }

  function Min(a: int, b: int): int {
    if a < b then a else b
  }

  /** How many nodes the batch of a positive parallelism takes. */
  function BatchSize(cfg: Config, waiting: seq<string>): nat
    requires |waiting| > 0 ==> cfg.parallelism != 0
  {
    if |waiting| == 0 || cfg.parallelism < 0 then 0 else Min(cfg.parallelism, |waiting|)
  }

  /** The batch loop of the code takes `parallelism` nodes without looking at the length. */
  predicate PopPanics(cfg: Config, waiting: seq<string>) {
    cfg.batching.AsWritten? && |waiting| > 0 && cfg.parallelism > |waiting|
  }

  function DispatchNodes(p: Pass, cfg: Config, fails: Faults): Round {
    var waiting := p.mem.waiting;
    if |waiting| > 0 && cfg.parallelism == 0 then DispatchShared(p, cfg, fails, waiting, |waiting|, 0)
    else if PopPanics(cfg, waiting) then Round(Stop(p.(mem := p.mem.(waiting := [])), Panicked), waiting)
    else
      var k := BatchSize(cfg, waiting);
      var q := p.(mem := p.mem.(waiting := waiting[k..]));
      Round(DispatchBatch(q, cfg, fails, waiting[..k], if cfg.batching.AsWritten? then ByIndex else IfPresent),
            waiting[..k])
  }

  function Dispatch(p: Pass, cfg: Config, o: Observation): Flow {
    if !GateOpen(p.mem) then Next(p)
    else
      var round := DispatchNodes(p, cfg, o.fails);
      if round.flow.Stop? then round.flow
      else Next(ApplyOp(round.flow.p, o.fails,
                        Warming("Following nodes currently warming: " + Join(round.cells, ", "))))
  }

  // ---- The job scan ----

  /** What one listed job does to the node lists. */
  function Seen(s: Status, job: Job): Status {
    if !job.succeeded then s
    else
      s.(preheated := if job.node in s.preheated then s.preheated else s.preheated + [job.node],
         warming := if job.node in s.warming then CutFirst(s.warming, job.node) else s.warming)
  }

  function ScanLoop(p: Pass, fails: Faults, listing: seq<Job>): Flow
    decreases |listing|
  {
    if listing == [] then Next(p)
    else
      var mem := Seen(p.mem, listing[0]);
      if mem == p.mem then ScanLoop(p, fails, listing[1..])
      else
        var q := p.(mem := mem);
        if fails(q.clock) then Stop(Write(q, fails), Failed) else ScanLoop(Write(q, fails), fails, listing[1..])
  }

  function Scan(p: Pass, o: Observation, release: string): Flow {
    var q := p.(jobs := Finish(p.jobs, o.late), clock := p.clock + 1);
    if o.fails(p.clock) then Stop(q, Failed)
    else
      var listing := o.list(q.jobs, release);
      if listing == [] then
        if q.mem.warming == [] then Next(q)
        else
          var r := q.(mem := q.mem.(waiting := q.mem.waiting + q.mem.warming, warming := []));
          Checked(r, Write(r, o.fails), o.fails, Failed)
      else ScanLoop(q, o.fails, listing)
  }

  // ---- The end of the pass ----

  function Conclude(p: Pass, o: Observation): Flow {
    if |p.mem.waiting| == 0 && |p.mem.warming| == 0 && |p.mem.preheated| == |p.mem.selected| then
      var q := ApplyOp(p, o.fails, NOT_RUNNING);
      if o.fails(p.clock) then Stop(q, Failed)
      else
        var r := q.(mem := q.mem.(versions := q.mem.versions.(lastCompleted := q.mem.versions.target)));
        Stop(Write(r, o.fails), if o.fails(r.clock) then Failed else Completed)
    else Stop(p, Pending)
  }

  // ---- The pass ----

  /** Everything before the node lists are worked on. */
  function Front(p: Pass, o: Observation): (f: Flow)
    ensures f.Next? ==> o.release.Ok? && o.selection.Selected?
  {
    var f1 := Preflight(p, o);
    if f1.Stop? then f1 else
    var f2 := CheckTargets(f1.p, o);
    if f2.Stop? then f2 else SetUp(f2.p, o)
  }

  /** The work on the node lists up to the listing of the jobs: all Create calls happen here. */
  function Work(p: Pass, cfg: Config, o: Observation): Flow
    requires o.selection.Selected?
  {
    var f := Fill(p, o, o.selection.targets);
    if f.Stop? then f else
    var g := SchedulePrimers(f.p, cfg, o, o.selection.primers);
    if g.Stop? then g else Dispatch(g.p, cfg, o)
  }

  function IssueStage(p: Pass, cfg: Config, o: Observation): (f: Flow)
    ensures f.Next? ==> o.release.Ok? && o.selection.Selected?
  {
    var f := Front(p, o);
    if f.Stop? then f else Work(f.p, cfg, o)
  }

  /** From the listing of the jobs to the end. */
  function Close(p: Pass, o: Observation, release: string): (f: Flow)
    ensures f.Stop?
  {
    var f := Scan(p, o, release);
    if f.Stop? then f else Conclude(f.p, o)
  }

  /** The pass behind the front part. */
  function Rest(p: Pass, cfg: Config, o: Observation): (f: Flow)
    requires o.selection.Selected? && o.release.Ok?
    ensures f.Stop?
  {
    var f := Work(p, cfg, o);
    if f.Stop? then f else Close(f.p, o, o.release.value.desired)
  }

  function Reconcile(p: Pass, cfg: Config, o: Observation): (f: Flow)
    ensures f.Stop?
  {
    var f := Front(p, o);
    if f.Stop? then f else Rest(f.p, cfg, o)
  }
}
