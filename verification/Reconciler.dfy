/** The controller object: one status in memory, whose waiting list is a window of an array that is cut in
    place, and the API server it talks to. Every method refines its function in `Passes`. */
module Controller {
  import opened Conditions
  import opened NodeLists
  import opened PullJobs
  import opened Passes

  /** `append(xs[:k], xs[k+1:]...)` for the slice `xs` of the first `live` cells: its tail moves down in the
      array. */
  method CutInPlace(cells: array<string>, k: nat, live: nat)
    requires k < live <= cells.Length
    modifies cells
    ensures cells[..] == Shifted(old(cells[..]), k, live)
  {
    for j := k to live - 1
      invariant forall m :: 0 <= m < cells.Length ==>
                  cells[m] == old(cells[if k <= m < j then m + 1 else m])
    {
      cells[j] := cells[j + 1];
    }
  }

  class Reconciler {
    // The UpgradeAccelerator object in memory; NodesWaiting is cells[..count].
    var versions: Versions
    var conditions: seq<Condition>
    var selected: seq<string>
    var primers: seq<string>
    var cells: array<string>
    var count: nat
    var warming: seq<string>
    var preheated: seq<string>

    // The API server.
    var saved: Status
    var jobs: JobStore
    var issued: seq<Issue>
    var clock: nat

    ghost predicate Valid()
      reads this
    {
      count <= cells.Length
    }

    function Waiting(): seq<string>
      requires Valid()
      reads this, cells
    {
      cells[..count]
    }

    function Mem(): Status
      requires Valid()
      reads this, cells
    {
      Status(versions, conditions, selected, primers, Waiting(), warming, preheated)
    }

    function State(): Pass
      requires Valid()
      reads this, cells
    {
      Pass(Mem(), saved, jobs, issued, clock)
    }

    /** The state together with how the code stands: going on, or ended. */
    function Result(end: Option<End>): Flow
      requires Valid()
      reads this, cells
    {
      if end.None? then Next(State()) else Stop(State(), end.value)
    }

    constructor (saved: Status, jobs: JobStore)
      ensures Valid() && fresh(cells)
      ensures this.saved == saved && this.jobs == jobs && issued == [] && clock == 0
    {
      versions := saved.versions;
      conditions, selected, primers, warming, preheated := [], [], [], [], [];
      cells := new string[0];
      count := 0;
      this.saved, this.jobs, issued, clock := saved, jobs, [], 0;
    }

    // ---- API calls ----

    method WriteStatus(fails: Faults) returns (ok: bool)
      requires Valid()
      modifies `saved, `clock
      ensures Valid() && State() == Write(old(State()), fails) && ok == !fails(old(clock))
    {
      ok := !fails(clock);
      if ok {
        saved := Mem();
      }
      clock := clock + 1;
    }

    method SetWaiting(list: seq<string>)
      modifies `cells, `count
      ensures Valid() && fresh(cells)
      ensures Waiting() == list
    {
      cells := new string[|list|](i requires 0 <= i < |list| => list[i]);
      count := |list|;
    }

    method ReadStatus(fails: Faults) returns (ok: bool)
      requires Valid()
      modifies this
      ensures Valid() && (cells == old(cells) || fresh(cells))
      ensures State() == Read(old(State()), fails) && ok == !fails(old(clock))
    {
      ok := !fails(clock);
      if ok {
        versions, conditions := saved.versions, saved.conditions;
        selected, primers, warming, preheated := saved.selected, saved.primers, saved.warming, saved.preheated;
        SetWaiting(saved.waiting);
      }
      clock := clock + 1;
    }

    // ---- Conditions ----

    method PutCondition(c: Condition)
      modifies `conditions
      ensures conditions == Upsert(old(conditions), c)
    {
      for i := 0 to |conditions|
        invariant conditions == old(conditions)
        invariant forall j :: 0 <= j < i ==> conditions[j].ctype != c.ctype
      {
        if conditions[i].ctype == c.ctype {
          UpsertAt(conditions, c, i);
          if ContentOf(conditions[i]) != ContentOf(c) {
            conditions := conditions[i := c];
          }
          return;
        }
      }
      UpsertAt(conditions, c, |conditions|);
      conditions := conditions + [c];
    }

    method AppendCondition(ctype: string, status: string, reason: string, message: string,
                           fails: Faults) returns (ok: bool)
      requires Valid()
      modifies `conditions, `saved, `clock
      ensures Valid() && State() == ApplyOp(old(State()), fails, Put(ctype, status, reason, message))
      ensures ok == !fails(old(clock))
    {
      PutCondition(Condition(ctype, status, reason, message, clock));
      ok := WriteStatus(fails);
    }

    method DeleteCondition(ctype: string, fails: Faults) returns (ok: bool)
      requires Valid()
      modifies `conditions, `saved, `clock
      ensures Valid() && State() == ApplyOp(old(State()), fails, Drop(ctype))
      ensures ok == !fails(old(clock))
    {
      var kept: seq<Condition> := [];
      for i := 0 to |conditions|
        invariant Without(conditions, ctype) == kept + Without(conditions[i..], ctype)
      {
        assert conditions[i..][1..] == conditions[i + 1..];
        if conditions[i].ctype != ctype {
          kept := kept + [conditions[i]];
        }
      }
      conditions := kept;
      ok := WriteStatus(fails);
    }

    method GetConditionReason(ctype: string) returns (reason: string)
      ensures reason == ReasonOf(conditions, ctype)
    {
      for i := 0 to |conditions|
        invariant ReasonOf(conditions, ctype) == ReasonOf(conditions[i..], ctype)
      {
        if conditions[i].ctype == ctype {
          return conditions[i].reason;
        }
        assert conditions[i..][1..] == conditions[i + 1..];
      }
      return "";
    }

    /** Condition calls in a row, each dropping the error of its write. */
    method ApplyConditionOps(ops: seq<ConditionOp>, fails: Faults)
      requires Valid()
      modifies `conditions, `saved, `clock
      ensures Valid() && State() == ApplyOps(old(State()), fails, ops)
    {
      for i := 0 to |ops|
        invariant Valid()
        invariant ApplyOps(old(State()), fails, ops) == ApplyOps(State(), fails, ops[i..])
      {
        assert ops[i..][1..] == ops[i + 1..];
        match ops[i] {
          case Put(t, status, reason, message) =>
            var _ := AppendCondition(t, status, reason, message, fails);
          case Drop(t) =>
            var _ := DeleteCondition(t, fails);
        }
      }
    }

    // ---- Before the node lists ----

    method ClearLists()
      modifies this
      ensures Valid() && fresh(cells)
              && Mem() == NoLists(old(Status(versions, conditions, selected, primers, [], warming, preheated)))
      ensures unchanged(`saved, `jobs, `issued, `clock)
    {
      preheated, selected, warming, primers := [], [], [], [];
      SetWaiting([]);
    }

    method FindInfrastructure(o: Observation) returns (end: Option<End>)
      requires Valid()
      modifies this
      ensures Valid() && (cells == old(cells) || fresh(cells))
      ensures Result(end) == CheckInfrastructure(old(State()), o)
    {
      match o.infrastructure {
        case Err(message) =>
          ApplyConditionOps(NoInfrastructureOps(message), o.fails);
          return Some(Failed);
        case Ok(kind) =>
          if versions.infrastructure == kind {
            return None;
          }
          versions := versions.(infrastructure := kind);
          var _ := AppendCondition(INFRASTRUCTURE_FOUND, STATUS_TRUE, "InfrastructureFound", "Platform Type: " + kind,
                                   o.fails);
          var ok := ReadStatus(o.fails);
          return if ok then None else Some(Failed);
      }
    }

    /** The version fields are compared and set one by one. */
    method FollowRelease(r: Release) returns (changed: bool)
      modifies `versions
      ensures versions == WithRelease(old(versions), r) && changed == (versions != old(versions))
    {
      changed := false;
      if versions.current != r.current {
        versions := versions.(current := r.current);
        changed := true;
      }
      if versions.target != r.desired {
        versions := versions.(target := r.desired);
        changed := true;
      }
      if versions.desired != r.desired {
        versions := versions.(desired := r.desired);
        changed := true;
      }
      if versions.image != r.image {
        versions := versions.(image := r.image);
        changed := true;
      }
    }

    method SetupClusterVersion(o: Observation) returns (end: Option<End>)
      requires Valid()
      modifies this
      ensures Valid() && (cells == old(cells) || fresh(cells))
      ensures Result(end) == CheckRelease(old(State()), o)
    {
      match o.release {
        case Err(message) =>
          ApplyConditionOps(NoVersionOps(message), o.fails);
          return Some(Failed);
        case Ok(r) =>
          var changed := FollowRelease(r);
          if !changed {
            return None;
          }
          end := WriteVersions(o);
      }
    }

    method WriteVersions(o: Observation) returns (end: Option<End>)
      requires Valid()
      modifies this
      ensures Valid() && (cells == old(cells) || fresh(cells))
      ensures Result(end) == WrittenVersions(old(State()), o)
    {
      var ok := WriteStatus(o.fails);
      if !ok {
        ApplyConditionOps(SetupFailedOps(o.errorText), o.fails);
        return Some(Failed);
      }
      ok := ReadStatus(o.fails);
      return if ok then None else Some(Failed);
    }

    method Begin(o: Observation) returns (end: Option<End>)
      requires Valid()
      modifies this
      ensures Valid() && (cells == old(cells) || fresh(cells))
      ensures Result(end) == Preflight(old(State()), o)
    {
      var ok := ReadStatus(o.fails);
      if !ok {
        return Some(Failed);
      }
      if o.disabled {
        ClearLists();
        ApplyConditionOps(DisabledOps(), o.fails);
        return Some(Disabled);
      }
      end := FindInfrastructure(o);
      if end.None? {
        end := SetupClusterVersion(o);
      }
    }

    // ---- Targets and the early exit ----

    method CheckPrimers(o: Observation, primerNodes: seq<string>)
      requires Valid()
      modifies `conditions, `saved, `clock
      ensures Valid() && State() == PrimerCheck(old(State()), o, primerNodes)
    {
      if |primerNodes| == 0 {
        var _ := AppendCondition(PRIMER, STATUS_FALSE, PRIMER_SKIPPED, "Priming effectively disabled", o.fails);
      } else {
        var stillWaiting := false;
        var i := 0;
        while i < |primerNodes| && !stillWaiting
          invariant i <= |primerNodes|
          invariant if stillWaiting then !AllIn(primerNodes, preheated)
                    else forall k :: 0 <= k < i ==> primerNodes[k] in preheated
        {
          if primerNodes[i] !in preheated {
            stillWaiting := true;
          }
          i := i + 1;
        }
        if !stillWaiting {
          var _ := AppendCondition(PRIMER, STATUS_TRUE, PRIMER_COMPLETED, "All primer nodes are preheated", o.fails);
        }
      }
    }

    method SelectTargets(o: Observation) returns (end: Option<End>)
      requires Valid()
      modifies this
      ensures Valid() && (cells == old(cells) || fresh(cells))
      ensures Result(end) == CheckTargets(old(State()), o)
    {
      match o.selection {
        case Unselected(reason, dropRunning, message) =>
          ApplyConditionOps(UnselectedOps(reason, dropRunning, message), o.fails);
          return Some(Failed);
        case Selected(targets, primerNodes) =>
          if |targets| == 0 {
            ClearLists();
            ApplyConditionOps(NoTargetsOps(), o.fails);
            return Some(NoTargets);
          }
          selected := targets;
          primers := primerNodes;
          CheckPrimers(o, primerNodes);
          end := CheckDone(o);
      }
    }

    method CheckDone(o: Observation) returns (end: Option<End>)
      requires Valid()
      modifies this
      ensures Valid() && (cells == old(cells) || fresh(cells))
      ensures Result(end) == EarlyExit(old(State()), o)
    {
      if |selected| == |preheated| && count == 0 {
        ApplyConditionOps([NOT_RUNNING, Put(COMPLETED, STATUS_TRUE, "ReconciliationCompleted", COMPLETED_MESSAGE)],
                          o.fails);
        return Some(AlreadyComplete);
      }
      var ok := WriteStatus(o.fails);
      if !ok {
        return Some(Failed);
      }
      ok := ReadStatus(o.fails);
      return if ok then None else Some(Failed);
    }

    method SetupResources(o: Observation) returns (end: Option<End>)
      requires Valid()
      modifies this
      ensures Valid() && cells == old(cells)
      ensures Result(end) == SetUp(old(State()), o)
    {
      if o.resources.Ready? {
        var _ := AppendCondition(SETUP_COMPLETE, STATUS_TRUE, "AllSetupComplete",
                                 "All setup tasks completed successfully", o.fails);
        return None;
      }
      ApplyConditionOps(ResourceOps(o.resources), o.fails);
      return Some(Failed);
    }

    method FillWaiting(o: Observation, targets: seq<string>) returns (end: Option<End>)
      requires Valid()
      modifies this
      ensures Valid() && (cells == old(cells) || fresh(cells))
      ensures Result(end) == Fill(old(State()), o, targets)
    {
      var nodes := Waiting();
      var changed := false;
      for i := 0 to |targets|
        invariant Filled(Waiting(), targets, warming, preheated) == Filled(nodes, targets[i..], warming, preheated)
        invariant |nodes| >= |Waiting()| && nodes[..|Waiting()|] == Waiting()
        invariant changed <==> nodes != Waiting()
      {
        var n := targets[i];
        assert targets[i..][1..] == targets[i + 1..];
        if n !in warming && n !in preheated && n !in nodes {
          nodes := nodes + [n];
          changed := true;
        }
      }
      if changed {
        SetWaiting(nodes);
        var ok := WriteStatus(o.fails);
        return if ok then None else Some(Failed);
      }
      return None;
    }

    // ---- Creating one job ----

    /** `created` and `ok` are the two results of `createPullJob`. */
    method CreateJob(cfg: Config, fails: Faults, node: string) returns (created: bool, ok: bool)
      requires Valid()
      modifies `jobs, `issued, `clock
      ensures Valid()
      ensures var c := CreatePullJob(old(State()), cfg, fails, node);
              State() == c.p && ok == !c.NotCreated? && created == c.Created?
    {
      var name := JobName(cfg.hash, node, versions.desired);
      created, ok := false, !fails(clock);
      clock := clock + 1;
      if ok && name !in jobs {
        ok := !fails(clock);
        clock := clock + 1;
        if ok {
          jobs := jobs[name := Job(node, versions.desired, false)];
          issued := issued + [Issue(node, versions.desired)];
          created := true;
        }
      }
    }

    method CutWaiting(k: nat)
      requires Valid() && k < count
      modifies `count, cells
      ensures Valid() && count == old(count) - 1
      ensures cells[..] == Shifted(old(cells[..]), k, old(count))
      ensures Waiting() == Cut(old(Waiting()), k)
    {
      ghost var was := cells[..];
      CutInPlace(cells, k, count);
      count := count - 1;
      ShiftedIsCut(was, k, count + 1);
      assert Waiting() == cells[..][..count];
      assert was[..count + 1] == old(Waiting());
    }

    /** How the primer loop takes a node off the waiting list; false where the index is out of range. */
    method RemovePrimer(node: string) returns (ok: bool)
      requires Valid()
      modifies `count, `cells, cells
      ensures Valid() && (cells == old(cells) || fresh(cells))
      ensures ok == !RemovalPanics(old(Waiting()), node, ByPrimer)
      ensures Waiting() == if ok then Remaining(old(Waiting()), node) else old(Waiting())
    {
      ok := true;
      if count == 1 && node in Waiting() {
        CutFirstMembers(Waiting(), node);
        SetWaiting([]);
      } else if count > 1 {
        var index := IndexOf(Waiting(), node);
        if index < 0 {
          return false;
        }
        CutWaiting(index);
      }
    }

    method MovePrimer(fails: Faults, node: string) returns (end: Option<End>)
      requires Valid()
      modifies `warming, `count, `cells, `saved, `clock, cells
      ensures Valid() && (cells == old(cells) || fresh(cells))
      ensures Result(end) == Issued(old(State()), fails, node, ByPrimer)
    {
      warming := warming + [node];
      var ok := RemovePrimer(node);
      if !ok {
        return Some(LostMove);
      }
      ok := WriteStatus(fails);
      return if ok then None else Some(LostWrite);
    }

    // ---- Primers ----

    method RunPrimerLoop(cfg: Config, fails: Faults, primerNodes: seq<string>)
      returns (end: Option<End>, scheduled: bool, running: bool)
      requires Valid()
      modifies this, cells
      ensures Valid() && (cells == old(cells) || fresh(cells))
      ensures PrimerRound(Result(end), scheduled, running) == PrimerLoop(old(State()), cfg, fails, primerNodes, false,
                                                                         false)
    {
      scheduled, running := false, false;
      for i := 0 to |primerNodes|
        invariant Valid() && (cells == old(cells) || fresh(cells))
        invariant PrimerLoop(old(State()), cfg, fails, primerNodes, false, false)
               == PrimerLoop(State(), cfg, fails, primerNodes[i..], scheduled, running)
      {
        var node := primerNodes[i];
        assert primerNodes[i..][1..] == primerNodes[i + 1..];
        if node in warming {
          running := true;
        }
        if node !in warming || node !in preheated {
          var created, ok := CreateJob(cfg, fails, node);
          if !ok {
            return Some(Failed), scheduled, running;
          }
          if created {
            scheduled := true;
            end := MovePrimer(fails, node);
            if end.Some? {
              return;
            }
          }
        }
      }
      end := None;
    }

    method SetPrimerConditions(fails: Faults, primerNodes: seq<string>, scheduled: bool, running: bool)
      requires Valid()
      modifies `conditions, `saved, `clock
      ensures Valid() && State() == PrimerConditions(old(State()), fails, primerNodes, scheduled, running)
    {
      var names := Join(primerNodes, ", ");
      if scheduled {
        var _ := AppendCondition(PRIMER, STATUS_TRUE, PRIMER_IN_PROGRESS, "Primer nodes warming in progress: " + names,
                                 fails);
      }
      if running {
        var _ := AppendCondition(RUNNING, STATUS_TRUE, "JobsScheduled",
                                 "Following primer nodes currently warming: " + names, fails);
      }
      if !running && !scheduled {
        var _ := AppendCondition(PRIMER, STATUS_TRUE, PRIMER_COMPLETED, "Primer nodes warming completed: " + names,
                                 fails);
      }
    }

    method StartPrimers(cfg: Config, o: Observation, primerNodes: seq<string>) returns (end: Option<End>)
      requires Valid()
      modifies this, cells
      ensures Valid() && (cells == old(cells) || fresh(cells))
      ensures Result(end) == SchedulePrimers(old(State()), cfg, o, primerNodes)
    {
      end := None;
      if cfg.prime && |primerNodes| > 0 {
        var scheduled, running;
        end, scheduled, running := RunPrimerLoop(cfg, o.fails, primerNodes);
        if end.None? {
          SetPrimerConditions(o.fails, primerNodes, scheduled, running);
        }
      }
    }

    // ---- Dispatch ----

    method MoveByIndex(fails: Faults, node: string) returns (end: Option<End>)
      requires Valid()
      modifies `warming, `count, `saved, `clock, cells
      ensures Valid() && count <= old(count)
      ensures Result(end) == Issued(old(State()), fails, node, ByIndex)
      ensures cells[..] == AfterRemoval(old(cells[..]), old(count), node)
    {
      ghost var p := State();
      warming := warming + [node];
      var index := IndexOf(Waiting(), node);
      if index < 0 {
        return Some(LostMove);
      }
      CutWaiting(index);
      assert Mem() == p.mem.(warming := p.mem.warming + [node], waiting := CutFirst(p.mem.waiting, node));
      var ok := WriteStatus(fails);
      return if ok then None else Some(LostWrite);
    }

    /** The body of the dispatch loop. */
    method DispatchNode(cfg: Config, fails: Faults, node: string) returns (end: Option<End>, created: bool)
      requires Valid()
      modifies `warming, `count, `saved, `clock, `jobs, `issued, cells
      ensures Valid() && count <= old(count)
      ensures Attempt(Result(end), created) == TryNode(old(State()), cfg, fails, node, ByIndex)
      ensures cells[..] == if created then AfterRemoval(old(cells[..]), old(count), node) else old(cells[..])
    {
      end, created := None, false;
      if node !in warming || node !in preheated {
        var ok;
        created, ok := CreateJob(cfg, fails, node);
        if !ok {
          end := Some(Failed);
        } else if created {
          end := MoveByIndex(fails, node);
        }
      }
    }

    /** Parallelism 0: the loop ranges over the waiting list itself, header fixed, cells shared. */
    method DispatchAll(cfg: Config, fails: Faults) returns (end: Option<End>, next: seq<string>)
      requires Valid()
      modifies `warming, `count, `saved, `clock, `jobs, `issued, cells
      ensures Valid()
      ensures Round(Result(end), next) == DispatchShared(old(State()), cfg, fails, old(cells[..]), old(count), 0)
    {
      var n := count;
      ghost var goal := DispatchShared(State(), cfg, fails, cells[..], n, 0);
      for i := 0 to n
        invariant n <= cells.Length && Valid() && count <= n
        invariant goal == DispatchShared(State(), cfg, fails, cells[..], n, i)
      {
        var created;
        end, created := DispatchNode(cfg, fails, cells[i]);
        if end.Some? {
          return end, cells[..n];
        }
      }
      return None, cells[..n];
    }

    /** The same body for a batch, which has an array of its own. */
    method DispatchBatchNode(cfg: Config, fails: Faults, node: string, removal: Removal) returns (end: Option<End>)
      requires Valid() && !removal.ByPrimer?
      modifies `warming, `count, `saved, `clock, `jobs, `issued, cells
      ensures Valid()
      ensures Result(end) == TryNode(old(State()), cfg, fails, node, removal).flow
    {
      if removal.ByIndex? || node in Waiting() {
        var created;
        end, created := DispatchNode(cfg, fails, node);
        return;
      }
      end := None;
      if node !in warming || node !in preheated {
        var created, ok := CreateJob(cfg, fails, node);
        if !ok {
          end := Some(Failed);
        } else if created {
          warming := warming + [node];
          ok := WriteStatus(fails);
          end := if ok then None else Some(LostWrite);
        }
      }
    }

    /** `removal` is `ByIndex` for the code as written. */
    method DispatchList(cfg: Config, fails: Faults, batch: seq<string>, removal: Removal) returns (end: Option<End>)
      requires Valid() && !removal.ByPrimer?
      modifies `warming, `count, `saved, `clock, `jobs, `issued, cells
      ensures Valid()
      ensures Result(end) == DispatchBatch(old(State()), cfg, fails, batch, removal)
    {
      ghost var goal := DispatchBatch(State(), cfg, fails, batch, removal);
      for i := 0 to |batch|
        invariant Valid()
        invariant goal == DispatchBatch(State(), cfg, fails, batch[i..], removal)
      {
        assert batch[i..][1..] == batch[i + 1..];
        end := DispatchBatchNode(cfg, fails, batch[i], removal);
        if end.Some? {
          return;
        }
      }
      end := None;
    }

    /** The batch of a positive parallelism, taken off the front of the list one by one; false where the code
        as written reads past the end. */
    method PopBatch(cfg: Config) returns (ok: bool, batch: seq<string>)
      requires Valid() && count > 0 && cfg.parallelism != 0
      modifies `cells, `count
      ensures Valid() && (cells == old(cells) || fresh(cells))
      ensures ok == !PopPanics(cfg, old(Waiting()))
      ensures var k := if ok then BatchSize(cfg, old(Waiting())) else |old(Waiting())|;
              batch == old(Waiting())[..k] && Waiting() == old(Waiting())[k..]
    {
      ok, batch := true, [];
      ghost var was := Waiting();
      var i := 0;
      while count > 0 && i < cfg.parallelism
        invariant Valid() && (cells == old(cells) || fresh(cells))
        invariant 0 <= i <= |was| && (i <= cfg.parallelism || i == 0)
        invariant batch == was[..i] && Waiting() == was[i..]
      {
        batch := batch + [cells[0]];
        SetWaiting(cells[1..count]);
        i := i + 1;
      }
      if i < cfg.parallelism {
        ok := cfg.batching.WithGuards?;
      }
    }

    method DispatchNext(cfg: Config, fails: Faults) returns (end: Option<End>, next: seq<string>)
      requires Valid()
      modifies `warming, `count, `cells, `saved, `clock, `jobs, `issued, cells
      ensures Valid() && (cells == old(cells) || fresh(cells))
      ensures Result(end) == DispatchNodes(old(State()), cfg, fails).flow
      ensures end.None? ==> next == DispatchNodes(old(State()), cfg, fails).cells
    {
      if count > 0 && cfg.parallelism == 0 {
        CellsBeyondAreNotRead(State(), cfg, fails, cells[..], count, 0);
        end, next := DispatchAll(cfg, fails);
      } else {
        var ok := true;
        next := [];
        if count > 0 {
          ok, next := PopBatch(cfg);
        }
        if !ok {
          return Some(Panicked), next;
        }
        end := DispatchList(cfg, fails, next, if cfg.batching.AsWritten? then ByIndex else IfPresent);
      }
    }

    method DispatchWaiting(cfg: Config, o: Observation) returns (end: Option<End>)
      requires Valid()
      modifies this, cells
      ensures Valid() && (cells == old(cells) || fresh(cells))
      ensures Result(end) == Dispatch(old(State()), cfg, o)
    {
      var reason := GetConditionReason(PRIMER);
      if reason != PRIMER_SKIPPED && reason != PRIMER_COMPLETED {
        return None;
      }
      var next;
      end, next := DispatchNext(cfg, o.fails);
      if end.None? {
        var _ := AppendCondition(RUNNING, STATUS_TRUE, "JobsScheduled",
                                 "Following nodes currently warming: " + Join(next, ", "), o.fails);
      }
    }

    // ---- The job scan ----

    method ScanJob(job: Job) returns (changed: bool)
      requires Valid()
      modifies `preheated, `warming
      ensures Valid() && Mem() == Seen(old(Mem()), job)
      ensures changed == (Mem() != old(Mem()))
    {
      changed := false;
      if job.succeeded {
        if job.node !in preheated {
          preheated := preheated + [job.node];
          changed := true;
        }
        if job.node in warming {
          CutFirstMembers(warming, job.node);
          warming := CutFirst(warming, job.node);
          changed := true;
        }
      }
    }

    method ScanListing(fails: Faults, listing: seq<Job>) returns (end: Option<End>)
      requires Valid()
      modifies `preheated, `warming, `saved, `clock
      ensures Valid()
      ensures Result(end) == ScanLoop(old(State()), fails, listing)
    {
      ghost var goal := ScanLoop(State(), fails, listing);
      for i := 0 to |listing|
        invariant Valid()
        invariant goal == ScanLoop(State(), fails, listing[i..])
      {
        assert listing[i..][1..] == listing[i + 1..];
        var changed := ScanJob(listing[i]);
        if changed {
          var ok := WriteStatus(fails);
          if !ok {
            return Some(Failed);
          }
        }
      }
      end := None;
    }

    method ScanJobs(o: Observation, release: string) returns (end: Option<End>)
      requires Valid()
      modifies this
      ensures Valid() && (cells == old(cells) || fresh(cells))
      ensures Result(end) == Scan(old(State()), o, release)
    {
      jobs := Finish(jobs, o.late);
      var failed := o.fails(clock);
      clock := clock + 1;
      if failed {
        return Some(Failed);
      }
      var listing := o.list(jobs, release);
      if |listing| > 0 {
        end := ScanListing(o.fails, listing);
      } else if |warming| > 0 {
        end := ReturnToWaiting(o.fails);
      } else {
        end := None;
      }
    }

    method ReturnToWaiting(fails: Faults) returns (end: Option<End>)
      requires Valid()
      modifies `cells, `count, `warming, `saved, `clock
      ensures Valid() && fresh(cells)
      ensures var p := old(State());
              var q := p.(mem := p.mem.(waiting := p.mem.waiting + p.mem.warming, warming := []));
              Result(end) == Checked(q, Write(q, fails), fails, Failed)
    {
      SetWaiting(Waiting() + warming);
      warming := [];
      var ok := WriteStatus(fails);
      end := if ok then None else Some(Failed);
    }

    method FinishPass(o: Observation) returns (end: End)
      requires Valid()
      modifies `conditions, `versions, `saved, `clock
      ensures Valid()
      ensures Stop(State(), end) == Conclude(old(State()), o)
    {
      if count == 0 && |warming| == 0 {
        if |preheated| == |selected| {
          var ok := AppendCondition(RUNNING, STATUS_FALSE, "ReconciliationCompleted", COMPLETED_MESSAGE, o.fails);
          if !ok {
            return Failed;
          }
          versions := versions.(lastCompleted := versions.target);
          ok := WriteStatus(o.fails);
          return if ok then Completed else Failed;
        }
      }
      return Pending;
    }

    // ---- The pass ----

    method Run(cfg: Config, o: Observation) returns (end: End)
      requires Valid()
      modifies this, cells
      ensures Valid()
      ensures Stop(State(), end) == Reconcile(old(State()), cfg, o)
    {
      var e := Begin(o);
      if e.Some? { return e.value; }
      e := SelectTargets(o);
      if e.Some? { return e.value; }
      e := SetupResources(o);
      if e.Some? { return e.value; }
      e := FillWaiting(o, o.selection.targets);
      if e.Some? { return e.value; }
      e := StartPrimers(cfg, o, o.selection.primers);
      if e.Some? { return e.value; }
      e := DispatchWaiting(cfg, o);
      if e.Some? { return e.value; }
      e := ScanJobs(o, o.release.value.desired);
      if e.Some? { return e.value; }
      end := FinishPass(o);
    }
  }
}
