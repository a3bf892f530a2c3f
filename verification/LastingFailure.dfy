/** A reported failure is never taken back while the accelerator is switched on. */
module LastingFailure {
  import opened Conditions
  import opened NodeLists
  import opened PullJobs
  import opened Passes
  import opened IssueFacts
  import opened Runs
  import opened StatusReport

  ghost predicate Reports(s: Status) {
    "Failure" in ReportOf(s)
  }

  ghost predicate BothReport(p: Pass) {
    Reports(p.mem) && Reports(p.saved)
  }

  lemma {:induction false} OpsKeepFailure(p: Pass, fails: Faults, ops: seq<ConditionOp>)
    requires BothReport(p) && Drop("Failure") !in ops
    ensures BothReport(ApplyOps(p, fails, ops))
    decreases |ops|
  {
    if ops != [] {
      assert ops[0] in ops;
      OpOnMap(p.mem.conditions, ops[0], p.clock);
      OpsKeepFailure(ApplyOp(p, fails, ops[0]), fails, ops[1..]);
    }
  }

  lemma OpKeepsFailure(p: Pass, fails: Faults, op: ConditionOp)
    requires BothReport(p) && op != Drop("Failure")
    ensures BothReport(ApplyOp(p, fails, op))
  {
    OpOnMap(p.mem.conditions, op, p.clock);
  }

  // ---- The front part ----

  lemma PreflightKeepsFailure(p: Pass, o: Observation)
    requires Reports(p.saved) && !o.disabled
    ensures var f := Preflight(p, o); Reports(f.p.saved) && (f.Next? ==> BothReport(f.p))
  {
    var q := Read(p, o.fails);
    if !o.fails(p.clock) {
      InfrastructureKeepsFailure(q, o);
      var f := CheckInfrastructure(q, o);
      if f.Next? {
        ReleaseKeepsFailure(f.p, o);
      }
    }
  }

  lemma InfrastructureKeepsFailure(p: Pass, o: Observation)
    requires BothReport(p)
    ensures BothReport(CheckInfrastructure(p, o).p)
  {
    match o.infrastructure
    case Err(text) => OpsKeepFailure(p, o.fails, NoInfrastructureOps(text));
    case Ok(kind) =>
      OpKeepsFailure(p.(mem := p.mem.(versions := p.mem.versions.(infrastructure := kind))), o.fails,
                     Put(INFRASTRUCTURE_FOUND, STATUS_TRUE, "InfrastructureFound", "Platform Type: " + kind));
  }

  lemma ReleaseKeepsFailure(p: Pass, o: Observation)
    requires BothReport(p)
    ensures BothReport(CheckRelease(p, o).p)
  {
    match o.release
    case Err(text) => OpsKeepFailure(p, o.fails, NoVersionOps(text));
    case Ok(r) =>
      var q := p.(mem := p.mem.(versions := WithRelease(p.mem.versions, r)));
      OpsKeepFailure(Write(q, o.fails), o.fails, SetupFailedOps(o.errorText));
  }

  lemma TargetsKeepFailure(p: Pass, o: Observation)
    requires BothReport(p)
    ensures BothReport(CheckTargets(p, o).p)
  {
    match o.selection
    case Unselected(reason, dropRunning, text) =>
      OpsKeepFailure(p, o.fails, UnselectedOps(reason, dropRunning, text));
    case Selected(targets, primers) =>
      if targets == [] {
        OpsKeepFailure(p.(mem := NoLists(p.mem)), o.fails, NoTargetsOps());
      } else {
        var q := p.(mem := p.mem.(selected := targets, primers := primers));
        OpKeepsFailure(q, o.fails, Put(PRIMER, STATUS_FALSE, PRIMER_SKIPPED, "Priming effectively disabled"));
        OpKeepsFailure(q, o.fails, Put(PRIMER, STATUS_TRUE, PRIMER_COMPLETED, "All primer nodes are preheated"));
        ExitKeepsFailure(PrimerCheck(q, o, primers), o);
      }
  }

  lemma ExitKeepsFailure(p: Pass, o: Observation)
    requires BothReport(p)
    ensures BothReport(EarlyExit(p, o).p)
  {
    OpsKeepFailure(p, o.fails,
                   [NOT_RUNNING, Put(COMPLETED, STATUS_TRUE, "ReconciliationCompleted", COMPLETED_MESSAGE)]);
  }

  lemma SetUpKeepsFailure(p: Pass, o: Observation)
    requires BothReport(p)
    ensures BothReport(SetUp(p, o).p)
  {
    if o.resources.Ready? {
      OpKeepsFailure(p, o.fails,
                     Put(SETUP_COMPLETE, STATUS_TRUE, "AllSetupComplete", "All setup tasks completed successfully"));
    } else {
      OpsKeepFailure(p, o.fails, ResourceOps(o.resources));
    }
  }

  lemma FrontKeepsFailure(p: Pass, o: Observation)
    requires Reports(p.saved) && !o.disabled
    ensures var f := Front(p, o); Reports(f.p.saved) && (f.Next? ==> BothReport(f.p))
  {
    PreflightKeepsFailure(p, o);
    var f := Preflight(p, o);
    if f.Next? {
      TargetsKeepFailure(f.p, o);
      var g := CheckTargets(f.p, o);
      if g.Next? {
        SetUpKeepsFailure(g.p, o);
      }
    }
  }

  // ---- The work ----

  ghost function ReportingFlow(): Flow -> bool {
    (f: Flow) => BothReport(f.p)
  }

  lemma AttemptsKeepFailure(cfg: Config, fails: Faults, removal: Removal, nodes: set<string>)
    ensures Kept(ReportingFlow(), cfg, fails, removal, nodes)
  {
    var inv := ReportingFlow();
    forall p: Pass, n: string | inv(Next(p)) && n in nodes ensures inv(TryNode(p, cfg, fails, n, removal).flow) {
      AttemptOutcome(p, cfg, fails, n, removal);
    }
  }

  lemma RoundKeepsFailure(p: Pass, cfg: Config, o: Observation, primers: seq<string>)
    requires BothReport(p)
    ensures BothReport(SchedulePrimers(p, cfg, o, primers).p)
  {
    if cfg.prime && |primers| > 0 {
      AttemptsKeepFailure(cfg, o.fails, ByPrimer, Elements(primers));
      PrimerLoopKeeps(ReportingFlow(), p, cfg, o.fails, primers, false, false, Elements(primers));
      var r := PrimerLoop(p, cfg, o.fails, primers, false, false);
      assert ReportingFlow()(r.flow);
      RoundConditionsKeepFailure(r.flow.p, o.fails, primers, r.scheduled, r.running);
    }
  }

  lemma RoundConditionsKeepFailure(p: Pass, fails: Faults, primers: seq<string>, scheduled: bool, running: bool)
    requires BothReport(p)
    ensures BothReport(PrimerConditions(p, fails, primers, scheduled, running))
  {
    var names := Join(primers, ", ");
    var put := Put(PRIMER, STATUS_TRUE, PRIMER_IN_PROGRESS, "Primer nodes warming in progress: " + names);
    var done := Put(PRIMER, STATUS_TRUE, PRIMER_COMPLETED, "Primer nodes warming completed: " + names);
    OpKeepsFailure(p, fails, put);
    var q := if scheduled then ApplyOp(p, fails, put) else p;
    OpKeepsFailure(q, fails, Warming("Following primer nodes currently warming: " + names));
    OpKeepsFailure(q, fails, done);
  }

  lemma DispatchKeepsFailure(p: Pass, cfg: Config, o: Observation)
    requires BothReport(p)
    ensures BothReport(Dispatch(p, cfg, o).p)
  {
    if GateOpen(p.mem) {
      var nodes := Elements(p.mem.waiting);
      AttemptsKeepFailure(cfg, o.fails, ByIndex, nodes);
      AttemptsKeepFailure(cfg, o.fails, IfPresent, nodes);
      DispatchNodesKeeps(ReportingFlow(), p, cfg, o.fails, nodes);
      var round := DispatchNodes(p, cfg, o.fails);
      assert ReportingFlow()(round.flow);
      OpKeepsFailure(round.flow.p, o.fails,
                     Warming("Following nodes currently warming: " + Join(round.cells, ", ")));
    }
  }

  lemma {:induction false} ScanLoopKeepsFailure(p: Pass, fails: Faults, listing: seq<Job>)
    requires BothReport(p)
    ensures BothReport(ScanLoop(p, fails, listing).p)
    decreases |listing|
  {
    if listing != [] {
      var q := p.(mem := Seen(p.mem, listing[0]));
      assert q.mem.conditions == p.mem.conditions;
      ScanLoopKeepsFailure(if q == p then p else Write(q, fails), fails, listing[1..]);
    }
  }

  lemma CloseKeepsFailure(p: Pass, o: Observation, v: string)
    requires BothReport(p)
    ensures BothReport(Close(p, o, v).p)
  {
    var q := p.(jobs := Finish(p.jobs, o.late), clock := p.clock + 1);
    ScanLoopKeepsFailure(q, o.fails, o.list(q.jobs, v));
    var f := Scan(p, o, v);
    assert BothReport(f.p);
    OpKeepsFailure(f.p, o.fails, NOT_RUNNING);
  }

  lemma WorkKeepsFailure(p: Pass, cfg: Config, o: Observation)
    requires BothReport(p) && o.selection.Selected?
    ensures BothReport(Work(p, cfg, o).p)
  {
    var f := Fill(p, o, o.selection.targets);
    if f.Next? {
      RoundKeepsFailure(f.p, cfg, o, o.selection.primers);
      var g := SchedulePrimers(f.p, cfg, o, o.selection.primers);
      if g.Next? {
        DispatchKeepsFailure(g.p, cfg, o);
      }
    }
  }

  /** A pass of an accelerator that is switched on, however it ends. */
  lemma PassKeepsFailure(p: Pass, cfg: Config, o: Observation)
    requires Reports(p.saved) && !o.disabled
    ensures Reports(Reconcile(p, cfg, o).p.saved)
  {
    FrontKeepsFailure(p, o);
    var f := Front(p, o);
    if f.Next? {
      WorkKeepsFailure(f.p, cfg, o);
      var g := Work(f.p, cfg, o);
      if g.Next? {
        CloseKeepsFailure(g.p, o, o.release.value.desired);
      }
    }
  }

  // ---- Runs ----

  /** Once the condition Failure is saved it stays, over every run in which the accelerator is never found switched off,
      whatever fails or succeeds afterwards, and also when the release completes. */
  lemma {:induction false} FailureLasts(w: World, actions: seq<Action>)
    requires Reports(w.pass.saved)
    requires forall a :: a in actions && a.Reconciled? ==> !a.o.disabled
    ensures Reports(Run(w, actions).pass.saved)
    decreases |actions|
  {
    if actions != [] {
      var front, last := actions[..|actions| - 1], actions[|actions| - 1];
      FailureLasts(w, front);
      assert last in actions;
      if last.Reconciled? {
        PassKeepsFailure(Run(w, front).pass, last.cfg, last.o);
      }
    }
  }
}
