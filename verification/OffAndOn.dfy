/** Switching the accelerator off and on again without a batch: as long as the job of a target is in the store, no pass
    ever completes. */
module OffAndOn {
  import opened NodeLists
  import opened PullJobs
  import opened Passes
  import opened FrontFacts
  import opened IssueFacts
  import opened Runs
  import opened Completion
  import opened Resets

  // ---- One pass ----

  /** The node waits for a job that exists already, so no dispatch ever takes it off the list. */
  ghost predicate WaitsInVain(s: Status, jobs: JobStore, hash: Hash, v: string, n: string) {
    n in s.waiting && HasJob(jobs, hash, n, v)
  }

  ghost function VainFlow(hash: Hash, v: string, n: string, done: string): Flow -> bool {
    (f: Flow) =>
      && WaitsInVain(f.p.mem, f.p.jobs, hash, v, n) && WaitsInVain(f.p.saved, f.p.jobs, hash, v, n)
      && f.p.mem.versions.desired == v
      && f.p.mem.versions.lastCompleted == f.p.saved.versions.lastCompleted == done
      && (f.Stop? ==> f.end !in {AlreadyComplete, Completed})
  }

  lemma AttemptsLeaveIt(cfg: Config, fails: Faults, removal: Removal, v: string, n: string, done: string,
                        nodes: set<string>)
    ensures Kept(VainFlow(cfg.hash, v, n, done), cfg, fails, removal, nodes)
  {
    var inv := VainFlow(cfg.hash, v, n, done);
    forall p: Pass, m: string | inv(Next(p)) && m in nodes ensures inv(TryNode(p, cfg, fails, m, removal).flow) {
      AttemptOutcome(p, cfg, fails, m, removal);
      if m in p.mem.waiting {
        CutFirstMembers(p.mem.waiting, m);
      }
    }
  }

  lemma RoundLeavesIt(p: Pass, cfg: Config, o: Observation, primers: seq<string>, v: string, n: string, done: string)
    requires VainFlow(cfg.hash, v, n, done)(Next(p))
    ensures VainFlow(cfg.hash, v, n, done)(SchedulePrimers(p, cfg, o, primers))
  {
    var inv := VainFlow(cfg.hash, v, n, done);
    if cfg.prime && |primers| > 0 {
      AttemptsLeaveIt(cfg, o.fails, ByPrimer, v, n, done, Elements(primers));
      PrimerLoopKeeps(inv, p, cfg, o.fails, primers, false, false, Elements(primers));
      var r := PrimerLoop(p, cfg, o.fails, primers, false, false);
      assert inv(r.flow);
      if r.flow.Next? {
        ConditionsKeepLists(r.flow.p, o.fails, primers, r.scheduled, r.running);
      }
    }
  }

  lemma DispatchLeavesIt(p: Pass, cfg: Config, o: Observation, v: string, n: string, done: string)
    requires VainFlow(cfg.hash, v, n, done)(Next(p)) && cfg.parallelism <= 0
    ensures VainFlow(cfg.hash, v, n, done)(Dispatch(p, cfg, o))
  {
    var inv, nodes := VainFlow(cfg.hash, v, n, done), Elements(p.mem.waiting);
    AttemptsLeaveIt(cfg, o.fails, ByIndex, v, n, done, nodes);
    AttemptsLeaveIt(cfg, o.fails, IfPresent, v, n, done, nodes);
    assert p.mem.waiting[0..] == p.mem.waiting;
    DispatchNodesKeeps(inv, p, cfg, o.fails, nodes);
    assert inv(DispatchNodes(p, cfg, o.fails).flow);
  }

  lemma {:induction false} ScanLeavesIt(p: Pass, fails: Faults, listing: seq<Job>, hash: Hash, v: string, n: string,
                                        done: string)
    requires VainFlow(hash, v, n, done)(Next(p))
    ensures VainFlow(hash, v, n, done)(ScanLoop(p, fails, listing))
    decreases |listing|
  {
    if listing != [] {
      var q := p.(mem := Seen(p.mem, listing[0]));
      if q == p || !fails(q.clock) {
        ScanLeavesIt(if q == p then p else Write(q, fails), fails, listing[1..], hash, v, n, done);
      }
    }
  }

  lemma CloseLeavesIt(p: Pass, o: Observation, hash: Hash, v: string, n: string, done: string)
    requires VainFlow(hash, v, n, done)(Next(p))
    ensures VainFlow(hash, v, n, done)(Close(p, o, v))
  {
    var q := p.(jobs := Finish(p.jobs, o.late), clock := p.clock + 1);
    ScanLeavesIt(q, o.fails, o.list(q.jobs, v), hash, v, n, done);
    assert VainFlow(hash, v, n, done)(Scan(p, o, v));
  }

  lemma RestLeavesIt(p: Pass, cfg: Config, o: Observation, v: string, n: string, done: string)
    requires VainFlow(cfg.hash, v, n, done)(Next(p)) && cfg.parallelism <= 0
    requires o.selection.Selected? && o.release.Ok? && o.release.value.desired == v
    ensures VainFlow(cfg.hash, v, n, done)(BehindFill(p, cfg, o))
  {
    var inv := VainFlow(cfg.hash, v, n, done);
    RoundLeavesIt(p, cfg, o, o.selection.primers, v, n, done);
    var g := SchedulePrimers(p, cfg, o, o.selection.primers);
    if g.Next? {
      assert inv(Next(g.p));
      DispatchLeavesIt(g.p, cfg, o, v, n, done);
      var f := Dispatch(g.p, cfg, o);
      if f.Next? {
        assert inv(Next(f.p));
        CloseLeavesIt(f.p, o, cfg.hash, v, n, done);
      }
    }
  }

  /** The pass from the primer round to its end. */
  function BehindFill(p: Pass, cfg: Config, o: Observation): Flow
    requires o.selection.Selected? && o.release.Ok?
  {
    var g := SchedulePrimers(p, cfg, o, o.selection.primers);
    if g.Stop? then g else
    var f := Dispatch(g.p, cfg, o);
    if f.Stop? then f else Close(f.p, o, o.release.value.desired)
  }

  lemma RestIsBehindFill(p: Pass, cfg: Config, o: Observation)
    requires o.selection.Selected? && o.release.Ok?
    ensures var f := Fill(p, o, o.selection.targets);
            Rest(p, cfg, o) == if f.Stop? then f else BehindFill(f.p, cfg, o)
  {
  }

  /** Nothing is on the lists, or the node waits in vain. */
  ghost predicate Stalled(p: Pass, hash: Hash, v: string, n: string, done: string) {
    && HasJob(p.jobs, hash, n, v) && (ListsOf(p.saved) == NO_LISTS || n in p.saved.waiting)
    && p.saved.versions.lastCompleted == done
  }

  /** Any faults, switched on or off; the node is a target whenever the targets can be determined. */
  ghost predicate Targets(o: Observation, v: string, n: string) {
    Asks(o, v) && (o.selection.Selected? ==> n in o.selection.targets)
  }

  lemma StalledFill(p: Pass, o: Observation, hash: Hash, v: string, n: string, done: string)
    requires Stalled(p, hash, v, n, done) && o.selection.Selected? && n in o.selection.targets
    requires ListsOf(p.mem) == ListsOf(p.saved) && p.mem.versions.desired == v && p.mem.versions.lastCompleted == done
    ensures var f := Fill(p, o, o.selection.targets);
            if f.Next? then VainFlow(hash, v, n, done)(f)
            else f.end == Failed && f.p.jobs == p.jobs && f.p.saved == p.saved
  {
    FilledFacts(p.mem.waiting, o.selection.targets, p.mem.warming, p.mem.preheated);
  }

  /** Whatever fails, the pass does not complete, and the node still waits in vain. */
  lemma StalledPass(p: Pass, cfg: Config, o: Observation, v: string, n: string, done: string)
    requires Stalled(p, cfg.hash, v, n, done) && Targets(o, v, n) && cfg.parallelism <= 0
    ensures var f := Reconcile(p, cfg, o);
            Stalled(f.p, cfg.hash, v, n, done) && f.end !in {AlreadyComplete, Completed}
  {
    FrontKeepsLists(p, o);
    var f := Front(p, o);
    if f.Next? {
      StalledFill(f.p, o, cfg.hash, v, n, done);
      RestIsBehindFill(f.p, cfg, o);
      var g := Fill(f.p, o, o.selection.targets);
      if g.Next? {
        RestLeavesIt(g.p, cfg, o, v, n, done);
        assert VainFlow(cfg.hash, v, n, done)(BehindFill(g.p, cfg, o));
      }
    }
  }

  // ---- Runs ----

  /** Passes without a batch that target the node, switched on or off, and jobs that succeed. */
  ghost predicate StalledAction(a: Action, hash: Hash, v: string, n: string) {
    match a
    case Reconciled(cfg, o) => cfg.hash == hash && cfg.parallelism <= 0 && Targets(o, v, n)
    case JobSucceeds(_) => true
    case JobDisappears(_) => false
  }

  lemma {:induction false} StaysStalled(w: World, actions: seq<Action>, hash: Hash, v: string, n: string, done: string)
    requires Stalled(w.pass, hash, v, n, done) && forall a :: a in actions ==> StalledAction(a, hash, v, n)
    ensures Stalled(Run(w, actions).pass, hash, v, n, done)
    decreases |actions|
  {
    if actions != [] {
      var front, last := actions[..|actions| - 1], actions[|actions| - 1];
      StaysStalled(w, front, hash, v, n, done);
      assert last in actions;
      StalledStep(Run(w, front), last, hash, v, n, done);
    }
  }

  lemma StalledStep(w: World, a: Action, hash: Hash, v: string, n: string, done: string)
    requires Stalled(w.pass, hash, v, n, done) && StalledAction(a, hash, v, n)
    ensures Stalled(Step(w, a).pass, hash, v, n, done)
  {
    match a
    case Reconciled(cfg, o) => StalledPass(w.pass, cfg, o, v, n, done);
    case JobSucceeds(_) =>
    case JobDisappears(_) =>
  }

  /** A node has its job, and the accelerator is found switched off once. From then on, in every run without a batch
      that targets the node and in which no job disappears, whatever fails and whatever jobs succeed, no pass completes,
      and LastCompletedVersion stays what it was: the node waits, its job exists, and only a new job would take it off
      the list. */
  lemma NeverCompletesAgain(w: World, off: Action, actions: seq<Action>, cfg: Config, o: Observation, v: string,
                            n: string)
    requires HasJob(w.pass.jobs, cfg.hash, n, v)
    requires off.Reconciled? && off.o.disabled && !off.o.fails(w.pass.clock)
             && SomeWorks(off.o.fails, w.pass.clock + 1, 7)
    requires forall a :: a in actions ==> StalledAction(a, cfg.hash, v, n)
    requires Targets(o, v, n) && cfg.parallelism <= 0
    ensures var p := Run(Step(w, off), actions).pass;
            && Reconcile(p, cfg, o).end !in {AlreadyComplete, Completed}
            && Reconcile(p, cfg, o).p.saved.versions.lastCompleted == w.pass.saved.versions.lastCompleted
  {
    var done := w.pass.saved.versions.lastCompleted;
    DisabledClears(w.pass, off.cfg, off.o);
    StaysStalled(Step(w, off), actions, cfg.hash, v, n, done);
    StalledPass(Run(Step(w, off), actions).pass, cfg, o, v, n, done);
  }
}
