/** A positive parallelism as the code has it: once fewer nodes are due than a batch takes, no pass comes to its end any
    more. */
module ShortBatch {
  import opened NodeLists
  import opened PullJobs
  import opened Passes
  import opened FrontFacts
  import opened IssueFacts
  import opened Runs
  import opened Completion
  import opened Partition
  import opened PrimerGate
  import opened Convergence
  import opened JobAudit
  import opened ListsApart

  // ---- One pass ----

  /** What every run for one release on fixed targets keeps, also when passes die after a Create: due nodes may have
      jobs, even finished ones. */
  ghost predicate Loose(p: Pass, hash: Hash, v: string, targets: seq<string>) {
    && WellNamed(p.jobs, hash, v) && Apart(p.saved, p.jobs, hash, v)
    && NoDuplicates(p.saved.preheated) && AllIn(p.saved.preheated, targets)
  }

  lemma RunsAreLoose(w: World, actions: seq<Action>, hash: Hash, v: string, targets: seq<string>)
    requires CleanStart(w, hash, v) && AlwaysAsks(actions, v)
    requires forall i :: 0 <= i < |actions| ==> KeepsJobs(actions[i], hash)
    requires Run(w, actions).seen <= Elements(targets)
    ensures Loose(Run(w, actions).pass, hash, v, targets)
  {
    RunAccounted(w, actions, v);
    FaithfulFrom(actions, hash, v);
    GuardIsAlwaysTrue(w, actions, hash, v);
    var s := Run(w, actions).pass.saved;
    forall n | n in s.preheated ensures n in targets { assert n in Elements(targets); }
  }

  /** The primers are preheated, and some nodes are due, but fewer than a batch takes. */
  ghost predicate Short(p: Pass, hash: Hash, v: string, targets: seq<string>, primers: seq<string>, batch: int) {
    && Loose(p, hash, v, targets) && AllIn(primers, p.saved.preheated)
    && 0 < |Due(p.saved, targets)| < batch
  }

  /** The early exit does not fire while a node is due. */
  lemma ShortGoesOn(s: Status, targets: seq<string>)
    requires NoDuplicates(targets) && NoDuplicates(s.preheated) && AllIn(s.preheated, targets)
    requires Due(s, targets) != []
    ensures !(|targets| == |s.preheated| && s.waiting == [])
  {
    if |targets| == |s.preheated| && s.waiting == [] {
      EqualLengthCoverage(targets, s.preheated);
      NothingToFill([], targets, s.warming, s.preheated);
    }
  }

  /** What stays as it is. */
  ghost predicate Unmoved(p: Pass, q: Pass, targets: seq<string>) {
    && q.jobs == p.jobs && q.saved.warming == p.saved.warming && q.saved.preheated == p.saved.preheated
    && Due(q.saved, targets) == Due(p.saved, targets)
    && (q.saved.waiting == p.saved.waiting || q.saved.waiting == Due(p.saved, targets))
    && q.saved.versions.lastCompleted == p.saved.versions.lastCompleted
  }

  /** Any faults; the same targets and primers whenever they can be determined. */
  ghost predicate Same(o: Observation, v: string, targets: seq<string>, primers: seq<string>) {
    !o.disabled && Sound(o, v) && (o.selection.Selected? ==> o.selection == Selected(targets, primers))
  }

  /** Behind the fill. */
  ghost predicate AtLists(p: Pass, q: Pass, targets: seq<string>) {
    && q.jobs == p.jobs && ListsOf(q.mem) == ListsOf(q.saved) == ListsOf(p.saved).(waiting := Due(p.saved, targets))
    && q.mem.versions.lastCompleted == q.saved.versions.lastCompleted == p.saved.versions.lastCompleted
  }

  lemma RoundStuck(p: Pass, q: Pass, cfg: Config, o: Observation, targets: seq<string>, primers: seq<string>)
    requires AtLists(p, q, targets) && GateOpen(q.mem)
    requires AllHaveJobs(primers, q.jobs, cfg.hash, q.mem.versions.desired) && NoneIn(primers, q.mem.warming)
    ensures var f := SchedulePrimers(q, cfg, o, primers);
            AtLists(p, f.p, targets) && (if f.Next? then GateOpen(f.p.mem) else f.end == Failed)
  {
    if cfg.prime && |primers| > 0 {
      LoopChangesNothing(q, cfg, o.fails, primers, false, false);
      var r := PrimerLoop(q, cfg, o.fails, primers, false, false);
      if r.flow.Next? {
        PrimerConditionsReason(r.flow.p, o.fails, primers, r.scheduled, r.running);
        ConditionsKeepLists(r.flow.p, o.fails, primers, r.scheduled, r.running);
      }
    }
  }

  lemma DispatchStuck(p: Pass, q: Pass, cfg: Config, o: Observation, targets: seq<string>)
    requires AtLists(p, q, targets) && GateOpen(q.mem) && cfg.batching.AsWritten?
    requires 0 < |Due(p.saved, targets)| < cfg.parallelism
    ensures var f := Dispatch(q, cfg, o); f == Stop(f.p, Panicked) && f.p.jobs == q.jobs && f.p.saved == q.saved
  {
  }

  lemma FillStuck(p: Pass, q: Pass, o: Observation, targets: seq<string>)
    requires q.jobs == p.jobs && ListsOf(q.mem) == ListsOf(q.saved) == ListsOf(p.saved)
    requires q.mem.versions.lastCompleted == q.saved.versions.lastCompleted == p.saved.versions.lastCompleted
    ensures var f := Fill(q, o, targets);
            && f.p.mem == q.mem.(waiting := Due(p.saved, targets))
            && (f.Next? ==> AtLists(p, f.p, targets))
            && (f.Stop? ==> f.end == Failed && f.p.jobs == q.jobs && f.p.saved == q.saved)
  {
  }

  lemma WorkStuck(p: Pass, q: Pass, cfg: Config, o: Observation, targets: seq<string>, primers: seq<string>)
    requires o.selection == Selected(targets, primers) && cfg.batching.AsWritten?
             && 0 < |Due(p.saved, targets)| < cfg.parallelism
    requires q.jobs == p.jobs && ListsOf(q.mem) == ListsOf(q.saved) == ListsOf(p.saved) && GateOpen(q.mem)
    requires q.mem.versions.lastCompleted == q.saved.versions.lastCompleted == p.saved.versions.lastCompleted
    requires AllHaveJobs(primers, q.jobs, cfg.hash, q.mem.versions.desired) && NoneIn(primers, q.mem.warming)
    ensures var f := Work(q, cfg, o);
            && f.Stop? && f.end in {Failed, Panicked} && f.p.jobs == p.jobs
            && (ListsOf(f.p.saved) == ListsOf(p.saved)
                || ListsOf(f.p.saved) == ListsOf(p.saved).(waiting := Due(p.saved, targets)))
            && f.p.saved.versions.lastCompleted == p.saved.versions.lastCompleted
  {
    FillStuck(p, q, o, targets);
    var f := Fill(q, o, targets);
    if f.Next? {
      RoundStuck(p, f.p, cfg, o, targets, primers);
      var g := SchedulePrimers(f.p, cfg, o, primers);
      if g.Next? {
        DispatchStuck(p, g.p, cfg, o, targets);
      }
    }
  }

  /** Filling once is enough. */
  lemma DueStays(s: Status, t: Status, targets: seq<string>)
    requires ListsOf(t) == ListsOf(s) || ListsOf(t) == ListsOf(s).(waiting := Due(s, targets))
    ensures Due(t, targets) == Due(s, targets)
  {
    FilledFacts(s.waiting, targets, s.warming, s.preheated);
    NothingToFill(Due(s, targets), targets, s.warming, s.preheated);
  }

  lemma StuckEnds(p: Pass, cfg: Config, o: Observation, v: string, targets: seq<string>, primers: seq<string>)
    requires Same(o, v, targets, primers) && targets != [] && cfg.batching.AsWritten?
    requires !(|targets| == |p.saved.preheated| && p.saved.waiting == [])
    requires 0 < |Due(p.saved, targets)| < cfg.parallelism
    requires AllHaveJobs(primers, p.jobs, cfg.hash, v) && NoneIn(primers, p.saved.warming)
    requires AllIn(primers, p.saved.preheated)
    ensures var f := Reconcile(p, cfg, o); f.end in {Failed, Panicked} && Unmoved(p, f.p, targets)
  {
    StuckFront(p, o, v, targets, primers);
    var f := Front(p, o);
    if f.Next? {
      WorkStuck(p, f.p, cfg, o, targets, primers);
      DueStays(p.saved, Work(f.p, cfg, o).p.saved, targets);
    }
  }

  lemma StuckFront(p: Pass, o: Observation, v: string, targets: seq<string>, primers: seq<string>)
    requires Same(o, v, targets, primers) && targets != [] && AllIn(primers, p.saved.preheated)
    requires !(|targets| == |p.saved.preheated| && p.saved.waiting == [])
    ensures var f := Front(p, o);
            if f.Next? then
              && o.selection == Selected(targets, primers) && f.p.jobs == p.jobs && GateOpen(f.p.mem)
              && ListsOf(f.p.mem) == ListsOf(f.p.saved) == ListsOf(p.saved) && f.p.mem.versions.desired == v
              && f.p.mem.versions.lastCompleted == f.p.saved.versions.lastCompleted == p.saved.versions.lastCompleted
            else
              f.end == Failed && Unmoved(p, f.p, targets)
  {
    FrontKeepsLists(p, o);
  }

  /** Whatever fails, the pass panics before it lists the jobs, or ends on an error before that. It creates no job,
      preheats no node and completes no release, and the next pass finds the same nodes due. */
  lemma StuckPass(p: Pass, cfg: Config, o: Observation, v: string, targets: seq<string>, primers: seq<string>)
    requires Same(o, v, targets, primers) && NoDuplicates(targets) && targets != []
    requires cfg.batching.AsWritten? && Short(p, cfg.hash, v, targets, primers, cfg.parallelism)
    ensures var f := Reconcile(p, cfg, o);
            && f.end in {Failed, Panicked} && Unmoved(p, f.p, targets)
            && Short(f.p, cfg.hash, v, targets, primers, cfg.parallelism)
  {
    ShortGoesOn(p.saved, targets);
    StuckEnds(p, cfg, o, v, targets, primers);
    StaysShort(p, Reconcile(p, cfg, o).p, cfg.hash, v, targets, primers, cfg.parallelism);
  }

  lemma StaysShort(p: Pass, q: Pass, hash: Hash, v: string, targets: seq<string>, primers: seq<string>, batch: int)
    requires Short(p, hash, v, targets, primers, batch) && Unmoved(p, q, targets)
    ensures Short(q, hash, v, targets, primers, batch)
  {
  }

  // ---- Runs ----

  ghost predicate StuckAction(a: Action, hash: Hash, v: string, targets: seq<string>, primers: seq<string>,
                              batch: int)
  {
    match a
    case Reconciled(cfg, o) =>
      && cfg.hash == hash && cfg.batching.AsWritten? && cfg.parallelism == batch
      && Same(o, v, targets, primers)
    case JobSucceeds(_) => true
    case JobDisappears(_) => false
  }

  ghost predicate IsStuck(p: Pass, hash: Hash, v: string, targets: seq<string>, primers: seq<string>, batch: int,
                          preheated: seq<string>, completed: string, names: set<string>, due: seq<string>)
  {
    && Short(p, hash, v, targets, primers, batch)
    && p.saved.preheated == preheated && p.saved.versions.lastCompleted == completed && p.jobs.Keys == names
    && Due(p.saved, targets) == due
  }

  lemma StuckStep(w: World, a: Action, hash: Hash, v: string, targets: seq<string>, primers: seq<string>, batch: int,
                  preheated: seq<string>, completed: string, names: set<string>, due: seq<string>)
    requires IsStuck(w.pass, hash, v, targets, primers, batch, preheated, completed, names, due)
    requires StuckAction(a, hash, v, targets, primers, batch) && NoDuplicates(targets) && targets != []
    ensures IsStuck(Step(w, a).pass, hash, v, targets, primers, batch, preheated, completed, names, due)
  {
    match a
    case Reconciled(cfg, o) => StuckPass(w.pass, cfg, o, v, targets, primers);
    case JobSucceeds(name) => FinishApart(w.pass.saved, w.pass.jobs, {name}, hash, v);
    case JobDisappears(_) =>
  }

  ghost function StuckFor(hash: Hash, v: string, targets: seq<string>, primers: seq<string>, batch: int,
                          preheated: seq<string>, completed: string, names: set<string>, due: seq<string>)
    : (World, nat) -> bool
  {
    (w: World, k: nat) => IsStuck(w.pass, hash, v, targets, primers, batch, preheated, completed, names, due)
  }

  ghost function StuckBy(hash: Hash, v: string, targets: seq<string>, primers: seq<string>,
                         batch: int): Action -> bool {
    (a: Action) => StuckAction(a, hash, v, targets, primers, batch)
  }

  /** Over runs: from a state in which fewer nodes are due than a batch takes, however many passes follow and whatever
      jobs succeed, no job is created, no further node counts as preheated, though its job may have succeeded long ago,
      and no pass completes a release. */
  lemma StuckForever(w: World, actions: seq<Action>, cfg: Config, o: Observation, v: string, targets: seq<string>,
                     primers: seq<string>)
    requires cfg.batching.AsWritten? && Short(w.pass, cfg.hash, v, targets, primers, cfg.parallelism)
    requires NoDuplicates(targets) && targets != [] && Same(o, v, targets, primers)
    requires forall a :: a in actions ==> StuckAction(a, cfg.hash, v, targets, primers, cfg.parallelism)
    ensures var p := Run(w, actions).pass;
            && p.jobs.Keys == w.pass.jobs.Keys && p.saved.preheated == w.pass.saved.preheated
            && p.saved.versions.lastCompleted == w.pass.saved.versions.lastCompleted
            && Due(p.saved, targets) == Due(w.pass.saved, targets)
            && Reconcile(p, cfg, o).end in {Failed, Panicked}
  {
    var b, pre, names := cfg.parallelism, w.pass.saved.preheated, w.pass.jobs.Keys;
    var done, due := w.pass.saved.versions.lastCompleted, Due(w.pass.saved, targets);
    StuckStepsKeep(cfg.hash, v, targets, primers, b, pre, done, names, due);
    RunKeeps(StuckFor(cfg.hash, v, targets, primers, b, pre, done, names, due),
             StuckBy(cfg.hash, v, targets, primers, b),
             w, actions);
    StuckPass(Run(w, actions).pass, cfg, o, v, targets, primers);
  }

  lemma StuckStepsKeep(hash: Hash, v: string, targets: seq<string>, primers: seq<string>, batch: int,
                       preheated: seq<string>, completed: string, names: set<string>, due: seq<string>)
    requires NoDuplicates(targets) && targets != []
    ensures StepsKeep(StuckFor(hash, v, targets, primers, batch, preheated, completed, names, due),
                      StuckBy(hash, v, targets, primers, batch))
  {
    forall w: World, a: Action |
        IsStuck(w.pass, hash, v, targets, primers, batch, preheated, completed, names, due)
        && StuckAction(a, hash, v, targets, primers, batch)
      ensures IsStuck(Step(w, a).pass, hash, v, targets, primers, batch, preheated, completed, names, due)
    {
      StuckStep(w, a, hash, v, targets, primers, batch, preheated, completed, names, due);
    }
  }
}
