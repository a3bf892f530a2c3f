/** The partition invariant: waiting, warming and preheated are duplicate-free and disjoint, and a pull job
    exists exactly for the nodes on the last two. It rests on every pass coming through the status write that
    directly follows a Create. */
module Partition {
  import opened NodeLists
  import opened PullJobs
  import opened Passes
  import opened FrontFacts
  import opened IssueFacts
  import opened Runs
  import opened Completion

  ghost predicate Disjoint(l: Lists) {
    && NoDuplicates(l.waiting) && NoDuplicates(l.warming) && NoDuplicates(l.preheated)
    && (forall n :: n in l.waiting ==> n !in l.warming && n !in l.preheated)
    && (forall n :: n in l.warming ==> n !in l.preheated)
  }

  ghost predicate MatchesJobs(l: Lists, jobs: JobStore, hash: Hash, v: string) {
    && (forall n :: HasJob(jobs, hash, n, v) <==> n in l.warming || n in l.preheated)
    && (forall n :: n in l.preheated ==> Succeeded(jobs, hash, n, v))
  }

  ghost predicate Targeted(l: Lists, seen: set<string>) {
    && (forall n :: n in l.waiting ==> n in seen)
    && (forall n :: n in l.warming ==> n in seen)
    && (forall n :: n in l.preheated ==> n in seen)
  }

  ghost predicate Good(l: Lists, jobs: JobStore, hash: Hash, v: string, seen: set<string>) {
    Disjoint(l) && MatchesJobs(l, jobs, hash, v) && Targeted(l, seen)
  }

  ghost predicate GoodSaved(p: Pass, hash: Hash, v: string, seen: set<string>) {
    WellNamed(p.jobs, hash, v) && Good(ListsOf(p.saved), p.jobs, hash, v, seen)
  }

  ghost predicate GoodPass(p: Pass, hash: Hash, v: string, seen: set<string>) {
    && GoodSaved(p, hash, v, seen) && Good(ListsOf(p.mem), p.jobs, hash, v, seen)
    && p.mem.versions.desired == v
  }

  // ---- One attempt ----

  lemma NewJob(jobs: JobStore, hash: Hash, v: string, node: string)
    requires WellNamed(jobs, hash, v) && !HasJob(jobs, hash, node, v)
    ensures var more := jobs[JobName(hash, node, v) := Job(node, v, false)];
            && WellNamed(more, hash, v)
            && (forall n :: HasJob(more, hash, n, v) <==> HasJob(jobs, hash, n, v) || n == node)
            && (forall n :: Succeeded(jobs, hash, n, v) ==> Succeeded(more, hash, n, v))
  {
    var more := jobs[JobName(hash, node, v) := Job(node, v, false)];
    forall n ensures HasJob(more, hash, n, v) ==> HasJob(jobs, hash, n, v) || n == node {
      if HasJob(more, hash, n, v) && !HasJob(jobs, hash, n, v) {
        NameDeterminesNode(hash, v, n, node);
      }
    }
  }

  lemma MovedIsGood(l: Lists, jobs: JobStore, hash: Hash, v: string, seen: set<string>, node: string)
    requires Good(l, jobs, hash, v, seen) && WellNamed(jobs, hash, v) && node in seen && !HasJob(jobs, hash, node, v)
    ensures var more := jobs[JobName(hash, node, v) := Job(node, v, false)];
            Good(l.(warming := l.warming + [node], waiting := Remaining(l.waiting, node)), more, hash, v, seen)
  {
    NewJob(jobs, hash, v, node);
    if node in l.waiting {
      CutFirstMembers(l.waiting, node);
      CutFirstUnique(l.waiting, node);
    }
  }

  /** A pass that is cut short leaves the invariant intact, unless it dies between a Create and the status write: then
      the saved lists do not know of the job. */
  ghost predicate StoppedWell(f: Flow, hash: Hash, v: string, seen: set<string>)
    requires f.Stop?
  {
    if f.end in {LostWrite, LostMove} then !MatchesJobs(ListsOf(f.p.saved), f.p.jobs, hash, v)
    else GoodSaved(f.p, hash, v, seen)
  }

  lemma AttemptIsGood(p: Pass, cfg: Config, fails: Faults, node: string, removal: Removal, v: string, seen: set<string>)
    requires GoodPass(p, cfg.hash, v, seen) && node in seen
    ensures var f := TryNode(p, cfg, fails, node, removal).flow;
            && (f.Next? ==> GoodPass(f.p, cfg.hash, v, seen))
            && (f.Stop? ==> StoppedWell(f, cfg.hash, v, seen) && f.end != Panicked)
            && (f == Stop(f.p, LostMove) ==>
                  !removal.IfPresent? && node !in p.mem.waiting && !HasJob(p.jobs, cfg.hash, node, v))
  {
    AttemptOutcome(p, cfg, fails, node, removal);
    if TryNode(p, cfg, fails, node, removal).created {
      MovedIsGood(ListsOf(p.mem), p.jobs, cfg.hash, v, seen, node);
    }
  }

  /** The invariant of the loops; `cover` are the nodes that stay on some list, and `safe` says that no index may go
      out of range. */
  ghost function GoodFlow(hash: Hash, v: string, seen: set<string>, cover: set<string>, safe: bool): Flow -> bool {
    (f: Flow) =>
      if f.Next? then GoodPass(f.p, hash, v, seen) && Covers(f.p.mem, cover)
      else StoppedWell(f, hash, v, seen) && (safe ==> f.end != Panicked && f.end != LostMove)
  }

  /** A node that is on some list either waits or has a job, so no removal goes out of range. */
  lemma AttemptsAreGood(cfg: Config, fails: Faults, removal: Removal, v: string, seen: set<string>, cover: set<string>,
                        tried: set<string>, safe: bool)
    requires cover <= seen && tried <= seen && (safe ==> removal.IfPresent? || tried <= cover)
    ensures Kept(GoodFlow(cfg.hash, v, seen, cover, safe), cfg, fails, removal, tried)
  {
    var inv := GoodFlow(cfg.hash, v, seen, cover, safe);
    forall p: Pass, n: string | inv(Next(p)) && n in tried ensures inv(TryNode(p, cfg, fails, n, removal).flow) {
      AttemptIsGood(p, cfg, fails, n, removal, v, seen);
      AttemptsCover(cfg, fails, removal, cover, tried);
      assert CoverFlow(cover)(Next(p));
      assert CoverFlow(cover)(TryNode(p, cfg, fails, n, removal).flow);
    }
  }

  // ---- The parts of a pass ----

  lemma FillIsGood(p: Pass, o: Observation, hash: Hash, targets: seq<string>, v: string, seen: set<string>)
    requires GoodPass(p, hash, v, seen) && Elements(targets) <= seen
    ensures var f := Fill(p, o, targets);
            && GoodPass(f.p, hash, v, seen) && Covers(f.p.mem, Elements(targets))
            && f.p.mem == p.mem.(waiting := f.p.mem.waiting) && f.p.jobs == p.jobs
            && (f.Stop? ==> f.end == Failed)
  {
    FilledFacts(p.mem.waiting, targets, p.mem.warming, p.mem.preheated);
    forall n | n in targets ensures n in seen { assert n in Elements(targets); }
  }

  lemma PrimerConditionsAreGood(p: Pass, fails: Faults, primers: seq<string>, scheduled: bool, running: bool,
                                hash: Hash,
                                v: string, seen: set<string>)
    requires GoodPass(p, hash, v, seen)
    ensures var q := PrimerConditions(p, fails, primers, scheduled, running);
            GoodPass(q, hash, v, seen) && ListsOf(q.mem) == ListsOf(p.mem) && q.jobs == p.jobs
  {
  }

  lemma PrimersAreGood(p: Pass, cfg: Config, o: Observation, primers: seq<string>, v: string, seen: set<string>,
                       cover: set<string>)
    requires GoodPass(p, cfg.hash, v, seen) && Covers(p.mem, cover) && cover <= seen && Elements(primers) <= cover
    ensures GoodFlow(cfg.hash, v, seen, cover, true)(SchedulePrimers(p, cfg, o, primers))
  {
    var inv := GoodFlow(cfg.hash, v, seen, cover, true);
    if cfg.prime && |primers| > 0 {
      AttemptsAreGood(cfg, o.fails, ByPrimer, v, seen, cover, Elements(primers), true);
      PrimerLoopKeeps(inv, p, cfg, o.fails, primers, false, false, Elements(primers));
      var round := PrimerLoop(p, cfg, o.fails, primers, false, false);
      assert inv(round.flow);
      if round.flow.Next? {
        PrimerConditionsAreGood(round.flow.p, o.fails, primers, round.scheduled, round.running, cfg.hash, v, seen);
      }
    }
  }

  /** Serving that indexes no list out of range: no batch, or a batch with guards. */
  predicate Tame(cfg: Config) {
    cfg.parallelism <= 0 || cfg.batching.WithGuards?
  }

  lemma PoppedIsGood(l: Lists, k: nat, jobs: JobStore, hash: Hash, v: string, seen: set<string>)
    requires Good(l, jobs, hash, v, seen) && k <= |l.waiting|
    ensures Good(l.(waiting := l.waiting[k..]), jobs, hash, v, seen)
  {
    var w := l.waiting[k..];
    assert forall n :: n in w ==> n in l.waiting;
  }

  lemma DispatchIsGood(p: Pass, cfg: Config, o: Observation, v: string, seen: set<string>)
    requires GoodPass(p, cfg.hash, v, seen)
    ensures GoodFlow(cfg.hash, v, seen, {}, Tame(cfg))(Dispatch(p, cfg, o))
  {
    NodesAreGood(p, cfg, o.fails, v, seen);
    var round := DispatchNodes(p, cfg, o.fails);
    if GateOpen(p.mem) && round.flow.Next? {
      var names := Join(round.cells, ", ");
      ConditionIsGood(round.flow.p, o.fails, Warming("Following nodes currently warming: " + names), cfg.hash, v, seen);
    }
  }

  lemma ConditionIsGood(p: Pass, fails: Faults, op: Conditions.ConditionOp, hash: Hash, v: string, seen: set<string>)
    requires GoodPass(p, hash, v, seen)
    ensures GoodPass(ApplyOp(p, fails, op), hash, v, seen)
  {
  }

  lemma NodesAreGood(p: Pass, cfg: Config, fails: Faults, v: string, seen: set<string>)
    requires GoodPass(p, cfg.hash, v, seen)
    ensures GoodFlow(cfg.hash, v, seen, {}, Tame(cfg))(DispatchNodes(p, cfg, fails).flow)
  {
    var waiting := Elements(p.mem.waiting);
    var cover := if cfg.parallelism <= 0 then waiting else {};
    var inv := GoodFlow(cfg.hash, v, seen, cover, Tame(cfg));
    var removal := if cfg.parallelism == 0 || cfg.batching.AsWritten? then ByIndex else IfPresent;
    AttemptsAreGood(cfg, fails, removal, v, seen, cover, waiting, Tame(cfg));
    PoppedFlows(p, cfg, v, seen, cover);
    assert inv(Next(p));
    DispatchNodesKeeps(inv, p, cfg, fails, waiting);
    assert inv(DispatchNodes(p, cfg, fails).flow);
  }

  /** Taking a batch off the list, or reading past its end, leaves the invariant alone. */
  lemma PoppedFlows(p: Pass, cfg: Config, v: string, seen: set<string>, cover: set<string>)
    requires GoodPass(p, cfg.hash, v, seen) && Covers(p.mem, cover) && (cfg.parallelism > 0 ==> cover == {})
    ensures var inv := GoodFlow(cfg.hash, v, seen, cover, Tame(cfg));
            && (forall k: nat :: k <= |p.mem.waiting| && (k > 0 ==> cfg.parallelism > 0) ==>
                  inv(Next(p.(mem := p.mem.(waiting := p.mem.waiting[k..])))))
            && (PopPanics(cfg, p.mem.waiting) ==> inv(Stop(p.(mem := p.mem.(waiting := [])), Panicked)))
  {
    forall k: nat | k <= |p.mem.waiting| && (k > 0 ==> cfg.parallelism > 0)
      ensures GoodFlow(cfg.hash, v, seen, cover, Tame(cfg))(Next(p.(mem := p.mem.(waiting := p.mem.waiting[k..]))))
    {
      PoppedIsGood(ListsOf(p.mem), k, p.jobs, cfg.hash, v, seen);
      assert p.mem.waiting[0..] == p.mem.waiting;
    }
  }

  // ---- The job scan ----

  /** A listed success keeps the invariant: its node is warming, and moves, or is preheated already. */
  lemma SeenIsGood(s: Status, job: Job, jobs: JobStore, hash: Hash, v: string, seen: set<string>)
    requires Good(ListsOf(s), jobs, hash, v, seen)
    requires job.succeeded ==> Succeeded(jobs, hash, job.node, v)
    ensures Good(ListsOf(Seen(s, job)), jobs, hash, v, seen)
  {
    if job.succeeded && job.node in s.warming {
      CutFirstMembers(s.warming, job.node);
      CutFirstUnique(s.warming, job.node);
    }
  }

  lemma {:induction false} ScanLoopIsGood(p: Pass, fails: Faults, listing: seq<Job>, hash: Hash, v: string,
                                          seen: set<string>)
    requires GoodPass(p, hash, v, seen)
    requires forall j :: j in listing && j.succeeded ==> Succeeded(p.jobs, hash, j.node, v)
    ensures GoodPass(ScanLoop(p, fails, listing).p, hash, v, seen)
    decreases |listing|
  {
    if listing != [] {
      SeenIsGood(p.mem, listing[0], p.jobs, hash, v, seen);
      var q := p.(mem := Seen(p.mem, listing[0]));
      assert GoodPass(q, hash, v, seen);
      ScanLoopIsGood(if q == p then p else Write(q, fails), fails, listing[1..], hash, v, seen);
    }
  }

  /** Jobs that succeed keep the invariant. */
  lemma FinishIsGood(l: Lists, jobs: JobStore, names: set<string>, hash: Hash, v: string, seen: set<string>)
    requires WellNamed(jobs, hash, v)
    ensures WellNamed(Finish(jobs, names), hash, v)
    ensures Good(l, jobs, hash, v, seen) ==> Good(l, Finish(jobs, names), hash, v, seen)
  {
    assert forall n :: HasJob(Finish(jobs, names), hash, n, v) <==> HasJob(jobs, hash, n, v);
  }

  /** In particular the reset for "no jobs" finds an empty warming list. */
  lemma ScanIsGood(p: Pass, o: Observation, hash: Hash, v: string, seen: set<string>)
    requires GoodPass(p, hash, v, seen) && HonestListing(o)
    ensures GoodPass(Scan(p, o, v).p, hash, v, seen)
    ensures o.list(Finish(p.jobs, o.late), v) == [] ==> p.mem.warming == [] && p.mem.preheated == []
  {
    FinishIsGood(ListsOf(p.mem), p.jobs, o.late, hash, v, seen);
    FinishIsGood(ListsOf(p.saved), p.jobs, o.late, hash, v, seen);
    var q := p.(jobs := Finish(p.jobs, o.late), clock := p.clock + 1);
    var listing := o.list(q.jobs, v);
    assert IsListing(listing, q.jobs, v);
    if listing == [] {
      NoJobsNoNodes(ListsOf(p.mem), q.jobs, listing, hash, v, seen);
    } else {
      ScanLoopIsGood(q, o.fails, listing, hash, v, seen);
    }
  }

  lemma NoJobsNoNodes(l: Lists, jobs: JobStore, listing: seq<Job>, hash: Hash, v: string, seen: set<string>)
    requires Good(l, jobs, hash, v, seen) && WellNamed(jobs, hash, v)
    requires IsListing(listing, jobs, v) && listing == []
    ensures l.warming == [] && l.preheated == []
  {
    forall n | n in l.warming || n in l.preheated ensures jobs[JobName(hash, n, v)] in listing {
      assert HasJob(jobs, hash, n, v);
    }
    FirstIsMember(l.warming);
    FirstIsMember(l.preheated);
  }

  // ---- One pass ----

  /** From the front part to the listing. */
  lemma WorkIsGood(p: Pass, cfg: Config, o: Observation, v: string, seen: set<string>)
    requires o.selection.Selected? && WellSelected(o) && Elements(o.selection.targets) <= seen
    requires GoodPass(p, cfg.hash, v, seen)
    ensures GoodFlow(cfg.hash, v, seen, {}, Tame(cfg))(Work(p, cfg, o))
  {
    var targets, primers := o.selection.targets, o.selection.primers;
    FillIsGood(p, o, cfg.hash, targets, v, seen);
    var f := Fill(p, o, targets);
    if f.Next? {
      assert Elements(primers) <= Elements(targets);
      PrimersAreGood(f.p, cfg, o, primers, v, seen, Elements(targets));
      var g := SchedulePrimers(f.p, cfg, o, primers);
      if g.Next? {
        DispatchIsGood(g.p, cfg, o, v, seen);
      }
    }
  }

  /** Cleared lists are good when nothing was ever targeted. */
  lemma NothingSeen(l: Lists, jobs: JobStore, hash: Hash, v: string, seen: set<string>)
    requires Good(l, jobs, hash, v, seen) && seen == {}
    ensures l == NO_LISTS
  {
    FirstIsMember(l.waiting);
    FirstIsMember(l.warming);
    FirstIsMember(l.preheated);
  }

  lemma GoodGrows(l: Lists, jobs: JobStore, hash: Hash, v: string, seen: set<string>, more: set<string>)
    requires Good(l, jobs, hash, v, seen) && seen <= more
    ensures Good(l, jobs, hash, v, more)
  {
  }

  /** The targets only grow, and the accelerator stays enabled. */
  ghost predicate Grows(seen: set<string>, o: Observation) {
    !o.disabled && (o.selection.Selected? ==> seen <= Elements(o.selection.targets))
  }

  lemma FrontStopIsGood(p: Pass, o: Observation, hash: Hash, v: string, seen: set<string>)
    requires GoodSaved(p, hash, v, seen) && Grows(seen, o) && Front(p, o).Stop?
    ensures GoodSaved(Front(p, o).p, hash, v, seen + Elements(TargetsOf(o)))
    ensures Front(p, o).end !in {Panicked, LostMove, LostWrite}
  {
    var more := seen + Elements(TargetsOf(o));
    GoodGrows(ListsOf(p.saved), p.jobs, hash, v, seen, more);
    FrontKeepsLists(p, o);
    if o.selection.Selected? && o.selection.targets == [] {
      NothingSeen(ListsOf(p.saved), p.jobs, hash, v, more);
    }
  }

  lemma CloseIsGood(p: Pass, o: Observation, hash: Hash, v: string, seen: set<string>)
    requires GoodPass(p, hash, v, seen) && HonestListing(o)
    ensures GoodSaved(Close(p, o, v).p, hash, v, seen) && Close(p, o, v).end in {Failed, Pending, Completed}
  {
    ScanIsGood(p, o, hash, v, seen);
    ScanEnds(p, o, v);
    var h := Scan(p, o, v);
    if h.Next? {
      ConcludeKeepsLists(h.p, o);
    }
  }

  lemma RestIsGood(p: Pass, cfg: Config, o: Observation, v: string, seen: set<string>)
    requires o.selection.Selected? && o.release.Ok? && Sound(o, v) && Elements(o.selection.targets) <= seen
    requires GoodPass(p, cfg.hash, v, seen)
    ensures var f := Rest(p, cfg, o);
            && f.Stop? && StoppedWell(f, cfg.hash, v, seen)
            && (Tame(cfg) ==> f.end != Panicked && f.end != LostMove)
  {
    WorkIsGood(p, cfg, o, v, seen);
    var g := Work(p, cfg, o);
    if g.Next? {
      CloseIsGood(g.p, o, cfg.hash, v, seen);
    }
  }

  /** One pass from a good state, with any API call failing: it keeps the invariant exactly if it does not die between
      a Create and the status write that follows, and it never panics without a batch or with guards. */
  lemma PassIsGood(p: Pass, cfg: Config, o: Observation, v: string, seen: set<string>)
    requires GoodSaved(p, cfg.hash, v, seen) && Sound(o, v) && Grows(seen, o)
    ensures var f := Reconcile(p, cfg, o);
            && (GoodSaved(f.p, cfg.hash, v, seen + Elements(TargetsOf(o))) <==> f.end !in {LostWrite, LostMove})
            && (Tame(cfg) ==> f.end != Panicked && f.end != LostMove)
  {
    var more := seen + Elements(TargetsOf(o));
    var f := Front(p, o);
    if f.Stop? {
      FrontStopIsGood(p, o, cfg.hash, v, seen);
    } else {
      GoodGrows(ListsOf(p.saved), p.jobs, cfg.hash, v, seen, more);
      FrontKeepsLists(p, o);
      RestIsGood(f.p, cfg, o, v, more);
    }
  }

  lemma ScanEnds(p: Pass, o: Observation, v: string)
    ensures Scan(p, o, v).Stop? ==> Scan(p, o, v).end == Failed
  {
    var q := p.(jobs := Finish(p.jobs, o.late), clock := p.clock + 1);
    ScanLoopEnds(q, o.fails, o.list(q.jobs, v));
  }

  // ---- Whole runs ----

  /** What a step of a steady run may do from `w`: jobs only succeed, targets only grow, nothing is switched off,
      and the status write right after a Create comes through. */
  ghost predicate Steady(w: World, a: Action, hash: Hash, v: string) {
    match a
    case Reconciled(cfg, o) =>
      && cfg.hash == hash && Sound(o, v) && Grows(w.seen, o)
      && Reconcile(w.pass, cfg, o) != Stop(Reconcile(w.pass, cfg, o).p, LostWrite)
    case JobSucceeds(_) => true
    case JobDisappears(_) => false
  }

  ghost predicate SteadyRun(w: World, actions: seq<Action>, hash: Hash, v: string) {
    actions != [] ==>
      && SteadyRun(w, actions[..|actions| - 1], hash, v)
      && Steady(Run(w, actions[..|actions| - 1]), actions[|actions| - 1], hash, v)
  }

  /** An orderly run is steady, and no pass panics between a Create and the status write. */
  ghost predicate Orderly(w: World, a: Action, hash: Hash, v: string) {
    Steady(w, a, hash, v) && (a.Reconciled? ==> Reconcile(w.pass, a.cfg, a.o).end != LostMove)
  }

  ghost predicate OrderlyRun(w: World, actions: seq<Action>, hash: Hash, v: string) {
    actions != [] ==>
      && OrderlyRun(w, actions[..|actions| - 1], hash, v)
      && Orderly(Run(w, actions[..|actions| - 1]), actions[|actions| - 1], hash, v)
  }

  /** A start with empty lists, and jobs of other releases only, well named and not colliding in the hash. */
  ghost predicate CleanStart(w: World, hash: Hash, v: string) {
    && Blank(w, v) && w.seen == {} && EightCharacters(hash)
    && (forall k :: k in w.pass.jobs ==> k == JobName(hash, w.pass.jobs[k].node, w.pass.jobs[k].release))
    && (forall k :: k in w.pass.jobs ==> hash(w.pass.jobs[k].release) != hash(v))
  }

  lemma StepIsGood(w: World, a: Action, hash: Hash, v: string)
    requires GoodSaved(w.pass, hash, v, w.seen) && Orderly(w, a, hash, v)
    ensures GoodSaved(Step(w, a).pass, hash, v, Step(w, a).seen)
  {
    match a
    case Reconciled(cfg, o) =>
      PassIsGood(w.pass, cfg, o, v, w.seen);
    case JobSucceeds(name) =>
      FinishIsGood(ListsOf(w.pass.saved), w.pass.jobs, {name}, hash, v, w.seen);
    case JobDisappears(_) =>
  }

  /** Every state of every orderly run satisfies the partition invariant. */
  lemma {:induction false} PartitionHolds(w: World, actions: seq<Action>, hash: Hash, v: string)
    requires CleanStart(w, hash, v) && OrderlyRun(w, actions, hash, v)
    ensures GoodSaved(Run(w, actions).pass, hash, v, Run(w, actions).seen)
    decreases |actions|
  {
    if actions == [] {
      CleanStartIsGood(w, hash, v);
    } else {
      var front, last := actions[..|actions| - 1], actions[|actions| - 1];
      PartitionHolds(w, front, hash, v);
      StepIsGood(Run(w, front), last, hash, v);
    }
  }

  lemma CleanStartIsGood(w: World, hash: Hash, v: string)
    requires CleanStart(w, hash, v)
    ensures GoodSaved(w.pass, hash, v, w.seen)
  {
    ForeignJobsDoNotCollide(w.pass.jobs, hash, v);
  }

  /** The early exit on equal lengths is sound when no node has left the targets, in every run for one release and for
      every parallelism: the selected nodes are exactly the preheated ones, and each has had a succeeded job. */
  lemma EarlyExitIsSound(w: World, actions: seq<Action>, cfg: Config, o: Observation, v: string)
    requires Blank(w, v) && AlwaysAsks(actions, v) && Sound(o, v) && Run(w, actions).seen <= Elements(TargetsOf(o))
    requires Reconcile(Run(w, actions).pass, cfg, o).end == AlreadyComplete
    ensures var s := Run(w, actions).pass.saved;
            && (forall n :: n in TargetsOf(o) <==> n in s.preheated) && s.waiting == []
            && (forall n :: n in TargetsOf(o) ==> Issue(n, v) in Run(w, actions).history)
  {
    RunAccounted(w, actions, v);
    var s := Run(w, actions).pass.saved;
    EarlyExitMeans(Run(w, actions).pass, cfg, o);
    EqualLengthCoverage(TargetsOf(o), s.preheated);
    forall n | n in s.preheated ensures n in TargetsOf(o) {
      assert n in Elements(TargetsOf(o));
    }
  }

  /** The early exit has compared lengths, and nothing else. */
  lemma EarlyExitMeans(p: Pass, cfg: Config, o: Observation)
    requires Reconcile(p, cfg, o).end == AlreadyComplete
    ensures o.selection.Selected? && |TargetsOf(o)| == |p.saved.preheated| && p.saved.waiting == []
  {
    FrontKeepsLists(p, o);
    var f := Front(p, o);
    if f.Next? {
      WorkEnds(f.p, cfg, o);
      var g := Work(f.p, cfg, o);
      if g.Next? {
        ScanEnds(g.p, o, o.release.value.desired);
      }
    }
  }
}
