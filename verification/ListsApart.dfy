/** What holds in every run for one release in which no job disappears, whatever else happens: no node is both warming
    and preheated, and the nodes of both lists have jobs. */
module ListsApart {
  import opened NodeLists
  import opened PullJobs
  import opened Passes
  import opened FrontFacts
  import opened IssueFacts
  import opened Runs
  import opened Completion
  import opened Partition
  import opened NewJobs
  import opened JobAudit

  // ---- The test in front of the Create ----

  /** An attempt without that test. */
  function TryUnguarded(p: Pass, cfg: Config, fails: Faults, node: string, removal: Removal): Attempt {
    match CreatePullJob(p, cfg, fails, node)
    case NotCreated(q) => Attempt(Stop(q, Failed), false)
    case Existed(q) => Attempt(Next(q), false)
    case Created(q) => Attempt(Issued(q, fails, node, removal), true)
  }

  /** No node is both warming and preheated, and the nodes of both lists have jobs. */
  ghost predicate Apart(s: Status, jobs: JobStore, hash: Hash, v: string) {
    && NoDuplicates(s.warming)
    && (forall n :: n in s.warming ==> n !in s.preheated && HasJob(jobs, hash, n, v))
    && (forall n :: n in s.preheated ==> HasJob(jobs, hash, n, v))
  }

  ghost predicate BothApart(p: Pass, hash: Hash, v: string) {
    && WellNamed(p.jobs, hash, v) && Apart(p.mem, p.jobs, hash, v) && Apart(p.saved, p.jobs, hash, v)
    && p.mem.versions.desired == v
  }

  ghost function ApartFlow(hash: Hash, v: string): Flow -> bool {
    (f: Flow) => BothApart(f.p, hash, v)
  }

  /** At every turn of the loops: the attempt with the test is the attempt without it, and the next turn finds the
      same. */
  lemma GuardNeverActs(p: Pass, cfg: Config, fails: Faults, node: string, removal: Removal, v: string)
    requires BothApart(p, cfg.hash, v)
    ensures TryNode(p, cfg, fails, node, removal) == TryUnguarded(p, cfg, fails, node, removal)
    ensures BothApart(TryNode(p, cfg, fails, node, removal).flow.p, cfg.hash, v)
  {
    AttemptOutcome(p, cfg, fails, node, removal);
    if TryNode(p, cfg, fails, node, removal).created {
      NewJob(p.jobs, cfg.hash, v, node);
    }
  }

  lemma AttemptsApart(cfg: Config, fails: Faults, removal: Removal, v: string, tried: set<string>)
    ensures Kept(ApartFlow(cfg.hash, v), cfg, fails, removal, tried)
  {
    var inv := ApartFlow(cfg.hash, v);
    forall p: Pass, n: string | inv(Next(p)) && n in tried ensures inv(TryNode(p, cfg, fails, n, removal).flow) {
      GuardNeverActs(p, cfg, fails, n, removal, v);
    }
  }

  lemma RoundApart(p: Pass, cfg: Config, o: Observation, primers: seq<string>, v: string)
    requires BothApart(p, cfg.hash, v)
    ensures BothApart(SchedulePrimers(p, cfg, o, primers).p, cfg.hash, v)
  {
    var inv := ApartFlow(cfg.hash, v);
    AttemptsApart(cfg, o.fails, ByPrimer, v, Elements(primers));
    PrimerLoopKeeps(inv, p, cfg, o.fails, primers, false, false, Elements(primers));
    var r := PrimerLoop(p, cfg, o.fails, primers, false, false);
    assert inv(r.flow);
    ConditionsKeepLists(r.flow.p, o.fails, primers, r.scheduled, r.running);
  }

  lemma DispatchApart(p: Pass, cfg: Config, o: Observation, v: string)
    requires BothApart(p, cfg.hash, v)
    ensures BothApart(Dispatch(p, cfg, o).p, cfg.hash, v)
  {
    var inv, waiting := ApartFlow(cfg.hash, v), Elements(p.mem.waiting);
    AttemptsApart(cfg, o.fails, ByIndex, v, waiting);
    AttemptsApart(cfg, o.fails, IfPresent, v, waiting);
    DispatchNodesKeeps(inv, p, cfg, o.fails, waiting);
    assert inv(DispatchNodes(p, cfg, o.fails).flow);
  }

  lemma WorkApart(p: Pass, cfg: Config, o: Observation, v: string)
    requires o.selection.Selected? && BothApart(p, cfg.hash, v)
    ensures BothApart(Work(p, cfg, o).p, cfg.hash, v)
  {
    var f := Fill(p, o, o.selection.targets);
    if f.Next? {
      RoundApart(f.p, cfg, o, o.selection.primers, v);
      var g := SchedulePrimers(f.p, cfg, o, o.selection.primers);
      if g.Next? {
        DispatchApart(g.p, cfg, o, v);
      }
    }
  }

  lemma {:induction false} ScanLoopApart(p: Pass, fails: Faults, listing: seq<Job>, hash: Hash, v: string)
    requires BothApart(p, hash, v) && forall j :: j in listing ==> HasJob(p.jobs, hash, j.node, v)
    ensures BothApart(ScanLoop(p, fails, listing).p, hash, v)
    decreases |listing|
  {
    if listing != [] {
      var job := listing[0];
      if job.succeeded && job.node in p.mem.warming {
        CutFirstMembers(p.mem.warming, job.node);
        CutFirstUnique(p.mem.warming, job.node);
      }
      var q := p.(mem := Seen(p.mem, job));
      assert BothApart(q, hash, v);
      ScanLoopApart(if q == p then p else Write(q, fails), fails, listing[1..], hash, v);
    }
  }

  lemma FinishApart(s: Status, jobs: JobStore, names: set<string>, hash: Hash, v: string)
    requires WellNamed(jobs, hash, v) && Apart(s, jobs, hash, v)
    ensures WellNamed(Finish(jobs, names), hash, v) && Apart(s, Finish(jobs, names), hash, v)
  {
    assert forall n :: HasJob(Finish(jobs, names), hash, n, v) <==> HasJob(jobs, hash, n, v);
  }

  lemma FinishBothApart(p: Pass, q: Pass, names: set<string>, hash: Hash, v: string)
    requires BothApart(p, hash, v) && q == p.(jobs := Finish(p.jobs, names), clock := q.clock)
    ensures BothApart(q, hash, v)
  {
    FinishApart(p.mem, p.jobs, names, hash, v);
    FinishApart(p.saved, p.jobs, names, hash, v);
  }

  lemma ScanApart(p: Pass, o: Observation, hash: Hash, v: string)
    requires BothApart(p, hash, v) && HonestListing(o)
    ensures BothApart(Scan(p, o, v).p, hash, v)
  {
    var q := p.(jobs := Finish(p.jobs, o.late), clock := p.clock + 1);
    FinishBothApart(p, q, o.late, hash, v);
    var listing := o.list(q.jobs, v);
    assert IsListing(listing, q.jobs, v);
    if listing == [] {
      EmptiedApart(q, hash, v);
    } else {
      ListedHaveJobs(listing, q.jobs, hash, v);
      ScanLoopApart(q, o.fails, listing, hash, v);
    }
  }

  lemma EmptiedApart(p: Pass, hash: Hash, v: string)
    requires BothApart(p, hash, v)
    ensures BothApart(p.(mem := p.mem.(waiting := p.mem.waiting + p.mem.warming, warming := [])), hash, v)
  {
  }

  lemma ListedHaveJobs(listing: seq<Job>, jobs: JobStore, hash: Hash, v: string)
    requires IsListing(listing, jobs, v) && WellNamed(jobs, hash, v)
    ensures forall j :: j in listing ==> HasJob(jobs, hash, j.node, v)
  {
    forall j | j in listing ensures HasJob(jobs, hash, j.node, v) {
      var i :| 0 <= i < |listing| && listing[i] == j;
      var k :| k in jobs && jobs[k] == listing[i] && jobs[k].release == v;
    }
  }

  lemma CloseApart(p: Pass, o: Observation, hash: Hash, v: string)
    requires BothApart(p, hash, v) && HonestListing(o)
    ensures WellNamed(Close(p, o, v).p.jobs, hash, v) && Apart(Close(p, o, v).p.saved, Close(p, o, v).p.jobs, hash, v)
  {
    ScanApart(p, o, hash, v);
    var f := Scan(p, o, v);
    if f.Next? {
      ConcludeKeepsLists(f.p, o);
    }
  }

  lemma PassApart(p: Pass, cfg: Config, o: Observation, v: string)
    requires WellNamed(p.jobs, cfg.hash, v) && Apart(p.saved, p.jobs, cfg.hash, v) && HonestListing(o) && Asks(o, v)
    ensures var q := Reconcile(p, cfg, o).p; WellNamed(q.jobs, cfg.hash, v) && Apart(q.saved, q.jobs, cfg.hash, v)
  {
    FrontKeepsLists(p, o);
    var f := Front(p, o);
    if f.Next? {
      WorkApart(f.p, cfg, o, v);
      var g := Work(f.p, cfg, o);
      if g.Next? {
        CloseApart(g.p, o, cfg.hash, v);
      }
    }
  }

  /** Any pass for one release, and no job disappears. */
  ghost predicate Faithful(a: Action, hash: Hash, v: string) {
    KeepsJobs(a, hash) && (a.Reconciled? ==> HonestListing(a.o) && Asks(a.o, v))
  }

  ghost predicate FaithfulRun(actions: seq<Action>, hash: Hash, v: string) {
    actions != [] ==>
      && FaithfulRun(actions[..|actions| - 1], hash, v)
      && Faithful(actions[|actions| - 1], hash, v)
  }

  lemma StepApart(w: World, a: Action, hash: Hash, v: string)
    requires WellNamed(w.pass.jobs, hash, v) && Apart(w.pass.saved, w.pass.jobs, hash, v) && Faithful(a, hash, v)
    ensures var q := Step(w, a).pass; WellNamed(q.jobs, hash, v) && Apart(q.saved, q.jobs, hash, v)
  {
    match a
    case Reconciled(cfg, o) => PassApart(w.pass, cfg, o, v);
    case JobSucceeds(name) => FinishApart(w.pass.saved, w.pass.jobs, {name}, hash, v);
    case JobDisappears(_) =>
  }

  /** In every run for one release in which no job disappears, whatever fails and whatever the parallelism, the
      targets and the primers: the test that guards a Create is true, as no node is both warming and preheated. */
  lemma {:induction false} GuardIsAlwaysTrue(w: World, actions: seq<Action>, hash: Hash, v: string)
    requires CleanStart(w, hash, v) && FaithfulRun(actions, hash, v)
    ensures var p := Run(w, actions).pass;
            && WellNamed(p.jobs, hash, v) && Apart(p.saved, p.jobs, hash, v)
            && (forall n :: !Skipped(p.saved, n))
    decreases |actions|
  {
    if actions == [] {
      ForeignJobsDoNotCollide(w.pass.jobs, hash, v);
    } else {
      GuardIsAlwaysTrue(w, actions[..|actions| - 1], hash, v);
      StepApart(Run(w, actions[..|actions| - 1]), actions[|actions| - 1], hash, v);
    }
  }

  // ---- No index goes out of range ----

  /** While the loops go on, the nodes of `cover` stay on some list; they never stop on an index. */
  ghost function SafeFlow(hash: Hash, v: string, cover: set<string>): Flow -> bool {
    (f: Flow) =>
      && BothApart(f.p, hash, v)
      && (if f.Next? then Covers(f.p.mem, cover) else f.end != Panicked && f.end != LostMove)
  }

  lemma AttemptsSafe(cfg: Config, fails: Faults, removal: Removal, v: string, cover: set<string>, tried: set<string>)
    requires removal.IfPresent? || tried <= cover
    ensures Kept(SafeFlow(cfg.hash, v, cover), cfg, fails, removal, tried)
  {
    var inv := SafeFlow(cfg.hash, v, cover);
    forall p: Pass, n: string | inv(Next(p)) && n in tried ensures inv(TryNode(p, cfg, fails, n, removal).flow) {
      GuardNeverActs(p, cfg, fails, n, removal, v);
      AttemptOutcome(p, cfg, fails, n, removal);
      AttemptsCover(cfg, fails, removal, cover, tried);
      assert CoverFlow(cover)(Next(p));
      assert CoverFlow(cover)(TryNode(p, cfg, fails, n, removal).flow);
    }
  }

  lemma RoundSafe(p: Pass, cfg: Config, o: Observation, primers: seq<string>, v: string, cover: set<string>)
    requires BothApart(p, cfg.hash, v) && Covers(p.mem, cover) && Elements(primers) <= cover
    ensures SafeFlow(cfg.hash, v, cover)(SchedulePrimers(p, cfg, o, primers))
  {
    var inv := SafeFlow(cfg.hash, v, cover);
    AttemptsSafe(cfg, o.fails, ByPrimer, v, cover, Elements(primers));
    PrimerLoopKeeps(inv, p, cfg, o.fails, primers, false, false, Elements(primers));
    var r := PrimerLoop(p, cfg, o.fails, primers, false, false);
    assert inv(r.flow);
    ConditionsKeepLists(r.flow.p, o.fails, primers, r.scheduled, r.running);
  }

  lemma DispatchSafe(p: Pass, cfg: Config, o: Observation, v: string)
    requires BothApart(p, cfg.hash, v) && Tame(cfg)
    ensures Dispatch(p, cfg, o).Stop? ==> Dispatch(p, cfg, o).end !in {Panicked, LostMove}
  {
    var waiting := Elements(p.mem.waiting);
    var cover := if cfg.parallelism <= 0 then waiting else {};
    var inv := SafeFlow(cfg.hash, v, cover);
    var removal := if cfg.parallelism == 0 || cfg.batching.AsWritten? then ByIndex else IfPresent;
    AttemptsSafe(cfg, o.fails, removal, v, cover, waiting);
    assert p.mem.waiting[0..] == p.mem.waiting;
    DispatchNodesKeeps(inv, p, cfg, o.fails, waiting);
    assert inv(DispatchNodes(p, cfg, o.fails).flow);
  }

  lemma WorkSafe(p: Pass, cfg: Config, o: Observation, v: string)
    requires o.selection.Selected? && WellSelected(o) && BothApart(p, cfg.hash, v) && Tame(cfg)
    ensures Work(p, cfg, o).Stop? ==> Work(p, cfg, o).end !in {Panicked, LostMove}
  {
    var targets, primers := o.selection.targets, o.selection.primers;
    FilledFacts(p.mem.waiting, targets, p.mem.warming, p.mem.preheated);
    var f := Fill(p, o, targets);
    if f.Next? {
      RoundSafe(f.p, cfg, o, primers, v, Elements(targets));
      var g := SchedulePrimers(f.p, cfg, o, primers);
      if g.Next? {
        DispatchSafe(g.p, cfg, o, v);
      }
    }
  }

  lemma PassSafe(p: Pass, cfg: Config, o: Observation, v: string)
    requires WellNamed(p.jobs, cfg.hash, v) && Apart(p.saved, p.jobs, cfg.hash, v)
    requires Tame(cfg) && WellSelected(o) && Asks(o, v)
    ensures Reconcile(p, cfg, o).end !in {Panicked, LostMove}
  {
    FrontKeepsLists(p, o);
    var f := Front(p, o);
    if f.Next? {
      RestSafe(f.p, cfg, o, v);
    }
  }

  lemma RestSafe(p: Pass, cfg: Config, o: Observation, v: string)
    requires o.selection.Selected? && o.release.Ok? && o.release.value.desired == v
    requires WellSelected(o) && BothApart(p, cfg.hash, v) && Tame(cfg)
    ensures Rest(p, cfg, o).end !in {Panicked, LostMove}
  {
    WorkSafe(p, cfg, o, v);
    var g := Work(p, cfg, o);
    if g.Next? {
      ScanEnds(g.p, o, v);
    }
  }

  /** In every such run, after lost writes and earlier panics too: a pass without a batch, or with guards, indexes no
      list out of range. */
  lemma NeverPanics(w: World, actions: seq<Action>, cfg: Config, o: Observation, v: string)
    requires CleanStart(w, cfg.hash, v) && FaithfulRun(actions, cfg.hash, v)
    requires Tame(cfg) && WellSelected(o) && Asks(o, v)
    ensures Reconcile(Run(w, actions).pass, cfg, o).end !in {Panicked, LostMove}
  {
    GuardIsAlwaysTrue(w, actions, cfg.hash, v);
    PassSafe(Run(w, actions).pass, cfg, o, v);
  }

  // ---- The early exit ----

  lemma {:induction false} FaithfulFrom(actions: seq<Action>, hash: Hash, v: string)
    requires AlwaysAsks(actions, v) && forall i :: 0 <= i < |actions| ==> KeepsJobs(actions[i], hash)
    ensures FaithfulRun(actions, hash, v)
  {
    if actions != [] {
      FaithfulFrom(actions[..|actions| - 1], hash, v);
    }
  }

  /** The early exit leaves no node warming, in every such run in which no node has left the targets. */
  lemma EarlyExitLeavesNone(w: World, actions: seq<Action>, cfg: Config, o: Observation, v: string)
    requires CleanStart(w, cfg.hash, v) && AlwaysAsks(actions, v) && Sound(o, v)
    requires forall i :: 0 <= i < |actions| ==> KeepsJobs(actions[i], cfg.hash)
    requires Run(w, actions).seen <= Elements(TargetsOf(o))
    requires Reconcile(Run(w, actions).pass, cfg, o).end == AlreadyComplete
    ensures Run(w, actions).pass.saved.warming == []
  {
    EarlyExitIsSound(w, actions, cfg, o, v);
    RunAccounted(w, actions, v);
    FaithfulFrom(actions, cfg.hash, v);
    GuardIsAlwaysTrue(w, actions, cfg.hash, v);
    NoneWarming(Run(w, actions).pass.saved, TargetsOf(o), Run(w, actions).pass.jobs, cfg.hash, v);
  }

  lemma NoneWarming(s: Status, targets: seq<string>, jobs: JobStore, hash: Hash, v: string)
    requires Apart(s, jobs, hash, v) && forall n :: n in s.warming ==> n in Elements(targets)
    requires forall n :: n in targets <==> n in s.preheated
    ensures s.warming == []
  {
    FirstIsMember(s.warming);
  }
}
