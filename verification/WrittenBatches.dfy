/** A positive parallelism as the code has it, on a cluster where no call fails and without priming: how every pass
    ends, and when a run completes at all. */
module WrittenBatches {
  import opened NodeLists
  import opened PullJobs
  import opened Passes
  import opened FrontFacts
  import opened Runs
  import opened Completion
  import opened Partition
  import opened JobScan
  import opened Drain
  import opened Batches
  import opened Convergence
  import opened Truth
  import opened ListsApart
  import opened Limits
  import opened ShortBatch

  // ---- One pass ----

  predicate Written(cfg: Config) {
    cfg.batching.AsWritten? && cfg.parallelism > 0
  }

  /** What such runs keep. Due nodes may have jobs, and a preheated node may still wait. */
  ghost predicate Unbroken(p: Pass, hash: Hash, v: string, targets: seq<string>) {
    && Loose(p, hash, v, targets) && p.saved.warming == []
    && NoDuplicates(p.saved.waiting) && AllIn(p.saved.waiting, targets) && JobsWithin(p.jobs, v, Elements(targets))
  }

  /** Every target is done when the jobs are listed. */
  ghost predicate AllDone(p: Pass, o: Observation, v: string, targets: seq<string>) {
    forall n :: n in targets ==> n in p.saved.preheated || n in DoneIn(Finish(p.jobs, o.late), v)
  }

  /** How a pass ends, known before it starts. */
  ghost function WrittenEnd(p: Pass, cfg: Config, o: Observation, v: string, targets: seq<string>): End
    requires Written(cfg)
  {
    var due, b := Due(p.saved, targets), cfg.parallelism;
    if due == [] then AlreadyComplete
    else if |due| < b then Panicked
    else if FirstJobless(due[..b], p.jobs, cfg.hash, v) != [] then LostMove
    else if |due| == b && AllDone(p, o, v, targets) then Completed
    else Pending
  }

  /** What it leaves. */
  ghost predicate WrittenStep(p: Pass, q: Pass, cfg: Config, o: Observation, v: string, targets: seq<string>)
    requires Written(cfg)
  {
    var due, b, end := Due(p.saved, targets), cfg.parallelism, WrittenEnd(p, cfg, o, v, targets);
    if end == Completed || end == Pending then
      && q.jobs == Finish(p.jobs, o.late) && q.saved.waiting == due[b..]
      && (forall n :: n in q.saved.preheated <==> n in p.saved.preheated || n in DoneIn(q.jobs, v))
    else
      && q.jobs == (if end == LostMove then WithNextJob(due[..b], p.jobs, cfg.hash, v) else p.jobs)
      && (q.saved.waiting == due || q.saved.waiting == p.saved.waiting)
      && q.saved.preheated == p.saved.preheated && Due(q.saved, targets) == due
  }

  lemma DueOfUnbroken(s: Status, targets: seq<string>)
    requires NoDuplicates(targets) && NoDuplicates(s.preheated) && AllIn(s.preheated, targets) && s.warming == []
    requires NoDuplicates(s.waiting) && AllIn(s.waiting, targets)
    ensures var due := Due(s, targets);
            && NoDuplicates(due) && AllIn(due, targets)
            && (due == [] <==> |targets| == |s.preheated| && s.waiting == [])
            && (forall n :: n in targets ==> n in due || n in s.preheated)
  {
    var due := Due(s, targets);
    FilledFacts(s.waiting, targets, s.warming, s.preheated);
    if due == [] {
      FirstIsMember(s.waiting);
      SizeOfElements(targets);
      SizeOfElements(s.preheated);
      assert Elements(targets) == Elements(s.preheated);
    } else {
      ShortGoesOn(s, targets);
    }
  }

  /** The dispatch of such a pass, from filled lists. */
  lemma WrittenDispatch(p: Pass, cfg: Config, o: Observation, v: string)
    requires FaultFree(o.fails) && Written(cfg) && GateOpen(p.mem) && p.mem.versions.desired == v && p.saved == p.mem
    requires p.mem.waiting != [] && NoDuplicates(p.mem.waiting) && p.mem.warming == []
    ensures var f, w, b := Dispatch(p, cfg, o), p.mem.waiting, cfg.parallelism;
            if |w| < b then f == Stop(f.p, Panicked) && f.p.jobs == p.jobs && f.p.saved == p.saved
            else if FirstJobless(w[..b], p.jobs, cfg.hash, v) != [] then
              f == Stop(f.p, LostMove) && f.p.jobs == WithNextJob(w[..b], p.jobs, cfg.hash, v) && f.p.saved == p.saved
            else
              && f.Next? && f.p.jobs == p.jobs && f.p.saved == f.p.mem
              && f.p.mem == p.mem.(waiting := w[b..], conditions := f.p.mem.conditions)
  {
    AsWrittenPanics(p, cfg, o.fails);
    if cfg.parallelism <= |p.mem.waiting| {
      JoblessMeans(p.mem.waiting[..cfg.parallelism], p, cfg.hash);
    }
  }

  lemma {:induction false} JoblessMeans(nodes: seq<string>, p: Pass, hash: Hash)
    ensures FirstJobless(nodes, p.jobs, hash, p.mem.versions.desired) == [] <==> HaveJobs(nodes, p, hash)
  {
    if nodes != [] {
      JoblessMeans(nodes[1..], p, hash);
      assert nodes == [nodes[0]] + nodes[1..] && nodes[0] in nodes;
    }
  }

  /** The listing and the end, when no node is warming. */
  lemma WrittenClose(p: Pass, o: Observation, v: string, targets: seq<string>)
    requires FaultFree(o.fails) && HonestListing(o) && p.saved == p.mem && p.mem.warming == []
    requires p.mem.selected == targets && p.mem.versions.target == v && NoDuplicates(targets)
    requires NoDuplicates(p.mem.preheated) && AllIn(p.mem.preheated, targets)
             && JobsWithin(p.jobs, v, Elements(targets))
    ensures var f, done := Close(p, o, v), DoneIn(Finish(p.jobs, o.late), v);
            && f.p.jobs == Finish(p.jobs, o.late) && f.p.saved.waiting == p.mem.waiting && f.p.saved.warming == []
            && (forall n :: n in f.p.saved.preheated <==> n in p.mem.preheated || n in done)
            && NoDuplicates(f.p.saved.preheated) && AllIn(f.p.saved.preheated, targets)
            && f == Stop(f.p, if p.mem.waiting == [] && AllIn(targets, f.p.saved.preheated) then Completed else Pending)
            && (f.end == Completed ==> f.p.saved.versions.lastCompleted == v)
  {
    var q, done := p.(jobs := Finish(p.jobs, o.late), clock := p.clock + 1), DoneIn(Finish(p.jobs, o.late), v);
    var listing := o.list(q.jobs, v);
    assert IsListing(listing, q.jobs, v);
    ListingShowsDone(listing, q.jobs, v);
    ScanGoesOn(q, o.fails, listing);
    ScanSetForm(q, o.fails, listing);
    ScanUnique(q, o.fails, listing);
    ScanLoopJobs(q, o.fails, listing);
    var r := ScanLoop(q, o.fails, listing).p;
    assert Scan(p, o, v) == Next(r);
    DoneAreTargets(q.jobs, v, targets);
    WrittenConclude(r, o, v, targets);
  }

  lemma DoneAreTargets(jobs: JobStore, v: string, targets: seq<string>)
    requires JobsWithin(jobs, v, Elements(targets))
    ensures forall n :: n in DoneIn(jobs, v) ==> n in targets
  {
    forall n | n in DoneIn(jobs, v) ensures n in targets {
      assert n in Elements(targets);
    }
  }

  lemma WrittenConclude(p: Pass, o: Observation, v: string, targets: seq<string>)
    requires FaultFree(o.fails) && p.saved == p.mem && p.mem.warming == [] && p.mem.selected == targets
    requires p.mem.versions.target == v && NoDuplicates(targets)
    requires NoDuplicates(p.mem.preheated) && AllIn(p.mem.preheated, targets)
    ensures var f := Conclude(p, o);
            && f.p.jobs == p.jobs && ListsOf(f.p.saved) == ListsOf(p.mem)
            && f == Stop(f.p, if p.mem.waiting == [] && AllIn(targets, p.mem.preheated) then Completed else Pending)
            && (f.end == Completed ==> f.p.saved.versions.lastCompleted == v)
  {
    SizeOfElements(targets);
    SizeOfElements(p.mem.preheated);
    if |p.mem.preheated| == |targets| {
      EqualLengthCoverage(targets, p.mem.preheated);
    }
    if AllIn(targets, p.mem.preheated) {
      assert Elements(targets) == Elements(p.mem.preheated);
    }
  }

  /** Behind the front part, when nodes are due. */
  lemma WrittenIssues(p: Pass, cfg: Config, o: Observation, v: string, targets: seq<string>)
    requires Clear(o, v, targets, []) && Written(cfg) && NoDuplicates(targets) && targets != []
    requires Unbroken(p, cfg.hash, v, targets) && Due(p.saved, targets) != []
    ensures var f, due, b := IssueStage(p, cfg, o), Due(p.saved, targets), cfg.parallelism;
            if |due| < b || FirstJobless(due[..b], p.jobs, cfg.hash, v) != [] then
              && f == Stop(f.p, if |due| < b then Panicked else LostMove)
              && f.p.jobs == (if |due| < b then p.jobs else WithNextJob(due[..b], p.jobs, cfg.hash, v))
              && ListsOf(f.p.saved) == ListsOf(p.saved).(waiting := due)
            else
              && f.Next? && f.p.jobs == p.jobs && f.p.saved == f.p.mem && f.p.mem.selected == targets
              && ListsOf(f.p.mem) == ListsOf(p.saved).(waiting := due[b..]) && f.p.mem.versions.target == v
  {
    DueOfUnbroken(p.saved, targets);
    UnprimedGate(p, cfg, o, v, targets);
    WrittenDispatch(Fill(Front(p, o).p, o, targets).p, cfg, o, v);
  }

  /** A job is added for a node of the list at most. */
  lemma {:induction false} NextJobIn(nodes: seq<string>, jobs: JobStore, hash: Hash, v: string)
    ensures forall n :: n in FirstJobless(nodes, jobs, hash, v) ==> n in nodes && JobName(hash, n, v) !in jobs
    ensures |FirstJobless(nodes, jobs, hash, v)| <= 1
  {
    if nodes != [] {
      NextJobIn(nodes[1..], jobs, hash, v);
    }
  }

  lemma NextJobWithin(p: Pass, due: seq<string>, b: nat, hash: Hash, v: string, targets: seq<string>)
    requires JobsWithin(p.jobs, v, Elements(targets)) && AllIn(due, targets) && b <= |due|
    ensures JobsWithin(WithNextJob(due[..b], p.jobs, hash, v), v, Elements(targets))
  {
    NextJobIn(due[..b], p.jobs, hash, v);
    var next := FirstJobless(due[..b], p.jobs, hash, v);
    assert next != [] ==> next[0] in next && next[0] in due;
  }

  /** What remains of a list keeps what the list kept. */
  lemma SuffixKeeps(due: seq<string>, b: nat, targets: seq<string>)
    requires NoDuplicates(due) && AllIn(due, targets) && b <= |due|
    ensures NoDuplicates(due[b..]) && AllIn(due[b..], targets)
  {
    forall n | n in due[b..] ensures n in targets { assert n in due; }
  }

  lemma FinishWithin(jobs: JobStore, names: set<string>, v: string, seen: set<string>)
    requires JobsWithin(jobs, v, seen)
    ensures JobsWithin(Finish(jobs, names), v, seen)
  {
  }

  /** A pass that dies or panics. */
  lemma WrittenStops(p: Pass, cfg: Config, o: Observation, v: string, targets: seq<string>)
    requires Clear(o, v, targets, []) && Written(cfg) && NoDuplicates(targets) && targets != []
    requires Unbroken(p, cfg.hash, v, targets) && WrittenEnd(p, cfg, o, v, targets) in {Panicked, LostMove}
    ensures var f := Reconcile(p, cfg, o);
            && f == Stop(f.p, WrittenEnd(p, cfg, o, v, targets)) && WrittenStep(p, f.p, cfg, o, v, targets)
            && Unbroken(f.p, cfg.hash, v, targets)
  {
    var due := Due(p.saved, targets);
    DueOfUnbroken(p.saved, targets);
    WrittenIssues(p, cfg, o, v, targets);
    StoppedAtIssue(p, cfg, o);
    PassApart(p, cfg, o, v);
    var q := IssueStage(p, cfg, o).p;
    DueStays(p.saved, q.saved, targets);
    if cfg.parallelism <= |due| {
      NextJobWithin(p, due, cfg.parallelism, cfg.hash, v, targets);
    }
  }

  lemma StoppedAtIssue(p: Pass, cfg: Config, o: Observation)
    ensures IssueStage(p, cfg, o).Stop? ==> Reconcile(p, cfg, o) == IssueStage(p, cfg, o)
    ensures IssueStage(p, cfg, o).Next? ==>
              Reconcile(p, cfg, o) == Close(IssueStage(p, cfg, o).p, o, o.release.value.desired)
  {
  }

  /** A pass that drops its batch and comes to its end. */
  lemma WrittenGoesOn(p: Pass, cfg: Config, o: Observation, v: string, targets: seq<string>)
    requires Clear(o, v, targets, []) && Written(cfg) && NoDuplicates(targets) && targets != []
    requires Unbroken(p, cfg.hash, v, targets) && WrittenEnd(p, cfg, o, v, targets) in {Pending, Completed}
    ensures var f := Reconcile(p, cfg, o);
            && f == Stop(f.p, WrittenEnd(p, cfg, o, v, targets)) && WrittenStep(p, f.p, cfg, o, v, targets)
            && Unbroken(f.p, cfg.hash, v, targets) && (f.end == Completed ==> f.p.saved.versions.lastCompleted == v)
  {
    var due := Due(p.saved, targets);
    DueOfUnbroken(p.saved, targets);
    WrittenIssues(p, cfg, o, v, targets);
    StoppedAtIssue(p, cfg, o);
    PassApart(p, cfg, o, v);
    WrittenClose(IssueStage(p, cfg, o).p, o, v, targets);
    SuffixKeeps(due, cfg.parallelism, targets);
    FinishWithin(p.jobs, o.late, v, Elements(targets));
  }

  /** One pass as written, from every state that such runs reach: how it ends and what it leaves. */
  lemma WrittenPass(p: Pass, cfg: Config, o: Observation, v: string, targets: seq<string>)
    requires Clear(o, v, targets, []) && Written(cfg) && NoDuplicates(targets) && targets != []
    requires Unbroken(p, cfg.hash, v, targets)
    ensures var f := Reconcile(p, cfg, o);
            && f == Stop(f.p, WrittenEnd(p, cfg, o, v, targets)) && WrittenStep(p, f.p, cfg, o, v, targets)
            && Unbroken(f.p, cfg.hash, v, targets) && (f.end == Completed ==> f.p.saved.versions.lastCompleted == v)
  {
    var end := WrittenEnd(p, cfg, o, v, targets);
    if end == AlreadyComplete {
      DueOfUnbroken(p.saved, targets);
      ClearFront(p, o, targets, []);
      FrontKeepsLists(p, o);
      DueStays(p.saved, Front(p, o).p.saved, targets);
    } else if end in {Panicked, LostMove} {
      WrittenStops(p, cfg, o, v, targets);
    } else {
      WrittenGoesOn(p, cfg, o, v, targets);
    }
  }

  // ---- Runs ----

  lemma WrittenKeeps(w: World, a: Action, cfg: Config, v: string, targets: seq<string>)
    requires ClearAction(a, cfg, v, targets, []) && Written(cfg) && NoDuplicates(targets) && targets != []
    requires Unbroken(w.pass, cfg.hash, v, targets)
    ensures Unbroken(Step(w, a).pass, cfg.hash, v, targets)
  {
    match a
    case Reconciled(_, o) => WrittenPass(w.pass, cfg, o, v, targets);
    case JobSucceeds(name) =>
      FinishApart(w.pass.saved, w.pass.jobs, {name}, cfg.hash, v);
      FinishWithin(w.pass.jobs, {name}, v, Elements(targets));
    case JobDisappears(_) =>
  }

  ghost function UnbrokenFor(hash: Hash, v: string, targets: seq<string>): (World, nat) -> bool {
    (w: World, k: nat) => Unbroken(w.pass, hash, v, targets)
  }

  lemma WrittenRuns(w: World, actions: seq<Action>, cfg: Config, v: string, targets: seq<string>)
    requires ClearRun(actions, cfg, v, targets, []) && Written(cfg) && NoDuplicates(targets) && targets != []
    requires Unbroken(w.pass, cfg.hash, v, targets)
    ensures Unbroken(Run(w, actions).pass, cfg.hash, v, targets)
  {
    WrittenStepsKeep(cfg, v, targets);
    RunKeeps(UnbrokenFor(cfg.hash, v, targets), ClearFor(cfg, v, targets, []), w, actions);
  }

  lemma WrittenStepsKeep(cfg: Config, v: string, targets: seq<string>)
    requires Written(cfg) && NoDuplicates(targets) && targets != []
    ensures StepsKeep(UnbrokenFor(cfg.hash, v, targets), ClearFor(cfg, v, targets, []))
  {
    forall w: World, a: Action | Unbroken(w.pass, cfg.hash, v, targets) && ClearAction(a, cfg, v, targets, [])
      ensures Unbroken(Step(w, a).pass, cfg.hash, v, targets)
    {
      WrittenKeeps(w, a, cfg, v, targets);
    }
  }

  /** Over runs, with jobs succeeding anywhere between: the next pass writes LastCompletedVersion exactly if the due
      nodes are one batch, all of them have jobs, and every target is done by its listing. */
  lemma WrittenCompletesExactlyWhen(w: World, actions: seq<Action>, cfg: Config, o: Observation, v: string,
                                    targets: seq<string>)
    requires ClearRun(actions, cfg, v, targets, []) && Clear(o, v, targets, []) && Written(cfg)
    requires NoDuplicates(targets) && targets != [] && Unbroken(w.pass, cfg.hash, v, targets)
    ensures var p := Run(w, actions).pass;
            Reconcile(p, cfg, o).end == WrittenEnd(p, cfg, o, v, targets)
  {
    WrittenRuns(w, actions, cfg, v, targets);
    WrittenPass(Run(w, actions).pass, cfg, o, v, targets);
  }

  /** A clean start. */
  lemma CleanIsUnbroken(w: World, hash: Hash, v: string, targets: seq<string>)
    requires CleanStart(w, hash, v) && NoDuplicates(targets)
    ensures Unbroken(w.pass, hash, v, targets) && Due(w.pass.saved, targets) == targets
  {
    ForeignJobsDoNotCollide(w.pass.jobs, hash, v);
    FillsFromScratch(w.pass.saved, targets);
  }

  /** With fewer targets than a batch takes, no pass of any run completes, whatever fails and whatever succeeds. */
  lemma FewTargetsNeverComplete(w: World, actions: seq<Action>, cfg: Config, o: Observation, v: string,
                                targets: seq<string>)
    requires CleanStart(w, cfg.hash, v) && cfg.batching.AsWritten? && 0 < |targets| < cfg.parallelism
    requires NoDuplicates(targets) && Same(o, v, targets, [])
    requires forall a :: a in actions ==> StuckAction(a, cfg.hash, v, targets, [], cfg.parallelism)
    ensures Reconcile(Run(w, actions).pass, cfg, o).end in {Failed, Panicked}
    ensures Run(w, actions).pass.saved.preheated == []
  {
    CleanIsUnbroken(w, cfg.hash, v, targets);
    StuckForever(w, actions, cfg, o, v, targets, []);
  }

  // ---- Prompt jobs ----

  /** Where a run stands: the first `m` targets are preheated, the rest is due, and the next `i` have jobs. */
  ghost predicate Phase(p: Pass, hash: Hash, v: string, targets: seq<string>, m: nat, i: nat) {
    && m + i <= |targets| && Unbroken(p, hash, v, targets) && Due(p.saved, targets) == targets[m..]
    && (forall n :: n in p.saved.preheated <==> n in targets[..m])
    && (forall n :: n in targets ==> (HasJob(p.jobs, hash, n, v) <==> n in targets[..m + i]))
  }

  /** `j` batches are dropped, the first `m` nodes; of the next batch `i` nodes have jobs. */
  datatype Place = Place(j: nat, m: nat, i: nat)

  /** The next place of `n` targets in batches of `b`. */
  function NextPlace(n: nat, b: nat, at: Place): Place {
    if n < at.m + b then at
    else if at.i < b then at.(i := at.i + 1)
    else Place(at.j + 1, at.m + b, 0)
  }

  /** The job store holds jobs of the first nodes, and the next one gets its job. */
  lemma {:induction false} FirstJoblessAt(nodes: seq<string>, jobs: JobStore, hash: Hash, v: string, i: nat)
    requires i <= |nodes|
    requires forall j :: 0 <= j < |nodes| ==> (JobName(hash, nodes[j], v) in jobs <==> j < i)
    ensures FirstJobless(nodes, jobs, hash, v) == if i < |nodes| then [nodes[i]] else []
  {
    if nodes != [] && i > 0 {
      FirstJoblessAt(nodes[1..], jobs, hash, v, i - 1);
    }
  }

  lemma JobsOfBatch(p: Pass, hash: Hash, v: string, targets: seq<string>, m: nat, i: nat, b: nat)
    requires Phase(p, hash, v, targets, m, i) && NoDuplicates(targets) && m + b <= |targets| && i <= b
    ensures FirstJobless(targets[m..][..b], p.jobs, hash, v) == if i < b then [targets[m + i]] else []
  {
    var batch := targets[m..][..b];
    forall j | 0 <= j < |batch| ensures JobName(hash, batch[j], v) in p.jobs <==> j < i {
      assert batch[j] == targets[m + j] && targets[m + j] in targets;
      ApartFrom(targets, m + i, m + j);
    }
    FirstJoblessAt(batch, p.jobs, hash, v, i);
  }

  /** In a list without duplicates an entry is in a prefix exactly if it stands there. */
  lemma ApartFrom(xs: seq<string>, k: nat, j: nat)
    requires NoDuplicates(xs) && k <= |xs| && j < |xs|
    ensures xs[j] in xs[..k] <==> j < k
  {
    if j < k { assert xs[..k][j] == xs[j]; }
  }

  /** Whoever has a job is done by a listing before which all jobs succeed. */
  lemma PromptDone(p: Pass, o: Observation, hash: Hash, v: string, targets: seq<string>)
    requires WellNamed(p.jobs, hash, v) && JobsWithin(p.jobs, v, Elements(targets)) && AllLate(o, hash, v, targets)
    ensures forall n :: n in DoneIn(Finish(p.jobs, o.late), v) <==> n in targets && HasJob(p.jobs, hash, n, v)
  {
    var jobs := Finish(p.jobs, o.late);
    forall n | n in DoneIn(jobs, v) ensures n in targets && HasJob(p.jobs, hash, n, v) {
      var k :| k in jobs && jobs[k].release == v && jobs[k].succeeded && jobs[k].node == n;
      assert k in p.jobs && p.jobs[k].release == v && n in Elements(targets);
    }
    forall n | n in targets && HasJob(p.jobs, hash, n, v) ensures n in DoneIn(jobs, v) {
      var k := JobName(hash, n, v);
      assert k in jobs && jobs[k].release == v && jobs[k].succeeded && jobs[k].node == n;
    }
  }

  /** A pass that creates a job. */
  lemma PhaseCreates(p: Pass, q: Pass, hash: Hash, v: string, targets: seq<string>, m: nat, i: nat)
    requires Phase(p, hash, v, targets, m, i) && NoDuplicates(targets) && m + i < |targets|
    requires q.jobs == p.jobs[JobName(hash, targets[m + i], v) := Job(targets[m + i], v, false)]
    requires q.saved.preheated == p.saved.preheated && Due(q.saved, targets) == Due(p.saved, targets)
    requires Unbroken(q, hash, v, targets)
    ensures Phase(q, hash, v, targets, m, i + 1)
  {
    var x := targets[m + i];
    assert targets[..m + i + 1] == targets[..m + i] + [x];
    ApartFrom(targets, m + i, m + i);
    assert x in targets;
    NewJob(p.jobs, hash, v, x);
  }

  /** A pass that drops its batch. */
  lemma PhaseDrops(p: Pass, q: Pass, o: Observation, hash: Hash, v: string, targets: seq<string>, m: nat, b: nat)
    requires Phase(p, hash, v, targets, m, b) && NoDuplicates(targets) && AllLate(o, hash, v, targets)
    requires q.jobs == Finish(p.jobs, o.late) && q.saved.waiting == targets[m..][b..] && Unbroken(q, hash, v, targets)
    requires forall n :: n in q.saved.preheated <==> n in p.saved.preheated || n in DoneIn(q.jobs, v)
    ensures Phase(q, hash, v, targets, m + b, 0)
  {
    PromptDone(p, o, hash, v, targets);
    assert targets[m..][b..] == targets[m + b..];
    PrefixIn(targets, m, m + b);
    RestIsDue(q.saved, targets, m + b);
  }

  lemma RestIsDue(s: Status, targets: seq<string>, k: nat)
    requires k <= |targets| && s.waiting == targets[k..] && forall n :: n in targets[..k] ==> n in s.preheated
    ensures Due(s, targets) == s.waiting
  {
    forall n | n in Elements(targets) ensures n in s.waiting || n in s.preheated {
      assert targets == targets[..k] + targets[k..];
    }
    CoveredIsDue(s, targets);
  }

  lemma PrefixIn(xs: seq<string>, j: nat, k: nat)
    requires j <= k <= |xs|
    ensures forall x :: x in xs[..j] ==> x in xs[..k]
    ensures forall x :: x in xs[..k] ==> x in xs
  {
    assert xs[..k] == xs[..j] + xs[j..k];
  }

  lemma PhaseStep(p: Pass, cfg: Config, o: Observation, v: string, targets: seq<string>, at: Place)
    requires Clear(o, v, targets, []) && AllLate(o, cfg.hash, v, targets) && Written(cfg)
    requires NoDuplicates(targets) && targets != []
    requires at.i <= cfg.parallelism && Phase(p, cfg.hash, v, targets, at.m, at.i)
    ensures var f, n, b := Reconcile(p, cfg, o), |targets|, cfg.parallelism;
            var next := NextPlace(n, b, at);
            && Phase(f.p, cfg.hash, v, targets, next.m, next.i)
            && (f.end == Completed <==> n == at.m + b && at.i == b)
  {
    WrittenPass(p, cfg, o, v, targets);
    PhaseMoves(p, Reconcile(p, cfg, o).p, cfg, o, v, targets, at);
  }

  lemma PhaseMoves(p: Pass, q: Pass, cfg: Config, o: Observation, v: string, targets: seq<string>, at: Place)
    requires AllLate(o, cfg.hash, v, targets) && Written(cfg) && NoDuplicates(targets) && targets != []
    requires at.i <= cfg.parallelism && Phase(p, cfg.hash, v, targets, at.m, at.i)
    requires WrittenStep(p, q, cfg, o, v, targets) && Unbroken(q, cfg.hash, v, targets)
    ensures var n, b := |targets|, cfg.parallelism;
            var next := NextPlace(n, b, at);
            && Phase(q, cfg.hash, v, targets, next.m, next.i)
            && (WrittenEnd(p, cfg, o, v, targets) == Completed <==> n == at.m + b && at.i == b)
  {
    var b := cfg.parallelism;
    if at.m + b <= |targets| {
      JobsOfBatch(p, cfg.hash, v, targets, at.m, at.i, b);
      if at.i < b {
        PhaseCreates(p, q, cfg.hash, v, targets, at.m, at.i);
      } else {
        PhaseDrops(p, q, o, cfg.hash, v, targets, at.m, b);
        PhaseCompletes(p, o, cfg.hash, v, targets, at.m, b);
      }
    }
  }

  lemma PhaseCompletes(p: Pass, o: Observation, hash: Hash, v: string, targets: seq<string>, m: nat, b: nat)
    requires Phase(p, hash, v, targets, m, b) && AllLate(o, hash, v, targets)
    ensures m + b == |targets| ==> AllDone(p, o, v, targets)
  {
    PromptDone(p, o, hash, v, targets);
    if m + b == |targets| {
      assert targets[..m + b] == targets;
    }
  }

  /** The place after `k` passes. */
  function PlaceAt(n: nat, b: nat, k: nat): Place {
    if k == 0 then Place(0, 0, 0) else NextPlace(n, b, PlaceAt(n, b, k - 1))
  }

  /** A batch takes a pass for each of its nodes, and one that drops it. */
  lemma {:induction false} PlaceIs(n: nat, b: nat, k: nat)
    requires b > 0
    ensures var at := PlaceAt(n, b, k);
            && at.m == at.j * b && at.i <= b && at.m <= n
            && (if at.m + b <= n then k == at.m + at.j + at.i else at.i == 0 && k >= at.m + at.j)
  {
    if k > 0 {
      PlaceIs(n, b, k - 1);
      NextMultiple(b, PlaceAt(n, b, k - 1).j);
    }
  }

  lemma Multiples(b: nat, x: nat, y: nat)
    requires b > 0 && x < y
    ensures x * b + b <= y * b
  {
    var d := y - x - 1;
    assert y * b == (x + 1 + d) * b == x * b + b + d * b;
    assert d * b >= 0;
  }

  /** Of n = q * b + r targets the last one is dropped only if no r are left over, and then in pass n + q. */
  lemma LastPlace(n: nat, b: nat, q: nat, r: nat, k: nat)
    requires b > 0 && n == q * b + r && r < b
    ensures var at := PlaceAt(n, b, k); n == at.m + b && at.i == b <==> r == 0 && n > 0 && k + 1 == n + q
  {
    PlaceIs(n, b, k);
    var at := PlaceAt(n, b, k);
    NextMultiple(b, at.j);
    if at.j + 1 < q { Multiples(b, at.j + 1, q); }
    if q < at.j + 1 { Multiples(b, q, at.j + 1); }
    LastAt(n, b, q, q * b, r, k, at);
  }

  lemma NextMultiple(b: nat, j: nat)
    ensures (j + 1) * b == j * b + b
  {
  }

  /** The same, with `full` nodes in `q` full batches, and what is known about multiples. */
  lemma LastAt(n: nat, b: nat, q: nat, full: nat, r: nat, k: nat, at: Place)
    requires b > 0 && n == full + r && r < b && at.i <= b && at.m <= n
    requires if at.m + b <= n then k == at.m + at.j + at.i else at.i == 0 && k >= at.m + at.j
    requires at.j + 1 < q ==> at.m + b + b <= full
    requires at.j + 1 == q ==> at.m + b == full
    requires q < at.j + 1 ==> full + b <= at.m + b
    ensures n == at.m + b && at.i == b <==> r == 0 && n > 0 && k + 1 == n + q
  {
  }

  // ---- Prompt runs ----

  /** Clear passes whose listings find every job done. */
  ghost predicate PromptAction(a: Action, cfg: Config, v: string, targets: seq<string>) {
    ClearAction(a, cfg, v, targets, []) && (a.Reconciled? ==> AllLate(a.o, cfg.hash, v, targets))
  }

  ghost predicate InPlace(p: Pass, cfg: Config, v: string, targets: seq<string>, at: Place) {
    at.i <= cfg.parallelism && Phase(p, cfg.hash, v, targets, at.m, at.i)
  }

  lemma PromptStep(w: World, a: Action, cfg: Config, v: string, targets: seq<string>, at: Place)
    requires PromptAction(a, cfg, v, targets) && Written(cfg) && NoDuplicates(targets) && targets != []
    requires InPlace(w.pass, cfg, v, targets, at)
    ensures InPlace(Step(w, a).pass, cfg, v, targets,
                    if a.Reconciled? then NextPlace(|targets|, cfg.parallelism, at) else at)
  {
    match a
    case Reconciled(_, o) => PhaseStep(w.pass, cfg, o, v, targets, at);
    case JobSucceeds(name) =>
      FinishApart(w.pass.saved, w.pass.jobs, {name}, cfg.hash, v);
      FinishWithin(w.pass.jobs, {name}, v, Elements(targets));
      assert forall n :: HasJob(Finish(w.pass.jobs, {name}), cfg.hash, n, v) <==> HasJob(w.pass.jobs, cfg.hash, n, v);
    case JobDisappears(_) =>
  }

  ghost function PlacedFor(cfg: Config, v: string, targets: seq<string>): (World, nat) -> bool
    requires Written(cfg)
  {
    (w: World, k: nat) => InPlace(w.pass, cfg, v, targets, PlaceAt(|targets|, cfg.parallelism, k))
  }

  ghost function PromptFor(cfg: Config, v: string, targets: seq<string>): Action -> bool {
    (a: Action) => PromptAction(a, cfg, v, targets)
  }

  lemma PromptStepsKeep(cfg: Config, v: string, targets: seq<string>)
    requires Written(cfg) && NoDuplicates(targets) && targets != []
    ensures StepsKeep(PlacedFor(cfg, v, targets), PromptFor(cfg, v, targets))
  {
    var n, b := |targets|, cfg.parallelism;
    forall w: World, a: Action, k: nat |
        InPlace(w.pass, cfg, v, targets, PlaceAt(n, b, k)) && PromptAction(a, cfg, v, targets)
      ensures InPlace(Step(w, a).pass, cfg, v, targets, PlaceAt(n, b, if a.Reconciled? then k + 1 else k))
    {
      PromptStep(w, a, cfg, v, targets, PlaceAt(n, b, k));
    }
  }

  lemma PromptPlace(w: World, actions: seq<Action>, cfg: Config, v: string, targets: seq<string>)
    requires Written(cfg) && NoDuplicates(targets) && targets != []
    requires InPlace(w.pass, cfg, v, targets, Place(0, 0, 0))
    requires forall a :: a in actions ==> PromptAction(a, cfg, v, targets)
    ensures InPlace(Run(w, actions).pass, cfg, v, targets, PlaceAt(|targets|, cfg.parallelism, PassCount(actions)))
  {
    PromptStepsKeep(cfg, v, targets);
    RunKeeps(PlacedFor(cfg, v, targets), PromptFor(cfg, v, targets), w, actions);
  }

  lemma CleanIsInPlace(w: World, cfg: Config, v: string, targets: seq<string>)
    requires CleanStart(w, cfg.hash, v) && NoDuplicates(targets) && cfg.parallelism >= 0
    ensures InPlace(w.pass, cfg, v, targets, Place(0, 0, 0))
  {
    CleanIsUnbroken(w, cfg.hash, v, targets);
    ForeignJobsDoNotCollide(w.pass.jobs, cfg.hash, v);
    assert targets[0..] == targets;
  }

  /** The main theorem on batches as written. On a cluster where no call fails and every job is done by the next
      listing, a run from a clean start completes n = q * b + r targets in batches of b exactly if nothing is left
      over, r = 0, and then in pass n + q. Otherwise no pass ever completes. */
  lemma CompletesIffDivided(w: World, actions: seq<Action>, cfg: Config, o: Observation, v: string,
                            targets: seq<string>, q: nat, r: nat)
    requires CleanStart(w, cfg.hash, v) && Written(cfg) && NoDuplicates(targets) && targets != []
    requires forall a :: a in actions ==> PromptAction(a, cfg, v, targets)
    requires PromptAction(Reconciled(cfg, o), cfg, v, targets)
    requires |targets| == q * cfg.parallelism + r && r < cfg.parallelism
    ensures Reconcile(Run(w, actions).pass, cfg, o).end == Completed
            <==> r == 0 && PassCount(actions) + 1 == |targets| + q
  {
    var k := PassCount(actions);
    CleanIsInPlace(w, cfg, v, targets);
    PromptPlace(w, actions, cfg, v, targets);
    PhaseStep(Run(w, actions).pass, cfg, o, v, targets, PlaceAt(|targets|, cfg.parallelism, k));
    LastPlace(|targets|, cfg.parallelism, q, r, k);
  }
}
