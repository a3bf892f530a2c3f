/** Progress: on a cluster where no call fails, which nodes are still due after how many passes, and which pass writes
    LastCompletedVersion. */
module Convergence {
  import opened NodeLists
  import opened PullJobs
  import opened Passes
  import opened FrontFacts
  import opened Runs
  import opened Completion
  import opened Partition
  import opened PrimerGate
  import opened JobScan
  import opened Drain
  import opened Batches
  import opened NewJobs
  import opened Truth

  // ---- A clear pass ----

  /** Nothing fails, and targets and primers are `targets` and `primers`. Jobs may take as long as they like. */
  ghost predicate Clear(o: Observation, v: string, targets: seq<string>, primers: seq<string>) {
    && FaultFree(o.fails) && !o.disabled && o.infrastructure.Ok? && o.release.Ok? && o.resources.Ready?
    && o.selection == Selected(targets, primers)
    && Sound(o, v)
  }

  /** What one pass leaves of the nodes that wait. */
  function Remainder(cfg: Config, w: seq<string>): seq<string> {
    if cfg.parallelism == 0 then Left(w) else if cfg.parallelism < 0 then w else w[Min(cfg.parallelism, |w|)..]
  }

  /** What one pass issues. */
  function Portion(cfg: Config, w: seq<string>): seq<string> {
    if cfg.parallelism == 0 then Taken(w) else if cfg.parallelism < 0 then [] else w[..Min(cfg.parallelism, |w|)]
  }

  predicate Serves(cfg: Config) {
    cfg.parallelism == 0 || (cfg.parallelism > 0 && cfg.batching.WithGuards?)
  }

  lemma ClearInfrastructure(p: Pass, o: Observation)
    requires FaultFree(o.fails) && o.infrastructure.Ok? && o.release.Ok?
    ensures CheckInfrastructure(p, o).Next? && CheckRelease(p, o).Next?
  {
  }

  /** The front part ends a clear pass only by the length test. */
  lemma ClearFront(p: Pass, o: Observation, targets: seq<string>, primers: seq<string>)
    requires FaultFree(o.fails) && !o.disabled && o.infrastructure.Ok? && o.release.Ok? && o.resources.Ready?
    requires o.selection == Selected(targets, primers) && targets != []
    ensures var f := Front(p, o);
            if |targets| == |p.saved.preheated| && p.saved.waiting == [] then f == Stop(f.p, AlreadyComplete)
            else f.Next? && f.p.saved == f.p.mem
  {
    var q := Read(p, o.fails);
    ClearInfrastructure(q, o);
    PreflightFacts(p, o);
    var f1 := CheckInfrastructure(q, o);
    ClearInfrastructure(f1.p, o);
    var f2 := Preflight(p, o);
    ClearTargets(f2.p, o, targets, primers);
    EarlyExitShape(p, f2.p, o);
  }

  lemma ClearTargets(p: Pass, o: Observation, targets: seq<string>, primers: seq<string>)
    requires FaultFree(o.fails) && o.selection == Selected(targets, primers) && targets != []
    ensures var f := CheckTargets(p, o);
            if |targets| == |p.mem.preheated| && p.mem.waiting == [] then f == Stop(f.p, AlreadyComplete) else f.Next?
  {
  }

  lemma EarlyExitShape(p: Pass, q: Pass, o: Observation)
    requires FaultFree(o.fails) && o.resources.Ready?
    requires Preflight(p, o) == Next(q) && ListsOf(q.mem) == ListsOf(p.saved)
    ensures Front(p, o).Stop? ==> Front(p, o) == CheckTargets(q, o)
    ensures Front(p, o).Next? ==> Front(p, o).p.saved == Front(p, o).p.mem
    ensures CheckTargets(q, o).Next? ==> Front(p, o).Next?
  {
  }

  /** The nodes that a pass starts to serve: the waiting ones and the new ones. */
  function Due(s: Status, targets: seq<string>): seq<string> {
    Filled(s.waiting, targets, s.warming, s.preheated)
  }

  lemma DueIsGood(p: Pass, hash: Hash, v: string, targets: seq<string>)
    requires GoodSaved(p, hash, v, Elements(targets))
    ensures var w := Due(p.saved, targets);
            && NoDuplicates(w)
            && (forall n :: n in w ==>
                  n in targets && n !in p.saved.warming && n !in p.saved.preheated && !HasJob(p.jobs, hash, n, v))
            && (forall n :: n in targets ==> n in w || n in p.saved.warming || n in p.saved.preheated)
  {
    FilledFacts(p.saved.waiting, targets, p.saved.warming, p.saved.preheated);
    forall n | n in p.saved.waiting ensures n in targets { assert n in Elements(targets); }
  }

  /** A list that covers all targets is not filled up. */
  lemma {:induction false} NothingToFill(waiting: seq<string>, targets: seq<string>, warming: seq<string>,
                                         preheated: seq<string>)
    requires forall n :: n in targets ==> n in waiting || n in warming || n in preheated
    ensures Filled(waiting, targets, warming, preheated) == waiting
    decreases |targets|
  {
    if targets != [] {
      NothingToFill(waiting, targets[1..], warming, preheated);
    }
  }

  /** The early exit fires exactly when every target is preheated. */
  lemma ExitsWhenPreheated(s: Status, jobs: JobStore, hash: Hash, v: string, targets: seq<string>)
    requires Good(ListsOf(s), jobs, hash, v, Elements(targets)) && NoDuplicates(targets)
    ensures |targets| == |s.preheated| && s.waiting == [] <==> AllIn(targets, s.preheated)
    ensures AllIn(targets, s.preheated) ==> Due(s, targets) == []
  {
    forall n | n in s.preheated ensures n in targets { assert n in Elements(targets); }
    forall n | n in s.waiting ensures n in targets { assert n in Elements(targets); }
    FirstIsMember(s.waiting);
    if |targets| == |s.preheated| {
      EqualLengthCoverage(targets, s.preheated);
    }
    if AllIn(targets, s.preheated) {
      SizeOfElements(targets);
      SizeOfElements(s.preheated);
      assert Elements(targets) == Elements(s.preheated);
      NothingToFill(s.waiting, targets, s.warming, s.preheated);
    }
  }

  /** The dispatch of a clear pass. */
  lemma ClearDispatch(p: Pass, cfg: Config, o: Observation, v: string)
    requires FaultFree(o.fails) && Serves(cfg) && GateOpen(p.mem) && p.mem.versions.desired == v
    requires NoDuplicates(p.mem.waiting)
    requires forall n :: n in p.mem.waiting ==> !HasJob(p.jobs, cfg.hash, n, v) && n !in p.mem.preheated
    ensures var f := Dispatch(p, cfg, o);
            && f.Next? && f.p.saved == f.p.mem
            && f.p.mem == p.mem.(waiting := Remainder(cfg, p.mem.waiting),
                                 warming := p.mem.warming + Portion(cfg, p.mem.waiting),
                                 conditions := f.p.mem.conditions)
  {
    if cfg.parallelism == 0 {
      OnePassServes(p, cfg, o.fails);
    } else {
      GuardedBatchServes(p, cfg, o.fails);
    }
  }

  /** The primer loop passes over primers that all have jobs. */
  lemma {:induction false} LoopPassesOver(p: Pass, cfg: Config, fails: Faults, primers: seq<string>, scheduled: bool,
                                          running: bool)
    requires FaultFree(fails) && AllHaveJobs(primers, p.jobs, cfg.hash, p.mem.versions.desired)
    ensures var r := PrimerLoop(p, cfg, fails, primers, scheduled, running);
            r.flow.Next? && r.flow.p == p.(clock := r.flow.p.clock)
    decreases |primers|
  {
    if primers != [] {
      PassedOver(p, cfg, fails, primers[0], ByPrimer);
      var q := TryNode(p, cfg, fails, primers[0], ByPrimer).flow.p;
      assert forall n :: n in primers[1..] ==> n in primers;
      LoopPassesOver(q, cfg, fails, primers[1..], scheduled, running || primers[0] in p.mem.warming);
    }
  }

  /** A round over primers that are all preheated changes no list, and leaves the gate open. */
  lemma ClearRound(p: Pass, cfg: Config, o: Observation, primers: seq<string>)
    requires FaultFree(o.fails) && p.saved == p.mem && GateOpen(p.mem)
    requires AllHaveJobs(primers, p.jobs, cfg.hash, p.mem.versions.desired) && NoneIn(primers, p.mem.warming)
    ensures var f := SchedulePrimers(p, cfg, o, primers);
            && f.Next? && f.p.saved == f.p.mem && f.p.jobs == p.jobs && GateOpen(f.p.mem)
            && f.p.mem == p.mem.(conditions := f.p.mem.conditions)
  {
    if cfg.prime && |primers| > 0 {
      LoopPassesOver(p, cfg, o.fails, primers, false, false);
      LoopChangesNothing(p, cfg, o.fails, primers, false, false);
      var r := PrimerLoop(p, cfg, o.fails, primers, false, false);
      PrimerConditionsReason(r.flow.p, o.fails, primers, false, false);
    }
  }

  /** From the front part to the listing. */
  lemma ClearWork(p: Pass, cfg: Config, o: Observation, v: string, targets: seq<string>, primers: seq<string>)
    requires Clear(o, v, targets, primers) && Serves(cfg)
    requires GoodPass(p, cfg.hash, v, Elements(targets)) && p.saved == p.mem && GateOpen(p.mem)
    requires AllIn(primers, p.mem.preheated)
    ensures var f, w := Work(p, cfg, o), Due(p.mem, targets);
            && f.Next? && f.p.saved == f.p.mem
            && ListsOf(f.p.mem) == Lists(Remainder(cfg, w), p.mem.warming + Portion(cfg, w), p.mem.preheated)
            && f.p.mem.versions == p.mem.versions && f.p.mem.selected == p.mem.selected
            && GoodPass(f.p, cfg.hash, v, Elements(targets))
  {
    WorkIsGood(p, cfg, o, v, Elements(targets));
    DueIsGood(p, cfg.hash, v, targets);
    FillIsGood(p, o, cfg.hash, targets, v, Elements(targets));
    var f := Fill(p, o, targets);
    ClearRound(f.p, cfg, o, primers);
    ClearDispatch(SchedulePrimers(f.p, cfg, o, primers).p, cfg, o, v);
  }

  lemma TakenOrLeft(w: seq<string>, k: nat)
    requires k < |w|
    ensures if k % 2 == 1 && k < |w| - 1 then k / 2 < |Left(w)| && Left(w)[k / 2] == w[k]
            else exists i :: 0 <= i < |Taken(w)| && Taken(w)[i] == w[k]
  {
    if k % 2 == 1 && k < |w| - 1 {
      assert k == 2 * (k / 2) + 1 && k / 2 < (|w| - 1) / 2;
    } else {
      var i := if k % 2 == 0 then k / 2 else |w| / 2;
      assert Taken(w)[i] == w[k];
    }
  }

  /** What is taken and what is left make up the list. */
  lemma PortionAndRemainder(cfg: Config, w: seq<string>)
    requires Serves(cfg)
    ensures forall n :: n in w ==> n in Portion(cfg, w) || n in Remainder(cfg, w)
  {
    if cfg.parallelism == 0 {
      forall n | n in w ensures n in Taken(w) || n in Left(w) {
        var k :| 0 <= k < |w| && w[k] == n;
        TakenOrLeft(w, k);
      }
    } else {
      var k := Min(cfg.parallelism, |w|);
      assert w == w[..k] + w[k..];
    }
  }

  /** No target drops out of the three lists. */
  lemma ClearWorkCovers(s: Status, t: Status, cfg: Config, targets: seq<string>)
    requires Serves(cfg)
    requires ListsOf(t) == Lists(Remainder(cfg, Due(s, targets)), s.warming + Portion(cfg, Due(s, targets)),
                                 s.preheated)
    ensures Covers(t, Elements(targets))
  {
    var w := Due(s, targets);
    FilledFacts(s.waiting, targets, s.warming, s.preheated);
    PortionAndRemainder(cfg, w);
    forall n | n in Elements(targets) ensures n in t.waiting || n in t.warming || n in t.preheated {
      if n in Portion(cfg, w) { assert n in t.warming; }
    }
  }

  // ---- From the listing to the end ----

  /** The job of the target succeeds before the listing, if it has one by then. */
  ghost predicate Finished(jobs: JobStore, late: set<string>, hash: Hash, n: string, v: string) {
    Succeeded(jobs, hash, n, v) || JobName(hash, n, v) in late
  }

  ghost predicate AllSucceeded(jobs: JobStore, hash: Hash, targets: seq<string>, v: string) {
    forall n :: n in targets ==> Succeeded(jobs, hash, n, v)
  }

  /** In a good state the scan is its loop, also over an empty listing. */
  lemma ScanIsLoop(p: Pass, o: Observation, hash: Hash, v: string, seen: set<string>)
    requires !o.fails(p.clock) && HonestListing(o) && GoodPass(p, hash, v, seen)
    ensures var q := p.(jobs := Finish(p.jobs, o.late), clock := p.clock + 1);
            Scan(p, o, v) == ScanLoop(q, o.fails, o.list(q.jobs, v))
  {
    ScanIsGood(p, o, hash, v, seen);
  }

  lemma ClearScan(p: Pass, o: Observation, hash: Hash, v: string, targets: seq<string>)
    requires FaultFree(o.fails) && HonestListing(o) && GoodPass(p, hash, v, Elements(targets)) && p.saved == p.mem
    ensures var f, jobs := Scan(p, o, v), Finish(p.jobs, o.late);
            && f.Next? && f.p.saved == f.p.mem && f.p.jobs == jobs
            && f.p.mem == p.mem.(warming := f.p.mem.warming, preheated := f.p.mem.preheated)
            && (forall n :: Succeeded(jobs, hash, n, v) ==> n in f.p.mem.preheated)
  {
    var q := p.(jobs := Finish(p.jobs, o.late), clock := p.clock + 1);
    assert IsListing(o.list(q.jobs, v), q.jobs, v);
    ScanIsLoop(p, o, hash, v, Elements(targets));
    ScanJobs(p, o, v);
    FinishIsGood(ListsOf(p.mem), p.jobs, o.late, hash, v, Elements(targets));
    ClearLoop(q, o.fails, o.list(q.jobs, v), hash, v);
  }

  lemma ClearLoop(p: Pass, fails: Faults, listing: seq<Job>, hash: Hash, v: string)
    requires FaultFree(fails) && p.saved == p.mem && NoDuplicates(p.mem.warming)
    requires IsListing(listing, p.jobs, v) && WellNamed(p.jobs, hash, v)
    ensures var f := ScanLoop(p, fails, listing);
            && f.Next? && f.p.saved == f.p.mem
            && f.p.mem == p.mem.(warming := f.p.mem.warming, preheated := f.p.mem.preheated)
            && (forall n :: Succeeded(p.jobs, hash, n, v) ==> n in f.p.mem.preheated)
  {
    SucceededListed(listing, p.jobs, hash, v);
    ScanGoesOn(p, fails, listing);
    ScanSetForm(p, fails, listing);
  }

  lemma SucceededListed(listing: seq<Job>, jobs: JobStore, hash: Hash, v: string)
    requires IsListing(listing, jobs, v) && WellNamed(jobs, hash, v)
    ensures forall n :: Succeeded(jobs, hash, n, v) ==> n in DoneNodes(listing)
  {
    ListingShowsDone(listing, jobs, v);
    forall n | Succeeded(jobs, hash, n, v) ensures n in DoneNodes(listing) {
      assert jobs[JobName(hash, n, v)].node == n;
    }
  }

  lemma ClearEndsAs(p: Pass, o: Observation, hash: Hash, v: string, targets: seq<string>)
    requires FaultFree(o.fails) && p.saved == p.mem && p.mem.selected == targets && p.mem.versions.target == v
    requires NoDuplicates(targets) && GoodPass(p, hash, v, Elements(targets)) && Covers(p.mem, Elements(targets))
    requires forall n :: Succeeded(p.jobs, hash, n, v) ==> n in p.mem.preheated
    ensures var f, done := Conclude(p, o), p.mem.waiting == [] && AllSucceeded(p.jobs, hash, targets, v);
            && f == Stop(f.p, if done then Completed else Pending)
            && ListsOf(f.p.saved) == ListsOf(p.mem) && (done ==> f.p.saved.versions.lastCompleted == v)
  {
    forall n | n in p.mem.warming ensures n in targets { assert n in Elements(targets); }
    forall n | n in p.mem.preheated ensures n in targets { assert n in Elements(targets); }
    FirstIsMember(p.mem.warming);
    forall n | n in targets ensures n in p.mem.waiting || n in p.mem.warming || n in p.mem.preheated {
      assert n in Elements(targets);
    }
    if p.mem.warming == [] {
      ClearEnd(p, o, v, targets);
    }
  }

  lemma ClearEnd(p: Pass, o: Observation, v: string, targets: seq<string>)
    requires FaultFree(o.fails) && p.saved == p.mem && p.mem.warming == [] && p.mem.selected == targets
    requires p.mem.versions.target == v && NoDuplicates(targets) && NoDuplicates(p.mem.preheated)
    requires forall n :: n in targets ==> n in p.mem.waiting || n in p.mem.preheated
    requires forall n :: n in p.mem.preheated ==> n in targets
    ensures var f := Conclude(p, o);
            && f == Stop(f.p, if p.mem.waiting == [] then Completed else Pending)
            && f.p.jobs == p.jobs && ListsOf(f.p.saved) == ListsOf(p.mem)
            && (p.mem.waiting == [] ==> f.p.saved.versions.lastCompleted == v)
  {
    if p.mem.waiting == [] {
      SizeOfElements(targets);
      SizeOfElements(p.mem.preheated);
      assert Elements(targets) == Elements(p.mem.preheated);
    }
  }

  /** From the listing to the end of a clear pass. */
  lemma ClearClose(p: Pass, o: Observation, hash: Hash, v: string, targets: seq<string>)
    requires FaultFree(o.fails) && HonestListing(o) && p.saved == p.mem && p.mem.selected == targets
    requires p.mem.versions.target == v && NoDuplicates(targets)
    requires GoodPass(p, hash, v, Elements(targets)) && Covers(p.mem, Elements(targets))
    ensures var f, done := Close(p, o, v), p.mem.waiting == []
            && AllSucceeded(Finish(p.jobs, o.late), hash, targets, v);
            && f == Stop(f.p, if done then Completed else Pending)
            && f.p.saved.waiting == p.mem.waiting && Covers(f.p.saved, Elements(targets))
            && AllIn(p.mem.preheated, f.p.saved.preheated)
            && (done ==> f.p.saved.versions.lastCompleted == v)
  {
    ClearScan(p, o, hash, v, targets);
    ScanIsGood(p, o, hash, v, Elements(targets));
    ScanCovers(p, o, v, Elements(targets));
    ClearEndsAs(Scan(p, o, v).p, o, hash, v, targets);
  }

  // ---- The whole pass ----

  /** Jobs that are there after the work, and finish in time, in terms of those before. */
  lemma SucceededThen(p: Pass, q: Pass, cfg: Config, v: string, targets: seq<string>, some: set<string>,
                      late: set<string>)
    requires Extends(p, q, cfg.hash, v, some)
    requires forall n :: n in targets ==> HasJob(q.jobs, cfg.hash, n, v)
    ensures AllSucceeded(Finish(q.jobs, late), cfg.hash, targets, v)
            <==> forall n :: n in targets ==> Finished(p.jobs, late, cfg.hash, n, v)
  {
    forall n | n in targets
      ensures Succeeded(Finish(q.jobs, late), cfg.hash, n, v) <==> Finished(p.jobs, late, cfg.hash, n, v)
    {
      var k := JobName(cfg.hash, n, v);
      assert k in q.jobs;
      if k !in p.jobs {
        assert IsNew(p, q, cfg.hash, v, some, k);
      }
    }
  }

  /** How a clear pass ends, known before it starts. */
  ghost function Outcome(p: Pass, cfg: Config, o: Observation, v: string, targets: seq<string>): End {
    if AllIn(targets, p.saved.preheated) then AlreadyComplete
    else if Remainder(cfg, Due(p.saved, targets)) == []
            && forall n :: n in targets ==> Finished(p.jobs, o.late, cfg.hash, n, v)
    then Completed
    else Pending
  }

  /** Behind the front part. */
  lemma ClearRest(p: Pass, cfg: Config, o: Observation, v: string, targets: seq<string>, primers: seq<string>)
    requires Clear(o, v, targets, primers) && Serves(cfg) && NoDuplicates(targets)
    requires GoodPass(p, cfg.hash, v, Elements(targets)) && p.saved == p.mem && GateOpen(p.mem)
    requires p.mem.selected == targets && p.mem.versions.target == v && AllIn(primers, p.mem.preheated)
    ensures var f, left := Rest(p, cfg, o), Remainder(cfg, Due(p.mem, targets));
            var done := left == [] && forall n :: n in targets ==> Finished(p.jobs, o.late, cfg.hash, n, v);
            && f == Stop(f.p, if done then Completed else Pending)
            && Due(f.p.saved, targets) == left && (done ==> f.p.saved.versions.lastCompleted == v)
            && AllIn(primers, f.p.saved.preheated) && Covers(f.p.saved, Elements(targets))
  {
    ClearWork(p, cfg, o, v, targets, primers);
    var g := Work(p, cfg, o).p;
    ClearWorkCovers(p.mem, g.mem, cfg, targets);
    WorkExtends(p, cfg, o, v);
    ClearClose(g, o, cfg.hash, v, targets);
    if g.mem.waiting == [] {
      forall n | n in targets ensures HasJob(g.jobs, cfg.hash, n, v) { assert n in Elements(targets); }
      SucceededThen(p, g, cfg, v, targets, Candidates(p.mem, cfg, o), o.late);
    }
    CoveredIsDue(Close(g, o, v).p.saved, targets);
  }

  lemma CoveredIsDue(s: Status, targets: seq<string>)
    requires Covers(s, Elements(targets))
    ensures Due(s, targets) == s.waiting
  {
    forall n | n in targets ensures n in s.waiting || n in s.warming || n in s.preheated {
      assert n in Elements(targets);
    }
    NothingToFill(s.waiting, targets, s.warming, s.preheated);
  }

  /** A good state in which all primers are preheated; without primers any good state. */
  ghost predicate Drainable(p: Pass, hash: Hash, v: string, targets: seq<string>, primers: seq<string>) {
    GoodSaved(p, hash, v, Elements(targets)) && AllIn(primers, p.saved.preheated)
  }

  /** One clear pass from any such state, however long jobs take: the due nodes shrink to the remainder, and how it ends
      is known before. */
  lemma ClearPass(p: Pass, cfg: Config, o: Observation, v: string, targets: seq<string>, primers: seq<string>)
    requires Clear(o, v, targets, primers) && Serves(cfg) && NoDuplicates(targets) && targets != []
    requires Drainable(p, cfg.hash, v, targets, primers)
    ensures var f := Reconcile(p, cfg, o);
            && f == Stop(f.p, Outcome(p, cfg, o, v, targets))
            && Drainable(f.p, cfg.hash, v, targets, primers)
            && Due(f.p.saved, targets) == Remainder(cfg, Due(p.saved, targets))
            && (f.end == Completed ==> f.p.saved.versions.lastCompleted == v)
  {
    ClearOpening(p, cfg.hash, o, v, targets, primers);
    var f := Front(p, o);
    if f.Next? {
      ClearRestDrains(f.p, cfg, o, v, targets, primers);
    } else {
      assert Remainder(cfg, []) == [];
    }
  }

  lemma ClearRestDrains(p: Pass, cfg: Config, o: Observation, v: string, targets: seq<string>, primers: seq<string>)
    requires Clear(o, v, targets, primers) && Serves(cfg) && NoDuplicates(targets)
    requires GoodPass(p, cfg.hash, v, Elements(targets)) && p.saved == p.mem && GateOpen(p.mem)
    requires p.mem.selected == targets && p.mem.versions.target == v && AllIn(primers, p.mem.preheated)
    ensures var f, left := Rest(p, cfg, o), Remainder(cfg, Due(p.mem, targets));
            var done := left == [] && forall n :: n in targets ==> Finished(p.jobs, o.late, cfg.hash, n, v);
            && f == Stop(f.p, if done then Completed else Pending) && Drainable(f.p, cfg.hash, v, targets, primers)
            && Due(f.p.saved, targets) == left && (done ==> f.p.saved.versions.lastCompleted == v)
  {
    ClearRest(p, cfg, o, v, targets, primers);
    RestIsGood(p, cfg, o, v, Elements(targets));
  }

  /** The front part of a clear pass. */
  lemma ClearOpening(p: Pass, hash: Hash, o: Observation, v: string, targets: seq<string>, primers: seq<string>)
    requires Clear(o, v, targets, primers) && NoDuplicates(targets) && targets != []
    requires Drainable(p, hash, v, targets, primers)
    ensures var f := Front(p, o);
            if AllIn(targets, p.saved.preheated)
            then f == Stop(f.p, AlreadyComplete) && Drainable(f.p, hash, v, targets, primers)
                 && Due(p.saved, targets) == Due(f.p.saved, targets) == []
            else && f.Next? && GoodPass(f.p, hash, v, Elements(targets)) && f.p.saved == f.p.mem && GateOpen(f.p.mem)
                 && f.p.jobs == p.jobs && ListsOf(f.p.mem) == ListsOf(p.saved)
                 && f.p.mem.selected == targets && f.p.mem.versions.target == v
  {
    ClearFront(p, o, targets, primers);
    ExitsWhenPreheated(p.saved, p.jobs, hash, v, targets);
    FrontKeepsLists(p, o);
  }

  /** The state at the gate without primers, from any lists. */
  lemma UnprimedGate(p: Pass, cfg: Config, o: Observation, v: string, targets: seq<string>)
    requires Clear(o, v, targets, []) && targets != [] && !(|targets| == |p.saved.preheated| && p.saved.waiting == [])
    ensures var f := Front(p, o);
            && f.Next? &&
            var g := Fill(f.p, o, targets);
            && g.Next? && g.p.saved == g.p.mem && g.p.jobs == p.jobs && GateOpen(g.p.mem)
            && ListsOf(g.p.mem) == ListsOf(p.saved).(waiting := Due(p.saved, targets))
            && g.p.mem.selected == targets && g.p.mem.versions.target == g.p.mem.versions.desired == v
            && IssueStage(p, cfg, o) == Dispatch(g.p, cfg, o)
  {
    UnprimedFront(p, o, v, targets);
    UnprimedFill(Front(p, o).p, cfg, o, v, targets);
  }

  lemma UnprimedFront(p: Pass, o: Observation, v: string, targets: seq<string>)
    requires Clear(o, v, targets, []) && targets != [] && !(|targets| == |p.saved.preheated| && p.saved.waiting == [])
    ensures var f := Front(p, o);
            && f.Next? && f.p.saved == f.p.mem && f.p.jobs == p.jobs && GateOpen(f.p.mem)
            && ListsOf(f.p.mem) == ListsOf(p.saved) && f.p.mem.selected == targets
            && f.p.mem.versions.target == f.p.mem.versions.desired == v
  {
    ClearFront(p, o, targets, []);
    FrontKeepsLists(p, o);
  }

  lemma UnprimedFill(p: Pass, cfg: Config, o: Observation, v: string, targets: seq<string>)
    requires Clear(o, v, targets, []) && p.saved == p.mem && GateOpen(p.mem)
    ensures var g := Fill(p, o, targets);
            && g.Next? && g.p.saved == g.p.mem && g.p.jobs == p.jobs
            && g.p.mem == p.mem.(waiting := Due(p.mem, targets))
            && SchedulePrimers(g.p, cfg, o, []) == Next(g.p)
  {
  }

  // ---- Runs ----

  /** The nodes due after `k` clear passes. */
  function DueAfter(cfg: Config, w: seq<string>, k: nat): seq<string> {
    if cfg.parallelism <= 0 then LeftAfter(w, k) else RestAfter(w, cfg.parallelism, k)
  }

  lemma {:induction false} DueAfterStep(cfg: Config, w: seq<string>, k: nat)
    requires Serves(cfg)
    ensures DueAfter(cfg, w, k + 1) == Remainder(cfg, DueAfter(cfg, w, k))
    decreases k
  {
    DueAfterFirst(cfg, w, k + 1);
    if k > 0 {
      DueAfterFirst(cfg, w, k);
      DueAfterStep(cfg, Remainder(cfg, w), k - 1);
    }
  }

  lemma DueAfterFirst(cfg: Config, w: seq<string>, k: nat)
    requires Serves(cfg) && k > 0
    ensures DueAfter(cfg, w, k) == DueAfter(cfg, Remainder(cfg, w), k - 1)
  {
  }

  /** `k` passes are enough for `n` nodes. */
  predicate Drains(cfg: Config, n: nat, k: nat) {
    if cfg.parallelism == 0 then n + 1 < Pow2(k + 1) else n <= k * cfg.parallelism
  }

  lemma DueAfterBounds(cfg: Config, w: seq<string>, k: nat)
    requires Serves(cfg)
    ensures DueAfter(cfg, w, k) == [] <==> Drains(cfg, |w|, k)
  {
    if cfg.parallelism == 0 {
      DrainedAfter(w, k);
    } else {
      RestAfterExactly(w, cfg.parallelism, k);
    }
  }

  /** Clear passes of one configuration, with jobs that succeed anywhere between. */
  ghost predicate ClearAction(a: Action, cfg: Config, v: string, targets: seq<string>, primers: seq<string>) {
    match a
    case Reconciled(c, o) => c == cfg && Clear(o, v, targets, primers)
    case JobSucceeds(_) => true
    case JobDisappears(_) => false
  }

  ghost predicate ClearRun(actions: seq<Action>, cfg: Config, v: string, targets: seq<string>, primers: seq<string>) {
    forall a :: a in actions ==> ClearAction(a, cfg, v, targets, primers)
  }

  function PassCount(actions: seq<Action>): nat {
    if actions == [] then 0
    else PassCount(actions[..|actions| - 1]) + if actions[|actions| - 1].Reconciled? then 1 else 0
  }

  lemma ClearStep(w: World, a: Action, cfg: Config, v: string, targets: seq<string>, primers: seq<string>)
    requires ClearAction(a, cfg, v, targets, primers) && Serves(cfg) && NoDuplicates(targets) && targets != []
    requires Drainable(w.pass, cfg.hash, v, targets, primers)
    ensures var q, due := Step(w, a).pass, Due(w.pass.saved, targets);
            && Drainable(q, cfg.hash, v, targets, primers)
            && Due(q.saved, targets) == if a.Reconciled? then Remainder(cfg, due) else due
  {
    match a
    case Reconciled(_, o) => ClearPass(w.pass, cfg, o, v, targets, primers);
    case JobSucceeds(name) => FinishIsGood(ListsOf(w.pass.saved), w.pass.jobs, {name}, cfg.hash, v, Elements(targets));
    case JobDisappears(_) =>
  }

  /** What every allowed step keeps, with a count of the passes. */
  ghost predicate StepsKeep(inv: (World, nat) -> bool, ok: Action -> bool) {
    forall w, a, k: nat :: inv(w, k) && ok(a) ==> inv(Step(w, a), if a.Reconciled? then k + 1 else k)
  }

  lemma {:induction false} RunKeeps(inv: (World, nat) -> bool, ok: Action -> bool, w: World, actions: seq<Action>)
    requires StepsKeep(inv, ok) && inv(w, 0) && forall a :: a in actions ==> ok(a)
    ensures inv(Run(w, actions), PassCount(actions))
    decreases |actions|
  {
    if actions != [] {
      var front, last := actions[..|actions| - 1], actions[|actions| - 1];
      RunKeeps(inv, ok, w, front);
      assert last in actions;
    }
  }

  ghost predicate DueIs(p: Pass, cfg: Config, v: string, targets: seq<string>, primers: seq<string>, w: seq<string>) {
    Drainable(p, cfg.hash, v, targets, primers) && Due(p.saved, targets) == w
  }

  ghost function Draining(cfg: Config, v: string, targets: seq<string>, primers: seq<string>, w: seq<string>)
    : (World, nat) -> bool
  {
    (u: World, k: nat) => DueIs(u.pass, cfg, v, targets, primers, DueAfter(cfg, w, k))
  }

  ghost function ClearFor(cfg: Config, v: string, targets: seq<string>, primers: seq<string>): Action -> bool {
    (a: Action) => ClearAction(a, cfg, v, targets, primers)
  }

  lemma StepsDrain(cfg: Config, v: string, targets: seq<string>, primers: seq<string>, w: seq<string>)
    requires Serves(cfg) && NoDuplicates(targets) && targets != []
    ensures StepsKeep(Draining(cfg, v, targets, primers, w), ClearFor(cfg, v, targets, primers))
  {
    forall u: World, a: Action, k: nat |
        DueIs(u.pass, cfg, v, targets, primers, DueAfter(cfg, w, k)) && ClearAction(a, cfg, v, targets, primers)
      ensures DueIs(Step(u, a).pass, cfg, v, targets, primers, DueAfter(cfg, w, if a.Reconciled? then k + 1 else k))
    {
      ClearStep(u, a, cfg, v, targets, primers);
      DueAfterStep(cfg, w, k);
    }
  }

  /** The drain over runs: after k clear passes, with jobs finishing at any time, exactly the nodes of `DueAfter` are
      due. */
  lemma DrainsInRuns(w: World, actions: seq<Action>, cfg: Config, v: string, targets: seq<string>, primers: seq<string>)
    requires ClearRun(actions, cfg, v, targets, primers) && Serves(cfg) && NoDuplicates(targets) && targets != []
    requires Drainable(w.pass, cfg.hash, v, targets, primers)
    ensures DueIs(Run(w, actions).pass, cfg, v, targets, primers,
                  DueAfter(cfg, Due(w.pass.saved, targets), PassCount(actions)))
  {
    var due := Due(w.pass.saved, targets);
    StepsDrain(cfg, v, targets, primers, due);
    RunKeeps(Draining(cfg, v, targets, primers, due), ClearFor(cfg, v, targets, primers), w, actions);
  }

  /** Parallelism 0: after k passes of a clear run every 2^k-th of the n due nodes is still due, which are
      floor((n + 1) / 2^k) - 1 nodes, and none exactly if n + 1 < 2^(k + 1). */
  lemma DueAfterPasses(w: World, actions: seq<Action>, cfg: Config, v: string, targets: seq<string>,
                       primers: seq<string>)
    requires ClearRun(actions, cfg, v, targets, primers) && cfg.parallelism == 0 && NoDuplicates(targets)
             && targets != []
    requires Drainable(w.pass, cfg.hash, v, targets, primers)
    ensures EverySoMany(Due(w.pass.saved, targets), Due(Run(w, actions).pass.saved, targets), PassCount(actions))
  {
    DrainsInRuns(w, actions, cfg, v, targets, primers);
    LeftIsEverySoMany(Due(w.pass.saved, targets), PassCount(actions));
  }

  /** `rest` holds every 2^k-th node of `due`, in order. */
  ghost predicate EverySoMany(due: seq<string>, rest: seq<string>, k: nat) {
    && |rest| == (if Halved(|due| + 1, k) == 0 then 0 else Halved(|due| + 1, k) - 1)
    && (rest == [] <==> |due| + 1 < Pow2(k + 1))
    && (forall j :: 0 <= j < |rest| ==> 0 <= Pow2(k) * (j + 1) - 1 < |due| && rest[j] == due[Pow2(k) * (j + 1) - 1])
  }

  lemma LeftIsEverySoMany(w: seq<string>, k: nat)
    ensures EverySoMany(w, LeftAfter(w, k), k)
  {
    LeftAfterSize(w, k);
    DrainedAfter(w, k);
    var rest := LeftAfter(w, k);
    forall j | 0 <= j < |rest|
      ensures 0 <= Pow2(k) * (j + 1) - 1 < |w| && rest[j] == w[Pow2(k) * (j + 1) - 1]
    {
      LeftAfterAt(w, k, j);
      PositionIsMultiple(k, j);
    }
  }

  /** A guarded parallelism p: after k passes of a clear run the nodes from position k * p on are still due. */
  lemma DueAfterBatches(w: World, actions: seq<Action>, cfg: Config, v: string, targets: seq<string>,
                        primers: seq<string>)
    requires ClearRun(actions, cfg, v, targets, primers) && cfg.parallelism > 0 && cfg.batching.WithGuards?
    requires NoDuplicates(targets) && targets != [] && Drainable(w.pass, cfg.hash, v, targets, primers)
    ensures var due, taken := Due(w.pass.saved, targets), PassCount(actions) * cfg.parallelism;
            && 0 <= taken
            && Due(Run(w, actions).pass.saved, targets) == due[Min(taken, |due|)..]
  {
    DrainsInRuns(w, actions, cfg, v, targets, primers);
    RestAfterExactly(Due(w.pass.saved, targets), cfg.parallelism, PassCount(actions));
  }

  /** How the pass after `k` others ends. */
  ghost function OutcomeAfter(p: Pass, cfg: Config, o: Observation, v: string, targets: seq<string>, n: nat,
                              k: nat): End
  {
    if AllIn(targets, p.saved.preheated) then AlreadyComplete
    else if Drains(cfg, n, k + 1) && (forall x :: x in targets ==> Finished(p.jobs, o.late, cfg.hash, x, v))
    then Completed
    else Pending
  }

  lemma NextClearPass(p: Pass, cfg: Config, o: Observation, v: string, targets: seq<string>, primers: seq<string>,
                      w: seq<string>, k: nat)
    requires Clear(o, v, targets, primers) && Serves(cfg) && NoDuplicates(targets) && targets != []
    requires DueIs(p, cfg, v, targets, primers, DueAfter(cfg, w, k))
    ensures var f := Reconcile(p, cfg, o);
            && f == Stop(f.p, OutcomeAfter(p, cfg, o, v, targets, |w|, k))
            && (f.end == Completed ==> f.p.saved.versions.lastCompleted == v)
    ensures !Drains(cfg, |w|, k) ==> !AllIn(targets, p.saved.preheated)
  {
    ClearPass(p, cfg, o, v, targets, primers);
    DueAfterStep(cfg, w, k);
    DueAfterBounds(cfg, w, k);
    DueAfterBounds(cfg, w, k + 1);
    ExitsWhenPreheated(p.saved, p.jobs, cfg.hash, v, targets);
  }

  /** The main theorem on progress. In a clear run from n due nodes the pass after k others ends as already complete
      exactly if all targets are preheated; otherwise it writes LastCompletedVersion exactly if k + 1 passes drain n
      nodes and the job of every target succeeds before the listing; otherwise it ends as pending. */
  lemma CompletesExactlyWhen(w: World, actions: seq<Action>, cfg: Config, o: Observation, v: string,
                             targets: seq<string>, primers: seq<string>)
    requires ClearRun(actions, cfg, v, targets, primers) && Clear(o, v, targets, primers) && Serves(cfg)
    requires NoDuplicates(targets) && targets != [] && Drainable(w.pass, cfg.hash, v, targets, primers)
    ensures var p, n, k := Run(w, actions).pass, |Due(w.pass.saved, targets)|, PassCount(actions);
            var f := Reconcile(p, cfg, o);
            && f == Stop(f.p, OutcomeAfter(p, cfg, o, v, targets, n, k))
            && (f.end == Completed ==> f.p.saved.versions.lastCompleted == v)
  {
    var p := Run(w, actions).pass;
    DrainsInRuns(w, actions, cfg, v, targets, primers);
    NextClearPass(p, cfg, o, v, targets, primers, Due(w.pass.saved, targets), PassCount(actions));
  }

  /** Every job succeeds before the listing. */
  ghost predicate AllLate(o: Observation, hash: Hash, v: string, targets: seq<string>) {
    forall n :: n in targets ==> JobName(hash, n, v) in o.late
  }

  /** The fastest case: a pass that finds nodes due, and whose listing finds every job done, writes LastCompletedVersion
      exactly if it drains the list. */
  lemma FastestOutcome(p: Pass, cfg: Config, o: Observation, v: string, targets: seq<string>, primers: seq<string>,
                       w: seq<string>, k: nat)
    requires Serves(cfg) && NoDuplicates(targets) && DueIs(p, cfg, v, targets, primers, DueAfter(cfg, w, k))
    requires !Drains(cfg, |w|, k) && AllLate(o, cfg.hash, v, targets)
    ensures OutcomeAfter(p, cfg, o, v, targets, |w|, k) == if Drains(cfg, |w|, k + 1) then Completed else Pending
  {
    DueAfterBounds(cfg, w, k);
    ExitsWhenPreheated(p.saved, p.jobs, cfg.hash, v, targets);
  }

  /** So LastCompletedVersion is written in pass floor(log2(n + 1)) for parallelism 0 and in pass ceil(n / p) for a
      guarded parallelism p at the earliest, and then if every job is done by its listing. */
  lemma CompletesExactlyAfter(w: World, actions: seq<Action>, cfg: Config, o: Observation, v: string,
                              targets: seq<string>, primers: seq<string>)
    requires ClearRun(actions, cfg, v, targets, primers) && Clear(o, v, targets, primers) && Serves(cfg)
    requires NoDuplicates(targets) && targets != [] && Drainable(w.pass, cfg.hash, v, targets, primers)
    ensures var n, k := |Due(w.pass.saved, targets)|, PassCount(actions);
            var end := Reconcile(Run(w, actions).pass, cfg, o).end;
            && (end == Completed ==> Drains(cfg, n, k + 1))
            && (!Drains(cfg, n, k) && AllLate(o, cfg.hash, v, targets)
                ==> (end == Completed <==> Drains(cfg, n, k + 1)))
  {
    CompletesExactlyWhen(w, actions, cfg, o, v, targets, primers);
    DrainsInRuns(w, actions, cfg, v, targets, primers);
    if !Drains(cfg, |Due(w.pass.saved, targets)|, PassCount(actions)) && AllLate(o, cfg.hash, v, targets) {
      FastestOutcome(Run(w, actions).pass, cfg, o, v, targets, primers, Due(w.pass.saved, targets), PassCount(actions));
    }
  }

  /** The targets that are on no list follow the waiting nodes, in their own order. */
  lemma {:induction false} FillAppends(waiting: seq<string>, targets: seq<string>, warming: seq<string>,
                                       preheated: seq<string>)
    requires NoDuplicates(targets)
    ensures Filled(waiting, targets, warming, preheated)
         == waiting + Except(targets, Elements(waiting) + Elements(warming) + Elements(preheated))
    decreases |targets|
  {
    if targets == [] {
      assert waiting + [] == waiting;
    } else {
      var n, rest := targets[0], targets[1..];
      var listed := Elements(waiting) + Elements(warming) + Elements(preheated);
      if n in listed {
        FillAppends(waiting, rest, warming, preheated);
      } else {
        FillAppends(waiting + [n], rest, warming, preheated);
        assert Elements(waiting + [n]) + Elements(warming) + Elements(preheated) == listed + {n};
        ExceptTwice(rest, {n}, listed);
        ExceptNone(rest, {n});
        assert waiting + [n] + Except(rest, listed) == waiting + ([n] + Except(rest, listed));
        assert listed + {n} == {n} + listed;
      }
    }
  }

  /** With empty lists all targets are due. */
  lemma FillsFromScratch(s: Status, targets: seq<string>)
    requires NoDuplicates(targets) && ListsOf(s) == NO_LISTS
    ensures Due(s, targets) == targets
  {
    FillAppends([], targets, [], []);
    ExceptNone(targets, {});
    assert [] + targets == targets;
    assert Elements([]) + Elements([]) + Elements([]) == {};
  }
}
