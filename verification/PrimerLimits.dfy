/** When a pass breaks the order of primers and other nodes. */
module PrimerLimits {
  import opened NodeLists
  import opened PullJobs
  import opened Passes
  import opened FrontFacts
  import opened Runs
  import opened Partition
  import opened PrimerGate
  import opened Drain
  import opened Batches
  import opened Convergence

  /** A clear pass with primers. */
  ghost predicate ClearPrimed(o: Observation, v: string, targets: seq<string>, primers: seq<string>) {
    Clear(o, v, targets, primers) && primers != []
  }

  lemma RoundPassesOver(p: Pass, cfg: Config, o: Observation, primers: seq<string>)
    requires FaultFree(o.fails) && AllHaveJobs(primers, p.jobs, cfg.hash, p.mem.versions.desired)
    ensures var f := SchedulePrimers(p, cfg, o, primers);
            f.Next? && f.p.jobs == p.jobs && f.p.mem == p.mem.(conditions := f.p.mem.conditions)
  {
    LoopPassesOver(p, cfg, o.fails, primers, false, false);
  }

  /** The stage that issues jobs is the dispatch behind the gate. */
  lemma IssuedAtGate(p: Pass, cfg: Config, o: Observation)
    ensures var f := AtGate(p, cfg, o);
            IssueStage(p, cfg, o) == if f.Stop? then f else Dispatch(f.p, cfg, o)
  {
  }

  lemma OrderAtGate(p: Pass, cfg: Config, o: Observation, v: string, primers: set<string>)
    requires PrimersFirst(p.jobs, cfg.hash, v, primers) && Asks(o, v)
    requires o.selection.Selected? && Elements(o.selection.primers) == primers
    ensures PrimersFirst(AtGate(p, cfg, o).p.jobs, cfg.hash, v, primers)
  {
    FrontKeepsLists(p, o);
    var f := Front(p, o);
    if f.Next? {
      var g := Fill(f.p, o, o.selection.targets);
      if g.Next? {
        RoundKeepsOrder(g.p, cfg, o, v, primers);
      }
    }
  }

  /** The state at the gate when every primer has a job. */
  lemma NothingIssuedBefore(p: Pass, cfg: Config, o: Observation, v: string, targets: seq<string>, primers: seq<string>)
    requires ClearPrimed(o, v, targets, primers) && AllHaveJobs(primers, p.jobs, cfg.hash, v)
    requires Front(p, o).Next?
    ensures var f := AtGate(p, cfg, o);
            && f.Next? && f.p.jobs == p.jobs && f.p.mem.versions.desired == v
            && ListsOf(f.p.mem) == ListsOf(p.saved).(waiting := Due(p.saved, targets))
  {
    FrontKeepsLists(p, o);
    var g := Fill(Front(p, o).p, o, targets);
    RoundPassesOver(g.p, cfg, o, primers);
  }

  /** The dispatch creates a job for some of the due nodes. A batch as written reads past the end of a shorter list
      before it creates any. */
  predicate IssuesSome(cfg: Config, due: seq<string>) {
    && due != []
    && (cfg.parallelism == 0
        || (cfg.parallelism > 0 && (cfg.batching.WithGuards? || cfg.parallelism <= |due|)))
  }

  /** What was there stays, and the first waiting node has a job exactly if some node is issued; else no node is. */
  lemma FirstIssued(p: Pass, cfg: Config, fails: Faults, v: string)
    requires FaultFree(fails) && p.mem.versions.desired == v && NoDuplicates(p.mem.waiting)
    requires forall n :: n in p.mem.waiting ==>
               !HasJob(p.jobs, cfg.hash, n, v) && n !in p.mem.warming && n !in p.mem.preheated
    ensures var w, q := p.mem.waiting, DispatchNodes(p, cfg, fails).flow.p;
            && (forall k :: k in p.jobs ==> k in q.jobs && q.jobs[k] == p.jobs[k])
            && (if IssuesSome(cfg, w) then HasJob(q.jobs, cfg.hash, w[0], v)
                else forall n :: HasJob(q.jobs, cfg.hash, n, v) ==> HasJob(p.jobs, cfg.hash, n, v))
  {
    var w := p.mem.waiting;
    if cfg.parallelism == 0 {
      OnePassServes(p, cfg, fails);
      assert w != [] ==> Taken(w)[0] == w[0] && w[0] in Taken(w);
    } else if cfg.parallelism > 0 && cfg.batching.WithGuards? {
      GuardedBatchServes(p, cfg, fails);
      assert w != [] ==> w[0] in w[..Min(cfg.parallelism, |w|)];
    } else if cfg.parallelism > 0 && w != [] {
      AsWrittenPanics(p, cfg, fails);
      var batch := w[..Min(cfg.parallelism, |w|)];
      assert batch[0] == w[0] && w[0] in w && batch[0] in batch;
    }
  }

  /** What the dispatch does to the order, from a state in which the primers are not done. */
  lemma DispatchBreaks(p: Pass, cfg: Config, o: Observation, v: string, primers: set<string>)
    requires FaultFree(o.fails) && GateOpen(p.mem) && p.mem.versions.desired == v && NoDuplicates(p.mem.waiting)
    requires forall n :: n in p.mem.waiting ==>
               !HasJob(p.jobs, cfg.hash, n, v) && n !in p.mem.warming && n !in p.mem.preheated
    requires forall n :: n in primers ==> HasJob(p.jobs, cfg.hash, n, v)
    requires !PrimersDone(p.jobs, cfg.hash, v, primers) && PrimersFirst(p.jobs, cfg.hash, v, primers)
    ensures PrimersFirst(Dispatch(p, cfg, o).p.jobs, cfg.hash, v, primers) <==> !IssuesSome(cfg, p.mem.waiting)
  {
    FirstIssued(p, cfg, o.fails, v);
    var w, q := p.mem.waiting, DispatchNodes(p, cfg, o.fails).flow.p;
    assert Dispatch(p, cfg, o).p.jobs == q.jobs;
    assert forall n :: n in primers ==> (Succeeded(q.jobs, cfg.hash, n, v) <==> Succeeded(p.jobs, cfg.hash, n, v));
    if IssuesSome(cfg, w) {
      assert w[0] in w && w[0] !in primers;
    }
  }

  /** The order property for one pass on which nothing fails, for every parallelism: it is broken exactly if some
      primer's job has not succeeded, the saved reason is Completed or Skipped all the same, every primer has a job,
      and the dispatch creates a job for some due node. */
  lemma OrderBrokenExactly(p: Pass, cfg: Config, o: Observation, v: string, targets: seq<string>, list: seq<string>)
    requires ClearPrimed(o, v, targets, list) && cfg.prime
    requires GoodSaved(p, cfg.hash, v, Elements(targets)) && PrimersFirst(p.jobs, cfg.hash, v, Elements(list))
    ensures PrimersFirst(IssueStage(p, cfg, o).p.jobs, cfg.hash, v, Elements(list))
            <==> !(&& !PrimersDone(p.jobs, cfg.hash, v, Elements(list)) && GateOpen(p.saved)
                   && AllHaveJobs(list, p.jobs, cfg.hash, v) && IssuesSome(cfg, Due(p.saved, targets)))
  {
    var primers := Elements(list);
    IssuedAtGate(p, cfg, o);
    if PrimersDone(p.jobs, cfg.hash, v, primers) {
      PassKeepsDone(p, cfg, o, v, primers);
    } else {
      OrderAtGate(p, cfg, o, v, primers);
      NotDoneNotPreheated(p, cfg.hash, v, targets, list);
      GateOpensWhen(p, cfg, o, v, Elements(targets));
      FrontGoesOn(p, cfg.hash, o, v, targets, list);
      if AllHaveJobs(list, p.jobs, cfg.hash, v) {
        NothingIssuedBefore(p, cfg, o, v, targets, list);
        DueIsGood(p, cfg.hash, v, targets);
        var g := AtGate(p, cfg, o).p;
        if GateOpen(g.mem) {
          forall n | n in primers ensures HasJob(g.jobs, cfg.hash, n, v) { assert n in list; }
          DispatchBreaks(g, cfg, o, v, primers);
        }
      }
    }
  }

  lemma NotDoneNotPreheated(p: Pass, hash: Hash, v: string, targets: seq<string>, list: seq<string>)
    requires GoodSaved(p, hash, v, Elements(targets)) && !PrimersDone(p.jobs, hash, v, Elements(list))
    requires AllIn(list, targets)
    ensures !AllIn(list, p.saved.preheated) && !AllIn(targets, p.saved.preheated)
  {
    if AllIn(list, p.saved.preheated) {
      PreheatedIsDone(p, hash, v, targets, list);
    }
  }

  lemma PreheatedIsDone(p: Pass, hash: Hash, v: string, targets: seq<string>, list: seq<string>)
    requires GoodSaved(p, hash, v, Elements(targets)) && AllIn(list, p.saved.preheated)
    ensures PrimersDone(p.jobs, hash, v, Elements(list))
  {
    forall n | n in Elements(list) ensures Succeeded(p.jobs, hash, n, v) { assert n in list; }
  }

  lemma FrontGoesOn(p: Pass, hash: Hash, o: Observation, v: string, targets: seq<string>, primers: seq<string>)
    requires ClearPrimed(o, v, targets, primers) && GoodSaved(p, hash, v, Elements(targets))
    requires !AllIn(targets, p.saved.preheated)
    ensures Front(p, o).Next?
  {
    assert primers[0] in targets;
    ClearFront(p, o, targets, primers);
    ExitsWhenPreheated(p.saved, p.jobs, hash, v, targets);
  }
}
