/** At most one Create per node and release, by the existence test of `createPullJob` alone. */
module JobAudit {
  import opened NodeLists
  import opened PullJobs
  import opened Passes
  import opened FrontFacts
  import opened IssueFacts
  import opened Runs
  import opened Completion

  ghost predicate NoRepeat(issued: seq<Issue>) {
    forall i, j :: 0 <= i < j < |issued| ==> issued[i] != issued[j]
  }

  /** Nothing was created twice, and whatever was created is still there. */
  ghost predicate Audited(issued: seq<Issue>, jobs: JobStore, hash: Hash) {
    && NoRepeat(issued)
    && (forall i :: 0 <= i < |issued| ==> HasJob(jobs, hash, issued[i].node, issued[i].release))
  }

  ghost function AuditFlow(hash: Hash): Flow -> bool {
    (f: Flow) => Audited(f.p.issued, f.p.jobs, hash)
  }

  lemma AttemptsAudited(cfg: Config, fails: Faults, removal: Removal, tried: set<string>)
    ensures Kept(AuditFlow(cfg.hash), cfg, fails, removal, tried)
  {
    var inv := AuditFlow(cfg.hash);
    forall p: Pass, n: string | inv(Next(p)) && n in tried ensures inv(TryNode(p, cfg, fails, n, removal).flow) {
      AttemptOutcome(p, cfg, fails, n, removal);
    }
  }

  lemma WorkAudited(p: Pass, cfg: Config, o: Observation)
    requires o.selection.Selected? && Audited(p.issued, p.jobs, cfg.hash)
    ensures Audited(Work(p, cfg, o).p.issued, Work(p, cfg, o).p.jobs, cfg.hash)
  {
    var inv, primers := AuditFlow(cfg.hash), o.selection.primers;
    var f := Fill(p, o, o.selection.targets);
    if f.Next? {
      AttemptsAudited(cfg, o.fails, ByPrimer, Elements(primers));
      PrimerLoopKeeps(inv, f.p, cfg, o.fails, primers, false, false, Elements(primers));
      assert inv(PrimerLoop(f.p, cfg, o.fails, primers, false, false).flow);
      var g := SchedulePrimers(f.p, cfg, o, primers);
      if g.Next? {
        var waiting := Elements(g.p.mem.waiting);
        AttemptsAudited(cfg, o.fails, ByIndex, waiting);
        AttemptsAudited(cfg, o.fails, IfPresent, waiting);
        DispatchNodesKeeps(inv, g.p, cfg, o.fails, waiting);
        assert inv(DispatchNodes(g.p, cfg, o.fails).flow);
      }
    }
  }

  lemma FinishAudited(issued: seq<Issue>, jobs: JobStore, names: set<string>, hash: Hash)
    requires Audited(issued, jobs, hash)
    ensures Audited(issued, Finish(jobs, names), hash)
  {
  }

  lemma PassAudited(p: Pass, cfg: Config, o: Observation)
    requires Audited(p.issued, p.jobs, cfg.hash)
    ensures Audited(Reconcile(p, cfg, o).p.issued, Reconcile(p, cfg, o).p.jobs, cfg.hash)
  {
    FrontKeepsLists(p, o);
    var f := Front(p, o);
    if f.Next? {
      WorkAudited(f.p, cfg, o);
      var g := Work(f.p, cfg, o);
      if g.Next? {
        ScanJobs(g.p, o, o.release.value.desired);
        FinishAudited(g.p.issued, g.p.jobs, o.late, cfg.hash);
        var h := Scan(g.p, o, o.release.value.desired);
        if h.Next? {
          ConcludeKeepsLists(h.p, o);
        }
      }
    }
  }

  /** Jobs may succeed, passes may end in any way and ask for any release, but no job disappears. */
  ghost predicate KeepsJobs(a: Action, hash: Hash) {
    match a
    case Reconciled(cfg, _) => cfg.hash == hash
    case JobSucceeds(_) => true
    case JobDisappears(_) => false
  }

  /** In every run in which no job disappears, whatever fails, whatever the lists and the releases: no pull job is
      created twice for one node and release. */
  lemma {:induction false} AtMostOneJob(w: World, actions: seq<Action>, hash: Hash)
    requires w.pass.issued == [] && forall i :: 0 <= i < |actions| ==> KeepsJobs(actions[i], hash)
    ensures Audited(Run(w, actions).pass.issued, Run(w, actions).pass.jobs, hash)
    ensures NoRepeat(Run(w, actions).pass.issued)
    decreases |actions|
  {
    if actions != [] {
      var front, last := actions[..|actions| - 1], actions[|actions| - 1];
      AtMostOneJob(w, front, hash);
      StepAudited(Run(w, front), last, hash);
    }
  }

  lemma StepAudited(w: World, a: Action, hash: Hash)
    requires Audited(w.pass.issued, w.pass.jobs, hash) && KeepsJobs(a, hash)
    ensures Audited(Step(w, a).pass.issued, Step(w, a).pass.jobs, hash)
  {
    if a.Reconciled? {
      PassAudited(w.pass, a.cfg, a.o);
    }
  }
}
