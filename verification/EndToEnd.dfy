/** Selection and scheduler together. */
module EndToEnd {
  import opened NodeLists
  import opened PullJobs
  import opened Passes
  import opened Runs
  import opened Completion
  import opened NodeSelection
  import opened SelectionFacts
  import opened TargetSets

  /** In every run for one release: when a pass that selects from a snapshot of the cluster writes
      LastCompletedVersion, every node that the selectors want or that may be a primer has had a succeeded pull job for
      exactly that release. For a positive parallelism no node may have left the targets. */
  lemma CompletedMeansPreheated(w: World, actions: seq<Action>, cfg: Config, o: Observation, v: string,
                                c: Cluster, sel: Selectors, n: Node)
    requires Blank(w, v) && AlwaysAsks(actions, v) && HonestListing(o) && Asks(o, v)
    requires cfg.parallelism <= 0 || Run(w, actions).seen <= Elements(TargetsOf(o))
    requires Snapshot(c) && DisjointKeys(c, sel) && o.selection == Select(c, sel, cfg.prime)
    requires Reconcile(Run(w, actions).pass, cfg, o) == Stop(Reconcile(Run(w, actions).pass, cfg, o).p, Completed)
    requires n in c.nodes.value && Target(c, sel, cfg.prime, n)
    ensures Issue(n.name, v) in Step(Run(w, actions), Reconciled(cfg, o)).history
  {
    SelectionFeedsScheduler(c, sel, cfg.prime, o);
    CompletionIsSound(w, actions, cfg, o, v);
    TargetsInclude(c, sel, cfg.prime, n, o);
  }

  lemma TargetsInclude(c: Cluster, sel: Selectors, prime: bool, n: Node, o: Observation)
    requires Snapshot(c) && DisjointKeys(c, sel) && o.selection == Select(c, sel, prime)
    requires n in c.nodes.value && Target(c, sel, prime, n)
    ensures n.name in TargetsOf(o)
  {
    SelectsExactly(c, sel, prime);
    assert n.name in TargetNames(c, sel, prime);
  }
}
