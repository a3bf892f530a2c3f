/** A positive parallelism as the code has it, when a node leaves: a run from a clean start that completes a release
    while a selected node's job still runs. */
module DroppedNode {
  import opened NodeLists
  import opened PullJobs
  import opened Passes
  import opened Runs
  import opened Completion
  import opened JobScan
  import opened Drain
  import opened Convergence
  import opened Limits

  function OneByOne(hash: Hash): Config {
    Config(false, 1, AsWritten, hash)
  }

  // ---- Batches of one ----

  /** The first node of the list has a job: the batch drops it. */
  lemma FirstDropped(p: Pass, cfg: Config, o: Observation, v: string, n: string, rest: seq<string>)
    requires FaultFree(o.fails) && cfg.parallelism == 1 && cfg.batching.AsWritten? && GateOpen(p.mem)
    requires p.mem.waiting == [n] + rest && p.mem.versions.desired == v && HasJob(p.jobs, cfg.hash, n, v)
    ensures var f := Dispatch(p, cfg, o);
            && f.Next? && f.p.jobs == p.jobs && f.p.saved == f.p.mem
            && f.p.mem == p.mem.(waiting := rest, conditions := f.p.mem.conditions)
  {
    var q := p.(mem := p.mem.(waiting := rest));
    assert ([n] + rest)[..1] == [n] && ([n] + rest)[1..] == rest;
    PassedOver(q, cfg, o.fails, n, ByIndex);
    var a := TryNode(q, cfg, o.fails, n, ByIndex);
    assert DispatchBatch(q, cfg, o.fails, [n], ByIndex) == DispatchBatch(a.flow.p, cfg, o.fails, [], ByIndex);
  }

  /** The first node of the list has no job: the pass dies right after the Create. */
  lemma FirstDies(p: Pass, cfg: Config, o: Observation, v: string, n: string, rest: seq<string>)
    requires FaultFree(o.fails) && cfg.parallelism == 1 && cfg.batching.AsWritten? && GateOpen(p.mem)
    requires p.mem.waiting == [n] + rest && p.mem.versions.desired == v && !HasJob(p.jobs, cfg.hash, n, v)
    requires n !in rest && n !in p.mem.preheated
    ensures var f := Dispatch(p, cfg, o);
            && f == Stop(f.p, LostMove) && f.p.saved == p.saved
            && f.p.jobs == p.jobs[JobName(cfg.hash, n, v) := Job(n, v, false)]
  {
    var q := p.(mem := p.mem.(waiting := rest));
    assert ([n] + rest)[..1] == [n] && ([n] + rest)[1..] == rest;
    assert DispatchBatch(q, cfg, o.fails, [n], ByIndex) == TryNode(q, cfg, o.fails, n, ByIndex).flow;
  }

  lemma DyingPass(p: Pass, hash: Hash, o: Observation, v: string, targets: seq<string>, n: string, rest: seq<string>)
    requires Clear(o, v, targets, []) && targets != [] && !(|targets| == |p.saved.preheated| && p.saved.waiting == [])
    requires Due(p.saved, targets) == [n] + rest && n !in rest && n !in p.saved.preheated && !HasJob(p.jobs, hash, n, v)
    ensures var q := Reconcile(p, OneByOne(hash), o).p;
            && ListsOf(q.saved) == ListsOf(p.saved).(waiting := [n] + rest)
            && q.jobs == p.jobs[JobName(hash, n, v) := Job(n, v, false)]
  {
    UnprimedGate(p, OneByOne(hash), o, v, targets);
    FirstDies(Fill(Front(p, o).p, o, targets).p, OneByOne(hash), o, v, n, rest);
    assert Reconcile(p, OneByOne(hash), o) == IssueStage(p, OneByOne(hash), o);
  }

  /** A pass that drops the first node, up to its listing. */
  lemma DroppingPass(p: Pass, hash: Hash, o: Observation, v: string, targets: seq<string>, n: string, rest: seq<string>)
    requires Clear(o, v, targets, []) && targets != [] && !(|targets| == |p.saved.preheated| && p.saved.waiting == [])
    requires Due(p.saved, targets) == [n] + rest && HasJob(p.jobs, hash, n, v)
    ensures var f := IssueStage(p, OneByOne(hash), o);
            && f.Next? && f.p.jobs == p.jobs && f.p.saved == f.p.mem
            && ListsOf(f.p.mem) == ListsOf(p.saved).(waiting := rest)
            && f.p.mem.selected == targets && f.p.mem.versions.target == v
            && Reconcile(p, OneByOne(hash), o) == Close(f.p, o, v)
  {
    UnprimedGate(p, OneByOne(hash), o, v, targets);
    FirstDropped(Fill(Front(p, o).p, o, targets).p, OneByOne(hash), o, v, n, rest);
  }

  // ---- What the listing shows ----

  /** "a" is done, and "b" is not, if it has a job at all. */
  ghost predicate OnlyA(jobs: JobStore, hash: Hash, v: string) {
    || jobs == map[JobName(hash, "a", v) := Job("a", v, true)]
    || jobs == map[JobName(hash, "a", v) := Job("a", v, true), JobName(hash, "b", v) := Job("b", v, false)]
  }

  lemma OnlyAListed(listing: seq<Job>, jobs: JobStore, hash: Hash, v: string)
    requires OnlyA(jobs, hash, v) && IsListing(listing, jobs, v)
    ensures listing != [] && DoneNodes(listing) == {"a"} && DoneIn(jobs, v) == {"a"}
  {
    var ka, kb := JobName(hash, "a", v), JobName(hash, "b", v);
    if ka == kb { NameDeterminesNode(hash, v, "a", "b"); }
    assert jobs[ka] == Job("a", v, true) && jobs[ka] in listing;
    forall j | j in listing && j.succeeded ensures j.node == "a" {
      var i :| 0 <= i < |listing| && listing[i] == j;
      var k :| k in jobs && jobs[k] == listing[i] && jobs[k].release == v;
    }
    assert Job("a", v, true) in listing;
  }

  lemma OnlyAScanned(p: Pass, o: Observation, hash: Hash, v: string)
    requires FaultFree(o.fails) && HonestListing(o) && o.late == {} && OnlyA(p.jobs, hash, v)
    requires p.saved == p.mem && p.mem.warming == [] && (p.mem.preheated == [] || p.mem.preheated == ["a"])
    ensures var f := Scan(p, o, v);
            && f.Next? && f.p.saved == f.p.mem && f.p.jobs == p.jobs
            && f.p.mem == p.mem.(preheated := ["a"]) && DoneIn(f.p.jobs, v) == {"a"}
  {
    var q, listing := p.(clock := p.clock + 1), o.list(p.jobs, v);
    FinishNone(p.jobs);
    assert IsListing(listing, p.jobs, v);
    OnlyAListed(listing, p.jobs, hash, v);
    ScanJobs(p, o, v);
    OnlyALoop(q, o.fails, listing);
    assert Scan(p, o, v) == ScanLoop(q, o.fails, listing);
  }

  lemma FinishNone(jobs: JobStore)
    ensures Finish(jobs, {}) == jobs
  {
  }

  lemma OnlyALoop(p: Pass, fails: Faults, listing: seq<Job>)
    requires FaultFree(fails) && DoneNodes(listing) == {"a"}
    requires p.saved == p.mem && p.mem.warming == [] && (p.mem.preheated == [] || p.mem.preheated == ["a"])
    ensures var f := ScanLoop(p, fails, listing);
            f.Next? && f.p.saved == f.p.mem && f.p.mem == p.mem.(preheated := ["a"])
  {
    ScanGoesOn(p, fails, listing);
    ScanSetForm(p, fails, listing);
    ScanUnique(p, fails, listing);
    OneNode(ScanLoop(p, fails, listing).p.mem.preheated, "a");
  }

  lemma OneNode(list: seq<string>, n: string)
    requires NoDuplicates(list) && forall x :: x in list <==> x == n
    ensures list == [n]
  {
    assert Elements(list) == {n};
    SizeOfElements(list);
  }

  // ---- The run ----

  /** From any state with these lists and jobs: the batch drops "b", the lengths agree, and the release is written as
      completed while the job of "b" still runs. */
  lemma BatchDropsNode(p: Pass, hash: Hash, v: string)
    requires ListsOf(p.saved) == Lists(["b"], [], ["a"])
    requires p.jobs == map[JobName(hash, "a", v) := Job("a", v, true), JobName(hash, "b", v) := Job("b", v, false)]
    ensures var f := Reconcile(p, OneByOne(hash), Smooth(v, ["b"], [], {}));
            && f == Stop(f.p, Completed) && f.p.saved.versions.lastCompleted == v
            && f.p.saved.selected == ["b"] && "b" !in DoneIn(f.p.jobs, v)
  {
    var o := Smooth(v, ["b"], [], {});
    SmoothIsHonest(v, ["b"], [], {});
    NothingToFill(["b"], ["b"], [], ["a"]);
    DroppingPass(p, hash, o, v, ["b"], "b", []);
    OnlyAScanned(IssueStage(p, OneByOne(hash), o).p, o, hash, v);
  }

  /** Nothing on any list, and no jobs. */
  function Start(): World {
    World(Starting(Fresh([], [], [], []), map[]), {}, {})
  }

  /** The passes over two nodes. */
  ghost function TwoNodes(hash: Hash, v: string): Action {
    Reconciled(OneByOne(hash), Smooth(v, ["a", "b"], [], {}))
  }

  lemma TwoNodesClear(v: string)
    ensures Clear(Smooth(v, ["a", "b"], [], {}), v, ["a", "b"], [])
  {
    SmoothIsHonest(v, ["a", "b"], [], {});
  }

  /** The first pass dies after the Create for "a". */
  lemma FirstRun(hash: Hash, v: string)
    ensures var p := Step(Start(), TwoNodes(hash, v)).pass;
            ListsOf(p.saved) == Lists(["a", "b"], [], []) && p.jobs == map[JobName(hash, "a", v) := Job("a", v, false)]
  {
    var p := Start().pass;
    TwoNodesClear(v);
    FillsFromScratch(p.saved, ["a", "b"]);
    assert ["a", "b"] == ["a"] + ["b"];
    DyingPass(p, hash, Smooth(v, ["a", "b"], [], {}), v, ["a", "b"], "a", ["b"]);
  }

  /** The second, after the job of "a" has succeeded, drops "a" from its batch and finds it done. */
  lemma SecondRun(w: World, hash: Hash, v: string)
    requires ListsOf(w.pass.saved) == Lists(["a", "b"], [], [])
             && w.pass.jobs == map[JobName(hash, "a", v) := Job("a", v, true)]
    ensures var p := Step(w, TwoNodes(hash, v)).pass;
            ListsOf(p.saved) == Lists(["b"], [], ["a"]) && p.jobs == map[JobName(hash, "a", v) := Job("a", v, true)]
  {
    var o := Smooth(v, ["a", "b"], [], {});
    TwoNodesClear(v);
    NothingToFill(["a", "b"], ["a", "b"], [], []);
    assert ["a", "b"] == ["a"] + ["b"];
    DroppingPass(w.pass, hash, o, v, ["a", "b"], "a", ["b"]);
    OnlyAScanned(IssueStage(w.pass, OneByOne(hash), o).p, o, hash, v);
  }

  /** The third dies after the Create for "b". */
  lemma ThirdRun(w: World, hash: Hash, v: string)
    requires ListsOf(w.pass.saved) == Lists(["b"], [], ["a"])
             && w.pass.jobs == map[JobName(hash, "a", v) := Job("a", v, true)]
    ensures var p := Step(w, TwoNodes(hash, v)).pass;
            && ListsOf(p.saved) == Lists(["b"], [], ["a"])
            && p.jobs == map[JobName(hash, "a", v) := Job("a", v, true), JobName(hash, "b", v) := Job("b", v, false)]
  {
    TwoNodesClear(v);
    NothingToFill(["b"], ["a", "b"], [], ["a"]);
    assert ["b"] == ["b"] + [];
    if HasJob(w.pass.jobs, hash, "b", v) { NameDeterminesNode(hash, v, "a", "b"); }
    DyingPass(w.pass, hash, Smooth(v, ["a", "b"], [], {}), v, ["a", "b"], "b", []);
  }

  /** The whole run from a clean start: two passes that die after a Create, one between them, and then "a" leaves. The
      last pass completes the release for "b", whose job has never succeeded. */
  lemma DroppedInRun(hash: Hash, v: string)
    ensures var step := TwoNodes(hash, v);
            var w := Run(Start(), [step, JobSucceeds(JobName(hash, "a", v)), step, step]);
            var f := Reconcile(w.pass, OneByOne(hash), Smooth(v, ["b"], [], {}));
            && f == Stop(f.p, Completed) && f.p.saved.versions.lastCompleted == v
            && f.p.saved.selected == ["b"] && "b" !in DoneIn(f.p.jobs, v)
  {
    var step, done := TwoNodes(hash, v), JobSucceeds(JobName(hash, "a", v));
    FirstRun(hash, v);
    var w1 := Step(Start(), step);
    var w2 := Step(w1, done);
    assert w2.pass.jobs == map[JobName(hash, "a", v) := Job("a", v, true)];
    SecondRun(w2, hash, v);
    var w3 := Step(w2, step);
    ThirdRun(w3, hash, v);
    RunOfFour(Start(), step, done, step, step);
    BatchDropsNode(Step(w3, step).pass, hash, v);
  }

  lemma RunOfFour(w: World, a: Action, b: Action, c: Action, d: Action)
    ensures Run(w, [a, b, c, d]) == Step(Step(Step(Step(w, a), b), c), d)
  {
    assert [a, b, c, d][..3] == [a, b, c] && [a, b, c][..2] == [a, b] && [a, b][..1] == [a] && [a][..0] == [];
    assert Run(w, [a]) == Step(w, a);
    assert Run(w, [a, b]) == Step(Step(w, a), b);
    assert Run(w, [a, b, c]) == Step(Step(Step(w, a), b), c);
  }
}
