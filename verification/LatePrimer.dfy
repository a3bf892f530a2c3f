/** A primer that joins late: a steady run in which two API calls fail, and the new primer is overtaken. */
module LatePrimer {
  import opened NodeLists
  import opened PullJobs
  import opened Passes
  import opened FrontFacts
  import opened Conditions
  import opened Runs
  import opened Partition
  import opened PrimerGate
  import opened Convergence
  import opened Limits
  import opened DroppedNode
  import opened PrimerLimits

  const BOTH := ["c", "b"]

  function Priming(hash: Hash): Config {
    Config(true, 0, AsWritten, hash)
  }

  /** Nothing fails but API call `c`, and no job succeeds. */
  ghost predicate FailsOnce(o: Observation, v: string, targets: seq<string>, primers: seq<string>, c: nat) {
    && !o.disabled && o.infrastructure == Ok("None") && o.release == Ok(Release(v, v, ""))
    && o.selection == Selected(targets, primers) && o.resources == Ready && o.late == {} && Sound(o, v)
    && forall k :: o.fails(k) <==> k == c
  }

  lemma SomeCallFails(v: string, targets: seq<string>, primers: seq<string>, c: nat)
    requires NoDuplicates(targets) && NoDuplicates(primers) && AllIn(primers, targets)
    ensures FailsOnce(Smooth(v, targets, primers, {}).(fails := (k: nat) => k == c), v, targets, primers, c)
  {
    SmoothIsHonest(v, targets, primers, {});
  }

  /** What such passes find or leave: the primer condition says Skipped, and the version fields follow the release. */
  ghost predicate Skipping(s: Status, lists: Lists, v: string) {
    && ListsOf(s) == lists && PrimerReason(s) == PRIMER_SKIPPED
    && s.versions.infrastructure == "None" && s.versions.current == s.versions.target == s.versions.desired == v
    && s.versions.image == ""
  }

  ghost predicate AtLists(p: Pass, lists: Lists, v: string, calls: nat) {
    p.clock == calls && p.saved == p.mem && Skipping(p.saved, lists, v)
  }

  lemma StoppedAtWork(p: Pass, cfg: Config, o: Observation)
    requires o.release.Ok? && o.selection.Selected? && Front(p, o).Next?
    ensures var f := Work(Front(p, o).p, cfg, o);
            Reconcile(p, cfg, o) == if f.Stop? then f else Close(f.p, o, o.release.value.desired)
  {
  }

  // ---- The first pass ----

  /** From empty lists, only "c" is targeted, and there is no primer: seven calls up to the lists. */
  lemma FirstFront(p: Pass, o: Observation, v: string)
    requires p == Start().pass && v != "" && FailsOnce(o, v, ["c"], [], 7)
    ensures var f := Front(p, o);
            f.Next? && f.p.jobs == map[] && AtLists(f.p, NO_LISTS, v, 7)
  {
    FrontKeepsLists(p, o);
    var q := Read(p, o.fails);
    assert CheckInfrastructure(q, o) == Next(q);
    var f := CheckRelease(q, o);
    assert f.Next? && f.p.clock == 3;
    assert Preflight(p, o) == f;
  }

  /** The write of the filled list fails, and the pass ends. */
  lemma FirstPass(p: Pass, hash: Hash, o: Observation, v: string)
    requires p == Start().pass && v != "" && FailsOnce(o, v, ["c"], [], 7)
    ensures var f := Reconcile(p, Priming(hash), o);
            f.end == Failed && f.p.jobs == map[] && Skipping(f.p.saved, NO_LISTS, v) && f.p.clock == 8
  {
    FirstFront(p, o, v);
    StoppedAtWork(p, Priming(hash), o);
    FillFails(Front(p, o).p, o);
  }

  lemma FillFails(p: Pass, o: Observation)
    requires o.fails(p.clock) && ListsOf(p.mem) == NO_LISTS
    ensures var f := Fill(p, o, ["c"]);
            f.Stop? && f.end == Failed && f.p.jobs == p.jobs && f.p.saved == p.saved && f.p.clock == p.clock + 1
  {
    assert Filled([], ["c"], [], []) == Filled(["c"], [], [], []) == ["c"];
  }

  // ---- The second pass ----

  /** "b" has joined, and is a primer: four calls up to the lists. */
  lemma SecondFront(p: Pass, o: Observation, v: string)
    requires p.clock == 8 && Skipping(p.saved, NO_LISTS, v) && FailsOnce(o, v, BOTH, ["b"], 16)
    ensures var f := Front(p, o);
            f.Next? && f.p.jobs == p.jobs && AtLists(f.p, NO_LISTS, v, 12)
  {
    assert "b" in ["b"];
    FrontKeepsLists(p, o);
    var q := Read(p, o.fails);
    assert CheckInfrastructure(q, o) == Next(q) && CheckRelease(q, o) == Next(q);
    assert Preflight(p, o) == Next(q);
  }

  /** "b" gets its job, and the write of the reason InProgress fails. Memory keeps the reason, so the gate stays closed
      in this pass. */
  lemma SecondWork(p: Pass, hash: Hash, o: Observation, v: string)
    requires AtLists(p, NO_LISTS, v, 12) && p.jobs == map[] && FailsOnce(o, v, BOTH, ["b"], 16)
    ensures var f := Work(p, Priming(hash), o);
            && f.Next? && f.p.clock == 17 && f.p.jobs == map[JobName(hash, "b", v) := Job("b", v, false)]
            && Skipping(f.p.saved, Lists(["c"], ["b"], []), v) && ListsOf(f.p.mem) == ListsOf(f.p.saved)
  {
    var cfg := Priming(hash);
    FillsFromScratch(p.mem, BOTH);
    var f := Fill(p, o, BOTH).p;
    assert f.clock == 13 && ListsOf(f.mem) == Lists(BOTH, [], []) && f.saved == f.mem;
    IssuesB(f, hash, o, v);
    var g := TryNode(f, cfg, o.fails, "b", ByPrimer).flow.p;
    assert PrimerLoop(f, cfg, o.fails, ["b"], false, false)
        == PrimerLoop(g, cfg, o.fails, [], true, false) == PrimerRound(Next(g), true, false);
    PrimerConditionsReason(g, o.fails, ["b"], true, false);
  }

  lemma IssuesB(p: Pass, hash: Hash, o: Observation, v: string)
    requires p.clock == 13 && ListsOf(p.mem) == Lists(BOTH, [], []) && p.mem.versions.desired == v && p.jobs == map[]
    requires FailsOnce(o, v, BOTH, ["b"], 16)
    ensures var a := TryNode(p, Priming(hash), o.fails, "b", ByPrimer);
            && a.created && a.flow.Next? && a.flow.p.clock == 16 && a.flow.p.saved == a.flow.p.mem
            && a.flow.p.jobs == map[JobName(hash, "b", v) := Job("b", v, false)]
            && a.flow.p.mem == p.mem.(waiting := ["c"], warming := ["b"])
  {
    assert BOTH[1..] == ["b"] && ["b"][1..] == [];
    assert CutFirst(BOTH, "b") == ["c"];
  }

  /** The listing shows no job that has succeeded. */
  lemma {:induction false} NothingDone(p: Pass, fails: Faults, listing: seq<Job>)
    requires forall i :: 0 <= i < |listing| ==> !listing[i].succeeded
    ensures ScanLoop(p, fails, listing) == Next(p)
    decreases |listing|
  {
    if listing != [] {
      NothingDone(p, fails, listing[1..]);
    }
  }

  lemma SecondClose(p: Pass, hash: Hash, o: Observation, v: string)
    requires p.clock == 17 && FailsOnce(o, v, BOTH, ["b"], 16) && p.mem.warming != []
    requires p.jobs == map[JobName(hash, "b", v) := Job("b", v, false)]
    ensures var f := Close(p, o, v); f.end == Pending && f.p.jobs == p.jobs && f.p.saved == p.saved
  {
    var q := p.(jobs := Finish(p.jobs, o.late), clock := p.clock + 1);
    assert q.jobs == p.jobs;
    var listing := o.list(q.jobs, v);
    assert IsListing(listing, q.jobs, v);
    assert q.jobs[JobName(hash, "b", v)] in listing;
    forall i | 0 <= i < |listing| ensures !listing[i].succeeded {
      var k :| k in q.jobs && q.jobs[k] == listing[i];
    }
    NothingDone(q, o.fails, listing);
  }

  lemma SecondPass(p: Pass, hash: Hash, o: Observation, v: string)
    requires p.clock == 8 && p.jobs == map[] && Skipping(p.saved, NO_LISTS, v) && FailsOnce(o, v, BOTH, ["b"], 16)
    ensures var f := Reconcile(p, Priming(hash), o);
            && f.end == Pending && f.p.jobs == map[JobName(hash, "b", v) := Job("b", v, false)]
            && Skipping(f.p.saved, Lists(["c"], ["b"], []), v)
  {
    SecondFront(p, o, v);
    StoppedAtWork(p, Priming(hash), o);
    SecondWork(Front(p, o).p, hash, o, v);
    SecondClose(Work(Front(p, o).p, Priming(hash), o).p, hash, o, v);
  }

  // ---- The third pass ----

  lemma OnlyB(hash: Hash, v: string)
    ensures forall n :: HasJob(map[JobName(hash, "b", v) := Job("b", v, false)], hash, n, v) <==> n == "b"
  {
    forall n ensures JobName(hash, n, v) == JobName(hash, "b", v) ==> n == "b" {
      if JobName(hash, n, v) == JobName(hash, "b", v) { NameDeterminesNode(hash, v, n, "b"); }
    }
  }

  lemma IsOvertaken(p: Pass, hash: Hash, o: Observation, v: string)
    requires Skipping(p.saved, Lists(["c"], ["b"], []), v) && Clear(o, v, BOTH, ["b"])
    requires p.jobs == map[JobName(hash, "b", v) := Job("b", v, false)]
    ensures PrimersFirst(p.jobs, hash, v, {"b"})
    ensures !PrimersFirst(IssueStage(p, Priming(hash), o).p.jobs, hash, v, {"b"})
  {
    OnlyB(hash, v);
    assert Elements(["b"]) == {"b"} && Elements(BOTH) == {"b", "c"};
    assert GoodSaved(p, hash, v, Elements(BOTH));
    NothingToFill(["c"], BOTH, ["b"], []);
    assert !PrimersDone(p.jobs, hash, v, {"b"}) by { assert "b" in {"b"}; }
    OrderBrokenExactly(p, Priming(hash), o, v, BOTH, ["b"]);
  }

  // ---- The run ----

  lemma FirstStep(hash: Hash, o: Observation, v: string)
    requires v != "" && FailsOnce(o, v, ["c"], [], 7)
    ensures var a := Reconciled(Priming(hash), o);
            var w := Step(Start(), a);
            && Steady(Start(), a, hash, v) && w.seen == {"c"}
            && w.pass.clock == 8 && w.pass.jobs == map[] && Skipping(w.pass.saved, NO_LISTS, v)
  {
    FirstPass(Start().pass, hash, o, v);
    assert Elements(["c"]) == {"c"};
  }

  lemma SecondStep(w: World, hash: Hash, o: Observation, v: string)
    requires w.pass.clock == 8 && w.pass.jobs == map[] && Skipping(w.pass.saved, NO_LISTS, v) && w.seen == {"c"}
    requires FailsOnce(o, v, BOTH, ["b"], 16)
    ensures var a := Reconciled(Priming(hash), o);
            var p := Step(w, a).pass;
            && Steady(w, a, hash, v) && p.jobs == map[JobName(hash, "b", v) := Job("b", v, false)]
            && Skipping(p.saved, Lists(["c"], ["b"], []), v)
  {
    SecondPass(w.pass, hash, o, v);
    assert "c" in BOTH;
  }

  lemma TwoSteady(w: World, a: Action, b: Action, hash: Hash, v: string)
    requires Steady(w, a, hash, v) && Steady(Step(w, a), b, hash, v)
    ensures SteadyRun(w, [a, b], hash, v) && Run(w, [a, b]) == Step(Step(w, a), b)
  {
    assert [a, b][..1] == [a] && [a][..0] == [];
    assert Run(w, [a]) == Step(w, a) && SteadyRun(w, [a], hash, v);
  }

  /** From a clean start: a pass whose eighth call fails, with "c" the only node and no primer; then "b" joins as a
      primer and gets its job, and the seventeenth call, the write of the reason InProgress, fails without ending the
      pass. The run is steady, and the order holds. In the next pass nothing fails: it creates the job of "c" while
      "b" still runs. */
  lemma OvertakenInRun(hash: Hash, v: string, first: Observation, second: Observation, o: Observation)
    requires v != "" && FailsOnce(first, v, ["c"], [], 7) && FailsOnce(second, v, BOTH, ["b"], 16)
    requires Clear(o, v, BOTH, ["b"])
    ensures var actions := [Reconciled(Priming(hash), first), Reconciled(Priming(hash), second)];
            var p := Run(Start(), actions).pass;
            && SteadyRun(Start(), actions, hash, v) && PrimersFirst(p.jobs, hash, v, {"b"})
            && !PrimersFirst(IssueStage(p, Priming(hash), o).p.jobs, hash, v, {"b"})
  {
    var a, b := Reconciled(Priming(hash), first), Reconciled(Priming(hash), second);
    FirstStep(hash, first, v);
    SecondStep(Step(Start(), a), hash, second, v);
    TwoSteady(Start(), a, b, hash, v);
    IsOvertaken(Run(Start(), [a, b]).pass, hash, o, v);
  }
}
