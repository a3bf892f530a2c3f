/** A batch with guards that an API error cuts short: the next pass can raise the measure. */
module CutShort {
  import opened PullJobs
  import opened Passes
  import opened FrontFacts
  import opened Completion
  import opened Measure
  import opened Convergence
  import opened Limits

  function Pairs(hash: Hash): Config {
    Config(false, 2, WithGuards, hash)
  }

  /** Nothing fails but API call `c`; two nodes are targeted. */
  ghost predicate OneFails(o: Observation, v: string, c: nat) {
    && !o.disabled && o.infrastructure == Ok("None") && o.release == Ok(Release(v, v, ""))
    && o.selection == Selected(["a", "b"], []) && o.resources == Ready
    && forall k :: o.fails(k) <==> k == c
  }

  lemma SomeCallFails(v: string, c: nat)
    ensures OneFails(Smooth(v, ["a", "b"], [], {}).(fails := (k: nat) => k == c), v, c)
  {
  }

  /** The version fields follow release `v` already. */
  ghost predicate Settled(p: Pass, v: string) {
    var w := p.saved.versions;
    w.infrastructure == "None" && w.current == w.target == w.desired == v && w.image == ""
  }

  ghost predicate AfterFive(p: Pass, q: Pass, v: string) {
    && q.clock == p.clock + 5 && q.saved == q.mem && q.jobs == p.jobs && q.issued == p.issued
    && ListsOf(q.mem) == ListsOf(p.saved) && GateOpen(q.mem)
    && q.mem.versions == p.saved.versions && q.mem.versions.desired == v
  }

  /** The front part of such a pass takes five API calls. */
  lemma FrontTakesFive(p: Pass, o: Observation, v: string, c: nat)
    requires OneFails(o, v, c) && Settled(p, v) && c >= p.clock + 5
    requires !(|p.saved.preheated| == 2 && p.saved.waiting == [])
    ensures Front(p, o).Next? && AfterFive(p, Front(p, o).p, v)
  {
    FrontKeepsLists(p, o);
    var q := Read(p, o.fails);
    assert CheckInfrastructure(q, o) == Next(q) && CheckRelease(q, o) == Next(q);
    assert Preflight(p, o) == Next(q);
  }

  /** The ninth call, the search for the job of "b", fails: "a" has its job, and "b" was popped and is on no saved
      list. */
  lemma FirstCut(p: Pass, hash: Hash, o: Observation, v: string, c: nat)
    requires Settled(p, v) && OneFails(o, v, c) && c == p.clock + 8
    requires ListsOf(p.saved) == Lists(["a", "b"], [], []) && !HasJob(p.jobs, hash, "a", v)
    ensures var f := Reconcile(p, Pairs(hash), o);
            && f == Stop(f.p, Failed) && ListsOf(f.p.saved) == Lists([], ["a"], [])
            && Settled(f.p, v) && f.p.jobs == p.jobs[JobName(hash, "a", v) := Job("a", v, false)]
  {
    FrontTakesFive(p, o, v, c);
    FirstWork(Front(p, o).p, hash, o, v, c);
    StoppedAtWork(p, Pairs(hash), o);
  }

  lemma StoppedAtWork(p: Pass, cfg: Config, o: Observation)
    requires o.release.Ok? && o.selection.Selected? && Front(p, o).Next? && Work(Front(p, o).p, cfg, o).Stop?
    ensures Reconcile(p, cfg, o) == Work(Front(p, o).p, cfg, o)
  {
  }

  lemma FirstWork(p: Pass, hash: Hash, o: Observation, v: string, c: nat)
    requires OneFails(o, v, c) && c == p.clock + 3 && GateOpen(p.mem)
    requires ListsOf(p.mem) == Lists(["a", "b"], [], []) && !HasJob(p.jobs, hash, "a", v) && p.mem.versions.desired == v
    ensures var f := Work(p, Pairs(hash), o);
            && f == Stop(f.p, Failed) && ListsOf(f.p.saved) == Lists([], ["a"], [])
            && f.p.saved.versions == p.mem.versions && f.p.jobs == p.jobs[JobName(hash, "a", v) := Job("a", v, false)]
  {
    NothingToFill(["a", "b"], ["a", "b"], [], []);
    BatchCut(p, hash, o, v, c);
  }

  lemma BatchCut(p: Pass, hash: Hash, o: Observation, v: string, c: nat)
    requires OneFails(o, v, c) && c == p.clock + 3 && GateOpen(p.mem)
    requires ListsOf(p.mem) == Lists(["a", "b"], [], []) && !HasJob(p.jobs, hash, "a", v) && p.mem.versions.desired == v
    ensures var f := Dispatch(p, Pairs(hash), o);
            && f == Stop(f.p, Failed) && ListsOf(f.p.saved) == Lists([], ["a"], [])
            && f.p.saved.versions == p.mem.versions && f.p.jobs == p.jobs[JobName(hash, "a", v) := Job("a", v, false)]
  {
    var cfg := Pairs(hash);
    assert p.mem.waiting[..2] == ["a", "b"] && p.mem.waiting[2..] == [];
    var q := p.(mem := p.mem.(waiting := []));
    var a := TryNode(q, cfg, o.fails, "a", IfPresent);
    assert a.flow.Next? && a.flow.p.clock == p.clock + 3;
    assert DispatchBatch(q, cfg, o.fails, ["a", "b"], IfPresent)
        == DispatchBatch(a.flow.p, cfg, o.fails, ["b"], IfPresent);
  }

  /** In the next pass "b" is put back and saved, and the search for its job fails: the pass has made no move. */
  lemma SecondCut(p: Pass, hash: Hash, o: Observation, v: string, c: nat)
    requires Settled(p, v) && OneFails(o, v, c) && c == p.clock + 6
    requires ListsOf(p.saved) == Lists([], ["a"], [])
    ensures var f := Reconcile(p, Pairs(hash), o);
            f == Stop(f.p, Failed) && ListsOf(f.p.saved) == Lists(["b"], ["a"], []) && f.p.issued == p.issued
  {
    FrontTakesFive(p, o, v, c);
    RefillCut(Front(p, o).p, hash, o, v, c);
    StoppedAtWork(p, Pairs(hash), o);
  }

  lemma RefillCut(p: Pass, hash: Hash, o: Observation, v: string, c: nat)
    requires OneFails(o, v, c) && c == p.clock + 1 && GateOpen(p.mem)
    requires ListsOf(p.mem) == Lists([], ["a"], [])
    ensures var f := Work(p, Pairs(hash), o);
            f == Stop(f.p, Failed) && ListsOf(f.p.saved) == Lists(["b"], ["a"], []) && f.p.issued == p.issued
  {
    RefillsB();
    var f := Fill(p, o, ["a", "b"]);
    assert f.Next? && f.p.saved == f.p.mem && f.p.clock == p.clock + 1;
    var r := f.p.(mem := f.p.mem.(waiting := []));
    assert f.p.mem.waiting[..1] == ["b"] && f.p.mem.waiting[1..] == [];
    assert DispatchBatch(r, Pairs(hash), o.fails, ["b"], IfPresent).Stop?;
  }

  lemma RefillsB()
    ensures Filled([], ["a", "b"], ["a"], []) == ["b"]
  {
    assert ["a", "b"][1..] == ["b"];
    assert Filled([], ["a", "b"], ["a"], []) == Filled([], ["b"], ["a"], []);
  }

  lemma LosesAndRises(q: Pass, r: Pass)
    requires ListsOf(q.saved) == Lists([], ["a"], []) && ListsOf(r.saved) == Lists(["b"], ["a"], [])
    requires r.issued == q.issued
    ensures !Covers(q.saved, {"a", "b"}) && Outstanding(q.saved) == 1
    ensures Outstanding(r.saved) == 3 && MovesMade(r) == MovesMade(q)
  {
    assert "b" in {"a", "b"};
  }

  /** Over two passes with guards that are cut short: the first loses cover, and the second raises the measure from 1
      to 3 without a move. */
  lemma GuardedBatchRaisesMeasure(p: Pass, o: Observation, next: Observation, hash: Hash, v: string)
    requires Settled(p, v) && ListsOf(p.saved) == Lists(["a", "b"], [], []) && !HasJob(p.jobs, hash, "a", v)
    requires OneFails(o, v, p.clock + 8) && OneFails(next, v, Reconcile(p, Pairs(hash), o).p.clock + 6)
    ensures var q := Reconcile(p, Pairs(hash), o).p;
            var r := Reconcile(q, Pairs(hash), next).p;
            && !Covers(q.saved, {"a", "b"}) && Outstanding(q.saved) == 1
            && Outstanding(r.saved) == 3 && MovesMade(r) == MovesMade(q)
  {
    FirstCut(p, hash, o, v, p.clock + 8);
    var q := Reconcile(p, Pairs(hash), o).p;
    SecondCut(q, hash, next, v, q.clock + 6);
    LosesAndRises(q, Reconcile(q, Pairs(hash), next).p);
  }
}
