/** Where the promises end: concrete states in which a pass reports, or starts, too much. */
module Limits {
  import opened Conditions
  import opened NodeLists
  import opened PullJobs
  import opened Passes
  import opened FrontFacts
  import opened Runs
  import opened Completion
  import opened Partition
  import opened JobScan
  import opened Drain
  import opened Convergence

  // ---- Honest listings exist ----

  /** One listing that the API server may return. */
  ghost function SomeListing(jobs: JobStore, release: string): seq<Job>
    decreases |jobs|
  {
    if jobs == map[] then []
    else
      var k :| k in jobs;
      assert |jobs - {k}| < |jobs| by { assert (jobs - {k}).Keys == jobs.Keys - {k}; SmallerStore(jobs, k); }
      (if jobs[k].release == release then [jobs[k]] else []) + SomeListing(jobs - {k}, release)
  }

  lemma SmallerStore(jobs: JobStore, k: string)
    requires k in jobs
    ensures |jobs - {k}| < |jobs|
  {
    var rest := jobs - {k};
    assert rest.Keys == jobs.Keys - {k};
    assert |rest| == |rest.Keys| && |jobs| == |jobs.Keys|;
  }

  lemma {:induction false} SomeListingIsHonest(jobs: JobStore, release: string)
    ensures IsListing(SomeListing(jobs, release), jobs, release)
    decreases |jobs|
  {
    if jobs != map[] {
      var k :| k in jobs && SomeListing(jobs, release)
        == (if jobs[k].release == release then [jobs[k]] else []) + SomeListing(jobs - {k}, release);
      SmallerStore(jobs, k);
      var rest := jobs - {k};
      SomeListingIsHonest(rest, release);
      var listing, tail := SomeListing(jobs, release), SomeListing(rest, release);
      forall j | 0 <= j < |listing|
        ensures exists x :: x in jobs && jobs[x] == listing[j] && jobs[x].release == release
      {
        if listing[j] in tail {
          var i :| 0 <= i < |tail| && tail[i] == listing[j];
          var x :| x in rest && rest[x] == tail[i] && rest[x].release == release;
          assert x in jobs && jobs[x] == listing[j];
        } else {
          assert jobs[k] == listing[j];
        }
      }
      forall x | x in jobs && jobs[x].release == release ensures jobs[x] in listing {
        if x != k {
          assert x in rest;
        }
      }
    }
  }

  /** An observation in which nothing goes wrong. */
  ghost function Smooth(v: string, targets: seq<string>, primers: seq<string>, late: set<string>): Observation {
    Observation(false, Ok("None"), Ok(Release(v, v, "")), Selected(targets, primers), Ready, late,
                (jobs, release) => SomeListing(jobs, release), (k: nat) => false, "")
  }

  lemma SmoothIsHonest(v: string, targets: seq<string>, primers: seq<string>, late: set<string>)
    ensures var o := Smooth(v, targets, primers, late);
            HonestListing(o) && Asks(o, v) && FaultFree(o.fails)
  {
    forall jobs: JobStore, release: string
      ensures IsListing(Smooth(v, targets, primers, late).list(jobs, release), jobs, release)
    {
      SomeListingIsHonest(jobs, release);
    }
  }

  function Fresh(conditions: seq<Condition>, waiting: seq<string>, warming: seq<string>,
                 preheated: seq<string>): Status {
    Status(Versions("None", "", "", "", "", ""), conditions, [], [], waiting, warming, preheated)
  }

  function Starting(s: Status, jobs: JobStore): Pass {
    Pass(s, s, jobs, [], 0)
  }

  // ---- The early exit ----

  /** The early exit tells the truth exactly when no preheated node has left the targets. */
  lemma EarlyExitTruth(p: Pass, cfg: Config, o: Observation)
    requires NoDuplicates(TargetsOf(o)) && NoDuplicates(p.saved.preheated)
    requires Reconcile(p, cfg, o) == Stop(Reconcile(p, cfg, o).p, AlreadyComplete)
    ensures AllIn(TargetsOf(o), p.saved.preheated) <==> AllIn(p.saved.preheated, TargetsOf(o))
  {
    EarlyExitMeans(p, cfg, o);
    EqualLengthCoverage(TargetsOf(o), p.saved.preheated);
  }

  /** The front part does not go on past equal lengths. */
  lemma FrontStopsAtExit(p: Pass, o: Observation)
    requires |TargetsOf(o)| == |p.saved.preheated| && p.saved.waiting == []
    ensures Front(p, o).Stop?
  {
    if !o.fails(p.clock) && !o.disabled {
      PreflightFacts(p, o);
      var f := Preflight(p, o);
      if f.Next? && o.selection.Selected? {
        var q := f.p.(mem := f.p.mem.(selected := o.selection.targets, primers := o.selection.primers));
        PrimerCheckFacts(q, o, o.selection.primers);
      }
    }
  }

  ghost predicate KeepsCount(a: Action, n: nat) {
    a.Reconciled? ==> !a.o.disabled && (a.o.selection.Selected? ==> |a.o.selection.targets| == n)
  }

  lemma ExitedPass(p: Pass, cfg: Config, o: Observation, n: nat)
    requires |p.saved.preheated| == n > 0 && p.saved.waiting == [] && KeepsCount(Reconciled(cfg, o), n)
    ensures var f := Reconcile(p, cfg, o);
            && ListsOf(f.p.saved) == ListsOf(p.saved) && f.p.issued == p.issued
            && f.end in {Failed, AlreadyComplete}
  {
    FrontKeepsLists(p, o);
    if o.selection.Selected? {
      FrontStopsAtExit(p, o);
    }
  }

  /** The early exit is final: once as many nodes are preheated as targeted and none waits, no later pass issues a job
      or moves a node, whatever fails and whichever nodes are targeted, as long as their number stays. */
  lemma {:induction false} ExitIsFinal(w: World, actions: seq<Action>, n: nat)
    requires |w.pass.saved.preheated| == n > 0 && w.pass.saved.waiting == []
    requires forall a :: a in actions ==> KeepsCount(a, n)
    ensures var p := Run(w, actions).pass; ListsOf(p.saved) == ListsOf(w.pass.saved) && p.issued == w.pass.issued
    decreases |actions|
  {
    if actions != [] {
      var front, last := actions[..|actions| - 1], actions[|actions| - 1];
      ExitIsFinal(w, front, n);
      assert last in actions;
      if last.Reconciled? {
        ExitedPass(Run(w, front).pass, last.cfg, last.o, n);
      }
    }
  }

  /** A node is replaced by another after it was preheated: the pass reports completion, and `ExitIsFinal` says that the
      new node never gets a job. */
  lemma ReplacedNodeIsMissed(cfg: Config, v: string, jobs: JobStore)
    ensures var p := Starting(Fresh([], [], [], ["a"]), jobs);
            var f := Reconcile(p, cfg, Smooth(v, ["b"], [], {}));
            && f == Stop(f.p, AlreadyComplete) && f.p.jobs == jobs && "b" !in p.saved.preheated
  {
    var p := Starting(Fresh([], [], [], ["a"]), jobs);
    ClearFront(p, Smooth(v, ["b"], [], {}), ["b"], []);
    FrontKeepsLists(p, Smooth(v, ["b"], [], {}));
  }

  // ---- A change of the release ----

  /** The state that a finished run for `v` leaves, with one node. It satisfies the partition invariant for `v`. */
  function DoneWith(hash: Hash, v: string): Pass {
    Starting(Fresh([], [], [], ["a"]), map[JobName(hash, "a", v) := Job("a", v, true)])
  }

  lemma DoneWithIsGood(hash: Hash, v: string)
    ensures GoodSaved(DoneWith(hash, v), hash, v, {"a"})
  {
    forall n ensures HasJob(DoneWith(hash, v).jobs, hash, n, v) ==> n == "a" {
      if HasJob(DoneWith(hash, v).jobs, hash, n, v) {
        NameDeterminesNode(hash, v, n, "a");
      }
    }
  }

  /** The cluster moves on to release `w`, and a node joins. Only the new node gets a job, but the pass writes `w` as
      completed for both, because the lists of the old release are still there. */
  lemma ReleaseChangeBreaksCompletion(hash: Hash, v: string, w: string)
    requires EightCharacters(hash) && hash(v) != hash(w)
    ensures var o := Smooth(w, ["a", "b"], [], {JobName(hash, "b", w)});
            var f := Reconcile(DoneWith(hash, v), Config(false, 0, AsWritten, hash), o);
            && f == Stop(f.p, Completed)
            && f.p.saved.versions.lastCompleted == w && f.p.saved.selected == ["a", "b"]
            && "a" !in DoneIn(f.p.jobs, w)
    ensures GoodSaved(DoneWith(hash, v), hash, v, {"a"})
  {
    DoneWithIsGood(hash, v);
    var p, cfg := DoneWith(hash, v), Config(false, 0, AsWritten, hash);
    var o := Smooth(w, ["a", "b"], [], {JobName(hash, "b", w)});
    SmoothIsHonest(w, ["a", "b"], [], {JobName(hash, "b", w)});
    ClearFront(p, o, ["a", "b"], []);
    FrontKeepsLists(p, o);
    var f := Front(p, o);
    if JobName(hash, "b", w) in p.jobs {
      NameDeterminesHash(hash, "b", w, "a", v);
    }
    StaleRest(f.p, cfg, o, hash, v, w);
    assert IssueStage(p, cfg, o) == Work(f.p, cfg, o);
  }

  lemma StaleRest(p: Pass, cfg: Config, o: Observation, hash: Hash, v: string, w: string)
    requires FaultFree(o.fails) && cfg == Config(false, 0, AsWritten, hash) && GateOpen(p.mem) && HonestListing(o)
    requires o.selection == Selected(["a", "b"], []) && o.release.Ok? && o.release.value.desired == w
    requires o.late == {JobName(hash, "b", w)} && hash(v) != hash(w)
    requires ListsOf(p.mem) == Lists([], [], ["a"]) && p.saved == p.mem && p.mem.selected == ["a", "b"]
    requires p.mem.versions.desired == p.mem.versions.target == w
    requires p.jobs == map[JobName(hash, "a", v) := Job("a", v, true)] && JobName(hash, "b", w) !in p.jobs
    ensures var f := Rest(p, cfg, o);
            && f == Stop(f.p, Completed)
            && f.p.saved.versions.lastCompleted == w && f.p.saved.selected == ["a", "b"]
            && "a" !in DoneIn(f.p.jobs, w)
  {
    StaleWork(p, cfg, o, hash, v, w);
    StaleClose(Work(p, cfg, o).p, o, hash, v, w);
  }

  lemma StaleClose(p: Pass, o: Observation, hash: Hash, v: string, w: string)
    requires FaultFree(o.fails) && HonestListing(o) && o.late == {JobName(hash, "b", w)} && hash(v) != hash(w)
    requires p.saved == p.mem && ListsOf(p.mem) == Lists([], ["b"], ["a"]) && p.mem.selected == ["a", "b"]
    requires p.mem.versions.target == w && JobName(hash, "b", w) != JobName(hash, "a", v)
    requires p.jobs == map[JobName(hash, "a", v) := Job("a", v, true), JobName(hash, "b", w) := Job("b", w, false)]
    ensures var f := Close(p, o, w);
            && f == Stop(f.p, Completed)
            && f.p.saved.versions.lastCompleted == w && f.p.saved.selected == ["a", "b"]
            && "a" !in DoneIn(f.p.jobs, w)
  {
    StaleScan(p, o, hash, v, w);
    ClearEnd(Scan(p, o, w).p, o, w, ["a", "b"]);
  }

  lemma StaleWork(p: Pass, cfg: Config, o: Observation, hash: Hash, v: string, w: string)
    requires FaultFree(o.fails) && cfg == Config(false, 0, AsWritten, hash) && GateOpen(p.mem)
    requires o.selection == Selected(["a", "b"], [])
    requires ListsOf(p.mem) == Lists([], [], ["a"]) && p.saved == p.mem && p.mem.versions.desired == w
    requires p.jobs == map[JobName(hash, "a", v) := Job("a", v, true)] && JobName(hash, "b", w) !in p.jobs
    ensures var d := Work(p, cfg, o);
            && d.Next? && d.p.saved == d.p.mem
            && d.p.mem == p.mem.(warming := ["b"], conditions := d.p.mem.conditions)
            && d.p.jobs == p.jobs[JobName(hash, "b", w) := Job("b", w, false)]
  {
    StaleFill(p, o);
    var g := Fill(p, o, ["a", "b"]);
    ClearDispatch(g.p, cfg, o, w);
    assert Taken(["b"]) == ["b"] && Left(["b"]) == [];
    StaleJobs(g.p, cfg, o, hash, v, w);
  }

  lemma StaleFill(p: Pass, o: Observation)
    requires FaultFree(o.fails) && ListsOf(p.mem) == Lists([], [], ["a"]) && p.saved == p.mem
    ensures var f := Fill(p, o, ["a", "b"]);
            && f.Next? && f.p.saved == f.p.mem && f.p.mem == p.mem.(waiting := ["b"]) && f.p.jobs == p.jobs
  {
    assert ["a", "b"][1..] == ["b"];
    assert Filled([], ["a", "b"], [], ["a"]) == Filled([], ["b"], [], ["a"]);
  }

  /** After the dispatch the store holds the old job of "a" and the new one of "b". */
  lemma StaleJobs(p: Pass, cfg: Config, o: Observation, hash: Hash, v: string, w: string)
    requires FaultFree(o.fails) && cfg == Config(false, 0, AsWritten, hash) && GateOpen(p.mem)
    requires p.mem.waiting == ["b"] && p.mem.versions.desired == w && p.mem.warming == []
    requires p.jobs == map[JobName(hash, "a", v) := Job("a", v, true)] && JobName(hash, "b", w) !in p.jobs
    ensures Dispatch(p, cfg, o).p.jobs == p.jobs[JobName(hash, "b", w) := Job("b", w, false)]
  {
    var a := TryNode(p, cfg, o.fails, "b", ByIndex);
    NodeServed(p, cfg, o.fails, "b", ByIndex);
    assert DispatchShared(p, cfg, o.fails, ["b"], 1, 0)
        == DispatchShared(a.flow.p, cfg, o.fails, AfterRemoval(["b"], 1, "b"), 1, 1);
  }

  lemma StaleScan(p: Pass, o: Observation, hash: Hash, v: string, w: string)
    requires FaultFree(o.fails) && HonestListing(o) && o.late == {JobName(hash, "b", w)} && hash(v) != hash(w)
    requires p.saved == p.mem && ListsOf(p.mem) == Lists([], ["b"], ["a"]) && v != w
    requires p.jobs == map[JobName(hash, "a", v) := Job("a", v, true), JobName(hash, "b", w) := Job("b", w, false)]
    requires JobName(hash, "b", w) != JobName(hash, "a", v)
    ensures var f := Scan(p, o, w);
            && f.Next? && f.p.saved == f.p.mem
            && f.p.mem == p.mem.(warming := [], preheated := f.p.mem.preheated) && NoDuplicates(f.p.mem.preheated)
            && (forall n :: n in f.p.mem.preheated <==> n == "a" || n == "b")
            && "a" !in DoneIn(f.p.jobs, w)
  {
    var q := p.(jobs := Finish(p.jobs, o.late), clock := p.clock + 1);
    var listing := o.list(q.jobs, w);
    assert IsListing(listing, q.jobs, w);
    StaleListing(listing, q.jobs, JobName(hash, "a", v), JobName(hash, "b", w), v, w);
    ScanJobs(p, o, w);
    StaleLoop(q, o.fails, listing);
  }

  lemma StaleListing(listing: seq<Job>, jobs: JobStore, ka: string, kb: string, v: string, w: string)
    requires IsListing(listing, jobs, w) && v != w && ka != kb
    requires jobs == map[ka := Job("a", v, true), kb := Job("b", w, true)]
    ensures listing != [] && DoneNodes(listing) == {"b"}
  {
    assert jobs[kb] in listing;
    forall j | j in listing ensures j == Job("b", w, true) {
      var i :| 0 <= i < |listing| && listing[i] == j;
      var k :| k in jobs && jobs[k] == listing[i] && jobs[k].release == w;
    }
  }

  lemma StaleLoop(p: Pass, fails: Faults, listing: seq<Job>)
    requires FaultFree(fails) && p.saved == p.mem && ListsOf(p.mem) == Lists([], ["b"], ["a"])
    requires DoneNodes(listing) == {"b"}
    ensures var f := ScanLoop(p, fails, listing);
            && f.Next? && f.p.saved == f.p.mem
            && f.p.mem == p.mem.(warming := [], preheated := f.p.mem.preheated) && NoDuplicates(f.p.mem.preheated)
            && (forall n :: n in f.p.mem.preheated <==> n == "a" || n == "b")
  {
    ScanGoesOn(p, fails, listing);
    ScanSetForm(p, fails, listing);
    assert Except(["b"], {"b"}) == [];
    ScanUnique(p, fails, listing);
  }

  lemma {:induction false} ScanUnique(p: Pass, fails: Faults, listing: seq<Job>)
    requires NoDuplicates(p.mem.preheated)
    ensures NoDuplicates(ScanLoop(p, fails, listing).p.mem.preheated)
    decreases |listing|
  {
    if listing != [] {
      var q := p.(mem := Seen(p.mem, listing[0]));
      ScanUnique(if q == p then p else Write(q, fails), fails, listing[1..]);
    }
  }
}
