/** A positive parallelism as the code has it: a run from a clean start that never records a job which succeeds. */
module LostSuccess {
  import opened NodeLists
  import opened PullJobs
  import opened Passes
  import opened Runs
  import opened Batches
  import opened Convergence
  import opened Limits
  import opened DroppedNode
  import opened ShortBatch
  import opened WrittenBatches
  import ListsApart

  const BOTH := ["a", "b"]

  function TwoByTwo(hash: Hash): Config {
    Config(false, 2, AsWritten, hash)
  }

  ghost function Calm(v: string): Observation {
    Smooth(v, BOTH, [], {})
  }

  ghost function Round(hash: Hash, v: string): Action {
    Reconciled(TwoByTwo(hash), Calm(v))
  }

  /** Both nodes are due, none is preheated, and these are the jobs. */
  ghost predicate BothDue(w: World, hash: Hash, v: string, jobs: JobStore) {
    && Unbroken(w.pass, hash, v, BOTH) && Due(w.pass.saved, BOTH) == BOTH && w.pass.saved.preheated == []
    && w.pass.jobs == jobs
  }

  function Jobs(hash: Hash, v: string, a: bool): JobStore {
    map[JobName(hash, "a", v) := Job("a", v, a), JobName(hash, "b", v) := Job("b", v, false)]
  }

  lemma CalmIsClear(v: string)
    ensures Clear(Calm(v), v, BOTH, []) && NoDuplicates(BOTH)
  {
    SmoothIsHonest(v, BOTH, [], {});
  }

  lemma NamesDiffer(hash: Hash, v: string)
    ensures JobName(hash, "a", v) != JobName(hash, "b", v)
  {
    if JobName(hash, "a", v) == JobName(hash, "b", v) { NameDeterminesNode(hash, v, "a", "b"); }
  }

  /** A pass that dies after the Create for the first node without a job. */
  lemma DiesOn(w: World, hash: Hash, v: string, jobs: JobStore, n: string)
    requires BothDue(w, hash, v, jobs) && FirstJobless(BOTH, jobs, hash, v) == [n]
    ensures BothDue(Step(w, Round(hash, v)), hash, v, jobs[JobName(hash, n, v) := Job(n, v, false)])
  {
    CalmIsClear(v);
    assert BOTH[..2] == BOTH;
    WrittenPass(w.pass, TwoByTwo(hash), Calm(v), v, BOTH);
  }

  lemma CreatesA(hash: Hash, v: string)
    ensures BothDue(Step(Start(), Round(hash, v)), hash, v, map[JobName(hash, "a", v) := Job("a", v, false)])
  {
    var w := Start();
    CalmIsClear(v);
    NoJobsClean(w.pass, hash, v);
    FillsFromScratch(w.pass.saved, BOTH);
    DiesOn(w, hash, v, map[], "a");
  }

  lemma NoJobsClean(p: Pass, hash: Hash, v: string)
    requires p.jobs == map[] && ListsOf(p.saved) == NO_LISTS
    ensures Unbroken(p, hash, v, BOTH)
  {
  }

  lemma CreatesB(w: World, hash: Hash, v: string)
    requires BothDue(w, hash, v, map[JobName(hash, "a", v) := Job("a", v, false)])
    ensures BothDue(Step(w, Round(hash, v)), hash, v, Jobs(hash, v, false))
  {
    NamesDiffer(hash, v);
    assert BOTH[1..] == ["b"];
    DiesOn(w, hash, v, map[JobName(hash, "a", v) := Job("a", v, false)], "b");
  }

  lemma FinishesA(w: World, hash: Hash, v: string)
    requires BothDue(w, hash, v, Jobs(hash, v, false))
    ensures BothDue(Step(w, JobSucceeds(JobName(hash, "a", v))), hash, v, Jobs(hash, v, true))
  {
    NamesDiffer(hash, v);
    CalmIsClear(v);
    WrittenKeeps(w, JobSucceeds(JobName(hash, "a", v)), TwoByTwo(hash), v, BOTH);
  }

  lemma OnlyADone(hash: Hash, v: string)
    ensures Finish(Jobs(hash, v, true), {}) == Jobs(hash, v, true) && DoneIn(Jobs(hash, v, true), v) == {"a"}
  {
    NamesDiffer(hash, v);
    var jobs := Jobs(hash, v, true);
    assert jobs[JobName(hash, "a", v)] == Job("a", v, true);
  }

  /** The pass that drops both nodes and records "a". */
  lemma DropsBoth(w: World, hash: Hash, v: string)
    requires BothDue(w, hash, v, Jobs(hash, v, true))
    ensures var p := Step(w, Round(hash, v)).pass;
            && Short(p, hash, v, BOTH, [], 2) && p.saved.preheated == ["a"] && p.jobs == Jobs(hash, v, true)
  {
    DropsLists(w, hash, v);
    OneNode(Step(w, Round(hash, v)).pass.saved.preheated, "a");
    assert Filled([], BOTH, [], ["a"]) == Filled([], ["b"], [], ["a"]) == ["b"];
  }

  lemma DropsLists(w: World, hash: Hash, v: string)
    requires BothDue(w, hash, v, Jobs(hash, v, true))
    ensures var p := Step(w, Round(hash, v)).pass;
            && Loose(p, hash, v, BOTH) && p.saved.waiting == p.saved.warming == []
            && (forall n :: n in p.saved.preheated <==> n == "a") && p.jobs == Jobs(hash, v, true)
  {
    CalmIsClear(v);
    NamesDiffer(hash, v);
    OnlyADone(hash, v);
    assert BOTH[..2] == BOTH && BOTH[2..] == [] && BOTH[1..] == ["b"];
    assert FirstJobless(BOTH, w.pass.jobs, hash, v) == FirstJobless(["b"], w.pass.jobs, hash, v) == [];
    assert "b" in BOTH && "b" !in w.pass.saved.preheated;
    WrittenPass(w.pass, TwoByTwo(hash), Calm(v), v, BOTH);
  }

  lemma {:induction false} RunJoins(w: World, xs: seq<Action>, ys: seq<Action>)
    ensures Run(w, xs + ys) == Run(Run(w, xs), ys)
    decreases |ys|
  {
    if ys == [] {
      assert xs + ys == xs;
    } else {
      var front := ys[..|ys| - 1];
      RunJoins(w, xs, front);
      assert (xs + ys)[..|xs + ys| - 1] == xs + front;
    }
  }

  /** Two passes that die after a Create, the success of "a", and a pass that drops both nodes. */
  ghost function Opening(hash: Hash, v: string): seq<Action> {
    [Round(hash, v), Round(hash, v), JobSucceeds(JobName(hash, "a", v)), Round(hash, v)]
  }

  lemma OpeningIsShort(hash: Hash, v: string)
    ensures var p := Run(Start(), Opening(hash, v)).pass;
            && Short(p, hash, v, BOTH, [], 2) && p.saved.preheated == ["a"] && p.jobs == Jobs(hash, v, true)
  {
    var round, done := Round(hash, v), JobSucceeds(JobName(hash, "a", v));
    CreatesA(hash, v);
    var w1 := Step(Start(), round);
    CreatesB(w1, hash, v);
    var w2 := Step(w1, round);
    FinishesA(w2, hash, v);
    DropsBoth(Step(w2, done), hash, v);
    RunOfFour(Start(), round, round, done, round);
  }

  /** After any further passes, whatever fails, the job of "b" succeeds: "b" is not recorded, and no later pass
      records it or completes the release. */
  lemma SuccessIsLost(hash: Hash, v: string, later: seq<Action>, o: Observation)
    requires forall a :: a in later ==> StuckAction(a, hash, v, BOTH, [], 2)
    requires JobSucceeds(JobName(hash, "b", v)) in later && Same(o, v, BOTH, [])
    ensures var p := Run(Start(), Opening(hash, v) + later).pass;
            && p.saved.preheated == ["a"] && Reconcile(p, TwoByTwo(hash), o).end in {Failed, Panicked}
            && Succeeded(p.jobs, hash, "b", v)
  {
    var w := Run(Start(), Opening(hash, v));
    OpeningIsShort(hash, v);
    RunJoins(Start(), Opening(hash, v), later);
    StuckForever(w, later, TwoByTwo(hash), o, v, BOTH, []);
    StaysSucceeded(w, later, hash, v, "b");
  }

  /** A job that succeeds during a stuck run has succeeded at its end. */
  lemma {:induction false} StaysSucceeded(w: World, later: seq<Action>, hash: Hash, v: string, n: string)
    requires Short(w.pass, hash, v, BOTH, [], 2) && HasJob(w.pass.jobs, hash, n, v)
    requires forall a :: a in later ==> StuckAction(a, hash, v, BOTH, [], 2)
    ensures Short(Run(w, later).pass, hash, v, BOTH, [], 2) && HasJob(Run(w, later).pass.jobs, hash, n, v)
    ensures JobSucceeds(JobName(hash, n, v)) in later ==> Succeeded(Run(w, later).pass.jobs, hash, n, v)
    decreases |later|
  {
    if later != [] {
      var front, last := later[..|later| - 1], later[|later| - 1];
      StaysSucceeded(w, front, hash, v, n);
      assert last in later && later == front + [last];
      if last.Reconciled? {
        CalmIsClear(v);
        StuckPass(Run(w, front).pass, last.cfg, last.o, v, BOTH, []);
      } else {
        FinishesMore(Run(w, front), last.name, hash, v, n);
      }
    }
  }

  lemma FinishesMore(w: World, name: string, hash: Hash, v: string, n: string)
    requires Short(w.pass, hash, v, BOTH, [], 2) && HasJob(w.pass.jobs, hash, n, v)
    ensures var p := Step(w, JobSucceeds(name)).pass;
            && Short(p, hash, v, BOTH, [], 2) && HasJob(p.jobs, hash, n, v)
            && (Succeeded(w.pass.jobs, hash, n, v) || name == JobName(hash, n, v) ==> Succeeded(p.jobs, hash, n, v))
  {
    ListsApart.FinishApart(w.pass.saved, w.pass.jobs, {name}, hash, v);
  }
}
