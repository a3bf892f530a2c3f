/** The ways back to the start: nodes whose jobs are gone wait again, and switching the accelerator off, or selecting no
    node, clears the lists. */
module Resets {
  import opened Conditions
  import opened NodeLists
  import opened PullJobs
  import opened Passes
  import opened FrontFacts
  import opened Runs
  import opened Completion
  import opened NewJobs
  import opened Partition
  import opened JobScan
  import opened Drain
  import opened Batches
  import opened PrimerLimits
  import opened Convergence

  // ---- Jobs that are gone ----

  /** The store holds no job of the release. */
  ghost predicate NoneOf(jobs: JobStore, v: string) {
    forall k :: k in jobs ==> jobs[k].release != v
  }

  lemma NoneHasJob(jobs: JobStore, hash: Hash, v: string)
    requires NoneOf(jobs, v) && WellNamed(jobs, hash, v)
    ensures forall n :: !HasJob(jobs, hash, n, v)
  {
  }

  /** No node is on two lists, or twice on one. */
  ghost predicate Bereft(p: Pass, hash: Hash, v: string) {
    NoneOf(p.jobs, v) && WellNamed(p.jobs, hash, v) && Disjoint(ListsOf(p.saved))
  }

  /** Nothing to issue, known before the pass: no primer takes part, and no node is due, or the parallelism is negative,
      or the gate is closed. */
  predicate Idle(p: Pass, cfg: Config, targets: seq<string>, primers: seq<string>) {
    && (!cfg.prime || primers == [])
    && (Due(p.saved, targets) == [] || cfg.parallelism < 0
        || CheckedReason(p.saved, primers) !in {PRIMER_SKIPPED, PRIMER_COMPLETED})
  }

  lemma DueIsDisjoint(s: Status, targets: seq<string>)
    requires Disjoint(ListsOf(s)) && NoDuplicates(targets)
    ensures Disjoint(ListsOf(s).(waiting := Due(s, targets)))
  {
    FilledFacts(s.waiting, targets, s.warming, s.preheated);
  }

  /** Behind the front part and the fill. */
  ghost predicate AtRound(p: Pass, q: Pass, v: string, targets: seq<string>, primers: seq<string>) {
    && q.jobs == p.jobs && q.issued == p.issued && q.saved == q.mem && q.mem.versions.desired == v
    && ListsOf(q.mem) == ListsOf(p.saved).(waiting := Due(p.saved, targets))
    && PrimerReason(q.mem) == CheckedReason(p.saved, primers)
    && q.mem.selected == targets
  }

  lemma ReachesRound(p: Pass, cfg: Config, o: Observation, v: string, targets: seq<string>, primers: seq<string>)
    requires Clear(o, v, targets, primers) && Front(p, o).Next?
    ensures var f := Fill(Front(p, o).p, o, targets);
            && f.Next? && AtRound(p, f.p, v, targets, primers)
            && IssueStage(p, cfg, o) == FromRound(f.p, cfg, o, primers)
  {
    FrontKeepsLists(p, o);
    ClearFront(p, o, targets, primers);
    FillAtRound(p, Front(p, o).p, cfg, o, v, targets, primers);
  }

  function FromRound(p: Pass, cfg: Config, o: Observation, primers: seq<string>): Flow {
    var g := SchedulePrimers(p, cfg, o, primers);
    if g.Stop? then g else Dispatch(g.p, cfg, o)
  }

  lemma FillAtRound(p: Pass, q: Pass, cfg: Config, o: Observation, v: string, targets: seq<string>,
                    primers: seq<string>)
    requires FaultFree(o.fails) && o.selection == Selected(targets, primers)
    requires q.jobs == p.jobs && q.issued == p.issued && q.saved == q.mem && q.mem.versions.desired == v
    requires ListsOf(q.mem) == ListsOf(p.saved) && PrimerReason(q.mem) == CheckedReason(p.saved, primers)
    requires q.mem.selected == targets
    ensures var f := Fill(q, o, targets);
            f.Next? && AtRound(p, f.p, v, targets, primers) && Work(q, cfg, o) == FromRound(f.p, cfg, o, primers)
  {
  }

  /** With nothing to issue the lists stay, but for the targets that are filled in. */
  lemma IdleStage(p: Pass, cfg: Config, o: Observation, v: string, targets: seq<string>, primers: seq<string>)
    requires Clear(o, v, targets, primers) && Front(p, o).Next? && Idle(p, cfg, targets, primers)
    ensures var f := IssueStage(p, cfg, o);
            && f.Next? && f.p.jobs == p.jobs && f.p.issued == p.issued && f.p.saved == f.p.mem
            && ListsOf(f.p.mem) == ListsOf(p.saved).(waiting := Due(p.saved, targets))
  {
    ReachesRound(p, cfg, o, v, targets, primers);
    IdleDispatch(Fill(Front(p, o).p, o, targets).p, cfg, o);
  }

  lemma IdleDispatch(p: Pass, cfg: Config, o: Observation)
    requires FaultFree(o.fails) && p.saved == p.mem
    requires p.mem.waiting == [] || cfg.parallelism < 0 || !GateOpen(p.mem)
    ensures var f := Dispatch(p, cfg, o);
            f.Next? && f.p.jobs == p.jobs && f.p.issued == p.issued && f.p.saved == f.p.mem
            && ListsOf(f.p.mem) == ListsOf(p.mem)
  {
    assert p.mem.waiting[..0] == [] && p.mem.waiting[0..] == p.mem.waiting;
  }

  /** Otherwise, when no job of the release is there, the pass creates one or does not get as far as the listing. */
  lemma BusyStage(p: Pass, cfg: Config, o: Observation, v: string, targets: seq<string>, primers: seq<string>)
    requires Clear(o, v, targets, primers) && Front(p, o).Next? && !Idle(p, cfg, targets, primers)
    requires Bereft(p, cfg.hash, v) && NoDuplicates(targets)
    ensures var f := IssueStage(p, cfg, o); f.Next? ==> f.p.jobs != p.jobs
  {
    NoneHasJob(p.jobs, cfg.hash, v);
    DueIsDisjoint(p.saved, targets);
    ReachesRound(p, cfg, o, v, targets, primers);
    var q := Fill(Front(p, o).p, o, targets).p;
    if cfg.prime && primers != [] {
      BusyRound(q, cfg, o, v, primers);
    } else {
      FirstIssued(q, cfg, o.fails, v);
      assert q.mem.waiting != [] && GateOpen(q.mem);
    }
  }

  lemma BusyRound(p: Pass, cfg: Config, o: Observation, v: string, primers: seq<string>)
    requires p.mem.versions.desired == v && cfg.prime && primers != []
    requires Disjoint(ListsOf(p.mem)) && !HasJob(p.jobs, cfg.hash, primers[0], v)
    ensures var f := FromRound(p, cfg, o, primers);
            f.Next? ==> HasJob(f.p.jobs, cfg.hash, primers[0], v)
  {
    PrimersTried(p, cfg, o.fails, primers, false, false, v);
    PrimerLoopExtends(p, cfg, o.fails, primers, false, false, v);
    var g := SchedulePrimers(p, cfg, o, primers);
    if g.Next? {
      assert primers[0] in primers;
      DispatchExtends(g.p, cfg, o, v);
    }
  }

  /** The listing of a store without jobs of the release is empty. */
  lemma NothingListed(o: Observation, jobs: JobStore, v: string)
    requires HonestListing(o) && NoneOf(jobs, v)
    ensures o.list(Finish(jobs, o.late), v) == []
  {
    var listing, store := o.list(Finish(jobs, o.late), v), Finish(jobs, o.late);
    assert IsListing(listing, store, v);
    if listing != [] {
      FirstListed(listing, store, v);
    }
  }

  lemma FirstListed(listing: seq<Job>, jobs: JobStore, v: string)
    requires IsListing(listing, jobs, v) && listing != []
    ensures !NoneOf(jobs, v)
  {
    var job := listing[0];
    assert job in listing;
    var i :| 0 <= i < |listing| && listing[i] == job;
    var k :| k in jobs && jobs[k] == listing[i] && jobs[k].release == v;
  }

  lemma ResetCloses(p: Pass, o: Observation, v: string)
    requires FaultFree(o.fails) && HonestListing(o) && NoneOf(p.jobs, v) && p.saved == p.mem
    ensures var f := Close(p, o, v);
            && f.p.jobs == Finish(p.jobs, o.late)
            && ListsOf(f.p.saved) == Lists(p.mem.waiting + p.mem.warming, [], p.mem.preheated)
  {
    NothingListed(o, p.jobs, v);
    NoJobsReset(p, o, v);
  }

  /** A pass on which nothing fails, with no job of the release left, that gets past its front part and has nothing to
      issue: it saves the nodes that were warming as waiting, behind those that waited and the new targets. */
  lemma ResetPass(p: Pass, cfg: Config, o: Observation, v: string, targets: seq<string>, primers: seq<string>)
    requires Clear(o, v, targets, primers) && NoneOf(p.jobs, v) && Front(p, o).Next?
    requires Idle(p, cfg, targets, primers)
    ensures var f := Reconcile(p, cfg, o);
            && ListsOf(f.p.saved) == Lists(Due(p.saved, targets) + p.saved.warming, [], p.saved.preheated)
            && f.p.jobs == Finish(p.jobs, o.late) && f.p.issued == p.issued && f.end in {Pending, Completed}
  {
    IdleStage(p, cfg, o, v, targets, primers);
    var q := IssueStage(p, cfg, o).p;
    IdleRest(p, cfg, o, v);
    ResetCloses(q, o, v);
    ResetEnds(q, o, v);
  }

  /** Having nothing to issue is exactly what lets a pass reach such a listing without a new job. */
  lemma ReachesListingExactly(p: Pass, cfg: Config, o: Observation, v: string, targets: seq<string>,
                              primers: seq<string>)
    requires Clear(o, v, targets, primers) && Bereft(p, cfg.hash, v) && NoDuplicates(targets) && Front(p, o).Next?
    ensures var f := IssueStage(p, cfg, o); Idle(p, cfg, targets, primers) <==> f.Next? && f.p.jobs == p.jobs
  {
    if Idle(p, cfg, targets, primers) {
      IdleStage(p, cfg, o, v, targets, primers);
    } else {
      BusyStage(p, cfg, o, v, targets, primers);
    }
  }

  lemma IdleRest(p: Pass, cfg: Config, o: Observation, v: string)
    requires IssueStage(p, cfg, o).Next? && Asks(o, v)
    ensures Reconcile(p, cfg, o) == Close(IssueStage(p, cfg, o).p, o, v)
  {
  }

  lemma ResetEnds(p: Pass, o: Observation, v: string)
    requires FaultFree(o.fails) && HonestListing(o) && NoneOf(p.jobs, v)
    ensures Close(p, o, v).end in {Pending, Completed} && Close(p, o, v).p.issued == p.issued
  {
    NothingListed(o, p.jobs, v);
  }

  lemma StillBereft(p: Pass, q: Pass, hash: Hash, late: set<string>, v: string, targets: seq<string>)
    requires Bereft(p, hash, v) && NoDuplicates(targets) && q.jobs == Finish(p.jobs, late)
    requires ListsOf(q.saved) == Lists(Due(p.saved, targets) + p.saved.warming, [], p.saved.preheated)
    ensures Bereft(q, hash, v)
  {
    DueIsDisjoint(p.saved, targets);
    NoneHasJob(p.jobs, hash, v);
    JoinUnique(Due(p.saved, targets), p.saved.warming);
  }

  lemma JoinUnique(xs: seq<string>, ys: seq<string>)
    requires NoDuplicates(xs) && NoDuplicates(ys) && forall x :: x in xs ==> x !in ys
    ensures NoDuplicates(xs + ys)
  {
    forall i, j | 0 <= i < j < |xs + ys| ensures (xs + ys)[i] != (xs + ys)[j] {
      if i < |xs| <= j { assert (xs + ys)[i] in xs && (xs + ys)[j] in ys; }
    }
  }

  // ---- The nodes get new jobs ----

  /** The next pass: it issues a job for the portion that a dispatch serves. */
  lemma ServedAgain(p: Pass, cfg: Config, o: Observation, v: string, targets: seq<string>)
    requires Clear(o, v, targets, []) && Serves(cfg) && NoDuplicates(targets) && targets != []
    requires Bereft(p, cfg.hash, v) && p.saved.waiting != []
    ensures var f, w := Reconcile(p, cfg, o), Portion(cfg, Due(p.saved, targets));
            && f.p.issued == p.issued + IssuesOf(w, v)
            && forall n :: HasJob(f.p.jobs, cfg.hash, n, v) <==> n in w
  {
    NoneHasJob(p.jobs, cfg.hash, v);
    DueIsDisjoint(p.saved, targets);
    UnprimedGate(p, cfg, o, v, targets);
    FrontKeepsLists(p, o);
    var g := Fill(Front(p, o).p, o, targets).p;
    ServesPortion(g, cfg, o, v);
    IdleRest(p, cfg, o, v);
    CloseKeepsJobs(IssueStage(p, cfg, o).p, o, v);
  }

  lemma ServesPortion(p: Pass, cfg: Config, o: Observation, v: string)
    requires FaultFree(o.fails) && Serves(cfg) && GateOpen(p.mem) && p.mem.versions.desired == v
    requires Disjoint(ListsOf(p.mem)) && forall n :: !HasJob(p.jobs, cfg.hash, n, v)
    ensures var f, w := Dispatch(p, cfg, o), Portion(cfg, p.mem.waiting);
            && f.Next? && f.p.issued == p.issued + IssuesOf(w, v)
            && forall n :: HasJob(f.p.jobs, cfg.hash, n, v) <==> n in w
  {
    if cfg.parallelism == 0 {
      OnePassServes(p, cfg, o.fails);
    } else {
      GuardedBatchServes(p, cfg, o.fails);
    }
  }

  lemma CloseKeepsJobs(p: Pass, o: Observation, v: string)
    ensures Close(p, o, v).p.jobs.Keys == p.jobs.Keys && Close(p, o, v).p.issued == p.issued
  {
    var q := p.(jobs := Finish(p.jobs, o.late), clock := p.clock + 1);
    ScanLoopIssues(q, o.fails, o.list(q.jobs, v));
  }

  lemma {:induction false} ScanLoopIssues(p: Pass, fails: Faults, listing: seq<Job>)
    ensures ScanLoop(p, fails, listing).p.jobs == p.jobs && ScanLoop(p, fails, listing).p.issued == p.issued
    decreases |listing|
  {
    if listing != [] {
      var q := p.(mem := Seen(p.mem, listing[0]));
      ScanLoopIssues(if q == p then p else Write(q, fails), fails, listing[1..]);
    }
  }

  // ---- Over runs ----

  /** Nothing but disappearing jobs. */
  ghost predicate OnlyLoses(actions: seq<Action>) {
    forall i :: 0 <= i < |actions| ==> actions[i].JobDisappears?
  }

  lemma {:induction false} LosingKeeps(w: World, actions: seq<Action>, hash: Hash, v: string)
    requires OnlyLoses(actions) && WellNamed(w.pass.jobs, hash, v)
    ensures var p := Run(w, actions).pass;
            p.saved == w.pass.saved && p.issued == w.pass.issued && WellNamed(p.jobs, hash, v)
  {
    if actions != [] {
      LosingKeeps(w, actions[..|actions| - 1], hash, v);
    }
  }

  /** An orderly run leads to nodes that are warming; then jobs disappear until none of the release is left. The next
      pass that has nothing to issue puts these nodes back, and the one after it issues jobs for its portion of them and
      of the nodes that waited, in that order: no node is lost with its job. */
  lemma LostJobsAreRedone(w: World, actions: seq<Action>, losses: seq<Action>, cfg: Config, o: Observation,
                          next: Config, later: Observation, v: string, targets: seq<string>)
    requires CleanStart(w, cfg.hash, v) && OrderlyRun(w, actions, cfg.hash, v) && OnlyLoses(losses)
    requires Clear(o, v, targets, []) && Clear(later, v, targets, []) && NoDuplicates(targets) && targets != []
    requires next.hash == cfg.hash && Serves(next)
    requires var p := Run(Run(w, actions), losses).pass;
             NoneOf(p.jobs, v) && p.saved.warming != [] && Front(p, o).Next? && Idle(p, cfg, targets, [])
    ensures var p := Run(Run(w, actions), losses).pass;
            var waiting := Due(p.saved, targets) + p.saved.warming;
            var q := Reconcile(p, cfg, o).p;
            var r := Reconcile(q, next, later).p;
            && ListsOf(q.saved) == Lists(waiting, [], p.saved.preheated)
            && r.issued == p.issued + IssuesOf(Portion(next, Due(q.saved, targets)), v)
            && Due(q.saved, targets) == waiting
            && forall n :: HasJob(r.jobs, cfg.hash, n, v) <==> n in Portion(next, waiting)
  {
    PartitionHolds(w, actions, cfg.hash, v);
    LosingKeeps(Run(w, actions), losses, cfg.hash, v);
    var p := Run(Run(w, actions), losses).pass;
    ResetPass(p, cfg, o, v, targets, []);
    var q := Reconcile(p, cfg, o).p;
    StillBereft(p, q, cfg.hash, o.late, v, targets);
    FilledFacts(p.saved.waiting, targets, p.saved.warming, p.saved.preheated);
    NothingToFill(q.saved.waiting, targets, [], q.saved.preheated);
    ServedAgain(q, next, later, v, targets);
  }

  // ---- Switched off, or nothing selected ----

  /** One of the next `n` API calls comes through. */
  ghost predicate SomeWorks(fails: Faults, clock: nat, n: nat) {
    exists c: nat :: clock <= c < clock + n && !fails(c)
  }

  /** Condition calls in a row save the status in memory exactly if one of their writes comes through. */
  lemma {:induction false} OpsSave(p: Pass, fails: Faults, ops: seq<ConditionOp>)
    ensures var q := ApplyOps(p, fails, ops);
            && q.jobs == p.jobs && q.clock == p.clock + |ops| && SameButConditions(p.mem, q.mem)
            && if SomeWorks(fails, p.clock, |ops|) then SameButConditions(p.mem, q.saved) else q.saved == p.saved
    decreases |ops|
  {
    if ops != [] {
      var q, rest := ApplyOp(p, fails, ops[0]), ops[1..];
      OpsSave(q, fails, rest);
      if SomeWorks(fails, p.clock, |ops|) && !SomeWorks(fails, q.clock, |rest|) {
        var c: nat :| p.clock <= c < p.clock + |ops| && !fails(c);
        assert c == p.clock;
      }
    }
  }

  /** All five lists are empty. */
  predicate Cleared(s: Status) {
    s.selected == [] && s.primers == [] && s.waiting == [] && s.warming == [] && s.preheated == []
  }

  /** Switched off, from every state, once the object is read: all five lists are saved empty if one of the seven writes
      of conditions comes through, and otherwise the saved status is the old one. */
  lemma DisabledClears(p: Pass, cfg: Config, o: Observation)
    requires o.disabled && !o.fails(p.clock)
    ensures var f := Reconcile(p, cfg, o);
            && f == Stop(f.p, Disabled) && f.p.jobs == p.jobs
            && if SomeWorks(o.fails, p.clock + 1, 7) then Cleared(f.p.saved) && f.p.saved.versions == p.saved.versions
               else f.p.saved == p.saved
  {
    var q := Read(p, o.fails);
    OpsSave(q.(mem := NoLists(q.mem)), o.fails, DisabledOps());
  }

  /** No node selected, from every state, once the version fields are set: the same with five writes. */
  lemma NoTargetsClear(p: Pass, cfg: Config, o: Observation, primers: seq<string>)
    requires o.selection == Selected([], primers) && Preflight(p, o).Next?
    ensures var f, q := Reconcile(p, cfg, o), Preflight(p, o).p;
            && f == Stop(f.p, NoTargets) && f.p.jobs == q.jobs
            && if SomeWorks(o.fails, q.clock, 5) then Cleared(f.p.saved) && f.p.saved.versions == q.mem.versions
               else f.p.saved == q.saved
  {
    var q := Preflight(p, o).p;
    OpsSave(q.(mem := NoLists(q.mem)), o.fails, NoTargetsOps());
  }

  /** From cleared lists the next enabled pass on which nothing fails starts over: every target waits, in order, and is
      saved so before any job is looked for. */
  lemma StartsOver(p: Pass, o: Observation, v: string, targets: seq<string>, primers: seq<string>)
    requires Cleared(p.saved) && Clear(o, v, targets, primers) && NoDuplicates(targets) && targets != []
    ensures var f := Fill(Front(p, o).p, o, targets);
            && Front(p, o).Next? && f.Next? && f.p.jobs == p.jobs
            && ListsOf(f.p.saved) == ListsOf(f.p.mem) == Lists(targets, [], [])
  {
    ClearFront(p, o, targets, primers);
    FrontKeepsLists(p, o);
    FillsFromScratch(p.saved, targets);
  }

  /** Off and on again: after a pass that found the accelerator switched off and saved anything, all progress is
      forgotten, whatever came before. */
  lemma OffAndOn(p: Pass, cfg: Config, off: Observation, o: Observation, v: string, targets: seq<string>,
                 primers: seq<string>)
    requires off.disabled && !off.fails(p.clock) && SomeWorks(off.fails, p.clock + 1, 7)
    requires Clear(o, v, targets, primers) && NoDuplicates(targets) && targets != []
    ensures var q := Reconcile(p, cfg, off).p;
            var f := Fill(Front(q, o).p, o, targets);
            Front(q, o).Next? && f.Next? && ListsOf(f.p.saved) == Lists(targets, [], []) && f.p.jobs == p.jobs
  {
    DisabledClears(p, cfg, off);
    StartsOver(Reconcile(p, cfg, off).p, o, v, targets, primers);
  }

  /** The same after a pass that selected no node. */
  lemma NoneAndSome(p: Pass, cfg: Config, none: Observation, o: Observation, v: string, targets: seq<string>,
                    primers: seq<string>)
    requires none.selection == Selected([], []) && Preflight(p, none).Next?
    requires SomeWorks(none.fails, Preflight(p, none).p.clock, 5)
    requires Clear(o, v, targets, primers) && NoDuplicates(targets) && targets != []
    ensures var q := Reconcile(p, cfg, none).p;
            var f := Fill(Front(q, o).p, o, targets);
            Front(q, o).Next? && f.Next? && ListsOf(f.p.saved) == Lists(targets, [], []) && f.p.jobs == p.jobs
  {
    NoTargetsClear(p, cfg, none, []);
    FrontKeepsLists(p, none);
    StartsOver(Reconcile(p, cfg, none).p, o, v, targets, primers);
  }
}
