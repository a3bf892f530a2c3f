/** How far the lists can move: every dispatch and every preheating is a step that is never undone. */
module Measure {
  import opened NodeLists
  import opened PullJobs
  import opened Passes
  import opened FrontFacts
  import opened IssueFacts
  import opened Runs
  import opened Completion
  import opened Partition
  import opened NewJobs

  /** There are as many Create calls as nodes on the last two lists. */
  ghost predicate Counted(s: Status, issued: seq<Issue>) {
    |s.warming| + |s.preheated| == |issued|
  }

  /** From one status to a later one: no node leaves the preheated list, and none is put before it. */
  ghost predicate Moves(p: Pass, h: seq<string>) {
    && Counted(p.mem, p.issued) && Counted(p.saved, p.issued)
    && h <= p.mem.preheated && h <= p.saved.preheated
  }

  ghost function MoveFlow(h: seq<string>, issued: seq<Issue>): Flow -> bool {
    (f: Flow) =>
      && issued <= f.p.issued
      && (if f.Next? then Moves(f.p, h)
          else f.end in {LostWrite, LostMove} || (Counted(f.p.saved, f.p.issued) && h <= f.p.saved.preheated))
  }

  lemma AttemptsMove(cfg: Config, fails: Faults, removal: Removal, h: seq<string>, issued: seq<Issue>,
                     tried: set<string>)
    ensures Kept(MoveFlow(h, issued), cfg, fails, removal, tried)
  {
    var inv := MoveFlow(h, issued);
    forall p: Pass, n: string | inv(Next(p)) && n in tried ensures inv(TryNode(p, cfg, fails, n, removal).flow) {
      AttemptOutcome(p, cfg, fails, n, removal);
    }
  }

  lemma WorkMoves(p: Pass, cfg: Config, o: Observation, h: seq<string>)
    requires o.selection.Selected? && Moves(p, h)
    ensures MoveFlow(h, p.issued)(Work(p, cfg, o))
  {
    var inv, primers := MoveFlow(h, p.issued), o.selection.primers;
    var f := Fill(p, o, o.selection.targets);
    assert inv(f);
    if f.Next? {
      PrimersMove(f.p, cfg, o, primers, h, p.issued);
      var g := SchedulePrimers(f.p, cfg, o, primers);
      if g.Next? {
        DispatchMoves(g.p, cfg, o, h, p.issued);
      }
    }
  }

  lemma PrimersMove(p: Pass, cfg: Config, o: Observation, primers: seq<string>, h: seq<string>, issued: seq<Issue>)
    requires Moves(p, h) && issued <= p.issued
    ensures MoveFlow(h, issued)(SchedulePrimers(p, cfg, o, primers))
  {
    var inv := MoveFlow(h, issued);
    AttemptsMove(cfg, o.fails, ByPrimer, h, issued, Elements(primers));
    assert inv(Next(p));
    PrimerLoopKeeps(inv, p, cfg, o.fails, primers, false, false, Elements(primers));
    var round := PrimerLoop(p, cfg, o.fails, primers, false, false);
    assert inv(round.flow);
    if round.flow.Next? {
      ConditionsMoveNothing(round.flow.p, o.fails, primers, round.scheduled, round.running, h);
    }
  }

  lemma ConditionsMoveNothing(p: Pass, fails: Faults, primers: seq<string>, scheduled: bool, running: bool,
                              h: seq<string>)
    requires Moves(p, h)
    ensures var q := PrimerConditions(p, fails, primers, scheduled, running);
            Moves(q, h) && q.issued == p.issued
  {
  }

  lemma DispatchMoves(p: Pass, cfg: Config, o: Observation, h: seq<string>, issued: seq<Issue>)
    requires Moves(p, h) && issued <= p.issued
    ensures MoveFlow(h, issued)(Dispatch(p, cfg, o))
  {
    var inv, waiting := MoveFlow(h, issued), Elements(p.mem.waiting);
    AttemptsMove(cfg, o.fails, ByIndex, h, issued, waiting);
    AttemptsMove(cfg, o.fails, IfPresent, h, issued, waiting);
    assert inv(Next(p));
    DispatchNodesKeeps(inv, p, cfg, o.fails, waiting);
    assert inv(DispatchNodes(p, cfg, o.fails).flow);
  }

  lemma {:induction false} ScanLoopMoves(p: Pass, fails: Faults, listing: seq<Job>, h: seq<string>, hash: Hash,
                                         v: string, seen: set<string>)
    requires Moves(p, h) && GoodPass(p, hash, v, seen)
    requires forall j :: j in listing && j.succeeded ==> Succeeded(p.jobs, hash, j.node, v)
    ensures Moves(ScanLoop(p, fails, listing).p, h)
    decreases |listing|
  {
    if listing != [] {
      var job := listing[0];
      SeenIsGood(p.mem, job, p.jobs, hash, v, seen);
      if job.succeeded && job.node in p.mem.warming {
        CutFirstMembers(p.mem.warming, job.node);
      }
      var q := p.(mem := Seen(p.mem, job));
      assert Moves(q, h) && GoodPass(q, hash, v, seen);
      ScanLoopMoves(if q == p then p else Write(q, fails), fails, listing[1..], h, hash, v, seen);
    }
  }

  lemma ScanMoves(p: Pass, o: Observation, h: seq<string>, hash: Hash, v: string, seen: set<string>)
    requires Moves(p, h) && GoodPass(p, hash, v, seen) && HonestListing(o)
    ensures Moves(Scan(p, o, v).p, h) && Scan(p, o, v).p.issued == p.issued
  {
    ScanIsGood(p, o, hash, v, seen);
    ScanJobs(p, o, v);
    FinishIsGood(ListsOf(p.mem), p.jobs, o.late, hash, v, seen);
    FinishIsGood(ListsOf(p.saved), p.jobs, o.late, hash, v, seen);
    var q := p.(jobs := Finish(p.jobs, o.late), clock := p.clock + 1);
    var listing := o.list(q.jobs, v);
    assert IsListing(listing, q.jobs, v);
    if listing != [] {
      ScanLoopMoves(q, o.fails, listing, h, hash, v, seen);
    }
  }

  /** One pass that does not lose the write after a Create. */
  lemma PassMoves(p: Pass, cfg: Config, o: Observation, v: string, seen: set<string>)
    requires GoodSaved(p, cfg.hash, v, seen) && Sound(o, v) && Grows(seen, o) && Counted(p.saved, p.issued)
    requires Reconcile(p, cfg, o).end !in {LostWrite, LostMove}
    ensures var q := Reconcile(p, cfg, o).p;
            Counted(q.saved, q.issued) && p.saved.preheated <= q.saved.preheated && p.issued <= q.issued
  {
    var more, h := seen + Elements(TargetsOf(o)), p.saved.preheated;
    GoodGrows(ListsOf(p.saved), p.jobs, cfg.hash, v, seen, more);
    FrontKeepsLists(p, o);
    PassIsGood(p, cfg, o, v, seen);
    var f := Front(p, o);
    if f.Stop? {
      if o.selection.Selected? && o.selection.targets == [] {
        NothingSeen(ListsOf(p.saved), p.jobs, cfg.hash, v, more);
      }
    } else {
      WorkMoves(f.p, cfg, o, h);
      WorkIsGood(f.p, cfg, o, v, more);
      var g := Work(f.p, cfg, o);
      if g.Next? {
        ScanMoves(g.p, o, h, cfg.hash, v, more);
        var k := Scan(g.p, o, v);
        if k.Next? {
          ConcludeKeepsLists(k.p, o);
        }
      }
    }
  }

  lemma StepMoves(w: World, a: Action, hash: Hash, v: string)
    requires GoodSaved(w.pass, hash, v, w.seen) && Orderly(w, a, hash, v) && Counted(w.pass.saved, w.pass.issued)
    ensures var w' := Step(w, a);
            && Counted(w'.pass.saved, w'.pass.issued)
            && w.pass.saved.preheated <= w'.pass.saved.preheated && w.pass.issued <= w'.pass.issued
  {
    if a.Reconciled? {
      PassMoves(w.pass, a.cfg, a.o, v, w.seen);
    }
  }

  /** The moves made so far: each node is dispatched once and preheated once. */
  function MovesMade(p: Pass): nat {
    |p.issued| + |p.saved.preheated|
  }

  lemma {:induction false} CountHolds(w: World, actions: seq<Action>, hash: Hash, v: string)
    requires CleanStart(w, hash, v) && w.pass.issued == [] && OrderlyRun(w, actions, hash, v)
    ensures Counted(Run(w, actions).pass.saved, Run(w, actions).pass.issued)
    decreases |actions|
  {
    if actions != [] {
      var front, last := actions[..|actions| - 1], actions[|actions| - 1];
      CountHolds(w, front, hash, v);
      PartitionHolds(w, front, hash, v);
      StepMoves(Run(w, front), last, hash, v);
    }
  }

  // ---- Coverage of what is saved ----

  ghost function HoldFlow(nodes: set<string>): Flow -> bool {
    (f: Flow) => Covers(f.p.saved, nodes) && (f.Next? ==> Covers(f.p.mem, nodes))
  }

  lemma AttemptsHold(cfg: Config, fails: Faults, removal: Removal, nodes: set<string>, tried: set<string>)
    ensures Kept(HoldFlow(nodes), cfg, fails, removal, tried)
  {
    var inv := HoldFlow(nodes);
    forall p: Pass, n: string | inv(Next(p)) && n in tried ensures inv(TryNode(p, cfg, fails, n, removal).flow) {
      AttemptOutcome(p, cfg, fails, n, removal);
      if n in p.mem.waiting {
        CutFirstMembers(p.mem.waiting, n);
      }
    }
  }

  lemma RoundHolds(p: Pass, cfg: Config, o: Observation, primers: seq<string>, nodes: set<string>)
    requires HoldFlow(nodes)(Next(p))
    ensures HoldFlow(nodes)(SchedulePrimers(p, cfg, o, primers))
  {
    var inv := HoldFlow(nodes);
    AttemptsHold(cfg, o.fails, ByPrimer, nodes, Elements(primers));
    PrimerLoopKeeps(inv, p, cfg, o.fails, primers, false, false, Elements(primers));
    var round := PrimerLoop(p, cfg, o.fails, primers, false, false);
    assert inv(round.flow);
    if round.flow.Next? {
      ConditionsHold(round.flow.p, o.fails, primers, round.scheduled, round.running, nodes);
    }
  }

  lemma ConditionsHold(p: Pass, fails: Faults, primers: seq<string>, scheduled: bool, running: bool, nodes: set<string>)
    requires HoldFlow(nodes)(Next(p))
    ensures HoldFlow(nodes)(Next(PrimerConditions(p, fails, primers, scheduled, running)))
  {
    var q := PrimerConditions(p, fails, primers, scheduled, running);
    assert ListsOf(q.mem) == ListsOf(p.mem)
           && (ListsOf(q.saved) == ListsOf(p.mem) || ListsOf(q.saved) == ListsOf(p.saved));
  }

  lemma DispatchHolds(p: Pass, cfg: Config, o: Observation, nodes: set<string>)
    requires HoldFlow(nodes)(Next(p)) && cfg.parallelism <= 0
    ensures HoldFlow(nodes)(Dispatch(p, cfg, o))
  {
    var inv, waiting := HoldFlow(nodes), Elements(p.mem.waiting);
    AttemptsHold(cfg, o.fails, ByIndex, nodes, waiting);
    AttemptsHold(cfg, o.fails, IfPresent, nodes, waiting);
    assert p.mem.waiting[0..] == p.mem.waiting;
    DispatchNodesKeeps(inv, p, cfg, o.fails, waiting);
    assert inv(DispatchNodes(p, cfg, o.fails).flow);
  }

  /** Behind the fill all targets are covered too, in memory and saved. */
  lemma WorkHolds(p: Pass, cfg: Config, o: Observation, nodes: set<string>)
    requires o.selection.Selected? && ListsOf(p.mem) == ListsOf(p.saved) && Covers(p.saved, nodes)
             && cfg.parallelism <= 0
    ensures var f := Work(p, cfg, o);
            && HoldFlow(nodes)(f)
            && (f.Next? ==> HoldFlow(nodes + Elements(o.selection.targets))(f))
  {
    var targets := o.selection.targets;
    FilledFacts(p.mem.waiting, targets, p.mem.warming, p.mem.preheated);
    var f := Fill(p, o, targets);
    if f.Next? {
      var all := nodes + Elements(targets);
      RoundHolds(f.p, cfg, o, o.selection.primers, all);
      var g := SchedulePrimers(f.p, cfg, o, o.selection.primers);
      if g.Next? {
        DispatchHolds(g.p, cfg, o, all);
      }
    }
  }

  lemma {:induction false} ScanLoopHolds(p: Pass, fails: Faults, listing: seq<Job>, nodes: set<string>)
    requires Covers(p.mem, nodes) && Covers(p.saved, nodes)
    ensures Covers(ScanLoop(p, fails, listing).p.mem, nodes) && Covers(ScanLoop(p, fails, listing).p.saved, nodes)
    decreases |listing|
  {
    if listing != [] {
      var job := listing[0];
      if job.succeeded && job.node in p.mem.warming {
        CutFirstMembers(p.mem.warming, job.node);
      }
      var q := p.(mem := Seen(p.mem, job));
      assert Covers(q.mem, nodes);
      ScanLoopHolds(if q == p then p else Write(q, fails), fails, listing[1..], nodes);
    }
  }

  lemma CloseHolds(p: Pass, o: Observation, v: string, nodes: set<string>)
    requires Covers(p.mem, nodes) && Covers(p.saved, nodes)
    ensures Covers(Close(p, o, v).p.saved, nodes)
  {
    var q := p.(jobs := Finish(p.jobs, o.late), clock := p.clock + 1);
    ScanLoopHolds(q, o.fails, o.list(q.jobs, v), nodes);
    var f := Scan(p, o, v);
    if f.Next? {
      ConcludeKeepsLists(f.p, o);
    }
  }

  /** Without a batch, however a pass ends, no node drops out of the saved lists; and a pass that comes to its end has
      every target on them. */
  lemma PassHolds(p: Pass, cfg: Config, o: Observation, nodes: set<string>)
    requires cfg.parallelism <= 0 && !o.disabled && (o.selection.Selected? && o.selection.targets == [] ==> nodes == {})
    requires Covers(p.saved, nodes)
    ensures var f := Reconcile(p, cfg, o);
            && Covers(f.p.saved, nodes)
            && (f.end == Pending || f.end == Completed ==> Covers(f.p.saved, Elements(TargetsOf(o))))
  {
    FrontKeepsLists(p, o);
    var f := Front(p, o);
    if f.Next? {
      WorkHolds(f.p, cfg, o, nodes);
      WorkEnds(f.p, cfg, o);
      var g := Work(f.p, cfg, o);
      if g.Next? {
        CloseHolds(g.p, o, o.release.value.desired, nodes + Elements(TargetsOf(o)));
      }
    }
  }

  // ---- A batch with guards ----

  /** In memory and saved the lists are the same. */
  ghost predicate Synced(p: Pass) {
    ListsOf(p.saved) == ListsOf(p.mem)
  }

  ghost function SyncFlow(): Flow -> bool {
    (f: Flow) => f.Next? ==> Synced(f.p)
  }

  lemma AttemptsSync(cfg: Config, fails: Faults, removal: Removal, tried: set<string>)
    ensures Kept(SyncFlow(), cfg, fails, removal, tried)
  {
    var inv := SyncFlow();
    forall p: Pass, n: string | inv(Next(p)) && n in tried ensures inv(TryNode(p, cfg, fails, n, removal).flow) {
      AttemptOutcome(p, cfg, fails, n, removal);
    }
  }

  /** A batch of nodes without jobs that comes through has saved the list from which it was popped. */
  lemma BatchSyncs(p: Pass, cfg: Config, fails: Faults, v: string)
    requires Synced(p) && p.mem.versions.desired == v && cfg.parallelism > 0 && cfg.batching.WithGuards?
    requires forall n :: n in p.mem.waiting ==> !HasJob(p.jobs, cfg.hash, n, v) && !Skipped(p.mem, n)
    ensures SyncFlow()(DispatchNodes(p, cfg, fails).flow)
  {
    var w := p.mem.waiting;
    var k := BatchSize(cfg, w);
    var q, batch := p.(mem := p.mem.(waiting := w[k..])), w[..k];
    if w == [] {
      assert w[0..] == w;
    } else {
      assert batch[0] == w[0] && w[0] in w;
      var a := TryNode(q, cfg, fails, batch[0], IfPresent);
      AttemptOutcome(q, cfg, fails, batch[0], IfPresent);
      if a.flow.Next? {
        AttemptsSync(cfg, fails, IfPresent, Elements(batch[1..]));
        BatchKeeps(SyncFlow(), a.flow.p, cfg, fails, batch[1..], IfPresent, Elements(batch[1..]));
      }
    }
  }

  lemma DispatchSyncs(p: Pass, cfg: Config, o: Observation, v: string, seen: set<string>)
    requires Synced(p) && GoodPass(p, cfg.hash, v, seen) && cfg.parallelism > 0 && cfg.batching.WithGuards?
    ensures SyncFlow()(Dispatch(p, cfg, o))
  {
    BatchSyncs(p, cfg, o.fails, v);
  }

  lemma RoundSyncs(p: Pass, cfg: Config, o: Observation, primers: seq<string>)
    requires Synced(p)
    ensures SyncFlow()(SchedulePrimers(p, cfg, o, primers))
  {
    AttemptsSync(cfg, o.fails, ByPrimer, Elements(primers));
    PrimerLoopKeeps(SyncFlow(), p, cfg, o.fails, primers, false, false, Elements(primers));
    var r := PrimerLoop(p, cfg, o.fails, primers, false, false);
    assert SyncFlow()(r.flow);
    ConditionsKeepLists(r.flow.p, o.fails, primers, r.scheduled, r.running);
  }

  /** In a good state a node that has a job is on a list, so what leaves the waiting list does not drop out. */
  lemma AccountedIsCovered(p: Pass, q: Pass, hash: Hash, v: string, tried: set<string>, seen: set<string>,
                           nodes: set<string>)
    requires Extends(p, q, hash, v, tried) && Accounts(p, q, hash, v) && GoodPass(q, hash, v, seen)
             && Covers(p.mem, nodes)
    ensures Covers(q.mem, nodes)
  {
  }

  lemma GuardedWorkHolds(p: Pass, cfg: Config, o: Observation, v: string, seen: set<string>, nodes: set<string>)
    requires o.selection.Selected? && WellSelected(o) && Elements(o.selection.targets) <= seen
    requires GoodPass(p, cfg.hash, v, seen) && Synced(p) && Covers(p.mem, nodes)
    requires cfg.parallelism > 0 && cfg.batching.WithGuards?
    ensures var f := Work(p, cfg, o);
            f.Next? ==> Synced(f.p) && Covers(f.p.mem, nodes + Elements(o.selection.targets))
  {
    var targets, primers := o.selection.targets, o.selection.primers;
    FilledFacts(p.mem.waiting, targets, p.mem.warming, p.mem.preheated);
    FillIsGood(p, o, cfg.hash, targets, v, seen);
    var f := Fill(p, o, targets);
    if f.Next? {
      var all := nodes + Elements(targets);
      RoundSyncs(f.p, cfg, o, primers);
      PrimersCover(f.p, cfg, o, primers, all);
      PrimersAreGood(f.p, cfg, o, primers, v, seen, Elements(targets));
      var g := SchedulePrimers(f.p, cfg, o, primers);
      if g.Next? {
        DispatchIsGood(g.p, cfg, o, v, seen);
        DispatchSyncs(g.p, cfg, o, v, seen);
        DispatchExtends(g.p, cfg, o, v);
        var h := Dispatch(g.p, cfg, o);
        if h.Next? {
          AccountedIsCovered(g.p, h.p, cfg.hash, v, Elements(g.p.mem.waiting), seen, all);
        }
      }
    }
  }

  /** A pass with guards that comes to its end keeps every node on the saved lists. */
  lemma GuardedPassHolds(p: Pass, cfg: Config, o: Observation, v: string, seen: set<string>)
    requires GoodSaved(p, cfg.hash, v, seen) && Sound(o, v) && Grows(seen, o) && Covers(p.saved, seen)
    requires cfg.parallelism > 0 && cfg.batching.WithGuards?
    requires Reconcile(p, cfg, o).end in {AlreadyComplete, Pending, Completed}
    ensures Covers(Reconcile(p, cfg, o).p.saved, seen)
  {
    var more := seen + Elements(TargetsOf(o));
    FrontKeepsLists(p, o);
    var f := Front(p, o);
    if f.Next? {
      GoodGrows(ListsOf(p.saved), p.jobs, cfg.hash, v, seen, more);
      GuardedWorkHolds(f.p, cfg, o, v, more, seen);
      WorkEnds(f.p, cfg, o);
      var g := Work(f.p, cfg, o);
      if g.Next? {
        CloseHolds(g.p, o, v, seen);
      }
    }
  }

  // ---- The measure ----

  /** What is still to do: two moves for a waiting node, one for a warming one. */
  function Outstanding(s: Status): nat {
    2 * |s.waiting| + |s.warming|
  }

  ghost predicate Measured(w: World, hash: Hash, v: string) {
    GoodSaved(w.pass, hash, v, w.seen) && Counted(w.pass.saved, w.pass.issued) && Covers(w.pass.saved, w.seen)
  }

  lemma MeasureIs(w: World, hash: Hash, v: string)
    requires Measured(w, hash, v)
    ensures Outstanding(w.pass.saved) == 2 * |w.seen| - MovesMade(w.pass)
  {
    ListSizes(ListsOf(w.pass.saved), w.seen);
  }

  /** The measure starts to count with the first pass without a batch that comes to its end. */
  lemma MeasureStarts(w: World, a: Action, hash: Hash, v: string)
    requires GoodSaved(w.pass, hash, v, w.seen) && Counted(w.pass.saved, w.pass.issued) && Orderly(w, a, hash, v)
    requires a.Reconciled? && a.cfg.parallelism <= 0 && a.o.selection.Selected?
    requires Reconcile(w.pass, a.cfg, a.o).end in {Pending, Completed}
    ensures Measured(Step(w, a), hash, v)
  {
    StepIsGood(w, a, hash, v);
    StepMoves(w, a, hash, v);
    PassHolds(w.pass, a.cfg, a.o, {});
  }

  /** A step that adds no target: a pass without a batch, however it ends, or one with guards that comes to its end. */
  ghost predicate Fixed(w: World, a: Action) {
    a.Reconciled? ==>
      && Elements(TargetsOf(a.o)) <= w.seen
      && (a.cfg.parallelism <= 0
          || (a.cfg.batching.WithGuards?
              && Reconcile(w.pass, a.cfg, a.o).end in {AlreadyComplete, Pending, Completed}))
  }

  ghost predicate FixedRun(w: World, actions: seq<Action>) {
    actions != [] ==>
      && FixedRun(w, actions[..|actions| - 1])
      && Fixed(Run(w, actions[..|actions| - 1]), actions[|actions| - 1])
  }

  /** On a fixed set of targets every step lowers the measure by exactly the moves that it makes: it never rises, and it
      drops with every dispatch and every preheating. */
  lemma StepLowersMeasure(w: World, a: Action, hash: Hash, v: string)
    requires Measured(w, hash, v) && Orderly(w, a, hash, v) && Fixed(w, a)
    ensures var w' := Step(w, a);
            && Measured(w', hash, v) && w'.seen == w.seen
            && Outstanding(w'.pass.saved) == Outstanding(w.pass.saved) - (MovesMade(w'.pass) - MovesMade(w.pass))
            && w.pass.issued <= w'.pass.issued && w.pass.saved.preheated <= w'.pass.saved.preheated
  {
    StepIsGood(w, a, hash, v);
    StepMoves(w, a, hash, v);
    StepHolds(w, a, hash, v);
    MeasureIs(w, hash, v);
    MeasureIs(Step(w, a), hash, v);
  }

  lemma StepHolds(w: World, a: Action, hash: Hash, v: string)
    requires Measured(w, hash, v) && Orderly(w, a, hash, v) && Fixed(w, a)
    ensures Covers(Step(w, a).pass.saved, w.seen) && Step(w, a).seen == w.seen
  {
    if a.Reconciled? {
      if a.cfg.parallelism <= 0 {
        PassHolds(w.pass, a.cfg, a.o, w.seen);
      } else {
        GuardedPassHolds(w.pass, a.cfg, a.o, v, w.seen);
      }
    }
  }

  /** Over runs: what is left to do fell by the moves made. */
  lemma {:induction false} RunLowersMeasure(w: World, actions: seq<Action>, hash: Hash, v: string)
    requires Measured(w, hash, v) && OrderlyRun(w, actions, hash, v) && FixedRun(w, actions)
    ensures var w' := Run(w, actions);
            && Measured(w', hash, v) && w'.seen == w.seen
            && Outstanding(w'.pass.saved) == Outstanding(w.pass.saved) - (MovesMade(w'.pass) - MovesMade(w.pass))
    decreases |actions|
  {
    if actions != [] {
      var front, last := actions[..|actions| - 1], actions[|actions| - 1];
      RunLowersMeasure(w, front, hash, v);
      StepLowersMeasure(Run(w, front), last, hash, v);
    }
  }

  /** The bound over runs: moves made and moves to do are at most two per node ever targeted, and exactly two once the
      lists hold all those nodes. */
  lemma MovesAreBounded(w: World, actions: seq<Action>, hash: Hash, v: string)
    requires CleanStart(w, hash, v) && w.pass.issued == [] && OrderlyRun(w, actions, hash, v)
    ensures var w1 := Run(w, actions);
            var s := w1.pass.saved;
            && MovesMade(w1.pass) + Outstanding(s) <= 2 * |w1.seen|
            && (Covers(s, w1.seen) ==> MovesMade(w1.pass) + Outstanding(s) == 2 * |w1.seen|)
  {
    CountHolds(w, actions, hash, v);
    PartitionHolds(w, actions, hash, v);
    var w1 := Run(w, actions);
    ListSizes(ListsOf(w1.pass.saved), w1.seen);
  }

  lemma ListSizes(l: Lists, seen: set<string>)
    requires Disjoint(l) && Targeted(l, seen)
    ensures |l.waiting| + |l.warming| + |l.preheated| <= |seen|
    ensures (forall n :: n in seen ==> n in l.waiting || n in l.warming || n in l.preheated) ==>
              |l.waiting| + |l.warming| + |l.preheated| == |seen|
  {
    var a, b, c := Elements(l.waiting), Elements(l.warming), Elements(l.preheated);
    SizeOfElements(l.waiting);
    SizeOfElements(l.warming);
    SizeOfElements(l.preheated);
    assert |a + b| == |a| + |b|;
    assert |a + b + c| == |a + b| + |c|;
    assert a + b + c <= seen;
    SubsetSize(a + b + c, seen);
    if forall n :: n in seen ==> n in l.waiting || n in l.warming || n in l.preheated {
      assert a + b + c == seen;
    }
  }
}
