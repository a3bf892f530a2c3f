/** The primer gate: with a fixed set of primers, no other node gets a pull job before every primer's job has
    succeeded. */
module PrimerGate {
  import opened Conditions
  import opened NodeLists
  import opened PullJobs
  import opened Passes
  import opened FrontFacts
  import opened IssueFacts
  import opened Runs
  import opened Completion
  import opened Partition

  // ---- What the primer loop finds ----

  ghost predicate AllHaveJobs(primers: seq<string>, jobs: JobStore, hash: Hash, v: string) {
    forall n :: n in primers ==> HasJob(jobs, hash, n, v)
  }

  ghost predicate NoneIn(primers: seq<string>, list: seq<string>) {
    forall n :: n in primers ==> n !in list
  }

  /** An attempt that goes on creates a job exactly if there was none. */
  lemma AttemptCreates(p: Pass, cfg: Config, fails: Faults, node: string, removal: Removal, v: string)
    requires p.mem.versions.desired == v && !(node in p.mem.warming && node in p.mem.preheated)
    ensures var a := TryNode(p, cfg, fails, node, removal);
            a.flow.Next? ==> (a.created <==> !HasJob(p.jobs, cfg.hash, node, v))
  {
  }

  /** What an attempt for one node means for another. */
  lemma OtherNode(p: Pass, cfg: Config, fails: Faults, node: string, removal: Removal, v: string, other: string)
    requires p.mem.versions.desired == v && other != node
    ensures var q := TryNode(p, cfg, fails, node, removal).flow.p;
            && (HasJob(q.jobs, cfg.hash, other, v) <==> HasJob(p.jobs, cfg.hash, other, v))
            && (other in q.mem.warming <==> other in p.mem.warming)
  {
    AttemptOutcome(p, cfg, fails, node, removal);
    var more := p.jobs[JobName(cfg.hash, node, v) := Job(node, v, false)];
    if HasJob(more, cfg.hash, other, v) && !HasJob(p.jobs, cfg.hash, other, v) {
      NameDeterminesNode(cfg.hash, v, other, node);
    }
  }

  /** The two flags of the primer loop: a job was created for some primer; some primer was warming. */
  lemma {:induction false} PrimerLoopFlags(p: Pass, cfg: Config, fails: Faults, primers: seq<string>, scheduled: bool,
                                           running: bool, v: string, seen: set<string>, cover: set<string>)
    requires GoodPass(p, cfg.hash, v, seen) && Covers(p.mem, cover) && cover <= seen
    requires Elements(primers) <= cover && NoDuplicates(primers)
    ensures var round := PrimerLoop(p, cfg, fails, primers, scheduled, running);
            round.flow.Next? ==>
              && (round.scheduled <==> scheduled || !AllHaveJobs(primers, p.jobs, cfg.hash, v))
              && (round.running <==> running || !NoneIn(primers, p.mem.warming))
    decreases |primers|
  {
    if primers != [] {
      var n, rest := primers[0], primers[1..];
      var a := TryNode(p, cfg, fails, n, ByPrimer);
      assert n in Elements(primers);
      AttemptsAreGood(cfg, fails, ByPrimer, v, seen, cover, cover, true);
      assert GoodFlow(cfg.hash, v, seen, cover, true)(Next(p));
      assert GoodFlow(cfg.hash, v, seen, cover, true)(a.flow);
      if a.flow.Next? {
        AttemptCreates(p, cfg, fails, n, ByPrimer, v);
        forall x | x in rest
          ensures HasJob(a.flow.p.jobs, cfg.hash, x, v) <==> HasJob(p.jobs, cfg.hash, x, v)
          ensures x in a.flow.p.mem.warming <==> x in p.mem.warming
        {
          OtherNode(p, cfg, fails, n, ByPrimer, v, x);
        }
        assert primers == [n] + rest;
        PrimerLoopFlags(a.flow.p, cfg, fails, rest, scheduled || a.created, running || n in p.mem.warming, v, seen,
                        cover);
      }
    }
  }

  /** A round over primers that have jobs and are not warming. */
  lemma {:induction false} LoopChangesNothing(p: Pass, cfg: Config, fails: Faults, primers: seq<string>,
                                              scheduled: bool, running: bool)
    requires AllHaveJobs(primers, p.jobs, cfg.hash, p.mem.versions.desired) && NoneIn(primers, p.mem.warming)
    ensures var r := PrimerLoop(p, cfg, fails, primers, scheduled, running);
            && r.flow.p == p.(clock := r.flow.p.clock) && (r.flow.Stop? ==> r.flow.end == Failed)
            && (r.flow.Next? ==> r.scheduled == scheduled && r.running == running)
    decreases |primers|
  {
    if primers != [] {
      var a := TryNode(p, cfg, fails, primers[0], ByPrimer);
      AttemptOutcome(p, cfg, fails, primers[0], ByPrimer);
      assert primers[0] in primers && !a.created;
      assert forall n :: n in primers[1..] ==> n in primers;
      if a.flow.Next? {
        LoopChangesNothing(a.flow.p, cfg, fails, primers[1..], scheduled, running);
      }
    }
  }

  ghost function SameLists(s: Status): Flow -> bool {
    (f: Flow) => f.p.mem.conditions == s.conditions && f.p.mem.preheated == s.preheated
  }

  /** The loops write no condition and preheat no node. */
  lemma AttemptsKeepConditions(cfg: Config, fails: Faults, removal: Removal, s: Status, tried: set<string>)
    ensures Kept(SameLists(s), cfg, fails, removal, tried)
  {
    var inv := SameLists(s);
    forall p: Pass, n: string | inv(Next(p)) && n in tried ensures inv(TryNode(p, cfg, fails, n, removal).flow) {
      AttemptOutcome(p, cfg, fails, n, removal);
    }
  }

  lemma PrimerConditionsReason(p: Pass, fails: Faults, primers: seq<string>, scheduled: bool, running: bool)
    ensures var q := PrimerConditions(p, fails, primers, scheduled, running);
            PrimerReason(q.mem) == if scheduled then PRIMER_IN_PROGRESS
                                   else if running then PrimerReason(p.mem) else PRIMER_COMPLETED
  {
    var names := Join(primers, ", ");
    var q := if scheduled then
               ApplyOp(p, fails,
                       Put(PRIMER, STATUS_TRUE, PRIMER_IN_PROGRESS, "Primer nodes warming in progress: " + names))
             else p;
    PrimerPut(p, fails, STATUS_TRUE, PRIMER_IN_PROGRESS, "Primer nodes warming in progress: " + names);
    OpIsQuiet(q, fails, Warming("Following primer nodes currently warming: " + names));
    PrimerPut(q, fails, STATUS_TRUE, PRIMER_COMPLETED, "Primer nodes warming completed: " + names);
  }

  // ---- The gate in one pass ----

  /** The state in which the gate is read. */
  function AtGate(p: Pass, cfg: Config, o: Observation): Flow {
    var f := Front(p, o);
    if f.Stop? then f else
    var g := Fill(f.p, o, o.selection.targets);
    if g.Stop? then g else SchedulePrimers(g.p, cfg, o, o.selection.primers)
  }

  /** The primer reason after the primer round. */
  lemma RoundReason(p: Pass, cfg: Config, o: Observation, primers: seq<string>, v: string, seen: set<string>,
                    cover: set<string>)
    requires GoodPass(p, cfg.hash, v, seen) && Covers(p.mem, cover) && cover <= seen
    requires Elements(primers) <= cover && NoDuplicates(primers) && primers != [] && cfg.prime
    ensures var f := SchedulePrimers(p, cfg, o, primers);
            f.Next? ==>
              PrimerReason(f.p.mem) == if !AllHaveJobs(primers, p.jobs, cfg.hash, v) then PRIMER_IN_PROGRESS
                                       else if !NoneIn(primers, p.mem.warming) then PrimerReason(p.mem)
                                       else PRIMER_COMPLETED
  {
    var round := PrimerLoop(p, cfg, o.fails, primers, false, false);
    PrimerLoopFlags(p, cfg, o.fails, primers, false, false, v, seen, cover);
    AttemptsKeepConditions(cfg, o.fails, ByPrimer, p.mem, Elements(primers));
    PrimerLoopKeeps(SameLists(p.mem), p, cfg, o.fails, primers, false, false, Elements(primers));
    assert SameLists(p.mem)(round.flow);
    if round.flow.Next? {
      PrimerConditionsReason(round.flow.p, o.fails, primers, round.scheduled, round.running);
    }
  }

  /** Exactly when the gate is open in a pass from a good state: all primers are preheated, or the saved primer
      reason was already Completed or Skipped and every primer has a job. In the second case a primer may still be
      warming. */
  lemma GateOpensWhen(p: Pass, cfg: Config, o: Observation, v: string, seen: set<string>)
    requires GoodSaved(p, cfg.hash, v, seen) && Sound(o, v) && cfg.prime
    requires o.selection.Selected? && o.selection.primers != [] && Elements(o.selection.targets) <= seen
    ensures var f, primers := AtGate(p, cfg, o), o.selection.primers;
            f.Next? ==>
              (GateOpen(f.p.mem) <==>
                 AllIn(primers, p.saved.preheated) || (GateOpen(p.saved) && AllHaveJobs(primers, p.jobs, cfg.hash, v)))
  {
    FrontKeepsLists(p, o);
    var f, primers := Front(p, o), o.selection.primers;
    if f.Next? {
      FillIsGood(f.p, o, cfg.hash, o.selection.targets, v, seen);
      var g := Fill(f.p, o, o.selection.targets);
      if g.Next? {
        assert Elements(primers) <= Elements(o.selection.targets);
        RoundReason(g.p, cfg, o, primers, v, seen, Elements(o.selection.targets));
        assert primers[0] in primers;
      }
    }
  }

  // ---- Runs with a fixed set of primers ----

  /** What the primer reason promises about the lists next to it. */
  ghost predicate Promises(s: Status, primers: set<string>) {
    && PrimerReason(s) != PRIMER_SKIPPED
    && (PrimerReason(s) == PRIMER_COMPLETED ==> forall n :: n in primers ==> n in s.preheated)
  }

  /** No node besides the primers has a job of this release unless every primer's job has succeeded. */
  ghost predicate PrimersFirst(jobs: JobStore, hash: Hash, v: string, primers: set<string>) {
    (exists n :: n !in primers && HasJob(jobs, hash, n, v)) ==> forall n :: n in primers ==> Succeeded(jobs, hash, n, v)
  }

  ghost predicate Promising(p: Pass, primers: set<string>) {
    Promises(p.mem, primers) && Promises(p.saved, primers)
  }

  ghost function PromiseFlow(primers: set<string>): Flow -> bool {
    (f: Flow) => Promising(f.p, primers)
  }

  lemma AttemptsPromise(cfg: Config, fails: Faults, removal: Removal, primers: set<string>, tried: set<string>)
    ensures Kept(PromiseFlow(primers), cfg, fails, removal, tried)
  {
    var inv := PromiseFlow(primers);
    forall p: Pass, n: string | inv(Next(p)) && n in tried ensures inv(TryNode(p, cfg, fails, n, removal).flow) {
      AttemptOutcome(p, cfg, fails, n, removal);
    }
  }

  /** The primer set of every pass is `primers`, and priming is on. */
  ghost predicate Primes(cfg: Config, o: Observation, primers: set<string>) {
    cfg.prime && primers != {} && (o.selection.Selected? ==> Elements(o.selection.primers) == primers)
  }

  lemma RoundPromises(p: Pass, cfg: Config, o: Observation, v: string, seen: set<string>, primers: set<string>)
    requires o.selection.Selected? && WellSelected(o) && Elements(o.selection.targets) <= seen
             && Primes(cfg, o, primers)
    requires GoodPass(p, cfg.hash, v, seen) && Covers(p.mem, Elements(o.selection.targets)) && Promising(p, primers)
    ensures Promising(SchedulePrimers(p, cfg, o, o.selection.primers).p, primers)
  {
    var list := o.selection.primers;
    var targets := Elements(o.selection.targets);
    assert Elements(list) <= targets;
    AttemptsPromise(cfg, o.fails, ByPrimer, primers, primers);
    forall n | n in list ensures n in primers { assert n in Elements(list); }
    if |list| > 0 {
      PrimerLoopKeeps(PromiseFlow(primers), p, cfg, o.fails, list, false, false, primers);
      var round := PrimerLoop(p, cfg, o.fails, list, false, false);
      assert PromiseFlow(primers)(round.flow);
      if round.flow.Next? {
        PrimerLoopFlags(p, cfg, o.fails, list, false, false, v, seen, targets);
        AttemptsKeepConditions(cfg, o.fails, ByPrimer, p.mem, Elements(list));
        PrimerLoopKeeps(SameLists(p.mem), p, cfg, o.fails, list, false, false, Elements(list));
        assert SameLists(p.mem)(round.flow);
        RoundEndPromises(round, o.fails, list, p, cfg, v, seen, primers);
      }
    }
  }

  /** Neither running nor scheduled means that every primer is preheated, so the reason Completed is earned. */
  lemma RoundEndPromises(round: PrimerRound, fails: Faults, list: seq<string>, p: Pass, cfg: Config, v: string,
                         seen: set<string>, primers: set<string>)
    requires round.flow.Next? && Promising(round.flow.p, primers) && GoodPass(p, cfg.hash, v, seen)
             && Elements(list) == primers
    requires round.scheduled <==> !AllHaveJobs(list, p.jobs, cfg.hash, v)
    requires round.running <==> !NoneIn(list, p.mem.warming)
    requires round.flow.p.mem.preheated == p.mem.preheated
    ensures Promising(PrimerConditions(round.flow.p, fails, list, round.scheduled, round.running), primers)
  {
    var names := Join(list, ", ");
    var r := round.flow.p;
    PrimerPut(r, fails, STATUS_TRUE, PRIMER_IN_PROGRESS, "Primer nodes warming in progress: " + names);
    var q := if round.scheduled then
               ApplyOp(r, fails,
                       Put(PRIMER, STATUS_TRUE, PRIMER_IN_PROGRESS, "Primer nodes warming in progress: " + names))
             else r;
    OpIsQuiet(q, fails, Warming("Following primer nodes currently warming: " + names));
    PrimerPut(q, fails, STATUS_TRUE, PRIMER_COMPLETED, "Primer nodes warming completed: " + names);
    if !round.running && !round.scheduled {
      forall n | n in primers ensures n in p.mem.preheated { assert n in Elements(list) && n in list; }
    }
  }

  // ---- Jobs ----

  ghost function PrimersFirstFlow(hash: Hash, v: string, primers: set<string>): Flow -> bool {
    (f: Flow) => PrimersFirst(f.p.jobs, hash, v, primers) && (f.Next? ==> f.p.mem.versions.desired == v)
  }

  /** Primer jobs come at any time. */
  lemma PrimerAttempts(cfg: Config, fails: Faults, v: string, primers: set<string>)
    ensures Kept(PrimersFirstFlow(cfg.hash, v, primers), cfg, fails, ByPrimer, primers)
  {
    var inv := PrimersFirstFlow(cfg.hash, v, primers);
    forall p: Pass, n: string | inv(Next(p)) && n in primers ensures inv(TryNode(p, cfg, fails, n, ByPrimer).flow) {
      AttemptOutcome(p, cfg, fails, n, ByPrimer);
      var q := TryNode(p, cfg, fails, n, ByPrimer).flow.p;
      if x :| x !in primers && HasJob(q.jobs, cfg.hash, x, v) {
        OtherNode(p, cfg, fails, n, ByPrimer, v, x);
        assert HasJob(p.jobs, cfg.hash, x, v);
      }
    }
  }

  ghost predicate PrimersDone(jobs: JobStore, hash: Hash, v: string, primers: set<string>) {
    forall n :: n in primers ==> Succeeded(jobs, hash, n, v)
  }

  ghost function PrimersDoneFlow(hash: Hash, v: string, primers: set<string>): Flow -> bool {
    (f: Flow) => PrimersDone(f.p.jobs, hash, v, primers)
  }

  lemma AttemptsAfterPrimers(cfg: Config, fails: Faults, removal: Removal, v: string, primers: set<string>,
                             tried: set<string>)
    ensures Kept(PrimersDoneFlow(cfg.hash, v, primers), cfg, fails, removal, tried)
  {
    var inv := PrimersDoneFlow(cfg.hash, v, primers);
    forall p: Pass, n: string | inv(Next(p)) && n in tried ensures inv(TryNode(p, cfg, fails, n, removal).flow) {
      AttemptOutcome(p, cfg, fails, n, removal);
    }
  }

  /** Behind an open gate every primer has succeeded. */
  lemma DispatchAfterPrimers(p: Pass, cfg: Config, o: Observation, v: string, seen: set<string>, primers: set<string>)
    requires GoodPass(p, cfg.hash, v, seen) && Promising(p, primers) && PrimersFirst(p.jobs, cfg.hash, v, primers)
    ensures var f := Dispatch(p, cfg, o);
            PrimersFirst(f.p.jobs, cfg.hash, v, primers) && Promising(f.p, primers)
  {
    if GateOpen(p.mem) {
      var waiting := Elements(p.mem.waiting);
      assert PrimersDone(p.jobs, cfg.hash, v, primers);
      DispatchKeepsDone(p, cfg, o, v, primers);
      AttemptsPromise(cfg, o.fails, ByIndex, primers, waiting);
      AttemptsPromise(cfg, o.fails, IfPresent, primers, waiting);
      DispatchNodesKeeps(PromiseFlow(primers), p, cfg, o.fails, waiting);
      var round := DispatchNodes(p, cfg, o.fails);
      assert PromiseFlow(primers)(round.flow);
      if round.flow.Next? {
        OpIsQuiet(round.flow.p, o.fails, Warming("Following nodes currently warming: " + Join(round.cells, ", ")));
      }
    }
  }

  lemma RoundKeepsOrder(p: Pass, cfg: Config, o: Observation, v: string, primers: set<string>)
    requires o.selection.Selected? && Elements(o.selection.primers) <= primers
    requires PrimersFirst(p.jobs, cfg.hash, v, primers) && p.mem.versions.desired == v
    ensures PrimersFirst(SchedulePrimers(p, cfg, o, o.selection.primers).p.jobs, cfg.hash, v, primers)
  {
    var list := o.selection.primers;
    if cfg.prime && |list| > 0 {
      PrimerAttempts(cfg, o.fails, v, primers);
      forall n | n in list ensures n in primers { assert n in Elements(list); }
      PrimerLoopKeeps(PrimersFirstFlow(cfg.hash, v, primers), p, cfg, o.fails, list, false, false, primers);
      var round := PrimerLoop(p, cfg, o.fails, list, false, false);
      assert PrimersFirstFlow(cfg.hash, v, primers)(round.flow);
    }
  }

  /** The node-list work of a pass keeps the order and the promise. */
  lemma WorkKeepsOrder(p: Pass, cfg: Config, o: Observation, v: string, seen: set<string>, primers: set<string>)
    requires o.selection.Selected? && WellSelected(o) && Elements(o.selection.targets) <= seen
             && Primes(cfg, o, primers)
    requires GoodPass(p, cfg.hash, v, seen) && Promising(p, primers) && PrimersFirst(p.jobs, cfg.hash, v, primers)
    ensures var f := Work(p, cfg, o);
            PrimersFirst(f.p.jobs, cfg.hash, v, primers) && Promising(f.p, primers)
  {
    var targets := o.selection.targets;
    FillIsGood(p, o, cfg.hash, targets, v, seen);
    var f := Fill(p, o, targets);
    if f.Next? {
      RoundPromises(f.p, cfg, o, v, seen, primers);
      RoundKeepsOrder(f.p, cfg, o, v, primers);
      assert Elements(o.selection.primers) <= Elements(targets);
      PrimersAreGood(f.p, cfg, o, o.selection.primers, v, seen, Elements(targets));
      var g := SchedulePrimers(f.p, cfg, o, o.selection.primers);
      if g.Next? {
        DispatchAfterPrimers(g.p, cfg, o, v, seen, primers);
      }
    }
  }

  lemma {:induction false} ScanLoopPromises(p: Pass, fails: Faults, listing: seq<Job>, primers: set<string>)
    requires Promising(p, primers)
    ensures Promising(ScanLoop(p, fails, listing).p, primers)
    decreases |listing|
  {
    if listing != [] {
      var q := p.(mem := Seen(p.mem, listing[0]));
      assert Promising(q, primers);
      ScanLoopPromises(if q == p then p else Write(q, fails), fails, listing[1..], primers);
    }
  }

  lemma ScanPromises(p: Pass, o: Observation, v: string, primers: set<string>)
    requires Promising(p, primers)
    ensures Promising(Scan(p, o, v).p, primers) && Scan(p, o, v).p.jobs == Finish(p.jobs, o.late)
  {
    var q := p.(jobs := Finish(p.jobs, o.late), clock := p.clock + 1);
    ScanLoopPromises(q, o.fails, o.list(q.jobs, v), primers);
    ScanLoopJobs(q, o.fails, o.list(q.jobs, v));
  }

  lemma ConcludePromises(p: Pass, o: Observation, primers: set<string>)
    requires Promising(p, primers)
    ensures Promises(Conclude(p, o).p.saved, primers)
  {
    OpIsQuiet(p, o.fails, NOT_RUNNING);
  }

  lemma FinishKeepsOrder(jobs: JobStore, names: set<string>, hash: Hash, v: string, primers: set<string>)
    requires PrimersFirst(jobs, hash, v, primers)
    ensures PrimersFirst(Finish(jobs, names), hash, v, primers)
  {
    assert forall n :: HasJob(Finish(jobs, names), hash, n, v) <==> HasJob(jobs, hash, n, v);
  }

  /** One pass, however it ends. The first conclusion speaks of the store before any job that finishes during the
      pass is counted: what was created, was created after the primers had succeeded. */
  lemma PassKeepsOrder(p: Pass, cfg: Config, o: Observation, v: string, seen: set<string>, primers: set<string>)
    requires GoodSaved(p, cfg.hash, v, seen) && Promises(p.saved, primers) && PrimersFirst(p.jobs, cfg.hash, v, primers)
    requires Sound(o, v) && Grows(seen, o) && Primes(cfg, o, primers)
    ensures PrimersFirst(IssueStage(p, cfg, o).p.jobs, cfg.hash, v, primers)
    ensures PrimersFirst(Reconcile(p, cfg, o).p.jobs, cfg.hash, v, primers)
    ensures Promises(Reconcile(p, cfg, o).p.saved, primers)
  {
    var more := seen + Elements(TargetsOf(o));
    GoodGrows(ListsOf(p.saved), p.jobs, cfg.hash, v, seen, more);
    FrontKeepsLists(p, o);
    PrimersAreTargets(cfg, o, primers);
    var f := Front(p, o);
    if f.Next? {
      assert AllIn(o.selection.primers, p.saved.preheated) ==> forall n :: n in primers ==> n in p.saved.preheated by {
        forall n | n in primers ensures n in o.selection.primers { assert n in Elements(o.selection.primers); }
      }
      WorkKeepsOrder(f.p, cfg, o, v, more, primers);
      var g := Work(f.p, cfg, o);
      if g.Next? {
        ScanPromises(g.p, o, v, primers);
        FinishKeepsOrder(g.p.jobs, o.late, cfg.hash, v, primers);
        var h := Scan(g.p, o, v);
        if h.Next? {
          ConcludePromises(h.p, o, primers);
          ConcludeKeepsLists(h.p, o);
        }
      }
    }
  }

  lemma PrimersAreTargets(cfg: Config, o: Observation, primers: set<string>)
    requires Primes(cfg, o, primers) && WellSelected(o)
    ensures o.selection.Selected? ==> o.selection.primers != [] && o.selection.targets != []
    ensures o.selection.Selected? ==> forall n :: n in primers <==> n in o.selection.primers
  {
    if o.selection.Selected? {
      assert primers == Elements(o.selection.primers);
      var n :| n in primers;
      assert n in o.selection.primers && n in o.selection.targets;
    }
  }

  // ---- Whole runs ----

  ghost predicate AlwaysPrimes(actions: seq<Action>, primers: set<string>) {
    forall i :: 0 <= i < |actions| && actions[i].Reconciled? ==> Primes(actions[i].cfg, actions[i].o, primers)
  }

  /** The state of the runs below: either the primers are done, or the order so far and the promise hold. */
  ghost predicate Ordered(w: World, hash: Hash, v: string, primers: set<string>) {
    || PrimersDone(w.pass.jobs, hash, v, primers)
    || (GoodSaved(w.pass, hash, v, w.seen) && Promises(w.pass.saved, primers)
        && PrimersFirst(w.pass.jobs, hash, v, primers))
  }

  /** What a job store has of this release, a later one has. */
  lemma WorkKeepsDone(p: Pass, cfg: Config, o: Observation, v: string, primers: set<string>)
    requires o.selection.Selected? && PrimersDone(p.jobs, cfg.hash, v, primers)
    ensures PrimersDone(Work(p, cfg, o).p.jobs, cfg.hash, v, primers)
  {
    var inv, list := PrimersDoneFlow(cfg.hash, v, primers), o.selection.primers;
    var f := Fill(p, o, o.selection.targets);
    if f.Next? {
      AttemptsAfterPrimers(cfg, o.fails, ByPrimer, v, primers, Elements(list));
      PrimerLoopKeeps(inv, f.p, cfg, o.fails, list, false, false, Elements(list));
      assert inv(PrimerLoop(f.p, cfg, o.fails, list, false, false).flow);
      var g := SchedulePrimers(f.p, cfg, o, list);
      if g.Next? {
        DispatchKeepsDone(g.p, cfg, o, v, primers);
      }
    }
  }

  lemma DispatchKeepsDone(p: Pass, cfg: Config, o: Observation, v: string, primers: set<string>)
    requires PrimersDone(p.jobs, cfg.hash, v, primers)
    ensures PrimersDone(Dispatch(p, cfg, o).p.jobs, cfg.hash, v, primers)
  {
    var inv, waiting := PrimersDoneFlow(cfg.hash, v, primers), Elements(p.mem.waiting);
    AttemptsAfterPrimers(cfg, o.fails, ByIndex, v, primers, waiting);
    AttemptsAfterPrimers(cfg, o.fails, IfPresent, v, primers, waiting);
    DispatchNodesKeeps(inv, p, cfg, o.fails, waiting);
    assert inv(DispatchNodes(p, cfg, o.fails).flow);
  }

  lemma RestKeepsDone(p: Pass, cfg: Config, o: Observation, v: string, primers: set<string>)
    requires o.selection.Selected? && o.release.Ok? && o.release.value.desired == v
    requires PrimersDone(Work(p, cfg, o).p.jobs, cfg.hash, v, primers)
    ensures PrimersDone(Rest(p, cfg, o).p.jobs, cfg.hash, v, primers)
  {
    var g := Work(p, cfg, o);
    if g.Next? {
      ScanJobs(g.p, o, v);
    }
  }

  lemma PassKeepsDone(p: Pass, cfg: Config, o: Observation, v: string, primers: set<string>)
    requires PrimersDone(p.jobs, cfg.hash, v, primers) && Asks(o, v)
    ensures PrimersDone(IssueStage(p, cfg, o).p.jobs, cfg.hash, v, primers)
    ensures PrimersDone(Reconcile(p, cfg, o).p.jobs, cfg.hash, v, primers)
  {
    FrontKeepsLists(p, o);
    var f := Front(p, o);
    if f.Next? {
      WorkKeepsDone(f.p, cfg, o, v, primers);
      RestKeepsDone(f.p, cfg, o, v, primers);
    }
  }

  /** Only the dispatch looks at the parallelism. */
  lemma {:induction false} PrimersIgnoreParallelism(p: Pass, cfg: Config, fails: Faults, list: seq<string>,
                                                    scheduled: bool, running: bool)
    ensures PrimerLoop(p, cfg, fails, list, scheduled, running)
         == PrimerLoop(p, cfg.(parallelism := 0), fails, list, scheduled, running)
    decreases |list|
  {
    if list != [] {
      var a := TryNode(p, cfg, fails, list[0], ByPrimer);
      assert a == TryNode(p, cfg.(parallelism := 0), fails, list[0], ByPrimer);
      if a.flow.Next? {
        PrimersIgnoreParallelism(a.flow.p, cfg, fails, list[1..], scheduled || a.created,
                                 running || list[0] in p.mem.warming);
      }
    }
  }

  /** Before an open gate the primers are done; behind a closed one the parallelism does not matter. */
  lemma WorkAtGate(p: Pass, cfg: Config, o: Observation, v: string, seen: set<string>, primers: set<string>)
    requires o.selection.Selected? && WellSelected(o) && Elements(o.selection.targets) <= seen
             && Primes(cfg, o, primers)
    requires GoodPass(p, cfg.hash, v, seen) && Promising(p, primers)
    ensures Work(p, cfg, o) == Work(p, cfg.(parallelism := 0), o)
            || PrimersDone(Work(p, cfg, o).p.jobs, cfg.hash, v, primers)
  {
    var targets, list := o.selection.targets, o.selection.primers;
    FillIsGood(p, o, cfg.hash, targets, v, seen);
    var f := Fill(p, o, targets);
    if f.Next? {
      PrimersIgnoreParallelism(f.p, cfg, o.fails, list, false, false);
      RoundPromises(f.p, cfg, o, v, seen, primers);
      assert Elements(list) <= Elements(targets);
      PrimersAreGood(f.p, cfg, o, list, v, seen, Elements(targets));
      var g := SchedulePrimers(f.p, cfg, o, list);
      if g.Next? && GateOpen(g.p.mem) {
        assert PrimersDone(g.p.jobs, cfg.hash, v, primers);
        DispatchKeepsDone(g.p, cfg, o, v, primers);
      }
    }
  }

  /** One pass for any parallelism, as the code has it. */
  lemma PassStaysOrdered(p: Pass, cfg: Config, o: Observation, v: string, seen: set<string>, primers: set<string>)
    requires GoodSaved(p, cfg.hash, v, seen) && Promises(p.saved, primers)
    requires Sound(o, v) && Grows(seen, o) && Primes(cfg, o, primers)
    requires Reconcile(p, cfg, o) != Stop(Reconcile(p, cfg, o).p, LostWrite)
    ensures var q := Reconcile(p, cfg, o).p;
            PrimersDone(q.jobs, cfg.hash, v, primers) || GoodSaved(q, cfg.hash, v, seen + Elements(TargetsOf(o)))
  {
    var more := seen + Elements(TargetsOf(o));
    var f := Front(p, o);
    if f.Stop? {
      FrontStopIsGood(p, o, cfg.hash, v, seen);
    } else {
      GoodGrows(ListsOf(p.saved), p.jobs, cfg.hash, v, seen, more);
      FrontKeepsLists(p, o);
      PrimersAreTargets(cfg, o, primers);
      WorkAtGate(f.p, cfg, o, v, more, primers);
      if PrimersDone(Work(f.p, cfg, o).p.jobs, cfg.hash, v, primers) {
        RestKeepsDone(f.p, cfg, o, v, primers);
      } else {
        RestIsGood(f.p, cfg.(parallelism := 0), o, v, more);
        assert Rest(f.p, cfg, o) == Rest(f.p, cfg.(parallelism := 0), o);
      }
    }
  }

  lemma StepKeepsOrder(w: World, a: Action, hash: Hash, v: string, primers: set<string>)
    requires Steady(w, a, hash, v) && Ordered(w, hash, v, primers) && (a.Reconciled? ==> Primes(a.cfg, a.o, primers))
    ensures Ordered(Step(w, a), hash, v, primers)
  {
    match a
    case Reconciled(cfg, o) =>
      if PrimersDone(w.pass.jobs, hash, v, primers) {
        PassKeepsDone(w.pass, cfg, o, v, primers);
      } else {
        PassKeepsOrder(w.pass, cfg, o, v, w.seen, primers);
        PassStaysOrdered(w.pass, cfg, o, v, w.seen, primers);
      }
    case JobSucceeds(name) =>
      if !PrimersDone(w.pass.jobs, hash, v, primers) {
        FinishKeepsOrder(w.pass.jobs, {name}, hash, v, primers);
        FinishIsGood(ListsOf(w.pass.saved), w.pass.jobs, {name}, hash, v, w.seen);
      }
    case JobDisappears(_) =>
  }

  lemma {:induction false} RunKeepsOrder(w: World, actions: seq<Action>, hash: Hash, v: string, primers: set<string>)
    requires CleanStart(w, hash, v) && PrimerReason(w.pass.saved) == ""
    requires SteadyRun(w, actions, hash, v) && AlwaysPrimes(actions, primers)
    ensures Ordered(Run(w, actions), hash, v, primers)
    decreases |actions|
  {
    if actions == [] {
      ForeignJobsDoNotCollide(w.pass.jobs, hash, v);
    } else {
      var front, last := actions[..|actions| - 1], actions[|actions| - 1];
      RunKeepsOrder(w, front, hash, v, primers);
      StepKeepsOrder(Run(w, front), last, hash, v, primers);
    }
  }

  /** The main theorem on priming: in every steady run with priming on and a fixed set of primers, for every
      parallelism, as the code has it or with guards, a pass creates a job for another node only after every primer's
      job has succeeded. */
  lemma PrimersComeFirst(w: World, actions: seq<Action>, cfg: Config, o: Observation, v: string, primers: set<string>)
    requires CleanStart(w, cfg.hash, v) && PrimerReason(w.pass.saved) == ""
    requires SteadyRun(w, actions, cfg.hash, v) && AlwaysPrimes(actions, primers)
    requires Sound(o, v) && Grows(Run(w, actions).seen, o) && Primes(cfg, o, primers)
    ensures PrimersFirst(Run(w, actions).pass.jobs, cfg.hash, v, primers)
    ensures PrimersFirst(IssueStage(Run(w, actions).pass, cfg, o).p.jobs, cfg.hash, v, primers)
  {
    RunKeepsOrder(w, actions, cfg.hash, v, primers);
    var w1 := Run(w, actions);
    if PrimersDone(w1.pass.jobs, cfg.hash, v, primers) {
      PassKeepsDone(w1.pass, cfg, o, v, primers);
    } else {
      PassKeepsOrder(w1.pass, cfg, o, v, w1.seen, primers);
    }
  }
}
