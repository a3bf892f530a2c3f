/** Completion: what it means when a pass writes LastCompletedVersion, although the code compares only the
    lengths of two lists. */
module Completion {
  import opened NodeLists
  import opened PullJobs
  import opened Passes
  import opened FrontFacts
  import opened IssueFacts
  import opened Runs

  /** The lists hold targeted nodes, and only nodes in `done` count as preheated, each once. */
  ghost predicate Within(s: Status, seen: set<string>, done: set<string>) {
    && (forall n :: n in s.waiting ==> n in seen)
    && (forall n :: n in s.warming ==> n in seen)
    && (forall n :: n in s.preheated ==> n in seen && n in done)
    && NoDuplicates(s.preheated)
  }

  ghost predicate JobsWithin(jobs: JobStore, v: string, seen: set<string>) {
    forall k :: k in jobs && jobs[k].release == v ==> jobs[k].node in seen
  }

  /** The state of a pass between the front part and its end. `c` is the completed version so far. */
  ghost predicate Sane(p: Pass, v: string, seen: set<string>, done: set<string>, targets: seq<string>, c: string) {
    && Within(p.mem, seen, done) && Within(p.saved, seen, done) && JobsWithin(p.jobs, v, seen)
    && p.mem.versions.target == v && p.mem.versions.desired == v && p.mem.selected == targets
    && p.mem.versions.lastCompleted == c && p.saved.versions.lastCompleted == c
  }

  lemma MovedIsWithin(s: Status, node: string, seen: set<string>, done: set<string>)
    requires Within(s, seen, done) && node in seen
    ensures Within(s.(warming := s.warming + [node]), seen, done)
    ensures Within(s.(warming := s.warming + [node], waiting := Remaining(s.waiting, node)), seen, done)
  {
    if node in s.waiting {
      CutFirstMembers(s.waiting, node);
    }
  }

  lemma AttemptIsSane(p: Pass, cfg: Config, fails: Faults, node: string, removal: Removal, v: string,
                      seen: set<string>, done: set<string>, targets: seq<string>, c: string)
    requires Sane(p, v, seen, done, targets, c) && node in seen
    ensures Sane(TryNode(p, cfg, fails, node, removal).flow.p, v, seen, done, targets, c)
  {
    AttemptOutcome(p, cfg, fails, node, removal);
    MovedIsWithin(p.mem, node, seen, done);
  }

  ghost function SaneFlow(v: string, seen: set<string>, done: set<string>, targets: seq<string>,
                          c: string): Flow -> bool {
    (f: Flow) => Sane(f.p, v, seen, done, targets, c)
  }

  lemma AttemptsAreSane(cfg: Config, fails: Faults, removal: Removal, v: string, seen: set<string>, done: set<string>,
                        targets: seq<string>, c: string)
    ensures Kept(SaneFlow(v, seen, done, targets, c), cfg, fails, removal, seen)
  {
    var inv := SaneFlow(v, seen, done, targets, c);
    forall p: Pass, n: string | inv(Next(p)) && n in seen ensures inv(TryNode(p, cfg, fails, n, removal).flow) {
      AttemptIsSane(p, cfg, fails, n, removal, v, seen, done, targets, c);
    }
  }

  lemma {:induction false} FilledFacts(waiting: seq<string>, targets: seq<string>, warming: seq<string>,
                                       preheated: seq<string>)
    ensures var r := Filled(waiting, targets, warming, preheated);
            && (forall n :: n in waiting ==> n in r)
            && (forall n :: n in r ==> n in waiting || (n in targets && n !in warming && n !in preheated))
            && (forall n :: n in targets ==> n in r || n in warming || n in preheated)
            && (NoDuplicates(waiting) ==> NoDuplicates(r))
    decreases |targets|
  {
    if targets != [] {
      var n := targets[0];
      var more := if n !in warming && n !in preheated && n !in waiting then waiting + [n] else waiting;
      FilledFacts(more, targets[1..], warming, preheated);
      assert targets == [n] + targets[1..];
    }
  }

  lemma FillIsSane(p: Pass, o: Observation, v: string, seen: set<string>, done: set<string>, targets: seq<string>,
                   c: string)
    requires Sane(p, v, seen, done, targets, c) && Elements(targets) <= seen
    ensures Sane(Fill(p, o, targets).p, v, seen, done, targets, c)
  {
    FilledFacts(p.mem.waiting, targets, p.mem.warming, p.mem.preheated);
    forall n | n in targets ensures n in seen { assert n in Elements(targets); }
  }

  lemma PrimerConditionsAreSane(p: Pass, fails: Faults, primers: seq<string>, scheduled: bool, running: bool, v: string,
                                seen: set<string>, done: set<string>, targets: seq<string>, c: string)
    requires Sane(p, v, seen, done, targets, c)
    ensures Sane(PrimerConditions(p, fails, primers, scheduled, running), v, seen, done, targets, c)
  {
  }

  lemma PrimersAreSane(p: Pass, cfg: Config, o: Observation, primers: seq<string>, v: string, seen: set<string>,
                       done: set<string>, targets: seq<string>, c: string)
    requires Sane(p, v, seen, done, targets, c) && forall n :: n in primers ==> n in seen
    ensures Sane(SchedulePrimers(p, cfg, o, primers).p, v, seen, done, targets, c)
  {
    AttemptsAreSane(cfg, o.fails, ByPrimer, v, seen, done, targets, c);
    if cfg.prime && |primers| > 0 {
      PrimerLoopKeeps(SaneFlow(v, seen, done, targets, c), p, cfg, o.fails, primers, false, false, seen);
      var round := PrimerLoop(p, cfg, o.fails, primers, false, false);
      assert Sane(round.flow.p, v, seen, done, targets, c);
      PrimerConditionsAreSane(round.flow.p, o.fails, primers, round.scheduled, round.running, v, seen, done, targets,
                              c);
    }
  }

  lemma DispatchIsSane(p: Pass, cfg: Config, o: Observation, v: string, seen: set<string>, done: set<string>,
                       targets: seq<string>, c: string)
    requires Sane(p, v, seen, done, targets, c)
    ensures Sane(Dispatch(p, cfg, o).p, v, seen, done, targets, c)
  {
    var inv := SaneFlow(v, seen, done, targets, c);
    AttemptsAreSane(cfg, o.fails, ByIndex, v, seen, done, targets, c);
    AttemptsAreSane(cfg, o.fails, IfPresent, v, seen, done, targets, c);
    forall k: nat | k <= |p.mem.waiting| ensures inv(Next(p.(mem := p.mem.(waiting := p.mem.waiting[k..])))) {
      assert forall n :: n in p.mem.waiting[k..] ==> n in p.mem.waiting;
    }
    DispatchNodesKeeps(inv, p, cfg, o.fails, seen);
    var round := DispatchNodes(p, cfg, o.fails);
    assert inv(round.flow);
  }

  // ---- The scan ----

  /** What the scan of these jobs does, whatever their order: successes move to the preheated list. */
  lemma {:induction false} ScanLoopIsSane(p: Pass, fails: Faults, listing: seq<Job>, v: string, seen: set<string>,
                                          done: set<string>, targets: seq<string>, c: string)
    requires Sane(p, v, seen, done, targets, c)
    requires forall j :: j in listing && j.succeeded ==> j.node in seen && j.node in done
    ensures Sane(ScanLoop(p, fails, listing).p, v, seen, done, targets, c)
    decreases |listing|
  {
    if listing != [] {
      var job := listing[0];
      if job.succeeded && job.node in p.mem.warming {
        CutFirstMembers(p.mem.warming, job.node);
      }
      var q := p.(mem := Seen(p.mem, job));
      assert Sane(q, v, seen, done, targets, c);
      if q == p {
        ScanLoopIsSane(p, fails, listing[1..], v, seen, done, targets, c);
      } else if !fails(q.clock) {
        ScanLoopIsSane(Write(q, fails), fails, listing[1..], v, seen, done, targets, c);
      }
    }
  }

  /** A larger `done` is as good. */
  lemma SaneGrows(p: Pass, v: string, seen: set<string>, done: set<string>, more: set<string>, targets: seq<string>,
                  c: string)
    requires Sane(p, v, seen, done, targets, c) && done <= more
    ensures Sane(p, v, seen, more, targets, c)
  {
  }

  lemma ScanIsSane(p: Pass, o: Observation, v: string, seen: set<string>, done: set<string>, targets: seq<string>,
                   c: string)
    requires Sane(p, v, seen, done, targets, c) && HonestListing(o)
    ensures var q := Scan(p, o, v).p;
            && q.jobs == Finish(p.jobs, o.late)
            && Sane(q, v, seen, done + DoneIn(q.jobs, v), targets, c)
  {
    var jobs := Finish(p.jobs, o.late);
    var more := done + DoneIn(jobs, v);
    SaneGrows(p, v, seen, done, more, targets, c);
    var q := p.(jobs := jobs, clock := p.clock + 1);
    assert Sane(q, v, seen, more, targets, c);
    if !o.fails(p.clock) {
      var listing := o.list(jobs, v);
      assert IsListing(listing, jobs, v);
      ScanLoopIsSane(q, o.fails, listing, v, seen, more, targets, c);
      ScanLoopJobs(q, o.fails, listing);
    }
  }

  lemma {:induction false} ScanLoopJobs(p: Pass, fails: Faults, listing: seq<Job>)
    ensures ScanLoop(p, fails, listing).p.jobs == p.jobs && ScanLoop(p, fails, listing).p.issued == p.issued
    decreases |listing|
  {
    if listing != [] {
      var q := p.(mem := Seen(p.mem, listing[0]));
      ScanLoopJobs(if q == p then p else Write(q, fails), fails, listing[1..]);
    }
  }

  /** The scan creates nothing. */
  lemma ScanJobs(p: Pass, o: Observation, v: string)
    ensures Scan(p, o, v).p.jobs == Finish(p.jobs, o.late) && Scan(p, o, v).p.issued == p.issued
  {
    var q := p.(jobs := Finish(p.jobs, o.late), clock := p.clock + 1);
    ScanLoopJobs(q, o.fails, o.list(q.jobs, v));
  }

  // ---- Coverage: no target drops out of all three lists ----

  ghost predicate Covers(s: Status, nodes: set<string>) {
    forall n :: n in nodes ==> n in s.waiting || n in s.warming || n in s.preheated
  }

  ghost function CoverFlow(nodes: set<string>): Flow -> bool {
    (f: Flow) => f.Next? ==> Covers(f.p.mem, nodes)
  }

  lemma AttemptsCover(cfg: Config, fails: Faults, removal: Removal, nodes: set<string>, tried: set<string>)
    ensures Kept(CoverFlow(nodes), cfg, fails, removal, tried)
  {
    var inv := CoverFlow(nodes);
    forall p: Pass, n: string | inv(Next(p)) && n in tried ensures inv(TryNode(p, cfg, fails, n, removal).flow) {
      AttemptOutcome(p, cfg, fails, n, removal);
      if n in p.mem.waiting {
        CutFirstMembers(p.mem.waiting, n);
      }
    }
  }

  lemma PrimersCover(p: Pass, cfg: Config, o: Observation, primers: seq<string>, nodes: set<string>)
    requires Covers(p.mem, nodes)
    ensures SchedulePrimers(p, cfg, o, primers).Next? ==> Covers(SchedulePrimers(p, cfg, o, primers).p.mem, nodes)
  {
    AttemptsCover(cfg, o.fails, ByPrimer, nodes, Elements(primers));
    if cfg.prime && |primers| > 0 {
      PrimerLoopKeeps(CoverFlow(nodes), p, cfg, o.fails, primers, false, false, Elements(primers));
      var round := PrimerLoop(p, cfg, o.fails, primers, false, false);
      assert CoverFlow(nodes)(round.flow);
    }
  }

  /** Not true of a positive parallelism: there a batch node whose job already exists is dropped. */
  lemma DispatchCovers(p: Pass, cfg: Config, o: Observation, nodes: set<string>)
    requires Covers(p.mem, nodes) && cfg.parallelism <= 0
    ensures Dispatch(p, cfg, o).Next? ==> Covers(Dispatch(p, cfg, o).p.mem, nodes)
  {
    var inv := CoverFlow(nodes);
    AttemptsCover(cfg, o.fails, ByIndex, nodes, Elements(p.mem.waiting));
    AttemptsCover(cfg, o.fails, IfPresent, nodes, Elements(p.mem.waiting));
    assert p.mem.waiting[0..] == p.mem.waiting;
    DispatchNodesKeeps(inv, p, cfg, o.fails, Elements(p.mem.waiting));
    var round := DispatchNodes(p, cfg, o.fails);
    assert inv(round.flow);
  }

  lemma {:induction false} ScanLoopCovers(p: Pass, fails: Faults, listing: seq<Job>, nodes: set<string>)
    requires Covers(p.mem, nodes)
    ensures Covers(ScanLoop(p, fails, listing).p.mem, nodes)
    decreases |listing|
  {
    if listing != [] {
      var job := listing[0];
      if job.succeeded && job.node in p.mem.warming {
        CutFirstMembers(p.mem.warming, job.node);
      }
      var q := p.(mem := Seen(p.mem, job));
      assert Covers(q.mem, nodes);
      ScanLoopCovers(if q == p then p else Write(q, fails), fails, listing[1..], nodes);
    }
  }

  lemma ScanCovers(p: Pass, o: Observation, v: string, nodes: set<string>)
    requires Covers(p.mem, nodes)
    ensures Covers(Scan(p, o, v).p.mem, nodes)
  {
    var q := p.(jobs := Finish(p.jobs, o.late), clock := p.clock + 1);
    ScanLoopCovers(q, o.fails, o.list(q.jobs, v), nodes);
  }

  // ---- One pass ----

  /** The state that the job scan leaves, for a pass that comes that far. */
  function Scanned(p: Pass, cfg: Config, o: Observation): Flow {
    var f := IssueStage(p, cfg, o);
    if f.Stop? then f else Scan(f.p, o, o.release.value.desired)
  }

  lemma WorkIsSane(p: Pass, cfg: Config, o: Observation, v: string, seen: set<string>, done: set<string>, c: string)
    requires o.selection.Selected? && Elements(o.selection.targets) <= seen && Elements(o.selection.primers) <= seen
    requires Sane(p, v, seen, done, o.selection.targets, c)
    ensures Sane(Work(p, cfg, o).p, v, seen, done, o.selection.targets, c)
  {
    var targets, primers := o.selection.targets, o.selection.primers;
    FillIsSane(p, o, v, seen, done, targets, c);
    var f := Fill(p, o, targets);
    if f.Next? {
      forall n | n in primers ensures n in seen { assert n in Elements(primers); }
      PrimersAreSane(f.p, cfg, o, primers, v, seen, done, targets, c);
      var g := SchedulePrimers(f.p, cfg, o, primers);
      if g.Next? {
        DispatchIsSane(g.p, cfg, o, v, seen, done, targets, c);
      }
    }
  }

  /** The nodes that a pass may put on a list. */
  function Named(o: Observation): set<string> {
    if o.selection.Selected? then Elements(o.selection.targets) + Elements(o.selection.primers) else {}
  }

  /** From the filled lists to the end of the scan. */
  lemma ScanStageIsSane(p: Pass, cfg: Config, o: Observation, v: string, seen: set<string>, done: set<string>,
                        c: string)
    requires o.selection.Selected? && Named(o) <= seen && HonestListing(o)
    requires Sane(p, v, seen, done, o.selection.targets, c)
    ensures var g := Work(p, cfg, o);
            var f := if g.Stop? then g else Scan(g.p, o, v);
            Sane(f.p, v, seen, done + DoneIn(f.p.jobs, v), o.selection.targets, c)
  {
    WorkIsSane(p, cfg, o, v, seen, done, c);
    var g := Work(p, cfg, o);
    if g.Next? {
      ScanIsSane(g.p, o, v, seen, done, o.selection.targets, c);
    } else {
      SaneGrows(g.p, v, seen, done, done + DoneIn(g.p.jobs, v), o.selection.targets, c);
    }
  }

  lemma {:induction false} ScanLoopEnds(p: Pass, fails: Faults, listing: seq<Job>)
    ensures ScanLoop(p, fails, listing).Stop? ==> ScanLoop(p, fails, listing).end == Failed
    decreases |listing|
  {
    if listing != [] {
      var q := p.(mem := Seen(p.mem, listing[0]));
      ScanLoopEnds(if q == p then p else Write(q, fails), fails, listing[1..]);
    }
  }

  /** Before its last test a pass does not end as complete or pending. */
  lemma ScannedEnds(p: Pass, cfg: Config, o: Observation)
    ensures var f := Scanned(p, cfg, o);
            f.Stop? ==> f.end != Completed && f.end != Pending
  {
    FrontKeepsLists(p, o);
    var f := Front(p, o);
    if f.Next? {
      WorkEnds(f.p, cfg, o);
      var g := Work(f.p, cfg, o);
      if g.Next? {
        var q := g.p.(jobs := Finish(g.p.jobs, o.late), clock := g.p.clock + 1);
        ScanLoopEnds(q, o.fails, o.list(q.jobs, o.release.value.desired));
      }
    }
  }

  /** Everything up to the scan keeps the lists within the targeted and the succeeded nodes, in memory (if the pass
      goes on) and in what is saved (in any case). */
  lemma ScannedIsSane(p: Pass, cfg: Config, o: Observation, v: string, seen: set<string>, done: set<string>)
    requires Within(p.saved, seen, done) && JobsWithin(p.jobs, v, seen) && Named(o) <= seen
    requires HonestListing(o) && Asks(o, v)
    ensures var f := Scanned(p, cfg, o);
            var done' := done + DoneIn(f.p.jobs, v);
            && Within(f.p.saved, seen, done') && JobsWithin(f.p.jobs, v, seen)
            && f.p.saved.versions.lastCompleted == p.saved.versions.lastCompleted
            && (f.Next? ==> Sane(f.p, v, seen, done', o.selection.targets, p.saved.versions.lastCompleted))
  {
    FrontKeepsLists(p, o);
    var f := Front(p, o);
    if f.Next? {
      var c := p.saved.versions.lastCompleted;
      assert Sane(f.p, v, seen, done, o.selection.targets, c);
      ScanStageIsSane(f.p, cfg, o, v, seen, done, c);
    }
  }

  /** A pass that goes on through the scan still has every target on some list. */
  lemma ScannedCovers(p: Pass, cfg: Config, o: Observation)
    requires cfg.parallelism <= 0
    ensures var f := Scanned(p, cfg, o);
            f.Next? ==> Covers(f.p.mem, Elements(o.selection.targets))
  {
    var f := Front(p, o);
    if f.Next? {
      var targets, primers := o.selection.targets, o.selection.primers;
      FilledFacts(f.p.mem.waiting, targets, f.p.mem.warming, f.p.mem.preheated);
      var g := Fill(f.p, o, targets);
      if g.Next? {
        PrimersCover(g.p, cfg, o, primers, Elements(targets));
        var h := SchedulePrimers(g.p, cfg, o, primers);
        if h.Next? {
          DispatchCovers(h.p, cfg, o, Elements(targets));
          if Dispatch(h.p, cfg, o).Next? {
            ScanCovers(Dispatch(h.p, cfg, o).p, o, o.release.value.desired, Elements(targets));
          }
        }
      }
    }
  }

  /** What a completed pass has written. */
  lemma CompletedMeans(p: Pass, cfg: Config, o: Observation)
    requires Reconcile(p, cfg, o) == Stop(Reconcile(p, cfg, o).p, Completed)
    ensures var f, q := Scanned(p, cfg, o), Reconcile(p, cfg, o).p;
            && f.Next? && q.jobs == f.p.jobs
            && ListsOf(q.saved) == ListsOf(f.p.mem) && q.saved.selected == f.p.mem.selected
            && q.saved.versions.lastCompleted == f.p.mem.versions.target
            && q.saved.waiting == [] && q.saved.warming == [] && |q.saved.preheated| == |q.saved.selected|
  {
    ScannedEnds(p, cfg, o);
  }

  // ---- Whole runs ----

  /** The succeeded nodes of a release, as the history has them. */
  function DoneEver(history: set<Issue>, v: string): set<string> {
    set e | e in history && e.release == v :: e.node
  }

  /** What every step keeps, as long as the cluster asks for `v`. */
  ghost predicate Accounted(w: World, v: string) {
    && Within(w.pass.saved, w.seen, DoneEver(w.history, v))
    && JobsWithin(w.pass.jobs, v, w.seen)
    && Successes(w.pass.jobs) <= w.history
  }

  lemma DoneIsRemembered(jobs: JobStore, history: set<Issue>, v: string)
    requires Successes(jobs) <= history
    ensures DoneIn(jobs, v) <= DoneEver(history, v)
  {
    forall n | n in DoneIn(jobs, v) ensures n in DoneEver(history, v) {
      var k :| k in jobs && jobs[k].release == v && jobs[k].succeeded && jobs[k].node == n;
      assert Issue(n, v) in Successes(jobs);
    }
  }

  /** The end of a pass writes no list. */
  lemma ConcludeKeepsLists(p: Pass, o: Observation)
    ensures var q := Conclude(p, o).p;
            && q.jobs == p.jobs && q.issued == p.issued && ListsOf(q.mem) == ListsOf(p.mem)
            && (ListsOf(q.saved) == ListsOf(p.saved) || ListsOf(q.saved) == ListsOf(p.mem))
  {
  }

  lemma PassAccounted(w: World, cfg: Config, o: Observation, v: string)
    requires Accounted(w, v) && Sound(o, v)
    ensures Accounted(Step(w, Reconciled(cfg, o)), v)
  {
    var seen := w.seen + Elements(TargetsOf(o));
    assert Named(o) <= seen by {
      forall n | n in Named(o) ensures n in seen {
        if n in Elements(o.selection.primers) { assert n in o.selection.targets; }
      }
    }
    ScannedIsSane(w.pass, cfg, o, v, seen, DoneEver(w.history, v));
    var f := Scanned(w.pass, cfg, o);
    if f.Next? {
      ConcludeKeepsLists(f.p, o);
    }
    var w' := Step(w, Reconciled(cfg, o));
    DoneIsRemembered(w'.pass.jobs, w'.history, v);
  }

  lemma StepAccounted(w: World, a: Action, v: string)
    requires Accounted(w, v) && (a.Reconciled? ==> Sound(a.o, v))
    ensures Accounted(Step(w, a), v)
  {
    match a
    case Reconciled(cfg, o) => PassAccounted(w, cfg, o, v);
    case JobSucceeds(name) =>
    case JobDisappears(name) =>
  }

  lemma {:induction false} RunAccounted(w: World, actions: seq<Action>, v: string)
    requires Blank(w, v) && AlwaysAsks(actions, v)
    ensures Accounted(Run(w, actions), v)
    decreases |actions|
  {
    if actions != [] {
      RunAccounted(w, actions[..|actions| - 1], v);
      StepAccounted(Run(w, actions[..|actions| - 1]), actions[|actions| - 1], v);
    }
  }

  /** The main theorem on completion. In every run for one release, with any API call failing, any pass dying at any
      point, nodes coming and going and jobs disappearing: when a pass writes LastCompletedVersion, every selected
      node has had a succeeded pull job for exactly that release. The one proviso is that, for a positive
      parallelism, no node has left the targets. */
  lemma CompletionIsSound(w: World, actions: seq<Action>, cfg: Config, o: Observation, v: string)
    requires Blank(w, v) && AlwaysAsks(actions, v) && Sound(o, v)
    requires Reconcile(Run(w, actions).pass, cfg, o) == Stop(Reconcile(Run(w, actions).pass, cfg, o).p, Completed)
    requires cfg.parallelism <= 0 || Run(w, actions).seen <= Elements(TargetsOf(o))
    ensures var w' := Step(Run(w, actions), Reconciled(cfg, o));
            && w'.pass.saved.versions.lastCompleted == v
            && w'.pass.saved.selected == TargetsOf(o)
            && (forall n :: n in w'.pass.saved.selected ==> Issue(n, v) in w'.history)
  {
    RunAccounted(w, actions, v);
    var w1 := Run(w, actions);
    PassAccounted(w1, cfg, o, v);
    var w2 := Step(w1, Reconciled(cfg, o));
    FinishedSelection(w1.pass, cfg, o, v, w1.seen + Elements(TargetsOf(o)), DoneEver(w1.history, v));
    var s := w2.pass.saved;
    if cfg.parallelism <= 0 {
      ScannedCovers(w1.pass, cfg, o);
      forall n | n in s.selected ensures n in s.preheated {
        assert n in Elements(o.selection.targets);
      }
    } else {
      EqualLengthCoverage(s.selected, s.preheated);
      forall n | n in s.preheated ensures n in s.selected {
        assert n in Elements(TargetsOf(o));
      }
    }
  }

  lemma FinishedSelection(p: Pass, cfg: Config, o: Observation, v: string, seen: set<string>, done: set<string>)
    requires Within(p.saved, seen, done) && JobsWithin(p.jobs, v, seen) && Elements(TargetsOf(o)) <= seen && Sound(o, v)
    requires Reconcile(p, cfg, o) == Stop(Reconcile(p, cfg, o).p, Completed)
    ensures var q := Reconcile(p, cfg, o).p;
            && q.saved.selected == TargetsOf(o) && q.saved.versions.lastCompleted == v
            && ListsOf(q.saved) == ListsOf(Scanned(p, cfg, o).p.mem)
            && o.selection.Selected? && Scanned(p, cfg, o).Next?
            && q.saved.waiting == [] && q.saved.warming == [] && |q.saved.preheated| == |q.saved.selected|
  {
    assert Named(o) <= seen by {
      forall n | n in Named(o) ensures n in seen {
        if n in Elements(o.selection.primers) { assert n in o.selection.targets && n in Elements(TargetsOf(o)); }
      }
    }
    ScannedIsSane(p, cfg, o, v, seen, done);
    CompletedMeans(p, cfg, o);
  }
}
