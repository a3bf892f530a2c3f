/** Which jobs a pass creates, known before it starts: the candidates without a job. */
module NewJobs {
  import opened NodeLists
  import opened PullJobs
  import opened Passes
  import opened IssueFacts
  import opened Completion
  import opened Partition

  /** The test in front of a Create holds back such a node. */
  predicate Skipped(s: Status, n: string) {
    n in s.warming && n in s.preheated
  }

  /** From `p` to `q` jobs were only added, under their own names, for nodes of `tried` that are warming now. */
  ghost predicate Extends(p: Pass, q: Pass, hash: Hash, v: string, tried: set<string>) {
    && q.mem.versions.desired == v && q.mem.preheated == p.mem.preheated
    && (forall n :: n in p.mem.warming ==> n in q.mem.warming)
    && (forall n :: n in q.mem.warming ==> n in p.mem.warming || HasJob(q.jobs, hash, n, v))
    && (forall k :: k in p.jobs ==> k in q.jobs && q.jobs[k] == p.jobs[k])
    && (forall k :: k in q.jobs && k !in p.jobs ==> IsNew(p, q, hash, v, tried, k))
  }

  ghost predicate IsNew(p: Pass, q: Pass, hash: Hash, v: string, tried: set<string>, k: string)
    requires k in q.jobs
  {
    var n := q.jobs[k].node;
    && q.jobs[k] == Job(n, v, false) && k == JobName(hash, n, v)
    && n in tried && n in q.mem.warming && !Skipped(p.mem, n)
  }

  /** A node that left the waiting list has a job, unless it was skipped. */
  ghost predicate Accounts(p: Pass, q: Pass, hash: Hash, v: string) {
    forall n :: n in p.mem.waiting ==> n in q.mem.waiting || HasJob(q.jobs, hash, n, v) || Skipped(p.mem, n)
  }

  ghost function ExtendsFlow(p: Pass, hash: Hash, v: string, tried: set<string>): Flow -> bool {
    (f: Flow) => f.Next? ==> Extends(p, f.p, hash, v, tried)
  }

  ghost function AccountsFlow(p: Pass, hash: Hash, v: string): Flow -> bool {
    (f: Flow) => f.Next? ==> f.p.mem.versions.desired == v && Accounts(p, f.p, hash, v)
  }

  // ---- The loops ----

  lemma AttemptsExtend(p: Pass, cfg: Config, fails: Faults, removal: Removal, v: string, tried: set<string>,
                       some: set<string>)
    requires some <= tried
    ensures Kept(ExtendsFlow(p, cfg.hash, v, tried), cfg, fails, removal, some)
  {
    var inv := ExtendsFlow(p, cfg.hash, v, tried);
    forall q: Pass, n: string | inv(Next(q)) && n in some ensures inv(TryNode(q, cfg, fails, n, removal).flow) {
      AttemptOutcome(q, cfg, fails, n, removal);
      var a := TryNode(q, cfg, fails, n, removal);
      if a.created && a.flow.Next? {
        CreationExtends(p, q, a.flow, cfg, v, tried, n);
      }
    }
  }

  lemma CreationExtends(p: Pass, q: Pass, f: Flow, cfg: Config, v: string, tried: set<string>, n: string)
    requires Extends(p, q, cfg.hash, v, tried) && JobCreated(q, cfg, n, f) && f.Next? && n in tried
             && !Skipped(q.mem, n)
    ensures Extends(p, f.p, cfg.hash, v, tried)
  {
    var name := JobName(cfg.hash, n, v);
    assert forall x :: x in f.p.mem.warming ==> x in q.mem.warming || x == n;
    forall k | k in f.p.jobs && k !in p.jobs ensures IsNew(p, f.p, cfg.hash, v, tried, k) {
      assert k != name ==> IsNew(p, q, cfg.hash, v, tried, k);
    }
  }

  lemma AttemptsAccount(p: Pass, cfg: Config, fails: Faults, removal: Removal, v: string, some: set<string>)
    ensures Kept(AccountsFlow(p, cfg.hash, v), cfg, fails, removal, some)
  {
    var inv := AccountsFlow(p, cfg.hash, v);
    forall q: Pass, n: string | inv(Next(q)) && n in some ensures inv(TryNode(q, cfg, fails, n, removal).flow) {
      AttemptOutcome(q, cfg, fails, n, removal);
      if n in q.mem.waiting {
        CutFirstMembers(q.mem.waiting, n);
      }
    }
  }

  ghost function ShrinksFlow(w: seq<string>): Flow -> bool {
    (f: Flow) =>
      Shrinks(w, f.p.mem.waiting)
  }

  ghost predicate Shrinks(w: seq<string>, rest: seq<string>) {
    (NoDuplicates(w) ==> NoDuplicates(rest)) && forall n :: n in rest ==> n in w
  }

  lemma AttemptsShrink(p: Pass, cfg: Config, fails: Faults, removal: Removal, some: set<string>)
    ensures Kept(ShrinksFlow(p.mem.waiting), cfg, fails, removal, some)
  {
    var inv := ShrinksFlow(p.mem.waiting);
    forall q: Pass, n: string | inv(Next(q)) && n in some ensures inv(TryNode(q, cfg, fails, n, removal).flow) {
      AttemptOutcome(q, cfg, fails, n, removal);
      if n in q.mem.waiting {
        CutFirstMembers(q.mem.waiting, n);
        if NoDuplicates(q.mem.waiting) {
          CutFirstUnique(q.mem.waiting, n);
        }
      }
    }
  }

  lemma PrimerLoopExtends(p: Pass, cfg: Config, fails: Faults, list: seq<string>, scheduled: bool, running: bool,
                          v: string)
    requires p.mem.versions.desired == v
    ensures var f := PrimerLoop(p, cfg, fails, list, scheduled, running).flow;
            f.Next? ==>
              && Extends(p, f.p, cfg.hash, v, Elements(list)) && Accounts(p, f.p, cfg.hash, v)
              && Shrinks(p.mem.waiting, f.p.mem.waiting)
  {
    var all := Elements(list);
    var a, b, c := ExtendsFlow(p, cfg.hash, v, all), AccountsFlow(p, cfg.hash, v), ShrinksFlow(p.mem.waiting);
    AttemptsExtend(p, cfg, fails, ByPrimer, v, all, all);
    PrimerLoopKeeps(a, p, cfg, fails, list, scheduled, running, all);
    AttemptsAccount(p, cfg, fails, ByPrimer, v, all);
    PrimerLoopKeeps(b, p, cfg, fails, list, scheduled, running, all);
    AttemptsShrink(p, cfg, fails, ByPrimer, all);
    PrimerLoopKeeps(c, p, cfg, fails, list, scheduled, running, all);
    var f := PrimerLoop(p, cfg, fails, list, scheduled, running).flow;
    assert a(f) && b(f) && c(f);
  }

  /** Each of `nodes` has a job, or was skipped. */
  ghost predicate Tried(p: Pass, q: Pass, hash: Hash, v: string, nodes: seq<string>) {
    forall n :: n in nodes ==> HasJob(q.jobs, hash, n, v) || Skipped(p.mem, n)
  }

  /** What one attempt and the rest of a loop come to. */
  lemma TriedInTurn(p: Pass, q: Pass, r: Pass, hash: Hash, v: string, list: seq<string>)
    requires list != [] && Extends(p, q, hash, v, {list[0]})
    requires HasJob(q.jobs, hash, list[0], v) || Skipped(p.mem, list[0])
    requires Extends(q, r, hash, v, Elements(list[1..])) && Tried(q, r, hash, v, list[1..])
    ensures Tried(p, r, hash, v, list)
  {
    forall n | n in list ensures HasJob(r.jobs, hash, n, v) || Skipped(p.mem, n) {
      if n != list[0] {
        assert n in list[1..];
      }
    }
  }

  lemma OneTried(p: Pass, cfg: Config, fails: Faults, n: string, removal: Removal, v: string)
    requires p.mem.versions.desired == v
    ensures var f := TryNode(p, cfg, fails, n, removal).flow;
            f.Next? ==>
              Extends(p, f.p, cfg.hash, v, {n}) && (HasJob(f.p.jobs, cfg.hash, n, v) || Skipped(p.mem, n))
  {
    AttemptOutcome(p, cfg, fails, n, removal);
  }

  lemma {:induction false} PrimersTried(p: Pass, cfg: Config, fails: Faults, list: seq<string>, scheduled: bool,
                                        running: bool,
                                        v: string)
    requires p.mem.versions.desired == v
    ensures var f := PrimerLoop(p, cfg, fails, list, scheduled, running).flow;
            f.Next? ==> Tried(p, f.p, cfg.hash, v, list)
    decreases |list|
  {
    if list != [] {
      var n, rest := list[0], list[1..];
      var a := TryNode(p, cfg, fails, n, ByPrimer);
      OneTried(p, cfg, fails, n, ByPrimer, v);
      if a.flow.Next? {
        var scheduled', running' := scheduled || a.created, running || n in p.mem.warming;
        PrimersTried(a.flow.p, cfg, fails, rest, scheduled', running', v);
        PrimerLoopExtends(a.flow.p, cfg, fails, rest, scheduled', running', v);
        var f := PrimerLoop(a.flow.p, cfg, fails, rest, scheduled', running').flow;
        if f.Next? {
          TriedInTurn(p, a.flow.p, f.p, cfg.hash, v, list);
        }
      }
    }
  }

  lemma {:induction false} BatchTried(p: Pass, cfg: Config, fails: Faults, batch: seq<string>, removal: Removal,
                                      v: string)
    requires p.mem.versions.desired == v
    ensures var f := DispatchBatch(p, cfg, fails, batch, removal); f.Next? ==> Tried(p, f.p, cfg.hash, v, batch)
    decreases |batch|
  {
    if batch != [] {
      var n, rest := batch[0], batch[1..];
      var a := TryNode(p, cfg, fails, n, removal);
      OneTried(p, cfg, fails, n, removal, v);
      if a.flow.Next? {
        BatchTried(a.flow.p, cfg, fails, rest, removal, v);
        AttemptsExtend(a.flow.p, cfg, fails, removal, v, Elements(rest), Elements(rest));
        BatchKeeps(ExtendsFlow(a.flow.p, cfg.hash, v, Elements(rest)), a.flow.p, cfg, fails, rest, removal,
                   Elements(rest));
        var f := DispatchBatch(a.flow.p, cfg, fails, rest, removal);
        assert ExtendsFlow(a.flow.p, cfg.hash, v, Elements(rest))(f);
        if f.Next? {
          TriedInTurn(p, a.flow.p, f.p, cfg.hash, v, batch);
        }
      }
    }
  }

  // ---- The dispatch ----

  /** A batch as written comes through only if it creates nothing: the nodes were popped, so the removal after a Create
      is out of range. */
  lemma {:induction false} PoppedCreatesNothing(p: Pass, cfg: Config, fails: Faults, batch: seq<string>)
    requires forall n :: n in batch ==> n !in p.mem.waiting
    ensures var f := DispatchBatch(p, cfg, fails, batch, ByIndex); f.Next? ==> f.p == p.(clock := f.p.clock)
    decreases |batch|
  {
    if batch != [] {
      AttemptOutcome(p, cfg, fails, batch[0], ByIndex);
      var a := TryNode(p, cfg, fails, batch[0], ByIndex);
      if a.flow.Next? {
        PoppedCreatesNothing(a.flow.p, cfg, fails, batch[1..]);
      }
    }
  }

  /** The lists of which the code as written keeps track. */
  ghost predicate Tracks(cfg: Config, waiting: seq<string>) {
    Tame(cfg) || NoDuplicates(waiting)
  }

  lemma DispatchExtends(p: Pass, cfg: Config, o: Observation, v: string)
    requires p.mem.versions.desired == v && Tracks(cfg, p.mem.waiting)
    ensures var f, tried := Dispatch(p, cfg, o), if Tame(cfg) then Elements(p.mem.waiting) else {};
            f.Next? ==> Extends(p, f.p, cfg.hash, v, tried) && Accounts(p, f.p, cfg.hash, v)
  {
    if GateOpen(p.mem) {
      if cfg.parallelism <= 0 {
        UnbatchedExtends(p, cfg, o.fails, v);
      } else {
        BatchExtends(p, cfg, o.fails, v);
      }
    }
  }

  lemma UnbatchedExtends(p: Pass, cfg: Config, fails: Faults, v: string)
    requires p.mem.versions.desired == v && cfg.parallelism <= 0
    ensures var f := DispatchNodes(p, cfg, fails).flow;
            f.Next? ==> Extends(p, f.p, cfg.hash, v, Elements(p.mem.waiting)) && Accounts(p, f.p, cfg.hash, v)
  {
    var waiting := Elements(p.mem.waiting);
    var inv, left := ExtendsFlow(p, cfg.hash, v, waiting), AccountsFlow(p, cfg.hash, v);
    AttemptsExtend(p, cfg, fails, ByIndex, v, waiting, waiting);
    AttemptsExtend(p, cfg, fails, IfPresent, v, waiting, waiting);
    AttemptsAccount(p, cfg, fails, ByIndex, v, waiting);
    AttemptsAccount(p, cfg, fails, IfPresent, v, waiting);
    assert p.mem.waiting[0..] == p.mem.waiting;
    DispatchNodesKeeps(inv, p, cfg, fails, waiting);
    DispatchNodesKeeps(left, p, cfg, fails, waiting);
    var f := DispatchNodes(p, cfg, fails).flow;
    assert inv(f) && left(f);
  }

  lemma BatchExtends(p: Pass, cfg: Config, fails: Faults, v: string)
    requires p.mem.versions.desired == v && cfg.parallelism > 0 && Tracks(cfg, p.mem.waiting)
    ensures var f, tried := DispatchNodes(p, cfg, fails).flow, if Tame(cfg) then Elements(p.mem.waiting) else {};
            f.Next? ==> Extends(p, f.p, cfg.hash, v, tried) && Accounts(p, f.p, cfg.hash, v)
  {
    var w := p.mem.waiting;
    if !PopPanics(cfg, w) {
      var k := BatchSize(cfg, w);
      var removal := if cfg.batching.AsWritten? then ByIndex else IfPresent;
      var q := p.(mem := p.mem.(waiting := w[k..]));
      var batch := w[..k];
      assert w == batch + w[k..];
      BatchTried(q, cfg, fails, batch, removal, v);
      var all := Elements(batch);
      AttemptsExtend(q, cfg, fails, removal, v, all, all);
      BatchKeeps(ExtendsFlow(q, cfg.hash, v, all), q, cfg, fails, batch, removal, all);
      AttemptsAccount(q, cfg, fails, removal, v, all);
      BatchKeeps(AccountsFlow(q, cfg.hash, v), q, cfg, fails, batch, removal, all);
      var f := DispatchBatch(q, cfg, fails, batch, removal);
      assert ExtendsFlow(q, cfg.hash, v, all)(f) && AccountsFlow(q, cfg.hash, v)(f);
      if cfg.batching.AsWritten? {
        ApartAt(w, k);
        PoppedCreatesNothing(q, cfg, fails, batch);
      }
    }
  }

  // ---- The work of a pass ----

  /** The nodes that a pass with the lists of `s` may create a job for. For a batch as written only primers: no other
      Create is survived. */
  function Candidates(s: Status, cfg: Config, o: Observation): set<string>
    requires o.selection.Selected?
  {
    (if Tame(cfg) then Elements(Filled(s.waiting, o.selection.targets, s.warming, s.preheated)) else {})
    + (if cfg.prime then Elements(o.selection.primers) else {})
  }

  lemma RoundExtends(p: Pass, cfg: Config, o: Observation, v: string)
    requires p.mem.versions.desired == v && o.selection.Selected?
    ensures var f := SchedulePrimers(p, cfg, o, o.selection.primers);
            var list := if cfg.prime then o.selection.primers else [];
            f.Next? ==>
              && Extends(p, f.p, cfg.hash, v, Elements(list)) && Accounts(p, f.p, cfg.hash, v)
              && Tried(p, f.p, cfg.hash, v, list)
              && Shrinks(p.mem.waiting, f.p.mem.waiting)
  {
    var list := o.selection.primers;
    if cfg.prime && |list| > 0 {
      PrimerLoopExtends(p, cfg, o.fails, list, false, false, v);
      PrimersTried(p, cfg, o.fails, list, false, false, v);
      var round := PrimerLoop(p, cfg, o.fails, list, false, false);
      if round.flow.Next? {
        ConditionsExtend(p, round.flow.p, cfg, o.fails, list, round.scheduled, round.running, v);
      }
    }
  }

  lemma ConditionsExtend(p: Pass, q: Pass, cfg: Config, fails: Faults, list: seq<string>, scheduled: bool,
                         running: bool,
                         v: string)
    requires Extends(p, q, cfg.hash, v, Elements(list)) && Accounts(p, q, cfg.hash, v)
    requires Shrinks(p.mem.waiting, q.mem.waiting) && Tried(p, q, cfg.hash, v, list)
    ensures var r := PrimerConditions(q, fails, list, scheduled, running);
            && Extends(p, r, cfg.hash, v, Elements(list)) && Accounts(p, r, cfg.hash, v)
            && Shrinks(p.mem.waiting, r.mem.waiting) && Tried(p, r, cfg.hash, v, list)
  {
    var r := PrimerConditions(q, fails, list, scheduled, running);
    assert r.jobs == q.jobs && r.mem == q.mem.(conditions := r.mem.conditions);
  }

  /** The whole work: jobs are added for candidates only, and when no node is left waiting, for every candidate that had
      none and was not skipped. */
  lemma WorkExtends(p: Pass, cfg: Config, o: Observation, v: string)
    requires o.selection.Selected? && p.mem.versions.desired == v && Tracks(cfg, p.mem.waiting)
    ensures var f, some := Work(p, cfg, o), Candidates(p.mem, cfg, o);
            f.Next? ==>
              && Extends(p, f.p, cfg.hash, v, some)
              && (f.p.mem.waiting == [] ==>
                    forall n :: n in some ==> HasJob(f.p.jobs, cfg.hash, n, v) || Skipped(p.mem, n))
  {
    var targets := o.selection.targets;
    FilledFacts(p.mem.waiting, targets, p.mem.warming, p.mem.preheated);
    var f := Fill(p, o, targets);
    if f.Next? {
      RoundExtends(f.p, cfg, o, v);
      var g := SchedulePrimers(f.p, cfg, o, o.selection.primers);
      if g.Next? {
        DispatchExtends(g.p, cfg, o, v);
        var h := Dispatch(g.p, cfg, o);
        if h.Next? {
          assert Elements(g.p.mem.waiting) <= Elements(f.p.mem.waiting);
          WorkInTurn(p, f.p, g.p, h.p, cfg, o, v);
        }
      }
    }
  }

  lemma WorkInTurn(p: Pass, f: Pass, g: Pass, h: Pass, cfg: Config, o: Observation, v: string)
    requires o.selection.Selected? && f.jobs == p.jobs && f.mem == p.mem.(waiting := f.mem.waiting)
    requires f.mem.waiting == Filled(p.mem.waiting, o.selection.targets, p.mem.warming, p.mem.preheated)
    requires Elements(g.mem.waiting) <= Elements(f.mem.waiting)
    requires var list := if cfg.prime then o.selection.primers else [];
             && Extends(f, g, cfg.hash, v, Elements(list)) && Accounts(f, g, cfg.hash, v)
             && Tried(f, g, cfg.hash, v, list)
    requires var tried := if Tame(cfg) then Elements(g.mem.waiting) else {};
             Extends(g, h, cfg.hash, v, tried) && Accounts(g, h, cfg.hash, v)
    ensures var some := Candidates(p.mem, cfg, o);
            && Extends(p, h, cfg.hash, v, some)
            && (h.mem.waiting == [] ==> forall n :: n in some ==> HasJob(h.jobs, cfg.hash, n, v) || Skipped(p.mem, n))
  {
  }
}
