/** Rules for the three loops that create jobs: what one attempt keeps, every loop keeps. */
module IssueFacts {
  import opened NodeLists
  import opened PullJobs
  import opened Passes

  /** One attempt for any node of `nodes`, from any pass that goes on, keeps `inv`. */
  ghost predicate Kept(inv: Flow -> bool, cfg: Config, fails: Faults, removal: Removal, nodes: set<string>) {
    forall p: Pass, n: string :: inv(Next(p)) && n in nodes ==> inv(TryNode(p, cfg, fails, n, removal).flow)
  }

  lemma {:induction false} PrimerLoopKeeps(inv: Flow -> bool, p: Pass, cfg: Config, fails: Faults, primers: seq<string>,
                                           scheduled: bool, running: bool, nodes: set<string>)
    requires Kept(inv, cfg, fails, ByPrimer, nodes) && inv(Next(p))
    requires forall n :: n in primers ==> n in nodes
    ensures inv(PrimerLoop(p, cfg, fails, primers, scheduled, running).flow)
    decreases |primers|
  {
    if primers != [] {
      var n := primers[0];
      var a := TryNode(p, cfg, fails, n, ByPrimer);
      assert inv(a.flow);
      if a.flow.Next? {
        PrimerLoopKeeps(inv, a.flow.p, cfg, fails, primers[1..], scheduled || a.created, running || n in p.mem.warming,
                        nodes);
      }
    }
  }

  lemma {:induction false} BatchKeeps(inv: Flow -> bool, p: Pass, cfg: Config, fails: Faults, batch: seq<string>,
                                      removal: Removal, nodes: set<string>)
    requires Kept(inv, cfg, fails, removal, nodes) && inv(Next(p))
    requires forall n :: n in batch ==> n in nodes
    ensures inv(DispatchBatch(p, cfg, fails, batch, removal))
    decreases |batch|
  {
    if batch != [] {
      var a := TryNode(p, cfg, fails, batch[0], removal);
      assert inv(a.flow);
      if a.flow.Next? {
        BatchKeeps(inv, a.flow.p, cfg, fails, batch[1..], removal, nodes);
      }
    }
  }

  /** Cutting a list out of shared cells brings in no new node. */
  lemma RemovalKeepsNodes(cells: seq<string>, live: nat, node: string)
    requires live <= |cells|
    ensures forall n :: n in AfterRemoval(cells, live, node) ==> n in cells
  {
  }

  lemma {:induction false} SharedKeeps(inv: Flow -> bool, p: Pass, cfg: Config, fails: Faults, cells: seq<string>,
                                       n: nat, i: nat, nodes: set<string>)
    requires i <= n <= |cells| && |p.mem.waiting| <= |cells|
    requires Kept(inv, cfg, fails, ByIndex, nodes) && inv(Next(p))
    requires forall x :: x in cells ==> x in nodes
    ensures inv(DispatchShared(p, cfg, fails, cells, n, i).flow)
    decreases n - i
  {
    if i < n {
      var a := TryNode(p, cfg, fails, cells[i], ByIndex);
      assert inv(a.flow);
      RemovalKeepsNodes(cells, |p.mem.waiting|, cells[i]);
      var cells' := if a.created then AfterRemoval(cells, |p.mem.waiting|, cells[i]) else cells;
      if a.flow.Next? {
        SharedKeeps(inv, a.flow.p, cfg, fails, cells', n, i + 1, nodes);
      }
    }
  }

  /** The dispatch, batch cut included: `inv` must also survive taking nodes off the front of the waiting list. */
  lemma DispatchNodesKeeps(inv: Flow -> bool, p: Pass, cfg: Config, fails: Faults, nodes: set<string>)
    requires inv(Next(p))
    requires cfg.parallelism == 0 ==> Kept(inv, cfg, fails, ByIndex, nodes)
    requires cfg.parallelism != 0
             ==> Kept(inv, cfg, fails, if cfg.batching.AsWritten? then ByIndex else IfPresent, nodes)
    requires forall k: nat :: k <= |p.mem.waiting| && (k > 0 ==> cfg.parallelism > 0) ==>
               inv(Next(p.(mem := p.mem.(waiting := p.mem.waiting[k..]))))
    requires PopPanics(cfg, p.mem.waiting) ==> inv(Stop(p.(mem := p.mem.(waiting := [])), Panicked))
    requires forall n :: n in p.mem.waiting ==> n in nodes
    ensures inv(DispatchNodes(p, cfg, fails).flow)
  {
    var waiting := p.mem.waiting;
    if |waiting| > 0 && cfg.parallelism == 0 {
      SharedKeeps(inv, p, cfg, fails, waiting, |waiting|, 0, nodes);
    } else if !PopPanics(cfg, waiting) {
      var k := BatchSize(cfg, waiting);
      var q := p.(mem := p.mem.(waiting := waiting[k..]));
      assert inv(Next(q));
      if |waiting| == 0 {
        assert waiting[..k] == [];
      } else {
        BatchKeeps(inv, q, cfg, fails, waiting[..k], if cfg.batching.AsWritten? then ByIndex else IfPresent, nodes);
      }
    }
  }

  /** A job is created for `node`, which joins the warming list. */
  ghost predicate JobCreated(p: Pass, cfg: Config, node: string, f: Flow) {
    var release := p.mem.versions.desired;
    var name := JobName(cfg.hash, node, release);
    var q := f.p;
    && name !in p.jobs && q.jobs == p.jobs[name := Job(node, release, false)]
    && q.issued == p.issued + [Issue(node, release)]
    && (f.Stop? ==> f.end in {LostWrite, LostMove} && q.saved == p.saved)
    && (f.Next? ==> q.saved == q.mem)
    && q.mem == p.mem.(waiting := if f == Stop(q, LostMove) then p.mem.waiting else Remaining(p.mem.waiting, node),
                       warming := p.mem.warming + [node])
  }

  /** Nothing but the call count changes. */
  ghost predicate NothingCreated(p: Pass, f: Flow) {
    f.p == p.(clock := f.p.clock) && (f.Stop? ==> f.end == Failed)
  }

  /** The two outcomes of an attempt. */
  lemma AttemptOutcome(p: Pass, cfg: Config, fails: Faults, node: string, removal: Removal)
    ensures var a := TryNode(p, cfg, fails, node, removal);
            if a.created then
              && JobCreated(p, cfg, node, a.flow)
              && (a.flow == Stop(a.flow.p, LostMove) <==> RemovalPanics(p.mem.waiting, node, removal))
            else NothingCreated(p, a.flow)
  {
  }

  /** The conditions behind the primer loop move nothing. */
  lemma ConditionsKeepLists(p: Pass, fails: Faults, primers: seq<string>, scheduled: bool, running: bool)
    ensures var q := PrimerConditions(p, fails, primers, scheduled, running);
            && q.jobs == p.jobs && q.mem == p.mem.(conditions := q.mem.conditions)
            && (q.saved == p.saved || q.saved == p.mem.(conditions := q.saved.conditions))
  {
  }

  ghost predicate LoopEnd(f: Flow) {
    f.Stop? ==> f.end in {Failed, LostWrite, LostMove, Panicked}
  }

  lemma LoopsEnd(cfg: Config, fails: Faults, removal: Removal, nodes: set<string>)
    ensures Kept((f: Flow) => LoopEnd(f), cfg, fails, removal, nodes)
  {
  }

  /** Up to the listing of the jobs a pass can only end early. */
  lemma WorkEnds(p: Pass, cfg: Config, o: Observation)
    requires o.selection.Selected?
    ensures LoopEnd(Work(p, cfg, o))
  {
    var f := Fill(p, o, o.selection.targets);
    if f.Next? {
      var inv := (f: Flow) => LoopEnd(f);
      var primers := o.selection.primers;
      LoopsEnd(cfg, o.fails, ByPrimer, Elements(primers));
      PrimerLoopKeeps(inv, f.p, cfg, o.fails, primers, false, false, Elements(primers));
      assert inv(PrimerLoop(f.p, cfg, o.fails, primers, false, false).flow);
      var g := SchedulePrimers(f.p, cfg, o, primers);
      if g.Next? {
        var waiting := Elements(g.p.mem.waiting);
        LoopsEnd(cfg, o.fails, ByIndex, waiting);
        LoopsEnd(cfg, o.fails, IfPresent, waiting);
        DispatchNodesKeeps(inv, g.p, cfg, o.fails, waiting);
        assert inv(DispatchNodes(g.p, cfg, o.fails).flow);
      }
    }
  }
}
