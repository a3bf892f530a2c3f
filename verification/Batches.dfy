/** A positive parallelism: what the code as written does, and what it does with the two missing guards. */
module Batches {
  import opened NodeLists
  import opened PullJobs
  import opened Passes
  import opened IssueFacts
  import opened Drain

  ghost predicate HaveJobs(nodes: seq<string>, p: Pass, hash: Hash) {
    forall n :: n in nodes ==> HasJob(p.jobs, hash, n, p.mem.versions.desired)
  }

  /** The first node without a job, if there is one. */
  function FirstJobless(nodes: seq<string>, jobs: JobStore, hash: Hash, v: string): seq<string> {
    if nodes == [] then []
    else if JobName(hash, nodes[0], v) !in jobs then [nodes[0]]
    else FirstJobless(nodes[1..], jobs, hash, v)
  }

  /** The job store after a Create for the first node without a job. */
  function WithNextJob(nodes: seq<string>, jobs: JobStore, hash: Hash, v: string): JobStore {
    var next := FirstJobless(nodes, jobs, hash, v);
    if next == [] then jobs else jobs[JobName(hash, next[0], v) := Job(next[0], v, false)]
  }

  /** The batch as written, over nodes that were popped off the list: the first Create is followed by a removal at
      index -1. */
  lemma {:induction false} PoppedBatch(p: Pass, cfg: Config, fails: Faults, batch: seq<string>)
    requires FaultFree(fails)
    requires forall n :: n in batch ==> n !in p.mem.waiting && !(n in p.mem.warming && n in p.mem.preheated)
    ensures var f := DispatchBatch(p, cfg, fails, batch, ByIndex);
            if HaveJobs(batch, p, cfg.hash) then f == Next(p.(clock := f.p.clock))
            else f == Stop(f.p, LostMove) && f.p.saved == p.saved
                 && f.p.jobs == WithNextJob(batch, p.jobs, cfg.hash, p.mem.versions.desired)
    decreases |batch|
  {
    if batch != [] {
      var n, rest := batch[0], batch[1..];
      assert batch == [n] + rest;
      AttemptOutcome(p, cfg, fails, n, ByIndex);
      if HasJob(p.jobs, cfg.hash, n, p.mem.versions.desired) {
        PassedOver(p, cfg, fails, n, ByIndex);
        PoppedBatch(TryNode(p, cfg, fails, n, ByIndex).flow.p, cfg, fails, rest);
      }
    }
  }

  /** The dispatch for a positive parallelism as it is written, with no API fault: it panics exactly if the batch is
      longer than the list, before any Create, or some node of the batch has no job yet, right after the Create. In
      particular it never comes through after creating a job. */
  lemma AsWrittenPanics(p: Pass, cfg: Config, fails: Faults)
    requires FaultFree(fails) && cfg.parallelism > 0 && cfg.batching.AsWritten? && p.mem.waiting != []
    requires NoDuplicates(p.mem.waiting)
    requires forall n :: n in p.mem.waiting ==> n !in p.mem.warming
    ensures var f, w := DispatchNodes(p, cfg, fails).flow, p.mem.waiting;
            && (f == Stop(f.p, Panicked) <==> cfg.parallelism > |w|)
            && (f == Stop(f.p, LostMove) <==> cfg.parallelism <= |w| && !HaveJobs(w[..cfg.parallelism], p, cfg.hash))
    ensures var f, batch := DispatchNodes(p, cfg, fails).flow, p.mem.waiting[..Min(cfg.parallelism, |p.mem.waiting|)];
            f == Stop(f.p, LostMove) ==>
              f.p.saved == p.saved && f.p.jobs == WithNextJob(batch, p.jobs, cfg.hash, p.mem.versions.desired)
    ensures var f := DispatchNodes(p, cfg, fails).flow;
            && (f.Stop? ==> f.end in {Panicked, LostMove})
            && (f == Stop(f.p, Panicked) ==> f.p.jobs == p.jobs && f.p.saved == p.saved)
    ensures var f := DispatchNodes(p, cfg, fails).flow;
            f.Next? ==> f.p == p.(mem := p.mem.(waiting := p.mem.waiting[cfg.parallelism..]), clock := f.p.clock)
  {
    var w := p.mem.waiting;
    if cfg.parallelism <= |w| {
      var k := cfg.parallelism;
      var q := p.(mem := p.mem.(waiting := w[k..]));
      ApartAt(w, k);
      PoppedBatch(q, cfg, fails, w[..k]);
    }
  }

  // ---- With guards ----

  lemma {:induction false} BatchServes(p: Pass, cfg: Config, fails: Faults, batch: seq<string>)
    requires FaultFree(fails) && NoDuplicates(batch)
    requires forall n :: n in batch ==>
               n !in p.mem.waiting && n !in p.mem.preheated && !HasJob(p.jobs, cfg.hash, n, p.mem.versions.desired)
    ensures var f := DispatchBatch(p, cfg, fails, batch, IfPresent);
            f.Next? && Served(p, f.p, cfg.hash, batch, p.mem.waiting)
    decreases |batch|
  {
    if batch == [] {
      assert IssuesOf([], p.mem.versions.desired) == [];
      assert p.mem.warming + [] == p.mem.warming;
    } else {
      var n, rest := batch[0], batch[1..];
      assert batch == [n] + rest;
      NodeServed(p, cfg, fails, n, IfPresent);
      var q := TryNode(p, cfg, fails, n, IfPresent).flow.p;
      BatchServes(q, cfg, fails, rest);
      if rest == [] {
        assert batch == [n];
      } else {
        ServedInTurn(p, q, DispatchBatch(q, cfg, fails, rest, IfPresent).p, cfg.hash, [n], rest, p.mem.waiting,
                     p.mem.waiting);
      }
    }
  }

  /** The dispatch with guards issues the first min(p, n) waiting nodes in order. */
  lemma GuardedBatchServes(p: Pass, cfg: Config, fails: Faults)
    requires FaultFree(fails) && cfg.parallelism > 0 && cfg.batching.WithGuards? && NoDuplicates(p.mem.waiting)
    requires forall n :: n in p.mem.waiting ==>
               !HasJob(p.jobs, cfg.hash, n, p.mem.versions.desired) && n !in p.mem.preheated
    ensures var f, w := DispatchNodes(p, cfg, fails).flow, p.mem.waiting;
            var k := Min(cfg.parallelism, |w|);
            f.Next? && Served(p.(mem := p.mem.(waiting := w[k..])), f.p, cfg.hash, w[..k], w[k..])
  {
    var w := p.mem.waiting;
    var k := Min(cfg.parallelism, |w|);
    var q := p.(mem := p.mem.(waiting := w[k..]));
    ApartAt(w, k);
    BatchServes(q, cfg, fails, w[..k]);
  }

  /** The waiting list after `k` passes with guards in which no node joins. */
  function RestAfter(w: seq<string>, batch: nat, k: nat): seq<string>
    decreases k
  {
    if k == 0 then w else RestAfter(w[Min(batch, |w|)..], batch, k - 1)
  }

  /** After k passes exactly the nodes from position k*p on are left: all n are issued in ceil(n / p) passes, and not
      in fewer. */
  lemma {:induction false} RestAfterExactly(w: seq<string>, batch: nat, k: nat)
    ensures 0 <= k * batch
    ensures RestAfter(w, batch, k) == w[Min(k * batch, |w|)..]
    ensures RestAfter(w, batch, k) == [] <==> |w| <= k * batch
    decreases k
  {
    if k > 0 {
      var rest := w[Min(batch, |w|)..];
      RestAfterExactly(rest, batch, k - 1);
      assert k * batch == (k - 1) * batch + batch;
    }
  }
}
