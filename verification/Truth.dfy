/** When a written LastCompletedVersion is true, from any saved lists and any jobs, said in terms of what is there
    before the pass. */
module Truth {
  import opened NodeLists
  import opened PullJobs
  import opened Passes
  import opened FrontFacts
  import opened Runs
  import opened Completion
  import opened JobScan
  import opened NewJobs

  /** The nodes that a completing pass issues a job for. */
  ghost function Issuable(p: Pass, cfg: Config, o: Observation, v: string): set<string>
    requires o.selection.Selected?
  {
    set n | n in Candidates(p.saved, cfg, o) && !HasJob(p.jobs, cfg.hash, n, v) && !Skipped(p.saved, n)
  }

  /** The nodes that are done when a completing pass lists the jobs: those whose job is there already and finishes in
      time, and those it issues. */
  ghost function DoneBy(p: Pass, cfg: Config, o: Observation, v: string): set<string>
    requires o.selection.Selected?
  {
    DoneIn(Finish(p.jobs, o.late), v) + Issuable(p, cfg, o, v)
  }

  // ---- The scan ----

  lemma ListingShowsDone(listing: seq<Job>, jobs: JobStore, v: string)
    requires IsListing(listing, jobs, v)
    ensures DoneNodes(listing) == DoneIn(jobs, v)
  {
    forall n | n in DoneNodes(listing) ensures n in DoneIn(jobs, v) {
      var j :| j in listing && j.succeeded && j.node == n;
      var i :| 0 <= i < |listing| && listing[i] == j;
      var k :| k in jobs && jobs[k] == listing[i] && jobs[k].release == v;
    }
    forall n | n in DoneIn(jobs, v) ensures n in DoneNodes(listing) {
      var k :| k in jobs && jobs[k].release == v && jobs[k].succeeded && jobs[k].node == n;
      assert jobs[k] in listing;
    }
  }

  /** Where the scan leaves the nodes, whatever the lists. */
  ghost predicate Rescanned(s: Status, t: Status, done: set<string>) {
    && t.waiting == s.waiting
    && (forall n :: n in s.warming ==> n in t.warming || n in done)
    && (forall n :: n in t.preheated <==> n in s.preheated || n in done)
  }

  lemma SeenRescanned(s: Status, job: Job)
    ensures Rescanned(s, Seen(s, job), if job.succeeded then {job.node} else {})
  {
    if job.succeeded && job.node in s.warming {
      CutFirstMembers(s.warming, job.node);
    }
  }

  lemma {:induction false} LoopRescanned(p: Pass, fails: Faults, listing: seq<Job>)
    ensures var f := ScanLoop(p, fails, listing); f.Next? ==> Rescanned(p.mem, f.p.mem, DoneNodes(listing))
    decreases |listing|
  {
    if listing != [] {
      var job, rest := listing[0], listing[1..];
      SeenRescanned(p.mem, job);
      assert listing == [job] + rest;
      assert DoneNodes(listing) == (if job.succeeded then {job.node} else {}) + DoneNodes(rest);
      var q := p.(mem := Seen(p.mem, job));
      LoopRescanned(if q == p then p else Write(q, fails), fails, rest);
    }
  }

  /** A scan that leaves neither waiting nor warming nodes has found every warming node done. */
  lemma ScanLeavesNone(p: Pass, o: Observation, v: string)
    requires HonestListing(o) && Scan(p, o, v).Next?
    requires Scan(p, o, v).p.mem.waiting == [] && Scan(p, o, v).p.mem.warming == []
    ensures var done := DoneIn(Finish(p.jobs, o.late), v);
            p.mem.waiting == [] && Rescanned(p.mem, Scan(p, o, v).p.mem, done)
  {
    var q := p.(jobs := Finish(p.jobs, o.late), clock := p.clock + 1);
    var listing := o.list(q.jobs, v);
    assert IsListing(listing, q.jobs, v);
    ListingShowsDone(listing, q.jobs, v);
    if listing != [] {
      LoopRescanned(q, o.fails, listing);
    }
  }

  // ---- The jobs after a completed pass ----

  lemma AddedJobs(p: Pass, q: Pass, hash: Hash, v: string, some: set<string>, late: set<string>, added: set<string>)
    requires Extends(p, q, hash, v, some)
    requires forall n :: n in q.mem.warming ==> n in DoneIn(Finish(q.jobs, late), v)
    requires forall n :: n in some ==> HasJob(q.jobs, hash, n, v) || Skipped(p.mem, n)
    requires added == set n | n in some && !HasJob(p.jobs, hash, n, v) && !Skipped(p.mem, n)
    ensures DoneIn(Finish(q.jobs, late), v) == DoneIn(Finish(p.jobs, late), v) + added
  {
    var before, after := Finish(p.jobs, late), Finish(q.jobs, late);
    forall n | n in DoneIn(after, v) ensures n in DoneIn(before, v) + added {
      var k :| k in after && after[k].release == v && after[k].succeeded && after[k].node == n;
      if k in p.jobs {
        assert k in before && before[k] == after[k];
      } else {
        assert IsNew(p, q, hash, v, some, k);
      }
    }
    forall n | n in DoneIn(before, v) ensures n in DoneIn(after, v) {
      var k :| k in before && before[k].release == v && before[k].succeeded && before[k].node == n;
      assert k in after && after[k] == before[k];
    }
    forall n | n in added ensures n in DoneIn(after, v) {
      assert IsNew(p, q, hash, v, some, JobName(hash, n, v));
      NewNamed(p, q, hash, v, some, n);
    }
  }

  lemma NewNamed(p: Pass, q: Pass, hash: Hash, v: string, some: set<string>, n: string)
    requires HasJob(q.jobs, hash, n, v) && IsNew(p, q, hash, v, some, JobName(hash, n, v))
    ensures q.jobs[JobName(hash, n, v)].node == n
  {
    NameDeterminesNode(hash, v, n, q.jobs[JobName(hash, n, v)].node);
  }

  /** What a completed pass has found done. */
  lemma CompletedDone(p: Pass, cfg: Config, o: Observation, v: string)
    requires o.release.Ok? && o.release.value.desired == v && HonestListing(o) && Tracks(cfg, p.saved.waiting)
    requires Reconcile(p, cfg, o) == Stop(Reconcile(p, cfg, o).p, Completed)
    ensures var q := Reconcile(p, cfg, o).p;
            && o.selection.Selected? && DoneIn(q.jobs, v) == DoneBy(p, cfg, o, v)
            && (forall n :: n in q.saved.preheated <==> n in p.saved.preheated || n in DoneIn(q.jobs, v))
  {
    CompletedMeans(p, cfg, o);
    FrontKeepsLists(p, o);
    var f := Front(p, o).p;
    WorkExtends(f, cfg, o, v);
    var g := Work(f, cfg, o).p;
    assert Scanned(p, cfg, o) == Scan(g, o, v);
    ScanLeavesNone(g, o, v);
    ScanJobs(g, o, v);
    AddedJobs(f, g, cfg.hash, v, Candidates(p.saved, cfg, o), o.late, Issuable(p, cfg, o, v));
  }

  // ---- The two forms of the condition ----

  /** A completed pass lists every selected node in LastCompletedVersion. It tells the truth, for every parallelism and
      every state before, exactly if no node counts as preheated without a success of this release, and no success is of
      a node that is not targeted. */
  lemma CompletionTruth(p: Pass, cfg: Config, o: Observation, v: string)
    requires o.release.Ok? && o.release.value.desired == v && HonestListing(o) && Tracks(cfg, p.saved.waiting)
    requires NoDuplicates(p.saved.preheated) && NoDuplicates(TargetsOf(o))
    requires Reconcile(p, cfg, o) == Stop(Reconcile(p, cfg, o).p, Completed)
    ensures var q := Reconcile(p, cfg, o).p;
            && o.selection.Selected? && q.saved.versions.lastCompleted == v && q.saved.selected == TargetsOf(o)
            && ((forall n :: n in q.saved.selected ==> n in DoneIn(q.jobs, v))
                <==> && (forall n :: n in p.saved.preheated ==> n in DoneBy(p, cfg, o, v))
                     && (forall n :: n in DoneBy(p, cfg, o, v) ==> n in TargetsOf(o)))
  {
    CompletedDone(p, cfg, o, v);
    CompletedLists(p, cfg, o, v);
    var q := Reconcile(p, cfg, o).p;
    EqualLengthCoverage(q.saved.selected, q.saved.preheated);
  }

  lemma CompletedLists(p: Pass, cfg: Config, o: Observation, v: string)
    requires o.release.Ok? && o.release.value.desired == v && HonestListing(o)
    requires NoDuplicates(p.saved.preheated)
    requires Reconcile(p, cfg, o) == Stop(Reconcile(p, cfg, o).p, Completed)
    ensures var q := Reconcile(p, cfg, o).p;
            && q.saved.versions.lastCompleted == v && q.saved.selected == TargetsOf(o)
            && NoDuplicates(q.saved.preheated) && |q.saved.preheated| == |q.saved.selected|
  {
    var s := p.saved;
    var seen := Elements(s.waiting) + Elements(s.warming) + Elements(s.preheated) + Named(o)
              + (set k | k in p.jobs :: p.jobs[k].node);
    ScannedIsSane(p, cfg, o, v, seen, Elements(s.preheated));
    CompletedMeans(p, cfg, o);
  }

  /** Without a batch every target is on some list, so only the nodes preheated before can be wrong. */
  lemma CompletionTruthUnbatched(p: Pass, cfg: Config, o: Observation, v: string)
    requires o.release.Ok? && o.release.value.desired == v && HonestListing(o) && cfg.parallelism <= 0
    requires NoDuplicates(p.saved.preheated)
    requires Reconcile(p, cfg, o) == Stop(Reconcile(p, cfg, o).p, Completed)
    ensures var q := Reconcile(p, cfg, o).p;
            && o.selection.Selected? && q.saved.versions.lastCompleted == v && q.saved.selected == TargetsOf(o)
            && ((forall n :: n in q.saved.selected ==> n in DoneIn(q.jobs, v))
                <==> (forall n :: n in TargetsOf(o) && n in p.saved.preheated ==> n in DoneBy(p, cfg, o, v)))
  {
    CompletedDone(p, cfg, o, v);
    CompletedLists(p, cfg, o, v);
    CompletedMeans(p, cfg, o);
    ScannedCovers(p, cfg, o);
    var q := Reconcile(p, cfg, o).p;
    forall n | n in q.saved.selected ensures n in q.saved.preheated {
      assert n in Elements(o.selection.targets);
    }
  }
}
