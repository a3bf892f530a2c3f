/** The job scan has a set form that does not depend on the order of the listing. */
module JobScan {
  import opened NodeLists
  import opened PullJobs
  import opened Passes
  import opened Drain

  /** The nodes of `list` outside `done`, in order. */
  function Except(list: seq<string>, done: set<string>): seq<string> {
    if list == [] then []
    else if list[0] in done then Except(list[1..], done)
    else [list[0]] + Except(list[1..], done)
  }

  /** The nodes whose listed jobs have succeeded. */
  function DoneNodes(listing: seq<Job>): set<string> {
    set j | j in listing && j.succeeded :: j.node
  }

  lemma {:induction false} ExceptMembers(list: seq<string>, done: set<string>)
    ensures forall n :: n in Except(list, done) <==> n in list && n !in done
    ensures NoDuplicates(list) ==> NoDuplicates(Except(list, done))
  {
    if list != [] {
      ExceptMembers(list[1..], done);
      assert list == [list[0]] + list[1..];
    }
  }

  lemma {:induction false} ExceptNone(list: seq<string>, done: set<string>)
    requires forall n :: n in list ==> n !in done
    ensures Except(list, done) == list
  {
    if list != [] {
      ExceptNone(list[1..], done);
    }
  }

  lemma {:induction false} ExceptTwice(list: seq<string>, a: set<string>, b: set<string>)
    ensures Except(Except(list, a), b) == Except(list, a + b)
  {
    if list != [] {
      ExceptTwice(list[1..], a, b);
      if list[0] !in a {
        assert Except(list, a)[1..] == Except(list[1..], a);
      }
    }
  }

  /** Cutting the only occurrence is taking the element out. */
  lemma {:induction false} CutIsExcept(list: seq<string>, n: string)
    requires NoDuplicates(list) && n in list
    ensures CutFirst(list, n) == Except(list, {n})
  {
    if list[0] == n {
      assert CutFirst(list, n) == list[1..];
      ExceptNone(list[1..], {n});
    } else {
      var rest := list[1..];
      CutIsExcept(rest, n);
      assert CutFirst(list, n) == [list[0]] + CutFirst(rest, n);
    }
  }

  /** What the scan of one job does. */
  lemma SeenSetForm(s: Status, job: Job)
    requires NoDuplicates(s.warming)
    ensures var t := Seen(s, job);
            var done := if job.succeeded then {job.node} else {};
            && t == s.(preheated := t.preheated, warming := Except(s.warming, done))
            && s.preheated <= t.preheated && (forall n :: n in t.preheated <==> n in s.preheated || n in done)
            && NoDuplicates(t.warming)
  {
    var done := if job.succeeded then {job.node} else {};
    ExceptMembers(s.warming, done);
    if job.succeeded && job.node in s.warming {
      CutIsExcept(s.warming, job.node);
    } else {
      ExceptNone(s.warming, done);
    }
  }

  /** For every order of the listing: the succeeded nodes join the preheated list behind those that are on it, the
      warming list loses exactly them and keeps its order, and nothing else changes. */
  lemma {:induction false} ScanSetForm(p: Pass, fails: Faults, listing: seq<Job>)
    requires NoDuplicates(p.mem.warming)
    ensures var f := ScanLoop(p, fails, listing);
            f.Next? ==>
              var s, t := p.mem, f.p.mem;
              && t == s.(preheated := t.preheated, warming := Except(s.warming, DoneNodes(listing)))
              && s.preheated <= t.preheated
              && (forall n :: n in t.preheated <==> n in s.preheated || n in DoneNodes(listing))
              && (p.saved == p.mem ==> f.p.saved == f.p.mem)
    decreases |listing|
  {
    if listing == [] {
      ExceptNone(p.mem.warming, DoneNodes(listing));
    } else {
      var job, rest := listing[0], listing[1..];
      SeenSetForm(p.mem, job);
      var done := if job.succeeded then {job.node} else {};
      assert listing == [job] + rest;
      assert DoneNodes(listing) == done + DoneNodes(rest);
      var q := p.(mem := Seen(p.mem, job));
      ExceptTwice(p.mem.warming, done, DoneNodes(rest));
      if q == p {
        ScanSetForm(p, fails, rest);
      } else if !fails(q.clock) {
        ScanSetForm(Write(q, fails), fails, rest);
      }
    }
  }

  lemma {:induction false} ScanGoesOn(p: Pass, fails: Faults, listing: seq<Job>)
    requires FaultFree(fails)
    ensures ScanLoop(p, fails, listing).Next?
    decreases |listing|
  {
    if listing != [] {
      var q := p.(mem := Seen(p.mem, listing[0]));
      ScanGoesOn(if q == p then p else Write(q, fails), fails, listing[1..]);
    }
  }

  /** With no job of the release at all, the warming nodes go back behind the waiting ones, in memory and saved alike;
      no node is lost or doubled. The pass goes on exactly if there is nothing to save or the write comes through, and
      otherwise the saved status is the old one. */
  lemma NoJobsReset(p: Pass, o: Observation, v: string)
    requires !o.fails(p.clock) && o.list(Finish(p.jobs, o.late), v) == []
    ensures var f, s := Scan(p, o, v), p.mem;
            && f.p.mem == s.(waiting := s.waiting + s.warming, warming := [])
            && f.p.jobs == Finish(p.jobs, o.late)
            && (f.Next? <==> s.warming == [] || !o.fails(p.clock + 1))
            && (f.Next? ==> f.p.saved == if s.warming == [] then p.saved else f.p.mem)
            && (f.Stop? ==> f.end == Failed && f.p.saved == p.saved)
            && multiset(f.p.mem.waiting) + multiset(f.p.mem.warming) == multiset(s.waiting) + multiset(s.warming)
  {
    if p.mem.warming == [] {
      assert p.mem.waiting + [] == p.mem.waiting;
    }
  }
}
