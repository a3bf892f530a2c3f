/** The pull jobs of the operator namespace: their names, their fields, and the store that holds them
    by name. */
module PullJobs {

  /** Only the fields that the controller reads back: the node, the release label, and whether
      `status.succeeded` is positive. */
  datatype Job = Job(node: string, release: string, succeeded: bool)

  type JobStore = map<string, Job>

  /** One successful Create, for the audit trail. */
  datatype Issue = Issue(node: string, release: string)

  /** The hash of a release is only known to have a fixed length of eight characters. */
  type Hash = string -> string

  ghost predicate EightCharacters(hash: Hash) {
    forall v :: |hash(v)| == 8
  }

  const INFIX := "-ua-puller-"

  function JobName(hash: Hash, node: string, release: string): string {
    node + INFIX + hash(release)
  }

  /** The name reads: the node, the fixed text, the hash. */
  lemma NameReads(hash: Hash, node: string, release: string)
    ensures var name := JobName(hash, node, release);
            |node| + 11 <= |name| && name[..|node|] == node && name[|node|..|node| + 11] == "-ua-puller-"
            && name[|node| + 11..] == hash(release)
  {
  }

  /** For one release the name determines the node. */
  lemma NameDeterminesNode(hash: Hash, release: string, a: string, b: string)
    requires JobName(hash, a, release) == JobName(hash, b, release)
    ensures a == b
  {
    var suffix := INFIX + hash(release);
    assert JobName(hash, a, release) == a + suffix;
    assert JobName(hash, b, release) == b + suffix;
    assert |a| == |b|;
    assert a == (a + suffix)[..|a|];
    assert b == (b + suffix)[..|b|];
  }

  /** The name also determines the hash of the release, whatever the two nodes are called. */
  lemma NameDeterminesHash(hash: Hash, a: string, v: string, b: string, w: string)
    requires EightCharacters(hash)
    requires JobName(hash, a, v) == JobName(hash, b, w)
    ensures a == b && hash(v) == hash(w)
  {
    var left, right := JobName(hash, a, v), JobName(hash, b, w);
    assert |left| == |a| + 11 + 8 && |right| == |b| + 11 + 8;
    assert left[|a| + 11..] == hash(v);
    assert right[|b| + 11..] == hash(w);
    assert left[..|a|] == a;
    assert right[..|b|] == b;
  }

  ghost predicate HasJob(jobs: JobStore, hash: Hash, node: string, release: string) {
    JobName(hash, node, release) in jobs
  }

  ghost predicate Succeeded(jobs: JobStore, hash: Hash, node: string, release: string) {
    HasJob(jobs, hash, node, release) && jobs[JobName(hash, node, release)].succeeded
  }

  /** Every job of this release sits under its own name, and a name of this release holds such a job. */
  ghost predicate WellNamed(jobs: JobStore, hash: Hash, release: string) {
    && (forall k :: k in jobs && jobs[k].release == release ==> k == JobName(hash, jobs[k].node, release))
    && (forall n :: HasJob(jobs, hash, n, release) ==>
          jobs[JobName(hash, n, release)].release == release && jobs[JobName(hash, n, release)].node == n)
  }

  /** A store that holds jobs of other releases only, none of which collides in the hash, is well named
      for this release and has no job of it. */
  lemma ForeignJobsDoNotCollide(jobs: JobStore, hash: Hash, release: string)
    requires EightCharacters(hash)
    requires forall k :: k in jobs ==> k == JobName(hash, jobs[k].node, jobs[k].release)
    requires forall k :: k in jobs ==> hash(jobs[k].release) != hash(release)
    ensures WellNamed(jobs, hash, release)
    ensures forall n :: !HasJob(jobs, hash, n, release)
  {
    forall n ensures !HasJob(jobs, hash, n, release) {
      if HasJob(jobs, hash, n, release) {
        var k := JobName(hash, n, release);
        NameDeterminesHash(hash, n, release, jobs[k].node, jobs[k].release);
      }
    }
  }

  /** Jobs that end well; the other fields stay. */
  function Finish(jobs: JobStore, names: set<string>): (r: JobStore)
    ensures r.Keys == jobs.Keys
    ensures forall k :: k in jobs ==> r[k] == jobs[k].(succeeded := jobs[k].succeeded || k in names)
  {
    map k | k in jobs :: jobs[k].(succeeded := jobs[k].succeeded || k in names)
  }

  /** What listing by release label returns: the jobs of that release, in whatever order. */
  ghost predicate IsListing(listing: seq<Job>, jobs: JobStore, release: string) {
    && (forall j :: 0 <= j < |listing| ==>
          exists k :: k in jobs && jobs[k] == listing[j] && jobs[k].release == release)
    && (forall k :: k in jobs && jobs[k].release == release ==> jobs[k] in listing)
  }
}
