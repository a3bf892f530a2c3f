/** Whole runs: reconcile passes interleaved with jobs that succeed or disappear. */
module Runs {
  import opened NodeLists
  import opened PullJobs
  import opened Passes

  /** `pass` holds what outlives a pass: the saved status and the job store. `history` remembers every (node,
      release) whose pull job has succeeded, also after the job is gone; `seen` every node ever targeted. */
  datatype World = World(pass: Pass, history: set<Issue>, seen: set<string>)

  datatype Action =
    | Reconciled(cfg: Config, o: Observation)
    | JobSucceeds(name: string)
    | JobDisappears(name: string)

  function Successes(jobs: JobStore): set<Issue> {
    set k | k in jobs && jobs[k].succeeded :: Issue(jobs[k].node, jobs[k].release)
  }

  /** The nodes whose job for this release is in the store and has succeeded. */
  function DoneIn(jobs: JobStore, release: string): set<string> {
    set k | k in jobs && jobs[k].release == release && jobs[k].succeeded :: jobs[k].node
  }

  function TargetsOf(o: Observation): seq<string> {
    if o.selection.Selected? then o.selection.targets else []
  }

  function WithJobs(w: World, jobs: JobStore): World {
    w.(pass := w.pass.(jobs := jobs), history := w.history + Successes(jobs))
  }

  function Step(w: World, a: Action): World {
    match a
    case Reconciled(cfg, o) =>
      var p := Reconcile(w.pass, cfg, o).p;
      WithJobs(w.(pass := p, seen := w.seen + Elements(TargetsOf(o))), p.jobs)
    case JobSucceeds(name) => WithJobs(w, Finish(w.pass.jobs, {name}))
    case JobDisappears(name) => WithJobs(w, w.pass.jobs - {name})
  }

  function Run(w: World, actions: seq<Action>): World {
    if actions == [] then w else Step(Run(w, actions[..|actions| - 1]), actions[|actions| - 1])
  }

  // ---- What the environment owes ----

  /** Selection names no target twice, and primers are targets. */
  ghost predicate WellSelected(o: Observation) {
    o.selection.Selected? ==>
      && NoDuplicates(o.selection.targets)
      && NoDuplicates(o.selection.primers)
      && AllIn(o.selection.primers, o.selection.targets)
  }

  ghost predicate HonestListing(o: Observation) {
    forall jobs, release :: IsListing(o.list(jobs, release), jobs, release)
  }

  /** The cluster asks for release `v`. */
  ghost predicate Asks(o: Observation, v: string) {
    o.release.Ok? ==> o.release.value.desired == v
  }

  ghost predicate Sound(o: Observation, v: string) {
    WellSelected(o) && HonestListing(o) && Asks(o, v)
  }

  /** Every pass of the run asks for `v`. */
  ghost predicate AlwaysAsks(actions: seq<Action>, v: string) {
    forall i :: 0 <= i < |actions| && actions[i].Reconciled? ==> Sound(actions[i].o, v)
  }

  /** No list holds a node and no job of this release exists. Jobs of other releases may. */
  ghost predicate Blank(w: World, v: string) {
    && ListsOf(w.pass.saved) == NO_LISTS
    && (forall k :: k in w.pass.jobs ==> w.pass.jobs[k].release != v)
    && w.history == Successes(w.pass.jobs)
  }
}
