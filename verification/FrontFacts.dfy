/** What the front part of a pass (status reads, condition writes, version fields, early exits, set-up)
    leaves alone, whatever API calls fail. */
module FrontFacts {
  import opened Conditions
  import opened Passes

  /** Two statuses that differ in their conditions at most. */
  ghost predicate SameButConditions(s: Status, t: Status) {
    t == s.(conditions := t.conditions)
  }

  /** The primer reason either stays or is deleted. */
  ghost predicate ReasonFalls(s: Status, t: Status) {
    PrimerReason(t) == PrimerReason(s) || PrimerReason(t) == ""
  }

  /** From `p` to `q` only conditions of other types than the primer's were written, and the primer's at
      most deleted. */
  ghost predicate Quiet(p: Pass, q: Pass) {
    && q.jobs == p.jobs && q.issued == p.issued
    && SameButConditions(p.mem, q.mem) && ReasonFalls(p.mem, q.mem)
    && (q.saved == p.saved || (SameButConditions(p.mem, q.saved) && ReasonFalls(p.mem, q.saved)))
  }

  ghost predicate SparesPrimer(op: ConditionOp) {
    op.Put? ==> op.ctype != PRIMER
  }

  lemma OpIsQuiet(p: Pass, fails: Faults, op: ConditionOp)
    requires SparesPrimer(op)
    ensures Quiet(p, ApplyOp(p, fails, op))
    ensures op.Put? ==> PrimerReason(ApplyOp(p, fails, op).mem) == PrimerReason(p.mem)
  {
    match op
    case Put(t, s, r, m) => UpsertReason(p.mem.conditions, Condition(t, s, r, m, p.clock), PRIMER);
    case Drop(t) => WithoutReason(p.mem.conditions, t, PRIMER);
  }

  lemma {:induction false} OpsAreQuiet(p: Pass, fails: Faults, ops: seq<ConditionOp>)
    requires forall i :: 0 <= i < |ops| ==> SparesPrimer(ops[i])
    ensures Quiet(p, ApplyOps(p, fails, ops))
    decreases |ops|
  {
    if ops != [] {
      OpIsQuiet(p, fails, ops[0]);
      OpsAreQuiet(ApplyOp(p, fails, ops[0]), fails, ops[1..]);
    }
  }

  /** A write of the primer condition. */
  lemma PrimerPut(p: Pass, fails: Faults, status: string, reason: string, message: string)
    ensures var q := ApplyOp(p, fails, Put(PRIMER, status, reason, message));
            && q.jobs == p.jobs && q.issued == p.issued
            && SameButConditions(p.mem, q.mem) && PrimerReason(q.mem) == reason
            && q.saved == (if fails(p.clock) then p.saved else q.mem)
  {
    UpsertReason(p.mem.conditions, Condition(PRIMER, status, reason, message, p.clock), PRIMER);
  }

  /** Lists, jobs, primer reason and completed version that `t` still shares with the saved status of `p`. */
  ghost predicate StillSaved(p: Pass, t: Status) {
    && ListsOf(t) == ListsOf(p.saved)
    && ReasonFalls(p.saved, t)
    && t.versions.lastCompleted == p.saved.versions.lastCompleted
  }

  ghost predicate InStep(p: Pass, q: Pass) {
    && q.jobs == p.jobs && q.issued == p.issued
    && StillSaved(p, q.mem) && StillSaved(p, q.saved)
  }

  ghost predicate Aligned(p: Pass) {
    && ListsOf(p.mem) == ListsOf(p.saved) && PrimerReason(p.mem) == PrimerReason(p.saved)
    && p.mem.versions.lastCompleted == p.saved.versions.lastCompleted
  }

  /** The primer reason that the node lists and the saved reason give. */
  function CheckedReason(saved: Status, primers: seq<string>): string {
    if primers == [] then PRIMER_SKIPPED
    else if AllIn(primers, saved.preheated) then PRIMER_COMPLETED
    else PrimerReason(saved)
  }

  // ---- The parts ----

  lemma InfrastructureFacts(p: Pass, o: Observation)
    requires Aligned(p)
    ensures var f := CheckInfrastructure(p, o);
            && InStep(p, f.p)
            && (f.Next? ==> Aligned(f.p) && PrimerReason(f.p.mem) == PrimerReason(p.saved))
  {
    match o.infrastructure
    case Err(message) =>
      OpsAreQuiet(p, o.fails, NoInfrastructureOps(message));
    case Ok(kind) =>
      if p.mem.versions.infrastructure != kind {
        OpIsQuiet(p.(mem := p.mem.(versions := p.mem.versions.(infrastructure := kind))), o.fails,
                  Put(INFRASTRUCTURE_FOUND, STATUS_TRUE, "InfrastructureFound", "Platform Type: " + kind));
      }
  }

  lemma ReleaseFacts(p: Pass, o: Observation)
    requires Aligned(p)
    ensures var f := CheckRelease(p, o);
            && InStep(p, f.p)
            && (f.Next? ==>
                  && Aligned(f.p) && PrimerReason(f.p.mem) == PrimerReason(p.saved)
                  && f.p.mem.versions.target == f.p.mem.versions.desired == o.release.value.desired)
  {
    match o.release
    case Err(message) =>
      OpsAreQuiet(p, o.fails, NoVersionOps(message));
    case Ok(r) =>
      var q := p.(mem := p.mem.(versions := WithRelease(p.mem.versions, r)));
      OpsAreQuiet(Write(q, o.fails), o.fails, SetupFailedOps(o.errorText));
  }

  lemma PreflightFacts(p: Pass, o: Observation)
    requires !o.disabled && !o.fails(p.clock)
    ensures var f := Preflight(p, o);
            && InStep(p, f.p)
            && (f.Next? ==>
                  && Aligned(f.p) && PrimerReason(f.p.mem) == PrimerReason(p.saved)
                  && f.p.mem.versions.target == f.p.mem.versions.desired == o.release.value.desired)
  {
    var q := Read(p, o.fails);
    InfrastructureFacts(q, o);
    var f := CheckInfrastructure(q, o);
    if f.Next? {
      ReleaseFacts(f.p, o);
    }
  }

  /** The status after the front part, if the pass goes on: the saved lists, the targets and primers of this
      pass, and the primer reason that the lists and the saved reason give, in memory and saved alike. */
  ghost predicate FrontDone(p: Pass, o: Observation, q: Pass)
    requires o.release.Ok? && o.selection.Selected?
  {
    && q.jobs == p.jobs && q.issued == p.issued
    && ListsOf(q.mem) == ListsOf(q.saved) == ListsOf(p.saved)
    && PrimerReason(q.mem) == PrimerReason(q.saved) == CheckedReason(p.saved, o.selection.primers)
    && q.mem.versions.lastCompleted == q.saved.versions.lastCompleted == p.saved.versions.lastCompleted
    && q.mem.versions.target == q.mem.versions.desired == o.release.value.desired
    && q.mem.selected == o.selection.targets && q.mem.selected != []
  }

  /** What the front part can leave saved when it ends the pass. */
  ghost predicate FrontStopped(p: Pass, o: Observation, end: End, q: Pass) {
    && q.jobs == p.jobs && q.issued == p.issued
    && end in {Disabled, NoTargets, AlreadyComplete, Failed}
    && (end == Disabled ==> o.disabled)
    && (end == NoTargets ==> o.selection.Selected? && o.selection.targets == [])
    && (end == AlreadyComplete ==>
          o.selection.Selected? && |o.selection.targets| == |p.saved.preheated| && p.saved.waiting == [])
    && (ListsOf(q.saved) == ListsOf(p.saved) || (ListsOf(q.saved) == NO_LISTS && end in {Disabled, NoTargets}))
    && (ReasonFalls(p.saved, q.saved)
        || (o.selection.Selected? && ListsOf(q.saved) == ListsOf(p.saved)
            && PrimerReason(q.saved) == CheckedReason(p.saved, o.selection.primers)))
    && q.saved.versions.lastCompleted == p.saved.versions.lastCompleted
  }

  lemma PrimerCheckFacts(p: Pass, o: Observation, primers: seq<string>)
    requires Aligned(p)
    ensures var q := PrimerCheck(p, o, primers);
            && q.jobs == p.jobs && q.issued == p.issued
            && SameButConditions(p.mem, q.mem)
            && PrimerReason(q.mem) == CheckedReason(p.saved, primers)
            && (q.saved == p.saved || q.saved == q.mem)
  {
    if primers == [] {
      PrimerPut(p, o.fails, STATUS_FALSE, PRIMER_SKIPPED, "Priming effectively disabled");
    } else if AllIn(primers, p.mem.preheated) {
      PrimerPut(p, o.fails, STATUS_TRUE, PRIMER_COMPLETED, "All primer nodes are preheated");
    }
  }

  lemma SetUpFacts(p: Pass, o: Observation)
    requires Aligned(p)
    ensures var f := SetUp(p, o);
            && InStep(p, f.p)
            && f.p.mem.versions == p.mem.versions && f.p.mem.selected == p.mem.selected
            && (f.Stop? ==> f.end == Failed)
            && (f.Next? ==> Aligned(f.p) && PrimerReason(f.p.mem) == PrimerReason(p.mem))
  {
    if o.resources.Ready? {
      OpIsQuiet(p, o.fails,
                Put(SETUP_COMPLETE, STATUS_TRUE, "AllSetupComplete", "All setup tasks completed successfully"));
    } else {
      OpsAreQuiet(p, o.fails, ResourceOps(o.resources));
    }
  }

  lemma EarlyExitFacts(p: Pass, o: Observation)
    requires ListsOf(p.mem) == ListsOf(p.saved) && p.mem.versions.lastCompleted == p.saved.versions.lastCompleted
    ensures var f := EarlyExit(p, o);
            && f.p.jobs == p.jobs && f.p.issued == p.issued
            && ListsOf(f.p.mem) == ListsOf(f.p.saved) == ListsOf(p.saved)
            && f.p.saved.versions.lastCompleted == p.saved.versions.lastCompleted
            && (PrimerReason(f.p.saved) == PrimerReason(p.saved) || ReasonFalls(p.mem, f.p.saved))
            && (f.Stop? ==> f.end in {AlreadyComplete, Failed})
            && (f == Stop(f.p, AlreadyComplete) ==> |p.mem.selected| == |p.mem.preheated| && p.mem.waiting == [])
            && (f.Next? ==> f.p.mem == f.p.saved == p.mem)
  {
    OpsAreQuiet(p, o.fails, [NOT_RUNNING, Put(COMPLETED, STATUS_TRUE, "ReconciliationCompleted", COMPLETED_MESSAGE)]);
  }

  lemma TargetsFacts(p: Pass, o: Observation)
    requires Aligned(p)
    ensures var f := CheckTargets(p, o);
            && (f.Stop? ==> FrontStopped(p, o, f.end, f.p))
            && (f.Next? ==>
                  && f.p.jobs == p.jobs && f.p.issued == p.issued && f.p.mem == f.p.saved
                  && ListsOf(f.p.mem) == ListsOf(p.saved)
                  && PrimerReason(f.p.mem) == CheckedReason(p.saved, o.selection.primers)
                  && f.p.mem.versions == p.mem.versions
                  && f.p.mem.selected == o.selection.targets && f.p.mem.selected != [])
  {
    match o.selection
    case Unselected(reason, dropRunning, message) =>
      OpsAreQuiet(p, o.fails, UnselectedOps(reason, dropRunning, message));
    case Selected(targets, primers) =>
      if targets == [] {
        OpsAreQuiet(p.(mem := NoLists(p.mem)), o.fails, NoTargetsOps());
      } else {
        var q := p.(mem := p.mem.(selected := targets, primers := primers));
        PrimerCheckFacts(q, o, primers);
        EarlyExitFacts(PrimerCheck(q, o, primers), o);
      }
  }

  lemma DisabledFacts(p: Pass, o: Observation)
    requires ListsOf(p.mem) == ListsOf(p.saved) && p.mem == p.saved
    ensures var q := ApplyOps(p.(mem := NoLists(p.mem)), o.fails, DisabledOps());
            && q.jobs == p.jobs && q.issued == p.issued
            && (ListsOf(q.saved) == ListsOf(p.saved) || ListsOf(q.saved) == NO_LISTS)
            && ReasonFalls(p.saved, q.saved)
            && q.saved.versions.lastCompleted == p.saved.versions.lastCompleted
  {
    OpsAreQuiet(p.(mem := NoLists(p.mem)), o.fails, DisabledOps());
  }

  /** Whatever fails, the front part of a pass creates no job, writes no completed version and moves no node. */
  lemma FrontKeepsLists(p: Pass, o: Observation)
    ensures var f := Front(p, o);
            && (f.Stop? ==> FrontStopped(p, o, f.end, f.p))
            && (f.Next? ==> FrontDone(p, o, f.p))
  {
    var q := Read(p, o.fails);
    if !o.fails(p.clock) {
      if o.disabled {
        DisabledFacts(q, o);
      } else {
        PreflightFacts(p, o);
        var f1 := Preflight(p, o);
        if f1.Next? {
          TargetsFacts(f1.p, o);
          var f2 := CheckTargets(f1.p, o);
          if f2.Next? {
            SetUpFacts(f2.p, o);
          }
        }
      }
    }
  }
}
