/** What a pass reports in the status besides its lists: the version fields, and the conditions as a map from type to
    content. */
module StatusReport {
  import opened Conditions
  import opened NodeLists
  import opened Passes
  import opened Drain
  import opened Completion

  type Report = map<string, Content>

  // ---- Version fields ----

  /** A pass that gets past its front part has saved the version fields of the cluster and what it selected, whatever
      else failed. The platform is saved exactly if it was before or its condition could be written: that error is
      dropped, and the status is read back. */
  lemma FrontVersions(p: Pass, o: Observation)
    requires Front(p, o).Next?
    ensures o.infrastructure.Ok? && o.release.Ok? && o.selection.Selected?
    ensures var s, t, r, kind := p.saved, Front(p, o).p.saved, o.release.value, o.infrastructure.value;
            && t.selected == o.selection.targets && t.primers == o.selection.primers
            && t.versions == Versions(if s.versions.infrastructure == kind || !o.fails(p.clock + 1) then kind
                                      else s.versions.infrastructure,
                                      r.current, r.desired, r.desired, r.image, s.versions.lastCompleted)
            && Front(p, o).p.mem.versions == t.versions
  {
    var q := Read(p, o.fails);
    var f := CheckInfrastructure(q, o);
    InfrastructureSaved(q, o);
    VersionsSaved(f.p, o);
    TargetsSaved(Preflight(p, o).p, o);
  }

  lemma InfrastructureSaved(p: Pass, o: Observation)
    requires p.saved == p.mem && CheckInfrastructure(p, o).Next?
    ensures o.infrastructure.Ok?
    ensures var q, kind := CheckInfrastructure(p, o).p, o.infrastructure.value;
            && q.saved == q.mem
            && q.mem.versions == if p.mem.versions.infrastructure == kind || !o.fails(p.clock)
                                 then p.mem.versions.(infrastructure := kind) else p.mem.versions
  {
  }

  lemma VersionsSaved(p: Pass, o: Observation)
    requires p.saved == p.mem && CheckRelease(p, o).Next?
    ensures var q, v, r := CheckRelease(p, o).p, p.mem.versions, o.release.value;
            && q.saved == q.mem
            && q.mem.versions == Versions(v.infrastructure, r.current, r.desired, r.desired, r.image, v.lastCompleted)
  {
  }

  lemma TargetsSaved(p: Pass, o: Observation)
    requires CheckTargets(p, o).Next?
    ensures var q := CheckTargets(p, o).p;
            && q.saved == q.mem && q.mem.versions == p.mem.versions
            && q.mem.selected == o.selection.targets && q.mem.primers == o.selection.primers
  {
  }

  // ---- Which errors end the front part ----

  predicate Follows(v: Versions, r: Release) {
    v.current == r.current && v.target == v.desired == r.desired && v.image == r.image
  }

  /** The API calls up to the version fields, up to the selection and up to the node lists. */
  function CallsToVersions(p: Pass, o: Observation): nat
    requires o.infrastructure.Ok?
  {
    p.clock + if p.saved.versions.infrastructure == o.infrastructure.value then 1 else 3
  }

  function CallsToSelection(p: Pass, o: Observation): nat
    requires o.infrastructure.Ok? && o.release.Ok?
  {
    CallsToVersions(p, o) + if Follows(p.saved.versions, o.release.value) then 0 else 2
  }

  function CallsToExit(p: Pass, o: Observation): nat
    requires o.infrastructure.Ok? && o.release.Ok? && o.selection.Selected?
  {
    CallsToSelection(p, o)
    + if forall n :: n in o.selection.primers ==> n in p.saved.preheated then 1 else 0
  }

  /** The object is read; the platform, if it changed, is read back, the error of its write being dropped; version
      fields, if they changed, are written and read back. */
  ghost predicate Prepared(p: Pass, o: Observation) {
    && !o.disabled && o.infrastructure.Ok? && o.release.Ok? && !o.fails(p.clock)
    && (p.saved.versions.infrastructure != o.infrastructure.value ==> !o.fails(p.clock + 2))
    && (Follows(p.saved.versions, o.release.value)
        || (!o.fails(CallsToVersions(p, o)) && !o.fails(CallsToVersions(p, o) + 1)))
  }

  lemma PreparedExactly(p: Pass, o: Observation)
    ensures var f := Preflight(p, o);
            && (f.Next? <==> Prepared(p, o))
            && (f.Next? ==>
                  f.p.clock == CallsToSelection(p, o) && f.p.mem == f.p.saved && ListsOf(f.p.mem) == ListsOf(p.saved))
  {
  }

  /** Exactly which passes get to their node lists: the exit test does not fire, the resources are there, and the status
      with the selection is written and read back. The errors of all other condition writes are dropped. */
  lemma GoesOnExactly(p: Pass, o: Observation)
    ensures Front(p, o).Next? <==>
              && Prepared(p, o) && o.selection.Selected? && o.selection.targets != []
              && !(|o.selection.targets| == |p.saved.preheated| && p.saved.waiting == [])
              && !o.fails(CallsToExit(p, o)) && !o.fails(CallsToExit(p, o) + 1) && o.resources.Ready?
    ensures Front(p, o).Next? ==> Front(p, o).p.clock == CallsToExit(p, o) + 3
  {
    PreparedExactly(p, o);
    if Prepared(p, o) {
      SelectionExactly(Preflight(p, o).p, o);
    }
  }

  lemma SelectionExactly(p: Pass, o: Observation)
    ensures var f := CheckTargets(p, o);
            f.Next? <==>
              && o.selection.Selected? && o.selection.targets != []
              && !(|o.selection.targets| == |p.mem.preheated| && p.mem.waiting == [])
              && var c := p.clock + if AllIn(o.selection.primers, p.mem.preheated) then 1 else 0;
              !o.fails(c) && !o.fails(c + 1)
    ensures CheckTargets(p, o).Next? ==>
              CheckTargets(p, o).p.clock == p.clock + if AllIn(o.selection.primers, p.mem.preheated) then 3 else 2
  {
  }

  // ---- Condition calls on the map ----

  /** Calls in a row, the first one first. */
  ghost function AfterOps(m: Report, ops: seq<ConditionOp>): Report
    decreases |ops|
  {
    if ops == [] then m else AfterOps(ApplyToMap(m, ops[0]), ops[1..])
  }

  lemma {:induction false} AfterBoth(m: Report, a: seq<ConditionOp>, b: seq<ConditionOp>)
    ensures AfterOps(m, a + b) == AfterOps(AfterOps(m, a), b)
    decreases |a|
  {
    if a == [] {
      assert a + b == b;
    } else {
      assert (a + b)[1..] == a[1..] + b;
      AfterBoth(ApplyToMap(m, a[0]), a[1..], b);
    }
  }

  lemma {:induction false} AfterDrops(m: Report, types: seq<string>)
    ensures AfterOps(m, Drops(types)) == m - Elements(types)
    decreases |types|
  {
    if types != [] {
      assert Drops(types)[1..] == Drops(types[1..]);
      AfterDrops(m - {types[0]}, types[1..]);
      assert types == [types[0]] + types[1..];
    }
  }

  lemma OpOnMap(cs: seq<Condition>, op: ConditionOp, now: nat)
    ensures AsMap(Apply(cs, op, now)) == ApplyToMap(AsMap(cs), op)
  {
    match op
    case Put(t, s, r, m) => UpsertMap(cs, Condition(t, s, r, m, now));
    case Drop(t) => WithoutMap(cs, t);
  }

  ghost function ReportOf(s: Status): Report {
    AsMap(s.conditions)
  }

  /** When no write fails, the calls do to the saved map what they say. */
  lemma {:induction false} OpsOnMap(p: Pass, fails: Faults, ops: seq<ConditionOp>)
    requires FaultFree(fails)
    ensures var q := ApplyOps(p, fails, ops);
            && ReportOf(q.mem) == AfterOps(ReportOf(p.mem), ops)
            && q.mem == p.mem.(conditions := q.mem.conditions)
            && (ops != [] || p.saved == p.mem ==> q.saved == q.mem)
    decreases |ops|
  {
    if ops != [] {
      OpOnMap(p.mem.conditions, ops[0], p.clock);
      OpsOnMap(ApplyOp(p, fails, ops[0]), fails, ops[1..]);
    }
  }

  // ---- The reports of the front part ----

  ghost function Disabling(m: Report): Report {
    m["Running" := Content("False", "UpdateAcceleratorDisabled", "UpgradeAccelerator is disabled")]
    - {"Failure", "Successful", "InfrastructureFound", "Primer", "PrimingInProgress", "SetupComplete"}
  }

  ghost function WithoutInfrastructure(m: Report, text: string): Report {
    m["InfrastructureFound" := Content("False", "InfrastructureNotFound", text)]
     ["Failure" := Content("True", "GetInfrastructureFailed", text)]
    - {"Successful", "Primer", "PrimingInProgress", "SetupComplete"}
  }

  ghost function SettingUpFailed(m: Report, text: string): Report {
    m["Failure" := Content("True", "SetupFailed", text)]
    - {"Running", "Successful", "Primer", "PrimingInProgress", "SetupComplete"}
  }

  ghost function Selectionless(m: Report, reason: string, dropRunning: bool, text: string): Report {
    m["Failure" := Content("True", reason, text)]
    - ({"Successful", "Primer", "PrimingInProgress", "SetupComplete"} + if dropRunning then {"Running"} else {})
  }

  ghost function Targetless(m: Report): Report {
    m["Running" := Content("False", "NoNodesSelected", "No targeted nodes found")]
    - {"Successful", "Primer", "PrimingInProgress", "SetupComplete"}
  }

  ghost function Done(m: Report): Report {
    m["Running" := Content("False", "ReconciliationCompleted", "All targeted nodes have completed")]
     ["Completed" := Content("True", "ReconciliationCompleted", "All targeted nodes have completed")]
  }

  /** The report after the front part of a pass on which nothing fails. */
  ghost function FrontReport(p: Pass, o: Observation): Report {
    var m := ReportOf(p.saved);
    if o.disabled then Disabling(m)
    else if o.infrastructure.Err? then WithoutInfrastructure(m, o.infrastructure.message)
    else if o.release.Err? then SettingUpFailed(Found(p, o), o.release.message)
    else
      match o.selection
      case Unselected(reason, dropRunning, text) => Selectionless(Found(p, o), reason, dropRunning, text)
      case Selected(targets, primers) => if targets == [] then Targetless(Found(p, o)) else SelectedReport(p, o)
  }

  ghost function Found(p: Pass, o: Observation): Report
    requires o.infrastructure.Ok?
  {
    if p.saved.versions.infrastructure == o.infrastructure.value then ReportOf(p.saved)
    else
      ReportOf(p.saved)
        ["InfrastructureFound" := Content("True", "InfrastructureFound", "Platform Type: " + o.infrastructure.value)]
  }

  ghost function Primed(m: Report, preheated: seq<string>, primers: seq<string>): Report {
    if primers == [] then m["Primer" := Content("False", "PrimingSkipped", "Priming effectively disabled")]
    else if forall n :: n in primers ==> n in preheated
    then m["Primer" := Content("True", "PrimingCompleted", "All primer nodes are preheated")]
    else m
  }

  ghost function SelectedReport(p: Pass, o: Observation): Report
    requires o.infrastructure.Ok? && o.selection.Selected?
  {
    var m := Primed(Found(p, o), p.saved.preheated, o.selection.primers);
    if |o.selection.targets| == |p.saved.preheated| && p.saved.waiting == [] then Done(m)
    else if !o.resources.Ready? then SettingUpFailed(m, o.resources.message)
    else m["SetupComplete" := Content("True", "AllSetupComplete", "All setup tasks completed successfully")]
  }

  // ---- The condition lists of the code ----

  lemma PutAndDrop(m: Report, put: ConditionOp, types: seq<string>)
    ensures AfterOps(m, [put] + Drops(types)) == ApplyToMap(m, put) - Elements(types)
  {
    AfterDrops(ApplyToMap(m, put), types);
    assert ([put] + Drops(types))[1..] == Drops(types);
  }

  lemma DisabledReport(m: Report)
    ensures AfterOps(m, DisabledOps()) == Disabling(m)
  {
    var types := [FAILURE, SUCCESSFUL, INFRASTRUCTURE_FOUND] + PRIMING_TYPES;
    PutAndDrop(m, DisabledOps()[0], types);
    assert Elements(types) == {FAILURE, SUCCESSFUL, INFRASTRUCTURE_FOUND, PRIMER, PRIMING_IN_PROGRESS, SETUP_COMPLETE};
  }

  lemma InfrastructureReport(m: Report, text: string)
    ensures AfterOps(m, NoInfrastructureOps(text)) == WithoutInfrastructure(m, text)
  {
    var types := [SUCCESSFUL] + PRIMING_TYPES;
    var first, fail := NoInfrastructureOps(text)[0], Fail("GetInfrastructureFailed", text);
    assert NoInfrastructureOps(text)[1..] == [fail] + Drops(types);
    PutAndDrop(ApplyToMap(m, first), fail, types);
    assert Elements(types) == {SUCCESSFUL, PRIMER, PRIMING_IN_PROGRESS, SETUP_COMPLETE};
  }

  lemma SetupReport(m: Report, text: string)
    ensures AfterOps(m, SetupFailedOps(text)) == SettingUpFailed(m, text)
  {
    var types := [RUNNING, SUCCESSFUL] + PRIMING_TYPES;
    PutAndDrop(m, Fail("SetupFailed", text), types);
    assert Elements(types) == {RUNNING, SUCCESSFUL, PRIMER, PRIMING_IN_PROGRESS, SETUP_COMPLETE};
  }

  /** The reason that the first error report gives is overwritten by the second. */
  lemma ReleaseReport(m: Report, text: string)
    ensures AfterOps(m, NoVersionOps(text)) == SettingUpFailed(m, text)
  {
    var types := [SUCCESSFUL, RUNNING] + PRIMING_TYPES;
    var first := [Fail("GetClusterVersionFailed", text)] + Drops(types);
    AfterBoth(m, first, SetupFailedOps(text));
    PutAndDrop(m, first[0], types);
    SetupReport(AfterOps(m, first), text);
    assert Elements(types) == {SUCCESSFUL, RUNNING, PRIMER, PRIMING_IN_PROGRESS, SETUP_COMPLETE};
  }

  lemma SelectionReport(m: Report, reason: string, dropRunning: bool, text: string)
    ensures AfterOps(m, UnselectedOps(reason, dropRunning, text)) == Selectionless(m, reason, dropRunning, text)
  {
    var types := (if dropRunning then [SUCCESSFUL, RUNNING] else [SUCCESSFUL]) + PRIMING_TYPES;
    PutAndDrop(m, Fail(reason, text), types);
    assert Elements(types) == {SUCCESSFUL, PRIMER, PRIMING_IN_PROGRESS, SETUP_COMPLETE}
                              + if dropRunning then {RUNNING} else {};
  }

  lemma TargetlessReport(m: Report)
    ensures AfterOps(m, NoTargetsOps()) == Targetless(m)
  {
    var types := [SUCCESSFUL] + PRIMING_TYPES;
    PutAndDrop(m, NoTargetsOps()[0], types);
    assert Elements(types) == {SUCCESSFUL, PRIMER, PRIMING_IN_PROGRESS, SETUP_COMPLETE};
  }

  lemma DoneReport(m: Report)
    ensures AfterOps(m, [NOT_RUNNING, Put(COMPLETED, STATUS_TRUE, "ReconciliationCompleted", COMPLETED_MESSAGE)])
         == Done(m)
  {
    var done := Put(COMPLETED, STATUS_TRUE, "ReconciliationCompleted", COMPLETED_MESSAGE);
    assert [NOT_RUNNING, done][1..] == [done] && [done][1..] == [];
    assert AfterOps(m, [NOT_RUNNING, done]) == AfterOps(ApplyToMap(m, NOT_RUNNING), [done]);
    assert AfterOps(ApplyToMap(m, NOT_RUNNING), [done]) == ApplyToMap(ApplyToMap(m, NOT_RUNNING), done);
  }

  /** Whatever a resource fails with, the failure and the missing types are what remains of its report. */
  lemma ResourceReport(m: Report, r: Resources)
    requires !r.Ready?
    ensures AfterOps(m, ResourceOps(r)) == SettingUpFailed(m, r.message)
  {
    var first := ResourceOps(r)[..|ResourceOps(r)| - |SetupFailedOps(r.message)|];
    assert ResourceOps(r) == first + SetupFailedOps(r.message);
    AfterBoth(m, first, SetupFailedOps(r.message));
    SetupReport(AfterOps(m, first), r.message);
    FirstResourceReport(m, r, first);
  }

  /** Two reports that differ in types which a failed set-up deletes or overwrites. */
  ghost predicate AgreeElsewhere(m: Report, n: Report) {
    m - {"Failure", "Running", "Successful", "Primer", "PrimingInProgress", "SetupComplete"}
    == n - {"Failure", "Running", "Successful", "Primer", "PrimingInProgress", "SetupComplete"}
  }

  ghost predicate Touches(op: ConditionOp) {
    op.ctype in {"Failure", "Running", "Successful", "Primer", "PrimingInProgress", "SetupComplete"}
  }

  lemma {:induction false} TouchingAgrees(m: Report, ops: seq<ConditionOp>)
    requires forall i :: 0 <= i < |ops| ==> Touches(ops[i])
    ensures AgreeElsewhere(AfterOps(m, ops), m)
    decreases |ops|
  {
    if ops != [] {
      TouchingAgrees(ApplyToMap(m, ops[0]), ops[1..]);
      assert AgreeElsewhere(ApplyToMap(m, ops[0]), m);
    }
  }

  lemma FirstResourceReport(m: Report, r: Resources, first: seq<ConditionOp>)
    requires !r.Ready? && ResourceOps(r) == first + SetupFailedOps(r.message)
    ensures SettingUpFailed(AfterOps(m, first), r.message) == SettingUpFailed(m, r.message)
  {
    forall i | 0 <= i < |first| ensures Touches(first[i]) {
      assert first[i] == ResourceOps(r)[i];
    }
    TouchingAgrees(m, first);
    SameWhenFailed(AfterOps(m, first), m, r.message);
  }

  lemma SameWhenFailed(m: Report, n: Report, text: string)
    requires AgreeElsewhere(m, n)
    ensures SettingUpFailed(m, text) == SettingUpFailed(n, text)
  {
    var gone := {"Failure", "Running", "Successful", "Primer", "PrimingInProgress", "SetupComplete"};
    forall k | k !in gone ensures k in m <==> k in n { assert k in m - gone <==> k in n - gone; }
    forall k | k in m && k !in gone ensures m[k] == n[k] { assert (m - gone)[k] == (n - gone)[k]; }
  }

  // ---- The front part ----

  lemma InfrastructureStep(p: Pass, o: Observation)
    requires FaultFree(o.fails) && p.saved == p.mem
    ensures var f := CheckInfrastructure(p, o);
            && (f.Next? <==> o.infrastructure.Ok?) && f.p.saved == f.p.mem && ListsOf(f.p.mem) == ListsOf(p.mem)
            && ReportOf(f.p.mem) == if o.infrastructure.Err?
                                    then WithoutInfrastructure(ReportOf(p.mem), o.infrastructure.message)
                                    else Found(p, o)
  {
    match o.infrastructure
    case Err(text) =>
      OpsOnMap(p, o.fails, NoInfrastructureOps(text));
      InfrastructureReport(ReportOf(p.mem), text);
    case Ok(kind) =>
      OpOnMap(p.mem.conditions,
              Put(INFRASTRUCTURE_FOUND, STATUS_TRUE, "InfrastructureFound", "Platform Type: " + kind), p.clock);
  }

  lemma ReleaseStep(p: Pass, o: Observation)
    requires FaultFree(o.fails) && p.saved == p.mem
    ensures var f := CheckRelease(p, o);
            && (f.Next? <==> o.release.Ok?) && f.p.saved == f.p.mem && ListsOf(f.p.mem) == ListsOf(p.mem)
            && ReportOf(f.p.mem) == if o.release.Err? then SettingUpFailed(ReportOf(p.mem), o.release.message)
                                    else ReportOf(p.mem)
  {
    match o.release
    case Err(text) =>
      OpsOnMap(p, o.fails, NoVersionOps(text));
      ReleaseReport(ReportOf(p.mem), text);
    case Ok(r) =>
  }

  /** From selected targets on. */
  ghost function TargetsReport(p: Pass, o: Observation): Report {
    match o.selection
    case Unselected(reason, dropRunning, text) => Selectionless(ReportOf(p.mem), reason, dropRunning, text)
    case Selected(targets, primers) =>
      if targets == [] then Targetless(ReportOf(p.mem))
      else
        var m := Primed(ReportOf(p.mem), p.mem.preheated, primers);
        if |targets| == |p.mem.preheated| && p.mem.waiting == [] then Done(m) else m
  }

  lemma TargetsStep(p: Pass, o: Observation)
    requires FaultFree(o.fails) && p.saved == p.mem
    ensures var f := CheckTargets(p, o);
            && (f.Next? <==> o.selection.Selected? && o.selection.targets != []
                             && !(|o.selection.targets| == |p.mem.preheated| && p.mem.waiting == []))
            && f.p.saved == f.p.mem && ReportOf(f.p.mem) == TargetsReport(p, o)
  {
    match o.selection
    case Unselected(reason, dropRunning, text) =>
      OpsOnMap(p, o.fails, UnselectedOps(reason, dropRunning, text));
      SelectionReport(ReportOf(p.mem), reason, dropRunning, text);
    case Selected(targets, primers) =>
      if targets == [] {
        OpsOnMap(p.(mem := NoLists(p.mem)), o.fails, NoTargetsOps());
        TargetlessReport(ReportOf(p.mem));
      } else {
        PrimerStep(p.(mem := p.mem.(selected := targets, primers := primers)), o, primers);
      }
  }

  lemma PrimerStep(p: Pass, o: Observation, primers: seq<string>)
    requires FaultFree(o.fails)
    ensures var q := PrimerCheck(p, o, primers);
            var f := EarlyExit(q, o);
            var m := Primed(ReportOf(p.mem), p.mem.preheated, primers);
            && f.p.saved == f.p.mem
            && (f.Next? <==> !(|p.mem.selected| == |p.mem.preheated| && p.mem.waiting == []))
            && ReportOf(f.p.mem) == if f.Next? then m else Done(m)
  {
    OpOnMap(p.mem.conditions, Put(PRIMER, STATUS_FALSE, PRIMER_SKIPPED, "Priming effectively disabled"), p.clock);
    OpOnMap(p.mem.conditions, Put(PRIMER, STATUS_TRUE, PRIMER_COMPLETED, "All primer nodes are preheated"), p.clock);
    var q := PrimerCheck(p, o, primers);
    OpsOnMap(q, o.fails, [NOT_RUNNING, Put(COMPLETED, STATUS_TRUE, "ReconciliationCompleted", COMPLETED_MESSAGE)]);
    DoneReport(ReportOf(q.mem));
  }

  lemma SetUpStep(p: Pass, o: Observation)
    requires FaultFree(o.fails) && p.saved == p.mem
    ensures var f, m := SetUp(p, o), ReportOf(p.mem);
            && f.p.saved == f.p.mem
            && ReportOf(f.p.mem) == if !o.resources.Ready? then SettingUpFailed(m, o.resources.message)
                                    else m["SetupComplete" := Content("True", "AllSetupComplete",
                                                                     "All setup tasks completed successfully")]
  {
    if o.resources.Ready? {
      OpOnMap(p.mem.conditions,
              Put(SETUP_COMPLETE, STATUS_TRUE, "AllSetupComplete", "All setup tasks completed successfully"), p.clock);
    } else {
      OpsOnMap(p, o.fails, ResourceOps(o.resources));
      ResourceReport(ReportOf(p.mem), o.resources);
    }
  }

  /** The main theorem on reports: the exact map of conditions that the front part of a pass leaves saved when no write
      or read of the status fails, for each of its ways to end and for going on. */
  lemma FrontReports(p: Pass, o: Observation)
    requires FaultFree(o.fails)
    ensures ReportOf(Front(p, o).p.saved) == FrontReport(p, o)
  {
    var q := Read(p, o.fails);
    if o.disabled {
      OpsOnMap(q.(mem := NoLists(q.mem)), o.fails, DisabledOps());
      DisabledReport(ReportOf(q.mem));
    } else {
      InfrastructureStep(q, o);
      var f := CheckInfrastructure(q, o);
      if f.Next? {
        ReleaseStep(f.p, o);
        BehindRelease(p, CheckRelease(f.p, o), o);
      }
    }
  }

  lemma BehindRelease(p: Pass, f: Flow, o: Observation)
    requires FaultFree(o.fails) && !o.disabled && o.infrastructure.Ok? && (f.Next? <==> o.release.Ok?)
    requires f.Next? ==>
               f.p.saved == f.p.mem && ListsOf(f.p.mem) == ListsOf(p.saved) && ReportOf(f.p.mem) == Found(p, o)
    ensures f.Next? ==>
              var g := CheckTargets(f.p, o);
              var h := if g.Stop? then g else SetUp(g.p, o);
              ReportOf(h.p.saved) == FrontReport(p, o)
  {
    if f.Next? {
      TargetsStep(f.p, o);
      var g := CheckTargets(f.p, o);
      if g.Next? {
        SetUpStep(g.p, o);
      }
    }
  }

  // ---- The reports behind it ----

  /** A put on which the write comes through. */
  lemma PutReports(p: Pass, fails: Faults, ctype: string, status: string, reason: string, text: string)
    requires FaultFree(fails)
    ensures var q := ApplyOp(p, fails, Put(ctype, status, reason, text));
            q.saved == q.mem && ReportOf(q.mem) == ReportOf(p.mem)[ctype := Content(status, reason, text)]
  {
    OpOnMap(p.mem.conditions, Put(ctype, status, reason, text), p.clock);
  }

  /** The primer round on which no write fails says that primers were scheduled, that some are warming, or that all are
      done. */
  lemma RoundReports(p: Pass, fails: Faults, primers: seq<string>, scheduled: bool, running: bool)
    requires FaultFree(fails)
    ensures var q, m := PrimerConditions(p, fails, primers, scheduled, running), ReportOf(p.mem);
            var names := Join(primers, ", ");
            && q.saved == q.mem
            && ReportOf(q.mem) ==
                 if !scheduled && !running
                 then m["Primer" := Content("True", "PrimingCompleted", "Primer nodes warming completed: " + names)]
                 else Underway(m, names, scheduled, running)
  {
    var names := Join(primers, ", ");
    PutReports(p, fails, PRIMER, STATUS_TRUE, PRIMER_IN_PROGRESS, "Primer nodes warming in progress: " + names);
    PutReports(p, fails, PRIMER, STATUS_TRUE, PRIMER_COMPLETED, "Primer nodes warming completed: " + names);
    var q := if scheduled then
               ApplyOp(p, fails,
                       Put(PRIMER, STATUS_TRUE, PRIMER_IN_PROGRESS, "Primer nodes warming in progress: " + names))
             else p;
    PutReports(q, fails, RUNNING, STATUS_TRUE, "JobsScheduled", "Following primer nodes currently warming: " + names);
  }

  ghost function Underway(m: Report, names: string, scheduled: bool, running: bool): Report {
    var n := if scheduled
             then m["Primer" := Content("True", "PrimingInProgress", "Primer nodes warming in progress: " + names)]
             else m;
    if running
    then n["Running" := Content("True", "JobsScheduled", "Following primer nodes currently warming: " + names)]
    else n
  }

  /** The dispatch behind an open gate on which no write fails reports the nodes in the cells that it went through. */
  lemma DispatchReports(p: Pass, cfg: Config, o: Observation)
    requires FaultFree(o.fails) && GateOpen(p.mem) && Dispatch(p, cfg, o).Next?
    ensures var q, round := Dispatch(p, cfg, o).p, DispatchNodes(p, cfg, o.fails);
            && q.saved == q.mem
            && ReportOf(q.mem) == ReportOf(round.flow.p.mem)
                 ["Running" := Content("True", "JobsScheduled",
                                       "Following nodes currently warming: " + Join(round.cells, ", "))]
  {
    var round := DispatchNodes(p, cfg, o.fails);
    OpOnMap(round.flow.p.mem.conditions, Warming("Following nodes currently warming: " + Join(round.cells, ", ")),
            round.flow.p.clock);
  }

  /** A pass that completes, whatever failed before, leaves the accelerator reported as not running. */
  lemma CompletedReports(p: Pass, cfg: Config, o: Observation)
    requires Reconcile(p, cfg, o).end == Completed
    ensures var m := ReportOf(Reconcile(p, cfg, o).p.saved);
            && "Running" in m
            && m["Running"] == Content("False", "ReconciliationCompleted", "All targeted nodes have completed")
  {
    ScannedEnds(p, cfg, o);
    var q := Scanned(p, cfg, o).p;
    OpOnMap(q.mem.conditions, NOT_RUNNING, q.clock);
  }

  /** A batch reports the nodes that it took off the front of the list; a negative parallelism reports none. */
  lemma BatchReports(p: Pass, cfg: Config, o: Observation)
    requires FaultFree(o.fails) && GateOpen(p.mem) && Dispatch(p, cfg, o).Next? && cfg.parallelism != 0
    ensures var q, w := Dispatch(p, cfg, o).p, p.mem.waiting;
            var batch := if cfg.parallelism < 0 then [] else w[..Min(cfg.parallelism, |w|)];
            && "Running" in ReportOf(q.saved)
            && ReportOf(q.saved)["Running"]
               == Content("True", "JobsScheduled", "Following nodes currently warming: " + Join(batch, ", "))
  {
    DispatchReports(p, cfg, o);
    var w := p.mem.waiting;
    assert w[..0] == [];
    if cfg.parallelism > |w| { assert w[..|w|] == w; }
  }

  /** The end of a pass that finds all nodes preheated: it completes exactly if both status writes come through. If the
      first one fails nothing is saved, and if the second one fails the release is not saved as completed. */
  lemma CompletesExactlyIfWritten(p: Pass, o: Observation)
    requires p.mem.waiting == [] && p.mem.warming == [] && |p.mem.preheated| == |p.mem.selected|
    requires p.saved == p.mem
    ensures var f := Conclude(p, o);
            && (f.end == Completed <==> !o.fails(p.clock) && !o.fails(p.clock + 1))
            && (f.end != Completed ==> f.end == Failed && f.p.saved.versions == p.saved.versions)
            && (o.fails(p.clock) ==> f.p.saved == p.saved)
            && (f.end == Completed ==>
                  f.p.saved.versions == p.saved.versions.(lastCompleted := p.saved.versions.target))
  {
  }
}
