/**
 Which tasks can still succeed: every open one whose arguments are intact, unless its failure was recorded on the task
 but not on its current step. The continuation is built step by step, whatever has happened to the task before.
 */
module AgentProgress {
  import opened Options
  import opened AgentRows
  import opened AgentRouting
  import opened AgentSystem
  import opened AgentInvariant
  import opened AgentFootprint
  import opened AgentTheorems
  import opened AgentCalls
  import opened AgentResume
  import opened AgentOrder

  // ----- continuations -----

  lemma {:induction false} ExecSplit(s: Sys, first: seq<Label>, rest: seq<Label>)
    ensures Exec(s, first + rest) == Exec(Exec(s, first), rest)
    decreases |rest|
  {
    if rest == [] {
      assert first + rest == first;
    } else {
      var before := rest[..|rest| - 1];
      ExecSplit(s, first, before);
      assert (first + rest)[..|first + rest| - 1] == first + before;
    }
  }

  /** Some continuation ends with the task succeeded. */
  ghost predicate CanSucceed(s: Sys) {
    exists labels :: Exec(s, labels).db.task.status == Succeeded
  }

  lemma SucceedAfter(s: Sys, l: Label)
    requires CanSucceed(Step(s, l))
    ensures CanSucceed(s)
  {
    var labels :| Exec(Step(s, l), labels).db.task.status == Succeeded;
    assert [l][..0] == [];
    assert Exec(s, [l]) == Step(s, l);
    ExecSplit(s, [l], labels);
    assert Exec(s, [l] + labels).db.task.status == Succeeded;
  }

  lemma ReachableStep(s: Sys, l: Label)
    requires Reachable(s)
    ensures Reachable(Step(s, l))
  {
    assert [l][..0] == [];
    assert Exec(s, [l]) == Step(s, l);
    ReachableExec(s, [l]);
  }

  // ----- what is left to do -----

  predicate Approvable(row: StepRow) {
    row.policy.requiresApproval && row.decision != Approved
  }

  /** Approval and execution each count one, and a recorded failure two. */
  function Cost(row: StepRow): nat {
    if row.kind != Tool || row.status == StepSucceeded then 0
    else (if Approvable(row) then 2 else 1) + if row.status == StepFailed then 2 else 0
  }

  function Work(steps: seq<StepRow>): nat {
    if steps == [] then 0 else Work(steps[..|steps| - 1]) + Cost(steps[|steps| - 1])
  }

  ghost predicate NoDearer(a: seq<StepRow>, b: seq<StepRow>) {
    |a| == |b| && forall i :: 0 <= i < |a| ==> Cost(b[i]) <= Cost(a[i])
  }

  lemma {:induction false} WorkNoMore(a: seq<StepRow>, b: seq<StepRow>)
    requires NoDearer(a, b)
    ensures Work(b) <= Work(a)
  {
    if a != [] {
      WorkNoMore(a[..|a| - 1], b[..|b| - 1]);
    }
  }

  lemma {:induction false} WorkLess(a: seq<StepRow>, b: seq<StepRow>, k: nat)
    requires NoDearer(a, b) && k < |a| && Cost(b[k]) < Cost(a[k])
    ensures Work(b) < Work(a)
  {
    var n := |a| - 1;
    if k < n {
      WorkLess(a[..n], b[..n], k);
    } else {
      WorkNoMore(a[..n], b[..n]);
    }
  }

  /** Every tool step still carries the arguments its digest was taken of. */
  ghost predicate AllIntact(steps: seq<StepRow>) {
    forall i :: 1 <= i < |steps| && steps[i].kind == Tool ==> Intact(steps[i])
  }

  // ----- driving the lease holder -----

  /** The latest run holds an unexpired lease and stands at `pc`. */
  ghost predicate Driving(s: Sys, r: nat, pc: Pc) {
    && Reachable(s) && r == |s.runs| - 1 && s.runs[r].pc == pc
    && Fence(s.db.task, s.runs[r].token, 0) && LeaseStatus(s.db.task.status)
  }

  /** Everything succeeds; `policy` is what the registry says of the tool, `plan` what the planner proposes. */
  function Smooth(policy: Policy, plan: seq<StepRow>): Env {
    Env(true, true, true, plan, policy, 0)
  }

  const NO_POLICY := Policy(0, false, false, false, false)

  const EASY := Smooth(NO_POLICY, [])

  function Go(r: nat, env: Env): Label {
    Advances(r, 0, Committed, env)
  }

  lemma DrivingMeans(s: Sys, r: nat, pc: Pc)
    requires Driving(s, r, pc)
    ensures Core(s) && Order(s) && Holds(s, r) && Standing(s.db, pc)
  {
    ReachableInv(s);
    ReachableOrder(s);
    HolderOrder(s, r);
  }

  /** A step that only moves the run. */
  lemma DriveMove(s: Sys, r: nat, pc: Pc, env: Env, next: Pc)
    requires Driving(s, r, pc) && Step(s, Go(r, env)) == Goto(s, r, next)
    ensures Driving(Step(s, Go(r, env)), r, next) && Step(s, Go(r, env)).db == s.db
  {
    ReachableStep(s, Go(r, env));
  }

  lemma DriveStepWrite(s: Sys, r: nat, pc: Pc, env: Env, x: StepId, patch: StepPatch, good: Pc, bad: Pc)
    requires Driving(s, r, pc) && Step(s, Go(r, env)) == WriteStep(s, r, 0, Committed, x, patch, good, bad)
    requires HasStep(s.db.steps, x)
    ensures var s' := Step(s, Go(r, env));
            Driving(s', r, good) && s'.db == s.db.(steps := PatchRows(s.db.steps, x, patch))
  {
    ReachableStep(s, Go(r, env));
  }

  lemma DriveTaskWrite(s: Sys, r: nat, pc: Pc, env: Env, patch: TaskPatch, good: Pc, bad: Pc)
    requires Driving(s, r, pc) && Step(s, Go(r, env)) == WriteTask(s, r, 0, Committed, patch, good, bad)
    requires !patch.releaseLease && (patch.status.Some? ==> LeaseStatus(patch.status.value))
    ensures var s' := Step(s, Go(r, env));
            Driving(s', r, good) && s'.db == s.db.(task := PatchTask(s.db.task, patch, 0))
  {
    ReachableStep(s, Go(r, env));
  }

  // ----- after the last tool step -----

  lemma FinalTaskSucceeds(s: Sys, r: nat, x: StepId)
    requires Driving(s, r, FinalTask(x))
    ensures CanSucceed(s)
  {
    var s' := Step(s, Go(r, EASY));
    assert s'.db.task.status == Succeeded;
    assert Exec(s', []).db.task.status == Succeeded;
    SucceedAfter(s, Go(r, EASY));
  }

  lemma FinalSaveSucceeds(s: Sys, r: nat, x: StepId)
    requires Driving(s, r, FinalSave(x))
    ensures CanSucceed(s)
  {
    DrivingMeans(s, r, FinalSave(x));
    FinalSaveIs(s, r, 0, Committed, EASY);
    DriveStepWrite(s, r, FinalSave(x), EASY, x, JustStatus(StepSucceeded), FinalTask(x), FailRead);
    FinalTaskSucceeds(Step(s, Go(r, EASY)), r, x);
    SucceedAfter(s, Go(r, EASY));
  }

  lemma FinalMarkSucceeds(s: Sys, r: nat, x: StepId)
    requires Driving(s, r, FinalMark(x))
    ensures CanSucceed(s)
  {
    DrivingMeans(s, r, FinalMark(x));
    FinalMarkIs(s, r, 0, Committed, EASY);
    DriveStepWrite(s, r, FinalMark(x), EASY, x, JustStatus(StepRunning), FinalSave(x), FailRead);
    FinalSaveSucceeds(Step(s, Go(r, EASY)), r, x);
    SucceedAfter(s, Go(r, EASY));
  }

  lemma FinalReadSucceeds(s: Sys, r: nat)
    requires Driving(s, r, FinalRead)
    ensures CanSucceed(s)
  {
    DrivingMeans(s, r, FinalRead);
    var x := FirstFinal(s.db.steps).value.id;
    assert Step(s, Go(r, EASY)) == Goto(s, r, FinalMark(x));
    DriveMove(s, r, FinalRead, EASY, FinalMark(x));
    FinalMarkSucceeds(Step(s, Go(r, EASY)), r, x);
    SucceedAfter(s, Go(r, EASY));
  }

  // ----- from the dispatcher to the node it chooses -----

  /** The dispatcher's three steps end at the chosen node, with the chosen step current and the rows as they were. */
  lemma Dispatches(s: Sys, r: nat, row: StepRow, route: Route) returns (s': Sys)
    requires Driving(s, r, DispatchCheck) && NextRoute(s.db) == AgentRouting.Choice.Go(row, route)
    ensures Driving(s', r, RoutePc(route)) && s'.db.steps == s.db.steps && s'.db.task.current == Some(row.id)
    ensures s'.db.task.user == s.db.task.user
    ensures CanSucceed(s') ==> CanSucceed(s)
  {
    assert Step(s, Go(r, EASY)) == Goto(s, r, DispatchRoute);
    DriveMove(s, r, DispatchCheck, EASY, DispatchRoute);
    var routing := Step(s, Go(r, EASY));
    s' := RoutesTo(routing, r, row, route);
    if CanSucceed(s') {
      SucceedAfter(s, Go(r, EASY));
    }
  }

  lemma RoutesTo(s: Sys, r: nat, row: StepRow, route: Route) returns (s': Sys)
    requires Driving(s, r, DispatchRoute) && NextRoute(s.db) == AgentRouting.Choice.Go(row, route)
    ensures Driving(s', r, RoutePc(route)) && s'.db.steps == s.db.steps && s'.db.task.current == Some(row.id)
    ensures s'.db.task.user == s.db.task.user
    ensures CanSucceed(s') ==> CanSucceed(s)
  {
    var l := Go(r, EASY);
    if s.db.task.current == Some(row.id) {
      assert Step(s, l) == Goto(s, r, RoutePc(route));
      DriveMove(s, r, DispatchRoute, EASY, RoutePc(route));
      s' := Step(s, l);
      if CanSucceed(s') {
        SucceedAfter(s, l);
      }
    } else {
      var x := row.id;
      assert Step(s, l) == Goto(s, r, DispatchPersist(x, route));
      DriveMove(s, r, DispatchRoute, EASY, DispatchPersist(x, route));
      var persisting := Step(s, l);
      var patch := TaskPatch(None, Some(Some(x)), false, KeepHeartbeat);
      DriveTaskWrite(persisting, r, DispatchPersist(x, route), EASY, patch, RoutePc(route), FailRead);
      s' := Step(persisting, l);
      if CanSucceed(s') {
        SucceedAfter(persisting, l);
        SucceedAfter(s, l);
      }
    }
  }

  // ----- one tool step -----

  /** A ready step that needs no further approval is called and recorded, and the dispatcher has its turn again. */
  lemma CallsStep(s: Sys, r: nat, k: nat) returns (s': Sys)
    requires Driving(s, r, ToolRead) && 1 <= k < |s.db.steps| && s.db.task.current == Some(s.db.steps[k].id)
    requires s.db.steps[k].kind == Tool && !Approvable(s.db.steps[k]) && Intact(s.db.steps[k])
    ensures Driving(s', r, DispatchCheck) && DoneAt(s.db.steps, s'.db.steps, k)
    ensures CanSucceed(s') ==> CanSucceed(s)
  {
    DrivingMeans(s, r, ToolRead);
    var snap := s.db.steps[k];
    CurrentFound(s.db, k);
    var op := if snap.operationId.Some? then snap.operationId.value else 0;
    assert Step(s, Go(r, EASY)) == Goto(s, r, ToolMark(snap, op));
    DriveMove(s, r, ToolRead, EASY, ToolMark(snap, op));
    var marking := Step(s, Go(r, EASY));
    s' := MarksStep(marking, r, k, op);
    if CanSucceed(s') {
      SucceedAfter(s, Go(r, EASY));
    }
  }

  /** Step `k` has succeeded; nothing else changed. */
  ghost predicate DoneAt(before: seq<StepRow>, after: seq<StepRow>, k: nat) {
    && |after| == |before| && k < |before| && SamePayload(before[k], after[k]) && after[k].status == StepSucceeded
    && forall i :: 0 <= i < |before| && i != k ==> after[i] == before[i]
  }

  lemma CurrentFound(db: Db, k: nat)
    requires Distinct(db.steps) && 1 <= k < |db.steps| && db.task.current == Some(db.steps[k].id) && db.steps[k].kind == Tool
    ensures CurrentToolStep(db.steps, db.task.current) == Some(db.steps[k])
  {
    FoundAt(db.steps, db.task.current, k);
  }

  lemma {:induction false} FoundAt(steps: seq<StepRow>, current: Option<StepId>, k: nat)
    requires Distinct(steps) && k < |steps| && current == Some(steps[k].id) && steps[k].kind == Tool
    ensures CurrentToolStep(steps, current) == Some(steps[k])
  {
    if k > 0 {
      DifferentRows(steps, 0, k);
      FoundAt(steps[1..], current, k - 1);
    }
  }

  lemma MarksStep(s: Sys, r: nat, k: nat, op: OpId) returns (s': Sys)
    requires 1 <= k < |s.db.steps| && Driving(s, r, ToolMark(s.db.steps[k], op)) && Intact(s.db.steps[k])
    ensures Driving(s', r, DispatchCheck) && DoneAt(s.db.steps, s'.db.steps, k)
    ensures CanSucceed(s') ==> CanSucceed(s)
  {
    var snap := s.db.steps[k];
    var patch := StepPatch(StepRunning, Some(op), None, None);
    DrivingMeans(s, r, ToolMark(snap, op));
    ToolMarkIs(s, r, 0, Committed, EASY);
    DriveStepWrite(s, r, ToolMark(snap, op), EASY, snap.id, patch, ToolArmed(snap, op), FailRead);
    var armed := Step(s, Go(r, EASY));
    PatchedOne(s.db.steps, k, patch);
    s' := SendsStep(armed, r, snap, op);
    PatchedOne(armed.db.steps, k, JustStatus(StepSucceeded));
    if CanSucceed(s') {
      SucceedAfter(s, Go(r, EASY));
    }
  }

  lemma PatchedOne(steps: seq<StepRow>, k: nat, patch: StepPatch)
    requires Distinct(steps) && k < |steps|
    ensures var after := PatchRows(steps, steps[k].id, patch);
            && after[k] == PatchRow(steps[k], patch) && Distinct(after)
            && forall i :: 0 <= i < |steps| && i != k ==> after[i] == steps[i]
  {
    forall i | 0 <= i < |steps| && i != k ensures steps[i].id != steps[k].id {
      DifferentRows(steps, i, k);
    }
  }

  lemma SendsStep(s: Sys, r: nat, snap: StepRow, op: OpId) returns (s': Sys)
    requires Driving(s, r, ToolArmed(snap, op)) && Intact(snap)
    ensures Driving(s', r, DispatchCheck) && s'.db.steps == PatchRows(s.db.steps, snap.id, JustStatus(StepSucceeded))
    ensures CanSucceed(s') ==> CanSucceed(s)
  {
    var env := Smooth(snap.policy, []);
    var done := Step(s, Go(r, env));
    ReachableStep(s, Go(r, env));
    SendIs(s, r, snap, op);
    s' := RecordsStep(done, r, snap, op);
    if CanSucceed(s') {
      SucceedAfter(s, Go(r, env));
    }
  }

  lemma SendIs(s: Sys, r: nat, snap: StepRow, op: OpId)
    requires r < |s.runs| && s.runs[r].pc == ToolArmed(snap, op) && Intact(snap)
    ensures var s' := Step(s, Go(r, Smooth(snap.policy, [])));
            && s'.db == s.db && |s'.runs| == |s.runs| && s'.runs[r] == s.runs[r].(pc := ToolDone(snap, op))
  {
  }

  lemma RecordsStep(s: Sys, r: nat, snap: StepRow, op: OpId) returns (s': Sys)
    requires Driving(s, r, ToolDone(snap, op))
    ensures Driving(s', r, DispatchCheck) && s'.db.steps == PatchRows(s.db.steps, snap.id, JustStatus(StepSucceeded))
    ensures CanSucceed(s') ==> CanSucceed(s)
  {
    var l := Go(r, EASY);
    DrivingMeans(s, r, ToolDone(snap, op));
    MarkedIsThere(s.db.steps, snap, op);
    ToolDoneIs(s, r, snap, op);
    DriveStepWrite(s, r, ToolDone(snap, op), EASY, snap.id, JustStatus(StepSucceeded), ToolTask, FailedCallPc(snap));
    s' := LeavesStep(Step(s, l), r);
    if CanSucceed(s') {
      SucceedAfter(s, l);
    }
  }

  lemma MarkedIsThere(steps: seq<StepRow>, snap: StepRow, op: OpId)
    requires MarkedRunning(snap, op) in steps
    ensures HasStep(steps, snap.id)
  {
    var k :| 0 <= k < |steps| && steps[k] == MarkedRunning(snap, op);
    assert steps[k].id == snap.id;
  }

  lemma ToolDoneIs(s: Sys, r: nat, snap: StepRow, op: OpId)
    requires r < |s.runs| && s.runs[r].pc == ToolDone(snap, op)
    ensures Step(s, Go(r, EASY))
            == WriteStep(s, r, 0, Committed, snap.id, JustStatus(StepSucceeded), ToolTask, FailedCallPc(snap))
  {
  }

  lemma LeavesStep(s: Sys, r: nat) returns (s': Sys)
    requires Driving(s, r, ToolTask)
    ensures Driving(s', r, DispatchCheck) && s'.db.steps == s.db.steps
    ensures CanSucceed(s') ==> CanSucceed(s)
  {
    var l := Go(r, EASY);
    DriveTaskWrite(s, r, ToolTask, EASY, TaskPatch(Some(Running), Some(None), false, BeatAt(0)), Saving(AtDispatch), FailRead);
    s' := SavesCheckpoint(Step(s, l), r);
    if CanSucceed(s') {
      SucceedAfter(s, l);
    }
  }

  /** After a plan or a tool step the graph saves its position and comes to the dispatcher. */
  lemma SavesCheckpoint(s: Sys, r: nat) returns (s': Sys)
    requires Driving(s, r, Saving(AtDispatch))
    ensures Driving(s', r, DispatchCheck) && s'.db.steps == s.db.steps
    ensures CanSucceed(s') ==> CanSucceed(s)
  {
    var l := Go(r, EASY);
    var loading := Step(s, l);
    ReachableStep(s, l);
    assert loading.runs == s.runs[r := s.runs[r].(pc := Loading(false))] && loading.db == SetCheckpoint(s.db, s.runs[r].token.version, AtDispatch, 0);
    assert Step(loading, l) == Goto(loading, r, DispatchCheck);
    DriveMove(loading, r, Loading(false), EASY, DispatchCheck);
    s' := Step(loading, l);
    if CanSucceed(s') {
      SucceedAfter(loading, l);
      SucceedAfter(s, l);
    }
  }

  // ----- one approval -----

  /** The task waits for its owner's decision about the current step `k`, and nothing else has changed. */
  ghost predicate WaitsFor(before: Sys, s: Sys, k: nat) {
    && Reachable(s) && s.db.task.status == WaitingApproval && s.db.task.user == before.db.task.user
    && 1 <= k < |s.db.steps| && |s.db.steps| == |before.db.steps|
    && s.db.steps[k] == before.db.steps[k].(status := StepWaiting)
    && forall i :: 0 <= i < |s.db.steps| && i != k ==> s.db.steps[i] == before.db.steps[i]
  }

  lemma AsksStep(s: Sys, r: nat, k: nat) returns (s': Sys)
    requires Driving(s, r, ApprovalRead) && 1 <= k < |s.db.steps| && s.db.task.current == Some(s.db.steps[k].id)
    requires s.db.steps[k].kind == Tool && Approvable(s.db.steps[k]) && s.db.steps[k].decision == Undecided
    ensures WaitsFor(s, s', k)
    ensures CanSucceed(s') ==> CanSucceed(s)
  {
    var l := Go(r, EASY);
    var x := s.db.steps[k].id;
    DrivingMeans(s, r, ApprovalRead);
    CurrentFound(s.db, k);
    if s.db.steps[k].status == StepWaiting {
      assert Step(s, l) == Goto(s, r, ApprovalTask(x));
      DriveMove(s, r, ApprovalRead, EASY, ApprovalTask(x));
      s' := AsksOwner(Step(s, l), r, k);
    } else {
      assert Step(s, l) == Goto(s, r, ApprovalStep(x));
      DriveMove(s, r, ApprovalRead, EASY, ApprovalStep(x));
      s' := MarksWaiting(Step(s, l), r, k);
    }
    if CanSucceed(s') {
      SucceedAfter(s, l);
    }
  }

  lemma MarksWaiting(s: Sys, r: nat, k: nat) returns (s': Sys)
    requires 1 <= k < |s.db.steps| && Driving(s, r, ApprovalStep(s.db.steps[k].id))
    ensures WaitsFor(s, s', k)
    ensures CanSucceed(s') ==> CanSucceed(s)
  {
    var l := Go(r, EASY);
    var x := s.db.steps[k].id;
    DrivingMeans(s, r, ApprovalStep(x));
    ApprovalStepIs(s, r, 0, Committed, EASY);
    DriveStepWrite(s, r, ApprovalStep(x), EASY, x, JustStatus(StepWaiting), ApprovalTask(x), FailRead);
    PatchedOne(s.db.steps, k, JustStatus(StepWaiting));
    s' := AsksOwner(Step(s, l), r, k);
    if CanSucceed(s') {
      SucceedAfter(s, l);
    }
  }

  lemma AsksOwner(s: Sys, r: nat, k: nat) returns (s': Sys)
    requires 1 <= k < |s.db.steps| && Driving(s, r, ApprovalTask(s.db.steps[k].id)) && s.db.steps[k].status == StepWaiting
    ensures WaitsFor(s, s', k)
    ensures CanSucceed(s') ==> CanSucceed(s)
  {
    var l := Go(r, EASY);
    s' := Step(s, l);
    ReachableStep(s, l);
    assert s'.db.steps == s.db.steps && s'.db.task.status == WaitingApproval;
    if CanSucceed(s') {
      SucceedAfter(s, l);
    }
  }

  // ----- one recorded failure -----

  /** The first open step has failed: the run reports it, and the owner resumes the task. */
  lemma ReportsFailure(s: Sys, r: nat, k: nat) returns (s': Sys)
    requires Driving(s, r, DispatchCheck) && 1 <= k < |s.db.steps| && s.db.steps[k].kind == Tool
    requires FirstOpenTool(s.db.steps) == Some(s.db.steps[k]) && s.db.steps[k].status == StepFailed
    ensures Reachable(s') && s'.db.task.status == Pending
    ensures s'.db.steps == PatchRows(s.db.steps, s.db.steps[k].id, JustStatus(StepPending))
    ensures CanSucceed(s') ==> CanSucceed(s)
  {
    var l := Go(r, EASY);
    DrivingMeans(s, r, DispatchCheck);
    assert Step(s, l) == Goto(s, r, FailRead);
    DriveMove(s, r, DispatchCheck, EASY, FailRead);
    s' := ReadsFailure(Step(s, l), r, k);
    if CanSucceed(s') {
      SucceedAfter(s, l);
    }
  }

  lemma ReadsFailure(s: Sys, r: nat, k: nat) returns (s': Sys)
    requires Driving(s, r, FailRead) && 1 <= k < |s.db.steps| && s.db.steps[k].kind == Tool
    requires s.db.steps[k].status == StepFailed
    ensures Reachable(s') && s'.db.task.status == Pending
    ensures s'.db.steps == PatchRows(s.db.steps, s.db.steps[k].id, JustStatus(StepPending))
    ensures CanSucceed(s') ==> CanSucceed(s)
  {
    var l := Go(r, EASY);
    var x := s.db.steps[k].id;
    DrivingMeans(s, r, FailRead);
    FailedIsBlamed(s.db, k);
    assert Step(s, l) == Goto(s, r, FailRunTask(Some(x)));
    DriveMove(s, r, FailRead, EASY, FailRunTask(Some(x)));
    s' := ReportsAndResumes(Step(s, l), r, k);
    if CanSucceed(s') {
      SucceedAfter(s, l);
    }
  }

  /** The failed step is the one the reporter blames. */
  lemma FailedIsBlamed(db: Db, k: nat)
    requires Shape(db.steps) && OpenOrder(db) && LeaseStatus(db.task.status) && 1 <= k < |db.steps| && db.steps[k].kind == Tool
    requires db.steps[k].status == StepFailed
    ensures FailureStep(db) == Some(db.steps[k])
  {
    OthersSettledOrLater(db, k);
    var current := FirstOpenCurrent(db.steps, db.task.current);
    if current.Some? {
      var i :| 0 <= i < |db.steps| && db.steps[i] == current.value;
      CurrentIsFailed(db, k, i);
    } else {
      var i := FirstOpenIndex(db.steps);
      assert i >= k;
      assert !Settled(db.steps[k].status);
    }
  }

  lemma OthersSettledOrLater(db: Db, k: nat)
    requires OpenOrder(db) && 1 <= k < |db.steps| && db.steps[k].status == StepFailed
    ensures forall i :: 0 <= i < k ==> db.steps[i].status == StepSucceeded
    ensures exists i :: 0 <= i < |db.steps| && !Settled(db.steps[i].status)
  {
    forall i | 1 <= i < k ensures db.steps[i].status == StepSucceeded {
      assert !Untouched(db.steps[k]);
    }
    assert !Settled(db.steps[k].status);
  }

  lemma CurrentIsFailed(db: Db, k: nat, i: nat)
    requires Shape(db.steps) && OpenOrder(db) && 1 <= k < |db.steps| && db.steps[k].status == StepFailed
    requires i < |db.steps| && OpenCurrent(db.steps[i], db.task.current)
    requires forall j :: 0 <= j < k ==> db.steps[j].status == StepSucceeded
    ensures i == k
  {
    if i > k {
      assert false;
    }
  }

  lemma ReportsAndResumes(s: Sys, r: nat, k: nat) returns (s': Sys)
    requires 1 <= k < |s.db.steps| && Driving(s, r, FailRunTask(Some(s.db.steps[k].id))) && s.db.steps[k].status == StepFailed
    ensures Reachable(s') && s'.db.task.status == Pending
    ensures s'.db.steps == PatchRows(s.db.steps, s.db.steps[k].id, JustStatus(StepPending))
    ensures CanSucceed(s') ==> CanSucceed(s)
  {
    var l := Go(r, EASY);
    var failed := Step(s, l);
    ReachableStep(s, l);
    assert failed.db.steps == s.db.steps && failed.db.task.status == Failed && failed.db.task.current == Some(s.db.steps[k].id);
    s' := ResumesFailed(failed, k);
    if CanSucceed(s') {
      SucceedAfter(s, l);
    }
  }

  lemma ResumesFailed(s: Sys, k: nat) returns (s': Sys)
    requires Reachable(s) && s.db.task.status == Failed && k < |s.db.steps|
    requires s.db.task.current == Some(s.db.steps[k].id) && s.db.steps[k].status == StepFailed
    ensures Reachable(s') && s'.db.task.status == Pending
    ensures s'.db.steps == PatchRows(s.db.steps, s.db.steps[k].id, JustStatus(StepPending))
    ensures CanSucceed(s') ==> CanSucceed(s)
  {
    var l := Resumes(s.db.task.user, true, 0);
    ReachableInv(s);
    assert ToBlame(s.db.steps[k], s.db.task.current);
    ResumeNeedsBlame(s.db);
    var target := ResumeTarget(s.db, s.db.task.user, true).value;
    assert target.id == s.db.steps[k].id;
    s' := Step(s, l);
    ReachableStep(s, l);
    if CanSucceed(s') {
      SucceedAfter(s, l);
    }
  }

  // ----- from a pending task to the dispatcher -----

  /** Claiming and recovering a pending task only clears its checkpoint. */
  lemma ClearsCheckpoint(s: Sys) returns (s': Sys)
    requires Reachable(s) && s.db.task.status == Pending
    ensures Reachable(s') && s'.db.task.status == Pending && s'.db.task.checkpoint == None && s'.db.steps == s.db.steps
    ensures CanSucceed(s') ==> CanSucceed(s)
  {
    var claim := Claims(0, 0, 0, false);
    var recover := Recovers(DEFAULT_LEASE + 1, 0);
    ReachableInv(s);
    var claimed := Step(s, claim);
    ReachableStep(s, claim);
    s' := Step(claimed, recover);
    ReachableStep(claimed, recover);
    assert s'.db.steps == s.db.steps by {
      assert forall i :: 0 <= i < |s.db.steps| ==> RecoveredRow(s.db.steps[i]) == s.db.steps[i];
    }
    if CanSucceed(s') {
      SucceedAfter(claimed, recover);
      SucceedAfter(s, claim);
    }
  }

  lemma StartsRun(s: Sys) returns (s': Sys)
    requires Reachable(s) && s.db.task.status == Pending && s.db.task.checkpoint == None
    ensures |s'.runs| > 0 && Driving(s', |s'.runs| - 1, PlanRead) && s'.db.steps == s.db.steps
    ensures CanSucceed(s') ==> CanSucceed(s)
  {
    var claim := Claims(0, 0, 1, true);
    var r := |s.runs|;
    var claimed := Step(s, claim);
    ReachableStep(s, claim);
    assert Driving(claimed, r, Loading(true));
    assert Step(claimed, Go(r, EASY)) == Goto(claimed, r, PlanRead);
    DriveMove(claimed, r, Loading(true), EASY, PlanRead);
    s' := Step(claimed, Go(r, EASY));
    if CanSucceed(s') {
      SucceedAfter(claimed, Go(r, EASY));
      SucceedAfter(s, claim);
    }
  }

  /** With a plan the run goes straight to the dispatcher. */
  lemma SkipsPlanning(s: Sys, r: nat) returns (s': Sys)
    requires Driving(s, r, PlanRead) && |s.db.steps| > 1
    ensures Driving(s', r, DispatchCheck) && s'.db.steps == s.db.steps
    ensures CanSucceed(s') ==> CanSucceed(s)
  {
    assert Step(s, Go(r, EASY)) == Goto(s, r, Saving(AtDispatch));
    DriveMove(s, r, PlanRead, EASY, Saving(AtDispatch));
    s' := SavesCheckpoint(Step(s, Go(r, EASY)), r);
    if CanSucceed(s') {
      SucceedAfter(s, Go(r, EASY));
    }
  }

  /** A plan without tools. */
  function FinalOnly(planId: StepId): StepRow {
    StepRow(planId + 1, Final, StepPending, 0, "", Sha256(""), NO_POLICY, Undecided, None)
  }

  /** Without a plan the planner may propose one without tools. */
  lemma Plans(s: Sys, r: nat) returns (s': Sys)
    requires Driving(s, r, PlanRead) && |s.db.steps| == 1
    ensures Driving(s', r, DispatchCheck) && |s'.db.steps| > 1 && Work(s'.db.steps) == 0 && AllIntact(s'.db.steps)
    ensures CanSucceed(s') ==> CanSucceed(s)
  {
    var l := Go(r, EASY);
    DrivingMeans(s, r, PlanRead);
    var x := s.db.steps[0].id;
    assert PlanStepOf(s.db.steps) == Some(s.db.steps[0]);
    assert Step(s, l) == Goto(s, r, PlanMark(x));
    DriveMove(s, r, PlanRead, EASY, PlanMark(x));
    var marking := Step(s, l);
    DriveTaskWrite(marking, r, PlanMark(x), EASY, TaskPatch(Some(Planning), Some(Some(x)), false, KeepHeartbeat), PlanRun(x), FailRead);
    var running := Step(marking, l);
    assert HasStep(running.db.steps, x);
    DriveStepWrite(running, r, PlanRun(x), EASY, x, JustStatus(StepRunning), PlanSave, FailRead);
    var saving := Step(running, l);
    s' := SavesPlan(saving, r);
    if CanSucceed(s') {
      SucceedAfter(running, l);
      SucceedAfter(marking, l);
      SucceedAfter(s, l);
    }
  }

  lemma SavesPlan(s: Sys, r: nat) returns (s': Sys)
    requires Driving(s, r, PlanSave) && |s.db.steps| == 1
    ensures Driving(s', r, DispatchCheck) && |s'.db.steps| > 1 && Work(s'.db.steps) == 0 && AllIntact(s'.db.steps)
    ensures CanSucceed(s') ==> CanSucceed(s)
  {
    var l := Go(r, Smooth(NO_POLICY, [FinalOnly(s.db.steps[0].id)]));
    PlanSaved(s, r);
    NothingToDo(Step(s, l).db.steps);
    s' := SavesCheckpoint(Step(s, l), r);
    if CanSucceed(s') {
      SucceedAfter(s, l);
    }
  }

  lemma PlanSaved(s: Sys, r: nat)
    requires Driving(s, r, PlanSave) && |s.db.steps| == 1
    ensures var s' := Step(s, Go(r, Smooth(NO_POLICY, [FinalOnly(s.db.steps[0].id)])));
            && Driving(s', r, Saving(AtDispatch))
            && |s'.db.steps| == 2 && s'.db.steps[0].kind == Plan && s'.db.steps[1].kind == Final
  {
    var plan := [FinalOnly(s.db.steps[0].id)];
    DrivingMeans(s, r, PlanSave);
    ReachableStep(s, Go(r, Smooth(NO_POLICY, plan)));
    assert GoodPlan(plan, s.db.steps[0].id);
    assert NormalizedPlan(plan) == [Normalized(plan[0])];
  }

  lemma NothingToDo(rows: seq<StepRow>)
    requires |rows| == 2 && rows[0].kind != Tool && rows[1].kind != Tool
    ensures Work(rows) == 0 && AllIntact(rows)
  {
    assert rows[..1][..0] == [] && Work(rows[..1]) == 0;
  }

  // ----- the whole way -----

  /** The task starts over from the queue with less to do. */
  lemma {:induction false} PendingSucceeds(s: Sys)
    requires Reachable(s) && s.db.task.status == Pending && AllIntact(s.db.steps)
    ensures CanSucceed(s)
    decreases Work(s.db.steps), 3
  {
    var cleared := ClearsCheckpoint(s);
    var started := StartsRun(cleared);
    var r := |started.runs| - 1;
    ReachableInv(s);
    if |s.db.steps| > 1 {
      var dispatching := SkipsPlanning(started, r);
      DispatchSucceeds(dispatching, r);
    } else {
      var dispatching := Plans(started, r);
      NoWorkNoTools(dispatching.db.steps);
      NoToolsSucceed(dispatching, r);
    }
  }

  /** With nothing left to do the run finishes. */
  lemma NoToolsSucceed(s: Sys, r: nat)
    requires Driving(s, r, DispatchCheck) && |s.db.steps| > 1 && FirstOpenTool(s.db.steps).None?
    ensures CanSucceed(s)
  {
    DrivingMeans(s, r, DispatchCheck);
    FinalIsLast(s.db.steps);
    var row := FirstFinal(s.db.steps).value;
    assert NextRoute(s.db) == AgentRouting.Choice.Go(row, ToFinalize);
    var finishing := Dispatches(s, r, row, ToFinalize);
    FinalReadSucceeds(finishing, r);
  }

  lemma {:induction false} NoWorkNoTools(steps: seq<StepRow>)
    requires Work(steps) == 0
    ensures forall i :: 0 <= i < |steps| && steps[i].kind == Tool ==> steps[i].status == StepSucceeded
  {
    if steps != [] {
      NoWorkNoTools(steps[..|steps| - 1]);
    }
  }

  lemma {:induction false} DispatchSucceeds(s: Sys, r: nat)
    requires Driving(s, r, DispatchCheck) && |s.db.steps| > 1 && AllIntact(s.db.steps)
    ensures CanSucceed(s)
    decreases Work(s.db.steps), 2
  {
    DrivingMeans(s, r, DispatchCheck);
    if FirstOpenTool(s.db.steps).None? {
      NoToolsSucceed(s, r);
    } else {
      var k := OpenStep(s.db);
      if s.db.steps[k].status == StepFailed {
        FailedSucceeds(s, r, k);
      } else if Approvable(s.db.steps[k]) {
        ApprovalSucceeds(s, r, k);
      } else {
        ReadySucceeds(s, r, k);
      }
    }
  }

  /** The first open step of a running task is ready or has failed. */
  lemma OpenStep(db: Db) returns (k: nat)
    requires Shape(db.steps) && OpenOrder(db) && LeaseStatus(db.task.status) && NoneRunning(db.steps)
    requires FirstOpenTool(db.steps).Some?
    ensures 1 <= k < |db.steps| && FirstOpenTool(db.steps) == Some(db.steps[k]) && db.steps[k].kind == Tool
    ensures db.steps[k].status == StepFailed || Ready(db.steps[k].status)
    ensures db.steps[k].decision != Declined
  {
    k := FirstOpenToolAt(db.steps);
    assert k >= 1 && PlainRow(db.steps[k], db.task.status);
  }

  lemma {:induction false} FailedSucceeds(s: Sys, r: nat, k: nat)
    requires Driving(s, r, DispatchCheck) && AllIntact(s.db.steps) && 1 <= k < |s.db.steps| && s.db.steps[k].kind == Tool
    requires FirstOpenTool(s.db.steps) == Some(s.db.steps[k]) && s.db.steps[k].status == StepFailed
    ensures CanSucceed(s)
    decreases Work(s.db.steps), 0
  {
    DrivingMeans(s, r, DispatchCheck);
    var resumed := ReportsFailure(s, r, k);
    ResumedIsCheaper(s.db.steps, k);
    PendingSucceeds(resumed);
  }

  lemma {:induction false} ReadySucceeds(s: Sys, r: nat, k: nat)
    requires Driving(s, r, DispatchCheck) && AllIntact(s.db.steps) && 1 <= k < |s.db.steps| && s.db.steps[k].kind == Tool
    requires FirstOpenTool(s.db.steps) == Some(s.db.steps[k]) && !Approvable(s.db.steps[k]) && Ready(s.db.steps[k].status)
    ensures CanSucceed(s)
    decreases Work(s.db.steps), 0
  {
    DrivingMeans(s, r, DispatchCheck);
    var calling := Dispatches(s, r, s.db.steps[k], ToTool);
    var done := CallsStep(calling, r, k);
    DoneIsCheaper(s.db.steps, done.db.steps, k);
    DispatchSucceeds(done, r);
  }

  lemma {:induction false} ApprovalSucceeds(s: Sys, r: nat, k: nat)
    requires Driving(s, r, DispatchCheck) && AllIntact(s.db.steps) && 1 <= k < |s.db.steps|
    requires FirstOpenTool(s.db.steps) == Some(s.db.steps[k]) && Approvable(s.db.steps[k])
    requires Ready(s.db.steps[k].status) && s.db.steps[k].decision != Declined
    ensures CanSucceed(s)
    decreases Work(s.db.steps), 1
  {
    DrivingMeans(s, r, DispatchCheck);
    var asking := Dispatches(s, r, s.db.steps[k], ToApproval);
    var waiting := AsksStep(asking, r, k);
    DecisionSucceeds(asking, waiting, k);
  }

  /** The owner approves, and there is less to do than before the question. */
  lemma {:induction false} DecisionSucceeds(asking: Sys, waiting: Sys, k: nat)
    requires WaitsFor(asking, waiting, k) && AllIntact(asking.db.steps) && asking.db.steps[k].kind == Tool
    requires Approvable(asking.db.steps[k]) && Ready(asking.db.steps[k].status) && asking.db.steps[k].decision == Undecided
    ensures CanSucceed(waiting)
    decreases Work(asking.db.steps), 0
  {
    ReachableInv(waiting);
    var approved := OwnerApproves(waiting, k);
    ApprovedIsCheaper(asking.db.steps, waiting.db.steps, approved.db.steps, k);
    PendingSucceeds(approved);
  }

  lemma OwnerApproves(s: Sys, k: nat) returns (s': Sys)
    requires Reachable(s) && s.db.task.status == WaitingApproval && k < |s.db.steps|
    requires s.db.steps[k].status == StepWaiting && s.db.steps[k].decision == Undecided
    ensures Reachable(s') && s'.db.task.status == Pending
    ensures s'.db.steps == PatchRows(s.db.steps, s.db.steps[k].id, StepPatch(StepApproved, None, Some(Approved), None))
    ensures CanSucceed(s') ==> CanSucceed(s)
  {
    var l := Approves(s.db.task.user, s.db.steps[k].id, s.db.steps[k].digest, 0);
    assert Awaits(s.db.steps[k], s.db.steps[k].id);
    assert CanApprove(s.db, s.db.task.user, s.db.steps[k].id, s.db.steps[k].digest);
    s' := Step(s, l);
    ReachableStep(s, l);
    if CanSucceed(s') {
      SucceedAfter(s, l);
    }
  }

  lemma ResumedIsCheaper(steps: seq<StepRow>, k: nat)
    requires Distinct(steps) && k < |steps| && steps[k].kind == Tool && steps[k].status == StepFailed && AllIntact(steps)
    ensures var after := PatchRows(steps, steps[k].id, JustStatus(StepPending)); Work(after) < Work(steps) && AllIntact(after)
  {
    PatchedOne(steps, k, JustStatus(StepPending));
    WorkLess(steps, PatchRows(steps, steps[k].id, JustStatus(StepPending)), k);
  }

  lemma DoneIsCheaper(steps: seq<StepRow>, after: seq<StepRow>, k: nat)
    requires DoneAt(steps, after, k) && steps[k].kind == Tool && steps[k].status != StepSucceeded && AllIntact(steps)
    ensures Work(after) < Work(steps) && AllIntact(after)
  {
    WorkLess(steps, after, k);
  }

  lemma ApprovedIsCheaper(steps: seq<StepRow>, waiting: seq<StepRow>, after: seq<StepRow>, k: nat)
    requires Distinct(waiting) && k < |steps| && |waiting| == |steps| && AllIntact(steps)
    requires steps[k].kind == Tool && Approvable(steps[k]) && Ready(steps[k].status)
    requires waiting[k] == steps[k].(status := StepWaiting) && forall i :: 0 <= i < |steps| && i != k ==> waiting[i] == steps[i]
    requires after == PatchRows(waiting, waiting[k].id, StepPatch(StepApproved, None, Some(Approved), None))
    ensures Work(after) < Work(steps) && AllIntact(after)
  {
    PatchedOne(waiting, k, StepPatch(StepApproved, None, Some(Approved), None));
    WorkLess(steps, after, k);
  }

  // ----- every open task gets back to the queue -----

  lemma RecoverySucceeds(s: Sys)
    requires Reachable(s) && LeaseStatus(s.db.task.status) && AllIntact(s.db.steps)
    ensures CanSucceed(s)
  {
    var until := if s.db.task.leaseUntil.Some? then s.db.task.leaseUntil.value + 1 else 0;
    var l := Recovers(until, LastSign(s.db.task) + 1);
    var s' := Step(s, l);
    ReachableStep(s, l);
    assert Stale(s.db.task, until, LastSign(s.db.task) + 1);
    if s'.db.task.status == Pending {
      PendingSucceeds(s');
    } else {
      ResumeSucceeds(s');
    }
    SucceedAfter(s, l);
  }

  lemma ResumeSucceeds(s: Sys)
    requires Reachable(s) && AllIntact(s.db.steps)
    requires s.db.task.status == RequiresReview || (s.db.task.status == Failed && Blamed(s.db))
    ensures CanSucceed(s)
  {
    if s.db.task.status == RequiresReview {
      ReviewCanResume(s);
    } else {
      ResumeNeedsBlame(s.db);
    }
    var l := Resumes(s.db.task.user, true, 0);
    ReachableStep(s, l);
    PendingSucceeds(Step(s, l));
    SucceedAfter(s, l);
  }

  lemma WaitingSucceeds(s: Sys)
    requires Reachable(s) && s.db.task.status == WaitingApproval && AllIntact(s.db.steps)
    ensures CanSucceed(s)
  {
    ReachableOrder(s);
    var k :| 1 <= k < |s.db.steps| && s.db.steps[k].kind == Tool && s.db.task.current == Some(s.db.steps[k].id)
             && Awaits(s.db.steps[k], s.db.steps[k].id);
    var approved := OwnerApproves(s, k);
    PendingSucceeds(approved);
  }

  // ----- and no other task does -----

  /** Failed with nothing to resume: the state that only a cancellation ends. */
  ghost predicate Stuck(db: Db) {
    db.task.status == Failed && !Blamed(db)
  }

  lemma {:induction false} StuckNeverSucceeds(s: Sys, labels: seq<Label>)
    requires Reachable(s) && Stuck(s.db)
    ensures OnlyCheckpoint(s.db, Exec(s, labels).db) || Exec(s, labels).db.task.status == Cancelled
    decreases |labels|
  {
    if labels != [] {
      var before := labels[..|labels| - 1];
      var mid := Exec(s, before);
      var l := labels[|labels| - 1];
      StuckNeverSucceeds(s, before);
      ReachableExec(s, before);
      ReachableInv(mid);
      ResumeNeedsBlame(s.db);
      if mid.db.task.status == Cancelled {
        StepClosed(mid, l);
      } else if !l.Cancels? {
        ResumeNeedsBlame(mid.db);
        ParkedWaits(mid, l);
      }
    }
  }

  lemma SucceededWasIntact(s: Sys, labels: seq<Label>)
    requires Reachable(s) && Exec(s, labels).db.task.status == Succeeded
    ensures AllIntact(s.db.steps)
  {
    ReachableInv(s);
    ReachableExec(s, labels);
    SuccessIsComplete(Exec(s, labels));
    ExecKept(s, labels);
    var after := Exec(s, labels).db.steps;
    forall i | 1 <= i < |s.db.steps| && s.db.steps[i].kind == Tool ensures Intact(s.db.steps[i]) {
      assert SamePayload(s.db.steps[i], after[i]);
    }
  }

  // ----- main result -----

  /**
   A task can still succeed if and only if it has, or it is open, every tool step's arguments still match their digest,
   and it has not failed with its current step recorded neither as failed nor as unknown.
   */
  lemma CanSucceedExactly(s: Sys)
    requires Reachable(s)
    ensures CanSucceed(s) <==>
              s.db.task.status == Succeeded || (!Closed(s.db.task.status) && AllIntact(s.db.steps) && !Stuck(s.db))
  {
    if s.db.task.status == Succeeded {
      assert Exec(s, []).db.task.status == Succeeded;
    } else if !Closed(s.db.task.status) && AllIntact(s.db.steps) && !Stuck(s.db) {
      match s.db.task.status {
        case Pending => PendingSucceeds(s);
        case WaitingApproval => WaitingSucceeds(s);
        case RequiresReview => ResumeSucceeds(s);
        case Failed => ResumeSucceeds(s);
        case _ => RecoverySucceeds(s);
      }
    } else if CanSucceed(s) {
      var labels :| Exec(s, labels).db.task.status == Succeeded;
      if Closed(s.db.task.status) {
        ClosedForever(s, labels);
      } else if Stuck(s.db) {
        StuckNeverSucceeds(s, labels);
      } else {
        SucceededWasIntact(s, labels);
      }
    }
  }
}
