/** Concrete behaviours in which a recorded success is followed by another call, or overwritten, or a failure is final. */
module AgentWitness {
  import opened Options
  import opened AgentRows
  import opened AgentRouting
  import opened AgentSystem
  import opened AgentInvariant
  import opened AgentReplay
  import opened AgentTheorems
  import opened AgentSuccess
  import opened AgentResume
  import opened AgentProgress

  lemma ReachInit(user: UserId, planId: StepId, now: Time)
    ensures Reachable(Init(user, planId, now))
  {
    assert Exec(Init(user, planId, now), []) == Init(user, planId, now);
  }

  lemma ReachStep(s: Sys, l: Label)
    requires Reachable(s)
    ensures Reachable(Step(s, l))
  {
    var user, planId, now, labels :| s == Exec(Init(user, planId, now), labels);
    assert (labels + [l])[..|labels|] == labels;
    assert Exec(Init(user, planId, now), labels + [l]) == Step(s, l);
  }

  const SAFE := Policy(0, false, true, true, false)
  const UNSAFE := Policy(0, false, false, false, false)

  function PlannedTool(policy: Policy): StepRow {
    StepRow(2, Tool, StepPending, 5, "{}", Sha256("{}"), policy, Undecided, None)
  }

  const PLANNED_FINAL := StepRow(3, Final, StepPending, 0, "", Sha256(""), SAFE, Undecided, None)

  function GoodEnv(policy: Policy): Env {
    Env(true, true, true, [PlannedTool(policy), PLANNED_FINAL], policy, 9)
  }

  function Go0(r: nat, policy: Policy): Label {
    Advances(r, 0, Committed, GoodEnv(policy))
  }

  function PlanRow(status: StepStatus): StepRow {
    StepRow(1, Plan, status, 0, "", Sha256(""), Policy(0, false, false, false, false), Undecided, None)
  }

  /** One run, claimed by worker 7, holding a lease until time 10. */
  function Held(status: TaskStatus, current: Option<StepId>, checkpoint: Option<Node>): TaskRow {
    TaskRow(1, status, current, checkpoint, 1, Some(7), Some(10), Some(0), Some(0), 0)
  }

  function FirstRun(pc: Pc): Run {
    Run(Token(1, 7), 0, pc)
  }

  /** From creation to a claimed run that found its planning step. */
  lemma ReachClaimed(policy: Policy) returns (s: Sys)
    ensures Reachable(s)
    ensures s == Sys(Db(Held(Running, Some(1), None), [PlanRow(StepPending)]), [FirstRun(PlanMark(1))], [])
  {
    var step := Go0(0, policy);
    ReachInit(1, 1, 0);
    s := Init(1, 1, 0);
    ReachStep(s, Claims(7, 0, 10, true));
    s := Step(s, Claims(7, 0, 10, true));
    assert s == Sys(Db(Held(Running, Some(1), None), [PlanRow(StepPending)]), [FirstRun(Loading(true))], []);
    ReachStep(s, step);
    s := Step(s, step);
    assert s.runs == [FirstRun(PlanRead)];
    ReachStep(s, step);
    s := Step(s, step);
    assert s.runs == [FirstRun(PlanMark(1))];
  }

  /** From creation to a plan about to be saved. */
  lemma ReachPlanning(policy: Policy) returns (s: Sys)
    ensures Reachable(s)
    ensures s == Sys(Db(Held(Planning, Some(1), None), [PlanRow(StepRunning)]), [FirstRun(PlanSave)], [])
  {
    var step := Go0(0, policy);
    s := ReachClaimed(policy);
    ReachStep(s, step);
    s := Step(s, step);
    assert s == Sys(Db(Held(Planning, Some(1), None), [PlanRow(StepPending)]), [FirstRun(PlanRun(1))], []);
    ReachStep(s, step);
    s := Step(s, step);
    assert s.db.steps == [PlanRow(StepRunning)];
  }

  /** From creation to a saved plan. */
  lemma ReachPlanned(policy: Policy) returns (s: Sys)
    ensures Reachable(s)
    ensures s == Sys(Db(Held(Running, Some(2), Some(AtDispatch)),
                        [PlanRow(StepSucceeded), PlannedTool(policy), PLANNED_FINAL]),
                     [FirstRun(DispatchCheck)], [])
  {
    var step := Go0(0, policy);
    s := ReachPlanning(policy);
    ReachStep(s, step);
    s := Step(s, step);
    assert s.db.steps == [PlanRow(StepSucceeded), PlannedTool(policy), PLANNED_FINAL];
    assert s.runs == [FirstRun(Saving(AtDispatch))];
    ReachStep(s, step);
    s := Step(s, step);
    assert s.runs == [FirstRun(Loading(false))];
    ReachStep(s, step);
    s := Step(s, step);
    assert s.runs == [FirstRun(DispatchCheck)];
  }

  function Marked(policy: Policy, status: StepStatus): StepRow {
    PlannedTool(policy).(status := status, operationId := Some(9))
  }

  function Rows(tool: StepRow): seq<StepRow> {
    [PlanRow(StepSucceeded), tool, PLANNED_FINAL]
  }

  lemma RowsSelected(tool: StepRow, current: Option<StepId>)
    requires tool.kind == Tool && tool.id == 2 && !Settled(tool.status)
    ensures FirstOpenTool(Rows(tool)) == Some(tool)
    ensures CurrentToolStep(Rows(tool), Some(2)) == Some(tool)
  {
    var steps := Rows(tool);
    assert steps[1..] == [tool, PLANNED_FINAL];
    assert steps[1..][0] == tool;
  }

  /** From a planned task to a run that has chosen its tool step. */
  lemma ReachRouted(policy: Policy) returns (s: Sys)
    requires !policy.requiresApproval
    ensures Reachable(s)
    ensures s == Sys(Db(Held(Running, Some(2), Some(AtDispatch)), Rows(PlannedTool(policy))), [FirstRun(ToolRead)], [])
  {
    var step := Go0(0, policy);
    s := ReachPlanned(policy);
    RowsSelected(PlannedTool(policy), Some(2));
    assert s.db.steps == Rows(PlannedTool(policy));
    ReachStep(s, step);
    s := Step(s, step);
    assert s.runs == [FirstRun(DispatchRoute)];
    ReachStep(s, step);
    s := Step(s, step);
    assert s.runs == [FirstRun(ToolRead)];
  }

  /** From a planned task to a run that is about to call its tool step. */
  lemma ReachArmed(policy: Policy) returns (s: Sys)
    requires !policy.requiresApproval
    ensures Reachable(s)
    ensures s == Sys(Db(Held(Running, Some(2), Some(AtDispatch)), Rows(Marked(policy, StepRunning))),
                     [FirstRun(ToolArmed(PlannedTool(policy), 9))], [])
  {
    var step := Go0(0, policy);
    s := ReachRouted(policy);
    RowsSelected(PlannedTool(policy), Some(2));
    ReachStep(s, step);
    s := Step(s, step);
    assert s.runs == [FirstRun(ToolMark(PlannedTool(policy), 9))];
    assert s.db.steps[1].id == 2;
    ReachStep(s, step);
    s := Step(s, step);
    assert s.db.steps == Rows(Marked(policy, StepRunning));
  }

  /** The call has succeeded and its success is about to be recorded. */
  lemma ReachCalled() returns (s: Sys)
    ensures Reachable(s) && s.db == Db(Held(Running, Some(2), Some(AtDispatch)), Rows(Marked(SAFE, StepRunning)))
    ensures s.runs == [FirstRun(ToolDone(PlannedTool(SAFE), 9))]
  {
    s := ReachArmed(SAFE);
    ReachStep(s, Go0(0, SAFE));
    s := Step(s, Go0(0, SAFE));
    assert s.runs == [FirstRun(ToolDone(PlannedTool(SAFE), 9))];
  }

  /** A replay-safe step whose success was committed, but whose answer was lost, is recorded as failed. */
  lemma LostAnswerOverwritesSuccess() returns (s: Sys, l: Label)
    ensures Reachable(s) && Finished(s, 1) && !Finished(Step(s, l), 1)
  {
    s := ReachCalled();
    assert s.db.steps[1].id == 2;
    var lost := Advances(0, 0, AckLost, GoodEnv(SAFE));
    ReachStep(s, lost);
    s := Step(s, lost);
    assert s.db.steps == Rows(Marked(SAFE, StepSucceeded));
    assert s.runs == [FirstRun(FailStep(2))];
    assert s.db.steps[1].id == 2;
    l := Go0(0, SAFE);
  }

  /** The step cannot be called, and the write of its failure is refused. */
  lemma ReachUnrecorded() returns (s: Sys)
    ensures Reachable(s) && s.db == Db(Held(Running, Some(2), Some(AtDispatch)), Rows(Marked(SAFE, StepRunning)))
    ensures s.runs == [FirstRun(FailTask)]
  {
    s := ReachArmed(SAFE);
    var unready := Advances(0, 0, Committed, GoodEnv(SAFE).(ready := false));
    ReachStep(s, unready);
    s := Step(s, unready);
    assert s.runs == [FirstRun(FailStep(2))];
    var refused := Advances(0, 0, Refused, GoodEnv(SAFE));
    ReachStep(s, refused);
    s := Step(s, refused);
    assert s.runs == [FirstRun(FailTask)];
  }

  /**
   The write of the task's failure lands all the same: the current step still reads as running, and nothing but a
   cancellation ever takes the task out of the failed state.
   */
  lemma FailedTaskIsStuck() returns (s: Sys)
    ensures Reachable(s) && s.db.task.status == Failed && !Blamed(s.db) && !CanLeave(s) && !CanSucceed(s)
  {
    s := ReachUnrecorded();
    ReachStep(s, Go0(0, SAFE));
    s := Step(s, Go0(0, SAFE));
    assert s.db.task.status == Failed && s.db.task.current == Some(2);
    ParkedLeavesExactly(s);
    CanSucceedExactly(s);
  }

  function SecondRun(pc: Pc): Run {
    Run(Token(4, 8), 1, pc)
  }

  function HeldAgain(checkpoint: Option<Node>, updatedAt: Time): TaskRow {
    TaskRow(1, Running, Some(2), checkpoint, 4, Some(8), Some(30), Some(20), Some(0), updatedAt)
  }

  /** The first run stalled before its call, and the second, claimed after an explicit retry, at `pc`. */
  function Stalled(checkpoint: Option<Node>, tool: StepRow, pc: Pc): Sys {
    Sys(Db(HeldAgain(checkpoint, 20), Rows(tool)),
        [FirstRun(ToolArmed(PlannedTool(UNSAFE), 9)), SecondRun(pc)], [OwnerRetried(2)])
  }

  lemma ReachRecovered() returns (s: Sys)
    ensures Reachable(s)
    ensures s == Sys(Db(TaskRow(1, RequiresReview, Some(2), None, 2, None, None, None, Some(0), 20), Rows(Marked(UNSAFE, StepUnknown))),
                     [FirstRun(ToolArmed(PlannedTool(UNSAFE), 9))], [])
  {
    s := ReachArmed(UNSAFE);
    ReachStep(s, Recovers(20, 20));
    RecoveredRowsAre();
    s := Step(s, Recovers(20, 20));
  }

  /** The owner confirms a retry of the uncertain step. */
  lemma ReachResumed() returns (s: Sys)
    ensures Reachable(s)
    ensures s == Sys(Db(TaskRow(1, Pending, Some(2), None, 3, None, None, None, Some(0), 20), Rows(Marked(UNSAFE, StepPending))),
                     [FirstRun(ToolArmed(PlannedTool(UNSAFE), 9))], [OwnerRetried(2)])
  {
    s := ReachRecovered();
    ResumeFinds();
    assert s.db.steps[1].id == 2;
    ReachStep(s, Resumes(1, true, 20));
    s := Step(s, Resumes(1, true, 20));
    assert s.db.steps == Rows(Marked(UNSAFE, StepPending));
  }

  lemma ReachReclaimed() returns (s: Sys)
    ensures Reachable(s) && s == Stalled(None, Marked(UNSAFE, StepPending), Loading(true))
  {
    s := ReachResumed();
    ReachStep(s, Claims(8, 20, 10, true));
    s := Step(s, Claims(8, 20, 10, true));
    assert s.runs == [FirstRun(ToolArmed(PlannedTool(UNSAFE), 9)), SecondRun(Loading(true))];
  }

  lemma SecondMoves(s: Sys, checkpoint: Option<Node>, tool: StepRow, pc: Pc)
    requires Reachable(s)
    requires Step(s, Advances(1, 20, Committed, GoodEnv(UNSAFE))) == Stalled(checkpoint, tool, pc)
    ensures Reachable(Stalled(checkpoint, tool, pc))
  {
    ReachStep(s, Advances(1, 20, Committed, GoodEnv(UNSAFE)));
  }

  lemma ReachSecondDispatch()
    ensures Reachable(Stalled(Some(AtDispatch), Marked(UNSAFE, StepPending), DispatchCheck))
  {
    var tool := Marked(UNSAFE, StepPending);
    var s := ReachReclaimed();
    SecondMoves(s, None, tool, PlanRead);
    SecondMoves(Stalled(None, tool, PlanRead), None, tool, Saving(AtDispatch));
    SecondMoves(Stalled(None, tool, Saving(AtDispatch)), Some(AtDispatch), tool, Loading(false));
    SecondMoves(Stalled(Some(AtDispatch), tool, Loading(false)), Some(AtDispatch), tool, DispatchCheck);
  }

  lemma ReachSecondArmed()
    ensures Reachable(Stalled(Some(AtDispatch), Marked(UNSAFE, StepRunning), ToolArmed(Marked(UNSAFE, StepPending), 9)))
  {
    var tool := Marked(UNSAFE, StepPending);
    ReachSecondDispatch();
    RowsSelected(tool, Some(2));
    SecondMoves(Stalled(Some(AtDispatch), tool, DispatchCheck), Some(AtDispatch), tool, DispatchRoute);
    SecondMoves(Stalled(Some(AtDispatch), tool, DispatchRoute), Some(AtDispatch), tool, ToolRead);
    SecondMoves(Stalled(Some(AtDispatch), tool, ToolRead), Some(AtDispatch), tool, ToolMark(tool, 9));
    SecondMarks();
  }

  lemma SecondMarks()
    requires Reachable(Stalled(Some(AtDispatch), Marked(UNSAFE, StepPending), ToolMark(Marked(UNSAFE, StepPending), 9)))
    ensures Reachable(Stalled(Some(AtDispatch), Marked(UNSAFE, StepRunning), ToolArmed(Marked(UNSAFE, StepPending), 9)))
  {
    var tool := Marked(UNSAFE, StepPending);
    var s := Stalled(Some(AtDispatch), tool, ToolMark(tool, 9));
    assert s.db.steps[1].id == 2;
    assert PatchRows(s.db.steps, 2, StepPatch(StepRunning, Some(9), None, None)) == Rows(Marked(UNSAFE, StepRunning));
    SecondMoves(s, Some(AtDispatch), Marked(UNSAFE, StepRunning), ToolArmed(tool, 9));
  }

  lemma RecoveredRowsAre()
    ensures RecoveredRows(Rows(Marked(UNSAFE, StepRunning))) == Rows(Marked(UNSAFE, StepUnknown))
    ensures AnyUncertain(Rows(Marked(UNSAFE, StepRunning)))
    ensures RecoveredCurrent(Rows(Marked(UNSAFE, StepRunning)), Some(2)) == Some(2)
  {
    var steps := Rows(Marked(UNSAFE, StepRunning));
    assert UncertainRow(steps[1]);
    RecoveredCurrentKept(steps, Some(2));
  }

  lemma ResumeFinds()
    ensures FirstResumable(Rows(Marked(UNSAFE, StepUnknown)), Some(2), true) == Some(Marked(UNSAFE, StepUnknown))
  {
    var steps := Rows(Marked(UNSAFE, StepUnknown));
    assert steps[1..] == [Marked(UNSAFE, StepUnknown), PLANNED_FINAL];
  }

  /**
   A stalled run may still call a step that another run has meanwhile finished: the call itself is not fenced. The
   step, retried once by its owner, is then called twice, so the bound of `NoSilentReplay` is tight.
   */
  lemma StalledRunCallsAfterSuccess() returns (s: Sys, l: Label)
    ensures Reachable(s) && Finished(s, 1)
    ensures |Step(s, l).log| == |s.log| + 1 && Step(s, l).log[|s.log|].Sent? && Step(s, l).log[|s.log|].step == s.db.steps[1].id
    ensures Sends(Step(s, l).log, 2) == 1 + Retries(Step(s, l).log, 2) == 2
  {
    s := SecondSucceeds();
    l := Advances(0, 20, Committed, GoodEnv(UNSAFE));
    assert Step(s, l).log == [OwnerRetried(2), Sent(2, "{}", 9, UNSAFE, UNSAFE, 1)] + [Sent(2, "{}", 9, UNSAFE, UNSAFE, 0)];
    TwoSends(Sent(2, "{}", 9, UNSAFE, UNSAFE, 1), Sent(2, "{}", 9, UNSAFE, UNSAFE, 0));
  }

  /** The retried call has succeeded while the stalled run is still armed for it. */
  lemma SecondSucceeds() returns (s: Sys)
    ensures Reachable(s) && |s.db.steps| > 1 && s.db.steps[1] == Marked(UNSAFE, StepSucceeded)
    ensures |s.runs| == 2 && s.runs[0] == FirstRun(ToolArmed(PlannedTool(UNSAFE), 9))
    ensures s.log == [OwnerRetried(2), Sent(2, "{}", 9, UNSAFE, UNSAFE, 1)]
  {
    ReachSecondArmed();
    s := Stalled(Some(AtDispatch), Marked(UNSAFE, StepRunning), ToolArmed(Marked(UNSAFE, StepPending), 9));
    var step := Advances(1, 20, Committed, GoodEnv(UNSAFE));
    ReachStep(s, step);
    s := Step(s, step);
    assert s.runs == [FirstRun(ToolArmed(PlannedTool(UNSAFE), 9)), SecondRun(ToolDone(Marked(UNSAFE, StepPending), 9))];
    assert s.log == [OwnerRetried(2), Sent(2, "{}", 9, UNSAFE, UNSAFE, 1)];
    assert s.db.steps[1].id == 2;
    ReachStep(s, step);
    s := Step(s, step);
  }

  lemma TwoSends(first: Event, second: Event)
    requires first.Sent? && first.step == 2 && first.policy == UNSAFE && second.Sent? && second.step == 2 && second.policy == UNSAFE
    ensures Sends([OwnerRetried(2), first] + [second], 2) == 2 && Retries([OwnerRetried(2), first] + [second], 2) == 1
  {
    var retried: seq<Event> := [OwnerRetried(2)];
    var once := [OwnerRetried(2), first];
    assert retried[..0] == [] && once[..1] == retried && (once + [second])[..2] == once;
    assert Sends(retried, 2) == 0 && Retries(retried, 2) == 1;
    assert Sends(once, 2) == 1 && Retries(once, 2) == 1;
  }
}
