/**
 The steps of a task are done in order: at most one step is neither succeeded nor untouched, everything before it has
 succeeded, and the task succeeds only after all of them. Every transition keeps this.
 */
module AgentOrder {
  import opened Options
  import opened AgentRows
  import opened AgentRouting
  import opened AgentSystem
  import opened AgentInvariant
  import opened AgentTheorems

  // ----- the invariant -----

  predicate Untouched(row: StepRow) {
    row.status == StepPending && row.decision == Undecided
  }

  ghost predicate DoneBefore(steps: seq<StepRow>, k: nat) {
    forall i :: 1 <= i < k && i < |steps| ==> steps[i].status == StepSucceeded
  }

  ghost predicate UntouchedAfter(steps: seq<StepRow>, k: nat) {
    forall i :: k < i < |steps| ==> Untouched(steps[i])
  }

  /** All of the plan before step `k` is done and nothing after it has begun. */
  ghost predicate Frontier(steps: seq<StepRow>, k: nat) {
    DoneBefore(steps, k) && UntouchedAfter(steps, k)
  }

  ghost predicate FrontierAt(steps: seq<StepRow>, x: StepId) {
    forall i :: 1 <= i < |steps| && steps[i].id == x ==> Frontier(steps, i)
  }

  ghost predicate InOrder(steps: seq<StepRow>) {
    && (forall i, j :: 1 <= i < j < |steps| && steps[i].status != StepSucceeded ==> Untouched(steps[j]))
    && (|steps| > 1 ==> steps[0].status == StepSucceeded)
  }

  /** An open task has no rejected or skipped step, and an unknown one only under review. */
  predicate PlainRow(row: StepRow, status: TaskStatus) {
    && row.status != StepRejected && row.status != StepSkipped && row.decision != Declined
    && (row.status == StepUnknown ==> status == RequiresReview)
  }

  ghost predicate PlainRows(db: Db) {
    forall i :: 1 <= i < |db.steps| ==> PlainRow(db.steps[i], db.task.status)
  }

  ghost predicate CurrentInOrder(steps: seq<StepRow>, current: Option<StepId>) {
    forall i :: 1 <= i < |steps| && current == Some(steps[i].id) && steps[i].status != StepSucceeded ==> DoneBefore(steps, i)
  }

  ghost predicate AwaitsCurrent(db: Db) {
    exists i :: 1 <= i < |db.steps| && db.steps[i].kind == Tool && db.task.current == Some(db.steps[i].id)
                && Awaits(db.steps[i], db.steps[i].id)
  }

  ghost predicate OpenOrder(db: Db) {
    && InOrder(db.steps) && PlainRows(db) && CurrentInOrder(db.steps, db.task.current)
    && (db.task.status == WaitingApproval ==> AwaitsCurrent(db)) && (db.task.status == Planning ==> |db.steps| == 1)
  }

  predicate Intact(row: StepRow) {
    row.digest == Sha256(row.arguments)
  }

  ghost predicate DoneIntact(steps: seq<StepRow>) {
    forall i :: 1 <= i < |steps| && steps[i].kind == Tool && steps[i].status == StepSucceeded ==> Intact(steps[i])
  }

  ghost predicate RowsOrder(db: Db) {
    && (!Closed(db.task.status) ==> OpenOrder(db))
    && (db.task.status == Succeeded ==> |db.steps| > 1 && DoneBefore(db.steps, |db.steps|))
    && DoneIntact(db.steps)
  }

  /** What the order asks of the lease holder's position. */
  ghost predicate OrderFacts(db: Db, pc: Pc) {
    match pc
    case DispatchPersist(x, _) => forall i :: 1 <= i < |db.steps| && db.steps[i].id == x ==> DoneBefore(db.steps, i)
    case ApprovalStep(x) =>
      exists i :: 1 <= i < |db.steps| && db.steps[i].id == x && db.steps[i].kind == Tool && db.steps[i].decision == Undecided
    case ApprovalTask(x) => exists i :: 1 <= i < |db.steps| && db.steps[i].kind == Tool && Awaits(db.steps[i], x)
    case ToolDone(snap, _) => Intact(snap)
    case PauseReview(x, _) => HasRunningTool(db.steps, x)
    case FailStep(x) => FrontierAt(db.steps, x) && |db.steps| > 1 && db.steps[0].id != x
    case FinalRead => |db.steps| > 1 && DoneBefore(db.steps, |db.steps| - 1)
    case FinalMark(x) => |db.steps| > 1 && DoneBefore(db.steps, |db.steps| - 1)
    case FinalSave(x) => |db.steps| > 1 && DoneBefore(db.steps, |db.steps| - 1)
    case FinalTask(x) => |db.steps| > 1 && DoneBefore(db.steps, |db.steps|)
    case FailRunStep(x) =>
      FrontierAt(db.steps, x) && (|db.steps| > 1 ==> db.steps[0].id != x) && NoLaterCurrent(db.steps, db.task.current, x)
    case FailRunTask(current) => CurrentInOrder(db.steps, current)
    case _ => true
  }

  ghost predicate Order(s: Sys) {
    && RowsOrder(s.db)
    && forall r :: 0 <= r < |s.runs| && r == |s.runs| - 1 && s.db.task.leaseOwner.Some? ==> OrderFacts(s.db, s.runs[r].pc)
  }

  // ----- moves and writes -----

  lemma MoveOrder(s: Sys, r: nat, pc: Pc)
    requires Core(s) && Order(s) && r < |s.runs|
    requires Holds(s, r) ==> OrderFacts(s.db, pc)
    ensures Order(Goto(s, r, pc))
  {
    if s.db.task.leaseOwner.Some? && r == |s.runs| - 1 {
      assert Holds(s, r);
    }
  }

  /** All that is known of the rows while the lease holder is at `pc`. */
  ghost predicate Standing(db: Db, pc: Pc) {
    && Shape(db.steps) && OnlyRunning(db.steps, db.task.current) && LeaseStatus(db.task.status) && Facts(db, pc)
    && RowsOrder(db) && OrderFacts(db, pc)
  }

  lemma HolderOrder(s: Sys, r: nat)
    requires Core(s) && Order(s) && Holds(s, r)
    ensures Standing(s.db, s.runs[r].pc)
  {
    HolderFacts(s, r);
  }

  /** A write by a run that passes the fence, given what it leaves in the rows and what either next position asks. */
  lemma WriteOrder(s: Sys, r: nat, now: Time, accepted: bool, after: Db, out: Outcome, good: Pc, bad: Pc)
    requires Core(s) && Order(s) && r < |s.runs|
    requires accepted ==> Fence(s.db.task, s.runs[r].token, now)
    requires accepted ==> RowsOrder(after)
    requires accepted && after.task.leaseOwner.Some? ==> OrderFacts(after, good) && OrderFacts(after, bad)
    requires Holds(s, r) ==> OrderFacts(s.db, bad)
    ensures Order(Write(s, r, accepted, after, out, good, bad))
  {
    if accepted {
      FenceMeansHolder(s, r, now);
    }
    if !(accepted && !out.Refused?) {
      MoveOrder(s, r, bad);
    }
  }

  /** No step after step `x` is the current one and unfinished. */
  ghost predicate NoLaterCurrent(steps: seq<StepRow>, current: Option<StepId>, x: StepId) {
    forall i, j :: 1 <= j < i < |steps| && steps[j].id == x && current == Some(steps[i].id) ==> steps[i].status == StepSucceeded
  }

  /** What a step write of the holder needs. */
  ghost predicate PatchOk(db: Db, x: StepId, patch: StepPatch) {
    && FrontierAt(db.steps, x)
    && patch.status !in {StepRejected, StepSkipped, StepUnknown} && patch.decision.None?
    && (|db.steps| > 1 ==> db.steps[0].id != x)
    && NoLaterCurrent(db.steps, db.task.current, x)
    && (patch.status == StepSucceeded ==>
          forall i :: 1 <= i < |db.steps| && db.steps[i].id == x && db.steps[i].kind == Tool ==> Intact(db.steps[i]))
  }

  lemma PatchInOrder(steps: seq<StepRow>, x: StepId, patch: StepPatch)
    requires InOrder(steps) && FrontierAt(steps, x) && Distinct(steps) && (|steps| > 1 ==> steps[0].id != x)
    ensures InOrder(PatchRows(steps, x, patch)) && FrontierAt(PatchRows(steps, x, patch), x)
  {
    var after := PatchRows(steps, x, patch);
    forall i, j | 1 <= i < j < |after| && after[i].status != StepSucceeded ensures Untouched(after[j]) {
      if steps[i].id == x {
        assert Frontier(steps, i);
      }
    }
    forall i | 1 <= i < |after| && after[i].id == x ensures Frontier(after, i) {
      assert Frontier(steps, i);
      forall j | 1 <= j < |after| && j != i ensures after[j] == steps[j] {
        DifferentRows(steps, i, j);
      }
    }
  }

  lemma PatchCurrent(steps: seq<StepRow>, current: Option<StepId>, x: StepId, patch: StepPatch)
    requires CurrentInOrder(steps, current) && FrontierAt(steps, x) && Distinct(steps) && NoLaterCurrent(steps, current, x)
    ensures CurrentInOrder(PatchRows(steps, x, patch), current)
  {
    var after := PatchRows(steps, x, patch);
    forall i | 1 <= i < |after| && current == Some(after[i].id) && after[i].status != StepSucceeded ensures DoneBefore(after, i) {
      if steps[i].id == x {
        assert Frontier(steps, i);
      }
      forall j | 1 <= j < i ensures after[j].status == StepSucceeded {
        DifferentRows(steps, i, j);
        assert DoneBefore(steps, i);
      }
    }
  }

  /** A holder's step write keeps the order of the rows. */
  lemma PatchOrder(db: Db, x: StepId, patch: StepPatch)
    requires RowsOrder(db) && Distinct(db.steps) && LeaseStatus(db.task.status) && PatchOk(db, x, patch)
    ensures RowsOrder(db.(steps := PatchRows(db.steps, x, patch)))
    ensures FrontierAt(PatchRows(db.steps, x, patch), x)
  {
    PatchInOrder(db.steps, x, patch);
    PatchCurrent(db.steps, db.task.current, x, patch);
  }

  lemma WriteStepIs(s: Sys, r: nat, now: Time, out: Outcome, x: StepId, patch: StepPatch, good: Pc, bad: Pc)
    requires r < |s.runs|
    ensures WriteStep(s, r, now, out, x, patch, good, bad)
            == Write(s, r, CanUpdateStep(s.db, s.runs[r].token, now, x), s.db.(steps := PatchRows(s.db.steps, x, patch)),
                     out, good, bad)
  {
  }

  lemma WriteTaskIs(s: Sys, r: nat, now: Time, out: Outcome, patch: TaskPatch, good: Pc, bad: Pc)
    requires r < |s.runs|
    ensures WriteTask(s, r, now, out, patch, good, bad)
            == Write(s, r, Fence(s.db.task, s.runs[r].token, now), s.db.(task := PatchTask(s.db.task, patch, now)),
                     out, good, bad)
  {
  }

  /** A step write and the two positions it may lead to. */
  ghost predicate StepOrderOk(db: Db, x: StepId, patch: StepPatch, good: Pc, bad: Pc) {
    && PatchOk(db, x, patch) && OrderFacts(db, bad)
    && var after := db.(steps := PatchRows(db.steps, x, patch)); OrderFacts(after, good) && OrderFacts(after, bad)
  }

  lemma AcceptedStep(s: Sys, r: nat, now: Time, x: StepId, patch: StepPatch, good: Pc, bad: Pc)
    requires Core(s) && Order(s) && r < |s.runs| && CanUpdateStep(s.db, s.runs[r].token, now, x)
    requires Holds(s, r) ==> StepOrderOk(s.db, x, patch, good, bad)
    ensures var after := s.db.(steps := PatchRows(s.db.steps, x, patch));
            RowsOrder(after) && OrderFacts(after, good) && OrderFacts(after, bad)
  {
    FenceMeansHolder(s, r, now);
    PatchOrder(s.db, x, patch);
  }

  lemma StepWriteOrder(s: Sys, r: nat, now: Time, out: Outcome, x: StepId, patch: StepPatch, good: Pc, bad: Pc)
    requires Core(s) && Order(s) && r < |s.runs|
    requires Holds(s, r) ==> StepOrderOk(s.db, x, patch, good, bad)
    ensures Order(WriteStep(s, r, now, out, x, patch, good, bad))
  {
    var accepted := CanUpdateStep(s.db, s.runs[r].token, now, x);
    var after := s.db.(steps := PatchRows(s.db.steps, x, patch));
    if accepted {
      AcceptedStep(s, r, now, x, patch, good, bad);
    }
    WriteOrder(s, r, now, accepted, after, out, good, bad);
    WriteStepIs(s, r, now, out, x, patch, good, bad);
  }

  /** What a task write of the holder needs. */
  ghost predicate TaskOk(db: Db, patch: TaskPatch) {
    && (patch.current.Some? ==> CurrentInOrder(db.steps, patch.current.value))
    && (patch.status.Some? ==> patch.status.value in {Running, Planning, Failed, WaitingApproval, Succeeded})
    && (patch.status == Some(WaitingApproval) ==> patch.current.Some? && AwaitsCurrent(db.(task := db.task.(current := patch.current.value))))
    && (patch.status == Some(Succeeded) ==> |db.steps| > 1 && DoneBefore(db.steps, |db.steps|))
    && (patch.status == Some(Planning) ==> |db.steps| == 1)
  }

  lemma TaskOrder(db: Db, patch: TaskPatch, now: Time)
    requires RowsOrder(db) && LeaseStatus(db.task.status) && TaskOk(db, patch)
    ensures RowsOrder(db.(task := PatchTask(db.task, patch, now)))
  {
    if patch.status == Some(WaitingApproval) {
      var i :| 1 <= i < |db.steps| && db.steps[i].kind == Tool && patch.current.value == Some(db.steps[i].id)
               && Awaits(db.steps[i], db.steps[i].id);
    }
  }

  ghost predicate TaskOrderOk(db: Db, patch: TaskPatch, now: Time, good: Pc, bad: Pc) {
    && TaskOk(db, patch) && OrderFacts(db, bad)
    && var after := db.(task := PatchTask(db.task, patch, now));
       after.task.leaseOwner.Some? ==> OrderFacts(after, good) && OrderFacts(after, bad)
  }

  lemma AcceptedTask(s: Sys, r: nat, now: Time, patch: TaskPatch, good: Pc, bad: Pc)
    requires Core(s) && Order(s) && r < |s.runs| && Fence(s.db.task, s.runs[r].token, now)
    requires Holds(s, r) ==> TaskOrderOk(s.db, patch, now, good, bad)
    ensures var after := s.db.(task := PatchTask(s.db.task, patch, now));
            && RowsOrder(after)
            && (after.task.leaseOwner.Some? ==> OrderFacts(after, good) && OrderFacts(after, bad))
  {
    FenceMeansHolder(s, r, now);
    TaskOrder(s.db, patch, now);
  }

  lemma TaskWriteOrder(s: Sys, r: nat, now: Time, out: Outcome, patch: TaskPatch, good: Pc, bad: Pc)
    requires Core(s) && Order(s) && r < |s.runs|
    requires Holds(s, r) ==> TaskOrderOk(s.db, patch, now, good, bad)
    ensures Order(WriteTask(s, r, now, out, patch, good, bad))
  {
    var accepted := Fence(s.db.task, s.runs[r].token, now);
    var after := s.db.(task := PatchTask(s.db.task, patch, now));
    if accepted {
      AcceptedTask(s, r, now, patch, good, bad);
    }
    WriteOrder(s, r, now, accepted, after, out, good, bad);
    WriteTaskIs(s, r, now, out, patch, good, bad);
  }

  // ----- what the selections find -----

  lemma {:induction false} FirstOpenToolAt(steps: seq<StepRow>) returns (k: nat)
    requires FirstOpenTool(steps).Some?
    ensures k < |steps| && steps[k] == FirstOpenTool(steps).value
    ensures forall i :: 0 <= i < k && steps[i].kind == Tool ==> Settled(steps[i].status)
  {
    if OpenTool(steps[0]) {
      k := 0;
    } else {
      var rest := steps[1..];
      k := FirstOpenToolAt(rest);
      assert forall i :: 0 <= i < k ==> steps[i + 1] == rest[i];
      k := k + 1;
      forall i | 0 <= i < k && steps[i].kind == Tool ensures Settled(steps[i].status) {
        if i > 0 {
          assert steps[i] == rest[i - 1];
        }
      }
    }
  }

  lemma {:induction false} FirstOpenIndex(steps: seq<StepRow>) returns (k: nat)
    requires FirstOpen(steps).Some?
    ensures k < |steps| && steps[k] == FirstOpen(steps).value
    ensures forall i :: 0 <= i < k ==> Settled(steps[i].status)
  {
    if !Settled(steps[0].status) {
      k := 0;
    } else {
      var rest := steps[1..];
      k := FirstOpenIndex(rest);
      k := k + 1;
      forall i | 0 <= i < k ensures Settled(steps[i].status) {
        if i > 0 {
          assert steps[i] == rest[i - 1];
        }
      }
    }
  }

  lemma FinalIsLast(steps: seq<StepRow>)
    requires Shape(steps)
    ensures FirstFinal(steps).Some? <==> |steps| > 1
    ensures |steps| > 1 ==> FirstFinal(steps) == Some(steps[|steps| - 1])
  {
    if |steps| > 1 {
      FirstFinalSkips(steps, |steps| - 1);
      assert steps[|steps| - 1..] == [steps[|steps| - 1]];
    }
  }

  /** Where the dispatcher goes, everything before is done. */
  lemma RouteInOrder(db: Db)
    requires Shape(db.steps) && OpenOrder(db) && LeaseStatus(db.task.status) && NextRoute(db).Go?
    ensures var row := NextRoute(db).row;
            && |db.steps| > 1
            && (forall i :: 1 <= i < |db.steps| && db.steps[i].id == row.id ==> DoneBefore(db.steps, i))
            && (NextRoute(db).route == ToFinalize ==> DoneBefore(db.steps, |db.steps| - 1))
  {
    FinalIsLast(db.steps);
    var row := NextRoute(db).row;
    var open := FirstOpenTool(db.steps);
    if open.Some? {
      var k := FirstOpenToolAt(db.steps);
      forall i | 1 <= i < |db.steps| && db.steps[i].id == row.id ensures DoneBefore(db.steps, i) {
        UniqueRow(db.steps, i, k);
      }
    } else {
      forall i | 1 <= i < |db.steps| && db.steps[i].id == row.id ensures DoneBefore(db.steps, i) {
        UniqueRow(db.steps, i, |db.steps| - 1);
      }
    }
  }

  /** The step blamed for a failure has everything before it done and nothing after it begun. */
  lemma BlameInOrder(db: Db)
    requires Shape(db.steps) && OpenOrder(db) && LeaseStatus(db.task.status) && FailureStep(db).Some?
    ensures var row := FailureStep(db).value;
            && (forall i :: 1 <= i < |db.steps| && db.steps[i].id == row.id ==> Frontier(db.steps, i))
            && (|db.steps| > 1 ==> db.steps[0].id != row.id)
            && NoLaterCurrent(db.steps, db.task.current, row.id)
  {
    FinalIsLast(db.steps);
    var row := FailureStep(db).value;
    if FirstOpenCurrent(db.steps, db.task.current).Some? {
      var k :| 0 <= k < |db.steps| && db.steps[k] == row;
      BlamedAt(db, row, k);
    } else if FirstOpen(db.steps).Some? {
      var k := FirstOpenIndex(db.steps);
      BlamedAt(db, row, k);
    } else {
      BlamedAt(db, row, |db.steps| - 1);
    }
  }

  lemma BlamedAt(db: Db, row: StepRow, k: nat)
    requires Shape(db.steps) && OpenOrder(db) && LeaseStatus(db.task.status) && k < |db.steps| && db.steps[k] == row
    requires k == |db.steps| - 1 || !Settled(row.status)
    requires k >= 1 ==> DoneBefore(db.steps, k)
    ensures forall i :: 1 <= i < |db.steps| && db.steps[i].id == row.id ==> Frontier(db.steps, i)
    ensures |db.steps| > 1 ==> db.steps[0].id != row.id
    ensures NoLaterCurrent(db.steps, db.task.current, row.id)
  {
    forall i | 0 <= i < |db.steps| && db.steps[i].id == row.id ensures i == k {
      UniqueRow(db.steps, i, k);
    }
    forall i, j | 1 <= j < i < |db.steps| && db.steps[j].id == row.id && db.task.current == Some(db.steps[i].id)
      ensures db.steps[i].status == StepSucceeded
    {
      UniqueRow(db.steps, j, k);
    }
  }

  // ----- each position of a run: what its write leaves -----

  lemma PlanMarkOrdered(db: Db, x: StepId, now: Time)
    requires Standing(db, PlanMark(x))
    ensures TaskOrderOk(db, TaskPatch(Some(Planning), Some(Some(x)), false, KeepHeartbeat), now, PlanRun(x), FailRead)
  {
  }

  lemma PlanRunOrdered(db: Db, x: StepId)
    requires Standing(db, PlanRun(x))
    ensures StepOrderOk(db, x, JustStatus(StepRunning), PlanSave, FailRead)
  {
  }

  lemma SavePlanOrdered(db: Db, token: Token, now: Time, plan: seq<StepRow>)
    requires Standing(db, PlanSave) && CanSavePlan(db, token, now) && GoodPlan(plan, db.steps[0].id)
    ensures RowsOrder(SavePlan(db, token, now, plan))
  {
    var after := SavePlan(db, token, now, plan);
    assert forall i :: 1 <= i < |after.steps| ==> after.steps[i] == Normalized(plan[i - 1]);
    forall i | 1 <= i < |after.steps| && after.task.current == Some(after.steps[i].id) ensures DoneBefore(after.steps, i) {
      assert plan[i - 1].id == plan[0].id;
    }
  }

  lemma PersistOrdered(db: Db, x: StepId, route: Route, now: Time)
    requires Standing(db, DispatchPersist(x, route))
    ensures TaskOrderOk(db, TaskPatch(None, Some(Some(x)), false, KeepHeartbeat), now, RoutePc(route), FailRead)
  {
    FinalIsLast(db.steps);
  }

  lemma ApprovalStepOrdered(db: Db, x: StepId)
    requires Standing(db, ApprovalStep(x))
    ensures StepOrderOk(db, x, JustStatus(StepWaiting), ApprovalTask(x), FailRead)
  {
    var i := UndecidedStep(db, x);
    CurrentFrontier(db, i);
    WaitingStep(db, x, i);
  }

  lemma UndecidedStep(db: Db, x: StepId) returns (i: nat)
    requires Standing(db, ApprovalStep(x))
    ensures 1 <= i < |db.steps| && db.steps[i].id == x && db.steps[i].kind == Tool && db.steps[i].decision == Undecided
    ensures Ready(db.steps[i].status) && db.task.current == Some(x)
  {
    i :| 1 <= i < |db.steps| && db.steps[i].id == x && db.steps[i].kind == Tool && db.steps[i].decision == Undecided;
    var k :| 0 <= k < |db.steps| && db.steps[k].id == x && db.steps[k].kind == Tool && Ready(db.steps[k].status);
    UniqueRow(db.steps, i, k);
  }

  lemma WaitingStep(db: Db, x: StepId, i: nat)
    requires 1 <= i < |db.steps| && db.steps[i].id == x && db.steps[i].kind == Tool && db.steps[i].decision == Undecided
    ensures OrderFacts(db.(steps := PatchRows(db.steps, x, JustStatus(StepWaiting))), ApprovalTask(x))
  {
    assert Awaits(PatchRows(db.steps, x, JustStatus(StepWaiting))[i], x);
  }

  /** The current step, when it is neither finished nor untouched or is simply next, is the frontier. */
  lemma CurrentFrontier(db: Db, i: nat)
    requires Shape(db.steps) && InOrder(db.steps) && CurrentInOrder(db.steps, db.task.current)
    requires 1 <= i < |db.steps| && db.task.current == Some(db.steps[i].id) && db.steps[i].status != StepSucceeded
    ensures FrontierAt(db.steps, db.steps[i].id) && NoLaterCurrent(db.steps, db.task.current, db.steps[i].id)
    ensures db.steps[0].id != db.steps[i].id
  {
    forall j | 0 <= j < |db.steps| && db.steps[j].id == db.steps[i].id ensures j == i {
      UniqueRow(db.steps, i, j);
    }
  }

  lemma ApprovalTaskOrdered(db: Db, x: StepId, now: Time)
    requires Standing(db, ApprovalTask(x))
    ensures TaskOrderOk(db, TaskPatch(Some(WaitingApproval), Some(Some(x)), true, ClearHeartbeat), now, Saving(AtApproval), FailRead)
  {
  }

  lemma ToolMarkOrdered(db: Db, snap: StepRow, op: OpId)
    requires Standing(db, ToolMark(snap, op))
    ensures StepOrderOk(db, snap.id, StepPatch(StepRunning, Some(op), None, None), ToolArmed(snap, op), FailRead)
  {
    var k :| 0 <= k < |db.steps| && db.steps[k] == snap;
    CurrentFrontier(db, k);
  }

  lemma RunningFrontier(db: Db, snap: StepRow, op: OpId)
    requires Standing(db, ToolArmed(snap, op))
    ensures FrontierAt(db.steps, snap.id) && NoLaterCurrent(db.steps, db.task.current, snap.id)
    ensures |db.steps| > 1 && db.steps[0].id != snap.id
    ensures forall i :: 0 <= i < |db.steps| && db.steps[i].id == snap.id ==> db.steps[i] == MarkedRunning(snap, op)
  {
    var k :| 0 <= k < |db.steps| && db.steps[k] == MarkedRunning(snap, op);
    CurrentFrontier(db, k);
    forall i | 0 <= i < |db.steps| && db.steps[i].id == snap.id ensures i == k {
      UniqueRow(db.steps, i, k);
    }
  }

  lemma ToolDoneOrdered(db: Db, snap: StepRow, op: OpId)
    requires Standing(db, ToolDone(snap, op))
    ensures StepOrderOk(db, snap.id, JustStatus(StepSucceeded), ToolTask, FailedCallPc(snap))
  {
    RunningFrontier(db, snap, op);
    PatchInOrder(db.steps, snap.id, JustStatus(StepSucceeded));
  }

  lemma ToolTaskOrdered(db: Db, now: Time)
    requires Standing(db, ToolTask)
    ensures TaskOrderOk(db, TaskPatch(Some(Running), Some(None), false, BeatAt(now)), now, Saving(AtDispatch), FailRead)
  {
  }

  lemma FailStepOrdered(db: Db, x: StepId)
    requires Standing(db, FailStep(x))
    ensures StepOrderOk(db, x, JustStatus(StepFailed), FailTask, FailTask)
  {
    forall i, j | 0 <= i < |db.steps| && 0 <= j < |db.steps| && db.steps[j].id == x && db.task.current == Some(db.steps[i].id)
      ensures i == j
    {
      UniqueRow(db.steps, i, j);
    }
  }

  lemma FailTaskOrdered(db: Db, now: Time)
    requires Standing(db, FailTask)
    ensures TaskOrderOk(db, TaskPatch(Some(Failed), None, true, KeepHeartbeat), now, FailRead, FailRead)
  {
  }

  /** The final step is the last one. */
  lemma FinalFrontier(db: Db, x: StepId)
    requires Shape(db.steps) && |db.steps| > 1 && DoneBefore(db.steps, |db.steps| - 1) && RowIs(db, x, Final)
    ensures db.steps[|db.steps| - 1].id == x && FrontierAt(db.steps, x) && NoLaterCurrent(db.steps, db.task.current, x)
    ensures db.steps[0].id != x && forall i :: 0 <= i < |db.steps| && db.steps[i].id == x ==> db.steps[i].kind == Final
  {
    var k :| 0 <= k < |db.steps| && db.steps[k].id == x && db.steps[k].kind == Final;
    assert k == |db.steps| - 1;
    forall i | 0 <= i < |db.steps| && db.steps[i].id == x ensures i == k {
      UniqueRow(db.steps, i, k);
    }
  }

  lemma FinalMarkOrdered(db: Db, x: StepId)
    requires Standing(db, FinalMark(x))
    ensures StepOrderOk(db, x, JustStatus(StepRunning), FinalSave(x), FailRead)
  {
    FinalFrontier(db, x);
    LastPatched(db, x, JustStatus(StepRunning));
  }

  lemma LastPatched(db: Db, x: StepId, patch: StepPatch)
    requires Shape(db.steps) && |db.steps| > 1 && db.steps[|db.steps| - 1].id == x && DoneBefore(db.steps, |db.steps| - 1)
    ensures DoneBefore(PatchRows(db.steps, x, patch), |db.steps| - 1)
    ensures patch.status == StepSucceeded ==> DoneBefore(PatchRows(db.steps, x, patch), |db.steps|)
  {
    forall i | 0 <= i < |db.steps| - 1 ensures db.steps[i].id != x {
      DifferentRows(db.steps, i, |db.steps| - 1);
    }
  }

  lemma FinalSaveOrdered(db: Db, x: StepId)
    requires Standing(db, FinalSave(x))
    ensures StepOrderOk(db, x, JustStatus(StepSucceeded), FinalTask(x), FailRead) && OrderFacts(db, FailStep(x))
  {
    FinalFrontier(db, x);
    LastPatched(db, x, JustStatus(StepSucceeded));
  }

  lemma FinalTaskOrdered(db: Db, x: StepId, now: Time)
    requires Standing(db, FinalTask(x))
    ensures TaskOrderOk(db, TaskPatch(Some(Succeeded), Some(Some(x)), true, ClearHeartbeat), now, Done, FailRead)
  {
  }

  lemma FailRunStepOrdered(db: Db, x: StepId)
    requires Standing(db, FailRunStep(x))
    ensures StepOrderOk(db, x, JustStatus(StepFailed), FailRunTask(Some(x)), FailRunTask(Some(x)))
  {
    PatchInOrder(db.steps, x, JustStatus(StepFailed));
    FrontierCurrent(db.steps, x);
    FrontierCurrent(PatchRows(db.steps, x, JustStatus(StepFailed)), x);
  }

  lemma FrontierCurrent(steps: seq<StepRow>, x: StepId)
    requires FrontierAt(steps, x)
    ensures CurrentInOrder(steps, Some(x))
  {
    forall i | 1 <= i < |steps| && steps[i].id == x ensures DoneBefore(steps, i) {
      assert Frontier(steps, i);
    }
  }

  lemma FailRunTaskOrdered(db: Db, current: Option<StepId>, now: Time)
    requires Standing(db, FailRunTask(current))
    ensures TaskOrderOk(db, TaskPatch(Some(Failed), Some(current), true, ClearHeartbeat), now, Done, Done)
  {
  }

  // ----- each position of a run: where its reads lead -----

  lemma DispatchRouteOrdered(s: Sys, r: nat, now: Time, out: Outcome, env: Env)
    requires r < |s.runs| && s.runs[r].pc.DispatchRoute? && Standing(s.db, DispatchRoute)
    ensures OrderFacts(s.db, DispatchNode(s, r, now, out, env).runs[r].pc)
  {
    if NextRoute(s.db).Go? {
      RouteInOrder(s.db);
    }
  }

  lemma ApprovalReadOrdered(s: Sys, r: nat, now: Time, out: Outcome, env: Env)
    requires r < |s.runs| && s.runs[r].pc.ApprovalRead? && Standing(s.db, ApprovalRead)
    ensures OrderFacts(s.db, ApprovalNode(s, r, now, out, env).runs[r].pc)
  {
    var found := CurrentToolStep(s.db.steps, s.db.task.current);
    if found.Some? {
      var k :| 0 <= k < |s.db.steps| && s.db.steps[k] == found.value;
      assert k >= 1;
      assert PlainRow(s.db.steps[k], s.db.task.status);
    }
  }

  lemma FailReadOrdered(s: Sys, r: nat, now: Time, out: Outcome, env: Env)
    requires r < |s.runs| && s.runs[r].pc.FailRead? && Standing(s.db, FailRead)
    ensures OrderFacts(s.db, FailureNode(s, r, now, out, env).runs[r].pc)
  {
    var step := FailureStep(s.db);
    if step.Some? {
      BlameInOrder(s.db);
      FrontierCurrent(s.db.steps, step.value.id);
    }
    FailReadIs(s, r, now, out, env);
  }

  lemma ToolArmedOrdered(s: Sys, r: nat, now: Time, out: Outcome, env: Env)
    requires r < |s.runs| && s.runs[r].pc.ToolArmed? && Standing(s.db, s.runs[r].pc)
    ensures OrderFacts(s.db, ToolNode(s, r, now, out, env).runs[r].pc)
  {
    RunningFrontier(s.db, s.runs[r].pc.snap, s.runs[r].pc.op);
  }

  // ----- every node -----

  lemma PlanOrder(s: Sys, r: nat, now: Time, out: Outcome, env: Env)
    requires Core(s) && Order(s) && r < |s.runs|
    ensures Order(PlanNode(s, r, now, out, env))
  {
    match s.runs[r].pc {
      case PlanRead => PlanReadOrder(s, r, now, out, env);
      case PlanMark(x) => PlanMarkOrder(s, r, now, out, env, x);
      case PlanRun(x) => PlanRunOrder(s, r, now, out, env, x);
      case PlanSave => PlanSaveOrder(s, r, now, out, env);
      case _ =>
    }
  }

  lemma PlanMarkOrder(s: Sys, r: nat, now: Time, out: Outcome, env: Env, x: StepId)
    requires Core(s) && Order(s) && r < |s.runs| && s.runs[r].pc == PlanMark(x)
    ensures Order(PlanNode(s, r, now, out, env))
  {
    if Holds(s, r) {
      HolderOrder(s, r);
      PlanMarkOrdered(s.db, x, now);
    }
    TaskWriteOrder(s, r, now, out, TaskPatch(Some(Planning), Some(Some(x)), false, KeepHeartbeat), PlanRun(x), FailRead);
  }

  lemma PlanRunOrder(s: Sys, r: nat, now: Time, out: Outcome, env: Env, x: StepId)
    requires Core(s) && Order(s) && r < |s.runs| && s.runs[r].pc == PlanRun(x)
    ensures Order(PlanNode(s, r, now, out, env))
  {
    if Holds(s, r) {
      HolderOrder(s, r);
      PlanRunOrdered(s.db, x);
    }
    StepWriteOrder(s, r, now, out, x, JustStatus(StepRunning), PlanSave, FailRead);
  }

  lemma PlanReadOrder(s: Sys, r: nat, now: Time, out: Outcome, env: Env)
    requires Core(s) && Order(s) && r < |s.runs| && s.runs[r].pc.PlanRead?
    ensures Order(PlanNode(s, r, now, out, env))
  {
    var next := PlanNode(s, r, now, out, env).runs[r].pc;
    assert PlanNode(s, r, now, out, env) == Goto(s, r, next);
    MoveOrder(s, r, next);
  }

  lemma PlanSaveOrder(s: Sys, r: nat, now: Time, out: Outcome, env: Env)
    requires Core(s) && Order(s) && r < |s.runs| && s.runs[r].pc.PlanSave?
    ensures Order(PlanNode(s, r, now, out, env))
  {
    var token := s.runs[r].token;
    if env.ok && GoodPlan(env.plan, s.db.steps[0].id) {
      if CanSavePlan(s.db, token, now) {
        FenceMeansHolder(s, r, now);
        HolderOrder(s, r);
        SavePlanOrdered(s.db, token, now, env.plan);
      }
      WriteOrder(s, r, now, CanSavePlan(s.db, token, now), SavePlan(s.db, token, now, env.plan), out, Saving(AtDispatch), FailRead);
    } else {
      MoveOrder(s, r, FailRead);
    }
  }

  lemma DispatchOrder(s: Sys, r: nat, now: Time, out: Outcome, env: Env)
    requires Core(s) && Order(s) && r < |s.runs|
    ensures Order(DispatchNode(s, r, now, out, env))
  {
    match s.runs[r].pc {
      case DispatchCheck =>
        DispatchCheckIs(s, r, now, out, env);
        MoveOrder(s, r, DispatchNode(s, r, now, out, env).runs[r].pc);
      case DispatchRoute => DispatchRouteOrder(s, r, now, out, env);
      case DispatchPersist(x, route) => DispatchPersistOrder(s, r, now, out, env, x, route);
      case _ =>
    }
  }

  lemma DispatchPersistOrder(s: Sys, r: nat, now: Time, out: Outcome, env: Env, x: StepId, route: Route)
    requires Core(s) && Order(s) && r < |s.runs| && s.runs[r].pc == DispatchPersist(x, route)
    ensures Order(DispatchNode(s, r, now, out, env))
  {
    if Holds(s, r) {
      HolderOrder(s, r);
      PersistOrdered(s.db, x, route, now);
    }
    TaskWriteOrder(s, r, now, out, TaskPatch(None, Some(Some(x)), false, KeepHeartbeat), RoutePc(route), FailRead);
  }

  lemma DispatchRouteOrder(s: Sys, r: nat, now: Time, out: Outcome, env: Env)
    requires Core(s) && Order(s) && r < |s.runs| && s.runs[r].pc.DispatchRoute?
    ensures Order(DispatchNode(s, r, now, out, env))
  {
    var next := DispatchNode(s, r, now, out, env).runs[r].pc;
    if Holds(s, r) {
      HolderOrder(s, r);
      DispatchRouteOrdered(s, r, now, out, env);
    }
    assert DispatchNode(s, r, now, out, env) == Goto(s, r, next);
    MoveOrder(s, r, next);
  }

  lemma ApprovalOrder(s: Sys, r: nat, now: Time, out: Outcome, env: Env)
    requires Core(s) && Order(s) && r < |s.runs|
    ensures Order(ApprovalNode(s, r, now, out, env))
  {
    match s.runs[r].pc {
      case ApprovalRead => ApprovalReadOrder(s, r, now, out, env);
      case ApprovalStep(x) => ApprovalStepOrder(s, r, now, out, env, x);
      case ApprovalTask(x) => ApprovalTaskOrder(s, r, now, out, env, x);
      case _ =>
    }
  }

  lemma ApprovalStepOrder(s: Sys, r: nat, now: Time, out: Outcome, env: Env, x: StepId)
    requires Core(s) && Order(s) && r < |s.runs| && s.runs[r].pc == ApprovalStep(x)
    ensures Order(ApprovalNode(s, r, now, out, env))
  {
    if Holds(s, r) {
      HolderOrder(s, r);
      ApprovalStepOrdered(s.db, x);
    }
    ApprovalStepIs(s, r, now, out, env);
    StepWriteOrder(s, r, now, out, x, JustStatus(StepWaiting), ApprovalTask(x), FailRead);
  }

  lemma ApprovalTaskOrder(s: Sys, r: nat, now: Time, out: Outcome, env: Env, x: StepId)
    requires Core(s) && Order(s) && r < |s.runs| && s.runs[r].pc == ApprovalTask(x)
    ensures Order(ApprovalNode(s, r, now, out, env))
  {
    if Holds(s, r) {
      HolderOrder(s, r);
      ApprovalTaskOrdered(s.db, x, now);
    }
    TaskWriteOrder(s, r, now, out, TaskPatch(Some(WaitingApproval), Some(Some(x)), true, ClearHeartbeat),
                   Saving(AtApproval), FailRead);
  }

  lemma ApprovalReadOrder(s: Sys, r: nat, now: Time, out: Outcome, env: Env)
    requires Core(s) && Order(s) && r < |s.runs| && s.runs[r].pc.ApprovalRead?
    ensures Order(ApprovalNode(s, r, now, out, env))
  {
    var next := ApprovalNode(s, r, now, out, env).runs[r].pc;
    if Holds(s, r) {
      HolderOrder(s, r);
      ApprovalReadOrdered(s, r, now, out, env);
    }
    assert ApprovalNode(s, r, now, out, env) == Goto(s, r, next);
    MoveOrder(s, r, next);
  }

  lemma ToolReadOrder(s: Sys, r: nat, now: Time, out: Outcome, env: Env)
    requires Core(s) && Order(s) && r < |s.runs| && s.runs[r].pc.ToolRead?
    ensures Order(ToolNode(s, r, now, out, env))
  {
    var next := ToolNode(s, r, now, out, env).runs[r].pc;
    assert ToolNode(s, r, now, out, env) == Goto(s, r, next) && (next == FailRead || next.ToolMark?);
    MoveOrder(s, r, next);
  }

  lemma ToolArmedOrder(s: Sys, r: nat, now: Time, out: Outcome, env: Env)
    requires Core(s) && Order(s) && r < |s.runs| && s.runs[r].pc.ToolArmed?
    ensures Order(ToolNode(s, r, now, out, env))
  {
    var snap, op := s.runs[r].pc.snap, s.runs[r].pc.op;
    var event := Sent(snap.id, snap.arguments, op, snap.policy, env.policy, s.runs[r].claimAt);
    var next := ToolNode(s, r, now, out, env).runs[r].pc;
    if Holds(s, r) {
      HolderOrder(s, r);
      ToolArmedOrdered(s, r, now, out, env);
    }
    ToolArmedIs(s, r, now, out, env);
    MoveOrder(s, r, next);
    LoggedOrder(Goto(s, r, next), event);
    assert Goto(s.(log := s.log + [event]), r, next) == Goto(s, r, next).(log := s.log + [event]);
  }

  lemma LoggedOrder(s: Sys, e: Event)
    requires Order(s)
    ensures Order(s.(log := s.log + [e]))
  {
  }

  lemma ToolMarkOrder(s: Sys, r: nat, now: Time, out: Outcome, env: Env)
    requires Core(s) && Order(s) && r < |s.runs| && s.runs[r].pc.ToolMark?
    ensures Order(ToolNode(s, r, now, out, env))
  {
    var snap, op := s.runs[r].pc.snap, s.runs[r].pc.op;
    if Holds(s, r) {
      HolderOrder(s, r);
      ToolMarkOrdered(s.db, snap, op);
    }
    ToolMarkIs(s, r, now, out, env);
    StepWriteOrder(s, r, now, out, snap.id, StepPatch(StepRunning, Some(op), None, None), ToolArmed(snap, op), FailRead);
  }

  lemma ToolDoneOrder(s: Sys, r: nat, now: Time, out: Outcome, env: Env)
    requires Core(s) && Order(s) && r < |s.runs| && s.runs[r].pc.ToolDone?
    ensures Order(ToolNode(s, r, now, out, env))
  {
    var snap, op := s.runs[r].pc.snap, s.runs[r].pc.op;
    if Holds(s, r) {
      HolderOrder(s, r);
      ToolDoneOrdered(s.db, snap, op);
    }
    StepWriteOrder(s, r, now, out, snap.id, JustStatus(StepSucceeded), ToolTask, FailedCallPc(snap));
  }

  /** A step under review is the one that was running. */
  lemma PausedOrder(db: Db, x: StepId, now: Time, patch: StepPatch)
    requires RowsOrder(db) && Shape(db.steps) && LeaseStatus(db.task.status) && HasRunningTool(db.steps, x)
    requires patch.status == StepUnknown && patch.decision in {None, Some(Undecided)}
    ensures RowsOrder(Db(PausedForReview(db.task, x, now), PatchRows(db.steps, x, patch)))
  {
    var k :| 0 <= k < |db.steps| && db.steps[k].id == x && db.steps[k].kind == Tool && db.steps[k].status == StepRunning;
    RunningIsFrontier(db, x, k);
    PatchInOrder(db.steps, x, patch);
    FrontierCurrent(PatchRows(db.steps, x, patch), x);
    PausedPlain(db, x, patch);
  }

  lemma PausedPlain(db: Db, x: StepId, patch: StepPatch)
    requires PlainRows(db) && patch.status == StepUnknown && patch.decision in {None, Some(Undecided)}
    ensures var after := PatchRows(db.steps, x, patch); forall i :: 1 <= i < |after| ==> PlainRow(after[i], RequiresReview)
  {
    var after := PatchRows(db.steps, x, patch);
    forall i | 1 <= i < |after| ensures PlainRow(after[i], RequiresReview) {
      assert PlainRow(db.steps[i], db.task.status);
    }
  }

  lemma RunningIsFrontier(db: Db, x: StepId, k: nat)
    requires Shape(db.steps) && InOrder(db.steps) && 1 <= k < |db.steps| && db.steps[k].id == x
    requires db.steps[k].status != StepSucceeded && !Untouched(db.steps[k])
    ensures FrontierAt(db.steps, x) && db.steps[0].id != x
  {
    forall i | 0 <= i < |db.steps| && db.steps[i].id == x ensures i == k {
      UniqueRow(db.steps, i, k);
    }
  }

  lemma PauseOrder(s: Sys, r: nat, now: Time, out: Outcome, x: StepId, patch: StepPatch, bad: Pc)
    requires Core(s) && Order(s) && r < |s.runs| && (bad == FailRead || bad == Done)
    requires patch.status == StepUnknown && patch.decision in {None, Some(Undecided)}
    ensures var token := s.runs[r].token;
            var after := Db(PausedForReview(s.db.task, x, now), PatchRows(s.db.steps, x, patch));
            Order(Write(s, r, CanPause(s.db, token, now, x), after, out, Done, bad))
  {
    var token := s.runs[r].token;
    var after := Db(PausedForReview(s.db.task, x, now), PatchRows(s.db.steps, x, patch));
    if CanPause(s.db, token, now, x) {
      PausedOrder(s.db, x, now, patch);
    }
    WriteOrder(s, r, now, CanPause(s.db, token, now, x), after, out, Done, bad);
  }

  lemma MarkUnknownOrder(s: Sys, r: nat, now: Time, out: Outcome, x: StepId, bad: Pc)
    requires Core(s) && Order(s) && r < |s.runs| && (bad == FailRead || bad == Done)
    ensures var token := s.runs[r].token;
            Order(Write(s, r, CanPause(s.db, token, now, x), MarkUnknown(s.db, token, now, x), out, Done, bad))
  {
    var token := s.runs[r].token;
    PauseOrder(s, r, now, out, x, JustStatus(StepUnknown), bad);
    assert Write(s, r, CanPause(s.db, token, now, x), MarkUnknown(s.db, token, now, x), out, Done, bad)
        == Write(s, r, CanPause(s.db, token, now, x),
                 Db(PausedForReview(s.db.task, x, now), PatchRows(s.db.steps, x, JustStatus(StepUnknown))), out, Done, bad);
  }

  lemma PauseReviewOrder(s: Sys, r: nat, now: Time, out: Outcome, env: Env)
    requires Core(s) && Order(s) && r < |s.runs| && s.runs[r].pc.PauseReview?
    ensures Order(ToolNode(s, r, now, out, env))
  {
    var token := s.runs[r].token;
    var x, policy := s.runs[r].pc.step, s.runs[r].pc.policy;
    var patch := StepPatch(StepUnknown, None, Some(Undecided), Some(policy));
    PauseOrder(s, r, now, out, x, patch, FailRead);
    var written := Write(s, r, CanPause(s.db, token, now, x), Db(PausedForReview(s.db.task, x, now), PatchRows(s.db.steps, x, patch)),
                         out, Done, FailRead);
    LoggedOrder(written, PolicyReset(x));
    PauseReviewIs(s, r, now, out, env);
  }

  lemma ToolOrder(s: Sys, r: nat, now: Time, out: Outcome, env: Env)
    requires Core(s) && Order(s) && r < |s.runs|
    ensures Order(ToolNode(s, r, now, out, env))
  {
    match s.runs[r].pc {
      case ToolRead => ToolReadOrder(s, r, now, out, env);
      case ToolMark(_, _) => ToolMarkOrder(s, r, now, out, env);
      case ToolArmed(_, _) => ToolArmedOrder(s, r, now, out, env);
      case ToolDone(_, _) => ToolDoneOrder(s, r, now, out, env);
      case ToolTask => ToolTaskOrder(s, r, now, out, env);
      case PauseUnknown(x) => PauseUnknownOrder(s, r, now, out, env, x);
      case PauseReview(_, _) => PauseReviewOrder(s, r, now, out, env);
      case _ =>
    }
  }

  lemma PauseUnknownOrder(s: Sys, r: nat, now: Time, out: Outcome, env: Env, x: StepId)
    requires Core(s) && Order(s) && r < |s.runs| && s.runs[r].pc == PauseUnknown(x)
    ensures Order(ToolNode(s, r, now, out, env))
  {
    MarkUnknownOrder(s, r, now, out, x, FailRead);
  }

  lemma ToolTaskOrder(s: Sys, r: nat, now: Time, out: Outcome, env: Env)
    requires Core(s) && Order(s) && r < |s.runs| && s.runs[r].pc == ToolTask
    ensures Order(ToolNode(s, r, now, out, env))
  {
    if Holds(s, r) {
      HolderOrder(s, r);
      ToolTaskOrdered(s.db, now);
    }
    TaskWriteOrder(s, r, now, out, TaskPatch(Some(Running), Some(None), false, BeatAt(now)), Saving(AtDispatch), FailRead);
  }

  lemma FinalOrder(s: Sys, r: nat, now: Time, out: Outcome, env: Env)
    requires Core(s) && Order(s) && r < |s.runs|
    ensures Order(FinalNode(s, r, now, out, env))
  {
    match s.runs[r].pc {
      case FinalRead => FinalReadOrder(s, r, now, out, env);
      case FinalMark(x) => FinalMarkOrder(s, r, now, out, env, x);
      case FinalSave(x) => FinalSaveOrder(s, r, now, out, env, x);
      case FinalTask(x) => FinalTaskOrder(s, r, now, out, env, x);
      case _ =>
    }
  }

  lemma FinalReadOrder(s: Sys, r: nat, now: Time, out: Outcome, env: Env)
    requires Core(s) && Order(s) && r < |s.runs| && s.runs[r].pc.FinalRead?
    ensures Order(FinalNode(s, r, now, out, env))
  {
    if Holds(s, r) {
      HolderOrder(s, r);
    }
    FinalReadIs(s, r, now, out, env);
    MoveOrder(s, r, FinalNode(s, r, now, out, env).runs[r].pc);
  }

  lemma FinalMarkOrder(s: Sys, r: nat, now: Time, out: Outcome, env: Env, x: StepId)
    requires Core(s) && Order(s) && r < |s.runs| && s.runs[r].pc == FinalMark(x)
    ensures Order(FinalNode(s, r, now, out, env))
  {
    if Holds(s, r) {
      HolderOrder(s, r);
      FinalMarkOrdered(s.db, x);
    }
    FinalMarkIs(s, r, now, out, env);
    StepWriteOrder(s, r, now, out, x, JustStatus(StepRunning), FinalSave(x), FailRead);
  }

  lemma FinalTaskIs(s: Sys, r: nat, now: Time, out: Outcome, env: Env, x: StepId)
    requires r < |s.runs| && s.runs[r].pc == FinalTask(x)
    ensures FinalNode(s, r, now, out, env)
            == WriteTask(s, r, now, out, TaskPatch(Some(Succeeded), Some(Some(x)), true, ClearHeartbeat), Done, FailRead)
  {
  }

  lemma FinalTaskOrder(s: Sys, r: nat, now: Time, out: Outcome, env: Env, x: StepId)
    requires Core(s) && Order(s) && r < |s.runs| && s.runs[r].pc == FinalTask(x)
    ensures Order(FinalNode(s, r, now, out, env))
  {
    if Holds(s, r) {
      HolderOrder(s, r);
      FinalTaskOrdered(s.db, x, now);
    }
    FinalTaskIs(s, r, now, out, env, x);
    TaskWriteOrder(s, r, now, out, TaskPatch(Some(Succeeded), Some(Some(x)), true, ClearHeartbeat), Done, FailRead);
  }

  lemma FinalSaveOrder(s: Sys, r: nat, now: Time, out: Outcome, env: Env, x: StepId)
    requires Core(s) && Order(s) && r < |s.runs| && s.runs[r].pc == FinalSave(x)
    ensures Order(FinalNode(s, r, now, out, env))
  {
    if Holds(s, r) {
      HolderOrder(s, r);
      FinalSaveOrdered(s.db, x);
    }
    FinalSaveIs(s, r, now, out, env);
    if env.ok {
      StepWriteOrder(s, r, now, out, x, JustStatus(StepSucceeded), FinalTask(x), FailRead);
    } else {
      MoveOrder(s, r, FailStep(x));
    }
  }

  lemma FailReadOrder(s: Sys, r: nat, now: Time, out: Outcome, env: Env)
    requires Core(s) && Order(s) && r < |s.runs| && s.runs[r].pc.FailRead?
    ensures Order(FailureNode(s, r, now, out, env))
  {
    var next := FailureNode(s, r, now, out, env).runs[r].pc;
    if Holds(s, r) {
      HolderOrder(s, r);
      FailReadOrdered(s, r, now, out, env);
    }
    FailReadIs(s, r, now, out, env);
    MoveOrder(s, r, next);
  }

  lemma FailReadIs(s: Sys, r: nat, now: Time, out: Outcome, env: Env)
    requires r < |s.runs| && s.runs[r].pc.FailRead?
    ensures var step := FailureStep(s.db);
            var next := FailureNode(s, r, now, out, env).runs[r].pc;
            && FailureNode(s, r, now, out, env) == Goto(s, r, next)
            && (next == Done || next.FailUnknown? || next == FailRunTask(s.db.task.current)
                || (step.Some? && (next == FailRunTask(Some(step.value.id)) || next == FailRunStep(step.value.id))))
  {
  }

  lemma FailureOrder(s: Sys, r: nat, now: Time, out: Outcome, env: Env)
    requires Core(s) && Order(s) && r < |s.runs|
    ensures Order(FailureNode(s, r, now, out, env))
  {
    match s.runs[r].pc {
      case FailStep(x) => FailStepOrder(s, r, now, out, env, x);
      case FailTask => FailTaskOrder(s, r, now, out, env);
      case FailRead => FailReadOrder(s, r, now, out, env);
      case FailUnknown(x) => FailUnknownOrder(s, r, now, out, env, x);
      case FailRunStep(x) => FailRunStepOrder(s, r, now, out, env, x);
      case FailRunTask(current) => FailRunTaskOrder(s, r, now, out, env, current);
      case _ =>
    }
  }

  lemma FailUnknownOrder(s: Sys, r: nat, now: Time, out: Outcome, env: Env, x: StepId)
    requires Core(s) && Order(s) && r < |s.runs| && s.runs[r].pc == FailUnknown(x)
    ensures Order(FailureNode(s, r, now, out, env))
  {
    FailUnknownIs(s, r, now, out, env, x);
    MarkUnknownOrder(s, r, now, out, x, Done);
  }

  lemma FailUnknownIs(s: Sys, r: nat, now: Time, out: Outcome, env: Env, x: StepId)
    requires r < |s.runs| && s.runs[r].pc == FailUnknown(x)
    ensures var token := s.runs[r].token;
            FailureNode(s, r, now, out, env)
            == Write(s, r, CanPause(s.db, token, now, x), MarkUnknown(s.db, token, now, x), out, Done, Done)
  {
  }

  lemma FailStepOrder(s: Sys, r: nat, now: Time, out: Outcome, env: Env, x: StepId)
    requires Core(s) && Order(s) && r < |s.runs| && s.runs[r].pc == FailStep(x)
    ensures Order(FailureNode(s, r, now, out, env))
  {
    if Holds(s, r) {
      HolderOrder(s, r);
      FailStepOrdered(s.db, x);
    }
    StepWriteOrder(s, r, now, out, x, JustStatus(StepFailed), FailTask, FailTask);
  }

  lemma FailTaskOrder(s: Sys, r: nat, now: Time, out: Outcome, env: Env)
    requires Core(s) && Order(s) && r < |s.runs| && s.runs[r].pc == FailTask
    ensures Order(FailureNode(s, r, now, out, env))
  {
    if Holds(s, r) {
      HolderOrder(s, r);
      FailTaskOrdered(s.db, now);
    }
    TaskWriteOrder(s, r, now, out, TaskPatch(Some(Failed), None, true, KeepHeartbeat), FailRead, FailRead);
  }

  lemma FailRunStepIs(s: Sys, r: nat, now: Time, out: Outcome, env: Env, x: StepId)
    requires r < |s.runs| && s.runs[r].pc == FailRunStep(x)
    ensures FailureNode(s, r, now, out, env)
            == WriteStep(s, r, now, out, x, JustStatus(StepFailed), FailRunTask(Some(x)), FailRunTask(Some(x)))
  {
  }

  lemma FailRunStepOrder(s: Sys, r: nat, now: Time, out: Outcome, env: Env, x: StepId)
    requires Core(s) && Order(s) && r < |s.runs| && s.runs[r].pc == FailRunStep(x)
    ensures Order(FailureNode(s, r, now, out, env))
  {
    if Holds(s, r) {
      HolderOrder(s, r);
      FailRunStepOrdered(s.db, x);
    }
    FailRunStepIs(s, r, now, out, env, x);
    StepWriteOrder(s, r, now, out, x, JustStatus(StepFailed), FailRunTask(Some(x)), FailRunTask(Some(x)));
  }

  lemma FailRunTaskIs(s: Sys, r: nat, now: Time, out: Outcome, env: Env, current: Option<StepId>)
    requires r < |s.runs| && s.runs[r].pc == FailRunTask(current)
    ensures FailureNode(s, r, now, out, env)
            == WriteTask(s, r, now, out, TaskPatch(Some(Failed), Some(current), true, ClearHeartbeat), Done, Done)
  {
  }

  lemma FailRunTaskOrder(s: Sys, r: nat, now: Time, out: Outcome, env: Env, current: Option<StepId>)
    requires Core(s) && Order(s) && r < |s.runs| && s.runs[r].pc == FailRunTask(current)
    ensures Order(FailureNode(s, r, now, out, env))
  {
    if Holds(s, r) {
      HolderOrder(s, r);
      FailRunTaskOrdered(s.db, current, now);
    }
    FailRunTaskIs(s, r, now, out, env, current);
    TaskWriteOrder(s, r, now, out, TaskPatch(Some(Failed), Some(current), true, ClearHeartbeat), Done, Done);
  }

  lemma LoadOrder(s: Sys, r: nat, env: Env)
    requires Core(s) && Order(s) && r < |s.runs| && s.runs[r].pc.Loading?
    ensures Order(LoadStep(s, r, env, s.runs[r].pc.first))
  {
    var next := LoadStep(s, r, env, s.runs[r].pc.first).runs[r].pc;
    assert LoadStep(s, r, env, s.runs[r].pc.first) == Goto(s, r, next);
    MoveOrder(s, r, next);
  }

  /** A checkpoint write leaves the rows alone. */
  lemma SaveOrder(s: Sys, r: nat, now: Time, out: Outcome)
    requires Core(s) && Order(s) && r < |s.runs| && s.runs[r].pc.Saving?
    ensures Order(SaveStep(s, r, now, out, s.runs[r].pc.node))
  {
    var s' := SaveStep(s, r, now, out, s.runs[r].pc.node);
    assert s'.db.steps == s.db.steps && s'.db.task.status == s.db.task.status && s'.db.task.current == s.db.task.current;
    assert s'.db.task.leaseOwner == s.db.task.leaseOwner;
    assert s'.runs == s.runs[r := s'.runs[r]] && (s'.runs[r].pc == Done || s'.runs[r].pc.Loading? || s'.runs[r].pc == FailRead);
    SameRowsOrder(s, s', r);
  }

  lemma SameRowsOrder(s: Sys, s': Sys, r: nat)
    requires Order(s) && r < |s.runs| && |s'.runs| == |s.runs| && s'.runs == s.runs[r := s'.runs[r]]
    requires s'.runs[r].pc == Done || s'.runs[r].pc.Loading? || s'.runs[r].pc == FailRead
    requires s'.db.steps == s.db.steps && s'.db.task.status == s.db.task.status && s'.db.task.current == s.db.task.current
    requires s'.db.task.leaseOwner == s.db.task.leaseOwner
    ensures Order(s')
  {
    SameRowsFacts(s.db, s'.db, s.runs[|s.runs| - 1].pc);
  }

  lemma SameRowsFacts(db: Db, after: Db, pc: Pc)
    requires after.steps == db.steps && after.task.status == db.task.status && after.task.current == db.task.current
    ensures RowsOrder(db) ==> RowsOrder(after)
    ensures OrderFacts(db, pc) ==> OrderFacts(after, pc)
  {
  }

  lemma AdvanceOrder(s: Sys, r: nat, now: Time, out: Outcome, env: Env)
    requires Core(s) && Order(s) && r < |s.runs|
    ensures Order(Advance(s, r, now, out, env))
  {
    var next := Advance(s, r, now, out, env);
    if s.runs[r].pc.Loading? {
      LoadOrder(s, r, env);
    } else if s.runs[r].pc.Saving? {
      SaveOrder(s, r, now, out);
    } else if next == PlanNode(s, r, now, out, env) {
      PlanOrder(s, r, now, out, env);
    } else if next == DispatchNode(s, r, now, out, env) {
      DispatchOrder(s, r, now, out, env);
    } else if next == ApprovalNode(s, r, now, out, env) {
      ApprovalOrder(s, r, now, out, env);
    } else if next == FinalNode(s, r, now, out, env) {
      FinalOrder(s, r, now, out, env);
    } else if next == FailureNode(s, r, now, out, env) {
      FailureOrder(s, r, now, out, env);
    } else {
      ToolOrder(s, r, now, out, env);
    }
  }

  // ----- the owner and the recovery pass -----

  lemma ClaimOrder(s: Sys, worker: WorkerId, now: Time, lease: Time, started: bool)
    requires Core(s) && Order(s)
    ensures Order(Step(s, Claims(worker, now, lease, started)))
  {
  }

  lemma RenewOrder(s: Sys, r: nat, now: Time, lease: Time)
    requires Core(s) && Order(s)
    ensures Order(Step(s, Renews(r, now, lease)))
  {
    if r < |s.runs| {
      RenewKeepsRows(s.db, s.runs[r].token, now, lease);
      OtherColumns(s, Renew(s.db, s.runs[r].token, now, lease));
    }
  }

  lemma RenewKeepsRows(db: Db, token: Token, now: Time, lease: Time)
    ensures var after := Renew(db, token, now, lease);
            && after.steps == db.steps && after.task.status == db.task.status && after.task.current == db.task.current
            && after.task.leaseOwner == db.task.leaseOwner
  {
  }

  /** The order depends on the steps, the status, the current step and the lease owner alone. */
  lemma OtherColumns(s: Sys, after: Db)
    requires Order(s) && after.steps == s.db.steps && after.task.status == s.db.task.status
    requires after.task.current == s.db.task.current && after.task.leaseOwner == s.db.task.leaseOwner
    ensures Order(s.(db := after))
  {
    if |s.runs| > 0 {
      SameRowsFacts(s.db, after, s.runs[|s.runs| - 1].pc);
    } else {
      SameRowsFacts(s.db, after, Done);
    }
  }

  lemma RecoveredOrder(db: Db, now: Time, before: Time)
    requires RowsOrder(db) && Shape(db.steps) && RunningInv(db) && Stale(db.task, now, before)
    ensures RowsOrder(Recover(db, now, before))
  {
    RecoveredCurrentKept(db.steps, db.task.current);
    var after := Recover(db, now, before);
    forall i | 1 <= i < |after.steps| ensures PlainRow(after.steps[i], after.task.status) {
      assert PlainRow(db.steps[i], db.task.status);
      if after.steps[i].status == StepUnknown {
        assert UncertainRow(db.steps[i]);
      }
    }
    forall i | 1 <= i < |after.steps| && after.task.current == Some(after.steps[i].id) && after.steps[i].status != StepSucceeded
      ensures DoneBefore(after.steps, i)
    {
      assert DoneBefore(db.steps, i);
    }
  }

  lemma RecoverOrder(s: Sys, now: Time, before: Time)
    requires Core(s) && Order(s)
    ensures Order(Step(s, Recovers(now, before)))
  {
    if Stale(s.db.task, now, before) {
      RecoveredOrder(s.db, now, before);
    }
  }

  lemma ApprovedOrder(db: Db, user: UserId, x: StepId, digest: Digest, now: Time)
    requires RowsOrder(db) && Shape(db.steps) && CanApprove(db, user, x, digest)
    ensures RowsOrder(Approve(db, user, x, digest, now))
  {
    var k :| 0 <= k < |db.steps| && Awaits(db.steps[k], x) && db.steps[k].digest == digest;
    assert |db.steps| > 1;
    RunningIsFrontier(db, x, k);
    var patch := StepPatch(StepApproved, None, Some(Approved), None);
    PatchInOrder(db.steps, x, patch);
    FrontierCurrent(PatchRows(db.steps, x, patch), x);
    ApprovedPlain(db, x);
  }

  lemma ApprovedPlain(db: Db, x: StepId)
    requires OpenOrder(db) && db.task.status == WaitingApproval
    ensures var after := PatchRows(db.steps, x, StepPatch(StepApproved, None, Some(Approved), None));
            forall i :: 1 <= i < |after| ==> PlainRow(after[i], Pending)
  {
    var after := PatchRows(db.steps, x, StepPatch(StepApproved, None, Some(Approved), None));
    forall i | 1 <= i < |after| ensures PlainRow(after[i], Pending) {
      assert PlainRow(db.steps[i], db.task.status);
    }
  }

  lemma ApproveOrder(s: Sys, user: UserId, x: StepId, digest: Digest, now: Time)
    requires Core(s) && Order(s)
    ensures Order(Step(s, Approves(user, x, digest, now)))
  {
    if CanApprove(s.db, user, x, digest) {
      ApprovedOrder(s.db, user, x, digest, now);
    }
  }

  lemma RejectOrder(s: Sys, user: UserId, x: StepId, now: Time)
    requires Core(s) && Order(s)
    ensures Order(Step(s, Rejects(user, x, now)))
  {
  }

  lemma CancelOrder(s: Sys, user: UserId, now: Time)
    requires Core(s) && Order(s)
    ensures Order(Step(s, Cancels(user, now)))
  {
    if CanCancel(s.db, user) {
      assert forall i :: 0 <= i < |s.db.steps| && CancelledRow(s.db.steps[i]).status == StepSucceeded ==>
               s.db.steps[i].status == StepSucceeded;
    }
  }

  lemma ResumedOrder(db: Db, row: StepRow, now: Time)
    requires RowsOrder(db) && Shape(db.steps) && !Closed(db.task.status) && row in db.steps
    requires row.status == StepFailed || row.status == StepUnknown
    ensures RowsOrder(Db(Decided(db.task, Pending, row.id, 1, now), PatchRows(db.steps, row.id, JustStatus(StepPending))))
  {
    var k :| 0 <= k < |db.steps| && db.steps[k] == row;
    var patch := JustStatus(StepPending);
    var after := PatchRows(db.steps, row.id, patch);
    if |db.steps| > 1 {
      assert k >= 1;
      RunningIsFrontier(db, row.id, k);
      PatchInOrder(db.steps, row.id, patch);
      FrontierCurrent(after, row.id);
      ResumedPlain(db, k);
    }
  }

  lemma ResumedPlain(db: Db, k: nat)
    requires OpenOrder(db) && 1 <= k < |db.steps| && (db.steps[k].status == StepFailed || db.steps[k].status == StepUnknown)
    ensures var after := PatchRows(db.steps, db.steps[k].id, JustStatus(StepPending));
            forall i :: 1 <= i < |after| ==> PlainRow(after[i], Pending)
  {
    var after := PatchRows(db.steps, db.steps[k].id, JustStatus(StepPending));
    forall i | 1 <= i < |after| ensures PlainRow(after[i], Pending) {
      assert PlainRow(db.steps[i], db.task.status);
      if i != k {
        OnlyOneBegun(db, k, i);
      }
    }
  }

  /** Besides an unfinished step that has begun, every other is done or untouched. */
  lemma OnlyOneBegun(db: Db, k: nat, i: nat)
    requires InOrder(db.steps) && 1 <= k < |db.steps| && 1 <= i < |db.steps| && i != k
    requires db.steps[k].status != StepSucceeded && !Untouched(db.steps[k])
    ensures db.steps[i].status == StepSucceeded || Untouched(db.steps[i])
  {
  }

  lemma ResumeOrder(s: Sys, user: UserId, retryUnknown: bool, now: Time)
    requires Core(s) && Order(s)
    ensures Order(Step(s, Resumes(user, retryUnknown, now)))
  {
    var target := ResumeTarget(s.db, user, retryUnknown);
    if target.Some? {
      ResumedOrder(s.db, target.value, now);
    }
  }

  lemma StopOrder(s: Sys, r: nat)
    requires Core(s) && Order(s)
    ensures Order(Step(s, Stops(r)))
  {
    if r < |s.runs| {
      MoveOrder(s, r, Done);
    }
  }

  /** Every transition keeps the steps in order. */
  lemma StepOrder(s: Sys, l: Label)
    requires Core(s) && Order(s)
    ensures Order(Step(s, l))
  {
    match l
    case Claims(worker, now, lease, started) => ClaimOrder(s, worker, now, lease, started);
    case Renews(r, now, lease) => RenewOrder(s, r, now, lease);
    case Advances(r, now, out, env) =>
      if r < |s.runs| {
        AdvanceOrder(s, r, now, out, env);
      }
    case Stops(r) => StopOrder(s, r);
    case Recovers(now, before) => RecoverOrder(s, now, before);
    case Approves(user, x, digest, now) => ApproveOrder(s, user, x, digest, now);
    case Rejects(user, x, now) => RejectOrder(s, user, x, now);
    case Resumes(user, retryUnknown, now) => ResumeOrder(s, user, retryUnknown, now);
    case Cancels(user, now) => CancelOrder(s, user, now);
  }

  lemma {:induction false} ExecOrder(s: Sys, labels: seq<Label>)
    requires Inv(s) && Order(s)
    ensures Order(Exec(s, labels))
    decreases |labels|
  {
    if labels != [] {
      var before := labels[..|labels| - 1];
      ExecOrder(s, before);
      ExecInv(s, before);
      StepOrder(Exec(s, before), labels[|labels| - 1]);
    }
  }

  lemma ReachableOrder(s: Sys)
    requires Reachable(s)
    ensures Order(s)
  {
    var user, planId, now, labels :| s == Exec(Init(user, planId, now), labels);
    InitInv(user, planId, now);
    ExecOrder(Init(user, planId, now), labels);
  }

  // ----- main results -----

  /** A task that is reported as succeeded has every step of its plan succeeded, each with intact arguments. */
  lemma SuccessIsComplete(s: Sys)
    requires Reachable(s) && s.db.task.status == Succeeded
    ensures |s.db.steps| > 1 && forall i :: 1 <= i < |s.db.steps| ==> s.db.steps[i].status == StepSucceeded
    ensures forall i :: 1 <= i < |s.db.steps| && s.db.steps[i].kind == Tool ==> Intact(s.db.steps[i])
  {
    ReachableOrder(s);
  }

  /** While a task is open its steps are done one after another: only the first unfinished one may have begun. */
  lemma StepsInOrder(s: Sys, i: nat, j: nat)
    requires Reachable(s) && !Closed(s.db.task.status) && 1 <= i < j < |s.db.steps|
    ensures s.db.steps[i].status != StepSucceeded ==> s.db.steps[j].status == StepPending && s.db.steps[j].decision == Undecided
  {
    ReachableOrder(s);
  }
}
