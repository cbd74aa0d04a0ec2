/**
 The main results about one Agent task, each for every behaviour: every sequence of claims, crashes,
 stalls, heartbeats, clock readings, lost writes, recoveries and owner actions.
 */
module AgentTheorems {
  import opened Options
  import opened AgentRows
  import opened AgentRouting
  import opened AgentSystem
  import opened AgentInvariant
  import opened AgentEvents
  import opened AgentFootprint
  import opened AgentReplay
  import opened AgentApproval

  ghost predicate Inv(s: Sys) {
    Core(s) && Footprint(s) && ReplayInv(s) && ApprovalInv(s)
  }

  lemma StepInv(s: Sys, l: Label)
    requires Inv(s)
    ensures Inv(Step(s, l))
  {
    StepCore(s, l);
    StepFootprint(s, l);
    StepReplay(s, l);
    StepApproval(s, l);
  }

  lemma InitInv(user: UserId, planId: StepId, now: Time)
    ensures Inv(Init(user, planId, now))
  {
  }

  lemma {:induction false} ExecInv(s: Sys, labels: seq<Label>)
    requires Inv(s)
    ensures Inv(Exec(s, labels))
    decreases |labels|
  {
    if labels != [] {
      ExecInv(s, labels[..|labels| - 1]);
      StepInv(Exec(s, labels[..|labels| - 1]), labels[|labels| - 1]);
    }
  }

  /** The states the protocol can reach. */
  ghost predicate Reachable(s: Sys) {
    exists user, planId, now, labels :: s == Exec(Init(user, planId, now), labels)
  }

  lemma ReachableInv(s: Sys)
    requires Reachable(s)
    ensures Inv(s)
  {
    var user, planId, now, labels :| s == Exec(Init(user, planId, now), labels);
    InitInv(user, planId, now);
    ExecInv(Init(user, planId, now), labels);
  }

  lemma {:induction false} ExecUnchanged(s: Sys, labels: seq<Label>)
    requires Inv(s) && CalledUnchanged(s.log)
    ensures CalledUnchanged(Exec(s, labels).log)
    decreases |labels|
  {
    if labels != [] {
      ExecUnchanged(s, labels[..|labels| - 1]);
      ExecInv(s, labels[..|labels| - 1]);
      StepUnchanged(Exec(s, labels[..|labels| - 1]), labels[|labels| - 1]);
    }
  }

  lemma ReachableUnchanged(s: Sys)
    requires Reachable(s)
    ensures CalledUnchanged(s.log)
  {
    var user, planId, now, labels :| s == Exec(Init(user, planId, now), labels);
    InitInv(user, planId, now);
    ExecUnchanged(Init(user, planId, now), labels);
  }

  // ----- 1. no silent replay -----

  /** Every call was made while the tool's trusted policy was the one recorded with the step. */
  lemma ToolsAreCalledUnchanged(s: Sys, k: nat)
    requires Reachable(s) && k < |s.log| && s.log[k].Sent?
    ensures s.log[k].live == s.log[k].policy
  {
    ReachableUnchanged(s);
  }

  /** What must not be repeated on its own: it destroys something, or is neither read-only nor idempotent. */
  predicate Hazardous(p: Policy) {
    p.destructive || (!p.readOnly && !p.idempotent)
  }

  /** Calls of step `x` made while its tool was hazardous. */
  function HazardousCalls(log: seq<Event>, x: StepId): nat {
    if log == [] then 0
    else
      var e := log[|log| - 1];
      HazardousCalls(log[..|log| - 1], x) + if e.Sent? && e.step == x && Hazardous(e.live) then 1 else 0
  }

  lemma {:induction false} HazardousAreSends(log: seq<Event>, x: StepId)
    requires CalledUnchanged(log)
    ensures HazardousCalls(log, x) == Sends(log, x)
  {
    if log != [] {
      HazardousAreSends(log[..|log| - 1], x);
    }
  }

  /**
   A step is called while its tool is hazardous at most once more than the owner explicitly confirmed a retry out of
   the unknown outcome.
   */
  lemma NoSilentReplay(s: Sys, x: StepId)
    requires Reachable(s)
    ensures HazardousCalls(s.log, x) <= 1 + Retries(s.log, x)
  {
    ReachableInv(s);
    ReachableUnchanged(s);
    HazardousAreSends(s.log, x);
    if Exposure(s, x) > 0 {
      ExposureHasRow(s, x);
      var i :| 0 <= i < |s.db.steps| && s.db.steps[i].id == x && s.db.steps[i].kind == Tool;
      assert RowBound(s, s.db.steps[i]);
    }
  }

  /** While a step may still be dispatched without confirmation, even calls yet to leave are all confirmed. */
  lemma DispatchableIsConfirmed(s: Sys, row: StepRow)
    requires Reachable(s) && row in s.db.steps && row.kind == Tool && !Uncertain(row)
    ensures Sends(s.log, row.id) + Permits(s.runs, row.id) <= Retries(s.log, row.id)
  {
    ReachableInv(s);
    assert RowBound(s, row);
  }

  // ----- 2. fencing without clocks -----

  lemma ClaimsNeverShareVersions(s: Sys, q: nat, r: nat)
    requires Reachable(s) && q < r < |s.runs|
    ensures s.runs[q].token.version < s.runs[r].token.version <= s.db.task.runVersion
  {
    ReachableInv(s);
  }

  /** Nothing but the checkpoint cursor (and the row's timestamp) differs. */
  ghost predicate OnlyCheckpoint(before: Db, after: Db) {
    && after.steps == before.steps
    && after.task == before.task.(checkpoint := after.task.checkpoint, updatedAt := after.task.updatedAt)
  }

  /** What a move of run `r` may do to the rows: at most the checkpoint, or a write that passed the full fence. */
  ghost predicate FencedEffect(s: Sys, s': Sys, r: nat, now: Time)
    requires r < |s.runs|
  {
    && (OnlyCheckpoint(s.db, s'.db)
        || (Fence(s.db.task, s.runs[r].token, now) && s'.db.task.runVersion >= s.db.task.runVersion))
    && |s'.runs| == |s.runs|
    && forall q :: 0 <= q < |s.runs| ==> s'.runs[q].token == s.runs[q].token
  }

  lemma PlanFenced(s: Sys, r: nat, now: Time, out: Outcome, env: Env)
    requires r < |s.runs|
    ensures FencedEffect(s, PlanNode(s, r, now, out, env), r, now)
  {
    var token := s.runs[r].token;
    match s.runs[r].pc {
      case PlanRead => GotoFenced(s, r, now, PlanNode(s, r, now, out, env).runs[r].pc);
      case PlanMark(x) =>
        TaskWriteFenced(s, r, now, out, TaskPatch(Some(Planning), Some(Some(x)), false, KeepHeartbeat), PlanRun(x), FailRead);
      case PlanRun(x) => StepWriteFenced(s, r, now, out, x, JustStatus(StepRunning), PlanSave, FailRead);
      case PlanSave =>
        GotoFenced(s, r, now, FailRead);
        WriteFenced(s, r, now, CanSavePlan(s.db, token, now), SavePlan(s.db, token, now, env.plan), out, Saving(AtDispatch), FailRead);
      case _ =>
    }
  }

  lemma DispatchFenced(s: Sys, r: nat, now: Time, out: Outcome, env: Env)
    requires r < |s.runs|
    ensures FencedEffect(s, DispatchNode(s, r, now, out, env), r, now)
  {
  }

  lemma ApprovalFenced(s: Sys, r: nat, now: Time, out: Outcome, env: Env)
    requires r < |s.runs|
    ensures FencedEffect(s, ApprovalNode(s, r, now, out, env), r, now)
  {
  }

  lemma GotoFenced(s: Sys, r: nat, now: Time, pc: Pc)
    requires r < |s.runs|
    ensures FencedEffect(s, Goto(s, r, pc), r, now)
  {
  }

  lemma WriteFenced(s: Sys, r: nat, now: Time, accepted: bool, after: Db, out: Outcome, good: Pc, bad: Pc)
    requires r < |s.runs|
    requires accepted ==> Fence(s.db.task, s.runs[r].token, now) && after.task.runVersion >= s.db.task.runVersion
    ensures FencedEffect(s, Write(s, r, accepted, after, out, good, bad), r, now)
  {
  }

  lemma StepWriteFenced(s: Sys, r: nat, now: Time, out: Outcome, x: StepId, patch: StepPatch, good: Pc, bad: Pc)
    requires r < |s.runs|
    ensures FencedEffect(s, WriteStep(s, r, now, out, x, patch, good, bad), r, now)
  {
  }

  lemma TaskWriteFenced(s: Sys, r: nat, now: Time, out: Outcome, patch: TaskPatch, good: Pc, bad: Pc)
    requires r < |s.runs|
    ensures FencedEffect(s, WriteTask(s, r, now, out, patch, good, bad), r, now)
  {
  }

  lemma CallFenced(s: Sys, r: nat, now: Time, out: Outcome, env: Env)
    requires r < |s.runs| && !s.runs[r].pc.PauseUnknown? && !s.runs[r].pc.PauseReview? && !s.runs[r].pc.ToolRead?
    ensures FencedEffect(s, ToolNode(s, r, now, out, env), r, now)
  {
    match s.runs[r].pc
    case ToolMark(snap, op) =>
      StepWriteFenced(s, r, now, out, snap.id, StepPatch(StepRunning, Some(op), None, None), ToolArmed(snap, op), FailRead);
    case ToolDone(snap, op) =>
      StepWriteFenced(s, r, now, out, snap.id, JustStatus(StepSucceeded), ToolTask, FailedCallPc(snap));
    case ToolTask =>
      TaskWriteFenced(s, r, now, out, TaskPatch(Some(Running), Some(None), false, BeatAt(now)), Saving(AtDispatch), FailRead);
    case _ =>
  }

  lemma PauseFenced(s: Sys, r: nat, now: Time, out: Outcome, env: Env)
    requires r < |s.runs| && (s.runs[r].pc.PauseUnknown? || s.runs[r].pc.PauseReview?)
    ensures FencedEffect(s, ToolNode(s, r, now, out, env), r, now)
  {
    var token := s.runs[r].token;
    var x := s.runs[r].pc.step;
    if s.runs[r].pc.PauseUnknown? {
      WriteFenced(s, r, now, CanPause(s.db, token, now, x), MarkUnknown(s.db, token, now, x), out, Done, FailRead);
    } else {
      var policy := s.runs[r].pc.policy;
      WriteFenced(s, r, now, CanPause(s.db, token, now, x), MarkPolicyReview(s.db, token, now, x, policy), out, Done, FailRead);
    }
  }

  lemma ToolFenced(s: Sys, r: nat, now: Time, out: Outcome, env: Env)
    requires r < |s.runs|
    ensures FencedEffect(s, ToolNode(s, r, now, out, env), r, now)
  {
    if s.runs[r].pc.ToolRead? {
      GotoFenced(s, r, now, ToolNode(s, r, now, out, env).runs[r].pc);
    } else if s.runs[r].pc.PauseUnknown? || s.runs[r].pc.PauseReview? {
      PauseFenced(s, r, now, out, env);
    } else {
      CallFenced(s, r, now, out, env);
    }
  }

  lemma FinalFenced(s: Sys, r: nat, now: Time, out: Outcome, env: Env)
    requires r < |s.runs|
    ensures FencedEffect(s, FinalNode(s, r, now, out, env), r, now)
  {
    match s.runs[r].pc {
      case FinalRead => GotoFenced(s, r, now, FinalNode(s, r, now, out, env).runs[r].pc);
      case FinalMark(x) => StepWriteFenced(s, r, now, out, x, JustStatus(StepRunning), FinalSave(x), FailRead);
      case FinalSave(x) =>
        GotoFenced(s, r, now, FailStep(x));
        StepWriteFenced(s, r, now, out, x, JustStatus(StepSucceeded), FinalTask(x), FailRead);
      case FinalTask(x) =>
        TaskWriteFenced(s, r, now, out, TaskPatch(Some(Succeeded), Some(Some(x)), true, ClearHeartbeat), Done, FailRead);
      case _ =>
    }
  }

  lemma FailureFenced(s: Sys, r: nat, now: Time, out: Outcome, env: Env)
    requires r < |s.runs|
    ensures FencedEffect(s, FailureNode(s, r, now, out, env), r, now)
  {
    var token := s.runs[r].token;
    match s.runs[r].pc
    case FailRead => GotoFenced(s, r, now, FailureNode(s, r, now, out, env).runs[r].pc);
    case FailUnknown(x) =>
      WriteFenced(s, r, now, CanPause(s.db, token, now, x), MarkUnknown(s.db, token, now, x), out, Done, Done);
    case FailStep(x) => StepWriteFenced(s, r, now, out, x, JustStatus(StepFailed), FailTask, FailTask);
    case FailTask => TaskWriteFenced(s, r, now, out, TaskPatch(Some(Failed), None, true, KeepHeartbeat), FailRead, FailRead);
    case FailRunStep(x) =>
      StepWriteFenced(s, r, now, out, x, JustStatus(StepFailed), FailRunTask(Some(x)), FailRunTask(Some(x)));
    case FailRunTask(current) =>
      TaskWriteFenced(s, r, now, out, TaskPatch(Some(Failed), Some(current), true, ClearHeartbeat), Done, Done);
    case _ =>
  }

  /** Safety rests on version and owner: no clock reading lets a run without them write a row. */
  lemma AdvanceFenced(s: Sys, r: nat, now: Time, out: Outcome, env: Env)
    requires r < |s.runs|
    ensures FencedEffect(s, Advance(s, r, now, out, env), r, now)
  {
    PlanFenced(s, r, now, out, env);
    DispatchFenced(s, r, now, out, env);
    ApprovalFenced(s, r, now, out, env);
    ToolFenced(s, r, now, out, env);
    FinalFenced(s, r, now, out, env);
    FailureFenced(s, r, now, out, env);
  }

  lemma StepTokens(s: Sys, l: Label)
    ensures Step(s, l).db.task.runVersion >= s.db.task.runVersion
    ensures |Step(s, l).runs| >= |s.runs|
    ensures forall q :: 0 <= q < |s.runs| ==> Step(s, l).runs[q].token == s.runs[q].token
  {
    if l.Advances? && l.run < |s.runs| {
      AdvanceFenced(s, l.run, l.now, l.out, l.env);
    }
  }

  /** The version column never decreases, whatever happens. */
  lemma {:induction false} RunVersionMonotone(s: Sys, labels: seq<Label>)
    ensures Exec(s, labels).db.task.runVersion >= s.db.task.runVersion
    ensures |Exec(s, labels).runs| >= |s.runs|
    ensures forall q :: 0 <= q < |s.runs| ==> Exec(s, labels).runs[q].token == s.runs[q].token
    decreases |labels|
  {
    if labels != [] {
      RunVersionMonotone(s, labels[..|labels| - 1]);
      StepTokens(Exec(s, labels[..|labels| - 1]), labels[|labels| - 1]);
    }
  }

  /** Once a run has lost the lease it never holds it again. */
  lemma StepStale(s: Sys, l: Label, r: nat)
    requires Core(s) && r < |s.runs| && !Holds(s, r)
    ensures !Holds(Step(s, l), r)
  {
    StepTokens(s, l);
    match l
    case Advances(q, now, out, env) =>
      if q < |s.runs| {
        AdvanceFenced(s, q, now, out, env);
        if Fence(s.db.task, s.runs[q].token, now) {
          FenceMeansHolder(s, q, now);
        }
      }
    case _ =>
  }

  lemma {:induction false} StaleForever(s: Sys, labels: seq<Label>, r: nat)
    requires Inv(s) && r < |s.runs| && !Holds(s, r)
    ensures r < |Exec(s, labels).runs| && !Holds(Exec(s, labels), r)
    decreases |labels|
  {
    if labels != [] {
      var before := labels[..|labels| - 1];
      StaleForever(s, before, r);
      ExecInv(s, before);
      StepTokens(Exec(s, before), labels[|labels| - 1]);
      StepStale(Exec(s, before), labels[|labels| - 1], r);
    }
  }

  /** A label by which run `r` acts on the database. */
  predicate ActsAs(l: Label, r: nat) {
    (l.Advances? || l.Renews?) && l.run == r
  }

  /** A move of run `r` that changes a row beyond the checkpoint is made by the current lease holder, before expiry. */
  lemma OnlyHolderWrites(s: Sys, l: Label, r: nat)
    requires Reachable(s) && r < |s.runs| && ActsAs(l, r)
    ensures OnlyCheckpoint(s.db, Step(s, l).db) || (Holds(s, r) && r == |s.runs| - 1 && Fence(s.db.task, s.runs[r].token, l.now))
  {
    ReachableInv(s);
    if l.Advances? {
      AdvanceFenced(s, r, l.now, l.out, l.env);
    }
    if Fence(s.db.task, s.runs[r].token, l.now) {
      FenceMeansHolder(s, r, l.now);
    }
  }

  /** From the moment a run has lost the lease, no later move of it ever changes a row beyond the checkpoint. */
  lemma NoLateWrite(s: Sys, labels: seq<Label>, r: nat, l: Label)
    requires Reachable(s) && r < |s.runs| && !Holds(s, r) && ActsAs(l, r)
    ensures var later := Exec(s, labels); OnlyCheckpoint(later.db, Step(later, l).db)
  {
    ReachableInv(s);
    StaleForever(s, labels, r);
    ExecInv(s, labels);
    var later := Exec(s, labels);
    if l.Advances? {
      AdvanceFenced(later, r, l.now, l.out, l.env);
    }
    if Fence(later.db.task, later.runs[r].token, l.now) {
      FenceMeansHolder(later, r, l.now);
    }
  }

  /** Recovery, cancellation, rejection, approval, resumption, review and lease release all end every ownership. */
  lemma OwnershipEnds(s: Sys, l: Label, r: nat)
    requires Reachable(s) && r < |Step(s, l).runs|
    requires ((l.Recovers? || l.Cancels? || l.Rejects? || l.Approves? || l.Resumes?) && Step(s, l).db != s.db)
          || !LeaseStatus(Step(s, l).db.task.status)
    ensures !Holds(Step(s, l), r)
  {
    ReachableInv(s);
    StepInv(s, l);
  }

  /** A lease owner is recorded exactly while the task is running or planning. */
  lemma LeaseIffActive(s: Sys)
    requires Reachable(s)
    ensures s.db.task.leaseOwner.Some? <==> LeaseStatus(s.db.task.status)
    ensures s.db.task.leaseOwner.Some? ==> |s.runs| > 0 && Holds(s, |s.runs| - 1)
  {
    ReachableInv(s);
  }

  // ----- 3. running steps -----

  /** At most one step is running; it is the current one; and only an active or failed task has one. */
  lemma RunningStepIsCurrent(s: Sys, i: nat, j: nat)
    requires Reachable(s) && i < |s.db.steps| && s.db.steps[i].status == StepRunning
    ensures s.db.task.current == Some(s.db.steps[i].id)
    ensures s.db.task.status in {Running, Planning, Failed}
    ensures j < |s.db.steps| && s.db.steps[j].status == StepRunning ==> i == j
  {
    ReachableInv(s);
    if j < |s.db.steps| && s.db.steps[j].status == StepRunning {
      UniqueRow(s.db.steps, i, j);
    }
  }

  /** The dispatcher of the lease holder only picks steps that are waiting to run, and a tool step only when approved. */
  lemma DispatcherSkipsRunning(s: Sys, r: nat)
    requires Reachable(s) && Holds(s, r) && (s.runs[r].pc.DispatchCheck? || s.runs[r].pc.DispatchRoute?)
    requires NextRoute(s.db).Go?
    ensures var go := NextRoute(s.db);
            && go.row in s.db.steps && go.row.status != StepRunning
            && (go.row.kind == Tool ==> Ready(go.row.status))
            && (go.route == ToTool ==> !go.row.policy.requiresApproval || go.row.decision == Approved)
  {
    ReachableInv(s);
    HolderFacts(s, r);
    RouteFacts(s.db);
  }

  // ----- 4. approvals -----

  /** Every call of a tool that demands approval follows an owner approval of exactly the arguments sent,
      still in force when the calling run was claimed. */
  lemma SendsAreApproved(s: Sys, k: nat)
    requires Reachable(s) && k < |s.log| && s.log[k].Sent? && s.log[k].live.requiresApproval
    ensures exists i :: 0 <= i < s.log[k].claimAt <= k
              && s.log[i] == OwnerApproved(s.log[k].step, Sha256(s.log[k].arguments))
              && forall j :: i < j < s.log[k].claimAt ==> s.log[j] != PolicyReset(s.log[k].step)
  {
    ReachableInv(s);
    ReachableUnchanged(s);
    assert SendApproved(s.log, k);
    var i :| 0 <= i < s.log[k].claimAt && s.log[i] == OwnerApproved(s.log[k].step, Sha256(s.log[k].arguments))
             && forall j :: i < j < s.log[k].claimAt ==> s.log[j] != PolicyReset(s.log[k].step);
  }

  lemma {:induction false} ExecKept(s: Sys, labels: seq<Label>)
    requires Inv(s)
    ensures RowsKept(s.db.steps, Exec(s, labels).db.steps)
    decreases |labels|
  {
    if labels != [] {
      var before := labels[..|labels| - 1];
      ExecKept(s, before);
      ExecInv(s, before);
      StepKept(Exec(s, before), labels[|labels| - 1]);
      RowsKeptTransitive(s.db.steps, Exec(s, before).db.steps, Exec(s, labels).db.steps);
    }
  }

  /** A committed plan keeps its steps, tools, arguments and digests for good. */
  lemma PlanIsCommittedOnce(s: Sys, labels: seq<Label>, i: nat)
    requires Reachable(s) && |s.db.steps| > 1 && i < |s.db.steps|
    ensures var later := Exec(s, labels).db.steps;
            && |later| == |s.db.steps|
            && later[i].id == s.db.steps[i].id && later[i].kind == s.db.steps[i].kind
            && later[i].tool == s.db.steps[i].tool && later[i].arguments == s.db.steps[i].arguments
            && later[i].digest == s.db.steps[i].digest
            && (s.db.steps[i].operationId.Some? ==> later[i].operationId == s.db.steps[i].operationId)
  {
    ReachableInv(s);
    ExecKept(s, labels);
    assert SamePayload(s.db.steps[i], Exec(s, labels).db.steps[i]);
  }

  // ----- 5. one operation identifier per step -----

  /** All calls of one step carry the same operation identifier and the same arguments. */
  lemma OneOperationPerStep(s: Sys, j: nat, k: nat)
    requires Reachable(s) && j < |s.log| && k < |s.log| && s.log[j].Sent? && s.log[k].Sent?
    requires s.log[j].step == s.log[k].step
    ensures s.log[j].op == s.log[k].op && s.log[j].arguments == s.log[k].arguments
  {
    ReachableInv(s);
    assert EventCallRow(s.db.steps, s.log[j]) && EventCallRow(s.db.steps, s.log[k]);
    var a :| 0 <= a < |s.db.steps| && s.db.steps[a].id == s.log[j].step && s.db.steps[a].kind == Tool
             && s.db.steps[a].arguments == s.log[j].arguments && s.db.steps[a].digest == Sha256(s.log[j].arguments)
             && s.db.steps[a].operationId == Some(s.log[j].op);
    var b :| 0 <= b < |s.db.steps| && s.db.steps[b].id == s.log[k].step && s.db.steps[b].kind == Tool
             && s.db.steps[b].arguments == s.log[k].arguments && s.db.steps[b].digest == Sha256(s.log[k].arguments)
             && s.db.steps[b].operationId == Some(s.log[k].op);
    UniqueRow(s.db.steps, a, b);
  }

  // ----- 6. absorbing states -----

  predicate Closed(status: TaskStatus) {
    status == Succeeded || status == Rejected || status == Cancelled
  }

  lemma StepClosed(s: Sys, l: Label)
    requires Inv(s) && Closed(s.db.task.status)
    ensures OnlyCheckpoint(s.db, Step(s, l).db)
  {
    match l
    case Advances(r, now, out, env) =>
      if r < |s.runs| {
        AdvanceFenced(s, r, now, out, env);
      }
    case _ =>
  }

  lemma {:induction false} ExecClosed(s: Sys, labels: seq<Label>)
    requires Inv(s) && Closed(s.db.task.status)
    ensures OnlyCheckpoint(s.db, Exec(s, labels).db)
    decreases |labels|
  {
    if labels != [] {
      var before := labels[..|labels| - 1];
      ExecClosed(s, before);
      ExecInv(s, before);
      StepClosed(Exec(s, before), labels[|labels| - 1]);
    }
  }

  /** Succeeded, rejected and cancelled tasks keep every row for ever, except that a late checkpoint may land. */
  lemma ClosedForever(s: Sys, labels: seq<Label>)
    requires Reachable(s) && Closed(s.db.task.status)
    ensures OnlyCheckpoint(s.db, Exec(s, labels).db) && Exec(s, labels).db.task.status == s.db.task.status
  {
    ReachableInv(s);
    ExecClosed(s, labels);
  }
}
