/**
 The distributed protocol around one Agent task: any number of claimed runs, live or stale,
 each at its own point of the graph, interleaved with heartbeats, stale recovery and owner actions.

 One transition is one database transaction, one database read, or one external call.
 All choices of the environment (clock readings, failing writes, model and tool answers) are in the
 label, so a behaviour is a finite sequence of labels and every theorem quantifies over all of them.
 */
module AgentSystem {
  import opened Options
  import opened AgentRows
  import opened AgentRouting

  /** Where a run is; the fields are its local variables, read earlier. */
  datatype Pc =
    | Loading(first: bool)
    | PlanRead | PlanMark(step: StepId) | PlanRun(step: StepId) | PlanSave
    | Saving(node: Node)
    | DispatchCheck | DispatchRoute | DispatchPersist(step: StepId, route: Route)
    | ApprovalRead | ApprovalStep(step: StepId) | ApprovalTask(step: StepId)
    | ToolRead | ToolMark(snap: StepRow, op: OpId) | ToolArmed(snap: StepRow, op: OpId)
    | ToolDone(snap: StepRow, op: OpId) | ToolTask
    | FailStep(step: StepId) | FailTask
    | PauseUnknown(step: StepId) | PauseReview(step: StepId, policy: Policy)
    | FinalRead | FinalMark(step: StepId) | FinalSave(step: StepId) | FinalTask(step: StepId)
    | FailRead | FailUnknown(step: StepId) | FailRunStep(step: StepId) | FailRunTask(current: Option<StepId>)
    | Done

  /** `claimAt` is the length of the log when the run was claimed. */
  datatype Run = Run(token: Token, claimAt: nat, pc: Pc)

  /** What an observer outside the database sees, in order. `live` is what the registry said of the tool at the call. */
  datatype Event =
    | OwnerApproved(step: StepId, digest: Digest)
    | PolicyReset(step: StepId)
    | OwnerRetried(step: StepId)
    | Sent(step: StepId, arguments: string, op: OpId, policy: Policy, live: Policy, claimAt: nat)

  datatype Sys = Sys(db: Db, runs: seq<Run>, log: seq<Event>)

  /** A write commits and says so, commits but reports an error, or does not commit. */
  datatype Outcome = Committed | AckLost | Refused

  /** `ready`: the checks before a call pass; `sent`: the request leaves; `ok`: the operation succeeds. */
  datatype Env = Env(ok: bool, ready: bool, sent: bool, plan: seq<StepRow>, policy: Policy, op: OpId)

  datatype Label =
    | Claims(worker: WorkerId, now: Time, lease: Time, started: bool)
    | Renews(run: nat, now: Time, lease: Time)
    | Advances(run: nat, now: Time, out: Outcome, env: Env)
    | Stops(run: nat)
    | Recovers(now: Time, before: Time)
    | Approves(user: UserId, step: StepId, digest: Digest, now: Time)
    | Rejects(user: UserId, step: StepId, now: Time)
    | Resumes(user: UserId, retryUnknown: bool, now: Time)
    | Cancels(user: UserId, now: Time)

  function Init(user: UserId, planId: StepId, now: Time): Sys {
    Sys(NewTask(user, planId, now), [], [])
  }

  // ----- the shapes a step of a run can take -----

  function Goto(s: Sys, r: nat, pc: Pc): Sys
    requires r < |s.runs|
  {
    s.(runs := s.runs[r := s.runs[r].(pc := pc)])
  }

  /** A transaction that is accepted or not, and whose answer may be lost. */
  function Write(s: Sys, r: nat, accepted: bool, after: Db, out: Outcome, good: Pc, bad: Pc): Sys
    requires r < |s.runs|
  {
    var landed := if accepted && !out.Refused? then s.(db := after) else s;
    Goto(landed, r, if accepted && out.Committed? then good else bad)
  }

  function WriteStep(s: Sys, r: nat, now: Time, out: Outcome, x: StepId, patch: StepPatch, good: Pc, bad: Pc): Sys
    requires r < |s.runs|
  {
    var token := s.runs[r].token;
    Write(s, r, CanUpdateStep(s.db, token, now, x), UpdateStep(s.db, token, now, x, patch), out, good, bad)
  }

  function WriteTask(s: Sys, r: nat, now: Time, out: Outcome, patch: TaskPatch, good: Pc, bad: Pc): Sys
    requires r < |s.runs|
  {
    var token := s.runs[r].token;
    Write(s, r, Fence(s.db.task, token, now), UpdateTask(s.db, token, now, patch), out, good, bad)
  }

  // ----- graph nodes -----

  function PlanStepOf(steps: seq<StepRow>): (r: Option<StepRow>)
    ensures r.Some? ==> r.value in steps && r.value.kind == Plan
  {
    if steps == [] then None else if steps[0].kind == Plan then Some(steps[0]) else PlanStepOf(steps[1..])
  }

  predicate TaskTerminal(status: TaskStatus) {
    status in {Succeeded, Failed, Rejected, Cancelled}
  }

  /** What materializing a model's plan yields: tool steps, one final step, fresh distinct identifiers. */
  predicate GoodPlan(plan: seq<StepRow>, planId: StepId) {
    && |plan| > 0 && plan[|plan| - 1].kind == Final
    && (forall i :: 0 <= i < |plan| - 1 ==> plan[i].kind == Tool)
    && (forall i :: 0 <= i < |plan| ==> plan[i].id != planId)
    && forall i, j :: 0 <= i < j < |plan| ==> plan[i].id != plan[j].id
  }

  function LoadStep(s: Sys, r: nat, env: Env, first: bool): Sys
    requires r < |s.runs|
  {
    if !env.ok then Goto(s, r, FailRead)
    else match s.db.task.checkpoint
      case Some(AtDispatch) => Goto(s, r, DispatchCheck)
      case Some(AtApproval) => Goto(s, r, ApprovalRead)
      case None => Goto(s, r, if first then PlanRead else FailRead)
  }

  function PlanNode(s: Sys, r: nat, now: Time, out: Outcome, env: Env): Sys
    requires r < |s.runs|
  {
    match s.runs[r].pc
    case PlanRead =>
      if !env.ok then Goto(s, r, FailRead)
      else if TaskTerminal(s.db.task.status) then Goto(s, r, Done)
      else if |s.db.steps| > 1 then Goto(s, r, Saving(AtDispatch))
      else if PlanStepOf(s.db.steps).None? then Goto(s, r, FailRead)
      else Goto(s, r, PlanMark(PlanStepOf(s.db.steps).value.id))
    case PlanMark(x) =>
      WriteTask(s, r, now, out, TaskPatch(Some(Planning), Some(Some(x)), false, KeepHeartbeat), PlanRun(x), FailRead)
    case PlanRun(x) =>
      WriteStep(s, r, now, out, x, JustStatus(StepRunning), PlanSave, FailRead)
    case PlanSave =>
      if !env.ok || |s.db.steps| == 0 || !GoodPlan(env.plan, s.db.steps[0].id) then Goto(s, r, FailRead)
      else
        var token := s.runs[r].token;
        Write(s, r, CanSavePlan(s.db, token, now), SavePlan(s.db, token, now, env.plan), out, Saving(AtDispatch), FailRead)
    case _ => s
  }

  /** After the approval interrupt the run ends; after a plan or tool node it continues from its checkpoint. */
  function SaveStep(s: Sys, r: nat, now: Time, out: Outcome, node: Node): Sys
    requires r < |s.runs|
  {
    var version := s.runs[r].token.version;
    Write(s, r, CanSetCheckpoint(s.db, version), SetCheckpoint(s.db, version, node, now), out,
          if node == AtApproval then Done else Loading(false), FailRead)
  }

  function RoutePc(route: Route): Pc {
    match route
    case ToApproval => ApprovalRead
    case ToTool => ToolRead
    case ToFinalize => FinalRead
  }

  function DispatchNode(s: Sys, r: nat, now: Time, out: Outcome, env: Env): Sys
    requires r < |s.runs|
  {
    match s.runs[r].pc
    case DispatchCheck =>
      if !env.ok then Goto(s, r, FailRead)
      else (match NextRoute(s.db)
            case TaskStopped => Goto(s, r, Done)
            case ReviewNeeded => Goto(s, r, Done)
            case Go(_, _) => Goto(s, r, DispatchRoute)
            case _ => Goto(s, r, FailRead))
    case DispatchRoute =>
      if !env.ok then Goto(s, r, FailRead)
      else (match NextRoute(s.db)
            case TaskStopped => Goto(s, r, Done)
            case ReviewNeeded => Goto(s, r, Done)
            case Go(row, route) =>
              if s.db.task.current == Some(row.id) then Goto(s, r, RoutePc(route))
              else Goto(s, r, DispatchPersist(row.id, route))
            case _ => Goto(s, r, FailRead))
    case DispatchPersist(x, route) =>
      WriteTask(s, r, now, out, TaskPatch(None, Some(Some(x)), false, KeepHeartbeat), RoutePc(route), FailRead)
    case _ => s
  }

  predicate CurrentTool(row: StepRow, current: Option<StepId>) {
    current == Some(row.id) && row.kind == Tool
  }

  function CurrentToolStep(steps: seq<StepRow>, current: Option<StepId>): (r: Option<StepRow>)
    ensures r.Some? ==> r.value in steps && CurrentTool(r.value, current)
  {
    if steps == [] then None
    else if CurrentTool(steps[0], current) then Some(steps[0])
    else CurrentToolStep(steps[1..], current)
  }

  function ApprovalNode(s: Sys, r: nat, now: Time, out: Outcome, env: Env): Sys
    requires r < |s.runs|
  {
    match s.runs[r].pc
    case ApprovalRead =>
      var found := CurrentToolStep(s.db.steps, s.db.task.current);
      if !env.ok || found.None? then Goto(s, r, FailRead)
      else if !found.value.policy.requiresApproval || found.value.decision == Approved then Goto(s, r, DispatchCheck)
      else if found.value.decision == Declined then Goto(s, r, Done)
      else if found.value.status != StepWaiting then Goto(s, r, ApprovalStep(found.value.id))
      else Goto(s, r, ApprovalTask(found.value.id))
    case ApprovalStep(x) =>
      WriteStep(s, r, now, out, x, JustStatus(StepWaiting), ApprovalTask(x), FailRead)
    case ApprovalTask(x) =>
      WriteTask(s, r, now, out, TaskPatch(Some(WaitingApproval), Some(Some(x)), true, ClearHeartbeat),
                Saving(AtApproval), FailRead)
    case _ => s
  }

  /** How a tool call that did not verifiably succeed is recorded. */
  function FailedCallPc(snap: StepRow): Pc {
    if Replayable(snap.policy) then FailStep(snap.id) else PauseUnknown(snap.id)
  }

  function ToolNode(s: Sys, r: nat, now: Time, out: Outcome, env: Env): Sys
    requires r < |s.runs|
  {
    match s.runs[r].pc
    case ToolRead =>
      var found := CurrentToolStep(s.db.steps, s.db.task.current);
      if !env.ok || found.None? then Goto(s, r, FailRead)
      else if found.value.policy.requiresApproval && found.value.decision != Approved then Goto(s, r, FailRead)
      else Goto(s, r, ToolMark(found.value,
                               if found.value.operationId.Some? then found.value.operationId.value else env.op))
    case ToolMark(snap, op) =>
      WriteStep(s, r, now, out, snap.id, StepPatch(StepRunning, Some(op), None, None), ToolArmed(snap, op), FailRead)
    case ToolArmed(snap, op) =>
      if !env.ready || Sha256(snap.arguments) != snap.digest then Goto(s, r, FailStep(snap.id))
      else if env.policy != snap.policy then Goto(s, r, PauseReview(snap.id, env.policy))
      else
        var called := if env.sent
          then s.(log := s.log + [Sent(snap.id, snap.arguments, op, snap.policy, env.policy, s.runs[r].claimAt)]) else s;
        Goto(called, r, if env.sent && env.ok then ToolDone(snap, op) else FailedCallPc(snap))
    case ToolDone(snap, op) =>
      WriteStep(s, r, now, out, snap.id, JustStatus(StepSucceeded), ToolTask, FailedCallPc(snap))
    case ToolTask =>
      WriteTask(s, r, now, out, TaskPatch(Some(Running), Some(None), false, BeatAt(now)), Saving(AtDispatch), FailRead)
    case PauseUnknown(x) =>
      var token := s.runs[r].token;
      Write(s, r, CanPause(s.db, token, now, x), MarkUnknown(s.db, token, now, x), out, Done, FailRead)
    case PauseReview(x, policy) =>
      var token := s.runs[r].token;
      var accepted := CanPause(s.db, token, now, x);
      var written := Write(s, r, accepted, MarkPolicyReview(s.db, token, now, x, policy), out, Done, FailRead);
      if accepted && !out.Refused? then written.(log := s.log + [PolicyReset(x)]) else written
    case _ => s
  }

  function FinalNode(s: Sys, r: nat, now: Time, out: Outcome, env: Env): Sys
    requires r < |s.runs|
  {
    match s.runs[r].pc
    case FinalRead =>
      var final := FirstFinal(s.db.steps);
      if !env.ok then Goto(s, r, FailRead)
      else if s.db.task.status == Cancelled || s.db.task.status == Rejected then Goto(s, r, Done)
      else if final.None? then Goto(s, r, FailRead)
      else Goto(s, r, FinalMark(final.value.id))
    case FinalMark(x) =>
      WriteStep(s, r, now, out, x, JustStatus(StepRunning), FinalSave(x), FailRead)
    case FinalSave(x) =>
      if !env.ok then Goto(s, r, FailStep(x))
      else WriteStep(s, r, now, out, x, JustStatus(StepSucceeded), FinalTask(x), FailRead)
    case FinalTask(x) =>
      WriteTask(s, r, now, out, TaskPatch(Some(Succeeded), Some(Some(x)), true, ClearHeartbeat), Done, FailRead)
    case _ => s
  }

  /** The two failure recorders; each of their writes may be lost and its error is ignored. */
  function FailureNode(s: Sys, r: nat, now: Time, out: Outcome, env: Env): Sys
    requires r < |s.runs|
  {
    match s.runs[r].pc
    case FailStep(x) =>
      WriteStep(s, r, now, out, x, JustStatus(StepFailed), FailTask, FailTask)
    case FailTask =>
      WriteTask(s, r, now, out, TaskPatch(Some(Failed), None, true, KeepHeartbeat), FailRead, FailRead)
    case FailRead =>
      var step := FailureStep(s.db);
      if !env.ok || s.db.task.runVersion != s.runs[r].token.version
         || s.db.task.status in {WaitingApproval, RequiresReview, Succeeded, Rejected, Cancelled} then Goto(s, r, Done)
      else if step.None? then Goto(s, r, FailRunTask(s.db.task.current))
      else if step.value.kind == Tool && step.value.status == StepRunning && !Replayable(step.value.policy) then
        Goto(s, r, FailUnknown(step.value.id))
      else if step.value.status != StepFailed && step.value.status != StepUnknown then
        Goto(s, r, FailRunStep(step.value.id))
      else Goto(s, r, FailRunTask(Some(step.value.id)))
    case FailUnknown(x) =>
      // The reporter gives up after this write, whatever its outcome.
      var token := s.runs[r].token;
      Write(s, r, CanPause(s.db, token, now, x), MarkUnknown(s.db, token, now, x), out, Done, Done)
    case FailRunStep(x) =>
      WriteStep(s, r, now, out, x, JustStatus(StepFailed), FailRunTask(Some(x)), FailRunTask(Some(x)))
    case FailRunTask(current) =>
      WriteTask(s, r, now, out, TaskPatch(Some(Failed), Some(current), true, ClearHeartbeat), Done, Done)
    case _ => s
  }

  function Advance(s: Sys, r: nat, now: Time, out: Outcome, env: Env): Sys
    requires r < |s.runs|
  {
    match s.runs[r].pc
    case Loading(first) => LoadStep(s, r, env, first)
    case Saving(node) => SaveStep(s, r, now, out, node)
    case PlanRead | PlanMark(_) | PlanRun(_) | PlanSave => PlanNode(s, r, now, out, env)
    case DispatchCheck | DispatchRoute | DispatchPersist(_, _) => DispatchNode(s, r, now, out, env)
    case ApprovalRead | ApprovalStep(_) | ApprovalTask(_) => ApprovalNode(s, r, now, out, env)
    case FinalRead | FinalMark(_) | FinalSave(_) | FinalTask(_) => FinalNode(s, r, now, out, env)
    case FailStep(_) | FailTask | FailRead | FailUnknown(_) | FailRunStep(_) | FailRunTask(_) => FailureNode(s, r, now, out, env)
    case Done => s
    case _ => ToolNode(s, r, now, out, env)
  }

  /** One transition; a label that is not enabled changes nothing. */
  function Step(s: Sys, l: Label): Sys {
    match l
    case Claims(worker, now, lease, started) =>
      if !CanClaim(s.db) then s
      else s.(db := Claim(s.db, worker, now, lease),
              runs := s.runs + [Run(Token(s.db.task.runVersion + 1, worker), |s.log|,
                                    if started then Loading(true) else Done)])
    case Renews(r, now, lease) =>
      if r >= |s.runs| then s else s.(db := Renew(s.db, s.runs[r].token, now, lease))
    case Advances(r, now, out, env) => if r >= |s.runs| then s else Advance(s, r, now, out, env)
    case Stops(r) => if r >= |s.runs| then s else Goto(s, r, Done)
    case Recovers(now, before) => s.(db := Recover(s.db, now, before))
    case Approves(user, x, digest, now) =>
      if !CanApprove(s.db, user, x, digest) then s
      else s.(db := Approve(s.db, user, x, digest, now), log := s.log + [OwnerApproved(x, digest)])
    case Rejects(user, x, now) => s.(db := Reject(s.db, user, x, now))
    case Resumes(user, retryUnknown, now) =>
      var target := ResumeTarget(s.db, user, retryUnknown);
      if target.None? then s
      else s.(db := Resume(s.db, user, retryUnknown, now),
              log := if target.value.status == StepUnknown then s.log + [OwnerRetried(target.value.id)] else s.log)
    case Cancels(user, now) => s.(db := Cancel(s.db, user, now))
  }

  /** The state after a whole behaviour. */
  function Exec(s: Sys, labels: seq<Label>): Sys
    decreases |labels|
  {
    if labels == [] then s else Step(Exec(s, labels[..|labels| - 1]), labels[|labels| - 1])
  }
}
