/**
 Where a run goes from each point of the graph, and when: the decisions of the nodes, read off the rows and the answers
 alone. A read leaves rows and log as they are; a write may land although the run is told otherwise.
 */
module AgentMoves {
  import opened Options
  import opened AgentRows
  import opened AgentRouting
  import opened AgentSystem

  /** The run only moves to `pc`. */
  predicate Moves(s: Sys, r: nat, s': Sys, pc: Pc)
    requires r < |s.runs|
  {
    s'.db == s.db && s'.log == s.log && s'.runs == s.runs[r := s.runs[r].(pc := pc)]
  }

  /** The run holds an unexpired lease on the task. */
  predicate HoldsLease(s: Sys, r: nat, now: Time)
    requires r < |s.runs|
  {
    var task, token := s.db.task, s.runs[r].token;
    task.runVersion == token.version && task.leaseOwner == Some(token.worker)
    && task.leaseUntil.Some? && now < task.leaseUntil.value
  }

  /**
   One write: if it is allowed and not refused, the rows are `after`; the run hears of success only if it is also told,
   and then goes on at `good`, else at `bad`.
   */
  predicate Wrote(s: Sys, r: nat, s': Sys, allowed: bool, after: Db, out: Outcome, good: Pc, bad: Pc)
    requires r < |s.runs|
  {
    && s'.db == (if allowed && out != Refused then after else s.db) && s'.log == s.log
    && s'.runs == s.runs[r := s.runs[r].(pc := if allowed && out == Committed then good else bad)]
  }

  /** The rows with new values in every step row that has identifier `x`. */
  function WithStep(db: Db, x: StepId, status: StepStatus, op: Option<OpId>): Db {
    db.(steps := seq(|db.steps|, i requires 0 <= i < |db.steps| =>
      if db.steps[i].id != x then db.steps[i]
      else if op.Some? then db.steps[i].(status := status, operationId := op) else db.steps[i].(status := status)))
  }

  predicate HasRow(db: Db, x: StepId) {
    exists i :: 0 <= i < |db.steps| && db.steps[i].id == x
  }

  predicate WroteStep(s: Sys, r: nat, s': Sys, now: Time, out: Outcome, x: StepId, status: StepStatus, op: Option<OpId>, good: Pc, bad: Pc)
    requires r < |s.runs|
  {
    Wrote(s, r, s', HoldsLease(s, r, now) && HasRow(s.db, x), WithStep(s.db, x, status, op), out, good, bad)
  }

  lemma WriteWrites(s: Sys, r: nat, allowed: bool, after: Db, out: Outcome, good: Pc, bad: Pc)
    requires r < |s.runs|
    ensures Wrote(s, r, Write(s, r, allowed, after, out, good, bad), allowed, after, out, good, bad)
  {
  }

  lemma UpdatedStep(db: Db, token: Token, now: Time, x: StepId, patch: StepPatch)
    requires CanUpdateStep(db, token, now, x) && patch.decision == None && patch.policy == None
    ensures UpdateStep(db, token, now, x, patch) == WithStep(db, x, patch.status, patch.operationId)
  {
    var after := UpdateStep(db, token, now, x, patch);
    assert after.steps == WithStep(db, x, patch.status, patch.operationId).steps;
  }

  lemma WriteStepWrites(s: Sys, r: nat, now: Time, out: Outcome, x: StepId, patch: StepPatch, good: Pc, bad: Pc)
    requires r < |s.runs| && patch.decision == None && patch.policy == None
    ensures WroteStep(s, r, WriteStep(s, r, now, out, x, patch, good, bad), now, out, x, patch.status, patch.operationId, good, bad)
  {
    var token := s.runs[r].token;
    var allowed := CanUpdateStep(s.db, token, now, x);
    assert allowed <==> HoldsLease(s, r, now) && HasRow(s.db, x);
    var after := UpdateStep(s.db, token, now, x, patch);
    WriteWrites(s, r, allowed, after, out, good, bad);
    if allowed {
      UpdatedStep(s.db, token, now, x, patch);
    }
  }

  // ----- start, plan -----

  /** A run starts where the checkpoint says; without one it plans, but only once. */
  lemma LoadExactly(s: Sys, r: nat, now: Time, out: Outcome, env: Env, first: bool)
    requires r < |s.runs| && s.runs[r].pc == Loading(first)
    ensures Moves(s, r, Step(s, Advances(r, now, out, env)),
                  if env.ok && s.db.task.checkpoint == Some(AtDispatch) then DispatchCheck
                  else if env.ok && s.db.task.checkpoint == Some(AtApproval) then ApprovalRead
                  else if env.ok && first && s.db.task.checkpoint == None then PlanRead
                  else FailRead)
  {
  }

  /** The planner leaves a closed task alone and keeps a plan that exists; otherwise it works on the first planning step. */
  lemma PlanReadExactly(s: Sys, r: nat, now: Time, out: Outcome, env: Env)
    requires r < |s.runs| && s.runs[r].pc == PlanRead
    ensures var task, steps, s' := s.db.task, s.db.steps, Step(s, Advances(r, now, out, env));
            if !env.ok then Moves(s, r, s', FailRead)
            else if task.status in {Succeeded, Failed, Rejected, Cancelled} then Moves(s, r, s', Done)
            else if |steps| >= 2 then Moves(s, r, s', Saving(AtDispatch))
            else if |steps| == 1 && steps[0].kind == Plan then Moves(s, r, s', PlanMark(steps[0].id))
            else Moves(s, r, s', FailRead)
  {
  }

  lemma PlanWrites(s: Sys, r: nat, now: Time, out: Outcome, env: Env, x: StepId)
    requires r < |s.runs|
    ensures s.runs[r].pc == PlanMark(x) ==>
              Wrote(s, r, Step(s, Advances(r, now, out, env)), HoldsLease(s, r, now),
                    s.db.(task := s.db.task.(status := Planning, current := Some(x), updatedAt := now)), out, PlanRun(x), FailRead)
    ensures s.runs[r].pc == PlanRun(x) ==>
              WroteStep(s, r, Step(s, Advances(r, now, out, env)), now, out, x, StepRunning, None, PlanSave, FailRead)
  {
    WriteStepWrites(s, r, now, out, x, JustStatus(StepRunning), PlanSave, FailRead);
  }

  /** One final step after tool steps, all identifiers fresh and different. */
  predicate WellFormed(plan: seq<StepRow>, planId: StepId) {
    && plan != [] && plan[|plan| - 1].kind == Final
    && (forall i :: 0 <= i < |plan| - 1 ==> plan[i].kind == Tool)
    && (forall i :: 0 <= i < |plan| ==> plan[i].id != planId)
    && forall i, j :: 0 <= i < |plan| && 0 <= j < |plan| && plan[i].id == plan[j].id ==> i == j
  }

  /** A plan is saved only if the model answered, it is well formed, and the run still holds the task. */
  lemma PlanSaveExactly(s: Sys, r: nat, now: Time, out: Outcome, env: Env)
    requires r < |s.runs| && s.runs[r].pc == PlanSave
    ensures var s' := Step(s, Advances(r, now, out, env));
            if !env.ok || s.db.steps == [] || !WellFormed(env.plan, s.db.steps[0].id) then Moves(s, r, s', FailRead)
            else Wrote(s, r, s', HoldsLease(s, r, now) && s.db.task.status in {Running, Planning} && s.db.steps[0].kind == Plan,
                       Db(s.db.task.(status := Running, current := Some(env.plan[0].id), updatedAt := now),
                          [s.db.steps[0].(status := StepSucceeded)]
                          + seq(|env.plan|, i requires 0 <= i < |env.plan| =>
                              env.plan[i].(status := StepPending, decision := Undecided, operationId := None))),
                       out, Saving(AtDispatch), FailRead)
  {
    var plan := env.plan;
    if s.db.steps != [] {
      assert GoodPlan(plan, s.db.steps[0].id) <==> WellFormed(plan, s.db.steps[0].id);
    }
    assert NormalizedPlan(plan) == seq(|plan|, i requires 0 <= i < |plan| =>
      plan[i].(status := StepPending, decision := Undecided, operationId := None));
  }

  /** A checkpoint needs the version only; after the approval node the run ends, otherwise it starts over from there. */
  lemma SaveExactly(s: Sys, r: nat, now: Time, out: Outcome, env: Env, node: Node)
    requires r < |s.runs| && s.runs[r].pc == Saving(node)
    ensures Wrote(s, r, Step(s, Advances(r, now, out, env)), s.db.task.runVersion == s.runs[r].token.version,
                  s.db.(task := s.db.task.(checkpoint := Some(node), updatedAt := now)), out,
                  if node == AtApproval then Done else Loading(false), FailRead)
  {
  }

  // ----- dispatch -----

  predicate Open(row: StepRow) {
    row.kind == Tool && row.status !in {StepSucceeded, StepRejected, StepSkipped}
  }

  /** Step `i` is the one to run next: the first open tool step or, if there is none, the first final step. */
  predicate NextUp(steps: seq<StepRow>, i: nat) {
    && i < |steps|
    && if Open(steps[i]) then forall j :: 0 <= j < i ==> !Open(steps[j])
       else steps[i].kind == Final && (forall j :: 0 <= j < i ==> steps[j].kind != Final)
            && forall j :: 0 <= j < |steps| ==> !Open(steps[j])
  }

  predicate Parked(db: Db) {
    db.task.status in {Cancelled, Rejected, Succeeded, RequiresReview}
  }

  lemma {:induction false} OpenAt(steps: seq<StepRow>, i: nat)
    requires i < |steps| && Open(steps[i]) && forall j :: 0 <= j < i ==> !Open(steps[j])
    ensures FirstOpenTool(steps) == Some(steps[i])
  {
    if i > 0 {
      OpenAt(steps[1..], i - 1);
    }
  }

  lemma {:induction false} FinalAt(steps: seq<StepRow>, i: nat)
    requires i < |steps| && steps[i].kind == Final && forall j :: 0 <= j < i ==> steps[j].kind != Final
    ensures FirstFinal(steps) == Some(steps[i])
  {
    if i > 0 {
      FinalAt(steps[1..], i - 1);
    }
  }

  lemma {:induction false} FindOpen(steps: seq<StepRow>) returns (i: nat)
    requires FirstOpenTool(steps).Some?
    ensures i < |steps| && Open(steps[i]) && forall j :: 0 <= j < i ==> !Open(steps[j])
  {
    if Open(steps[0]) {
      i := 0;
    } else {
      i := FindOpen(steps[1..]);
      i := i + 1;
    }
  }

  lemma {:induction false} FindFinal(steps: seq<StepRow>) returns (i: nat)
    requires FirstFinal(steps).Some?
    ensures i < |steps| && steps[i].kind == Final && forall j :: 0 <= j < i ==> steps[j].kind != Final
  {
    if steps[0].kind == Final {
      i := 0;
    } else {
      i := FindFinal(steps[1..]);
      i := i + 1;
    }
  }

  lemma NothingUp(steps: seq<StepRow>)
    requires forall i :: !NextUp(steps, i)
    ensures FirstOpenTool(steps) == None && FirstFinal(steps) == None
  {
    if FirstOpenTool(steps).Some? {
      var i := FindOpen(steps);
      assert NextUp(steps, i);
    } else if FirstFinal(steps).Some? {
      var i := FindFinal(steps);
      assert NextUp(steps, i);
    }
  }

  lemma NextUpIs(db: Db, i: nat)
    requires NextUp(db.steps, i) && !Parked(db)
    ensures Open(db.steps[i]) ==> FirstOpenTool(db.steps) == Some(db.steps[i])
    ensures !Open(db.steps[i]) ==> FirstOpenTool(db.steps) == None && FirstFinal(db.steps) == Some(db.steps[i])
  {
    if Open(db.steps[i]) {
      OpenAt(db.steps, i);
    } else {
      FinalAt(db.steps, i);
    }
  }

  function RouteOf(row: StepRow): Route {
    if row.kind == Final then ToFinalize
    else if row.policy.requiresApproval && row.decision != Approved then ToApproval
    else ToTool
  }

  /** The node for step `row`, when that is next. */
  function NodeFor(row: StepRow): Pc {
    if row.kind == Final then FinalRead
    else if row.policy.requiresApproval && row.decision != Approved then ApprovalRead
    else ToolRead
  }

  /** The dispatcher stops at a parked task; with nothing to run the run fails. */
  lemma DispatcherStops(s: Sys, r: nat, now: Time, out: Outcome, env: Env)
    requires r < |s.runs| && (s.runs[r].pc == DispatchCheck || s.runs[r].pc == DispatchRoute)
    requires !env.ok || Parked(s.db) || forall i :: !NextUp(s.db.steps, i)
    ensures Moves(s, r, Step(s, Advances(r, now, out, env)), if env.ok && Parked(s.db) then Done else FailRead)
  {
    if env.ok && !Parked(s.db) {
      NothingUp(s.db.steps);
    }
  }

  /** Otherwise the step that is next decides: an unknown outcome ends the run, a failed step fails it. */
  lemma DispatchCheckExactly(s: Sys, r: nat, now: Time, out: Outcome, env: Env, i: nat)
    requires r < |s.runs| && s.runs[r].pc == DispatchCheck && env.ok && !Parked(s.db) && NextUp(s.db.steps, i)
    ensures var row := s.db.steps[i];
            Moves(s, r, Step(s, Advances(r, now, out, env)),
                  if Open(row) && row.status == StepUnknown then Done
                  else if Open(row) && row.status == StepFailed then FailRead
                  else DispatchRoute)
  {
    NextUpIs(s.db, i);
  }

  /** The second reading decides again; a step that is not recorded as current is recorded first. */
  lemma DispatchRouteExactly(s: Sys, r: nat, now: Time, out: Outcome, env: Env, i: nat)
    requires r < |s.runs| && s.runs[r].pc == DispatchRoute && env.ok && !Parked(s.db) && NextUp(s.db.steps, i)
    ensures var row := s.db.steps[i];
            Moves(s, r, Step(s, Advances(r, now, out, env)),
                  if Open(row) && row.status == StepUnknown then Done
                  else if Open(row) && row.status == StepFailed then FailRead
                  else if s.db.task.current == Some(row.id) then NodeFor(row)
                  else DispatchPersist(row.id, RouteOf(row)))
  {
    NextUpIs(s.db, i);
  }

  lemma DispatchPersistExactly(s: Sys, r: nat, now: Time, out: Outcome, env: Env, x: StepId, route: Route)
    requires r < |s.runs| && s.runs[r].pc == DispatchPersist(x, route)
    ensures Wrote(s, r, Step(s, Advances(r, now, out, env)), HoldsLease(s, r, now),
                  s.db.(task := s.db.task.(current := Some(x), updatedAt := now)), out,
                  match route case ToApproval => ApprovalRead case ToTool => ToolRead case ToFinalize => FinalRead, FailRead)
  {
  }

  // ----- approval -----

  /** The tool step that is recorded as current is `steps[i]`. */
  predicate CurrentAt(db: Db, i: nat) {
    && i < |db.steps| && db.steps[i].kind == Tool && db.task.current == Some(db.steps[i].id)
    && forall j :: 0 <= j < i && db.steps[j].kind == Tool ==> db.task.current != Some(db.steps[j].id)
  }

  lemma {:induction false} CurrentIs(steps: seq<StepRow>, current: Option<StepId>, i: nat)
    requires i < |steps| && CurrentTool(steps[i], current) && forall j :: 0 <= j < i ==> !CurrentTool(steps[j], current)
    ensures CurrentToolStep(steps, current) == Some(steps[i])
  {
    if i > 0 {
      CurrentIs(steps[1..], current, i - 1);
    }
  }

  lemma {:induction false} NoCurrent(steps: seq<StepRow>, current: Option<StepId>)
    requires forall j :: 0 <= j < |steps| ==> !CurrentTool(steps[j], current)
    ensures CurrentToolStep(steps, current) == None
  {
    if steps != [] {
      NoCurrent(steps[1..], current);
    }
  }

  lemma {:induction false} CurrentOrNone(db: Db, n: nat) returns (i: nat)
    requires n <= |db.steps| && forall j :: 0 <= j < n ==> !CurrentTool(db.steps[j], db.task.current)
    ensures CurrentAt(db, i) || forall j :: 0 <= j < |db.steps| ==> !CurrentTool(db.steps[j], db.task.current)
    decreases |db.steps| - n
  {
    i := n;
    if n < |db.steps| && !CurrentTool(db.steps[n], db.task.current) {
      i := CurrentOrNone(db, n + 1);
    }
  }

  /** Without a current tool step the approval and the tool node fail. */
  lemma NoToolFails(s: Sys, r: nat, now: Time, out: Outcome, env: Env)
    requires r < |s.runs| && (s.runs[r].pc == ApprovalRead || s.runs[r].pc == ToolRead)
    requires !env.ok || forall i :: !CurrentAt(s.db, i)
    ensures Moves(s, r, Step(s, Advances(r, now, out, env)), FailRead)
  {
    var i := CurrentOrNone(s.db, 0);
    if !CurrentAt(s.db, i) {
      NoCurrent(s.db.steps, s.db.task.current);
    }
  }

  /**
   A step that needs no approval, or has it, goes back to the dispatcher; a declined one ends the run; any other is
   made to wait, and with it the task.
   */
  lemma ApprovalReadExactly(s: Sys, r: nat, now: Time, out: Outcome, env: Env, i: nat)
    requires r < |s.runs| && s.runs[r].pc == ApprovalRead && env.ok && CurrentAt(s.db, i)
    ensures var row := s.db.steps[i];
            Moves(s, r, Step(s, Advances(r, now, out, env)),
                  if row.policy.requiresApproval && row.decision == Undecided then
                    if row.status == StepWaiting then ApprovalTask(row.id) else ApprovalStep(row.id)
                  else if row.policy.requiresApproval && row.decision == Declined then Done
                  else DispatchCheck)
  {
    CurrentIs(s.db.steps, s.db.task.current, i);
  }

  lemma ApprovalWrites(s: Sys, r: nat, now: Time, out: Outcome, env: Env, x: StepId)
    requires r < |s.runs|
    ensures s.runs[r].pc == ApprovalStep(x) ==>
              WroteStep(s, r, Step(s, Advances(r, now, out, env)), now, out, x, StepWaiting, None, ApprovalTask(x), FailRead)
    ensures s.runs[r].pc == ApprovalTask(x) ==>
              Wrote(s, r, Step(s, Advances(r, now, out, env)), HoldsLease(s, r, now),
                    s.db.(task := s.db.task.(status := WaitingApproval, current := Some(x), leaseOwner := None,
                                             leaseUntil := None, heartbeatAt := None, updatedAt := now)),
                    out, Saving(AtApproval), FailRead)
  {
    WriteStepWrites(s, r, now, out, x, JustStatus(StepWaiting), ApprovalTask(x), FailRead);
  }

  // ----- tools -----

  /** Only an approved step is executed, under the operation it has, or a new one. */
  lemma ToolReadExactly(s: Sys, r: nat, now: Time, out: Outcome, env: Env, i: nat)
    requires r < |s.runs| && s.runs[r].pc == ToolRead && env.ok && CurrentAt(s.db, i)
    ensures var row := s.db.steps[i];
            Moves(s, r, Step(s, Advances(r, now, out, env)),
                  if row.policy.requiresApproval && row.decision != Approved then FailRead
                  else ToolMark(row, match row.operationId case Some(op) => op case None => env.op))
  {
    CurrentIs(s.db.steps, s.db.task.current, i);
  }

  /** Calling it again cannot hurt. */
  predicate Repeatable(policy: Policy) {
    !policy.destructive && (policy.readOnly || policy.idempotent)
  }

  /** Where a call without a certain good end leads: it may be repeated, or its outcome is unknown. */
  function AfterBadCall(row: StepRow): Pc {
    if Repeatable(row.policy) then FailStep(row.id) else PauseUnknown(row.id)
  }

  /** The call is recorded before it is made. */
  lemma ToolMarkWrites(s: Sys, r: nat, now: Time, out: Outcome, env: Env, row: StepRow, op: OpId)
    requires r < |s.runs| && s.runs[r].pc == ToolMark(row, op)
    ensures WroteStep(s, r, Step(s, Advances(r, now, out, env)), now, out, row.id, StepRunning, Some(op), ToolArmed(row, op), FailRead)
  {
    WriteStepWrites(s, r, now, out, row.id, StepPatch(StepRunning, Some(op), None, None), ToolArmed(row, op), FailRead);
  }

  /**
   The call is made if and only if the checks pass, the arguments are the ones recorded, the tool's policy is the one
   recorded, and the request leaves; it is the only thing that happens. A changed policy is reported for review.
   */
  lemma ToolArmedExactly(s: Sys, r: nat, now: Time, out: Outcome, env: Env, row: StepRow, op: OpId)
    requires r < |s.runs| && s.runs[r].pc == ToolArmed(row, op)
    ensures var s' := Step(s, Advances(r, now, out, env));
            var intact := env.ready && row.digest == Sha256(row.arguments);
            var calls := intact && env.policy == row.policy && env.sent;
            && s'.db == s.db
            && s'.log == s.log + (if calls then [Sent(row.id, row.arguments, op, row.policy, env.policy, s.runs[r].claimAt)] else [])
            && s'.runs == s.runs[r := s.runs[r].(pc :=
                 if !intact then FailStep(row.id)
                 else if env.policy != row.policy then PauseReview(row.id, env.policy)
                 else if calls && env.ok then ToolDone(row, op) else AfterBadCall(row))]
  {
    assert s.log + [] == s.log;
  }

  lemma ToolDoneWrites(s: Sys, r: nat, now: Time, out: Outcome, env: Env, row: StepRow, op: OpId)
    requires r < |s.runs| && s.runs[r].pc == ToolDone(row, op)
    ensures WroteStep(s, r, Step(s, Advances(r, now, out, env)), now, out, row.id, StepSucceeded, None, ToolTask, AfterBadCall(row))
  {
    WriteStepWrites(s, r, now, out, row.id, JustStatus(StepSucceeded), ToolTask, FailedCallPc(row));
  }

  lemma ToolTaskWrites(s: Sys, r: nat, now: Time, out: Outcome, env: Env)
    requires r < |s.runs| && s.runs[r].pc == ToolTask
    ensures Wrote(s, r, Step(s, Advances(r, now, out, env)), HoldsLease(s, r, now),
                  s.db.(task := s.db.task.(status := Running, current := None, heartbeatAt := Some(now), updatedAt := now)),
                  out, Saving(AtDispatch), FailRead)
  {
  }

  // ----- end -----

  /** The finalizer leaves a cancelled or rejected task alone and works on the first final step. */
  lemma FinalReadExactly(s: Sys, r: nat, now: Time, out: Outcome, env: Env, i: nat)
    requires r < |s.runs| && s.runs[r].pc == FinalRead && env.ok && FirstFinalAt(s.db.steps, i)
    ensures Moves(s, r, Step(s, Advances(r, now, out, env)),
                  if s.db.task.status in {Cancelled, Rejected} then Done else FinalMark(s.db.steps[i].id))
  {
    FinalAt(s.db.steps, i);
  }

  lemma NoFinalFails(s: Sys, r: nat, now: Time, out: Outcome, env: Env)
    requires r < |s.runs| && s.runs[r].pc == FinalRead && (!env.ok || forall i :: !FirstFinalAt(s.db.steps, i))
    ensures Moves(s, r, Step(s, Advances(r, now, out, env)),
                  if env.ok && s.db.task.status in {Cancelled, Rejected} then Done else FailRead)
  {
    if FirstFinal(s.db.steps).Some? {
      var i := FindFinal(s.db.steps);
      assert FirstFinalAt(s.db.steps, i) || !env.ok;
    }
  }

  predicate FirstFinalAt(steps: seq<StepRow>, i: nat) {
    i < |steps| && steps[i].kind == Final && forall j :: 0 <= j < i ==> steps[j].kind != Final
  }

  /** The final step runs, then succeeds or fails with the model's answer. */
  lemma FinalStepWrites(s: Sys, r: nat, now: Time, out: Outcome, env: Env, x: StepId)
    requires r < |s.runs| && (s.runs[r].pc == FinalMark(x) || s.runs[r].pc == FinalSave(x))
    ensures var s' := Step(s, Advances(r, now, out, env));
            if s.runs[r].pc == FinalMark(x) then WroteStep(s, r, s', now, out, x, StepRunning, None, FinalSave(x), FailRead)
            else if env.ok then WroteStep(s, r, s', now, out, x, StepSucceeded, None, FinalTask(x), FailRead)
            else Moves(s, r, s', FailStep(x))
  {
    if s.runs[r].pc == FinalMark(x) {
      WriteStepWrites(s, r, now, out, x, JustStatus(StepRunning), FinalSave(x), FailRead);
    } else {
      WriteStepWrites(s, r, now, out, x, JustStatus(StepSucceeded), FinalTask(x), FailRead);
    }
  }

  /** Only then the task succeeds. */
  lemma FinalTaskWrites(s: Sys, r: nat, now: Time, out: Outcome, env: Env, x: StepId)
    requires r < |s.runs| && s.runs[r].pc == FinalTask(x)
    ensures Wrote(s, r, Step(s, Advances(r, now, out, env)), HoldsLease(s, r, now),
                  s.db.(task := s.db.task.(status := Succeeded, current := Some(x), leaseOwner := None,
                                           leaseUntil := None, heartbeatAt := None, updatedAt := now)),
                  out, Done, FailRead)
  {
  }

  // ----- failure -----

  /** The step a failed run blames: the open current one, else the first open one, else the first final one. */
  predicate Blamed(db: Db, i: nat) {
    && i < |db.steps|
    && if exists j :: 0 <= j < |db.steps| && OpenNow(db, j) then
         OpenNow(db, i) && forall j :: 0 <= j < i ==> !OpenNow(db, j)
       else if exists j :: 0 <= j < |db.steps| && Unsettled(db.steps[j]) then
         Unsettled(db.steps[i]) && forall j :: 0 <= j < i ==> !Unsettled(db.steps[j])
       else FirstFinalAt(db.steps, i)
  }

  predicate Unsettled(row: StepRow) {
    row.status !in {StepSucceeded, StepRejected, StepSkipped}
  }

  predicate OpenNow(db: Db, i: nat)
    requires i < |db.steps|
  {
    db.task.current == Some(db.steps[i].id) && Unsettled(db.steps[i])
  }

  lemma {:induction false} OpenCurrentAt(steps: seq<StepRow>, current: Option<StepId>, i: nat)
    requires i < |steps| && OpenCurrent(steps[i], current) && forall j :: 0 <= j < i ==> !OpenCurrent(steps[j], current)
    ensures FirstOpenCurrent(steps, current) == Some(steps[i])
  {
    if i > 0 {
      OpenCurrentAt(steps[1..], current, i - 1);
    }
  }

  lemma {:induction false} UnsettledAt(steps: seq<StepRow>, i: nat)
    requires i < |steps| && Unsettled(steps[i]) && forall j :: 0 <= j < i ==> !Unsettled(steps[j])
    ensures FirstOpen(steps) == Some(steps[i])
  {
    if i > 0 {
      UnsettledAt(steps[1..], i - 1);
    }
  }

  lemma {:induction false} NoOpenCurrent(steps: seq<StepRow>, current: Option<StepId>)
    requires forall j :: 0 <= j < |steps| ==> !OpenCurrent(steps[j], current)
    ensures FirstOpenCurrent(steps, current) == None
  {
    if steps != [] {
      NoOpenCurrent(steps[1..], current);
    }
  }

  lemma {:induction false} NoUnsettled(steps: seq<StepRow>)
    requires forall j :: 0 <= j < |steps| ==> !Unsettled(steps[j])
    ensures FirstOpen(steps) == None
  {
    if steps != [] {
      NoUnsettled(steps[1..]);
    }
  }

  lemma BlamedIs(db: Db, i: nat)
    requires Blamed(db, i)
    ensures FailureStep(db) == Some(db.steps[i])
  {
    assert forall j :: 0 <= j < |db.steps| ==> (OpenNow(db, j) <==> OpenCurrent(db.steps[j], db.task.current));
    if exists j :: 0 <= j < |db.steps| && OpenNow(db, j) {
      OpenCurrentAt(db.steps, db.task.current, i);
    } else {
      NoOpenCurrent(db.steps, db.task.current);
      if exists j :: 0 <= j < |db.steps| && Unsettled(db.steps[j]) {
        UnsettledAt(db.steps, i);
      } else {
        NoUnsettled(db.steps);
        FinalAt(db.steps, i);
      }
    }
  }

  /**
   The failure reporter leaves a task alone that is no longer this run's, or is parked or closed. It parks a running
   call that cannot be repeated, fails any other step that has not failed, and fails the task.
   */
  lemma FailReadExactly(s: Sys, r: nat, now: Time, out: Outcome, env: Env, i: nat)
    requires r < |s.runs| && s.runs[r].pc == FailRead && Blamed(s.db, i)
    ensures var row, task, s' := s.db.steps[i], s.db.task, Step(s, Advances(r, now, out, env));
            Moves(s, r, s',
                  if !env.ok || task.runVersion != s.runs[r].token.version
                     || task.status in {WaitingApproval, RequiresReview, Succeeded, Rejected, Cancelled} then Done
                  else if row.kind == Tool && row.status == StepRunning && !Repeatable(row.policy) then FailUnknown(row.id)
                  else if row.status in {StepFailed, StepUnknown} then FailRunTask(Some(row.id))
                  else FailRunStep(row.id))
  {
    BlamedIs(s.db, i);
  }

  /** What the failure reports write; none of them is repeated, whatever is heard of it. */
  lemma FailureStepWrites(s: Sys, r: nat, now: Time, out: Outcome, env: Env, x: StepId)
    requires r < |s.runs| && (s.runs[r].pc == FailStep(x) || s.runs[r].pc == FailRunStep(x))
    ensures var next := if s.runs[r].pc == FailStep(x) then FailTask else FailRunTask(Some(x));
            WroteStep(s, r, Step(s, Advances(r, now, out, env)), now, out, x, StepFailed, None, next, next)
  {
    var next := if s.runs[r].pc == FailStep(x) then FailTask else FailRunTask(Some(x));
    WriteStepWrites(s, r, now, out, x, JustStatus(StepFailed), next, next);
  }

  lemma FailureTaskWrites(s: Sys, r: nat, now: Time, out: Outcome, env: Env, current: Option<StepId>)
    requires r < |s.runs| && (s.runs[r].pc == FailTask || s.runs[r].pc == FailRunTask(current))
    ensures var failed := s.db.task.(status := Failed, leaseOwner := None, leaseUntil := None, updatedAt := now);
            if s.runs[r].pc == FailTask then
              Wrote(s, r, Step(s, Advances(r, now, out, env)), HoldsLease(s, r, now), s.db.(task := failed), out, FailRead, FailRead)
            else
              Wrote(s, r, Step(s, Advances(r, now, out, env)), HoldsLease(s, r, now),
                    s.db.(task := failed.(current := current, heartbeatAt := None)), out, Done, Done)
  {
  }

  /** The worker holds the task, which is running, and so is the tool step. */
  predicate MayPark(s: Sys, r: nat, now: Time, x: StepId)
    requires r < |s.runs|
  {
    HoldsLease(s, r, now) && s.db.task.status == Running
    && exists i :: 0 <= i < |s.db.steps| && s.db.steps[i].id == x && s.db.steps[i].kind == Tool && s.db.steps[i].status == StepRunning
  }

  function ParkedTask(task: TaskRow, x: StepId, now: Time): TaskRow {
    task.(status := RequiresReview, current := Some(x), runVersion := task.runVersion + 1,
          leaseOwner := None, leaseUntil := None, heartbeatAt := None, updatedAt := now)
  }

  /** A call of unknown outcome takes the task off the run; a run that cannot write this reports the failure instead. */
  lemma UnknownWrites(s: Sys, r: nat, now: Time, out: Outcome, env: Env, x: StepId)
    requires r < |s.runs|
    ensures s.runs[r].pc == PauseUnknown(x) ==>
              Wrote(s, r, Step(s, Advances(r, now, out, env)), MayPark(s, r, now, x),
                    WithStep(s.db, x, StepUnknown, None).(task := ParkedTask(s.db.task, x, now)), out, Done, FailRead)
    ensures s.runs[r].pc == FailUnknown(x) ==>
              Wrote(s, r, Step(s, Advances(r, now, out, env)), MayPark(s, r, now, x),
                    WithStep(s.db, x, StepUnknown, None).(task := ParkedTask(s.db.task, x, now)), out, Done, Done)
  {
    assert PatchRows(s.db.steps, x, JustStatus(StepUnknown)) == WithStep(s.db, x, StepUnknown, None).steps;
  }

  /** A changed policy is recorded with the decision taken back, and the review is logged exactly if it was recorded. */
  lemma ReviewWrites(s: Sys, r: nat, now: Time, out: Outcome, env: Env, x: StepId, policy: Policy)
    requires r < |s.runs| && s.runs[r].pc == PauseReview(x, policy)
    ensures var s' := Step(s, Advances(r, now, out, env));
            var lands := MayPark(s, r, now, x) && out != Refused;
            && s'.runs == s.runs[r := s.runs[r].(pc := if lands && out == Committed then Done else FailRead)]
            && s'.log == s.log + (if lands then [PolicyReset(x)] else [])
            && (!lands ==> s'.db == s.db)
            && (lands ==> s'.db.task == ParkedTask(s.db.task, x, now) && |s'.db.steps| == |s.db.steps|
                          && forall i :: 0 <= i < |s.db.steps| ==>
                               s'.db.steps[i] == if s.db.steps[i].id != x then s.db.steps[i]
                                                 else s.db.steps[i].(status := StepUnknown, decision := Undecided, policy := policy))
  {
    assert s.log + [] == s.log;
  }

  // ----- everything that is not a step of a run's graph -----

  /** A claim adds a run, which starts at once or not at all; a stopped run stays where it is for good. */
  lemma ClaimStartsRun(s: Sys, worker: WorkerId, now: Time, lease: Time, started: bool)
    ensures var s' := Step(s, Claims(worker, now, lease, started));
            && s'.log == s.log
            && (s.db.task.status != Pending ==> s' == s)
            && (s.db.task.status == Pending ==>
                  s'.runs == s.runs + [Run(Token(s.db.task.runVersion + 1, worker), |s.log|, if started then Loading(true) else Done)])
  {
  }

  lemma StoppedStays(s: Sys, r: nat, now: Time, out: Outcome, env: Env)
    requires r < |s.runs|
    ensures Moves(s, r, Step(s, Stops(r)), Done)
    ensures s.runs[r].pc == Done ==> Step(s, Advances(r, now, out, env)) == s
  {
  }
}
