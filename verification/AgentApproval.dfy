/**
 Approval binding: a call of an approval-gated step rests on an owner approval of exactly the
 arguments sent, still in force (no policy reset since) when the calling run was claimed.
 */
module AgentApproval {
  import opened Options
  import opened AgentRows
  import opened AgentSystem
  import opened AgentInvariant
  import opened AgentFootprint

  /** Among the first `n` events, step `x` was approved with `digest` and its policy was not reset afterwards. */
  ghost predicate InForce(log: seq<Event>, n: nat, x: StepId, digest: Digest)
    requires n <= |log|
  {
    exists i :: 0 <= i < n && log[i] == OwnerApproved(x, digest) && forall j :: i < j < n ==> log[j] != PolicyReset(x)
  }

  ghost predicate RunApproved(log: seq<Event>, run: Run) {
    run.pc.ToolArmed? && run.pc.snap.policy.requiresApproval ==>
      run.claimAt <= |log| && InForce(log, run.claimAt, run.pc.snap.id, run.pc.snap.digest)
  }

  ghost predicate SendApproved(log: seq<Event>, k: nat)
    requires k < |log|
  {
    log[k].Sent? && log[k].policy.requiresApproval ==>
      log[k].claimAt <= k && InForce(log, log[k].claimAt, log[k].step, Sha256(log[k].arguments))
  }

  ghost predicate RowsApproved(s: Sys) {
    forall i :: 0 <= i < |s.db.steps| && s.db.steps[i].decision == Approved ==>
      InForce(s.log, |s.log|, s.db.steps[i].id, s.db.steps[i].digest)
  }

  /** What the lease holder finds approved was approved before it was claimed. */
  ghost predicate HolderApproved(s: Sys) {
    s.db.task.leaseOwner.Some? && |s.runs| > 0 && s.runs[|s.runs| - 1].claimAt <= |s.log| ==>
      forall i :: 0 <= i < |s.db.steps| && s.db.steps[i].decision == Approved ==>
        InForce(s.log, s.runs[|s.runs| - 1].claimAt, s.db.steps[i].id, s.db.steps[i].digest)
  }

  ghost predicate ApprovalInv(s: Sys) {
    && RowsApproved(s) && HolderApproved(s)
    && (forall r :: 0 <= r < |s.runs| ==> RunApproved(s.log, s.runs[r]))
    && (forall k :: 0 <= k < |s.log| ==> SendApproved(s.log, k))
  }

  lemma InForceExtends(log: seq<Event>, log': seq<Event>, n: nat, x: StepId, digest: Digest)
    requires n <= |log| && log <= log' && InForce(log, n, x, digest)
    ensures InForce(log', n, x, digest)
  {
    var i :| 0 <= i < n && log[i] == OwnerApproved(x, digest) && forall j :: i < j < n ==> log[j] != PolicyReset(x);
    assert log'[i] == OwnerApproved(x, digest);
  }

  lemma InForceGrows(log: seq<Event>, e: Event, x: StepId, digest: Digest)
    requires InForce(log, |log|, x, digest) && e != PolicyReset(x)
    ensures InForce(log + [e], |log| + 1, x, digest)
  {
    var i :| 0 <= i < |log| && log[i] == OwnerApproved(x, digest) && forall j :: i < j < |log| ==> log[j] != PolicyReset(x);
    assert (log + [e])[i] == OwnerApproved(x, digest);
  }

  /** The event does not reset the policy of any approved row. */
  ghost predicate Harmless(steps: seq<StepRow>, e: Event) {
    forall i :: 0 <= i < |steps| && steps[i].decision == Approved ==> e != PolicyReset(steps[i].id)
  }

  /** Approved rows of `s'` are approved rows of `s`, and a new event does not reset any of them. */
  ghost predicate RowsInherited(s: Sys, s': Sys) {
    && (s'.log == s.log || (exists e: Event :: s'.log == s.log + [e] && Harmless(s'.db.steps, e)))
    && forall i :: 0 <= i < |s'.db.steps| && s'.db.steps[i].decision == Approved ==>
         i < |s.db.steps| && s.db.steps[i].decision == Approved
         && s.db.steps[i].id == s'.db.steps[i].id && s.db.steps[i].digest == s'.db.steps[i].digest
  }

  lemma RowsKeepApproval(s: Sys, s': Sys)
    requires RowsApproved(s) && RowsInherited(s, s')
    ensures RowsApproved(s') && s.log <= s'.log
  {
    forall i | 0 <= i < |s'.db.steps| && s'.db.steps[i].decision == Approved
      ensures InForce(s'.log, |s'.log|, s'.db.steps[i].id, s'.db.steps[i].digest)
    {
      if s'.log != s.log {
        var e: Event :| s'.log == s.log + [e] && Harmless(s'.db.steps, e);
        InForceGrows(s.log, e, s'.db.steps[i].id, s'.db.steps[i].digest);
      }
    }
  }

  /** Old runs, old events, inherited rows. */
  lemma ApprovalKept(s: Sys, s': Sys)
    requires LeaseInv(s) && ApprovalInv(s) && RowsInherited(s, s')
    requires s'.db.task.leaseOwner.Some? ==>
               s.db.task.leaseOwner.Some? && |s'.runs| == |s.runs| && s'.runs[|s.runs| - 1].claimAt == s.runs[|s.runs| - 1].claimAt
    requires forall r :: 0 <= r < |s'.runs| ==>
               !s'.runs[r].pc.ToolArmed? || (r < |s.runs| && s'.runs[r] == s.runs[r]) || RunApproved(s'.log, s'.runs[r])
    requires forall k :: 0 <= k < |s'.log| ==> !s'.log[k].Sent? || k < |s.log| || SendApproved(s'.log, k)
    ensures ApprovalInv(s')
  {
    RowsKeepApproval(s, s');
    if s'.db.task.leaseOwner.Some? {
      var n := s.runs[|s.runs| - 1].claimAt;
      forall i | 0 <= i < |s'.db.steps| && s'.db.steps[i].decision == Approved
        ensures InForce(s'.log, n, s'.db.steps[i].id, s'.db.steps[i].digest)
      {
        InForceExtends(s.log, s'.log, n, s'.db.steps[i].id, s'.db.steps[i].digest);
      }
    }
    forall r | 0 <= r < |s'.runs|
      ensures RunApproved(s'.log, s'.runs[r])
    {
      if s'.runs[r].pc.ToolArmed? && r < |s.runs| && s'.runs[r] == s.runs[r] && s.runs[r].pc.snap.policy.requiresApproval {
        assert RunApproved(s.log, s.runs[r]);
        InForceExtends(s.log, s'.log, s.runs[r].claimAt, s.runs[r].pc.snap.id, s.runs[r].pc.snap.digest);
      }
    }
    forall k | 0 <= k < |s'.log|
      ensures SendApproved(s'.log, k)
    {
      if k < |s.log| && s.log[k].Sent? && s.log[k].policy.requiresApproval {
        assert SendApproved(s.log, k);
        InForceExtends(s.log, s'.log, s.log[k].claimAt, s.log[k].step, Sha256(s.log[k].arguments));
      }
    }
  }

  lemma ApprovalMark(s: Sys, r: nat, now: Time, out: Outcome, env: Env)
    requires Core(s) && ApprovalInv(s) && r < |s.runs| && s.runs[r].pc.ToolMark?
    ensures ApprovalInv(ToolNode(s, r, now, out, env))
  {
    var s' := ToolNode(s, r, now, out, env);
    var snap := s.runs[r].pc.snap;
    if CanUpdateStep(s.db, s.runs[r].token, now, snap.id) {
      FenceMeansHolder(s, r, now);
      assert RunApproved(s'.log, s'.runs[r]);
    }
    ApprovalKept(s, s');
  }

  lemma ApprovalArmed(s: Sys, r: nat, now: Time, out: Outcome, env: Env)
    requires Core(s) && ApprovalInv(s) && r < |s.runs| && s.runs[r].pc.ToolArmed?
    ensures ApprovalInv(ToolNode(s, r, now, out, env))
  {
    var s' := ToolNode(s, r, now, out, env);
    if s'.log != s.log {
      assert RunApproved(s.log, s.runs[r]);
      if s.runs[r].pc.snap.policy.requiresApproval {
        InForceExtends(s.log, s'.log, s.runs[r].claimAt, s.runs[r].pc.snap.id, s.runs[r].pc.snap.digest);
      }
      assert SendApproved(s'.log, |s.log|);
    }
    ApprovalKept(s, s');
  }

  /** Worker writes never approve a row, and a policy reset withdraws the approval it resets. */
  ghost predicate NoApproval(s: Sys, s': Sys) {
    && (s'.log == s.log || (exists e: Event :: s'.log == s.log + [e] && Harmless(s'.db.steps, e)))
    && (s'.db.task.leaseOwner.Some? ==> s.db.task.leaseOwner.Some?)
    && forall i :: 0 <= i < |s'.db.steps| && s'.db.steps[i].decision == Approved ==>
         i < |s.db.steps| && s.db.steps[i].decision == Approved
  }

  lemma PlanNoApproval(s: Sys, r: nat, now: Time, out: Outcome, env: Env)
    requires Core(s) && r < |s.runs|
    ensures NoApproval(s, PlanNode(s, r, now, out, env))
  {
    match s.runs[r].pc {
      case PlanMark(x) =>
        WriteTaskNoApproval(s, r, now, out, TaskPatch(Some(Planning), Some(Some(x)), false, KeepHeartbeat), PlanRun(x), FailRead);
      case PlanRun(x) => WriteStepNoApproval(s, r, now, out, x, JustStatus(StepRunning), PlanSave, FailRead);
      case PlanSave => SavedPlanNoApproval(s, r, now, out, env);
      case _ => assert PlanNode(s, r, now, out, env).db == s.db;
    }
  }

  lemma SavedPlanNoApproval(s: Sys, r: nat, now: Time, out: Outcome, env: Env)
    requires Core(s) && r < |s.runs| && s.runs[r].pc.PlanSave?
    ensures NoApproval(s, PlanNode(s, r, now, out, env))
  {
    if CanSavePlan(s.db, s.runs[r].token, now) {
      FenceMeansHolder(s, r, now);
    }
  }

  lemma WriteStepNoApproval(s: Sys, r: nat, now: Time, out: Outcome, x: StepId, patch: StepPatch, good: Pc, bad: Pc)
    requires r < |s.runs| && patch.decision.None?
    ensures NoApproval(s, WriteStep(s, r, now, out, x, patch, good, bad))
  {
  }

  lemma WriteTaskNoApproval(s: Sys, r: nat, now: Time, out: Outcome, patch: TaskPatch, good: Pc, bad: Pc)
    requires r < |s.runs|
    ensures NoApproval(s, WriteTask(s, r, now, out, patch, good, bad))
  {
  }

  lemma DispatchNoApproval(s: Sys, r: nat, now: Time, out: Outcome, env: Env)
    requires r < |s.runs|
    ensures NoApproval(s, DispatchNode(s, r, now, out, env))
  {
  }

  lemma ApprovalNoApproval(s: Sys, r: nat, now: Time, out: Outcome, env: Env)
    requires r < |s.runs|
    ensures NoApproval(s, ApprovalNode(s, r, now, out, env))
  {
  }

  lemma ReviewNoApproval(s: Sys, r: nat, now: Time, out: Outcome, env: Env)
    requires r < |s.runs| && s.runs[r].pc.PauseReview?
    ensures NoApproval(s, ToolNode(s, r, now, out, env))
  {
    var s' := ToolNode(s, r, now, out, env);
    if s'.log != s.log {
      assert s'.log == s.log + [PolicyReset(s.runs[r].pc.step)];
      assert Harmless(s'.db.steps, PolicyReset(s.runs[r].pc.step));
    }
  }

  lemma PauseNoApproval(s: Sys, r: nat, now: Time, out: Outcome, env: Env)
    requires r < |s.runs| && s.runs[r].pc.PauseUnknown?
    ensures NoApproval(s, ToolNode(s, r, now, out, env))
  {
    var s' := ToolNode(s, r, now, out, env);
    assert s'.log == s.log;
  }

  lemma PlainToolNoApproval(s: Sys, r: nat, now: Time, out: Outcome, env: Env)
    requires r < |s.runs| && !s.runs[r].pc.ToolArmed? && !s.runs[r].pc.PauseReview? && !s.runs[r].pc.PauseUnknown?
    ensures NoApproval(s, ToolNode(s, r, now, out, env))
  {
    match s.runs[r].pc {
      case ToolMark(snap, op) =>
        WriteStepNoApproval(s, r, now, out, snap.id, StepPatch(StepRunning, Some(op), None, None), ToolArmed(snap, op), FailRead);
      case ToolDone(snap, op) =>
        WriteStepNoApproval(s, r, now, out, snap.id, JustStatus(StepSucceeded), ToolTask, FailedCallPc(snap));
      case ToolTask =>
        WriteTaskNoApproval(s, r, now, out, TaskPatch(Some(Running), Some(None), false, BeatAt(now)), Saving(AtDispatch), FailRead);
      case ToolRead => assert ToolNode(s, r, now, out, env).db == s.db;
      case _ =>
    }
  }

  lemma ToolNoApproval(s: Sys, r: nat, now: Time, out: Outcome, env: Env)
    requires r < |s.runs| && !s.runs[r].pc.ToolArmed?
    ensures NoApproval(s, ToolNode(s, r, now, out, env))
  {
    if s.runs[r].pc.PauseReview? {
      ReviewNoApproval(s, r, now, out, env);
    } else if s.runs[r].pc.PauseUnknown? {
      PauseNoApproval(s, r, now, out, env);
    } else {
      PlainToolNoApproval(s, r, now, out, env);
    }
  }

  lemma FinalNoApproval(s: Sys, r: nat, now: Time, out: Outcome, env: Env)
    requires r < |s.runs|
    ensures NoApproval(s, FinalNode(s, r, now, out, env))
  {
  }

  lemma FailureNoApproval(s: Sys, r: nat, now: Time, out: Outcome, env: Env)
    requires r < |s.runs|
    ensures NoApproval(s, FailureNode(s, r, now, out, env))
  {
    match s.runs[r].pc {
      case FailStep(x) => WriteStepNoApproval(s, r, now, out, x, JustStatus(StepFailed), FailTask, FailTask);
      case FailTask => WriteTaskNoApproval(s, r, now, out, TaskPatch(Some(Failed), None, true, KeepHeartbeat), FailRead, FailRead);
      case FailUnknown(_) => UnknownNoApproval(s, r, now, out, env);
      case FailRunStep(x) => WriteStepNoApproval(s, r, now, out, x, JustStatus(StepFailed), FailRunTask(Some(x)), FailRunTask(Some(x)));
      case FailRunTask(current) =>
        WriteTaskNoApproval(s, r, now, out, TaskPatch(Some(Failed), Some(current), true, ClearHeartbeat), Done, Done);
      case _ => assert FailureNode(s, r, now, out, env).db == s.db;
    }
  }

  lemma UnknownNoApproval(s: Sys, r: nat, now: Time, out: Outcome, env: Env)
    requires r < |s.runs| && s.runs[r].pc.FailUnknown?
    ensures NoApproval(s, FailureNode(s, r, now, out, env))
  {
  }

  lemma AdvanceNoApproval(s: Sys, r: nat, now: Time, out: Outcome, env: Env)
    requires Core(s) && r < |s.runs| && !s.runs[r].pc.ToolArmed?
    ensures NoApproval(s, Advance(s, r, now, out, env))
  {
    PlanNoApproval(s, r, now, out, env);
    DispatchNoApproval(s, r, now, out, env);
    ApprovalNoApproval(s, r, now, out, env);
    ToolNoApproval(s, r, now, out, env);
    FinalNoApproval(s, r, now, out, env);
    FailureNoApproval(s, r, now, out, env);
  }

  lemma ApprovalAdvance(s: Sys, r: nat, now: Time, out: Outcome, env: Env)
    requires Core(s) && ApprovalInv(s) && r < |s.runs|
    ensures ApprovalInv(Advance(s, r, now, out, env))
  {
    if s.runs[r].pc.ToolMark? {
      ApprovalMark(s, r, now, out, env);
    } else if s.runs[r].pc.ToolArmed? {
      ApprovalArmed(s, r, now, out, env);
    } else {
      QuietAdvance(s, r, now, out, env);
      AdvanceNoApproval(s, r, now, out, env);
      AdvanceKept(s, r, now, out, env);
      NoApprovalKept(s, Advance(s, r, now, out, env), r);
    }
  }

  lemma NoApprovalKept(s: Sys, s': Sys, r: nat)
    requires Core(s) && ApprovalInv(s) && r < |s.runs|
    requires Quiet(s, s', r) && NoApproval(s, s') && RowsKept(s.db.steps, s'.db.steps)
    ensures ApprovalInv(s')
  {
    assert RowsInherited(s, s') by {
      forall i | 0 <= i < |s'.db.steps| && s'.db.steps[i].decision == Approved
        ensures s.db.steps[i].id == s'.db.steps[i].id && s.db.steps[i].digest == s'.db.steps[i].digest
      {
        assert SamePayload(s.db.steps[i], s'.db.steps[i]);
      }
    }
    ApprovalKept(s, s');
  }

  lemma ApprovalApprove(s: Sys, user: UserId, x: StepId, digest: Digest, now: Time)
    requires Core(s) && ApprovalInv(s)
    ensures ApprovalInv(Step(s, Approves(user, x, digest, now)))
  {
    var s' := Step(s, Approves(user, x, digest, now));
    if CanApprove(s.db, user, x, digest) {
      var e := OwnerApproved(x, digest);
      var k :| 0 <= k < |s.db.steps| && Awaits(s.db.steps[k], x) && s.db.steps[k].digest == digest;
      forall i | 0 <= i < |s'.db.steps| && s'.db.steps[i].decision == Approved
        ensures InForce(s'.log, |s'.log|, s'.db.steps[i].id, s'.db.steps[i].digest)
      {
        if s.db.steps[i].id == x {
          UniqueRow(s.db.steps, i, k);
          assert s'.log[|s.log|] == OwnerApproved(x, digest);
        } else {
          InForceGrows(s.log, e, s.db.steps[i].id, s.db.steps[i].digest);
        }
      }
      var bare := s.(db := s.db.(task := s'.db.task), log := s'.log);
      assert s'.log == s.log + [e];
      assert RowsInherited(s, bare);
      ApprovalKept(s, bare);
    }
  }

  /** Every transition keeps the approval binding. */
  lemma StepApproval(s: Sys, l: Label)
    requires Core(s) && ApprovalInv(s)
    ensures ApprovalInv(Step(s, l))
  {
    match l
    case Advances(r, now, out, env) =>
      if r < |s.runs| {
        ApprovalAdvance(s, r, now, out, env);
      }
    case Approves(user, x, digest, now) => ApprovalApprove(s, user, x, digest, now);
    case Claims(worker, now, lease, started) => ApprovalClaim(s, worker, now, lease, started);
    case Resumes(user, retryUnknown, now) => ApprovalResume(s, user, retryUnknown, now);
    case Renews(r, now, lease) => ApprovalRenew(s, r, now, lease);
    case Stops(r) => ApprovalStop(s, r);
    case Recovers(now, before) => ApprovalRecover(s, now, before);
    case Rejects(user, x, now) => ApprovalReject(s, user, x, now);
    case Cancels(user, now) => ApprovalCancel(s, user, now);
  }

  lemma ApprovalRenew(s: Sys, r: nat, now: Time, lease: Time)
    requires Core(s) && ApprovalInv(s)
    ensures ApprovalInv(Step(s, Renews(r, now, lease)))
  {
    ApprovalKept(s, Step(s, Renews(r, now, lease)));
  }

  lemma ApprovalStop(s: Sys, r: nat)
    requires Core(s) && ApprovalInv(s)
    ensures ApprovalInv(Step(s, Stops(r)))
  {
    ApprovalKept(s, Step(s, Stops(r)));
  }

  lemma ApprovalRecover(s: Sys, now: Time, before: Time)
    requires Core(s) && ApprovalInv(s)
    ensures ApprovalInv(Step(s, Recovers(now, before)))
  {
    ApprovalKept(s, Step(s, Recovers(now, before)));
  }

  lemma ApprovalCancel(s: Sys, user: UserId, now: Time)
    requires Core(s) && ApprovalInv(s)
    ensures ApprovalInv(Step(s, Cancels(user, now)))
  {
    ApprovalKept(s, Step(s, Cancels(user, now)));
  }

  lemma ApprovalReject(s: Sys, user: UserId, x: StepId, now: Time)
    requires Core(s) && ApprovalInv(s)
    ensures ApprovalInv(Step(s, Rejects(user, x, now)))
  {
    var s' := Step(s, Rejects(user, x, now));
    assert RowsInherited(s, s');
    ApprovalKept(s, s');
  }

  lemma ApprovalResume(s: Sys, user: UserId, retryUnknown: bool, now: Time)
    requires Core(s) && ApprovalInv(s)
    ensures ApprovalInv(Step(s, Resumes(user, retryUnknown, now)))
  {
    var s' := Step(s, Resumes(user, retryUnknown, now));
    if s'.log != s.log {
      var e := OwnerRetried(ResumeTarget(s.db, user, retryUnknown).value.id);
      assert s'.log == s.log + [e];
    }
    assert RowsInherited(s, s');
    ApprovalKept(s, s');
  }

  lemma ApprovalClaim(s: Sys, worker: WorkerId, now: Time, lease: Time, started: bool)
    requires Core(s) && ApprovalInv(s)
    ensures ApprovalInv(Step(s, Claims(worker, now, lease, started)))
  {
    var s' := Step(s, Claims(worker, now, lease, started));
    if CanClaim(s.db) {
      assert s'.runs[|s.runs|].claimAt == |s.log|;
      assert RowsApproved(s');
      assert forall r :: 0 <= r < |s.runs| ==> s'.runs[r] == s.runs[r] && RunApproved(s.log, s.runs[r]);
    }
  }
}
