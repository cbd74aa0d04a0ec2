/**
 What never changes once written: the plan's steps, their payload and a chosen operation identifier;
 and what every outstanding or past external call has in common with the durable row it came from.
 */
module AgentFootprint {
  import opened Options
  import opened AgentRows
  import opened AgentSystem
  import opened AgentInvariant

  ghost predicate SamePayload(a: StepRow, b: StepRow) {
    && a.id == b.id && a.kind == b.kind && a.tool == b.tool && a.arguments == b.arguments && a.digest == b.digest
    && (a.operationId.Some? ==> b.operationId == a.operationId)
  }

  /** No row disappears or changes its payload, and a committed plan never grows. */
  ghost predicate RowsKept(before: seq<StepRow>, after: seq<StepRow>) {
    && |before| <= |after|
    && (|before| > 1 ==> |after| == |before|)
    && forall i :: 0 <= i < |before| ==> SamePayload(before[i], after[i])
  }

  lemma RowsKeptTransitive(a: seq<StepRow>, b: seq<StepRow>, c: seq<StepRow>)
    requires RowsKept(a, b) && RowsKept(b, c)
    ensures RowsKept(a, c)
  {
    forall i | 0 <= i < |a|
      ensures SamePayload(a[i], c[i])
    {
      assert SamePayload(a[i], b[i]) && SamePayload(b[i], c[i]);
    }
  }

  lemma PatchKept(steps: seq<StepRow>, x: StepId, patch: StepPatch)
    requires patch.operationId.None?
    ensures RowsKept(steps, PatchRows(steps, x, patch))
  {
  }

  lemma WriteStepKept(s: Sys, r: nat, now: Time, out: Outcome, x: StepId, patch: StepPatch, good: Pc, bad: Pc)
    requires r < |s.runs| && patch.operationId.None?
    ensures RowsKept(s.db.steps, WriteStep(s, r, now, out, x, patch, good, bad).db.steps)
  {
    PatchKept(s.db.steps, x, patch);
    assert WriteStep(s, r, now, out, x, patch, good, bad).db.steps in {s.db.steps, PatchRows(s.db.steps, x, patch)};
  }

  lemma MarkKept(steps: seq<StepRow>, snap: StepRow, op: OpId)
    requires Distinct(steps) && snap in steps && (snap.operationId.Some? ==> snap.operationId == Some(op))
    ensures RowsKept(steps, PatchRows(steps, snap.id, StepPatch(StepRunning, Some(op), None, None)))
  {
    var k :| 0 <= k < |steps| && steps[k] == snap;
    var after := PatchRows(steps, snap.id, StepPatch(StepRunning, Some(op), None, None));
    forall i | 0 <= i < |steps|
      ensures SamePayload(steps[i], after[i])
    {
      if steps[i].id == snap.id {
        UniqueRow(steps, i, k);
      }
    }
  }

  lemma PlanKept(s: Sys, r: nat, now: Time, out: Outcome, env: Env)
    requires Core(s) && r < |s.runs|
    ensures RowsKept(s.db.steps, PlanNode(s, r, now, out, env).db.steps)
  {
    if s.runs[r].pc.PlanSave? && CanSavePlan(s.db, s.runs[r].token, now) {
      FenceMeansHolder(s, r, now);
    }
  }

  lemma ToolMarkKept(s: Sys, r: nat, now: Time, out: Outcome, env: Env)
    requires Core(s) && r < |s.runs| && s.runs[r].pc.ToolMark?
    ensures RowsKept(s.db.steps, ToolNode(s, r, now, out, env).db.steps)
  {
    var snap, op := s.runs[r].pc.snap, s.runs[r].pc.op;
    if CanUpdateStep(s.db, s.runs[r].token, now, snap.id) {
      FenceMeansHolder(s, r, now);
      MarkKept(s.db.steps, snap, op);
    }
  }

  lemma PauseKept(s: Sys, r: nat, now: Time, out: Outcome, env: Env)
    requires r < |s.runs| && (s.runs[r].pc.PauseUnknown? || s.runs[r].pc.PauseReview?)
    ensures RowsKept(s.db.steps, ToolNode(s, r, now, out, env).db.steps)
  {
    var x := s.runs[r].pc.step;
    PatchKept(s.db.steps, x, JustStatus(StepUnknown));
    if s.runs[r].pc.PauseReview? {
      PatchKept(s.db.steps, x, StepPatch(StepUnknown, None, Some(Undecided), Some(s.runs[r].pc.policy)));
    }
  }

  lemma ToolKept(s: Sys, r: nat, now: Time, out: Outcome, env: Env)
    requires Core(s) && r < |s.runs|
    ensures RowsKept(s.db.steps, ToolNode(s, r, now, out, env).db.steps)
  {
    match s.runs[r].pc {
      case ToolMark(_, _) => ToolMarkKept(s, r, now, out, env);
      case ToolDone(snap, _) => WriteStepKept(s, r, now, out, snap.id, JustStatus(StepSucceeded), ToolTask, FailedCallPc(snap));
      case PauseUnknown(_) => PauseKept(s, r, now, out, env);
      case PauseReview(_, _) => PauseKept(s, r, now, out, env);
      case _ => ToolSameRows(s, r, now, out, env);
    }
  }

  lemma ToolSameRows(s: Sys, r: nat, now: Time, out: Outcome, env: Env)
    requires r < |s.runs| && !s.runs[r].pc.ToolMark? && !s.runs[r].pc.ToolDone?
    requires !s.runs[r].pc.PauseUnknown? && !s.runs[r].pc.PauseReview?
    ensures ToolNode(s, r, now, out, env).db.steps == s.db.steps
  {
  }

  lemma DispatchKept(s: Sys, r: nat, now: Time, out: Outcome, env: Env)
    requires r < |s.runs|
    ensures RowsKept(s.db.steps, DispatchNode(s, r, now, out, env).db.steps)
  {
  }

  lemma ApprovalKept(s: Sys, r: nat, now: Time, out: Outcome, env: Env)
    requires r < |s.runs|
    ensures RowsKept(s.db.steps, ApprovalNode(s, r, now, out, env).db.steps)
  {
  }

  lemma FinalKept(s: Sys, r: nat, now: Time, out: Outcome, env: Env)
    requires r < |s.runs|
    ensures RowsKept(s.db.steps, FinalNode(s, r, now, out, env).db.steps)
  {
  }

  lemma FailureKept(s: Sys, r: nat, now: Time, out: Outcome, env: Env)
    requires r < |s.runs|
    ensures RowsKept(s.db.steps, FailureNode(s, r, now, out, env).db.steps)
  {
    match s.runs[r].pc {
      case FailStep(x) => WriteStepKept(s, r, now, out, x, JustStatus(StepFailed), FailTask, FailTask);
      case FailRunStep(x) => WriteStepKept(s, r, now, out, x, JustStatus(StepFailed), FailRunTask(Some(x)), FailRunTask(Some(x)));
      case FailUnknown(x) =>
        PatchKept(s.db.steps, x, JustStatus(StepUnknown));
        assert FailureNode(s, r, now, out, env).db.steps in {s.db.steps, PatchRows(s.db.steps, x, JustStatus(StepUnknown))};
      case _ => assert FailureNode(s, r, now, out, env).db.steps == s.db.steps;
    }
  }

  lemma AdvanceKept(s: Sys, r: nat, now: Time, out: Outcome, env: Env)
    requires Core(s) && r < |s.runs|
    ensures RowsKept(s.db.steps, Advance(s, r, now, out, env).db.steps)
  {
    PlanKept(s, r, now, out, env);
    ToolKept(s, r, now, out, env);
    DispatchKept(s, r, now, out, env);
    ApprovalKept(s, r, now, out, env);
    FinalKept(s, r, now, out, env);
    FailureKept(s, r, now, out, env);
  }

  /** Plan steps are committed once; afterwards no transition adds, drops or alters a payload. */
  lemma StepKept(s: Sys, l: Label)
    requires Core(s)
    ensures RowsKept(s.db.steps, Step(s, l).db.steps)
  {
    match l
    case Advances(r, now, out, env) =>
      if r < |s.runs| {
        AdvanceKept(s, r, now, out, env);
      }
    case Recovers(now, before) => RecoverKept(s.db, now, before);
    case Approves(user, x, digest, now) => ApproveKept(s.db, user, x, digest, now);
    case Rejects(user, x, now) => RejectKept(s.db, user, x, now);
    case Resumes(user, retryUnknown, now) => ResumeKept(s.db, user, retryUnknown, now);
    case Cancels(user, now) => CancelKept(s.db, user, now);
    case _ => assert Step(s, l).db.steps == s.db.steps;
  }

  lemma RecoverKept(db: Db, now: Time, before: Time)
    ensures RowsKept(db.steps, Recover(db, now, before).steps)
  {
  }

  lemma ApproveKept(db: Db, user: UserId, x: StepId, digest: Digest, now: Time)
    ensures RowsKept(db.steps, Approve(db, user, x, digest, now).steps)
  {
  }

  lemma RejectKept(db: Db, user: UserId, x: StepId, now: Time)
    ensures RowsKept(db.steps, Reject(db, user, x, now).steps)
  {
  }

  lemma CancelKept(db: Db, user: UserId, now: Time)
    ensures RowsKept(db.steps, Cancel(db, user, now).steps)
  {
  }

  lemma ResumeKept(db: Db, user: UserId, retryUnknown: bool, now: Time)
    ensures RowsKept(db.steps, Resume(db, user, retryUnknown, now).steps)
  {
  }

  // ----- calls and their rows -----

  /** The row a call was made from is still there, with the same payload and operation identifier. */
  ghost predicate CallRow(steps: seq<StepRow>, x: StepId, arguments: string, digest: Digest, op: OpId) {
    exists i :: 0 <= i < |steps| && steps[i].id == x && steps[i].kind == Tool
             && steps[i].arguments == arguments && steps[i].digest == digest && steps[i].operationId == Some(op)
  }

  ghost predicate RunCallRow(steps: seq<StepRow>, pc: Pc) {
    match pc
    case ToolArmed(snap, op) => CallRow(steps, snap.id, snap.arguments, snap.digest, op)
    case _ => true
  }

  ghost predicate EventCallRow(steps: seq<StepRow>, e: Event) {
    e.Sent? ==> CallRow(steps, e.step, e.arguments, Sha256(e.arguments), e.op)
  }

  ghost predicate Footprint(s: Sys) {
    && (forall r :: 0 <= r < |s.runs| ==> RunCallRow(s.db.steps, s.runs[r].pc))
    && (forall k :: 0 <= k < |s.log| ==> EventCallRow(s.db.steps, s.log[k]))
  }

  lemma CallRowKept(before: seq<StepRow>, after: seq<StepRow>, x: StepId, arguments: string, digest: Digest, op: OpId)
    requires RowsKept(before, after) && CallRow(before, x, arguments, digest, op)
    ensures CallRow(after, x, arguments, digest, op)
  {
    var i :| 0 <= i < |before| && before[i].id == x && before[i].kind == Tool
             && before[i].arguments == arguments && before[i].digest == digest && before[i].operationId == Some(op);
    assert SamePayload(before[i], after[i]);
  }

  /** Rows kept, runs and events old: the footprint survives. */
  lemma FootprintKept(s: Sys, s': Sys)
    requires Footprint(s) && RowsKept(s.db.steps, s'.db.steps)
    requires forall r :: 0 <= r < |s'.runs| ==>
               !s'.runs[r].pc.ToolArmed? || (r < |s.runs| && s'.runs[r].pc == s.runs[r].pc) || RunCallRow(s'.db.steps, s'.runs[r].pc)
    requires forall k :: 0 <= k < |s'.log| ==>
               !s'.log[k].Sent? || (k < |s.log| && s'.log[k] == s.log[k]) || EventCallRow(s'.db.steps, s'.log[k])
    ensures Footprint(s')
  {
    forall r | 0 <= r < |s'.runs|
      ensures RunCallRow(s'.db.steps, s'.runs[r].pc)
    {
      if s'.runs[r].pc.ToolArmed? && r < |s.runs| && s'.runs[r].pc == s.runs[r].pc {
        assert RunCallRow(s.db.steps, s.runs[r].pc);
        var pc := s.runs[r].pc;
        CallRowKept(s.db.steps, s'.db.steps, pc.snap.id, pc.snap.arguments, pc.snap.digest, pc.op);
      }
    }
    forall k | 0 <= k < |s'.log|
      ensures EventCallRow(s'.db.steps, s'.log[k])
    {
      if s'.log[k].Sent? && k < |s.log| && s'.log[k] == s.log[k] {
        assert EventCallRow(s.db.steps, s.log[k]);
        var e := s.log[k];
        CallRowKept(s.db.steps, s'.db.steps, e.step, e.arguments, Sha256(e.arguments), e.op);
      }
    }
  }

  lemma MarkFootprint(s: Sys, r: nat, now: Time, out: Outcome, env: Env)
    requires Core(s) && Footprint(s) && r < |s.runs| && s.runs[r].pc.ToolMark?
    ensures Footprint(ToolNode(s, r, now, out, env))
  {
    var s' := ToolNode(s, r, now, out, env);
    var snap, op := s.runs[r].pc.snap, s.runs[r].pc.op;
    AdvanceKept(s, r, now, out, env);
    if CanUpdateStep(s.db, s.runs[r].token, now, snap.id) {
      FenceMeansHolder(s, r, now);
      var k :| 0 <= k < |s.db.steps| && s.db.steps[k] == snap;
      if s'.runs[r].pc.ToolArmed? {
        assert s'.db.steps[k] == MarkedRunning(snap, op);
        assert CallRow(s'.db.steps, snap.id, snap.arguments, snap.digest, op);
      }
    }
    FootprintKept(s, s');
  }

  lemma ArmedFootprint(s: Sys, r: nat, now: Time, out: Outcome, env: Env)
    requires Core(s) && Footprint(s) && r < |s.runs| && s.runs[r].pc.ToolArmed?
    ensures Footprint(ToolNode(s, r, now, out, env))
  {
    var s' := ToolNode(s, r, now, out, env);
    assert RunCallRow(s.db.steps, s.runs[r].pc);
    FootprintKept(s, s');
  }

  /** Only run `r` moved, to a point where no call is prepared, and nothing was logged but perhaps `e`. */
  ghost predicate Quiet(s: Sys, s': Sys, r: nat) {
    && |s'.runs| == |s.runs| && r < |s.runs| && !s'.runs[r].pc.ToolArmed?
    && (forall q :: 0 <= q < |s.runs| && q != r ==> s'.runs[q] == s.runs[q])
    && s'.runs[r].token == s.runs[r].token && s'.runs[r].claimAt == s.runs[r].claimAt
    && (s'.log == s.log || (s.runs[r].pc.PauseReview? && s'.log == s.log + [PolicyReset(s.runs[r].pc.step)]))
  }

  lemma GotoQuiet(s: Sys, r: nat, pc: Pc)
    requires r < |s.runs| && !pc.ToolArmed?
    ensures Quiet(s, Goto(s, r, pc), r)
  {
  }

  lemma WriteQuiet(s: Sys, r: nat, accepted: bool, after: Db, out: Outcome, good: Pc, bad: Pc)
    requires r < |s.runs| && !good.ToolArmed? && !bad.ToolArmed?
    ensures Quiet(s, Write(s, r, accepted, after, out, good, bad), r)
  {
  }

  lemma WriteStepQuiet(s: Sys, r: nat, now: Time, out: Outcome, x: StepId, patch: StepPatch, good: Pc, bad: Pc)
    requires r < |s.runs| && !good.ToolArmed? && !bad.ToolArmed?
    ensures Quiet(s, WriteStep(s, r, now, out, x, patch, good, bad), r)
  {
  }

  lemma WriteTaskQuiet(s: Sys, r: nat, now: Time, out: Outcome, patch: TaskPatch, good: Pc, bad: Pc)
    requires r < |s.runs| && !good.ToolArmed? && !bad.ToolArmed?
    ensures Quiet(s, WriteTask(s, r, now, out, patch, good, bad), r)
  {
  }

  lemma PlanQuiet(s: Sys, r: nat, now: Time, out: Outcome, env: Env)
    requires r < |s.runs| && !s.runs[r].pc.ToolArmed?
    ensures Quiet(s, PlanNode(s, r, now, out, env), r)
  {
    var next := PlanNode(s, r, now, out, env);
    var token := s.runs[r].token;
    match s.runs[r].pc
    case PlanRead => GotoQuiet(s, r, next.runs[r].pc);
    case PlanSave =>
      GotoQuiet(s, r, FailRead);
      WriteQuiet(s, r, CanSavePlan(s.db, token, now), SavePlan(s.db, token, now, env.plan), out, Saving(AtDispatch), FailRead);
    case _ =>
  }

  lemma DispatchQuiet(s: Sys, r: nat, now: Time, out: Outcome, env: Env)
    requires r < |s.runs| && !s.runs[r].pc.ToolArmed?
    ensures Quiet(s, DispatchNode(s, r, now, out, env), r)
  {
  }

  lemma ApprovalQuiet(s: Sys, r: nat, now: Time, out: Outcome, env: Env)
    requires r < |s.runs| && !s.runs[r].pc.ToolArmed?
    ensures Quiet(s, ApprovalNode(s, r, now, out, env), r)
  {
  }

  lemma FinalQuiet(s: Sys, r: nat, now: Time, out: Outcome, env: Env)
    requires r < |s.runs| && !s.runs[r].pc.ToolArmed?
    ensures Quiet(s, FinalNode(s, r, now, out, env), r)
  {
    match s.runs[r].pc {
      case FinalRead => GotoQuiet(s, r, FinalNode(s, r, now, out, env).runs[r].pc);
      case FinalMark(x) => WriteStepQuiet(s, r, now, out, x, JustStatus(StepRunning), FinalSave(x), FailRead);
      case FinalSave(x) =>
        GotoQuiet(s, r, FailStep(x));
        WriteStepQuiet(s, r, now, out, x, JustStatus(StepSucceeded), FinalTask(x), FailRead);
      case FinalTask(x) =>
        WriteTaskQuiet(s, r, now, out, TaskPatch(Some(Succeeded), Some(Some(x)), true, ClearHeartbeat), Done, FailRead);
      case _ =>
    }
  }

  lemma FailureQuiet(s: Sys, r: nat, now: Time, out: Outcome, env: Env)
    requires r < |s.runs| && !s.runs[r].pc.ToolArmed?
    ensures Quiet(s, FailureNode(s, r, now, out, env), r)
  {
    var next := FailureNode(s, r, now, out, env);
    var token := s.runs[r].token;
    match s.runs[r].pc
    case FailRead => GotoQuiet(s, r, next.runs[r].pc);
    case FailUnknown(x) =>
      WriteQuiet(s, r, CanPause(s.db, token, now, x), MarkUnknown(s.db, token, now, x), out, Done, Done);
    case _ =>
  }

  lemma ToolQuiet(s: Sys, r: nat, now: Time, out: Outcome, env: Env)
    requires r < |s.runs| && !s.runs[r].pc.ToolMark? && !s.runs[r].pc.ToolArmed?
    ensures Quiet(s, ToolNode(s, r, now, out, env), r)
  {
    var token := s.runs[r].token;
    match s.runs[r].pc {
      case ToolRead => GotoQuiet(s, r, ToolNode(s, r, now, out, env).runs[r].pc);
      case ToolDone(snap, op) =>
        WriteStepQuiet(s, r, now, out, snap.id, JustStatus(StepSucceeded), ToolTask, FailedCallPc(snap));
      case ToolTask =>
        WriteTaskQuiet(s, r, now, out, TaskPatch(Some(Running), Some(None), false, BeatAt(now)), Saving(AtDispatch), FailRead);
      case PauseUnknown(x) =>
        WriteQuiet(s, r, CanPause(s.db, token, now, x), MarkUnknown(s.db, token, now, x), out, Done, FailRead);
      case PauseReview(x, policy) => ReviewQuiet(s, r, now, out, env);
      case _ =>
    }
  }

  lemma ReviewQuiet(s: Sys, r: nat, now: Time, out: Outcome, env: Env)
    requires r < |s.runs| && s.runs[r].pc.PauseReview?
    ensures Quiet(s, ToolNode(s, r, now, out, env), r)
  {
    var token := s.runs[r].token;
    var x, policy := s.runs[r].pc.step, s.runs[r].pc.policy;
    WriteQuiet(s, r, CanPause(s.db, token, now, x), MarkPolicyReview(s.db, token, now, x, policy), out, Done, FailRead);
  }

  /** Outside the mark and the call itself, no call is prepared or made. */
  lemma QuietAdvance(s: Sys, r: nat, now: Time, out: Outcome, env: Env)
    requires r < |s.runs| && !s.runs[r].pc.ToolMark? && !s.runs[r].pc.ToolArmed?
    ensures Quiet(s, Advance(s, r, now, out, env), r)
  {
    PlanQuiet(s, r, now, out, env);
    DispatchQuiet(s, r, now, out, env);
    ApprovalQuiet(s, r, now, out, env);
    FinalQuiet(s, r, now, out, env);
    FailureQuiet(s, r, now, out, env);
    ToolQuiet(s, r, now, out, env);
  }

  lemma AdvanceFootprint(s: Sys, r: nat, now: Time, out: Outcome, env: Env)
    requires Core(s) && Footprint(s) && r < |s.runs|
    ensures Footprint(Advance(s, r, now, out, env))
  {
    if s.runs[r].pc.ToolMark? {
      MarkFootprint(s, r, now, out, env);
    } else if s.runs[r].pc.ToolArmed? {
      ArmedFootprint(s, r, now, out, env);
    } else {
      QuietAdvance(s, r, now, out, env);
      AdvanceKept(s, r, now, out, env);
      QuietFootprint(s, Advance(s, r, now, out, env), r);
    }
  }

  lemma QuietFootprint(s: Sys, s': Sys, r: nat)
    requires Footprint(s) && Quiet(s, s', r) && RowsKept(s.db.steps, s'.db.steps)
    ensures Footprint(s')
  {
    FootprintKept(s, s');
  }

  lemma StepFootprint(s: Sys, l: Label)
    requires Core(s) && Footprint(s)
    ensures Footprint(Step(s, l))
  {
    match l
    case Advances(r, now, out, env) =>
      if r < |s.runs| {
        AdvanceFootprint(s, r, now, out, env);
      }
    case Claims(_, _, _, _) => FootprintKept(s, Step(s, l));
    case _ => OwnerFootprint(s, l);
  }

  /** The owner, the recovery pass and the end of a run make no call. */
  lemma OwnerFootprint(s: Sys, l: Label)
    requires Core(s) && Footprint(s) && !l.Advances? && !l.Claims?
    ensures Footprint(Step(s, l))
  {
    StepKept(s, l);
    OwnerLogs(s, l);
    FootprintKept(s, Step(s, l));
  }

  lemma OwnerLogs(s: Sys, l: Label)
    requires !l.Advances? && !l.Claims?
    ensures var s' := Step(s, l);
            && |s'.runs| == |s.runs|
            && (forall r :: 0 <= r < |s.runs| ==> s'.runs[r] == s.runs[r] || s'.runs[r].pc == Done)
            && (s'.log == s.log || exists e: Event :: !e.Sent? && s'.log == s.log + [e])
  {
    if l.Approves? {
      assert !OwnerApproved(l.step, l.digest).Sent?;
    }
  }
}
