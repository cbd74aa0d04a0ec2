/**
 What a recorded success guarantees. Two natural readings of "a finished step is left alone" are false
 of the protocol; this module gives the behaviours that break them and the exact conditions under which they hold.
 */
module AgentSuccess {
  import opened AgentRows
  import opened AgentRouting
  import opened AgentSystem
  import opened AgentInvariant
  import opened AgentFootprint
  import opened AgentReplay
  import opened AgentTheorems

  ghost predicate Finished(s: Sys, i: nat) {
    i < |s.db.steps| && s.db.steps[i].kind == Tool && s.db.steps[i].status == StepSucceeded
  }

  /** The ordinary-failure write of step `x` by a run that still passes the fence. */
  predicate Overwrites(s: Sys, l: Label, x: StepId) {
    && l.Advances? && l.run < |s.runs| && s.runs[l.run].pc == FailStep(x)
    && Fence(s.db.task, s.runs[l.run].token, l.now) && !l.out.Refused?
  }

  lemma PlanKeepsSuccess(s: Sys, r: nat, now: Time, out: Outcome, env: Env, i: nat)
    requires Core(s) && r < |s.runs| && Finished(s, i)
    ensures Finished(PlanNode(s, r, now, out, env), i)
  {
    if (s.runs[r].pc.PlanRun? || s.runs[r].pc.PlanSave?) && Fence(s.db.task, s.runs[r].token, now) {
      FenceMeansHolder(s, r, now);
    }
  }

  lemma DispatchKeepsSuccess(s: Sys, r: nat, now: Time, out: Outcome, env: Env, i: nat)
    requires r < |s.runs| && Finished(s, i)
    ensures Finished(DispatchNode(s, r, now, out, env), i)
  {
  }

  lemma ApprovalKeepsSuccess(s: Sys, r: nat, now: Time, out: Outcome, env: Env, i: nat)
    requires Core(s) && r < |s.runs| && Finished(s, i)
    ensures Finished(ApprovalNode(s, r, now, out, env), i)
  {
    if s.runs[r].pc.ApprovalStep? && Fence(s.db.task, s.runs[r].token, now) {
      FenceMeansHolder(s, r, now);
      var x := s.runs[r].pc.step;
      var k :| 0 <= k < |s.db.steps| && s.db.steps[k].id == x && s.db.steps[k].kind == Tool && Ready(s.db.steps[k].status);
      DifferentRows(s.db.steps, i, k);
    }
  }

  /** A holder about to mark or record step `snap.id` is not looking at a finished row. */
  lemma HolderRowUnfinished(s: Sys, r: nat, i: nat)
    requires Core(s) && Holds(s, r) && Finished(s, i) && (s.runs[r].pc.ToolMark? || s.runs[r].pc.ToolDone?)
    ensures s.db.steps[i].id != s.runs[r].pc.snap.id
  {
    HolderFacts(s, r);
    var pc := s.runs[r].pc;
    var row := if pc.ToolMark? then pc.snap else MarkedRunning(pc.snap, pc.op);
    var k :| 0 <= k < |s.db.steps| && s.db.steps[k] == row;
    DifferentRows(s.db.steps, i, k);
  }

  lemma RunningRowUnfinished(s: Sys, x: StepId, i: nat)
    requires Distinct(s.db.steps) && HasRunningTool(s.db.steps, x) && Finished(s, i)
    ensures s.db.steps[i].id != x
  {
    var k :| 0 <= k < |s.db.steps| && s.db.steps[k].id == x && s.db.steps[k].status == StepRunning;
    DifferentRows(s.db.steps, i, k);
  }

  lemma ToolKeepsSuccess(s: Sys, r: nat, now: Time, out: Outcome, env: Env, i: nat)
    requires Core(s) && r < |s.runs| && Finished(s, i)
    ensures Finished(ToolNode(s, r, now, out, env), i)
  {
    var pc := s.runs[r].pc;
    if pc.ToolMark? || pc.ToolDone? {
      ToolWriteKeepsSuccess(s, r, now, out, env, i);
    } else if pc.PauseUnknown? || pc.PauseReview? {
      PauseKeepsSuccess(s, r, now, out, env, i);
    } else {
      ToolSameRows(s, r, now, out, env);
    }
  }

  lemma PauseKeepsSuccess(s: Sys, r: nat, now: Time, out: Outcome, env: Env, i: nat)
    requires Core(s) && r < |s.runs| && Finished(s, i) && (s.runs[r].pc.PauseUnknown? || s.runs[r].pc.PauseReview?)
    ensures Finished(ToolNode(s, r, now, out, env), i)
  {
    if CanPause(s.db, s.runs[r].token, now, s.runs[r].pc.step) {
      RunningRowUnfinished(s, s.runs[r].pc.step, i);
    }
  }

  lemma ToolWriteKeepsSuccess(s: Sys, r: nat, now: Time, out: Outcome, env: Env, i: nat)
    requires Core(s) && r < |s.runs| && Finished(s, i) && (s.runs[r].pc.ToolMark? || s.runs[r].pc.ToolDone?)
    ensures Finished(ToolNode(s, r, now, out, env), i)
  {
    if Fence(s.db.task, s.runs[r].token, now) {
      FenceMeansHolder(s, r, now);
      HolderRowUnfinished(s, r, i);
    }
  }

  lemma FinalKeepsSuccess(s: Sys, r: nat, now: Time, out: Outcome, env: Env, i: nat)
    requires Core(s) && r < |s.runs| && Finished(s, i)
    ensures Finished(FinalNode(s, r, now, out, env), i)
  {
    var pc := s.runs[r].pc;
    if (pc.FinalMark? || pc.FinalSave?) && Fence(s.db.task, s.runs[r].token, now) {
      FenceMeansHolder(s, r, now);
      NotToolRow(s.db, pc.step, Final);
    }
  }

  lemma FailureKeepsSuccess(s: Sys, r: nat, now: Time, out: Outcome, env: Env, i: nat)
    requires Core(s) && r < |s.runs| && Finished(s, i)
    requires !Overwrites(s, Advances(r, now, out, env), s.db.steps[i].id)
    ensures Finished(FailureNode(s, r, now, out, env), i)
  {
    var pc := s.runs[r].pc;
    if pc.FailRead? {
      assert FailureNode(s, r, now, out, env).db == s.db;
    } else if pc.FailUnknown? && CanPause(s.db, s.runs[r].token, now, pc.step) {
      RunningRowUnfinished(s, pc.step, i);
    } else if pc.FailRunStep? && Fence(s.db.task, s.runs[r].token, now) {
      FenceMeansHolder(s, r, now);
    }
  }

  lemma AdvanceKeepsSuccess(s: Sys, r: nat, now: Time, out: Outcome, env: Env, i: nat)
    requires Inv(s) && r < |s.runs| && Finished(s, i) && !Overwrites(s, Advances(r, now, out, env), s.db.steps[i].id)
    ensures Finished(Advance(s, r, now, out, env), i)
  {
    PlanKeepsSuccess(s, r, now, out, env, i);
    DispatchKeepsSuccess(s, r, now, out, env, i);
    ApprovalKeepsSuccess(s, r, now, out, env, i);
    ToolKeepsSuccess(s, r, now, out, env, i);
    FinalKeepsSuccess(s, r, now, out, env, i);
    FailureKeepsSuccess(s, r, now, out, env, i);
  }

  lemma ResumeKeepsSuccess(s: Sys, user: UserId, retryUnknown: bool, now: Time, i: nat)
    requires Inv(s) && Finished(s, i)
    ensures Finished(Step(s, Resumes(user, retryUnknown, now)), i)
  {
    var target := ResumeTarget(s.db, user, retryUnknown);
    if target.Some? {
      var k :| 0 <= k < |s.db.steps| && s.db.steps[k] == target.value;
      DifferentRows(s.db.steps, i, k);
    }
  }

  lemma StepKeepsSuccess(s: Sys, l: Label, i: nat)
    requires Inv(s) && Finished(s, i) && !Overwrites(s, l, s.db.steps[i].id)
    ensures Finished(Step(s, l), i)
  {
    match l
    case Advances(r, now, out, env) =>
      if r < |s.runs| {
        AdvanceKeepsSuccess(s, r, now, out, env, i);
      }
    case Approves(user, x, digest, now) => AwaitedUnfinished(s, x, i);
    case Rejects(user, x, now) => AwaitedUnfinished(s, x, i);
    case Resumes(user, retryUnknown, now) => ResumeKeepsSuccess(s, user, retryUnknown, now, i);
    case _ =>
  }

  lemma AwaitedUnfinished(s: Sys, x: StepId, i: nat)
    requires Distinct(s.db.steps) && Finished(s, i)
    ensures (exists k :: 0 <= k < |s.db.steps| && Awaits(s.db.steps[k], x)) ==> s.db.steps[i].id != x
  {
    if k :| 0 <= k < |s.db.steps| && Awaits(s.db.steps[k], x) {
      DifferentRows(s.db.steps, i, k);
    }
  }

  /** A finished tool step loses its success in exactly one way: its own run's ordinary-failure write lands on it. */
  lemma SuccessLostExactly(s: Sys, l: Label, i: nat)
    requires Reachable(s) && Finished(s, i)
    ensures Finished(Step(s, l), i) <==> !Overwrites(s, l, s.db.steps[i].id)
  {
    ReachableInv(s);
    if Overwrites(s, l, s.db.steps[i].id) {
      assert HasStep(s.db.steps, s.db.steps[i].id);
    } else {
      StepKeepsSuccess(s, l, i);
    }
  }

  lemma OverwritesOnlyReplayable(s: Sys, l: Label, i: nat)
    requires Core(s) && Finished(s, i) && Overwrites(s, l, s.db.steps[i].id)
    ensures Replayable(s.db.steps[i].policy)
  {
    FenceMeansHolder(s, l.run, l.now);
  }

  ghost predicate FinishedUnsafe(s: Sys, i: nat) {
    Finished(s, i) && !Replayable(s.db.steps[i].policy)
  }

  lemma StepKeepsPolicy(s: Sys, l: Label, i: nat)
    requires Inv(s) && FinishedUnsafe(s, i)
    ensures FinishedUnsafe(Step(s, l), i)
  {
    if Overwrites(s, l, s.db.steps[i].id) {
      OverwritesOnlyReplayable(s, l, i);
    }
    StepKeepsSuccess(s, l, i);
    if l.Advances? && l.run < |s.runs| {
      AdvancePolicy(s, l.run, l.now, l.out, l.env, i);
    }
  }

  lemma PlanPolicy(s: Sys, r: nat, now: Time, out: Outcome, env: Env, i: nat)
    requires Core(s) && r < |s.runs| && Finished(s, i)
    ensures i < |PlanNode(s, r, now, out, env).db.steps| && PlanNode(s, r, now, out, env).db.steps[i].policy == s.db.steps[i].policy
  {
    if s.runs[r].pc.PlanSave? && Fence(s.db.task, s.runs[r].token, now) {
      FenceMeansHolder(s, r, now);
    }
  }

  lemma ReviewPolicy(s: Sys, r: nat, now: Time, out: Outcome, env: Env, i: nat)
    requires Core(s) && r < |s.runs| && Finished(s, i) && s.runs[r].pc.PauseReview?
    ensures i < |ToolNode(s, r, now, out, env).db.steps| && ToolNode(s, r, now, out, env).db.steps[i].policy == s.db.steps[i].policy
  {
    if CanPause(s.db, s.runs[r].token, now, s.runs[r].pc.step) {
      RunningRowUnfinished(s, s.runs[r].pc.step, i);
    }
  }

  lemma CallPolicy(s: Sys, r: nat, now: Time, out: Outcome, env: Env, i: nat)
    requires r < |s.runs| && i < |s.db.steps| && !s.runs[r].pc.PauseReview?
    ensures i < |ToolNode(s, r, now, out, env).db.steps| && ToolNode(s, r, now, out, env).db.steps[i].policy == s.db.steps[i].policy
  {
    var pc := s.runs[r].pc;
    if !pc.ToolMark? && !pc.ToolDone? && !pc.PauseUnknown? {
      ToolSameRows(s, r, now, out, env);
    }
  }

  lemma ToolPolicy(s: Sys, r: nat, now: Time, out: Outcome, env: Env, i: nat)
    requires Core(s) && r < |s.runs| && Finished(s, i)
    ensures i < |ToolNode(s, r, now, out, env).db.steps| && ToolNode(s, r, now, out, env).db.steps[i].policy == s.db.steps[i].policy
  {
    if s.runs[r].pc.PauseReview? {
      ReviewPolicy(s, r, now, out, env, i);
    } else {
      CallPolicy(s, r, now, out, env, i);
    }
  }

  /** Only a policy review changes a policy, and it never reviews a finished step. */
  lemma AdvancePolicy(s: Sys, r: nat, now: Time, out: Outcome, env: Env, i: nat)
    requires Core(s) && r < |s.runs| && Finished(s, i)
    ensures i < |Advance(s, r, now, out, env).db.steps| && Advance(s, r, now, out, env).db.steps[i].policy == s.db.steps[i].policy
  {
    AdvanceKept(s, r, now, out, env);
    PlanPolicy(s, r, now, out, env, i);
    ToolPolicy(s, r, now, out, env, i);
    DispatchPolicy(s, r, now, out, env, i);
    ApprovalPolicy(s, r, now, out, env, i);
    FinalPolicy(s, r, now, out, env, i);
    FailurePolicy(s, r, now, out, env, i);
  }

  lemma DispatchPolicy(s: Sys, r: nat, now: Time, out: Outcome, env: Env, i: nat)
    requires r < |s.runs| && i < |s.db.steps|
    ensures i < |DispatchNode(s, r, now, out, env).db.steps| && DispatchNode(s, r, now, out, env).db.steps[i].policy == s.db.steps[i].policy
  {
  }

  lemma ApprovalPolicy(s: Sys, r: nat, now: Time, out: Outcome, env: Env, i: nat)
    requires r < |s.runs| && i < |s.db.steps|
    ensures i < |ApprovalNode(s, r, now, out, env).db.steps| && ApprovalNode(s, r, now, out, env).db.steps[i].policy == s.db.steps[i].policy
  {
  }

  lemma FinalPolicy(s: Sys, r: nat, now: Time, out: Outcome, env: Env, i: nat)
    requires r < |s.runs| && i < |s.db.steps|
    ensures i < |FinalNode(s, r, now, out, env).db.steps| && FinalNode(s, r, now, out, env).db.steps[i].policy == s.db.steps[i].policy
  {
  }

  lemma FailurePolicy(s: Sys, r: nat, now: Time, out: Outcome, env: Env, i: nat)
    requires r < |s.runs| && i < |s.db.steps|
    ensures i < |FailureNode(s, r, now, out, env).db.steps| && FailureNode(s, r, now, out, env).db.steps[i].policy == s.db.steps[i].policy
  {
    if s.runs[r].pc.FailRead? {
      assert FailureNode(s, r, now, out, env).db == s.db;
    }
  }

  lemma {:induction false} ExecUnsafeSuccess(s: Sys, labels: seq<Label>, i: nat)
    requires Inv(s) && FinishedUnsafe(s, i)
    ensures FinishedUnsafe(Exec(s, labels), i)
    decreases |labels|
  {
    if labels != [] {
      var before := labels[..|labels| - 1];
      ExecUnsafeSuccess(s, before, i);
      ExecInv(s, before);
      StepKeepsPolicy(Exec(s, before), labels[|labels| - 1], i);
    }
  }

  /** A finished step that must not be replayed stays finished for ever. */
  lemma UnsafeSuccessIsFinal(s: Sys, labels: seq<Label>, i: nat)
    requires Reachable(s) && FinishedUnsafe(s, i)
    ensures FinishedUnsafe(Exec(s, labels), i)
  {
    ReachableInv(s);
    ExecUnsafeSuccess(s, labels, i);
  }

  // ----- replay-safe steps: final unless the answer to a committed success write was lost -----

  /** A success write whose answer is lost. */
  predicate LosesSuccess(s: Sys, l: Label) {
    l.Advances? && l.run < |s.runs| && s.runs[l.run].pc.ToolDone? && l.out.AckLost?
  }

  ghost predicate NeverLosesSuccess(s: Sys, labels: seq<Label>)
    decreases |labels|
  {
    labels == [] ||
    (NeverLosesSuccess(s, labels[..|labels| - 1]) && !LosesSuccess(Exec(s, labels[..|labels| - 1]), labels[|labels| - 1]))
  }

  /** A holder about to record a failure has not recorded a success. */
  ghost predicate HonestFailure(s: Sys) {
    s.db.task.leaseOwner.Some? && LastPc(s.runs).FailStep? ==>
      forall i :: 0 <= i < |s.db.steps| && s.db.steps[i].kind == Tool && s.db.steps[i].id == LastPc(s.runs).step ==>
        s.db.steps[i].status == StepRunning
  }

  lemma ToolHonest(s: Sys, r: nat, now: Time, out: Outcome, env: Env)
    requires Core(s) && Holds(s, r) && (s.runs[r].pc.ToolArmed? || (s.runs[r].pc.ToolDone? && !out.AckLost?))
    ensures HonestFailure(ToolNode(s, r, now, out, env))
  {
    HolderFacts(s, r);
    var snap, op := s.runs[r].pc.snap, s.runs[r].pc.op;
    var s' := ToolNode(s, r, now, out, env);
    if LastPc(s'.runs).FailStep? {
      var k :| 0 <= k < |s.db.steps| && s.db.steps[k] == MarkedRunning(snap, op);
      forall i | 0 <= i < |s'.db.steps| && s'.db.steps[i].kind == Tool && s'.db.steps[i].id == LastPc(s'.runs).step
        ensures s'.db.steps[i].status == StepRunning
      {
        UniqueRow(s.db.steps, i, k);
      }
    }
  }

  lemma FailEntry(s: Sys, r: nat, now: Time, out: Outcome, env: Env)
    requires r < |s.runs| && !s.runs[r].pc.ToolArmed? && !s.runs[r].pc.ToolDone? && !s.runs[r].pc.FinalSave?
    ensures var s' := Advance(s, r, now, out, env); r < |s'.runs| ==> !s'.runs[r].pc.FailStep?
  {
    PlanEntry(s, r, now, out, env);
    FailureEntry(s, r, now, out, env);
    GateEntry(s, r, now, out, env);
    FinalEntry(s, r, now, out, env);
    ToolEntry(s, r, now, out, env);
  }

  lemma PlanEntry(s: Sys, r: nat, now: Time, out: Outcome, env: Env)
    requires r < |s.runs|
    ensures PlanNode(s, r, now, out, env).runs[r].pc.FailStep? ==> PlanNode(s, r, now, out, env) == s
  {
  }

  lemma FailureEntry(s: Sys, r: nat, now: Time, out: Outcome, env: Env)
    requires r < |s.runs|
    ensures FailureNode(s, r, now, out, env).runs[r].pc.FailStep? ==> FailureNode(s, r, now, out, env) == s
  {
    FailureMoves(s, r, now, out, env);
  }

  lemma GateEntry(s: Sys, r: nat, now: Time, out: Outcome, env: Env)
    requires r < |s.runs|
    ensures DispatchNode(s, r, now, out, env).runs[r].pc.FailStep? ==> DispatchNode(s, r, now, out, env) == s
    ensures ApprovalNode(s, r, now, out, env).runs[r].pc.FailStep? ==> ApprovalNode(s, r, now, out, env) == s
  {
  }

  lemma FinalEntry(s: Sys, r: nat, now: Time, out: Outcome, env: Env)
    requires r < |s.runs| && !s.runs[r].pc.FinalSave?
    ensures FinalNode(s, r, now, out, env).runs[r].pc.FailStep? ==> FinalNode(s, r, now, out, env) == s
  {
  }

  lemma ToolEntry(s: Sys, r: nat, now: Time, out: Outcome, env: Env)
    requires r < |s.runs| && !s.runs[r].pc.ToolArmed? && !s.runs[r].pc.ToolDone?
    ensures ToolNode(s, r, now, out, env).runs[r].pc.FailStep? ==> ToolNode(s, r, now, out, env) == s
  {
  }

  lemma HolderHonest(s: Sys, r: nat, now: Time, out: Outcome, env: Env)
    requires Core(s) && Holds(s, r) && !LosesSuccess(s, Advances(r, now, out, env))
    ensures HonestFailure(Advance(s, r, now, out, env))
  {
    var s' := Advance(s, r, now, out, env);
    HolderFacts(s, r);
    if s.runs[r].pc.ToolArmed? || s.runs[r].pc.ToolDone? {
      ToolHonest(s, r, now, out, env);
    } else if s.runs[r].pc.FinalSave? {
      NotToolRow(s.db, s.runs[r].pc.step, Final);
      FinalHonest(s, r, now, out, env);
    } else {
      OtherHonest(s, r, now, out, env);
    }
  }

  lemma OtherHonest(s: Sys, r: nat, now: Time, out: Outcome, env: Env)
    requires Core(s) && Holds(s, r)
    requires !s.runs[r].pc.ToolArmed? && !s.runs[r].pc.ToolDone? && !s.runs[r].pc.FinalSave?
    ensures HonestFailure(Advance(s, r, now, out, env))
  {
    HolderFacts(s, r);
    AdvanceFenced(s, r, now, out, env);
    FailEntry(s, r, now, out, env);
  }

  lemma FinalHonest(s: Sys, r: nat, now: Time, out: Outcome, env: Env)
    requires r == |s.runs| - 1 && s.runs[r].pc.FinalSave?
    requires forall i :: 0 <= i < |s.db.steps| && s.db.steps[i].id == s.runs[r].pc.step ==> s.db.steps[i].kind != Tool
    ensures HonestFailure(FinalNode(s, r, now, out, env))
  {
  }

  lemma AdvanceHonest(s: Sys, r: nat, now: Time, out: Outcome, env: Env)
    requires Inv(s) && HonestFailure(s) && r < |s.runs| && !LosesSuccess(s, Advances(r, now, out, env))
    ensures HonestFailure(Advance(s, r, now, out, env))
  {
    if Holds(s, r) {
      HolderHonest(s, r, now, out, env);
    } else {
      StaleHonest(s, r, now, out, env);
    }
  }

  lemma StaleHonest(s: Sys, r: nat, now: Time, out: Outcome, env: Env)
    requires Core(s) && HonestFailure(s) && r < |s.runs| && !Holds(s, r)
    ensures HonestFailure(Advance(s, r, now, out, env))
  {
    var s' := Advance(s, r, now, out, env);
    AdvanceFenced(s, r, now, out, env);
    if Fence(s.db.task, s.runs[r].token, now) {
      FenceMeansHolder(s, r, now);
    }
    OnlyOwnPc(s, r, now, out, env);
    if s.db.task.leaseOwner.Some? {
      assert r != |s.runs| - 1;
      assert LastPc(s'.runs) == LastPc(s.runs);
    }
  }

  lemma OwnPc(s: Sys, r: nat, now: Time, out: Outcome, env: Env)
    requires r < |s.runs| && (s.runs[r].pc.ToolMark? || s.runs[r].pc.ToolArmed?)
    ensures forall q :: 0 <= q < |s.runs| && q != r ==> ToolNode(s, r, now, out, env).runs[q].pc == s.runs[q].pc
  {
  }

  lemma OnlyOwnPc(s: Sys, r: nat, now: Time, out: Outcome, env: Env)
    requires r < |s.runs|
    ensures |Advance(s, r, now, out, env).runs| == |s.runs|
    ensures forall q :: 0 <= q < |s.runs| && q != r ==> Advance(s, r, now, out, env).runs[q].pc == s.runs[q].pc
  {
    AdvanceFenced(s, r, now, out, env);
    if s.runs[r].pc.ToolMark? || s.runs[r].pc.ToolArmed? {
      OwnPc(s, r, now, out, env);
    } else {
      QuietAdvance(s, r, now, out, env);
    }
  }

  lemma StepHonest(s: Sys, l: Label)
    requires Inv(s) && HonestFailure(s) && !LosesSuccess(s, l)
    ensures HonestFailure(Step(s, l))
  {
    match l
    case Advances(r, now, out, env) =>
      if r < |s.runs| {
        AdvanceHonest(s, r, now, out, env);
      }
    case _ =>
  }

  lemma {:induction false} ExecHonest(s: Sys, labels: seq<Label>)
    requires Inv(s) && HonestFailure(s) && NeverLosesSuccess(s, labels)
    ensures HonestFailure(Exec(s, labels))
    decreases |labels|
  {
    if labels != [] {
      var before := labels[..|labels| - 1];
      ExecHonest(s, before);
      ExecInv(s, before);
      StepHonest(Exec(s, before), labels[|labels| - 1]);
    }
  }

  /** If no committed success write loses its answer, every finished tool step stays finished. */
  lemma {:induction false} SuccessIsFinal(s: Sys, labels: seq<Label>, i: nat)
    requires Inv(s) && HonestFailure(s) && NeverLosesSuccess(s, labels) && Finished(s, i)
    ensures Finished(Exec(s, labels), i)
    decreases |labels|
  {
    if labels != [] {
      var before := labels[..|labels| - 1];
      var mid := Exec(s, before);
      SuccessIsFinal(s, before, i);
      ExecInv(s, before);
      ExecHonest(s, before);
      if Overwrites(mid, labels[|labels| - 1], mid.db.steps[i].id) {
        FenceMeansHolder(mid, labels[|labels| - 1].run, labels[|labels| - 1].now);
      }
      StepKeepsSuccess(mid, labels[|labels| - 1], i);
    }
  }

  /** The same from the start of the task: a success recorded by then is there for good. */
  lemma SuccessIsFinalFromStart(user: UserId, planId: StepId, now: Time, first: seq<Label>, rest: seq<Label>, i: nat)
    requires var s := Exec(Init(user, planId, now), first);
             NeverLosesSuccess(Init(user, planId, now), first) && NeverLosesSuccess(s, rest) && Finished(s, i)
    ensures Finished(Exec(Exec(Init(user, planId, now), first), rest), i)
  {
    InitInv(user, planId, now);
    ExecInv(Init(user, planId, now), first);
    ExecHonest(Init(user, planId, now), first);
    SuccessIsFinal(Exec(Init(user, planId, now), first), rest, i);
  }

  // ----- calls after success -----

  lemma ArmingKeepsAway(s: Sys, r: nat, now: Time, out: Outcome, env: Env, i: nat)
    requires Inv(s) && Finished(s, i) && r < |s.runs|
    ensures var s' := Advance(s, r, now, out, env);
            r < |s'.runs| && s'.runs[r].pc.ToolArmed? && s'.runs[r].pc.snap.id == s.db.steps[i].id ==> s'.runs[r].pc == s.runs[r].pc
  {
    if s.runs[r].pc.ToolMark? {
      if Fence(s.db.task, s.runs[r].token, now) {
        FenceMeansHolder(s, r, now);
        HolderRowUnfinished(s, r, i);
      }
    } else if !s.runs[r].pc.ToolArmed? {
      QuietAdvance(s, r, now, out, env);
    }
  }

  /** No run gets ready to call a finished step; a call that still leaves comes from a run armed before. */
  lemma NoNewCallAfterSuccess(s: Sys, l: Label, i: nat, r: nat)
    requires Reachable(s) && Finished(s, i)
    requires r < |Step(s, l).runs| && Step(s, l).runs[r].pc.ToolArmed? && Step(s, l).runs[r].pc.snap.id == s.db.steps[i].id
    ensures r < |s.runs| && s.runs[r].pc == Step(s, l).runs[r].pc
  {
    ReachableInv(s);
    if l.Advances? && l.run < |s.runs| {
      OnlyOwnPc(s, l.run, l.now, l.out, l.env);
      ArmingKeepsAway(s, l.run, l.now, l.out, l.env, i);
    }
  }
}
