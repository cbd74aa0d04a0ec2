/** Which failed and parked tasks their owner can still resume, and which lost write makes a failure final. */
module AgentResume {
  import opened Options
  import opened AgentRows
  import opened AgentSystem
  import opened AgentTheorems

  predicate Failing(row: StepRow) {
    row.status == StepFailed || row.status == StepUnknown
  }

  predicate ToBlame(row: StepRow, current: Option<StepId>) {
    Failing(row) && (current.None? || current.value == row.id)
  }

  /** The current step, or any step when none is current, has failed or has an unknown outcome. */
  ghost predicate Blamed(db: Db) {
    exists i :: 0 <= i < |db.steps| && ToBlame(db.steps[i], db.task.current)
  }

  predicate Parked(status: TaskStatus) {
    status == Failed || status == RequiresReview
  }

  /** The owner's resume, unknown outcomes confirmed, is accepted. */
  predicate CanResume(db: Db) {
    ResumeTarget(db, db.task.user, true).Some?
  }

  lemma ResumeNeedsBlame(db: Db)
    requires Parked(db.task.status)
    ensures CanResume(db) <==> Blamed(db)
    ensures CanResume(db) <==> exists retryUnknown: bool :: ResumeTarget(db, db.task.user, retryUnknown).Some?
  {
    assert forall i :: 0 <= i < |db.steps| ==>
      (Resumable(db.steps[i], db.task.current, true) <==> ToBlame(db.steps[i], db.task.current));
    if CanResume(db) {
      var row := ResumeTarget(db, db.task.user, true).value;
      var i :| 0 <= i < |db.steps| && db.steps[i] == row;
      assert ToBlame(db.steps[i], db.task.current);
    }
    if exists retryUnknown: bool :: ResumeTarget(db, db.task.user, retryUnknown).Some? {
      var retryUnknown: bool :| ResumeTarget(db, db.task.user, retryUnknown).Some?;
      var row := ResumeTarget(db, db.task.user, retryUnknown).value;
      var i :| 0 <= i < |db.steps| && db.steps[i] == row;
      assert ToBlame(db.steps[i], db.task.current);
    }
  }

  // ----- a parked task waits for its owner -----

  /** The service refuses to cancel a failed task, so only the other transitions remain. */
  predicate NoCancel(labels: seq<Label>) {
    forall k :: 0 <= k < |labels| ==> !labels[k].Cancels?
  }

  lemma ParkedWaits(s: Sys, l: Label)
    requires Inv(s) && Parked(s.db.task.status) && !l.Cancels?
    ensures OnlyCheckpoint(s.db, Step(s, l).db) || (l.Resumes? && CanResume(s.db))
  {
    match l
    case Advances(r, now, out, env) =>
      if r < |s.runs| {
        AdvanceFenced(s, r, now, out, env);
      }
    case Resumes(user, retryUnknown, now) => ResumeNeedsBlame(s.db);
    case _ =>
  }

  lemma {:induction false} StuckStays(s: Sys, labels: seq<Label>)
    requires Inv(s) && Parked(s.db.task.status) && !CanResume(s.db) && NoCancel(labels)
    ensures OnlyCheckpoint(s.db, Exec(s, labels).db)
    decreases |labels|
  {
    if labels != [] {
      var before := labels[..|labels| - 1];
      var mid := Exec(s, before);
      StuckStays(s, before);
      ExecInv(s, before);
      ResumeNeedsBlame(s.db);
      ResumeNeedsBlame(mid.db);
      ParkedWaits(mid, labels[|labels| - 1]);
    }
  }

  /** Some continuation without a cancellation takes the task out of its state. */
  ghost predicate CanLeave(s: Sys) {
    exists labels :: NoCancel(labels) && Exec(s, labels).db.task.status != s.db.task.status
  }

  /** A failed or parked task ever moves again if and only if its current step has failed or is unknown. */
  lemma ParkedLeavesExactly(s: Sys)
    requires Reachable(s) && Parked(s.db.task.status)
    ensures CanLeave(s) <==> Blamed(s.db)
  {
    ReachableInv(s);
    ResumeNeedsBlame(s.db);
    if CanLeave(s) {
      var labels :| NoCancel(labels) && Exec(s, labels).db.task.status != s.db.task.status;
      if !CanResume(s.db) {
        StuckStays(s, labels);
      }
    }
    if Blamed(s.db) {
      var l := Resumes(s.db.task.user, true, 0);
      assert [l][..0] == [];
      assert Exec(s, [l]) == Step(s, l);
      assert NoCancel([l]);
    }
  }

  // ----- a task under review can always be resumed -----

  ghost predicate ReviewInv(s: Sys) {
    s.db.task.status == RequiresReview ==> Blamed(s.db)
  }

  lemma PauseBlames(s: Sys, r: nat, now: Time, out: Outcome, env: Env)
    requires r < |s.runs| && (s.runs[r].pc.PauseUnknown? || s.runs[r].pc.PauseReview?) && ReviewInv(s)
    ensures ReviewInv(ToolNode(s, r, now, out, env))
  {
    var s' := ToolNode(s, r, now, out, env);
    var x := s.runs[r].pc.step;
    if CanPause(s.db, s.runs[r].token, now, x) && !out.Refused? {
      var i :| 0 <= i < |s.db.steps| && s.db.steps[i].id == x && s.db.steps[i].kind == Tool && s.db.steps[i].status == StepRunning;
      assert ToBlame(s'.db.steps[i], s'.db.task.current);
    }
  }

  lemma FailUnknownBlames(s: Sys, r: nat, now: Time, out: Outcome, env: Env)
    requires r < |s.runs| && s.runs[r].pc.FailUnknown? && ReviewInv(s)
    ensures ReviewInv(FailureNode(s, r, now, out, env))
  {
    var s' := FailureNode(s, r, now, out, env);
    var x := s.runs[r].pc.step;
    if CanPause(s.db, s.runs[r].token, now, x) && !out.Refused? {
      var i :| 0 <= i < |s.db.steps| && s.db.steps[i].id == x && s.db.steps[i].kind == Tool && s.db.steps[i].status == StepRunning;
      assert ToBlame(s'.db.steps[i], s'.db.task.current);
    }
  }

  /** No other node of a worker parks the task for review. */
  lemma OthersDoNotReview(s: Sys, r: nat, now: Time, out: Outcome, env: Env)
    requires r < |s.runs| && s.db.task.status != RequiresReview
    ensures PlanNode(s, r, now, out, env).db.task.status != RequiresReview
    ensures DispatchNode(s, r, now, out, env).db.task.status != RequiresReview
  {
  }

  lemma EndsDoNotReview(s: Sys, r: nat, now: Time, out: Outcome, env: Env)
    requires r < |s.runs| && s.db.task.status != RequiresReview
    ensures ApprovalNode(s, r, now, out, env).db.task.status != RequiresReview
    ensures FinalNode(s, r, now, out, env).db.task.status != RequiresReview
  {
  }

  lemma ToolDoesNotReview(s: Sys, r: nat, now: Time, out: Outcome, env: Env)
    requires r < |s.runs| && s.db.task.status != RequiresReview && !s.runs[r].pc.PauseUnknown? && !s.runs[r].pc.PauseReview?
    ensures ToolNode(s, r, now, out, env).db.task.status != RequiresReview
  {
  }

  lemma FailureDoesNotReview(s: Sys, r: nat, now: Time, out: Outcome, env: Env)
    requires r < |s.runs| && s.db.task.status != RequiresReview && !s.runs[r].pc.FailUnknown?
    ensures FailureNode(s, r, now, out, env).db.task.status != RequiresReview
  {
  }

  lemma AdvanceReview(s: Sys, r: nat, now: Time, out: Outcome, env: Env)
    requires Inv(s) && ReviewInv(s) && r < |s.runs|
    ensures ReviewInv(Advance(s, r, now, out, env))
  {
    if s.db.task.status == RequiresReview {
      AdvanceFenced(s, r, now, out, env);
    } else if s.runs[r].pc.PauseUnknown? || s.runs[r].pc.PauseReview? {
      PauseBlames(s, r, now, out, env);
    } else if s.runs[r].pc.FailUnknown? {
      FailUnknownBlames(s, r, now, out, env);
    } else {
      OthersDoNotReview(s, r, now, out, env);
      EndsDoNotReview(s, r, now, out, env);
      ToolDoesNotReview(s, r, now, out, env);
      FailureDoesNotReview(s, r, now, out, env);
    }
  }

  /** The blame of a stale task falls on a running step that must not be replayed, if there is one. */
  lemma {:induction false} BlameRunning(steps: seq<StepRow>, current: Option<StepId>)
    requires AnyUncertain(steps)
    ensures exists i :: 0 <= i < |steps| && UncertainRow(steps[i]) && RecoveredCurrent(steps, current) == Some(steps[i].id)
  {
    var next := if steps[0].status == StepRunning && (current.None? || !ReplayAfterCrash(steps[0])) then Some(steps[0].id) else current;
    if AnyUncertain(steps[1..]) {
      BlameRunning(steps[1..], next);
      var i :| 0 <= i < |steps[1..]| && UncertainRow(steps[1..][i]) && RecoveredCurrent(steps[1..], next) == Some(steps[1..][i].id);
      assert UncertainRow(steps[i + 1]);
    } else {
      var rest := steps[1..];
      assert forall i :: 0 <= i < |rest| ==> !UncertainRow(rest[i]);
      assert UncertainRow(steps[0]);
      NoMoreBlame(steps[1..], steps[0].id);
    }
  }

  lemma {:induction false} NoMoreBlame(steps: seq<StepRow>, x: StepId)
    requires forall i :: 0 <= i < |steps| ==> !UncertainRow(steps[i])
    ensures RecoveredCurrent(steps, Some(x)) == Some(x)
  {
    if steps != [] {
      NoMoreBlame(steps[1..], x);
    }
  }

  lemma RecoverReview(s: Sys, now: Time, before: Time)
    requires ReviewInv(s)
    ensures ReviewInv(Step(s, Recovers(now, before)))
  {
    var db' := Recover(s.db, now, before);
    if Stale(s.db.task, now, before) && AnyUncertain(s.db.steps) {
      BlameRunning(s.db.steps, s.db.task.current);
      var i :| 0 <= i < |s.db.steps| && UncertainRow(s.db.steps[i])
               && RecoveredCurrent(s.db.steps, s.db.task.current) == Some(s.db.steps[i].id);
      assert ToBlame(db'.steps[i], db'.task.current);
    }
  }

  lemma StepReview(s: Sys, l: Label)
    requires Inv(s) && ReviewInv(s)
    ensures ReviewInv(Step(s, l))
  {
    match l
    case Advances(r, now, out, env) =>
      if r < |s.runs| {
        AdvanceReview(s, r, now, out, env);
      }
    case Recovers(now, before) => RecoverReview(s, now, before);
    case _ =>
  }

  lemma {:induction false} ExecReview(s: Sys, labels: seq<Label>)
    requires Inv(s) && ReviewInv(s)
    ensures ReviewInv(Exec(s, labels))
    decreases |labels|
  {
    if labels != [] {
      var before := labels[..|labels| - 1];
      ExecReview(s, before);
      ExecInv(s, before);
      StepReview(Exec(s, before), labels[|labels| - 1]);
    }
  }

  /** A task parked for review can always be resumed by its owner. */
  lemma ReviewCanResume(s: Sys)
    requires Reachable(s) && s.db.task.status == RequiresReview
    ensures CanResume(s.db)
  {
    var user, planId, now, labels :| s == Exec(Init(user, planId, now), labels);
    InitInv(user, planId, now);
    ExecReview(Init(user, planId, now), labels);
    ResumeNeedsBlame(s.db);
  }

  // ----- the write whose loss makes a failure final -----

  /** The state after a run records its step's failure with outcome `out` and then the task's. */
  function AfterFailure(s: Sys, r: nat, now: Time, out: Outcome, env: Env): Sys
    requires r < |s.runs|
  {
    var recorded := FailureNode(s, r, now, out, env);
    if r < |recorded.runs| then FailureNode(recorded, r, now, Committed, env) else recorded
  }

  ghost predicate StepBlamed(db: Db, x: StepId) {
    exists i :: 0 <= i < |db.steps| && db.steps[i].id == x && Failing(db.steps[i])
  }

  /** One of the two failure recorders of a run that still holds the lease, about to record step `x`. */
  predicate RecordsFailure(s: Sys, r: nat, now: Time, x: StepId) {
    && r < |s.runs| && (s.runs[r].pc == FailStep(x) || s.runs[r].pc == FailRunStep(x))
    && CanUpdateStep(s.db, s.runs[r].token, now, x)
  }

  lemma RecordedStep(s: Sys, r: nat, now: Time, out: Outcome, env: Env, x: StepId)
    requires RecordsFailure(s, r, now, x)
    ensures var mid := FailureNode(s, r, now, out, env);
            && mid.db.task == s.db.task && |mid.runs| == |s.runs| && mid.runs[r].token == s.runs[r].token
            && mid.runs[r].pc == (if s.runs[r].pc.FailStep? then FailTask else FailRunTask(Some(x)))
            && mid.db.steps == (if out.Refused? then s.db.steps else PatchRows(s.db.steps, x, JustStatus(StepFailed)))
  {
  }

  lemma RecordedTask(s: Sys, r: nat, now: Time, env: Env, x: StepId)
    requires r < |s.runs| && Fence(s.db.task, s.runs[r].token, now) && s.db.task.current == Some(x)
    requires s.runs[r].pc == FailTask || s.runs[r].pc == FailRunTask(Some(x))
    ensures var s' := FailureNode(s, r, now, Committed, env);
            s'.db.task.status == Failed && s'.db.task.current == Some(x) && s'.db.steps == s.db.steps
  {
  }

  /**
   When a run records the failure of the current step and then of the task, the task can be resumed if and only if
   the step write landed, or the step had already failed: a refused step write leaves the failed task stuck.
   */
  lemma LostStepWriteStrands(s: Sys, r: nat, now: Time, out: Outcome, env: Env, x: StepId)
    requires RecordsFailure(s, r, now, x) && s.db.task.current == Some(x)
    ensures var s' := AfterFailure(s, r, now, out, env);
            s'.db.task.status == Failed && (CanResume(s'.db) <==> !out.Refused? || StepBlamed(s.db, x))
  {
    var mid := FailureNode(s, r, now, out, env);
    RecordedStep(s, r, now, out, env, x);
    RecordedTask(mid, r, now, env, x);
    var s' := AfterFailure(s, r, now, out, env);
    ResumeNeedsBlame(s'.db);
    if !out.Refused? {
      var i :| 0 <= i < |s.db.steps| && s.db.steps[i].id == x;
      assert ToBlame(s'.db.steps[i], s'.db.task.current);
    } else if StepBlamed(s.db, x) {
      var i :| 0 <= i < |s.db.steps| && s.db.steps[i].id == x && Failing(s.db.steps[i]);
      assert ToBlame(s'.db.steps[i], s'.db.task.current);
    }
    if Blamed(s'.db) && out.Refused? {
      var i :| 0 <= i < |s'.db.steps| && ToBlame(s'.db.steps[i], s'.db.task.current);
      assert StepBlamed(s.db, x);
    }
  }
}
