/** A tool whose trusted policy has changed since planning is not called: its step is parked for review. */
module AgentPolicy {
  import opened Options
  import opened AgentRows
  import opened AgentSystem
  import opened AgentInvariant
  import opened AgentTheorems
  import opened AgentOrder

  /** With all earlier checks passed, a changed policy makes the run turn to the review instead of the call. */
  lemma ChangedPolicyIsNotCalled(s: Sys, r: nat, now: Time, out: Outcome, env: Env)
    requires r < |s.runs| && s.runs[r].pc.ToolArmed? && env.ready
    requires s.runs[r].pc.snap.digest == Sha256(s.runs[r].pc.snap.arguments) && env.policy != s.runs[r].pc.snap.policy
    ensures var s' := Step(s, Advances(r, now, out, env));
            && s'.log == s.log && s'.db == s.db && |s'.runs| == |s.runs|
            && s'.runs[r].pc == PauseReview(s.runs[r].pc.snap.id, env.policy)
  {
  }

  /** The run still owns the task: its version, its name and an unexpired lease are on record. */
  predicate StillOwns(s: Sys, r: nat, now: Time) {
    && r < |s.runs| && s.db.task.runVersion == s.runs[r].token.version
    && s.db.task.leaseOwner == Some(s.runs[r].token.worker)
    && s.db.task.leaseUntil.Some? && s.db.task.leaseUntil.value > now
  }

  /** Step `x` is parked with the policy the registry has now, undecided, and the task waits for its owner. */
  ghost predicate Parked(before: Db, after: Db, x: StepId, policy: Policy) {
    && after.task.status == RequiresReview && after.task.current == Some(x)
    && after.task.runVersion == before.task.runVersion + 1 && after.task.leaseOwner == None && after.task.leaseUntil == None
    && |after.steps| == |before.steps|
    && (exists i :: 0 <= i < |after.steps| && after.steps[i].id == x)
    && forall i :: 0 <= i < |after.steps| ==>
         after.steps[i] == if before.steps[i].id != x then before.steps[i]
                           else before.steps[i].(status := StepUnknown, decision := Undecided, policy := policy)
  }

  /** The run that is bound to report still holds a running tool step. */
  lemma ReviewMayPause(s: Sys, r: nat, now: Time)
    requires Reachable(s) && StillOwns(s, r, now) && s.runs[r].pc.PauseReview?
    ensures CanPause(s.db, s.runs[r].token, now, s.runs[r].pc.step)
  {
    ReachableInv(s);
    ReachableOrder(s);
    FenceMeansHolder(s, r, now);
    HolderOrder(s, r);
  }

  /** However much later the review is recorded, as long as the run still owns the task it parks the step. */
  lemma ReviewIsRecorded(s: Sys, r: nat, now: Time, out: Outcome, env: Env)
    requires Reachable(s) && StillOwns(s, r, now) && s.runs[r].pc.PauseReview? && !out.Refused?
    ensures Parked(s.db, Step(s, Advances(r, now, out, env)).db, s.runs[r].pc.step, s.runs[r].pc.policy)
  {
    ReviewMayPause(s, r, now);
    PauseReviewIs(s, r, now, out, env);
    ReviewParks(s.db, s.runs[r].token, now, s.runs[r].pc.step, s.runs[r].pc.policy);
  }

  lemma ReviewParks(db: Db, token: Token, now: Time, x: StepId, policy: Policy)
    requires CanPause(db, token, now, x)
    ensures Parked(db, MarkPolicyReview(db, token, now, x, policy), x, policy)
  {
    var i :| 0 <= i < |db.steps| && db.steps[i].id == x && db.steps[i].kind == Tool && db.steps[i].status == StepRunning;
    assert MarkPolicyReview(db, token, now, x, policy).steps[i].id == x;
  }
}
