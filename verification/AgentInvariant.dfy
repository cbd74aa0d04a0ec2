/**
 The structural invariant of the Agent protocol and its preservation by every transition.

 At most one run, the latest one, can hold the lease; only for that run does the database still
 say what the run's program counter assumes. Nothing is assumed of any other run.
 */
module AgentInvariant {
  import opened Options
  import opened AgentRows
  import opened AgentRouting
  import opened AgentSystem

  ghost predicate Distinct(steps: seq<StepRow>) {
    forall i, j :: 0 <= i < j < |steps| ==> steps[i].id != steps[j].id
  }

  /** A planning step, then either nothing or tool steps followed by one final step. */
  ghost predicate Shape(steps: seq<StepRow>) {
    && |steps| >= 1 && steps[0].kind == Plan
    && Distinct(steps)
    && (forall i :: 1 <= i < |steps| - 1 ==> steps[i].kind == Tool)
    && (|steps| > 1 ==> steps[|steps| - 1].kind == Final)
  }

  /** The lease is held exactly while planning or running, and only by the latest claim. */
  ghost predicate LeaseInv(s: Sys) {
    && (s.db.task.leaseOwner.Some? <==> LeaseStatus(s.db.task.status))
    && (forall r :: 0 <= r < |s.runs| ==> s.runs[r].token.version <= s.db.task.runVersion)
    && (forall q, r :: 0 <= q < r < |s.runs| ==> s.runs[q].token.version < s.runs[r].token.version)
    && (forall r :: 0 <= r < |s.runs| ==> s.runs[r].claimAt <= |s.log|)
    && (s.db.task.leaseOwner.Some? ==>
          && |s.runs| > 0
          && s.runs[|s.runs| - 1].token == Token(s.db.task.runVersion, s.db.task.leaseOwner.value))
  }

  ghost predicate NoneRunning(steps: seq<StepRow>) {
    forall i :: 0 <= i < |steps| ==> steps[i].status != StepRunning
  }

  ghost predicate OnlyRunning(steps: seq<StepRow>, x: Option<StepId>) {
    forall i :: 0 <= i < |steps| && steps[i].status == StepRunning ==> x == Some(steps[i].id)
  }

  /** A running step is the current one, and the task then is running, planning or failed. */
  ghost predicate RunningInv(db: Db) {
    && OnlyRunning(db.steps, db.task.current)
    && (db.task.status !in {Running, Planning, Failed} ==> NoneRunning(db.steps))
  }

  ghost predicate CurrentReady(db: Db) {
    forall i :: 0 <= i < |db.steps| && CurrentTool(db.steps[i], db.task.current) ==> Ready(db.steps[i].status)
  }

  /** A checkpoint at the approval gate survives, or can still be written, only after an approval. */
  ghost predicate CheckpointInv(s: Sys) {
    s.db.task.status == Pending ==>
      && (s.db.task.checkpoint == Some(AtApproval) ==> CurrentReady(s.db))
      && (|s.runs| > 0 && s.runs[|s.runs| - 1].token.version == s.db.task.runVersion ==> CurrentReady(s.db))
  }

  ghost predicate RowIs(db: Db, x: StepId, kind: Kind) {
    exists i :: 0 <= i < |db.steps| && db.steps[i].id == x && db.steps[i].kind == kind
  }

  ghost predicate ToolReady(db: Db, x: StepId) {
    exists i :: 0 <= i < |db.steps| && db.steps[i].id == x && db.steps[i].kind == Tool && Ready(db.steps[i].status)
  }

  function MarkedRunning(snap: StepRow, op: OpId): StepRow {
    snap.(status := StepRunning, operationId := Some(op))
  }

  /** A tool row its own run may be about to overwrite with a failure. */
  predicate FailureExpected(row: StepRow) {
    row.status == StepRunning || (row.status == StepSucceeded && Replayable(row.policy))
  }

  /** What the database still says when the lease holder is at `pc`. */
  ghost predicate Facts(db: Db, pc: Pc) {
    match pc
    case Loading(_) =>
      NoneRunning(db.steps) && (db.task.checkpoint == Some(AtApproval) ==> CurrentReady(db))
    case PlanRead => NoneRunning(db.steps)
    case PlanMark(x) => NoneRunning(db.steps) && |db.steps| == 1 && db.steps[0].id == x
    case PlanRun(x) =>
      NoneRunning(db.steps) && |db.steps| == 1 && db.steps[0].id == x && db.task.current == Some(x)
    case PlanSave => |db.steps| == 1
    case Saving(node) => NoneRunning(db.steps) && node == AtDispatch
    case DispatchCheck => NoneRunning(db.steps)
    case DispatchRoute => NoneRunning(db.steps)
    case DispatchPersist(x, route) =>
      NoneRunning(db.steps) &&
      if route == ToFinalize then FirstFinal(db.steps).Some? && FirstFinal(db.steps).value.id == x else ToolReady(db, x)
    case ApprovalRead => NoneRunning(db.steps) && CurrentReady(db)
    case ApprovalStep(x) => NoneRunning(db.steps) && ToolReady(db, x) && db.task.current == Some(x)
    case ApprovalTask(x) => NoneRunning(db.steps) && ToolReady(db, x) && db.task.current == Some(x)
    case ToolRead => NoneRunning(db.steps) && CurrentReady(db)
    case ToolMark(snap, op) =>
      && NoneRunning(db.steps) && db.task.current == Some(snap.id)
      && snap in db.steps && snap.kind == Tool && Ready(snap.status)
      && (snap.operationId.Some? ==> snap.operationId == Some(op))
      && (snap.policy.requiresApproval ==> snap.decision == Approved)
    case ToolArmed(snap, op) =>
      db.task.current == Some(snap.id) && MarkedRunning(snap, op) in db.steps && snap.kind == Tool
    case ToolDone(snap, op) =>
      db.task.current == Some(snap.id) && MarkedRunning(snap, op) in db.steps && snap.kind == Tool
    case ToolTask => NoneRunning(db.steps)
    case FailStep(x) =>
      && db.task.current == Some(x)
      && forall i :: 0 <= i < |db.steps| && db.steps[i].id == x && db.steps[i].kind == Tool ==>
           FailureExpected(db.steps[i])
    case FinalRead =>
      && NoneRunning(db.steps)
      && FirstFinal(db.steps).Some? && db.task.current == Some(FirstFinal(db.steps).value.id)
    case FinalMark(x) => NoneRunning(db.steps) && db.task.current == Some(x) && RowIs(db, x, Final)
    case FinalSave(x) => db.task.current == Some(x) && RowIs(db, x, Final)
    case FinalTask(x) => NoneRunning(db.steps)
    case FailRunStep(x) =>
      && OnlyRunning(db.steps, Some(x))
      && forall i :: 0 <= i < |db.steps| && db.steps[i].id == x && db.steps[i].kind == Tool ==>
           Ready(db.steps[i].status) || (db.steps[i].status == StepRunning && Replayable(db.steps[i].policy))
    case FailRunTask(current) => OnlyRunning(db.steps, current)
    case _ => true
  }

  ghost predicate CoreRows(s: Sys) {
    Shape(s.db.steps) && LeaseInv(s) && RunningInv(s.db) && CheckpointInv(s)
  }

  ghost predicate Core(s: Sys) {
    && CoreRows(s)
    && forall r :: 0 <= r < |s.runs| && r == |s.runs| - 1 && s.db.task.leaseOwner.Some? ==> Facts(s.db, s.runs[r].pc)
  }

  /** The run that currently holds the lease. */
  ghost predicate Holds(s: Sys, r: nat) {
    r < |s.runs| && s.db.task.leaseOwner == Some(s.runs[r].token.worker) && s.runs[r].token.version == s.db.task.runVersion
  }

  // ----- small facts -----

  lemma FenceMeansHolder(s: Sys, r: nat, now: Time)
    requires Core(s) && r < |s.runs| && Fence(s.db.task, s.runs[r].token, now)
    ensures r == |s.runs| - 1 && Holds(s, r) && Facts(s.db, s.runs[r].pc) && LeaseStatus(s.db.task.status)
  {
  }

  lemma GotoCore(s: Sys, r: nat, pc: Pc)
    requires CoreRows(s) && r < |s.runs|
    requires s.db.task.leaseOwner.Some? ==>
               Facts(s.db, if r == |s.runs| - 1 then pc else s.runs[|s.runs| - 1].pc)
    ensures Core(Goto(s, r, pc))
  {
  }

  lemma {:induction false} UniqueRow(steps: seq<StepRow>, i: nat, j: nat)
    requires Distinct(steps) && i < |steps| && j < |steps| && steps[i].id == steps[j].id
    ensures i == j
  {
    if i < j { } else if j < i { }
  }

  lemma DifferentRows(steps: seq<StepRow>, i: nat, j: nat)
    requires Distinct(steps) && i < |steps| && j < |steps|
    ensures i != j ==> steps[i].id != steps[j].id
  {
    if i < j { } else if j < i { }
  }

  lemma WriteCore(s: Sys, r: nat, now: Time, accepted: bool, after: Db, out: Outcome, good: Pc, bad: Pc)
    requires Core(s) && r < |s.runs|
    requires accepted ==> Fence(s.db.task, s.runs[r].token, now)
    requires accepted ==> CoreRows(s.(db := after))
    requires accepted && after.task.leaseOwner.Some? ==> Facts(after, good) && Facts(after, bad)
    requires !accepted || out.Refused? ==> Holds(s, r) ==> Facts(s.db, bad)
    ensures Core(Write(s, r, accepted, after, out, good, bad))
  {
    if accepted {
      FenceMeansHolder(s, r, now);
    }
    if accepted && !out.Refused? {
      GotoCore(s.(db := after), r, if out.Committed? then good else bad);
    } else {
      GotoCore(s, r, bad);
    }
  }

  // ----- claims, leases, owner actions, recovery -----

  lemma ClaimCore(s: Sys, worker: WorkerId, now: Time, lease: Time, started: bool)
    requires Core(s)
    ensures Core(Step(s, Claims(worker, now, lease, started)))
  {
  }

  lemma RenewCore(s: Sys, r: nat, now: Time, lease: Time)
    requires Core(s)
    ensures Core(Step(s, Renews(r, now, lease)))
  {
    if r < |s.runs| && s.db.task.leaseOwner.Some? {
      LeaseTimes(s.db, s.runs[r].token, now, lease, s.runs[|s.runs| - 1].pc);
    }
  }

  /** No fact depends on when a lease ends. */
  lemma LeaseTimes(db: Db, token: Token, now: Time, lease: Time, pc: Pc)
    requires Facts(db, pc)
    ensures Facts(Renew(db, token, now, lease), pc)
  {
  }

  lemma SameShape(before: seq<StepRow>, after: seq<StepRow>)
    requires Shape(before) && |after| == |before|
    requires forall i :: 0 <= i < |before| ==> after[i].id == before[i].id && after[i].kind == before[i].kind
    ensures Shape(after)
  {
  }

  /** A write that leaves the task without a lease and no step running. */
  lemma UnleasedCore(s: Sys, after: Db)
    requires Core(s) && Shape(after.steps) && NoneRunning(after.steps)
    requires after.task.leaseOwner.None? && !LeaseStatus(after.task.status)
    requires after.task.runVersion >= s.db.task.runVersion
    requires after.task.status == Pending ==>
               after.task.checkpoint.None? && (after.task.runVersion > s.db.task.runVersion || CurrentReady(after))
    ensures Core(s.(db := after))
  {
  }

  lemma StopCore(s: Sys, r: nat)
    requires Core(s)
    ensures Core(Step(s, Stops(r)))
  {
  }

  lemma {:induction false} RecoveredCurrentKept(steps: seq<StepRow>, current: Option<StepId>)
    requires OnlyRunning(steps, current)
    ensures RecoveredCurrent(steps, current) == current
  {
    if steps != [] {
      RecoveredCurrentKept(steps[1..], current);
    }
  }

  lemma RecoverCore(s: Sys, now: Time, before: Time)
    requires Core(s)
    ensures Core(Step(s, Recovers(now, before)))
  {
    if Stale(s.db.task, now, before) {
      RecoveredShape(s.db, now, before);
      UnleasedCore(s, Recover(s.db, now, before));
    }
  }

  lemma RecoveredShape(db: Db, now: Time, before: Time)
    requires Shape(db.steps) && Stale(db.task, now, before)
    ensures var after := Recover(db, now, before);
            && Shape(after.steps) && NoneRunning(after.steps)
            && after.task.leaseOwner.None? && !LeaseStatus(after.task.status)
            && after.task.checkpoint.None? && after.task.runVersion > db.task.runVersion
  {
    SameShape(db.steps, RecoveredRows(db.steps));
  }

  lemma ApproveCore(s: Sys, user: UserId, x: StepId, digest: Digest, now: Time)
    requires Core(s)
    ensures Core(Step(s, Approves(user, x, digest, now)))
  {
    if CanApprove(s.db, user, x, digest) {
      var after := Approve(s.db, user, x, digest, now);
      ApprovedShape(s.db, user, x, digest, now);
      UnleasedCore(s, after);
      LogGrows(s.(db := after), OwnerApproved(x, digest));
    }
  }

  lemma ApprovedShape(db: Db, user: UserId, x: StepId, digest: Digest, now: Time)
    requires Shape(db.steps) && RunningInv(db) && CanApprove(db, user, x, digest)
    ensures var after := Approve(db, user, x, digest, now);
            && Shape(after.steps) && NoneRunning(after.steps) && CurrentReady(after)
            && after.task.leaseOwner.None? && !LeaseStatus(after.task.status)
            && after.task.checkpoint.None? && after.task.runVersion == db.task.runVersion
  {
    SameShape(db.steps, Approve(db, user, x, digest, now).steps);
  }

  lemma RejectCore(s: Sys, user: UserId, x: StepId, now: Time)
    requires Core(s)
    ensures Core(Step(s, Rejects(user, x, now)))
  {
    if CanReject(s.db, user, x) {
      RejectedShape(s.db, user, x, now);
      UnleasedCore(s, Reject(s.db, user, x, now));
    }
  }

  lemma RejectedShape(db: Db, user: UserId, x: StepId, now: Time)
    requires Shape(db.steps) && RunningInv(db) && CanReject(db, user, x)
    ensures var after := Reject(db, user, x, now);
            && Shape(after.steps) && NoneRunning(after.steps)
            && after.task.leaseOwner.None? && after.task.status == Rejected && after.task.runVersion > db.task.runVersion
  {
    SameShape(db.steps, Reject(db, user, x, now).steps);
  }

  lemma ResumedRows(s: Sys, row: StepRow, now: Time)
    requires Core(s) && s.db.task.leaseOwner.None? && NoneRunning(s.db.steps) && row in s.db.steps
    ensures var after := s.(db := Db(Decided(s.db.task, Pending, row.id, 1, now), PatchRows(s.db.steps, row.id, JustStatus(StepPending))));
            Core(after)
  {
  }

  lemma ResumeCore(s: Sys, user: UserId, retryUnknown: bool, now: Time)
    requires Core(s)
    ensures Core(Step(s, Resumes(user, retryUnknown, now)))
  {
    var target := ResumeTarget(s.db, user, retryUnknown);
    if target.Some? {
      var row := target.value;
      ResumableNoneRunning(s.db, row, retryUnknown);
      ResumedRows(s, row, now);
      var after := s.(db := Db(Decided(s.db.task, Pending, row.id, 1, now), PatchRows(s.db.steps, row.id, JustStatus(StepPending))));
      LogGrows(after, OwnerRetried(row.id));
      ResumeIs(s, user, retryUnknown, now);
    }
  }

  lemma ResumeIs(s: Sys, user: UserId, retryUnknown: bool, now: Time)
    requires ResumeTarget(s.db, user, retryUnknown).Some?
    ensures var row := ResumeTarget(s.db, user, retryUnknown).value;
            var after := s.(db := Db(Decided(s.db.task, Pending, row.id, 1, now), PatchRows(s.db.steps, row.id, JustStatus(StepPending))));
            Step(s, Resumes(user, retryUnknown, now))
            == if row.status == StepUnknown then after.(log := after.log + [OwnerRetried(row.id)]) else after
  {
  }

  lemma ResumableNoneRunning(db: Db, row: StepRow, retryUnknown: bool)
    requires Shape(db.steps) && RunningInv(db)
    requires row in db.steps && Resumable(row, db.task.current, retryUnknown)
    ensures NoneRunning(db.steps)
  {
    forall i | 0 <= i < |db.steps|
      ensures db.steps[i].status != StepRunning
    {
      if db.steps[i].id == row.id {
        var k :| 0 <= k < |db.steps| && db.steps[k] == row;
        UniqueRow(db.steps, i, k);
      }
    }
  }

  lemma CancelCore(s: Sys, user: UserId, now: Time)
    requires Core(s)
    ensures Core(Step(s, Cancels(user, now)))
  {
    if CanCancel(s.db, user) {
      CancelledShape(s.db, user, now);
      UnleasedCore(s, Cancel(s.db, user, now));
    }
  }

  lemma CancelledShape(db: Db, user: UserId, now: Time)
    requires Shape(db.steps) && CanCancel(db, user)
    ensures var after := Cancel(db, user, now);
            && Shape(after.steps) && NoneRunning(after.steps)
            && after.task.leaseOwner.None? && after.task.status == Cancelled && after.task.runVersion > db.task.runVersion
  {
    SameShape(db.steps, CancelledRows(db.steps));
  }

  // ----- runs -----

  lemma MoveCore(s: Sys, r: nat, pc: Pc)
    requires Core(s) && r < |s.runs|
    requires Holds(s, r) ==> Facts(s.db, pc)
    ensures Core(Goto(s, r, pc))
  {
    GotoCore(s, r, pc);
  }

  lemma HolderFacts(s: Sys, r: nat)
    requires Core(s) && Holds(s, r)
    ensures r == |s.runs| - 1 && Facts(s.db, s.runs[r].pc) && LeaseStatus(s.db.task.status)
  {
  }

  lemma LoadCore(s: Sys, r: nat, env: Env)
    requires Core(s) && r < |s.runs| && s.runs[r].pc.Loading?
    ensures Core(LoadStep(s, r, env, s.runs[r].pc.first))
  {
    if Holds(s, r) {
      HolderFacts(s, r);
    }
    if !env.ok {
      MoveCore(s, r, FailRead);
    } else {
      match s.db.task.checkpoint
      case Some(AtDispatch) => MoveCore(s, r, DispatchCheck);
      case Some(AtApproval) => MoveCore(s, r, ApprovalRead);
      case None => MoveCore(s, r, if s.runs[r].pc.first then PlanRead else FailRead);
    }
  }

  lemma SaveCore(s: Sys, r: nat, now: Time, out: Outcome)
    requires Core(s) && r < |s.runs| && s.runs[r].pc.Saving?
    ensures Core(SaveStep(s, r, now, out, s.runs[r].pc.node))
  {
    var node := s.runs[r].pc.node;
    var version := s.runs[r].token.version;
    var after := SetCheckpoint(s.db, version, node, now);
    if Holds(s, r) {
      HolderFacts(s, r);
    }
    if CanSetCheckpoint(s.db, version) {
      SavedRows(s, r, node, now);
    }
    if CanSetCheckpoint(s.db, version) && !out.Refused? {
      GotoCore(s.(db := after), r, if !out.Committed? then FailRead else if node == AtApproval then Done else Loading(false));
    } else {
      MoveCore(s, r, FailRead);
    }
  }

  lemma LatestVersion(s: Sys, r: nat)
    requires LeaseInv(s) && r < |s.runs| && s.runs[r].token.version >= s.db.task.runVersion
    ensures r == |s.runs| - 1
  {
    assert s.runs[|s.runs| - 1].token.version <= s.db.task.runVersion;
  }

  /** Only the latest run can still write the checkpoint. */
  lemma SavedRows(s: Sys, r: nat, node: Node, now: Time)
    requires Core(s) && r < |s.runs| && s.runs[r].pc == Saving(node) && CanSetCheckpoint(s.db, s.runs[r].token.version)
    ensures CoreRows(s.(db := SetCheckpoint(s.db, s.runs[r].token.version, node, now))) && r == |s.runs| - 1
  {
    LatestVersion(s, r);
    var after := s.(db := SetCheckpoint(s.db, s.runs[r].token.version, node, now));
    assert LeaseInv(after) && RunningInv(after.db);
    SavedCheckpoint(s, r, node, now);
  }

  lemma SavedCheckpoint(s: Sys, r: nat, node: Node, now: Time)
    requires CheckpointInv(s) && r == |s.runs| - 1 && CanSetCheckpoint(s.db, s.runs[r].token.version)
    ensures CheckpointInv(s.(db := SetCheckpoint(s.db, s.runs[r].token.version, node, now)))
  {
  }

  /** What the holder's write of step `x` needs: the facts of both points it may lead to, written or not. */
  ghost predicate StepWriteOk(db: Db, x: StepId, patch: StepPatch, good: Pc, bad: Pc) {
    && (patch.status == StepRunning ==> db.task.current == Some(x))
    && Facts(db, bad)
    && var after := db.(steps := PatchRows(db.steps, x, patch)); Facts(after, good) && Facts(after, bad)
  }

  /** Accepted step writes keep the rows consistent as long as only the current step is marked running. */
  lemma StepWriteCore(s: Sys, r: nat, now: Time, out: Outcome, x: StepId, patch: StepPatch, good: Pc, bad: Pc)
    requires Core(s) && r < |s.runs|
    requires Holds(s, r) ==> StepWriteOk(s.db, x, patch, good, bad)
    ensures Core(WriteStep(s, r, now, out, x, patch, good, bad))
  {
    var token := s.runs[r].token;
    var accepted := CanUpdateStep(s.db, token, now, x);
    var after := s.db.(steps := PatchRows(s.db.steps, x, patch));
    if accepted {
      FenceMeansHolder(s, r, now);
      PatchedRows(s, r, x, patch);
    }
    WriteCore(s, r, now, accepted, after, out, good, bad);
    assert WriteStep(s, r, now, out, x, patch, good, bad) == Write(s, r, accepted, after, out, good, bad);
  }

  lemma PatchedRows(s: Sys, r: nat, x: StepId, patch: StepPatch)
    requires Core(s) && Holds(s, r) && LeaseStatus(s.db.task.status)
    requires patch.status == StepRunning ==> s.db.task.current == Some(x)
    ensures CoreRows(s.(db := s.db.(steps := PatchRows(s.db.steps, x, patch))))
  {
  }

  /** Accepted task writes release the lease exactly when they leave the leased statuses. */
  lemma TaskWriteCore(s: Sys, r: nat, now: Time, out: Outcome, patch: TaskPatch, good: Pc, bad: Pc)
    requires Core(s) && r < |s.runs|
    requires patch.status != Some(Pending)
    requires patch.releaseLease <==> patch.status.Some? && !LeaseStatus(patch.status.value)
    requires Holds(s, r) ==>
               && (patch.current.Some? ==> OnlyRunning(s.db.steps, patch.current.value))
               && (patch.status.Some? && patch.status.value !in {Running, Planning, Failed} ==> NoneRunning(s.db.steps))
               && Facts(s.db, bad)
               && (!patch.releaseLease ==>
                     var after := s.db.(task := PatchTask(s.db.task, patch, now)); Facts(after, good) && Facts(after, bad))
    ensures Core(WriteTask(s, r, now, out, patch, good, bad))
  {
    var token := s.runs[r].token;
    var accepted := Fence(s.db.task, token, now);
    var after := s.db.(task := PatchTask(s.db.task, patch, now));
    if accepted {
      FenceMeansHolder(s, r, now);
      PatchedTask(s, r, now, patch);
    }
    WriteCore(s, r, now, accepted, after, out, good, bad);
    assert WriteTask(s, r, now, out, patch, good, bad) == Write(s, r, accepted, after, out, good, bad);
  }

  lemma PatchedTask(s: Sys, r: nat, now: Time, patch: TaskPatch)
    requires Core(s) && Holds(s, r) && LeaseStatus(s.db.task.status)
    requires patch.status != Some(Pending)
    requires patch.releaseLease <==> patch.status.Some? && !LeaseStatus(patch.status.value)
    requires patch.current.Some? ==> OnlyRunning(s.db.steps, patch.current.value)
    requires patch.status.Some? && patch.status.value !in {Running, Planning, Failed} ==> NoneRunning(s.db.steps)
    ensures CoreRows(s.(db := s.db.(task := PatchTask(s.db.task, patch, now))))
  {
  }

  /** Pausing for review bumps the version, drops the lease and leaves nothing running. */
  lemma PauseCore(s: Sys, r: nat, now: Time, out: Outcome, x: StepId, patch: StepPatch, bad: Pc)
    requires Core(s) && r < |s.runs| && patch.status == StepUnknown && (bad == FailRead || bad == Done)
    ensures var token := s.runs[r].token;
            var after := Db(PausedForReview(s.db.task, x, now), PatchRows(s.db.steps, x, patch));
            Core(Write(s, r, CanPause(s.db, token, now, x), after, out, Done, bad))
  {
    var token := s.runs[r].token;
    var after := Db(PausedForReview(s.db.task, x, now), PatchRows(s.db.steps, x, patch));
    if CanPause(s.db, token, now, x) {
      PausedRows(s, x, now, patch);
    }
    WriteCore(s, r, now, CanPause(s.db, token, now, x), after, out, Done, bad);
  }

  lemma PausedRows(s: Sys, x: StepId, now: Time, patch: StepPatch)
    requires CoreRows(s) && patch.status == StepUnknown && HasRunningTool(s.db.steps, x)
    ensures CoreRows(s.(db := Db(PausedForReview(s.db.task, x, now), PatchRows(s.db.steps, x, patch))))
  {
    CurrentPatchedNoneRunning(s.db, x, patch);
  }

  lemma PlanReadCore(s: Sys, r: nat, now: Time, out: Outcome, env: Env)
    requires Core(s) && r < |s.runs| && s.runs[r].pc.PlanRead?
    ensures Core(PlanNode(s, r, now, out, env))
  {
    if Holds(s, r) {
      HolderFacts(s, r);
    }
    var token := s.runs[r].token;
    MoveCore(s, r, PlanNode(s, r, now, out, env).runs[r].pc);
  }

  lemma PlanMarkCore(s: Sys, r: nat, now: Time, out: Outcome, env: Env)
    requires Core(s) && r < |s.runs| && s.runs[r].pc.PlanMark?
    ensures Core(PlanNode(s, r, now, out, env))
  {
    if Holds(s, r) {
      HolderFacts(s, r);
    }
    var x := s.runs[r].pc.step;
    TaskWriteCore(s, r, now, out, TaskPatch(Some(Planning), Some(Some(x)), false, KeepHeartbeat), PlanRun(x), FailRead);
  }

  lemma PlanRunCore(s: Sys, r: nat, now: Time, out: Outcome, env: Env)
    requires Core(s) && r < |s.runs| && s.runs[r].pc.PlanRun?
    ensures Core(PlanNode(s, r, now, out, env))
  {
    if Holds(s, r) {
      HolderFacts(s, r);
    }
    var x := s.runs[r].pc.step;
    StepWriteCore(s, r, now, out, x, JustStatus(StepRunning), PlanSave, FailRead);
  }

  lemma PlanSaveCore(s: Sys, r: nat, now: Time, out: Outcome, env: Env)
    requires Core(s) && r < |s.runs| && s.runs[r].pc.PlanSave?
    ensures Core(PlanNode(s, r, now, out, env))
  {
    if Holds(s, r) {
      HolderFacts(s, r);
    }
    var token := s.runs[r].token;
    if env.ok && GoodPlan(env.plan, s.db.steps[0].id) {
      if CanSavePlan(s.db, token, now) {
        SavePlanRows(s, r, now, env.plan);
      }
      WriteCore(s, r, now, CanSavePlan(s.db, token, now), SavePlan(s.db, token, now, env.plan), out,
                Saving(AtDispatch), FailRead);
    } else {
      MoveCore(s, r, FailRead);
    }
  }

  lemma PlanCore(s: Sys, r: nat, now: Time, out: Outcome, env: Env)
    requires Core(s) && r < |s.runs|
    ensures Core(PlanNode(s, r, now, out, env))
  {
    match s.runs[r].pc
    case PlanRead => PlanReadCore(s, r, now, out, env);
    case PlanMark(_) => PlanMarkCore(s, r, now, out, env);
    case PlanRun(_) => PlanRunCore(s, r, now, out, env);
    case PlanSave => PlanSaveCore(s, r, now, out, env);
    case _ =>
  }

  lemma SavePlanRows(s: Sys, r: nat, now: Time, plan: seq<StepRow>)
    requires Core(s) && r < |s.runs| && s.runs[r].pc == PlanSave
    requires GoodPlan(plan, s.db.steps[0].id) && CanSavePlan(s.db, s.runs[r].token, now)
    ensures var after := SavePlan(s.db, s.runs[r].token, now, plan);
            CoreRows(s.(db := after)) && NoneRunning(after.steps)
  {
    FenceMeansHolder(s, r, now);
    var after := SavePlan(s.db, s.runs[r].token, now, plan);
    forall i, j | 0 <= i < j < |after.steps|
      ensures after.steps[i].id != after.steps[j].id
    {
      assert after.steps[j].id == plan[j - 1].id;
      if i > 0 {
        assert after.steps[i].id == plan[i - 1].id;
      }
    }
    assert forall i :: 1 <= i < |after.steps| ==> after.steps[i] == Normalized(plan[i - 1]);
  }

  lemma DispatchCheckCore(s: Sys, r: nat, now: Time, out: Outcome, env: Env)
    requires Core(s) && r < |s.runs| && s.runs[r].pc.DispatchCheck?
    ensures Core(DispatchNode(s, r, now, out, env))
  {
    if Holds(s, r) {
      HolderFacts(s, r);
    }
    DispatchCheckIs(s, r, now, out, env);
    MoveCore(s, r, DispatchNode(s, r, now, out, env).runs[r].pc);
  }

  lemma DispatchCheckIs(s: Sys, r: nat, now: Time, out: Outcome, env: Env)
    requires r < |s.runs| && s.runs[r].pc.DispatchCheck?
    ensures var next := DispatchNode(s, r, now, out, env).runs[r].pc;
            && DispatchNode(s, r, now, out, env) == Goto(s, r, next)
            && (next == FailRead || next == Done || next == DispatchRoute)
  {
  }

  lemma DispatchRouteCore(s: Sys, r: nat, now: Time, out: Outcome, env: Env)
    requires Core(s) && r < |s.runs| && s.runs[r].pc.DispatchRoute?
    ensures Core(DispatchNode(s, r, now, out, env))
  {
    if Holds(s, r) {
      HolderFacts(s, r);
    }
    var next := DispatchNode(s, r, now, out, env).runs[r].pc;
    if Holds(s, r) {
      DispatchRouteNext(s, r, now, out, env);
    }
    MoveCore(s, r, next);
    assert DispatchNode(s, r, now, out, env) == Goto(s, r, next);
  }

  lemma DispatchRouteNext(s: Sys, r: nat, now: Time, out: Outcome, env: Env)
    requires Shape(s.db.steps) && NoneRunning(s.db.steps) && r < |s.runs| && s.runs[r].pc.DispatchRoute?
    ensures Facts(s.db, DispatchNode(s, r, now, out, env).runs[r].pc)
  {
    if NextRoute(s.db).Go? {
      RouteFacts(s.db);
    }
  }

  lemma DispatchPersistCore(s: Sys, r: nat, now: Time, out: Outcome, env: Env)
    requires Core(s) && r < |s.runs| && s.runs[r].pc.DispatchPersist?
    ensures Core(DispatchNode(s, r, now, out, env))
  {
    if Holds(s, r) {
      HolderFacts(s, r);
    }
    var x, route := s.runs[r].pc.step, s.runs[r].pc.route;
    var patch := TaskPatch(None, Some(Some(x)), false, KeepHeartbeat);
    if Holds(s, r) {
      PersistFacts(s.db, x, route, s.db.(task := PatchTask(s.db.task, patch, now)));
    }
    TaskWriteCore(s, r, now, out, patch, RoutePc(route), FailRead);
  }

  lemma DispatchCore(s: Sys, r: nat, now: Time, out: Outcome, env: Env)
    requires Core(s) && r < |s.runs|
    ensures Core(DispatchNode(s, r, now, out, env))
  {
    match s.runs[r].pc
    case DispatchCheck => DispatchCheckCore(s, r, now, out, env);
    case DispatchRoute => DispatchRouteCore(s, r, now, out, env);
    case DispatchPersist(_, _) => DispatchPersistCore(s, r, now, out, env);
    case _ =>
  }

  /** The dispatcher never picks a running, settled, failed or unknown tool step. */
  lemma RouteFacts(db: Db)
    requires Shape(db.steps) && NoneRunning(db.steps) && NextRoute(db).Go?
    ensures var go := NextRoute(db);
            && (go.route != ToFinalize ==> ToolReady(db, go.row.id))
            && (go.route == ToFinalize ==> FirstFinal(db.steps) == Some(go.row))
            && (db.task.current == Some(go.row.id) ==> Facts(db, RoutePc(go.route)))
  {
    var go := NextRoute(db);
    var k :| 0 <= k < |db.steps| && db.steps[k] == go.row;
    if go.route != ToFinalize {
      assert ToolReady(db, go.row.id);
      PersistFacts(db, go.row.id, go.route, db.(task := db.task.(current := Some(go.row.id))));
    }
  }

  lemma PersistFacts(db: Db, x: StepId, route: Route, after: Db)
    requires Shape(db.steps) && Facts(db, DispatchPersist(x, route))
    requires after.steps == db.steps && after.task.current == Some(x)
    ensures Facts(after, RoutePc(route))
  {
    if route != ToFinalize {
      ReadyIsCurrent(after, x);
    }
  }

  lemma ReadyIsCurrent(db: Db, x: StepId)
    requires Distinct(db.steps) && ToolReady(db, x) && db.task.current == Some(x)
    ensures CurrentReady(db)
  {
    var k :| 0 <= k < |db.steps| && db.steps[k].id == x && db.steps[k].kind == Tool && Ready(db.steps[k].status);
    forall i | 0 <= i < |db.steps| && CurrentTool(db.steps[i], db.task.current)
      ensures Ready(db.steps[i].status)
    {
      UniqueRow(db.steps, i, k);
    }
  }

  lemma ApprovalReadCore(s: Sys, r: nat, now: Time, out: Outcome, env: Env)
    requires Core(s) && r < |s.runs| && s.runs[r].pc.ApprovalRead?
    ensures Core(ApprovalNode(s, r, now, out, env))
  {
    if Holds(s, r) {
      HolderFacts(s, r);
    }
    var next := ApprovalNode(s, r, now, out, env).runs[r].pc;
    assert ApprovalNode(s, r, now, out, env) == Goto(s, r, next);
    MoveCore(s, r, next);
  }

  lemma ToolReadyPatched(db: Db, x: StepId, patch: StepPatch)
    requires ToolReady(db, x) && Ready(patch.status)
    ensures ToolReady(db.(steps := PatchRows(db.steps, x, patch)), x)
  {
    var k :| 0 <= k < |db.steps| && db.steps[k].id == x && db.steps[k].kind == Tool && Ready(db.steps[k].status);
    assert PatchRows(db.steps, x, patch)[k].id == x;
  }

  lemma ApprovalStepIs(s: Sys, r: nat, now: Time, out: Outcome, env: Env)
    requires r < |s.runs| && s.runs[r].pc.ApprovalStep?
    ensures var x := s.runs[r].pc.step;
            ApprovalNode(s, r, now, out, env) == WriteStep(s, r, now, out, x, JustStatus(StepWaiting), ApprovalTask(x), FailRead)
  {
  }

  lemma ApprovalStepOk(db: Db, x: StepId)
    requires Facts(db, ApprovalStep(x))
    ensures StepWriteOk(db, x, JustStatus(StepWaiting), ApprovalTask(x), FailRead)
  {
    ToolReadyPatched(db, x, JustStatus(StepWaiting));
  }

  lemma ApprovalStepCore(s: Sys, r: nat, now: Time, out: Outcome, env: Env)
    requires Core(s) && r < |s.runs| && s.runs[r].pc.ApprovalStep?
    ensures Core(ApprovalNode(s, r, now, out, env))
  {
    var x := s.runs[r].pc.step;
    if Holds(s, r) {
      HolderFacts(s, r);
      ApprovalStepOk(s.db, x);
    }
    ApprovalStepIs(s, r, now, out, env);
    StepWriteCore(s, r, now, out, x, JustStatus(StepWaiting), ApprovalTask(x), FailRead);
  }

  lemma ApprovalTaskCore(s: Sys, r: nat, now: Time, out: Outcome, env: Env)
    requires Core(s) && r < |s.runs| && s.runs[r].pc.ApprovalTask?
    ensures Core(ApprovalNode(s, r, now, out, env))
  {
    if Holds(s, r) {
      HolderFacts(s, r);
    }
    var x := s.runs[r].pc.step;
    TaskWriteCore(s, r, now, out, TaskPatch(Some(WaitingApproval), Some(Some(x)), true, ClearHeartbeat), Saving(AtApproval), FailRead);
  }

  lemma ApprovalCore(s: Sys, r: nat, now: Time, out: Outcome, env: Env)
    requires Core(s) && r < |s.runs|
    ensures Core(ApprovalNode(s, r, now, out, env))
  {
    match s.runs[r].pc
    case ApprovalRead => ApprovalReadCore(s, r, now, out, env);
    case ApprovalStep(_) => ApprovalStepCore(s, r, now, out, env);
    case ApprovalTask(_) => ApprovalTaskCore(s, r, now, out, env);
    case _ =>
  }

  lemma MarkedInRows(steps: seq<StepRow>, snap: StepRow, op: OpId)
    requires Distinct(steps) && snap in steps
    ensures MarkedRunning(snap, op) in PatchRows(steps, snap.id, StepPatch(StepRunning, Some(op), None, None))
  {
    var k :| 0 <= k < |steps| && steps[k] == snap;
    assert PatchRows(steps, snap.id, StepPatch(StepRunning, Some(op), None, None))[k] == MarkedRunning(snap, op);
  }

  lemma CurrentPatchedNoneRunning(db: Db, x: StepId, patch: StepPatch)
    requires OnlyRunning(db.steps, Some(x)) && patch.status != StepRunning
    ensures NoneRunning(PatchRows(db.steps, x, patch))
  {
  }

  lemma ToolReadCore(s: Sys, r: nat, now: Time, out: Outcome, env: Env)
    requires Core(s) && r < |s.runs| && s.runs[r].pc.ToolRead?
    ensures Core(ToolNode(s, r, now, out, env))
  {
    if Holds(s, r) {
      HolderFacts(s, r);
    }
    var token := s.runs[r].token;
    MoveCore(s, r, ToolNode(s, r, now, out, env).runs[r].pc);
  }

  lemma ToolMarkIs(s: Sys, r: nat, now: Time, out: Outcome, env: Env)
    requires r < |s.runs| && s.runs[r].pc.ToolMark?
    ensures var snap, op := s.runs[r].pc.snap, s.runs[r].pc.op;
            ToolNode(s, r, now, out, env)
            == WriteStep(s, r, now, out, snap.id, StepPatch(StepRunning, Some(op), None, None), ToolArmed(snap, op), FailRead)
  {
  }

  lemma ToolMarkOk(db: Db, snap: StepRow, op: OpId)
    requires Facts(db, ToolMark(snap, op)) && Distinct(db.steps)
    ensures StepWriteOk(db, snap.id, StepPatch(StepRunning, Some(op), None, None), ToolArmed(snap, op), FailRead)
  {
    MarkedInRows(db.steps, snap, op);
  }

  lemma ToolMarkCore(s: Sys, r: nat, now: Time, out: Outcome, env: Env)
    requires Core(s) && r < |s.runs| && s.runs[r].pc.ToolMark?
    ensures Core(ToolNode(s, r, now, out, env))
  {
    var snap, op := s.runs[r].pc.snap, s.runs[r].pc.op;
    if Holds(s, r) {
      HolderFacts(s, r);
      ToolMarkOk(s.db, snap, op);
    }
    ToolMarkIs(s, r, now, out, env);
    StepWriteCore(s, r, now, out, snap.id, StepPatch(StepRunning, Some(op), None, None), ToolArmed(snap, op), FailRead);
  }

  lemma ToolArmedIs(s: Sys, r: nat, now: Time, out: Outcome, env: Env)
    requires r < |s.runs| && s.runs[r].pc.ToolArmed?
    ensures var snap, op := s.runs[r].pc.snap, s.runs[r].pc.op;
            var event := Sent(snap.id, snap.arguments, op, snap.policy, env.policy, s.runs[r].claimAt);
            var s' := ToolNode(s, r, now, out, env);
            s' == Goto(s, r, s'.runs[r].pc) || s' == Goto(s.(log := s.log + [event]), r, s'.runs[r].pc)
  {
  }

  lemma ToolArmedCore(s: Sys, r: nat, now: Time, out: Outcome, env: Env)
    requires Core(s) && r < |s.runs| && s.runs[r].pc.ToolArmed?
    ensures Core(ToolNode(s, r, now, out, env))
  {
    var snap, op := s.runs[r].pc.snap, s.runs[r].pc.op;
    var event := Sent(snap.id, snap.arguments, op, snap.policy, env.policy, s.runs[r].claimAt);
    LogGrows(s, event);
    var next := ToolNode(s, r, now, out, env).runs[r].pc;
    if Holds(s, r) {
      ToolArmedNext(s, r, now, out, env);
    }
    ToolArmedIs(s, r, now, out, env);
    MoveCore(s, r, next);
    MoveCore(s.(log := s.log + [event]), r, next);
  }

  lemma ToolArmedNext(s: Sys, r: nat, now: Time, out: Outcome, env: Env)
    requires Core(s) && Holds(s, r) && s.runs[r].pc.ToolArmed?
    ensures Facts(s.db, ToolNode(s, r, now, out, env).runs[r].pc)
  {
    HolderFacts(s, r);
    ToolArmedFacts(s.db, s.runs[r].pc.snap, s.runs[r].pc.op);
  }

  lemma ToolArmedFacts(db: Db, snap: StepRow, op: OpId)
    requires Distinct(db.steps) && Facts(db, ToolArmed(snap, op))
    ensures Facts(db, FailStep(snap.id)) && Facts(db, ToolDone(snap, op)) && Facts(db, FailedCallPc(snap))
  {
    var k :| 0 <= k < |db.steps| && db.steps[k] == MarkedRunning(snap, op);
    forall i | 0 <= i < |db.steps| && db.steps[i].id == snap.id
      ensures db.steps[i] == MarkedRunning(snap, op)
    {
      UniqueRow(db.steps, i, k);
    }
  }

  lemma ToolDoneFacts(db: Db, snap: StepRow, op: OpId)
    requires Distinct(db.steps) && OnlyRunning(db.steps, db.task.current) && Facts(db, ToolDone(snap, op))
    ensures Facts(db, FailedCallPc(snap))
    ensures StepWriteOk(db, snap.id, JustStatus(StepSucceeded), ToolTask, FailedCallPc(snap))
  {
    CurrentPatchedNoneRunning(db, snap.id, JustStatus(StepSucceeded));
    var k :| 0 <= k < |db.steps| && db.steps[k] == MarkedRunning(snap, op);
    forall i | 0 <= i < |db.steps| && db.steps[i].id == snap.id
      ensures db.steps[i] == MarkedRunning(snap, op)
    {
      UniqueRow(db.steps, i, k);
    }
  }

  lemma ToolDoneCore(s: Sys, r: nat, now: Time, out: Outcome, env: Env)
    requires Core(s) && r < |s.runs| && s.runs[r].pc.ToolDone?
    ensures Core(ToolNode(s, r, now, out, env))
  {
    var snap, op := s.runs[r].pc.snap, s.runs[r].pc.op;
    if Holds(s, r) {
      HolderFacts(s, r);
      ToolDoneFacts(s.db, snap, op);
    }
    StepWriteCore(s, r, now, out, snap.id, JustStatus(StepSucceeded), ToolTask, FailedCallPc(snap));
  }

  lemma ToolTaskCore(s: Sys, r: nat, now: Time, out: Outcome, env: Env)
    requires Core(s) && r < |s.runs| && s.runs[r].pc.ToolTask?
    ensures Core(ToolNode(s, r, now, out, env))
  {
    if Holds(s, r) {
      HolderFacts(s, r);
    }
    TaskWriteCore(s, r, now, out, TaskPatch(Some(Running), Some(None), false, BeatAt(now)), Saving(AtDispatch), FailRead);
  }

  lemma MarkUnknownCore(s: Sys, r: nat, now: Time, out: Outcome, x: StepId, bad: Pc)
    requires Core(s) && r < |s.runs| && (bad == FailRead || bad == Done)
    ensures var token := s.runs[r].token;
            Core(Write(s, r, CanPause(s.db, token, now, x), MarkUnknown(s.db, token, now, x), out, Done, bad))
  {
    var token := s.runs[r].token;
    PauseCore(s, r, now, out, x, JustStatus(StepUnknown), bad);
    assert Write(s, r, CanPause(s.db, token, now, x), MarkUnknown(s.db, token, now, x), out, Done, bad)
        == Write(s, r, CanPause(s.db, token, now, x),
                 Db(PausedForReview(s.db.task, x, now), PatchRows(s.db.steps, x, JustStatus(StepUnknown))), out, Done, bad);
  }

  lemma PauseReviewCore(s: Sys, r: nat, now: Time, out: Outcome, env: Env)
    requires Core(s) && r < |s.runs| && s.runs[r].pc.PauseReview?
    ensures Core(ToolNode(s, r, now, out, env))
  {
    var token := s.runs[r].token;
    var x, policy := s.runs[r].pc.step, s.runs[r].pc.policy;
    var accepted := CanPause(s.db, token, now, x);
    var patch := StepPatch(StepUnknown, None, Some(Undecided), Some(policy));
    PauseCore(s, r, now, out, x, patch, FailRead);
    var written := Write(s, r, accepted, Db(PausedForReview(s.db.task, x, now), PatchRows(s.db.steps, x, patch)), out, Done, FailRead);
    LogGrows(written, PolicyReset(x));
    PauseReviewIs(s, r, now, out, env);
  }

  lemma PauseReviewIs(s: Sys, r: nat, now: Time, out: Outcome, env: Env)
    requires r < |s.runs| && s.runs[r].pc.PauseReview?
    ensures var x := s.runs[r].pc.step;
            var accepted := CanPause(s.db, s.runs[r].token, now, x);
            var patch := StepPatch(StepUnknown, None, Some(Undecided), Some(s.runs[r].pc.policy));
            var written := Write(s, r, accepted, Db(PausedForReview(s.db.task, x, now), PatchRows(s.db.steps, x, patch)), out, Done, FailRead);
            ToolNode(s, r, now, out, env)
            == if accepted && !out.Refused? then written.(log := written.log + [PolicyReset(x)]) else written
  {
  }

  lemma PauseUnknownCore(s: Sys, r: nat, now: Time, out: Outcome, env: Env)
    requires Core(s) && r < |s.runs| && s.runs[r].pc.PauseUnknown?
    ensures Core(ToolNode(s, r, now, out, env))
  {
    MarkUnknownCore(s, r, now, out, s.runs[r].pc.step, FailRead);
  }

  lemma ToolCore(s: Sys, r: nat, now: Time, out: Outcome, env: Env)
    requires Core(s) && r < |s.runs|
    ensures Core(ToolNode(s, r, now, out, env))
  {
    match s.runs[r].pc
    case ToolRead => ToolReadCore(s, r, now, out, env);
    case ToolMark(_, _) => ToolMarkCore(s, r, now, out, env);
    case ToolArmed(_, _) => ToolArmedCore(s, r, now, out, env);
    case ToolDone(_, _) => ToolDoneCore(s, r, now, out, env);
    case ToolTask => ToolTaskCore(s, r, now, out, env);
    case PauseUnknown(_) => PauseUnknownCore(s, r, now, out, env);
    case PauseReview(_, _) => PauseReviewCore(s, r, now, out, env);
    case _ =>
  }

  lemma LogGrows(s: Sys, e: Event)
    requires Core(s)
    ensures Core(s.(log := s.log + [e]))
  {
  }

  lemma FinalReadCore(s: Sys, r: nat, now: Time, out: Outcome, env: Env)
    requires Core(s) && r < |s.runs| && s.runs[r].pc.FinalRead?
    ensures Core(FinalNode(s, r, now, out, env))
  {
    if Holds(s, r) {
      HolderFacts(s, r);
    }
    FinalReadIs(s, r, now, out, env);
    MoveCore(s, r, FinalNode(s, r, now, out, env).runs[r].pc);
  }

  lemma FinalReadIs(s: Sys, r: nat, now: Time, out: Outcome, env: Env)
    requires r < |s.runs| && s.runs[r].pc.FinalRead?
    ensures var next := FinalNode(s, r, now, out, env).runs[r].pc;
            var final := FirstFinal(s.db.steps);
            && FinalNode(s, r, now, out, env) == Goto(s, r, next)
            && (next == FailRead || next == Done || (final.Some? && next == FinalMark(final.value.id)))
  {
  }

  lemma RowIsPatched(db: Db, x: StepId, patch: StepPatch)
    requires RowIs(db, x, Final)
    ensures RowIs(db.(steps := PatchRows(db.steps, x, patch)), x, Final)
  {
    var k :| 0 <= k < |db.steps| && db.steps[k].id == x && db.steps[k].kind == Final;
    assert PatchRows(db.steps, x, patch)[k].id == x;
  }

  lemma FinalMarkOk(db: Db, x: StepId)
    requires Facts(db, FinalMark(x))
    ensures StepWriteOk(db, x, JustStatus(StepRunning), FinalSave(x), FailRead)
  {
    RowIsPatched(db, x, JustStatus(StepRunning));
  }

  lemma FinalMarkIs(s: Sys, r: nat, now: Time, out: Outcome, env: Env)
    requires r < |s.runs| && s.runs[r].pc.FinalMark?
    ensures var x := s.runs[r].pc.step;
            FinalNode(s, r, now, out, env) == WriteStep(s, r, now, out, x, JustStatus(StepRunning), FinalSave(x), FailRead)
  {
  }

  lemma FinalMarkCore(s: Sys, r: nat, now: Time, out: Outcome, env: Env)
    requires Core(s) && r < |s.runs| && s.runs[r].pc.FinalMark?
    ensures Core(FinalNode(s, r, now, out, env))
  {
    var x := s.runs[r].pc.step;
    if Holds(s, r) {
      HolderFacts(s, r);
      FinalMarkOk(s.db, x);
    }
    FinalMarkIs(s, r, now, out, env);
    StepWriteCore(s, r, now, out, x, JustStatus(StepRunning), FinalSave(x), FailRead);
  }

  lemma FinalSaveIs(s: Sys, r: nat, now: Time, out: Outcome, env: Env)
    requires r < |s.runs| && s.runs[r].pc.FinalSave?
    ensures var x := s.runs[r].pc.step;
            FinalNode(s, r, now, out, env)
            == if env.ok then WriteStep(s, r, now, out, x, JustStatus(StepSucceeded), FinalTask(x), FailRead)
               else Goto(s, r, FailStep(x))
  {
  }

  lemma FinalSaveOk(db: Db, x: StepId)
    requires OnlyRunning(db.steps, Some(x))
    ensures StepWriteOk(db, x, JustStatus(StepSucceeded), FinalTask(x), FailRead)
  {
    CurrentPatchedNoneRunning(db, x, JustStatus(StepSucceeded));
  }

  lemma FinalFailOk(db: Db, x: StepId)
    requires Facts(db, FinalSave(x)) && Distinct(db.steps)
    ensures Facts(db, FailStep(x))
  {
    var k :| 0 <= k < |db.steps| && db.steps[k].id == x && db.steps[k].kind == Final;
    forall i | 0 <= i < |db.steps| && db.steps[i].id == x ensures db.steps[i].kind == Final {
      UniqueRow(db.steps, i, k);
    }
  }

  lemma FinalSaveCore(s: Sys, r: nat, now: Time, out: Outcome, env: Env)
    requires Core(s) && r < |s.runs| && s.runs[r].pc.FinalSave?
    ensures Core(FinalNode(s, r, now, out, env))
  {
    var x := s.runs[r].pc.step;
    if Holds(s, r) {
      HolderFacts(s, r);
      FinalSaveOk(s.db, x);
      FinalFailOk(s.db, x);
    }
    FinalSaveIs(s, r, now, out, env);
    if env.ok {
      StepWriteCore(s, r, now, out, x, JustStatus(StepSucceeded), FinalTask(x), FailRead);
    } else {
      MoveCore(s, r, FailStep(x));
    }
  }

  lemma FinalTaskCore(s: Sys, r: nat, now: Time, out: Outcome, env: Env)
    requires Core(s) && r < |s.runs| && s.runs[r].pc.FinalTask?
    ensures Core(FinalNode(s, r, now, out, env))
  {
    if Holds(s, r) {
      HolderFacts(s, r);
    }
    var x := s.runs[r].pc.step;
    TaskWriteCore(s, r, now, out, TaskPatch(Some(Succeeded), Some(Some(x)), true, ClearHeartbeat), Done, FailRead);
  }

  lemma FinalCore(s: Sys, r: nat, now: Time, out: Outcome, env: Env)
    requires Core(s) && r < |s.runs|
    ensures Core(FinalNode(s, r, now, out, env))
  {
    match s.runs[r].pc
    case FinalRead => FinalReadCore(s, r, now, out, env);
    case FinalMark(_) => FinalMarkCore(s, r, now, out, env);
    case FinalSave(_) => FinalSaveCore(s, r, now, out, env);
    case FinalTask(_) => FinalTaskCore(s, r, now, out, env);
    case _ =>
  }

  lemma FailStepCore(s: Sys, r: nat, now: Time, out: Outcome, env: Env)
    requires Core(s) && r < |s.runs| && s.runs[r].pc.FailStep?
    ensures Core(FailureNode(s, r, now, out, env))
  {
    if Holds(s, r) {
      HolderFacts(s, r);
    }
    var x := s.runs[r].pc.step;
    StepWriteCore(s, r, now, out, x, JustStatus(StepFailed), FailTask, FailTask);
  }

  lemma FailTaskCore(s: Sys, r: nat, now: Time, out: Outcome, env: Env)
    requires Core(s) && r < |s.runs| && s.runs[r].pc.FailTask?
    ensures Core(FailureNode(s, r, now, out, env))
  {
    if Holds(s, r) {
      HolderFacts(s, r);
    }
    TaskWriteCore(s, r, now, out, TaskPatch(Some(Failed), None, true, KeepHeartbeat), FailRead, FailRead);
  }

  lemma FailReadFacts(db: Db)
    requires Shape(db.steps) && OnlyRunning(db.steps, db.task.current)
    ensures FailureStep(db).None? ==> Facts(db, FailRunTask(db.task.current))
    ensures FailureStep(db).Some? ==>
              var row := FailureStep(db).value;
              && Facts(db, FailRunTask(Some(row.id)))
              && (row.status != StepFailed && row.status != StepUnknown
                  && !(row.kind == Tool && row.status == StepRunning && !Replayable(row.policy)) ==>
                    Facts(db, FailRunStep(row.id)))
  {
    if FailureStep(db).Some? {
      BlameFacts(db);
    }
  }

  lemma FailReadCore(s: Sys, r: nat, now: Time, out: Outcome, env: Env)
    requires Core(s) && r < |s.runs| && s.runs[r].pc.FailRead?
    ensures Core(FailureNode(s, r, now, out, env))
  {
    var next := FailureNode(s, r, now, out, env).runs[r].pc;
    if Holds(s, r) {
      HolderFacts(s, r);
      FailReadFacts(s.db);
      FailReadNext(s, r, now, out, env);
    }
    MoveCore(s, r, next);
    assert FailureNode(s, r, now, out, env) == Goto(s, r, next);
  }

  lemma FailReadNext(s: Sys, r: nat, now: Time, out: Outcome, env: Env)
    requires Shape(s.db.steps) && OnlyRunning(s.db.steps, s.db.task.current)
    requires r < |s.runs| && s.runs[r].pc.FailRead?
    ensures Facts(s.db, FailureNode(s, r, now, out, env).runs[r].pc)
  {
    FailReadFacts(s.db);
    var step := FailureStep(s.db);
    var next := FailureNode(s, r, now, out, env).runs[r].pc;
    assert next == Done || next.FailUnknown? || next == FailRunTask(s.db.task.current)
           || (step.Some? && next == FailRunTask(Some(step.value.id)))
           || (step.Some? && next == FailRunStep(step.value.id) && step.value.status != StepFailed && step.value.status != StepUnknown);
  }

  lemma FailUnknownCore(s: Sys, r: nat, now: Time, out: Outcome, env: Env)
    requires Core(s) && r < |s.runs| && s.runs[r].pc.FailUnknown?
    ensures Core(FailureNode(s, r, now, out, env))
  {
    MarkUnknownCore(s, r, now, out, s.runs[r].pc.step, Done);
  }

  lemma FailRunStepOk(db: Db, x: StepId)
    requires Facts(db, FailRunStep(x))
    ensures StepWriteOk(db, x, JustStatus(StepFailed), FailRunTask(Some(x)), FailRunTask(Some(x)))
  {
    CurrentPatchedNoneRunning(db, x, JustStatus(StepFailed));
  }

  lemma FailRunStepCore(s: Sys, r: nat, now: Time, out: Outcome, env: Env)
    requires Core(s) && r < |s.runs| && s.runs[r].pc.FailRunStep?
    ensures Core(FailureNode(s, r, now, out, env))
  {
    var x := s.runs[r].pc.step;
    if Holds(s, r) {
      HolderFacts(s, r);
      FailRunStepOk(s.db, x);
    }
    StepWriteCore(s, r, now, out, x, JustStatus(StepFailed), FailRunTask(Some(x)), FailRunTask(Some(x)));
  }

  lemma FailRunTaskCore(s: Sys, r: nat, now: Time, out: Outcome, env: Env)
    requires Core(s) && r < |s.runs| && s.runs[r].pc.FailRunTask?
    ensures Core(FailureNode(s, r, now, out, env))
  {
    if Holds(s, r) {
      HolderFacts(s, r);
    }
    var current := s.runs[r].pc.current;
    TaskWriteCore(s, r, now, out, TaskPatch(Some(Failed), Some(current), true, ClearHeartbeat), Done, Done);
  }

  lemma FailureCore(s: Sys, r: nat, now: Time, out: Outcome, env: Env)
    requires Core(s) && r < |s.runs|
    ensures Core(FailureNode(s, r, now, out, env))
  {
    match s.runs[r].pc
    case FailStep(_) => FailStepCore(s, r, now, out, env);
    case FailTask => FailTaskCore(s, r, now, out, env);
    case FailRead => FailReadCore(s, r, now, out, env);
    case FailUnknown(_) => FailUnknownCore(s, r, now, out, env);
    case FailRunStep(_) => FailRunStepCore(s, r, now, out, env);
    case FailRunTask(_) => FailRunTaskCore(s, r, now, out, env);
    case _ =>
  }

  /** The blamed step is the running one if there is one, and never a settled tool step. */
  lemma BlameFacts(db: Db)
    requires Shape(db.steps) && OnlyRunning(db.steps, db.task.current) && FailureStep(db).Some?
    ensures var row := FailureStep(db).value;
            && OnlyRunning(db.steps, Some(row.id))
            && (row.kind == Tool ==> !Settled(row.status))
            && forall i :: 0 <= i < |db.steps| && db.steps[i].id == row.id ==> db.steps[i] == row
  {
    var row := FailureStep(db).value;
    var k :| 0 <= k < |db.steps| && db.steps[k] == row;
    forall i | 0 <= i < |db.steps| && db.steps[i].id == row.id
      ensures db.steps[i] == row
    {
      UniqueRow(db.steps, i, k);
    }
    if exists i :: 0 <= i < |db.steps| && db.steps[i].status == StepRunning {
      var i :| 0 <= i < |db.steps| && db.steps[i].status == StepRunning;
      assert OpenCurrent(db.steps[i], db.task.current);
    }
  }

  lemma AdvanceCore(s: Sys, r: nat, now: Time, out: Outcome, env: Env)
    requires Core(s) && r < |s.runs|
    ensures Core(Advance(s, r, now, out, env))
  {
    var next := Advance(s, r, now, out, env);
    if s.runs[r].pc.Loading? {
      LoadCore(s, r, env);
    } else if s.runs[r].pc.Saving? {
      SaveCore(s, r, now, out);
    } else if next == PlanNode(s, r, now, out, env) {
      PlanCore(s, r, now, out, env);
    } else if next == DispatchNode(s, r, now, out, env) {
      DispatchCore(s, r, now, out, env);
    } else if next == ApprovalNode(s, r, now, out, env) {
      ApprovalCore(s, r, now, out, env);
    } else if next == FinalNode(s, r, now, out, env) {
      FinalCore(s, r, now, out, env);
    } else if next == FailureNode(s, r, now, out, env) {
      FailureCore(s, r, now, out, env);
    } else {
      ToolCore(s, r, now, out, env);
    }
  }

  /** Every transition keeps the structural invariant. */
  lemma StepCore(s: Sys, l: Label)
    requires Core(s)
    ensures Core(Step(s, l))
  {
    match l
    case Claims(worker, now, lease, started) => ClaimCore(s, worker, now, lease, started);
    case Renews(r, now, lease) => RenewCore(s, r, now, lease);
    case Advances(r, now, out, env) =>
      if r < |s.runs| {
        AdvanceCore(s, r, now, out, env);
      }
    case Stops(r) => StopCore(s, r);
    case Recovers(now, before) => RecoverCore(s, now, before);
    case Approves(user, x, digest, now) => ApproveCore(s, user, x, digest, now);
    case Rejects(user, x, now) => RejectCore(s, user, x, now);
    case Resumes(user, retryUnknown, now) => ResumeCore(s, user, retryUnknown, now);
    case Cancels(user, now) => CancelCore(s, user, now);
  }
}
