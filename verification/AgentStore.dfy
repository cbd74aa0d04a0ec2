/**
 The store of one Agent task as an object whose columns its transactions update in place.
 Each method is one database transaction; `Rows()` is the abstract value the protocol reasons about.
 */
module AgentStore {
  import opened Options
  import opened AgentRows

  datatype StoreResult = Ok | Conflict | NotFound

  // ----- what the owner's transactions do to the rows -----

  /** All rows keep their columns, but those with identifier `x` take the status and the decision. */
  predicate OnlyDecided(steps: seq<StepRow>, after: seq<StepRow>, x: StepId, status: StepStatus, decision: Decision) {
    |after| == |steps|
    && forall i :: 0 <= i < |steps| ==>
         after[i] == if steps[i].id == x then steps[i].(status := status, decision := decision) else steps[i]
  }

  predicate OnlyRequeued(steps: seq<StepRow>, after: seq<StepRow>, x: StepId) {
    |after| == |steps|
    && forall i :: 0 <= i < |steps| ==> after[i] == if steps[i].id == x then steps[i].(status := StepPending) else steps[i]
  }

  /** Row `i` is step `x`, which waits for the owner's decision. */
  predicate Waits(db: Db, user: UserId, x: StepId, i: nat) {
    && i < |db.steps| && db.task.user == user && db.task.status == WaitingApproval
    && db.steps[i].id == x && db.steps[i].status == StepWaiting && db.steps[i].decision == Undecided
  }

  /** An approval takes a waiting step with the digest the owner saw; it requeues the task under the same run version. */
  lemma ApproveExactly(db: Db, user: UserId, x: StepId, digest: Digest, now: Time)
    ensures var after := Approve(db, user, x, digest, now);
            if exists i: nat :: Waits(db, user, x, i) && db.steps[i].digest == digest then
              && after.task == db.task.(status := Pending, current := Some(x), checkpoint := None, leaseOwner := None,
                                        leaseUntil := None, heartbeatAt := None, updatedAt := now)
              && OnlyDecided(db.steps, after.steps, x, StepApproved, Approved)
            else after == db
  {
    if CanApprove(db, user, x, digest) {
      var i :| 0 <= i < |db.steps| && Awaits(db.steps[i], x) && db.steps[i].digest == digest;
      assert Waits(db, user, x, i);
    }
  }

  /** A rejection takes a waiting step; it closes the task and invalidates its run. */
  lemma RejectExactly(db: Db, user: UserId, x: StepId, now: Time)
    ensures var after := Reject(db, user, x, now);
            if exists i: nat :: Waits(db, user, x, i) then
              && after.task == db.task.(status := Rejected, current := Some(x), checkpoint := None, leaseOwner := None,
                                        leaseUntil := None, heartbeatAt := None, updatedAt := now,
                                        runVersion := db.task.runVersion + 1)
              && OnlyDecided(db.steps, after.steps, x, StepRejected, Declined)
            else after == db
  {
    if CanReject(db, user, x) {
      var i :| 0 <= i < |db.steps| && Awaits(db.steps[i], x);
      assert Waits(db, user, x, i);
    }
  }

  /** Step `i` failed, or its outcome is unknown and may be retried, and no other step is recorded as current. */
  predicate CanReset(db: Db, user: UserId, retryUnknown: bool, i: nat) {
    && i < |db.steps| && db.task.user == user
    && (db.task.status == Failed || (db.task.status == RequiresReview && retryUnknown))
    && (db.steps[i].status == StepFailed || (db.steps[i].status == StepUnknown && retryUnknown))
    && (db.task.current == None || db.task.current == Some(db.steps[i].id))
  }

  lemma {:induction false} FirstResumableAt(steps: seq<StepRow>, current: Option<StepId>, retryUnknown: bool, i: nat)
    requires i < |steps| && Resumable(steps[i], current, retryUnknown)
    requires forall j :: 0 <= j < i ==> !Resumable(steps[j], current, retryUnknown)
    ensures FirstResumable(steps, current, retryUnknown) == Some(steps[i])
  {
    if i > 0 {
      FirstResumableAt(steps[1..], current, retryUnknown, i - 1);
    }
  }

  /** A resume resets the first step it can, which becomes current, and requeues the task under a new run version. */
  lemma ResumeExactly(db: Db, user: UserId, retryUnknown: bool, now: Time, i: nat)
    requires CanReset(db, user, retryUnknown, i) && forall j :: 0 <= j < i ==> !CanReset(db, user, retryUnknown, j)
    ensures var after := Resume(db, user, retryUnknown, now);
            && after.task == db.task.(status := Pending, current := Some(db.steps[i].id), checkpoint := None, leaseOwner := None,
                                      leaseUntil := None, heartbeatAt := None, updatedAt := now,
                                      runVersion := db.task.runVersion + 1)
            && OnlyRequeued(db.steps, after.steps, db.steps[i].id)
  {
    forall j | 0 <= j < i ensures !Resumable(db.steps[j], db.task.current, retryUnknown) {
      assert !CanReset(db, user, retryUnknown, j);
    }
    FirstResumableAt(db.steps, db.task.current, retryUnknown, i);
  }

  /** With no such step nothing happens. */
  lemma ResumeRefused(db: Db, user: UserId, retryUnknown: bool, now: Time)
    requires forall i :: !CanReset(db, user, retryUnknown, i)
    ensures Resume(db, user, retryUnknown, now) == db
  {
    var target := ResumeTarget(db, user, retryUnknown);
    if target.Some? {
      var i :| 0 <= i < |db.steps| && db.steps[i] == target.value;
      assert CanReset(db, user, retryUnknown, i);
    }
  }

  /** A running tool step whose call may have had an effect that another call would repeat. */
  predicate InDoubt(row: StepRow) {
    row.status == StepRunning && row.kind == Tool && (row.policy.destructive || !(row.policy.readOnly || row.policy.idempotent))
  }

  /** A cancellation closes the task, invalidates its run, and skips what had not ended unless it is in doubt. */
  lemma CancelExactly(db: Db, user: UserId, now: Time)
    ensures var after := Cancel(db, user, now);
            if db.task.user != user || db.task.status in {Cancelled, Succeeded, Rejected} then after == db
            else
              && after.task == db.task.(status := Cancelled, leaseOwner := None, leaseUntil := None, heartbeatAt := None,
                                        updatedAt := now, runVersion := db.task.runVersion + 1)
              && |after.steps| == |db.steps|
              && forall i :: 0 <= i < |db.steps| ==>
                   var row := db.steps[i];
                   after.steps[i] == if InDoubt(row) then row.(status := StepUnknown)
                                     else if row.status in {StepPending, StepRunning, StepWaiting, StepApproved}
                                     then row.(status := StepSkipped) else row
  {
  }

  class Store {
    const user: UserId
    var status: TaskStatus
    var current: Option<StepId>
    var checkpoint: Option<Node>
    var runVersion: nat
    var leaseOwner: Option<WorkerId>
    var leaseUntil: Option<Time>
    var heartbeatAt: Option<Time>
    var startedAt: Option<Time>
    var updatedAt: Time
    var steps: seq<StepRow>

    function Task(): TaskRow
      reads this
    {
      TaskRow(user, status, current, checkpoint, runVersion, leaseOwner, leaseUntil, heartbeatAt, startedAt, updatedAt)
    }

    function Rows(): Db
      reads this
    {
      Db(Task(), steps)
    }

    /** The fence of every worker write, column by column. */
    predicate Holds(token: Token, now: Time)
      reads this
    {
      runVersion == token.version && leaseOwner == Some(token.worker) && leaseUntil.Some? && leaseUntil.value > now
    }

    predicate Unleased()
      reads this
    {
      leaseOwner == None && leaseUntil == None && heartbeatAt == None
    }

    /** Every step keeps its row but those with identifier `x`, which keep all columns but the ones named. */
    twostate predicate OnlyStatus(x: StepId, next: StepStatus)
      reads this
    {
      |steps| == |old(steps)|
      && forall i :: 0 <= i < |steps| ==>
           steps[i] == if old(steps)[i].id == x then old(steps)[i].(status := next) else old(steps)[i]
    }

    constructor (user: UserId, planId: StepId, now: Time)
      ensures Rows() == NewTask(user, planId, now)
      ensures this.user == user && status == Pending && current == Some(planId) && checkpoint == None && runVersion == 0
      ensures Unleased() && startedAt == None && updatedAt == now
      ensures |steps| == 1 && steps[0].id == planId && steps[0].kind == Plan && steps[0].status == StepPending
              && steps[0].decision == Undecided && steps[0].operationId == None
    {
      this.user := user;
      status, current, checkpoint, runVersion := Pending, Some(planId), None, 0;
      leaseOwner, leaseUntil, heartbeatAt, startedAt, updatedAt := None, None, None, None, now;
      steps := [StepRow(planId, Plan, StepPending, 0, "", Sha256(""), Policy(0, false, false, false, false), Undecided, None)];
    }

    method ReleaseLease()
      modifies this
      ensures Rows() == old(Rows()).(task := old(Task()).(leaseOwner := None, leaseUntil := None, heartbeatAt := None))
    {
      leaseOwner, leaseUntil, heartbeatAt := None, None, None;
    }

    method ClaimTask(worker: WorkerId, now: Time, lease: Time) returns (claimed: bool, version: nat)
      modifies this
      ensures Rows() == Claim(old(Rows()), worker, now, lease)
      ensures claimed == CanClaim(old(Rows())) && version == runVersion
      ensures claimed <==> old(status) == Pending
      ensures claimed ==>
                && status == Running && runVersion == old(runVersion) + 1
                && leaseOwner == Some(worker) && heartbeatAt == Some(now) && updatedAt == now
                && leaseUntil == Some(now + if lease > 0 then lease else 120000)
                && startedAt == Some(if old(startedAt).Some? then old(startedAt).value else now)
      ensures steps == old(steps) && current == old(current) && checkpoint == old(checkpoint)
    {
      claimed := status == Pending;
      if claimed {
        status, runVersion := Running, runVersion + 1;
        leaseOwner, leaseUntil, heartbeatAt := Some(worker), Some(LeaseEnd(now, lease)), Some(now);
        if startedAt.None? {
          startedAt := Some(now);
        }
        updatedAt := now;
      }
      version := runVersion;
    }

    method RenewLeaseFenced(token: Token, now: Time, lease: Time) returns (result: StoreResult)
      modifies this
      ensures Rows() == Renew(old(Rows()), token, now, lease)
      ensures result == if CanRenew(old(Rows()), token, now) then Ok else Conflict
      ensures result == Ok <==> old(Holds(token, now)) && old(status) in {Running, Planning}
      ensures result == Ok ==>
                leaseUntil == Some(now + if lease > 0 then lease else 120000) && heartbeatAt == Some(now) && updatedAt == now
      ensures steps == old(steps) && status == old(status) && current == old(current) && checkpoint == old(checkpoint)
              && runVersion == old(runVersion) && leaseOwner == old(leaseOwner) && startedAt == old(startedAt)
    {
      if !(Fence(Task(), token, now) && LeaseStatus(status)) {
        return Conflict;
      }
      leaseUntil, heartbeatAt, updatedAt := Some(LeaseEnd(now, lease)), Some(now), now;
      return Ok;
    }

    /** One "UPDATE ... WHERE id = x": the number of rows it touched decides about a conflict. */
    method UpdateWhere(x: StepId, patch: StepPatch) returns (affected: nat)
      modifies this`steps
      ensures steps == PatchRows(old(steps), x, patch)
      ensures affected > 0 <==> HasStep(old(steps), x)
    {
      affected := 0;
      for index := 0 to |steps|
        invariant |steps| == |old(steps)|
        invariant forall i :: 0 <= i < index ==> steps[i] == PatchRows(old(steps), x, patch)[i]
        invariant forall i :: index <= i < |steps| ==> steps[i] == old(steps)[i]
        invariant affected > 0 <==> exists i :: 0 <= i < index && old(steps)[i].id == x
      {
        if steps[index].id == x {
          assert old(steps)[index].id == x;
          steps := steps[index := PatchRow(steps[index], patch)];
          affected := affected + 1;
        }
      }
      assert steps == PatchRows(old(steps), x, patch);
    }

    method UpdateStepFenced(token: Token, now: Time, x: StepId, patch: StepPatch) returns (result: StoreResult)
      modifies this
      ensures Rows() == UpdateStep(old(Rows()), token, now, x, patch)
      ensures result == if !Fence(old(Task()), token, now) then Conflict else if !HasStep(old(steps), x) then NotFound else Ok
      ensures result == Ok <==> old(Holds(token, now)) && exists i :: 0 <= i < |old(steps)| && old(steps)[i].id == x
      ensures result != Ok ==> steps == old(steps)
      ensures result == Ok ==>
                |steps| == |old(steps)|
                && forall i :: 0 <= i < |steps| ==>
                     if old(steps)[i].id != x then steps[i] == old(steps)[i]
                     else
                       && steps[i].status == patch.status
                       && steps[i].operationId == (if patch.operationId.Some? then patch.operationId else old(steps)[i].operationId)
                       && steps[i].decision == (if patch.decision.Some? then patch.decision.value else old(steps)[i].decision)
                       && steps[i].policy == (if patch.policy.Some? then patch.policy.value else old(steps)[i].policy)
                       && steps[i].id == x && steps[i].kind == old(steps)[i].kind && steps[i].tool == old(steps)[i].tool
                       && steps[i].arguments == old(steps)[i].arguments && steps[i].digest == old(steps)[i].digest
    {
      if !Fence(Task(), token, now) {
        return Conflict;
      }
      if !HasStep(steps, x) {
        return NotFound;
      }
      var affected := UpdateWhere(x, patch);
      return Ok;
    }

    method UpdateTaskFenced(token: Token, now: Time, patch: TaskPatch) returns (result: StoreResult)
      modifies this
      ensures Rows() == UpdateTask(old(Rows()), token, now, patch)
      ensures result == if Fence(old(Task()), token, now) then Ok else Conflict
      ensures result == Ok <==> old(Holds(token, now))
      ensures result == Ok ==>
                && status == (if patch.status.Some? then patch.status.value else old(status))
                && current == (if patch.current.Some? then patch.current.value else old(current))
                && leaseOwner == (if patch.releaseLease then None else old(leaseOwner))
                && leaseUntil == (if patch.releaseLease then None else old(leaseUntil))
                && (patch.heartbeat == KeepHeartbeat ==> heartbeatAt == old(heartbeatAt))
                && (patch.heartbeat == ClearHeartbeat ==> heartbeatAt == None)
                && (patch.heartbeat.BeatAt? ==> heartbeatAt == Some(patch.heartbeat.time))
                && updatedAt == now
      ensures steps == old(steps) && runVersion == old(runVersion) && checkpoint == old(checkpoint) && startedAt == old(startedAt)
    {
      if !Fence(Task(), token, now) {
        return Conflict;
      }
      if patch.status.Some? {
        status := patch.status.value;
      }
      if patch.current.Some? {
        current := patch.current.value;
      }
      if patch.releaseLease {
        leaseOwner, leaseUntil := None, None;
      }
      match patch.heartbeat {
        case KeepHeartbeat =>
        case ClearHeartbeat => heartbeatAt := None;
        case BeatAt(t) => heartbeatAt := Some(t);
      }
      updatedAt := now;
      return Ok;
    }

    /** Deletes every step after sequence zero, completes the planning step and inserts the normalized plan. */
    method SavePlanFenced(token: Token, now: Time, plan: seq<StepRow>) returns (result: StoreResult)
      modifies this
      ensures Rows() == SavePlan(old(Rows()), token, now, plan)
      ensures result == if CanSavePlan(old(Rows()), token, now) then Ok else Conflict
      ensures result == Ok <==> old(Holds(token, now)) && old(status) in {Running, Planning}
                                && |old(steps)| > 0 && old(steps)[0].kind == Plan
      ensures result == Ok ==>
                && status == Running && updatedAt == now
                && current == (if plan == [] then None else Some(plan[0].id))
                && |steps| == |plan| + 1 && steps[0] == old(steps)[0].(status := StepSucceeded)
                && forall i :: 0 <= i < |plan| ==>
                     steps[i + 1] == plan[i].(status := StepPending, decision := Undecided, operationId := None)
      ensures runVersion == old(runVersion) && leaseOwner == old(leaseOwner) && leaseUntil == old(leaseUntil)
              && heartbeatAt == old(heartbeatAt) && checkpoint == old(checkpoint) && startedAt == old(startedAt)
    {
      if !Fence(Task(), token, now) || !LeaseStatus(status) || |steps| == 0 || steps[0].kind != Plan {
        return Conflict;
      }
      steps := [steps[0].(status := StepSucceeded)];
      for index := 0 to |plan|
        invariant Task() == old(Task()) && old(CanSavePlan(Rows(), token, now))
        invariant |steps| == 1 + index && steps[0] == old(steps)[0].(status := StepSucceeded)
        invariant forall i :: 0 <= i < index ==> steps[i + 1] == Normalized(plan[i])
      {
        steps := steps + [Normalized(plan[index])];
      }
      assert steps == [old(steps)[0].(status := StepSucceeded)] + NormalizedPlan(plan);
      status, updatedAt := Running, now;
      current := if |plan| > 0 then Some(plan[0].id) else None;
      return Ok;
    }

    method PauseForReview(token: Token, now: Time, x: StepId, patch: StepPatch) returns (result: StoreResult)
      modifies this
      ensures result == if old(CanPause(Rows(), token, now, x)) then Ok else Conflict
      ensures Rows() == if result == Ok
                        then Db(PausedForReview(old(Task()), x, now), PatchRows(old(steps), x, patch))
                        else old(Rows())
    {
      if !(Fence(Task(), token, now) && status == Running && HasRunningTool(steps, x)) {
        return Conflict;
      }
      var affected := UpdateWhere(x, patch);
      status, current, runVersion, updatedAt := RequiresReview, Some(x), runVersion + 1, now;
      ReleaseLease();
      return Ok;
    }

    method MarkExecutionUnknownFenced(token: Token, now: Time, x: StepId) returns (result: StoreResult)
      modifies this
      ensures Rows() == MarkUnknown(old(Rows()), token, now, x)
      ensures result == if old(CanPause(Rows(), token, now, x)) then Ok else Conflict
      ensures result == Ok <==> old(Holds(token, now)) && old(status) == Running
                                && exists i :: 0 <= i < |old(steps)| && old(steps)[i].id == x
                                               && old(steps)[i].kind == Tool && old(steps)[i].status == StepRunning
      ensures result == Ok ==>
                && status == RequiresReview && current == Some(x) && runVersion == old(runVersion) + 1
                && Unleased() && updatedAt == now && checkpoint == old(checkpoint) && startedAt == old(startedAt)
      ensures result == Ok ==> OnlyStatus(x, StepUnknown)
    {
      result := PauseForReview(token, now, x, JustStatus(StepUnknown));
    }

    method MarkPolicyReviewFenced(token: Token, now: Time, x: StepId, policy: Policy) returns (result: StoreResult)
      modifies this
      ensures Rows() == MarkPolicyReview(old(Rows()), token, now, x, policy)
      ensures result == if old(CanPause(Rows(), token, now, x)) then Ok else Conflict
      ensures result == Ok <==> old(Holds(token, now)) && old(status) == Running
                                && exists i :: 0 <= i < |old(steps)| && old(steps)[i].id == x
                                               && old(steps)[i].kind == Tool && old(steps)[i].status == StepRunning
      ensures result == Ok ==>
                && status == RequiresReview && current == Some(x) && runVersion == old(runVersion) + 1
                && Unleased() && updatedAt == now && checkpoint == old(checkpoint) && startedAt == old(startedAt)
      ensures result == Ok ==>
                |steps| == |old(steps)|
                && forall i :: 0 <= i < |steps| ==>
                     steps[i] == if old(steps)[i].id != x then old(steps)[i]
                                 else old(steps)[i].(status := StepUnknown, decision := Undecided, policy := policy)
    {
      result := PauseForReview(token, now, x, StepPatch(StepUnknown, None, Some(Undecided), Some(policy)));
    }

    method SetCheckpointFenced(version: nat, node: Node, now: Time) returns (result: StoreResult)
      modifies this
      ensures Rows() == SetCheckpoint(old(Rows()), version, node, now)
      ensures result == if old(runVersion) == version then Ok else Conflict
      ensures result == Ok ==> checkpoint == Some(node) && updatedAt == now
      ensures steps == old(steps) && status == old(status) && current == old(current) && runVersion == old(runVersion)
              && leaseOwner == old(leaseOwner) && leaseUntil == old(leaseUntil)
              && heartbeatAt == old(heartbeatAt) && startedAt == old(startedAt)
    {
      if runVersion != version {
        return Conflict;
      }
      checkpoint, updatedAt := Some(node), now;
      return Ok;
    }

    method ApproveStep(owner: UserId, x: StepId, digest: Digest, now: Time) returns (result: StoreResult)
      modifies this
      ensures Rows() == Approve(old(Rows()), owner, x, digest, now)
      ensures result == if user != owner then NotFound else if old(CanApprove(Rows(), owner, x, digest)) then Ok else Conflict
    {
      if user != owner {
        return NotFound;
      }
      if status != WaitingApproval || !(exists i :: 0 <= i < |steps| && Awaits(steps[i], x) && steps[i].digest == digest) {
        return Conflict;
      }
      var affected := UpdateWhere(x, StepPatch(StepApproved, None, Some(Approved), None));
      status, current, checkpoint, updatedAt := Pending, Some(x), None, now;
      ReleaseLease();
      return Ok;
    }

    method RejectStep(owner: UserId, x: StepId, now: Time) returns (result: StoreResult)
      modifies this
      ensures Rows() == Reject(old(Rows()), owner, x, now)
      ensures result == if user != owner then NotFound else if old(CanReject(Rows(), owner, x)) then Ok else Conflict
    {
      if user != owner {
        return NotFound;
      }
      if status != WaitingApproval || !(exists i :: 0 <= i < |steps| && Awaits(steps[i], x)) {
        return Conflict;
      }
      var affected := UpdateWhere(x, StepPatch(StepRejected, None, Some(Declined), None));
      status, current, checkpoint, runVersion, updatedAt := Rejected, Some(x), None, runVersion + 1, now;
      ReleaseLease();
      return Ok;
    }

    /** The ordered row scan of a resume: the first row it could reset. */
    method FindResumable(retryUnknown: bool) returns (found: Option<StepRow>)
      ensures found == FirstResumable(steps, current, retryUnknown)
    {
      for index := 0 to |steps|
        invariant FirstResumable(steps, current, retryUnknown) == FirstResumable(steps[index..], current, retryUnknown)
      {
        if Resumable(steps[index], current, retryUnknown) {
          return Some(steps[index]);
        }
        assert steps[index..][1..] == steps[index + 1..];
      }
      return None;
    }

    method ResumeOwnedTask(owner: UserId, retryUnknown: bool, now: Time) returns (result: StoreResult)
      modifies this
      ensures Rows() == Resume(old(Rows()), owner, retryUnknown, now)
      ensures result == if user != owner then NotFound
                        else if old(ResumeTarget(Rows(), owner, retryUnknown)).Some? then Ok else Conflict
    {
      if user != owner {
        return NotFound;
      }
      if !TaskCanResume(status, retryUnknown) {
        return Conflict;
      }
      var found := FindResumable(retryUnknown);
      if found.None? {
        return Conflict;
      }
      var x := found.value.id;
      var affected := UpdateWhere(x, JustStatus(StepPending));
      status, current, checkpoint, runVersion, updatedAt := Pending, Some(x), None, runVersion + 1, now;
      ReleaseLease();
      return Ok;
    }

    method CancelOwnedTask(owner: UserId, now: Time) returns (result: StoreResult)
      modifies this
      ensures Rows() == Cancel(old(Rows()), owner, now)
      ensures result == if user != owner then NotFound
                        else if old(status) == Succeeded || old(status) == Rejected then Conflict else Ok
    {
      if user != owner {
        return NotFound;
      }
      match status {
        case Cancelled => return Ok;
        case Succeeded | Rejected => return Conflict;
        case _ =>
      }
      for index := 0 to |steps|
        invariant Task() == old(Task()) && |steps| == |old(steps)|
        invariant forall i :: 0 <= i < index ==> steps[i] == CancelledRow(old(steps)[i])
        invariant forall i :: index <= i < |steps| ==> steps[i] == old(steps)[i]
      {
        var row := steps[index];
        if ActiveStep(row.status) {
          var next := StepSkipped;
          if row.status == StepRunning && !ReplayAfterCrash(row) {
            next := StepUnknown;
          }
          steps := steps[index := row.(status := next)];
        }
      }
      assert steps == CancelledRows(old(steps));
      status, runVersion, updatedAt := Cancelled, runVersion + 1, now;
      ReleaseLease();
      return Ok;
    }

    /** Normalizes every running step in one pass; reports the uncertain ones and the step to blame. */
    method NormalizeRunning() returns (currentId: Option<StepId>, unsafeFound: bool)
      modifies `steps
      ensures steps == RecoveredRows(old(steps))
      ensures currentId == RecoveredCurrent(old(steps), current)
      ensures unsafeFound <==> exists i :: 0 <= i < |old(steps)| && UncertainRow(old(steps)[i])
    {
      currentId, unsafeFound := current, false;
      for index := 0 to |steps|
        invariant |steps| == |old(steps)|
        invariant forall i :: 0 <= i < index ==> steps[i] == RecoveredRow(old(steps)[i])
        invariant forall i :: index <= i < |steps| ==> steps[i] == old(steps)[i]
        invariant unsafeFound <==> exists i :: 0 <= i < index && UncertainRow(old(steps)[i])
        invariant RecoveredCurrent(old(steps), current) == RecoveredCurrent(old(steps)[index..], currentId)
      {
        var row := steps[index];
        assert old(steps)[index..][0] == row && old(steps)[index..][1..] == old(steps)[index + 1..];
        if row.status == StepRunning {
          if currentId.None? {
            currentId := Some(row.id);
          }
          if ReplayAfterCrash(row) {
            steps := steps[index := row.(status := StepPending)];
          } else {
            assert UncertainRow(old(steps)[index]);
            unsafeFound := true;
            currentId := Some(row.id);
            steps := steps[index := row.(status := StepUnknown)];
          }
        }
      }
      assert steps == RecoveredRows(old(steps));
    }

    /** Takes an abandoned task off its worker and requeues it, or parks it for review. */
    method RecoverStaleTask(now: Time, before: Time) returns (recovered: bool)
      modifies this
      ensures Rows() == Recover(old(Rows()), now, before)
      ensures recovered == Stale(old(Task()), now, before)
      ensures recovered <==> old(status) in {Running, Planning}
                             && match old(leaseUntil)
                                case Some(end) => end < now
                                case None => before > if old(heartbeatAt).Some? then old(heartbeatAt).value
                                                      else if old(startedAt).Some? then old(startedAt).value else old(updatedAt)
    {
      if !Stale(Task(), now, before) {
        return false;
      }
      var currentId, unsafeFound := NormalizeRunning();
      status := if unsafeFound then RequiresReview else Pending;
      current, checkpoint, runVersion, updatedAt := currentId, None, runVersion + 1, now;
      ReleaseLease();
      return true;
    }
  }
}
