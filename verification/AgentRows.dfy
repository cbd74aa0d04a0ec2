/**
 The durable rows of one Agent task and the effect of every transaction on them.

 Identifiers (UUIDs), worker names and tool names are numbers: only their equality matters.
 A column that the program reads as "empty" is `None`. Columns that no transaction tests
 (titles, previews, messages, attempt counters, finish times) are not part of the rows.
 */
module AgentRows {
  import opened Options

  type StepId = nat
  type WorkerId = nat
  type UserId = nat
  type OpId = nat
  type Time = int

  datatype TaskStatus = Pending | Planning | Running | WaitingApproval | RequiresReview
                      | Succeeded | Failed | Rejected | Cancelled

  datatype StepStatus = StepPending | StepRunning | StepWaiting | StepApproved | StepRejected
                      | StepSucceeded | StepFailed | StepUnknown | StepSkipped

  datatype Kind = Plan | Tool | Final

  datatype Decision = Undecided | Approved | Declined

  /** SHA-256, abstracted to an injective function of its input. */
  datatype Digest = Sha256(preimage: string)

  /** The trusted safety snapshot of an MCP tool. */
  datatype Policy = Policy(risk: nat, requiresApproval: bool, readOnly: bool, idempotent: bool, destructive: bool)

  datatype StepRow = StepRow(
    id: StepId, kind: Kind, status: StepStatus,
    tool: nat, arguments: string, digest: Digest, policy: Policy,
    decision: Decision, operationId: Option<OpId>)

  /** A checkpoint only decides at which graph node the next run starts. */
  datatype Node = AtDispatch | AtApproval

  datatype TaskRow = TaskRow(
    user: UserId, status: TaskStatus, current: Option<StepId>,
    checkpoint: Option<Node>, runVersion: nat,
    leaseOwner: Option<WorkerId>, leaseUntil: Option<Time>,
    heartbeatAt: Option<Time>, startedAt: Option<Time>, updatedAt: Time)

  /** One task with its steps in sequence order; `steps[0]` has sequence zero. */
  datatype Db = Db(task: TaskRow, steps: seq<StepRow>)

  /** The fencing token of a claimed run. */
  datatype Token = Token(version: nat, worker: WorkerId)

  const DEFAULT_LEASE: Time := 120000

  function LeaseEnd(now: Time, lease: Time): Time {
    now + if lease <= 0 then DEFAULT_LEASE else lease
  }

  predicate Replayable(p: Policy) {
    !p.destructive && (p.readOnly || p.idempotent)
  }

  /** A step that stale recovery and cancellation may treat as not executed. */
  predicate ReplayAfterCrash(row: StepRow) {
    row.kind == Plan || row.kind == Final || Replayable(row.policy)
  }

  predicate LeaseStatus(status: TaskStatus) {
    status == Running || status == Planning
  }

  // ----- generic row updates ("UPDATE ... WHERE id = x") -----

  /** The columns one statement sets; `None` leaves a column alone. */
  datatype StepPatch = StepPatch(
    status: StepStatus, operationId: Option<OpId>, decision: Option<Decision>, policy: Option<Policy>)

  function JustStatus(status: StepStatus): StepPatch {
    StepPatch(status, None, None, None)
  }

  function PatchRow(row: StepRow, patch: StepPatch): StepRow {
    row.(status := patch.status,
         operationId := if patch.operationId.Some? then patch.operationId else row.operationId,
         decision := if patch.decision.Some? then patch.decision.value else row.decision,
         policy := if patch.policy.Some? then patch.policy.value else row.policy)
  }

  function PatchRows(steps: seq<StepRow>, x: StepId, patch: StepPatch): (r: seq<StepRow>)
    ensures |r| == |steps|
    ensures forall i :: 0 <= i < |steps| ==>
              r[i] == if steps[i].id == x then PatchRow(steps[i], patch) else steps[i]
  {
    seq(|steps|, i requires 0 <= i < |steps| =>
      if steps[i].id == x then PatchRow(steps[i], patch) else steps[i])
  }

  predicate HasStep(steps: seq<StepRow>, x: StepId) {
    exists i :: 0 <= i < |steps| && steps[i].id == x
  }

  predicate HasRunningTool(steps: seq<StepRow>, x: StepId) {
    exists i :: 0 <= i < |steps| && steps[i].id == x && steps[i].kind == Tool && steps[i].status == StepRunning
  }

  // ----- creation -----

  function NewTask(user: UserId, planId: StepId, now: Time): Db {
    Db(TaskRow(user, Pending, Some(planId), None, 0, None, None, None, None, now),
       [StepRow(planId, Plan, StepPending, 0, "", Sha256(""), Policy(0, false, false, false, false), Undecided, None)])
  }

  // ----- claim, heartbeat -----

  predicate CanClaim(db: Db) {
    db.task.status == Pending
  }

  function Claim(db: Db, worker: WorkerId, now: Time, lease: Time): Db {
    if !CanClaim(db) then db else
    db.(task := db.task.(
        status := Running, runVersion := db.task.runVersion + 1,
        leaseOwner := Some(worker), leaseUntil := Some(LeaseEnd(now, lease)),
        heartbeatAt := Some(now),
        startedAt := if db.task.startedAt.Some? then db.task.startedAt else Some(now),
        updatedAt := now))
  }

  /** The predicate every worker write carries: version, owner and an unexpired lease. */
  predicate Fence(task: TaskRow, token: Token, now: Time) {
    && task.runVersion == token.version
    && task.leaseOwner == Some(token.worker)
    && task.leaseUntil.Some? && task.leaseUntil.value > now
  }

  predicate CanRenew(db: Db, token: Token, now: Time) {
    Fence(db.task, token, now) && LeaseStatus(db.task.status)
  }

  function Renew(db: Db, token: Token, now: Time, lease: Time): Db {
    if !CanRenew(db, token, now) then db else
    db.(task := db.task.(leaseUntil := Some(LeaseEnd(now, lease)), heartbeatAt := Some(now), updatedAt := now))
  }

  // ----- fenced worker writes -----

  predicate CanUpdateStep(db: Db, token: Token, now: Time, x: StepId) {
    Fence(db.task, token, now) && HasStep(db.steps, x)
  }

  function UpdateStep(db: Db, token: Token, now: Time, x: StepId, patch: StepPatch): Db {
    if !CanUpdateStep(db, token, now, x) then db else db.(steps := PatchRows(db.steps, x, patch))
  }

  datatype Heartbeat = KeepHeartbeat | ClearHeartbeat | BeatAt(time: Time)

  datatype TaskPatch = TaskPatch(
    status: Option<TaskStatus>, current: Option<Option<StepId>>, releaseLease: bool, heartbeat: Heartbeat)

  function PatchTask(task: TaskRow, patch: TaskPatch, now: Time): TaskRow {
    task.(status := if patch.status.Some? then patch.status.value else task.status,
          current := if patch.current.Some? then patch.current.value else task.current,
          leaseOwner := if patch.releaseLease then None else task.leaseOwner,
          leaseUntil := if patch.releaseLease then None else task.leaseUntil,
          heartbeatAt := match patch.heartbeat
            case KeepHeartbeat => task.heartbeatAt
            case ClearHeartbeat => None
            case BeatAt(t) => Some(t),
          updatedAt := now)
  }

  function UpdateTask(db: Db, token: Token, now: Time, patch: TaskPatch): Db {
    if !Fence(db.task, token, now) then db else db.(task := PatchTask(db.task, patch, now))
  }

  function Normalized(row: StepRow): StepRow {
    row.(status := StepPending, decision := Undecided, operationId := None)
  }

  function NormalizedPlan(steps: seq<StepRow>): (r: seq<StepRow>)
    ensures |r| == |steps|
    ensures forall i :: 0 <= i < |steps| ==> r[i] == Normalized(steps[i])
  {
    seq(|steps|, i requires 0 <= i < |steps| => Normalized(steps[i]))
  }

  predicate CanSavePlan(db: Db, token: Token, now: Time) {
    && Fence(db.task, token, now)
    && LeaseStatus(db.task.status)
    && |db.steps| > 0 && db.steps[0].kind == Plan
  }

  /** Replaces every step after sequence zero and completes the planning step. */
  function SavePlan(db: Db, token: Token, now: Time, steps: seq<StepRow>): Db {
    if !CanSavePlan(db, token, now) then db else
    db.(task := db.task.(status := Running,
                         current := if |steps| > 0 then Some(steps[0].id) else None,
                         updatedAt := now),
        steps := [db.steps[0].(status := StepSucceeded)] + NormalizedPlan(steps))
  }

  /** The shared second half of the two "pause for review" transactions. */
  function PausedForReview(task: TaskRow, x: StepId, now: Time): TaskRow {
    task.(status := RequiresReview, current := Some(x), runVersion := task.runVersion + 1,
          leaseOwner := None, leaseUntil := None, heartbeatAt := None, updatedAt := now)
  }

  predicate CanPause(db: Db, token: Token, now: Time, x: StepId) {
    Fence(db.task, token, now) && db.task.status == Running && HasRunningTool(db.steps, x)
  }

  function MarkUnknown(db: Db, token: Token, now: Time, x: StepId): Db {
    if !CanPause(db, token, now, x) then db else
    Db(PausedForReview(db.task, x, now), PatchRows(db.steps, x, JustStatus(StepUnknown)))
  }

  function MarkPolicyReview(db: Db, token: Token, now: Time, x: StepId, policy: Policy): Db {
    if !CanPause(db, token, now, x) then db else
    Db(PausedForReview(db.task, x, now),
       PatchRows(db.steps, x, StepPatch(StepUnknown, None, Some(Undecided), Some(policy))))
  }

  /** Checkpoint writes are fenced by the version alone. */
  predicate CanSetCheckpoint(db: Db, version: nat) {
    db.task.runVersion == version
  }

  function SetCheckpoint(db: Db, version: nat, node: Node, now: Time): Db {
    if !CanSetCheckpoint(db, version) then db else
    db.(task := db.task.(checkpoint := Some(node), updatedAt := now))
  }

  // ----- owner transitions -----

  predicate Awaits(row: StepRow, x: StepId) {
    row.id == x && row.status == StepWaiting && row.decision == Undecided
  }

  predicate CanApprove(db: Db, user: UserId, x: StepId, digest: Digest) {
    && db.task.user == user && db.task.status == WaitingApproval
    && exists i :: 0 <= i < |db.steps| && Awaits(db.steps[i], x) && db.steps[i].digest == digest
  }

  predicate CanReject(db: Db, user: UserId, x: StepId) {
    && db.task.user == user && db.task.status == WaitingApproval
    && exists i :: 0 <= i < |db.steps| && Awaits(db.steps[i], x)
  }

  function Decided(task: TaskRow, status: TaskStatus, x: StepId, bump: nat, now: Time): TaskRow {
    task.(status := status, current := Some(x), runVersion := task.runVersion + bump,
          leaseOwner := None, leaseUntil := None, heartbeatAt := None, checkpoint := None, updatedAt := now)
  }

  function Approve(db: Db, user: UserId, x: StepId, digest: Digest, now: Time): Db {
    if !CanApprove(db, user, x, digest) then db else
    Db(Decided(db.task, Pending, x, 0, now),
       PatchRows(db.steps, x, StepPatch(StepApproved, None, Some(Approved), None)))
  }

  function Reject(db: Db, user: UserId, x: StepId, now: Time): Db {
    if !CanReject(db, user, x) then db else
    Db(Decided(db.task, Rejected, x, 1, now),
       PatchRows(db.steps, x, StepPatch(StepRejected, None, Some(Declined), None)))
  }

  predicate TaskCanResume(status: TaskStatus, retryUnknown: bool) {
    status == Failed || (status == RequiresReview && retryUnknown)
  }

  predicate StepCanResume(status: StepStatus, retryUnknown: bool) {
    status == StepFailed || (status == StepUnknown && retryUnknown)
  }

  predicate Resumable(row: StepRow, current: Option<StepId>, retryUnknown: bool) {
    StepCanResume(row.status, retryUnknown) && (current.None? || current.value == row.id)
  }

  /** The first step in sequence order that a resume would reset. */
  function FirstResumable(steps: seq<StepRow>, current: Option<StepId>, retryUnknown: bool): (r: Option<StepRow>)
    ensures r.Some? ==> r.value in steps && Resumable(r.value, current, retryUnknown)
    ensures r.None? ==> forall i :: 0 <= i < |steps| ==> !Resumable(steps[i], current, retryUnknown)
  {
    if steps == [] then None
    else if Resumable(steps[0], current, retryUnknown) then Some(steps[0])
    else FirstResumable(steps[1..], current, retryUnknown)
  }

  function ResumeTarget(db: Db, user: UserId, retryUnknown: bool): Option<StepRow> {
    if db.task.user == user && TaskCanResume(db.task.status, retryUnknown)
    then FirstResumable(db.steps, db.task.current, retryUnknown) else None
  }

  function Resume(db: Db, user: UserId, retryUnknown: bool, now: Time): Db {
    var target := ResumeTarget(db, user, retryUnknown);
    if target.None? then db else
    Db(Decided(db.task, Pending, target.value.id, 1, now),
       PatchRows(db.steps, target.value.id, JustStatus(StepPending)))
  }

  predicate ActiveStep(status: StepStatus) {
    status == StepPending || status == StepRunning || status == StepWaiting || status == StepApproved
  }

  function CancelledRow(row: StepRow): StepRow {
    if !ActiveStep(row.status) then row
    else if row.status == StepRunning && !ReplayAfterCrash(row) then row.(status := StepUnknown)
    else row.(status := StepSkipped)
  }

  function CancelledRows(steps: seq<StepRow>): (r: seq<StepRow>)
    ensures |r| == |steps|
    ensures forall i :: 0 <= i < |steps| ==> r[i] == CancelledRow(steps[i])
  {
    seq(|steps|, i requires 0 <= i < |steps| => CancelledRow(steps[i]))
  }

  predicate CanCancel(db: Db, user: UserId) {
    db.task.user == user && db.task.status !in {Cancelled, Succeeded, Rejected}
  }

  function Cancel(db: Db, user: UserId, now: Time): Db {
    if !CanCancel(db, user) then db else
    Db(db.task.(status := Cancelled, runVersion := db.task.runVersion + 1,
                leaseOwner := None, leaseUntil := None, heartbeatAt := None, updatedAt := now),
       CancelledRows(db.steps))
  }

  // ----- stale recovery -----

  function LastSign(task: TaskRow): Time {
    if task.heartbeatAt.Some? then task.heartbeatAt.value
    else if task.startedAt.Some? then task.startedAt.value
    else task.updatedAt
  }

  predicate Stale(task: TaskRow, now: Time, before: Time) {
    && LeaseStatus(task.status)
    && if task.leaseUntil.Some? then task.leaseUntil.value < now else LastSign(task) < before
  }

  function RecoveredRow(row: StepRow): StepRow {
    if row.status != StepRunning then row
    else if ReplayAfterCrash(row) then row.(status := StepPending)
    else row.(status := StepUnknown)
  }

  function RecoveredRows(steps: seq<StepRow>): (r: seq<StepRow>)
    ensures |r| == |steps|
    ensures forall i :: 0 <= i < |steps| ==> r[i] == RecoveredRow(steps[i])
  {
    seq(|steps|, i requires 0 <= i < |steps| => RecoveredRow(steps[i]))
  }

  predicate UncertainRow(row: StepRow) {
    row.status == StepRunning && !ReplayAfterCrash(row)
  }

  predicate AnyUncertain(steps: seq<StepRow>) {
    exists i :: 0 <= i < |steps| && UncertainRow(steps[i])
  }

  /** The step recorded as current: the last uncertain one, else the old one, else the first running one. */
  function RecoveredCurrent(steps: seq<StepRow>, current: Option<StepId>): Option<StepId> {
    if steps == [] then current
    else
      var row := steps[0];
      RecoveredCurrent(steps[1..],
        if row.status == StepRunning && (current.None? || !ReplayAfterCrash(row)) then Some(row.id) else current)
  }

  function Recover(db: Db, now: Time, before: Time): Db {
    if !Stale(db.task, now, before) then db else
    Db(db.task.(status := if AnyUncertain(db.steps) then RequiresReview else Pending,
                current := RecoveredCurrent(db.steps, db.task.current),
                runVersion := db.task.runVersion + 1, checkpoint := None,
                leaseOwner := None, leaseUntil := None, heartbeatAt := None, updatedAt := now),
       RecoveredRows(db.steps))
  }
}
