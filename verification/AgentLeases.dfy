/**
 What a lease is worth: which tasks recovery may take, what a claim and a heartbeat record, and that nobody else takes a
 task whose recorded lease has not ended.
 */
module AgentLeases {
  import opened Options
  import opened AgentRows
  import opened AgentSystem
  import opened AgentInvariant
  import opened AgentTheorems

  /** The last sign of life of a worker that recorded no lease: its heartbeat, else its start, else the last update. */
  function Sign(task: TaskRow): Time {
    match task.heartbeatAt
    case Some(t) => t
    case None => if task.startedAt.Some? then task.startedAt.value else task.updatedAt
  }

  /** The worker of a running task has missed its time. */
  predicate Abandoned(task: TaskRow, now: Time, before: Time) {
    && (task.status == Running || task.status == Planning)
    && match task.leaseUntil
       case Some(end) => end < now
       case None => Sign(task) < before
  }

  /** Recovery changes the rows if and only if the task is running or planning and its worker has missed its time. */
  lemma RecoveryTakesExactly(s: Sys, now: Time, before: Time)
    ensures Step(s, Recovers(now, before)) != s <==> Abandoned(s.db.task, now, before)
  {
    if Abandoned(s.db.task, now, before) {
      assert Step(s, Recovers(now, before)).db.task.runVersion != s.db.task.runVersion;
    }
  }

  /** A running step may start over on its own if it plans, concludes, or calls what is not hazardous. */
  predicate StartsOver(row: StepRow) {
    row.kind != Tool || !Hazardous(row.policy)
  }

  /**
   A recovered task has no owner and no checkpoint. Its running steps start over, or are of unknown outcome and then
   put the task under review; nothing else has changed.
   */
  lemma RecoveryLeaves(s: Sys, now: Time, before: Time)
    requires Abandoned(s.db.task, now, before)
    ensures var task, after := s.db.task, Step(s, Recovers(now, before)).db;
            && after.task.leaseOwner == None && after.task.leaseUntil == None && after.task.heartbeatAt == None
            && after.task.checkpoint == None && after.task.runVersion == task.runVersion + 1
            && after.task.user == task.user && after.task.startedAt == task.startedAt
            && |after.steps| == |s.db.steps|
            && (forall i :: 0 <= i < |s.db.steps| ==>
                  var row := s.db.steps[i];
                  after.steps[i] == if row.status != StepRunning then row
                                    else row.(status := if StartsOver(row) then StepPending else StepUnknown))
            && (after.task.status == RequiresReview || after.task.status == Pending)
            && (after.task.status == RequiresReview <==>
                  exists i :: 0 <= i < |s.db.steps| && s.db.steps[i].status == StepRunning && !StartsOver(s.db.steps[i]))
  {
    var steps := s.db.steps;
    if i :| 0 <= i < |steps| && steps[i].status == StepRunning && !StartsOver(steps[i]) {
      assert UncertainRow(steps[i]);
    }
  }

  /** A running step whose call may have had an effect. */
  predicate InDoubt(row: StepRow) {
    row.status == StepRunning && !StartsOver(row)
  }

  lemma {:induction false} NobodyInDoubt(steps: seq<StepRow>, blamed: StepId)
    requires forall i :: 0 <= i < |steps| ==> !InDoubt(steps[i])
    ensures RecoveredCurrent(steps, Some(blamed)) == Some(blamed)
  {
    if steps != [] {
      NobodyInDoubt(steps[1..], blamed);
    }
  }

  /** The last step in doubt is to blame. */
  lemma {:induction false} BlamesLastInDoubt(steps: seq<StepRow>, current: Option<StepId>, i: nat)
    requires i < |steps| && InDoubt(steps[i]) && forall j :: i < j < |steps| ==> !InDoubt(steps[j])
    ensures RecoveredCurrent(steps, current) == Some(steps[i].id)
  {
    var row := steps[0];
    if i == 0 {
      NobodyInDoubt(steps[1..], row.id);
    } else {
      var next := if row.status == StepRunning && (current.None? || !ReplayAfterCrash(row)) then Some(row.id) else current;
      BlamesLastInDoubt(steps[1..], next, i - 1);
    }
  }

  /** Without one it is the step that was current, else the first that was running. */
  lemma {:induction false} BlamesFirstRunning(steps: seq<StepRow>, i: nat)
    requires forall j :: 0 <= j < |steps| ==> !InDoubt(steps[j])
    requires i <= |steps| && (forall j :: 0 <= j < i ==> steps[j].status != StepRunning)
    requires i < |steps| ==> steps[i].status == StepRunning
    ensures RecoveredCurrent(steps, None) == if i < |steps| then Some(steps[i].id) else None
  {
    if steps != [] {
      if i == 0 {
        NobodyInDoubt(steps[1..], steps[0].id);
      } else {
        BlamesFirstRunning(steps[1..], i - 1);
      }
    }
  }

  /** The step to blame is the one that was current. */
  lemma RecoveryKeepsCurrent(s: Sys, now: Time, before: Time)
    requires Reachable(s)
    ensures Step(s, Recovers(now, before)).db.task.current == s.db.task.current
  {
    ReachableInv(s);
    RecoveredCurrentKept(s.db.steps, s.db.task.current);
  }

  /** Run `token` is on record as the worker of a running task, until `until` at least. */
  ghost predicate Leased(db: Db, token: Token, until: Time) {
    && (db.task.status == Running || db.task.status == Planning)
    && db.task.runVersion == token.version && db.task.leaseOwner == Some(token.worker)
    && db.task.leaseUntil.Some? && db.task.leaseUntil.value >= until
  }

  /** How long a lease lasts that was asked for `lease` milliseconds: two minutes by default. */
  function Length(lease: Time): Time {
    if lease > 0 then lease else 120000
  }

  /** A claim lands exactly on a pending task, and leases it under a new version to the end of its length. */
  lemma ClaimLeases(s: Sys, worker: WorkerId, now: Time, lease: Time, started: bool)
    ensures var s' := Step(s, Claims(worker, now, lease, started));
            var token := Token(s.db.task.runVersion + 1, worker);
            if s.db.task.status == Pending then
              && Leased(s'.db, token, now + Length(lease)) && s'.db.task.leaseUntil == Some(now + Length(lease))
              && s'.db.task.status == Running && s'.db.task.heartbeatAt == Some(now)
              && |s'.runs| == |s.runs| + 1 && s'.runs[|s.runs|].token == token
              && s'.db.steps == s.db.steps && s'.db.task.checkpoint == s.db.task.checkpoint
              && s'.db.task.current == s.db.task.current && s'.db.task.user == s.db.task.user
            else s' == s
  {
  }

  /** A heartbeat lands exactly while its run owns an unexpired lease, and moves nothing but its times. */
  lemma HeartbeatRenews(s: Sys, r: nat, now: Time, lease: Time)
    requires r < |s.runs|
    ensures var task := s.db.task;
            Step(s, Renews(r, now, lease))
            == if Leased(s.db, s.runs[r].token, now + 1)
               then s.(db := s.db.(task := task.(leaseUntil := Some(now + Length(lease)), heartbeatAt := Some(now), updatedAt := now)))
               else s
  {
  }

  /** A lease just claimed or renewed is safe from recovery until it ends. */
  lemma FreshLeaseIsSafe(s: Sys, worker: WorkerId, r: nat, now: Time, lease: Time, later: Time, before: Time)
    requires lease > 0 && later <= now + lease
    ensures s.db.task.status == Pending ==>
              var s' := Step(s, Claims(worker, now, lease, true)); Step(s', Recovers(later, before)) == s'
    ensures r < |s.runs| && Leased(s.db, s.runs[r].token, now + 1) ==>
              var s' := Step(s, Renews(r, now, lease)); Step(s', Recovers(later, before)) == s'
  {
    var claimed := Step(s, Claims(worker, now, lease, true));
    RecoveryTakesExactly(claimed, later, before);
    var renewed := Step(s, Renews(r, now, lease));
    RecoveryTakesExactly(renewed, later, before);
    if r < |s.runs| {
      HeartbeatRenews(s, r, now, lease);
    }
  }

  // ----- nobody else takes a leased task -----

  /** Anything but the worker's own steps and a cancellation, with clocks that have not passed `until`. */
  predicate Others(l: Label, r: nat, until: Time) {
    match l
    case Advances(q, _, _, _) => q != r
    case Recovers(now, _) => now <= until
    case Renews(_, now, lease) => now + Length(lease) >= until
    case Cancels(_, _) => false
    case _ => true
  }

  lemma OthersKeepLease(s: Sys, r: nat, until: Time, l: Label)
    requires Inv(s) && r < |s.runs| && Leased(s.db, s.runs[r].token, until) && Others(l, r, until)
    ensures var s' := Step(s, l);
            r < |s'.runs| && s'.runs[r].token == s.runs[r].token && Leased(s'.db, s.runs[r].token, until)
            && s'.db.steps == s.db.steps && s'.db.task.status == s.db.task.status
  {
    match l {
      case Advances(q, now, out, env) =>
        if q < |s.runs| {
          AdvanceFenced(s, q, now, out, env);
          if Fence(s.db.task, s.runs[q].token, now) {
            FenceMeansHolder(s, q, now);
            HolderFacts(s, r);
          }
        }
      case Recovers(now, before) => RecoveryTakesExactly(s, now, before);
      case Renews(q, now, lease) =>
        if q < |s.runs| {
          HeartbeatRenews(s, q, now, lease);
        }
      case _ =>
    }
  }

  /**
   Until its lease ends a worker keeps its task and finds every step as it left it, whatever other workers, recovery
   passes, late writes and owners do, unless the task is cancelled.
   */
  lemma LeaseIsKept(s: Sys, r: nat, until: Time, labels: seq<Label>)
    requires Reachable(s) && r < |s.runs| && Leased(s.db, s.runs[r].token, until)
    requires forall k :: 0 <= k < |labels| ==> Others(labels[k], r, until)
    ensures var s' := Exec(s, labels);
            r < |s'.runs| && s'.runs[r].token == s.runs[r].token && Leased(s'.db, s.runs[r].token, until)
            && s'.db.steps == s.db.steps && s'.db.task.status == s.db.task.status
  {
    ReachableInv(s);
    ExecLeased(s, r, until, labels);
  }

  lemma {:induction false} ExecLeased(s: Sys, r: nat, until: Time, labels: seq<Label>)
    requires Inv(s) && r < |s.runs| && Leased(s.db, s.runs[r].token, until)
    requires forall k :: 0 <= k < |labels| ==> Others(labels[k], r, until)
    ensures var s' := Exec(s, labels);
            r < |s'.runs| && s'.runs[r].token == s.runs[r].token && Leased(s'.db, s.runs[r].token, until)
            && s'.db.steps == s.db.steps && s'.db.task.status == s.db.task.status
    decreases |labels|
  {
    if labels != [] {
      var before := labels[..|labels| - 1];
      ExecLeased(s, r, until, before);
      ExecInv(s, before);
      OthersKeepLease(Exec(s, before), r, until, labels[|labels| - 1]);
    }
  }
}
