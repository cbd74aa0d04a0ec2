/**
 The replay bound: how often a tool step can be sent under a policy that does not allow replay.

 Each successful "running" mark by a non-replayable run is a permit for one call. A step that can be
 dispatched again without the owner's explicit retry never has more calls and open permits than retries.
 */
module AgentReplay {
  import opened Options
  import opened AgentRows
  import opened AgentRouting
  import opened AgentSystem
  import opened AgentInvariant
  import opened AgentFootprint

  /** Calls of step `x` made under a non-replayable policy. */
  function Sends(log: seq<Event>, x: StepId): nat {
    if log == [] then 0
    else
      var e := log[|log| - 1];
      Sends(log[..|log| - 1], x) + if e.Sent? && e.step == x && !Replayable(e.policy) then 1 else 0
  }

  /** Explicit confirmations: owner retries of step `x` out of the unknown outcome. */
  function Retries(log: seq<Event>, x: StepId): nat {
    if log == [] then 0
    else Retries(log[..|log| - 1], x) + if log[|log| - 1] == OwnerRetried(x) then 1 else 0
  }

  predicate HasPermit(pc: Pc, x: StepId) {
    pc.ToolArmed? && pc.snap.id == x && !Replayable(pc.snap.policy)
  }

  /** Open permits: runs that may still send step `x`, however stale they are. */
  function Permits(runs: seq<Run>, x: StepId): nat {
    if runs == [] then 0
    else Permits(runs[..|runs| - 1], x) + if HasPermit(runs[|runs| - 1].pc, x) then 1 else 0
  }

  function Exposure(s: Sys, x: StepId): nat {
    Sends(s.log, x) + Permits(s.runs, x)
  }

  /** A row in one of these states cannot be dispatched again without an explicit retry. */
  predicate Uncertain(row: StepRow) {
    row.status == StepUnknown
    || (!Replayable(row.policy) && (row.status == StepRunning || row.status == StepSucceeded))
  }

  ghost predicate RowBound(s: Sys, row: StepRow) {
    row.kind == Tool ==> Exposure(s, row.id) <= Retries(s.log, row.id) + if Uncertain(row) then 1 else 0
  }

  function LastPc(runs: seq<Run>): Pc {
    if runs == [] then Done else runs[|runs| - 1].pc
  }

  /** A holder about to record an ordinary failure has no unexplained call behind it. */
  ghost predicate FailBound(s: Sys) {
    s.db.task.leaseOwner.Some? && LastPc(s.runs).FailStep? && RowIs(s.db, LastPc(s.runs).step, Tool) ==>
      Exposure(s, LastPc(s.runs).step) <= Retries(s.log, LastPc(s.runs).step)
  }

  ghost predicate Bounded(s: Sys) {
    (forall i :: 0 <= i < |s.db.steps| ==> RowBound(s, s.db.steps[i]))
  }

  ghost predicate ReplayInv(s: Sys) {
    Bounded(s) && FailBound(s)
  }

  // ----- counting -----

  lemma LogStep(log: seq<Event>, e: Event, x: StepId)
    ensures Sends(log + [e], x) == Sends(log, x) + if e.Sent? && e.step == x && !Replayable(e.policy) then 1 else 0
    ensures Retries(log + [e], x) == Retries(log, x) + if e == OwnerRetried(x) then 1 else 0
  {
    assert (log + [e])[..|log|] == log;
  }

  lemma PermitAppend(runs: seq<Run>, run: Run, x: StepId)
    ensures Permits(runs + [run], x) == Permits(runs, x) + if HasPermit(run.pc, x) then 1 else 0
  {
    assert (runs + [run])[..|runs|] == runs;
  }

  lemma {:induction false} PermitUpdate(runs: seq<Run>, r: nat, run: Run, x: StepId)
    requires r < |runs|
    ensures Permits(runs[r := run], x)
         == Permits(runs, x) - (if HasPermit(runs[r].pc, x) then 1 else 0) + (if HasPermit(run.pc, x) then 1 else 0)
  {
    var n := |runs| - 1;
    if r == n {
      assert runs[r := run][..n] == runs[..n];
    } else {
      assert runs[r := run][..n] == runs[..n][r := run];
      PermitUpdate(runs[..n], r, run, x);
    }
  }

  lemma {:induction false} PermitPositive(runs: seq<Run>, x: StepId)
    requires Permits(runs, x) > 0
    ensures exists r :: 0 <= r < |runs| && HasPermit(runs[r].pc, x)
  {
    var n := |runs| - 1;
    if !HasPermit(runs[n].pc, x) {
      PermitPositive(runs[..n], x);
      var r :| 0 <= r < |runs[..n]| && HasPermit(runs[..n][r].pc, x);
      assert HasPermit(runs[r].pc, x);
    }
  }

  lemma {:induction false} SendsPositive(log: seq<Event>, x: StepId)
    requires Sends(log, x) > 0
    ensures exists k :: 0 <= k < |log| && log[k].Sent? && log[k].step == x
  {
    var n := |log| - 1;
    if !(log[n].Sent? && log[n].step == x) {
      SendsPositive(log[..n], x);
      var k :| 0 <= k < |log[..n]| && log[..n][k].Sent? && log[..n][k].step == x;
      assert log[k].Sent? && log[k].step == x;
    }
  }

  /** A step that was ever prepared or sent has a durable tool row. */
  lemma ExposureHasRow(s: Sys, x: StepId)
    requires Footprint(s) && Exposure(s, x) > 0
    ensures RowIs(s.db, x, Tool)
  {
    if Permits(s.runs, x) > 0 {
      PermitPositive(s.runs, x);
      var r :| 0 <= r < |s.runs| && HasPermit(s.runs[r].pc, x);
      assert RunCallRow(s.db.steps, s.runs[r].pc);
    } else {
      SendsPositive(s.log, x);
      var k :| 0 <= k < |s.log| && s.log[k].Sent? && s.log[k].step == x;
      assert EventCallRow(s.db.steps, s.log[k]);
    }
  }

  // ----- transitions that prepare and make no call -----

  /** Exposure never grows, confirmations are never forgotten. */
  ghost predicate Calmer(s: Sys, s': Sys) {
    forall x :: Exposure(s', x) <= Exposure(s, x) && Retries(s'.log, x) >= Retries(s.log, x)
  }

  /** Row by row: still uncertain if it was, unless its calls are all explained. */
  ghost predicate RowsExplained(s: Sys, s': Sys) {
    && |s'.db.steps| == |s.db.steps|
    && forall i :: 0 <= i < |s.db.steps| ==>
         && s'.db.steps[i].id == s.db.steps[i].id && s'.db.steps[i].kind == s.db.steps[i].kind
         && (s.db.steps[i].kind == Tool && Uncertain(s.db.steps[i]) ==>
               Uncertain(s'.db.steps[i]) || Exposure(s', s.db.steps[i].id) <= Retries(s'.log, s.db.steps[i].id))
  }

  lemma CalmBounded(s: Sys, s': Sys)
    requires Bounded(s) && Calmer(s, s') && RowsExplained(s, s')
    ensures Bounded(s')
  {
    forall i | 0 <= i < |s'.db.steps|
      ensures RowBound(s', s'.db.steps[i])
    {
      assert RowBound(s, s.db.steps[i]);
    }
  }

  lemma SameRowsExplained(s: Sys, s': Sys)
    requires s'.db.steps == s.db.steps
    ensures RowsExplained(s, s')
  {
  }

  lemma QuietCalmer(s: Sys, s': Sys, r: nat)
    requires r < |s.runs| && Quiet(s, s', r)
    ensures Calmer(s, s')
  {
    forall x
      ensures Exposure(s', x) <= Exposure(s, x) && Retries(s'.log, x) >= Retries(s.log, x)
    {
      assert s'.runs == s.runs[r := s'.runs[r]];
      PermitUpdate(s.runs, r, s'.runs[r], x);
      if s'.log != s.log {
        LogStep(s.log, PolicyReset(s.runs[r].pc.step), x);
      }
    }
  }

  /** Losing its own permit leaves the holder with nothing unexplained. */
  lemma PermitDropped(s: Sys, s': Sys, r: nat)
    requires Core(s) && Bounded(s) && Holds(s, r) && s.runs[r].pc.ToolArmed? && r < |s'.runs|
    requires s'.log == s.log && s'.db == s.db && s'.runs == s.runs[r := s'.runs[r]] && !s'.runs[r].pc.ToolArmed?
    ensures Exposure(s', s.runs[r].pc.snap.id) <= Retries(s.log, s.runs[r].pc.snap.id)
  {
    HolderFacts(s, r);
    var snap, op := s.runs[r].pc.snap, s.runs[r].pc.op;
    var k :| 0 <= k < |s.db.steps| && s.db.steps[k] == MarkedRunning(snap, op);
    assert RowBound(s, s.db.steps[k]);
    PermitUpdate(s.runs, r, s'.runs[r], snap.id);
  }

  // ----- the worker -----

  /** Marking a step running issues at most one permit, and makes a non-replayable row uncertain. */
  lemma MarkBounded(s: Sys, s': Sys, r: nat, snap: StepRow, op: OpId)
    requires Distinct(s.db.steps) && Bounded(s) && snap in s.db.steps && Ready(snap.status)
    requires r < |s.runs| && !s.runs[r].pc.ToolArmed? && s'.log == s.log
    requires |s'.runs| == |s.runs| && s'.runs == s.runs[r := s'.runs[r]]
    requires s'.runs[r].pc.ToolArmed? ==> s'.runs[r].pc.snap == snap
    requires s'.db.steps == PatchRows(s.db.steps, snap.id, StepPatch(StepRunning, Some(op), None, None))
    ensures Bounded(s')
  {
    var k :| 0 <= k < |s.db.steps| && s.db.steps[k] == snap;
    forall i | 0 <= i < |s'.db.steps|
      ensures RowBound(s', s'.db.steps[i])
    {
      assert RowBound(s, s.db.steps[i]);
      PermitUpdate(s.runs, r, s'.runs[r], s.db.steps[i].id);
      if s.db.steps[i].id == snap.id {
        UniqueRow(s.db.steps, i, k);
      }
    }
  }

  lemma ReplayMark(s: Sys, r: nat, now: Time, out: Outcome, env: Env)
    requires Core(s) && ReplayInv(s) && r < |s.runs| && s.runs[r].pc.ToolMark?
    ensures ReplayInv(ToolNode(s, r, now, out, env))
  {
    var s' := ToolNode(s, r, now, out, env);
    var snap, op := s.runs[r].pc.snap, s.runs[r].pc.op;
    if CanUpdateStep(s.db, s.runs[r].token, now, snap.id) && !out.Refused? {
      FenceMeansHolder(s, r, now);
      MarkBounded(s, s', r, snap, op);
    } else {
      assert s' == Goto(s, r, FailRead);
      GotoQuiet(s, r, FailRead);
      QuietCalmer(s, s', r);
      SameRowsExplained(s, s');
      CalmBounded(s, s');
      MarkLostFailBound(s, s', r);
    }
  }

  lemma MarkLostFailBound(s: Sys, s': Sys, r: nat)
    requires ReplayInv(s) && r < |s.runs| && s' == Goto(s, r, FailRead) && Calmer(s, s')
    ensures FailBound(s')
  {
  }

  lemma ReplayArmed(s: Sys, r: nat, now: Time, out: Outcome, env: Env)
    requires Core(s) && ReplayInv(s) && r < |s.runs| && s.runs[r].pc.ToolArmed?
    ensures ReplayInv(ToolNode(s, r, now, out, env))
  {
    var s' := ToolNode(s, r, now, out, env);
    ArmedCalmer(s, r, now, out, env);
    SameRowsExplained(s, s');
    CalmBounded(s, s');
    ArmedFailBound(s, r, now, out, env);
  }

  /** A call turns one permit into one send. */
  lemma ArmedCalmer(s: Sys, r: nat, now: Time, out: Outcome, env: Env)
    requires r < |s.runs| && s.runs[r].pc.ToolArmed?
    ensures Calmer(s, ToolNode(s, r, now, out, env))
  {
    var s' := ToolNode(s, r, now, out, env);
    var snap, op := s.runs[r].pc.snap, s.runs[r].pc.op;
    forall x
      ensures Exposure(s', x) <= Exposure(s, x) && Retries(s'.log, x) >= Retries(s.log, x)
    {
      assert s'.runs == s.runs[r := s'.runs[r]];
      PermitUpdate(s.runs, r, s'.runs[r], x);
      LogStep(s.log, Sent(snap.id, snap.arguments, op, snap.policy, env.policy, s.runs[r].claimAt), x);
    }
  }

  lemma ArmedFailBound(s: Sys, r: nat, now: Time, out: Outcome, env: Env)
    requires Core(s) && ReplayInv(s) && r < |s.runs| && s.runs[r].pc.ToolArmed?
    requires Calmer(s, ToolNode(s, r, now, out, env))
    ensures FailBound(ToolNode(s, r, now, out, env))
  {
    var s' := ToolNode(s, r, now, out, env);
    var last := |s.runs| - 1;
    if s'.db.task.leaseOwner.Some? && LastPc(s'.runs).FailStep? && RowIs(s'.db, LastPc(s'.runs).step, Tool) {
      ArmedOutcome(s, r, now, out, env);
      if r == last {
        ArmedFailure(s, s', r);
      }
    }
  }

  /** The holder's failed call is explained: it did not leave, or it may be replayed. */
  lemma ArmedFailure(s: Sys, s': Sys, r: nat)
    requires Core(s) && Bounded(s) && Holds(s, r) && s.runs[r].pc.ToolArmed? && r < |s'.runs| && Calmer(s, s')
    requires s'.db == s.db && s'.runs == s.runs[r := s'.runs[r]] && !s'.runs[r].pc.ToolArmed?
    requires s'.log != s.log ==> Replayable(s.runs[r].pc.snap.policy)
    ensures Exposure(s', s.runs[r].pc.snap.id) <= Retries(s'.log, s.runs[r].pc.snap.id)
  {
    HolderFacts(s, r);
    if s'.log == s.log {
      PermitDropped(s, s', r);
    } else {
      SafeCallExplained(s, s.runs[r].pc.snap, s.runs[r].pc.op);
    }
  }

  /** Only a replay-safe call fails in the ordinary way after it was sent. */
  lemma ArmedOutcome(s: Sys, r: nat, now: Time, out: Outcome, env: Env)
    requires r < |s.runs| && s.runs[r].pc.ToolArmed?
    ensures var s' := ToolNode(s, r, now, out, env);
            && s'.db == s.db && s'.runs == s.runs[r := s'.runs[r]] && !s'.runs[r].pc.ToolArmed?
            && (s'.runs[r].pc.FailStep? ==> s'.runs[r].pc.step == s.runs[r].pc.snap.id)
            && (s'.runs[r].pc.FailStep? && s'.log != s.log ==> Replayable(s.runs[r].pc.snap.policy))
  {
  }

  /** All calls of a replay-safe running step are explained. */
  lemma SafeCallExplained(s: Sys, snap: StepRow, op: OpId)
    requires Bounded(s) && MarkedRunning(snap, op) in s.db.steps && snap.kind == Tool && Replayable(snap.policy)
    ensures Exposure(s, snap.id) <= Retries(s.log, snap.id)
  {
    var k :| 0 <= k < |s.db.steps| && s.db.steps[k] == MarkedRunning(snap, op);
    assert RowBound(s, s.db.steps[k]);
  }

  lemma ReplayToolDone(s: Sys, r: nat, now: Time, out: Outcome, env: Env)
    requires Core(s) && ReplayInv(s) && r < |s.runs| && s.runs[r].pc.ToolDone?
    ensures ReplayInv(ToolNode(s, r, now, out, env))
  {
    var s' := ToolNode(s, r, now, out, env);
    var snap, op := s.runs[r].pc.snap, s.runs[r].pc.op;
    ToolQuiet(s, r, now, out, env);
    QuietCalmer(s, s', r);
    if CanUpdateStep(s.db, s.runs[r].token, now, snap.id) {
      FenceMeansHolder(s, r, now);
      DoneRows(s, s', snap, op);
    }
    CalmBounded(s, s');
    DoneFailBound(s, s', r);
  }

  /** A replay-safe step has no unexplained calls, whatever became of its success record. */
  lemma DoneFailBound(s: Sys, s': Sys, r: nat)
    requires Core(s) && ReplayInv(s) && r < |s.runs| && s.runs[r].pc.ToolDone? && Calmer(s, s')
    requires |s'.runs| == |s.runs| && s'.runs == s.runs[r := s'.runs[r]] && s'.db.task == s.db.task && s'.log == s.log
    requires s'.runs[r].pc.FailStep? ==>
               Replayable(s.runs[r].pc.snap.policy) && s'.runs[r].pc.step == s.runs[r].pc.snap.id
    requires RowsExplained(s, s')
    ensures FailBound(s')
  {
    if r < |s.runs| - 1 {
      OthersFailBound(s, s', r);
    } else if s'.db.task.leaseOwner.Some? && s'.runs[r].pc.FailStep? {
      DoneFailure(s, r);
    }
  }

  /** A run that is not the latest changes nothing about the holder's failure. */
  lemma OthersFailBound(s: Sys, s': Sys, r: nat)
    requires FailBound(s) && r < |s.runs| - 1 && Calmer(s, s') && RowsExplained(s, s')
    requires |s'.runs| == |s.runs| && s'.runs[|s.runs| - 1] == s.runs[|s.runs| - 1] && s'.db.task == s.db.task
    ensures FailBound(s')
  {
    if LastPc(s'.runs).FailStep? && RowIs(s'.db, LastPc(s'.runs).step, Tool) {
      RowIsKept(s.db, s'.db, LastPc(s'.runs).step);
    }
  }

  lemma DoneFailure(s: Sys, r: nat)
    requires Core(s) && Bounded(s) && Holds(s, r) && s.runs[r].pc.ToolDone? && Replayable(s.runs[r].pc.snap.policy)
    ensures Exposure(s, s.runs[r].pc.snap.id) <= Retries(s.log, s.runs[r].pc.snap.id)
  {
    HolderFacts(s, r);
    SafeCallExplained(s, s.runs[r].pc.snap, s.runs[r].pc.op);
  }

  lemma DoneRows(s: Sys, s': Sys, snap: StepRow, op: OpId)
    requires Distinct(s.db.steps) && MarkedRunning(snap, op) in s.db.steps
    requires s'.db.steps == s.db.steps || s'.db.steps == PatchRows(s.db.steps, snap.id, JustStatus(StepSucceeded))
    ensures RowsExplained(s, s')
  {
    var k :| 0 <= k < |s.db.steps| && s.db.steps[k] == MarkedRunning(snap, op);
    forall i | 0 <= i < |s.db.steps| && Uncertain(s.db.steps[i])
      ensures Uncertain(s'.db.steps[i])
    {
      if s.db.steps[i].id == snap.id {
        UniqueRow(s.db.steps, i, k);
      }
    }
  }

  lemma RowIsKept(before: Db, after: Db, x: StepId)
    requires |after.steps| == |before.steps|
    requires forall i :: 0 <= i < |before.steps| ==>
               after.steps[i].id == before.steps[i].id && after.steps[i].kind == before.steps[i].kind
    requires RowIs(after, x, Tool)
    ensures RowIs(before, x, Tool)
  {
    var i :| 0 <= i < |after.steps| && after.steps[i].id == x && after.steps[i].kind == Tool;
    assert before.steps[i].id == x && before.steps[i].kind == Tool;
  }

  /** Any other quiet move: the caller shows its rows are explained and its failure entries bounded. */
  lemma ReplayQuiet(s: Sys, s': Sys, r: nat)
    requires ReplayInv(s) && LeaseInv(s') && r < |s.runs| && Quiet(s, s', r)
    requires RowsExplained(s, s')
    requires s'.db.task.leaseOwner.Some? ==> s.db.task.leaseOwner.Some?
    requires s'.runs[r].pc.FailStep? ==> Holds(s', r) ==> !RowIs(s'.db, s'.runs[r].pc.step, Tool)
    ensures ReplayInv(s')
  {
    QuietCalmer(s, s', r);
    CalmBounded(s, s');
    if s'.db.task.leaseOwner.Some? && LastPc(s'.runs).FailStep? && RowIs(s'.db, LastPc(s'.runs).step, Tool) {
      RowIsKept(s.db, s'.db, LastPc(s'.runs).step);
    }
  }

  lemma PatchExplained(s: Sys, s': Sys, x: StepId, patch: StepPatch)
    requires s'.db.steps == s.db.steps || s'.db.steps == PatchRows(s.db.steps, x, patch)
    requires forall i :: 0 <= i < |s.db.steps| && s.db.steps[i].id == x && s.db.steps[i].kind == Tool && Uncertain(s.db.steps[i]) ==>
               Uncertain(PatchRow(s.db.steps[i], patch)) || Exposure(s', x) <= Retries(s'.log, x)
    ensures RowsExplained(s, s')
  {
  }

  lemma NotToolRow(db: Db, x: StepId, kind: Kind)
    requires Distinct(db.steps) && RowIs(db, x, kind) && kind != Tool
    ensures !RowIs(db, x, Tool)
    ensures forall i :: 0 <= i < |db.steps| && db.steps[i].id == x ==> db.steps[i].kind != Tool
  {
    var k :| 0 <= k < |db.steps| && db.steps[k].id == x && db.steps[k].kind == kind;
    forall i | 0 <= i < |db.steps| && db.steps[i].id == x
      ensures db.steps[i].kind != Tool
    {
      UniqueRow(db.steps, i, k);
    }
  }

  lemma ReadyNotUncertain(db: Db, x: StepId)
    requires Distinct(db.steps) && ToolReady(db, x)
    ensures forall i :: 0 <= i < |db.steps| && db.steps[i].id == x ==> !Uncertain(db.steps[i])
  {
    var k :| 0 <= k < |db.steps| && db.steps[k].id == x && db.steps[k].kind == Tool && Ready(db.steps[k].status);
    forall i | 0 <= i < |db.steps| && db.steps[i].id == x
      ensures !Uncertain(db.steps[i])
    {
      UniqueRow(db.steps, i, k);
    }
  }

  // ----- the remaining points of a run -----

  lemma ReplayLoad(s: Sys, r: nat, env: Env)
    requires Core(s) && ReplayInv(s) && r < |s.runs| && s.runs[r].pc.Loading?
    ensures ReplayInv(LoadStep(s, r, env, s.runs[r].pc.first))
  {
    var s' := LoadStep(s, r, env, s.runs[r].pc.first);
    LoadCore(s, r, env);
    SameRowsExplained(s, s');
    ReplayQuiet(s, s', r);
  }

  lemma ReplaySave(s: Sys, r: nat, now: Time, out: Outcome)
    requires Core(s) && ReplayInv(s) && r < |s.runs| && s.runs[r].pc.Saving?
    ensures ReplayInv(SaveStep(s, r, now, out, s.runs[r].pc.node))
  {
    var s' := SaveStep(s, r, now, out, s.runs[r].pc.node);
    SaveCore(s, r, now, out);
    SameRowsExplained(s, s');
    ReplayQuiet(s, s', r);
  }

  lemma ReplayPlan(s: Sys, r: nat, now: Time, out: Outcome, env: Env)
    requires Core(s) && Footprint(s) && ReplayInv(s) && r < |s.runs| && !s.runs[r].pc.ToolArmed?
    ensures ReplayInv(PlanNode(s, r, now, out, env))
  {
    var s' := PlanNode(s, r, now, out, env);
    if s' == s {
      return;
    }
    PlanCore(s, r, now, out, env);
    PlanQuiet(s, r, now, out, env);
    if s.runs[r].pc.PlanSave? && s'.db != s.db {
      ReplayPlanSave(s, r, now, out, env);
    } else {
      PlanExplained(s, r, now, out, env);
      ReplayQuiet(s, s', r);
    }
  }

  lemma PlanExplained(s: Sys, r: nat, now: Time, out: Outcome, env: Env)
    requires Core(s) && r < |s.runs| && (s.runs[r].pc.PlanSave? ==> PlanNode(s, r, now, out, env).db == s.db)
    ensures RowsExplained(s, PlanNode(s, r, now, out, env))
    ensures !PlanNode(s, r, now, out, env).runs[r].pc.FailStep? || PlanNode(s, r, now, out, env) == s
    ensures PlanNode(s, r, now, out, env).db.task.leaseOwner == s.db.task.leaseOwner
  {
    var s' := PlanNode(s, r, now, out, env);
    if s.runs[r].pc.PlanRun? && CanUpdateStep(s.db, s.runs[r].token, now, s.runs[r].pc.step) {
      FenceMeansHolder(s, r, now);
      PatchExplained(s, s', s.runs[r].pc.step, JustStatus(StepRunning));
    } else {
      SameRowsExplained(s, s');
    }
  }

  lemma ReplayPlanSave(s: Sys, r: nat, now: Time, out: Outcome, env: Env)
    requires Core(s) && Footprint(s) && r < |s.runs| && s.runs[r].pc.PlanSave?
    requires PlanNode(s, r, now, out, env).db != s.db
    ensures ReplayInv(PlanNode(s, r, now, out, env))
  {
    var s' := PlanNode(s, r, now, out, env);
    FenceMeansHolder(s, r, now);
    PlanQuiet(s, r, now, out, env);
    QuietCalmer(s, s', r);
    forall i | 0 <= i < |s'.db.steps|
      ensures RowBound(s', s'.db.steps[i])
    {
      if Exposure(s, s'.db.steps[i].id) > 0 {
        ExposureHasRow(s, s'.db.steps[i].id);
      }
    }
  }

  lemma ReplayDispatch(s: Sys, r: nat, now: Time, out: Outcome, env: Env)
    requires Core(s) && ReplayInv(s) && r < |s.runs| && !s.runs[r].pc.ToolArmed?
    ensures ReplayInv(DispatchNode(s, r, now, out, env))
  {
    var s' := DispatchNode(s, r, now, out, env);
    if s' == s {
      return;
    }
    DispatchCore(s, r, now, out, env);
    DispatchQuiet(s, r, now, out, env);
    DispatchExplained(s, r, now, out, env);
    SameRowsExplained(s, s');
    ReplayQuiet(s, s', r);
  }

  lemma DispatchExplained(s: Sys, r: nat, now: Time, out: Outcome, env: Env)
    requires r < |s.runs|
    ensures var s' := DispatchNode(s, r, now, out, env);
            && s'.db.steps == s.db.steps && s'.db.task.leaseOwner == s.db.task.leaseOwner
            && (s'.runs[r].pc.FailStep? ==> s' == s)
  {
  }

  lemma ReplayApproval(s: Sys, r: nat, now: Time, out: Outcome, env: Env)
    requires Core(s) && ReplayInv(s) && r < |s.runs| && !s.runs[r].pc.ToolArmed?
    ensures ReplayInv(ApprovalNode(s, r, now, out, env))
  {
    var s' := ApprovalNode(s, r, now, out, env);
    if s' == s {
      return;
    }
    ApprovalCore(s, r, now, out, env);
    ApprovalQuiet(s, r, now, out, env);
    ApprovalExplained(s, r, now, out, env);
    ReplayQuiet(s, s', r);
  }

  lemma ApprovalExplained(s: Sys, r: nat, now: Time, out: Outcome, env: Env)
    requires Core(s) && r < |s.runs|
    ensures var s' := ApprovalNode(s, r, now, out, env);
            && RowsExplained(s, s') && (s'.db.task.leaseOwner.Some? ==> s.db.task.leaseOwner.Some?)
            && (s'.runs[r].pc.FailStep? ==> s' == s)
  {
    var s' := ApprovalNode(s, r, now, out, env);
    if s.runs[r].pc.ApprovalStep? && CanUpdateStep(s.db, s.runs[r].token, now, s.runs[r].pc.step) {
      FenceMeansHolder(s, r, now);
      ReadyNotUncertain(s.db, s.runs[r].pc.step);
      PatchExplained(s, s', s.runs[r].pc.step, JustStatus(StepWaiting));
    } else {
      SameRowsExplained(s, s');
    }
  }

  lemma ReplayTool(s: Sys, r: nat, now: Time, out: Outcome, env: Env)
    requires Core(s) && ReplayInv(s) && r < |s.runs|
    ensures ReplayInv(ToolNode(s, r, now, out, env))
  {
    if s.runs[r].pc.ToolMark? {
      ReplayMark(s, r, now, out, env);
    } else if s.runs[r].pc.ToolArmed? {
      ReplayArmed(s, r, now, out, env);
    } else if s.runs[r].pc.ToolDone? {
      ReplayToolDone(s, r, now, out, env);
    } else if ToolNode(s, r, now, out, env) != s {
      ToolCore(s, r, now, out, env);
      ToolQuiet(s, r, now, out, env);
      ToolExplained(s, r, now, out, env);
      ReplayQuiet(s, ToolNode(s, r, now, out, env), r);
    }
  }

  lemma ToolExplained(s: Sys, r: nat, now: Time, out: Outcome, env: Env)
    requires Core(s) && r < |s.runs|
    requires !s.runs[r].pc.ToolMark? && !s.runs[r].pc.ToolArmed? && !s.runs[r].pc.ToolDone?
    ensures var s' := ToolNode(s, r, now, out, env);
            && RowsExplained(s, s') && (s'.db.task.leaseOwner.Some? ==> s.db.task.leaseOwner.Some?)
            && (s'.runs[r].pc.FailStep? ==> s' == s)
  {
    var s' := ToolNode(s, r, now, out, env);
    match s.runs[r].pc
    case PauseUnknown(x) => PatchExplained(s, s', x, JustStatus(StepUnknown));
    case PauseReview(x, policy) => PatchExplained(s, s', x, StepPatch(StepUnknown, None, Some(Undecided), Some(policy)));
    case _ =>
  }

  lemma ReplayFinal(s: Sys, r: nat, now: Time, out: Outcome, env: Env)
    requires Core(s) && ReplayInv(s) && r < |s.runs| && !s.runs[r].pc.ToolArmed?
    ensures ReplayInv(FinalNode(s, r, now, out, env))
  {
    var s' := FinalNode(s, r, now, out, env);
    if s' == s {
      return;
    }
    FinalCore(s, r, now, out, env);
    FinalQuiet(s, r, now, out, env);
    FinalExplained(s, r, now, out, env);
    ReplayQuiet(s, s', r);
  }

  lemma FinalExplained(s: Sys, r: nat, now: Time, out: Outcome, env: Env)
    requires Core(s) && r < |s.runs|
    ensures var s' := FinalNode(s, r, now, out, env);
            && RowsExplained(s, s') && (s'.db.task.leaseOwner.Some? ==> s.db.task.leaseOwner.Some?)
            && (s'.runs[r].pc.FailStep? && s' != s ==> Holds(s', r) ==> !RowIs(s'.db, s'.runs[r].pc.step, Tool))
  {
    match s.runs[r].pc
    case FinalMark(x) =>
      FinalMarkIs(s, r, now, out, env);
      FinalWriteExplained(s, r, now, out, x, StepRunning, FinalSave(x));
    case FinalSave(x) =>
      FinalSaveIs(s, r, now, out, env);
      if env.ok {
        FinalWriteExplained(s, r, now, out, x, StepSucceeded, FinalTask(x));
      } else if Holds(s, r) {
        FinalStepIsNoTool(s, r, x);
      }
    case _ =>
      FinalSameRows(s, r, now, out, env);
      SameRowsExplained(s, FinalNode(s, r, now, out, env));
  }

  lemma FinalSameRows(s: Sys, r: nat, now: Time, out: Outcome, env: Env)
    requires r < |s.runs| && !s.runs[r].pc.FinalMark? && !s.runs[r].pc.FinalSave?
    ensures var s' := FinalNode(s, r, now, out, env);
            && s'.db.steps == s.db.steps && (s'.db.task.leaseOwner.Some? ==> s.db.task.leaseOwner.Some?)
            && (s'.runs[r].pc.FailStep? ==> s' == s)
  {
  }

  lemma FinalStepIsNoTool(s: Sys, r: nat, x: StepId)
    requires Core(s) && r < |s.runs| && (s.runs[r].pc == FinalMark(x) || s.runs[r].pc == FinalSave(x)) && Holds(s, r)
    ensures !RowIs(s.db, x, Tool)
    ensures forall i :: 0 <= i < |s.db.steps| && s.db.steps[i].id == x ==> s.db.steps[i].kind != Tool
  {
    HolderFacts(s, r);
    NotToolRow(s.db, x, Final);
  }

  lemma FinalWriteExplained(s: Sys, r: nat, now: Time, out: Outcome, x: StepId, status: StepStatus, good: Pc)
    requires Core(s) && r < |s.runs| && (s.runs[r].pc == FinalMark(x) || s.runs[r].pc == FinalSave(x))
    ensures var s' := WriteStep(s, r, now, out, x, JustStatus(status), good, FailRead);
            RowsExplained(s, s') && s'.db.task == s.db.task
  {
    var s' := WriteStep(s, r, now, out, x, JustStatus(status), good, FailRead);
    if CanUpdateStep(s.db, s.runs[r].token, now, x) {
      FenceMeansHolder(s, r, now);
      FinalStepIsNoTool(s, r, x);
      PatchExplained(s, s', x, JustStatus(status));
    } else {
      SameRowsExplained(s, s');
    }
  }

  lemma ReplayFailure(s: Sys, r: nat, now: Time, out: Outcome, env: Env)
    requires Core(s) && ReplayInv(s) && r < |s.runs| && !s.runs[r].pc.ToolArmed?
    ensures ReplayInv(FailureNode(s, r, now, out, env))
  {
    var s' := FailureNode(s, r, now, out, env);
    if s' == s {
      return;
    }
    FailureCore(s, r, now, out, env);
    FailureQuiet(s, r, now, out, env);
    QuietCalmer(s, s', r);
    FailureMoves(s, r, now, out, env);
    FailureExplained(s, r, now, out, env);
    ReplayQuiet(s, s', r);
  }

  lemma FailureMoves(s: Sys, r: nat, now: Time, out: Outcome, env: Env)
    requires r < |s.runs|
    ensures var s' := FailureNode(s, r, now, out, env);
            && (s'.db.task.leaseOwner.Some? ==> s.db.task.leaseOwner.Some?)
            && (s'.runs[r].pc.FailStep? ==> s' == s)
            && (!s.runs[r].pc.FailStep? && !s.runs[r].pc.FailRunStep? && !s.runs[r].pc.FailUnknown? ==> s'.db.steps == s.db.steps)
  {
    if s.runs[r].pc.FailRead? {
      assert FailureNode(s, r, now, out, env).db == s.db;
    }
  }

  lemma FailStepExplained(s: Sys, s': Sys, r: nat, now: Time, x: StepId)
    requires Core(s) && ReplayInv(s) && r < |s.runs| && s.runs[r].pc == FailStep(x) && Calmer(s, s')
    requires s'.db.steps == s.db.steps
          || (CanUpdateStep(s.db, s.runs[r].token, now, x) && s'.db.steps == PatchRows(s.db.steps, x, JustStatus(StepFailed)))
    ensures RowsExplained(s, s')
  {
    if s'.db.steps == s.db.steps {
      SameRowsExplained(s, s');
    } else {
      FenceMeansHolder(s, r, now);
      PatchExplained(s, s', x, JustStatus(StepFailed));
    }
  }

  lemma FailRunStepExplained(s: Sys, s': Sys, r: nat, now: Time, x: StepId)
    requires Core(s) && r < |s.runs| && s.runs[r].pc == FailRunStep(x)
    requires s'.db.steps == s.db.steps
          || (CanUpdateStep(s.db, s.runs[r].token, now, x) && s'.db.steps == PatchRows(s.db.steps, x, JustStatus(StepFailed)))
    ensures RowsExplained(s, s')
  {
    if s'.db.steps == s.db.steps {
      SameRowsExplained(s, s');
    } else {
      FenceMeansHolder(s, r, now);
      RunFailureNotUncertain(s.db, x);
      PatchExplained(s, s', x, JustStatus(StepFailed));
    }
  }

  lemma RunFailureNotUncertain(db: Db, x: StepId)
    requires Facts(db, FailRunStep(x))
    ensures forall i :: 0 <= i < |db.steps| && db.steps[i].id == x && db.steps[i].kind == Tool ==> !Uncertain(db.steps[i])
  {
  }

  lemma FailureExplained(s: Sys, r: nat, now: Time, out: Outcome, env: Env)
    requires Core(s) && ReplayInv(s) && r < |s.runs| && Calmer(s, FailureNode(s, r, now, out, env))
    ensures RowsExplained(s, FailureNode(s, r, now, out, env))
  {
    var s' := FailureNode(s, r, now, out, env);
    if s.runs[r].pc.FailStep? {
      FailStepExplained(s, s', r, now, s.runs[r].pc.step);
    } else if s.runs[r].pc.FailRunStep? {
      FailRunStepExplained(s, s', r, now, s.runs[r].pc.step);
    } else if s.runs[r].pc.FailUnknown? {
      PatchExplained(s, s', s.runs[r].pc.step, JustStatus(StepUnknown));
    } else {
      FailureMoves(s, r, now, out, env);
      SameRowsExplained(s, s');
    }
  }

  lemma ReplayAdvance(s: Sys, r: nat, now: Time, out: Outcome, env: Env)
    requires Core(s) && Footprint(s) && ReplayInv(s) && r < |s.runs|
    ensures ReplayInv(Advance(s, r, now, out, env))
  {
    var s' := Advance(s, r, now, out, env);
    if s.runs[r].pc.Loading? {
      ReplayLoad(s, r, env);
    } else if s.runs[r].pc.Saving? {
      ReplaySave(s, r, now, out);
    } else if s.runs[r].pc.ToolArmed? || s' == ToolNode(s, r, now, out, env) {
      ReplayTool(s, r, now, out, env);
    } else if s' == PlanNode(s, r, now, out, env) {
      ReplayPlan(s, r, now, out, env);
    } else if s' == DispatchNode(s, r, now, out, env) {
      ReplayDispatch(s, r, now, out, env);
    } else if s' == ApprovalNode(s, r, now, out, env) {
      ReplayApproval(s, r, now, out, env);
    } else if s' == FinalNode(s, r, now, out, env) {
      ReplayFinal(s, r, now, out, env);
    } else {
      ReplayFailure(s, r, now, out, env);
    }
  }

  // ----- everything else -----

  /** Transitions that leave the runs alone and log at most one owner event. */
  lemma ReplayOwner(s: Sys, s': Sys)
    requires ReplayInv(s) && s'.runs == s.runs
    requires s'.log == s.log || exists e: Event :: !e.Sent? && s'.log == s.log + [e]
    requires RowsExplained(s, s')
    requires s'.db.task.leaseOwner.Some? ==> s.db.task.leaseOwner.Some?
    ensures ReplayInv(s')
  {
    forall x
      ensures Exposure(s', x) <= Exposure(s, x) && Retries(s'.log, x) >= Retries(s.log, x)
    {
      if s'.log != s.log {
        var e: Event :| !e.Sent? && s'.log == s.log + [e];
        LogStep(s.log, e, x);
      }
    }
    CalmBounded(s, s');
    if s'.db.task.leaseOwner.Some? && LastPc(s'.runs).FailStep? && RowIs(s'.db, LastPc(s'.runs).step, Tool) {
      RowIsKept(s.db, s'.db, LastPc(s'.runs).step);
    }
  }

  lemma ReplayClaim(s: Sys, worker: WorkerId, now: Time, lease: Time, started: bool)
    requires Core(s) && ReplayInv(s)
    ensures ReplayInv(Step(s, Claims(worker, now, lease, started)))
  {
    var s' := Step(s, Claims(worker, now, lease, started));
    if CanClaim(s.db) {
      forall x
        ensures Exposure(s', x) <= Exposure(s, x)
      {
        PermitAppend(s.runs, s'.runs[|s.runs|], x);
      }
      SameRowsExplained(s, s');
      CalmBounded(s, s');
    }
  }

  /** The explicit retry is the one way out of the unknown outcome, and it is counted. */
  lemma ReplayResume(s: Sys, user: UserId, retryUnknown: bool, now: Time)
    requires Core(s) && ReplayInv(s)
    ensures ReplayInv(Step(s, Resumes(user, retryUnknown, now)))
  {
    var s' := Step(s, Resumes(user, retryUnknown, now));
    var target := ResumeTarget(s.db, user, retryUnknown);
    if target.Some? {
      ResumeIs(s, user, retryUnknown, now);
      ResumeExplained(s, s', target.value);
      ReplayOwner(s, s');
    }
  }

  lemma ResumeExplained(s: Sys, s': Sys, row: StepRow)
    requires Distinct(s.db.steps) && Bounded(s) && row in s.db.steps && (row.status == StepFailed || row.status == StepUnknown)
    requires s'.runs == s.runs && s'.db.steps == PatchRows(s.db.steps, row.id, JustStatus(StepPending))
    requires s'.log == if row.status == StepUnknown then s.log + [OwnerRetried(row.id)] else s.log
    ensures RowsExplained(s, s')
  {
    var k :| 0 <= k < |s.db.steps| && s.db.steps[k] == row;
    assert RowBound(s, s.db.steps[k]);
    LogStep(s.log, OwnerRetried(row.id), row.id);
    forall i | 0 <= i < |s.db.steps| && s.db.steps[i].id == row.id
      ensures s.db.steps[i] == row
    {
      UniqueRow(s.db.steps, i, k);
    }
    PatchExplained(s, s', row.id, JustStatus(StepPending));
  }

  lemma ReplayRecover(s: Sys, now: Time, before: Time)
    requires Core(s) && ReplayInv(s)
    ensures ReplayInv(Step(s, Recovers(now, before)))
  {
    ReplayOwner(s, Step(s, Recovers(now, before)));
  }

  lemma ReplayCancel(s: Sys, user: UserId, now: Time)
    requires Core(s) && ReplayInv(s)
    ensures ReplayInv(Step(s, Cancels(user, now)))
  {
    ReplayOwner(s, Step(s, Cancels(user, now)));
  }

  lemma AwaitingNotUncertain(s: Sys, x: StepId)
    requires Distinct(s.db.steps) && exists i :: 0 <= i < |s.db.steps| && Awaits(s.db.steps[i], x)
    ensures forall i :: 0 <= i < |s.db.steps| && s.db.steps[i].id == x ==> !Uncertain(s.db.steps[i])
  {
    var k :| 0 <= k < |s.db.steps| && Awaits(s.db.steps[k], x);
    forall i | 0 <= i < |s.db.steps| && s.db.steps[i].id == x
      ensures !Uncertain(s.db.steps[i])
    {
      UniqueRow(s.db.steps, i, k);
    }
  }

  lemma ReplayApprove(s: Sys, user: UserId, x: StepId, digest: Digest, now: Time)
    requires Core(s) && ReplayInv(s)
    ensures ReplayInv(Step(s, Approves(user, x, digest, now)))
  {
    var s' := Step(s, Approves(user, x, digest, now));
    if CanApprove(s.db, user, x, digest) {
      AwaitingNotUncertain(s, x);
      PatchExplained(s, s', x, StepPatch(StepApproved, None, Some(Approved), None));
      assert !OwnerApproved(x, digest).Sent?;
      ReplayOwner(s, s');
    }
  }

  lemma ReplayReject(s: Sys, user: UserId, x: StepId, now: Time)
    requires Core(s) && ReplayInv(s)
    ensures ReplayInv(Step(s, Rejects(user, x, now)))
  {
    var s' := Step(s, Rejects(user, x, now));
    if CanReject(s.db, user, x) {
      AwaitingNotUncertain(s, x);
      PatchExplained(s, s', x, StepPatch(StepRejected, None, Some(Declined), None));
      ReplayOwner(s, s');
    }
  }

  lemma ReplayStop(s: Sys, r: nat)
    requires Core(s) && ReplayInv(s)
    ensures ReplayInv(Step(s, Stops(r)))
  {
    if r < |s.runs| {
      var s' := Step(s, Stops(r));
      StopCore(s, r);
      SameRowsExplained(s, s');
      ReplayQuiet(s, s', r);
    }
  }

  /** Every transition keeps the replay bound. */
  lemma StepReplay(s: Sys, l: Label)
    requires Core(s) && Footprint(s) && ReplayInv(s)
    ensures ReplayInv(Step(s, l))
  {
    match l
    case Claims(worker, now, lease, started) => ReplayClaim(s, worker, now, lease, started);
    case Renews(r, now, lease) =>
      SameRowsExplained(s, Step(s, l));
      ReplayOwner(s, Step(s, l));
    case Advances(r, now, out, env) =>
      if r < |s.runs| {
        ReplayAdvance(s, r, now, out, env);
      }
    case Stops(r) => ReplayStop(s, r);
    case Recovers(now, before) => ReplayRecover(s, now, before);
    case Approves(user, x, digest, now) => ReplayApprove(s, user, x, digest, now);
    case Rejects(user, x, now) => ReplayReject(s, user, x, now);
    case Resumes(user, retryUnknown, now) => ReplayResume(s, user, retryUnknown, now);
    case Cancels(user, now) => ReplayCancel(s, user, now);
  }
}
