/**
 Attempt fencing and the tombstone: what every reachable state of a document's lifecycle keeps.
 */
module KbInvariant {
  import opened Options
  import opened KbRows
  import opened KbSystem

  predicate Deleting(pc: Pc) {
    !pc.Done? && !Indexing(pc) && !Cleaning(pc)
  }

  /** A run knows an attempt that was handed out to it alone, and does the kind of work its task asks for. */
  ghost predicate RunsInv(s: Sys) {
    && (forall r :: 0 <= r < |s.runs| ==> RunOk(s, s.runs[r]))
    && forall q, r :: 0 <= q < r < |s.runs| && s.runs[q].task == s.runs[r].task ==> s.runs[q].attempt < s.runs[r].attempt
  }

  ghost predicate RunOk(s: Sys, run: Run) {
    && run.task < |s.db.tasks| && 1 <= run.attempt <= s.db.tasks[run.task].attempts
    && (Indexing(run.pc) || Cleaning(run.pc) ==> s.db.tasks[run.task].kind == IndexWork)
    && (Deleting(run.pc) ==> s.db.tasks[run.task].kind == DeleteWork)
    && (run.pc.DlRequeue? ==> s.db.doc == DocGone)
  }

  predicate Unfinished(work: Work) {
    work.kind == DeleteWork && (work.status == WorkPending || work.status == WorkRunning || work.status == WorkFailed)
  }

  ghost predicate TasksInv(db: Db) {
    && (forall i :: 0 <= i < |db.tasks| && db.tasks[i].kind == DeleteWork ==> Tombstoned(db.doc))
    && (forall i :: 0 <= i < |db.tasks| && db.tasks[i].status == WorkRunning ==> db.tasks[i].startedAt.Some?)
    && (db.doc == DocDeleting ==> exists i :: 0 <= i < |db.tasks| && Unfinished(db.tasks[i]))
  }

  ghost predicate Inv(s: Sys) {
    RunsInv(s) && TasksInv(s.db)
  }

  /** What any transaction may do to the rows: tasks keep their kind, attempts only grow, tombstones stay. */
  ghost predicate Later(before: Db, after: Db) {
    && |before.tasks| <= |after.tasks|
    && (forall i :: 0 <= i < |before.tasks| ==>
          after.tasks[i].kind == before.tasks[i].kind && after.tasks[i].attempts >= before.tasks[i].attempts)
    && (Tombstoned(before.doc) ==> Tombstoned(after.doc))
    && (before.doc == DocGone ==> after.doc == DocGone)
  }

  // ----- stale recovery -----

  ghost predicate RecoveredTask(before: Work, after: Work, doc: DocStatus) {
    && after.kind == before.kind && after.attempts == before.attempts
    && (after == before
        || (before.status == WorkRunning
            && (after == Requeued(before)
                || (after == before.(status := WorkCancelled) && (before.kind == DeleteWork ==> doc != DocDeleting)))))
  }

  /** The pass touches only running tasks, and can take the document only from indexing back to pending. */
  lemma {:induction false} RecoverFacts(db: Db, from: nat, before: Time)
    ensures var after := RecoverFrom(db, from, before);
            && (after.doc == db.doc || (db.doc == DocIndexing && after.doc == DocPending))
            && (forall i :: 0 <= i < |db.tasks| ==> RecoveredTask(db.tasks[i], after.tasks[i], db.doc))
            && (forall i :: 0 <= i < from && i < |db.tasks| ==> after.tasks[i] == db.tasks[i])
    decreases |db.tasks| - from
  {
    if from < |db.tasks| {
      var work := db.tasks[from];
      RecoverFacts(Db(RecoveredDoc(work, db.doc, before), db.tasks[from := RecoveredWork(work, db.doc, before)]), from + 1, before);
    }
  }

  // ----- each transaction keeps the row invariant -----

  lemma RecoverTasks(db: Db, before: Time)
    requires TasksInv(db)
    ensures TasksInv(Recover(db, before)) && Later(db, Recover(db, before))
  {
    RecoverFacts(db, 0, before);
    var after := Recover(db, before);
    if after.doc == DocDeleting {
      var i :| 0 <= i < |db.tasks| && Unfinished(db.tasks[i]);
      assert Unfinished(after.tasks[i]);
    }
  }

  /** Writing one task's row, with no delete task left behind. */
  lemma OneTask(db: Db, t: nat, work: Work, doc: DocStatus)
    requires TasksInv(db) && t < |db.tasks| && work.kind == db.tasks[t].kind && work.attempts >= db.tasks[t].attempts
    requires work.status == WorkRunning ==> work.startedAt.Some?
    requires (Tombstoned(db.doc) ==> Tombstoned(doc)) && (db.doc == DocGone ==> doc == DocGone)
    requires doc == DocDeleting ==> db.doc == DocDeleting && (Unfinished(db.tasks[t]) ==> Unfinished(work))
    ensures TasksInv(Db(doc, db.tasks[t := work])) && Later(db, Db(doc, db.tasks[t := work]))
  {
    var tasks := db.tasks[t := work];
    if doc == DocDeleting {
      var i :| 0 <= i < |db.tasks| && Unfinished(db.tasks[i]);
      assert Unfinished(tasks[i]);
    }
  }

  lemma ScheduleTasks(db: Db)
    requires TasksInv(db)
    ensures TasksInv(ScheduleDelete(db).db) && Later(db, ScheduleDelete(db).db)
  {
    var e := ScheduleDelete(db);
    if e.result == Ok {
      assert Unfinished(e.db.tasks[|db.tasks|]);
    }
  }

  lemma IndexTasks(db: Db, t: nat, attempt: nat, retry: bool)
    requires TasksInv(db)
    ensures TasksInv(MarkIndexing(db).db) && Later(db, MarkIndexing(db).db)
    ensures TasksInv(CompleteIndex(db, t, attempt).db) && Later(db, CompleteIndex(db, t, attempt).db)
    ensures TasksInv(FailIndex(db, t, attempt, retry).db) && Later(db, FailIndex(db, t, attempt, retry).db)
    ensures TasksInv(CancelIndex(db, t, attempt).db) && Later(db, CancelIndex(db, t, attempt).db)
  {
    if Owns(db, t, IndexWork, attempt) {
      var work := db.tasks[t];
      OneTask(db, t, work.(status := WorkCancelled), db.doc);
    }
  }

  lemma DeleteTasks(db: Db, t: nat, attempt: nat, retry: bool)
    requires TasksInv(db)
    ensures TasksInv(CompleteDelete(db, t, attempt).db) && Later(db, CompleteDelete(db, t, attempt).db)
    ensures TasksInv(FailDelete(db, t, attempt, retry).db) && Later(db, FailDelete(db, t, attempt, retry).db)
    ensures TasksInv(RequeueDelete(db, t, attempt).db) && Later(db, RequeueDelete(db, t, attempt).db)
  {
    if db.doc == DocDeleting && Owns(db, t, DeleteWork, attempt) {
      var work := db.tasks[t];
      OneTask(db, t, work.(status := WorkSucceeded), DocGone);
      OneTask(db, t, work.(status := WorkPending), DocDeleting);
      OneTask(db, t, work.(status := WorkFailed), DocDeleting);
      OneTask(db, t, Requeued(work), DocDeleting);
    }
  }

  lemma RetryTasks(db: Db, t: nat)
    requires TasksInv(db)
    ensures TasksInv(RequeueFailedDelete(db, t).db) && Later(db, RequeueFailedDelete(db, t).db)
  {
    if t < |db.tasks| && db.tasks[t].kind == DeleteWork && db.doc == DocDeleting {
      OneTask(db, t, Requeued(db.tasks[t]), DocDeleting);
    }
  }

  lemma ClaimTasks(db: Db, t: nat, now: Time)
    requires TasksInv(db)
    ensures TasksInv(ClaimTask(db, t, now).db) && Later(db, ClaimTask(db, t, now).db)
  {
    if t < |db.tasks| && db.tasks[t].status == WorkPending {
      OneTask(db, t, db.tasks[t].(status := WorkRunning, attempts := db.tasks[t].attempts + 1, startedAt := Some(now)), db.doc);
    }
  }

  // ----- each move of a run -----

  ghost predicate SameRuns(s: Sys, s': Sys, r: nat) {
    && |s'.runs| == |s.runs|
    && (forall q :: 0 <= q < |s.runs| && q != r ==> s'.runs[q] == s.runs[q])
    && (r < |s.runs| ==> s'.runs[r].task == s.runs[r].task && s'.runs[r].attempt == s.runs[r].attempt)
  }

  /** The rows are untouched, or are what the run's own transaction leaves. */
  ghost predicate OwnWrite(s: Sys, s': Sys, r: nat)
    requires r < |s.runs|
  {
    var run := s.runs[r];
    var db := s.db;
    || s'.db == db
    || s'.db == MarkIndexing(db).db
    || s'.db == CompleteIndex(db, run.task, run.attempt).db
    || s'.db == FailIndex(db, run.task, run.attempt, true).db
    || s'.db == FailIndex(db, run.task, run.attempt, false).db
    || s'.db == CancelIndex(db, run.task, run.attempt).db
    || s'.db == CompleteDelete(db, run.task, run.attempt).db
    || s'.db == FailDelete(db, run.task, run.attempt, true).db
    || s'.db == FailDelete(db, run.task, run.attempt, false).db
    || s'.db == RequeueDelete(db, run.task, run.attempt).db
  }

  /** A move changes only its own run's position, and stays in its half of the program. */
  ghost predicate Moved(s: Sys, s': Sys, r: nat)
    requires r < |s.runs|
  {
    && OwnWrite(s, s', r) && SameRuns(s, s', r) && s'.content == s.content
    && (Deleting(s'.runs[r].pc) ==> Deleting(s.runs[r].pc))
    && (Indexing(s'.runs[r].pc) || Cleaning(s'.runs[r].pc) ==> Indexing(s.runs[r].pc) || Cleaning(s.runs[r].pc))
    && (s'.runs[r].pc.DlRequeue? ==> s.runs[r].pc.DlRequeue? || (s.runs[r].pc.DlComplete? && s.db.doc != DocDeleting))
  }

  lemma IndexMoved(s: Sys, r: nat, out: Outcome, env: Env)
    requires r < |s.runs| && Indexing(s.runs[r].pc)
    ensures Moved(s, IndexNode(s, r, out, env), r)
  {
  }

  lemma CleanupMoved(s: Sys, r: nat, out: Outcome, env: Env)
    requires r < |s.runs| && Cleaning(s.runs[r].pc)
    ensures Moved(s, CleanupNode(s, r, out, env), r)
  {
  }

  lemma SweepMoved(s: Sys, r: nat, out: Outcome, env: Env)
    requires r < |s.runs| && Deleting(s.runs[r].pc)
    requires !s.runs[r].pc.DlComplete? && !s.runs[r].pc.DlRequeue? && !s.runs[r].pc.DlFail?
    ensures Moved(s, DeleteNode(s, r, out, env), r)
  {
  }

  lemma DeleteMoved(s: Sys, r: nat, out: Outcome, env: Env)
    requires r < |s.runs| && Deleting(s.runs[r].pc)
    ensures Moved(s, DeleteNode(s, r, out, env), r)
  {
    var run := s.runs[r];
    match run.pc {
      case DlComplete => CompletionMoved(s, r, out, env);
      case DlRequeue =>
      case DlFail(retry) =>
      case _ => SweepMoved(s, r, out, env);
    }
  }

  lemma CompletionMoved(s: Sys, r: nat, out: Outcome, env: Env)
    requires r < |s.runs| && s.runs[r].pc.DlComplete?
    ensures Moved(s, DeleteNode(s, r, out, env), r)
  {
    var e := CompleteDelete(s.db, s.runs[r].task, s.runs[r].attempt);
    assert DeleteNode(s, r, out, env).db == s.db || DeleteNode(s, r, out, env).db == e.db;
  }

  lemma AdvanceMoved(s: Sys, r: nat, out: Outcome, env: Env)
    requires r < |s.runs|
    ensures Moved(s, Advance(s, r, out, env), r)
  {
    if Indexing(s.runs[r].pc) {
      IndexMoved(s, r, out, env);
    } else if Cleaning(s.runs[r].pc) {
      CleanupMoved(s, r, out, env);
    } else if !s.runs[r].pc.Done? {
      DeleteMoved(s, r, out, env);
    }
  }

  /** The rows a move of run `r` leaves. */
  lemma OwnWriteTasks(s: Sys, s': Sys, r: nat)
    requires TasksInv(s.db) && r < |s.runs| && OwnWrite(s, s', r)
    ensures TasksInv(s'.db) && Later(s.db, s'.db)
  {
    var run := s.runs[r];
    IndexTasks(s.db, run.task, run.attempt, true);
    IndexTasks(s.db, run.task, run.attempt, false);
    DeleteTasks(s.db, run.task, run.attempt, true);
    DeleteTasks(s.db, run.task, run.attempt, false);
  }

  lemma AdvanceInv(s: Sys, r: nat, s': Sys)
    requires Inv(s) && r < |s.runs| && Moved(s, s', r)
    ensures Inv(s') && Later(s.db, s'.db)
  {
    OwnWriteTasks(s, s', r);
    assert RunOk(s, s.runs[r]);
    if s'.runs[r].pc.DlRequeue? {
      assert s.db.tasks[s.runs[r].task].kind == DeleteWork;
      assert Tombstoned(s.db.doc);
    }
    RunsLater(s, s', r);
  }

  /** A transaction of the service or the recovery pass changes the rows alone. */
  lemma RowsInv(s: Sys, db: Db)
    requires Inv(s) && TasksInv(db) && Later(s.db, db)
    ensures Inv(s.(db := db))
  {
    RunsLater(s, s.(db := db), |s.runs|);
  }

  lemma StopInv(s: Sys, r: nat)
    requires Inv(s) && r < |s.runs|
    ensures Inv(Goto(s, r, Done))
  {
    assert RunOk(s, s.runs[r]);
    RunsLater(s, Goto(s, r, Done), r);
  }

  lemma RecoverInv(s: Sys, before: Time)
    requires Inv(s)
    ensures Inv(Step(s, Recovers(before))) && Later(s.db, Step(s, Recovers(before)).db)
  {
    RecoverTasks(s.db, before);
    RowsInv(s, Recover(s.db, before));
  }

  lemma DeleteInv(s: Sys)
    requires Inv(s)
    ensures Inv(Step(s, Deletes)) && Later(s.db, Step(s, Deletes).db)
  {
    ScheduleTasks(s.db);
    RowsInv(s, ScheduleDelete(s.db).db);
  }

  lemma RetryInv(s: Sys, t: nat)
    requires Inv(s)
    ensures Inv(Step(s, RetriesDelete(t))) && Later(s.db, Step(s, RetriesDelete(t)).db)
  {
    RetryTasks(s.db, t);
    RowsInv(s, RequeueFailedDelete(s.db, t).db);
  }

  lemma StepInv(s: Sys, l: Label)
    requires Inv(s)
    ensures Inv(Step(s, l)) && Later(s.db, Step(s, l).db)
  {
    match l {
      case Claims(t, now, started) =>
        ClaimTasks(s.db, t, now);
        ClaimRuns(s, t, now, started);
      case Advances(r, out, env) =>
        if r < |s.runs| {
          AdvanceMoved(s, r, out, env);
          AdvanceInv(s, r, Advance(s, r, out, env));
        }
      case Stops(r) =>
        if r < |s.runs| {
          StopInv(s, r);
        }
      case Recovers(before) => RecoverInv(s, before);
      case Deletes => DeleteInv(s);
      case RetriesDelete(t) => RetryInv(s, t);
    }
  }

  lemma RunsLater(s: Sys, s': Sys, r: nat)
    requires RunsInv(s) && Later(s.db, s'.db) && SameRuns(s, s', r)
    requires r < |s.runs| ==> RunOk(s', s'.runs[r])
    ensures RunsInv(s')
  {
    forall q | 0 <= q < |s'.runs| ensures RunOk(s', s'.runs[q]) {
      if q != r {
        assert RunOk(s, s.runs[q]);
      }
    }
  }

  lemma ClaimRuns(s: Sys, t: nat, now: Time, started: bool)
    requires Inv(s) && Later(s.db, Step(s, Claims(t, now, started)).db)
    ensures RunsInv(Step(s, Claims(t, now, started)))
  {
    var s' := Step(s, Claims(t, now, started));
    if ClaimTask(s.db, t, now).result == Ok {
      var n := |s.runs|;
      forall q | 0 <= q < |s'.runs| ensures RunOk(s', s'.runs[q]) {
        if q < n {
          assert RunOk(s, s.runs[q]);
        }
      }
      forall q, r | 0 <= q < r < |s'.runs| && s'.runs[q].task == s'.runs[r].task
        ensures s'.runs[q].attempt < s'.runs[r].attempt
      {
        assert RunOk(s, s.runs[q]);
      }
    }
  }

  // ----- who sets the tombstone -----

  lemma CleanupKeepsDoc(s: Sys, r: nat, out: Outcome, env: Env)
    requires r < |s.runs| && Cleaning(s.runs[r].pc)
    ensures CleanupNode(s, r, out, env).db.doc == s.db.doc
  {
  }

  /** No deletion attempt exists before the tombstone. */
  lemma NoDeletersYet(s: Sys)
    requires Inv(s) && !Tombstoned(s.db.doc)
    ensures forall r :: 0 <= r < |s.runs| ==> !Deleting(s.runs[r].pc)
  {
    forall r | 0 <= r < |s.runs| ensures !Deleting(s.runs[r].pc) {
      assert RunOk(s, s.runs[r]);
    }
  }

  /** Only the deletion request sets the tombstone. */
  lemma TombstoneStep(s: Sys, l: Label)
    requires Inv(s) && !Tombstoned(s.db.doc) && Tombstoned(Step(s, l).db.doc)
    ensures l.Deletes? && Step(s, l).runs == s.runs && Step(s, l).db.doc == DocDeleting
  {
    NoDeletersYet(s);
    match l {
      case Advances(r, out, env) =>
        if r < |s.runs| {
          assert !Deleting(s.runs[r].pc);
          IndexOrCleanupNoTombstone(s, r, out, env);
        }
      case Recovers(before) => RecoverFacts(s.db, 0, before);
      case _ =>
    }
  }

  lemma IndexOrCleanupNoTombstone(s: Sys, r: nat, out: Outcome, env: Env)
    requires r < |s.runs| && !Deleting(s.runs[r].pc) && !Tombstoned(s.db.doc)
    ensures !Tombstoned(Advance(s, r, out, env).db.doc)
  {
    if Cleaning(s.runs[r].pc) {
      CleanupKeepsDoc(s, r, out, env);
    } else if Indexing(s.runs[r].pc) {
      IndexNoTombstone(s, r, out, env);
    }
  }

  lemma IndexNoTombstone(s: Sys, r: nat, out: Outcome, env: Env)
    requires r < |s.runs| && Indexing(s.runs[r].pc) && !Tombstoned(s.db.doc)
    ensures !Tombstoned(IndexNode(s, r, out, env).db.doc)
  {
  }

  lemma StepContent(s: Sys, l: Label)
    ensures Step(s, l).content == s.content
  {
    if l.Advances? && l.run < |s.runs| {
      AdvanceMoved(s, l.run, l.out, l.env);
    }
  }

  lemma InitInv(content: set<Chunk>)
    ensures Inv(Init(content))
  {
  }

  lemma {:induction false} ExecInv(s: Sys, labels: seq<Label>)
    requires Inv(s)
    ensures Inv(Exec(s, labels)) && Later(s.db, Exec(s, labels).db)
    decreases |labels|
  {
    if labels != [] {
      ExecInv(s, labels[..|labels| - 1]);
      StepInv(Exec(s, labels[..|labels| - 1]), labels[|labels| - 1]);
    }
  }

  lemma ReachableInv(s: Sys)
    requires Reachable(s)
    ensures Inv(s)
  {
    var content, labels :| s == Exec(Init(content), labels);
    InitInv(content);
    ExecInv(Init(content), labels);
  }
}
