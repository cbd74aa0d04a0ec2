/**
 Main results about a document's lifecycle, for every interleaving of attempts, crashes, lost answers,
 stale recoveries, deletion requests and delete retries.
 */
module KbTheorems {
  import opened KbRows
  import opened KbSystem
  import opened KbInvariant

  // ----- readiness -----

  /** The rows after a run's completion transaction, when it takes effect. */
  ghost predicate Completes(s: Sys, l: Label) {
    && l.Advances? && l.run < |s.runs| && s.runs[l.run].pc == IxComplete && !l.out.Refused?
    && s.db.doc == DocIndexing
    && Owns(s.db, s.runs[l.run].task, IndexWork, s.runs[l.run].attempt)
  }

  lemma IndexReady(s: Sys, r: nat, out: Outcome, env: Env)
    requires r < |s.runs| && Indexing(s.runs[r].pc) && s.db.doc != DocReady
    ensures IndexNode(s, r, out, env).db.doc == DocReady <==> Completes(s, Advances(r, out, env))
    ensures Completes(s, Advances(r, out, env)) ==>
              IndexNode(s, r, out, env).db == CompleteIndex(s.db, s.runs[r].task, s.runs[r].attempt).db
  {
  }

  lemma OtherReady(s: Sys, r: nat, out: Outcome, env: Env)
    requires r < |s.runs| && !Indexing(s.runs[r].pc) && s.db.doc != DocReady
    ensures Advance(s, r, out, env).db.doc != DocReady
  {
    if Cleaning(s.runs[r].pc) {
      CleanupMoved(s, r, out, env);
      assert Advance(s, r, out, env) == CleanupNode(s, r, out, env);
    } else if !s.runs[r].pc.Done? {
      DeleteMoved(s, r, out, env);
      DeleteNotReady(s, r, out, env);
    }
  }

  lemma DeleteNotReady(s: Sys, r: nat, out: Outcome, env: Env)
    requires r < |s.runs| && Deleting(s.runs[r].pc) && s.db.doc != DocReady
    ensures DeleteNode(s, r, out, env).db.doc != DocReady
  {
  }

  /**
   A document becomes ready exactly when a run completes an attempt that is still the one on record:
   no other run of that task was ever given a later attempt, and the task succeeds in the same transaction.
   */
  lemma ReadyOnlyByLatestAttempt(s: Sys, l: Label)
    requires Reachable(s) && s.db.doc != DocReady
    ensures Step(s, l).db.doc == DocReady <==> Completes(s, l)
    ensures Completes(s, l) ==>
              var run := s.runs[l.run];
              && Step(s, l).db.tasks[run.task].status == WorkSucceeded
              && forall q :: 0 <= q < |s.runs| && s.runs[q].task == run.task && q != l.run ==> s.runs[q].attempt < run.attempt
  {
    ReachableInv(s);
    match l {
      case Advances(r, out, env) =>
        if r < |s.runs| {
          if Indexing(s.runs[r].pc) {
            IndexReady(s, r, out, env);
          } else {
            OtherReady(s, r, out, env);
          }
          if Completes(s, l) {
            forall q | 0 <= q < |s.runs| && s.runs[q].task == s.runs[r].task && q != r
              ensures s.runs[q].attempt < s.runs[r].attempt
            {
              assert RunOk(s, s.runs[q]);
            }
          }
        }
      case Recovers(before) => RecoverFacts(s.db, 0, before);
      case _ =>
    }
  }

  /** The document's single indexing task comes first; every later task is cleanup work. */
  ghost predicate RowsReady(db: Db) {
    && |db.tasks| > 0 && db.tasks[0].kind == IndexWork
    && (forall i :: 1 <= i < |db.tasks| ==> db.tasks[i].kind == DeleteWork)
    && (db.doc == DocReady ==> db.tasks[0].status == WorkSucceeded)
    && (db.tasks[0].status == WorkSucceeded ==> db.doc == DocReady || Tombstoned(db.doc))
  }

  lemma IndexWriteReady(db: Db, t: nat, attempt: nat, retry: bool)
    requires RowsReady(db)
    ensures RowsReady(MarkIndexing(db).db) && RowsReady(CompleteIndex(db, t, attempt).db)
    ensures RowsReady(FailIndex(db, t, attempt, retry).db) && RowsReady(CancelIndex(db, t, attempt).db)
  {
  }

  lemma DeleteWriteReady(db: Db, t: nat, attempt: nat, retry: bool)
    requires RowsReady(db) && TasksInv(db)
    ensures RowsReady(CompleteDelete(db, t, attempt).db) && RowsReady(FailDelete(db, t, attempt, retry).db)
    ensures RowsReady(RequeueDelete(db, t, attempt).db)
  {
  }

  lemma OwnWriteReady(s: Sys, s': Sys, r: nat)
    requires RowsReady(s.db) && TasksInv(s.db) && r < |s.runs| && OwnWrite(s, s', r)
    ensures RowsReady(s'.db)
  {
    var run := s.runs[r];
    IndexWriteReady(s.db, run.task, run.attempt, true);
    IndexWriteReady(s.db, run.task, run.attempt, false);
    DeleteWriteReady(s.db, run.task, run.attempt, true);
    DeleteWriteReady(s.db, run.task, run.attempt, false);
  }

  lemma StepReady(s: Sys, l: Label)
    requires Inv(s) && RowsReady(s.db)
    ensures RowsReady(Step(s, l).db)
  {
    match l {
      case Advances(r, out, env) =>
        if r < |s.runs| {
          AdvanceMoved(s, r, out, env);
          OwnWriteReady(s, Advance(s, r, out, env), r);
        }
      case Recovers(before) => RecoverFacts(s.db, 0, before);
      case _ =>
    }
  }

  lemma {:induction false} ExecReady(s: Sys, labels: seq<Label>)
    requires Inv(s) && RowsReady(s.db)
    ensures RowsReady(Exec(s, labels).db)
    decreases |labels|
  {
    if labels != [] {
      var before := labels[..|labels| - 1];
      ExecReady(s, before);
      ExecInv(s, before);
      StepReady(Exec(s, before), labels[|labels| - 1]);
    }
  }

  /** A document is ready exactly while its indexing task has succeeded and no deletion has been scheduled. */
  lemma ReadyExactly(s: Sys)
    requires Reachable(s)
    ensures |s.db.tasks| > 0 && s.db.tasks[0].kind == IndexWork
    ensures s.db.doc == DocReady <==> s.db.tasks[0].status == WorkSucceeded && !Tombstoned(s.db.doc)
    ensures !Tombstoned(s.db.doc) ==> |s.db.tasks| == 1
  {
    var content, labels :| s == Exec(Init(content), labels);
    InitInv(content);
    ExecInv(Init(content), labels);
    ExecReady(Init(content), labels);
    if |s.db.tasks| > 1 {
      assert s.db.tasks[1].kind == DeleteWork;
    }
  }

  // ----- the tombstone -----

  lemma {:induction false} ExecSplit(s: Sys, first: seq<Label>, rest: seq<Label>)
    ensures Exec(s, first + rest) == Exec(Exec(s, first), rest)
    decreases |rest|
  {
    if rest == [] {
      assert first + rest == first;
    } else {
      var before := rest[..|rest| - 1];
      ExecSplit(s, first, before);
      assert (first + rest)[..|first + rest| - 1] == first + before;
    }
  }

  lemma ReachableExec(s: Sys, labels: seq<Label>)
    requires Reachable(s)
    ensures Reachable(Exec(s, labels))
  {
    var content, first :| s == Exec(Init(content), first);
    ExecSplit(Init(content), first, labels);
  }

  /** Once a deletion is scheduled the document is never searchable again, whatever the other runs do. */
  lemma TombstoneIsForGood(s: Sys, labels: seq<Label>)
    requires Reachable(s) && Tombstoned(s.db.doc)
    ensures Tombstoned(Exec(s, labels).db.doc) && Exec(s, labels).db.doc != DocReady
    ensures s.db.doc == DocGone ==> Exec(s, labels).db.doc == DocGone
  {
    ReachableInv(s);
    ExecInv(s, labels);
  }

  /** Only deletion takes a ready document out of view: recovery, retries and stale attempts never do. */
  lemma {:induction false} ReadyUntilDeleted(s: Sys, labels: seq<Label>)
    requires Reachable(s) && s.db.doc == DocReady
    ensures Exec(s, labels).db.doc == DocReady || Tombstoned(Exec(s, labels).db.doc)
    decreases |labels|
  {
    if labels != [] {
      var before := labels[..|labels| - 1];
      var mid := Exec(s, before);
      var l := labels[|labels| - 1];
      ReadyUntilDeleted(s, before);
      ReachableExec(s, before);
      ReachableExec(s, labels);
      ReachableInv(mid);
      StepInv(mid, l);
      ReadyExactly(mid);
      ReadyExactly(Exec(s, labels));
      if mid.db.doc == DocReady {
        SuccessKept(mid, l);
      }
    }
  }

  lemma SuccessKept(s: Sys, l: Label)
    requires Inv(s) && |s.db.tasks| > 0 && s.db.tasks[0].kind == IndexWork && s.db.tasks[0].status == WorkSucceeded
    ensures |Step(s, l).db.tasks| > 0 && Step(s, l).db.tasks[0].status == WorkSucceeded
  {
    match l {
      case Advances(r, out, env) =>
        if r < |s.runs| {
          AdvanceMoved(s, r, out, env);
        }
      case Recovers(before) => RecoverFacts(s.db, 0, before);
      case _ =>
    }
  }

  /** The repair that reasserts the tombstone never finds one to reassert: by then the document is gone. */
  lemma RepairNeverNeeded(s: Sys, r: nat)
    requires Reachable(s) && r < |s.runs| && s.runs[r].pc == DlRequeue
    ensures RequeueDelete(s.db, s.runs[r].task, s.runs[r].attempt).db == s.db
  {
    ReachableInv(s);
    assert RunOk(s, s.runs[r]);
  }

  /** At most one run of a task is on the attempt the task records; every other run's writes are refused. */
  lemma OneOwner(s: Sys, q: nat, r: nat, kind: WorkKind)
    requires Reachable(s) && q < r < |s.runs| && s.runs[q].task == s.runs[r].task
    ensures !Owns(s.db, s.runs[q].task, kind, s.runs[q].attempt)
  {
    ReachableInv(s);
    assert RunOk(s, s.runs[r]);
  }

  // ----- deletion converges -----

  /** While a document is being deleted some cleanup task is still alive: queued, running or retryable. */
  lemma DeletionNeverLost(s: Sys)
    requires Reachable(s) && s.db.doc == DocDeleting
    ensures exists i :: 0 <= i < |s.db.tasks| && Unfinished(s.db.tasks[i])
  {
    ReachableInv(s);
  }

  /** Every attempt but the deletion attempts is where it was, and the text is the same. */
  ghost predicate OthersWait(s: Sys, s': Sys) {
    && |s.runs| <= |s'.runs| && s'.content == s.content
    && forall q :: 0 <= q < |s.runs| && !Deleting(s.runs[q].pc) ==> s'.runs[q] == s.runs[q]
  }

  ghost predicate Finishes(s: Sys, labels: seq<Label>) {
    Exec(s, labels).db.doc == DocGone && OthersWait(s, Exec(s, labels))
  }

  /** Some continuation finishes the deletion, without any help of the indexing attempts. */
  ghost predicate CanFinish(s: Sys) {
    exists labels :: Finishes(s, labels)
  }

  lemma FinishAfter(s: Sys, l: Label)
    requires CanFinish(Step(s, l)) && OthersWait(s, Step(s, l))
    ensures CanFinish(s)
  {
    var labels :| Finishes(Step(s, l), labels);
    assert [l][..0] == [];
    assert Exec(s, [l]) == Step(s, l);
    ExecSplit(s, [l], labels);
    assert Finishes(s, [l] + labels);
  }

  const Fine := Env(true, true, true, true, {})

  /** Run `r` owns cleanup task `i` of a document being deleted. */
  ghost predicate Working(s: Sys, r: nat, i: nat) {
    && s.db.doc == DocDeleting && r < |s.runs| && s.runs[r].task == i && Owns(s.db, i, DeleteWork, s.runs[r].attempt)
  }

  lemma FinishFromFile(s: Sys, r: nat, i: nat)
    requires Working(s, r, i) && s.runs[r].pc == DlFile
    ensures CanFinish(s)
  {
    var next := Step(s, Advances(r, Committed, Fine));
    var last := Step(next, Advances(r, Committed, Fine));
    assert Finishes(last, []);
    FinishAfter(next, Advances(r, Committed, Fine));
    FinishAfter(s, Advances(r, Committed, Fine));
  }

  lemma FinishFromScanning(s: Sys, r: nat, i: nat)
    requires Working(s, r, i) && s.runs[r].pc.DlScanning?
    ensures CanFinish(s)
  {
    var next := Step(s, Advances(r, Committed, Fine));
    if next.runs[r].pc.DlFile? {
      FinishFromFile(next, r, i);
    } else {
      FinishFromFile(Step(next, Advances(r, Committed, Fine)), r, i);
      FinishAfter(next, Advances(r, Committed, Fine));
    }
    FinishAfter(s, Advances(r, Committed, Fine));
  }

  lemma FinishFromStart(s: Sys, r: nat, i: nat)
    requires Working(s, r, i) && s.runs[r].pc == DlDoc
    ensures CanFinish(s)
  {
    var next := Step(s, Advances(r, Committed, Fine));
    FinishFromScanning(Step(next, Advances(r, Committed, Fine)), r, i);
    FinishAfter(next, Advances(r, Committed, Fine));
    FinishAfter(s, Advances(r, Committed, Fine));
  }

  lemma FinishFromPending(s: Sys, i: nat)
    requires s.db.doc == DocDeleting && i < |s.db.tasks|
    requires s.db.tasks[i].kind == DeleteWork && s.db.tasks[i].status == WorkPending
    ensures CanFinish(s)
  {
    var next := Step(s, Claims(i, 0, true));
    FinishFromStart(next, |s.runs|, i);
    FinishAfter(s, Claims(i, 0, true));
  }

  /** The stale pass leaves a crashed cleanup task claimable. */
  lemma {:induction false} RecoveredDelete(db: Db, from: nat, before: Time, i: nat)
    requires db.doc == DocDeleting && from <= i < |db.tasks| && db.tasks[i].kind == DeleteWork && StaleWork(db.tasks[i], before)
    ensures RecoverFrom(db, from, before).tasks[i].status == WorkPending
    decreases |db.tasks| - from
  {
    var work := db.tasks[from];
    var next := Db(RecoveredDoc(work, db.doc, before), db.tasks[from := RecoveredWork(work, db.doc, before)]);
    if from == i {
      RecoverFacts(next, from + 1, before);
    } else {
      RecoveredDelete(next, from + 1, before, i);
    }
  }

  /**
   From every reachable state of a scheduled deletion some continuation finishes it, without any help of the indexing
   attempts: it never gets stuck.
   */
  lemma DeletionCanFinish(s: Sys)
    requires Reachable(s) && s.db.doc == DocDeleting
    ensures CanFinish(s)
  {
    ReachableInv(s);
    var i :| 0 <= i < |s.db.tasks| && Unfinished(s.db.tasks[i]);
    var work := s.db.tasks[i];
    match work.status {
      case WorkPending => FinishFromPending(s, i);
      case WorkRunning =>
        var before := work.startedAt.value + 1;
        RecoveredDelete(s.db, 0, before, i);
        RecoverFacts(s.db, 0, before);
        FinishFromPending(Step(s, Recovers(before)), i);
        FinishAfter(s, Recovers(before));
      case WorkFailed =>
        FinishFromPending(Step(s, RetriesDelete(i)), i);
        FinishAfter(s, RetriesDelete(i));
    }
  }

  // ----- the source file -----

  ghost predicate FileInv(s: Sys) {
    && (s.db.doc == DocGone ==> !s.file)
    && forall r :: 0 <= r < |s.runs| && s.runs[r].pc.DlComplete? ==> !s.file
  }

  lemma AdvanceFile(s: Sys, r: nat, out: Outcome, env: Env)
    requires FileInv(s) && r < |s.runs|
    ensures FileInv(Advance(s, r, out, env))
  {
    AdvanceMoved(s, r, out, env);
    var s' := Advance(s, r, out, env);
    if Indexing(s.runs[r].pc) {
      IndexFile(s, r, out, env);
    } else if Cleaning(s.runs[r].pc) {
      CleanupFile(s, r, out, env);
    } else if !s.runs[r].pc.Done? {
      DeleteFile(s, r, out, env);
    }
  }

  lemma IndexFile(s: Sys, r: nat, out: Outcome, env: Env)
    requires FileInv(s) && r < |s.runs| && Indexing(s.runs[r].pc)
    ensures FileInv(IndexNode(s, r, out, env))
  {
  }

  lemma CleanupFile(s: Sys, r: nat, out: Outcome, env: Env)
    requires FileInv(s) && r < |s.runs| && Cleaning(s.runs[r].pc)
    ensures FileInv(CleanupNode(s, r, out, env))
  {
  }

  lemma DeleteFile(s: Sys, r: nat, out: Outcome, env: Env)
    requires FileInv(s) && r < |s.runs| && Deleting(s.runs[r].pc)
    ensures FileInv(DeleteNode(s, r, out, env))
  {
  }

  lemma {:induction false} ExecFile(s: Sys, labels: seq<Label>)
    requires FileInv(s)
    ensures FileInv(Exec(s, labels))
    decreases |labels|
  {
    if labels != [] {
      var mid := Exec(s, labels[..|labels| - 1]);
      ExecFile(s, labels[..|labels| - 1]);
      match labels[|labels| - 1] {
        case Advances(r, out, env) =>
          if r < |mid.runs| {
            AdvanceFile(mid, r, out, env);
          }
        case Recovers(before) => RecoverFacts(mid.db, 0, before);
        case _ =>
      }
    }
  }

  /** The row disappears only after the source file has. */
  lemma GoneMeansFileRemoved(s: Sys)
    requires Reachable(s) && s.db.doc == DocGone
    ensures !s.file
  {
    var content, labels :| s == Exec(Init(content), labels);
    ExecFile(Init(content), labels);
  }
}
