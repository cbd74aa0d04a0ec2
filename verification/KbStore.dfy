/** The knowledge store as an object: one method per transaction, updating document and task columns in place. */
module KbStore {
  import opened Options
  import opened KbRows

  class Store {
    var doc: DocStatus
    var tasks: seq<Work>

    function Rows(): Db
      reads this
    {
      Db(doc, tasks)
    }

    /** Task `t` is running work of this kind, on exactly this attempt. */
    predicate OnAttempt(t: nat, kind: WorkKind, attempt: nat)
      reads this
    {
      t < |tasks| && tasks[t].kind == kind && tasks[t].status == WorkRunning && tasks[t].attempts == attempt
    }

    /** Task `t` has the new status and nothing else about the tasks has changed. */
    twostate predicate OnlyStatus(t: nat, next: WorkStatus)
      requires t < |old(tasks)|
      reads this
    {
      tasks == old(tasks)[t := old(tasks)[t].(status := next)]
    }

    /** Task `t` waits for a claim again. */
    twostate predicate OnlyQueued(t: nat)
      requires t < |old(tasks)|
      reads this
    {
      tasks == old(tasks)[t := old(tasks)[t].(status := WorkPending, startedAt := None)]
    }

    constructor ()
      ensures Rows() == Created()
      ensures doc == DocPending && tasks == [Work(IndexWork, WorkPending, 0, None)]
    {
      doc := DocPending;
      tasks := [Work(IndexWork, WorkPending, 0, None)];
    }

    method Claim(t: nat, now: Time) returns (claimed: bool, attempt: nat)
      modifies this
      ensures Rows() == ClaimTask(old(Rows()), t, now).db
      ensures claimed <==> ClaimTask(old(Rows()), t, now).result == Ok
      ensures claimed ==> Owns(Rows(), t, tasks[t].kind, attempt)
      ensures claimed <==> t < |old(tasks)| && old(tasks)[t].status == WorkPending
      ensures doc == old(doc) && (!claimed ==> tasks == old(tasks))
      ensures claimed ==>
                attempt == old(tasks)[t].attempts + 1
                && tasks == old(tasks)[t := Work(old(tasks)[t].kind, WorkRunning, attempt, Some(now))]
    {
      claimed, attempt := false, 0;
      if t < |tasks| && tasks[t].status == WorkPending {
        claimed, attempt := true, tasks[t].attempts + 1;
        tasks := tasks[t := tasks[t].(status := WorkRunning, attempts := attempt, startedAt := Some(now))];
      }
    }

    method MarkDocumentIndexing() returns (result: Result)
      modifies this
      ensures Effect(Rows(), result) == MarkIndexing(old(Rows()))
      ensures result == if old(doc) == DocPending then Ok else LifecycleChanged
      ensures tasks == old(tasks) && doc == if result == Ok then DocIndexing else old(doc)
    {
      if doc != DocPending {
        return LifecycleChanged;
      }
      doc := DocIndexing;
      return Ok;
    }

    /** Updates the document first; a task that is no longer on this attempt rolls that back. */
    method CompleteIndexTask(t: nat, attempt: nat) returns (result: Result)
      modifies this
      ensures Effect(Rows(), result) == CompleteIndex(old(Rows()), t, attempt)
      ensures result == if old(doc) != DocIndexing then LifecycleChanged
                        else if old(OnAttempt(t, IndexWork, attempt)) then Ok else Superseded
      ensures if result == Ok then doc == DocReady && OnlyStatus(t, WorkSucceeded) else Rows() == old(Rows())
    {
      var before := doc;
      if doc != DocIndexing {
        return LifecycleChanged;
      }
      doc := DocReady;
      if !(t < |tasks| && tasks[t].kind == IndexWork && tasks[t].status == WorkRunning && tasks[t].attempts == attempt) {
        doc := before;
        return Superseded;
      }
      tasks := tasks[t := tasks[t].(status := WorkSucceeded)];
      return Ok;
    }

    method FailIndexTask(t: nat, attempt: nat, retry: bool) returns (result: Result)
      modifies this
      ensures Effect(Rows(), result) == FailIndex(old(Rows()), t, attempt, retry)
      ensures result == if old(doc) != DocIndexing then LifecycleChanged
                        else if old(OnAttempt(t, IndexWork, attempt)) then Ok else Superseded
      ensures result != Ok ==> Rows() == old(Rows())
      ensures result == Ok && retry ==> doc == DocPending && OnlyStatus(t, WorkPending)
      ensures result == Ok && !retry ==> doc == DocFailed && OnlyStatus(t, WorkFailed)
    {
      var before := doc;
      if doc != DocIndexing {
        return LifecycleChanged;
      }
      doc := if retry then DocPending else DocFailed;
      if !(t < |tasks| && tasks[t].kind == IndexWork && tasks[t].status == WorkRunning && tasks[t].attempts == attempt) {
        doc := before;
        return Superseded;
      }
      tasks := tasks[t := tasks[t].(status := if retry then WorkPending else WorkFailed)];
      return Ok;
    }

    method CancelIndexTask(t: nat, attempt: nat) returns (result: Result)
      modifies this
      ensures Effect(Rows(), result) == CancelIndex(old(Rows()), t, attempt)
      ensures result == if old(OnAttempt(t, IndexWork, attempt)) then Ok else Superseded
      ensures doc == old(doc) && if result == Ok then OnlyStatus(t, WorkCancelled) else tasks == old(tasks)
    {
      if !(t < |tasks| && tasks[t].kind == IndexWork && tasks[t].status == WorkRunning && tasks[t].attempts == attempt) {
        return Superseded;
      }
      tasks := tasks[t := tasks[t].(status := WorkCancelled)];
      return Ok;
    }

    method CreateDeleteTask() returns (result: Result)
      modifies this
      ensures Effect(Rows(), result) == ScheduleDelete(old(Rows()))
      ensures result == NotFound <==> old(doc) == DocGone
      ensures result == Ok <==> old(doc) != DocGone && forall i :: 0 <= i < |old(tasks)| ==>
                old(tasks)[i].kind == DeleteWork ==> old(tasks)[i].status !in {WorkPending, WorkRunning}
      ensures result in {Ok, NotFound, AlreadyScheduled} && (result != Ok ==> Rows() == old(Rows()))
      ensures result == Ok ==>
                && doc == DocDeleting && |tasks| == |old(tasks)| + 1
                && tasks[|old(tasks)|] == Work(DeleteWork, WorkPending, 0, None)
                && forall i :: 0 <= i < |old(tasks)| ==>
                     tasks[i] == if old(tasks)[i].kind == IndexWork && old(tasks)[i].status == WorkPending
                                 then old(tasks)[i].(status := WorkFailed) else old(tasks)[i]
    {
      if doc == DocGone {
        return NotFound;
      }
      for i := 0 to |tasks|
        invariant Rows() == old(Rows())
        invariant forall j :: 0 <= j < i ==> !ActiveDelete(tasks[j])
      {
        if ActiveDelete(tasks[i]) {
          return AlreadyScheduled;
        }
      }
      doc := DocDeleting;
      for i := 0 to |tasks|
        invariant |tasks| == |old(tasks)| && doc == DocDeleting
        invariant forall j :: 0 <= j < i ==> tasks[j] == SupersededWork(old(tasks)[j])
        invariant forall j :: i <= j < |tasks| ==> tasks[j] == old(tasks)[j]
      {
        if tasks[i].kind == IndexWork && tasks[i].status == WorkPending {
          tasks := tasks[i := tasks[i].(status := WorkFailed)];
        }
      }
      assert tasks == SupersededTasks(old(tasks));
      tasks := tasks + [Work(DeleteWork, WorkPending, 0, None)];
      return Ok;
    }

    method CompleteDeleteTask(t: nat, attempt: nat) returns (result: Result)
      modifies this
      ensures Effect(Rows(), result) == CompleteDelete(old(Rows()), t, attempt)
      ensures result == if old(doc) != DocDeleting then LifecycleChanged
                        else if old(OnAttempt(t, DeleteWork, attempt)) then Ok else Superseded
      ensures if result == Ok then doc == DocGone && OnlyStatus(t, WorkSucceeded) else Rows() == old(Rows())
    {
      if doc != DocDeleting {
        return LifecycleChanged;
      }
      doc := DocGone;
      if !(t < |tasks| && tasks[t].kind == DeleteWork && tasks[t].status == WorkRunning && tasks[t].attempts == attempt) {
        doc := DocDeleting;
        return Superseded;
      }
      tasks := tasks[t := tasks[t].(status := WorkSucceeded)];
      return Ok;
    }

    method FailDeleteTask(t: nat, attempt: nat, retry: bool) returns (result: Result)
      modifies this
      ensures Effect(Rows(), result) == FailDelete(old(Rows()), t, attempt, retry)
      ensures result == if old(doc) != DocDeleting then LifecycleChanged
                        else if old(OnAttempt(t, DeleteWork, attempt)) then Ok else Superseded
      ensures doc == old(doc) && (result != Ok ==> tasks == old(tasks))
      ensures result == Ok ==> OnlyStatus(t, if retry then WorkPending else WorkFailed)
    {
      if doc != DocDeleting {
        return LifecycleChanged;
      }
      if !(t < |tasks| && tasks[t].kind == DeleteWork && tasks[t].status == WorkRunning && tasks[t].attempts == attempt) {
        return Superseded;
      }
      tasks := tasks[t := tasks[t].(status := if retry then WorkPending else WorkFailed)];
      return Ok;
    }

    method RequeueDeleteTask(t: nat, attempt: nat) returns (result: Result)
      modifies this
      ensures Effect(Rows(), result) == RequeueDelete(old(Rows()), t, attempt)
      ensures result == if !old(OnAttempt(t, DeleteWork, attempt)) then Superseded
                        else if old(doc) == DocGone then LifecycleChanged else Ok
      ensures if result == Ok then doc == DocDeleting && OnlyQueued(t) else Rows() == old(Rows())
    {
      if !(t < |tasks| && tasks[t].kind == DeleteWork && tasks[t].status == WorkRunning && tasks[t].attempts == attempt) {
        return Superseded;
      }
      if doc == DocGone {
        return LifecycleChanged;
      }
      doc := DocDeleting;
      tasks := tasks[t := Requeued(tasks[t])];
      return Ok;
    }

    method RequeueFailedDeleteTask(t: nat) returns (result: Result)
      modifies this
      ensures Effect(Rows(), result) == RequeueFailedDelete(old(Rows()), t)
      ensures result == if !(t < |old(tasks)| && old(tasks)[t].kind == DeleteWork && old(tasks)[t].status == WorkFailed)
                        then NotClaimed
                        else if old(doc) == DocGone then LifecycleChanged else Ok
      ensures if result == Ok then doc == DocDeleting && OnlyQueued(t) else Rows() == old(Rows())
    {
      if t >= |tasks| || tasks[t].kind != DeleteWork || tasks[t].status != WorkFailed {
        return NotClaimed;
      }
      if doc == DocGone {
        return LifecycleChanged;
      }
      doc := DocDeleting;
      tasks := tasks[t := Requeued(tasks[t])];
      return Ok;
    }

    /** Running since before `before`. */
    static predicate Overdue(work: Work, before: Time) {
      work.status == WorkRunning && work.startedAt.Some? && work.startedAt.value < before
    }

    /** Overdue work waits again if the document, as it was, still wants it, and is cancelled otherwise. */
    static predicate Recovered(was: Work, work: Work, doc: DocStatus, before: Time) {
      if !Overdue(was, before) then work == was
      else if (was.kind == IndexWork && doc in {DocPending, DocIndexing}) || (was.kind == DeleteWork && doc == DocDeleting)
      then work == was.(status := WorkPending, startedAt := None)
      else work == was.(status := WorkCancelled)
    }

    static predicate OverdueIndexing(tasks: seq<Work>, bound: nat, before: Time)
      requires bound <= |tasks|
    {
      exists i :: 0 <= i < bound && tasks[i].kind == IndexWork && Overdue(tasks[i], before)
    }

    /** One pass over the stale running tasks; an earlier task's document change is visible to a later one. */
    method RecoverStaleTasks(before: Time)
      modifies this
      ensures Rows() == Recover(old(Rows()), before)
      ensures doc == if old(doc) == DocIndexing && OverdueIndexing(old(tasks), |old(tasks)|, before) then DocPending else old(doc)
      ensures |tasks| == |old(tasks)|
      ensures forall i :: 0 <= i < |tasks| ==> Recovered(old(tasks)[i], tasks[i], old(doc), before)
    {
      for t := 0 to |tasks|
        invariant |tasks| == |old(tasks)|
        invariant doc == if old(doc) == DocIndexing && OverdueIndexing(old(tasks), t, before) then DocPending else old(doc)
        invariant forall i :: 0 <= i < t ==> Recovered(old(tasks)[i], tasks[i], old(doc), before)
        invariant forall i :: t <= i < |tasks| ==> tasks[i] == old(tasks)[i]
        invariant RecoverFrom(Rows(), t, before) == Recover(old(Rows()), before)
      {
        var work := tasks[t];
        assert work == old(tasks)[t];
        if StaleWork(work, before) {
          if !CanRetry(work, doc) {
            tasks := tasks[t := work.(status := WorkCancelled)];
          } else {
            if work.kind == IndexWork && doc == DocIndexing {
              doc := DocPending;
            }
            tasks := tasks[t := Requeued(work)];
          }
        } else {
          assert tasks[t := work] == tasks;
        }
      }
    }
  }
}
