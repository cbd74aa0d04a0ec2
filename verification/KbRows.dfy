/**
 The durable rows behind one knowledge document and the effect of each transaction on them.
 A deleted row is the status `Gone`; `tasks` holds the document's work items in creation order.
 */
module KbRows {
  import opened Options

  type Time = int

  datatype DocStatus = DocPending | DocIndexing | DocReady | DocFailed | DocDeleting | DocGone

  datatype WorkKind = IndexWork | DeleteWork

  datatype WorkStatus = WorkPending | WorkRunning | WorkSucceeded | WorkFailed | WorkCancelled

  datatype Work = Work(kind: WorkKind, status: WorkStatus, attempts: nat, startedAt: Option<Time>)

  datatype Db = Db(doc: DocStatus, tasks: seq<Work>)

  datatype Result = Ok | Superseded | LifecycleChanged | AlreadyScheduled | NotFound | NotClaimed

  /** A transaction's rows and answer; anything but `Ok` rolls the rows back. */
  datatype Effect = Effect(db: Db, result: Result)

  const MAX_ATTEMPTS := 3

  predicate Tombstoned(doc: DocStatus) {
    doc == DocDeleting || doc == DocGone
  }

  function Created(): Db {
    Db(DocPending, [Work(IndexWork, WorkPending, 0, None)])
  }

  /** The attempt fence: the task is of this kind, running, and on exactly this attempt. */
  predicate Owns(db: Db, t: nat, kind: WorkKind, attempt: nat) {
    t < |db.tasks| && db.tasks[t].kind == kind && db.tasks[t].status == WorkRunning && db.tasks[t].attempts == attempt
  }

  function SetStatus(db: Db, t: nat, status: WorkStatus): Db
    requires t < |db.tasks|
  {
    db.(tasks := db.tasks[t := db.tasks[t].(status := status)])
  }

  /** Back to pending with a cleared start time. */
  function Requeued(work: Work): Work {
    work.(status := WorkPending, startedAt := None)
  }

  function ClaimTask(db: Db, t: nat, now: Time): Effect {
    if t >= |db.tasks| || db.tasks[t].status != WorkPending then Effect(db, NotClaimed)
    else Effect(db.(tasks := db.tasks[t := db.tasks[t].(status := WorkRunning, attempts := db.tasks[t].attempts + 1,
                                                        startedAt := Some(now))]), Ok)
  }

  function MarkIndexing(db: Db): Effect {
    if db.doc != DocPending then Effect(db, LifecycleChanged) else Effect(db.(doc := DocIndexing), Ok)
  }

  function CompleteIndex(db: Db, t: nat, attempt: nat): Effect {
    if db.doc != DocIndexing then Effect(db, LifecycleChanged)
    else if !Owns(db, t, IndexWork, attempt) then Effect(db, Superseded)
    else Effect(SetStatus(db, t, WorkSucceeded).(doc := DocReady), Ok)
  }

  function FailIndex(db: Db, t: nat, attempt: nat, retry: bool): Effect {
    if db.doc != DocIndexing then Effect(db, LifecycleChanged)
    else if !Owns(db, t, IndexWork, attempt) then Effect(db, Superseded)
    else Effect(SetStatus(db, t, if retry then WorkPending else WorkFailed).(doc := if retry then DocPending else DocFailed), Ok)
  }

  function CancelIndex(db: Db, t: nat, attempt: nat): Effect {
    if !Owns(db, t, IndexWork, attempt) then Effect(db, Superseded) else Effect(SetStatus(db, t, WorkCancelled), Ok)
  }

  predicate ActiveDelete(work: Work) {
    work.kind == DeleteWork && (work.status == WorkPending || work.status == WorkRunning)
  }

  /** Pending index work of a document that is being deleted is failed at once. */
  function SupersededWork(work: Work): Work {
    if work.kind == IndexWork && work.status == WorkPending then work.(status := WorkFailed) else work
  }

  function SupersededTasks(tasks: seq<Work>): (r: seq<Work>)
    ensures |r| == |tasks| && forall i :: 0 <= i < |tasks| ==> r[i] == SupersededWork(tasks[i])
  {
    seq(|tasks|, i requires 0 <= i < |tasks| => SupersededWork(tasks[i]))
  }

  /** Scheduling a deletion sets the tombstone, supersedes queued indexing and adds the cleanup work. */
  function ScheduleDelete(db: Db): Effect {
    if db.doc == DocGone then Effect(db, NotFound)
    else if exists i :: 0 <= i < |db.tasks| && ActiveDelete(db.tasks[i]) then Effect(db, AlreadyScheduled)
    else Effect(Db(DocDeleting, SupersededTasks(db.tasks) + [Work(DeleteWork, WorkPending, 0, None)]), Ok)
  }

  function CompleteDelete(db: Db, t: nat, attempt: nat): Effect {
    if db.doc != DocDeleting then Effect(db, LifecycleChanged)
    else if !Owns(db, t, DeleteWork, attempt) then Effect(db, Superseded)
    else Effect(SetStatus(db, t, WorkSucceeded).(doc := DocGone), Ok)
  }

  function FailDelete(db: Db, t: nat, attempt: nat, retry: bool): Effect {
    if db.doc != DocDeleting then Effect(db, LifecycleChanged)
    else if !Owns(db, t, DeleteWork, attempt) then Effect(db, Superseded)
    else Effect(SetStatus(db, t, if retry then WorkPending else WorkFailed), Ok)
  }

  /** Reasserts the tombstone and retries the cleanup after a lifecycle conflict. */
  function RequeueDelete(db: Db, t: nat, attempt: nat): Effect {
    if !Owns(db, t, DeleteWork, attempt) then Effect(db, Superseded)
    else if db.doc == DocGone then Effect(db, LifecycleChanged)
    else Effect(Db(DocDeleting, db.tasks[t := Requeued(db.tasks[t])]), Ok)
  }

  /** The backoff path: a failed cleanup becomes pending again. */
  function RequeueFailedDelete(db: Db, t: nat): Effect {
    if t >= |db.tasks| || db.tasks[t].kind != DeleteWork || db.tasks[t].status != WorkFailed then Effect(db, NotClaimed)
    else if db.doc == DocGone then Effect(db, LifecycleChanged)
    else Effect(Db(DocDeleting, db.tasks[t := Requeued(db.tasks[t])]), Ok)
  }

  // ----- stale recovery: a pass over the running tasks that also moves the document -----

  predicate StaleWork(work: Work, before: Time) {
    work.status == WorkRunning && work.startedAt.Some? && work.startedAt.value < before
  }

  predicate CanRetry(work: Work, doc: DocStatus) {
    if work.kind == IndexWork then doc == DocPending || doc == DocIndexing else doc == DocDeleting
  }

  function RecoveredWork(work: Work, doc: DocStatus, before: Time): Work {
    if !StaleWork(work, before) then work
    else if CanRetry(work, doc) then Requeued(work)
    else work.(status := WorkCancelled)
  }

  function RecoveredDoc(work: Work, doc: DocStatus, before: Time): DocStatus {
    if StaleWork(work, before) && work.kind == IndexWork && doc == DocIndexing then DocPending else doc
  }

  /** The pass from task `from` on, in order. */
  function RecoverFrom(db: Db, from: nat, before: Time): (r: Db)
    ensures |r.tasks| == |db.tasks|
    decreases |db.tasks| - from
  {
    if from >= |db.tasks| then db
    else
      var work := db.tasks[from];
      RecoverFrom(Db(RecoveredDoc(work, db.doc, before), db.tasks[from := RecoveredWork(work, db.doc, before)]), from + 1, before)
  }

  function Recover(db: Db, before: Time): Db {
    RecoverFrom(db, 0, before)
  }
}
