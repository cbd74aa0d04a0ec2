/**
 One knowledge document across its three stores: MySQL rows, Redis chunks and the source file.
 Any number of claimed attempts, live or stale, interleave with stale recovery, deletion requests and
 delete retries. One transition is one transaction, one read, one Redis command or one file removal.
 No lock is assumed between runs: the document lock of the program is local to one process.
 */
module KbSystem {
  import opened KbRows

  type Chunk = string

  /** Which run wrote a chunk last, and a serial number of that write. */
  datatype Stamp = Stamp(run: nat, serial: nat)

  /** Where an attempt is; `Ix` are indexing attempts, `Dl` deletion attempts. */
  datatype Pc =
    | IxBase | IxDoc | IxMark | IxPrepare | IxStore(stored: set<Chunk>) | IxComplete
    | IxLookup(conflict: bool) | IxScan | IxScanning(seen: map<Chunk, Stamp>) | IxUnlink(keys: set<Chunk>) | IxCancel
    | IxFail(retry: bool)
    | DlDoc | DlScan | DlScanning(seen: map<Chunk, Stamp>) | DlUnlink(keys: set<Chunk>) | DlFile | DlComplete
    | DlRequeue | DlFail(retry: bool)
    | Done

  datatype Run = Run(task: nat, attempt: nat, pc: Pc)

  /** `content`: the chunks of the (immutable) source text. */
  datatype Sys = Sys(db: Db, content: set<Chunk>, store: map<Chunk, Stamp>, serial: nat, file: bool, runs: seq<Run>)

  /** A transaction commits and says so, commits but reports an error, or does not commit. */
  datatype Outcome = Committed | AckLost | Refused

  /**
   `ok`: the read or command reports success; `landed`: a command that reports an error took effect all the same;
   `active`: what the knowledge base row says; `keys`: the keys of one store batch, or what a scan may return
   beyond its guarantee.
   */
  datatype Env = Env(ok: bool, landed: bool, active: bool, found: bool, keys: set<Chunk>)

  datatype Label =
    | Claims(task: nat, now: Time, started: bool)
    | Advances(run: nat, out: Outcome, env: Env)
    | Stops(run: nat)
    | Recovers(before: Time)
    | Deletes
    | RetriesDelete(task: nat)

  function Init(content: set<Chunk>): Sys {
    Sys(Created(), content, map[], 0, true, [])
  }

  function Goto(s: Sys, r: nat, pc: Pc): Sys
    requires r < |s.runs|
  {
    s.(runs := s.runs[r := s.runs[r].(pc := pc)])
  }

  /** The rows after a transaction whose answer may be lost. */
  function Land(s: Sys, e: Effect, out: Outcome): Sys {
    if e.result == Ok && !out.Refused? then s.(db := e.db) else s
  }

  function Stored(s: Sys, r: nat, batch: set<Chunk>): Sys {
    s.(store := s.store + (map c | c in batch :: Stamp(r, s.serial)), serial := s.serial + 1)
  }

  function Unlinked(s: Sys, keys: set<Chunk>): Sys {
    s.(store := s.store - keys)
  }

  /** A key that stayed untouched since the scan began is returned; any other may be. */
  predicate Stable(seen: map<Chunk, Stamp>, store: map<Chunk, Stamp>, c: Chunk) {
    c in seen && c in store && seen[c] == store[c]
  }

  function ScanKeys(s: Sys, seen: map<Chunk, Stamp>, keys: set<Chunk>): set<Chunk> {
    (set c | c in s.store && Stable(seen, s.store, c)) + keys * s.content
  }

  predicate MayRetry(attempt: nat) {
    attempt < MAX_ATTEMPTS
  }

  /** The body of an indexing attempt, up to its completion. */
  function IndexNode(s: Sys, r: nat, out: Outcome, env: Env): Sys
    requires r < |s.runs|
  {
    var run := s.runs[r];
    var failed := IxFail(MayRetry(run.attempt));
    match run.pc
    case IxBase =>
      if !env.found then Goto(s, r, IxFail(false))
      else if !env.ok then Goto(s, r, failed)
      else if !env.active then Goto(s, r, IxLookup(true))
      else Goto(s, r, IxDoc)
    case IxDoc =>
      if !env.ok then Goto(s, r, failed)
      else if s.db.doc == DocGone then Goto(s, r, IxFail(false))
      else if s.db.doc == DocDeleting then Goto(s, r, IxLookup(true))
      else Goto(s, r, IxMark)
    case IxMark =>
      var e := MarkIndexing(s.db);
      Goto(Land(s, e, out), r,
           if !out.Committed? then failed else if e.result == Ok then IxPrepare else IxLookup(false))
    case IxPrepare =>
      if !env.ok || !s.file || s.content == {} then Goto(s, r, failed) else Goto(s, r, IxStore({}))
    case IxStore(stored) =>
      var batch := env.keys * s.content;
      if !env.ok then Goto(if env.landed then Stored(s, r, batch) else s, r, failed)
      else Goto(Stored(s, r, batch), r, if stored + batch == s.content then IxComplete else IxStore(stored + batch))
    case IxComplete =>
      var e := CompleteIndex(s.db, run.task, run.attempt);
      Goto(Land(s, e, out), r,
           if !out.Committed? then failed else if e.result == Ok then Done else IxLookup(false))
    case IxFail(retry) =>
      Goto(Land(s, FailIndex(s.db, run.task, run.attempt, retry), out), r, Done)
    case _ => s
  }

  /** What a superseded indexing attempt does before it goes. */
  function CleanupNode(s: Sys, r: nat, out: Outcome, env: Env): Sys
    requires r < |s.runs|
  {
    var run := s.runs[r];
    match run.pc
    case IxLookup(conflict) =>
      var cleanup := if s.db.doc == DocGone && env.ok then true
        else if !env.ok then false
        else if s.db.doc == DocDeleting then true
        else conflict;
      Goto(s, r, if cleanup then IxScan else IxCancel)
    case IxScan => Goto(s, r, if env.ok then IxScanning(s.store) else Done)
    case IxScanning(seen) =>
      var keys := ScanKeys(s, seen, env.keys);
      Goto(s, r, if !env.ok then Done else if keys == {} then IxCancel else IxUnlink(keys))
    case IxUnlink(keys) =>
      Goto(if env.ok || env.landed then Unlinked(s, keys) else s, r, if env.ok then IxCancel else Done)
    case IxCancel =>
      Goto(Land(s, CancelIndex(s.db, run.task, run.attempt), out), r, Done)
    case _ => s
  }

  function DeleteNode(s: Sys, r: nat, out: Outcome, env: Env): Sys
    requires r < |s.runs|
  {
    var run := s.runs[r];
    var failed := DlFail(MayRetry(run.attempt));
    match run.pc
    case DlDoc =>
      if !env.ok then Goto(s, r, failed) else if s.db.doc == DocGone then Goto(s, r, DlFail(false)) else Goto(s, r, DlScan)
    case DlScan => Goto(s, r, if env.ok then DlScanning(s.store) else failed)
    case DlScanning(seen) =>
      var keys := ScanKeys(s, seen, env.keys);
      Goto(s, r, if !env.ok then failed else if keys == {} then DlFile else DlUnlink(keys))
    case DlUnlink(keys) =>
      Goto(if env.ok || env.landed then Unlinked(s, keys) else s, r, if env.ok then DlFile else failed)
    case DlFile =>
      Goto(if env.ok || env.landed then s.(file := false) else s, r, if env.ok then DlComplete else failed)
    case DlComplete =>
      var e := CompleteDelete(s.db, run.task, run.attempt);
      Goto(Land(s, e, out), r,
           if !out.Committed? then failed
           else if e.result == LifecycleChanged then DlRequeue
           else Done)
    case DlRequeue =>
      Goto(Land(s, RequeueDelete(s.db, run.task, run.attempt), out), r, Done)
    case DlFail(retry) =>
      Goto(Land(s, FailDelete(s.db, run.task, run.attempt, retry), out), r, Done)
    case _ => s
  }

  predicate Cleaning(pc: Pc) {
    pc.IxLookup? || pc.IxScan? || pc.IxScanning? || pc.IxUnlink? || pc.IxCancel?
  }

  predicate Indexing(pc: Pc) {
    pc.IxBase? || pc.IxDoc? || pc.IxMark? || pc.IxPrepare? || pc.IxStore? || pc.IxComplete? || pc.IxFail?
  }

  function Advance(s: Sys, r: nat, out: Outcome, env: Env): Sys
    requires r < |s.runs|
  {
    var pc := s.runs[r].pc;
    if pc.Done? then s
    else if Indexing(pc) then IndexNode(s, r, out, env)
    else if Cleaning(pc) then CleanupNode(s, r, out, env)
    else DeleteNode(s, r, out, env)
  }

  function Step(s: Sys, l: Label): Sys {
    match l
    case Claims(t, now, started) =>
      var e := ClaimTask(s.db, t, now);
      if e.result != Ok then s
      else
        var first := if s.db.tasks[t].kind == IndexWork then IxBase else DlDoc;
        s.(db := e.db, runs := s.runs + [Run(t, e.db.tasks[t].attempts, if started then first else Done)])
    case Advances(r, out, env) => if r >= |s.runs| then s else Advance(s, r, out, env)
    case Stops(r) => if r >= |s.runs| then s else Goto(s, r, Done)
    case Recovers(before) => s.(db := Recover(s.db, before))
    case Deletes => Land(s, ScheduleDelete(s.db), Committed)
    case RetriesDelete(t) => Land(s, RequeueFailedDelete(s.db, t), Committed)
  }

  /** The state after a whole behaviour. */
  function Exec(s: Sys, labels: seq<Label>): Sys
    decreases |labels|
  {
    if labels == [] then s else Step(Exec(s, labels[..|labels| - 1]), labels[|labels| - 1])
  }

  ghost predicate Reachable(s: Sys) {
    exists content, labels :: s == Exec(Init(content), labels)
  }
}
