/**
 Where an attempt on a knowledge document goes from each of its points, and when: read off the rows, the stores and the
 answers alone. An attempt is retried while it is one of the first two of its task.
 */
module KbMoves {
  import opened KbRows
  import opened KbSystem

  predicate Moves(s: Sys, r: nat, s': Sys, pc: Pc)
    requires r < |s.runs|
  {
    s' == s.(runs := s.runs[r := s.runs[r].(pc := pc)])
  }

  /** One transaction: its rows if it is accepted and not refused. */
  predicate Wrote(s: Sys, r: nat, s': Sys, effect: Effect, out: Outcome, pc: Pc)
    requires r < |s.runs|
  {
    var landed := if effect.result == Ok && out != Refused then s.(db := effect.db) else s;
    s' == landed.(runs := s.runs[r := s.runs[r].(pc := pc)])
  }

  predicate Again(s: Sys, r: nat)
    requires r < |s.runs|
  {
    s.runs[r].attempt < 3
  }

  // ----- indexing -----

  /** A missing base fails the attempt for good, an inactive one turns it to cleaning up. */
  lemma BaseExactly(s: Sys, r: nat, out: Outcome, env: Env)
    requires r < |s.runs| && s.runs[r].pc == IxBase
    ensures Moves(s, r, Step(s, Advances(r, out, env)),
                  if !env.found then IxFail(false)
                  else if !env.ok then IxFail(Again(s, r))
                  else if env.active then IxDoc else IxLookup(true))
  {
  }

  /** So does a missing document, and one that is being deleted. */
  lemma DocumentExactly(s: Sys, r: nat, out: Outcome, env: Env)
    requires r < |s.runs| && s.runs[r].pc == IxDoc
    ensures Moves(s, r, Step(s, Advances(r, out, env)),
                  if !env.ok then IxFail(Again(s, r))
                  else match s.db.doc
                    case DocGone => IxFail(false)
                    case DocDeleting => IxLookup(true)
                    case _ => IxMark)
  {
  }

  /** A lifecycle that has moved on turns the attempt to cleaning up; an error fails it, even if the write landed. */
  lemma MarkExactly(s: Sys, r: nat, out: Outcome, env: Env)
    requires r < |s.runs| && s.runs[r].pc == IxMark
    ensures Wrote(s, r, Step(s, Advances(r, out, env)), MarkIndexing(s.db), out,
                  if out != Committed then IxFail(Again(s, r))
                  else if s.db.doc == DocPending then IxPrepare else IxLookup(false))
  {
  }

  lemma PrepareExactly(s: Sys, r: nat, out: Outcome, env: Env)
    requires r < |s.runs| && s.runs[r].pc == IxPrepare
    ensures Moves(s, r, Step(s, Advances(r, out, env)),
                  if env.ok && s.file && |s.content| > 0 then IxStore({}) else IxFail(Again(s, r)))
  {
    if s.content != {} {
      var c :| c in s.content;
    }
  }

  /** A batch is stamped with the run; all chunks must be stored before the attempt completes. */
  lemma StoreExactly(s: Sys, r: nat, out: Outcome, env: Env, stored: set<Chunk>)
    requires r < |s.runs| && s.runs[r].pc == IxStore(stored)
    ensures var s' := Step(s, Advances(r, out, env));
            var batch := env.keys * s.content;
            && s'.runs == s.runs[r := s.runs[r].(pc := if !env.ok then IxFail(Again(s, r))
                                                       else if stored + batch == s.content then IxComplete
                                                       else IxStore(stored + batch))]
            && s'.db == s.db && s'.content == s.content && s'.file == s.file
            && (if env.ok || env.landed then
                  && s'.store.Keys == s.store.Keys + batch && s'.serial == s.serial + 1
                  && forall c :: c in s'.store ==> s'.store[c] == if c in batch then Stamp(r, s.serial) else s.store[c]
                else s'.store == s.store && s'.serial == s.serial)
  {
  }

  lemma CompleteExactly(s: Sys, r: nat, out: Outcome, env: Env)
    requires r < |s.runs| && s.runs[r].pc == IxComplete
    ensures var effect := CompleteIndex(s.db, s.runs[r].task, s.runs[r].attempt);
            Wrote(s, r, Step(s, Advances(r, out, env)), effect, out,
                  if out != Committed then IxFail(Again(s, r)) else if effect.result == Ok then Done else IxLookup(false))
  {
  }

  lemma FailExactly(s: Sys, r: nat, out: Outcome, env: Env, retry: bool)
    requires r < |s.runs| && s.runs[r].pc == IxFail(retry)
    ensures Wrote(s, r, Step(s, Advances(r, out, env)), FailIndex(s.db, s.runs[r].task, s.runs[r].attempt, retry), out, Done)
  {
  }

  // ----- cleaning up after being superseded -----

  /** Chunks are cleaned up if the document is found gone or being deleted, or if the attempt saw a conflict itself. */
  lemma LookupExactly(s: Sys, r: nat, out: Outcome, env: Env, conflict: bool)
    requires r < |s.runs| && s.runs[r].pc == IxLookup(conflict)
    ensures Moves(s, r, Step(s, Advances(r, out, env)),
                  if env.ok && (conflict || s.db.doc in {DocDeleting, DocGone}) then IxScan else IxCancel)
  {
  }

  /** A failed scan or removal ends the attempt; its task stays as it is. */
  lemma CleanupExactly(s: Sys, r: nat, out: Outcome, env: Env, seen: map<Chunk, Stamp>, keys: set<Chunk>)
    requires r < |s.runs|
    ensures s.runs[r].pc == IxScan ==>
              Moves(s, r, Step(s, Advances(r, out, env)), if env.ok then IxScanning(s.store) else Done)
    ensures s.runs[r].pc == IxScanning(seen) ==>
              Moves(s, r, Step(s, Advances(r, out, env)),
                    if !env.ok then Done
                    else if ScanKeys(s, seen, env.keys) == {} then IxCancel else IxUnlink(ScanKeys(s, seen, env.keys)))
    ensures s.runs[r].pc == IxUnlink(keys) ==>
              Step(s, Advances(r, out, env))
              == s.(store := if env.ok || env.landed then s.store - keys else s.store,
                    runs := s.runs[r := s.runs[r].(pc := if env.ok then IxCancel else Done)])
    ensures s.runs[r].pc == IxCancel ==>
              Wrote(s, r, Step(s, Advances(r, out, env)), CancelIndex(s.db, s.runs[r].task, s.runs[r].attempt), out, Done)
  {
  }

  /** A scan returns every chunk that was there from its beginning and untouched since; it may return others of the document. */
  lemma ScanReturns(s: Sys, seen: map<Chunk, Stamp>, keys: set<Chunk>, c: Chunk)
    ensures c in ScanKeys(s, seen, keys)
            <==> (c in s.store && c in seen && seen[c] == s.store[c]) || (c in keys && c in s.content)
  {
  }

  // ----- deletion -----

  /** A document that is gone already fails the deletion for good. */
  lemma DeleteReadExactly(s: Sys, r: nat, out: Outcome, env: Env)
    requires r < |s.runs| && s.runs[r].pc == DlDoc
    ensures Moves(s, r, Step(s, Advances(r, out, env)),
                  if !env.ok then DlFail(Again(s, r)) else if s.db.doc == DocGone then DlFail(false) else DlScan)
  {
  }

  /** First the chunks, then the file, each to the end or not at all. */
  lemma DeleteStoresExactly(s: Sys, r: nat, out: Outcome, env: Env, seen: map<Chunk, Stamp>, keys: set<Chunk>)
    requires r < |s.runs|
    ensures s.runs[r].pc == DlScan ==>
              Moves(s, r, Step(s, Advances(r, out, env)), if env.ok then DlScanning(s.store) else DlFail(Again(s, r)))
    ensures s.runs[r].pc == DlScanning(seen) ==>
              Moves(s, r, Step(s, Advances(r, out, env)),
                    if !env.ok then DlFail(Again(s, r))
                    else if ScanKeys(s, seen, env.keys) == {} then DlFile else DlUnlink(ScanKeys(s, seen, env.keys)))
    ensures s.runs[r].pc == DlUnlink(keys) ==>
              Step(s, Advances(r, out, env))
              == s.(store := if env.ok || env.landed then s.store - keys else s.store,
                    runs := s.runs[r := s.runs[r].(pc := if env.ok then DlFile else DlFail(Again(s, r)))])
    ensures s.runs[r].pc == DlFile ==>
              Step(s, Advances(r, out, env))
              == s.(file := s.file && !env.ok && !env.landed,
                    runs := s.runs[r := s.runs[r].(pc := if env.ok then DlComplete else DlFail(Again(s, r)))])
  {
  }

  /** Only a changed lifecycle sets the tombstone again; a superseded deletion ends. */
  lemma DeleteCompleteExactly(s: Sys, r: nat, out: Outcome, env: Env)
    requires r < |s.runs| && s.runs[r].pc == DlComplete
    ensures Wrote(s, r, Step(s, Advances(r, out, env)), CompleteDelete(s.db, s.runs[r].task, s.runs[r].attempt), out,
                  if out != Committed then DlFail(Again(s, r)) else if s.db.doc != DocDeleting then DlRequeue else Done)
  {
  }

  lemma DeleteEnds(s: Sys, r: nat, out: Outcome, env: Env, retry: bool)
    requires r < |s.runs|
    ensures s.runs[r].pc == DlRequeue ==>
              Wrote(s, r, Step(s, Advances(r, out, env)), RequeueDelete(s.db, s.runs[r].task, s.runs[r].attempt), out, Done)
    ensures s.runs[r].pc == DlFail(retry) ==>
              Wrote(s, r, Step(s, Advances(r, out, env)), FailDelete(s.db, s.runs[r].task, s.runs[r].attempt, retry), out, Done)
    ensures s.runs[r].pc == Done ==> Step(s, Advances(r, out, env)) == s
    ensures Moves(s, r, Step(s, Stops(r)), Done)
  {
  }

  // ----- claims and requests -----

  /** A claim starts the work its task asks for, under a new attempt, or crashes before it starts. */
  lemma ClaimExactly(s: Sys, t: nat, now: Time, started: bool)
    ensures var s' := Step(s, Claims(t, now, started));
            if t < |s.db.tasks| && s.db.tasks[t].status == WorkPending then
              && s'.db == ClaimTask(s.db, t, now).db && s'.store == s.store && s'.file == s.file && s'.serial == s.serial
              && s'.runs == s.runs + [Run(t, s.db.tasks[t].attempts + 1,
                                          if !started then Done else if s.db.tasks[t].kind == IndexWork then IxBase else DlDoc)]
            else s' == s
  {
  }

  /** Requests and recovery touch the rows and nothing else. */
  lemma RequestsExactly(s: Sys, before: Time, t: nat)
    ensures Step(s, Recovers(before)) == s.(db := Recover(s.db, before))
    ensures Step(s, Deletes) == if ScheduleDelete(s.db).result == Ok then s.(db := ScheduleDelete(s.db).db) else s
    ensures Step(s, RetriesDelete(t)) == if RequeueFailedDelete(s.db, t).result == Ok then s.(db := RequeueFailedDelete(s.db, t).db) else s
  {
  }
}
