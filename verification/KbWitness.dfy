/** Concrete behaviours in which a document loses its chunks, leaves some behind, or can never become searchable. */
module KbWitness {
  import opened Options
  import opened KbRows
  import opened KbSystem
  import opened KbProgress

  lemma ReachStep(s: Sys, l: Label)
    requires Reachable(s)
    ensures Reachable(Step(s, l))
  {
    var content, labels :| s == Exec(Init(content), labels);
    assert (labels + [l])[..|labels|] == labels;
    assert Exec(Init(content), labels + [l]) == Step(s, l);
  }

  const CHUNK: Chunk := "c"

  const FINE := Env(true, true, true, true, {CHUNK})

  function Go0(r: nat): Label {
    Advances(r, Committed, FINE)
  }

  function IndexTask(status: WorkStatus, attempts: nat, startedAt: Option<Time>): Work {
    Work(IndexWork, status, attempts, startedAt)
  }

  lemma ReachInit() returns (s: Sys)
    ensures Reachable(s) && s == Init({CHUNK})
  {
    s := Init({CHUNK});
    assert Exec(Init({CHUNK}), []) == s;
  }

  /** Run `r`, freshly claimed on a pending document, works its way to the store. */
  lemma ReachStoring(start: Sys, r: nat) returns (s: Sys)
    requires Reachable(start) && r < |start.runs| && start.runs[r].pc == IxBase
    requires start.db.doc == DocPending && start.file && start.content == {CHUNK}
    ensures Reachable(s)
    ensures s == start.(db := start.db.(doc := DocIndexing), runs := start.runs[r := start.runs[r].(pc := IxStore({}))])
  {
    s := start;
    ReachStep(s, Go0(r));
    s := Step(s, Go0(r));
    assert s.runs[r].pc == IxDoc;
    ReachStep(s, Go0(r));
    s := Step(s, Go0(r));
    assert s.runs[r].pc == IxMark;
    ReachStep(s, Go0(r));
    s := Step(s, Go0(r));
    assert s.runs[r].pc == IxPrepare && s.db.doc == DocIndexing;
    ReachStep(s, Go0(r));
    s := Step(s, Go0(r));
    assert s.runs == start.runs[r := start.runs[r].(pc := IxStore({}))];
  }

  /**
   An attempt that found its base inactive stalls before its cleanup; the base becomes active again and a
   second attempt completes; then the stalled cleanup removes the chunks of a document that stays searchable.
   */
  lemma InactiveBaseEmptiesReadyDocument() returns (s: Sys)
    ensures Reachable(s) && s.db.doc == DocReady && s.content == {CHUNK} && s.store == map[]
  {
    s := ReachInit();
    ReachStep(s, Claims(0, 0, true));
    s := Step(s, Claims(0, 0, true));
    var inactive := Advances(0, Committed, FINE.(active := false));
    ReachStep(s, inactive);
    s := Step(s, inactive);
    ReachStep(s, Go0(0));
    s := Step(s, Go0(0));
    assert s.runs == [Run(0, 1, IxScan)];
    assert s.db == Db(DocPending, [IndexTask(WorkRunning, 1, Some(0))]);
    ReachStep(s, Recovers(1));
    s := Step(s, Recovers(1));
    assert s.db == Db(DocPending, [IndexTask(WorkPending, 1, None)]);
    ReachStep(s, Claims(0, 2, true));
    s := Step(s, Claims(0, 2, true));
    assert s.runs == [Run(0, 1, IxScan), Run(0, 2, IxBase)];
    s := ReachStoring(s, 1);
    assert s.db == Db(DocIndexing, [IndexTask(WorkRunning, 2, Some(2))]);
    s := FinishSecond(s);
    s := LateCleanup(s);
  }

  lemma FinishSecond(start: Sys) returns (s: Sys)
    requires Reachable(start) && start == Sys(Db(DocIndexing, [IndexTask(WorkRunning, 2, Some(2))]), {CHUNK}, map[], 0, true,
                                              [Run(0, 1, IxScan), Run(0, 2, IxStore({}))])
    ensures Reachable(s) && s.db.doc == DocReady && s.content == {CHUNK} && s.runs == [Run(0, 1, IxScan), Run(0, 2, Done)]
    ensures s.store.Keys == {CHUNK}
  {
    ReachStep(start, Go0(1));
    s := Step(start, Go0(1));
    assert FINE.keys * s.content == {CHUNK};
    assert {} + {CHUNK} == {CHUNK};
    assert s.runs[1].pc == IxComplete;
    assert s.store.Keys == {CHUNK};
    ReachStep(s, Go0(1));
    s := Step(s, Go0(1));
    assert s.runs == [Run(0, 1, IxScan), Run(0, 2, Done)];
  }

  lemma LateCleanup(start: Sys) returns (s: Sys)
    requires Reachable(start) && |start.runs| == 2 && start.runs[0].pc == IxScan
    requires start.content == {CHUNK} && start.store.Keys == {CHUNK}
    ensures Reachable(s) && s.db == start.db && s.content == start.content && s.store == map[]
  {
    ReachStep(start, Go0(0));
    s := Step(start, Go0(0));
    assert s.runs[0].pc == IxScanning(s.store);
    assert CHUNK in ScanKeys(s, s.store, {CHUNK});
    ReachStep(s, Go0(0));
    s := Step(s, Go0(0));
    assert s.runs[0].pc.IxUnlink? && CHUNK in s.runs[0].pc.keys;
    ReachStep(s, Go0(0));
    s := Step(s, Go0(0));
    assert s.store.Keys == {};
  }

  /**
   A deletion runs to its end while a stale attempt is still storing; a batch that lands with an error sends
   that attempt down its failure path, which removes nothing, so the chunk outlives its document.
   */
  lemma FailedAttemptLeaksChunk() returns (s: Sys)
    ensures Reachable(s) && s.db.doc == DocGone && CHUNK in s.store
    ensures forall r :: 0 <= r < |s.runs| ==> s.runs[r].pc == Done
  {
    s := ReachInit();
    ReachStep(s, Claims(0, 0, true));
    s := Step(s, Claims(0, 0, true));
    s := ReachStoring(s, 0);
    assert s.runs == [Run(0, 1, IxStore({}))];
    assert s.db == Db(DocIndexing, [IndexTask(WorkRunning, 1, Some(0))]);
    ReachStep(s, Deletes);
    s := Step(s, Deletes);
    assert s.db == Db(DocDeleting, [IndexTask(WorkRunning, 1, Some(0)), Work(DeleteWork, WorkPending, 0, None)]);
    ReachStep(s, Claims(1, 0, true));
    s := Step(s, Claims(1, 0, true));
    assert s.runs == [Run(0, 1, IxStore({})), Run(1, 1, DlDoc)];
    s := SweepNothing(s);
    s := LateBatch(s);
  }

  lemma LateBatch(start: Sys) returns (s: Sys)
    requires Reachable(start) && start.runs == [Run(0, 1, IxStore({})), Run(1, 1, Done)]
    requires start.db.doc == DocGone && start.content == {CHUNK}
    ensures Reachable(s) && s.db.doc == DocGone && CHUNK in s.store
    ensures s.runs == [Run(0, 1, Done), Run(1, 1, Done)]
  {
    var late := Advances(0, Committed, FINE.(ok := false));
    ReachStep(start, late);
    s := Step(start, late);
    assert CHUNK in FINE.keys * s.content;
    assert s.runs == [Run(0, 1, IxFail(true)), Run(1, 1, Done)];
    assert s.db == start.db && CHUNK in s.store;
    s := LateFailure(s);
  }

  lemma LateFailure(start: Sys) returns (s: Sys)
    requires Reachable(start) && start.runs == [Run(0, 1, IxFail(true)), Run(1, 1, Done)] && start.db.doc == DocGone
    ensures Reachable(s) && s.db == start.db && s.store == start.store
    ensures s.runs == [Run(0, 1, Done), Run(1, 1, Done)]
  {
    ReachStep(start, Go0(0));
    s := Step(start, Go0(0));
  }

  const NOTHING := Advances(1, Committed, FINE.(keys := {}))

  /** The deletion attempt scans and finds no chunk. */
  lemma ScanNothing(start: Sys) returns (s: Sys)
    requires Reachable(start) && start.runs == [Run(0, 1, IxStore({})), Run(1, 1, DlDoc)] && start.store == map[]
    requires start.content == {CHUNK} && start.db.doc == DocDeleting
    ensures Reachable(s) && s == start.(runs := [Run(0, 1, IxStore({})), Run(1, 1, DlFile)])
  {
    ReachStep(start, NOTHING);
    s := Step(start, NOTHING);
    assert s.runs[1].pc == DlScan;
    ReachStep(s, NOTHING);
    s := Step(s, NOTHING);
    assert s.runs[1].pc == DlScanning(map[]);
    assert ScanKeys(s, map[], {}) == {};
    ReachStep(s, NOTHING);
    s := Step(s, NOTHING);
    assert s.runs == [Run(0, 1, IxStore({})), Run(1, 1, DlFile)];
  }

  lemma SweepNothing(start: Sys) returns (s: Sys)
    requires Reachable(start) && start.runs == [Run(0, 1, IxStore({})), Run(1, 1, DlDoc)] && start.store == map[]
    requires start.content == {CHUNK}
    requires start.db == Db(DocDeleting, [IndexTask(WorkRunning, 1, Some(0)), Work(DeleteWork, WorkRunning, 1, Some(0))])
    ensures Reachable(s) && s.db.doc == DocGone && s.runs == [Run(0, 1, IxStore({})), Run(1, 1, Done)] && s.content == {CHUNK}
  {
    s := ScanNothing(start);
    ReachStep(s, NOTHING);
    s := Step(s, NOTHING);
    assert s.runs[1].pc == DlComplete && s.db == start.db;
    ReachStep(s, NOTHING);
    s := Step(s, NOTHING);
    assert s.runs == [Run(0, 1, IxStore({})), Run(1, 1, Done)];
  }

  /**
   An attempt that finds its base inactive cancels the only indexing task of a pending document: nothing that happens
   later makes the document searchable.
   */
  lemma InactiveBaseStrandsDocument() returns (s: Sys)
    ensures Reachable(s) && s.db.doc == DocPending && s.content == {CHUNK} && !CanBecomeReady(s)
  {
    s := ReachInit();
    ReachStep(s, Claims(0, 0, true));
    s := Step(s, Claims(0, 0, true));
    var inactive := Advances(0, Committed, FINE.(active := false));
    ReachStep(s, inactive);
    s := Step(s, inactive);
    ReachStep(s, Go0(0));
    s := Step(s, Go0(0));
    assert s.runs == [Run(0, 1, IxScan)];
    s := GivesUp(s);
    CanBecomeReadyExactly(s);
  }

  lemma GivesUp(start: Sys) returns (s: Sys)
    requires Reachable(start) && start.runs == [Run(0, 1, IxScan)] && start.store == map[]
    requires start.db == Db(DocPending, [IndexTask(WorkRunning, 1, Some(0))])
    ensures Reachable(s) && s.content == start.content && s.db == Db(DocPending, [IndexTask(WorkCancelled, 1, Some(0))])
  {
    var quiet := Advances(0, Committed, FINE.(keys := {}));
    ReachStep(start, quiet);
    s := Step(start, quiet);
    assert s.runs[0].pc == IxScanning(map[]) && ScanKeys(s, map[], {}) == {};
    ReachStep(s, quiet);
    s := Step(s, quiet);
    assert s.runs == [Run(0, 1, IxCancel)];
    ReachStep(s, quiet);
    s := Step(s, quiet);
  }
}
