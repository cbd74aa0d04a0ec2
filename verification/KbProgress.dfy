/**
 When a document can still become searchable. An attempt that gives up on an inactive base cancels the indexing task
 for good; these lemmas say exactly which documents are stuck that way.
 */
module KbProgress {
  import opened KbRows
  import opened KbSystem
  import opened KbInvariant
  import opened KbTheorems

  // ----- what an undeleted document keeps -----

  /** The source file is there, the document failed with its task, and nothing is stored of an empty text. */
  ghost predicate UndeletedInv(s: Sys) {
    && (!Tombstoned(s.db.doc) ==>
          s.file && |s.db.tasks| > 0 && (s.db.doc == DocFailed <==> s.db.tasks[0].status == WorkFailed))
    && (s.content == {} ==> forall r :: 0 <= r < |s.runs| ==> !s.runs[r].pc.IxStore? && !s.runs[r].pc.IxComplete?)
  }

  lemma IndexUndeleted(s: Sys, r: nat, out: Outcome, env: Env)
    requires r < |s.runs| && Indexing(s.runs[r].pc) && UndeletedInv(s)
    requires !Tombstoned(s.db.doc) ==> |s.db.tasks| == 1
    ensures UndeletedInv(IndexNode(s, r, out, env))
  {
    IndexMoved(s, r, out, env);
    IndexFile(s, r, out, env);
  }

  lemma IndexFile(s: Sys, r: nat, out: Outcome, env: Env)
    requires r < |s.runs| && Indexing(s.runs[r].pc)
    ensures IndexNode(s, r, out, env).file == s.file
    ensures s.content == {} && !s.runs[r].pc.IxStore? && !s.runs[r].pc.IxComplete? ==>
              !IndexNode(s, r, out, env).runs[r].pc.IxStore? && !IndexNode(s, r, out, env).runs[r].pc.IxComplete?
  {
  }

  lemma CleanupUndeleted(s: Sys, r: nat, out: Outcome, env: Env)
    requires r < |s.runs| && Cleaning(s.runs[r].pc) && UndeletedInv(s)
    ensures UndeletedInv(CleanupNode(s, r, out, env))
  {
    CleanupMoved(s, r, out, env);
    CleanupKeepsDoc(s, r, out, env);
  }

  lemma DeleteUndeleted(s: Sys, r: nat, out: Outcome, env: Env)
    requires Inv(s) && r < |s.runs| && Deleting(s.runs[r].pc) && UndeletedInv(s)
    ensures UndeletedInv(DeleteNode(s, r, out, env))
  {
    assert RunOk(s, s.runs[r]);
    AdvanceMoved(s, r, out, env);
    AdvanceInv(s, r, DeleteNode(s, r, out, env));
  }

  lemma StepUndeleted(s: Sys, l: Label)
    requires Inv(s) && UndeletedInv(s) && (!Tombstoned(s.db.doc) ==> |s.db.tasks| == 1)
    ensures UndeletedInv(Step(s, l))
  {
    match l {
      case Advances(r, out, env) =>
        if r < |s.runs| {
          if Indexing(s.runs[r].pc) {
            IndexUndeleted(s, r, out, env);
          } else if Cleaning(s.runs[r].pc) {
            CleanupUndeleted(s, r, out, env);
          } else if !s.runs[r].pc.Done? {
            DeleteUndeleted(s, r, out, env);
          }
        }
      case Recovers(before) => RecoverFacts(s.db, 0, before);
      case _ =>
    }
  }

  lemma {:induction false} ExecUndeleted(content: set<Chunk>, labels: seq<Label>)
    ensures UndeletedInv(Exec(Init(content), labels))
    decreases |labels|
  {
    if labels != [] {
      var before := labels[..|labels| - 1];
      ExecUndeleted(content, before);
      assert Reachable(Exec(Init(content), before));
      ReachableInv(Exec(Init(content), before));
      ReadyExactly(Exec(Init(content), before));
      StepUndeleted(Exec(Init(content), before), labels[|labels| - 1]);
    }
  }

  lemma ReachableUndeleted(s: Sys)
    requires Reachable(s)
    ensures UndeletedInv(s)
  {
    var content, labels :| s == Exec(Init(content), labels);
    ExecUndeleted(content, labels);
  }

  // ----- a task that has ended stays ended -----

  /** The indexing task waits for an attempt or has one that stale recovery can bring back. */
  predicate Unended(s: Sys) {
    |s.db.tasks| > 0 && (s.db.tasks[0].status == WorkPending || s.db.tasks[0].status == WorkRunning)
  }

  lemma IndexEnded(s: Sys, r: nat, out: Outcome, env: Env)
    requires r < |s.runs| && Indexing(s.runs[r].pc) && |s.db.tasks| == 1 && !Unended(s)
    ensures IndexNode(s, r, out, env).db.tasks == s.db.tasks
  {
  }

  lemma CleanupEnded(s: Sys, r: nat, out: Outcome, env: Env)
    requires r < |s.runs| && Cleaning(s.runs[r].pc) && |s.db.tasks| == 1 && !Unended(s)
    ensures CleanupNode(s, r, out, env).db.tasks == s.db.tasks
  {
  }

  /** Nothing but a deletion request touches the rows of a task that has ended. */
  lemma EndedStays(s: Sys, l: Label)
    requires Reachable(s) && !Tombstoned(s.db.doc) && !Unended(s) && !Tombstoned(Step(s, l).db.doc)
    ensures Step(s, l).db.tasks == s.db.tasks
  {
    ReachableInv(s);
    ReadyExactly(s);
    NoDeletersYet(s);
    match l {
      case Advances(r, out, env) =>
        if r < |s.runs| {
          if Indexing(s.runs[r].pc) {
            IndexEnded(s, r, out, env);
          } else if Cleaning(s.runs[r].pc) {
            CleanupEnded(s, r, out, env);
          }
        }
      case Recovers(before) => RecoverFacts(s.db, 0, before);
      case _ =>
    }
  }

  lemma {:induction false} EndedForever(s: Sys, labels: seq<Label>)
    requires Reachable(s) && !Tombstoned(s.db.doc) && !Unended(s)
    ensures Tombstoned(Exec(s, labels).db.doc) || Exec(s, labels).db.tasks == s.db.tasks
    decreases |labels|
  {
    if labels != [] {
      var before := labels[..|labels| - 1];
      EndedForever(s, before);
      ReachableExec(s, before);
      ReachableInv(Exec(s, before));
      StepInv(Exec(s, before), labels[|labels| - 1]);
      if !Tombstoned(Exec(s, labels).db.doc) {
        EndedStays(Exec(s, before), labels[|labels| - 1]);
      }
    }
  }

  // ----- an attempt that meets no trouble -----

  /** Every command succeeds and one batch stores everything. */
  function Smoothly(s: Sys, r: nat): Label {
    Advances(r, Committed, Env(true, true, true, true, s.content))
  }

  /** Some behaviour leads from `s` to `s'`. */
  ghost predicate Leads(s: Sys, s': Sys) {
    exists labels :: Exec(s, labels) == s'
  }

  lemma LeadsStep(s: Sys, l: Label, s': Sys)
    requires Leads(Step(s, l), s')
    ensures Leads(s, s')
  {
    var labels :| Exec(Step(s, l), labels) == s';
    assert [l][..0] == [];
    assert Exec(s, [l]) == Step(s, l);
    ExecSplit(s, [l], labels);
    assert Exec(s, [l] + labels) == s';
  }

  lemma LeadsNowhere(s: Sys)
    ensures Leads(s, s)
  {
    assert Exec(s, []) == s;
  }

  lemma LeadsOn(s: Sys, m: Sys, s': Sys)
    requires Leads(s, m) && Leads(m, s')
    ensures Leads(s, s')
  {
    var first :| Exec(s, first) == m;
    var rest :| Exec(m, rest) == s';
    ExecSplit(s, first, rest);
    assert Exec(s, first + rest) == s';
  }

  lemma LeadsReachable(s: Sys, s': Sys)
    requires Reachable(s) && Leads(s, s')
    ensures Reachable(s')
  {
    var labels :| Exec(s, labels) == s';
    ReachableExec(s, labels);
  }

  /** From the mark on, an attempt that meets no trouble gets to its store. */
  lemma MarkToStore(s: Sys, r: nat) returns (s': Sys)
    requires s.db.doc == DocPending && s.file && s.content != {} && r < |s.runs| && s.runs[r].pc == IxMark
    ensures Leads(s, s') && s' == s.(db := s.db.(doc := DocIndexing), runs := s.runs[r := s.runs[r].(pc := IxStore({}))])
  {
    var marked := Step(s, Smoothly(s, r));
    assert marked == s.(db := s.db.(doc := DocIndexing), runs := s.runs[r := s.runs[r].(pc := IxPrepare)]);
    s' := Step(marked, Smoothly(s, r));
    assert marked.runs[r := marked.runs[r].(pc := IxStore({}))] == s.runs[r := s.runs[r].(pc := IxStore({}))];
    LeadsNowhere(s');
    LeadsStep(marked, Smoothly(s, r), s');
    LeadsStep(s, Smoothly(s, r), s');
  }

  lemma BaseToStore(s: Sys, r: nat) returns (s': Sys)
    requires s.db.doc == DocPending && s.file && s.content != {}
    requires r < |s.runs| && (s.runs[r].pc == IxBase || s.runs[r].pc == IxDoc || s.runs[r].pc == IxMark)
    ensures Leads(s, s') && s' == s.(db := s.db.(doc := DocIndexing), runs := s.runs[r := s.runs[r].(pc := IxStore({}))])
    decreases if s.runs[r].pc == IxBase then 2 else if s.runs[r].pc == IxDoc then 1 else 0
  {
    if s.runs[r].pc == IxMark {
      s' := MarkToStore(s, r);
    } else {
      var next := Step(s, Smoothly(s, r));
      var pc := if s.runs[r].pc == IxBase then IxDoc else IxMark;
      assert next == s.(runs := s.runs[r := s.runs[r].(pc := pc)]);
      s' := BaseToStore(next, r);
      assert s.runs[r := s.runs[r].(pc := pc)][r := s.runs[r].(pc := IxStore({}))] == s.runs[r := s.runs[r].(pc := IxStore({}))];
      LeadsStep(s, Smoothly(s, r), s');
    }
  }

  // ----- from an unended task to a fresh attempt -----

  lemma RecoverOne(s: Sys)
    requires |s.db.tasks| == 1 && s.db.tasks[0].kind == IndexWork && s.db.tasks[0].status == WorkRunning
    requires s.db.tasks[0].startedAt.Some? && (s.db.doc == DocPending || s.db.doc == DocIndexing)
    ensures Step(s, Recovers(s.db.tasks[0].startedAt.value + 1))
            == s.(db := Db(DocPending, [Requeued(s.db.tasks[0])]))
  {
    var before := s.db.tasks[0].startedAt.value + 1;
    var work := s.db.tasks[0];
    assert s.db.tasks[0 := Requeued(work)] == [Requeued(work)];
    assert RecoverFrom(Db(DocPending, [Requeued(work)]), 1, before) == Db(DocPending, [Requeued(work)]);
  }

  /** A running attempt is recovered, and the document waits for the next one. */
  lemma RunningToClaimed(s: Sys) returns (s': Sys)
    requires |s.db.tasks| == 1 && s.db.tasks[0].kind == IndexWork && s.db.tasks[0].status == WorkRunning
    requires s.db.tasks[0].startedAt.Some? && (s.db.doc == DocPending || s.db.doc == DocIndexing)
    ensures Leads(s, s') && Fresh(s, s')
  {
    var work := s.db.tasks[0];
    var l := Recovers(work.startedAt.value + 1);
    RecoverOne(s);
    var waiting := Step(s, l);
    s' := Step(waiting, Claims(0, 0, true));
    LeadsNowhere(s');
    LeadsStep(waiting, Claims(0, 0, true), s');
    LeadsStep(s, l, s');
  }

  /** A new attempt has just been claimed for a waiting document, and the earlier ones are where they were. */
  ghost predicate Fresh(s: Sys, s': Sys) {
    && s'.content == s.content && s'.store == s.store && s'.file == s.file
    && s'.db.doc == DocPending && |s'.db.tasks| == 1 && |s'.runs| > |s.runs|
    && s'.runs[..|s.runs|] == s.runs
    && var run := s'.runs[|s'.runs| - 1]; run.pc == IxBase && run.task == 0 && Owns(s'.db, 0, IndexWork, run.attempt)
  }

  /** An attempt on a document still marked as being indexed goes first, so that recovery clears the mark. */
  lemma IndexingToClaimed(s: Sys) returns (s': Sys)
    requires |s.db.tasks| == 1 && s.db.tasks[0].kind == IndexWork && s.db.tasks[0].status == WorkPending
    requires s.db.doc == DocIndexing
    ensures Leads(s, s') && Fresh(s, s')
  {
    var l := Claims(0, 0, false);
    var claimed := Step(s, l);
    assert claimed.runs == s.runs + [Run(0, s.db.tasks[0].attempts + 1, Done)];
    var waiting := RunningToClaimed(claimed);
    LeadsStep(s, l, waiting);
    s' := waiting;
  }

  lemma UnendedToClaimed(s: Sys) returns (s': Sys)
    requires Reachable(s) && !Tombstoned(s.db.doc) && Unended(s)
    ensures Leads(s, s') && Fresh(s, s')
  {
    ReachableInv(s);
    ReachableUndeleted(s);
    ReadyExactly(s);
    if s.db.tasks[0].status == WorkRunning {
      s' := RunningToClaimed(s);
    } else if s.db.doc == DocPending {
      s' := Step(s, Claims(0, 0, true));
      LeadsNowhere(s');
      LeadsStep(s, Claims(0, 0, true), s');
    } else {
      s' := IndexingToClaimed(s);
    }
  }

  // ----- main result -----

  /** Some continuation makes the document searchable. */
  ghost predicate CanBecomeReady(s: Sys) {
    exists labels :: Exec(s, labels).db.doc == DocReady
  }

  lemma StoreToReady(s: Sys, r: nat)
    requires r < |s.runs| && s.runs[r].pc == IxStore({}) && s.db.doc == DocIndexing
    requires Owns(s.db, s.runs[r].task, IndexWork, s.runs[r].attempt)
    ensures CanBecomeReady(s)
  {
    var stored := Step(s, Smoothly(s, r));
    assert s.content * s.content == s.content && {} + s.content == s.content;
    assert stored.runs[r].pc == IxComplete && stored.db == s.db;
    var ready := Step(stored, Smoothly(s, r));
    assert ready.db.doc == DocReady;
    LeadsNowhere(ready);
    LeadsStep(stored, Smoothly(s, r), ready);
    LeadsStep(s, Smoothly(s, r), ready);
    var labels :| Exec(s, labels) == ready;
  }

  lemma UnendedCanBecomeReady(s: Sys)
    requires Reachable(s) && !Tombstoned(s.db.doc) && Unended(s) && s.content != {}
    ensures CanBecomeReady(s)
  {
    ReachableUndeleted(s);
    var claimed := UnendedToClaimed(s);
    var r := |claimed.runs| - 1;
    var storing := BaseToStore(claimed, r);
    StoreToReady(storing, r);
    LeadsOn(s, claimed, storing);
    var first :| Exec(s, first) == storing;
    var rest :| Exec(storing, rest).db.doc == DocReady;
    ExecSplit(s, first, rest);
    assert Exec(s, first + rest).db.doc == DocReady;
  }

  lemma EmptyNeverReady(s: Sys, l: Label)
    requires Reachable(s) && s.content == {} && s.db.doc != DocReady
    ensures Step(s, l).db.doc != DocReady
  {
    ReachableUndeleted(s);
    ReadyOnlyByLatestAttempt(s, l);
  }

  lemma {:induction false} EmptyNeverEverReady(s: Sys, labels: seq<Label>)
    requires Reachable(s) && s.content == {} && s.db.doc != DocReady
    ensures Exec(s, labels).db.doc != DocReady && Exec(s, labels).content == {}
    decreases |labels|
  {
    if labels != [] {
      var before := labels[..|labels| - 1];
      EmptyNeverEverReady(s, before);
      ReachableExec(s, before);
      EmptyNeverReady(Exec(s, before), labels[|labels| - 1]);
      StepContent(Exec(s, before), labels[|labels| - 1]);
    }
  }

  /**
   An undeleted document that is not searchable can still become so if and only if its text has chunks and its
   indexing task is pending, or running and thus recoverable.
   */
  lemma CanBecomeReadyExactly(s: Sys)
    requires Reachable(s) && !Tombstoned(s.db.doc) && s.db.doc != DocReady
    ensures CanBecomeReady(s) <==> s.content != {} && Unended(s)
  {
    if s.content != {} && Unended(s) {
      UnendedCanBecomeReady(s);
    } else if CanBecomeReady(s) {
      var labels :| Exec(s, labels).db.doc == DocReady;
      if s.content == {} {
        EmptyNeverEverReady(s, labels);
      } else {
        ReadyExactly(s);
        EndedForever(s, labels);
        ReachableExec(s, labels);
        ReadyExactly(Exec(s, labels));
      }
    }
  }
}
