/**
 Which chunks can outlive their document. From every reachable state, whatever has happened before, these lemmas say
 exactly whether some continuation deletes the document, ends all attempts and leaves the chunk in the index.
 */
module KbOutlive {
  import opened KbRows
  import opened KbSystem
  import opened KbInvariant
  import opened KbTheorems
  import opened KbProgress
  import opened KbLeftover

  // ----- the condition -----

  /** An attempt that can get to its store from `pc` when the document still waits for one. */
  predicate Approaching(pc: Pc) {
    pc.IxBase? || pc.IxDoc? || pc.IxMark?
  }

  /** The attempt in run `r` stands at its store, or one read before it with the source file still there. */
  predicate AtStore(s: Sys, r: nat) {
    r < |s.runs| && (s.runs[r].pc.IxStore? || (s.runs[r].pc.IxPrepare? && s.file))
  }

  /** Before a deletion: an attempt is on its way, or the indexing task will be given another one. */
  ghost predicate WillStore(s: Sys) {
    && !Tombstoned(s.db.doc)
    && ((s.db.doc == DocPending && exists r: nat :: r < |s.runs| && Approaching(s.runs[r].pc)) || Unended(s))
  }

  /** Some attempt can still put chunks into the index. */
  ghost predicate CanStore(s: Sys) {
    (exists r: nat :: AtStore(s, r)) || WillStore(s)
  }

  /** A deletion attempt that can still complete has passed its scan without listing the stored chunk `c`. */
  predicate PassedOver(s: Sys, r: nat, c: Chunk) {
    && r < |s.runs| && c in s.store && Owns(s.db, s.runs[r].task, DeleteWork, s.runs[r].attempt)
    && var pc := s.runs[r].pc;
       || pc.DlFile? || pc.DlComplete?
       || (pc.DlUnlink? && c !in pc.keys)
       || (pc.DlScanning? && !Stable(pc.seen, s.store, c))
  }

  ghost predicate Escapes(s: Sys, c: Chunk) {
    || CanStore(s)
    || (c in s.store && s.db.doc == DocGone)
    || exists r: nat :: PassedOver(s, r, c)
  }

  /** Some continuation deletes the document, ends all attempts, and leaves `c`. */
  ghost predicate CanOutlive(s: Sys, c: Chunk) {
    exists labels :: Outlives(Exec(s, labels), c)
  }

  ghost predicate Outlives(s: Sys, c: Chunk) {
    Settled(s) && c in s.store
  }

  lemma OutlivesAfter(s: Sys, s': Sys, c: Chunk)
    requires Leads(s, s') && CanOutlive(s', c)
    ensures CanOutlive(s, c)
  {
    var first :| Exec(s, first) == s';
    var rest :| Outlives(Exec(s', rest), c);
    ExecSplit(s, first, rest);
    assert Outlives(Exec(s, first + rest), c);
  }

  lemma OneStep(s: Sys, l: Label)
    ensures Leads(s, Step(s, l))
  {
    LeadsNowhere(Step(s, l));
    LeadsStep(s, l, Step(s, l));
  }

  // ----- the condition suffices -----

  /** All runs from `n` on crash. */
  lemma {:induction false} AllStop(s: Sys, n: nat, c: Chunk)
    requires s.db.doc == DocGone && c in s.store && n <= |s.runs|
    requires forall r :: 0 <= r < n ==> s.runs[r].pc == Done
    ensures CanOutlive(s, c)
    decreases |s.runs| - n
  {
    if n == |s.runs| {
      assert Outlives(Exec(s, []), c);
    } else {
      OneStep(s, Stops(n));
      AllStop(Step(s, Stops(n)), n + 1, c);
      OutlivesAfter(s, Step(s, Stops(n)), c);
    }
  }

  /** A last batch lands but reports an error, and the attempt takes the path without cleanup. */
  lemma LateBatch(s: Sys, r: nat, c: Chunk)
    requires s.db.doc == DocGone && c in s.content && r < |s.runs| && s.runs[r].pc.IxStore?
    ensures CanOutlive(s, c)
  {
    var l := Advances(r, Refused, Env(false, true, true, true, {c}));
    var s' := Step(s, l);
    assert c in {c} * s.content && c in s'.store && s'.db == s.db;
    AllStop(s', 0, c);
    OneStep(s, l);
    OutlivesAfter(s, s', c);
  }

  lemma StoringOutlives(s: Sys, r: nat, c: Chunk)
    requires Reachable(s) && Tombstoned(s.db.doc) && c in s.content && r < |s.runs| && s.runs[r].pc.IxStore?
    ensures CanOutlive(s, c)
  {
    if s.db.doc == DocGone {
      LateBatch(s, r, c);
    } else {
      DeletionCanFinish(s);
      var labels :| Finishes(s, labels);
      var gone := Exec(s, labels);
      assert gone.runs[r] == s.runs[r];
      LateBatch(gone, r, c);
      assert Leads(s, gone);
      OutlivesAfter(s, gone, c);
    }
  }

  lemma AtStoreOutlives(s: Sys, r: nat, c: Chunk)
    requires Reachable(s) && Tombstoned(s.db.doc) && c in s.content && AtStore(s, r)
    ensures CanOutlive(s, c)
  {
    if s.runs[r].pc.IxStore? {
      StoringOutlives(s, r, c);
    } else {
      var next := Step(s, Smoothly(s, r));
      OneStep(s, Smoothly(s, r));
      LeadsReachable(s, next);
      StoringOutlives(next, r, c);
      OutlivesAfter(s, next, c);
    }
  }

  /** A deletion request may come at any time. */
  lemma DeleteNow(s: Sys)
    requires Reachable(s) && !Tombstoned(s.db.doc)
    ensures var s' := Step(s, Deletes);
            Reachable(s') && s'.db.doc == DocDeleting && s'.runs == s.runs && s'.content == s.content && s'.file == s.file
  {
    ReachableInv(s);
    OneStep(s, Deletes);
    LeadsReachable(s, Step(s, Deletes));
    assert forall i :: 0 <= i < |s.db.tasks| ==> !ActiveDelete(s.db.tasks[i]);
  }

  lemma AnyAtStoreOutlives(s: Sys, r: nat, c: Chunk)
    requires Reachable(s) && c in s.content && AtStore(s, r)
    ensures CanOutlive(s, c)
  {
    if Tombstoned(s.db.doc) {
      AtStoreOutlives(s, r, c);
    } else {
      DeleteNow(s);
      AtStoreOutlives(Step(s, Deletes), r, c);
      OneStep(s, Deletes);
      OutlivesAfter(s, Step(s, Deletes), c);
    }
  }

  lemma ApproachingOutlives(s: Sys, r: nat, c: Chunk)
    requires Reachable(s) && c in s.content && s.db.doc == DocPending && r < |s.runs| && Approaching(s.runs[r].pc)
    ensures CanOutlive(s, c)
  {
    ReachableUndeleted(s);
    var storing := BaseToStore(s, r);
    LeadsReachable(s, storing);
    AnyAtStoreOutlives(storing, r, c);
    OutlivesAfter(s, storing, c);
  }

  lemma WillStoreOutlives(s: Sys, c: Chunk)
    requires Reachable(s) && c in s.content && WillStore(s)
    ensures CanOutlive(s, c)
  {
    if s.db.doc == DocPending && exists r: nat :: r < |s.runs| && Approaching(s.runs[r].pc) {
      var r: nat :| r < |s.runs| && Approaching(s.runs[r].pc);
      ApproachingOutlives(s, r, c);
    } else {
      var claimed := UnendedToClaimed(s);
      LeadsReachable(s, claimed);
      ApproachingOutlives(claimed, |claimed.runs| - 1, c);
      OutlivesAfter(s, claimed, c);
    }
  }

  /** The deletion attempt completes without ever removing the chunk it did not list. */
  lemma PassedOverOutlives(s: Sys, r: nat, c: Chunk)
    requires Reachable(s) && PassedOver(s, r, c)
    ensures CanOutlive(s, c)
    decreases var pc := s.runs[r].pc; if pc.DlScanning? then 3 else if pc.DlUnlink? then 2 else if pc.DlFile? then 1 else 0
  {
    var l := Advances(r, Committed, Fine);
    var next := Step(s, l);
    OneStep(s, l);
    LeadsReachable(s, next);
    ReachableInv(s);
    assert Tombstoned(s.db.doc);
    if s.db.doc == DocGone {
      AllStop(s, 0, c);
    } else if s.runs[r].pc.DlComplete? {
      AllStop(next, 0, c);
      OutlivesAfter(s, next, c);
    } else {
      PassedOverNext(s, r, c);
      PassedOverOutlives(next, r, c);
      OutlivesAfter(s, next, c);
    }
  }

  lemma PassedOverNext(s: Sys, r: nat, c: Chunk)
    requires PassedOver(s, r, c) && !s.runs[r].pc.DlComplete?
    ensures var next := Step(s, Advances(r, Committed, Fine));
            && PassedOver(next, r, c)
            && (s.runs[r].pc.DlScanning? ==> next.runs[r].pc.DlUnlink? || next.runs[r].pc.DlFile?)
            && (s.runs[r].pc.DlUnlink? ==> next.runs[r].pc.DlFile?) && (s.runs[r].pc.DlFile? ==> next.runs[r].pc.DlComplete?)
  {
  }

  lemma EscapesOutlives(s: Sys, c: Chunk)
    requires Reachable(s) && c in s.content && Escapes(s, c)
    ensures CanOutlive(s, c)
  {
    if exists r: nat :: AtStore(s, r) {
      var r: nat :| AtStore(s, r);
      AnyAtStoreOutlives(s, r, c);
    } else if WillStore(s) {
      WillStoreOutlives(s, c);
    } else if c in s.store && s.db.doc == DocGone {
      AllStop(s, 0, c);
    } else {
      var r: nat :| PassedOver(s, r, c);
      PassedOverOutlives(s, r, c);
    }
  }

  // ----- the condition is needed: it never comes about anew -----

  lemma IndexStoreBack(s: Sys, r: nat, out: Outcome, env: Env)
    requires r < |s.runs| && Indexing(s.runs[r].pc)
    requires var s' := IndexNode(s, r, out, env); s'.runs[r].pc.IxStore? || s'.runs[r].pc.IxPrepare?
    ensures AtStore(s, r) || (s.db.doc == DocPending && s.runs[r].pc.IxMark?)
  {
  }

  /** An attempt at its store was there before, or was on its way in a waiting document. */
  lemma AtStoreBack(s: Sys, l: Label, r: nat)
    requires Inv(s) && AtStore(Step(s, l), r)
    ensures CanStore(s)
  {
    match l {
      case Advances(q, out, env) =>
        if q < |s.runs| {
          AdvanceMoved(s, q, out, env);
          FileOnlyGoes(s, q, out, env);
          if q == r {
            if Indexing(s.runs[q].pc) {
              IndexStoreBack(s, q, out, env);
              assert AtStore(s, q) || Approaching(s.runs[q].pc);
            } else if Cleaning(s.runs[q].pc) {
              CleanupNoStore(s, q, out, env);
            }
          } else {
            assert AtStore(s, r);
          }
        } else {
          assert AtStore(s, r);
        }
      case Claims(t, now, started) => assert AtStore(s, r);
      case _ => assert AtStore(s, r);
    }
  }

  lemma CleanupNoStore(s: Sys, r: nat, out: Outcome, env: Env)
    requires r < |s.runs| && Cleaning(s.runs[r].pc)
    ensures !Indexing(CleanupNode(s, r, out, env).runs[r].pc)
  {
  }

  lemma FileOnlyGoes(s: Sys, r: nat, out: Outcome, env: Env)
    requires r < |s.runs|
    ensures Advance(s, r, out, env).file ==> s.file
  {
  }

  lemma IndexWaitsBack(s: Sys, r: nat, out: Outcome, env: Env)
    requires Inv(s) && r < |s.runs| && Indexing(s.runs[r].pc) && |s.db.tasks| == 1 && !Tombstoned(s.db.doc)
    requires IndexNode(s, r, out, env).db.doc == DocPending
    ensures s.db.doc == DocPending || Unended(s)
    ensures Approaching(IndexNode(s, r, out, env).runs[r].pc) ==> Approaching(s.runs[r].pc)
  {
  }

  /** A document that waits did so before, or its task was running. */
  lemma WaitsBack(s: Sys, l: Label)
    requires Reachable(s) && !Tombstoned(s.db.doc) && Step(s, l).db.doc == DocPending
    ensures s.db.doc == DocPending || Unended(s)
  {
    ReachableInv(s);
    ReadyExactly(s);
    NoDeletersYet(s);
    match l {
      case Advances(r, out, env) =>
        if r < |s.runs| {
          if Indexing(s.runs[r].pc) {
            IndexWaitsBack(s, r, out, env);
          } else if Cleaning(s.runs[r].pc) {
            CleanupKeepsDoc(s, r, out, env);
          }
        }
      case Recovers(before) => RecoveredOne(s.db, before);
      case _ =>
    }
  }

  lemma RecoveredOne(db: Db, before: Time)
    requires |db.tasks| == 1 && db.tasks[0].kind == IndexWork
    ensures Recover(db, before).doc != db.doc ==> db.tasks[0].status == WorkRunning
  {
    var work := db.tasks[0];
    var next := Db(RecoveredDoc(work, db.doc, before), db.tasks[0 := RecoveredWork(work, db.doc, before)]);
    assert RecoverFrom(next, 1, before) == next;
  }

  /** An attempt on its way was on its way before, or has just been claimed. */
  lemma ApproachedBefore(s: Sys, l: Label, r: nat)
    requires Inv(s) && |s.db.tasks| == 1 && !Tombstoned(s.db.doc) && !Unended(s) && Step(s, l).db.doc == DocPending
    requires r < |Step(s, l).runs| && Approaching(Step(s, l).runs[r].pc)
    ensures r < |s.runs| && Approaching(s.runs[r].pc)
  {
    match l {
      case Advances(q, out, env) =>
        if q < |s.runs| {
          AdvanceMoved(s, q, out, env);
          if q == r {
            if Indexing(s.runs[q].pc) {
              IndexWaitsBack(s, q, out, env);
            } else if Cleaning(s.runs[q].pc) {
              CleanupNoStore(s, q, out, env);
            }
          }
        }
      case _ =>
    }
  }

  lemma ApproachBack(s: Sys, l: Label, r: nat)
    requires Reachable(s) && !Tombstoned(s.db.doc) && Step(s, l).db.doc == DocPending
    requires r < |Step(s, l).runs| && Approaching(Step(s, l).runs[r].pc)
    ensures WillStore(s)
  {
    ReachableInv(s);
    ReadyExactly(s);
    WaitsBack(s, l);
    if !Unended(s) {
      ApproachedBefore(s, l, r);
    }
  }

  lemma WillStoreBack(s: Sys, l: Label)
    requires Reachable(s) && WillStore(Step(s, l))
    ensures WillStore(s)
  {
    ReachableInv(s);
    StepInv(s, l);
    var s' := Step(s, l);
    if Unended(s') {
      if !Unended(s) {
        EndedStays(s, l);
      }
    } else {
      var r: nat :| r < |s'.runs| && Approaching(s'.runs[r].pc);
      ApproachBack(s, l, r);
    }
  }

  lemma CanStoreBack(s: Sys, l: Label)
    requires Reachable(s) && CanStore(Step(s, l))
    ensures CanStore(s)
  {
    ReachableInv(s);
    if exists r: nat :: AtStore(Step(s, l), r) {
      var r: nat :| AtStore(Step(s, l), r);
      AtStoreBack(s, l, r);
    } else {
      WillStoreBack(s, l);
    }
  }

  /** Without an attempt at its store the index only shrinks. */
  lemma OnlyShrinks(s: Sys, l: Label, c: Chunk)
    requires !CanStore(s) && c in Step(s, l).store
    ensures c in s.store && s.store[c] == Step(s, l).store[c]
  {
    if l.Advances? && l.run < |s.runs| {
      if Indexing(s.runs[l.run].pc) {
        assert !AtStore(s, l.run);
        NoBatch(s, l.run, l.out, l.env);
      } else if Cleaning(s.runs[l.run].pc) {
        CleanupShrinks(s, l.run, l.out, l.env, c);
      } else if !s.runs[l.run].pc.Done? {
        DeleteOnlyRemoves(s, l.run, l.out, l.env);
      }
    }
  }

  lemma NoBatch(s: Sys, r: nat, out: Outcome, env: Env)
    requires r < |s.runs| && Indexing(s.runs[r].pc) && !s.runs[r].pc.IxStore?
    ensures IndexNode(s, r, out, env).store == s.store
  {
  }

  lemma CleanupShrinks(s: Sys, r: nat, out: Outcome, env: Env, c: Chunk)
    requires r < |s.runs| && Cleaning(s.runs[r].pc) && c in CleanupNode(s, r, out, env).store
    ensures c in s.store && s.store[c] == CleanupNode(s, r, out, env).store[c]
  {
  }

  /** Only a deletion attempt that passed the chunk over completes with the chunk still there. */
  lemma GoneBack(s: Sys, l: Label, c: Chunk)
    requires Inv(s) && !CanStore(s) && s.db.doc != DocGone && Step(s, l).db.doc == DocGone && c in Step(s, l).store
    ensures exists r: nat :: PassedOver(s, r, c)
  {
    OnlyShrinks(s, l, c);
    match l {
      case Advances(r, out, env) =>
        if Indexing(s.runs[r].pc) {
          NoGone(s, r, out, env);
        } else if Cleaning(s.runs[r].pc) {
          CleanupKeepsDoc(s, r, out, env);
        } else {
          OnlyCompletion(s, r, out, env);
          assert PassedOver(s, r, c);
        }
      case Recovers(before) => RecoverFacts(s.db, 0, before);
      case _ =>
    }
  }

  lemma NoGone(s: Sys, r: nat, out: Outcome, env: Env)
    requires r < |s.runs| && Indexing(s.runs[r].pc) && s.db.doc != DocGone
    ensures IndexNode(s, r, out, env).db.doc != DocGone
  {
  }

  lemma OnlyCompletion(s: Sys, r: nat, out: Outcome, env: Env)
    requires r < |s.runs| && Deleting(s.runs[r].pc) && s.db.doc != DocGone && DeleteNode(s, r, out, env).db.doc == DocGone
    ensures s.runs[r].pc.DlComplete? && Owns(s.db, s.runs[r].task, DeleteWork, s.runs[r].attempt)
  {
  }

  /** An attempt that owns its task owned it before. */
  lemma OwnsBack(s: Sys, l: Label, r: nat)
    requires Inv(s) && r < |s.runs| && Owns(Step(s, l).db, s.runs[r].task, DeleteWork, s.runs[r].attempt)
    ensures Owns(s.db, s.runs[r].task, DeleteWork, s.runs[r].attempt)
  {
    assert RunOk(s, s.runs[r]);
    match l {
      case Advances(q, out, env) =>
        if q < |s.runs| {
          AdvanceMoved(s, q, out, env);
          OwnWriteOwns(s, Advance(s, q, out, env), q, s.runs[r].task, s.runs[r].attempt);
        }
      case Recovers(before) => RecoverFacts(s.db, 0, before);
      case _ =>
    }
  }

  lemma OwnWriteOwns(s: Sys, s': Sys, q: nat, t: nat, attempt: nat)
    requires q < |s.runs| && OwnWrite(s, s', q) && Owns(s'.db, t, DeleteWork, attempt)
    ensures Owns(s.db, t, DeleteWork, attempt)
  {
  }

  /** A deletion attempt passes a stored chunk over in its scan, or did so before. */
  lemma MoverPassedBack(s: Sys, r: nat, out: Outcome, env: Env, c: Chunk)
    requires r < |s.runs| && Deleting(s.runs[r].pc) && PassedOver(DeleteNode(s, r, out, env), r, c)
    requires Owns(s.db, s.runs[r].task, DeleteWork, s.runs[r].attempt) && c in s.store
    requires s.store[c] == DeleteNode(s, r, out, env).store[c]
    ensures PassedOver(s, r, c)
  {
    if s.runs[r].pc.DlScanning? {
      assert Stable(s.runs[r].pc.seen, s.store, c) ==> c in ScanKeys(s, s.runs[r].pc.seen, env.keys);
    }
  }

  /** A step of someone else leaves a run where it is, or ends it. */
  lemma OthersStand(s: Sys, l: Label, r: nat)
    requires r < |s.runs| && !(l.Advances? && l.run == r)
    ensures r < |Step(s, l).runs|
    ensures Step(s, l).runs[r] == s.runs[r] || Step(s, l).runs[r].pc == Done
  {
    if l.Advances? && l.run < |s.runs| {
      AdvanceMoved(s, l.run, l.out, l.env);
    }
  }

  lemma NewcomerHasNotPassed(s: Sys, l: Label, r: nat, c: Chunk)
    requires r >= |s.runs|
    ensures !PassedOver(Step(s, l), r, c)
  {
    if l.Advances? && l.run < |s.runs| {
      AdvanceMoved(s, l.run, l.out, l.env);
    }
  }

  lemma PassedBack(s: Sys, l: Label, r: nat, c: Chunk)
    requires Inv(s) && !CanStore(s) && PassedOver(Step(s, l), r, c)
    ensures PassedOver(s, r, c)
  {
    OnlyShrinks(s, l, c);
    if r >= |s.runs| {
      NewcomerHasNotPassed(s, l, r, c);
    } else if l.Advances? && l.run == r {
      AdvanceMoved(s, r, l.out, l.env);
      OwnsBack(s, l, r);
      MoverPassedBack(s, r, l.out, l.env, c);
    } else {
      OthersStand(s, l, r);
      OwnsBack(s, l, r);
    }
  }

  /** What is true of every reachable state: a chunk that escapes after a step could escape before it. */
  lemma EscapesBack(s: Sys, l: Label, c: Chunk)
    requires Reachable(s) && Escapes(Step(s, l), c)
    ensures Escapes(s, c)
  {
    ReachableInv(s);
    var s' := Step(s, l);
    if CanStore(s') {
      CanStoreBack(s, l);
    } else if !CanStore(s) {
      if exists r: nat :: PassedOver(s', r, c) {
        var r: nat :| PassedOver(s', r, c);
        PassedBack(s, l, r, c);
      } else if s.db.doc != DocGone {
        GoneBack(s, l, c);
      } else {
        OnlyShrinks(s, l, c);
      }
    }
  }

  lemma {:induction false} EscapesAllBack(s: Sys, labels: seq<Label>, c: Chunk)
    requires Reachable(s) && Escapes(Exec(s, labels), c)
    ensures Escapes(s, c)
    decreases |labels|
  {
    if labels != [] {
      var before := labels[..|labels| - 1];
      ReachableExec(s, before);
      EscapesBack(Exec(s, before), labels[|labels| - 1], c);
      EscapesAllBack(s, before, c);
    }
  }

  // ----- main results -----

  /**
   A chunk of the text can outlive its document if and only if some attempt can still store, or the document is gone
   and the chunk is still there, or a live deletion attempt has passed the chunk over.
   */
  lemma CanOutliveExactly(s: Sys, c: Chunk)
    requires Reachable(s) && c in s.content
    ensures CanOutlive(s, c) <==> Escapes(s, c)
  {
    if Escapes(s, c) {
      EscapesOutlives(s, c);
    } else if CanOutlive(s, c) {
      var labels :| Outlives(Exec(s, labels), c);
      EscapesAllBack(s, labels, c);
    }
  }

  /** Once the document is gone: if and only if the chunk is still there or an attempt stands at its store. */
  lemma GoneOutliveExactly(s: Sys, c: Chunk)
    requires Reachable(s) && s.db.doc == DocGone && c in s.content
    ensures CanOutlive(s, c) <==> c in s.store || exists r: nat :: r < |s.runs| && s.runs[r].pc.IxStore?
  {
    CanOutliveExactly(s, c);
    GoneMeansFileRemoved(s);
    if exists r: nat :: r < |s.runs| && s.runs[r].pc.IxStore? {
      var r: nat :| r < |s.runs| && s.runs[r].pc.IxStore?;
      assert AtStore(s, r);
    }
  }

  /** Every continuation that deletes the document and ends its attempts leaves nothing. */
  ghost predicate DeletesCleanly(s: Sys) {
    forall labels :: Settled(Exec(s, labels)) ==> Exec(s, labels).store == map[]
  }

  /** A deletion is sure to leave nothing if and only if no chunk of the text can escape it. */
  lemma DeletesCleanlyExactly(s: Sys)
    requires Reachable(s)
    ensures DeletesCleanly(s) <==> forall c :: c in s.content ==> !Escapes(s, c)
  {
    forall c | c in s.content ensures CanOutlive(s, c) <==> Escapes(s, c) {
      CanOutliveExactly(s, c);
    }
    if !DeletesCleanly(s) {
      var labels :| Settled(Exec(s, labels)) && Exec(s, labels).store != map[];
      var s' := Exec(s, labels);
      assert s'.store.Keys != {};
      var c :| c in s'.store.Keys;
      ReachableExec(s, labels);
      StoredIsContent(s', c);
      ExecContent(s, labels);
      assert Outlives(s', c);
    }
  }

  lemma {:induction false} ExecContent(s: Sys, labels: seq<Label>)
    ensures Exec(s, labels).content == s.content
    decreases |labels|
  {
    if labels != [] {
      ExecContent(s, labels[..|labels| - 1]);
      StepContent(Exec(s, labels[..|labels| - 1]), labels[|labels| - 1]);
    }
  }

  lemma StepStored(s: Sys, l: Label)
    requires s.store.Keys <= s.content
    ensures Step(s, l).store.Keys <= Step(s, l).content
  {
    StepContent(s, l);
    if l.Advances? && l.run < |s.runs| {
      forall c | c in Step(s, l).store ensures c in s.content {
        if Indexing(s.runs[l.run].pc) {
          IndexStored(s, l.run, l.out, l.env, c);
        } else if Cleaning(s.runs[l.run].pc) {
          CleanupShrinks(s, l.run, l.out, l.env, c);
        } else if !s.runs[l.run].pc.Done? {
          DeleteOnlyRemoves(s, l.run, l.out, l.env);
        }
      }
    }
  }

  lemma IndexStored(s: Sys, r: nat, out: Outcome, env: Env, c: Chunk)
    requires r < |s.runs| && Indexing(s.runs[r].pc) && c in IndexNode(s, r, out, env).store
    ensures c in s.store || c in s.content
  {
  }

  lemma {:induction false} ExecStored(content: set<Chunk>, labels: seq<Label>)
    ensures Exec(Init(content), labels).store.Keys <= Exec(Init(content), labels).content
    decreases |labels|
  {
    if labels != [] {
      ExecStored(content, labels[..|labels| - 1]);
      StepStored(Exec(Init(content), labels[..|labels| - 1]), labels[|labels| - 1]);
    }
  }

  lemma StoredIsContent(s: Sys, c: Chunk)
    requires Reachable(s) && c in s.store
    ensures c in s.content
  {
    var content, labels :| s == Exec(Init(content), labels);
    ExecStored(content, labels);
  }
}
