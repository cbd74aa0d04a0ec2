/**
 When a searchable document has all of its chunks: always, unless an attempt finds its knowledge base inactive.
 KbLoss says exactly which states can still lose a chunk.
 */
module KbCleanup {
  import opened KbRows
  import opened KbSystem
  import opened KbInvariant

  // ----- a ready document is complete -----

  /** An attempt that finds its knowledge base inactive gives up and cleans up unconditionally. */
  predicate FindsInactive(s: Sys, l: Label) {
    && l.Advances? && l.run < |s.runs| && s.runs[l.run].pc == IxBase && l.env.found && l.env.ok && !l.env.active
  }

  predicate AlwaysActive(s: Sys, labels: seq<Label>)
    decreases |labels|
  {
    labels == []
    || (AlwaysActive(s, labels[..|labels| - 1]) && !FindsInactive(Exec(s, labels[..|labels| - 1]), labels[|labels| - 1]))
  }

  /** A run about to remove chunks. */
  predicate Removing(pc: Pc) {
    pc == IxLookup(true) || pc.IxScan? || pc.IxScanning? || pc.IxUnlink? || Deleting(pc)
  }

  ghost predicate HasStored(s: Sys, pc: Pc) {
    && (pc.IxStore? ==> pc.stored <= s.store.Keys)
    && (pc.IxComplete? ==> s.content <= s.store.Keys)
  }

  /** Unless a deletion is scheduled, nothing removes chunks and every stored one is still there. */
  ghost predicate WholeInv(s: Sys) {
    !Tombstoned(s.db.doc) ==>
      && (s.db.doc == DocReady ==> s.content <= s.store.Keys)
      && forall r :: 0 <= r < |s.runs| ==> HasStored(s, s.runs[r].pc) && !Removing(s.runs[r].pc)
  }

  lemma StoreWhole(s: Sys, r: nat, out: Outcome, env: Env)
    requires r < |s.runs| && s.runs[r].pc.IxStore? && s.runs[r].pc.stored <= s.store.Keys
    ensures var s' := IndexNode(s, r, out, env); s.store.Keys <= s'.store.Keys && HasStored(s', s'.runs[r].pc)
  {
    var batch := env.keys * s.content;
    assert Stored(s, r, batch).store.Keys == s.store.Keys + batch;
  }

  /** What a working attempt's own move does to the store, the document and its position. */
  lemma IndexOwn(s: Sys, r: nat, out: Outcome, env: Env)
    requires r < |s.runs| && Indexing(s.runs[r].pc) && !FindsInactive(s, Advances(r, out, env))
    requires !Tombstoned(s.db.doc) && HasStored(s, s.runs[r].pc)
    ensures var s' := IndexNode(s, r, out, env);
            && s.store.Keys <= s'.store.Keys
            && HasStored(s', s'.runs[r].pc) && !Removing(s'.runs[r].pc)
            && (s'.db.doc == DocReady ==> s.db.doc == DocReady || s.runs[r].pc.IxComplete?)
  {
    var pc := s.runs[r].pc;
    if pc.IxStore? {
      StoreWhole(s, r, out, env);
    } else if pc.IxMark? || pc.IxComplete? || pc.IxFail? {
      WriteOwn(s, r, out, env);
    } else {
      ReadOwn(s, r, out, env);
    }
  }

  lemma WriteOwn(s: Sys, r: nat, out: Outcome, env: Env)
    requires r < |s.runs| && (s.runs[r].pc.IxMark? || s.runs[r].pc.IxComplete? || s.runs[r].pc.IxFail?)
    ensures var s' := IndexNode(s, r, out, env);
            && s'.store == s.store && HasStored(s', s'.runs[r].pc) && !Removing(s'.runs[r].pc)
            && (s'.db.doc == DocReady ==> s.db.doc == DocReady || s.runs[r].pc.IxComplete?)
  {
  }

  lemma ReadOwn(s: Sys, r: nat, out: Outcome, env: Env)
    requires r < |s.runs| && (s.runs[r].pc.IxBase? || s.runs[r].pc.IxDoc? || s.runs[r].pc.IxPrepare?)
    requires !FindsInactive(s, Advances(r, out, env)) && !Tombstoned(s.db.doc)
    ensures var s' := IndexNode(s, r, out, env);
            && s'.store == s.store && s'.db == s.db && HasStored(s', s'.runs[r].pc) && !Removing(s'.runs[r].pc)
  {
  }

  lemma IndexWhole(s: Sys, r: nat, out: Outcome, env: Env)
    requires WholeInv(s) && r < |s.runs| && Indexing(s.runs[r].pc) && !FindsInactive(s, Advances(r, out, env))
    requires !Tombstoned(s.db.doc)
    ensures WholeInv(IndexNode(s, r, out, env))
  {
    var s' := IndexNode(s, r, out, env);
    assert HasStored(s, s.runs[r].pc) && !Removing(s.runs[r].pc);
    IndexOwn(s, r, out, env);
    IndexMoved(s, r, out, env);
    forall q | 0 <= q < |s'.runs| ensures HasStored(s', s'.runs[q].pc) && !Removing(s'.runs[q].pc) {
      if q != r {
        assert HasStored(s, s.runs[q].pc) && !Removing(s.runs[q].pc);
      }
    }
  }

  lemma CleanupWhole(s: Sys, r: nat, out: Outcome, env: Env)
    requires WholeInv(s) && r < |s.runs| && Cleaning(s.runs[r].pc) && !Tombstoned(s.db.doc)
    ensures WholeInv(CleanupNode(s, r, out, env))
  {
    assert !Removing(s.runs[r].pc);
    assert s.runs[r].pc == IxLookup(false) || s.runs[r].pc == IxCancel;
  }

  lemma StepWhole(s: Sys, l: Label)
    requires Inv(s) && WholeInv(s) && !FindsInactive(s, l)
    ensures WholeInv(Step(s, l))
  {
    StepInv(s, l);
    if !Tombstoned(s.db.doc) {
      match l {
        case Claims(t, now, started) => ClaimWhole(s, t, now, started);
        case Advances(r, out, env) =>
          if r < |s.runs| {
            assert !Removing(s.runs[r].pc);
            if Indexing(s.runs[r].pc) {
              IndexWhole(s, r, out, env);
            } else if Cleaning(s.runs[r].pc) {
              CleanupWhole(s, r, out, env);
            }
          }
        case Stops(r) =>
        case Recovers(before) => RecoverFacts(s.db, 0, before);
        case Deletes =>
        case RetriesDelete(t) =>
      }
    }
  }

  lemma ClaimWhole(s: Sys, t: nat, now: Time, started: bool)
    requires Inv(s) && WholeInv(s) && !Tombstoned(s.db.doc)
    ensures WholeInv(Step(s, Claims(t, now, started)))
  {
    if t < |s.db.tasks| {
      assert s.db.tasks[t].kind == IndexWork;
    }
  }

  lemma {:induction false} ExecWhole(s: Sys, labels: seq<Label>)
    requires Inv(s) && WholeInv(s) && AlwaysActive(s, labels)
    ensures WholeInv(Exec(s, labels)) && Exec(s, labels).content == s.content
    decreases |labels|
  {
    if labels != [] {
      var before := labels[..|labels| - 1];
      ExecWhole(s, before);
      ExecInv(s, before);
      StepWhole(Exec(s, before), labels[|labels| - 1]);
      StepContent(Exec(s, before), labels[|labels| - 1]);
    }
  }

  /** A searchable document has every chunk of its text in the index, if no attempt found its base inactive. */
  lemma ReadyIsComplete(content: set<Chunk>, labels: seq<Label>)
    requires AlwaysActive(Init(content), labels) && Exec(Init(content), labels).db.doc == DocReady
    ensures content <= Exec(Init(content), labels).store.Keys
  {
    InitInv(content);
    ExecWhole(Init(content), labels);
  }
}
