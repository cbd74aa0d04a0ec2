/**
 Exactly how a searchable document can miss chunks. As long as no deletion is scheduled, only the cleanup of an
 attempt that found its knowledge base inactive removes any; these lemmas say which step does, which histories
 end with a chunk missing, and which positions of the attempts still endanger a chunk.
 */
module KbLoss {
  import opened KbRows
  import opened KbSystem
  import opened KbInvariant
  import opened KbTheorems

  // ----- which step removes a chunk -----

  /** The label lands the removal of a list that names `c`. */
  predicate Unlinks(s: Sys, l: Label, c: Chunk) {
    && l.Advances? && l.run < |s.runs| && s.runs[l.run].pc.IxUnlink? && c in s.runs[l.run].pc.keys
    && (l.env.ok || l.env.landed)
  }

  /** The label lands a batch that holds `c`. */
  predicate Stores(s: Sys, l: Label, c: Chunk) {
    && l.Advances? && l.run < |s.runs| && s.runs[l.run].pc.IxStore? && c in l.env.keys && c in s.content
    && (l.env.ok || l.env.landed)
  }

  lemma IndexStores(s: Sys, r: nat, out: Outcome, env: Env, c: Chunk)
    requires r < |s.runs| && Indexing(s.runs[r].pc)
    ensures c in IndexNode(s, r, out, env).store <==> c in s.store || Stores(s, Advances(r, out, env), c)
  {
  }

  lemma CleanupUnlinks(s: Sys, r: nat, out: Outcome, env: Env, c: Chunk)
    requires r < |s.runs| && Cleaning(s.runs[r].pc)
    ensures c in CleanupNode(s, r, out, env).store <==> c in s.store && !Unlinks(s, Advances(r, out, env), c)
  {
  }

  /** Before a deletion is scheduled the index changes by landed batches and landed removals alone. */
  lemma StepChunk(s: Sys, l: Label, c: Chunk)
    requires Inv(s) && !Tombstoned(s.db.doc)
    ensures c in Step(s, l).store <==> (c in s.store || Stores(s, l, c)) && !Unlinks(s, l, c)
  {
    NoDeletersYet(s);
    if l.Advances? && l.run < |s.runs| {
      if Indexing(s.runs[l.run].pc) {
        IndexStores(s, l.run, l.out, l.env, c);
      } else if Cleaning(s.runs[l.run].pc) {
        CleanupUnlinks(s, l.run, l.out, l.env, c);
      }
    }
  }

  /** A stored chunk leaves the index of an undeleted document exactly when a cleanup lands a removal naming it. */
  lemma ChunkLostExactly(s: Sys, l: Label, c: Chunk)
    requires Reachable(s) && !Tombstoned(s.db.doc) && c in s.store
    ensures c !in Step(s, l).store <==> Unlinks(s, l, c)
  {
    ReachableInv(s);
    StepChunk(s, l, c);
  }

  // ----- which histories end with a chunk missing -----

  /** Of all landed batches and removals that named `c`, the last was a removal. */
  predicate RemovedLast(s: Sys, labels: seq<Label>, c: Chunk)
    decreases |labels|
  {
    labels != []
    && var before := Exec(s, labels[..|labels| - 1]);
       var l := labels[|labels| - 1];
       Unlinks(before, l, c) || (!Stores(before, l, c) && RemovedLast(s, labels[..|labels| - 1], c))
  }

  /** An attempt past `pc` has had `c` written. */
  predicate Written(pc: Pc, c: Chunk) {
    (pc.IxStore? && c in pc.stored) || pc.IxComplete?
  }

  /** Whatever was written is stored or was removed since. */
  ghost predicate Booked(s: Sys, c: Chunk, removed: bool) {
    && c in s.content
    && (!Tombstoned(s.db.doc) && !removed && c !in s.store ==>
          s.db.doc != DocReady && forall r :: 0 <= r < |s.runs| ==> !Written(s.runs[r].pc, c))
    && (!Tombstoned(s.db.doc) && removed ==> c !in s.store)
  }

  lemma IndexWritten(s: Sys, r: nat, out: Outcome, env: Env, c: Chunk)
    requires r < |s.runs| && Indexing(s.runs[r].pc) && c in s.content
    requires !Written(s.runs[r].pc, c) && !Stores(s, Advances(r, out, env), c)
    ensures var s' := IndexNode(s, r, out, env);
            !Written(s'.runs[r].pc, c) && (s'.db.doc == DocReady ==> s.db.doc == DocReady)
  {
    if s.runs[r].pc.IxStore? && env.ok {
      assert c !in s.runs[r].pc.stored + env.keys * s.content;
    }
  }

  lemma StepWritten(s: Sys, l: Label, c: Chunk)
    requires Inv(s) && !Tombstoned(s.db.doc) && Booked(s, c, false) && c !in s.store && !Stores(s, l, c)
    ensures var s' := Step(s, l);
            s'.db.doc != DocReady && forall r :: 0 <= r < |s'.runs| ==> !Written(s'.runs[r].pc, c)
  {
    NoDeletersYet(s);
    match l {
      case Advances(r, out, env) =>
        if r < |s.runs| {
          assert !Written(s.runs[r].pc, c);
          AdvanceMoved(s, r, out, env);
          if Indexing(s.runs[r].pc) {
            IndexWritten(s, r, out, env, c);
          } else if Cleaning(s.runs[r].pc) {
            CleanupKeepsDoc(s, r, out, env);
          }
        }
      case Recovers(before) => RecoverFacts(s.db, 0, before);
      case _ =>
    }
  }

  lemma {:induction false} ExecBooked(content: set<Chunk>, labels: seq<Label>, c: Chunk)
    requires c in content
    ensures Booked(Exec(Init(content), labels), c, RemovedLast(Init(content), labels, c))
    decreases |labels|
  {
    if labels != [] {
      var before := labels[..|labels| - 1];
      var s := Exec(Init(content), before);
      var l := labels[|labels| - 1];
      ExecBooked(content, before, c);
      InitInv(content);
      ExecInv(Init(content), before);
      StepContent(s, l);
      StepInv(s, l);
      if !Tombstoned(Step(s, l).db.doc) {
        StepChunk(s, l, c);
        if !RemovedLast(Init(content), labels, c) && c !in Step(s, l).store {
          StepWritten(s, l, c);
        }
      }
    }
  }

  /**
   A searchable document misses a chunk of its text if and only if, of all landed batches and removals that named
   the chunk, the last was a removal by the cleanup of some attempt.
   */
  lemma ReadyMissesExactly(content: set<Chunk>, labels: seq<Label>, c: Chunk)
    requires Exec(Init(content), labels).db.doc == DocReady && c in content
    ensures c !in Exec(Init(content), labels).store <==> RemovedLast(Init(content), labels, c)
  {
    ExecBooked(content, labels, c);
  }

  // ----- which positions still endanger a chunk -----

  /** An attempt at `pc` can still remove `c` from a searchable document. */
  predicate Endangers(pc: Pc, c: Chunk) {
    pc.IxBase? || pc == IxLookup(true) || pc.IxScan? || pc.IxScanning? || (pc.IxUnlink? && c in pc.keys)
  }

  ghost predicate Endangered(s: Sys, c: Chunk) {
    exists r: nat :: r < |s.runs| && Endangers(s.runs[r].pc, c)
  }

  /** Some continuation without a deletion ends with `c` missing. */
  ghost predicate CanLose(s: Sys, c: Chunk) {
    exists labels :: LostAfter(s, labels, c)
  }

  ghost predicate LostAfter(s: Sys, labels: seq<Label>, c: Chunk) {
    !Tombstoned(Exec(s, labels).db.doc) && c !in Exec(s, labels).store
  }

  lemma LoseAfter(s: Sys, l: Label, c: Chunk)
    requires CanLose(Step(s, l), c)
    ensures CanLose(s, c)
  {
    var labels :| LostAfter(Step(s, l), labels, c);
    assert [l][..0] == [];
    assert Exec(s, [l]) == Step(s, l);
    ExecSplit(s, [l], labels);
    assert LostAfter(s, [l] + labels, c);
  }

  /** Every command succeeds, the base is inactive, and a scan also finds `c`. */
  function Inactive(r: nat, c: Chunk): Label {
    Advances(r, Committed, Env(true, true, false, true, {c}))
  }

  lemma LoseFromUnlink(s: Sys, r: nat, c: Chunk)
    requires !Tombstoned(s.db.doc) && r < |s.runs| && s.runs[r].pc.IxUnlink? && c in s.runs[r].pc.keys
    ensures CanLose(s, c)
  {
    assert LostAfter(Step(s, Inactive(r, c)), [], c);
    LoseAfter(s, Inactive(r, c), c);
  }

  lemma LoseFromScan(s: Sys, r: nat, c: Chunk)
    requires !Tombstoned(s.db.doc) && c in s.content && r < |s.runs| && (s.runs[r].pc.IxScan? || s.runs[r].pc.IxScanning?)
    ensures CanLose(s, c)
  {
    var next := Step(s, Inactive(r, c));
    if s.runs[r].pc.IxScan? {
      LoseFromScanning(next, r, c);
      LoseAfter(s, Inactive(r, c), c);
    } else {
      LoseFromScanning(s, r, c);
    }
  }

  lemma LoseFromScanning(s: Sys, r: nat, c: Chunk)
    requires !Tombstoned(s.db.doc) && c in s.content && r < |s.runs| && s.runs[r].pc.IxScanning?
    ensures CanLose(s, c)
  {
    var next := Step(s, Inactive(r, c));
    assert c in ScanKeys(s, s.runs[r].pc.seen, {c});
    LoseFromUnlink(next, r, c);
    LoseAfter(s, Inactive(r, c), c);
  }

  lemma LoseFromLookup(s: Sys, r: nat, c: Chunk)
    requires !Tombstoned(s.db.doc) && c in s.content && r < |s.runs| && s.runs[r].pc == IxLookup(true)
    ensures CanLose(s, c)
  {
    LoseFromScan(Step(s, Inactive(r, c)), r, c);
    LoseAfter(s, Inactive(r, c), c);
  }

  lemma EndangeredCanLose(s: Sys, r: nat, c: Chunk)
    requires !Tombstoned(s.db.doc) && c in s.content && r < |s.runs| && Endangers(s.runs[r].pc, c)
    ensures CanLose(s, c)
  {
    match s.runs[r].pc {
      case IxBase =>
        LoseFromLookup(Step(s, Inactive(r, c)), r, c);
        LoseAfter(s, Inactive(r, c), c);
      case IxLookup(conflict) => LoseFromLookup(s, r, c);
      case IxUnlink(keys) => LoseFromUnlink(s, r, c);
      case _ => LoseFromScan(s, r, c);
    }
  }

  /** A searchable document's rows move only by a deletion request: nothing of it can be claimed or recovered. */
  lemma ReadyRows(s: Sys, l: Label)
    requires Reachable(s) && s.db.doc == DocReady && !Tombstoned(Step(s, l).db.doc)
    ensures Step(s, l).db.doc == DocReady
    ensures |Step(s, l).runs| == |s.runs|
    ensures forall r :: 0 <= r < |s.runs| && !(l.Advances? && r == l.run) ==>
              Step(s, l).runs[r] == s.runs[r] || Step(s, l).runs[r].pc == Done
  {
    ReadyExactly(s);
    ReachableInv(s);
    SuccessKept(s, l);
    assert Exec(s, [l]) == Step(s, l);
    ReachableExec(s, [l]);
    ReadyExactly(Step(s, l));
    if l.Advances? && l.run < |s.runs| {
      AdvanceMoved(s, l.run, l.out, l.env);
    }
  }

  /** An attempt that endangers no chunk of a searchable document never will. */
  lemma IndexHarmless(s: Sys, r: nat, out: Outcome, env: Env, c: Chunk)
    requires s.db.doc == DocReady && r < |s.runs| && Indexing(s.runs[r].pc) && !Endangers(s.runs[r].pc, c)
    ensures !Endangers(IndexNode(s, r, out, env).runs[r].pc, c)
  {
  }

  lemma CleanupHarmless(s: Sys, r: nat, out: Outcome, env: Env, c: Chunk)
    requires s.db.doc == DocReady && r < |s.runs| && Cleaning(s.runs[r].pc) && !Endangers(s.runs[r].pc, c)
    ensures !Endangers(CleanupNode(s, r, out, env).runs[r].pc, c)
  {
  }

  lemma SafeStep(s: Sys, l: Label, c: Chunk)
    requires Reachable(s) && s.db.doc == DocReady && !Endangered(s, c) && c in s.store
    requires !Tombstoned(Step(s, l).db.doc)
    ensures Step(s, l).db.doc == DocReady && !Endangered(Step(s, l), c) && c in Step(s, l).store
  {
    ReadyRows(s, l);
    ChunkLostExactly(s, l, c);
    ReachableInv(s);
    NoDeletersYet(s);
    var s' := Step(s, l);
    forall r: nat | r < |s'.runs| ensures !Endangers(s'.runs[r].pc, c) {
      assert !Endangers(s.runs[r].pc, c);
      if l.Advances? && r == l.run {
        if Indexing(s.runs[r].pc) {
          IndexHarmless(s, r, l.out, l.env, c);
        } else if Cleaning(s.runs[r].pc) {
          CleanupHarmless(s, r, l.out, l.env, c);
        }
      }
    }
  }

  lemma {:induction false} SafeForever(s: Sys, labels: seq<Label>, c: Chunk)
    requires Reachable(s) && s.db.doc == DocReady && !Endangered(s, c) && c in s.store
    requires !Tombstoned(Exec(s, labels).db.doc)
    ensures Exec(s, labels).db.doc == DocReady && !Endangered(Exec(s, labels), c) && c in Exec(s, labels).store
    decreases |labels|
  {
    if labels != [] {
      var before := labels[..|labels| - 1];
      ReachableExec(s, before);
      ReachableInv(Exec(s, before));
      StepInv(Exec(s, before), labels[|labels| - 1]);
      SafeForever(s, before, c);
      SafeStep(Exec(s, before), labels[|labels| - 1], c);
    }
  }

  /** A stored chunk of a searchable document can still be lost if and only if some attempt endangers it now. */
  lemma CanLoseExactly(s: Sys, c: Chunk)
    requires Reachable(s) && s.db.doc == DocReady && c in s.content && c in s.store
    ensures CanLose(s, c) <==> Endangered(s, c)
  {
    if Endangered(s, c) {
      var r: nat :| r < |s.runs| && Endangers(s.runs[r].pc, c);
      EndangeredCanLose(s, r, c);
    } else if CanLose(s, c) {
      var labels :| LostAfter(s, labels, c);
      SafeForever(s, labels, c);
    }
  }

  /** Every continuation without a deletion keeps every chunk of the text. */
  ghost predicate StaysComplete(s: Sys) {
    forall labels :: !Tombstoned(Exec(s, labels).db.doc) ==> s.content <= Exec(s, labels).store.Keys
  }

  /** A complete searchable document stays complete, until it is deleted, if and only if no attempt endangers a chunk. */
  lemma StaysCompleteExactly(s: Sys)
    requires Reachable(s) && s.db.doc == DocReady && s.content <= s.store.Keys
    ensures StaysComplete(s) <==> forall c :: c in s.content ==> !Endangered(s, c)
  {
    forall c | c in s.content ensures CanLose(s, c) <==> Endangered(s, c) {
      CanLoseExactly(s, c);
    }
    if !StaysComplete(s) {
      var labels :| !Tombstoned(Exec(s, labels).db.doc) && !(s.content <= Exec(s, labels).store.Keys);
      var c :| c in s.content && c !in Exec(s, labels).store.Keys;
      assert LostAfter(s, labels, c);
    }
  }
}
