/**
 Which attempts leave chunks behind: those that abandon the chunks they wrote last after the deletion was scheduled.
 Each chunk in the index has one indexing attempt that wrote it last; until that attempt has looked for its chunks and
 removed them it is accountable for them, unless a deletion attempt has them on its list. KbOutlive says exactly in
 which states a chunk can still be left behind.
 */
module KbLeftover {
  import opened KbRows
  import opened KbSystem
  import opened KbInvariant

  /** An indexing attempt that may have chunks in the index and has not yet removed them. */
  predicate Owing(pc: Pc) {
    pc.IxStore? || pc.IxComplete? || pc.IxLookup? || pc.IxScan? || pc.IxScanning? || pc.IxUnlink?
  }

  /** The operation the attempt is at fails: the completing transaction, or a read or command. */
  predicate FailsAt(pc: Pc, out: Outcome, env: Env) {
    if pc.IxComplete? then !out.Committed? else !env.ok
  }

  /** After the deletion was scheduled, an attempt that owes a cleanup crashes or its operation fails. */
  predicate Abandons(s: Sys, l: Label) {
    && Tombstoned(s.db.doc) && (l.Stops? || l.Advances?)
    && l.run < |s.runs| && Owing(s.runs[l.run].pc)
    && (l.Stops? || FailsAt(s.runs[l.run].pc, l.out, l.env))
  }

  /** The runs that abandoned their chunks at some point of a behaviour. */
  function Abandoners(s: Sys, labels: seq<Label>): set<nat>
    decreases |labels|
  {
    if labels == [] then {}
    else
      var mid := Exec(s, labels[..|labels| - 1]);
      var l := labels[|labels| - 1];
      Abandoners(s, labels[..|labels| - 1]) + if Abandons(mid, l) then {l.run} else {}
  }

  /** The indexing attempt that wrote chunk `c` last will still see and remove it. */
  ghost predicate Accountable(s: Sys, c: Chunk)
    requires c in s.store
  {
    s.store[c].run < |s.runs| && AnswersFor(s.runs[s.store[c].run].pc, s.store[c], c)
  }

  predicate AnswersFor(pc: Pc, stamp: Stamp, c: Chunk) {
    || pc.IxStore? || pc.IxComplete? || pc.IxLookup? || pc.IxScan?
    || (pc.IxScanning? && c in pc.seen && pc.seen[c] == stamp)
    || (pc.IxUnlink? && c in pc.keys)
  }

  // ----- one step -----

  /** Storing moves a chunk's stamp only to the storing run. */
  lemma IndexAnswers(s: Sys, r: nat, out: Outcome, env: Env, c: Chunk)
    requires r < |s.runs| && Indexing(s.runs[r].pc) && Tombstoned(s.db.doc)
    requires c in s.store && c in IndexNode(s, r, out, env).store && Accountable(s, c)
    ensures !Accountable(IndexNode(s, r, out, env), c)
            <==> Abandons(s, Advances(r, out, env)) && IndexNode(s, r, out, env).store[c].run == r
  {
  }

  lemma CleanupAnswers(s: Sys, r: nat, out: Outcome, env: Env, c: Chunk)
    requires r < |s.runs| && Cleaning(s.runs[r].pc) && Tombstoned(s.db.doc)
    requires c in s.store && c in CleanupNode(s, r, out, env).store && Accountable(s, c)
    ensures !Accountable(CleanupNode(s, r, out, env), c)
            <==> Abandons(s, Advances(r, out, env)) && CleanupNode(s, r, out, env).store[c].run == r
  {
    if s.runs[r].pc.IxScanning? && s.store[c].run == r {
      assert Stable(s.runs[r].pc.seen, s.store, c);
      assert c in ScanKeys(s, s.runs[r].pc.seen, env.keys);
    }
  }

  /** A deletion attempt only removes chunks. */
  lemma DeleteOnlyRemoves(s: Sys, r: nat, out: Outcome, env: Env)
    requires r < |s.runs| && Deleting(s.runs[r].pc)
    ensures var s' := DeleteNode(s, r, out, env);
            && (forall c :: c in s'.store ==> c in s.store && s'.store[c] == s.store[c])
            && forall c :: c in s'.store && Accountable(s, c) ==> Accountable(s', c)
  {
    DeleteMoved(s, r, out, env);
  }

  /**
   After the deletion was scheduled, a chunk that stays in the index loses the attempt accountable for it if and
   only if the attempt that wrote it last abandons it in this very step.
   */
  lemma AccountabilityLostExactly(s: Sys, l: Label, c: Chunk)
    requires Tombstoned(s.db.doc) && c in s.store && Accountable(s, c) && c in Step(s, l).store
    ensures !Accountable(Step(s, l), c) <==> Abandons(s, l) && Step(s, l).store[c].run == l.run
  {
    match l {
      case Advances(r, out, env) =>
        if r < |s.runs| {
          if Indexing(s.runs[r].pc) {
            IndexAnswers(s, r, out, env, c);
          } else if Cleaning(s.runs[r].pc) {
            CleanupAnswers(s, r, out, env, c);
          } else if !s.runs[r].pc.Done? {
            DeleteOnlyRemoves(s, r, out, env);
          }
        }
      case _ =>
    }
  }

  // ----- whole behaviours -----

  /** Some attempt answers for the chunk, or its last writer is one of those that abandoned theirs. */
  ghost predicate Explained(s: Sys, c: Chunk, left: set<nat>)
    requires c in s.store
  {
    Accountable(s, c) || s.store[c].run in left
  }

  /** A deletion attempt at `pc` has chunk `c` on its list, or its scan cannot miss it. */
  predicate Listed(s: Sys, pc: Pc, c: Chunk) {
    || pc.DlDoc? || pc.DlScan? || pc.DlRequeue? || pc.DlFail?
    || (pc.DlScanning? && c in pc.seen && c in s.store && pc.seen[c] == s.store[c])
    || (pc.DlUnlink? && c in pc.keys)
  }

  ghost predicate SweptBy(s: Sys, pc: Pc, left: set<nat>) {
    forall c :: c in s.store ==> Explained(s, c, left) || Listed(s, pc, c)
  }

  ghost predicate AllExplained(s: Sys, left: set<nat>) {
    forall c :: c in s.store ==> Explained(s, c, left)
  }

  ghost predicate SweptInv(s: Sys, left: set<nat>) {
    && (forall r :: 0 <= r < |s.runs| && Deleting(s.runs[r].pc) ==> SweptBy(s, s.runs[r].pc, left))
    && (s.db.doc == DocGone ==> AllExplained(s, left))
  }

  /** Chunks only go, or are rewritten and then explained; what was explained stays so. */
  ghost predicate Tidy(s: Sys, s': Sys, left: set<nat>) {
    && (forall c :: c in s'.store && !(c in s.store && s.store[c] == s'.store[c]) ==> Explained(s', c, left))
    && (forall c :: c in s'.store && c in s.store && s.store[c] == s'.store[c] && Explained(s, c, left) ==> Explained(s', c, left))
  }

  lemma TidySwept(s: Sys, s': Sys, pc: Pc, left: set<nat>)
    requires Tidy(s, s', left) && SweptBy(s, pc, left)
    ensures SweptBy(s', pc, left)
  {
    forall c | c in s'.store ensures Explained(s', c, left) || Listed(s', pc, c) {
      if c in s.store && s.store[c] == s'.store[c] {
        assert Explained(s, c, left) || Listed(s, pc, c);
      }
    }
  }

  lemma MoreLeft(s: Sys, left: set<nat>, more: set<nat>)
    requires SweptInv(s, left) && left <= more
    ensures SweptInv(s, more)
  {
    forall r | 0 <= r < |s.runs| && Deleting(s.runs[r].pc) ensures SweptBy(s, s.runs[r].pc, more) {
      assert SweptBy(s, s.runs[r].pc, left);
      forall c | c in s.store ensures Explained(s, c, more) || Listed(s, s.runs[r].pc, c) {
        assert Explained(s, c, left) || Listed(s, s.runs[r].pc, c);
      }
    }
    if s.db.doc == DocGone {
      forall c | c in s.store ensures Explained(s, c, more) {
        assert Explained(s, c, left);
      }
    }
  }

  /** An indexing attempt past the tombstone keeps its books, or is one of those that abandoned them. */
  lemma IndexTidy(s: Sys, r: nat, out: Outcome, env: Env, left: set<nat>)
    requires r < |s.runs| && Indexing(s.runs[r].pc) && Tombstoned(s.db.doc)
    requires Abandons(s, Advances(r, out, env)) ==> r in left
    ensures Tidy(s, IndexNode(s, r, out, env), left)
  {
    var s' := IndexNode(s, r, out, env);
    forall c | c in s'.store && !(c in s.store && s.store[c] == s'.store[c]) ensures Explained(s', c, left) {
      FreshAnswers(s, r, out, env, c);
    }
    forall c | c in s'.store && c in s.store && s.store[c] == s'.store[c] && Explained(s, c, left) ensures Explained(s', c, left) {
      if Accountable(s, c) {
        IndexAnswers(s, r, out, env, c);
      }
    }
  }

  /** A chunk written just now is answered for, or its attempt abandons it at once. */
  lemma FreshAnswers(s: Sys, r: nat, out: Outcome, env: Env, c: Chunk)
    requires r < |s.runs| && Indexing(s.runs[r].pc) && Tombstoned(s.db.doc)
    requires c in IndexNode(s, r, out, env).store
    requires !(c in s.store && s.store[c] == IndexNode(s, r, out, env).store[c])
    ensures IndexNode(s, r, out, env).store[c].run == r
    ensures Accountable(IndexNode(s, r, out, env), c) || Abandons(s, Advances(r, out, env))
  {
    assert s.runs[r].pc.IxStore?;
  }

  lemma CleanupTidy(s: Sys, r: nat, out: Outcome, env: Env, left: set<nat>)
    requires r < |s.runs| && Cleaning(s.runs[r].pc) && Tombstoned(s.db.doc)
    requires Abandons(s, Advances(r, out, env)) ==> r in left
    ensures Tidy(s, CleanupNode(s, r, out, env), left)
  {
    var s' := CleanupNode(s, r, out, env);
    forall c | c in s'.store ensures c in s.store && s.store[c] == s'.store[c] {
    }
    forall c | c in s'.store && Explained(s, c, left) ensures Explained(s', c, left) {
      if Accountable(s, c) {
        CleanupAnswers(s, r, out, env, c);
      }
    }
  }

  lemma DeleteTidy(s: Sys, r: nat, out: Outcome, env: Env, left: set<nat>)
    requires r < |s.runs| && Deleting(s.runs[r].pc)
    ensures Tidy(s, DeleteNode(s, r, out, env), left)
  {
    DeleteOnlyRemoves(s, r, out, env);
  }

  lemma ScanSweeps(s: Sys, r: nat, out: Outcome, env: Env, left: set<nat>)
    requires r < |s.runs| && s.runs[r].pc.DlScanning? && SweptBy(s, s.runs[r].pc, left)
    ensures var s' := DeleteNode(s, r, out, env); SweptBy(s', s'.runs[r].pc, left)
  {
    var s' := DeleteNode(s, r, out, env);
    var seen := s.runs[r].pc.seen;
    DeleteTidy(s, r, out, env, left);
    forall c | c in s'.store ensures Explained(s', c, left) || Listed(s', s'.runs[r].pc, c) {
      assert Explained(s, c, left) || Listed(s, s.runs[r].pc, c);
      if !Explained(s, c, left) {
        assert Stable(seen, s.store, c);
        assert c in ScanKeys(s, seen, env.keys);
      }
    }
  }

  /** A deletion attempt's own list stays complete until it has been worked off. */
  lemma DeleteSweeps(s: Sys, r: nat, out: Outcome, env: Env, left: set<nat>)
    requires r < |s.runs| && Deleting(s.runs[r].pc) && SweptBy(s, s.runs[r].pc, left)
    ensures var s' := DeleteNode(s, r, out, env); Deleting(s'.runs[r].pc) ==> SweptBy(s', s'.runs[r].pc, left)
  {
    var s' := DeleteNode(s, r, out, env);
    if s.runs[r].pc.DlScanning? {
      ScanSweeps(s, r, out, env, left);
    } else if Deleting(s'.runs[r].pc) {
      DeleteTidy(s, r, out, env, left);
      forall c | c in s'.store ensures Explained(s', c, left) || Listed(s', s'.runs[r].pc, c) {
        assert Explained(s, c, left) || Listed(s, s.runs[r].pc, c);
      }
    }
  }

  /** The row goes only when the completing attempt has worked off its list. */
  lemma DeleteGone(s: Sys, r: nat, out: Outcome, env: Env, left: set<nat>)
    requires SweptInv(s, left) && r < |s.runs| && Deleting(s.runs[r].pc)
    ensures var s' := DeleteNode(s, r, out, env); s'.db.doc == DocGone ==> AllExplained(s', left)
  {
    var s' := DeleteNode(s, r, out, env);
    DeleteTidy(s, r, out, env, left);
    if s'.db.doc == DocGone && s.db.doc != DocGone {
      assert s.runs[r].pc.DlComplete?;
      assert SweptBy(s, s.runs[r].pc, left);
    }
  }

  lemma OthersSwept(s: Sys, s': Sys, r: nat, left: set<nat>)
    requires SweptInv(s, left) && SameRuns(s, s', r) && r < |s.runs| && Tidy(s, s', left)
    requires Deleting(s'.runs[r].pc) ==> SweptBy(s', s'.runs[r].pc, left)
    ensures forall q :: 0 <= q < |s'.runs| && Deleting(s'.runs[q].pc) ==> SweptBy(s', s'.runs[q].pc, left)
  {
    forall q | 0 <= q < |s'.runs| && Deleting(s'.runs[q].pc) ensures SweptBy(s', s'.runs[q].pc, left) {
      if q != r {
        assert SweptBy(s, s.runs[q].pc, left);
        TidySwept(s, s', s.runs[q].pc, left);
      }
    }
  }

  lemma TidyGone(s: Sys, s': Sys, left: set<nat>)
    requires Tidy(s, s', left) && AllExplained(s, left)
    ensures AllExplained(s', left)
  {
    forall c | c in s'.store ensures Explained(s', c, left) {
      if c in s.store && s.store[c] == s'.store[c] {
        assert Explained(s, c, left);
      }
    }
  }

  lemma AdvanceSwept(s: Sys, r: nat, out: Outcome, env: Env, left: set<nat>)
    requires Inv(s) && SweptInv(s, left) && r < |s.runs| && Tombstoned(s.db.doc)
    requires Abandons(s, Advances(r, out, env)) ==> r in left
    ensures SweptInv(Advance(s, r, out, env), left)
  {
    var s' := Advance(s, r, out, env);
    AdvanceMoved(s, r, out, env);
    if Deleting(s.runs[r].pc) {
      assert SweptBy(s, s.runs[r].pc, left);
      DeleteTidy(s, r, out, env, left);
      DeleteGone(s, r, out, env, left);
      DeleteSweeps(s, r, out, env, left);
      OthersSwept(s, s', r, left);
    } else if Indexing(s.runs[r].pc) {
      IndexTidy(s, r, out, env, left);
      IndexKeepsGone(s, r, out, env);
      OthersSwept(s, s', r, left);
      if s.db.doc == DocGone {
        TidyGone(s, s', left);
      }
    } else if Cleaning(s.runs[r].pc) {
      CleanupTidy(s, r, out, env, left);
      CleanupKeepsDoc(s, r, out, env);
      OthersSwept(s, s', r, left);
      if s.db.doc == DocGone {
        TidyGone(s, s', left);
      }
    }
  }

  lemma IndexKeepsGone(s: Sys, r: nat, out: Outcome, env: Env)
    requires r < |s.runs| && Indexing(s.runs[r].pc) && Tombstoned(s.db.doc)
    ensures IndexNode(s, r, out, env).db == s.db
  {
  }

  lemma StopSwept(s: Sys, r: nat, left: set<nat>)
    requires SweptInv(s, left) && r < |s.runs| && (Owing(s.runs[r].pc) ==> r in left)
    ensures SweptInv(Goto(s, r, Done), left)
  {
    var s' := Goto(s, r, Done);
    assert Tidy(s, s', left);
    OthersSwept(s, s', r, left);
    if s.db.doc == DocGone {
      TidyGone(s, s', left);
    }
  }

  lemma ClaimSwept(s: Sys, t: nat, now: Time, started: bool, left: set<nat>)
    requires SweptInv(s, left)
    ensures SweptInv(Step(s, Claims(t, now, started)), left)
  {
    var s' := Step(s, Claims(t, now, started));
    assert Tidy(s, s', left);
    forall q | 0 <= q < |s'.runs| && Deleting(s'.runs[q].pc) ensures SweptBy(s', s'.runs[q].pc, left) {
      if q < |s.runs| {
        assert SweptBy(s, s.runs[q].pc, left);
        TidySwept(s, s', s.runs[q].pc, left);
      }
    }
    if s.db.doc == DocGone {
      TidyGone(s, s', left);
    }
  }

  lemma SameStore(s: Sys, s': Sys, left: set<nat>)
    requires SweptInv(s, left) && s'.store == s.store && s'.runs == s.runs && (s'.db.doc == DocGone ==> s.db.doc == DocGone)
    ensures SweptInv(s', left)
  {
    assert Tidy(s, s', left);
    forall q | 0 <= q < |s'.runs| && Deleting(s'.runs[q].pc) ensures SweptBy(s', s'.runs[q].pc, left) {
      assert SweptBy(s, s.runs[q].pc, left);
      TidySwept(s, s', s.runs[q].pc, left);
    }
    if s.db.doc == DocGone {
      TidyGone(s, s', left);
    }
  }

  /** The step that sets the tombstone starts no deletion attempt yet. */
  lemma FromUntombstoned(s: Sys, l: Label, left: set<nat>)
    requires Inv(s) && !Tombstoned(s.db.doc)
    ensures SweptInv(Step(s, l), left)
  {
    NoDeletersYet(s);
    StepInv(s, l);
    if !Tombstoned(Step(s, l).db.doc) {
      NoDeletersYet(Step(s, l));
    } else {
      TombstoneStep(s, l);
    }
  }

  lemma StepSwept(s: Sys, l: Label, left: set<nat>)
    requires Inv(s) && SweptInv(s, left) && (Abandons(s, l) ==> l.run in left)
    ensures SweptInv(Step(s, l), left)
  {
    if !Tombstoned(s.db.doc) {
      FromUntombstoned(s, l, left);
    } else {
      match l {
        case Claims(t, now, started) => ClaimSwept(s, t, now, started, left);
        case Advances(r, out, env) =>
          if r < |s.runs| {
            AdvanceSwept(s, r, out, env, left);
          }
        case Stops(r) =>
          if r < |s.runs| {
            StopSwept(s, r, left);
          }
        case Recovers(before) => RecoverFacts(s.db, 0, before); SameStore(s, Step(s, l), left);
        case Deletes => SameStore(s, Step(s, l), left);
        case RetriesDelete(t) => SameStore(s, Step(s, l), left);
      }
    }
  }

  lemma {:induction false} ExecSwept(s: Sys, labels: seq<Label>)
    requires Inv(s) && SweptInv(s, {})
    ensures SweptInv(Exec(s, labels), Abandoners(s, labels))
    decreases |labels|
  {
    if labels != [] {
      var before := labels[..|labels| - 1];
      ExecSwept(s, before);
      ExecInv(s, before);
      MoreLeft(Exec(s, before), Abandoners(s, before), Abandoners(s, labels));
      StepSwept(Exec(s, before), labels[|labels| - 1], Abandoners(s, labels));
    }
  }

  lemma PaidUp(s: Sys, c: Chunk)
    requires c in s.store && forall r :: 0 <= r < |s.runs| ==> !Owing(s.runs[r].pc)
    ensures !Accountable(s, c)
  {
  }

  /** The document's row is gone and its indexing attempts are over. */
  ghost predicate Settled(s: Sys) {
    s.db.doc == DocGone && forall r :: 0 <= r < |s.runs| ==> !Owing(s.runs[r].pc)
  }

  /** Every chunk that outlives its document was abandoned by the attempt that wrote it last. */
  lemma LeftoverWasAbandoned(content: set<Chunk>, labels: seq<Label>, c: Chunk)
    requires Settled(Exec(Init(content), labels)) && c in Exec(Init(content), labels).store
    ensures Exec(Init(content), labels).store[c].run in Abandoners(Init(content), labels)
  {
    var s := Exec(Init(content), labels);
    InitInv(content);
    ExecSwept(Init(content), labels);
    assert Explained(s, c, Abandoners(Init(content), labels));
    PaidUp(s, c);
  }

  /** In particular a deletion leaves nothing when no attempt abandons its chunks after it was scheduled. */
  lemma GoneLeavesNothing(content: set<Chunk>, labels: seq<Label>)
    requires Settled(Exec(Init(content), labels)) && Abandoners(Init(content), labels) == {}
    ensures Exec(Init(content), labels).store == map[]
  {
    var s := Exec(Init(content), labels);
    if s.store.Keys != {} {
      var c :| c in s.store.Keys;
      LeftoverWasAbandoned(content, labels, c);
    }
  }
}
