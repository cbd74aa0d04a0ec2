/** The visibility filter between the search index and a prompt, and what it guarantees about deletion. */
module KbRetrieval {
  import opened Options
  import opened KbRows
  import opened KbSystem
  import opened KbTheorems

  type DocId = string

  /** A search hit; legacy indexes have no document record, and an empty name counts as none. */
  datatype Candidate = Candidate(text: string, document: Option<DocId>)

  predicate Named(candidate: Candidate) {
    candidate.document.Some? && candidate.document.value != ""
  }

  predicate Visible(candidate: Candidate, ready: set<DocId>) {
    Named(candidate) ==> candidate.document.value in ready
  }

  /** The visible candidates in their order. */
  function Filtered(candidates: seq<Candidate>, ready: set<DocId>): (r: seq<Candidate>)
    ensures |r| <= |candidates|
  {
    if candidates == [] then []
    else
      var rest := Filtered(candidates[..|candidates| - 1], ready);
      var last := candidates[|candidates| - 1];
      if Visible(last, ready) then rest + [last] else rest
  }

  lemma {:induction false} FilteredExactly(candidates: seq<Candidate>, ready: set<DocId>, c: Candidate)
    ensures multiset(Filtered(candidates, ready))[c] == if Visible(c, ready) then multiset(candidates)[c] else 0
  {
    if candidates != [] {
      FilteredExactly(candidates[..|candidates| - 1], ready, c);
      assert candidates == candidates[..|candidates| - 1] + [candidates[|candidates| - 1]];
    }
  }

  /** The results are the candidates at the positions `kept`, which go up. */
  predicate KeptInOrder(candidates: seq<Candidate>, result: seq<Candidate>, kept: seq<nat>) {
    && |kept| == |result|
    && (forall i :: 0 <= i < |kept| ==> kept[i] < |candidates| && result[i] == candidates[kept[i]])
    && forall i, j :: 0 <= i < j < |kept| ==> kept[i] < kept[j]
  }

  lemma KeptGrows(candidates: seq<Candidate>, more: Candidate, result: seq<Candidate>, kept: seq<nat>)
    requires KeptInOrder(candidates, result, kept)
    ensures KeptInOrder(candidates + [more], result, kept)
    ensures KeptInOrder(candidates + [more], result + [more], kept + [|candidates|])
  {
  }

  /** The positions of the hits without a document record or name and of those whose document is ready. */
  function VisibleAt(candidates: seq<Candidate>, ready: set<DocId>): (kept: seq<nat>)
    ensures forall i :: i in kept <==>
              0 <= i < |candidates|
              && (candidates[i].document == None || candidates[i].document.value == "" || candidates[i].document.value in ready)
  {
    if candidates == [] then []
    else
      var n := |candidates| - 1;
      VisibleAt(candidates[..n], ready) + if Visible(candidates[n], ready) then [n] else []
  }

  /** Filtering keeps the candidates at those positions, in their order. */
  lemma {:induction false} FilteredInOrder(candidates: seq<Candidate>, ready: set<DocId>)
    ensures KeptInOrder(candidates, Filtered(candidates, ready), VisibleAt(candidates, ready))
  {
    if candidates != [] {
      var n := |candidates| - 1;
      FilteredInOrder(candidates[..n], ready);
      KeptGrows(candidates[..n], candidates[n], Filtered(candidates[..n], ready), VisibleAt(candidates[..n], ready));
      assert candidates[..n] + [candidates[n]] == candidates;
    }
  }

  /** The document names of the hits, each once, as the status query receives them. */
  predicate NamesOf(ids: seq<DocId>, candidates: seq<Candidate>) {
    && (forall i :: 0 <= i < |candidates| && Named(candidates[i]) ==> candidates[i].document.value in ids)
    && forall i, j :: 0 <= i < j < |ids| ==> ids[i] != ids[j]
  }

  method CollectIds(candidates: seq<Candidate>) returns (ids: seq<DocId>)
    ensures NamesOf(ids, candidates)
    ensures forall id :: id in ids ==> exists i :: 0 <= i < |candidates| && candidates[i].document == Some(id) && id != ""
  {
    ids := [];
    var seen: set<DocId> := {};
    for i := 0 to |candidates|
      invariant forall id :: id in seen <==> id in ids
      invariant NamesOf(ids, candidates[..i])
      invariant forall id :: id in ids ==> exists j :: 0 <= j < |candidates| && candidates[j].document == Some(id) && id != ""
    {
      assert candidates[..i + 1] == candidates[..i] + [candidates[i]];
      if Named(candidates[i]) && candidates[i].document.value !in seen {
        seen := seen + {candidates[i].document.value};
        ids := ids + [candidates[i].document.value];
      }
    }
    assert candidates[..|candidates|] == candidates;
  }

  /**
   Keeps, in order, the hits without a document record and those whose document the status query still finds
   ready. `status` is the table of the user's ready documents at the time of that query.
   */
  method FilterReadyCandidates(user: string, candidates: seq<Candidate>, status: set<DocId>)
    returns (result: seq<Candidate>, filtered: nat)
    ensures result == (if user == "" then candidates else Filtered(candidates, status))
    ensures |result| + filtered == |candidates|
  {
    if |candidates| == 0 || user == "" {
      return candidates, 0;
    }
    var ids := CollectIds(candidates);
    if |ids| == 0 {
      AllVisible(candidates, status);
      return candidates, 0;
    }
    var allowed := set id | id in ids && id in status;
    result, filtered := [], 0;
    for i := 0 to |candidates|
      invariant result == Filtered(candidates[..i], status)
      invariant |result| + filtered == i
    {
      assert candidates[..i + 1][..i] == candidates[..i];
      if !Named(candidates[i]) {
        result := result + [candidates[i]];
      } else if candidates[i].document.value in allowed {
        result := result + [candidates[i]];
      } else {
        filtered := filtered + 1;
      }
    }
    assert candidates[..|candidates|] == candidates;
  }

  lemma {:induction false} AllVisible(candidates: seq<Candidate>, ready: set<DocId>)
    requires forall i :: 0 <= i < |candidates| ==> !Named(candidates[i])
    ensures Filtered(candidates, ready) == candidates
  {
    if candidates != [] {
      AllVisible(candidates[..|candidates| - 1], ready);
      assert candidates == candidates[..|candidates| - 1] + [candidates[|candidates| - 1]];
    }
  }

  /** The status table at this moment agrees with the lifecycle of document `id`. */
  predicate Records(status: set<DocId>, id: DocId, doc: DocStatus) {
    id in status <==> doc == DocReady
  }

  /**
   However stale the index answers are, a retrieval whose status query runs after a deletion was scheduled
   returns nothing of that document, at any later time and whatever runs have done in between.
   */
  lemma DeletedIsNeverRetrieved(s: Sys, labels: seq<Label>, candidates: seq<Candidate>, status: set<DocId>, id: DocId)
    requires Reachable(s) && Tombstoned(s.db.doc) && id != ""
    requires Records(status, id, Exec(s, labels).db.doc)
    ensures forall c :: c in Filtered(candidates, status) ==> c.document != Some(id)
  {
    TombstoneIsForGood(s, labels);
    forall c | c in Filtered(candidates, status) ensures c.document != Some(id) {
      FilteredExactly(candidates, status, c);
      assert multiset(Filtered(candidates, status))[c] > 0;
    }
  }
}
