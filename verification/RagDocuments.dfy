/** Merging on document objects, in place: contents are swapped and extended, references overwritten. */
module RagDocuments {
  import opened Options
  import opened RagMerge

  class Document {
    var content: seq<Rune>
    var ref: Option<Reference>

    function Value(): Hit
      reads this
    {
      Hit(content, ref)
    }

    constructor (content: seq<Rune>, ref: Option<Reference>)
      ensures Value() == Hit(content, ref)
    {
      this.content := content;
      this.ref := ref;
    }
  }

  function Values(docs: seq<Document>): (r: seq<Hit>)
    reads set d | d in docs
    ensures |r| == |docs| && forall i :: 0 <= i < |docs| ==> r[i] == docs[i].Value()
  {
    seq(|docs|, i requires 0 <= i < |docs| reads set d | d in docs => docs[i].Value())
  }

  method AppendUnseen(seen: set<string>, result: seq<string>, id: string, canonical: string)
    returns (seen': set<string>, result': seq<string>)
    requires forall x :: x in seen <==> x in result
    ensures result' == AppendId(result, id, canonical)
    ensures forall x :: x in seen' <==> x in result'
  {
    seen', result' := seen, result;
    if id == "" || id == canonical {
      return;
    }
    if id in seen {
      return;
    }
    seen', result' := seen + {id}, result + [id];
  }

  method MergedChunkIds(first: Reference, second: Reference) returns (result: seq<string>)
    ensures result == MergedIds(first, second)
    ensures forall id :: id in result <==> id != "" && id != first.chunkId
                                           && (id in first.mergedIds || id == second.chunkId || id in second.mergedIds)
    ensures forall i, j :: 0 <= i < j < |result| ==> result[i] != result[j]
  {
    var seen: set<string> := {};
    result := [];
    for i := 0 to |first.mergedIds|
      invariant forall x :: x in seen <==> x in result
      invariant result == AppendIds([], first.mergedIds[..i], first.chunkId)
    {
      assert first.mergedIds[..i + 1][..i] == first.mergedIds[..i];
      seen, result := AppendUnseen(seen, result, first.mergedIds[i], first.chunkId);
    }
    assert first.mergedIds[..|first.mergedIds|] == first.mergedIds;
    AppendIdsDistinct([], first.mergedIds, first.chunkId);
    seen, result := AppendUnseen(seen, result, second.chunkId, first.chunkId);
    ghost var middle := result;
    for i := 0 to |second.mergedIds|
      invariant forall x :: x in seen <==> x in result
      invariant result == AppendIds(middle, second.mergedIds[..i], first.chunkId)
    {
      assert second.mergedIds[..i + 1][..i] == second.mergedIds[..i];
      seen, result := AppendUnseen(seen, result, second.mergedIds[i], first.chunkId);
    }
    assert second.mergedIds[..|second.mergedIds|] == second.mergedIds;
    AppendIdsDistinct(middle, second.mergedIds, first.chunkId);
    forall id ensures id in result <==> id != "" && id != first.chunkId
                                        && (id in first.mergedIds || id == second.chunkId || id in second.mergedIds)
    {
      MergedIdsHave(first, second, id);
    }
  }

  /** Makes `target` the union of both; the addition's content may have been swapped with it. */
  method MergeDocumentContent(target: Document, addition: Document)
    requires target != addition
    modifies target, addition
    ensures old(target.ref).Some? && old(addition.ref).Some? ==> target.Value() == Merge(old(target.Value()), old(addition.Value()))
    ensures old(target.ref).None? || old(addition.ref).None? ==>
              target.Value() == old(target.Value()) && addition.Value() == old(addition.Value())
  {
    if target.ref.None? || addition.ref.None? {
      return;
    }
    var a, b := target.ref.value, addition.ref.value;
    if b.start < a.start {
      target.content, addition.content := addition.content, target.content;
      a, b := b, a;
    }
    var overlap := Max(0, a.end - b.start);
    if overlap < |addition.content| {
      target.content := target.content + addition.content[overlap..];
    }
    var ids := MergedChunkIds(a, b);
    target.ref := Some(a.(end := Max(a.end, b.end), start := Min(a.start, b.start), index := Min(a.index, b.index), mergedIds := ids));
  }

  ghost predicate Distinct(docs: seq<Document>) {
    forall i, j :: 0 <= i < j < |docs| ==> docs[i] != docs[j]
  }

  method FindSlot(results: seq<Document>, doc: Document) returns (found: int)
    ensures found == -1 <==> Slot(Values(results), doc.Value()) == |results|
    ensures found != -1 ==> found == Slot(Values(results), doc.Value())
    ensures found == -1 || 0 <= found < |results|
    ensures forall i :: 0 <= i < |results| && (found == -1 || i < found) ==> !Touches(results[i].Value(), doc.Value())
    ensures found != -1 ==> Touches(results[found].Value(), doc.Value())
  {
    found := -1;
    for i := 0 to |results|
      invariant found == -1
      invariant forall j :: 0 <= j < i ==> !Mergeable(results[j].Value(), doc.Value())
    {
      if results[i].ref.Some? && doc.ref.Some? && SameDocument(results[i].ref.value, doc.ref.value)
         && RangesTouch(results[i].ref.value, doc.ref.value)
      {
        assert Mergeable(Values(results)[i], doc.Value());
        found := i;
        break;
      }
    }
  }

  /** Result `k` is the first that touches the hit, and the only one that changes. */
  predicate TakesIn(results: seq<Hit>, hit: Hit, placed: seq<Hit>, k: nat)
    requires k < |results|
  {
    && |placed| == |results| && Touches(results[k], hit) && Joins(results[k], hit, placed[k])
    && (forall i :: 0 <= i < k ==> !Touches(results[i], hit))
    && forall i :: 0 <= i < |results| && i != k ==> placed[i] == results[i]
  }

  /** Takes one more hit: appended, or merged into the first result that touches it. */
  method PlaceDocument(results: seq<Document>, doc: Document) returns (placed: seq<Document>, merged: bool)
    requires Distinct(results) && doc !in results
    modifies set d | d in results + [doc]
    ensures Distinct(placed) && forall d :: d in placed ==> d in results || d == doc
    ensures Values(placed) == Place(old(Values(results)), old(doc.Value()))
    ensures |placed| == if merged then |results| else |results| + 1
    ensures merged <==> exists k :: 0 <= k < |results| && Touches(old(Values(results))[k], old(doc.Value()))
    ensures !merged ==> Values(placed) == old(Values(results)) + [old(doc.Value())]
    ensures merged ==> placed == results && exists k :: 0 <= k < |results| && TakesIn(old(Values(results)), old(doc.Value()), Values(placed), k)
  {
    placed, merged := results, false;
    var found := -1;
    if doc.ref.Some? {
      found := FindSlot(results, doc);
    } else {
      NoSlot(Values(results), doc.Value());
    }
    if found < 0 {
      placed := results + [doc];
      assert Values(placed) == Values(results) + [doc.Value()];
      return;
    }
    ghost var was := Values(results);
    ghost var hit := doc.Value();
    assert results[found] in results;
    MergeDocumentContent(results[found], doc);
    assert Values(results) == was[found := Merge(was[found], hit)];
    MergeJoins(was[found], hit);
    assert TakesIn(was, hit, Values(results), found);
    merged := true;
  }

  lemma NoSlot(results: seq<Hit>, hit: Hit)
    requires hit.ref.None?
    ensures Slot(results, hit) == |results|
  {
  }

  /** After `i` documents: the results so far, and the rest of the input as it was. */
  ghost predicate Merging(docs: seq<Document>, before: seq<Hit>, result: seq<Document>, i: nat)
    reads set d | d in docs + result
  {
    && i <= |docs| == |before| && Distinct(result)
    && (forall d :: d in result ==> d in docs[..i])
    && Values(result) == MergeAll(before[..i])
    && forall j :: i <= j < |docs| ==> docs[j].Value() == before[j]
  }

  /** The documents still to be visited are not among the results. */
  lemma Untaken(docs: seq<Document>, i: nat, results: seq<Document>)
    requires Distinct(docs) && i < |docs| && forall d :: d in results ==> d in docs[..i]
    ensures forall d :: d in results ==> d in docs
    ensures docs[i] !in results && forall j :: i < j < |docs| ==> docs[j] !in results && docs[j] != docs[i]
  {
  }

  /** One round of the merge. */
  method MergeNext(docs: seq<Document>, ghost before: seq<Hit>, result: seq<Document>, i: nat)
    returns (placed: seq<Document>, merged: bool)
    requires Distinct(docs) && i < |docs| && Merging(docs, before, result, i)
    modifies set d | d in docs
    ensures Merging(docs, before, placed, i + 1)
    ensures |placed| == if merged then |result| else |result| + 1
  {
    Untaken(docs, i, result);
    assert docs[i].Value() == before[i];
    placed, merged := PlaceDocument(result, docs[i]);
    assert Values(placed) == Place(MergeAll(before[..i]), before[i]);
    assert before[..i + 1][..i] == before[..i];
    assert docs[..i + 1] == docs[..i] + [docs[i]];
  }

  lemma MergingDone(docs: seq<Document>, before: seq<Hit>, result: seq<Document>)
    requires Merging(docs, before, result, |docs|)
    ensures Distinct(result) && Values(result) == MergeAll(before) && forall d :: d in result ==> d in docs
  {
    assert before[..|docs|] == before && docs[..|docs|] == docs;
  }

  /** The results are documents of the input; each hit is kept as one of them or counted as merged into one. */
  method MergeAdjacentDocuments(docs: seq<Document>) returns (result: seq<Document>, merged: nat)
    requires Distinct(docs)
    modifies set d | d in docs
    ensures forall d :: d in result ==> d in docs
    ensures Distinct(result)
    ensures Values(result) == MergeAll(old(Values(docs)))
    ensures |result| + merged == |docs|
  {
    result, merged := [], 0;
    ghost var before := Values(docs);
    for i := 0 to |docs|
      invariant Merging(docs, before, result, i)
      invariant |result| + merged == i
    {
      var taken;
      result, taken := MergeNext(docs, before, result, i);
      if taken {
        merged := merged + 1;
      }
    }
    MergingDone(docs, before, result);
  }
}
