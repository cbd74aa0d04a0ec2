/**
 Merging retrieved chunks of one source document: the values, and what merging preserves whatever the
 selection and order of the chunks.
 */
module RagMerge {
  import opened Options
  import C = RagChunks

  type Rune = nat

  /** Where a chunk comes from; an empty document name means the source is unknown and the chunk is never merged. */
  datatype Reference = Reference(chunkId: string, mergedIds: seq<string>, base: string, document: string,
                                 index: int, start: int, end: int)

  /** A retrieved chunk: its text and, unless it is a legacy record, its reference. */
  datatype Hit = Hit(content: seq<Rune>, ref: Option<Reference>)

  datatype Source = Source(base: string, document: string)

  function SourceOf(ref: Reference): Source {
    Source(ref.base, ref.document)
  }

  predicate SameDocument(a: Reference, b: Reference) {
    a.document != "" && a.document == b.document && a.base == b.base
  }

  predicate RangesTouch(a: Reference, b: Reference) {
    a.end >= b.start && b.end >= a.start
  }

  function Min(a: int, b: int): int {
    if a < b then a else b
  }

  function Max(a: int, b: int): int {
    if a < b then b else a
  }

  // ----- identifiers -----

  /** Appends an identifier unless it is empty, the canonical one, or already listed. */
  function AppendId(ids: seq<string>, id: string, canonical: string): seq<string> {
    if id == "" || id == canonical || id in ids then ids else ids + [id]
  }

  function AppendIds(ids: seq<string>, more: seq<string>, canonical: string): seq<string> {
    if more == [] then ids else AppendId(AppendIds(ids, more[..|more| - 1], canonical), more[|more| - 1], canonical)
  }

  function MergedIds(first: Reference, second: Reference): seq<string> {
    AppendIds(AppendId(AppendIds([], first.mergedIds, first.chunkId), second.chunkId, first.chunkId),
              second.mergedIds, first.chunkId)
  }

  predicate Names(ref: Reference, id: string) {
    id != "" && (id == ref.chunkId || id in ref.mergedIds)
  }

  lemma {:induction false} AppendIdsHas(ids: seq<string>, more: seq<string>, canonical: string, id: string)
    ensures id in AppendIds(ids, more, canonical) <==> id in ids || (id in more && id != "" && id != canonical)
  {
    if more != [] {
      AppendIdsHas(ids, more[..|more| - 1], canonical, id);
      assert more == more[..|more| - 1] + [more[|more| - 1]];
    }
  }

  lemma MergedIdsHave(first: Reference, second: Reference, id: string)
    ensures id in MergedIds(first, second) <==> id != "" && id != first.chunkId
                                                && (id in first.mergedIds || id == second.chunkId || id in second.mergedIds)
  {
    var own := AppendIds([], first.mergedIds, first.chunkId);
    AppendIdsHas([], first.mergedIds, first.chunkId, id);
    AppendIdsHas(AppendId(own, second.chunkId, first.chunkId), second.mergedIds, first.chunkId, id);
  }

  /** The merged reference names exactly the chunks its two parts named. */
  lemma MergedIdsExactly(first: Reference, second: Reference, id: string)
    ensures Names(first.(mergedIds := MergedIds(first, second)), id) <==> Names(first, id) || Names(second, id)
  {
    MergedIdsHave(first, second, id);
  }

  lemma {:induction false} AppendIdsDistinct(ids: seq<string>, more: seq<string>, canonical: string)
    requires forall i, j :: 0 <= i < j < |ids| ==> ids[i] != ids[j]
    ensures forall i, j :: 0 <= i < j < |AppendIds(ids, more, canonical)| ==>
              AppendIds(ids, more, canonical)[i] != AppendIds(ids, more, canonical)[j]
  {
    if more != [] {
      AppendIdsDistinct(ids, more[..|more| - 1], canonical);
    }
  }

  // ----- two hits -----

  /** The part starting first, extended by what the other has beyond it. */
  function Joined(a: Hit, b: Hit): Hit
    requires a.ref.Some? && b.ref.Some?
  {
    var x := a.ref.value;
    var y := b.ref.value;
    var overlap := Max(0, x.end - y.start);
    Hit(if overlap < |b.content| then a.content + b.content[overlap..] else a.content,
        Some(x.(mergedIds := MergedIds(x, y), index := Min(x.index, y.index), start := Min(x.start, y.start), end := Max(x.end, y.end))))
  }

  function Merge(target: Hit, addition: Hit): Hit
    requires target.ref.Some? && addition.ref.Some?
  {
    if addition.ref.value.start < target.ref.value.start then Joined(addition, target) else Joined(target, addition)
  }

  /** `hit` is both parts in one: from the part that starts first, and what the other has beyond its end. */
  predicate Joins(target: Hit, addition: Hit, hit: Hit)
    requires target.ref.Some? && addition.ref.Some?
  {
    var swapped := addition.ref.value.start < target.ref.value.start;
    var first, second := if swapped then addition else target, if swapped then target else addition;
    var a, b := first.ref.value, second.ref.value;
    var shared := if a.end > b.start then a.end - b.start else 0;
    && hit.ref.Some?
    && hit.ref.value.chunkId == a.chunkId && hit.ref.value.base == a.base && hit.ref.value.document == a.document
    && hit.ref.value.index == (if a.index <= b.index then a.index else b.index)
    && hit.ref.value.start == a.start && hit.ref.value.end == (if a.end >= b.end then a.end else b.end)
    && hit.content == first.content + if shared < |second.content| then second.content[shared..] else []
  }

  /** Merging gives both parts in one. */
  lemma MergeJoins(target: Hit, addition: Hit)
    requires target.ref.Some? && addition.ref.Some?
    ensures Joins(target, addition, Merge(target, addition))
  {
  }

  predicate Mergeable(a: Hit, b: Hit) {
    a.ref.Some? && b.ref.Some? && SameDocument(a.ref.value, b.ref.value) && RangesTouch(a.ref.value, b.ref.value)
  }

  predicate ExactRange(texts: map<Source, seq<Rune>>, ref: Reference, content: seq<Rune>) {
    && SourceOf(ref) in texts
    && 0 <= ref.start <= ref.end <= |texts[SourceOf(ref)]|
    && content == texts[SourceOf(ref)][ref.start..ref.end]
  }

  /** The content is the source text at the recorded range; nothing is claimed of hits without a known source. */
  predicate Exact(texts: map<Source, seq<Rune>>, hit: Hit) {
    hit.ref.Some? && hit.ref.value.document != "" ==> ExactRange(texts, hit.ref.value, hit.content)
  }

  lemma JoinedExact(texts: map<Source, seq<Rune>>, a: Hit, b: Hit)
    requires Mergeable(a, b) && Exact(texts, a) && Exact(texts, b) && a.ref.value.start <= b.ref.value.start
    ensures Exact(texts, Joined(a, b))
  {
    var text := texts[SourceOf(a.ref.value)];
    var x := a.ref.value;
    var y := b.ref.value;
    var overlap := x.end - y.start;
    if overlap < |b.content| {
      assert b.content[overlap..] == text[x.end..y.end];
      assert text[x.start..x.end] + text[x.end..y.end] == text[x.start..y.end];
    }
  }

  lemma MergeExact(texts: map<Source, seq<Rune>>, target: Hit, addition: Hit)
    requires Mergeable(target, addition) && Exact(texts, target) && Exact(texts, addition)
    ensures Exact(texts, Merge(target, addition))
  {
    if addition.ref.value.start < target.ref.value.start {
      JoinedExact(texts, addition, target);
    } else {
      JoinedExact(texts, target, addition);
    }
  }

  /** Rune `i` of source `src` lies in the recorded range of the hit. */
  predicate CoversRune(hit: Hit, src: Source, i: int) {
    hit.ref.Some? && SourceOf(hit.ref.value) == src && hit.ref.value.start <= i < hit.ref.value.end
  }

  predicate NamesChunk(hit: Hit, src: Source, id: string) {
    hit.ref.Some? && SourceOf(hit.ref.value) == src && Names(hit.ref.value, id)
  }

  predicate ForwardRange(hit: Hit) {
    hit.ref.Some? ==> hit.ref.value.start <= hit.ref.value.end
  }

  lemma MergeKeeps(a: Hit, b: Hit, src: Source, i: int, id: string)
    requires Mergeable(a, b) && ForwardRange(a) && ForwardRange(b)
    ensures ForwardRange(Merge(a, b))
    ensures CoversRune(Merge(a, b), src, i) <==> CoversRune(a, src, i) || CoversRune(b, src, i)
    ensures NamesChunk(Merge(a, b), src, id) <==> NamesChunk(a, src, id) || NamesChunk(b, src, id)
  {
    MergedIdsExactly(a.ref.value, b.ref.value, id);
    MergedIdsExactly(b.ref.value, a.ref.value, id);
  }

  // ----- the whole selection -----

  /** The first result that can take the hit; `|results|` if there is none. */
  function Slot(results: seq<Hit>, hit: Hit): (k: nat)
    ensures k <= |results|
    ensures k < |results| ==> Mergeable(results[k], hit)
    ensures forall j :: 0 <= j < k ==> !Mergeable(results[j], hit)
  {
    if results == [] then 0
    else if Mergeable(results[0], hit) then 0
    else
      var rest := Slot(results[1..], hit);
      assert forall j :: 1 <= j < rest + 1 ==> results[j] == results[1..][j - 1];
      rest + 1
  }

  function Place(results: seq<Hit>, hit: Hit): seq<Hit> {
    var k := Slot(results, hit);
    if k == |results| then results + [hit] else results[k := Merge(results[k], hit)]
  }

  function MergeAll(hits: seq<Hit>): seq<Hit> {
    if hits == [] then [] else Place(MergeAll(hits[..|hits| - 1]), hits[|hits| - 1])
  }

  ghost predicate AllExact(texts: map<Source, seq<Rune>>, hits: seq<Hit>) {
    forall j :: 0 <= j < |hits| ==> Exact(texts, hits[j])
  }

  ghost predicate AllForward(hits: seq<Hit>) {
    forall j :: 0 <= j < |hits| ==> ForwardRange(hits[j])
  }

  ghost predicate AnyCovers(hits: seq<Hit>, src: Source, i: int) {
    exists j :: 0 <= j < |hits| && CoversRune(hits[j], src, i)
  }

  ghost predicate AnyNames(hits: seq<Hit>, src: Source, id: string) {
    exists j :: 0 <= j < |hits| && NamesChunk(hits[j], src, id)
  }

  /** Every result is an exact piece of one source text, whatever was selected and in whatever order. */
  lemma {:induction false} MergedAreExact(texts: map<Source, seq<Rune>>, hits: seq<Hit>)
    requires AllExact(texts, hits)
    ensures AllExact(texts, MergeAll(hits))
  {
    if hits != [] {
      var last := hits[|hits| - 1];
      var before := MergeAll(hits[..|hits| - 1]);
      MergedAreExact(texts, hits[..|hits| - 1]);
      var k := Slot(before, last);
      if k < |before| {
        MergeExact(texts, before[k], last);
      }
    }
  }

  lemma PlaceKeeps(results: seq<Hit>, hit: Hit, src: Source, i: int, id: string)
    requires AllForward(results) && ForwardRange(hit)
    ensures AllForward(Place(results, hit))
    ensures AnyCovers(Place(results, hit), src, i) <==> AnyCovers(results, src, i) || CoversRune(hit, src, i)
    ensures AnyNames(Place(results, hit), src, id) <==> AnyNames(results, src, id) || NamesChunk(hit, src, id)
  {
    var placed := Place(results, hit);
    var k := Slot(results, hit);
    if k < |results| {
      MergeKeeps(results[k], hit, src, i, id);
      assert placed[k] == Merge(results[k], hit);
    } else {
      assert placed[k] == hit;
    }
    forall j | 0 <= j < |results| && j != k ensures placed[j] == results[j] {
    }
    if AnyCovers(results, src, i) {
      var j :| 0 <= j < |results| && CoversRune(results[j], src, i);
      assert CoversRune(placed[j], src, i);
    }
    if AnyNames(results, src, id) {
      var j :| 0 <= j < |results| && NamesChunk(results[j], src, id);
      assert NamesChunk(placed[j], src, id);
    }
  }

  /** Per source, merging keeps exactly the runes the selection covered and exactly the chunks it named. */
  lemma {:induction false} MergingConserves(hits: seq<Hit>, src: Source, i: int, id: string)
    requires AllForward(hits)
    ensures AllForward(MergeAll(hits))
    ensures AnyCovers(MergeAll(hits), src, i) <==> AnyCovers(hits, src, i)
    ensures AnyNames(MergeAll(hits), src, id) <==> AnyNames(hits, src, id)
  {
    if hits != [] {
      var before := hits[..|hits| - 1];
      var last := hits[|hits| - 1];
      MergingConserves(before, src, i, id);
      PlaceKeeps(MergeAll(before), last, src, i, id);
      assert hits == before + [last];
      OneMoreHit(before, last, src, i, id);
    }
  }

  lemma OneMoreHit(hits: seq<Hit>, last: Hit, src: Source, i: int, id: string)
    ensures AnyCovers(hits + [last], src, i) <==> AnyCovers(hits, src, i) || CoversRune(last, src, i)
    ensures AnyNames(hits + [last], src, id) <==> AnyNames(hits, src, id) || NamesChunk(last, src, id)
  {
    var more := hits + [last];
    assert forall j :: 0 <= j < |hits| ==> more[j] == hits[j];
    assert more[|hits|] == last;
  }

  /** Hits without a known source come through untouched and in order. */
  function Unmergeable(hits: seq<Hit>): seq<Hit> {
    if hits == [] then []
    else
      var last := hits[|hits| - 1];
      Unmergeable(hits[..|hits| - 1]) + if last.ref.None? || last.ref.value.document == "" then [last] else []
  }

  lemma {:induction false} UnmergeableSet(hits: seq<Hit>, k: nat, hit: Hit)
    requires k < |hits| && hits[k].ref.Some? && hits[k].ref.value.document != ""
    requires hit.ref.Some? && hit.ref.value.document != ""
    ensures Unmergeable(hits[k := hit]) == Unmergeable(hits)
  {
    if k < |hits| - 1 {
      assert hits[k := hit][..|hits| - 1] == hits[..|hits| - 1][k := hit];
      UnmergeableSet(hits[..|hits| - 1], k, hit);
    } else {
      assert hits[k := hit][..|hits| - 1] == hits[..|hits| - 1];
    }
  }

  lemma {:induction false} UnmergeablePass(hits: seq<Hit>)
    ensures Unmergeable(MergeAll(hits)) == Unmergeable(hits)
  {
    if hits != [] {
      var before := MergeAll(hits[..|hits| - 1]);
      var last := hits[|hits| - 1];
      UnmergeablePass(hits[..|hits| - 1]);
      PlacePass(before, last);
    }
  }

  lemma PlacePass(results: seq<Hit>, hit: Hit)
    ensures Unmergeable(Place(results, hit))
            == Unmergeable(results) + if hit.ref.None? || hit.ref.value.document == "" then [hit] else []
  {
    var k := Slot(results, hit);
    if k < |results| {
      UnmergeableSet(results, k, Merge(results[k], hit));
    } else {
      assert (results + [hit])[..|results|] == results;
    }
  }

  // ----- when nothing is left to merge -----

  /** Pieces of one known document. */
  predicate SameSource(a: Hit, b: Hit) {
    && a.ref.Some? && b.ref.Some? && a.ref.value.document != ""
    && a.ref.value.document == b.ref.value.document && a.ref.value.base == b.ref.value.base
  }

  /** Pieces of one known document whose ranges overlap or meet. */
  predicate Touches(a: Hit, b: Hit) {
    SameSource(a, b) && b.ref.value.start <= a.ref.value.end && a.ref.value.start <= b.ref.value.end
  }

  predicate AllApart(hits: seq<Hit>) {
    forall i, j :: 0 <= i < j < |hits| ==> !Touches(hits[i], hits[j])
  }

  predicate StartsNoLater(a: Hit, b: Hit) {
    SameSource(a, b) ==> a.ref.value.start <= b.ref.value.start
  }

  predicate AllBefore(hits: seq<Hit>, hit: Hit) {
    forall i :: 0 <= i < |hits| ==> StartsNoLater(hits[i], hit)
  }

  /** The pieces of each document come in the order of the document. */
  predicate Ascending(hits: seq<Hit>) {
    forall i, j :: 0 <= i < j < |hits| ==> StartsNoLater(hits[i], hits[j])
  }

  lemma PlaceBefore(results: seq<Hit>, hit: Hit, later: Hit)
    requires AllBefore(results, hit) && AllBefore(results, later) && StartsNoLater(hit, later)
    ensures AllBefore(Place(results, hit), later)
  {
  }

  /** What grows at its end still does not touch what it did not touch: that ends before it starts. */
  lemma StillApart(result: Hit, hit: Hit, other: Hit)
    requires Mergeable(result, hit) && StartsNoLater(result, hit) && StartsNoLater(other, hit)
    requires ForwardRange(result) && ForwardRange(other) && !Touches(result, other)
    ensures !Touches(Merge(result, hit), other) && !Touches(other, Merge(result, hit))
  {
  }

  lemma PlaceApart(results: seq<Hit>, hit: Hit)
    requires AllForward(results) && AllApart(results) && AllBefore(results, hit)
    ensures AllApart(Place(results, hit))
  {
    var placed, k := Place(results, hit), Slot(results, hit);
    forall i, j | 0 <= i < j < |placed| ensures !Touches(placed[i], placed[j]) {
      if k == |results| {
        assert j == k ==> !Mergeable(results[i], hit);
      } else if i == k || j == k {
        var other := results[if i == k then j else i];
        assert !Touches(results[k], other);
        StillApart(results[k], hit, other);
      }
    }
  }

  lemma {:induction false} AscendingApart(hits: seq<Hit>, n: nat)
    requires n <= |hits| && AllForward(hits) && Ascending(hits)
    ensures AllForward(MergeAll(hits[..n])) && AllApart(MergeAll(hits[..n]))
    ensures forall later :: n <= later < |hits| ==> AllBefore(MergeAll(hits[..n]), hits[later])
  {
    if n > 0 {
      AscendingApart(hits, n - 1);
      assert hits[..n][..n - 1] == hits[..n - 1];
      var before, hit := MergeAll(hits[..n - 1]), hits[n - 1];
      assert MergeAll(hits[..n]) == Place(before, hit);
      MergingConserves(hits[..n], Source("", ""), 0, "");
      PlaceApart(before, hit);
      forall later | n <= later < |hits| ensures AllBefore(Place(before, hit), hits[later]) {
        PlaceBefore(before, hit, hits[later]);
      }
    }
  }

  /** Of pieces taken in the order of their documents, no two results touch: everything that can be merged is. */
  lemma AscendingLeavesNothing(hits: seq<Hit>)
    requires AllForward(hits) && Ascending(hits)
    ensures AllApart(MergeAll(hits))
  {
    AscendingApart(hits, |hits|);
    assert hits[..|hits|] == hits;
  }

  lemma OneMorePlaced(hits: seq<Hit>, last: Hit)
    ensures MergeAll(hits + [last]) == Place(MergeAll(hits), last)
  {
    assert (hits + [last])[..|hits|] == hits;
  }

  function Piece(start: int, end: int): Hit {
    Hit([], Some(Reference("", [], "", "d", 0, start, end)))
  }

  /** Out of that order a piece that joins two results leaves them side by side: it goes into the first one. */
  lemma BridgeLeavesNeighbours()
    ensures var hits := [Piece(0, 1), Piece(2, 3), Piece(1, 2)];
            AllForward(hits) && |MergeAll(hits)| == 2 && Touches(MergeAll(hits)[0], MergeAll(hits)[1])
  {
    var a, b, c := Piece(0, 1), Piece(2, 3), Piece(1, 2);
    OneMorePlaced([], a);
    OneMorePlaced([a], b);
    OneMorePlaced([a, b], c);
    assert [a] + [b] == [a, b] && [a, b] + [c] == [a, b, c] && [] + [a] == [a];
    assert !Mergeable(a, b) && Mergeable(a, c);
    assert Place([], a) == [a] && Place([a], b) == [a, b];
    assert Slot([a, b], c) == 0;
  }

  // ----- where exact hits come from -----

  /** What the index stores for a chunk of document `src`. */
  function StoredHit(src: Source, c: C.Chunk, id: string): Hit {
    Hit(c.content, Some(Reference(id, [], src.base, src.document, c.index, c.start, c.end)))
  }

  ghost predicate Indexed(texts: map<Source, seq<Rune>>, hit: Hit) {
    exists src, o, c, id :: IndexedAs(texts, hit, src, o, c, id)
  }

  predicate IndexedAs(texts: map<Source, seq<Rune>>, hit: Hit, src: Source, o: C.Options, c: C.Chunk, id: string) {
    src in texts && C.ExactChunk(texts[src], o, c) && hit == StoredHit(src, c, id)
  }

  lemma StoredChunksAreExact(texts: map<Source, seq<Rune>>, src: Source, o: C.Options, c: C.Chunk, id: string)
    requires src in texts && C.ExactChunk(texts[src], o, c)
    ensures Exact(texts, StoredHit(src, c, id))
  {
  }

  /** From chunking to merging: whatever stored chunks are retrieved, every merged result is exact source text. */
  lemma RetrievedTextIsExact(texts: map<Source, seq<Rune>>, hits: seq<Hit>)
    requires forall j :: 0 <= j < |hits| ==> Indexed(texts, hits[j])
    ensures AllExact(texts, MergeAll(hits))
  {
    forall j | 0 <= j < |hits| ensures Exact(texts, hits[j]) {
      assert Indexed(texts, hits[j]);
      var src, o, c, id :| IndexedAs(texts, hits[j], src, o, c, id);
      StoredChunksAreExact(texts, src, o, c, id);
    }
    MergedAreExact(texts, hits);
  }
}
