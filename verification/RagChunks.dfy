/** Splitting a text into overlapping chunks at the best nearby boundary. Offsets count runes. */
module RagChunks {
  type Rune = nat

  datatype Options = Options(maxRunes: int, minRunes: int, overlapRunes: int)

  datatype Chunk = Chunk(content: seq<Rune>, index: nat, start: nat, end: nat)

  const DEFAULT_MAX := 1000
  const DEFAULT_MIN := 400
  const DEFAULT_OVERLAP := 120

  const NEWLINE: Rune := 10

  /** The code points with the Unicode White_Space property. */
  predicate IsSpace(r: Rune) {
    9 <= r <= 13 || r == 0x20 || r == 0x85 || r == 0xA0 || r == 0x1680 || 0x2000 <= r <= 0x200A
    || r == 0x2028 || r == 0x2029 || r == 0x202F || r == 0x205F || r == 0x3000
  }

  lemma SpacesAre(r: Rune)
    ensures IsSpace(r) <==> r in {9, 10, 11, 12, 13, 0x20, 0x85, 0xA0, 0x1680, 0x2000, 0x2001, 0x2002, 0x2003,
                                  0x2004, 0x2005, 0x2006, 0x2007, 0x2008, 0x2009, 0x200A, 0x2028, 0x2029,
                                  0x202F, 0x205F, 0x3000}
  {
  }

  /** Full stop, exclamation and question mark, semicolon, their full-width forms and the ellipsis. */
  predicate IsSentenceBoundary(r: Rune) {
    r in {0x2E, 0x21, 0x3F, 0x3B, 0x3002, 0xFF01, 0xFF1F, 0xFF1B, 0x2026}
  }

  function Min(a: int, b: int): int {
    if a < b then a else b
  }

  function Normalized(o: Options): Options {
    var maxRunes := if o.maxRunes <= 0 then DEFAULT_MAX else o.maxRunes;
    var minRunes := if o.minRunes <= 0 || o.minRunes >= maxRunes then Min(DEFAULT_MIN, maxRunes / 2) else o.minRunes;
    var overlap := if o.overlapRunes <= 0 then Min(DEFAULT_OVERLAP, maxRunes / 5) else o.overlapRunes;
    Options(maxRunes, minRunes, if overlap >= maxRunes then maxRunes / 5 else overlap)
  }

  /** What the loop needs of its options. */
  predicate Usable(o: Options) {
    1 <= o.minRunes <= o.maxRunes && 0 <= o.overlapRunes < o.maxRunes
  }

  /** Sensible options stay; others become 1000, 400 and 120, or what the maximum leaves room for. */
  lemma NormalizedExactly(o: Options)
    ensures 1 <= o.minRunes < o.maxRunes && 1 <= o.overlapRunes < o.maxRunes ==> Normalized(o) == o
    ensures Normalized(Normalized(o)) == Normalized(o)
    ensures Normalized(o).maxRunes == if o.maxRunes > 0 then o.maxRunes else 1000
    ensures var max := Normalized(o).maxRunes;
            && Normalized(o).minRunes == (if 0 < o.minRunes < max then o.minRunes else if max >= 800 then 400 else max / 2)
            && Normalized(o).overlapRunes
               == if 0 < o.overlapRunes < max then o.overlapRunes
                  else if o.overlapRunes <= 0 && max >= 600 then 120 else max / 5
  {
  }

  lemma NormalizedUsable(options: Options)
    requires options.maxRunes != 1
    ensures Usable(Normalized(options))
  {
  }

  // ----- boundaries -----

  /** Boundary classes, best first: paragraph, line, sentence, word. */
  const CLASSES := 4

  predicate BoundaryAt(kind: nat, runes: seq<Rune>, end: nat)
    requires end <= |runes|
  {
    match kind
    case 0 => end >= 2 && runes[end - 1] == NEWLINE && runes[end - 2] == NEWLINE
    case 1 => end >= 1 && runes[end - 1] == NEWLINE
    case 2 => end >= 1 && IsSentenceBoundary(runes[end - 1])
    case _ => end >= 1 && IsSpace(runes[end - 1])
  }

  ghost predicate NoBoundary(kind: nat, runes: seq<Rune>, lo: nat, hi: nat)
    requires hi <= |runes|
  {
    forall end :: lo <= end <= hi ==> !BoundaryAt(kind, runes, end)
  }

  /** `end` is the last boundary of the best class present in the window, or its right edge if there is none. */
  ghost predicate BestEnd(runes: seq<Rune>, lo: nat, hi: nat, end: nat)
    requires lo <= hi <= |runes|
  {
    && lo <= end <= hi
    && exists kind :: 0 <= kind <= CLASSES && BestOfClass(runes, lo, hi, end, kind)
  }

  ghost predicate BestOfClass(runes: seq<Rune>, lo: nat, hi: nat, end: nat, kind: nat)
    requires lo <= hi <= |runes| && lo <= end <= hi
  {
    && (forall better :: 0 <= better < kind ==> NoBoundary(better, runes, lo, hi))
    && if kind == CLASSES then end == hi else BoundaryAt(kind, runes, end) && NoBoundary(kind, runes, end + 1, hi)
  }

  /** Where a round that starts at `start` ends its window. */
  ghost predicate WindowEnd(runes: seq<Rune>, start: nat, o: Options, end: nat) {
    && start < |runes| && 0 <= o.minRunes <= o.maxRunes
    && if start + o.maxRunes >= |runes| then end == |runes| else BestEnd(runes, start + o.minRunes, start + o.maxRunes, end)
  }

  /** A boundary that is better than any the next rune offers. */
  ghost predicate Weakens(runes: seq<Rune>, k: nat) {
    && k + 1 < |runes|
    && exists kind :: 0 <= kind < CLASSES && BoundaryAt(kind, runes, k) && NoneAsGood(runes, k + 1, kind)
  }

  ghost predicate NoneAsGood(runes: seq<Rune>, end: nat, kind: nat)
    requires end <= |runes|
  {
    forall better :: 0 <= better <= kind ==> !BoundaryAt(better, runes, end)
  }

  /** What the loop needs: chunks of more than one rune, or a text in which no boundary weakens. */
  ghost predicate Splittable(runes: seq<Rune>, o: Options) {
    Usable(o) || (o == Options(1, 0, 0) && forall k: nat :: !Weakens(runes, k))
  }

  /** A one-rune window is left at its right edge, unless its left edge is the better boundary. */
  lemma OneRuneWindow(runes: seq<Rune>, start: nat, end: nat)
    requires start + 1 < |runes| && BestEnd(runes, start, start + 1, end) && !Weakens(runes, start)
    ensures end == start + 1
  {
    if end == start {
      var kind :| 0 <= kind <= CLASSES && BestOfClass(runes, start, start + 1, end, kind);
      assert BoundaryAt(kind, runes, start);
      var hi := start + 1;
      forall better | 0 <= better <= kind ensures !BoundaryAt(better, runes, hi) {
        assert if better < kind then NoBoundary(better, runes, start, hi) else NoBoundary(kind, runes, hi, hi);
      }
      assert NoneAsGood(runes, hi, kind);
    }
  }

  /** Scans a window backwards for one class. */
  method LastBoundary(kind: nat, runes: seq<Rune>, lo: nat, hi: nat) returns (found: bool, end: nat)
    requires lo <= hi <= |runes|
    ensures found ==> lo <= end <= hi && BoundaryAt(kind, runes, end) && NoBoundary(kind, runes, end + 1, hi)
    ensures !found ==> NoBoundary(kind, runes, lo, hi)
  {
    for next := hi + 1 downto lo
      invariant forall e :: next <= e <= hi ==> !BoundaryAt(kind, runes, e)
    {
      if BoundaryAt(kind, runes, next) {
        return true, next;
      }
    }
    return false, hi;
  }

  /** A round's window ends after its start. */
  lemma WindowAdvances(runes: seq<Rune>, start: nat, o: Options, end: nat)
    requires Splittable(runes, o) && WindowEnd(runes, start, o, end)
    ensures start < end <= |runes| && end <= start + o.maxRunes
  {
    if !Usable(o) && start + 1 < |runes| {
      OneRuneWindow(runes, start, end);
    }
  }

  predicate ParagraphEnd(runes: seq<Rune>, end: nat) {
    2 <= end <= |runes| && runes[end - 1] == 10 && runes[end - 2] == 10
  }

  predicate LineEnd(runes: seq<Rune>, end: nat) {
    1 <= end <= |runes| && runes[end - 1] == 10
  }

  predicate SentenceEnd(runes: seq<Rune>, end: nat) {
    1 <= end <= |runes| && runes[end - 1] in {0x2E, 0x21, 0x3F, 0x3B, 0x3002, 0xFF01, 0xFF1F, 0xFF1B, 0x2026}
  }

  predicate WordEnd(runes: seq<Rune>, end: nat) {
    1 <= end <= |runes| && IsSpace(runes[end - 1])
  }

  /** The last end of a paragraph in the window, else of a line, else of a sentence, else of a word, else its edge. */
  ghost predicate LastBestEnd(runes: seq<Rune>, lo: nat, hi: nat, end: nat) {
    if exists e :: lo <= e <= hi && ParagraphEnd(runes, e) then
      lo <= end <= hi && ParagraphEnd(runes, end) && forall e :: end < e <= hi ==> !ParagraphEnd(runes, e)
    else if exists e :: lo <= e <= hi && LineEnd(runes, e) then
      lo <= end <= hi && LineEnd(runes, end) && forall e :: end < e <= hi ==> !LineEnd(runes, e)
    else if exists e :: lo <= e <= hi && SentenceEnd(runes, e) then
      lo <= end <= hi && SentenceEnd(runes, end) && forall e :: end < e <= hi ==> !SentenceEnd(runes, e)
    else if exists e :: lo <= e <= hi && WordEnd(runes, e) then
      lo <= end <= hi && WordEnd(runes, end) && forall e :: end < e <= hi ==> !WordEnd(runes, e)
    else end == hi
  }

  /** What a window's end is, spelled out. */
  lemma WindowEndSpelled(runes: seq<Rune>, start: nat, o: Options, end: nat)
    requires WindowEnd(runes, start, o, end)
    ensures start + o.maxRunes >= |runes| ==> end == |runes|
    ensures start + o.maxRunes < |runes| ==> LastBestEnd(runes, start + o.minRunes, start + o.maxRunes, end)
  {
    if start + o.maxRunes < |runes| {
      var lo, hi := start + o.minRunes, start + o.maxRunes;
      var kind :| 0 <= kind <= CLASSES && BestOfClass(runes, lo, hi, end, kind);
      forall e | lo <= e <= hi
        ensures ParagraphEnd(runes, e) <==> BoundaryAt(0, runes, e)
        ensures LineEnd(runes, e) <==> BoundaryAt(1, runes, e)
        ensures SentenceEnd(runes, e) <==> BoundaryAt(2, runes, e)
        ensures WordEnd(runes, e) <==> BoundaryAt(3, runes, e)
      {
      }
      assert kind > 0 ==> NoBoundary(0, runes, lo, hi);
      assert kind > 1 ==> NoBoundary(1, runes, lo, hi);
      assert kind > 2 ==> NoBoundary(2, runes, lo, hi);
      assert kind > 3 ==> NoBoundary(3, runes, lo, hi);
    }
  }

  method ChooseChunkEnd(runes: seq<Rune>, start: nat, o: Options) returns (end: nat)
    requires Splittable(runes, o) && start < |runes|
    ensures WindowEnd(runes, start, o, end)
    ensures start + o.maxRunes >= |runes| ==> end == |runes|
    ensures start + o.maxRunes < |runes| ==> LastBestEnd(runes, start + o.minRunes, start + o.maxRunes, end)
    ensures start < end <= |runes| && end <= start + o.maxRunes
  {
    var maxEnd := Min(|runes|, start + o.maxRunes);
    if maxEnd == |runes| {
      return maxEnd;
    }
    var minEnd := Min(maxEnd, start + o.minRunes);
    for kind := 0 to CLASSES
      invariant forall better :: 0 <= better < kind ==> NoBoundary(better, runes, minEnd, maxEnd)
    {
      var found, at := LastBoundary(kind, runes, minEnd, maxEnd);
      if found {
        assert BestOfClass(runes, minEnd, maxEnd, at, kind);
        WindowAdvances(runes, start, o, at);
        WindowEndSpelled(runes, start, o, at);
        return at;
      }
    }
    assert BestOfClass(runes, minEnd, maxEnd, maxEnd, CLASSES);
    WindowAdvances(runes, start, o, maxEnd);
    WindowEndSpelled(runes, start, o, maxEnd);
    return maxEnd;
  }

  method TrimRuneRange(runes: seq<Rune>, start: nat, end: nat) returns (s: nat, e: nat)
    requires start <= end <= |runes|
    ensures start <= s <= e <= end
    ensures forall i :: start <= i < end && !IsSpace(runes[i]) ==> s <= i < e
    ensures s < e ==> !IsSpace(runes[s]) && !IsSpace(runes[e - 1])
  {
    s, e := start, end;
    while s < e && IsSpace(runes[s])
      invariant start <= s <= e
      invariant forall i :: start <= i < s ==> IsSpace(runes[i])
    {
      s := s + 1;
    }
    while e > s && IsSpace(runes[e - 1])
      invariant s <= e <= end
      invariant forall i :: e <= i < end ==> IsSpace(runes[i])
      invariant s < e ==> !IsSpace(runes[s])
    {
      e := e - 1;
    }
  }

  // ----- the splitter -----

  /** An exact, trimmed, bounded piece of the text. */
  predicate ExactChunk(runes: seq<Rune>, o: Options, c: Chunk) {
    && c.start < c.end <= |runes| && c.content == runes[c.start..c.end] && c.end - c.start <= o.maxRunes
    && !IsSpace(c.content[0]) && !IsSpace(c.content[|c.content| - 1])
  }

  ghost predicate Covered(chunks: seq<Chunk>, i: nat) {
    exists j :: 0 <= j < |chunks| && chunks[j].start <= i < chunks[j].end
  }

  /** Every visible rune before `upTo` lies in some chunk. */
  ghost predicate CoversBefore(runes: seq<Rune>, chunks: seq<Chunk>, upTo: nat) {
    forall i :: 0 <= i < upTo && i < |runes| && !IsSpace(runes[i]) ==> Covered(chunks, i)
  }

  /** Numbered in order, advancing, and overlapping their predecessor by no more than allowed. */
  ghost predicate Ordered(chunks: seq<Chunk>, o: Options) {
    && (forall j :: 0 <= j < |chunks| ==> chunks[j].index == j)
    && forall j :: 0 < j < |chunks| ==>
         chunks[j].start >= chunks[j - 1].start && chunks[j - 1].end - chunks[j].start <= o.overlapRunes
  }

  lemma CoversMore(runes: seq<Rune>, chunks: seq<Chunk>, c: Chunk, start: nat, rawEnd: nat)
    requires CoversBefore(runes, chunks, start) && rawEnd <= |runes|
    requires forall i :: start <= i < rawEnd && !IsSpace(runes[i]) ==> c.start <= i < c.end
    ensures CoversBefore(runes, chunks + [c], rawEnd)
  {
    forall i | 0 <= i < rawEnd && i < |runes| && !IsSpace(runes[i]) ensures Covered(chunks + [c], i) {
      if i < start {
        var j :| 0 <= j < |chunks| && chunks[j].start <= i < chunks[j].end;
        assert (chunks + [c])[j] == chunks[j];
      } else {
        assert (chunks + [c])[|chunks|] == c;
      }
    }
  }

  /** The chunks so far, when the next round starts at `start`. */
  ghost predicate Progress(runes: seq<Rune>, o: Options, chunks: seq<Chunk>, start: nat) {
    && Ordered(chunks, o) && CoversBefore(runes, chunks, start)
    && (forall j :: 0 <= j < |chunks| ==> ExactChunk(runes, o, chunks[j]))
    && (|chunks| > 0 ==> LastOk(runes, o, chunks[|chunks| - 1], start))
  }

  /** The last chunk reaches past `start` by at most the overlap, and only blanks separate `start` from a later start. */
  ghost predicate LastOk(runes: seq<Rune>, o: Options, last: Chunk, start: nat) {
    last.end - start <= o.overlapRunes && BlankBetween(runes, start, last.start)
  }

  predicate BlankBetween(runes: seq<Rune>, from: nat, to: nat) {
    forall i :: from <= i < to && i < |runes| ==> IsSpace(runes[i])
  }

  lemma OrderedMore(chunks: seq<Chunk>, c: Chunk, o: Options)
    requires Ordered(chunks, o) && c.index == |chunks|
    requires |chunks| > 0 ==> c.start >= chunks[|chunks| - 1].start && chunks[|chunks| - 1].end - c.start <= o.overlapRunes
    ensures Ordered(chunks + [c], o)
  {
  }

  /** What a round knows: its window, the trimmed range in it, and where the next round starts. */
  predicate RoundOk(runes: seq<Rune>, o: Options, start: nat, rawEnd: nat, s: nat, e: nat, next: nat) {
    && start < rawEnd <= |runes| && rawEnd <= start + o.maxRunes
    && start <= s <= e <= rawEnd && (s < e ==> !IsSpace(runes[s]) && !IsSpace(runes[e - 1]))
    && (forall i :: start <= i < rawEnd && !IsSpace(runes[i]) ==> s <= i < e)
    && start < next <= rawEnd && rawEnd - next <= o.overlapRunes
  }

  lemma BlankRound(runes: seq<Rune>, o: Options, chunks: seq<Chunk>, start: nat, rawEnd: nat, s: nat, next: nat)
    requires Progress(runes, o, chunks, start) && RoundOk(runes, o, start, rawEnd, s, s, next)
    ensures Progress(runes, o, chunks, next) && CoversBefore(runes, chunks, rawEnd)
  {
  }

  lemma ChunkRound(runes: seq<Rune>, o: Options, chunks: seq<Chunk>, start: nat, rawEnd: nat, s: nat, e: nat, next: nat)
    requires Progress(runes, o, chunks, start) && RoundOk(runes, o, start, rawEnd, s, e, next) && s < e
    ensures var more := chunks + [Chunk(runes[s..e], |chunks|, s, e)];
            Progress(runes, o, more, next) && CoversBefore(runes, more, rawEnd)
  {
    var c := Chunk(runes[s..e], |chunks|, s, e);
    assert ExactChunk(runes, o, c);
    CoversMore(runes, chunks, c, start, rawEnd);
    if |chunks| > 0 {
      var last := chunks[|chunks| - 1];
      assert LastOk(runes, o, last, start);
      assert last.start <= s;
    }
    OrderedMore(chunks, c, o);
    assert LastOk(runes, o, c, next);
  }

  /** Where the next round starts, before whitespace is skipped. */
  function NextStart(start: nat, rawEnd: nat, o: Options): nat {
    if rawEnd - o.overlapRunes <= start then rawEnd else rawEnd - o.overlapRunes
  }

  /** The first rune from `from` on, but before `to`, that is not blank; else `to`. */
  function SkipBlanks(runes: seq<Rune>, from: nat, to: nat): (next: nat)
    requires to <= |runes|
    ensures from <= to ==> from <= next <= to
    ensures from <= to && next < to ==> !IsSpace(runes[next])
    ensures BlankBetween(runes, from, next)
    decreases if from <= to then to - from else 0
  {
    if from < to && IsSpace(runes[from]) then SkipBlanks(runes, from + 1, to) else from
  }

  /** Back by the overlap, but never to or before this round's start; then past whitespace. */
  method NextChunkStart(runes: seq<Rune>, start: nat, rawEnd: nat, o: Options) returns (next: nat)
    requires 0 <= o.overlapRunes && start < rawEnd < |runes|
    ensures start < next <= rawEnd && rawEnd - next <= o.overlapRunes
    ensures rawEnd - o.overlapRunes > start ==> rawEnd - o.overlapRunes <= next && BlankBetween(runes, rawEnd - o.overlapRunes, next)
    ensures rawEnd - o.overlapRunes <= start ==> next == rawEnd
    ensures next < rawEnd ==> !IsSpace(runes[next])
    ensures next == SkipBlanks(runes, NextStart(start, rawEnd, o), rawEnd)
  {
    var from := rawEnd - o.overlapRunes;
    if from <= start {
      from := rawEnd;
    }
    next := from;
    while next < rawEnd && next < |runes| && IsSpace(runes[next])
      invariant start < next <= rawEnd && rawEnd - next <= o.overlapRunes
      invariant SkipBlanks(runes, next, rawEnd) == SkipBlanks(runes, NextStart(start, rawEnd, o), rawEnd)
    {
      next := next + 1;
    }
  }

  // ----- the starts of the rounds -----

  /** A round that starts at `start` is followed by one that starts at `next`. */
  ghost predicate FollowedBy(runes: seq<Rune>, o: Options, start: nat, next: nat) {
    exists rawEnd: nat :: rawEnd < |runes| && WindowEnd(runes, start, o, rawEnd)
                          && next == SkipBlanks(runes, NextStart(start, rawEnd, o), rawEnd)
  }

  /** The starts of the first rounds of the loop. */
  ghost predicate Starts(runes: seq<Rune>, o: Options, starts: seq<nat>) {
    && |starts| > 0 && starts[0] == 0
    && forall i :: 0 <= i < |starts| - 1 ==> FollowedBy(runes, o, starts[i], starts[i + 1])
  }

  ghost predicate Increasing(starts: seq<nat>) {
    forall i :: 0 <= i < |starts| - 1 ==> starts[i] < starts[i + 1]
  }

  // ----- what neighbouring chunks share -----

  /** A boundary in a later window that the earlier window did not reach lies beyond it: windows never end earlier. */
  lemma EndsGrow(runes: seq<Rune>, o: Options, start: nat, rawEnd: nat, next: nat, end: nat)
    requires WindowEnd(runes, start, o, rawEnd) && WindowEnd(runes, next, o, end)
    requires start <= next <= rawEnd < |runes|
    ensures rawEnd <= end
  {
    if next + o.maxRunes < |runes| {
      var kind :| 0 <= kind <= CLASSES && BestOfClass(runes, start + o.minRunes, start + o.maxRunes, rawEnd, kind);
      var later :| 0 <= later <= CLASSES && BestOfClass(runes, next + o.minRunes, next + o.maxRunes, end, later);
      if end < rawEnd {
        EarlierBoundary(runes, o, start, rawEnd, kind, next, end, later);
      }
    }
  }

  lemma EarlierBoundary(runes: seq<Rune>, o: Options, start: nat, rawEnd: nat, kind: nat, next: nat, end: nat, later: nat)
    requires 0 <= o.minRunes <= o.maxRunes && start <= next && next + o.maxRunes < |runes|
    requires start + o.minRunes <= rawEnd <= start + o.maxRunes && next + o.minRunes <= end <= next + o.maxRunes
    requires kind <= CLASSES && BestOfClass(runes, start + o.minRunes, start + o.maxRunes, rawEnd, kind)
    requires later <= CLASSES && BestOfClass(runes, next + o.minRunes, next + o.maxRunes, end, later)
    ensures rawEnd <= end
  {
    assert later < kind ==> NoBoundary(later, runes, start + o.minRunes, start + o.maxRunes);
    assert kind < later ==> NoBoundary(kind, runes, next + o.minRunes, next + o.maxRunes);
    assert later < CLASSES ==> BoundaryAt(later, runes, end) && NoBoundary(later, runes, end + 1, next + o.maxRunes);
    assert kind < CLASSES ==> BoundaryAt(kind, runes, rawEnd);
  }

  predicate InChunk(c: Chunk, i: nat) {
    c.start <= i < c.end
  }

  /** Two neighbouring chunks both contain rune `i`. */
  ghost predicate Shared(chunks: seq<Chunk>, i: nat) {
    exists j :: 0 <= j < |chunks| - 1 && InChunk(chunks[j], i) && InChunk(chunks[j + 1], i)
  }

  lemma SharedMore(chunks: seq<Chunk>, c: Chunk, i: nat)
    ensures Shared(chunks, i) ==> Shared(chunks + [c], i)
    ensures chunks != [] && InChunk(chunks[|chunks| - 1], i) && InChunk(c, i) ==> Shared(chunks + [c], i)
  {
    var more := chunks + [c];
    if Shared(chunks, i) {
      var j :| 0 <= j < |chunks| - 1 && InChunk(chunks[j], i) && InChunk(chunks[j + 1], i);
      assert InChunk(more[j], i) && InChunk(more[j + 1], i);
    }
    if chunks != [] && InChunk(chunks[|chunks| - 1], i) && InChunk(c, i) {
      var j := |chunks| - 1;
      assert InChunk(more[j], i) && InChunk(more[j + 1], i);
    }
  }

  /** What a window longer than the overlap shares with the next: every visible rune of its last `overlapRunes`. */
  ghost predicate Overlaps(runes: seq<Rune>, o: Options, chunks: seq<Chunk>, round: Round) {
    round.end - o.overlapRunes > round.start ==>
      forall i :: round.end - o.overlapRunes <= i < round.end && i < |runes| && !IsSpace(runes[i]) ==> Shared(chunks, i)
  }

  lemma OverlapMore(runes: seq<Rune>, o: Options, chunks: seq<Chunk>, c: Chunk, round: Round)
    requires Overlaps(runes, o, chunks, round)
    ensures Overlaps(runes, o, chunks + [c], round)
  {
    forall i | Shared(chunks, i) ensures Shared(chunks + [c], i) {
      SharedMore(chunks, c, i);
    }
  }

  // ----- the rounds of the loop -----

  datatype Round = Round(start: nat, end: nat)

  /** The round's window is followed by a round that starts at `next`. */
  ghost predicate Follows(runes: seq<Rune>, o: Options, round: Round, next: nat) {
    && WindowEnd(runes, round.start, o, round.end) && round.start < next <= round.end < |runes|
    && next == SkipBlanks(runes, NextStart(round.start, round.end, o), round.end)
    && (round.end - o.overlapRunes > round.start ==> BlankBetween(runes, round.end - o.overlapRunes, next))
  }

  /** Each round follows the one before, from the start of the text. */
  ghost predicate Linked(runes: seq<Rune>, o: Options, rounds: seq<Round>) {
    && (rounds != [] ==> rounds[0].start == 0)
    && forall k, m :: 0 <= k && m == k + 1 && m < |rounds| ==> Follows(runes, o, rounds[k], rounds[m].start)
  }

  ghost predicate AllOverlap(runes: seq<Rune>, o: Options, chunks: seq<Chunk>, rounds: seq<Round>) {
    forall k :: 0 <= k < |rounds| - 1 ==> Overlaps(runes, o, chunks, rounds[k])
  }

  /** All rounds of the loop, up to the end of the text, and what each shares with the next. */
  ghost predicate Rounds(runes: seq<Rune>, o: Options, chunks: seq<Chunk>, rounds: seq<Round>) {
    && Linked(runes, o, rounds) && AllOverlap(runes, o, chunks, rounds)
    && (|runes| > 0 ==> rounds != [] && rounds[|rounds| - 1].end == |runes|
                        && WindowEnd(runes, rounds[|rounds| - 1].start, o, |runes|))
  }

  /** The rounds so far, when the next one starts at `start`. */
  ghost predicate RoundsOk(runes: seq<Rune>, o: Options, chunks: seq<Chunk>, rounds: seq<Round>, start: nat) {
    && Linked(runes, o, rounds) && AllOverlap(runes, o, chunks, rounds)
    && (rounds == [] ==> start == 0)
    && (rounds != [] ==> Follows(runes, o, rounds[|rounds| - 1], start) && LastHolds(runes, chunks, rounds[|rounds| - 1]))
  }

  /** The last chunk holds every visible rune of the round's window. */
  ghost predicate LastHolds(runes: seq<Rune>, chunks: seq<Chunk>, round: Round) {
    forall i :: round.start <= i < round.end && i < |runes| && !IsSpace(runes[i]) ==>
      chunks != [] && InChunk(chunks[|chunks| - 1], i)
  }

  /** What a round did to the chunks: nothing, or it appended one that holds its window's visible runes. */
  ghost predicate RoundAdds(runes: seq<Rune>, chunks: seq<Chunk>, more: seq<Chunk>, round: Round) {
    && LastHolds(runes, more, round)
    && ((more == chunks && BlankBetween(runes, round.start, round.end)) || exists c :: more == chunks + [c])
  }

  /** The next round's chunk takes the shared runes of the round before. */
  lemma NextShares(runes: seq<Rune>, o: Options, chunks: seq<Chunk>, c: Chunk, round: Round, next: Round)
    requires 0 <= o.overlapRunes && Follows(runes, o, round, next.start) && WindowEnd(runes, next.start, o, next.end)
    requires LastHolds(runes, chunks, round) && LastHolds(runes, chunks + [c], next)
    ensures Overlaps(runes, o, chunks + [c], round)
  {
    EndsGrow(runes, o, round.start, round.end, next.start, next.end);
    if round.end - o.overlapRunes > round.start {
      forall i | round.end - o.overlapRunes <= i < round.end && i < |runes| && !IsSpace(runes[i])
        ensures Shared(chunks + [c], i)
      {
        assert i >= next.start;
        SharedMore(chunks, c, i);
      }
    }
  }

  /** Without a visible rune in the next window there is nothing to share. */
  lemma NothingToShare(runes: seq<Rune>, o: Options, chunks: seq<Chunk>, round: Round, next: Round)
    requires 0 <= o.overlapRunes && Follows(runes, o, round, next.start) && WindowEnd(runes, next.start, o, next.end)
    requires BlankBetween(runes, next.start, next.end)
    ensures Overlaps(runes, o, chunks, round)
  {
    EndsGrow(runes, o, round.start, round.end, next.start, next.end);
  }

  /** After a round, the rounds before it overlap. */
  lemma RoundOverlaps(runes: seq<Rune>, o: Options, chunks: seq<Chunk>, more: seq<Chunk>, rounds: seq<Round>, round: Round)
    requires 0 <= o.overlapRunes && RoundsOk(runes, o, chunks, rounds, round.start)
    requires WindowEnd(runes, round.start, o, round.end) && RoundAdds(runes, chunks, more, round)
    ensures forall k :: 0 <= k < |rounds| ==> Overlaps(runes, o, more, rounds[k])
  {
    forall k | 0 <= k < |rounds| ensures Overlaps(runes, o, more, rounds[k]) {
      if more == chunks && BlankBetween(runes, round.start, round.end) {
        if k == |rounds| - 1 {
          NothingToShare(runes, o, chunks, rounds[k], round);
        }
      } else {
        var c :| more == chunks + [c];
        if k == |rounds| - 1 {
          NextShares(runes, o, chunks, c, rounds[k], round);
        } else {
          OverlapMore(runes, o, chunks, c, rounds[k]);
        }
      }
    }
  }

  lemma RoundLinked(runes: seq<Rune>, o: Options, rounds: seq<Round>, round: Round)
    requires Linked(runes, o, rounds)
    requires if rounds == [] then round.start == 0 else Follows(runes, o, rounds[|rounds| - 1], round.start)
    ensures Linked(runes, o, rounds + [round])
  {
  }

  lemma LastRound(runes: seq<Rune>, o: Options, chunks: seq<Chunk>, more: seq<Chunk>, rounds: seq<Round>, round: Round)
    requires 0 <= o.overlapRunes && RoundsOk(runes, o, chunks, rounds, round.start) && round.end == |runes|
    requires WindowEnd(runes, round.start, o, round.end) && RoundAdds(runes, chunks, more, round)
    ensures Rounds(runes, o, more, rounds + [round])
  {
    RoundOverlaps(runes, o, chunks, more, rounds, round);
    RoundLinked(runes, o, rounds, round);
  }

  lemma NextRound(runes: seq<Rune>, o: Options, chunks: seq<Chunk>, more: seq<Chunk>, rounds: seq<Round>, round: Round, next: nat)
    requires 0 <= o.overlapRunes && RoundsOk(runes, o, chunks, rounds, round.start)
    requires RoundAdds(runes, chunks, more, round) && Follows(runes, o, round, next)
    ensures RoundsOk(runes, o, more, rounds + [round], next)
  {
    RoundOverlaps(runes, o, chunks, more, rounds, round);
    RoundLinked(runes, o, rounds, round);
  }

  lemma ChunkAdds(runes: seq<Rune>, o: Options, chunks: seq<Chunk>, round: Round, s: nat, e: nat, next: nat)
    requires RoundOk(runes, o, round.start, round.end, s, e, next) && s < e
    ensures RoundAdds(runes, chunks, chunks + [Chunk(runes[s..e], |chunks|, s, e)], round)
  {
  }

  lemma BlankAdds(runes: seq<Rune>, o: Options, chunks: seq<Chunk>, round: Round, s: nat, next: nat)
    requires RoundOk(runes, o, round.start, round.end, s, s, next)
    ensures RoundAdds(runes, chunks, chunks, round)
  {
  }

  /** The body of one round: the trimmed window, unless it is blank, becomes the next chunk. */
  method TakeChunk(runes: seq<Rune>, o: Options, chunks: seq<Chunk>, start: nat, rawEnd: nat, next: nat) returns (more: seq<Chunk>)
    requires start < rawEnd <= |runes| && rawEnd <= start + o.maxRunes && start < next <= rawEnd && rawEnd - next <= o.overlapRunes
    requires Progress(runes, o, chunks, start)
    ensures Progress(runes, o, more, next) && CoversBefore(runes, more, rawEnd)
    ensures RoundAdds(runes, chunks, more, Round(start, rawEnd))
  {
    var s, e := TrimRuneRange(runes, start, rawEnd);
    if s < e {
      ChunkRound(runes, o, chunks, start, rawEnd, s, e, next);
      ChunkAdds(runes, o, chunks, Round(start, rawEnd), s, e, next);
      more := chunks + [Chunk(runes[s..e], |chunks|, s, e)];
    } else {
      BlankRound(runes, o, chunks, start, rawEnd, s, next);
      BlankAdds(runes, o, chunks, Round(start, rawEnd), s, next);
      more := chunks;
    }
  }

  /**
   The chunks of a text: each equals the text at its recorded offsets and is no longer than allowed, every
   visible rune is in one of them, and neighbours overlap by at most the normalized overlap. Each window that is longer
   than the overlap and has a successor shares with it every visible rune of its last `overlapRunes`. The condition is
   exact: see `AdvancesExactly`.
   */
  method ChunkMarkdown(runes: seq<Rune>, options: Options) returns (chunks: seq<Chunk>, ghost rounds: seq<Round>)
    requires options.maxRunes != 1 || forall k: nat :: !Weakens(runes, k)
    ensures forall j :: 0 <= j < |chunks| ==> ExactChunk(runes, Normalized(options), chunks[j])
    ensures CoversBefore(runes, chunks, |runes|)
    ensures Ordered(chunks, Normalized(options))
    ensures Rounds(runes, Normalized(options), chunks, rounds)
  {
    var o := Normalized(options);
    NormalizedSplittable(runes, options);
    chunks, rounds := [], [];
    var start := 0;
    while start < |runes|
      invariant Progress(runes, o, chunks, start) && RoundsOk(runes, o, chunks, rounds, start)
      invariant start < |runes| || (|runes| == 0 && rounds == [])
      decreases |runes| - start
    {
      var rawEnd := ChooseChunkEnd(runes, start, o);
      var next := rawEnd;
      if rawEnd < |runes| {
        next := NextChunkStart(runes, start, rawEnd, o);
      }
      var more := TakeChunk(runes, o, chunks, start, rawEnd, next);
      if rawEnd >= |runes| {
        LastRound(runes, o, chunks, more, rounds, Round(start, rawEnd));
        return more, rounds + [Round(start, rawEnd)];
      }
      NextRound(runes, o, chunks, more, rounds, Round(start, rawEnd), next);
      chunks, rounds, start := more, rounds + [Round(start, rawEnd)], next;
    }
  }

  /** The starts of these rounds are starts of the loop, and increase. */
  lemma RoundsStart(runes: seq<Rune>, o: Options, chunks: seq<Chunk>, rounds: seq<Round>)
    requires Rounds(runes, o, chunks, rounds) && rounds != []
    ensures var starts := seq(|rounds|, k requires 0 <= k < |rounds| => rounds[k].start);
            Starts(runes, o, starts) && Increasing(starts)
  {
    var starts := seq(|rounds|, k requires 0 <= k < |rounds| => rounds[k].start);
    forall i | 0 <= i < |starts| - 1 ensures FollowedBy(runes, o, starts[i], starts[i + 1]) && starts[i] < starts[i + 1] {
      assert Follows(runes, o, rounds[i], rounds[i + 1].start);
    }
  }

  // ----- when the loop makes progress -----

  lemma NormalizedSplittable(runes: seq<Rune>, options: Options)
    ensures Splittable(runes, Normalized(options)) <==> options.maxRunes != 1 || forall k: nat :: !Weakens(runes, k)
  {
    if options.maxRunes != 1 {
      NormalizedUsable(options);
    }
  }

  lemma FollowerIsLater(runes: seq<Rune>, o: Options, start: nat, next: nat)
    requires Splittable(runes, o) && FollowedBy(runes, o, start, next)
    ensures start < next
  {
    var rawEnd: nat :| rawEnd < |runes| && WindowEnd(runes, start, o, rawEnd)
                       && next == SkipBlanks(runes, NextStart(start, rawEnd, o), rawEnd);
    WindowAdvances(runes, start, o, rawEnd);
  }

  /** The best class that ends at `k`, or none. */
  ghost predicate BestKind(runes: seq<Rune>, k: nat, kind: nat)
    requires k <= |runes|
  {
    && kind <= CLASSES && (kind < CLASSES ==> BoundaryAt(kind, runes, k))
    && forall better :: 0 <= better < kind ==> !BoundaryAt(better, runes, k)
  }

  lemma FindKind(runes: seq<Rune>, k: nat) returns (kind: nat)
    requires k <= |runes|
    ensures BestKind(runes, k, kind)
  {
    kind := if BoundaryAt(0, runes, k) then 0 else if BoundaryAt(1, runes, k) then 1
      else if BoundaryAt(2, runes, k) then 2 else if BoundaryAt(3, runes, k) then 3 else 4;
  }

  /** With a maximum of one rune a round advances by one rune, or not at all where the boundary weakens. */
  lemma OneRuneRound(runes: seq<Rune>, k: nat)
    requires k + 1 < |runes|
    ensures FollowedBy(runes, Options(1, 0, 0), k, if Weakens(runes, k) then k else k + 1)
  {
    var o := Options(1, 0, 0);
    var here := FindKind(runes, k);
    var there := FindKind(runes, k + 1);
    var end := if Weakens(runes, k) then k else k + 1;
    var kind := if Weakens(runes, k) then here else there;
    if Weakens(runes, k) {
      WeakerNext(runes, k, here, there);
    } else {
      StrongerNext(runes, k, here, there);
    }
    assert BestOfClass(runes, k, k + 1, end, kind);
    assert WindowEnd(runes, k, o, end);
    assert NextStart(k, end, o) == end && SkipBlanks(runes, end, end) == end;
  }

  lemma WeakerNext(runes: seq<Rune>, k: nat, here: nat, there: nat)
    requires Weakens(runes, k) && BestKind(runes, k, here) && BestKind(runes, k + 1, there)
    ensures here < there
  {
    var kind :| 0 <= kind < CLASSES && BoundaryAt(kind, runes, k) && NoneAsGood(runes, k + 1, kind);
    assert here <= kind;
  }

  lemma StrongerNext(runes: seq<Rune>, k: nat, here: nat, there: nat)
    requires k + 1 < |runes| && !Weakens(runes, k) && BestKind(runes, k, here) && BestKind(runes, k + 1, there)
    ensures there <= here
  {
    if here < there {
      assert false;
    }
  }

  /** Up to a weakening boundary the loop takes every rune as a start. */
  lemma {:induction false} StartsUpTo(runes: seq<Rune>, k: nat) returns (starts: seq<nat>)
    requires k < |runes| && forall j :: 0 <= j < k ==> !Weakens(runes, j)
    ensures Starts(runes, Options(1, 0, 0), starts) && starts[|starts| - 1] == k
  {
    starts := [0];
    if k > 0 {
      starts := StartsUpTo(runes, k - 1);
      OneRuneRound(runes, k - 1);
      starts := starts + [k];
    }
  }

  lemma {:induction false} FirstWeakening(runes: seq<Rune>, k: nat) returns (first: nat)
    requires Weakens(runes, k)
    ensures Weakens(runes, first) && forall j :: 0 <= j < first ==> !Weakens(runes, j)
  {
    if j: nat :| j < k && Weakens(runes, j) {
      first := FirstWeakening(runes, j);
    } else {
      first := k;
    }
  }

  /** No round of the loop on this text starts where the round before it did, or earlier. */
  ghost predicate AlwaysAdvances(runes: seq<Rune>, o: Options) {
    forall starts :: Starts(runes, o, starts) ==> Increasing(starts)
  }

  /**
   The loop advances in every round, and so ends, if and only if chunks may hold more than one rune or no boundary
   of the text weakens.
   */
  lemma AdvancesExactly(runes: seq<Rune>, options: Options)
    ensures AlwaysAdvances(runes, Normalized(options))
            <==> options.maxRunes != 1 || forall k: nat :: !Weakens(runes, k)
  {
    var o := Normalized(options);
    NormalizedSplittable(runes, options);
    if Splittable(runes, o) {
      forall starts | Starts(runes, o, starts) ensures Increasing(starts) {
        forall i | 0 <= i < |starts| - 1 ensures starts[i] < starts[i + 1] {
          FollowerIsLater(runes, o, starts[i], starts[i + 1]);
        }
      }
    } else {
      var k: nat :| Weakens(runes, k);
      var first := FirstWeakening(runes, k);
      var starts := StartsUpTo(runes, first);
      OneRuneRound(runes, first);
      var stuck := starts + [first];
      assert Starts(runes, o, stuck) && stuck[|starts| - 1] == stuck[|starts| - 1 + 1];
    }
  }

  /** For instance a maximum of one rune never gets past the blank line of this text. */
  lemma BlankLineStalls()
    ensures !AlwaysAdvances([NEWLINE, NEWLINE, 0x61, 0x62], Normalized(Options(1, 0, 0)))
  {
    var runes := [NEWLINE, NEWLINE, 0x61, 0x62];
    assert BoundaryAt(0, runes, 2);
    assert Weakens(runes, 2);
    AdvancesExactly(runes, Options(1, 0, 0));
  }
}
