/** Rendering an expression plan: the plain text with whitelisted tags inserted at the planned places. */
module VoicePlan {
  import opened Options
  import opened VoiceText

  const MAX_TEXT := 12000
  const MAX_EMPHASIS := 8
  const MAX_CUES := 12
  const MAX_ANCHOR := 80

  /** Names outside the fixed vocabulary are kept as they came. */
  datatype Emotion = Neutral | Warm | Calm | Friendly | Empathetic | Confident | Cheerful | Excited | Serious | Sad
    | OtherEmotion(name: string)

  datatype Delivery = Natural | Gentle | Conversational | Narrative | Professional | Energetic | OtherDelivery(name: string)

  datatype Volume = DefaultVolume | Soft | NormalVolume | Loud | OtherVolume(name: string)

  datatype Pace = DefaultPace | Slow | NormalPace | Fast | OtherPace(name: string)

  datatype CueKind = ShortPause | LongPause | Laugh | Sigh | Gasp | Inhale | Exhale | OtherKind(name: string)

  datatype Position = After | BeforeAnchor | AtStart | AtEnd | OtherPosition(name: string)

  datatype Emphasis = Emphasis(phrase: string, occurrence: int)

  datatype Cue = Cue(kind: CueKind, position: Position, anchor: string, occurrence: int)

  datatype Plan = Plan(text: string, emotion: Emotion, delivery: Delivery, volume: Volume, pace: Pace,
                       emphasis: seq<Emphasis>, cues: seq<Cue>)

  datatype Error = EmptyText | TextTooLong | TooManyEmphasis | TooManyCues | Unsupported | BadAnchor | BadOccurrence | NotFound

  datatype Result<T> = Ok(value: T) | Err(error: Error)

  datatype Rendered = Rendered(plainText: string, fishText: string)

  function EmotionTag(e: Emotion): string {
    match e
    case Neutral => ""
    case Warm => "warm"
    case Calm => "calm"
    case Friendly => "friendly"
    case Empathetic => "empathetic"
    case Confident => "confident"
    case Cheerful => "cheerful"
    case Excited => "excited"
    case Serious => "serious"
    case Sad => "sad"
    case OtherEmotion(_) => ""
  }

  function DeliveryTag(d: Delivery): string {
    match d
    case Natural => ""
    case Gentle => "gentle"
    case Conversational => "conversational"
    case Narrative => "narrative"
    case Professional => "professional"
    case Energetic => "energetic"
    case OtherDelivery(_) => ""
  }

  function VolumeTag(v: Volume): string {
    match v
    case Soft => "speak softly"
    case Loud => "speak loudly"
    case _ => ""
  }

  function PaceTag(p: Pace): string {
    match p
    case Slow => "speak slowly"
    case Fast => "speak quickly"
    case _ => ""
  }

  function CueTag(kind: CueKind): string {
    match kind
    case ShortPause => "pause"
    case LongPause => "long pause"
    case Laugh => "laugh"
    case Sigh => "sigh"
    case Gasp => "gasp"
    case Inhale => "inhale"
    case Exhale => "exhale"
    case OtherKind(_) => ""
  }

  const EMPHASIS := "emphasis"

  // ----- finding anchors -----

  predicate OccursAt(text: string, phrase: string, k: nat) {
    k + |phrase| <= |text| && forall i :: 0 <= i < |phrase| ==> phrase[i] == text[k + i]
  }

  /** The first occurrence at or after `from`; the length of the text plus one if there is none. */
  function FirstFrom(text: string, phrase: string, from: nat): (k: nat)
    requires from <= |text|
    ensures from <= k <= |text| + 1
    ensures k <= |text| ==> k + |phrase| <= |text|
    decreases |text| - from
  {
    if OccursAt(text, phrase, from) then from
    else if from == |text| then |text| + 1
    else FirstFrom(text, phrase, from + 1)
  }

  /** The `n`-th occurrence, counting from the left without overlaps. */
  function Occurrence(text: string, phrase: string, from: nat, n: nat): (r: Option<nat>)
    requires from <= |text|
    ensures r.Some? ==> from <= r.value && r.value + |phrase| <= |text|
    decreases n
  {
    var k := FirstFrom(text, phrase, from);
    if k > |text| then None else if n == 0 then Some(k) else Occurrence(text, phrase, k + |phrase|, n - 1)
  }

  lemma {:induction false} FirstFromIsFirst(text: string, phrase: string, from: nat)
    requires from <= |text|
    ensures var k := FirstFrom(text, phrase, from);
            && (k <= |text| ==> OccursAt(text, phrase, k))
            && forall j :: from <= j < k && j <= |text| ==> !OccursAt(text, phrase, j)
    decreases |text| - from
  {
    if !OccursAt(text, phrase, from) && from < |text| {
      FirstFromIsFirst(text, phrase, from + 1);
    }
  }

  lemma {:induction false} OccurrenceOccurs(text: string, phrase: string, from: nat, n: nat)
    requires from <= |text| && Occurrence(text, phrase, from, n).Some?
    ensures OccursAt(text, phrase, Occurrence(text, phrase, from, n).value)
    decreases n
  {
    FirstFromIsFirst(text, phrase, from);
    if n > 0 {
      OccurrenceOccurs(text, phrase, FirstFrom(text, phrase, from) + |phrase|, n - 1);
    }
  }

  /** The first step of the search decides it, or leaves the rest of the text. */
  lemma NextOccurrence(text: string, phrase: string, from: nat, n: nat, k: nat)
    requires from <= |text| && k == FirstFrom(text, phrase, from)
    ensures k > |text| ==> Occurrence(text, phrase, from, n) == None
    ensures k <= |text| && n == 0 ==> Occurrence(text, phrase, from, n) == Some(k)
    ensures k <= |text| && n > 0 ==> Occurrence(text, phrase, from, n) == Occurrence(text, phrase, k + |phrase|, n - 1)
  {
  }

  method OccurrenceIndex(text: string, phrase: string, occurrence: nat) returns (index: nat, ok: bool)
    ensures ok <==> Occurrence(text, phrase, 0, occurrence).Some?
    ensures ok ==> index == Occurrence(text, phrase, 0, occurrence).value && OccursAt(text, phrase, index)
  {
    ghost var goal := Occurrence(text, phrase, 0, occurrence);
    ghost var left: nat := occurrence;
    var start: nat := 0;
    var current := 0;
    while true
      invariant current + left == occurrence && start <= |text|
      invariant Occurrence(text, phrase, start, left) == goal
      decreases left
    {
      index := FirstFrom(text, phrase, start);
      NextOccurrence(text, phrase, start, left, index);
      if index > |text| {
        return 0, false;
      }
      if current == occurrence {
        OccurrenceOccurs(text, phrase, 0, occurrence);
        return index, true;
      }
      start := index + |phrase|;
      current := current + 1;
      left := left - 1;
    }
  }

  // ----- insertions -----

  /** `tag` with brackets: before a place with a trailing space, or after it with a leading one. */
  datatype Insertion = Insertion(index: nat, priority: nat, order: nat, tag: string, leading: bool)

  function ValueOf(item: Insertion): string {
    if item.leading then [SPACE] + [OPEN] + item.tag + [CLOSE] else [OPEN] + item.tag + [CLOSE] + [SPACE]
  }

  function Anchor(raw: string): Result<string> {
    var anchor := Sanitize(raw);
    if anchor == "" || |anchor| > MAX_ANCHOR then Err(BadAnchor) else Ok(anchor)
  }

  function EmphasisInsertion(text: string, e: Emphasis, order: nat): Result<Insertion> {
    var phrase := Anchor(e.phrase);
    if phrase.Err? then Err(phrase.error)
    else if e.occurrence < 0 then Err(BadOccurrence)
    else
      var at := Occurrence(text, phrase.value, 0, e.occurrence);
      if at.None? then Err(NotFound) else Ok(Insertion(at.value, 1, order, EMPHASIS, false))
  }

  /** A cue right after (with a leading space) or right before an occurrence of its anchor. */
  function AnchoredInsertion(text: string, cue: Cue, order: nat, after: bool): Result<Insertion>
    requires cue.occurrence >= 0
  {
    var anchor := Anchor(cue.anchor);
    if anchor.Err? then Err(anchor.error)
    else
      var at := Occurrence(text, anchor.value, 0, cue.occurrence);
      if at.None? then Err(NotFound)
      else if after then Ok(Insertion(at.value + |anchor.value|, 2, order, CueTag(cue.kind), true))
      else Ok(Insertion(at.value, 0, order, CueTag(cue.kind), false))
  }

  /** Cues at either end of the text take no anchor. */
  function CueInsertion(text: string, cue: Cue, order: nat): Result<Insertion> {
    if cue.kind.OtherKind? then Err(Unsupported)
    else if cue.occurrence < 0 then Err(BadOccurrence)
    else match cue.position
      case After => AnchoredInsertion(text, cue, order, true)
      case BeforeAnchor => AnchoredInsertion(text, cue, order, false)
      case AtStart => if Words(cue.anchor) != [] then Err(BadAnchor) else Ok(Insertion(0, 0, order, CueTag(cue.kind), false))
      case AtEnd => if Words(cue.anchor) != [] then Err(BadAnchor) else Ok(Insertion(|text|, 2, order, CueTag(cue.kind), true))
      case OtherPosition(_) => Err(Unsupported)
  }

  /** Directive `n` of the plan: emphasis first, then cues. */
  function Directive(text: string, plan: Plan, n: nat): Result<Insertion>
    requires n < |plan.emphasis| + |plan.cues|
  {
    if n < |plan.emphasis| then EmphasisInsertion(text, plan.emphasis[n], n)
    else CueInsertion(text, plan.cues[n - |plan.emphasis|], n)
  }

  /** The first `n` insertions, or the error of the first directive that has one. */
  function Insertions(text: string, plan: Plan, n: nat): (r: Result<seq<Insertion>>)
    requires n <= |plan.emphasis| + |plan.cues|
    ensures r.Ok? ==> |r.value| == n
  {
    if n == 0 then Ok([])
    else
      var before := Insertions(text, plan, n - 1);
      if before.Err? then before
      else
        var last := Directive(text, plan, n - 1);
        if last.Err? then Err(last.error) else Ok(before.value + [last.value])
  }

  /** Insertion `i` is what directive `i` asks for. */
  lemma {:induction false} InsertionAt(text: string, plan: Plan, n: nat, i: nat)
    requires i < n <= |plan.emphasis| + |plan.cues| && Insertions(text, plan, n).Ok?
    ensures Directive(text, plan, i) == Ok(Insertions(text, plan, n).value[i])
  {
    if i < n - 1 {
      InsertionAt(text, plan, n - 1, i);
    }
  }

  /** An error stays the verdict however many directives follow. */
  lemma {:induction false} FirstErrorStays(text: string, plan: Plan, m: nat, n: nat)
    requires m <= n <= |plan.emphasis| + |plan.cues| && Insertions(text, plan, m).Err?
    ensures Insertions(text, plan, n) == Insertions(text, plan, m)
  {
    if m < n {
      FirstErrorStays(text, plan, m, n - 1);
    }
  }

  /** The list so far is what the first directives ask for. */
  ghost predicate Collected(text: string, plan: Plan, items: seq<Insertion>) {
    && |items| <= |plan.emphasis| + |plan.cues|
    && forall i :: 0 <= i < |items| ==> Directive(text, plan, i) == Ok(items[i])
  }

  lemma {:induction false} CollectedAll(text: string, plan: Plan, items: seq<Insertion>)
    requires Collected(text, plan, items)
    ensures Insertions(text, plan, |items|) == Ok(items)
  {
    if items != [] {
      var n := |items| - 1;
      CollectedAll(text, plan, items[..n]);
      assert Directive(text, plan, n) == Ok(items[n]);
      assert items[..n] + [items[n]] == items;
    }
  }

  lemma {:induction false} CollectedMore(text: string, plan: Plan, items: seq<Insertion>, next: Result<Insertion>)
    requires Collected(text, plan, items) && |items| < |plan.emphasis| + |plan.cues|
    requires next == Directive(text, plan, |items|)
    ensures next.Ok? ==> Collected(text, plan, items + [next.value])
    ensures next.Err? ==> Insertions(text, plan, |plan.emphasis| + |plan.cues|) == Err(next.error)
  {
    if next.Err? {
      CollectedAll(text, plan, items);
      FirstErrorStays(text, plan, |items| + 1, |plan.emphasis| + |plan.cues|);
    }
  }

  method MakeInsertions(text: string, plan: Plan) returns (r: Result<seq<Insertion>>)
    ensures r == Insertions(text, plan, |plan.emphasis| + |plan.cues|)
  {
    var insertions := [];
    for i := 0 to |plan.emphasis|
      invariant Collected(text, plan, insertions) && |insertions| == i
    {
      var next := EmphasisInsertion(text, plan.emphasis[i], i);
      CollectedMore(text, plan, insertions, next);
      if next.Err? {
        return Err(next.error);
      }
      insertions := insertions + [next.value];
    }
    for i := 0 to |plan.cues|
      invariant Collected(text, plan, insertions) && |insertions| == |plan.emphasis| + i
    {
      var next := CueInsertion(text, plan.cues[i], |plan.emphasis| + i);
      CollectedMore(text, plan, insertions, next);
      if next.Err? {
        return Err(next.error);
      }
      insertions := insertions + [next.value];
    }
    CollectedAll(text, plan, insertions);
    return Ok(insertions);
  }

  // ----- applying them -----

  /** By place, then priority, then order of appearance. */
  predicate Precedes(a: Insertion, b: Insertion) {
    a.index < b.index
    || (a.index == b.index && (a.priority < b.priority || (a.priority == b.priority && a.order <= b.order)))
  }

  predicate Sorted(items: seq<Insertion>) {
    forall i, j :: 0 <= i < j < |items| ==> Precedes(items[i], items[j])
  }

  function Insert(items: seq<Insertion>, item: Insertion): seq<Insertion> {
    if items == [] then [item]
    else if Precedes(items[|items| - 1], item) then items + [item]
    else Insert(items[..|items| - 1], item) + [items[|items| - 1]]
  }

  function Sort(items: seq<Insertion>): seq<Insertion> {
    if items == [] then [] else Insert(Sort(items[..|items| - 1]), items[|items| - 1])
  }

  lemma {:induction false} InsertMembers(items: seq<Insertion>, item: Insertion, x: Insertion)
    ensures x in Insert(items, item) <==> x in items || x == item
  {
    if items != [] && !Precedes(items[|items| - 1], item) {
      InsertMembers(items[..|items| - 1], item, x);
      assert items == items[..|items| - 1] + [items[|items| - 1]];
    }
  }

  lemma {:induction false} InsertSorts(items: seq<Insertion>, item: Insertion)
    requires Sorted(items)
    ensures Sorted(Insert(items, item))
  {
    if items != [] && !Precedes(items[|items| - 1], item) {
      var before := items[..|items| - 1];
      InsertSorts(before, item);
      forall i | 0 <= i < |Insert(before, item)| ensures Precedes(Insert(before, item)[i], items[|items| - 1]) {
        InsertMembers(before, item, Insert(before, item)[i]);
      }
    }
  }

  lemma {:induction false} SortMembers(items: seq<Insertion>, x: Insertion)
    ensures x in Sort(items) <==> x in items
  {
    if items != [] {
      SortMembers(items[..|items| - 1], x);
      InsertMembers(Sort(items[..|items| - 1]), items[|items| - 1], x);
      assert items == items[..|items| - 1] + [items[|items| - 1]];
    }
  }

  lemma {:induction false} SortSorts(items: seq<Insertion>)
    ensures Sorted(Sort(items))
  {
    if items != [] {
      SortSorts(items[..|items| - 1]);
      InsertSorts(Sort(items[..|items| - 1]), items[|items| - 1]);
    }
  }

  predicate Placed(text: string, item: Insertion) {
    item.index <= |text| && TagWord(item.tag)
  }

  predicate InRange(items: seq<Insertion>, from: nat, text: string) {
    && from <= |text| && (forall i :: 0 <= i < |items| ==> from <= items[i].index <= |text|)
    && forall i, j :: 0 <= i < j < |items| ==> items[i].index <= items[j].index
  }

  /** The text from `from` on with the items' tags put in at their places. */
  function Weave(text: string, from: nat, items: seq<Insertion>): string
    requires InRange(items, from, text)
    decreases |items|
  {
    if items == [] then text[from..]
    else text[from..items[0].index] + ValueOf(items[0]) + Weave(text, items[0].index, items[1..])
  }

  /** The text with all insertions put in, in sorted order. */
  function Woven(text: string, items: seq<Insertion>): string
    requires forall i :: 0 <= i < |items| ==> Placed(text, items[i])
  {
    SortInRange(text, items);
    Weave(text, 0, Sort(items))
  }

  /** One step of the builder: the text up to the next item, and the item. */
  lemma WeaveStep(out: string, text: string, previous: nat, items: seq<Insertion>)
    requires items != [] && InRange(items, previous, text)
    ensures InRange(items[1..], items[0].index, text)
    ensures out + text[previous..items[0].index] + ValueOf(items[0]) + Weave(text, items[0].index, items[1..])
            == out + Weave(text, previous, items)
  {
    var piece := text[previous..items[0].index];
    var rest := Weave(text, items[0].index, items[1..]);
    assert out + piece + ValueOf(items[0]) + rest == out + (piece + ValueOf(items[0]) + rest);
  }

  method ApplyInsertions(text: string, insertions: seq<Insertion>) returns (out: string)
    requires forall i :: 0 <= i < |insertions| ==> Placed(text, insertions[i])
    ensures out == Woven(text, insertions)
  {
    SortInRange(text, insertions);
    if |insertions| == 0 {
      return text;
    }
    var items := Sort(insertions);
    out := "";
    var previous: nat := 0;
    ghost var whole := Weave(text, 0, items);
    assert items[0..] == items && "" + whole == whole;
    for i := 0 to |items|
      invariant previous <= |text| && InRange(items[i..], previous, text)
      invariant out + Weave(text, previous, items[i..]) == whole
    {
      assert items[i..][1..] == items[i + 1..] && items[i..][0] == items[i];
      WeaveStep(out, text, previous, items[i..]);
      out := out + text[previous..items[i].index];
      out := out + ValueOf(items[i]);
      previous := items[i].index;
    }
    out := out + text[previous..];
  }

  lemma SortInRange(text: string, items: seq<Insertion>)
    requires forall i :: 0 <= i < |items| ==> Placed(text, items[i])
    ensures InRange(Sort(items), 0, text)
  {
    SortSorts(items);
    forall i | 0 <= i < |Sort(items)| ensures Sort(items)[i].index <= |text| {
      SortMembers(items, Sort(items)[i]);
    }
  }

  // ----- rendering -----

  predicate Supported(plan: Plan) {
    !plan.emotion.OtherEmotion? && !plan.delivery.OtherDelivery? && !plan.volume.OtherVolume? && !plan.pace.OtherPace?
  }

  function Compile(plan: Plan): Result<string> {
    var text := Sanitize(plan.text);
    if text == "" then Err(EmptyText)
    else if |text| > MAX_TEXT then Err(TextTooLong)
    else if |plan.emphasis| > MAX_EMPHASIS then Err(TooManyEmphasis)
    else if |plan.cues| > MAX_CUES then Err(TooManyCues)
    else if !Supported(plan) then Err(Unsupported)
    else Ok(text)
  }

  function Listed(tag: string): seq<string> {
    if tag == "" then [] else [tag]
  }

  /** The tags of the whole utterance. */
  function StyleTags(plan: Plan): seq<string> {
    Listed(EmotionTag(plan.emotion)) + Listed(DeliveryTag(plan.delivery)) + Listed(VolumeTag(plan.volume)) + Listed(PaceTag(plan.pace))
  }

  /** Each tag in brackets, followed by a space. */
  function Prefix(tags: seq<string>): string {
    if tags == [] then "" else [OPEN] + tags[0] + [CLOSE] + [SPACE] + Prefix(tags[1..])
  }

  function TagsOf(items: seq<Insertion>): seq<string> {
    if items == [] then [] else [items[0].tag] + TagsOf(items[1..])
  }

  lemma CueTagIsWord(kind: CueKind)
    ensures TagWord(CueTag(kind))
  {
  }

  lemma DirectivePlaced(text: string, plan: Plan, n: nat)
    requires n < |plan.emphasis| + |plan.cues| && Directive(text, plan, n).Ok?
    ensures Placed(text, Directive(text, plan, n).value)
  {
    if n >= |plan.emphasis| {
      CueTagIsWord(plan.cues[n - |plan.emphasis|].kind);
    } else {
      assert TagWord(EMPHASIS);
    }
  }

  /** Every insertion lies in the text and carries a whitelisted tag. */
  lemma InsertionsPlaced(text: string, plan: Plan, items: seq<Insertion>)
    requires Insertions(text, plan, |plan.emphasis| + |plan.cues|) == Ok(items)
    ensures forall i :: 0 <= i < |items| ==> Placed(text, items[i])
  {
    forall i | 0 <= i < |items| ensures Placed(text, items[i]) {
      InsertionAt(text, plan, |items|, i);
      DirectivePlaced(text, plan, i);
    }
  }

  /** The insertions of a plan that compiles. */
  function Items(plan: Plan): Result<seq<Insertion>> {
    var text := Compile(plan);
    if text.Err? then Err(text.error) else Insertions(text.value, plan, |plan.emphasis| + |plan.cues|)
  }

  lemma ItemsPlaced(plan: Plan)
    requires Items(plan).Ok?
    ensures forall i :: 0 <= i < |Items(plan).value| ==> Placed(Sanitize(plan.text), Items(plan).value[i])
  {
    InsertionsPlaced(Sanitize(plan.text), plan, Items(plan).value);
  }

  /** What rendering yields: an error, or both texts. */
  function Rendering(plan: Plan): Result<Rendered> {
    var items := Items(plan);
    if items.Err? then Err(items.error)
    else
      ItemsPlaced(plan);
      Ok(Rendered(Sanitize(plan.text), Prefix(StyleTags(plan)) + Woven(Sanitize(plan.text), items.value)))
  }

  lemma RenderingIs(plan: Plan, text: string, items: seq<Insertion>)
    requires Compile(plan) == Ok(text) && Insertions(text, plan, |plan.emphasis| + |plan.cues|) == Ok(items)
    ensures forall i :: 0 <= i < |items| ==> Placed(text, items[i])
    ensures Rendering(plan) == Ok(Rendered(text, Prefix(StyleTags(plan)) + Woven(text, items)))
  {
    InsertionsPlaced(text, plan, items);
    assert Items(plan) == Ok(items);
  }

  lemma RenderingFails(plan: Plan, error: Error)
    requires Items(plan) == Err(error)
    ensures Rendering(plan) == Err(error)
  {
  }

  method Render(plan: Plan) returns (r: Result<Rendered>)
    ensures r == Rendering(plan)
  {
    var text := Compile(plan);
    if text.Err? {
      RenderingFails(plan, text.error);
      return Err(text.error);
    }
    var insertions := MakeInsertions(text.value, plan);
    if insertions.Err? {
      RenderingFails(plan, insertions.error);
      return Err(insertions.error);
    }
    RenderingIs(plan, text.value, insertions.value);
    var body := ApplyInsertions(text.value, insertions.value);
    return Ok(Rendered(text.value, Prefix(StyleTags(plan)) + body));
  }

  // ----- what the rendered text contains -----

  predicate AllTagWords(tags: seq<string>) {
    forall i :: 0 <= i < |tags| ==> TagWord(tags[i])
  }

  lemma TagThenSpace(tag: string, rest: string)
    requires TagWord(tag)
    ensures var text := [OPEN] + tag + [CLOSE] + [SPACE] + rest;
            Bracketed(text) == [tag] + Bracketed(rest) && NoSpaces(Strip(text)) == NoSpaces(Strip(rest))
  {
    assert [OPEN] + tag + [CLOSE] + [SPACE] + rest == [OPEN] + tag + [CLOSE] + ([SPACE] + rest);
    StripTag(tag, [SPACE] + rest);
    StripPlainPrefix([SPACE], rest);
    NoSpacesConcat([SPACE], Strip(rest));
    assert NoSpaces([SPACE]) == "";
  }

  lemma SpaceThenTag(tag: string, rest: string)
    requires TagWord(tag)
    ensures var text := [SPACE] + [OPEN] + tag + [CLOSE] + rest;
            Bracketed(text) == [tag] + Bracketed(rest) && NoSpaces(Strip(text)) == NoSpaces(Strip(rest))
  {
    assert [SPACE] + [OPEN] + tag + [CLOSE] + rest == [SPACE] + ([OPEN] + tag + [CLOSE] + rest);
    StripPlainPrefix([SPACE], [OPEN] + tag + [CLOSE] + rest);
    StripTag(tag, rest);
    NoSpacesConcat([SPACE], Strip(rest));
    assert NoSpaces([SPACE]) == "";
  }

  lemma PrefixStep(tags: seq<string>, body: string)
    requires tags != []
    ensures Prefix(tags) + body == [OPEN] + tags[0] + [CLOSE] + [SPACE] + (Prefix(tags[1..]) + body)
  {
  }

  lemma {:induction false} PrefixTags(tags: seq<string>, body: string)
    requires AllTagWords(tags)
    ensures Bracketed(Prefix(tags) + body) == tags + Bracketed(body)
  {
    if tags == [] {
      EmptyPrefix(body);
      assert tags + Bracketed(body) == Bracketed(body);
    } else {
      var rest := Prefix(tags[1..]) + body;
      PrefixTags(tags[1..], body);
      PrefixStep(tags, body);
      TagThenSpace(tags[0], rest);
      Regroup(tags, Bracketed(body));
    }
  }

  lemma {:induction false} PrefixVanishes(tags: seq<string>, body: string)
    requires AllTagWords(tags)
    ensures NoSpaces(Strip(Prefix(tags) + body)) == NoSpaces(Strip(body))
  {
    if tags == [] {
      EmptyPrefix(body);
    } else {
      var rest := Prefix(tags[1..]) + body;
      PrefixVanishes(tags[1..], body);
      PrefixStep(tags, body);
      TagThenSpace(tags[0], rest);
    }
  }

  lemma EmptyPrefix(body: string)
    ensures Prefix([]) + body == body
  {
  }

  lemma Regroup(tags: seq<string>, others: seq<string>)
    requires tags != []
    ensures [tags[0]] + (tags[1..] + others) == tags + others
  {
  }

  /** One inserted tag reads as a tag and leaves nothing but a space. */
  lemma ValueReads(item: Insertion, rest: string)
    requires TagWord(item.tag)
    ensures Bracketed(ValueOf(item) + rest) == [item.tag] + Bracketed(rest)
    ensures NoSpaces(Strip(ValueOf(item) + rest)) == NoSpaces(Strip(rest))
  {
    if item.leading {
      SpaceThenTag(item.tag, rest);
    } else {
      TagThenSpace(item.tag, rest);
    }
  }

  /** A plain piece of text followed by one tag and the rest. */
  lemma PieceReads(piece: string, item: Insertion, rest: string)
    requires Plain(piece) && TagWord(item.tag)
    ensures Bracketed(piece + ValueOf(item) + rest) == [item.tag] + Bracketed(rest)
    ensures NoSpaces(Strip(piece + ValueOf(item) + rest)) == NoSpaces(piece) + NoSpaces(Strip(rest))
  {
    assert piece + ValueOf(item) + rest == piece + (ValueOf(item) + rest);
    StripPlainPrefix(piece, ValueOf(item) + rest);
    ValueReads(item, rest);
    NoSpacesConcat(piece, Strip(ValueOf(item) + rest));
  }

  lemma PlainReads(s: string)
    requires Plain(s)
    ensures Bracketed(s) == [] && Strip(s) == s
  {
    StripPlainPrefix(s, "");
    StripKeepsPlain(s);
    assert s + "" == s;
  }

  lemma {:induction false} WeaveReads(text: string, from: nat, items: seq<Insertion>)
    requires InRange(items, from, text) && Plain(text) && forall i :: 0 <= i < |items| ==> TagWord(items[i].tag)
    ensures Bracketed(Weave(text, from, items)) == TagsOf(items)
    ensures NoSpaces(Strip(Weave(text, from, items))) == NoSpaces(text[from..])
    decreases |items|
  {
    if items == [] {
      PlainReads(text[from..]);
    } else {
      var piece := text[from..items[0].index];
      var rest := Weave(text, items[0].index, items[1..]);
      WeaveReads(text, items[0].index, items[1..]);
      PieceReads(piece, items[0], rest);
      SuffixSplits(text, from, items[0].index);
    }
  }

  lemma SuffixSplits(text: string, from: nat, to: nat)
    requires from <= to <= |text|
    ensures NoSpaces(text[from..]) == NoSpaces(text[from..to]) + NoSpaces(text[to..])
  {
    assert text[from..] == text[from..to] + text[to..];
    NoSpacesConcat(text[from..to], text[to..]);
  }

  lemma {:induction false} TagsOfSplit(a: seq<Insertion>, b: seq<Insertion>)
    ensures TagsOf(a + b) == TagsOf(a) + TagsOf(b)
  {
    if a == [] {
      assert a + b == b;
    } else {
      TagsOfSplit(a[1..], b);
      assert (a + b)[1..] == a[1..] + b;
    }
  }

  lemma TagsOfLast(items: seq<Insertion>, last: Insertion)
    ensures multiset(TagsOf(items + [last])) == multiset(TagsOf(items)) + multiset{last.tag}
  {
    TagsOfSplit(items, [last]);
    assert TagsOf([last]) == [last.tag];
  }

  function CountTag(items: seq<Insertion>, tag: string): nat {
    if items == [] then 0 else CountTag(items[..|items| - 1], tag) + if items[|items| - 1].tag == tag then 1 else 0
  }

  lemma {:induction false} CountTagIsMultiplicity(items: seq<Insertion>, tag: string)
    ensures multiset(TagsOf(items))[tag] == CountTag(items, tag)
  {
    if items != [] {
      var before := items[..|items| - 1];
      CountTagIsMultiplicity(before, tag);
      TagsOfLast(before, items[|items| - 1]);
      assert items == before + [items[|items| - 1]];
    }
  }

  lemma {:induction false} InsertCount(items: seq<Insertion>, item: Insertion, tag: string)
    ensures CountTag(Insert(items, item), tag) == CountTag(items, tag) + if item.tag == tag then 1 else 0
  {
    if items != [] && !Precedes(items[|items| - 1], item) {
      InsertCount(items[..|items| - 1], item, tag);
      var head := Insert(items[..|items| - 1], item);
      assert (head + [items[|items| - 1]])[..|head|] == head;
    } else {
      assert items == [] ==> [item] == items + [item];
      assert (items + [item])[..|items|] == items;
    }
  }

  lemma {:induction false} SortCount(items: seq<Insertion>, tag: string)
    ensures CountTag(Sort(items), tag) == CountTag(items, tag)
  {
    if items != [] {
      SortCount(items[..|items| - 1], tag);
      InsertCount(Sort(items[..|items| - 1]), items[|items| - 1], tag);
    }
  }

  /** Sorting keeps every tag as often as it was. */
  lemma SortTags(items: seq<Insertion>)
    ensures multiset(TagsOf(Sort(items))) == multiset(TagsOf(items))
  {
    forall tag ensures multiset(TagsOf(Sort(items)))[tag] == multiset(TagsOf(items))[tag] {
      CountTagIsMultiplicity(Sort(items), tag);
      CountTagIsMultiplicity(items, tag);
      SortCount(items, tag);
    }
  }

  lemma ListedIsWord(tag: string)
    requires TagWord(tag)
    ensures AllTagWords(Listed(tag))
  {
  }

  lemma EmotionIsWord(e: Emotion)
    ensures TagWord(EmotionTag(e))
  {
  }

  lemma DeliveryIsWord(d: Delivery)
    ensures TagWord(DeliveryTag(d))
  {
  }

  lemma StyleTagsAreWords(plan: Plan)
    ensures AllTagWords(StyleTags(plan))
  {
    EmotionIsWord(plan.emotion);
    DeliveryIsWord(plan.delivery);
    ListedIsWord(EmotionTag(plan.emotion));
    ListedIsWord(DeliveryTag(plan.delivery));
    assert TagWord(VolumeTag(plan.volume));
    assert TagWord(PaceTag(plan.pace));
    ListedIsWord(VolumeTag(plan.volume));
    ListedIsWord(PaceTag(plan.pace));
  }

  /** The tags a plan asks for, in the order of its directives. */
  function Demanded(plan: Plan): seq<string>
    requires Items(plan).Ok?
  {
    StyleTags(plan) + TagsOf(Items(plan).value)
  }

  lemma SortedPlaced(text: string, items: seq<Insertion>)
    requires forall i :: 0 <= i < |items| ==> Placed(text, items[i])
    ensures forall i :: 0 <= i < |Sort(items)| ==> Placed(text, Sort(items)[i])
  {
    forall i | 0 <= i < |Sort(items)| ensures Placed(text, Sort(items)[i]) {
      SortMembers(items, Sort(items)[i]);
    }
  }

  /** A prefix of tags and a woven body, read back. */
  lemma BodyReads(text: string, tags: seq<string>, items: seq<Insertion>)
    requires Plain(text) && AllTagWords(tags) && forall i :: 0 <= i < |items| ==> Placed(text, items[i])
    ensures multiset(Bracketed(Prefix(tags) + Woven(text, items))) == multiset(tags + TagsOf(items))
    ensures NoSpaces(Sanitize(Prefix(tags) + Woven(text, items))) == NoSpaces(text)
  {
    SortInRange(text, items);
    SortedPlaced(text, items);
    var body := Weave(text, 0, Sort(items));
    WeaveReads(text, 0, Sort(items));
    assert text[0..] == text;
    PrefixTags(tags, body);
    PrefixVanishes(tags, body);
    SortTags(items);
    NormalizingKeepsText(Strip(Prefix(tags) + body));
  }

  /**
   The bracketed sequences of a rendered text are exactly the whitelisted tags the plan asks for, each as often as
   asked; and sanitizing the rendered text gives the plain text back, spaces aside.
   */
  lemma RenderedIsFaithful(plan: Plan)
    requires Rendering(plan).Ok?
    ensures multiset(Bracketed(Rendering(plan).value.fishText)) == multiset(Demanded(plan))
    ensures NoSpaces(Sanitize(Rendering(plan).value.fishText)) == NoSpaces(Rendering(plan).value.plainText)
    ensures Plain(Rendering(plan).value.plainText) && Bracketed(Rendering(plan).value.plainText) == []
  {
    var text := Sanitize(plan.text);
    SanitizedIsClean(plan.text);
    ItemsPlaced(plan);
    StyleTagsAreWords(plan);
    BodyReads(text, StyleTags(plan), Items(plan).value);
    PlainReads(text);
  }
}
