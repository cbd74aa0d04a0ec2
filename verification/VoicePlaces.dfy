/** Where a rendered plan puts its tags: each directive at the occurrence it asks for, in a fixed order. */
module VoicePlaces {
  import opened Options
  import opened VoiceText
  import opened VoicePlan

  // ----- which occurrence is meant -----

  /** The text reads `phrase` at place `k`. */
  predicate Reads(text: string, phrase: string, k: nat) {
    k + |phrase| <= |text| && text[k..k + |phrase|] == phrase
  }

  /** Where the search for place `i` starts: at `from`, or right after the place before. */
  function SearchFrom(phrase: string, from: nat, places: seq<nat>, i: nat): nat
    requires i <= |places|
  {
    if i == 0 then from else places[i - 1] + |phrase|
  }

  predicate NoneBetween(text: string, phrase: string, from: nat, to: nat) {
    forall k :: from <= k < to ==> !Reads(text, phrase, k)
  }

  /** The first occurrence at or after `from` is at `k`. */
  predicate IsNext(text: string, phrase: string, from: nat, k: nat) {
    from <= k && Reads(text, phrase, k) && NoneBetween(text, phrase, from, k)
  }

  predicate NextAt(text: string, phrase: string, from: nat, places: seq<nat>, i: nat)
    requires i < |places|
  {
    IsNext(text, phrase, SearchFrom(phrase, from, places, i), places[i])
  }

  /** The occurrences from `from` on, from the left and without overlaps, none skipped. */
  predicate Leftmost(text: string, phrase: string, from: nat, places: seq<nat>) {
    forall i :: 0 <= i < |places| ==> NextAt(text, phrase, from, places, i)
  }

  /** Exactly `n` occurrences end before the one at `k`. */
  ghost predicate NthOccurrence(text: string, phrase: string, n: nat, k: nat) {
    exists places: seq<nat> :: |places| == n + 1 && places[n] == k && Leftmost(text, phrase, 0, places)
  }

  lemma OccursReads(text: string, phrase: string, k: nat)
    ensures OccursAt(text, phrase, k) <==> Reads(text, phrase, k)
  {
    if k + |phrase| <= |text| {
      var read := text[k..k + |phrase|];
      assert forall i :: 0 <= i < |phrase| ==> read[i] == text[k + i];
    }
  }

  lemma FirstReads(text: string, phrase: string, from: nat)
    requires from <= |text|
    ensures var k := FirstFrom(text, phrase, from);
            && NoneBetween(text, phrase, from, k)
            && (k <= |text| ==> Reads(text, phrase, k))
  {
    var k := FirstFrom(text, phrase, from);
    FirstFromIsFirst(text, phrase, from);
    OccursReads(text, phrase, k);
    forall j | from <= j < k ensures !Reads(text, phrase, j) {
      OccursReads(text, phrase, j);
    }
  }

  lemma LeftmostTail(text: string, phrase: string, from: nat, places: seq<nat>)
    requires places != [] && Leftmost(text, phrase, from, places)
    ensures from <= |text| && FirstFrom(text, phrase, from) == places[0] && places[0] + |phrase| <= |text|
    ensures Leftmost(text, phrase, places[0] + |phrase|, places[1..])
  {
    assert NextAt(text, phrase, from, places, 0) && SearchFrom(phrase, from, places, 0) == from;
    FirstReads(text, phrase, from);
    var next := places[0] + |phrase|;
    var rest := places[1..];
    forall i | 0 <= i < |rest| ensures NextAt(text, phrase, next, rest, i) {
      assert SearchFrom(phrase, next, rest, i) == SearchFrom(phrase, from, places, i + 1);
      assert NextAt(text, phrase, from, places, i + 1);
    }
  }

  lemma LeftmostCons(text: string, phrase: string, from: nat, k: nat, rest: seq<nat>)
    requires IsNext(text, phrase, from, k)
    requires Leftmost(text, phrase, k + |phrase|, rest)
    ensures Leftmost(text, phrase, from, [k] + rest)
  {
    var places := [k] + rest;
    forall i | 0 <= i < |places| ensures NextAt(text, phrase, from, places, i) {
      if i > 0 {
        assert places[i] == rest[i - 1] && i > 1 ==> places[i - 1] == rest[i - 2];
        assert SearchFrom(phrase, from, places, i) == SearchFrom(phrase, k + |phrase|, rest, i - 1);
        assert NextAt(text, phrase, k + |phrase|, rest, i - 1);
      }
    }
  }

  lemma {:induction false} LeftmostIsOccurrence(text: string, phrase: string, from: nat, places: seq<nat>)
    requires from <= |text| && places != [] && Leftmost(text, phrase, from, places)
    ensures Occurrence(text, phrase, from, |places| - 1) == Some(places[|places| - 1])
    decreases |places|
  {
    LeftmostTail(text, phrase, from, places);
    if |places| > 1 {
      LeftmostIsOccurrence(text, phrase, places[0] + |phrase|, places[1..]);
    }
  }

  lemma {:induction false} OccurrenceIsLeftmost(text: string, phrase: string, from: nat, n: nat) returns (places: seq<nat>)
    requires from <= |text| && Occurrence(text, phrase, from, n).Some?
    ensures |places| == n + 1 && Some(places[n]) == Occurrence(text, phrase, from, n)
    ensures Leftmost(text, phrase, from, places)
    decreases n
  {
    var k := FirstFrom(text, phrase, from);
    FirstReads(text, phrase, from);
    var rest := [];
    if n > 0 {
      rest := OccurrenceIsLeftmost(text, phrase, k + |phrase|, n - 1);
    }
    LeftmostCons(text, phrase, from, k, rest);
    places := [k] + rest;
  }

  lemma FoundIsNth(text: string, phrase: string, n: nat, k: nat)
    requires Occurrence(text, phrase, 0, n) == Some(k)
    ensures NthOccurrence(text, phrase, n, k)
  {
    var places := OccurrenceIsLeftmost(text, phrase, 0, n);
  }

  lemma NthIsFound(text: string, phrase: string, n: nat, k: nat)
    requires NthOccurrence(text, phrase, n, k)
    ensures Occurrence(text, phrase, 0, n) == Some(k)
  {
    var places: seq<nat> :| |places| == n + 1 && places[n] == k && Leftmost(text, phrase, 0, places);
    LeftmostIsOccurrence(text, phrase, 0, places);
  }

  /** The search finds the requested occurrence, and finds none only if there is none. */
  lemma OccurrenceIsNth(text: string, phrase: string, n: nat, k: nat)
    ensures Occurrence(text, phrase, 0, n) == Some(k) <==> NthOccurrence(text, phrase, n, k)
  {
    if Occurrence(text, phrase, 0, n) == Some(k) {
      FoundIsNth(text, phrase, n, k);
    } else if NthOccurrence(text, phrase, n, k) {
      NthIsFound(text, phrase, n, k);
    }
  }

  lemma EndsAt(text: string, phrase: string, n: nat, end: nat)
    requires end >= |phrase|
    ensures var at := Occurrence(text, phrase, 0, n);
            (at.Some? && at.value + |phrase| == end) <==> NthOccurrence(text, phrase, n, end - |phrase|)
  {
    OccurrenceIsNth(text, phrase, n, end - |phrase|);
  }

  // ----- where a directive wants its tag -----

  predicate UsableAnchor(raw: string) {
    1 <= |Sanitize(raw)| <= 80
  }

  predicate Blank(raw: string) {
    forall i :: 0 <= i < |raw| ==> IsSpace(raw[i])
  }

  /** Right before the requested occurrence of the phrase, after any tag that opens there. */
  ghost predicate EmphasisStands(text: string, e: Emphasis, item: Insertion) {
    && item.tag == "emphasis" && !item.leading && item.priority == 1
    && UsableAnchor(e.phrase) && e.occurrence >= 0
    && NthOccurrence(text, Sanitize(e.phrase), e.occurrence, item.index)
  }

  /** A cue right after its anchor. */
  ghost predicate StandsAfter(text: string, cue: Cue, item: Insertion) {
    && item.leading && item.priority == 2
    && UsableAnchor(cue.anchor) && cue.occurrence >= 0 && item.index >= |Sanitize(cue.anchor)|
    && NthOccurrence(text, Sanitize(cue.anchor), cue.occurrence, item.index - |Sanitize(cue.anchor)|)
  }

  /** A cue right before its anchor. */
  ghost predicate StandsBefore(text: string, cue: Cue, item: Insertion) {
    && !item.leading && item.priority == 0
    && UsableAnchor(cue.anchor) && cue.occurrence >= 0
    && NthOccurrence(text, Sanitize(cue.anchor), cue.occurrence, item.index)
  }

  ghost predicate CueStands(text: string, cue: Cue, item: Insertion) {
    && !cue.kind.OtherKind? && cue.occurrence >= 0 && item.tag == CueTag(cue.kind)
    && match cue.position
       case After => StandsAfter(text, cue, item)
       case BeforeAnchor => StandsBefore(text, cue, item)
       case AtStart => Blank(cue.anchor) && item.index == 0 && !item.leading && item.priority == 0
       case AtEnd => Blank(cue.anchor) && item.index == |text| && item.leading && item.priority == 2
       case OtherPosition(_) => false
  }

  /** `item` is the tag that the directive of its number asks for, at its place. */
  ghost predicate Stands(text: string, plan: Plan, item: Insertion) {
    if item.order < |plan.emphasis| then EmphasisStands(text, plan.emphasis[item.order], item)
    else item.order < |plan.emphasis| + |plan.cues| && CueStands(text, plan.cues[item.order - |plan.emphasis|], item)
  }

  lemma {:induction false} NoWordsIsBlank(raw: string)
    ensures Words(raw) == [] <==> Blank(raw)
  {
    if raw != "" && IsSpace(raw[0]) {
      NoWordsIsBlank(raw[1..]);
      assert forall i :: 0 < i < |raw| ==> raw[i] == raw[1..][i - 1];
    }
  }

  lemma EmphasisExactly(text: string, e: Emphasis, item: Insertion)
    ensures EmphasisInsertion(text, e, item.order) == Ok(item) <==> EmphasisStands(text, e, item)
  {
    if e.occurrence >= 0 {
      OccurrenceIsNth(text, Sanitize(e.phrase), e.occurrence, item.index);
    }
  }

  lemma AnchoredAt(text: string, cue: Cue, order: nat, after: bool)
    requires cue.occurrence >= 0
    ensures var anchor, r := Sanitize(cue.anchor), AnchoredInsertion(text, cue, order, after);
            var at := Occurrence(text, anchor, 0, cue.occurrence);
            && (r.Ok? <==> UsableAnchor(cue.anchor) && at.Some?)
            && (r.Ok? && after ==> r.value == Insertion(at.value + |anchor|, 2, order, CueTag(cue.kind), true))
            && (r.Ok? && !after ==> r.value == Insertion(at.value, 0, order, CueTag(cue.kind), false))
  {
  }

  lemma AfterExactly(text: string, cue: Cue, item: Insertion)
    requires cue.occurrence >= 0
    ensures AnchoredInsertion(text, cue, item.order, true) == Ok(item)
            <==> StandsAfter(text, cue, item) && item.tag == CueTag(cue.kind)
  {
    var anchor := Sanitize(cue.anchor);
    AnchoredAt(text, cue, item.order, true);
    if item.index >= |anchor| {
      EndsAt(text, anchor, cue.occurrence, item.index);
    }
  }

  lemma BeforeExactly(text: string, cue: Cue, item: Insertion)
    requires cue.occurrence >= 0
    ensures AnchoredInsertion(text, cue, item.order, false) == Ok(item)
            <==> StandsBefore(text, cue, item) && item.tag == CueTag(cue.kind)
  {
    AnchoredAt(text, cue, item.order, false);
    OccurrenceIsNth(text, Sanitize(cue.anchor), cue.occurrence, item.index);
  }

  lemma CueExactly(text: string, cue: Cue, item: Insertion)
    ensures CueInsertion(text, cue, item.order) == Ok(item) <==> CueStands(text, cue, item)
  {
    if cue.occurrence >= 0 {
      AfterExactly(text, cue, item);
      BeforeExactly(text, cue, item);
      NoWordsIsBlank(cue.anchor);
    }
  }

  lemma StandsExactly(text: string, plan: Plan, item: Insertion)
    ensures Stands(text, plan, item)
            <==> item.order < |plan.emphasis| + |plan.cues| && Directive(text, plan, item.order) == Ok(item)
  {
    if item.order < |plan.emphasis| {
      EmphasisExactly(text, plan.emphasis[item.order], item);
    } else if item.order < |plan.emphasis| + |plan.cues| {
      CueExactly(text, plan.cues[item.order - |plan.emphasis|], item);
    }
  }

  // ----- the tags of a whole plan, in order -----

  /** By place; at one place, what opens before emphasis and that before what closes; then as listed in the plan. */
  predicate Earlier(a: Insertion, b: Insertion) {
    || a.index < b.index
    || (a.index == b.index && a.priority < b.priority)
    || (a.index == b.index && a.priority == b.priority && a.order < b.order)
  }

  predicate InOrder(items: seq<Insertion>) {
    forall i, j :: 0 <= i < j < |items| ==> Earlier(items[i], items[j])
  }

  /** Directive `n` has its tag among `items`. */
  predicate HasTag(items: seq<Insertion>, n: nat) {
    exists j :: 0 <= j < |items| && items[j].order == n
  }

  /** One tag for every directive of the plan, each where its directive wants it, in order. */
  ghost predicate Arranged(text: string, plan: Plan, items: seq<Insertion>) {
    && InOrder(items)
    && (forall j :: 0 <= j < |items| ==> Stands(text, plan, items[j]))
    && forall n :: 0 <= n < |plan.emphasis| + |plan.cues| ==> HasTag(items, n)
  }

  lemma {:induction false} InsertInOrder(items: seq<Insertion>, item: Insertion)
    requires InOrder(items) && forall i :: 0 <= i < |items| ==> items[i].order < item.order
    ensures InOrder(Insert(items, item))
  {
    if items != [] && !Precedes(items[|items| - 1], item) {
      var before := items[..|items| - 1];
      InsertInOrder(before, item);
      forall i | 0 <= i < |Insert(before, item)| ensures Earlier(Insert(before, item)[i], items[|items| - 1]) {
        InsertMembers(before, item, Insert(before, item)[i]);
      }
    }
  }

  lemma {:induction false} SortInOrder(items: seq<Insertion>)
    requires forall i :: 0 <= i < |items| ==> items[i].order == i
    ensures InOrder(Sort(items))
  {
    if items != [] {
      var before := items[..|items| - 1];
      SortInOrder(before);
      forall i | 0 <= i < |Sort(before)| ensures Sort(before)[i].order < |before| {
        SortMembers(before, Sort(before)[i]);
      }
      InsertInOrder(Sort(before), items[|items| - 1]);
    }
  }

  lemma LastIsLatest(a: seq<Insertion>, x: Insertion)
    requires a != [] && InOrder(a) && x in a
    ensures x == a[|a| - 1] || Earlier(x, a[|a| - 1])
    ensures x in a[..|a| - 1] <==> x != a[|a| - 1]
  {
    var i :| 0 <= i < |a| && a[i] == x;
    assert i < |a| - 1 ==> a[..|a| - 1][i] == x;
  }

  lemma SomeMember(items: seq<Insertion>)
    ensures items != [] ==> exists x :: x in items
  {
    if items != [] {
      assert items[0] in items;
    }
  }

  /** Two orderings of the same tags are one. */
  lemma {:induction false} OrderIsUnique(a: seq<Insertion>, b: seq<Insertion>)
    requires InOrder(a) && InOrder(b) && forall x :: x in a <==> x in b
    ensures a == b
    decreases |a|
  {
    SomeMember(a);
    SomeMember(b);
    if a != [] {
      var x, y := a[|a| - 1], b[|b| - 1];
      LastIsLatest(a, y);
      LastIsLatest(b, x);
      var before, others := a[..|a| - 1], b[..|b| - 1];
      forall z ensures z in before <==> z in others {
        if z in a {
          LastIsLatest(a, z);
          LastIsLatest(b, z);
        }
      }
      OrderIsUnique(before, others);
      assert a == before + [x] && b == others + [y];
    }
  }

  lemma InsertionsStand(text: string, plan: Plan, items: seq<Insertion>)
    requires Insertions(text, plan, |plan.emphasis| + |plan.cues|) == Ok(items)
    ensures |items| == |plan.emphasis| + |plan.cues|
    ensures forall i :: 0 <= i < |items| ==> items[i].order == i && Stands(text, plan, items[i])
  {
    forall i | 0 <= i < |items| ensures items[i].order == i && Stands(text, plan, items[i]) {
      InsertionAt(text, plan, |items|, i);
      StandsExactly(text, plan, items[i]);
    }
  }

  lemma SortArranges(text: string, plan: Plan, items: seq<Insertion>)
    requires Insertions(text, plan, |plan.emphasis| + |plan.cues|) == Ok(items)
    ensures Arranged(text, plan, Sort(items))
  {
    InsertionsStand(text, plan, items);
    SortInOrder(items);
    forall j | 0 <= j < |Sort(items)| ensures Stands(text, plan, Sort(items)[j]) {
      SortMembers(items, Sort(items)[j]);
    }
    forall n | 0 <= n < |items| ensures HasTag(Sort(items), n) {
      SortMembers(items, items[n]);
    }
  }

  lemma TagIsAsked(text: string, plan: Plan, items: seq<Insertion>, n: nat)
    requires Arranged(text, plan, items) && n < |plan.emphasis| + |plan.cues|
    ensures Directive(text, plan, n).Ok?
  {
    assert HasTag(items, n);
    var j :| 0 <= j < |items| && items[j].order == n;
    StandsExactly(text, plan, items[j]);
  }

  lemma {:induction false} AllAskedIsAccepted(text: string, plan: Plan, n: nat)
    requires n <= |plan.emphasis| + |plan.cues| && forall i :: 0 <= i < n ==> Directive(text, plan, i).Ok?
    ensures Insertions(text, plan, n).Ok?
  {
    if n > 0 {
      AllAskedIsAccepted(text, plan, n - 1);
    }
  }

  /** There is one arrangement, and sorting finds it. */
  lemma ArrangedIsSorted(text: string, plan: Plan, items: seq<Insertion>)
    requires Arranged(text, plan, items)
    ensures var all := Insertions(text, plan, |plan.emphasis| + |plan.cues|);
            all.Ok? && items == Sort(all.value)
  {
    var count := |plan.emphasis| + |plan.cues|;
    forall n | 0 <= n < count ensures Directive(text, plan, n).Ok? {
      TagIsAsked(text, plan, items, n);
    }
    AllAskedIsAccepted(text, plan, count);
    var all := Insertions(text, plan, count).value;
    SortArranges(text, plan, all);
    forall x ensures x in items <==> x in Sort(all) {
      if x in items {
        StandsExactly(text, plan, x);
        InsertionAt(text, plan, count, x.order);
        SortMembers(all, x);
      }
      if x in Sort(all) {
        SortMembers(all, x);
        InsertionsStand(text, plan, all);
        assert HasTag(items, x.order);
        var j :| 0 <= j < |items| && items[j].order == x.order;
        StandsExactly(text, plan, items[j]);
        StandsExactly(text, plan, x);
      }
    }
    OrderIsUnique(items, Sort(all));
  }

  // ----- the rendered text -----

  ghost predicate LaysOut(plan: Plan, fish: string) {
    exists items :: Layout(plan, items, fish)
  }

  /** Where item `i` takes the text up: at the place of the item before, or at the start. */
  function PlaceBefore(items: seq<Insertion>, i: nat): nat
    requires i <= |items|
  {
    if i == 0 then 0 else items[i - 1].index
  }

  /** What has been written once item `j` is written: all before it, the text up to its place, and its tag. */
  predicate WritesItem(text: string, items: seq<Insertion>, written: seq<string>, j: nat)
    requires j < |items| < |written|
  {
    var from := PlaceBefore(items, j);
    var tag := "[" + items[j].tag + "]";
    && from <= items[j].index <= |text|
    && written[j + 1] == written[j] + text[from..items[j].index] + if items[j].leading then " " + tag else tag + " "
  }

  /** `body` is the text with the items' tags at their places and nothing else. */
  ghost predicate Spells(text: string, items: seq<Insertion>, body: string) {
    var last := PlaceBefore(items, |items|);
    exists written: seq<string> ::
      && |written| == |items| + 1 && written[0] == ""
      && (forall j :: 0 <= j < |items| ==> WritesItem(text, items, written, j))
      && last <= |text| && body == written[|items|] + text[last..]
  }

  /** A tag for the whole utterance, if there is one to write. */
  function Opening(tag: string): string {
    if tag == "" then "" else "[" + tag + "] "
  }

  function Openings(plan: Plan): string {
    Opening(EmotionTag(plan.emotion)) + Opening(DeliveryTag(plan.delivery))
    + Opening(VolumeTag(plan.volume)) + Opening(PaceTag(plan.pace))
  }

  /** The rendered text: emotion, delivery, volume and pace, then the text with its tags. */
  ghost predicate Layout(plan: Plan, items: seq<Insertion>, fish: string) {
    && Arranged(Sanitize(plan.text), plan, items)
    && exists body ::
         && Spells(Sanitize(plan.text), items, body)
         && fish == Openings(plan) + body
  }

  lemma SuffixInRange(text: string, items: seq<Insertion>, i: nat)
    requires InRange(items, 0, text) && i <= |items|
    ensures InRange(items[i..], PlaceBefore(items, i), text)
  {
  }

  /** What is written before item `i` and what is left to weave. */
  function Whole(text: string, items: seq<Insertion>, written: seq<string>, i: nat): string
    requires InRange(items, 0, text) && i <= |items| < |written|
  {
    SuffixInRange(text, items, i);
    written[i] + Weave(text, PlaceBefore(items, i), items[i..])
  }

  lemma WriteOne(text: string, items: seq<Insertion>, written: seq<string>, i: nat)
    requires InRange(items, 0, text) && i < |items| < |written| && WritesItem(text, items, written, i)
    ensures Whole(text, items, written, i) == Whole(text, items, written, i + 1)
  {
    SuffixInRange(text, items, i);
    SuffixInRange(text, items, i + 1);
    var rest := items[i..];
    assert rest[1..] == items[i + 1..] && rest[0] == items[i];
    WeaveStep(written[i], text, PlaceBefore(items, i), rest);
    assert written[i + 1] == written[i] + text[PlaceBefore(items, i)..items[i].index] + ValueOf(items[i]);
  }

  lemma {:induction false} WriteAll(text: string, items: seq<Insertion>, written: seq<string>, i: nat)
    requires InRange(items, 0, text) && i <= |items| && |written| == |items| + 1
    requires forall j :: 0 <= j < |items| ==> WritesItem(text, items, written, j)
    ensures Whole(text, items, written, i) == Whole(text, items, written, |items|)
    decreases |items| - i
  {
    if i < |items| {
      WriteOne(text, items, written, i);
      WriteAll(text, items, written, i + 1);
    }
  }

  lemma WeaveIsWritten(text: string, items: seq<Insertion>, written: seq<string>)
    requires InRange(items, 0, text) && |written| == |items| + 1 && written[0] == ""
    requires forall j :: 0 <= j < |items| ==> WritesItem(text, items, written, j)
    ensures PlaceBefore(items, |items|) <= |text|
    ensures Weave(text, 0, items) == written[|items|] + text[PlaceBefore(items, |items|)..]
  {
    WriteAll(text, items, written, 0);
    assert items[0..] == items && "" + Weave(text, 0, items) == Weave(text, 0, items);
    assert items[|items|..] == [];
  }

  lemma SpellsIsWeave(text: string, items: seq<Insertion>, body: string)
    requires InRange(items, 0, text) && Spells(text, items, body)
    ensures body == Weave(text, 0, items)
  {
    var last := PlaceBefore(items, |items|);
    var written: seq<string> :|
      && |written| == |items| + 1 && written[0] == ""
      && (forall j :: 0 <= j < |items| ==> WritesItem(text, items, written, j))
      && last <= |text| && body == written[|items|] + text[last..];
    WeaveIsWritten(text, items, written);
  }

  lemma {:induction false} Writing(text: string, items: seq<Insertion>) returns (written: seq<string>)
    requires InRange(items, 0, text)
    ensures |written| == |items| + 1 && written[0] == ""
    ensures forall j :: 0 <= j < |items| ==> WritesItem(text, items, written, j)
  {
    if items == [] {
      written := [""];
    } else {
      var n := |items| - 1;
      var before := Writing(text, items[..n]);
      var from := PlaceBefore(items, n);
      var tag := "[" + items[n].tag + "]";
      written := before + [before[n] + text[from..items[n].index] + if items[n].leading then " " + tag else tag + " "];
      forall j | 0 <= j < n ensures WritesItem(text, items, written, j) {
        assert WritesItem(text, items[..n], before, j);
      }
    }
  }

  lemma WeaveSpells(text: string, items: seq<Insertion>)
    requires InRange(items, 0, text)
    ensures Spells(text, items, Weave(text, 0, items))
  {
    var written := Writing(text, items);
    WeaveIsWritten(text, items, written);
  }

  lemma {:induction false} PrefixSplits(a: seq<string>, b: seq<string>)
    ensures Prefix(a + b) == Prefix(a) + Prefix(b)
  {
    if a == [] {
      assert a + b == b;
    } else {
      PrefixSplits(a[1..], b);
      var first := [OPEN] + a[0] + [CLOSE] + [SPACE];
      assert (a + b)[1..] == a[1..] + b && (a + b)[0] == a[0];
      assert first + (Prefix(a[1..]) + Prefix(b)) == (first + Prefix(a[1..])) + Prefix(b);
    }
  }

  lemma PrefixOfListed(tag: string)
    ensures Prefix(Listed(tag)) == Opening(tag)
  {
    assert tag != "" ==> Prefix([tag]) == [OPEN] + tag + [CLOSE] + [SPACE] + Prefix([]);
  }

  lemma StyleOpens(plan: Plan)
    ensures Prefix(StyleTags(plan)) == Openings(plan)
  {
    var e, d := Listed(EmotionTag(plan.emotion)), Listed(DeliveryTag(plan.delivery));
    var v, p := Listed(VolumeTag(plan.volume)), Listed(PaceTag(plan.pace));
    PrefixSplits(e + d + v, p);
    PrefixSplits(e + d, v);
    PrefixSplits(e, d);
    PrefixOfListed(EmotionTag(plan.emotion));
    PrefixOfListed(DeliveryTag(plan.delivery));
    PrefixOfListed(VolumeTag(plan.volume));
    PrefixOfListed(PaceTag(plan.pace));
  }

  /** Within the size limits, with names of the vocabulary. */
  predicate Admissible(plan: Plan) {
    && 1 <= |Sanitize(plan.text)| <= 12000 && |plan.emphasis| <= 8 && |plan.cues| <= 12
    && !plan.emotion.OtherEmotion? && !plan.delivery.OtherDelivery?
    && !plan.volume.OtherVolume? && !plan.pace.OtherPace?
  }

  lemma CompilesExactly(plan: Plan)
    ensures Compile(plan) == Ok(Sanitize(plan.text)) <==> Admissible(plan)
    ensures Compile(plan).Ok? ==> Admissible(plan)
  {
  }

  lemma WovenSpells(text: string, plan: Plan, all: seq<Insertion>)
    requires Insertions(text, plan, |plan.emphasis| + |plan.cues|) == Ok(all)
    ensures forall i :: 0 <= i < |all| ==> Placed(text, all[i])
    ensures Arranged(text, plan, Sort(all)) && Spells(text, Sort(all), Woven(text, all))
  {
    InsertionsPlaced(text, plan, all);
    SortArranges(text, plan, all);
    SortInRange(text, all);
    WeaveSpells(text, Sort(all));
  }

  lemma OpensAndSpells(plan: Plan, items: seq<Insertion>, body: string)
    requires Arranged(Sanitize(plan.text), plan, items) && Spells(Sanitize(plan.text), items, body)
    ensures Layout(plan, items, Openings(plan) + body)
  {
  }

  lemma WovenIsLaidOut(plan: Plan, all: seq<Insertion>)
    requires Compile(plan) == Ok(Sanitize(plan.text))
    requires Insertions(Sanitize(plan.text), plan, |plan.emphasis| + |plan.cues|) == Ok(all)
    ensures Rendering(plan).Ok? && Rendering(plan).value.plainText == Sanitize(plan.text)
    ensures LaysOut(plan, Rendering(plan).value.fishText)
  {
    RenderingIs(plan, Sanitize(plan.text), all);
    WovenSpells(Sanitize(plan.text), plan, all);
    StyleOpens(plan);
    OpensAndSpells(plan, Sort(all), Woven(Sanitize(plan.text), all));
  }

  lemma HasItems(plan: Plan)
    requires Rendering(plan).Ok?
    ensures Items(plan).Ok?
  {
  }

  lemma ItemsOf(plan: Plan) returns (all: seq<Insertion>)
    requires Items(plan).Ok?
    ensures Admissible(plan) && Compile(plan) == Ok(Sanitize(plan.text))
    ensures Insertions(Sanitize(plan.text), plan, |plan.emphasis| + |plan.cues|) == Ok(all)
  {
    CompilesExactly(plan);
    all := Items(plan).value;
  }

  lemma LaidOut(plan: Plan)
    requires Rendering(plan).Ok?
    ensures Admissible(plan) && Rendering(plan).value.plainText == Sanitize(plan.text)
    ensures LaysOut(plan, Rendering(plan).value.fishText)
  {
    HasItems(plan);
    var all := ItemsOf(plan);
    WovenIsLaidOut(plan, all);
  }

  lemma LayoutIsRendered(plan: Plan, items: seq<Insertion>, fish: string)
    requires Admissible(plan) && Layout(plan, items, fish)
    ensures Rendering(plan) == Ok(Rendered(Sanitize(plan.text), fish))
  {
    CompilesExactly(plan);
    var text := Sanitize(plan.text);
    ArrangedIsSorted(text, plan, items);
    var all := Insertions(text, plan, |plan.emphasis| + |plan.cues|).value;
    RenderingIs(plan, text, all);
    SortInRange(text, all);
    var body :| Spells(text, items, body)
      && fish == Openings(plan) + body;
    SpellsIsWeave(text, items, body);
    StyleOpens(plan);
  }

  /**
   A plan is rendered to `fish` exactly when it is within the limits and every directive has its tag, right where it
   asked for it, in the text `fish` spells: there is no other rendering and no other reason to refuse.
   */
  lemma RenderedExactly(plan: Plan, fish: string)
    ensures Rendering(plan) == Ok(Rendered(Sanitize(plan.text), fish))
            <==> Admissible(plan) && LaysOut(plan, fish)
  {
    if Rendering(plan) == Ok(Rendered(Sanitize(plan.text), fish)) {
      LaidOut(plan);
    }
    if Admissible(plan) && LaysOut(plan, fish) {
      var items :| Layout(plan, items, fish);
      LayoutIsRendered(plan, items, fish);
    }
  }

  /** Directive `n` has a place in the text. */
  ghost predicate HasPlace(text: string, plan: Plan, n: nat) {
    exists item: Insertion :: item.order == n && Stands(text, plan, item)
  }

  lemma HasPlaceExactly(text: string, plan: Plan, n: nat)
    requires n < |plan.emphasis| + |plan.cues|
    ensures HasPlace(text, plan, n) <==> Directive(text, plan, n).Ok?
  {
    if HasPlace(text, plan, n) {
      var item: Insertion :| item.order == n && Stands(text, plan, item);
      StandsExactly(text, plan, item);
    }
    if Directive(text, plan, n).Ok? {
      var item := Directive(text, plan, n).value;
      StandsExactly(text, plan, item);
    }
  }

  /** A plan is accepted exactly when it is within the limits and each of its directives has a place. */
  lemma AcceptedExactly(plan: Plan)
    ensures Rendering(plan).Ok?
            <==> Admissible(plan)
                 && forall n :: 0 <= n < |plan.emphasis| + |plan.cues| ==> HasPlace(Sanitize(plan.text), plan, n)
  {
    CompilesExactly(plan);
    var text, count := Sanitize(plan.text), |plan.emphasis| + |plan.cues|;
    AllPlaced(text, plan);
    if Admissible(plan) {
      assert Items(plan) == Insertions(text, plan, count);
    }
  }

  lemma AcceptedIsAsked(text: string, plan: Plan)
    requires Insertions(text, plan, |plan.emphasis| + |plan.cues|).Ok?
    ensures forall n :: 0 <= n < |plan.emphasis| + |plan.cues| ==> Directive(text, plan, n).Ok?
  {
    forall n | 0 <= n < |plan.emphasis| + |plan.cues| ensures Directive(text, plan, n).Ok? {
      InsertionAt(text, plan, |plan.emphasis| + |plan.cues|, n);
    }
  }

  lemma AllPlaced(text: string, plan: Plan)
    ensures Insertions(text, plan, |plan.emphasis| + |plan.cues|).Ok?
            <==> forall n :: 0 <= n < |plan.emphasis| + |plan.cues| ==> HasPlace(text, plan, n)
  {
    var count := |plan.emphasis| + |plan.cues|;
    forall n | 0 <= n < count ensures HasPlace(text, plan, n) <==> Directive(text, plan, n).Ok? {
      HasPlaceExactly(text, plan, n);
    }
    if Insertions(text, plan, count).Ok? {
      AcceptedIsAsked(text, plan);
    } else if forall n :: 0 <= n < count ==> Directive(text, plan, n).Ok? {
      AllAskedIsAccepted(text, plan, count);
    }
  }

  // ----- plans with one directive -----

  /** The rendered text of a plan with one tag, `value` at place `k`. */
  ghost predicate Writes(plan: Plan, fish: string, value: string, k: nat) {
    var text := Sanitize(plan.text);
    k <= |text| && fish == Openings(plan) + (text[..k] + value + text[k..])
  }

  lemma SortOne(text: string, item: Insertion)
    requires Placed(text, item)
    ensures Woven(text, [item]) == text[..item.index] + ValueOf(item) + text[item.index..]
  {
    var items := [item];
    assert items[..0] == [] && Sort([]) == [] && Sort(items) == Insert([], item) == items;
    SortInRange(text, items);
    assert items[1..] == [] && Weave(text, item.index, items[1..]) == text[item.index..];
    assert text[0..item.index] == text[..item.index];
  }

  lemma OneItem(text: string, plan: Plan)
    requires |plan.emphasis| + |plan.cues| == 1 && Insertions(text, plan, 1).Ok?
    ensures Directive(text, plan, 0).Ok? && Insertions(text, plan, 1) == Ok([Directive(text, plan, 0).value])
  {
    InsertionAt(text, plan, 1, 0);
    var items := Insertions(text, plan, 1).value;
    assert items == [items[0]];
  }

  lemma OnlyTag(plan: Plan) returns (item: Insertion)
    requires Rendering(plan).Ok? && |plan.emphasis| + |plan.cues| == 1
    ensures item.order == 0 && Stands(Sanitize(plan.text), plan, item)
    ensures Writes(plan, Rendering(plan).value.fishText, ValueOf(item), item.index)
  {
    CompilesExactly(plan);
    var text := Sanitize(plan.text);
    OneItem(text, plan);
    item := Directive(text, plan, 0).value;
    RenderingIs(plan, text, [item]);
    InsertionsStand(text, plan, [item]);
    assert Placed(text, [item][0]);
    SortOne(text, item);
    StyleOpens(plan);
  }

  /** The tag stands right after the requested occurrence of the anchor. */
  ghost predicate RightAfter(plan: Plan, anchor: string, occurrence: int, tag: string, fish: string) {
    occurrence >= 0
    && exists p: nat :: NthOccurrence(Sanitize(plan.text), Sanitize(anchor), occurrence, p)
                        && Writes(plan, fish, " [" + tag + "]", p + |Sanitize(anchor)|)
  }

  /** The tag stands right before the requested occurrence of the phrase. */
  ghost predicate RightBefore(plan: Plan, phrase: string, occurrence: int, tag: string, fish: string) {
    occurrence >= 0
    && exists p: nat :: NthOccurrence(Sanitize(plan.text), Sanitize(phrase), occurrence, p)
                        && Writes(plan, fish, "[" + tag + "] ", p)
  }

  lemma IsRightAfter(plan: Plan, anchor: string, occurrence: nat, tag: string, fish: string, p: nat)
    requires NthOccurrence(Sanitize(plan.text), Sanitize(anchor), occurrence, p)
    requires Writes(plan, fish, " [" + tag + "]", p + |Sanitize(anchor)|)
    ensures RightAfter(plan, anchor, occurrence, tag, fish)
  {
  }

  lemma ValueSpelled(item: Insertion)
    ensures ValueOf(item) == if item.leading then " [" + item.tag + "]" else "[" + item.tag + "] "
  {
  }

  lemma OnlyCue(plan: Plan, cue: Cue) returns (item: Insertion)
    requires Rendering(plan).Ok? && plan.emphasis == [] && plan.cues == [cue]
    ensures CueStands(Sanitize(plan.text), cue, item)
    ensures Writes(plan, Rendering(plan).value.fishText,
                   if item.leading then " [" + CueTag(cue.kind) + "]" else "[" + CueTag(cue.kind) + "] ", item.index)
  {
    item := OnlyTag(plan);
    ValueSpelled(item);
  }

  /** A cue on its own that follows its anchor. */
  lemma OneCueAfter(plan: Plan, cue: Cue)
    requires Rendering(plan).Ok? && plan.emphasis == [] && plan.cues == [cue] && cue.position == After
    ensures RightAfter(plan, cue.anchor, cue.occurrence, CueTag(cue.kind), Rendering(plan).value.fishText)
  {
    var item := OnlyCue(plan, cue);
    assert StandsAfter(Sanitize(plan.text), cue, item);
    var p: nat := item.index - |Sanitize(cue.anchor)|;
    IsRightAfter(plan, cue.anchor, cue.occurrence, CueTag(cue.kind), Rendering(plan).value.fishText, p);
  }

  /** A cue on its own before its anchor. */
  lemma OneCueBefore(plan: Plan, cue: Cue)
    requires Rendering(plan).Ok? && plan.emphasis == [] && plan.cues == [cue] && cue.position == BeforeAnchor
    ensures RightBefore(plan, cue.anchor, cue.occurrence, CueTag(cue.kind), Rendering(plan).value.fishText)
  {
    var item := OnlyCue(plan, cue);
    assert StandsBefore(Sanitize(plan.text), cue, item);
  }

  /** A cue on its own at either end. */
  lemma OneCueAtAnEnd(plan: Plan, cue: Cue)
    requires Rendering(plan).Ok? && plan.emphasis == [] && plan.cues == [cue]
    ensures cue.position.AtStart? ==> Writes(plan, Rendering(plan).value.fishText, "[" + CueTag(cue.kind) + "] ", 0)
    ensures cue.position.AtEnd? ==>
              Writes(plan, Rendering(plan).value.fishText, " [" + CueTag(cue.kind) + "]", |Sanitize(plan.text)|)
  {
    var item := OnlyCue(plan, cue);
  }

  /** An emphasized phrase on its own. */
  lemma OneEmphasis(plan: Plan, e: Emphasis)
    requires Rendering(plan).Ok? && plan.emphasis == [e] && plan.cues == []
    ensures RightBefore(plan, e.phrase, e.occurrence, "emphasis", Rendering(plan).value.fishText)
  {
    var item := OnlyTag(plan);
    assert EmphasisStands(Sanitize(plan.text), e, item);
    ValueSpelled(item);
  }

  // ----- refusals -----

  /** What is wrong with an anchor and the occurrence of it that is asked for. */
  ghost predicate AnchorFault(text: string, raw: string, occurrence: int, error: Error) {
    || (error == BadOccurrence && occurrence < 0)
    || (error == BadAnchor && !UsableAnchor(raw))
    || (error == NotFound && UsableAnchor(raw) && occurrence >= 0
        && forall k :: !NthOccurrence(text, Sanitize(raw), occurrence, k))
  }

  ghost predicate CueFault(text: string, cue: Cue, error: Error) {
    || (error == Unsupported && (cue.kind.OtherKind? || cue.position.OtherPosition?))
    || (error == BadOccurrence && cue.occurrence < 0)
    || ((cue.position.After? || cue.position.BeforeAnchor?) && AnchorFault(text, cue.anchor, cue.occurrence, error))
    || ((cue.position.AtStart? || cue.position.AtEnd?) && error == BadAnchor && !Blank(cue.anchor))
  }

  /** What is wrong with directive `n`, as the error names it. */
  ghost predicate Fault(text: string, plan: Plan, n: nat, error: Error)
    requires n < |plan.emphasis| + |plan.cues|
  {
    if n < |plan.emphasis| then AnchorFault(text, plan.emphasis[n].phrase, plan.emphasis[n].occurrence, error)
    else CueFault(text, plan.cues[n - |plan.emphasis|], error)
  }

  lemma NotFoundMeansNone(text: string, phrase: string, n: nat)
    requires Occurrence(text, phrase, 0, n) == None
    ensures forall k :: !NthOccurrence(text, phrase, n, k)
  {
    forall k ensures !NthOccurrence(text, phrase, n, k) {
      OccurrenceIsNth(text, phrase, n, k);
    }
  }

  lemma AnchoredFault(text: string, cue: Cue, order: nat, after: bool)
    requires cue.occurrence >= 0 && AnchoredInsertion(text, cue, order, after).Err?
    ensures AnchorFault(text, cue.anchor, cue.occurrence, AnchoredInsertion(text, cue, order, after).error)
  {
    if UsableAnchor(cue.anchor) {
      AnchoredAt(text, cue, order, after);
      NotFoundMeansNone(text, Sanitize(cue.anchor), cue.occurrence);
    }
  }

  lemma DirectiveFault(text: string, plan: Plan, n: nat)
    requires n < |plan.emphasis| + |plan.cues| && Directive(text, plan, n).Err?
    ensures Fault(text, plan, n, Directive(text, plan, n).error)
  {
    if n < |plan.emphasis| {
      var e := plan.emphasis[n];
      if UsableAnchor(e.phrase) && e.occurrence >= 0 {
        NotFoundMeansNone(text, Sanitize(e.phrase), e.occurrence);
      }
    } else {
      var cue := plan.cues[n - |plan.emphasis|];
      if !cue.kind.OtherKind? && cue.occurrence >= 0 && (cue.position.After? || cue.position.BeforeAnchor?) {
        AnchoredFault(text, cue, n, cue.position.After?);
      }
      NoWordsIsBlank(cue.anchor);
    }
  }

  lemma {:induction false} FirstFault(text: string, plan: Plan, n: nat) returns (k: nat)
    requires n <= |plan.emphasis| + |plan.cues| && Insertions(text, plan, n).Err?
    ensures k < n && (forall i :: 0 <= i < k ==> HasPlace(text, plan, i)) && !HasPlace(text, plan, k)
    ensures Fault(text, plan, k, Insertions(text, plan, n).error)
  {
    if Insertions(text, plan, n - 1).Err? {
      k := FirstFault(text, plan, n - 1);
    } else {
      k := n - 1;
      DirectiveFault(text, plan, k);
      HasPlaceExactly(text, plan, k);
      forall i | 0 <= i < k ensures HasPlace(text, plan, i) {
        InsertionAt(text, plan, k, i);
        HasPlaceExactly(text, plan, i);
      }
    }
  }

  /** A refusal names the first thing wrong: the text, the number of directives, the vocabulary, the first directive without a place. */
  lemma RefusalNamesTheFault(plan: Plan)
    requires Rendering(plan).Err?
    ensures var text, error := Sanitize(plan.text), Rendering(plan).error;
            && (error == EmptyText <==> text == "")
            && (error == TextTooLong <==> |text| > 12000)
            && (error == TooManyEmphasis <==> 1 <= |text| <= 12000 && |plan.emphasis| > 8)
            && (error == TooManyCues <==> 1 <= |text| <= 12000 && |plan.emphasis| <= 8 && |plan.cues| > 12)
            && (!Admissible(plan) ==> error in {EmptyText, TextTooLong, TooManyEmphasis, TooManyCues, Unsupported})
            && (Admissible(plan) ==>
                  exists n :: 0 <= n < |plan.emphasis| + |plan.cues|
                    && (forall i :: 0 <= i < n ==> HasPlace(text, plan, i)) && !HasPlace(text, plan, n)
                    && Fault(text, plan, n, error))
  {
    CompilesExactly(plan);
    if Admissible(plan) {
      var k := FirstFault(Sanitize(plan.text), plan, |plan.emphasis| + |plan.cues|);
    }
  }

  // ----- the vocabulary -----

  /** Which tag is written tells which name the plan used; the default of each family writes none. */
  lemma VocabularyIsExact(plan: Plan, kind: CueKind)
    requires Admissible(plan) && !kind.OtherKind?
    ensures var e := EmotionTag(plan.emotion);
            && (e == "" <==> plan.emotion == Neutral) && (e == "warm" <==> plan.emotion == Warm)
            && (e == "calm" <==> plan.emotion == Calm) && (e == "friendly" <==> plan.emotion == Friendly)
            && (e == "empathetic" <==> plan.emotion == Empathetic) && (e == "confident" <==> plan.emotion == Confident)
            && (e == "cheerful" <==> plan.emotion == Cheerful) && (e == "excited" <==> plan.emotion == Excited)
            && (e == "serious" <==> plan.emotion == Serious) && (e == "sad" <==> plan.emotion == Sad)
    ensures var d := DeliveryTag(plan.delivery);
            && (d == "" <==> plan.delivery == Natural) && (d == "gentle" <==> plan.delivery == Gentle)
            && (d == "conversational" <==> plan.delivery == Conversational)
            && (d == "narrative" <==> plan.delivery == Narrative)
            && (d == "professional" <==> plan.delivery == Professional)
            && (d == "energetic" <==> plan.delivery == Energetic)
    ensures var v, p := VolumeTag(plan.volume), PaceTag(plan.pace);
            && (v == "speak softly" <==> plan.volume == Soft) && (v == "speak loudly" <==> plan.volume == Loud)
            && (v == "" <==> plan.volume in {DefaultVolume, NormalVolume})
            && (p == "speak slowly" <==> plan.pace == Slow) && (p == "speak quickly" <==> plan.pace == Fast)
            && (p == "" <==> plan.pace in {DefaultPace, NormalPace})
    ensures var c := CueTag(kind);
            && (c == "pause" <==> kind == ShortPause) && (c == "long pause" <==> kind == LongPause)
            && (c == "laugh" <==> kind == Laugh) && (c == "sigh" <==> kind == Sigh) && (c == "gasp" <==> kind == Gasp)
            && (c == "inhale" <==> kind == Inhale) && (c == "exhale" <==> kind == Exhale)
  {
  }
}
