/** Removing bracketed controls and normalizing whitespace in untrusted speech text. */
module VoiceText {

  const OPEN := '['
  const CLOSE := ']'
  const SPACE := ' '

  /** The code points with the Unicode White_Space property. */
  predicate IsSpace(c: char) {
    var n := c as int;
    9 <= n <= 13 || n == 0x20 || n == 0x85 || n == 0xA0 || n == 0x1680 || 0x2000 <= n <= 0x200A
    || n == 0x2028 || n == 0x2029 || n == 0x202F || n == 0x205F || n == 0x3000
  }

  predicate IsControl(c: char) {
    c as int < 0x20 || 0x7F <= c as int <= 0x9F
  }

  predicate Dropped(c: char) {
    IsControl(c) && !IsSpace(c)
  }

  /** The position of the first `c`, or the length if there is none. */
  function IndexOf(s: string, c: char): (k: nat)
    ensures k <= |s|
    ensures k < |s| ==> s[k] == c
    ensures forall i :: 0 <= i < k ==> s[i] != c
  {
    if s == "" then 0 else if s[0] == c then 0 else 1 + IndexOf(s[1..], c)
  }

  /** Without bracketed sequences, stray brackets and control characters. */
  function Strip(s: string): string
    decreases |s|
  {
    if s == "" then ""
    else if s[0] == OPEN then
      var k := IndexOf(s[1..], CLOSE);
      if k < |s| - 1 then Strip(s[k + 2..]) else Strip(s[1..])
    else if s[0] == CLOSE || Dropped(s[0]) then Strip(s[1..])
    else [s[0]] + Strip(s[1..])
  }

  /** The bracketed sequences of a text, as the stripper sees them. */
  function Bracketed(s: string): seq<string>
    decreases |s|
  {
    if s == "" then []
    else if s[0] == OPEN then
      var k := IndexOf(s[1..], CLOSE);
      if k < |s| - 1 then [s[1..k + 1]] + Bracketed(s[k + 2..]) else Bracketed(s[1..])
    else Bracketed(s[1..])
  }

  function WordEnd(s: string): (k: nat)
    ensures k <= |s|
    ensures k < |s| ==> IsSpace(s[k])
    ensures forall i :: 0 <= i < k ==> !IsSpace(s[i])
  {
    if s == "" || IsSpace(s[0]) then 0 else 1 + WordEnd(s[1..])
  }

  function Words(s: string): seq<string>
    decreases |s|
  {
    if s == "" then []
    else if IsSpace(s[0]) then Words(s[1..])
    else [s[..WordEnd(s)]] + Words(s[WordEnd(s)..])
  }

  function Join(words: seq<string>): string {
    if words == [] then "" else if |words| == 1 then words[0] else words[0] + [SPACE] + Join(words[1..])
  }

  function Sanitize(s: string): string {
    Join(Words(Strip(s)))
  }

  /** Where the scan goes on after an opening bracket: past its sequence, or past the bracket alone. */
  function AfterBracket(input: string, index: nat): (next: nat)
    requires index < |input|
    ensures index < next <= |input|
  {
    var close := IndexOf(input[index + 1..], CLOSE);
    if close < |input| - index - 1 then index + close + 2 else index + 1
  }

  lemma StripSequence(input: string, index: nat, close: nat)
    requires index < |input| && input[index] == OPEN
    requires close == IndexOf(input[index + 1..], CLOSE) && close < |input| - index - 1
    ensures Strip(input[index..]) == Strip(input[index + close + 2..])
  {
    var rest := input[index..];
    assert rest[1..] == input[index + 1..];
    assert rest[close + 2..] == input[index + close + 2..];
  }

  lemma StripStray(input: string, index: nat)
    requires index < |input| && input[index] == OPEN && IndexOf(input[index + 1..], CLOSE) >= |input| - index - 1
    ensures Strip(input[index..]) == Strip(input[index + 1..])
  {
    assert input[index..][1..] == input[index + 1..];
  }

  lemma StripOther(input: string, index: nat)
    requires index < |input| && input[index] != OPEN
    ensures Strip(input[index..])
            == if input[index] == CLOSE || Dropped(input[index]) then Strip(input[index + 1..])
               else [input[index]] + Strip(input[index + 1..])
  {
    assert input[index..][1..] == input[index + 1..];
  }

  /** Where the scan goes on after an opening bracket, what is left reads the same. */
  lemma StripBracket(input: string, index: nat, next: nat)
    requires index < |input| && input[index] == OPEN && next == AfterBracket(input, index)
    ensures Strip(input[index..]) == Strip(input[next..])
  {
    var close := IndexOf(input[index + 1..], CLOSE);
    if close < |input| - index - 1 {
      StripSequence(input, index, close);
    } else {
      StripStray(input, index);
    }
  }

  lemma StripWritten(input: string, index: nat, out: string)
    requires index < |input| && input[index] != OPEN
    ensures var c := input[index];
            out + Strip(input[index..]) == (if c == CLOSE || Dropped(c) then out else out + [c]) + Strip(input[index + 1..])
  {
    StripOther(input, index);
    var rest := Strip(input[index + 1..]);
    assert out + ([input[index]] + rest) == (out + [input[index]]) + rest;
  }

  /** Scans with an index, writing the kept characters to a builder. */
  method SanitizeText(input: string) returns (text: string)
    ensures text == Sanitize(input)
  {
    var out := "";
    var index := 0;
    assert input[0..] == input;
    while index < |input|
      invariant 0 <= index <= |input|
      invariant out + Strip(input[index..]) == Strip(input)
      decreases |input| - index
    {
      var c := input[index];
      if c == OPEN {
        ghost var next := AfterBracket(input, index);
        StripBracket(input, index, next);
        var close := IndexOf(input[index + 1..], CLOSE);
        if close < |input| - index - 1 {
          index := index + close + 2;
        } else {
          index := index + 1;
        }
        assert index == next;
        continue;
      }
      StripWritten(input, index, out);
      index := index + 1;
      if c == CLOSE || Dropped(c) {
        continue;
      }
      out := out + [c];
    }
    assert input[index..] == "" && out + "" == out;
    text := Join(Words(out));
  }

  // ----- what a sanitized text is -----

  predicate PlainChar(c: char) {
    c != OPEN && c != CLOSE && !Dropped(c)
  }

  predicate Plain(s: string) {
    forall i :: 0 <= i < |s| ==> PlainChar(s[i])
  }

  predicate Word(s: string) {
    s != "" && Plain(s) && forall i :: 0 <= i < |s| ==> !IsSpace(s[i])
  }

  predicate AllWords(words: seq<string>) {
    forall i :: 0 <= i < |words| ==> Word(words[i])
  }

  lemma {:induction false} StripIsPlain(s: string)
    ensures Plain(Strip(s))
    decreases |s|
  {
    if s != "" {
      if s[0] == OPEN {
        var k := IndexOf(s[1..], CLOSE);
        if k < |s| - 1 {
          StripIsPlain(s[k + 2..]);
        } else {
          StripIsPlain(s[1..]);
        }
      } else {
        StripIsPlain(s[1..]);
      }
    }
  }

  lemma {:induction false} StripKeepsPlain(s: string)
    requires Plain(s)
    ensures Strip(s) == s
  {
    if s != "" {
      assert PlainChar(s[0]);
      StripKeepsPlain(s[1..]);
    }
  }

  lemma {:induction false} WordsAreWords(s: string)
    requires Plain(s)
    ensures AllWords(Words(s))
    decreases |s|
  {
    if s != "" {
      if IsSpace(s[0]) {
        WordsAreWords(s[1..]);
      } else {
        WordsAreWords(s[WordEnd(s)..]);
      }
    }
  }

  lemma {:induction false} JoinIsPlain(words: seq<string>)
    requires AllWords(words)
    ensures Plain(Join(words))
    ensures forall i :: 0 <= i < |Join(words)| && IsSpace(Join(words)[i]) ==> Join(words)[i] == SPACE
  {
    if |words| > 1 {
      JoinIsPlain(words[1..]);
    } else if |words| == 1 {
      assert Word(words[0]);
    }
  }

  lemma WordEndOf(word: string, rest: string)
    requires Word(word) && (rest == "" || IsSpace(rest[0]))
    ensures WordEnd(word + rest) == |word|
  {
    var text := word + rest;
    assert forall i :: 0 <= i < |word| ==> text[i] == word[i];
    assert rest != "" ==> text[|word|] == rest[0];
  }

  /** Words separated by single spaces are found again. */
  lemma {:induction false} WordsOfJoin(words: seq<string>)
    requires AllWords(words)
    ensures Words(Join(words)) == words
  {
    if |words| == 1 {
      WordEndOf(words[0], "");
      assert words[0] + "" == words[0];
      assert words[0][|words[0]|..] == "";
    } else if |words| > 1 {
      var rest := [SPACE] + Join(words[1..]);
      WordsOfJoin(words[1..]);
      WordEndOf(words[0], rest);
      assert Join(words) == words[0] + rest;
      assert (words[0] + rest)[..|words[0]|] == words[0] && (words[0] + rest)[|words[0]|..] == rest;
      assert rest[1..] == Join(words[1..]);
    }
  }

  /** A sanitized text has no brackets, no control characters and no whitespace but single spaces between words. */
  lemma SanitizedIsClean(s: string)
    ensures Plain(Sanitize(s))
    ensures exists words :: AllWords(words) && Sanitize(s) == Join(words)
  {
    StripIsPlain(s);
    WordsAreWords(Strip(s));
    JoinIsPlain(Words(Strip(s)));
  }

  /** Sanitizing again changes nothing. */
  lemma SanitizeIsIdempotent(s: string)
    ensures Sanitize(Sanitize(s)) == Sanitize(s)
  {
    SanitizedIsClean(s);
    StripKeepsPlain(Sanitize(s));
    StripIsPlain(s);
    WordsAreWords(Strip(s));
    WordsOfJoin(Words(Strip(s)));
  }

  // ----- which characters are kept -----

  /** Position `i` lies in a bracketed sequence: from a bracket that opens to the first one that closes after it. */
  ghost predicate Inside(s: string, i: nat) {
    exists open: nat, close: nat :: Encloses(s, open, close) && open <= i <= close
  }

  /** A bracket that opens and the first one that closes after it. */
  predicate Encloses(s: string, open: nat, close: nat) {
    close < |s| && Begins(s, open, close) && s[close] == CLOSE
  }

  /** What opened at `open` is not closed before `to`. */
  predicate Begins(s: string, open: nat, to: nat) {
    open < to <= |s| && s[open] == OPEN && NoCloseIn(s, open, to)
  }

  predicate NoCloseIn(s: string, from: nat, to: nat)
    requires to <= |s|
  {
    forall j :: from <= j < to ==> s[j] != CLOSE
  }

  /** Neither a bracket nor a control character, unless that is white space: tabs and line ends stay for now. */
  predicate Sayable(c: char) {
    && c != '[' && c != ']'
    && (c as int in {9, 10, 11, 12, 13, 0x85} || !(c as int <= 0x1F || 0x7F <= c as int <= 0x9F))
  }

  /** The white space that separates words. */
  lemma SpacesAre(c: char)
    ensures IsSpace(c) <==> c as int in {9, 10, 11, 12, 13, 0x20, 0x85, 0xA0, 0x1680, 0x2000, 0x2001, 0x2002, 0x2003,
                                         0x2004, 0x2005, 0x2006, 0x2007, 0x2008, 0x2009, 0x200A, 0x2028, 0x2029,
                                         0x202F, 0x205F, 0x3000}
  {
  }

  lemma SayableIsPlain(c: char)
    ensures Sayable(c) <==> PlainChar(c)
  {
    SpacesAre(c);
  }

  /** The sayable characters outside brackets, in order. */
  ghost function KeptFrom(s: string, i: nat): string
    requires i <= |s|
    decreases |s| - i
  {
    if i == |s| then "" else (if Sayable(s[i]) && !Inside(s, i) then [s[i]] else "") + KeptFrom(s, i + 1)
  }

  /** No sequence that began before `i` reaches it. */
  ghost predicate Clear(s: string, i: nat)
    requires i <= |s|
  {
    forall open: nat :: Begins(s, open, i) ==> NoCloseIn(s, i, |s|)
  }

  lemma ClearIsOutside(s: string, i: nat)
    requires i < |s| && Clear(s, i) && s[i] != OPEN && s[i] != CLOSE
    ensures !Inside(s, i)
  {
    forall open: nat, close: nat | Encloses(s, open, close) ensures !(open <= i <= close) {
      if open <= i <= close {
        assert Begins(s, open, i);
        assert false;
      }
    }
  }

  lemma ClearSteps(s: string, i: nat)
    requires i < |s| && Clear(s, i) && s[i] != OPEN
    ensures Clear(s, i + 1)
  {
    var next := i + 1;
    forall open: nat | Begins(s, open, next) ensures NoCloseIn(s, next, |s|) {
      assert Begins(s, open, i);
    }
  }

  lemma {:induction false} SkipsSequence(s: string, open: nat, close: nat, i: nat)
    requires Encloses(s, open, close) && open <= i <= close
    ensures KeptFrom(s, i) == KeptFrom(s, close + 1)
    decreases close - i
  {
    assert Inside(s, i);
    if i < close {
      SkipsSequence(s, open, close, i + 1);
    }
  }

  /** The scan goes on after the first bracket that closes, or with the next character if none does. */
  lemma NextCloses(s: string, i: nat)
    requires i < |s| && s[i] == OPEN
    ensures if AfterBracket(s, i) == i + 1 then NoCloseIn(s, i + 1, |s|) else Encloses(s, i, AfterBracket(s, i) - 1)
  {
    var rest := s[i + 1..];
    assert forall j :: i < j < |s| ==> s[j] == rest[j - i - 1];
    var k := IndexOf(rest, CLOSE);
    if k < |rest| {
      assert NoCloseIn(s, i, i + 1 + k);
    }
  }

  /** Nothing that began before reaches past the end of a sequence. */
  lemma ClearAfter(s: string, close: nat)
    requires close < |s| && s[close] == CLOSE
    ensures Clear(s, close + 1)
  {
    var next := close + 1;
    assert forall open: nat :: !Begins(s, open, next);
  }

  /** A bracket that is never closed goes alone. */
  lemma StrayIsDropped(s: string, i: nat)
    requires i < |s| && s[i] == OPEN
    ensures KeptFrom(s, i) == KeptFrom(s, i + 1)
  {
  }

  /** Any other character is kept exactly if the scan keeps it. */
  lemma KeepsCharacter(s: string, i: nat)
    requires i < |s| && Clear(s, i) && s[i] != OPEN
    ensures KeptFrom(s, i) == (if s[i] == CLOSE || Dropped(s[i]) then "" else [s[i]]) + KeptFrom(s, i + 1)
    ensures Clear(s, i + 1)
  {
    SayableIsPlain(s[i]);
    ClearSteps(s, i);
    if s[i] != CLOSE {
      ClearIsOutside(s, i);
    }
  }

  lemma {:induction false} StripKeepsFrom(s: string, i: nat)
    requires i <= |s| && Clear(s, i)
    ensures Strip(s[i..]) == KeptFrom(s, i)
    decreases |s| - i
  {
    if i < |s| {
      if s[i] == OPEN {
        var next := AfterBracket(s, i);
        StripBracket(s, i, next);
        NextCloses(s, i);
        if next == i + 1 {
          StrayIsDropped(s, i);
        } else {
          SkipsSequence(s, i, next - 1, i);
          ClearAfter(s, next - 1);
        }
        StripKeepsFrom(s, next);
      } else {
        KeepsCharacter(s, i);
        StripKeepsFrom(s, i + 1);
        StripOther(s, i);
      }
    }
  }

  /** Stripping keeps exactly the sayable characters outside bracketed sequences; a bracket without a partner goes alone. */
  lemma StripKeepsExactly(s: string)
    ensures Strip(s) == KeptFrom(s, 0)
  {
    StripKeepsFrom(s, 0);
    assert s[0..] == s;
  }

  // ----- spaces aside -----

  function NoSpaces(s: string): string {
    if s == "" then "" else (if IsSpace(s[0]) then "" else [s[0]]) + NoSpaces(s[1..])
  }

  lemma {:induction false} NoSpacesConcat(a: string, b: string)
    ensures NoSpaces(a + b) == NoSpaces(a) + NoSpaces(b)
  {
    if a == "" {
      assert a + b == b;
    } else {
      var first := if IsSpace(a[0]) then "" else [a[0]];
      NoSpacesConcat(a[1..], b);
      assert (a + b)[1..] == a[1..] + b;
      assert first + (NoSpaces(a[1..]) + NoSpaces(b)) == (first + NoSpaces(a[1..])) + NoSpaces(b);
    }
  }

  /** Normalizing whitespace changes nothing else. */
  lemma {:induction false} NormalizingKeepsText(s: string)
    ensures NoSpaces(Join(Words(s))) == NoSpaces(s)
    decreases |s|
  {
    if s != "" {
      if IsSpace(s[0]) {
        NormalizingKeepsText(s[1..]);
      } else {
        var k := WordEnd(s);
        NormalizingKeepsText(s[k..]);
        NoSpacesConcat(s[..k], s[k..]);
        assert s == s[..k] + s[k..];
        JoinCons(s[..k], Words(s[k..]));
      }
    }
  }

  lemma JoinCons(word: string, words: seq<string>)
    ensures NoSpaces(Join([word] + words)) == NoSpaces(word) + NoSpaces(Join(words))
  {
    var all := [word] + words;
    if words == [] {
      assert NoSpaces(word) + "" == NoSpaces(word);
    } else {
      assert all[1..] == words;
      NoSpacesConcat(word + [SPACE], Join(words));
      NoSpacesConcat(word, [SPACE]);
      assert NoSpaces([SPACE]) == "";
    }
  }

  // ----- texts put together from plain pieces and tags -----

  predicate TagWord(w: string) {
    OPEN !in w && CLOSE !in w
  }

  lemma {:induction false} StripPlainPrefix(a: string, b: string)
    requires Plain(a)
    ensures Strip(a + b) == a + Strip(b) && Bracketed(a + b) == Bracketed(b)
  {
    if a == "" {
      assert a + b == b;
    } else {
      assert PlainChar(a[0]);
      StripPlainPrefix(a[1..], b);
      assert (a + b)[1..] == a[1..] + b;
    }
  }

  lemma StripTag(w: string, b: string)
    requires TagWord(w)
    ensures Strip([OPEN] + w + [CLOSE] + b) == Strip(b) && Bracketed([OPEN] + w + [CLOSE] + b) == [w] + Bracketed(b)
  {
    var s := [OPEN] + w + [CLOSE] + b;
    var k := IndexOf(s[1..], CLOSE);
    assert s[1..][|w|] == CLOSE;
    assert forall i :: 0 <= i < |w| ==> s[1..][i] == w[i];
    assert k == |w|;
    assert s[k + 2..] == b && s[1..k + 1] == w;
  }
}
