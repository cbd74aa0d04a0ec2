/**
 The scan of raw JSON bytes for escapes that cannot denote text: dangling backslashes, short or malformed
 `\u` escapes, and surrogates that are not a high one directly followed by a low one (RFC 8259, section 7).
 */
module SurrogateScan {
  type Byte = x: int | 0 <= x < 256 witness 0

  const QUOTE: Byte := 0x22
  const BACKSLASH: Byte := 0x5C
  const LETTER_U: Byte := 0x75

  // ----- hexadecimal quads -----

  predicate IsHex(b: Byte) {
    0x30 <= b <= 0x39 || 0x61 <= b <= 0x66 || 0x41 <= b <= 0x46
  }

  function HexValue(b: Byte): int
    requires IsHex(b)
  {
    if b <= 0x39 then b - 0x30 else if b >= 0x61 then b - 0x61 + 10 else b - 0x41 + 10
  }

  predicate AllHex(digits: seq<Byte>) {
    forall i :: 0 <= i < |digits| ==> IsHex(digits[i])
  }

  /** Big-endian value. */
  function Value(digits: seq<Byte>): int
    requires AllHex(digits)
  {
    if digits == [] then 0 else Value(digits[..|digits| - 1]) * 16 + HexValue(digits[|digits| - 1])
  }

  predicate IsHigh(value: int) {
    0xD800 <= value <= 0xDBFF
  }

  predicate IsLow(value: int) {
    0xDC00 <= value <= 0xDFFF
  }

  predicate Quad(digits: seq<Byte>) {
    |digits| == 4 && AllHex(digits)
  }

  lemma {:induction false} ValueBound(digits: seq<Byte>)
    requires AllHex(digits) && |digits| <= 4
    ensures 0 <= Value(digits)
    ensures |digits| == 0 ==> Value(digits) == 0
    ensures |digits| == 1 ==> Value(digits) < 0x10
    ensures |digits| == 2 ==> Value(digits) < 0x100
    ensures |digits| == 3 ==> Value(digits) < 0x1000
    ensures |digits| == 4 ==> Value(digits) < 0x10000
  {
    if digits != [] {
      ValueBound(digits[..|digits| - 1]);
    }
  }

  /** The digit of value `v`, in either case. */
  function Digit(v: int, upper: bool): Byte
    requires 0 <= v < 16
  {
    if v < 10 then '0' as int + v else if upper then 'A' as int + (v - 10) else 'a' as int + (v - 10)
  }

  /** Exactly the sixteen digits in both cases are read, each with its value. */
  lemma DigitsExactly(b: Byte)
    ensures IsHex(b) <==> exists v, upper :: 0 <= v < 16 && b == Digit(v, upper)
    ensures forall v, upper :: 0 <= v < 16 && b == Digit(v, upper) ==> HexValue(b) == v
  {
    if IsHex(b) {
      assert b == Digit(HexValue(b), b < 0x61);
    }
  }

  lemma OneMoreDigit(digits: seq<Byte>, v: int, upper: bool)
    requires AllHex(digits) && 0 <= v < 16
    ensures AllHex(digits + [Digit(v, upper)]) && Value(digits + [Digit(v, upper)]) == Value(digits) * 16 + v
  {
    DigitsExactly(Digit(v, upper));
    var more := digits + [Digit(v, upper)];
    assert more[..|more| - 1] == digits;
  }

  /** The last `n` digits of a value, the highest first. */
  function Spelled(value: int, n: nat, upper: bool): seq<Byte>
    requires 0 <= value
  {
    if n == 0 then [] else Spelled(value / 16, n - 1, upper) + [Digit(value % 16, upper)]
  }

  function Power16(n: nat): (r: int)
    ensures r > 0
  {
    if n == 0 then 1 else 16 * Power16(n - 1)
  }

  /** Digits read back as what they spell: four of them make every sixteen-bit value. */
  lemma {:induction false} SpelledReads(value: int, n: nat, upper: bool)
    requires 0 <= value < Power16(n)
    ensures |Spelled(value, n, upper)| == n && AllHex(Spelled(value, n, upper)) && Value(Spelled(value, n, upper)) == value
  {
    if n > 0 {
      SpelledReads(value / 16, n - 1, upper);
      OneMoreDigit(Spelled(value / 16, n - 1, upper), value % 16, upper);
    }
  }

  predicate Encodes(high: int, low: int, c: int) {
    0x10000 <= c <= 0x10FFFF && high == 0xD800 + (c - 0x10000) / 0x400 && low == 0xDC00 + (c - 0x10000) % 0x400
  }

  /** Pairs of a high and a low surrogate are the code points above 0xFFFF, each exactly once. */
  lemma PairsExactly(high: int, low: int)
    ensures IsHigh(high) && IsLow(low) <==> exists c :: Encodes(high, low, c)
    ensures forall c, c' :: Encodes(high, low, c) && Encodes(high, low, c') ==> c == c'
  {
    if IsHigh(high) && IsLow(low) {
      assert Encodes(high, low, 0x10000 + (high - 0xD800) * 0x400 + (low - 0xDC00));
    }
  }

  /** Shifts and adds in sixteen bits, which four digits cannot overflow. */
  method ParseHexQuad(digits: seq<Byte>) returns (parsed: int, ok: bool)
    ensures ok <==> Quad(digits)
    ensures ok ==> parsed == Value(digits)
  {
    parsed := 0;
    if |digits| != 4 {
      return 0, false;
    }
    for i := 0 to 4
      invariant AllHex(digits[..i]) && parsed == Value(digits[..i])
    {
      assert digits[..i + 1][..i] == digits[..i];
      ValueBound(digits[..i]);
      if !IsHex(digits[i]) {
        return 0, false;
      }
      parsed := (parsed * 16) % 0x10000 + HexValue(digits[i]);
    }
    assert digits[..4] == digits;
    return parsed, true;
  }

  // ----- what may stand in a payload -----

  /** One lexical unit: a byte, a quote, a one-letter escape, an escaped scalar, or an escaped surrogate pair. */
  datatype Unit =
    | Plain(b: Byte)
    | Quote
    | Short(b: Byte)
    | Scalar(digits: seq<Byte>)
    | Pair(high: seq<Byte>, low: seq<Byte>)

  function Written(u: Unit): seq<Byte> {
    match u
    case Plain(b) => [b]
    case Quote => [QUOTE]
    case Short(b) => [BACKSLASH, b]
    case Scalar(digits) => [BACKSLASH, LETTER_U] + digits
    case Pair(high, low) => [BACKSLASH, LETTER_U] + high + [BACKSLASH, LETTER_U] + low
  }

  /** Outside strings a backslash is an ordinary byte, left to the JSON decoder. */
  predicate Proper(u: Unit, inString: bool) {
    match u
    case Plain(b) => b != QUOTE && (inString ==> b != BACKSLASH)
    case Quote => true
    case Short(b) => inString && b != LETTER_U
    case Scalar(digits) => inString && Quad(digits) && !IsHigh(Value(digits)) && !IsLow(Value(digits))
    case Pair(high, low) => inString && Quad(high) && Quad(low) && IsHigh(Value(high)) && IsLow(Value(low))
  }

  function Text(units: seq<Unit>): seq<Byte> {
    if units == [] then [] else Written(units[0]) + Text(units[1..])
  }

  predicate AllProper(units: seq<Unit>, inString: bool) {
    units == [] || (Proper(units[0], inString) && AllProper(units[1..], if units[0].Quote? then !inString else inString))
  }

  /** The payload is a sequence of proper units. */
  ghost predicate Sound(payload: seq<Byte>, inString: bool) {
    exists units :: Text(units) == payload && AllProper(units, inString)
  }

  // ----- the scan -----

  /** The verdict on what is left of the payload. */
  predicate Scan(rest: seq<Byte>, inString: bool)
    decreases |rest|
  {
    if rest == [] then true
    else if rest[0] == QUOTE then Scan(rest[1..], !inString)
    else if rest[0] != BACKSLASH || !inString then Scan(rest[1..], inString)
    else if |rest| < 2 then false
    else if rest[1] != LETTER_U then Scan(rest[2..], inString)
    else if |rest| < 6 || !Quad(rest[2..6]) || IsLow(Value(rest[2..6])) then false
    else if !IsHigh(Value(rest[2..6])) then Scan(rest[6..], inString)
    else if |rest| < 12 || rest[6] != BACKSLASH || rest[7] != LETTER_U then false
    else if !Quad(rest[8..12]) || !IsLow(Value(rest[8..12])) then false
    else Scan(rest[12..], inString)
  }

  method ValidSurrogatePairs(payload: seq<Byte>) returns (ok: bool)
    ensures ok == Scan(payload, false)
  {
    var inString := false;
    var index := 0;
    while index < |payload|
      invariant 0 <= index <= |payload|
      invariant Scan(payload[index..], inString) == Scan(payload, false)
      decreases |payload| - index
    {
      ghost var rest := payload[index..];
      if payload[index] == QUOTE {
        inString := !inString;
        index := index + 1;
        assert rest[1..] == payload[index..];
        continue;
      }
      if payload[index] != BACKSLASH || !inString {
        index := index + 1;
        assert rest[1..] == payload[index..];
        continue;
      }
      index := index + 1;
      if index >= |payload| {
        return false;
      }
      if payload[index] != LETTER_U {
        index := index + 1;
        assert rest[2..] == payload[index..];
        continue;
      }
      if index + 4 >= |payload| {
        return false;
      }
      assert payload[index + 1..index + 5] == rest[2..6];
      var value, parsed := ParseHexQuad(payload[index + 1..index + 5]);
      if !parsed {
        return false;
      }
      index := index + 4;
      if IsLow(value) {
        return false;
      }
      if !IsHigh(value) {
        index := index + 1;
        assert rest[6..] == payload[index..];
        continue;
      }
      if index + 6 >= |payload| || payload[index + 1] != BACKSLASH || payload[index + 2] != LETTER_U {
        return false;
      }
      assert payload[index + 3..index + 7] == rest[8..12];
      var low, alsoParsed := ParseHexQuad(payload[index + 3..index + 7]);
      if !alsoParsed || !IsLow(low) {
        return false;
      }
      index := index + 7;
      assert rest[12..] == payload[index..];
    }
    ok := true;
  }

  // ----- the scan decides soundness -----

  /** The units a successful scan steps over. */
  lemma {:induction false} ScanFindsUnits(rest: seq<Byte>, inString: bool) returns (units: seq<Unit>)
    requires Scan(rest, inString)
    ensures Text(units) == rest && AllProper(units, inString)
    decreases |rest|
  {
    if rest == [] {
      units := [];
      return;
    }
    var first: Unit;
    if rest[0] == QUOTE {
      first := Quote;
    } else if rest[0] != BACKSLASH || !inString {
      first := Plain(rest[0]);
    } else if rest[1] != LETTER_U {
      first := Short(rest[1]);
    } else if !IsHigh(Value(rest[2..6])) {
      first := Scalar(rest[2..6]);
    } else {
      first := Pair(rest[2..6], rest[8..12]);
    }
    var written := Written(first);
    assert rest == written + rest[|written|..];
    var more := ScanFindsUnits(rest[|written|..], if first.Quote? then !inString else inString);
    units := [first] + more;
    assert units[1..] == more;
  }

  /** The scan steps over a proper unit whatever follows it. */
  lemma ScanStepsOver(u: Unit, after: seq<Byte>, inString: bool)
    requires Proper(u, inString)
    ensures Scan(Written(u) + after, inString) == Scan(after, if u.Quote? then !inString else inString)
  {
    var rest := Written(u) + after;
    match u {
      case Plain(b) => assert rest[1..] == after;
      case Quote => assert rest[1..] == after;
      case Short(b) => assert rest[2..] == after;
      case Scalar(digits) => assert rest[2..6] == digits && rest[6..] == after;
      case Pair(high, low) => assert rest[2..6] == high && rest[8..12] == low && rest[12..] == after;
    }
  }

  lemma {:induction false} UnitsPassScan(units: seq<Unit>, inString: bool)
    requires AllProper(units, inString)
    ensures Scan(Text(units), inString)
  {
    if units != [] {
      ScanStepsOver(units[0], Text(units[1..]), inString);
      UnitsPassScan(units[1..], if units[0].Quote? then !inString else inString);
    }
  }

  /** A payload is let through exactly if no backslash dangles, every `\u` has four hex digits and surrogates are paired. */
  lemma ScanDecidesSoundness(payload: seq<Byte>)
    ensures Scan(payload, false) <==> Sound(payload, false)
  {
    if Scan(payload, false) {
      var units := ScanFindsUnits(payload, false);
    }
    if Sound(payload, false) {
      var units :| Text(units) == payload && AllProper(units, false);
      UnitsPassScan(units, false);
    }
  }

  /** There is only one way to read a payload, so what it denotes is unambiguous. */
  lemma {:induction false} ReadingIsUnique(a: seq<Unit>, b: seq<Unit>, inString: bool)
    requires Text(a) == Text(b) && AllProper(a, inString) && AllProper(b, inString)
    ensures a == b
  {
    if a == [] || b == [] {
      assert a == b;
    } else {
      SameFirst(a[0], Text(a[1..]), b[0], Text(b[1..]), inString);
      assert Text(a)[|Written(a[0])|..] == Text(a[1..]);
      assert Text(b)[|Written(b[0])|..] == Text(b[1..]);
      ReadingIsUnique(a[1..], b[1..], if a[0].Quote? then !inString else inString);
      assert a == [a[0]] + a[1..] && b == [b[0]] + b[1..];
    }
  }

  lemma SameFirst(u: Unit, after: seq<Byte>, v: Unit, more: seq<Byte>, inString: bool)
    requires Proper(u, inString) && Proper(v, inString) && Written(u) + after == Written(v) + more
    ensures u == v
  {
    var text := Written(u) + after;
    assert text[0] == Written(u)[0] && text[0] == Written(v)[0];
    EscapeAt(u, after);
    EscapeAt(v, more);
  }

  /** Where an escape's parts stand in the text that starts with it. */
  lemma EscapeAt(u: Unit, after: seq<Byte>)
    requires Proper(u, true) || Proper(u, false)
    ensures var text := Written(u) + after;
            && (u.Short? ==> text[1] == u.b)
            && (u.Scalar? ==> text[1] == LETTER_U && text[2..6] == u.digits)
            && (u.Pair? ==> text[1] == LETTER_U && text[2..6] == u.high && text[8..12] == u.low)
  {
  }
}
