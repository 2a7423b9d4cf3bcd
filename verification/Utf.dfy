/** The UTF-8 / UTF-16 codec behind string deltas. A string value is a byte string; delta
    counts are UTF-16 code units. Masks and shifts are written as arithmetic on integers. */
module Utf {
  import opened Values

  type Unit = u: int | 0 <= u < 0x10000
  type Units = seq<Unit>

  predicate IsHigh(u: Unit) { 0xD800 <= u <= 0xDBFF }

  predicate IsLow(u: Unit) { 0xDC00 <= u <= 0xDFFF }

  predicate IsContinuation(b: Byte) { 0x80 <= b < 0xC0 }

  /** Unicode scalar values: every code point that is not a surrogate. */
  predicate IsScalar(c: int) { 0 <= c <= 0x10FFFF && !(0xD800 <= c <= 0xDFFF) }

  // ---------------------------------------------------------------- one character

  /** The six payload bits of a continuation byte. */
  function SixBits(b: Byte): (r: nat)
    requires IsContinuation(b)
    ensures r < 64 && b == 0x80 + r
  {
    b - 0x80
  }

  /** The scalar value of a surrogate pair. */
  function PairValue(high: Unit, low: Unit): (c: nat)
    requires IsHigh(high) && IsLow(low)
    ensures 0x10000 <= c <= 0x10FFFF
  {
    var h: nat := high - 0xD800;
    var l: nat := low - 0xDC00;
    0x10000 + h * 1024 + l
  }

  datatype Decoded = Decoded(codePoint: nat, length: nat)

  /** Length announced by a lead byte; 0 for a byte that cannot lead. */
  function LeadLength(b: Byte): nat {
    if b < 0x80 then 1
    else if 0xC0 <= b < 0xE0 then 2
    else if 0xE0 <= b < 0xF0 then 3
    else if 0xF0 <= b < 0xF8 then 4
    else 0
  }

  /** Payload bits of a lead byte. */
  function LeadBits(b: Byte): nat
    requires LeadLength(b) != 0
  {
    match LeadLength(b)
    case 1 => b
    case 2 => b - 0xC0
    case 3 => b - 0xE0
    case _ => b - 0xF0
  }

  predicate Continues(t: Bytes, n: nat)
    requires n <= |t|
  {
    forall i :: 1 <= i < n ==> IsContinuation(t[i])
  }

  /** Lead bits followed by six bits of each of the next `n - 1` bytes. */
  function Accumulate(t: Bytes, n: nat): nat
    requires 1 <= n <= |t| && LeadLength(t[0]) != 0 && Continues(t, n)
  {
    if n == 1 then LeadBits(t[0]) else Accumulate(t, n - 1) * 64 + SixBits(t[n - 1])
  }

  predicate Acceptable(codePoint: nat, length: nat) {
    && !(length == 2 && codePoint < 0x80)
    && !(length == 3 && codePoint < 0x800)
    && !(length == 4 && codePoint < 0x10000)
    && IsScalar(codePoint)
  }

  function DecodeChar(t: Bytes): Option<Decoded>
    requires t != []
  {
    var n := LeadLength(t[0]);
    if n == 0 || n > |t| || !Continues(t, n) then None
    else
      var c := Accumulate(t, n);
      if Acceptable(c, n) then Some(Decoded(c, n)) else None
  }

  function EncodeChar(c: nat): (t: Bytes)
    requires c <= 0x10FFFF
    ensures 1 <= |t| <= 4
  {
    if c < 0x80 then [c]
    else if c < 0x800 then [0xC0 + c / 64, 0x80 + c % 64]
    else if c < 0x10000 then [0xE0 + c / 4096, 0x80 + c / 64 % 64, 0x80 + c % 64]
    else [0xF0 + c / 262144, 0x80 + c / 4096 % 64, 0x80 + c / 64 % 64, 0x80 + c % 64]
  }

  function UnitsOf(c: nat): (u: Units)
    requires c <= 0x10FFFF
    ensures 1 <= |u| <= 2
  {
    if c <= 0xFFFF then [c] else [0xD800 + (c - 0x10000) / 1024, 0xDC00 + (c - 0x10000) % 1024]
  }

  /** The scalar value at the front of a UTF-16 string, with the units it takes. */
  function ReadUnits(u: Units): (r: Option<Decoded>)
    requires u != []
    ensures r.Some? ==> IsScalar(r.value.codePoint) && 1 <= r.value.length <= |u|
  {
    if IsHigh(u[0]) then
      if |u| < 2 || !IsLow(u[1]) then None
      else Some(Decoded(PairValue(u[0], u[1]), 2))
    else if IsLow(u[0]) then None
    else Some(Decoded(u[0], 1))
  }

  // ---------------------------------------------------------------- whole strings

  function DecodeUtf8(t: Bytes): Option<Units>
    decreases |t|
  {
    if t == [] then Some([])
    else
      match DecodeChar(t)
      case None => None
      case Some(d) =>
        match DecodeUtf8(t[d.length..])
        case None => None
        case Some(rest) => Some(UnitsOf(d.codePoint) + rest)
  }

  function EncodeUtf8(u: Units): Option<Bytes>
    decreases |u|
  {
    if u == [] then Some([])
    else
      match ReadUnits(u)
      case None => None
      case Some(d) =>
        match EncodeUtf8(u[d.length..])
        case None => None
        case Some(rest) => Some(EncodeChar(d.codePoint) + rest)
  }

  /** Well-formed UTF-16 (section 2 of RFC 2781): surrogates come in high, low pairs. */
  predicate WellFormed16(u: Units) {
    && (forall i :: 0 <= i < |u| && IsHigh(u[i]) ==> i + 1 < |u| && IsLow(u[i + 1]))
    && (forall i :: 0 <= i < |u| && IsLow(u[i]) ==> i > 0 && IsHigh(u[i - 1]))
  }

  /** One character by the byte table of section 4 of RFC 3629; 0 if none starts here. */
  function CharLength(t: Bytes): nat {
    if |t| >= 1 && t[0] <= 0x7F then 1
    else if |t| >= 2 && 0xC2 <= t[0] <= 0xDF && IsContinuation(t[1]) then 2
    else if |t| >= 3 && IsContinuation(t[2]) &&
            ((t[0] == 0xE0 && 0xA0 <= t[1] <= 0xBF)
            || (0xE1 <= t[0] <= 0xEC && IsContinuation(t[1]))
            || (t[0] == 0xED && 0x80 <= t[1] <= 0x9F)
            || (0xEE <= t[0] <= 0xEF && IsContinuation(t[1]))) then 3
    else if |t| >= 4 && IsContinuation(t[2]) && IsContinuation(t[3]) &&
            ((t[0] == 0xF0 && 0x90 <= t[1] <= 0xBF)
            || (0xF1 <= t[0] <= 0xF3 && IsContinuation(t[1]))
            || (t[0] == 0xF4 && 0x80 <= t[1] <= 0x8F)) then 4
    else 0
  }

  /** Well-formed UTF-8 by that table. */
  predicate WellFormed8(t: Bytes)
    decreases |t|
  {
    t == [] || (0 < CharLength(t) <= |t| && WellFormed8(t[CharLength(t)..]))
  }

  // ---------------------------------------------------------------- one character, both ways

  lemma {:induction false} AccumulateUnrolled(t: Bytes, n: nat)
    requires 1 <= n <= |t| && LeadLength(t[0]) == n && Continues(t, n)
    ensures n <= 4
    ensures n == 1 ==> Accumulate(t, n) == LeadBits(t[0])
    ensures n == 2 ==> Accumulate(t, n) == LeadBits(t[0]) * 64 + SixBits(t[1])
    ensures n == 3 ==> Accumulate(t, n) == LeadBits(t[0]) * 4096 + SixBits(t[1]) * 64 + SixBits(t[2])
    ensures n == 4 ==> Accumulate(t, n) ==
                       LeadBits(t[0]) * 262144 + SixBits(t[1]) * 4096 + SixBits(t[2]) * 64 + SixBits(t[3])
  {
    if n >= 2 {
      assert Accumulate(t, 2) == Accumulate(t, 1) * 64 + SixBits(t[1]);
    }
    if n >= 3 {
      assert Accumulate(t, 3) == Accumulate(t, 2) * 64 + SixBits(t[2]);
    }
  }

  /** A number built from a lead part and three six-bit groups gives the parts back. */
  lemma {:induction false} Groups(a: nat, b: nat, c: nat, d: nat, x: nat)
    requires b < 64 && c < 64 && d < 64
    requires x == a * 262144 + b * 4096 + c * 64 + d
    ensures x % 64 == d
    ensures x / 64 == a * 4096 + b * 64 + c && x / 64 % 64 == c
    ensures x / 4096 == a * 64 + b && x / 4096 % 64 == b
    ensures x / 262144 == a
  {
    var y := a * 4096 + b * 64 + c;
    assert x == y * 64 + d;
    assert x / 64 == y;
    var z := a * 64 + b;
    assert y == z * 64 + c;
    assert x == z * 4096 + (c * 64 + d);
    assert x == a * 262144 + (b * 4096 + c * 64 + d);
  }

  lemma {:induction false} DecodeThenEncodeChar(t: Bytes)
    requires t != [] && DecodeChar(t).Some?
    ensures var d := DecodeChar(t).value;
            1 <= d.length <= |t| && IsScalar(d.codePoint) && EncodeChar(d.codePoint) == t[..d.length]
  {
    var n := LeadLength(t[0]);
    var x := Accumulate(t, n);
    AccumulateUnrolled(t, n);
    if n == 2 {
      Groups(0, 0, LeadBits(t[0]), SixBits(t[1]), x);
    } else if n == 3 {
      Groups(0, LeadBits(t[0]), SixBits(t[1]), SixBits(t[2]), x);
    } else if n == 4 {
      Groups(LeadBits(t[0]), SixBits(t[1]), SixBits(t[2]), SixBits(t[3]), x);
    }
    EncodedBytes(x, n);
  }

  /** The bytes of an encoded character, by length. */
  lemma {:induction false} EncodedBytes(x: nat, n: nat)
    requires 1 <= n <= 4 && Acceptable(x, n)
    requires n == 1 ==> x < 0x80
    requires n == 2 ==> x < 0x800
    requires n == 3 ==> x < 0x10000
    ensures |EncodeChar(x)| == n
    ensures n == 1 ==> EncodeChar(x) == [x]
    ensures n == 2 ==> EncodeChar(x) == [0xC0 + x / 64, 0x80 + x % 64]
    ensures n == 3 ==> EncodeChar(x) == [0xE0 + x / 4096, 0x80 + x / 64 % 64, 0x80 + x % 64]
    ensures n == 4 ==> EncodeChar(x) == [0xF0 + x / 262144, 0x80 + x / 4096 % 64, 0x80 + x / 64 % 64, 0x80 + x % 64]
  {
  }

  lemma {:induction false} EncodeThenDecodeChar(c: nat, rest: Bytes)
    requires IsScalar(c)
    ensures DecodeChar(EncodeChar(c) + rest) == Some(Decoded(c, |EncodeChar(c)|))
  {
    var e := EncodeChar(c);
    var t := e + rest;
    var n := |e|;
    assert forall i :: 0 <= i < n ==> t[i] == e[i];
    LeadOfEncoded(c);
    assert Continues(t, n);
    AccumulateUnrolled(t, n);
    Recompose(c);
  }

  lemma {:induction false} LeadOfEncoded(c: nat)
    requires c <= 0x10FFFF
    ensures LeadLength(EncodeChar(c)[0]) == |EncodeChar(c)|
    ensures forall i :: 1 <= i < |EncodeChar(c)| ==> IsContinuation(EncodeChar(c)[i])
  {
  }

  /** Splitting a code point into six-bit groups loses nothing. */
  lemma {:induction false} Recompose(c: nat)
    ensures c == c / 64 * 64 + c % 64
    ensures c == c / 4096 * 4096 + c / 64 % 64 * 64 + c % 64
    ensures c == c / 262144 * 262144 + c / 4096 % 64 * 4096 + c / 64 % 64 * 64 + c % 64
  {
    assert c / 64 / 64 == c / 4096;
    assert c / 4096 / 64 == c / 262144;
  }

  lemma {:induction false} UnitsThenRead(c: nat, rest: Units)
    requires IsScalar(c)
    ensures ReadUnits(UnitsOf(c) + rest) == Some(Decoded(c, |UnitsOf(c)|))
  {
  }

  lemma {:induction false} ReadThenUnits(u: Units)
    requires u != [] && ReadUnits(u).Some?
    ensures UnitsOf(ReadUnits(u).value.codePoint) == u[..ReadUnits(u).value.length]
  {
  }

  /** The decoder accepts a character exactly where the byte table does. */
  lemma {:induction false} DecodeCharIff(t: Bytes)
    requires t != []
    ensures DecodeChar(t).Some? <==> CharLength(t) > 0
    ensures DecodeChar(t).Some? ==> DecodeChar(t).value.length == CharLength(t)
  {
    var n := LeadLength(t[0]);
    if 1 <= n <= |t| {
      assert n >= 2 && Continues(t, n) ==> IsContinuation(t[1]);
      assert n >= 3 && Continues(t, n) ==> IsContinuation(t[2]);
      assert n >= 4 && Continues(t, n) ==> IsContinuation(t[3]);
      if Continues(t, n) {
        AccumulateUnrolled(t, n);
      }
    }
  }

  // ---------------------------------------------------------------- whole strings, both ways

  /** What is left to do after `result` has been produced. */
  ghost function Prepended<T>(result: seq<T>, rest: Option<seq<T>>): Option<seq<T>> {
    match rest
    case None => None
    case Some(tail) => Some(result + tail)
  }

  lemma {:induction false} PrependedNil<T>(result: seq<T>, rest: Option<seq<T>>)
    ensures Prepended([], rest) == rest
    ensures Prepended(result, Some([])) == Some(result)
  {
    if rest.Some? {
      assert [] + rest.value == rest.value;
    }
    assert result + [] == result;
  }

  lemma {:induction false} PrependedMore<T>(result: seq<T>, more: seq<T>, rest: Option<seq<T>>)
    ensures Prepended(result, Prepended(more, rest)) == Prepended(result + more, rest)
  {
    if rest.Some? {
      assert result + (more + rest.value) == (result + more) + rest.value;
    }
  }

  lemma {:induction false} DecodeCons(t: Bytes, d: Decoded)
    requires t != [] && DecodeChar(t) == Some(d) && d.length <= |t|
    ensures DecodeUtf8(t) == Prepended(UnitsOf(d.codePoint), DecodeUtf8(t[d.length..]))
  {
  }

  lemma {:induction false} EncodeCons(u: Units, d: Decoded)
    requires u != [] && ReadUnits(u) == Some(d)
    ensures EncodeUtf8(u) == Prepended(EncodeChar(d.codePoint), EncodeUtf8(u[d.length..]))
  {
  }

  lemma {:induction false} DecodeOne(c: nat, tail: Bytes)
    requires IsScalar(c)
    ensures DecodeUtf8(EncodeChar(c) + tail) == Prepended(UnitsOf(c), DecodeUtf8(tail))
  {
    EncodeThenDecodeChar(c, tail);
    assert (EncodeChar(c) + tail)[|EncodeChar(c)|..] == tail;
    DecodeCons(EncodeChar(c) + tail, Decoded(c, |EncodeChar(c)|));
  }

  lemma {:induction false} EncodeOne(c: nat, tail: Units)
    requires IsScalar(c)
    ensures EncodeUtf8(UnitsOf(c) + tail) == Prepended(EncodeChar(c), EncodeUtf8(tail))
  {
    UnitsThenRead(c, tail);
    assert (UnitsOf(c) + tail)[|UnitsOf(c)|..] == tail;
    EncodeCons(UnitsOf(c) + tail, Decoded(c, |UnitsOf(c)|));
  }

  /** `bytes` and `units` stand for the same character, whatever follows. */
  ghost predicate SameCharacter(bytes: Bytes, units: Units) {
    && (forall tail: Bytes :: DecodeUtf8(bytes + tail) == Prepended(units, DecodeUtf8(tail)))
    && (forall tail: Units :: EncodeUtf8(units + tail) == Prepended(bytes, EncodeUtf8(tail)))
  }

  lemma {:induction false} OneCharacter(c: nat)
    requires IsScalar(c)
    ensures SameCharacter(EncodeChar(c), UnitsOf(c))
  {
    forall tail: Bytes
      ensures DecodeUtf8(EncodeChar(c) + tail) == Prepended(UnitsOf(c), DecodeUtf8(tail))
    {
      DecodeOne(c, tail);
    }
    forall tail: Units
      ensures EncodeUtf8(UnitsOf(c) + tail) == Prepended(EncodeChar(c), EncodeUtf8(tail))
    {
      EncodeOne(c, tail);
    }
  }

  lemma {:induction false} ReadCharacter(u: Units)
    requires u != [] && ReadUnits(u).Some?
    ensures var d := ReadUnits(u).value; SameCharacter(EncodeChar(d.codePoint), u[..d.length])
  {
    ReadThenUnits(u);
    OneCharacter(ReadUnits(u).value.codePoint);
  }

  /** The first character of a decodable text, as bytes and as units. */
  lemma {:induction false} DecodeHead(t: Bytes) returns (bytes: Bytes, units: Units, rest: Bytes)
    requires t != [] && DecodeUtf8(t).Some?
    ensures t == bytes + rest && |rest| < |t|
    ensures DecodeUtf8(t) == Prepended(units, DecodeUtf8(rest)) && SameCharacter(bytes, units)
  {
    DecodeThenEncodeChar(t);
    var d := DecodeChar(t).value;
    OneCharacter(d.codePoint);
    bytes, units, rest := t[..d.length], UnitsOf(d.codePoint), t[d.length..];
    DecodeCons(t, d);
  }

  /** The first character of an encodable text, as bytes and as units. */
  lemma {:induction false} EncodeHead(u: Units) returns (bytes: Bytes, units: Units, rest: Units)
    requires u != [] && EncodeUtf8(u).Some?
    ensures u == units + rest && |rest| < |u|
    ensures EncodeUtf8(u) == Prepended(bytes, EncodeUtf8(rest)) && SameCharacter(bytes, units)
  {
    var d := ReadUnits(u).value;
    ReadCharacter(u);
    bytes, units, rest := EncodeChar(d.codePoint), u[..d.length], u[d.length..];
    EncodeCons(u, d);
  }

  /** Decoding and encoding again gives the same bytes. */
  lemma {:induction false} EncodeDecode(t: Bytes)
    requires DecodeUtf8(t).Some?
    ensures EncodeUtf8(DecodeUtf8(t).value) == Some(t)
    decreases |t|
  {
    if t != [] {
      var bytes, units, rest := DecodeHead(t);
      EncodeDecode(rest);
      assert DecodeUtf8(t).value == units + DecodeUtf8(rest).value;
    }
  }

  /** Encoding and decoding again gives the same code units. */
  lemma {:induction false} DecodeEncode(u: Units)
    requires EncodeUtf8(u).Some?
    ensures DecodeUtf8(EncodeUtf8(u).value) == Some(u)
    decreases |u|
  {
    if u != [] {
      var bytes, units, rest := EncodeHead(u);
      DecodeEncode(rest);
      assert EncodeUtf8(u).value == bytes + EncodeUtf8(rest).value;
    }
  }

  /** A byte string decodes exactly when it is well-formed UTF-8. */
  lemma {:induction false} DecodesIffWellFormed(t: Bytes)
    ensures DecodeUtf8(t).Some? <==> WellFormed8(t)
    decreases |t|
  {
    if t != [] {
      DecodeCharIff(t);
      if CharLength(t) > 0 {
        DecodesIffWellFormed(t[CharLength(t)..]);
      }
    }
  }

  /** Reading one character off a unit string leaves a well-formed rest exactly when the whole was
      well-formed. */
  lemma {:induction false} WellFormedStep(u: Units)
    requires u != [] && ReadUnits(u).Some?
    ensures WellFormed16(u) <==> WellFormed16(u[ReadUnits(u).value.length..])
  {
    var n := ReadUnits(u).value.length;
    var t := u[n..];
    assert forall i :: 0 <= i < |t| ==> t[i] == u[i + n];
    if WellFormed16(t) {
      forall i | 0 <= i < |u|
        ensures IsHigh(u[i]) ==> i + 1 < |u| && IsLow(u[i + 1])
        ensures IsLow(u[i]) ==> i > 0 && IsHigh(u[i - 1])
      {
        if i >= n {
          assert t[i - n] == u[i];
        }
      }
    }
    if WellFormed16(u) {
      forall i | 0 <= i < |t|
        ensures IsHigh(t[i]) ==> i + 1 < |t| && IsLow(t[i + 1])
        ensures IsLow(t[i]) ==> i > 0 && IsHigh(t[i - 1])
      {
        assert t[i] == u[i + n];
      }
    }
  }

  /** A unit string encodes exactly when it is well-formed UTF-16. */
  lemma {:induction false} EncodesIffWellFormed(u: Units)
    ensures EncodeUtf8(u).Some? <==> WellFormed16(u)
    decreases |u|
  {
    if u != [] && ReadUnits(u).Some? {
      var d := ReadUnits(u).value;
      EncodesIffWellFormed(u[d.length..]);
      WellFormedStep(u);
      EncodeCons(u, d);
    }
  }

  lemma {:induction false} Associates<T>(x: seq<T>, y: seq<T>, z: seq<T>)
    ensures x + (y + z) == (x + y) + z
  {
  }

  /** Encoding distributes over concatenation of well-formed parts. */
  lemma {:induction false} EncodeConcat(a: Units, b: Units)
    requires EncodeUtf8(a).Some? && EncodeUtf8(b).Some?
    ensures EncodeUtf8(a + b) == Some(EncodeUtf8(a).value + EncodeUtf8(b).value)
    decreases |a|
  {
    if a == [] {
      assert a + b == b;
      assert EncodeUtf8(a).value + EncodeUtf8(b).value == EncodeUtf8(b).value;
    } else {
      var bytes, units, rest := EncodeHead(a);
      EncodeConcat(rest, b);
      Associates(units, rest, b);
      Associates(bytes, EncodeUtf8(rest).value, EncodeUtf8(b).value);
    }
  }

  /** A cut that does not split a surrogate pair leaves two well-formed parts. */
  lemma {:induction false} CutWellFormed(u: Units, n: nat)
    requires WellFormed16(u) && n <= |u|
    requires !(0 < n < |u| && IsHigh(u[n - 1]) && IsLow(u[n]))
    ensures WellFormed16(u[..n]) && WellFormed16(u[n..])
  {
    var t := u[n..];
    forall i | 0 <= i < |t|
      ensures IsHigh(t[i]) ==> i + 1 < |t| && IsLow(t[i + 1])
      ensures IsLow(t[i]) ==> i > 0 && IsHigh(t[i - 1])
    {
      assert t[i] == u[i + n];
    }
  }

  // ---------------------------------------------------------------- the loops

  /** The continuation loop of `decode_utf8`: one character at the front of `rest`. */
  method DecodeFront(rest: Bytes) returns (r: Option<Decoded>)
    requires rest != []
    ensures r == DecodeChar(rest)
  {
    var length := LeadLength(rest[0]);
    if length == 0 || length > |rest| {
      return None;
    }
    var codePoint: nat := LeadBits(rest[0]);
    var n := 1;
    while n < length
      invariant 1 <= n <= length
      invariant Continues(rest, n) && codePoint == Accumulate(rest, n)
    {
      if !IsContinuation(rest[n]) {
        return None;
      }
      codePoint := codePoint * 64 + SixBits(rest[n]);
      n := n + 1;
    }
    return if Acceptable(codePoint, length) then Some(Decoded(codePoint, length)) else None;
  }

  /** One character decoded: what is left to do afterwards. */
  lemma {:induction false} DecodeNext(text: Bytes, offset: nat, d: Decoded, result: Units)
    requires offset < |text| && DecodeChar(text[offset..]) == Some(d)
    ensures IsScalar(d.codePoint) && 1 <= d.length && offset + d.length <= |text|
    ensures Prepended(result, DecodeUtf8(text[offset..]))
            == Prepended(result + UnitsOf(d.codePoint), DecodeUtf8(text[offset + d.length..]))
  {
    DecodeThenEncodeChar(text[offset..]);
    DecodeCons(text[offset..], d);
    assert text[offset..][d.length..] == text[offset + d.length..];
    PrependedMore(result, UnitsOf(d.codePoint), DecodeUtf8(text[offset + d.length..]));
  }

  /** One round of the decoding loop. */
  method DecodeStep(text: Bytes, offset: nat, result: Units) returns (next: Option<(Units, nat)>)
    requires offset < |text|
    ensures next.None? ==> DecodeUtf8(text[offset..]).None?
    ensures next.Some? ==>
              && offset < next.value.1 <= |text|
              && Prepended(result, DecodeUtf8(text[offset..])) == Prepended(next.value.0, DecodeUtf8(text[next.value.1..]))
  {
    var front := DecodeFront(text[offset..]);
    if front == None {
      return None;
    }
    var d := front.value;
    DecodeNext(text, offset, d, result);
    return Some((result + UnitsOf(d.codePoint), offset + d.length));
  }

  /** `decode_utf8`. */
  method Decode(text: Bytes) returns (r: Option<Units>)
    ensures r == DecodeUtf8(text)
  {
    var result: Units := [];
    var offset := 0;
    assert text[0..] == text;
    PrependedNil(result, DecodeUtf8(text));
    while offset < |text|
      invariant offset <= |text|
      invariant DecodeUtf8(text) == Prepended(result, DecodeUtf8(text[offset..]))
    {
      var next := DecodeStep(text, offset, result);
      if next == None {
        return None;
      }
      result, offset := next.value.0, next.value.1;
    }
    assert text[offset..] == [];
    PrependedNil(result, None);
    return Some(result);
  }

  /** `encode_utf8`. */
  method Encode(text: Units) returns (r: Option<Bytes>)
    ensures r == EncodeUtf8(text)
  {
    var result: Bytes := [];
    var index := 0;
    assert text[0..] == text;
    PrependedNil(result, EncodeUtf8(text));
    while index < |text|
      invariant index <= |text|
      invariant EncodeUtf8(text) == Prepended(result, EncodeUtf8(text[index..]))
    {
      var codePoint: nat := text[index];
      var used := 1;
      if IsHigh(text[index]) {
        if index + 1 >= |text| || !IsLow(text[index + 1]) {
          return None;
        }
        codePoint := PairValue(text[index], text[index + 1]);
        used := 2;
      } else if IsLow(text[index]) {
        return None;
      }
      assert ReadUnits(text[index..]) == Some(Decoded(codePoint, used));
      EncodeCons(text[index..], Decoded(codePoint, used));
      assert text[index..][used..] == text[index + used..];
      PrependedMore(result, EncodeChar(codePoint), EncodeUtf8(text[index + used..]));
      result := result + EncodeChar(codePoint);
      index := index + used;
    }
    assert text[index..] == [];
    PrependedNil(result, None);
    return Some(result);
  }
}
