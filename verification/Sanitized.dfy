/** What sanitising does to text: on well-formed UTF-8 it deletes certain characters and no others. */
module Sanitized {
  import opened Values
  import opened Utf
  import opened Output

  /** Control characters other than tab and newline, and the interlinear annotation characters. */
  predicate IsRemoved(c: nat) {
    c <= 0x08 || 0x0B <= c <= 0x1F || 0xFFF9 <= c <= 0xFFFB
  }

  predicate AllScalar(cs: seq<nat>) {
    forall i :: 0 <= i < |cs| ==> IsScalar(cs[i])
  }

  /** The UTF-8 text of a sequence of characters. */
  function Text(cs: seq<nat>): Bytes
    requires AllScalar(cs)
  {
    if cs == [] then [] else EncodeChar(cs[0]) + Text(cs[1..])
  }

  /** The characters that stay. */
  function Staying(cs: seq<nat>): (r: seq<nat>)
    ensures AllScalar(cs) ==> AllScalar(r)
  {
    if cs == [] then [] else (if IsRemoved(cs[0]) then [] else [cs[0]]) + Staying(cs[1..])
  }

  /** Sanitising from an offset is sanitising the rest. */
  lemma {:induction false} SanitizeRest(t: Bytes, i: nat)
    requires i <= |t|
    ensures SanitizeFrom(t, i) == SanitizeFrom(t[i..], 0)
  {
    SanitizeShift(t, i, 0);
  }

  lemma {:induction false} SanitizeShift(t: Bytes, i: nat, k: nat)
    requires i + k <= |t|
    ensures SanitizeFrom(t, i + k) == SanitizeFrom(t[i..], k)
    decreases |t| - i - k
  {
    if i + k < |t| {
      var n := RemovedAt(t, i + k);
      assert n == RemovedAt(t[i..], k);
      if n > 0 {
        SanitizeShift(t, i, k + n);
      } else {
        SanitizeShift(t, i, k + 1);
        assert t[i..][k] == t[i + k];
      }
    }
  }

  /** Bytes that start no removed pattern are copied. */
  lemma {:induction false} CopyRun(t: Bytes, i: nat, n: nat)
    requires i <= n <= |t| && forall k :: i <= k < n ==> RemovedAt(t, k) == 0
    ensures SanitizeFrom(t, i) == t[i..n] + SanitizeFrom(t, n)
    decreases n - i
  {
    if i == n {
      assert t[i..n] == [];
    } else {
      CopyRun(t, i + 1, n);
      var s := SanitizeFrom(t, n);
      assert SanitizeFrom(t, i) == [t[i]] + SanitizeFrom(t, i + 1);
      assert [t[i]] + (t[i + 1..n] + s) == ([t[i]] + t[i + 1..n]) + s;
      assert t[i..n] == [t[i]] + t[i + 1..n];
    }
  }

  /** Which bytes of an encoded character start a removed pattern: the first one, of a removed
      character. */
  lemma {:induction false} PatternAt(c: nat, rest: Bytes, k: nat)
    requires IsScalar(c) && k < |EncodeChar(c)|
    ensures RemovedAt(EncodeChar(c) + rest, k) == if k == 0 && IsRemoved(c) then |EncodeChar(c)| else 0
  {
    var e := EncodeChar(c);
    var t := e + rest;
    assert forall j :: 0 <= j < |e| ==> t[j] == e[j];
    LeadOfEncoded(c);
    if k == 0 && |e| == 3 {
      Recompose(c);
    }
  }

  lemma {:induction false} SanitizeChar(c: nat, rest: Bytes)
    requires IsScalar(c)
    ensures SanitizeFrom(EncodeChar(c) + rest, 0) == (if IsRemoved(c) then [] else EncodeChar(c)) + SanitizeFrom(rest, 0)
  {
    var e := EncodeChar(c);
    var t := e + rest;
    assert t[|e|..] == rest;
    SanitizeRest(t, |e|);
    PatternAt(c, rest, 0);
    if !IsRemoved(c) {
      forall k | 0 <= k < |e|
        ensures RemovedAt(t, k) == 0
      {
        PatternAt(c, rest, k);
      }
      CopyRun(t, 0, |e|);
      assert t[0..|e|] == e;
    }
  }

  /** Sanitising the text of any characters gives the text of those that stay. */
  lemma {:induction false} SanitizeText(cs: seq<nat>)
    requires AllScalar(cs)
    ensures SanitizeFrom(Text(cs), 0) == Text(Staying(cs))
  {
    if cs != [] {
      SanitizeChar(cs[0], Text(cs[1..]));
      SanitizeText(cs[1..]);
      var stay := Staying(cs[1..]);
      assert [cs[0]] + stay == [cs[0]] + stay && ([cs[0]] + stay)[1..] == stay;
      assert [] + Text(stay) == Text(stay) && [] + stay == stay;
    }
  }

  lemma {:induction false} FirstCharacter(t: Bytes) returns (c: nat, rest: Bytes)
    requires t != [] && WellFormed8(t)
    ensures IsScalar(c) && t == EncodeChar(c) + rest && WellFormed8(rest) && |rest| < |t|
  {
    DecodeCharIff(t);
    DecodeThenEncodeChar(t);
    var d := DecodeChar(t).value;
    c, rest := d.codePoint, t[d.length..];
    assert t[..d.length] + t[d.length..] == t;
  }

  /** The characters of a well-formed text. */
  lemma {:induction false} Characters(t: Bytes) returns (cs: seq<nat>)
    requires WellFormed8(t)
    ensures AllScalar(cs) && Text(cs) == t
    decreases |t|
  {
    if t == [] {
      cs := [];
    } else {
      var c, rest := FirstCharacter(t);
      var others := Characters(rest);
      cs := [c] + others;
      assert cs[1..] == others;
    }
  }

  lemma {:induction false} TextWellFormed(cs: seq<nat>)
    requires AllScalar(cs)
    ensures WellFormed8(Text(cs))
  {
    if cs != [] {
      TextWellFormed(cs[1..]);
      var t := Text(cs);
      EncodeThenDecodeChar(cs[0], Text(cs[1..]));
      DecodeCharIff(t);
      assert t[|EncodeChar(cs[0])|..] == Text(cs[1..]);
    }
  }

  /** Well-formed UTF-8 stays well-formed and loses exactly the removed characters. */
  lemma {:induction false} SanitizeMeaning(t: Bytes) returns (cs: seq<nat>)
    requires WellFormed8(t)
    ensures AllScalar(cs) && Text(cs) == t
    ensures SanitizeFrom(t, 0) == Text(Staying(cs)) && WellFormed8(SanitizeFrom(t, 0))
  {
    cs := Characters(t);
    SanitizeText(cs);
    TextWellFormed(Staying(cs));
  }
}
