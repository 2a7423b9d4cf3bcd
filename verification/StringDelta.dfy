/** String deltas: the bounded overlap search and the edits that turn one string into another. */
module StringDelta {
  import opened Values
  import opened Utf

  const MAX_OVERLAP_SCAN: nat := 65536
  const OVERLAP_PROBE: nat := 64
  const MAX_OVERLAP_CANDIDATES: nat := 8

  // ---------------------------------------------------------------- what an overlap is

  /** The last `n` units of `a` are the first `n` units of `b`. */
  predicate Matches(a: Units, b: Units, n: nat) {
    0 < n <= |a| && n <= |b| && a[|a| - n..] == b[..n]
  }

  /** Longest overlap of length at most `n`; 0 if there is none. */
  function LongestUpTo(a: Units, b: Units, n: nat): (r: nat)
    ensures r <= n && (r == 0 || Matches(a, b, r))
    ensures forall m: nat :: r < m <= n ==> !Matches(a, b, m)
  {
    if n == 0 || Matches(a, b, n) then n else LongestUpTo(a, b, n - 1)
  }

  function Longest(a: Units, b: Units): (r: nat)
    ensures r == 0 || Matches(a, b, r)
    ensures forall m: nat :: Matches(a, b, m) ==> m <= r
  {
    LongestUpTo(a, b, Min(|a|, |b|))
  }

  predicate OccursAt(a: Units, head: Units, position: nat) {
    position + |head| <= |a| && a[position..position + |head|] == head
  }

  /** How often `head` occurs in `a` before `position`. */
  function Occurrences(a: Units, head: Units, position: nat): nat {
    if position == 0 then 0
    else Occurrences(a, head, position - 1) + if OccursAt(a, head, position - 1) then 1 else 0
  }

  // ---------------------------------------------------------------- the search

  /** One pass of the search from `position` on: candidates are occurrences of the first `h`
      units of `b`, and the pass gives up after `limit` of them. */
  function Pass(tail: Units, b: Units, h: nat, limit: nat, position: nat, tried: nat): nat
    requires h <= |b|
    decreases |tail| - position
  {
    if position + h > |tail| || position >= |tail| then 0
    else if !OccursAt(tail, b[..h], position) then Pass(tail, b, h, limit, position + 1, tried)
    else if tried + 1 > limit then 0
    else if Matches(tail, b, |tail| - position) then |tail| - position
    else Pass(tail, b, h, limit, position + 1, tried + 1)
  }

  function Window(a: Units, scan: nat): Units {
    if |a| > scan then a[|a| - scan..] else a
  }

  /** `overlap_units`. */
  function Overlap(a: Units, b: Units, scan: nat, probe: nat, limit: nat): nat {
    if a == [] || b == [] || scan == 0 then 0
    else
      var tail := Window(a, scan);
      var h := Min(probe, |b|);
      var first := if h == 0 then 0 else Pass(tail, b, h, limit, 0, 0);
      if first != 0 then first
      else if h == 1 then 0
      else Pass(tail, b, 1, limit, 0, 0)
  }

  /** A pass with heads of `h` units gets as far as the longest overlap. */
  predicate Reaches(tail: Units, b: Units, h: nat, limit: nat) {
    var longest := Longest(tail, b);
    1 <= h <= longest && Occurrences(tail, b[..h], |tail| - longest) < limit
  }

  lemma {:induction false} MatchIsCandidate(tail: Units, b: Units, h: nat, n: nat)
    requires h <= n && Matches(tail, b, n)
    ensures OccursAt(tail, b[..h], |tail| - n)
  {
    var p := |tail| - n;
    assert tail[p..p + h] == tail[p..][..h] == b[..n][..h] == b[..h];
  }

  lemma {:induction false} PassResult(tail: Units, b: Units, h: nat, limit: nat, position: nat, tried: nat)
    requires 1 <= h <= |b| && position <= |tail|
    requires tried == Occurrences(tail, b[..h], position)
    requires Longest(tail, b) >= h ==> position <= |tail| - Longest(tail, b)
    ensures Pass(tail, b, h, limit, position, tried) == if Reaches(tail, b, h, limit) then Longest(tail, b) else 0
    decreases |tail| - position
  {
    var longest := Longest(tail, b);
    if longest >= h {
      MatchIsCandidate(tail, b, h, longest);
    }
    if position + h <= |tail| && position < |tail| {
      if OccursAt(tail, b[..h], position) {
        if tried + 1 > limit {
          if longest >= h {
            OccurrencesGrow(tail, b[..h], position, |tail| - longest);
          }
        } else if !Matches(tail, b, |tail| - position) {
          PassResult(tail, b, h, limit, position + 1, tried + 1);
        } else {
          assert |tail| - position <= longest;
        }
      } else {
        PassResult(tail, b, h, limit, position + 1, tried);
      }
    }
  }

  lemma {:induction false} OccurrencesGrow(a: Units, head: Units, p: nat, q: nat)
    requires p <= q
    ensures Occurrences(a, head, p) <= Occurrences(a, head, q)
    decreases q
  {
    if p < q {
      OccurrencesGrow(a, head, p, q - 1);
    }
  }

  /** The search finds the longest overlap inside its window, or nothing; and it finds nothing
      although there is an overlap exactly when both passes run out of candidates before it. */
  lemma {:induction false} OverlapIsLongest(a: Units, b: Units, scan: nat, probe: nat, limit: nat)
    ensures var tail := Window(a, scan);
            var longest := Longest(tail, b);
            Overlap(a, b, scan, probe, limit) ==
            if Reaches(tail, b, Min(probe, |b|), limit) || Reaches(tail, b, 1, limit) then longest else 0
  {
    var tail := Window(a, scan);
    if a == [] || b == [] || scan == 0 {
      assert tail == [] || b == [];
    } else {
      var h := Min(probe, |b|);
      if h != 0 {
        PassResult(tail, b, h, limit, 0, 0);
      }
      PassResult(tail, b, 1, limit, 0, 0);
    }
  }

  /** A non-zero result is a real overlap of the whole strings, and no longer one fits the window. */
  lemma {:induction false} OverlapSound(a: Units, b: Units, scan: nat, probe: nat, limit: nat)
    ensures var r := Overlap(a, b, scan, probe, limit);
            r != 0 ==> Matches(a, b, r) && r <= scan && forall m: nat :: m <= scan && Matches(a, b, m) ==> m <= r
  {
    OverlapIsLongest(a, b, scan, probe, limit);
    var r := Overlap(a, b, scan, probe, limit);
    if r != 0 {
      LongestInWindow(a, b, scan, r);
    }
  }

  /** The longest overlap with the window is the longest overlap within the scan limit. */
  lemma {:induction false} LongestInWindow(a: Units, b: Units, scan: nat, r: nat)
    requires r != 0 && r == Longest(Window(a, scan), b)
    ensures Matches(a, b, r) && r <= scan && forall m: nat :: m <= scan && Matches(a, b, m) ==> m <= r
  {
    var tail := Window(a, scan);
    assert a[|a| - r..] == tail[|tail| - r..];
    forall m: nat | m <= scan && Matches(a, b, m)
      ensures m <= r
    {
      assert a[|a| - m..] == tail[|tail| - m..];
      assert Matches(tail, b, m);
    }
  }

  /** `find`: the first occurrence of `head` at or after `from`; the length of `a` if none. */
  method Find(a: Units, head: Units, from: nat) returns (position: nat)
    requires from <= |a|
    ensures from <= position <= |a|
    ensures position < |a| ==> OccursAt(a, head, position)
    ensures forall p :: from <= p < position ==> !OccursAt(a, head, p)
  {
    position := from;
    while position < |a| && !OccursAt(a, head, position)
      invariant from <= position <= |a|
      invariant forall p :: from <= p < position ==> !OccursAt(a, head, p)
    {
      position := position + 1;
    }
  }

  /** Positions without a candidate are skipped. */
  lemma {:induction false} PassSkips(tail: Units, b: Units, h: nat, limit: nat, from: nat, to: nat, tried: nat)
    requires 1 <= h <= |b| && from <= to <= |tail|
    requires forall p :: from <= p < to ==> !OccursAt(tail, b[..h], p)
    ensures Pass(tail, b, h, limit, from, tried) == Pass(tail, b, h, limit, to, tried)
    decreases |tail| - from
  {
    if from < to {
      assert !OccursAt(tail, b[..h], from);
      PassSkips(tail, b, h, limit, from + 1, to, tried);
      if from + h > |tail| {
        assert Pass(tail, b, h, limit, to, tried) == 0;
      }
    }
  }

  /** The candidate loop of `overlap_units`. */
  method SearchPass(tail: Units, b: Units, h: nat, limit: nat) returns (r: nat)
    requires 1 <= h <= |b|
    ensures r == Pass(tail, b, h, limit, 0, 0)
  {
    var tried := 0;
    var position := Find(tail, b[..h], 0);
    PassSkips(tail, b, h, limit, 0, position, 0);
    while position < |tail|
      invariant position <= |tail|
      invariant position < |tail| ==> OccursAt(tail, b[..h], position)
      invariant Pass(tail, b, h, limit, 0, 0) == Pass(tail, b, h, limit, position, tried)
      decreases |tail| - position
    {
      tried := tried + 1;
      if tried > limit {
        return 0;
      }
      var length := |tail| - position;
      if length <= |b| && tail[position..] == b[..length] {
        return length;
      }
      var next := Find(tail, b[..h], position + 1);
      PassSkips(tail, b, h, limit, position + 1, next, tried);
      position := next;
    }
    return 0;
  }

  /** `overlap_units`: a probe of up to `probe` units, then of one unit. */
  method Search(a: Units, b: Units, scan: nat, probe: nat, limit: nat) returns (r: nat)
    ensures r == Overlap(a, b, scan, probe, limit)
  {
    if a == [] || b == [] || scan == 0 {
      return 0;
    }
    var tail := Window(a, scan);
    var heads := [Min(probe, |b|), 1];
    var n := 0;
    while n < 2
      invariant n <= 2
      invariant n == 0 || (heads[0] != 1 && (heads[0] == 0 || Pass(tail, b, heads[0], limit, 0, 0) == 0))
      invariant n == 2 ==> Pass(tail, b, 1, limit, 0, 0) == 0
    {
      if heads[n] != 0 {
        r := SearchPass(tail, b, heads[n], limit);
        if r != 0 || heads[n] == 1 {
          return;
        }
      }
      n := n + 1;
    }
    return 0;
  }

  // ---------------------------------------------------------------- truncation

  predicate SplitsPair(u: Units, n: nat) {
    0 < n < |u| && IsHigh(u[n - 1]) && IsLow(u[n])
  }

  /** `truncate_front_utf16`: drop the first `count` code units. */
  function TruncateFront(text: Bytes, count: nat): Result<Bytes> {
    if count == 0 then Ok(text)
    else
      match DecodeUtf8(text)
      case None => Err(InvalidUtf8)
      case Some(u) =>
        if count >= |u| then Ok([])
        else if SplitsPair(u, count) then Err(SplitsSurrogate)
        else
          match EncodeUtf8(u[count..])
          case None => Err(InvalidUtf16)
          case Some(t) => Ok(t)
  }

  /** A decoded text has a well-formed rest after every cut between characters. */
  lemma {:induction false} RestEncodes(text: Bytes, n: nat)
    requires DecodeUtf8(text).Some? && n <= |DecodeUtf8(text).value|
    requires !SplitsPair(DecodeUtf8(text).value, n)
    ensures EncodeUtf8(DecodeUtf8(text).value[n..]).Some?
  {
    var u := DecodeUtf8(text).value;
    EncodeDecode(text);
    EncodesIffWellFormed(u);
    CutWellFormed(u, n);
    EncodesIffWellFormed(u[n..]);
  }

  /** What truncation of decodable text does: the remaining units, unless the cut splits a pair.
      It is never refused with `InvalidUtf16`. */
  lemma {:induction false} TruncateFrontMeaning(text: Bytes, count: nat)
    requires count > 0 && DecodeUtf8(text).Some?
    ensures var u := DecodeUtf8(text).value;
            var r := TruncateFront(text, count);
            if SplitsPair(u, count) then r == Err(SplitsSurrogate)
            else r.Ok? && DecodeUtf8(r.value) == Some(u[Min(count, |u|)..])
  {
    var u := DecodeUtf8(text).value;
    if count < |u| && !SplitsPair(u, count) {
      RestEncodes(text, count);
      DecodeEncode(u[count..]);
    } else if count >= |u| {
      assert u[|u|..] == [];
    }
  }

  // ---------------------------------------------------------------- the edits of a string change

  datatype Edit = Append(text: Bytes) | Truncate(count: nat) | Replace(text: Bytes)

  function ApplyEdit(text: Bytes, e: Edit): Result<Bytes> {
    match e
    case Append(t) => Ok(text + t)
    case Truncate(n) => TruncateFront(text, n)
    case Replace(t) => Ok(t)
  }

  function ApplyEdits(text: Bytes, edits: seq<Edit>): Result<Bytes>
    decreases |edits|
  {
    if edits == [] then Ok(text)
    else
      match ApplyEdit(text, edits[0])
      case Err(f) => Err(f)
      case Ok(t) => ApplyEdits(t, edits[1..])
  }

  function TruncateAppend(boundary: nat, suffix: Bytes): seq<Edit> {
    [Truncate(boundary)] + if suffix == [] then [] else [Append(suffix)]
  }

  function KeepUpTo(after: Bytes, boundary: nat, suffix: Option<Bytes>): seq<Edit> {
    if suffix.None? then [Replace(after)] else TruncateAppend(boundary, suffix.value)
  }

  /** Truncate to the shared units and append the rest, unless that splits a surrogate pair. */
  function KeepShared(after: Bytes, b: Units, a: Units, shared: nat): seq<Edit>
    requires shared <= |b| && shared <= |a|
  {
    if SplitsPair(b, |b| - shared) then [Replace(after)]
    else KeepUpTo(after, |b| - shared, EncodeUtf8(a[shared..]))
  }

  /** `emit_string_change`: append when the old text is a prefix, else keep the overlap, else
      replace. */
  function StringChange(before: Bytes, after: Bytes): seq<Edit> {
    if before <= after then [Append(after[|before|..])]
    else
      match (DecodeUtf8(before), DecodeUtf8(after))
      case (Some(b), Some(a)) =>
        var shared := Overlap(b, a, MAX_OVERLAP_SCAN, OVERLAP_PROBE, MAX_OVERLAP_CANDIDATES);
        OverlapSound(b, a, MAX_OVERLAP_SCAN, OVERLAP_PROBE, MAX_OVERLAP_CANDIDATES);
        if shared == 0 then [Replace(after)] else KeepShared(after, b, a, shared)
      case _ => [Replace(after)]
  }

  /** Growth is sent as the new part alone. */
  lemma {:induction false} GrowthIsAppended(before: Bytes, rest: Bytes)
    ensures StringChange(before, before + rest) == [Append(rest)]
  {
    assert before <= before + rest && (before + rest)[|before|..] == rest;
  }

  function FoundOverlap(b: Units, a: Units): nat {
    Overlap(b, a, MAX_OVERLAP_SCAN, OVERLAP_PROBE, MAX_OVERLAP_CANDIDATES)
  }

  /** An overlap that can be cut between two characters is kept: the old text is cut down to it, and
      only the new units after it are sent. */
  lemma {:induction false} OverlapIsKept(before: Bytes, after: Bytes, b: Units, a: Units)
    requires !(before <= after) && DecodeUtf8(before) == Some(b) && DecodeUtf8(after) == Some(a)
    requires FoundOverlap(b, a) != 0 && (FoundOverlap(b, a) <= |b| ==> !SplitsPair(b, |b| - FoundOverlap(b, a)))
    ensures var shared := FoundOverlap(b, a);
            && shared <= |b| && shared <= |a| && EncodeUtf8(a[shared..]).Some?
            && StringChange(before, after) == TruncateAppend(|b| - shared, EncodeUtf8(a[shared..]).value)
  {
    var shared := FoundOverlap(b, a);
    OverlapSound(b, a, MAX_OVERLAP_SCAN, OVERLAP_PROBE, MAX_OVERLAP_CANDIDATES);
    CutAfterOverlap(before, after, b, a, shared);
  }

  /** A truncation, then the suffix if there is one. */
  lemma {:induction false} TruncateAppendShape(boundary: nat, suffix: Bytes)
    ensures var edits := TruncateAppend(boundary, suffix);
            && |edits| == (if |suffix| == 0 then 1 else 2) && edits[0] == Truncate(boundary)
            && (|suffix| != 0 ==> edits[1] == Append(suffix))
  {
  }

  /** Without an overlap, or with one that splits a pair, the text is replaced. */
  lemma {:induction false} OthersAreReplaced(before: Bytes, after: Bytes, b: Units, a: Units)
    requires !(before <= after) && DecodeUtf8(before) == Some(b) && DecodeUtf8(after) == Some(a)
    requires FoundOverlap(b, a) == 0 || (FoundOverlap(b, a) <= |b| && SplitsPair(b, |b| - FoundOverlap(b, a)))
    ensures StringChange(before, after) == [Replace(after)]
  {
    OverlapSound(b, a, MAX_OVERLAP_SCAN, OVERLAP_PROBE, MAX_OVERLAP_CANDIDATES);
  }

  /** So is text that is not UTF-8. */
  lemma {:induction false} UndecodableReplaced(before: Bytes, after: Bytes)
    requires !(before <= after) && (DecodeUtf8(before).None? || DecodeUtf8(after).None?)
    ensures StringChange(before, after) == [Replace(after)]
  {
  }

  /** Where the old text is cut between characters, so is the new one. */
  lemma {:induction false} CutAfterOverlap(before: Bytes, after: Bytes, b: Units, a: Units, shared: nat)
    requires DecodeUtf8(before) == Some(b) && DecodeUtf8(after) == Some(a)
    requires shared != 0 && Matches(b, a, shared) && !SplitsPair(b, |b| - shared)
    ensures EncodeUtf8(a[shared..]).Some?
  {
    EncodeDecode(before);
    EncodeDecode(after);
    EncodesIffWellFormed(b);
    assert !SplitsPair(a, shared) by {
      assert b[|b| - 1] == b[|b| - shared..][shared - 1] == a[shared - 1];
      assert WellFormed16(b);
    }
    RestEncodes(after, shared);
  }

  /** `starts_with`. */
  method StartsWith(text: Bytes, prefix: Bytes) returns (ok: bool)
    ensures ok == (prefix <= text)
  {
    if |prefix| > |text| {
      return false;
    }
    for i := 0 to |prefix|
      invariant prefix[..i] == text[..i]
    {
      if prefix[i] != text[i] {
        return false;
      }
    }
    assert prefix[..|prefix|] == prefix;
    return true;
  }

  /** `emit_string_change`, with the decoding, search and encoding loops. */
  method EmitStringChange(before: Bytes, after: Bytes) returns (edits: seq<Edit>)
    ensures edits == StringChange(before, after)
  {
    var grown := StartsWith(after, before);
    if grown {
      return [Append(after[|before|..])];
    }
    var decodedOld := Utf.Decode(before);
    var decodedNew := Utf.Decode(after);
    if decodedOld.None? || decodedNew.None? {
      return [Replace(after)];
    }
    var b, a := decodedOld.value, decodedNew.value;
    var shared := Search(b, a, MAX_OVERLAP_SCAN, OVERLAP_PROBE, MAX_OVERLAP_CANDIDATES);
    OverlapSound(b, a, MAX_OVERLAP_SCAN, OVERLAP_PROBE, MAX_OVERLAP_CANDIDATES);
    if shared == 0 {
      return [Replace(after)];
    }
    edits := EmitShared(after, b, a, shared);
  }

  method EmitShared(after: Bytes, b: Units, a: Units, shared: nat) returns (edits: seq<Edit>)
    requires 0 < shared <= |b| && shared <= |a|
    ensures edits == KeepShared(after, b, a, shared)
  {
    var boundary := |b| - shared;
    if SplitsPair(b, boundary) {
      return [Replace(after)];
    }
    var suffix := Utf.Encode(a[shared..]);
    edits := KeepUpTo(after, boundary, suffix);
  }

  /** The edits turn the old text into the new one, for all byte strings, and an emitted
      truncation never splits a surrogate pair. */
  lemma {:induction false} StringChangeExact(before: Bytes, after: Bytes)
    ensures ApplyEdits(before, StringChange(before, after)) == Ok(after)
    ensures forall e :: e in StringChange(before, after) && e.Truncate? ==>
              DecodeUtf8(before).Some? && !SplitsPair(DecodeUtf8(before).value, e.count)
  {
    if before <= after {
      OneEdit(before, Append(after[|before|..]));
      assert before + after[|before|..] == after;
    } else {
      OneEdit(before, Replace(after));
      if DecodeUtf8(before).Some? && DecodeUtf8(after).Some? {
        var b, a := DecodeUtf8(before).value, DecodeUtf8(after).value;
        var shared := Overlap(b, a, MAX_OVERLAP_SCAN, OVERLAP_PROBE, MAX_OVERLAP_CANDIDATES);
        OverlapSound(b, a, MAX_OVERLAP_SCAN, OVERLAP_PROBE, MAX_OVERLAP_CANDIDATES);
        if shared != 0 {
          if !SplitsPair(b, |b| - shared) {
            KeepCut(before, after, b, a, shared, EncodeUtf8(a[shared..]));
          }
          KeepSharedExact(before, after, b, a, shared);
          KeepSharedNeverSplits(after, b, a, shared);
        }
      }
    }
  }

  lemma {:induction false} OneEdit(text: Bytes, e: Edit)
    ensures ApplyEdits(text, [e]) == ApplyEdit(text, e)
  {
    assert [e][1..] == [];
  }

  lemma {:induction false} KeepSharedNeverSplits(after: Bytes, b: Units, a: Units, shared: nat)
    requires shared <= |b| && shared <= |a|
    ensures forall e :: e in KeepShared(after, b, a, shared) && e.Truncate? ==> !SplitsPair(b, e.count)
  {
  }

  /** Cutting at the boundary and appending the suffix gives the new text. */
  predicate Rebuilds(before: Bytes, boundary: nat, suffix: Option<Bytes>, after: Bytes) {
    suffix.Some? ==>
      TruncateFront(before, boundary).Ok? && TruncateFront(before, boundary).value + suffix.value == after
  }

  lemma {:induction false} KeepUpToExact(before: Bytes, after: Bytes, boundary: nat, suffix: Option<Bytes>)
    requires Rebuilds(before, boundary, suffix, after)
    ensures ApplyEdits(before, KeepUpTo(after, boundary, suffix)) == Ok(after)
  {
    if suffix.Some? {
      TwoEdits(before, boundary, suffix.value);
    } else {
      OneEdit(before, Replace(after));
    }
  }

  /** Keeping a shared part is exact if rebuilding from it is, and when a pair would be split. */
  lemma {:induction false} KeepSharedExact(before: Bytes, after: Bytes, b: Units, a: Units, shared: nat)
    requires shared <= |b| && shared <= |a|
    requires !SplitsPair(b, |b| - shared) ==>
               ApplyEdits(before, KeepUpTo(after, |b| - shared, EncodeUtf8(a[shared..]))) == Ok(after)
    ensures ApplyEdits(before, KeepShared(after, b, a, shared)) == Ok(after)
  {
    if SplitsPair(b, |b| - shared) {
      assert KeepShared(after, b, a, shared) == [Replace(after)];
      OneEdit(before, Replace(after));
    } else {
      assert KeepShared(after, b, a, shared) == KeepUpTo(after, |b| - shared, EncodeUtf8(a[shared..]));
    }
  }

  lemma {:induction false} KeepCut(before: Bytes, after: Bytes, b: Units, a: Units, shared: nat, suffix: Option<Bytes>)
    requires DecodeUtf8(before) == Some(b) && DecodeUtf8(after) == Some(a) && Matches(b, a, shared)
    requires !SplitsPair(b, |b| - shared) && suffix == EncodeUtf8(a[shared..])
    ensures ApplyEdits(before, KeepUpTo(after, |b| - shared, suffix)) == Ok(after)
  {
    SharedPlusRest(before, after, b, a, shared, suffix);
    KeepUpToExact(before, after, |b| - shared, suffix);
  }

  lemma {:induction false} SharedPlusRest(before: Bytes, after: Bytes, b: Units, a: Units, shared: nat, suffix: Option<Bytes>)
    requires DecodeUtf8(before) == Some(b) && DecodeUtf8(after) == Some(a) && Matches(b, a, shared)
    requires !SplitsPair(b, |b| - shared) && suffix == EncodeUtf8(a[shared..])
    ensures Rebuilds(before, |b| - shared, suffix, after)
  {
    if suffix.Some? {
      SharedPlusSuffix(before, after, b, a, shared, suffix.value);
    }
  }

  /** Keeping the shared units and appending the rest of the new text gives the new text. */
  lemma {:induction false} SharedPlusSuffix(before: Bytes, after: Bytes, b: Units, a: Units, shared: nat, suffix: Bytes)
    requires DecodeUtf8(before) == Some(b) && DecodeUtf8(after) == Some(a) && Matches(b, a, shared)
    requires !SplitsPair(b, |b| - shared) && EncodeUtf8(a[shared..]) == Some(suffix)
    ensures var kept := TruncateFront(before, |b| - shared); kept.Ok? && kept.value + suffix == after
  {
    var boundary := |b| - shared;
    assert b[boundary..] == a[..shared];
    RestEncodes(before, boundary);
    var kept := EncodeUtf8(a[..shared]).value;
    assert TruncateFront(before, boundary) == Ok(kept) by {
      EncodeDecode(before);
      assert b[0..] == b;
    }
    assert kept + suffix == after by {
      EncodeConcat(a[..shared], a[shared..]);
      assert a[..shared] + a[shared..] == a;
      EncodeDecode(after);
    }
  }

  lemma {:induction false} TwoEdits(before: Bytes, boundary: nat, suffix: Bytes)
    requires TruncateFront(before, boundary).Ok?
    ensures ApplyEdits(before, TruncateAppend(boundary, suffix)) == Ok(TruncateFront(before, boundary).value + suffix)
  {
    var kept := TruncateFront(before, boundary).value;
    if suffix == [] {
      assert kept + suffix == kept;
      assert [Truncate(boundary)] + [] == [Truncate(boundary)];
      OneEdit(before, Truncate(boundary));
    } else {
      var edits := [Truncate(boundary)] + [Append(suffix)];
      assert edits[1..] == [Append(suffix)];
      OneEdit(kept, Append(suffix));
      assert ApplyEdits(before, edits) == ApplyEdits(kept, edits[1..]);
    }
  }
}
