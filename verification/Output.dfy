/** Bounded output windows over byte text. */
module Output {
  import opened Values
  import opened Utf

  const NEWLINE: Byte := 10

  /** The largest `std::size_t`. */
  const SIZE_MAX: nat := 0xFFFF_FFFF_FFFF_FFFF

  type Size = n: nat | n <= SIZE_MAX

  datatype Retention = Head | Tail

  datatype Limits = Limits(maxBytes: Size, maxLines: Size, retain: Retention)

  // ---------------------------------------------------------------- counting

  function CountNewlines(t: Bytes): nat {
    if t == [] then 0 else CountNewlines(t[..|t| - 1]) + if t[|t| - 1] == NEWLINE then 1 else 0
  }

  /** A trailing newline ends the last line rather than starting another. */
  function CountLines(t: Bytes): nat {
    if t == [] then 0 else CountNewlines(t) + if t[|t| - 1] == NEWLINE then 0 else 1
  }

  lemma {:induction false} CountConcat(a: Bytes, b: Bytes)
    ensures CountNewlines(a + b) == CountNewlines(a) + CountNewlines(b)
    decreases |b|
  {
    if b == [] {
      assert a + b == a;
    } else {
      assert (a + b)[..|a + b| - 1] == a + b[..|b| - 1];
      CountConcat(a, b[..|b| - 1]);
    }
  }

  lemma {:induction false} CountSplit(t: Bytes, i: nat)
    requires i <= |t|
    ensures CountNewlines(t) == CountNewlines(t[..i]) + CountNewlines(t[i..])
  {
    assert t[..i] + t[i..] == t;
    CountConcat(t[..i], t[i..]);
  }

  /** A slice has no more lines than the text. */
  lemma {:induction false} SliceLines(t: Bytes, i: nat)
    requires i <= |t|
    ensures CountLines(t[..i]) <= CountLines(t) && CountLines(t[i..]) <= CountLines(t)
  {
    CountSplit(t, i);
    if i < |t| {
      assert t[i..][|t| - i - 1] == t[|t| - 1];
      CountSplit(t[i..], |t| - i - 1);
      assert t[i..][|t| - i - 1..] == [t[|t| - 1]];
      assert CountNewlines([t[|t| - 1]]) == if t[|t| - 1] == NEWLINE then 1 else 0 by {
        assert [t[|t| - 1]][..0] == [];
      }
    } else {
      assert t[..i] == t;
    }
  }

  /** `count_newlines`. */
  method CountNewlinesIn(t: Bytes) returns (n: nat)
    ensures n == CountNewlines(t)
  {
    n := 0;
    var index := 0;
    assert t[..0] == [];
    while index < |t|
      invariant index <= |t| && n == CountNewlines(t[..index])
    {
      assert t[..index + 1][..index] == t[..index];
      if t[index] == NEWLINE {
        n := n + 1;
      }
      index := index + 1;
    }
    assert t[..index] == t;
  }

  /** `count_lines`. */
  method CountLinesIn(t: Bytes) returns (n: nat)
    ensures n == CountLines(t)
  {
    n := CountNewlinesIn(t);
    if t != [] && t[|t| - 1] != NEWLINE {
      n := n + 1;
    }
  }

  // ---------------------------------------------------------------- positions

  /** Just after the n-th newline at or after `i`; the end of the text if there are fewer. */
  function LineEnd(t: Bytes, i: nat, n: nat): nat
    requires i <= |t| && n > 0
    decreases |t| - i
  {
    if i == |t| then i
    else if t[i] != NEWLINE then LineEnd(t, i + 1, n)
    else if n == 1 then i + 1
    else LineEnd(t, i + 1, n - 1)
  }

  /** Just after the n-th newline before `k`, counting backwards; 0 if there are fewer. */
  function LineStart(t: Bytes, k: nat, n: nat): nat
    requires k <= |t| && n > 0
  {
    if k == 0 then 0
    else if t[k - 1] != NEWLINE then LineStart(t, k - 1, n)
    else if n == 1 then k
    else LineStart(t, k - 1, n - 1)
  }

  /** Just after the first newline at or after `i`; the end of the text if there is none. */
  function NextBreak(t: Bytes, i: nat): nat
    requires i <= |t|
  {
    LineEnd(t, i, 1)
  }

  /** Just after the last newline before `k`; 0 if there is none. */
  function LastBreak(t: Bytes, k: nat): nat
    requires k <= |t|
  {
    LineStart(t, k, 1)
  }

  function BackOff(t: Bytes, i: nat): nat
    requires i < |t|
  {
    if i > 0 && IsContinuation(t[i]) then BackOff(t, i - 1) else i
  }

  /** `character_end`: the last character boundary at or before `i`. */
  function CharacterEnd(t: Bytes, i: nat): nat {
    if i >= |t| then |t| else BackOff(t, i)
  }

  /** `character_start`: the first character boundary at or after `i`. */
  function CharacterStart(t: Bytes, i: nat): nat
    requires i <= |t|
    decreases |t| - i
  {
    if i < |t| && IsContinuation(t[i]) then CharacterStart(t, i + 1) else i
  }

  // ---------------------------------------------------------------- the windows

  /** `head_range`: the window is `t[..HeadEnd(t, l)]`. */
  function HeadEnd(t: Bytes, l: Limits): nat {
    if l.maxLines == 0 || l.maxBytes == 0 then 0
    else
      var end := LineEnd(t, 0, l.maxLines);
      LineEndBounds(t, 0, l.maxLines);
      if end <= l.maxBytes then end
      else
        var cut := LastBreak(t, l.maxBytes);
        if cut == 0 then CharacterEnd(t, l.maxBytes) else cut
  }

  /** The position before a trailing newline. */
  function LastLineEnd(t: Bytes): nat {
    if t != [] && t[|t| - 1] == NEWLINE then |t| - 1 else |t|
  }

  /** `tail_range`: the window is `t[TailStart(t, l)..]`. */
  function TailStart(t: Bytes, l: Limits): nat {
    if l.maxLines == 0 || l.maxBytes == 0 then |t|
    else
      var start := LineStart(t, LastLineEnd(t), l.maxLines);
      if |t| - start <= l.maxBytes then start
      else
        var from := |t| - l.maxBytes;
        var cut := NextBreak(t, from - 1);
        if cut < |t| then cut else CharacterStart(t, from)
  }

  /** What a tail buffer keeps between snapshots starts here: `tail_margin`. */
  function MarginStart(t: Bytes, l: Limits): nat {
    var byteStart := if |t| > l.maxBytes then CharacterEnd(t, |t| - l.maxBytes - 1) else 0;
    var line := LineStart(t, |t|, l.maxLines + 1);
    var lineStart := if line == 0 then 0 else line - 1;
    if byteStart >= lineStart then byteStart else lineStart
  }

  lemma {:induction false} LineEndBounds(t: Bytes, i: nat, n: nat)
    requires i <= |t| && n > 0
    ensures i <= LineEnd(t, i, n) <= |t|
    decreases |t| - i
  {
    if i < |t| {
      if t[i] != NEWLINE {
        LineEndBounds(t, i + 1, n);
      } else if n > 1 {
        LineEndBounds(t, i + 1, n - 1);
      }
    }
  }

  lemma {:induction false} LineStartBounds(t: Bytes, k: nat, n: nat)
    requires k <= |t| && n > 0
    ensures LineStart(t, k, n) <= k
    ensures LineStart(t, k, n) > 0 ==> t[LineStart(t, k, n) - 1] == NEWLINE
  {
    if k > 0 {
      if t[k - 1] != NEWLINE {
        LineStartBounds(t, k - 1, n);
      } else if n > 1 {
        LineStartBounds(t, k - 1, n - 1);
      }
    }
  }

  lemma {:induction false} BackOffBounds(t: Bytes, i: nat)
    requires i < |t|
    ensures BackOff(t, i) <= i
    ensures BackOff(t, i) == 0 || !IsContinuation(t[BackOff(t, i)])
    ensures forall j :: BackOff(t, i) < j <= i ==> IsContinuation(t[j])
  {
    if i > 0 && IsContinuation(t[i]) {
      BackOffBounds(t, i - 1);
    }
  }

  lemma {:induction false} CharacterStartBounds(t: Bytes, i: nat)
    requires i <= |t|
    ensures i <= CharacterStart(t, i) <= |t|
    ensures CharacterStart(t, i) == |t| || !IsContinuation(t[CharacterStart(t, i)])
    ensures forall j :: i <= j < CharacterStart(t, i) ==> IsContinuation(t[j])
    decreases |t| - i
  {
    if i < |t| && IsContinuation(t[i]) {
      CharacterStartBounds(t, i + 1);
    }
  }

  lemma {:induction false} WindowBounds(t: Bytes, l: Limits)
    ensures HeadEnd(t, l) <= |t| && HeadEnd(t, l) <= l.maxBytes
    ensures TailStart(t, l) <= |t| && |t| - TailStart(t, l) <= l.maxBytes
    ensures MarginStart(t, l) <= |t|
  {
    if l.maxLines > 0 && l.maxBytes > 0 {
      LineEndBounds(t, 0, l.maxLines);
      if |t| > l.maxBytes {
        LineStartBounds(t, l.maxBytes, 1);
        BackOffBounds(t, l.maxBytes);
        LineEndBounds(t, |t| - l.maxBytes - 1, 1);
        CharacterStartBounds(t, |t| - l.maxBytes);
        NextBreakPast(t, |t| - l.maxBytes - 1);
      }
      LineStartBounds(t, LastLineEnd(t), l.maxLines);
    }
    LineStartBounds(t, |t|, l.maxLines + 1);
    if |t| > l.maxBytes {
      BackOffBounds(t, |t| - l.maxBytes - 1);
    }
  }

  lemma {:induction false} NextBreakPast(t: Bytes, i: nat)
    requires i < |t|
    ensures i < NextBreak(t, i) <= |t|
    ensures NextBreak(t, i) < |t| ==> t[NextBreak(t, i) - 1] == NEWLINE
    ensures forall j :: i <= j < NextBreak(t, i) - 1 ==> t[j] != NEWLINE
    decreases |t| - i
  {
    if t[i] == NEWLINE {
      assert NextBreak(t, i) == i + 1;
    } else if i + 1 == |t| {
      assert LineEnd(t, i + 1, 1) == i + 1;
      assert NextBreak(t, i) == |t|;
    } else {
      NextBreakPast(t, i + 1);
      assert NextBreak(t, i) == NextBreak(t, i + 1);
    }
  }

  // ---------------------------------------------------------------- slices

  datatype Slice = Slice(text: Bytes, droppedBytes: nat, droppedLines: nat)

  function Kept(t: Bytes, l: Limits): Bytes {
    WindowBounds(t, l);
    if l.retain == Head then t[..HeadEnd(t, l)] else t[TailStart(t, l)..]
  }

  /** `bound_output`: what is kept and what the limits left out. */
  function Bound(t: Bytes, l: Limits): Slice {
    WindowBounds(t, l);
    SliceLines(t, HeadEnd(t, l));
    SliceLines(t, TailStart(t, l));
    Slice(Kept(t, l), |t| - |Kept(t, l)|, CountLines(t) - CountLines(Kept(t, l)))
  }

  /** The three removed byte patterns of `sanitize_output`. */
  function RemovedAt(t: Bytes, i: nat): (n: nat)
    requires i < |t|
    ensures n <= 3 && i + n <= |t|
  {
    if t[i] <= 0x08 || 0x0b <= t[i] <= 0x1f then 1
    else if i + 2 < |t| && t[i] == 0xef && t[i + 1] == 0xbf && 0xb9 <= t[i + 2] <= 0xbb then 3
    else 0
  }

  function SanitizeFrom(t: Bytes, i: nat): Bytes
    requires i <= |t|
    decreases |t| - i
  {
    if i == |t| then []
    else if RemovedAt(t, i) > 0 then SanitizeFrom(t, i + RemovedAt(t, i))
    else [t[i]] + SanitizeFrom(t, i + 1)
  }

  /** `sanitize_output`. */
  method Sanitize(t: Bytes) returns (r: Bytes)
    ensures r == SanitizeFrom(t, 0)
  {
    r := [];
    var index := 0;
    while index < |t|
      invariant index <= |t| && r + SanitizeFrom(t, index) == SanitizeFrom(t, 0)
    {
      var n := RemovedAt(t, index);
      if n > 0 {
        index := index + n;
      } else {
        r := r + [t[index]];
        index := index + 1;
      }
    }
  }
}
