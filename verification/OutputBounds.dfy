/** What an output window is: the most whole lines within the limits, or a cut of one line. */
module OutputBounds {
  import opened Values
  import opened Utf
  import opened Output

  // ---------------------------------------------------------------- counting up to a position

  lemma {:induction false} CountStep(t: Bytes, i: nat, j: nat)
    requires i < j <= |t|
    ensures CountNewlines(t[i..j]) == (if t[i] == NEWLINE then 1 else 0) + CountNewlines(t[i + 1..j])
    ensures CountNewlines(t[i..j]) == CountNewlines(t[i..j - 1]) + if t[j - 1] == NEWLINE then 1 else 0
  {
    assert t[i..j] == [t[i]] + t[i + 1..j];
    CountConcat([t[i]], t[i + 1..j]);
    assert [t[i]][..0] == [];
    assert t[i..j][..j - i - 1] == t[i..j - 1];
  }

  lemma {:induction false} CountMiddle(t: Bytes, i: nat, j: nat, k: nat)
    requires i <= j <= k <= |t|
    ensures CountNewlines(t[i..k]) == CountNewlines(t[i..j]) + CountNewlines(t[j..k])
  {
    assert t[i..k] == t[i..j] + t[j..k];
    CountConcat(t[i..j], t[j..k]);
  }

  lemma {:induction false} LineEndCount(t: Bytes, i: nat, n: nat)
    requires i <= |t| && n > 0
    ensures var e := LineEnd(t, i, n);
            && i <= e <= |t|
            && ((e == |t| && CountNewlines(t[i..e]) < n) ||
                (i < e && t[e - 1] == NEWLINE && CountNewlines(t[i..e]) == n))
    decreases |t| - i
  {
    LineEndBounds(t, i, n);
    if i < |t| {
      var e := LineEnd(t, i, n);
      if t[i] != NEWLINE {
        LineEndCount(t, i + 1, n);
        CountStep(t, i, e);
      } else if n > 1 {
        LineEndCount(t, i + 1, n - 1);
        CountStep(t, i, e);
      } else {
        CountStep(t, i, i + 1);
      }
    }
  }

  lemma {:induction false} LineStartCount(t: Bytes, k: nat, n: nat)
    requires k <= |t| && n > 0
    ensures var s := LineStart(t, k, n);
            && s <= k
            && ((s == 0 && CountNewlines(t[..k]) < n) ||
                (s > 0 && t[s - 1] == NEWLINE && CountNewlines(t[s..k]) == n - 1))
  {
    if k > 0 {
      var s := LineStart(t, k, n);
      LineStartBounds(t, k, n);
      if t[k - 1] != NEWLINE {
        LineStartCount(t, k - 1, n);
      } else if n > 1 {
        LineStartCount(t, k - 1, n - 1);
      }
      CountStep(t, 0, k);
      assert t[0..k] == t[..k] && t[0..k - 1] == t[..k - 1];
      if s < k {
        CountStep(t, s, k);
      } else {
        assert t[s..k] == [];
      }
    }
  }

  lemma {:induction false} LastBreakMeaning(t: Bytes, k: nat)
    requires k <= |t|
    ensures LastBreak(t, k) <= k && (LastBreak(t, k) > 0 ==> t[LastBreak(t, k) - 1] == NEWLINE)
    ensures forall i :: LastBreak(t, k) <= i < k ==> t[i] != NEWLINE
    decreases k
  {
    if k > 0 && t[k - 1] != NEWLINE {
      LastBreakMeaning(t, k - 1);
    }
  }

  // ---------------------------------------------------------------- head windows

  /** The first `b` bytes are whole lines within the limits. */
  predicate HeadLines(t: Bytes, b: nat, l: Limits) {
    0 < b <= |t| && (b == |t| || t[b - 1] == NEWLINE) && b <= l.maxBytes && CountLines(t[..b]) <= l.maxLines
  }

  lemma {:induction false} HeadLineEnd(t: Bytes, l: Limits)
    requires l.maxLines > 0
    ensures var e := LineEnd(t, 0, l.maxLines);
            && e <= |t|
            && (t != [] ==> e > 0 && (e == |t| || t[e - 1] == NEWLINE))
            && CountLines(t[..e]) <= l.maxLines
            && forall b :: e < b <= |t| ==> CountLines(t[..b]) > l.maxLines
  {
    var e := LineEnd(t, 0, l.maxLines);
    LineEndCount(t, 0, l.maxLines);
    assert t[0..e] == t[..e];
    forall b | e < b <= |t|
      ensures CountLines(t[..b]) > l.maxLines
    {
      CountMiddle(t, 0, e, b);
      assert t[0..b] == t[..b];
      CountStep(t, e, b);
    }
  }

  lemma {:induction false} SomeLine(t: Bytes)
    requires t != []
    ensures CountLines(t) > 0
  {
  }

  ghost predicate HeadFits(t: Bytes, l: Limits) {
    exists b: nat :: HeadLines(t, b, l)
  }

  /** A head window is the largest run of whole leading lines within the limits; if not even
      the first line fits, it is that line cut back to a character boundary. */
  lemma {:induction false} HeadMeaning(t: Bytes, l: Limits)
    ensures HeadFits(t, l) ==> HeadLines(t, HeadEnd(t, l), l)
    ensures forall b: nat :: HeadLines(t, b, l) ==> b <= HeadEnd(t, l)
    ensures !HeadFits(t, l) ==> HeadEnd(t, l) == if l.maxLines == 0 then 0 else CharacterEnd(t, l.maxBytes)
  {
    if l.maxLines == 0 || l.maxBytes == 0 {
      forall b: nat | 0 < b <= |t|
        ensures !HeadLines(t, b, l)
      {
        SomeLine(t[..b]);
      }
    } else if t != [] {
      HeadLineEnd(t, l);
      var e := LineEnd(t, 0, l.maxLines);
      if e <= l.maxBytes {
        assert HeadLines(t, e, l);
      } else {
        var c := LastBreak(t, l.maxBytes);
        LastBreakMeaning(t, l.maxBytes);
        if c > 0 {
          SliceLines(t[..e], c);
          assert t[..e][..c] == t[..c];
          assert HeadLines(t, c, l);
        }
      }
    }
  }

  // ---------------------------------------------------------------- tail windows

  /** The bytes from `s` on are whole lines within the limits. */
  predicate TailLines(t: Bytes, s: nat, l: Limits) {
    s < |t| && (s == 0 || t[s - 1] == NEWLINE) && |t| - s <= l.maxBytes && CountLines(t[s..]) <= l.maxLines
  }

  ghost predicate TailFits(t: Bytes, l: Limits) {
    exists s: nat :: TailLines(t, s, l)
  }

  /** Lines from a position, counted up to the end of the last line. */
  lemma {:induction false} LinesFrom(t: Bytes, s: nat)
    requires s <= LastLineEnd(t) && s < |t|
    ensures CountLines(t[s..]) == CountNewlines(t[s..LastLineEnd(t)]) + 1
  {
    assert t[s..][|t| - s - 1] == t[|t| - 1];
    assert t[s..] == t[s..|t|];
    CountStep(t, s, |t|);
  }

  lemma {:induction false} TailLineStart(t: Bytes, l: Limits)
    requires l.maxLines > 0 && t != []
    ensures var s := LineStart(t, LastLineEnd(t), l.maxLines);
            && s < |t| && (s == 0 || t[s - 1] == NEWLINE)
            && CountLines(t[s..]) <= l.maxLines
            && forall i :: 0 <= i < s ==> CountLines(t[i..]) > l.maxLines
  {
    var k := LastLineEnd(t);
    var s := LineStart(t, k, l.maxLines);
    LineStartCount(t, k, l.maxLines);
    assert t[0..k] == t[..k];
    LinesFrom(t, s);
    forall i | 0 <= i < s
      ensures CountLines(t[i..]) > l.maxLines
    {
      LinesFrom(t, i);
      CountMiddle(t, i, s, k);
      CountStep(t, i, s);
    }
  }

  /** Where the last line is cut when not even it fits. */
  function TailCharacter(t: Bytes, l: Limits): nat {
    if l.maxLines == 0 then |t| else CharacterStart(t, if |t| > l.maxBytes then |t| - l.maxBytes else 0)
  }

  /** A tail window is the longest run of whole trailing lines within the limits; if not even
      the last line fits, it is that line cut forward to a character boundary. */
  lemma {:induction false} TailMeaning(t: Bytes, l: Limits)
    ensures TailFits(t, l) ==> TailLines(t, TailStart(t, l), l)
    ensures forall s: nat :: TailLines(t, s, l) ==> TailStart(t, l) <= s
    ensures !TailFits(t, l) ==> TailStart(t, l) == TailCharacter(t, l)
  {
    if l.maxLines == 0 || l.maxBytes == 0 || t == [] {
      TailNothing(t, l);
    } else {
      TailLineStart(t, l);
      var start := LineStart(t, LastLineEnd(t), l.maxLines);
      if |t| - start <= l.maxBytes {
        assert TailLines(t, start, l);
      } else {
        TailCutMeaning(t, l, start);
      }
    }
  }

  lemma {:induction false} TailNothing(t: Bytes, l: Limits)
    requires l.maxLines == 0 || l.maxBytes == 0 || t == []
    ensures !TailFits(t, l) && TailStart(t, l) == TailCharacter(t, l)
  {
    forall s: nat | s < |t|
      ensures !TailLines(t, s, l)
    {
      SomeLine(t[s..]);
    }
    CharacterStartBounds(t, |t|);
  }

  /** When the lines within the line limit are too long, the byte limit decides. */
  lemma {:induction false} TailCutMeaning(t: Bytes, l: Limits, start: nat)
    requires l.maxBytes > 0 && l.maxLines > 0 && t != [] && start == LineStart(t, LastLineEnd(t), l.maxLines)
    requires start < |t| && CountLines(t[start..]) <= l.maxLines && |t| - start > l.maxBytes
    ensures TailFits(t, l) ==> TailLines(t, TailStart(t, l), l)
    ensures forall s: nat :: TailLines(t, s, l) ==> TailStart(t, l) <= s
    ensures !TailFits(t, l) ==> TailStart(t, l) == TailCharacter(t, l)
  {
    TailCut(t, l, start);
    var b := NextBreak(t, |t| - l.maxBytes - 1);
    if b < |t| {
      assert TailStart(t, l) == b;
    } else {
      forall s: nat | s < |t|
        ensures !TailLines(t, s, l)
      {
      }
      assert TailStart(t, l) == CharacterStart(t, |t| - l.maxBytes);
    }
  }

  lemma {:induction false} TailCut(t: Bytes, l: Limits, start: nat)
    requires l.maxBytes > 0 && l.maxLines > 0 && start < |t| && CountLines(t[start..]) <= l.maxLines
    requires |t| - start > l.maxBytes
    ensures var b := NextBreak(t, |t| - l.maxBytes - 1);
            && |t| - l.maxBytes <= b <= |t|
            && (b < |t| ==> TailLines(t, b, l))
            && forall s: nat :: TailLines(t, s, l) ==> b <= s
  {
    var from := |t| - l.maxBytes;
    var b := NextBreak(t, from - 1);
    NextBreakPast(t, from - 1);
    SliceLines(t[start..], b - start);
    assert t[start..][b - start..] == t[b..];
    forall s: nat | TailLines(t, s, l)
      ensures b <= s
    {
      assert t[s - 1] == NEWLINE;
    }
  }

  // ---------------------------------------------------------------- guarantees

  lemma {:induction false} WindowLines(t: Bytes, l: Limits)
    ensures HeadEnd(t, l) <= |t| && CountLines(t[..HeadEnd(t, l)]) <= l.maxLines
    ensures TailStart(t, l) <= |t| && CountLines(t[TailStart(t, l)..]) <= l.maxLines
  {
    WindowBounds(t, l);
    if l.maxLines == 0 || l.maxBytes == 0 {
      assert t[..0] == [] && t[|t|..] == [];
    } else if t != [] {
      HeadWithinLines(t, l);
      TailWithinLines(t, l);
    }
  }

  lemma {:induction false} HeadWithinLines(t: Bytes, l: Limits)
    requires t != [] && l.maxLines > 0 && l.maxBytes > 0 && HeadEnd(t, l) <= |t|
    ensures CountLines(t[..HeadEnd(t, l)]) <= l.maxLines
  {
    HeadLineEnd(t, l);
    var e, c := LineEnd(t, 0, l.maxLines), HeadEnd(t, l);
    WindowBounds(t, l);
    SliceLines(t[..e], c);
    assert t[..e][..c] == t[..c];
  }

  lemma {:induction false} TailWithinLines(t: Bytes, l: Limits)
    requires t != [] && l.maxLines > 0 && l.maxBytes > 0 && TailStart(t, l) <= |t|
    ensures CountLines(t[TailStart(t, l)..]) <= l.maxLines
  {
    TailLineStart(t, l);
    var start, c := LineStart(t, LastLineEnd(t), l.maxLines), TailStart(t, l);
    WindowBounds(t, l);
    SliceLines(t[start..], c - start);
    assert t[start..][c - start..] == t[c..];
  }

  /** For all texts and limits: the window is a prefix or a suffix, within both limits; bytes are
      conserved; and the dropped lines are what the text has more than the window. */
  lemma {:induction false} BoundGuarantees(t: Bytes, l: Limits)
    ensures var s := Bound(t, l);
            && (l.retain == Head ==> s.text <= t)
            && (l.retain == Tail ==> |s.text| <= |t| && s.text == t[|t| - |s.text|..])
            && |s.text| <= l.maxBytes && CountLines(s.text) <= l.maxLines
            && |s.text| + s.droppedBytes == |t|
            && CountLines(s.text) + s.droppedLines == CountLines(t)
  {
    WindowBounds(t, l);
    WindowLines(t, l);
  }

  // ---------------------------------------------------------------- characters stay whole

  /** Cutting well-formed UTF-8 before a byte that is no continuation leaves two well-formed parts. */
  lemma {:induction false} CutBetweenCharacters(t: Bytes, i: nat)
    requires WellFormed8(t) && i <= |t| && (i == |t| || !IsContinuation(t[i]))
    ensures WellFormed8(t[..i]) && WellFormed8(t[i..])
    decreases |t|
  {
    if i == 0 || t == [] {
      assert t[..i] == [] && t[i..] == t;
    } else {
      var n := CharLength(t);
      assert n <= i;
      CutBetweenCharacters(t[n..], i - n);
      assert t[..i][n..] == t[n..][..i - n] && t[n..][i - n..] == t[i..];
      SameCharLength(t, t[..i]);
    }
  }

  lemma {:induction false} SameCharLength(t: Bytes, p: Bytes)
    requires p <= t && 0 < CharLength(t) <= |p|
    ensures CharLength(p) == CharLength(t)
  {
  }

  /** In well-formed UTF-8 a newline is followed by the start of a character. */
  lemma {:induction false} AfterNewline(t: Bytes, i: nat)
    requires WellFormed8(t) && 0 < i < |t| && t[i - 1] == NEWLINE
    ensures !IsContinuation(t[i])
    decreases |t|
  {
    var n := CharLength(t);
    if i == 1 {
      assert n == 1;
      assert t[1..][0] == t[1] && 0 < CharLength(t[1..]);
    } else {
      assert n < i || n == i;
      if n < i {
        assert t[n..][i - n - 1] == t[i - 1] && t[n..][i - n] == t[i];
        AfterNewline(t[n..], i - n);
      }
    }
  }

  /** Well-formed UTF-8 is never cut inside a character. */
  lemma {:induction false} KeptWellFormed(t: Bytes, l: Limits)
    requires WellFormed8(t)
    ensures WellFormed8(Kept(t, l))
  {
    WindowBounds(t, l);
    if l.retain == Head {
      var e := HeadEnd(t, l);
      HeadMeaning(t, l);
      if 0 < e < |t| {
        if HeadFits(t, l) {
          AfterNewline(t, e);
        } else {
          BackOffBounds(t, l.maxBytes);
        }
        CutBetweenCharacters(t, e);
      }
      assert e == 0 ==> t[..e] == [];
      assert e == |t| ==> t[..e] == t;
    } else {
      var s := TailStart(t, l);
      TailMeaning(t, l);
      if 0 < s < |t| {
        if TailFits(t, l) {
          AfterNewline(t, s);
        } else {
          CharacterStartBounds(t, if |t| > l.maxBytes then |t| - l.maxBytes else 0);
        }
        CutBetweenCharacters(t, s);
      }
      assert s == 0 ==> t[s..] == t;
      assert s == |t| ==> t[s..] == [];
    }
  }
}
