/** The streaming output buffer agrees with bounding the whole stream. */
module OutputBuffer {
  import opened Values
  import opened Utf
  import opened Output
  import opened OutputBounds

  // ---------------------------------------------------------------- the scanning loops

  method FindNewline(t: Bytes, from: nat) returns (i: nat)
    requires from <= |t|
    ensures from <= i <= |t| && (i < |t| ==> t[i] == NEWLINE)
    ensures forall n: nat :: n > 0 ==> LineEnd(t, from, n) == LineEnd(t, i, n)
  {
    i := from;
    while i < |t| && t[i] != NEWLINE
      invariant from <= i <= |t|
      invariant forall n: nat :: n > 0 ==> LineEnd(t, from, n) == LineEnd(t, i, n)
    {
      i := i + 1;
    }
  }

  /** Just after the last newline before `k`; 0 if there is none. */
  method FindLastNewline(t: Bytes, k: nat) returns (b: nat)
    requires k <= |t|
    ensures b <= k && (b > 0 ==> t[b - 1] == NEWLINE)
    ensures forall n: nat :: n > 0 ==> LineStart(t, k, n) == LineStart(t, b, n)
  {
    b := k;
    while b > 0 && t[b - 1] != NEWLINE
      invariant b <= k
      invariant forall n: nat :: n > 0 ==> LineStart(t, k, n) == LineStart(t, b, n)
    {
      b := b - 1;
    }
  }

  /** `head_range`. */
  method HeadRange(t: Bytes, l: Limits) returns (end: nat)
    ensures end == HeadEnd(t, l)
  {
    if l.maxLines == 0 || l.maxBytes == 0 {
      return 0;
    }
    end := |t|;
    var lines := 0;
    var index := FindNewline(t, 0);
    while index < |t|
      invariant index <= |t| && (index < |t| ==> t[index] == NEWLINE) && end == |t| && lines < l.maxLines
      invariant LineEnd(t, 0, l.maxLines) == LineEnd(t, index, l.maxLines - lines)
    {
      lines := lines + 1;
      if lines == l.maxLines {
        end := index + 1;
        break;
      }
      index := FindNewline(t, index + 1);
    }
    assert end == LineEnd(t, 0, l.maxLines);
    if end > l.maxBytes {
      LineEndBounds(t, 0, l.maxLines);
      var b := FindLastNewline(t, l.maxBytes);
      end := if b == 0 then CharacterEnd(t, l.maxBytes) else b;
    }
  }

  /** `tail_range`. */
  method TailRange(t: Bytes, l: Limits) returns (start: nat)
    ensures start == TailStart(t, l)
  {
    if l.maxLines == 0 || l.maxBytes == 0 {
      return |t|;
    }
    start := 0;
    var lines := 1;
    var b: nat := FindLastNewline(t, LastLineEnd(t));
    while b != 0
      invariant b <= |t| && (b > 0 ==> t[b - 1] == NEWLINE) && start == 0 && 1 <= lines <= l.maxLines
      invariant LineStart(t, LastLineEnd(t), l.maxLines) == LineStart(t, b, l.maxLines - lines + 1)
    {
      if lines == l.maxLines {
        start := b;
        break;
      }
      lines := lines + 1;
      b := FindLastNewline(t, b - 1);
    }
    assert start == LineStart(t, LastLineEnd(t), l.maxLines);
    if |t| - start > l.maxBytes {
      var from := |t| - l.maxBytes;
      var newline := FindNewline(t, from - 1);
      start := if newline < |t| && newline + 1 < |t| then newline + 1 else CharacterStart(t, from);
    }
  }

  /** `tail_margin`. */
  method TailMargin(t: Bytes, l: Limits) returns (margin: Bytes)
    ensures MarginStart(t, l) <= |t| && margin == t[MarginStart(t, l)..]
  {
    WindowBounds(t, l);
    var byteStart := if |t| > l.maxBytes then CharacterEnd(t, |t| - l.maxBytes - 1) else 0;
    var lineStart := 0;
    var newlines := 0;
    var b: nat := FindLastNewline(t, |t|);
    while b != 0
      invariant b <= |t| && (b > 0 ==> t[b - 1] == NEWLINE) && lineStart == 0 && newlines <= l.maxLines
      invariant LineStart(t, |t|, l.maxLines + 1) == LineStart(t, b, l.maxLines + 1 - newlines)
      decreases b
    {
      newlines := newlines + 1;
      if newlines > l.maxLines {
        lineStart := b - 1;
        break;
      }
      b := FindLastNewline(t, b - 1);
    }
    var start := if byteStart >= lineStart then byteStart else lineStart;
    margin := t[start..];
  }

  // ---------------------------------------------------------------- head windows of a prefix

  lemma {:induction false} LineEndPrefix(s: Bytes, t: Bytes, i: nat, n: nat)
    requires s <= t && i <= |s| && n > 0
    ensures LineEnd(t, i, n) >= LineEnd(s, i, n)
    ensures LineEnd(t, i, n) == LineEnd(s, i, n) || LineEnd(s, i, n) == |s|
    ensures CountNewlines(s[i..]) >= n ==> LineEnd(t, i, n) == LineEnd(s, i, n)
    decreases |s| - i
  {
    if i < |s| {
      assert s[i] == t[i];
      CountStep(s, i, |s|);
      assert s[i..] == s[i..|s|] && s[i + 1..] == s[i + 1..|s|];
      if s[i] != NEWLINE {
        LineEndPrefix(s, t, i + 1, n);
      } else if n > 1 {
        LineEndPrefix(s, t, i + 1, n - 1);
      }
    } else {
      assert s[i..] == [];
      LineEndBounds(t, i, n);
    }
  }

  lemma {:induction false} LineStartPrefix(s: Bytes, t: Bytes, k: nat, n: nat)
    requires s <= t && k <= |s| && n > 0
    ensures LineStart(t, k, n) == LineStart(s, k, n)
  {
    if k > 0 {
      assert s[k - 1] == t[k - 1];
      LineStartPrefix(s, t, k - 1, n);
      if n > 1 {
        LineStartPrefix(s, t, k - 1, n - 1);
      }
    }
  }

  lemma {:induction false} BackOffPrefix(s: Bytes, t: Bytes, i: nat)
    requires s <= t && i < |s|
    ensures BackOff(t, i) == BackOff(s, i)
  {
    assert s[i] == t[i];
    if i > 0 {
      BackOffPrefix(s, t, i - 1);
    }
  }

  /** A prefix that is full decides the head window of every longer text. */
  lemma {:induction false} HeadOfPrefix(s: Bytes, t: Bytes, l: Limits)
    requires s <= t && (s == t || |s| > l.maxBytes || CountNewlines(s) >= l.maxLines)
    ensures HeadEnd(s, l) == HeadEnd(t, l)
  {
    if l.maxLines > 0 && l.maxBytes > 0 && s != t {
      LineEndPrefix(s, t, 0, l.maxLines);
      assert s[0..] == s;
      LineEndBounds(s, 0, l.maxLines);
      if LineEnd(s, 0, l.maxLines) > l.maxBytes {
        LineStartPrefix(s, t, l.maxBytes, 1);
        BackOffPrefix(s, t, l.maxBytes);
      }
    }
  }

  // ---------------------------------------------------------------- tail windows of a suffix

  lemma {:induction false} LineStartSuffix(t: Bytes, c: nat, k: nat, n: nat)
    requires c <= k <= |t| && n > 0
    ensures LineStart(t[c..], k - c, n) == if LineStart(t, k, n) > c then LineStart(t, k, n) - c else 0
    decreases k
  {
    if k == c {
      LineStartBounds(t, k, n);
    } else {
      assert t[c..][k - c - 1] == t[k - 1];
      LineStartSuffix(t, c, k - 1, n);
      if n > 1 {
        LineStartSuffix(t, c, k - 1, n - 1);
      }
    }
  }

  lemma {:induction false} LineEndSuffix(t: Bytes, c: nat, i: nat, n: nat)
    requires c <= i <= |t| && n > 0
    ensures LineEnd(t[c..], i - c, n) == LineEnd(t, i, n) - c
    decreases |t| - i
  {
    if i < |t| {
      assert t[c..][i - c] == t[i];
      LineEndSuffix(t, c, i + 1, n);
      if n > 1 {
        LineEndSuffix(t, c, i + 1, n - 1);
      }
    }
  }

  lemma {:induction false} CharacterStartSuffix(t: Bytes, c: nat, i: nat)
    requires c <= i <= |t|
    ensures CharacterStart(t[c..], i - c) == CharacterStart(t, i) - c
    decreases |t| - i
  {
    if i < |t| {
      assert t[c..][i - c] == t[i];
      CharacterStartSuffix(t, c, i + 1);
    }
  }

  /** More than a window: a byte more than the byte limit, or a newline more than the line limit. */
  predicate Rich(s: Bytes, l: Limits) {
    |s| > l.maxBytes || CountNewlines(s) > l.maxLines
  }

  /** A suffix that holds more than a window decides the tail window of every longer text. */
  lemma {:induction false} TailOfSuffix(t: Bytes, c: nat, l: Limits)
    requires c <= |t| && Rich(t[c..], l) && l.maxBytes > 0 && l.maxLines > 0
    ensures TailStart(t, l) == TailStart(t[c..], l) + c
  {
    var s := t[c..];
    assert s != [];
    assert s[|s| - 1] == t[|t| - 1];
    var k := LastLineEnd(t);
    LineStartSuffix(t, c, k, l.maxLines);
    LineStartBounds(t, k, l.maxLines);
    if |s| > l.maxBytes {
      var from := |t| - l.maxBytes;
      LineEndSuffix(t, c, from - 1, 1);
      CharacterStartSuffix(t, c, from);
    } else {
      EnoughNewlines(t, c, l.maxLines);
    }
  }

  /** With more than `n` newlines in the suffix, the n-th line start from the end lies inside it. */
  lemma {:induction false} EnoughNewlines(t: Bytes, c: nat, n: nat)
    requires c <= |t| && n > 0 && CountNewlines(t[c..]) > n
    ensures c < LineStart(t, LastLineEnd(t), n)
  {
    var s := t[c..];
    var k := LastLineEnd(t);
    assert s != [] && s[|s| - 1] == t[|t| - 1];
    LineStartSuffix(t, c, k, n);
    LineStartCount(s, k - c, n);
    assert s[..k - c] == t[c..k];
    CountStep(t, c, |t|);
    assert t[c..|t|] == s;
    if k == |t| {
      assert t[c..k] == s;
    }
  }

  /** The margin kept between snapshots is all of the text or holds more than a window. */
  lemma {:induction false} MarginRich(t: Bytes, l: Limits)
    ensures MarginStart(t, l) == 0 || (MarginStart(t, l) <= |t| && Rich(t[MarginStart(t, l)..], l))
  {
    WindowBounds(t, l);
    var start := MarginStart(t, l);
    var line := LineStart(t, |t|, l.maxLines + 1);
    if |t| > l.maxBytes {
      BackOffBounds(t, |t| - l.maxBytes - 1);
    }
    if start > 0 && |t| - start <= l.maxBytes {
      assert line > 0 && start == line - 1;
      MarginLines(t, l.maxLines);
    }
  }

  /** From the newline before the n-th line start from the end there are more than `n` newlines. */
  lemma {:induction false} MarginLines(t: Bytes, n: nat)
    requires LineStart(t, |t|, n + 1) > 0
    ensures var line := LineStart(t, |t|, n + 1); line <= |t| && CountNewlines(t[line - 1..]) > n
  {
    var line := LineStart(t, |t|, n + 1);
    LineStartCount(t, |t|, n + 1);
    CountStep(t, line - 1, |t|);
    assert t[line - 1..] == t[line - 1..|t|];
  }

  /** `bound_output`, with the scanning loops. */
  method BoundOutput(t: Bytes, l: Limits) returns (s: Slice)
    ensures s == Bound(t, l)
  {
    WindowBounds(t, l);
    var kept: Bytes;
    if l.retain == Head {
      var end := HeadRange(t, l);
      kept := t[..end];
    } else {
      var start := TailRange(t, l);
      kept := t[start..];
    }
    assert kept == Kept(t, l);
    BoundGuarantees(t, l);
    var lines := CountLinesIn(t);
    var keptLines := CountLinesIn(kept);
    s := Slice(kept, |t| - |kept|, lines - keptLines);
  }

  // ---------------------------------------------------------------- reports

  /** What a snapshot reports: the sanitized window and what the limits dropped of the stream. */
  datatype Report = Report(text: Bytes, droppedBytes: nat, droppedLines: nat)

  /** The report of bounding a whole text at once. */
  function BatchReport(t: Bytes, l: Limits): Report {
    var s := Bound(t, l);
    Report(SanitizeFrom(s.text, 0), s.droppedBytes, s.droppedLines)
  }

  /** The limits for which streaming agrees with bounding the whole stream. A tail buffer adds
      one to both limits in `std::size_t`, so the largest value wraps to zero and it drops
      chunks the window still needs. That goes unnoticed only if the window is empty anyway, or
      is at most one byte long. */
  predicate Faithful(l: Limits) {
    || l.retain == Head
    || l.maxLines == 0 || l.maxBytes <= 1
    || (l.maxBytes < SIZE_MAX && l.maxLines < SIZE_MAX)
  }

  /** `n + 1` in `std::size_t`. */
  function Increment(n: Size): Size {
    if n == SIZE_MAX then 0 else n + 1
  }

  // ---------------------------------------------------------------- stored chunks

  datatype Chunk = Chunk(text: Bytes, bytes: nat, newlines: nat) {
    predicate Tidy() {
      text != [] && bytes == |text| && newlines == CountNewlines(text)
    }
  }

  predicate AllTidy(chunks: seq<Chunk>) {
    forall c :: c in chunks ==> c.Tidy()
  }

  function Join(chunks: seq<Chunk>): Bytes {
    if chunks == [] then [] else chunks[0].text + Join(chunks[1..])
  }

  lemma {:induction false} JoinSnoc(chunks: seq<Chunk>, c: Chunk)
    ensures Join(chunks + [c]) == Join(chunks) + c.text
  {
    if chunks == [] {
      assert chunks + [c] == [c] && [c][1..] == [];
      assert c.text + [] == c.text && [] + c.text == c.text;
    } else {
      assert (chunks + [c])[0] == chunks[0] && (chunks + [c])[1..] == chunks[1..] + [c];
      JoinSnoc(chunks[1..], c);
      assert chunks[0].text + (Join(chunks[1..]) + c.text) == (chunks[0].text + Join(chunks[1..])) + c.text;
    }
  }

  /** Drop leading chunks while the rest still holds more than a window. */
  function DropLeading(chunks: seq<Chunk>, l: Limits): seq<Chunk> {
    if |chunks| <= 1 then chunks
    else
      var rest := Join(chunks[1..]);
      if |rest| <= Increment(l.maxBytes) && CountNewlines(rest) <= Increment(l.maxLines) then chunks
      else DropLeading(chunks[1..], l)
  }

  predicate IsSuffix(s: Bytes, t: Bytes) {
    |s| <= |t| && t[|t| - |s|..] == s
  }

  lemma {:induction false} SuffixTransitive(a: Bytes, b: Bytes, c: Bytes)
    requires IsSuffix(a, b) && IsSuffix(b, c)
    ensures IsSuffix(a, c)
  {
    assert c[|c| - |a|..] == c[|c| - |b|..][|b| - |a|..];
  }

  lemma {:induction false} SuffixAppend(a: Bytes, b: Bytes, c: Bytes)
    requires IsSuffix(a, b)
    ensures IsSuffix(a + c, b + c)
  {
    assert (b + c)[|b + c| - |a + c|..] == b[|b| - |a|..] + c;
  }

  // ---------------------------------------------------------------- what a tail buffer keeps

  /** The stored suffix still decides the tail window of the whole stream. */
  predicate Enough(stored: Bytes, total: Bytes, l: Limits) {
    || l.maxBytes == 0 || l.maxLines == 0
    || stored == total
    || Rich(stored, l)
    || (l.maxBytes == 1 && stored == [NEWLINE])
  }

  lemma {:induction false} EnoughAgrees(stored: Bytes, total: Bytes, l: Limits)
    requires l.retain == Tail && IsSuffix(stored, total) && Enough(stored, total, l)
    ensures Kept(stored, l) == Kept(total, l)
  {
    WindowBounds(stored, l);
    WindowBounds(total, l);
    var c := |total| - |stored|;
    if l.maxBytes == 0 || l.maxLines == 0 {
      assert stored[|stored|..] == [] && total[|total|..] == [];
    } else if stored == total {
    } else if Rich(stored, l) {
      TailOfSuffix(total, c, l);
      assert total[c..][TailStart(stored, l)..] == total[c + TailStart(stored, l)..];
    } else {
      OneByteWindow(stored, l);
      OneByteWindow(total, l);
      assert total[|total| - 1..] == stored;
    }
  }

  /** A one-byte window of text that ends in a newline is that newline. */
  lemma {:induction false} OneByteWindow(t: Bytes, l: Limits)
    requires l.maxBytes == 1 && l.maxLines > 0 && t != [] && t[|t| - 1] == NEWLINE
    ensures TailStart(t, l) == |t| - 1
  {
    LineStartBounds(t, LastLineEnd(t), l.maxLines);
    if |t| - LineStart(t, LastLineEnd(t), l.maxLines) > 1 {
      var from := |t| - 1;
      NextBreakPast(t, from - 1);
      if t[from - 1] == NEWLINE {
        assert NextBreak(t, from - 1) == from;
      }
    }
  }

  lemma {:induction false} EnoughAppend(stored: Bytes, total: Bytes, chunk: Bytes, l: Limits)
    requires Enough(stored, total, l) && chunk != []
    ensures Enough(stored + chunk, total + chunk, l)
  {
    CountConcat(stored, chunk);
  }

  lemma {:induction false} DropLeadingKeeps(chunks: seq<Chunk>, total: Bytes, l: Limits)
    requires AllTidy(chunks) && chunks != [] && IsSuffix(Join(chunks), total)
    ensures AllTidy(DropLeading(chunks, l)) && DropLeading(chunks, l) != []
    ensures IsSuffix(Join(DropLeading(chunks, l)), total)
    ensures Faithful(l) && l.retain == Tail && Enough(Join(chunks), total, l) ==>
              Enough(Join(DropLeading(chunks, l)), total, l)
    decreases |chunks|
  {
    if |chunks| > 1 {
      var rest := Join(chunks[1..]);
      assert IsSuffix(rest, Join(chunks));
      SuffixTransitive(rest, Join(chunks), total);
      if !(|rest| <= Increment(l.maxBytes) && CountNewlines(rest) <= Increment(l.maxLines)) {
        if Faithful(l) && l.retain == Tail {
          DroppedEnough(rest, total, l);
        }
        DropLeadingKeeps(chunks[1..], total, l);
      }
    }
  }

  lemma {:induction false} DroppedEnough(rest: Bytes, total: Bytes, l: Limits)
    requires Faithful(l) && l.retain == Tail
    requires |rest| > Increment(l.maxBytes) || CountNewlines(rest) > Increment(l.maxLines)
    ensures Enough(rest, total, l)
  {
    if |rest| == 1 {
      assert rest[..0] == [];
    }
  }

  // ---------------------------------------------------------------- the buffer

  /** What a buffer has stored decides the window of the whole stream: a head buffer stores the
      stream until it is full, a tail buffer a suffix that is enough. */
  predicate Decides(l: Limits, full: bool, stored: Bytes, total: Bytes) {
    if l.retain == Head then
      && stored <= total
      && (if full then |stored| > l.maxBytes || CountNewlines(stored) >= l.maxLines else stored == total)
    else
      !full && IsSuffix(stored, total) && (Faithful(l) ==> Enough(stored, total, l))
  }

  lemma {:induction false} DecidesWindow(l: Limits, full: bool, stored: Bytes, total: Bytes)
    requires Decides(l, full, stored, total)
    ensures Faithful(l) ==> Kept(stored, l) == Kept(total, l)
    ensures |Kept(stored, l)| <= |total| && CountLines(Kept(stored, l)) <= CountLines(total)
  {
    BoundGuarantees(stored, l);
    if l.retain == Head {
      HeadOfPrefix(stored, total, l);
      WindowBounds(stored, l);
      SliceLines(total, |stored|);
      assert total[..|stored|] == stored;
      assert stored[..HeadEnd(stored, l)] == total[..HeadEnd(stored, l)];
    } else {
      SliceLines(total, |total| - |stored|);
      if Faithful(l) {
        EnoughAgrees(stored, total, l);
      }
    }
  }

  /** What is stored gives the report of the whole stream. */
  lemma {:induction false} ReportAgrees(l: Limits, full: bool, stored: Bytes, total: Bytes)
    requires Decides(l, full, stored, total)
    ensures var kept := Bound(stored, l);
            && CountLines(stored) - kept.droppedLines == CountLines(kept.text) <= CountLines(total)
            && kept.text == Kept(stored, l) && |kept.text| <= |total|
            && (Faithful(l) ==>
                  BatchReport(total, l)
                  == Report(SanitizeFrom(kept.text, 0), |total| - |kept.text|, CountLines(total) - CountLines(kept.text)))
  {
    DecidesWindow(l, full, stored, total);
    BoundGuarantees(stored, l);
    BoundGuarantees(total, l);
  }

  lemma {:induction false} DecidesAppend(l: Limits, stored: Bytes, total: Bytes, chunk: Bytes)
    requires Decides(l, false, stored, total) && chunk != []
    ensures l.retain == Head ==> stored + chunk == total + chunk
    ensures l.retain == Tail ==> Decides(l, false, stored + chunk, total + chunk)
  {
    if l.retain == Tail {
      SuffixAppend(stored, total, chunk);
      if Faithful(l) {
        EnoughAppend(stored, total, chunk, l);
      }
    }
  }

  lemma {:induction false} DecidesFull(l: Limits, stored: Bytes, total: Bytes, chunk: Bytes)
    requires Decides(l, true, stored, total)
    ensures Decides(l, true, stored, total + chunk)
  {
  }

  lemma {:induction false} DecidesMargin(l: Limits, stored: Bytes, total: Bytes)
    requires Decides(l, false, stored, total) && l.retain == Tail
    ensures MarginStart(stored, l) <= |stored|
    ensures Decides(l, false, stored[MarginStart(stored, l)..], total)
  {
    WindowBounds(stored, l);
    MarginRich(stored, l);
    var margin := stored[MarginStart(stored, l)..];
    assert IsSuffix(margin, stored);
    SuffixTransitive(margin, stored, total);
    assert MarginStart(stored, l) == 0 ==> margin == stored;
  }

  /** What is stored without the first chunk. */
  lemma {:induction false} WithoutFirst(chunks: seq<Chunk>)
    requires chunks != [] && AllTidy(chunks)
    ensures AllTidy(chunks[1..])
    ensures |Join(chunks)| == chunks[0].bytes + |Join(chunks[1..])|
    ensures CountNewlines(Join(chunks)) == chunks[0].newlines + CountNewlines(Join(chunks[1..]))
  {
    assert chunks[0] in chunks && chunks[0].Tidy();
    CountConcat(chunks[0].text, Join(chunks[1..]));
  }

  class OutputBuffer {
    const limits: Limits
    var chunks: seq<Chunk>
    var storedBytes: nat
    var storedNewlines: nat
    var full: bool
    var totalBytes: nat
    var totalNewlines: nat
    var endsWithNewline: bool
    /** The stream so far. */
    ghost var total: Bytes

    ghost predicate Tallied()
      reads this
    {
      && AllTidy(chunks) && storedBytes == |Join(chunks)| && storedNewlines == CountNewlines(Join(chunks))
    }

    ghost predicate Counted()
      reads this
    {
      && totalBytes == |total| && totalNewlines == CountNewlines(total)
      && endsWithNewline == (total == [] || total[|total| - 1] == NEWLINE)
    }

    ghost predicate Valid()
      reads this
    {
      Tallied() && Counted() && Decides(limits, full, Join(chunks), total)
    }

    constructor (limits: Limits)
      ensures Valid() && total == [] && chunks == [] && this.limits == limits
    {
      this.limits := limits;
      chunks, storedBytes, storedNewlines, full := [], 0, 0, false;
      totalBytes, totalNewlines, endsWithNewline, total := 0, 0, true, [];
    }

    method Push(chunk: Bytes) returns (accepted: bool)
      requires Valid()
      modifies this
      ensures Valid() && total == old(total) + chunk && accepted == (chunk != [])
      ensures limits.retain == Tail && chunk != [] ==>
                chunks == DropLeading(old(chunks) + [Chunk(chunk, |chunk|, CountNewlines(chunk))], limits)
    {
      if chunk == [] {
        assert total + chunk == total;
        return false;
      }
      ghost var before := total;
      var newlines := CountNewlinesIn(chunk);
      Count(chunk, newlines);
      if full {
        DecidesFull(limits, Join(chunks), before, chunk);
      } else {
        Admit(Chunk(chunk, |chunk|, newlines), before);
      }
      return true;
    }

    /** Store a chunk; a head buffer may be full then, a tail buffer drops what it no longer needs. */
    method Admit(c: Chunk, ghost before: Bytes)
      requires Tallied() && !full && c.Tidy()
      requires Decides(limits, false, Join(chunks), before) && total == before + c.text
      modifies this`chunks, this`storedBytes, this`storedNewlines, this`full
      ensures Tallied() && Decides(limits, full, Join(chunks), total)
      ensures limits.retain == Tail ==> chunks == DropLeading(old(chunks) + [c], limits)
    {
      DecidesAppend(limits, Join(chunks), before, c.text);
      Store(c);
      if limits.retain == Head {
        full := storedBytes > limits.maxBytes || storedNewlines >= limits.maxLines;
      } else {
        Trim();
      }
    }

    method Count(chunk: Bytes, newlines: nat)
      requires Counted() && chunk != [] && newlines == CountNewlines(chunk)
      modifies this`totalBytes, this`totalNewlines, this`endsWithNewline, this`total
      ensures Counted() && total == old(total) + chunk
    {
      CountConcat(total, chunk);
      totalBytes := totalBytes + |chunk|;
      totalNewlines := totalNewlines + newlines;
      endsWithNewline := chunk[|chunk| - 1] == NEWLINE;
      total := total + chunk;
    }

    method Store(c: Chunk)
      requires Tallied() && c.Tidy()
      modifies this`chunks, this`storedBytes, this`storedNewlines
      ensures Tallied() && chunks == old(chunks) + [c] && Join(chunks) == old(Join(chunks)) + c.text
    {
      JoinSnoc(chunks, c);
      CountConcat(Join(chunks), c.text);
      chunks := chunks + [c];
      storedBytes := storedBytes + c.bytes;
      storedNewlines := storedNewlines + c.newlines;
    }

    /** The loop that drops leading chunks. */
    method Trim()
      requires Tallied() && chunks != [] && limits.retain == Tail && Decides(limits, false, Join(chunks), total)
      modifies this`chunks, this`storedBytes, this`storedNewlines
      ensures Tallied() && chunks == DropLeading(old(chunks), limits) && Decides(limits, false, Join(chunks), total)
    {
      DropLeadingKeeps(chunks, total, limits);
      while |chunks| > 1
        invariant DropLeading(chunks, limits) == DropLeading(old(chunks), limits)
        invariant Tallied()
        decreases |chunks|
      {
        var first := chunks[0];
        WithoutFirst(chunks);
        var bytesAfter := storedBytes - first.bytes;
        var newlinesAfter := storedNewlines - first.newlines;
        if bytesAfter <= Increment(limits.maxBytes) && newlinesAfter <= Increment(limits.maxLines) {
          break;
        }
        storedBytes := bytesAfter;
        storedNewlines := newlinesAfter;
        chunks := chunks[1..];
      }
    }

    /** For every stream pushed so far, in any chunks and with any snapshots before this one,
        the report is that of bounding the whole stream, provided the limits are faithful. */
    method Snapshot() returns (r: Report)
      requires Valid()
      modifies this
      ensures Valid() && total == old(total)
      ensures r.text == SanitizeFrom(Kept(old(Join(chunks)), limits), 0)
      ensures Faithful(limits) ==> r == BatchReport(total, limits)
    {
      var stored := JoinChunks(chunks);
      r := MakeReport(stored);
      ghost var batch := BatchReport(total, limits);
      assert Faithful(limits) ==> r == batch;
      Compact(stored);
      assert batch == BatchReport(total, limits);
    }

    /** The report on what is stored, with the counts of the whole stream. */
    method MakeReport(stored: Bytes) returns (r: Report)
      requires Valid() && stored == Join(chunks)
      ensures r.text == SanitizeFrom(Kept(stored, limits), 0)
      ensures Faithful(limits) ==> r == BatchReport(total, limits)
    {
      ReportAgrees(limits, full, stored, total);
      var kept := BoundOutput(stored, limits);
      var storedLines := CountLinesIn(stored);
      var text := Sanitize(kept.text);
      var lines := TotalLines();
      r := Report(text, totalBytes - |kept.text|, lines - (storedLines - kept.droppedLines));
    }

    method TotalLines() returns (n: nat)
      requires Counted()
      ensures n == CountLines(total)
    {
      n := totalNewlines + if endsWithNewline then 0 else 1;
    }

    /** Tail windows never reach back before this one; keep only the margin that finding a later
        window's first line needs. A head buffer keeps its text in one chunk. */
    method Compact(stored: Bytes)
      requires Valid() && stored == Join(chunks)
      modifies this`chunks, this`storedBytes, this`storedNewlines
      ensures Valid()
    {
      if limits.retain == Tail {
        DecidesMargin(limits, stored, total);
        var text := TailMargin(stored, limits);
        Restore(text);
      } else if |chunks| > 1 {
        Restore(stored);
      }
    }

    /** Keep one chunk, or none for an empty text. */
    method Restore(text: Bytes)
      modifies this`chunks, this`storedBytes, this`storedNewlines
      ensures Tallied() && Join(chunks) == text
    {
      chunks := [];
      storedBytes, storedNewlines := 0, 0;
      if text != [] {
        var newlines := CountNewlinesIn(text);
        chunks := [Chunk(text, |text|, newlines)];
        storedBytes, storedNewlines := |text|, newlines;
        assert chunks[1..] == [] && text + [] == text;
      }
    }
  }

  method JoinChunks(chunks: seq<Chunk>) returns (stored: Bytes)
    ensures stored == Join(chunks)
  {
    stored := [];
    var n := 0;
    assert chunks[0..] == chunks && stored + Join(chunks) == Join(chunks);
    while n < |chunks|
      invariant n <= |chunks| && stored + Join(chunks[n..]) == Join(chunks)
    {
      assert chunks[n..][1..] == chunks[n + 1..];
      assert (stored + chunks[n].text) + Join(chunks[n + 1..]) == stored + (chunks[n].text + Join(chunks[n + 1..]));
      stored := stored + chunks[n].text;
      n := n + 1;
    }
    assert stored + [] == stored;
  }

  // ---------------------------------------------------------------- limits that wrap

  /** Any text of at most two plain bytes fits a tail window of two bytes and one line. */
  lemma {:induction false} ShortTextKept(t: Bytes, l: Limits)
    requires l.retain == Tail && l.maxLines >= 1 && |t| <= 2 && |t| <= l.maxBytes && l.maxBytes > 0
    requires forall i :: 0 <= i < |t| ==> t[i] == 97 || (t[i] == NEWLINE && i == |t| - 1)
    ensures Kept(t, l) == t && SanitizeFrom(Kept(t, l), 0) == t
  {
    var k := LastLineEnd(t);
    assert LineStart(t, 0, l.maxLines) == 0;
    assert k >= 1 ==> LineStart(t, 1, l.maxLines) == 0;
    assert LineStart(t, k, l.maxLines) == 0;
    assert t[0..] == t;
    if |t| == 2 {
      assert SanitizeFrom(t, 1) == [t[1]] + SanitizeFrom(t, 2);
    }
  }

  lemma {:induction false} WrappedDrop(a: Chunk, b: Chunk, l: Limits)
    requires l.retain == Tail && b.Tidy() && |b.text| == 1
    requires l.maxBytes == SIZE_MAX || (l.maxLines == SIZE_MAX && CountNewlines(b.text) == 1)
    ensures DropLeading(DropLeading([a], l) + [b], l) == [b]
  {
    assert [a] + [b] == [a, b] && [a, b][1..] == [b] && [b][1..] == [];
    assert b.text + [] == b.text;
    assert Join([b]) == b.text;
  }

  /** Two plain bytes fit the window, and so does one of them. */
  lemma {:induction false} WrapShows(l: Limits, one: Bytes, both: Bytes)
    requires l.retain == Tail && l.maxLines >= 1 && l.maxBytes >= 2 && |one| == 1 && |both| == 2
    requires forall i :: 0 <= i < |one| ==> one[i] == 97 || (one[i] == NEWLINE && i == |one| - 1)
    requires forall i :: 0 <= i < |both| ==> both[i] == 97 || (both[i] == NEWLINE && i == |both| - 1)
    ensures SanitizeFrom(Kept(one, l), 0) != BatchReport(both, l).text
  {
    ShortTextKept(one, l);
    ShortTextKept(both, l);
    BatchText(both, l);
  }

  lemma {:induction false} BatchText(t: Bytes, l: Limits)
    ensures BatchReport(t, l).text == SanitizeFrom(Kept(t, l), 0)
  {
  }

  /** A tail buffer after two one-byte pushes whose first byte was dropped. */
  method PushTwo(l: Limits, first: Bytes, second: Bytes, ghost a: Chunk, ghost b: Chunk) returns (buffer: OutputBuffer)
    requires l.retain == Tail && l.maxBytes > 0 && |first| == |second| == 1
    requires a == Chunk(first, 1, CountNewlines(first)) && b == Chunk(second, 1, CountNewlines(second))
    requires DropLeading(DropLeading([a], l) + [b], l) == [b]
    ensures fresh(buffer) && buffer.Valid() && buffer.limits == l && Join(buffer.chunks) == second
  {
    buffer := new OutputBuffer(l);
    var _ := buffer.Push(first);
    assert buffer.chunks == DropLeading([a], l) by {
      assert [] + [a] == [a];
    }
    var _ := buffer.Push(second);
    assert [b][1..] == [] && second + [] == second;
  }

  /** For all limits that are not faithful there is a stream whose snapshot differs from
      bounding the stream: two pushes of one byte each. */
  method UnfaithfulDiffers(l: Limits) returns (first: Bytes, second: Bytes, r: Report)
    requires !Faithful(l)
    ensures |first| == |second| == 1
    ensures r.text != BatchReport(first + second, l).text
  {
    first := [97];
    second := if l.maxBytes == SIZE_MAX then [97] else [NEWLINE];
    assert second[..0] == [];
    ghost var a, b := Chunk(first, 1, CountNewlines(first)), Chunk(second, 1, CountNewlines(second));
    WrappedDrop(a, b, l);
    WrapShows(l, second, first + second);
    var buffer := PushTwo(l, first, second, a, b);
    r := buffer.Snapshot();
  }
}
