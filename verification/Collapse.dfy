/** Folding a draft's log into a smaller batch, and exactly when the batch still replays.

    `log` is the recorded operations of a draft that neither spliced nor moved, `st` the
    documents it went through: `st[0]` is the base and `st[|log|]` the candidate. */
module Collapse {
  import opened Values
  import opened Delta
  import StringDelta

  // ---------------------------------------------------------------- the fold

  predicate IsWrite(op: Op) {
    op.SetOp? || op.AppendOp? || op.TruncateOp?
  }

  /** `op_path`. */
  function OpPath(op: Op): Path {
    if op.ReplaceOp? then [] else op.path
  }

  predicate DeletesAt(log: Batch, k: nat, p: Path) {
    k < |log| && log[k].DeleteOp? && OpPath(log[k]) == p
  }

  /** A write loses to a later write of the same path and to any write of a strict ancestor. */
  predicate Beats(log: Batch, j: nat, k: nat)
    requires j < |log| && k < |log|
  {
    IsWrite(log[j]) && ((j > k && OpPath(log[j]) == OpPath(log[k])) || OpPath(log[j]) < OpPath(log[k]))
  }

  predicate Survives(log: Batch, k: nat) {
    k < |log| && IsWrite(log[k]) && forall j :: 0 <= j < |log| ==> !Beats(log, j, k)
  }

  predicate Covered(log: Batch, p: Path) {
    exists w: nat :: w < |log| && Survives(log, w) && OpPath(log[w]) < p
  }

  predicate DeleteKept(base: Json, log: Batch, k: nat) {
    && k < |log| && log[k].DeleteOp?
    && !Covered(log, OpPath(log[k]))
    && TryGet(base, OpPath(log[k])).Some?
  }

  predicate Deleted(log: Batch, p: Path) {
    exists k: nat :: k < |log| && DeletesAt(log, k, p)
  }

  /** `emit_write`: the operations that carry one path from its base value to its final one. */
  function EmitWrite(base: Json, fin: Json, log: Batch, p: Path): Batch {
    match TryGet(fin, p)
    case None => []
    case Some(v) =>
      var b := TryGet(base, p);
      if Deleted(log, p) || b.None? then [SetOp(p, v)]
      else if b.value == v then []
      else if b.value.Str? && v.Str? then EditOps(p, StringDelta.StringChange(b.value.text, v.text))
      else [SetOp(p, v)]
  }

  function Emit(base: Json, fin: Json, log: Batch, k: nat): Batch
    requires k < |log|
  {
    if Survives(log, k) then EmitWrite(base, fin, log, OpPath(log[k]))
    else if DeleteKept(base, log, k) then [log[k]]
    else []
  }

  function EmitUpTo(base: Json, fin: Json, log: Batch, n: nat): Batch
    requires n <= |log|
  {
    if n == 0 then [] else EmitUpTo(base, fin, log, n - 1) + Emit(base, fin, log, n - 1)
  }

  /** `collapse_ops`. */
  function CollapseOps(base: Json, fin: Json, log: Batch): Batch {
    EmitUpTo(base, fin, log, |log|)
  }

  /** What a surviving write emits: nothing if the value is gone or unchanged; the difference of two
      texts; else the final value. A path that was deleted meanwhile is always written in full. */
  lemma {:induction false} EmitWriteMeaning(base: Json, fin: Json, log: Batch, p: Path)
    ensures TryGet(fin, p).None? ==> EmitWrite(base, fin, log, p) == []
    ensures (forall k :: 0 <= k < |log| ==> log[k] != DeleteOp(p)) && TryGet(fin, p) == TryGet(base, p) ==>
              EmitWrite(base, fin, log, p) == []
    ensures (forall k :: 0 <= k < |log| ==> log[k] != DeleteOp(p)) && TryGet(fin, p) != TryGet(base, p)
            && TryGet(fin, p).Some? && TryGet(base, p).Some? && TryGet(fin, p).value.Str? && TryGet(base, p).value.Str? ==>
              EmitWrite(base, fin, log, p)
              == EditOps(p, StringDelta.StringChange(TryGet(base, p).value.text, TryGet(fin, p).value.text))
    ensures TryGet(fin, p).Some?
            && (DeleteOp(p) in log || TryGet(base, p).None?
                || (TryGet(fin, p) != TryGet(base, p) && !(TryGet(fin, p).value.Str? && TryGet(base, p).value.Str?))) ==>
              EmitWrite(base, fin, log, p) == [SetOp(p, TryGet(fin, p).value)]
  {
    DeletedIff(log, p);
  }

  lemma {:induction false} DeletedIff(log: Batch, p: Path)
    ensures Deleted(log, p) <==> DeleteOp(p) in log
  {
    if DeleteOp(p) in log {
      var k: nat :| k < |log| && log[k] == DeleteOp(p);
      assert DeletesAt(log, k, p);
    }
    if Deleted(log, p) {
      var k: nat :| k < |log| && DeletesAt(log, k, p);
      assert log[k] == DeleteOp(p);
    }
  }

  /** Small and local: at most two operations per recorded one, none of which replaces the root, each
      at a recorded path. */
  predicate Local(log: Batch, n: nat, ops: Batch)
    requires n <= |log|
  {
    && |ops| <= 2 * n
    && forall op :: op in ops ==> !op.ReplaceOp? && exists k :: 0 <= k < n && OpPath(log[k]) == OpPath(op)
  }

  lemma {:induction false} EmitWriteLocal(base: Json, fin: Json, log: Batch, p: Path)
    ensures |EmitWrite(base, fin, log, p)| <= 2
    ensures forall op :: op in EmitWrite(base, fin, log, p) ==> !op.ReplaceOp? && OpPath(op) == p
  {
  }

  lemma {:induction false} EmitLocal(base: Json, fin: Json, log: Batch, k: nat)
    requires k < |log|
    ensures |Emit(base, fin, log, k)| <= 2
    ensures forall op :: op in Emit(base, fin, log, k) ==> !op.ReplaceOp? && OpPath(op) == OpPath(log[k])
  {
    EmitWriteLocal(base, fin, log, OpPath(log[k]));
  }

  lemma {:induction false} LocalNext(log: Batch, n: nat, ops: Batch, more: Batch)
    requires n < |log| && Local(log, n, ops) && |more| <= 2
    requires forall op :: op in more ==> !op.ReplaceOp? && OpPath(op) == OpPath(log[n])
    ensures Local(log, n + 1, ops + more)
  {
  }

  /** The collapsed batch is small and local. */
  lemma {:induction false} CollapseLocal(base: Json, fin: Json, log: Batch)
    ensures Local(log, |log|, CollapseOps(base, fin, log))
  {
    for k := 0 to |log|
      invariant Local(log, k, EmitUpTo(base, fin, log, k))
    {
      EmitLocal(base, fin, log, k);
      LocalNext(log, k, EmitUpTo(base, fin, log, k), Emit(base, fin, log, k));
    }
  }

  // ---------------------------------------------------------------- when it replays

  function Previous(p: Path): Path
    requires p != [] && Last(p).Index? && Last(p).index > 0
  {
    Parent(p) + [Index(Last(p).index - 1)]
  }

  /** `p` is an array element whose predecessor is not in the base either. */
  predicate Grows(base: Json, p: Path) {
    p != [] && Last(p).Index? && Last(p).index > 0 && TryGet(base, Previous(p)).None?
  }

  predicate OrderAt(base: Json, fin: Json, log: Batch, k: nat) {
    Survives(log, k) && TryGet(fin, OpPath(log[k])).Some? && Grows(base, OpPath(log[k])) ==>
      exists w: nat :: w < k && Survives(log, w) && OpPath(log[w]) == Previous(OpPath(log[k]))
  }

  /** The elements a draft added to an array were last written in index order. */
  predicate InOrder(base: Json, fin: Json, log: Batch) {
    forall k: nat :: k < |log| ==> OrderAt(base, fin, log, k)
  }

  // ---------------------------------------------------------------- draft histories

  /** What one accepted draft call other than splice and move does to the document. */
  ghost predicate DraftStep(j: Json, op: Op, k: Json) {
    && (IsWrite(op) || op.DeleteOp?)
    && OpFault(op) == None
    && ApplyOp(j, op) == Ok(k)
    && (op.DeleteOp? ==> Last(op.path).Key? && View(j, op.path) != None)
  }

  ghost predicate History(log: Batch, st: seq<Json>) {
    |st| == |log| + 1 && forall k :: 0 <= k < |log| ==> DraftStep(st[k], log[k], st[k + 1])
  }

  lemma {:induction false} WriteStep(j: Json, op: Op, k: Json, q: Path)
    requires DraftStep(j, op, k) && IsWrite(op)
    ensures CanWrite(j, op.path) && View(k, op.path) != None
    ensures !(op.path <= q) ==> View(k, q) == View(j, q)
  {
    var v := WrittenValue(j, op);
    SetPathOkIff(j, op.path, v);
    SetPathView(j, op.path, v, op.path);
    SetPathView(j, op.path, v, q);
  }

  ghost function WrittenValue(j: Json, op: Op): (v: Json)
    requires IsWrite(op) && ApplyOp(j, op).Ok?
    ensures ApplyOp(j, op) == SetPath(j, op.path, v)
  {
    match op
    case SetOp(_, v) => v
    case AppendOp(p, t) => Str(TargetString(j, p).value + t)
    case TruncateOp(p, n) => Str(StringDelta.TruncateFront(TargetString(j, p).value, n).value)
  }

  lemma {:induction false} DeleteStep(j: Json, op: Op, k: Json, q: Path)
    requires DraftStep(j, op, k) && op.DeleteOp?
    ensures View(j, Parent(op.path)) == Some(ObjAtom)
    ensures View(k, q) == if op.path <= q then None else View(j, q)
  {
    EraseKeyView(j, op.path, q);
  }

  /** Nothing at or above a path was written between `lo` and `hi`. */
  ghost predicate NoWrite(log: Batch, q: Path, lo: nat, hi: nat) {
    forall k: nat :: lo <= k < hi && k < |log| && IsWrite(log[k]) ==> !(OpPath(log[k]) <= q)
  }

  /** What no operation touches stays. */
  lemma {:induction false} Untouched(log: Batch, st: seq<Json>, q: Path, lo: nat, hi: nat)
    requires History(log, st) && lo <= hi <= |log|
    requires forall k: nat :: lo <= k < hi ==> !(OpPath(log[k]) <= q)
    ensures View(st[hi], q) == View(st[lo], q)
    decreases hi
  {
    if lo < hi {
      Untouched(log, st, q, lo, hi - 1);
      assert DraftStep(st[hi - 1], log[hi - 1], st[hi]);
      if IsWrite(log[hi - 1]) {
        WriteStep(st[hi - 1], log[hi - 1], st[hi], q);
      } else {
        DeleteStep(st[hi - 1], log[hi - 1], st[hi], q);
      }
    }
  }

  /** What is present without having been written was there all along, and nothing above it was deleted. */
  lemma {:induction false} Persists(log: Batch, st: seq<Json>, q: Path, lo: nat, hi: nat)
    requires History(log, st) && lo <= hi <= |log|
    requires NoWrite(log, q, lo, hi) && View(st[hi], q) != None
    ensures forall k: nat :: lo <= k <= hi ==> View(st[k], q) == View(st[hi], q)
    ensures forall k: nat :: lo <= k < hi ==> !(OpPath(log[k]) <= q)
    decreases hi
  {
    if lo < hi {
      var n := hi - 1;
      assert DraftStep(st[n], log[n], st[hi]);
      if IsWrite(log[n]) {
        WriteStep(st[n], log[n], st[hi], q);
      } else {
        DeleteStep(st[n], log[n], st[hi], q);
      }
      Persists(log, st, q, lo, n);
    }
  }

  /** Every write is at or below a surviving one. */
  lemma {:induction false} SurvivorAbove(log: Batch, k: nat) returns (w: nat)
    requires k < |log| && IsWrite(log[k])
    ensures Survives(log, w) && OpPath(log[w]) <= OpPath(log[k])
    decreases |OpPath(log[k])|, |log| - k
  {
    if Survives(log, k) {
      w := k;
    } else {
      var j :| 0 <= j < |log| && Beats(log, j, k);
      w := SurvivorAbove(log, j);
    }
  }

  lemma {:induction false} NoSurvivorNoWrite(log: Batch, q: Path)
    requires forall w: nat :: w < |log| && Survives(log, w) ==> !(OpPath(log[w]) <= q)
    ensures NoWrite(log, q, 0, |log|)
  {
    forall k: nat | k < |log| && IsWrite(log[k])
      ensures !(OpPath(log[k]) <= q)
    {
      var w := SurvivorAbove(log, k);
    }
  }

  /** No write reaches above a survivor, and none repeats it later. */
  lemma {:induction false} NoWriteAboveSurvivor(log: Batch, w: nat)
    requires Survives(log, w) && OpPath(log[w]) != []
    ensures NoWrite(log, Parent(OpPath(log[w])), 0, |log|)
    ensures NoWrite(log, OpPath(log[w]), w + 1, |log|)
  {
    var m := OpPath(log[w]);
    forall k: nat | k < |log| && IsWrite(log[k])
      ensures !(OpPath(log[k]) <= Parent(m))
      ensures w < k ==> !(OpPath(log[k]) <= m)
    {
      assert !Beats(log, k, w);
    }
  }

  lemma {:induction false} Comparable(a: Path, b: Path, q: Path)
    ensures a <= q && b <= q ==> a <= b || b <= a
  {
    if a <= q && b <= q {
      assert a == q[..|a|] && b == q[..|b|];
      assert |a| <= |b| ==> b[..|a|] == a;
      assert |b| <= |a| ==> a[..|b|] == b;
    }
  }

  // ---------------------------------------------------------------- what the emitted prefix has done

  ghost predicate WroteAbove(fin: Json, log: Batch, n: nat, q: Path) {
    exists w: nat :: w < n && Survives(log, w) && OpPath(log[w]) <= q && View(fin, OpPath(log[w])) != None
  }

  ghost predicate DeletedAbove(base: Json, log: Batch, n: nat, q: Path) {
    exists d: nat :: d < n && DeleteKept(base, log, d) && OpPath(log[d]) <= q
  }

  /** The content at `q` after the operations emitted for the first `n` log entries. */
  ghost function Expected(base: Json, fin: Json, log: Batch, n: nat, q: Path): Option<Atom> {
    if WroteAbove(fin, log, n, q) then View(fin, q)
    else if DeletedAbove(base, log, n, q) then None
    else View(base, q)
  }

  ghost predicate Reached(log: Batch, st: seq<Json>, n: nat, r: Json)
    requires |st| == |log| + 1
  {
    forall q: Path :: View(r, q) == Expected(st[0], st[|log|], log, n, q)
  }

  /** Before a surviving write nothing at or above its parent was ever touched. */
  lemma {:induction false} ParentUntouched(log: Batch, st: seq<Json>, k: nat)
    requires History(log, st) && Survives(log, k)
    ensures OpPath(log[k]) != []
    ensures CanWrite(st[k], OpPath(log[k]))
    ensures var u := Parent(OpPath(log[k]));
            && NoWrite(log, u, 0, |log|)
            && (forall j: nat :: j <= k ==> View(st[j], u) == View(st[k], u))
            && (forall j: nat :: j < k ==> !(OpPath(log[j]) <= u))
  {
    assert DraftStep(st[k], log[k], st[k + 1]);
    WriteStep(st[k], log[k], st[k + 1], []);
    NoWriteAboveSurvivor(log, k);
    Persists(log, st, Parent(OpPath(log[k])), 0, k);
  }

  lemma {:induction false} PrefixOfParent(a: Path, m: Path)
    requires m != []
    ensures a <= m <==> a == m || a <= Parent(m)
  {
    if a <= m && a != m {
      assert a == m[..|a|] == Parent(m)[..|a|];
    }
  }

  /** The parent of a surviving write still looks as it did when the draft wrote. */
  lemma {:induction false} ParentReached(log: Batch, st: seq<Json>, k: nat, r: Json)
    requires History(log, st) && Reached(log, st, k, r) && Survives(log, k)
    ensures OpPath(log[k]) != []
    ensures View(r, Parent(OpPath(log[k]))) == View(st[k], Parent(OpPath(log[k])))
  {
    ParentUntouched(log, st, k);
    var u := Parent(OpPath(log[k]));
    assert !WroteAbove(st[|log|], log, k, u);
    assert !DeletedAbove(st[0], log, k, u);
    assert View(r, u) == Expected(st[0], st[|log|], log, k, u);
  }

  /** Unless the path was deleted, a surviving write finds the base value under it. */
  lemma {:induction false} SubtreeReached(log: Batch, st: seq<Json>, k: nat, r: Json, q: Path)
    requires History(log, st) && Reached(log, st, k, r) && Survives(log, k)
    requires OpPath(log[k]) <= q && !Deleted(log, OpPath(log[k]))
    ensures View(r, q) == View(st[0], q)
  {
    var m := OpPath(log[k]);
    ParentUntouched(log, st, k);
    assert !WroteAbove(st[|log|], log, k, q) by {
      forall w: nat | w < k && Survives(log, w)
        ensures !(OpPath(log[w]) <= q)
      {
        assert !Beats(log, k, w) && !Beats(log, w, k);
        Comparable(OpPath(log[w]), m, q);
      }
    }
    assert !DeletedAbove(st[0], log, k, q) by {
      forall d: nat | d < k && DeleteKept(st[0], log, d)
        ensures !(OpPath(log[d]) <= q)
      {
        var p := OpPath(log[d]);
        assert DeletesAt(log, d, p);
        Comparable(p, m, q);
        PrefixOfParent(p, m);
      }
    }
    assert View(r, q) == Expected(st[0], st[|log|], log, k, q);
  }

  /** A surviving write can be replayed exactly when the element before it is already there. */
  lemma {:induction false} WritableIff(log: Batch, st: seq<Json>, k: nat, r: Json)
    requires History(log, st) && Reached(log, st, k, r) && Survives(log, k)
    requires TryGet(st[|log|], OpPath(log[k])).Some?
    ensures CanWrite(r, OpPath(log[k])) <==> OrderAt(st[0], st[|log|], log, k)
  {
    var base, fin, m := st[0], st[|log|], OpPath(log[k]);
    ParentUntouched(log, st, k);
    ParentReached(log, st, k, r);
    if Last(m).Index? && Last(m).index > 0 {
      var s := Previous(m);
      var u := Parent(m);
      assert Parent(s) == u;
      ParentOfPresent(fin, m);
      assert View(fin, s) != None;
      PreviousReached(log, st, k, r);
    }
  }

  lemma {:induction false} PreviousReached(log: Batch, st: seq<Json>, k: nat, r: Json)
    requires History(log, st) && Reached(log, st, k, r) && Survives(log, k)
    requires OpPath(log[k]) != [] && Last(OpPath(log[k])).Index? && Last(OpPath(log[k])).index > 0
    requires View(st[|log|], Previous(OpPath(log[k]))) != None
    ensures var s := Previous(OpPath(log[k]));
            View(r, s) != None <==>
            View(st[0], s) != None || exists w: nat :: w < k && Survives(log, w) && OpPath(log[w]) == s
  {
    var base, fin, m := st[0], st[|log|], OpPath(log[k]);
    var s := Previous(m);
    var u := Parent(m);
    ParentUntouched(log, st, k);
    assert Parent(s) == u;
    assert !DeletedAbove(base, log, k, s) by {
      forall d: nat | d < k && DeleteKept(base, log, d)
        ensures !(OpPath(log[d]) <= s)
      {
        assert DraftStep(st[d], log[d], st[d + 1]);
        DeleteStep(st[d], log[d], st[d + 1], []);
        PrefixOfParent(OpPath(log[d]), s);
      }
    }
    assert WroteAbove(fin, log, k, s) <==> exists w: nat :: w < k && Survives(log, w) && OpPath(log[w]) == s by {
      forall w: nat | w < k && Survives(log, w) && OpPath(log[w]) <= s
        ensures OpPath(log[w]) == s
      {
        PrefixOfParent(OpPath(log[w]), s);
      }
    }
    assert View(r, s) == Expected(base, fin, log, k, s);
  }

  // ---------------------------------------------------------------- one log entry at a time

  /** A document that took the final value under the written path has reached the next entry. */
  lemma {:induction false} WriteReached(log: Batch, st: seq<Json>, k: nat, r: Json, r': Json)
    requires History(log, st) && Reached(log, st, k, r) && Survives(log, k)
    requires View(st[|log|], OpPath(log[k])) != None
    requires forall q: Path ::
               View(r', q) == if OpPath(log[k]) <= q then View(st[|log|], q) else View(r, q)
    ensures Reached(log, st, k + 1, r')
  {
    var base, fin, m := st[0], st[|log|], OpPath(log[k]);
    forall q: Path
      ensures View(r', q) == Expected(base, fin, log, k + 1, q)
    {
      assert View(r, q) == Expected(base, fin, log, k, q);
      assert View(r', q) == if m <= q then View(fin, q) else View(r, q);
      assert DeletedAbove(base, log, k + 1, q) == DeletedAbove(base, log, k, q);
      assert WroteAbove(fin, log, k + 1, q) <==> m <= q || WroteAbove(fin, log, k, q);
    }
  }

  lemma {:induction false} EntryWrite(log: Batch, st: seq<Json>, k: nat, r: Json)
    requires History(log, st) && Reached(log, st, k, r) && Survives(log, k)
    requires OrderAt(st[0], st[|log|], log, k)
    ensures var f := Fold(r, Emit(st[0], st[|log|], log, k));
            f.Ok? && Reached(log, st, k + 1, f.value)
  {
    var base, fin, m := st[0], st[|log|], OpPath(log[k]);
    ParentUntouched(log, st, k);
    match TryGet(fin, m) {
      case None =>
        forall q: Path
          ensures View(r, q) == Expected(base, fin, log, k + 1, q)
        {
          assert View(r, q) == Expected(base, fin, log, k, q);
          assert DeletedAbove(base, log, k + 1, q) == DeletedAbove(base, log, k, q);
          assert WroteAbove(fin, log, k + 1, q) == WroteAbove(fin, log, k, q);
        }
      case Some(v) =>
        var b := TryGet(base, m);
        if !Deleted(log, m) && b == Some(v) {
          forall q: Path
            ensures View(r, q) == if m <= q then View(fin, q) else View(r, q)
          {
            if m <= q {
              SubtreeReached(log, st, k, r, q);
              ViewBelow(base, m, q);
              ViewBelow(fin, m, q);
            }
          }
          WriteReached(log, st, k, r, r);
        } else {
          WritableIff(log, st, k, r);
          SetPathOkIff(r, m, v);
          var r' := SetPath(r, m, v).value;
          assert Fold(r, EmitWrite(base, fin, log, m)) == Ok(r') by {
            EmitWriteAmountsTo(log, st, k, r);
          }
          forall q: Path
            ensures View(r', q) == if m <= q then View(fin, q) else View(r, q)
          {
            SetPathView(r, m, v, q);
            if m <= q {
              ViewBelow(fin, m, q);
            }
          }
          WriteReached(log, st, k, r, r');
        }
    }
  }

  lemma {:induction false} EmitStringAmountsTo(base: Json, fin: Json, log: Batch, m: Path, r: Json)
    requires !Deleted(log, m) && TryGet(base, m).Some? && TryGet(fin, m).Some? && TryGet(r, m) == TryGet(base, m)
    requires TryGet(base, m).value.Str? && TryGet(fin, m).value.Str? && TryGet(base, m) != TryGet(fin, m)
    ensures Fold(r, EmitWrite(base, fin, log, m)) == SetPath(r, m, TryGet(fin, m).value)
  {
    var b, v := TryGet(base, m).value.text, TryGet(fin, m).value.text;
    assert EmitWrite(base, fin, log, m) == EditOps(m, StringDelta.StringChange(b, v));
    StringDelta.StringChangeExact(b, v);
    EditOpsAmountTo(r, m, b, StringDelta.StringChange(b, v), v);
  }

  /** Whatever form it is emitted in, a write amounts to setting the final value. */
  lemma {:induction false} EmitWriteAmountsTo(log: Batch, st: seq<Json>, k: nat, r: Json)
    requires History(log, st) && Reached(log, st, k, r) && Survives(log, k)
    requires var m := OpPath(log[k]);
             && TryGet(st[|log|], m).Some?
             && (Deleted(log, m) || TryGet(st[0], m) != TryGet(st[|log|], m))
    ensures Fold(r, EmitWrite(st[0], st[|log|], log, OpPath(log[k])))
         == SetPath(r, OpPath(log[k]), TryGet(st[|log|], OpPath(log[k])).value)
  {
    var base, fin, m := st[0], st[|log|], OpPath(log[k]);
    var v := TryGet(fin, m).value;
    var b := TryGet(base, m);
    if !Deleted(log, m) && b.Some? && b.value.Str? && v.Str? {
      SubtreeReached(log, st, k, r, m);
      EmitStringAmountsTo(base, fin, log, m, r);
    } else {
      assert EmitWrite(base, fin, log, m) == [SetOp(m, v)];
      FoldOne(r, SetOp(m, v));
    }
  }

  lemma {:induction false} EntryDelete(log: Batch, st: seq<Json>, k: nat, r: Json)
    requires History(log, st) && Reached(log, st, k, r)
    requires k < |log| && DeleteKept(st[0], log, k)
    ensures var f := Fold(r, [log[k]]);
            f.Ok? && Reached(log, st, k + 1, f.value)
  {
    DeleteParentReached(log, st, k, r);
    EraseKeyView(r, OpPath(log[k]), []);
    FoldOne(r, log[k]);
    DeleteReached(log, st, k, r, Fold(r, [log[k]]).value);
  }

  /** A document that lost the deleted path has reached the next entry. */
  lemma {:induction false} DeleteReached(log: Batch, st: seq<Json>, k: nat, r: Json, r': Json)
    requires History(log, st) && Reached(log, st, k, r)
    requires k < |log| && DeleteKept(st[0], log, k)
    requires ApplyOp(r, log[k]) == Ok(r') && OpPath(log[k]) != [] && Last(OpPath(log[k])).Key?
    ensures Reached(log, st, k + 1, r')
  {
    var base, fin, p := st[0], st[|log|], OpPath(log[k]);
    forall q: Path
      ensures View(r', q) == Expected(base, fin, log, k + 1, q)
    {
      EraseKeyView(r, p, q);
      assert View(r, q) == Expected(base, fin, log, k, q);
      DeleteExpected(base, fin, log, k, q);
      if p <= q {
        NothingWrittenUnderDelete(log, st, k, q);
      }
    }
  }

  /** A kept delete adds the paths below it to those deleted and writes nothing. */
  lemma {:induction false} DeleteExpected(base: Json, fin: Json, log: Batch, k: nat, q: Path)
    requires k < |log| && DeleteKept(base, log, k)
    ensures WroteAbove(fin, log, k + 1, q) == WroteAbove(fin, log, k, q)
    ensures DeletedAbove(base, log, k + 1, q) <==> OpPath(log[k]) <= q || DeletedAbove(base, log, k, q)
  {
  }

  /** The parent of a kept delete is still an object. */
  lemma {:induction false} DeleteParentReached(log: Batch, st: seq<Json>, k: nat, r: Json)
    requires History(log, st) && Reached(log, st, k, r)
    requires k < |log| && DeleteKept(st[0], log, k)
    ensures OpPath(log[k]) != [] && Last(OpPath(log[k])).Key?
    ensures View(r, Parent(OpPath(log[k]))) == Some(ObjAtom)
  {
    assert DraftStep(st[k], log[k], st[k + 1]);
    DeleteStep(st[k], log[k], st[k + 1], []);
    var u := Parent(OpPath(log[k]));
    NoSurvivorAboveDelete(log, k);
    NoSurvivorNoWrite(log, u);
    Persists(log, st, u, 0, k);
    assert !WroteAbove(st[|log|], log, k, u) && !DeletedAbove(st[0], log, k, u);
    assert View(r, u) == Expected(st[0], st[|log|], log, k, u);
  }

  lemma {:induction false} NoSurvivorAboveDelete(log: Batch, k: nat)
    requires k < |log| && OpPath(log[k]) != [] && !Covered(log, OpPath(log[k]))
    ensures forall w: nat :: w < |log| && Survives(log, w) ==> !(OpPath(log[w]) <= Parent(OpPath(log[k])))
  {
    forall w: nat | w < |log| && Survives(log, w)
      ensures !(OpPath(log[w]) <= Parent(OpPath(log[k])))
    {
      PrefixOfParent(OpPath(log[w]), OpPath(log[k]));
    }
  }

  /** What is absent and not written stays absent. */
  lemma {:induction false} StaysAbsent(log: Batch, st: seq<Json>, q: Path, lo: nat, hi: nat)
    requires History(log, st) && lo <= hi <= |log|
    requires NoWrite(log, q, lo, hi) && View(st[lo], q) == None
    ensures View(st[hi], q) == None
  {
    if View(st[hi], q) != None {
      Persists(log, st, q, lo, hi);
    }
  }

  /** An uncovered delete finds nothing under it that was emitted before and is still there at the end. */
  lemma {:induction false} NothingWrittenUnderDelete(log: Batch, st: seq<Json>, k: nat, q: Path)
    requires History(log, st) && k < |log| && DeleteKept(st[0], log, k) && OpPath(log[k]) <= q
    ensures !WroteAbove(st[|log|], log, k, q)
  {
    var p := OpPath(log[k]);
    assert DraftStep(st[k], log[k], st[k + 1]);
    forall w: nat | w < k && Survives(log, w) && OpPath(log[w]) <= q
      ensures View(st[|log|], OpPath(log[w])) == None
    {
      var m := OpPath(log[w]);
      Comparable(m, p, q);
      assert !(m < p);
      ParentUntouched(log, st, w);
      NoWriteAboveSurvivor(log, w);
      DeleteStep(st[k], log[k], st[k + 1], m);
      StaysAbsent(log, st, m, k + 1, |log|);
    }
  }

  lemma {:induction false} Entry(log: Batch, st: seq<Json>, k: nat, r: Json)
    requires History(log, st) && k < |log| && Reached(log, st, k, r)
    requires OrderAt(st[0], st[|log|], log, k)
    ensures var f := Fold(r, Emit(st[0], st[|log|], log, k));
            f.Ok? && Reached(log, st, k + 1, f.value)
  {
    var base, fin := st[0], st[|log|];
    if Survives(log, k) {
      EntryWrite(log, st, k, r);
    } else if DeleteKept(base, log, k) {
      EntryDelete(log, st, k, r);
    } else {
      forall q: Path
        ensures View(r, q) == Expected(base, fin, log, k + 1, q)
      {
        assert View(r, q) == Expected(base, fin, log, k, q);
        assert WroteAbove(fin, log, k + 1, q) == WroteAbove(fin, log, k, q);
        assert DeletedAbove(base, log, k + 1, q) == DeletedAbove(base, log, k, q);
      }
    }
  }

  // ---------------------------------------------------------------- the whole log

  /** One more entry: its operations run on what the earlier ones gave. */
  lemma {:induction false} EmitStep(base: Json, fin: Json, log: Batch, k: nat, r: Json)
    requires k < |log| && Fold(base, EmitUpTo(base, fin, log, k)) == Ok(r)
    ensures Fold(base, EmitUpTo(base, fin, log, k + 1)) == Fold(r, Emit(base, fin, log, k))
  {
    var done, more := EmitUpTo(base, fin, log, k), Emit(base, fin, log, k);
    assert EmitUpTo(base, fin, log, k + 1) == done + more;
    FoldConcat(base, done, more);
  }

  lemma {:induction false} ReachedStart(log: Batch, st: seq<Json>)
    requires History(log, st)
    ensures Replayed(log, st, 0, st[0])
  {
  }

  /** The first `n` entries replay to `r`, which holds what is expected of them. */
  ghost predicate Replayed(log: Batch, st: seq<Json>, n: nat, r: Json)
    requires |st| == |log| + 1 && n <= |log|
  {
    Fold(st[0], EmitUpTo(st[0], st[|log|], log, n)) == Ok(r) && Reached(log, st, n, r)
  }

  lemma {:induction false} ReplayStep(log: Batch, st: seq<Json>, k: nat, before: Json) returns (r: Json)
    requires History(log, st) && k < |log| && Replayed(log, st, k, before)
    requires OrderAt(st[0], st[|log|], log, k)
    ensures Replayed(log, st, k + 1, r)
  {
    Entry(log, st, k, before);
    EmitStep(st[0], st[|log|], log, k, before);
    r := Fold(before, Emit(st[0], st[|log|], log, k)).value;
  }

  predicate OrderTo(base: Json, fin: Json, log: Batch, n: nat) {
    forall k: nat :: k < n ==> OrderAt(base, fin, log, k)
  }

  lemma {:induction false} OrderDown(base: Json, fin: Json, log: Batch, n: nat, k: nat)
    requires k < n && OrderTo(base, fin, log, n)
    ensures OrderAt(base, fin, log, k)
  {
  }

  lemma {:induction false} Replays(log: Batch, st: seq<Json>, n: nat) returns (r: Json)
    requires History(log, st) && n <= |log|
    requires OrderTo(st[0], st[|log|], log, n)
    ensures Replayed(log, st, n, r)
  {
    r := st[0];
    ReachedStart(log, st);
    for k := 0 to n
      invariant Replayed(log, st, k, r)
    {
      OrderDown(st[0], st[|log|], log, n, k);
      r := ReplayStep(log, st, k, r);
    }
  }

  /** After the last entry every path holds its final content. */
  lemma {:induction false} ReachedEnd(log: Batch, st: seq<Json>, q: Path)
    requires History(log, st)
    ensures Expected(st[0], st[|log|], log, |log|, q) == View(st[|log|], q)
  {
    var base, fin := st[0], st[|log|];
    if !WroteAbove(fin, log, |log|, q) {
      if w: nat :| w < |log| && Survives(log, w) && OpPath(log[w]) <= q {
        ReachedEndRemoved(log, st, w, q);
      } else {
        NoSurvivorNoWrite(log, q);
        ReachedEndUnwritten(log, st, q);
      }
    }
  }

  /** A path whose surviving write is gone in the end was deleted, or never in the base. */
  lemma {:induction false} ReachedEndRemoved(log: Batch, st: seq<Json>, w: nat, q: Path)
    requires History(log, st) && Survives(log, w) && OpPath(log[w]) <= q
    requires View(st[|log|], OpPath(log[w])) == None
    ensures View(st[|log|], q) == None
    ensures DeletedAbove(st[0], log, |log|, q) || View(st[0], q) == None
  {
    var m := OpPath(log[w]);
    AbsentBelow(st[|log|], m, q);
    ParentUntouched(log, st, w);
    NoWriteAboveSurvivor(log, w);
    assert DraftStep(st[w], log[w], st[w + 1]);
    WriteStep(st[w], log[w], st[w + 1], []);
    if forall k: nat :: w + 1 <= k < |log| ==> !(OpPath(log[k]) <= m) {
      Untouched(log, st, m, w + 1, |log|);
    } else {
      var d: nat :| w + 1 <= d < |log| && OpPath(log[d]) <= m;
      var p := OpPath(log[d]);
      assert DraftStep(st[d], log[d], st[d + 1]);
      assert p <= q;
      assert !Covered(log, p) by {
        forall x: nat | x < |log| && Survives(log, x)
          ensures !(OpPath(log[x]) < p)
        {
          assert !Beats(log, x, w);
        }
      }
      if View(st[0], p) == None {
        AbsentBelow(st[0], p, q);
      } else {
        assert DeleteKept(st[0], log, d);
      }
    }
  }

  lemma {:induction false} ReachedEndUnwritten(log: Batch, st: seq<Json>, q: Path)
    requires History(log, st) && NoWrite(log, q, 0, |log|)
    ensures View(st[|log|], q) == if DeletedAbove(st[0], log, |log|, q) then None else View(st[0], q)
  {
    if d: nat :| d < |log| && OpPath(log[d]) <= q {
      var p := OpPath(log[d]);
      assert DraftStep(st[d], log[d], st[d + 1]);
      DeleteStep(st[d], log[d], st[d + 1], q);
      assert NoWrite(log, p, 0, d);
      Persists(log, st, p, 0, d);
      assert !Covered(log, p);
      assert DeleteKept(st[0], log, d);
      StaysAbsent(log, st, q, d + 1, |log|);
    } else {
      Untouched(log, st, q, 0, |log|);
    }
  }

  // ---------------------------------------------------------------- the emitted batch is valid

  lemma {:induction false} ValidConcat(a: Batch, b: Batch)
    requires ValidBatch(a) && ValidBatch(b)
    ensures ValidBatch(a + b)
  {
  }

  lemma {:induction false} EmitValid(base: Json, fin: Json, log: Batch, k: nat)
    requires k < |log| && OpFault(log[k]) == None
    ensures ValidBatch(Emit(base, fin, log, k))
  {
    forall op | op in Emit(base, fin, log, k)
      ensures OpFault(op) == None
    {
      if Survives(log, k) {
        assert OpPath(op) == OpPath(log[k]) && IsWrite(op);
      }
    }
  }

  lemma {:induction false} EmitUpToValid(base: Json, fin: Json, log: Batch, n: nat)
    requires n <= |log| && forall k :: 0 <= k < |log| ==> OpFault(log[k]) == None
    ensures ValidBatch(EmitUpTo(base, fin, log, n))
  {
    for k := 0 to n
      invariant ValidBatch(EmitUpTo(base, fin, log, k))
    {
      EmitValid(base, fin, log, k);
      ValidConcat(EmitUpTo(base, fin, log, k), Emit(base, fin, log, k));
    }
  }

  // ---------------------------------------------------------------- the theorem

  /** If the added array elements were last written in index order, replaying the collapsed
      batch on the base gives the candidate. */
  lemma {:induction false} CollapseReplays(log: Batch, st: seq<Json>)
    requires History(log, st) && InOrder(st[0], st[|log|], log)
    ensures Fold(st[0], CollapseOps(st[0], st[|log|], log)) == Ok(st[|log|])
  {
    var r := Replays(log, st, |log|);
    forall q: Path
      ensures View(r, q) == View(st[|log|], q)
    {
      ReachedEnd(log, st, q);
      assert View(r, q) == Expected(st[0], st[|log|], log, |log|, q);
    }
    ViewsDetermine(r, st[|log|]);
  }

  /** The first write out of order is refused. */
  lemma {:induction false} EntryRefused(log: Batch, st: seq<Json>, k: nat, r: Json)
    requires History(log, st) && k < |log| && Reached(log, st, k, r)
    requires !OrderAt(st[0], st[|log|], log, k)
    ensures Fold(r, Emit(st[0], st[|log|], log, k)).Err?
  {
    var base, fin, m := st[0], st[|log|], OpPath(log[k]);
    var v := TryGet(fin, m).value;
    WritableIff(log, st, k, r);
    AbsentNext(base, Parent(m), Last(m).index);
    assert Parent(m) + [Last(m)] == m;
    SetPathOkIff(r, m, v);
    FoldOne(r, SetOp(m, v));
  }

  lemma {:induction false} RefusedAt(log: Batch, st: seq<Json>, k: nat) returns (n: nat)
    requires History(log, st) && k < |log| && !OrderAt(st[0], st[|log|], log, k)
    requires OrderTo(st[0], st[|log|], log, k)
    ensures n <= |log| && Fold(st[0], EmitUpTo(st[0], st[|log|], log, n)).Err?
  {
    var r := Replays(log, st, k);
    EntryRefused(log, st, k, r);
    n := RefusedBy(st[0], st[|log|], log, k, r);
  }

  lemma {:induction false} RefusedBy(base: Json, fin: Json, log: Batch, k: nat, r: Json) returns (n: nat)
    requires k < |log| && Fold(base, EmitUpTo(base, fin, log, k)) == Ok(r) && Fold(r, Emit(base, fin, log, k)).Err?
    ensures n <= |log| && Fold(base, EmitUpTo(base, fin, log, n)).Err?
  {
    EmitStep(base, fin, log, k, r);
    n := k + 1;
  }

  lemma {:induction false} RefusedBeyond(base: Json, fin: Json, log: Batch, n: nat)
    requires n <= |log| && Fold(base, EmitUpTo(base, fin, log, n)).Err?
    ensures Fold(base, CollapseOps(base, fin, log)).Err?
  {
    EmitUpToGrows(base, fin, log, n, |log|);
    RefusedPrefix(base, EmitUpTo(base, fin, log, n), CollapseOps(base, fin, log));
  }

  lemma {:induction false} RefusedSomewhere(log: Batch, st: seq<Json>) returns (n: nat)
    requires History(log, st) && !InOrder(st[0], st[|log|], log)
    ensures n <= |log| && Fold(st[0], EmitUpTo(st[0], st[|log|], log, n)).Err?
  {
    var k := FirstOutOfOrder(st[0], st[|log|], log);
    n := RefusedAt(log, st, k);
  }

  /** If they were not, the replay is refused: it never ends in a wrong document. */
  lemma {:induction false} CollapseRefused(log: Batch, st: seq<Json>)
    requires History(log, st) && !InOrder(st[0], st[|log|], log)
    ensures Fold(st[0], CollapseOps(st[0], st[|log|], log)).Err?
  {
    var n := RefusedSomewhere(log, st);
    RefusedBeyond(st[0], st[|log|], log, n);
  }

  lemma {:induction false} FirstOutOfOrder(base: Json, fin: Json, log: Batch) returns (k: nat)
    requires !InOrder(base, fin, log)
    ensures k < |log| && !OrderAt(base, fin, log, k)
    ensures OrderTo(base, fin, log, k)
  {
    k := 0;
    while k < |log| && OrderAt(base, fin, log, k)
      invariant k <= |log|
      invariant OrderTo(base, fin, log, k)
    {
      k := k + 1;
    }
  }

  /** A refused prefix refuses the whole batch. */
  lemma {:induction false} RefusedPrefix(j: Json, a: Batch, b: Batch)
    requires a <= b && Fold(j, a).Err?
    ensures Fold(j, b).Err?
  {
    assert a + b[|a|..] == b;
    FoldConcat(j, a, b[|a|..]);
  }

  lemma {:induction false} EmitUpToGrows(base: Json, fin: Json, log: Batch, n: nat, m: nat)
    requires n <= m <= |log|
    ensures EmitUpTo(base, fin, log, n) <= EmitUpTo(base, fin, log, m)
    decreases m
  {
    if n < m {
      EmitUpToGrows(base, fin, log, n, m - 1);
      var a, e := EmitUpTo(base, fin, log, m - 1), Emit(base, fin, log, m - 1);
      assert EmitUpTo(base, fin, log, m) == a + e;
    }
  }

  /** For every draft history without splices and moves: the collapsed batch is valid, and
      applying it to the base gives the candidate if and only if the array elements the draft
      added were last written in index order; otherwise it is refused. */
  lemma {:induction false} CollapseExactIff(log: Batch, st: seq<Json>)
    requires History(log, st)
    ensures var ops := CollapseOps(st[0], st[|log|], log);
            && ValidBatch(ops)
            && (Apply(st[0], ops) == Ok(st[|log|]) <==> InOrder(st[0], st[|log|], log))
            && (Apply(st[0], ops).Ok? ==> Apply(st[0], ops) == Ok(st[|log|]))
  {
    var base, fin := st[0], st[|log|];
    forall k | 0 <= k < |log|
      ensures OpFault(log[k]) == None
    {
      assert DraftStep(st[k], log[k], st[k + 1]);
    }
    EmitUpToValid(base, fin, log, |log|);
    BatchFaultIff(CollapseOps(base, fin, log));
    if InOrder(base, fin, log) {
      CollapseReplays(log, st);
    } else {
      CollapseRefused(log, st);
    }
  }

  // ---------------------------------------------------------------- a draft that does not replay

  /** Growing `[null]` by writing element 1, element 2 and element 1 again keeps the writes of
      2 and 1, in that order, which no replica accepts. */
  lemma {:induction false} OutOfOrderExample() returns (log: Batch, st: seq<Json>)
    ensures History(log, st) && st[0] == Arr([Null])
    ensures st[|log|] == Arr([Null, Bool(true), Null])
    ensures !InOrder(st[0], st[|log|], log)
    ensures Apply(st[0], CollapseOps(st[0], st[|log|], log)).Err?
  {
    var one, two := [Index(1)], [Index(2)];
    log := [SetOp(one, Null), SetOp(two, Null), SetOp(one, Bool(true))];
    st := [Arr([Null]), Arr([Null, Null]), Arr([Null, Null, Null]), Arr([Null, Bool(true), Null])];
    assert Arr([Null] + [Null]) == st[1] && Arr([Null, Null] + [Null]) == st[2];
    assert [Null, Null, Null][1 := Bool(true)] == [Null, Bool(true), Null];
    assert DraftStep(st[0], log[0], st[1]) && DraftStep(st[1], log[1], st[2]) && DraftStep(st[2], log[2], st[3]);
    assert OpPath(log[0]) == one && OpPath(log[1]) == two && OpPath(log[2]) == one;
    assert Last(two) == Index(2) && Parent(two) == [] && Previous(two) == one;
    TryGetOne(st[0], Index(1));
    TryGetOne(st[3], Index(2));
    assert Survives(log, 1);
    assert Beats(log, 2, 0);
    assert !OrderAt(st[0], st[3], log, 1);
    CollapseExactIff(log, st);
  }

  // ---------------------------------------------------------------- the loops of collapse_ops

  /** The search for a delete of the same path in `emit_write`. */
  method FindDelete(log: Batch, p: Path) returns (found: bool)
    ensures found == Deleted(log, p)
  {
    found := false;
    for k := 0 to |log|
      invariant found <==> exists i: nat :: i < k && DeletesAt(log, i, p)
    {
      if log[k].DeleteOp? && log[k].path == p {
        assert DeletesAt(log, k, p);
        found := true;
      }
    }
  }

  /** `emit_write`. */
  method EmitWriteOps(base: Json, fin: Json, log: Batch, p: Path) returns (ops: Batch)
    ensures ops == EmitWrite(base, fin, log, p)
  {
    var candidate := LookUp(fin, p);
    if candidate.None? {
      return [];
    }
    var before := LookUp(base, p);
    var forceSet := FindDelete(log, p);
    if !forceSet && before == candidate {
      return [];
    }
    if !forceSet && before.Some? && before.value.Str? && candidate.value.Str? {
      var edits := StringDelta.EmitStringChange(before.value.text, candidate.value.text);
      return EditOps(p, edits);
    }
    return [SetOp(p, candidate.value)];
  }

  ghost predicate WriteIndices(log: Batch, n: nat, writes: seq<nat>)
    requires n <= |log|
  {
    && (forall i, j :: 0 <= i < j < |writes| ==> writes[i] < writes[j])
    && (forall i :: 0 <= i < |writes| ==> writes[i] < n && IsWrite(log[writes[i]]))
    && (forall k: nat :: k < n && IsWrite(log[k]) ==> k in writes)
  }

  method CollectWrites(log: Batch) returns (writes: seq<nat>)
    ensures WriteIndices(log, |log|, writes)
  {
    writes := [];
    for k := 0 to |log|
      invariant WriteIndices(log, k, writes)
    {
      if IsWrite(log[k]) {
        writes := writes + [k];
      }
    }
  }

  /** Only recorded writes decide whether a write survives. */
  lemma {:induction false} BeatenIff(log: Batch, writes: seq<nat>, left: nat)
    requires WriteIndices(log, |log|, writes) && left < |writes|
    ensures Survives(log, writes[left]) <==> forall i :: 0 <= i < |writes| ==> !Beats(log, writes[i], writes[left])
  {
  }

  /** Whether some other write replaces the one at `left`. */
  method IsBeaten(log: Batch, writes: seq<nat>, left: nat) returns (beaten: bool)
    requires WriteIndices(log, |log|, writes) && left < |writes|
    ensures beaten <==> exists i :: 0 <= i < |writes| && Beats(log, writes[i], writes[left])
  {
    beaten := false;
    var right := 0;
    while right < |writes| && !beaten
      invariant right <= |writes|
      invariant beaten <==> exists i :: 0 <= i < right && Beats(log, writes[i], writes[left])
      decreases |writes| - right
    {
      var l, r := OpPath(log[writes[left]]), OpPath(log[writes[right]]);
      beaten := left != right && ((l == r && right > left) || r < l);
      assert beaten == Beats(log, writes[right], writes[left]);
      right := right + 1;
    }
  }

  method MarkSurvivors(log: Batch, writes: seq<nat>) returns (survives: array<bool>)
    requires WriteIndices(log, |log|, writes)
    ensures survives.Length == |writes|
    ensures forall i :: 0 <= i < |writes| ==> survives[i] == Survives(log, writes[i])
  {
    survives := new bool[|writes|](_ => true);
    for left := 0 to |writes|
      invariant forall i :: 0 <= i < left ==> survives[i] == Survives(log, writes[i])
      invariant forall i :: left <= i < |writes| ==> survives[i]
    {
      var beaten := IsBeaten(log, writes, left);
      BeatenIff(log, writes, left);
      if beaten {
        survives[left] := false;
      }
    }
  }

  /** Whether a surviving write of a strict ancestor makes a delete superfluous. */
  method IsCovered(log: Batch, writes: seq<nat>, survives: array<bool>, p: Path) returns (covered: bool)
    requires WriteIndices(log, |log|, writes) && survives.Length == |writes|
    requires forall i :: 0 <= i < |writes| ==> survives[i] == Survives(log, writes[i])
    ensures covered == Covered(log, p)
  {
    covered := false;
    for i := 0 to |writes|
      invariant covered <==> exists w :: 0 <= w < i && survives[w] && OpPath(log[writes[w]]) < p
    {
      if survives[i] && OpPath(log[writes[i]]) < p {
        covered := true;
      }
    }
    if w: nat :| w < |log| && Survives(log, w) && OpPath(log[w]) < p {
      ghost var i :| 0 <= i < |writes| && writes[i] == w;
      assert survives[i];
    }
  }

  method MarkDeletes(base: Json, log: Batch, writes: seq<nat>, survives: array<bool>) returns (kept: array<bool>)
    requires WriteIndices(log, |log|, writes) && survives.Length == |writes|
    requires forall i :: 0 <= i < |writes| ==> survives[i] == Survives(log, writes[i])
    ensures kept.Length == |log|
    ensures forall k :: 0 <= k < |log| ==> kept[k] == DeleteKept(base, log, k)
  {
    kept := new bool[|log|](_ => false);
    for k := 0 to |log|
      invariant forall i :: 0 <= i < k ==> kept[i] == DeleteKept(base, log, i)
      invariant forall i :: k <= i < |log| ==> !kept[i]
    {
      if log[k].DeleteOp? {
        var covered := IsCovered(log, writes, survives, log[k].path);
        var inBase := LookUp(base, log[k].path);
        kept[k] := !covered && inBase.Some?;
      }
    }
  }

  method MarkWrites(log: Batch, writes: seq<nat>, survives: array<bool>) returns (kept: array<bool>)
    requires WriteIndices(log, |log|, writes) && survives.Length == |writes|
    requires forall i :: 0 <= i < |writes| ==> survives[i] == Survives(log, writes[i])
    ensures kept.Length == |log|
    ensures forall k :: 0 <= k < |log| ==> kept[k] == Survives(log, k)
  {
    kept := new bool[|log|](_ => false);
    for i := 0 to |writes|
      invariant forall k :: 0 <= k < |log| ==> (kept[k] <==> exists j :: 0 <= j < i && writes[j] == k && survives[j])
    {
      if survives[i] {
        kept[writes[i]] := true;
      }
    }
    forall k | 0 <= k < |log|
      ensures kept[k] == Survives(log, k)
    {
      if Survives(log, k) {
        var j :| 0 <= j < |writes| && writes[j] == k;
        assert survives[j];
      }
    }
  }

  /** What one entry of the log contributes. */
  method EmitOps(base: Json, fin: Json, log: Batch, k: nat, writeKept: bool, deleteKept: bool) returns (ops: Batch)
    requires k < |log| && writeKept == Survives(log, k) && deleteKept == DeleteKept(base, log, k)
    ensures ops == Emit(base, fin, log, k)
  {
    if writeKept {
      ops := EmitWriteOps(base, fin, log, OpPath(log[k]));
    } else {
      ops := if deleteKept then [log[k]] else [];
    }
  }

  /** `collapse_ops`. */
  method CollapseLog(base: Json, fin: Json, log: Batch) returns (ops: Batch)
    ensures ops == CollapseOps(base, fin, log)
  {
    var writes := CollectWrites(log);
    var survives := MarkSurvivors(log, writes);
    var writeMarks := MarkWrites(log, writes, survives);
    var deleteMarks := MarkDeletes(base, log, writes, survives);
    var writeKept, deleteKept := writeMarks[..], deleteMarks[..];
    ops := [];
    for k := 0 to |log|
      invariant ops == EmitUpTo(base, fin, log, k)
    {
      var more := EmitOps(base, fin, log, k, writeKept[k], deleteKept[k]);
      ops := ops + more;
    }
  }
}
