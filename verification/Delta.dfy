/** The seven delta operations and the two ways of applying a batch. */
module Delta {
  import opened Values
  import StringDelta

  datatype Op =
    | ReplaceOp(value: Json)
    | SetOp(path: Path, value: Json)
    | DeleteOp(path: Path)
    | AppendOp(path: Path, text: Bytes)
    | TruncateOp(path: Path, count: nat)
    | SpliceOp(path: Path, index: nat, remove: nat, items: seq<Json>)
    | MoveOp(path: Path, permutation: seq<nat>)

  type Batch = seq<Op>

  // ---------------------------------------------------------------- validation

  /** `__proto__`, `constructor` and `prototype`. */
  const RESERVED_KEYS: set<Bytes> := {
    [95, 95, 112, 114, 111, 116, 111, 95, 95],
    [99, 111, 110, 115, 116, 114, 117, 99, 116, 111, 114],
    [112, 114, 111, 116, 111, 116, 121, 112, 101]
  }

  predicate SafePath(p: Path) {
    forall i :: 0 <= i < |p| && p[i].Key? ==> p[i].key !in RESERVED_KEYS
  }

  /** Every index below the length occurs, none twice. */
  predicate IsPermutation(s: seq<nat>) {
    && (forall i :: 0 <= i < |s| ==> s[i] < |s|)
    && (forall i, j :: 0 <= i < j < |s| ==> s[i] != s[j])
  }

  /** `validate_permutation`. */
  method CheckPermutation(s: seq<nat>) returns (ok: bool)
    ensures ok == IsPermutation(s)
  {
    var seen := new bool[|s|](_ => false);
    var n := 0;
    while n < |s|
      invariant n <= |s|
      invariant forall i :: 0 <= i < n ==> s[i] < |s|
      invariant forall i, j :: 0 <= i < j < n ==> s[i] != s[j]
      invariant forall x :: 0 <= x < |s| ==> (seen[x] <==> exists i :: 0 <= i < n && s[i] == x)
    {
      if s[n] >= |s| || seen[s[n]] {
        return false;
      }
      seen[s[n]] := true;
      n := n + 1;
    }
    return true;
  }

  /** `path_is_identity_permutation`. */
  predicate IsIdentity(s: seq<nat>) {
    forall i :: 0 <= i < |s| ==> s[i] == i
  }

  /** `validate_op`: the first fault of an operation, if any. */
  function OpFault(op: Op): Option<Fault> {
    match op
    case ReplaceOp(_) => None
    case SpliceOp(p, _, _, _) => if SafePath(p) then None else Some(UnsafeSegment)
    case MoveOp(p, s) =>
      if !SafePath(p) then Some(UnsafeSegment) else if !IsPermutation(s) then Some(NotBijection) else None
    case _ =>
      if op.path == [] then Some(EmptyPath) else if !SafePath(op.path) then Some(UnsafeSegment) else None
  }

  function BatchFault(ops: Batch): Option<Fault> {
    if ops == [] then None
    else if OpFault(ops[0]).Some? then OpFault(ops[0])
    else BatchFault(ops[1..])
  }

  predicate ValidBatch(ops: Batch) {
    forall op :: op in ops ==> OpFault(op) == None
  }

  lemma {:induction false} BatchFaultIff(ops: Batch)
    ensures BatchFault(ops) == None <==> ValidBatch(ops)
  {
    if ops != [] {
      BatchFaultIff(ops[1..]);
      assert forall op :: op in ops <==> op == ops[0] || op in ops[1..];
    }
  }

  // ---------------------------------------------------------------- one operation

  function SpliceItems(a: seq<Json>, index: nat, remove: nat, items: seq<Json>): seq<Json> {
    var i := Min(index, |a|);
    var r := Min(remove, |a| - i);
    a[..i] + items + a[i + r..]
  }

  function MoveItems(a: seq<Json>, s: seq<nat>): seq<Json>
    requires forall i :: 0 <= i < |s| ==> s[i] < |a|
  {
    seq(|s|, n requires 0 <= n < |s| => a[s[n]])
  }

  /** `b` is `a` with `items` in the place of the elements removed, everything else as it was; bounds
      beyond the array are clamped to it. */
  predicate Spliced(a: seq<Json>, index: nat, remove: nat, items: seq<Json>, b: seq<Json>) {
    var i := if index < |a| then index else |a|;
    var r := if remove < |a| - i then remove else |a| - i;
    && |b| == |a| - r + |items|
    && (forall k :: 0 <= k < i ==> b[k] == a[k])
    && (forall k :: 0 <= k < |items| ==> b[i + k] == items[k])
    && (forall k :: i + r <= k < |a| ==> b[k - r + |items|] == a[k])
  }

  lemma {:induction false} SpliceItemsAt(a: seq<Json>, index: nat, remove: nat, items: seq<Json>)
    ensures Spliced(a, index, remove, items, SpliceItems(a, index, remove, items))
  {
  }

  /** `b` holds at each position the element of `a` that the permutation names. */
  predicate Moved(a: seq<Json>, s: seq<nat>, b: seq<Json>) {
    |a| == |s| == |b| && forall k :: 0 <= k < |s| ==> s[k] < |a| && b[k] == a[s[k]]
  }

  lemma {:induction false} MoveItemsAt(a: seq<Json>, s: seq<nat>)
    requires |a| == |s| && forall i :: 0 <= i < |s| ==> s[i] < |a|
    ensures Moved(a, s, MoveItems(a, s))
  {
  }

  /** `b` is `a` without the element at `i`; the later ones moved down. */
  predicate OneLess(a: seq<Json>, i: nat, b: seq<Json>) {
    && i < |a| && |b| == |a| - 1
    && (forall k :: 0 <= k < i ==> b[k] == a[k])
    && (forall k :: i < k < |a| ==> b[k - 1] == a[k])
  }

  /** Erasing an array element replaces the array by one without it, and nothing else. */
  lemma {:induction false} EraseItemAt(j: Json, p: Path, a: seq<Json>, i: nat) returns (b: seq<Json>)
    requires p != [] && Last(p) == Index(i) && TargetArray(j, Parent(p)) == Ok(a) && i < |a|
    ensures OneLess(a, i, b) && SetPath(j, Parent(p), Arr(b)).Ok?
    ensures ErasePath(j, p) == Ok(Erased(SetPath(j, Parent(p), Arr(b)).value, true))
    decreases |p|
  {
    b := a[..i] + a[i + 1..];
    if |p| == 1 {
      assert Parent(p) == [];
    } else {
      assert Parent(p)[0] == p[0] && Parent(p)[1..] == Parent(p[1..]) && Last(p) == Last(p[1..]);
      var c := EraseItemAt(Child(j, p[0]), p[1..], a, i);
      assert c == b;
    }
  }

  function TargetArray(j: Json, p: Path): Result<seq<Json>> {
    match TryGet(j, p)
    case Some(Arr(items)) => Ok(items)
    case _ => Err(Unresolvable)
  }

  function TargetString(j: Json, p: Path): Result<Bytes> {
    match TryGet(j, p)
    case Some(Str(text)) => Ok(text)
    case _ => Err(Unresolvable)
  }

  function ApplyOp(j: Json, op: Op): Result<Json> {
    match op
    case ReplaceOp(v) => Ok(v)
    case SetOp(p, v) => SetPath(j, p, v)
    case DeleteOp(p) => (
      match ErasePath(j, p)
      case Ok(e) => Ok(e.root)
      case Err(f) => Err(f)
    )
    case AppendOp(p, t) => (
      match TargetString(j, p)
      case Ok(s) => SetPath(j, p, Str(s + t))
      case Err(f) => Err(f)
    )
    case TruncateOp(p, n) => (
      match TargetString(j, p)
      case Ok(s) => (
        match StringDelta.TruncateFront(s, n)
        case Ok(t) => SetPath(j, p, Str(t))
        case Err(f) => Err(f)
      )
      case Err(f) => Err(f)
    )
    case SpliceOp(p, i, r, items) => (
      match TargetArray(j, p)
      case Ok(a) => SetPath(j, p, Arr(SpliceItems(a, i, r, items)))
      case Err(f) => Err(f)
    )
    case MoveOp(p, s) => (
      match TargetArray(j, p)
      case Ok(a) =>
        if |a| != |s| then Err(Unresolvable)
        else if exists i :: 0 <= i < |s| && s[i] >= |a| then Err(NotBijection)
        else SetPath(j, p, Arr(MoveItems(a, s)))
      case Err(f) => Err(f)
    )
  }

  // ---------------------------------------------------------------- batches

  /** Apply operations in order; the first failure fails the whole. */
  function Fold(j: Json, ops: Batch): Result<Json>
    decreases |ops|
  {
    if ops == [] then Ok(j)
    else
      match ApplyOp(j, ops[0])
      case Err(f) => Err(f)
      case Ok(k) => Fold(k, ops[1..])
  }

  /** `apply_immutable`: the whole batch is validated before any of it is applied. */
  function Apply(j: Json, ops: Batch): Result<Json> {
    match BatchFault(ops)
    case Some(f) => Err(f)
    case None => Fold(j, ops)
  }

  /** `apply_immutable_batches`. */
  function ApplyBatches(j: Json, batches: seq<Batch>): Result<Json>
    decreases |batches|
  {
    if batches == [] then Ok(j)
    else
      match Apply(j, batches[0])
      case Err(f) => Err(f)
      case Ok(k) => ApplyBatches(k, batches[1..])
  }

  lemma {:induction false} FoldConcat(j: Json, a: Batch, b: Batch)
    ensures Fold(j, a + b) == match Fold(j, a) case Err(f) => Err(f) case Ok(k) => Fold(k, b)
    decreases |a|
  {
    if a == [] {
      assert a + b == b;
    } else {
      assert (a + b)[0] == a[0] && (a + b)[1..] == a[1..] + b;
      match ApplyOp(j, a[0])
      case Ok(k) => FoldConcat(k, a[1..], b);
      case Err(_) =>
    }
  }

  lemma {:induction false} FoldOne(j: Json, op: Op)
    ensures Fold(j, [op]) == ApplyOp(j, op)
  {
    assert [op][1..] == [];
  }

  lemma {:induction false} ApplyBatchesSnoc(j: Json, batches: seq<Batch>, b: Batch)
    ensures ApplyBatches(j, batches + [b]) ==
            match ApplyBatches(j, batches) case Err(f) => Err(f) case Ok(k) => Apply(k, b)
    decreases |batches|
  {
    if batches == [] {
      assert batches + [b] == [b] && [b][1..] == [];
    } else {
      assert (batches + [b])[0] == batches[0] && (batches + [b])[1..] == batches[1..] + [b];
      match Apply(j, batches[0])
      case Ok(k) => ApplyBatchesSnoc(k, batches[1..], b);
      case Err(_) =>
    }
  }

  /** The loop of `apply_immutable`. */
  method ApplyImmutable(target: Json, ops: Batch) returns (r: Result<Json>)
    ensures r == Apply(target, ops)
  {
    var fault := BatchFault(ops);
    if fault.Some? {
      return Err(fault.value);
    }
    var root := target;
    var n := 0;
    while n < |ops|
      invariant n <= |ops|
      invariant Fold(target, ops) == Fold(root, ops[n..])
    {
      var result := ApplyOp(root, ops[n]);
      assert ops[n..][1..] == ops[n + 1..];
      if result.Err? {
        return Err(result.fault);
      }
      root := result.value;
      n := n + 1;
    }
    return Ok(root);
  }

  // ---------------------------------------------------------------- in-place application

  /** How many leading operations write through to the caller's value: those before the first
      root replacement or the first failure. */
  function WrittenThrough(j: Json, ops: Batch): (n: nat)
    ensures n <= |ops|
    decreases |ops|
  {
    if ops == [] || ops[0].ReplaceOp? || Apply(j, [ops[0]]).Err? then 0
    else 1 + WrittenThrough(Apply(j, [ops[0]]).value, ops[1..])
  }

  /** The written-through prefix really is a prefix that applies, holds no root replacement, and
      cannot be made longer. */
  lemma {:induction false} WrittenThroughMeaning(j: Json, ops: Batch)
    ensures var n := WrittenThrough(j, ops);
            && Apply(j, ops[..n]).Ok?
            && (forall i :: 0 <= i < n ==> !ops[i].ReplaceOp?)
            && (n < |ops| ==> ops[n].ReplaceOp? || Apply(Apply(j, ops[..n]).value, [ops[n]]).Err?)
    decreases |ops|
  {
    var n := WrittenThrough(j, ops);
    if n == 0 {
      assert ops[..0] == [];
    } else {
      var k := Apply(j, [ops[0]]).value;
      WrittenThroughMeaning(k, ops[1..]);
      assert ops[..n][0] == ops[0] && ops[..n][1..] == ops[1..][..n - 1];
      FoldOne(j, ops[0]);
      assert BatchFault([ops[0]]) == OpFault(ops[0]) by { assert [ops[0]][1..] == []; }
      assert Apply(j, ops[..n]) == Apply(k, ops[1..][..n - 1]);
      assert forall i :: 0 < i < n ==> ops[i] == ops[1..][i - 1];
      assert n < |ops| ==> ops[n] == ops[1..][n - 1];
    }
  }

  /** One step of a batch that is applied sequentially: validate, then apply alone. */
  function Stepwise(j: Json, ops: Batch): Result<Json>
    decreases |ops|
  {
    if ops == [] then Ok(j)
    else
      match Apply(j, [ops[0]])
      case Err(f) => Err(f)
      case Ok(k) => Stepwise(k, ops[1..])
  }

  /** Validating each operation when it is reached accepts the same batches with the same
      results as validating the batch up front. Only the reported fault may differ. */
  lemma {:induction false} StepwiseAgrees(j: Json, ops: Batch)
    ensures Stepwise(j, ops).Ok? <==> Apply(j, ops).Ok?
    ensures Stepwise(j, ops).Ok? ==> Stepwise(j, ops) == Apply(j, ops)
    decreases |ops|
  {
    if ops != [] {
      FoldOne(j, ops[0]);
      assert BatchFault([ops[0]]) == OpFault(ops[0]) by { assert [ops[0]][1..] == []; }
      match Apply(j, [ops[0]])
      case Ok(k) => StepwiseAgrees(k, ops[1..]);
      case Err(_) =>
    }
  }

  /** The applier behind `apply`: it keeps the caller's value and the adopted root apart. */
  class Applier {
    var target: Json
    var root: Json
    var rootReplaced: bool

    constructor (initial: Json)
      ensures target == initial && root == initial && !rootReplaced
    {
      target := initial;
      root := initial;
      rootReplaced := false;
    }

    method Step(op: Op) returns (fault: Option<Fault>)
      modifies this
      ensures fault == match Apply(old(root), [op]) case Ok(_) => None case Err(f) => Some(f)
      ensures fault.Some? ==> root == old(root) && target == old(target) && rootReplaced == old(rootReplaced)
      ensures fault.None? ==>
                && Ok(root) == Apply(old(root), [op])
                && rootReplaced == (old(rootReplaced) || op.ReplaceOp?)
                && target == if rootReplaced then old(target) else root
    {
      var next := ApplyImmutable(root, [op]);
      if next.Err? {
        return Some(next.fault);
      }
      root := next.value;
      if op.ReplaceOp? {
        rootReplaced := true;
        return None;
      }
      if !rootReplaced {
        target := root;
      }
      return None;
    }
  }

  /** `apply`: succeeds exactly when the immutable form does, with the same result, and leaves
      the caller's value as it was after the written-through prefix. */
  method ApplyMutable(target: Json, ops: Batch) returns (r: Result<Json>, after: Json)
    ensures r.Ok? <==> Apply(target, ops).Ok?
    ensures r.Ok? ==> r == Apply(target, ops)
    ensures Ok(after) == Apply(target, ops[..WrittenThrough(target, ops)])
  {
    StepwiseAgrees(target, ops);
    WrittenThroughMeaning(target, ops);
    ghost var through := WrittenThrough(target, ops);
    var applier := new Applier(target);
    var n := 0;
    assert ops[0..] == ops;
    assert ops[..0] == [];
    while n < |ops|
      invariant n <= |ops|
      invariant Stepwise(target, ops) == Stepwise(applier.root, ops[n..])
      invariant !applier.rootReplaced ==>
                  && applier.target == applier.root
                  && Ok(applier.target) == Apply(target, ops[..n])
                  && through == n + WrittenThrough(applier.root, ops[n..])
      invariant applier.rootReplaced ==> Ok(applier.target) == Apply(target, ops[..through])
    {
      assert ops[n..][0] == ops[n] && ops[n..][1..] == ops[n + 1..];
      ghost var before := applier.root;
      var fault := applier.Step(ops[n]);
      if fault.Some? {
        return Err(fault.value), applier.target;
      }
      if !applier.rootReplaced {
        ApplySnoc(target, ops[..n], ops[n], before);
        assert ops[..n] + [ops[n]] == ops[..n + 1];
      }
      n := n + 1;
    }
    assert ops[..n] == ops;
    return Ok(applier.root), applier.target;
  }

  lemma {:induction false} ApplySnoc(j: Json, ops: Batch, op: Op, k: Json)
    requires Apply(j, ops) == Ok(k) && Apply(k, [op]).Ok?
    ensures Apply(j, ops + [op]) == Apply(k, [op])
  {
    BatchFaultIff(ops);
    BatchFaultIff([op]);
    BatchFaultIff(ops + [op]);
    FoldConcat(j, ops, [op]);
  }

  // ---------------------------------------------------------------- string changes at a path

  function EditOp(p: Path, e: StringDelta.Edit): Op {
    match e
    case Append(t) => AppendOp(p, t)
    case Truncate(n) => TruncateOp(p, n)
    case Replace(t) => SetOp(p, Str(t))
  }

  function EditOps(p: Path, edits: seq<StringDelta.Edit>): Batch {
    seq(|edits|, i requires 0 <= i < |edits| => EditOp(p, edits[i]))
  }

  lemma {:induction false} SetPathSame(j: Json, p: Path)
    requires TryGet(j, p).Some?
    ensures SetPath(j, p, TryGet(j, p).value) == Ok(j)
    decreases |p|
  {
    if p != [] {
      var c := Child(j, p[0]);
      SetPathSame(c, p[1..]);
      if p[0].Key? {
        assert j.members[p[0].key := c] == j.members;
      } else {
        assert j.items[p[0].index := c] == j.items;
      }
      assert |p| == 1 ==> TryGet(j, p).value == c;
    }
  }

  /** Edits of the string at a path amount to one write of the edited string. */
  lemma {:induction false} EditOpsAmountTo(j: Json, p: Path, s: Bytes, edits: seq<StringDelta.Edit>, t: Bytes)
    requires TryGet(j, p) == Some(Str(s))
    requires StringDelta.ApplyEdits(s, edits) == Ok(t)
    ensures Fold(j, EditOps(p, edits)) == SetPath(j, p, Str(t))
    ensures SetPath(j, p, Str(t)).Ok?
    decreases |edits|
  {
    if edits == [] {
      SetPathSame(j, p);
    } else {
      var ops := EditOps(p, edits);
      var u := StringDelta.ApplyEdit(s, edits[0]).value;
      SetPathSame(j, p);
      SetPathTwice(j, p, Str(s), Str(u));
      assert ApplyOp(j, ops[0]) == SetPath(j, p, Str(u));
      SetPathTwice(j, p, Str(u), Str(t));
      EditOpsAmountTo(SetPath(j, p, Str(u)).value, p, u, edits[1..], t);
      assert ops[1..] == EditOps(p, edits[1..]);
    }
  }
}
