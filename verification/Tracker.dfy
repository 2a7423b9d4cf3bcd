/** Drafts, prepared changes and the tracker that adopts them optimistically. */
module Tracker {
  import opened Values
  import opened Delta
  import opened Collapse

  const MAX_DELTA_OPERATIONS: nat := 4096

  class OwnerToken {
    constructor () {}
  }

  /** The identity of one revision. What the revision held is recorded for the proofs only. */
  class RevisionToken {
    ghost const value: Json
    ghost const index: nat

    constructor (ghost v: Json, ghost n: nat)
      ensures value == v && index == n
    {
      value, index := v, n;
    }
  }

  datatype Status = Ready | Consumed | Aborted | Stale

  // ---------------------------------------------------------------- prepared changes

  class Prepared {
    const owner: OwnerToken
    const baseToken: RevisionToken
    const baseRevision: nat
    const base: Json
    const value: Json
    const ops: Batch
    var status: Status
    /** What the change was prepared from; a root replacement counts as structural. */
    ghost const recorded: Batch
    ghost const structural: bool

    /** The base is what the revision it names held. */
    ghost predicate Based() {
      base == baseToken.value && baseRevision == baseToken.index
    }

    /** Moreover the batch never misleads a replica, and it leads it to the value exactly when what
        was recorded is replayable. */
    ghost predicate Valid() {
      Based() && Sound() && (Exact() <==> Replays())
    }

    ghost predicate Replays() {
      Replayable(base, value, recorded, structural)
    }

    /** The batch never leads a replica at the base anywhere but to the value. */
    ghost predicate Sound() {
      Apply(base, ops).Ok? ==> Apply(base, ops) == Ok(value)
    }

    /** A replica at the base reaches the value. */
    ghost predicate Exact() {
      Apply(base, ops) == Ok(value)
    }

    constructor (owner: OwnerToken, baseToken: RevisionToken, baseRevision: nat, base: Json, value: Json, ops: Batch,
                 ghost recorded: Batch, ghost structural: bool)
      ensures this.owner == owner && this.baseToken == baseToken && this.baseRevision == baseRevision
      ensures this.base == base && this.value == value && this.ops == ops && status == Ready
      ensures this.recorded == recorded && this.structural == structural
    {
      this.recorded, this.structural := recorded, structural;
      this.owner, this.baseToken, this.baseRevision := owner, baseToken, baseRevision;
      this.base, this.value, this.ops, this.status := base, value, ops, Ready;
    }

    method Abort()
      modifies this
      ensures status == if old(status) == Ready then Aborted else old(status)
    {
      if status == Ready {
        status := Aborted;
      }
    }
  }

  // ---------------------------------------------------------------- drafts

  /** When the batch prepared from a draft replays: always for a structural draft and for one
      whose batch is replaced by its value, else exactly when the collapsed batch does. */
  predicate Replayable(base: Json, candidate: Json, recorded: Batch, structural: bool) {
    || structural
    || |CollapseOps(base, candidate, recorded)| > MAX_DELTA_OPERATIONS
    || InOrder(base, candidate, recorded)
  }

  function PreparedOps(base: Json, candidate: Json, recorded: Batch, structural: bool): Batch {
    var ops := if structural then recorded else CollapseOps(base, candidate, recorded);
    if |ops| > MAX_DELTA_OPERATIONS then [ReplaceOp(candidate)] else ops
  }

  ghost predicate Trail(recorded: Batch, trail: seq<Json>) {
    && |trail| == |recorded| + 1
    && forall k :: 0 <= k < |recorded| ==>
         !recorded[k].ReplaceOp? && OpFault(recorded[k]) == None && ApplyOp(trail[k], recorded[k]) == Ok(trail[k + 1])
  }

  /** What was recorded, replayed on the base, gives the candidate. */
  lemma {:induction false} TrailReplays(recorded: Batch, trail: seq<Json>)
    requires Trail(recorded, trail)
    ensures Apply(trail[0], recorded) == Ok(trail[|recorded|])
    decreases |recorded|
  {
    BatchFaultIff(recorded);
    if recorded == [] {
    } else {
      TrailReplays(recorded[1..], trail[1..]);
      BatchFaultIff(recorded[1..]);
    }
  }

  /** The prepared batch of any draft replays to the candidate if and only if `Replayable`. */
  lemma {:induction false} PreparedExactIff(recorded: Batch, trail: seq<Json>, structural: bool)
    requires Trail(recorded, trail) && (!structural ==> History(recorded, trail))
    requires structural ==> recorded != []
    ensures var base, candidate := trail[0], trail[|recorded|];
            var ops := PreparedOps(base, candidate, recorded, structural);
            && (Apply(base, ops) == Ok(candidate) <==> Replayable(base, candidate, recorded, structural))
            && (Apply(base, ops).Ok? ==> Apply(base, ops) == Ok(candidate))
            && (ops == [] ==> base == candidate)
  {
    var base, candidate := trail[0], trail[|recorded|];
    TrailReplays(recorded, trail);
    if !structural {
      CollapseExactIff(recorded, trail);
    }
    var ops := PreparedOps(base, candidate, recorded, structural);
    if ops == [ReplaceOp(candidate)] {
      FoldOne(base, ops[0]);
      BatchFaultIff(ops);
    }
  }

  /** The batch says what changed: a structural draft within the cap keeps its log; another draft whose
      log is at most half the cap gives a small batch at recorded paths. */
  predicate Descriptive(recorded: Batch, structural: bool, ops: Batch) {
    && (structural && |recorded| <= MAX_DELTA_OPERATIONS ==> ops == recorded)
    && (!structural && 2 * |recorded| <= MAX_DELTA_OPERATIONS ==> Local(recorded, |recorded|, ops))
  }

  /** The log is short enough that the root is not replaced. */
  predicate Short(recorded: Batch, structural: bool) {
    if structural then |recorded| <= MAX_DELTA_OPERATIONS else 2 * |recorded| <= MAX_DELTA_OPERATIONS
  }

  lemma {:induction false} PreparedDescriptive(base: Json, candidate: Json, recorded: Batch, structural: bool)
    ensures Descriptive(recorded, structural, PreparedOps(base, candidate, recorded, structural))
  {
    if !structural {
      CollapseLocal(base, candidate, recorded);
    }
  }

  /** A batch without a root replacement that applies is written through to its end. */
  lemma {:induction false} WritesThrough(j: Json, ops: Batch)
    requires Apply(j, ops).Ok? && forall op :: op in ops ==> !op.ReplaceOp?
    ensures WrittenThrough(j, ops) == |ops| && Apply(j, ops[..WrittenThrough(j, ops)]) == Apply(j, ops)
    decreases |ops|
  {
    WrittenThroughMeaning(j, ops);
    var n := WrittenThrough(j, ops);
    if n < |ops| {
      assert ops[n] in ops;
      var k := Apply(j, ops[..n]).value;
      assert ops == ops[..n] + ops[n..] && ops[n..] == [ops[n]] + ops[n + 1..];
      BatchFaultIff(ops);
      BatchFaultIff(ops[..n]);
      BatchFaultIff([ops[n]]);
      FoldConcat(j, ops[..n], ops[n..]);
      FoldConcat(k, [ops[n]], ops[n + 1..]);
    }
    assert ops[..|ops|] == ops;
  }

  /** Applied in place to the base, the batch of a short replayable log leaves the candidate. */
  lemma {:induction false} PreparedInPlace(recorded: Batch, trail: seq<Json>, structural: bool)
    requires Trail(recorded, trail) && (!structural ==> History(recorded, trail))
    requires structural ==> recorded != []
    requires Short(recorded, structural) && Replayable(trail[0], trail[|recorded|], recorded, structural)
    ensures var base, candidate := trail[0], trail[|recorded|];
            var ops := PreparedOps(base, candidate, recorded, structural);
            Ok(candidate) == Apply(base, ops[..WrittenThrough(base, ops)])
  {
    var base, candidate := trail[0], trail[|recorded|];
    var ops := PreparedOps(base, candidate, recorded, structural);
    PreparedExactIff(recorded, trail, structural);
    PreparedDescriptive(base, candidate, recorded, structural);
    forall op | op in ops
      ensures !op.ReplaceOp?
    {
      if structural {
        var k :| 0 <= k < |recorded| && recorded[k] == op;
        assert !recorded[k].ReplaceOp?;
      }
    }
    WritesThrough(base, ops);
  }

  /** What a splice of an array of length `n` adds to the log: a removal, then an insertion. */
  function SpliceRecord(n: nat, path: Path, index: nat, remove: nat, items: seq<Json>): Batch {
    var i := Min(index, n);
    var r := Min(remove, n - i);
    (if r == 0 then [] else [SpliceOp(path, i, r, [])]) + (if items == [] then [] else [SpliceOp(path, i, 0, items)])
  }

  /** A splice that removes and inserts is recorded as two, which amount to the one. */
  lemma {:induction false} SpliceTwice(a: seq<Json>, i: nat, r: nat, items: seq<Json>)
    requires i + r <= |a|
    ensures SpliceItems(SpliceItems(a, i, r, []), i, 0, items) == SpliceItems(a, i, r, items)
  {
    var b := SpliceItems(a, i, r, []);
    assert b == a[..i] + a[i + r..];
    assert b[..i] == a[..i] && b[i..] == a[i + r..];
  }

  /** On a document, the recorded removal and insertion amount to the splice that was asked for. */
  lemma {:induction false} SplitSplice(j: Json, path: Path, a: seq<Json>, index: nat, remove: nat, items: seq<Json>)
    requires TargetArray(j, path) == Ok(a)
    ensures var i := Min(index, |a|);
            var r := Min(remove, |a| - i);
            var whole := ApplyOp(j, SpliceOp(path, index, remove, items));
            var removed := ApplyOp(j, SpliceOp(path, i, r, []));
            && whole.Ok? && removed.Ok?
            && (r == 0 && items != [] ==> ApplyOp(j, SpliceOp(path, i, 0, items)) == whole)
            && (items == [] ==> removed == whole)
            && (items != [] ==> ApplyOp(removed.value, SpliceOp(path, i, 0, items)) == whole)
  {
    var i := Min(index, |a|);
    var r := Min(remove, |a| - i);
    assert SpliceItems(a, index, remove, items) == SpliceItems(a, i, r, items);
    var removed := WriteArray(j, path, a, SpliceItems(a, i, r, []));
    var _ := WriteArray(j, path, a, SpliceItems(a, i, r, items));
    SpliceTwice(a, i, r, items);
    SetPathTwice(j, path, Arr(SpliceItems(a, i, r, [])), Arr(SpliceItems(a, i, r, items)));
    assert TargetArray(removed, path) == Ok(SpliceItems(a, i, r, []));
  }

  lemma {:induction false} SpliceNothing(j: Json, path: Path, a: seq<Json>, index: nat, remove: nat)
    requires TargetArray(j, path) == Ok(a) && Min(remove, |a| - Min(index, |a|)) == 0
    ensures ApplyOp(j, SpliceOp(path, index, remove, [])) == Ok(j)
  {
    assert SpliceItems(a, index, remove, []) == a;
    SetPathSame(j, path);
  }

  /** A splice is found in the place of the array. */
  lemma {:induction false} SplicePlaced(j: Json, path: Path, a: seq<Json>, index: nat, remove: nat, items: seq<Json>)
    requires TargetArray(j, path) == Ok(a)
    ensures var whole := ApplyOp(j, SpliceOp(path, index, remove, items));
            && whole.Ok? && TargetArray(whole.value, path).Ok?
            && Spliced(a, index, remove, items, TargetArray(whole.value, path).value)
  {
    SpliceItemsAt(a, index, remove, items);
    var _ := WriteArray(j, path, a, SpliceItems(a, index, remove, items));
  }

  /** An array can be replaced by another, which is then found in its place. */
  lemma {:induction false} WriteArray(j: Json, path: Path, a: seq<Json>, b: seq<Json>) returns (k: Json)
    requires TargetArray(j, path) == Ok(a)
    ensures SetPath(j, path, Arr(b)) == Ok(k) && TargetArray(k, path) == Ok(b)
  {
    SetPathSame(j, path);
    SetPathTwice(j, path, Arr(a), Arr(b));
    SetPathTwice(j, path, Arr(b), Arr(b));
    k := SetPath(j, path, Arr(b)).value;
  }

  class Change {
    const owner: OwnerToken
    const baseToken: RevisionToken
    const baseRevision: nat
    const base: Json
    var candidate: Json
    var recorded: Batch
    var structural: bool
    var settled: bool
    var stale: bool
    var prepared: Prepared?
    ghost var trail: seq<Json>

    /** The candidate is the base with the recorded operations replayed. */
    ghost predicate Consistent()
      reads this
    {
      && Trail(recorded, trail) && trail[0] == base && trail[|recorded|] == candidate
      && (!structural ==> History(recorded, trail))
      && base == baseToken.value && baseRevision == baseToken.index
      && (stale ==> settled) && (prepared != null ==> settled)
    }

    ghost predicate Valid()
      reads this
    {
      Consistent() && (structural ==> recorded != [])
    }

    constructor (owner: OwnerToken, baseToken: RevisionToken, baseRevision: nat, base: Json)
      requires base == baseToken.value && baseRevision == baseToken.index
      ensures Valid() && !settled && candidate == base && recorded == [] && prepared == null
      ensures this.owner == owner && this.baseToken == baseToken && this.base == base
    {
      this.owner, this.baseToken, this.baseRevision, this.base := owner, baseToken, baseRevision, base;
      this.candidate, this.recorded := base, [];
      this.structural, this.settled, this.stale, this.prepared := false, false, false, null;
      this.trail := [base];
    }

    /** Append one operation to the log and adopt the document it leads to. */
    method Record(op: Op, updated: Json)
      requires Consistent() && !op.ReplaceOp? && OpFault(op) == None && ApplyOp(candidate, op) == Ok(updated)
      requires structural || DraftStep(candidate, op, updated)
      modifies this`recorded, this`candidate, this`trail
      ensures Valid() && recorded == old(recorded) + [op] && candidate == updated
    {
      recorded := recorded + [op];
      candidate := updated;
      trail := trail + [updated];
    }

    /** The checks every path-bearing mutator makes first. */
    function Refusal(path: Path): Option<Fault>
      reads this
    {
      if settled then Some(Settled)
      else if path == [] then Some(EmptyPath)
      else if !SafePath(path) then Some(UnsafeSegment)
      else None
    }

    method Set(path: Path, value: Json) returns (fault: Option<Fault>)
      requires Valid()
      modifies this`recorded, this`candidate, this`trail
      ensures Valid()
      ensures fault.None? <==> old(Refusal(path)).None? && CanWrite(old(candidate), path)
      ensures fault.None? ==> Ok(candidate) == SetPath(old(candidate), path, value)
      ensures fault.Some? ==> candidate == old(candidate)
      ensures recorded == old(recorded) + if candidate == old(candidate) then [] else [SetOp(path, value)]
    {
      fault := Refusal(path);
      if fault.Some? {
        return;
      }
      SetPathOkIff(candidate, path, value);
      var current := LookUp(candidate, path);
      if current == Some(value) {
        SetPathSame(candidate, path);
        return None;
      }
      var updated := SetPath(candidate, path, value);
      if updated.Err? {
        return Some(updated.fault);
      }
      SetPathTwice(candidate, path, value, value);
      Record(SetOp(path, value), updated.value);
      return None;
    }

    method Erase(path: Path) returns (fault: Option<Fault>)
      requires Valid()
      modifies this`recorded, this`candidate, this`trail
      ensures Valid()
      ensures fault.None? <==> old(Refusal(path)).None? && View(old(candidate), Parent(path)) == Some(ObjAtom) && Last(path).Key?
      ensures fault.None? ==> forall q :: View(candidate, q) == if path <= q then None else View(old(candidate), q)
      ensures fault.Some? ==> candidate == old(candidate)
      ensures recorded == old(recorded) + if candidate == old(candidate) then [] else [DeleteOp(path)]
    {
      fault := Refusal(path);
      if fault.Some? {
        return;
      }
      var parent := LookUp(candidate, Parent(path));
      if parent.Some? && parent.value.Arr? {
        return Some(ArrayHole);
      }
      var updated := ErasePath(candidate, path);
      EraseNeedsObject(candidate, path);
      if updated.Err? {
        return Some(updated.fault);
      }
      forall q: Path
        ensures View(updated.value.root, q) == if path <= q then None else View(candidate, q)
      {
        EraseKeyView(candidate, path, q);
      }
      EraseKeyView(candidate, path, path);
      if !updated.value.changed {
        forall q: Path
          ensures View(candidate, q) == if path <= q then None else View(candidate, q)
        {
          if path <= q {
            AbsentBelow(candidate, path, q);
          }
        }
        return None;
      }
      Record(DeleteOp(path), updated.value.root);
      return None;
    }

    method AppendString(path: Path, text: Bytes) returns (fault: Option<Fault>)
      requires Valid()
      modifies this`recorded, this`candidate, this`trail
      ensures Valid()
      ensures fault.None? <==> old(Refusal(path)).None? && TargetString(old(candidate), path).Ok?
      ensures fault.None? ==> Ok(candidate) == ApplyOp(old(candidate), AppendOp(path, text))
      ensures fault.Some? ==> candidate == old(candidate)
      ensures recorded == old(recorded) + if fault.Some? || text == [] then [] else [AppendOp(path, text)]
    {
      fault := Refusal(path);
      if fault.Some? {
        return;
      }
      var current := TargetString(candidate, path);
      if current.Err? {
        return Some(current.fault);
      }
      SetPathSame(candidate, path);
      SetPathTwice(candidate, path, Str(current.value), Str(current.value + text));
      if text == [] {
        assert current.value + text == current.value;
        return None;
      }
      Record(AppendOp(path, text), SetPath(candidate, path, Str(current.value + text)).value);
      return None;
    }

    method TruncateString(path: Path, count: nat) returns (fault: Option<Fault>)
      requires Valid()
      modifies this`recorded, this`candidate, this`trail
      ensures Valid()
      ensures fault.None? <==> old(Refusal(path)).None? && ApplyOp(old(candidate), TruncateOp(path, count)).Ok?
      ensures fault.None? ==> Ok(candidate) == ApplyOp(old(candidate), TruncateOp(path, count))
      ensures fault.Some? ==> candidate == old(candidate)
      ensures recorded == old(recorded) + if candidate == old(candidate) then [] else [TruncateOp(path, count)]
    {
      fault := Refusal(path);
      if fault.Some? {
        return;
      }
      var current := TargetString(candidate, path);
      if current.Err? {
        return Some(current.fault);
      }
      if count == 0 {
        SetPathSame(candidate, path);
        return None;
      }
      var updated := ApplyOp(candidate, TruncateOp(path, count));
      if updated.Err? {
        return Some(updated.fault);
      }
      if updated.value == candidate {
        return None;
      }
      Record(TruncateOp(path, count), updated.value);
      return None;
    }

    method Splice(path: Path, index: nat, remove: nat, items: seq<Json>) returns (fault: Option<Fault>)
      requires Valid()
      modifies this`recorded, this`candidate, this`trail, this`structural
      ensures Valid()
      ensures fault.None? <==> !settled && SafePath(path) && TargetArray(old(candidate), path).Ok?
      ensures fault.None? ==>
                var log := SpliceRecord(|TargetArray(old(candidate), path).value|, path, index, remove, items);
                && Ok(candidate) == ApplyOp(old(candidate), SpliceOp(path, index, remove, items))
                && TargetArray(candidate, path).Ok?
                && Spliced(TargetArray(old(candidate), path).value, index, remove, items, TargetArray(candidate, path).value)
                && recorded == old(recorded) + log && structural == (old(structural) || log != [])
      ensures fault.Some? ==> candidate == old(candidate) && recorded == old(recorded) && structural == old(structural)
    {
      if settled {
        return Some(Settled);
      }
      if !SafePath(path) {
        return Some(UnsafeSegment);
      }
      var target := TargetArray(candidate, path);
      if target.Err? {
        return Some(target.fault);
      }
      var a := target.value;
      var i := Min(index, |a|);
      var r := Min(remove, |a| - i);
      SplicePlaced(candidate, path, a, index, remove, items);
      if r == 0 && items == [] {
        SpliceNothing(candidate, path, a, index, remove);
        return None;
      }
      RecordSplice(path, a, index, remove, items);
      return None;
    }

    /** Record the removal and the insertion that a splice amounts to. */
    method RecordSplice(path: Path, a: seq<Json>, index: nat, remove: nat, items: seq<Json>)
      requires Valid() && SafePath(path) && TargetArray(candidate, path) == Ok(a)
      requires items != [] || Min(remove, |a| - Min(index, |a|)) != 0
      modifies this`recorded, this`candidate, this`trail, this`structural
      ensures Valid() && structural && recorded == old(recorded) + SpliceRecord(|a|, path, index, remove, items)
      ensures Ok(candidate) == ApplyOp(old(candidate), SpliceOp(path, index, remove, items))
    {
      var i := Min(index, |a|);
      var r := Min(remove, |a| - i);
      SplitSplice(candidate, path, a, index, remove, items);
      structural := true;
      if r != 0 {
        Record(SpliceOp(path, i, r, []), ApplyOp(candidate, SpliceOp(path, i, r, [])).value);
      }
      if items != [] {
        Record(SpliceOp(path, i, 0, items), ApplyOp(candidate, SpliceOp(path, i, 0, items)).value);
      }
    }

    method Move(path: Path, permutation: seq<nat>) returns (fault: Option<Fault>)
      requires Valid()
      modifies this`recorded, this`candidate, this`trail, this`structural
      ensures Valid()
      ensures fault.None? <==>
                && !settled && SafePath(path) && IsPermutation(permutation)
                && TargetArray(old(candidate), path).Ok? && |TargetArray(old(candidate), path).value| == |permutation|
      ensures fault.None? ==>
                var log := if IsIdentity(permutation) then [] else [MoveOp(path, permutation)];
                && Ok(candidate) == ApplyOp(old(candidate), MoveOp(path, permutation))
                && TargetArray(candidate, path).Ok?
                && Moved(TargetArray(old(candidate), path).value, permutation, TargetArray(candidate, path).value)
                && recorded == old(recorded) + log && structural == (old(structural) || log != [])
      ensures fault.Some? ==> candidate == old(candidate) && recorded == old(recorded) && structural == old(structural)
    {
      if settled {
        return Some(Settled);
      }
      if !SafePath(path) {
        return Some(UnsafeSegment);
      }
      var ok := CheckPermutation(permutation);
      if !ok {
        return Some(NotBijection);
      }
      var target := TargetArray(candidate, path);
      if target.Err? {
        return Some(target.fault);
      }
      if |target.value| != |permutation| {
        return Some(Unresolvable);
      }
      SetPathSame(candidate, path);
      MoveItemsAt(target.value, permutation);
      ghost var _ := WriteArray(candidate, path, target.value, MoveItems(target.value, permutation));
      if IsIdentity(permutation) {
        assert MoveItems(target.value, permutation) == target.value;
        return None;
      }
      var updated := ApplyOp(candidate, MoveOp(path, permutation));
      structural := true;
      Record(MoveOp(path, permutation), updated.value);
      return None;
    }

    /** Settle the draft into a prepared change whose value is the candidate and whose batch
        replays exactly when the draft is replayable. Unless the log is too long, the batch is the
        log or a small one at recorded paths, and can be applied in place. */
    method Prepare() returns (fault: Option<Fault>, result: Prepared?)
      requires Valid()
      modifies this`settled, this`prepared
      ensures Valid() && settled
      ensures old(settled) ==> fault == Some(if stale then Settled else AlreadySettled) && result == null && prepared == old(prepared)
      ensures !old(settled) ==>
                && fault == None && result != null && fresh(result) && prepared == result
                && result.Valid() && result.status == Ready && result.owner == owner && result.baseToken == baseToken
                && result.base == base && result.value == candidate
                && result.recorded == recorded && result.structural == structural
                && Descriptive(recorded, structural, result.ops)
                && (Short(recorded, structural) && Replayable(base, candidate, recorded, structural) ==>
                      Ok(candidate) == Apply(base, result.ops[..WrittenThrough(base, result.ops)]))
    {
      if settled {
        return Some(if stale then Settled else AlreadySettled), null;
      }
      var ops := recorded;
      if !structural {
        ops := CollapseLog(base, candidate, recorded);
      }
      if |ops| > MAX_DELTA_OPERATIONS {
        ops := [ReplaceOp(candidate)];
      }
      PreparedExactIff(recorded, trail, structural);
      PreparedDescriptive(base, candidate, recorded, structural);
      if Short(recorded, structural) && Replayable(base, candidate, recorded, structural) {
        PreparedInPlace(recorded, trail, structural);
      }
      result := new Prepared(owner, baseToken, baseRevision, base, if ops == [] then base else candidate, ops,
        recorded, structural);
      settled := true;
      prepared := result;
      return None, result;
    }

    method Abort()
      requires Valid()
      modifies this`settled, prepared
      ensures Valid() && settled
      ensures old(settled) && prepared != null ==>
                prepared.status == if old(prepared.status) == Ready then Aborted else old(prepared.status)
      ensures !old(settled) ==> prepared == null
    {
      if !settled {
        settled := true;
        return;
      }
      if prepared != null && prepared.status == Ready {
        prepared.status := Aborted;
      }
    }
  }

  lemma {:induction false} EraseNeedsObject(j: Json, p: Path)
    requires p != [] && (TryGet(j, Parent(p)).Some? ==> !TryGet(j, Parent(p)).value.Arr?)
    ensures ErasePath(j, p).Ok? <==> Last(p).Key? && View(j, Parent(p)) == Some(ObjAtom)
    decreases |p|
  {
    if |p| == 1 {
      assert Parent(p) == [];
    } else {
      assert Parent(p)[0] == p[0] && Parent(p)[1..] == Parent(p[1..]) && Last(p) == Last(p[1..]);
      if HasChild(j, p[0]) {
        EraseNeedsObject(Child(j, p[0]), p[1..]);
      }
    }
  }

  // ---------------------------------------------------------------- the tracker

  /** The batches a replica receives, in adoption order. */
  ghost function Batches(history: seq<Prepared>): seq<Batch> {
    seq(|history|, i requires 0 <= i < |history| => history[i].ops)
  }

  /** Each adopted change starts where the one before it ended. */
  ghost predicate Chained(initial: Json, history: seq<Prepared>, value: Json) {
    && (forall i :: 0 <= i < |history| ==> history[i].base == Before(initial, history, i))
    && value == Before(initial, history, |history|)
  }

  /** The value before the i-th adoption. */
  ghost function Before(initial: Json, history: seq<Prepared>, i: nat): Json
    requires i <= |history|
  {
    if i == 0 then initial else history[i - 1].value
  }

  lemma {:induction false} ReplicaStep(r: Result<Json>, before: Json, p: Prepared)
    requires (r.Ok? ==> r == Ok(before)) && p.Sound() && p.base == before
    ensures var next := match r case Err(f) => Err(f) case Ok(k) => Apply(k, p.ops);
            && (next.Ok? ==> next == Ok(p.value))
            && (next.Ok? <==> r.Ok? && p.Exact())
  {
  }

  ghost predicate AllValid(history: seq<Prepared>) {
    forall p <- history :: p.Valid()
  }

  /** Each change was prepared from something replayable: it replaced the root, was structural,
      exceeded the operation cap, or last wrote the array elements it added in index order. */
  ghost predicate AllReplay(history: seq<Prepared>) {
    forall p <- history :: p.Replays()
  }

  lemma {:induction false} ChainedSnoc(initial: Json, history: seq<Prepared>, value: Json, p: Prepared)
    ensures Chained(initial, history + [p], value) <==> Chained(initial, history, p.base) && value == p.value
  {
    var longer := history + [p];
    forall i | 0 <= i <= |history|
      ensures Before(initial, longer, i) == Before(initial, history, i)
    {
      assert i > 0 ==> longer[i - 1] == history[i - 1];
    }
    assert longer[|history|] == p;
    assert Before(initial, longer, |longer|) == p.value;
    assert forall i :: 0 <= i < |history| ==> longer[i] == history[i];
  }

  lemma {:induction false} ReplicaFollowsSnoc(initial: Json, history: seq<Prepared>, p: Prepared)
    requires ApplyBatches(initial, Batches(history)).Ok? ==> ApplyBatches(initial, Batches(history)) == Ok(p.base)
    requires p.Valid()
    ensures var r := ApplyBatches(initial, Batches(history + [p]));
            && (r.Ok? <==> ApplyBatches(initial, Batches(history)).Ok? && p.Replays())
            && (r.Ok? ==> r == Ok(p.value))
  {
    assert Batches(history + [p]) == Batches(history) + [p.ops];
    ApplyBatchesSnoc(initial, Batches(history), p.ops);
    ReplicaStep(ApplyBatches(initial, Batches(history)), p.base, p);
  }

  /** A replica that applies the adopted batches in order holds the tracker's value if and only
      if every adopted change was prepared from something replayable; otherwise it stops with a
      refusal. */
  lemma {:induction false} ReplicaFollowsIff(initial: Json, history: seq<Prepared>, value: Json)
    requires Chained(initial, history, value) && AllValid(history)
    ensures ApplyBatches(initial, Batches(history)).Ok? <==> AllReplay(history)
    ensures ApplyBatches(initial, Batches(history)).Ok? ==> ApplyBatches(initial, Batches(history)) == Ok(value)
    decreases |history|
  {
    if history != [] {
      var h, p := history[..|history| - 1], history[|history| - 1];
      assert history == h + [p];
      ChainedSnoc(initial, h, value, p);
      ReplicaFollowsIff(initial, h, p.base);
      ReplicaFollowsSnoc(initial, h, p);
    }
  }

  /** The i-th adopted change was based on revision i, and each is marked consumed. */
  ghost predicate AllAdopted(history: seq<Prepared>, owner: OwnerToken)
    reads history
  {
    forall i :: 0 <= i < |history| ==>
      history[i].baseRevision == i && history[i].owner == owner && history[i].status == Consumed
  }

  lemma {:induction false} AdoptedSnoc(history: seq<Prepared>, owner: OwnerToken, p: Prepared)
    requires AllAdopted(history, owner) && p.baseRevision == |history| && p.owner == owner && p.status == Consumed
    ensures AllAdopted(history + [p], owner)
  {
  }

  /** Settle every open draft as stale. */
  method Retire(open: seq<Change>)
    modifies open
    ensures forall c <- open :: c.settled && c.stale == (old(c.stale) || !old(c.settled))
    ensures forall c <- open ::
              && c.candidate == old(c.candidate) && c.recorded == old(c.recorded) && c.trail == old(c.trail)
              && c.structural == old(c.structural) && c.prepared == old(c.prepared)
  {
    var n := 0;
    while n < |open|
      invariant n <= |open|
      invariant forall c <- open[..n] :: c.settled && c.stale == (old(c.stale) || !old(c.settled))
      invariant forall c <- open :: c !in open[..n] ==> c.settled == old(c.settled) && c.stale == old(c.stale)
      invariant forall c <- open ::
                  && c.candidate == old(c.candidate) && c.recorded == old(c.recorded) && c.trail == old(c.trail)
                  && c.structural == old(c.structural) && c.prepared == old(c.prepared)
    {
      var c := open[n];
      if !c.settled {
        c.settled := true;
        c.stale := true;
      }
      assert open[..n + 1] == open[..n] + [c];
      n := n + 1;
    }
    assert open[..n] == open;
  }

  class Tracker {
    const owner: OwnerToken
    ghost const initial: Json
    var token: RevisionToken
    var value: Json
    var revision: nat
    var changes: seq<Change>
    ghost var history: seq<Prepared>

    /** The revision counts the adoptions; the i-th adopted change was based on revision i, so
        none was adopted twice; each was marked consumed; and registered drafts are on the
        current revision. */
    ghost predicate Valid()
      reads this, history
    {
      && token.value == value && token.index == revision == |history|
      && Chained(initial, history, value)
      && AllAdopted(history, owner)
      && (forall i :: 0 <= i < |changes| ==> changes[i].owner == owner && changes[i].baseToken == token)
    }

    constructor (initial: Json)
      ensures Valid() && value == initial && this.initial == initial && revision == 0 && history == [] && changes == []
    {
      this.owner := new OwnerToken();
      this.initial := initial;
      this.token := new RevisionToken(initial, 0);
      this.value, this.revision, this.changes, this.history := initial, 0, [], [];
    }

    method BeginChange() returns (change: Change)
      requires Valid()
      modifies this`changes
      ensures Valid() && fresh(change) && change.Valid() && !change.settled
      ensures change.owner == owner && change.base == change.candidate == value && change.baseToken == token
      ensures change.recorded == [] && change.prepared == null
      ensures changes == old(changes) + [change]
    {
      change := new Change(owner, token, revision, value);
      changes := changes + [change];
    }

    method PrepareReplace(v: Json) returns (p: Prepared)
      requires Valid()
      ensures fresh(p) && p.Valid() && p.Exact() && p.status == Ready
      ensures p.owner == owner && p.baseToken == token && p.base == value && p.value == v
      ensures p.ops == if v == value then [] else [ReplaceOp(v)]
    {
      var ops := if v == value then [] else [ReplaceOp(v)];
      if v != value {
        FoldOne(value, ReplaceOp(v));
        BatchFaultIff(ops);
      }
      p := new Prepared(owner, token, revision, value, v, ops, [], true);
    }

    /** Why a prepared change is not adopted. */
    function Objection(p: Prepared): Option<Fault>
      reads this, p
    {
      if p.owner != owner then Some(WrongOwner)
      else if p.status == Consumed then Some(AlreadyUsed)
      else if p.status == Aborted then Some(WasAborted)
      else if p.status == Stale then Some(IsStale)
      else if p.baseRevision != revision || p.baseToken != token then Some(IsStale)
      else None
    }

    /** Move to the next revision. */
    method Commit(p: Prepared)
      requires Valid() && p.Based() && Objection(p).None?
      modifies this`token, this`value, this`revision, this`changes, this`history, p
      ensures Valid() && p.base == old(value) && value == p.value && revision == old(revision) + 1
      ensures history == old(history) + [p] && p.status == Consumed && changes == []
    {
      ChainedSnoc(initial, history, p.value, p);
      value := p.value;
      revision := revision + 1;
      token := new RevisionToken(value, revision);
      p.status := Consumed;
      AdoptedSnoc(history, owner, p);
      history := history + [p];
      changes := [];
    }

    /** Adopt a prepared change if it is based on exactly the current revision. Every open
        draft goes stale; a refused change changes nothing but may be marked stale. */
    method Adopt(p: Prepared) returns (fault: Option<Fault>)
      requires Valid() && p.Based()
      modifies this`token, this`value, this`revision, this`changes, this`history, p, changes
      ensures Valid()
      ensures fault == old(Objection(p))
      ensures fault.None? ==>
                && p.base == old(value) && value == p.value && revision == old(revision) + 1
                && history == old(history) + [p] && p.status == Consumed && changes == []
                && (forall c <- old(changes) :: c.settled && c.stale == (old(c.stale) || !old(c.settled)))
      ensures fault.Some? ==>
                && value == old(value) && revision == old(revision) && token == old(token)
                && history == old(history) && changes == old(changes)
                && (forall c <- changes :: c.settled == old(c.settled) && c.stale == old(c.stale))
                && p.status == if p.owner == owner && old(p.status) == Ready then Stale else old(p.status)
      ensures forall c <- old(changes) ::
                && c.candidate == old(c.candidate) && c.recorded == old(c.recorded) && c.trail == old(c.trail)
                && c.structural == old(c.structural) && c.prepared == old(c.prepared)
    {
      fault := Objection(p);
      if fault.Some? {
        if p.owner == owner && p.status == Ready {
          p.status := Stale;
        }
        return;
      }
      var open := changes;
      Commit(p);
      Retire(open);
    }
  }
}
