/** Chord JSON values, document paths and the path primitives of the delta layer.

    A document is observed through `View`, which maps a path to the shallow content found
    there.  Two documents with the same view are equal (`ViewsDetermine`), and every path
    primitive is characterised by what it does to the view, so that all later reasoning about
    batches is pointwise in the path. */
module Values {

  function Min(a: nat, b: nat): nat { if a <= b then a else b }

  datatype Option<+T> = None | Some(value: T)

  /** Why an operation was refused. The wording of the messages is not modelled. */
  datatype Fault =
    | Unresolvable
    | UnsafeSegment
    | EmptyPath
    | NotBijection
    | InvalidUtf8
    | SplitsSurrogate
    | InvalidUtf16
    | ArrayHole
    | Settled
    | AlreadySettled
    | WrongOwner
    | AlreadyUsed
    | WasAborted
    | IsStale

  datatype Result<+T> = Ok(value: T) | Err(fault: Fault)

  type Byte = b: int | 0 <= b < 256
  type Bytes = seq<Byte>

  datatype Json =
    | Null
    | Bool(flag: bool)
    | Num(number: real)
    | Str(text: Bytes)
    | Arr(items: seq<Json>)
    | Obj(members: map<Bytes, Json>)

  datatype Segment = Key(key: Bytes) | Index(index: nat)

  type Path = seq<Segment>

  /** The shallow content of one JSON value. Container sizes are not part of it: they show in
      which child paths resolve. */
  datatype Atom = NullAtom | BoolAtom(flag: bool) | NumAtom(number: real) | StrAtom(text: Bytes) | ArrAtom | ObjAtom

  function AtomOf(j: Json): Atom {
    match j
    case Null => NullAtom
    case Bool(b) => BoolAtom(b)
    case Num(n) => NumAtom(n)
    case Str(s) => StrAtom(s)
    case Arr(_) => ArrAtom
    case Obj(_) => ObjAtom
  }

  function Parent(p: Path): Path
    requires p != []
  {
    p[..|p| - 1]
  }

  function Last(p: Path): Segment
    requires p != []
  {
    p[|p| - 1]
  }

  // ---------------------------------------------------------------- lookup

  predicate HasChild(j: Json, s: Segment) {
    match s
    case Key(k) => j.Obj? && k in j.members
    case Index(i) => j.Arr? && i < |j.items|
  }

  function Child(j: Json, s: Segment): Json
    requires HasChild(j, s)
  {
    match s
    case Key(k) => j.members[k]
    case Index(i) => j.items[i]
  }

  /** The value at a path, if every segment resolves. A present JSON null is a value. */
  function TryGet(j: Json, p: Path): Option<Json>
    decreases |p|
  {
    if p == [] then Some(j)
    else if HasChild(j, p[0]) then TryGet(Child(j, p[0]), p[1..])
    else None
  }

  function View(j: Json, p: Path): Option<Atom> {
    match TryGet(j, p)
    case None => None
    case Some(v) => Some(AtomOf(v))
  }

  /** `try_get_path`: walk down one segment at a time. */
  method LookUp(root: Json, path: Path) returns (r: Option<Json>)
    ensures r == TryGet(root, path)
  {
    var current := root;
    var n := 0;
    while n < |path|
      invariant n <= |path|
      invariant TryGet(current, path[n..]) == TryGet(root, path)
    {
      if !HasChild(current, path[n]) {
        return None;
      }
      current := Child(current, path[n]);
      n := n + 1;
      assert path[n - 1..][1..] == path[n..];
    }
    return Some(current);
  }

  // ---------------------------------------------------------------- update

  /** `set_path`: an object key is inserted or replaced, an array element is replaced, and an
      index equal to the array's length appends. */
  function SetPath(j: Json, p: Path, v: Json): Result<Json>
    decreases |p|
  {
    if p == [] then Ok(v)
    else
      match p[0]
      case Key(k) =>
        if !j.Obj? then Err(Unresolvable)
        else if |p| == 1 then Ok(Obj(j.members[k := v]))
        else if k !in j.members then Err(Unresolvable)
        else (
          match SetPath(j.members[k], p[1..], v)
          case Err(f) => Err(f)
          case Ok(c) => Ok(Obj(j.members[k := c]))
        )
      case Index(i) =>
        if !j.Arr? then Err(Unresolvable)
        else if i > |j.items| then Err(UnsafeSegment)
        else if |p| == 1 then Ok(Arr(if i == |j.items| then j.items + [v] else j.items[i := v]))
        else if i == |j.items| then Err(Unresolvable)
        else (
          match SetPath(j.items[i], p[1..], v)
          case Err(f) => Err(f)
          case Ok(c) => Ok(Arr(j.items[i := c]))
        )
  }

  datatype Erased = Erased(root: Json, changed: bool)

  /** `erase_path`: deleting an absent object key is a no-op, an absent array element is an
      error, and a present array element is removed with the tail shifted down. */
  function ErasePath(j: Json, p: Path): Result<Erased>
    decreases |p|
  {
    if p == [] then Err(Unresolvable)
    else
      match p[0]
      case Key(k) =>
        if !j.Obj? then Err(Unresolvable)
        else if |p| == 1 then
          if k !in j.members then Ok(Erased(j, false)) else Ok(Erased(Obj(j.members - {k}), true))
        else if k !in j.members then Err(Unresolvable)
        else (
          match ErasePath(j.members[k], p[1..])
          case Err(f) => Err(f)
          case Ok(c) => Ok(Erased(Obj(j.members[k := c.root]), c.changed))
        )
      case Index(i) =>
        if !j.Arr? || i >= |j.items| then Err(Unresolvable)
        else if |p| == 1 then Ok(Erased(Arr(j.items[..i] + j.items[i + 1..]), true))
        else (
          match ErasePath(j.items[i], p[1..])
          case Err(f) => Err(f)
          case Ok(c) => Ok(Erased(Arr(j.items[i := c.root]), c.changed))
        )
  }

  /** When a write at `p` is accepted, said through the view alone: the parent is a container
      of the right kind and an index leaves no hole. */
  predicate CanWrite(j: Json, p: Path) {
    p != [] &&
    match Last(p)
    case Key(_) => View(j, Parent(p)) == Some(ObjAtom)
    case Index(i) =>
      View(j, Parent(p)) == Some(ArrAtom) && (i == 0 || View(j, Parent(p) + [Index(i - 1)]) != None)
  }

  // ---------------------------------------------------------------- laws of lookup

  lemma {:induction false} PrefixCons(p: Path, q: Path)
    requires p != [] && q != []
    ensures p <= q <==> p[0] == q[0] && p[1..] <= q[1..]
    ensures p <= q ==> q[1..][|p| - 1..] == q[|p|..]
  {
    if p[0] == q[0] && p[1..] <= q[1..] {
      assert q[..|p|] == [p[0]] + q[1..][..|p| - 1] == [p[0]] + p[1..] == p;
    }
    if p <= q {
      assert q[1..][..|p| - 1] == q[..|p|][1..] == p[1..];
    }
  }

  lemma {:induction false} TryGetOne(j: Json, s: Segment)
    ensures TryGet(j, [s]) == if HasChild(j, s) then Some(Child(j, s)) else None
  {
    assert [s][1..] == [];
  }

  lemma {:induction false} TryGetConcat(j: Json, p: Path, q: Path)
    ensures TryGet(j, p + q) == match TryGet(j, p) case None => None case Some(v) => TryGet(v, q)
    decreases |p|
  {
    if p == [] {
      assert p + q == q;
    } else {
      assert (p + q)[0] == p[0] && (p + q)[1..] == p[1..] + q;
      if HasChild(j, p[0]) {
        TryGetConcat(Child(j, p[0]), p[1..], q);
      }
    }
  }

  /** What lies below an absent path is absent. */
  lemma {:induction false} AbsentBelow(j: Json, p: Path, q: Path)
    requires p <= q
    requires View(j, p) == None
    ensures View(j, q) == None
  {
    TryGetConcat(j, p, q[|p|..]);
    assert p + q[|p|..] == q;
  }

  /** The content below a resolved path is the content of the value found there. */
  lemma {:induction false} ViewBelow(j: Json, p: Path, q: Path)
    requires p <= q
    requires TryGet(j, p).Some?
    ensures View(j, q) == View(TryGet(j, p).value, q[|p|..])
  {
    TryGetConcat(j, p, q[|p|..]);
    assert p + q[|p|..] == q;
  }

  /** The parent of a resolved path is a container of the kind the last segment needs. */
  lemma {:induction false} ParentOfPresent(j: Json, p: Path)
    requires p != [] && View(j, p) != None
    ensures View(j, Parent(p)) == Some(if Last(p).Key? then ObjAtom else ArrAtom)
    ensures Last(p).Index? && Last(p).index > 0 ==> View(j, Parent(p) + [Index(Last(p).index - 1)]) != None
  {
    TryGetConcat(j, Parent(p), [Last(p)]);
    assert Parent(p) + [Last(p)] == p;
    if Last(p).Index? && Last(p).index > 0 {
      TryGetConcat(j, Parent(p), [Index(Last(p).index - 1)]);
    }
  }

  /** Array elements are contiguous: if an element is absent, so is the next one. */
  lemma {:induction false} AbsentNext(j: Json, u: Path, i: nat)
    requires i > 0 && View(j, u + [Index(i - 1)]) == None
    ensures View(j, u + [Index(i)]) == None
  {
    var p := u + [Index(i)];
    if View(j, p) != None {
      assert Parent(p) == u;
      ParentOfPresent(j, p);
    }
  }

  // ---------------------------------------------------------------- laws of update

  /** One level of a write: only the child named by the first segment changes. */
  lemma {:induction false} SetPathShape(j: Json, p: Path, v: Json, s: Segment)
    requires p != [] && SetPath(j, p, v).Ok?
    ensures var r := SetPath(j, p, v).value;
            && AtomOf(r) == AtomOf(j)
            && HasChild(r, p[0])
            && (|p| == 1 ==> Child(r, p[0]) == v)
            && (|p| > 1 ==> HasChild(j, p[0]) && SetPath(Child(j, p[0]), p[1..], v) == Ok(Child(r, p[0])))
            && (s != p[0] ==> HasChild(r, s) == HasChild(j, s))
            && (s != p[0] && HasChild(j, s) ==> Child(r, s) == Child(j, s))
  {
    match p[0]
    case Key(k) =>
      assert j.Obj?;
    case Index(i) =>
      assert j.Arr? && i <= |j.items|;
  }

  /** What is seen below a child. */
  lemma {:induction false} ViewCons(j: Json, q: Path)
    requires q != []
    ensures View(j, q) == if HasChild(j, q[0]) then View(Child(j, q[0]), q[1..]) else None
  {
  }

  /** A write replaces the whole subtree at its path and nothing else. */
  lemma {:induction false} SetPathView(j: Json, p: Path, v: Json, q: Path)
    requires SetPath(j, p, v).Ok?
    ensures View(SetPath(j, p, v).value, q) == if p <= q then View(v, q[|p|..]) else View(j, q)
    decreases |p|
  {
    var r := SetPath(j, p, v).value;
    if p == [] {
      assert q[0..] == q;
    } else if q == [] {
      SetPathShape(j, p, v, p[0]);
    } else {
      SetPathShape(j, p, v, q[0]);
      ViewCons(r, q);
      ViewCons(j, q);
      if p[0] == q[0] {
        PrefixCons(p, q);
        if |p| > 1 {
          SetPathView(Child(j, p[0]), p[1..], v, q[1..]);
        }
      }
    }
  }

  lemma {:induction false} SetPathOkIff(j: Json, p: Path, v: Json)
    requires p != []
    ensures SetPath(j, p, v).Ok? <==> CanWrite(j, p)
    decreases |p|
  {
    if |p| == 1 {
      assert Parent(p) == [] && Last(p) == p[0];
      if p[0].Index? && p[0].index > 0 {
        var e := Index(p[0].index - 1);
        assert Parent(p) + [e] == [e];
        TryGetOne(j, e);
      }
    } else {
      var t := p[1..];
      assert Parent(p)[0] == p[0] && Parent(p)[1..] == Parent(t) && Last(p) == Last(t);
      if HasChild(j, p[0]) {
        SetPathOkIff(Child(j, p[0]), t, v);
        if Last(p).Index? && Last(p).index > 0 {
          var e := [Index(Last(p).index - 1)];
          assert (Parent(p) + e)[0] == p[0] && (Parent(p) + e)[1..] == Parent(t) + e;
        }
      }
    }
  }

  /** Writing over a write leaves the second value only. */
  lemma {:induction false} SetPathTwice(j: Json, p: Path, a: Json, b: Json)
    requires SetPath(j, p, a).Ok?
    ensures TryGet(SetPath(j, p, a).value, p) == Some(a)
    ensures SetPath(SetPath(j, p, a).value, p, b).Ok?
    ensures TryGet(j, p).Some? ==> SetPath(SetPath(j, p, a).value, p, b) == SetPath(j, p, b)
    decreases |p|
  {
    if p != [] {
      var r := SetPath(j, p, a).value;
      assert HasChild(r, p[0]);
      if |p| == 1 {
        assert Child(r, p[0]) == a && p[1..] == [];
        if p[0].Key? {
          assert r.members[p[0].key := b] == j.members[p[0].key := b];
        } else if p[0].index < |j.items| {
          assert r.items[p[0].index := b] == j.items[p[0].index := b];
        }
      } else {
        var c := Child(j, p[0]);
        SetPathTwice(c, p[1..], a, b);
        assert Child(r, p[0]) == SetPath(c, p[1..], a).value;
        if TryGet(j, p).Some? {
          var cb := SetPath(c, p[1..], b).value;
          if p[0].Key? {
            assert r.members[p[0].key := cb] == j.members[p[0].key := cb];
          } else {
            assert r.items[p[0].index := cb] == j.items[p[0].index := cb];
          }
        }
      }
    }
  }

  /** Erasing an object member removes the subtree at its path and nothing else. It succeeds
      exactly when the parent is an object, and reports a change exactly when the member was there. */
  lemma {:induction false} EraseKeyView(j: Json, p: Path, q: Path)
    requires p != [] && Last(p).Key?
    ensures ErasePath(j, p).Ok? <==> View(j, Parent(p)) == Some(ObjAtom)
    ensures ErasePath(j, p).Ok? ==> (ErasePath(j, p).value.changed <==> View(j, p) != None)
    ensures ErasePath(j, p).Ok? ==>
              View(ErasePath(j, p).value.root, q) == if p <= q then None else View(j, q)
    decreases |p|
  {
    if q != [] {
      PrefixCons(p, q);
    }
    if |p| == 1 {
      assert Parent(p) == [] && Last(p) == p[0] && p == [p[0]];
      TryGetOne(j, p[0]);
      if j.Obj? && q != [] {
        var r := ErasePath(j, p).value.root;
        assert p[0] != q[0] ==> HasChild(r, q[0]) == HasChild(j, q[0]);
      }
    } else {
      var t := p[1..];
      assert Parent(p)[0] == p[0] && Parent(p)[1..] == Parent(t) && Last(p) == Last(t);
      if HasChild(j, p[0]) {
        EraseKeyView(Child(j, p[0]), t, if q == [] then [] else q[1..]);
        if ErasePath(j, p).Ok? && q != [] {
          assert HasChild(ErasePath(j, p).value.root, q[0]) == HasChild(j, q[0]);
        }
      }
    }
  }

  // ---------------------------------------------------------------- extensionality

  /** Two documents that look the same at every path are equal. */
  lemma {:induction false} ViewsDetermine(a: Json, b: Json)
    requires forall q: Path :: View(a, q) == View(b, q)
    ensures a == b
    decreases a
  {
    assert View(a, []) == View(b, []);
    match a {
      case Arr(items) =>
        SameLength(a, b);
        forall i: nat | i < |items|
          ensures items[i] == b.items[i]
        {
          var s := Index(i);
          assert View(a, [s]) == View(b, [s]);
          TryGetOne(a, s);
          TryGetOne(b, s);
          ChildViews(a, b, s);
          ViewsDetermine(items[i], b.items[i]);
        }
      case Obj(members) =>
        forall k: Bytes
          ensures k in members <==> k in b.members
          ensures k in members ==> members[k] == b.members[k]
        {
          var s := Key(k);
          assert View(a, [s]) == View(b, [s]);
          TryGetOne(a, s);
          TryGetOne(b, s);
          if k in members {
            ChildViews(a, b, s);
            ViewsDetermine(members[k], b.members[k]);
          }
        }
        assert members == b.members;
      case _ =>
    }
  }

  lemma {:induction false} SameLength(a: Json, b: Json)
    requires a.Arr? && b.Arr?
    requires forall q: Path :: View(a, q) == View(b, q)
    ensures |a.items| == |b.items|
  {
    var n, m := Index(|a.items|), Index(|b.items|);
    TryGetOne(a, n);
    TryGetOne(b, n);
    TryGetOne(a, m);
    TryGetOne(b, m);
    assert View(a, [n]) == View(b, [n]) && View(a, [m]) == View(b, [m]);
  }

  lemma {:induction false} ChildViews(a: Json, b: Json, s: Segment)
    requires HasChild(a, s) && HasChild(b, s)
    requires forall q: Path :: View(a, q) == View(b, q)
    ensures forall q: Path :: View(Child(a, s), q) == View(Child(b, s), q)
  {
    forall q: Path
      ensures View(Child(a, s), q) == View(Child(b, s), q)
    {
      assert ([s] + q)[0] == s && ([s] + q)[1..] == q;
      assert View(a, [s] + q) == View(b, [s] + q);
    }
  }
}
