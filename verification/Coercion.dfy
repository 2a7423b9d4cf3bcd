/** Coercion of tool arguments towards the types a schema asks for. */
module Coercion {
  import opened Values
  import opened Schema
  import Validator

  /** How numbers are read from text and written as text. */
  datatype Numerals = Numerals(parse: string -> Option<real>, show: real -> string)

  // ---------------------------------------------------------------- one value, one type

  /** `coerce_primitive`. */
  function CoercePrimitive(c: Numerals, v: Value, t: JsonType): Value {
    match t
    case NumberType =>
      (match v
       case NullValue => NumberValue(0.0)
       case TextValue(text) => if c.parse(text).Some? then NumberValue(c.parse(text).value) else v
       case BoolValue(flag) => NumberValue(if flag then 1.0 else 0.0)
       case _ => v)
    case IntegerType =>
      (match v
       case NullValue => NumberValue(0.0)
       case TextValue(text) =>
         if c.parse(text).Some? && IsInteger(c.parse(text).value) then NumberValue(c.parse(text).value) else v
       case BoolValue(flag) => NumberValue(if flag then 1.0 else 0.0)
       case _ => v)
    case BooleanType =>
      (match v
       case NullValue => BoolValue(false)
       case TextValue(text) => if text == "true" then BoolValue(true) else if text == "false" then BoolValue(false) else v
       case NumberValue(n) => if n == 1.0 then BoolValue(true) else if n == 0.0 then BoolValue(false) else v
       case _ => v)
    case StringType =>
      (match v
       case NullValue => TextValue("")
       case NumberValue(n) => TextValue(c.show(n))
       case BoolValue(flag) => TextValue(if flag then "true" else "false")
       case _ => v)
    case NullType => if v in {TextValue(""), NumberValue(0.0), BoolValue(false)} then NullValue else v
    case ArrayType => v
    case ObjectType => v
  }

  /** A value either has the type already and stays, or stays because nothing fits, or gets the type. */
  lemma {:induction false} PrimitiveSettles(c: Numerals, v: Value, t: JsonType)
    ensures MatchesType(v, t) ==> CoercePrimitive(c, v, t) == v
    ensures CoercePrimitive(c, v, t) != v ==> MatchesType(CoercePrimitive(c, v, t), t)
    ensures v.ListValue? || v.ObjectValue? ==> CoercePrimitive(c, v, t) == v
  {
    assert IsInteger(0.0) && IsInteger(1.0);
  }

  /** The texts, flags and numbers that stand for each other, and null for the empty ones. */
  lemma {:induction false} PrimitiveConstants(c: Numerals)
    ensures CoercePrimitive(c, TextValue("true"), BooleanType) == BoolValue(true)
    ensures CoercePrimitive(c, TextValue("false"), BooleanType) == BoolValue(false)
    ensures CoercePrimitive(c, NumberValue(1.0), BooleanType) == BoolValue(true)
    ensures CoercePrimitive(c, NumberValue(0.0), BooleanType) == BoolValue(false)
    ensures CoercePrimitive(c, NullValue, BooleanType) == BoolValue(false)
    ensures CoercePrimitive(c, NullValue, NumberType) == NumberValue(0.0) == CoercePrimitive(c, NullValue, IntegerType)
    ensures CoercePrimitive(c, NullValue, StringType) == TextValue("")
  {
  }

  /** Coercions invert each other: flags survive the way through text and numbers, the numbers one and
      zero and the texts "true" and "false" the way through flags, null the way through everything,
      and a number the way through text if it can be read back. */
  lemma {:induction false} PrimitiveRoundTrips(c: Numerals, flag: bool, n: real, text: string, t: JsonType)
    ensures CoercePrimitive(c, CoercePrimitive(c, BoolValue(flag), StringType), BooleanType) == BoolValue(flag)
    ensures CoercePrimitive(c, CoercePrimitive(c, BoolValue(flag), NumberType), BooleanType) == BoolValue(flag)
    ensures CoercePrimitive(c, CoercePrimitive(c, BoolValue(flag), IntegerType), BooleanType) == BoolValue(flag)
    ensures n == 0.0 || n == 1.0 ==>
              CoercePrimitive(c, CoercePrimitive(c, NumberValue(n), BooleanType), NumberType) == NumberValue(n)
    ensures text == "true" || text == "false" ==>
              CoercePrimitive(c, CoercePrimitive(c, TextValue(text), BooleanType), StringType) == TextValue(text)
    ensures CoercePrimitive(c, CoercePrimitive(c, NullValue, t), NullType) == NullValue
    ensures c.parse(c.show(n)) == Some(n) ==>
              CoercePrimitive(c, CoercePrimitive(c, NumberValue(n), StringType), NumberType) == NumberValue(n)
    ensures c.parse(text).Some? ==> CoercePrimitive(c, TextValue(text), NumberType) == NumberValue(c.parse(text).value)
    ensures CoercePrimitive(c, TextValue(text), IntegerType) != TextValue(text) <==>
              c.parse(text).Some? && IsInteger(c.parse(text).value)
  {
    assert t.NullType? || t.ArrayType? || t.ObjectType? ==> CoercePrimitive(c, NullValue, t) == NullValue;
  }

  /** The first type, from the one at `i`, that changes the value decides. */
  function FirstChange(c: Numerals, v: Value, types: seq<JsonType>, i: nat): Value
    requires i <= |types|
    decreases |types| - i
  {
    if i == |types| then v
    else if CoercePrimitive(c, v, types[i]) != v then CoercePrimitive(c, v, types[i])
    else FirstChange(c, v, types, i + 1)
  }

  function CoerceType(c: Numerals, v: Value, types: seq<JsonType>): Value {
    if |types| > 1 && MatchesSome(v, types) then v else FirstChange(c, v, types, 0)
  }

  lemma {:induction false} FirstChangeSettles(c: Numerals, v: Value, types: seq<JsonType>, i: nat)
    requires i <= |types|
    ensures var w := FirstChange(c, v, types, i);
            w == v || (exists k :: i <= k < |types| && MatchesType(w, types[k]))
    ensures (forall k :: i <= k < |types| ==> CoercePrimitive(c, v, types[k]) == v) <==> FirstChange(c, v, types, i) == v
    decreases |types| - i
  {
    if i < |types| {
      PrimitiveSettles(c, v, types[i]);
      FirstChangeSettles(c, v, types, i + 1);
    }
  }

  /** Coercing to a type list is conservative, settles in one go and leaves containers alone. */
  lemma {:induction false} TypeSettles(c: Numerals, v: Value, types: seq<JsonType>)
    ensures types != [] && MatchesSome(v, types) ==> CoerceType(c, v, types) == v
    ensures CoerceType(c, CoerceType(c, v, types), types) == CoerceType(c, v, types)
    ensures v.ListValue? || v.ObjectValue? ==> CoerceType(c, v, types) == v
  {
    var w := CoerceType(c, v, types);
    FirstChangeSettles(c, v, types, 0);
    FirstChangeSettles(c, w, types, 0);
    forall k | 0 <= k < |types|
      ensures v.ListValue? || v.ObjectValue? ==> CoercePrimitive(c, v, types[k]) == v
      ensures |types| == 1 && MatchesSome(v, types) ==> CoercePrimitive(c, v, types[k]) == v
      ensures |types| == 1 && MatchesSome(w, types) ==> CoercePrimitive(c, w, types[k]) == w
    {
      PrimitiveSettles(c, v, types[k]);
      PrimitiveSettles(c, w, types[k]);
    }
  }

  /** The type at `k` is the first that changes the value. */
  predicate ChangesFirst(c: Numerals, v: Value, types: seq<JsonType>, k: nat)
    requires k < |types|
  {
    CoercePrimitive(c, v, types[k]) != v && forall j :: 0 <= j < k ==> CoercePrimitive(c, v, types[j]) == v
  }

  /** Coercion to a type list reaches a listed type exactly if the value has one or some listed type can
      change it; the first such type decides. */
  lemma {:induction false} TypeReached(c: Numerals, v: Value, types: seq<JsonType>)
    ensures MatchesSome(CoerceType(c, v, types), types) <==>
            MatchesSome(v, types) || exists k :: 0 <= k < |types| && CoercePrimitive(c, v, types[k]) != v
    ensures !MatchesSome(v, types) ==>
              forall k :: 0 <= k < |types| && ChangesFirst(c, v, types, k) ==>
                CoerceType(c, v, types) == CoercePrimitive(c, v, types[k])
  {
    TypeSettles(c, v, types);
    if !MatchesSome(v, types) {
      FirstChangeSettles(c, v, types, 0);
      forall k | 0 <= k < |types| && ChangesFirst(c, v, types, k)
        ensures CoerceType(c, v, types) == CoercePrimitive(c, v, types[k])
      {
        FirstDecides(c, v, types, 0, k);
      }
    }
  }

  lemma {:induction false} FirstDecides(c: Numerals, v: Value, types: seq<JsonType>, i: nat, k: nat)
    requires i <= k < |types| && CoercePrimitive(c, v, types[k]) != v
    requires forall j :: i <= j < k ==> CoercePrimitive(c, v, types[j]) == v
    ensures FirstChange(c, v, types, i) == CoercePrimitive(c, v, types[k])
    decreases k - i
  {
    if i < k {
      FirstDecides(c, v, types, i + 1, k);
    }
  }

  // ---------------------------------------------------------------- a value against a schema

  function Alternatives(s: CompiledSchema, one: bool): seq<CompiledSchema> {
    if one then s.oneOf else s.anyOf
  }

  /** `coerce_value`. */
  ghost function Coerced(c: Numerals, o: Oracle, v: Value, s: CompiledSchema): Value
    decreases s, 2
  {
    var conjoined := CoerceAll(c, o, v, s, |s.allOf|);
    var any := CoerceUnion(c, o, conjoined, s, false, 0);
    var one := CoerceUnion(c, o, any, s, true, 0);
    CoerceParts(c, o, CoerceType(c, one, s.types), s)
  }

  ghost function CoerceAll(c: Numerals, o: Oracle, v: Value, s: CompiledSchema, n: nat): Value
    requires n <= |s.allOf|
    decreases s, 1, n
  {
    if n == 0 then v else Coerced(c, o, CoerceAll(c, o, v, s, n - 1), s.allOf[n - 1])
  }

  /** `coerce_with_union`: the first alternative that the coerced value satisfies. */
  ghost function CoerceUnion(c: Numerals, o: Oracle, v: Value, s: CompiledSchema, one: bool, i: nat): Value
    requires i <= |Alternatives(s, one)|
    decreases s, 1, |Alternatives(s, one)| - i
  {
    if i == |Alternatives(s, one)| then v
    else
      var alternative := Alternatives(s, one)[i];
      var candidate := Coerced(c, o, v, alternative);
      if Satisfies(o, candidate, alternative) then candidate else CoerceUnion(c, o, v, s, one, i + 1)
  }

  ghost function CoerceParts(c: Numerals, o: Oracle, v: Value, s: CompiledSchema): Value
    decreases s, 1
  {
    if v.ObjectValue? && ObjectType in s.types then
      ObjectValue(CoerceExtras(c, o, CoerceProperties(c, o, v.members, s, |s.properties|), s))
    else if v.ListValue? && ArrayType in s.types then
      ListValue(CoerceItems(c, o, v.items, s))
    else v
  }

  function PutValue(members: seq<Member>, i: nat, v: Value): seq<Member>
    requires i < |members|
  {
    members[i := Member(members[i].name, v)]
  }

  ghost function CoerceProperties(c: Numerals, o: Oracle, members: seq<Member>, s: CompiledSchema, n: nat): seq<Member>
    requires n <= |s.properties|
    decreases s, 0, n
  {
    if n == 0 then members
    else
      var done := CoerceProperties(c, o, members, s, n - 1);
      var p := s.properties[n - 1];
      var at := Find(done, p.name);
      if at < |done| then PutValue(done, at, Coerced(c, o, done[at].value, p.schema)) else done
  }

  ghost function CoerceExtra(c: Numerals, o: Oracle, m: Member, s: CompiledSchema): Member
    decreases s, 0, 0
  {
    if s.additionalProperties.Must? && !Declares(s.properties, m.name)
    then Member(m.name, Coerced(c, o, m.value, s.additionalProperties.schema))
    else m
  }

  ghost function CoerceExtras(c: Numerals, o: Oracle, members: seq<Member>, s: CompiledSchema): seq<Member>
    decreases s, 0, 1
  {
    seq(|members|, i requires 0 <= i < |members| => CoerceExtra(c, o, members[i], s))
  }

  ghost function CoerceItem(c: Numerals, o: Oracle, v: Value, s: CompiledSchema, i: nat): Value
    decreases s, 0, 0
  {
    match s.items
    case AnyItems => v
    case EachItem(each) => Coerced(c, o, v, each)
    case Tuple(schemas) => if i < |schemas| then Coerced(c, o, v, schemas[i]) else v
  }

  ghost function CoerceItems(c: Numerals, o: Oracle, items: seq<Value>, s: CompiledSchema): seq<Value>
    decreases s, 0, 1
  {
    seq(|items|, i requires 0 <= i < |items| => CoerceItem(c, o, items[i], s, i))
  }

  // ---------------------------------------------------------------- conservative

  /** No anyOf and no oneOf at any depth. */
  ghost predicate NoUnion(s: CompiledSchema)
    decreases s
  {
    && s.anyOf == [] && s.oneOf == []
    && (forall i :: 0 <= i < |s.allOf| ==> NoUnion(s.allOf[i]))
    && (forall i :: 0 <= i < |s.properties| ==> NoUnion(s.properties[i].schema))
    && (s.additionalProperties.Must? ==> NoUnion(s.additionalProperties.schema))
    && (s.items.EachItem? ==> NoUnion(s.items.schema))
    && (s.items.Tuple? ==> forall i :: 0 <= i < |s.items.schemas| ==> NoUnion(s.items.schemas[i]))
  }

  /** A value that already satisfies a schema without unions is not changed. */
  lemma {:induction false} CoercionConservative(c: Numerals, o: Oracle, v: Value, s: CompiledSchema)
    requires NoUnion(s) && Satisfies(o, v, s)
    ensures Coerced(c, o, v, s) == v
    decreases s, 2
  {
    AllConservative(c, o, v, s, |s.allOf|);
    TypeSettles(c, v, s.types);
    assert CoerceType(c, v, s.types) == v;
    PartsConservative(c, o, v, s);
  }

  lemma {:induction false} AllConservative(c: Numerals, o: Oracle, v: Value, s: CompiledSchema, n: nat)
    requires NoUnion(s) && Satisfies(o, v, s) && n <= |s.allOf|
    ensures CoerceAll(c, o, v, s, n) == v
    decreases s, 1, n
  {
    if n > 0 {
      AllConservative(c, o, v, s, n - 1);
      CoercionConservative(c, o, v, s.allOf[n - 1]);
    }
  }

  lemma {:induction false} PartsConservative(c: Numerals, o: Oracle, v: Value, s: CompiledSchema)
    requires NoUnion(s) && Satisfies(o, v, s)
    ensures CoerceParts(c, o, v, s) == v
    decreases s, 1
  {
    if v.ObjectValue? {
      assert ObjectOk(o, v.members, s);
      PropertiesConservative(c, o, v.members, s, |s.properties|);
      forall i | 0 <= i < |v.members| ensures CoerceExtra(c, o, v.members[i], s) == v.members[i] {
        if s.additionalProperties.Must? && !Declares(s.properties, v.members[i].name) {
          assert AdditionalOk(o, v.members[i].value, s.additionalProperties);
          CoercionConservative(c, o, v.members[i].value, s.additionalProperties.schema);
        }
      }
      assert CoerceExtras(c, o, v.members, s) == v.members;
    } else if v.ListValue? {
      assert ListOk(o, v.items, s);
      ItemsConservative(c, o, v.items, s);
    }
  }

  lemma {:induction false} PropertiesConservative(c: Numerals, o: Oracle, members: seq<Member>, s: CompiledSchema, n: nat)
    requires NoUnion(s) && ObjectOk(o, members, s) && n <= |s.properties|
    ensures CoerceProperties(c, o, members, s, n) == members
    decreases s, 0, n
  {
    if n > 0 {
      PropertiesConservative(c, o, members, s, n - 1);
      var p := s.properties[n - 1];
      if Has(members, p.name) {
        CoercionConservative(c, o, members[Find(members, p.name)].value, p.schema);
      }
    }
  }

  lemma {:induction false} ItemsConservative(c: Numerals, o: Oracle, items: seq<Value>, s: CompiledSchema)
    requires NoUnion(s) && ItemsOk(o, items, s)
    ensures CoerceItems(c, o, items, s) == items
    decreases s, 0
  {
    forall i | 0 <= i < |items| ensures CoerceItem(c, o, items[i], s, i) == items[i] {
      match s.items {
        case AnyItems =>
        case EachItem(each) => CoercionConservative(c, o, items[i], each);
        case Tuple(schemas) => if i < |schemas| { CoercionConservative(c, o, items[i], schemas[i]); }
      }
    }
  }

  // ---------------------------------------------------------------- idempotent

  /** Property names are the keys of a map: no name is declared twice. */
  ghost predicate Keyed(properties: seq<Property>) {
    forall i, j :: 0 <= i < j < |properties| ==> properties[i].name != properties[j].name
  }

  /** No allOf, anyOf or oneOf at any depth, and properties held in a map. */
  ghost predicate Plain(s: CompiledSchema)
    decreases s
  {
    && s.allOf == [] && s.anyOf == [] && s.oneOf == []
    && Keyed(s.properties)
    && (forall i :: 0 <= i < |s.properties| ==> Plain(s.properties[i].schema))
    && (s.additionalProperties.Must? ==> Plain(s.additionalProperties.schema))
    && (s.items.EachItem? ==> Plain(s.items.schema))
    && (s.items.Tuple? ==> forall i :: 0 <= i < |s.items.schemas| ==> Plain(s.items.schemas[i]))
  }

  predicate SameNames(a: seq<Member>, b: seq<Member>) {
    |a| == |b| && forall i :: 0 <= i < |a| ==> a[i].name == b[i].name
  }

  lemma {:induction false} FindByNames(a: seq<Member>, b: seq<Member>, name: string)
    requires SameNames(a, b)
    ensures Find(a, name) == Find(b, name)
  {
    var i, j := Find(a, name), Find(b, name);
    assert i < |a| ==> b[i].name == name;
    assert j < |b| ==> a[j].name == name;
  }

  lemma {:induction false} PropertiesKeepNames(c: Numerals, o: Oracle, members: seq<Member>, s: CompiledSchema, n: nat)
    requires n <= |s.properties|
    ensures SameNames(members, CoerceProperties(c, o, members, s, n))
    decreases n
  {
    if n > 0 { PropertiesKeepNames(c, o, members, s, n - 1); }
  }

  /** Coercing one more property changes at most the member it names. */
  lemma {:induction false} PropertyStep(c: Numerals, o: Oracle, members: seq<Member>, s: CompiledSchema, n: nat, i: nat)
    requires n < |s.properties| && i < |members|
    ensures var done, next := CoerceProperties(c, o, members, s, n), CoerceProperties(c, o, members, s, n + 1);
            && |done| == |next| == |members|
            && (Find(members, s.properties[n].name) != i ==> next[i] == done[i])
            && (Find(members, s.properties[n].name) == i ==>
                  next[i] == Member(done[i].name, Coerced(c, o, done[i].value, s.properties[n].schema)))
  {
    PropertiesKeepNames(c, o, members, s, n);
    FindByNames(members, CoerceProperties(c, o, members, s, n), s.properties[n].name);
  }

  /** None of the properties from `m` to `n` names the member at `i`. */
  predicate Unnamed(members: seq<Member>, s: CompiledSchema, m: nat, n: nat, i: nat)
    requires n <= |s.properties|
  {
    forall k :: m <= k < n ==> Find(members, s.properties[k].name) != i
  }

  /** A member that no property names is left alone. */
  lemma {:induction false} PropertyMiss(c: Numerals, o: Oracle, members: seq<Member>, s: CompiledSchema, n: nat, i: nat)
    requires n <= |s.properties| && i < |members| && Unnamed(members, s, 0, n, i)
    ensures |CoerceProperties(c, o, members, s, n)| == |members|
    ensures CoerceProperties(c, o, members, s, n)[i] == members[i]
  {
    PropertiesFrom(c, o, members, s, 0, n, i);
  }

  /** Nothing happens to a member over properties that do not name it. */
  lemma {:induction false} PropertiesFrom(c: Numerals, o: Oracle, members: seq<Member>, s: CompiledSchema, m: nat, n: nat, i: nat)
    requires m <= n <= |s.properties| && i < |members|
    requires Unnamed(members, s, m, n, i)
    ensures SameAt(c, o, members, s, m, n, i)
  {
    SameAtStart(c, o, members, s, m, i);
    for k := m to n
      invariant SameAt(c, o, members, s, m, k, i)
    {
      SameAtStep(c, o, members, s, m, k, i);
    }
  }

  ghost predicate SameAt(c: Numerals, o: Oracle, members: seq<Member>, s: CompiledSchema, m: nat, n: nat, i: nat)
    requires m <= |s.properties| && n <= |s.properties| && i < |members|
  {
    var a, b := CoerceProperties(c, o, members, s, m), CoerceProperties(c, o, members, s, n);
    |a| == |b| == |members| && b[i] == a[i]
  }

  lemma {:induction false} SameAtStart(c: Numerals, o: Oracle, members: seq<Member>, s: CompiledSchema, m: nat, i: nat)
    requires m <= |s.properties| && i < |members|
    ensures SameAt(c, o, members, s, m, m, i)
  {
    PropertiesKeepNames(c, o, members, s, m);
  }

  lemma {:induction false} SameAtStep(c: Numerals, o: Oracle, members: seq<Member>, s: CompiledSchema, m: nat, k: nat, i: nat)
    requires m <= k < |s.properties| && i < |members|
    requires SameAt(c, o, members, s, m, k, i) && Find(members, s.properties[k].name) != i
    ensures SameAt(c, o, members, s, m, k + 1, i)
  {
    PropertyStep(c, o, members, s, k, i);
  }

  /** A declared member is coerced once, with its own schema. */
  lemma {:induction false} PropertyHit(c: Numerals, o: Oracle, members: seq<Member>, s: CompiledSchema, n: nat, k: nat)
    requires k < n <= |s.properties| && Keyed(s.properties) && Has(members, s.properties[k].name)
    ensures |CoerceProperties(c, o, members, s, n)| == |members|
    ensures var i := Find(members, s.properties[k].name);
            CoerceProperties(c, o, members, s, n)[i] ==
            Member(members[i].name, Coerced(c, o, members[i].value, s.properties[k].schema))
  {
    var i := Find(members, s.properties[k].name);
    forall m | 0 <= m < n && m != k ensures Find(members, s.properties[m].name) != i {
      assert s.properties[m].name != s.properties[k].name;
    }
    assert Unnamed(members, s, 0, k, i) && Unnamed(members, s, k + 1, n, i);
    PropertyMiss(c, o, members, s, k, i);
    PropertyStep(c, o, members, s, k, i);
    PropertiesFrom(c, o, members, s, k + 1, n, i);
  }

  lemma {:induction false} MemberAt(c: Numerals, o: Oracle, members: seq<Member>, s: CompiledSchema, i: nat)
    requires i < |members|
    ensures var declared := CoerceProperties(c, o, members, s, |s.properties|);
            && |declared| == |members| == |CoerceMembers(c, o, members, s)|
            && CoerceMembers(c, o, members, s)[i] == CoerceExtra(c, o, declared[i], s)
  {
    PropertiesKeepNames(c, o, members, s, |s.properties|);
  }

  lemma {:induction false} MembersKeepNames(c: Numerals, o: Oracle, members: seq<Member>, s: CompiledSchema)
    ensures SameNames(members, CoerceMembers(c, o, members, s))
  {
    PropertiesKeepNames(c, o, members, s, |s.properties|);
    forall i | 0 <= i < |members| ensures members[i].name == CoerceMembers(c, o, members, s)[i].name {
      MemberAt(c, o, members, s, i);
    }
  }

  /** Coercing twice is coercing once. */
  lemma {:induction false} CoercionIdempotent(c: Numerals, o: Oracle, v: Value, s: CompiledSchema)
    requires Plain(s)
    ensures Coerced(c, o, Coerced(c, o, v, s), s) == Coerced(c, o, v, s)
    decreases s, 2
  {
    var typed := CoerceType(c, v, s.types);
    var w := CoerceParts(c, o, typed, s);
    assert Coerced(c, o, v, s) == w;
    TypeSettles(c, v, s.types);
    TypeSettles(c, w, s.types);
    assert CoerceType(c, w, s.types) == w;
    PartsIdempotent(c, o, typed, s);
  }

  lemma {:induction false} PartsIdempotent(c: Numerals, o: Oracle, v: Value, s: CompiledSchema)
    requires Plain(s)
    ensures CoerceParts(c, o, CoerceParts(c, o, v, s), s) == CoerceParts(c, o, v, s)
    decreases s, 1
  {
    if v.ObjectValue? && ObjectType in s.types {
      MembersIdempotent(c, o, v.members, s);
    } else if v.ListValue? && ArrayType in s.types {
      var once := CoerceItems(c, o, v.items, s);
      forall i | 0 <= i < |v.items| ensures CoerceItem(c, o, once[i], s, i) == once[i] {
        assert once[i] == CoerceItem(c, o, v.items[i], s, i);
        match s.items {
          case AnyItems =>
          case EachItem(each) => CoercionIdempotent(c, o, v.items[i], each);
          case Tuple(schemas) => if i < |schemas| { CoercionIdempotent(c, o, v.items[i], schemas[i]); }
        }
      }
      assert CoerceItems(c, o, once, s) == once;
    }
  }

  ghost function CoerceMembers(c: Numerals, o: Oracle, members: seq<Member>, s: CompiledSchema): seq<Member> {
    CoerceExtras(c, o, CoerceProperties(c, o, members, s, |s.properties|), s)
  }

  lemma {:induction false} MembersIdempotent(c: Numerals, o: Oracle, members: seq<Member>, s: CompiledSchema)
    requires Plain(s)
    ensures CoerceMembers(c, o, CoerceMembers(c, o, members, s), s) == CoerceMembers(c, o, members, s)
    decreases s, 0
  {
    var once := CoerceMembers(c, o, members, s);
    var twice := CoerceMembers(c, o, once, s);
    MembersKeepNames(c, o, members, s);
    MembersKeepNames(c, o, once, s);
    forall i | 0 <= i < |members| ensures twice[i] == once[i] {
      MemberIdempotent(c, o, members, s, i);
    }
  }

  lemma {:induction false} MemberIdempotent(c: Numerals, o: Oracle, members: seq<Member>, s: CompiledSchema, i: nat)
    requires Plain(s) && i < |members|
    ensures var once := CoerceMembers(c, o, members, s);
            var twice := CoerceMembers(c, o, once, s);
            |once| == |twice| == |members| && twice[i] == once[i]
    decreases s, 0, i
  {
    var n := |s.properties|;
    var once := CoerceMembers(c, o, members, s);
    MembersKeepNames(c, o, members, s);
    MembersKeepNames(c, o, once, s);
    MemberAt(c, o, members, s, i);
    MemberAt(c, o, once, s, i);
    forall k | 0 <= k < n ensures Find(once, s.properties[k].name) == Find(members, s.properties[k].name) {
      FindByNames(members, once, s.properties[k].name);
    }
    if k :| 0 <= k < n && Find(members, s.properties[k].name) == i {
      PropertyHit(c, o, members, s, n, k);
      PropertyHit(c, o, once, s, n, k);
      CoercionIdempotent(c, o, members[i].value, s.properties[k].schema);
    } else {
      assert Unnamed(members, s, 0, n, i) && Unnamed(once, s, 0, n, i);
      PropertyMiss(c, o, members, s, n, i);
      PropertyMiss(c, o, once, s, n, i);
      if s.additionalProperties.Must? && !Declares(s.properties, members[i].name) {
        CoercionIdempotent(c, o, members[i].value, s.additionalProperties.schema);
      }
    }
  }

  // ---------------------------------------------------------------- parts

  /** A schema without combinations coerces an object member by member: a declared member by its own
      schema, another one by the schema for additional members, if there is one. */
  lemma {:induction false} MembersCoerced(c: Numerals, o: Oracle, members: seq<Member>, s: CompiledSchema, i: nat)
    requires i < |members| && ObjectType in s.types && Keyed(s.properties)
    requires s.allOf == [] && s.anyOf == [] && s.oneOf == []
    ensures var r := Coerced(c, o, ObjectValue(members), s);
            && r.ObjectValue? && |r.members| == |members| && r.members[i].name == members[i].name
            && (forall k :: 0 <= k < |s.properties| && Find(members, s.properties[k].name) == i ==>
                  r.members[i].value == Coerced(c, o, members[i].value, s.properties[k].schema))
            && (!Declares(s.properties, members[i].name) ==>
                  r.members[i].value == if s.additionalProperties.Must?
                                        then Coerced(c, o, members[i].value, s.additionalProperties.schema)
                                        else members[i].value)
  {
    var n := |s.properties|;
    TypeSettles(c, ObjectValue(members), s.types);
    MemberAt(c, o, members, s, i);
    MembersKeepNames(c, o, members, s);
    forall k | 0 <= k < n && Find(members, s.properties[k].name) == i
      ensures CoerceMembers(c, o, members, s)[i].value == Coerced(c, o, members[i].value, s.properties[k].schema)
    {
      PropertyHit(c, o, members, s, n, k);
    }
    if !Declares(s.properties, members[i].name) {
      PropertyMiss(c, o, members, s, n, i);
    }
  }

  /** And a list item by item: each by the schema that applies to it. */
  lemma {:induction false} ItemsCoerced(c: Numerals, o: Oracle, items: seq<Value>, s: CompiledSchema, i: nat)
    requires i < |items| && ArrayType in s.types
    requires s.allOf == [] && s.anyOf == [] && s.oneOf == []
    ensures var r := Coerced(c, o, ListValue(items), s);
            && r.ListValue? && |r.items| == |items|
            && (s.items.EachItem? ==> r.items[i] == Coerced(c, o, items[i], s.items.schema))
            && (s.items.Tuple? && i < |s.items.schemas| ==> r.items[i] == Coerced(c, o, items[i], s.items.schemas[i]))
            && (s.items.AnyItems? || (s.items.Tuple? && i >= |s.items.schemas|) ==> r.items[i] == items[i])
  {
    TypeSettles(c, ListValue(items), s.types);
    assert CoerceItems(c, o, items, s)[i] == CoerceItem(c, o, items[i], s, i);
  }

  // ---------------------------------------------------------------- why the conditions are there

  /** A schema that only lists types. */
  function TypesOnly(types: seq<JsonType>): CompiledSchema {
    CompiledSchema(false, types, None, None, None, None, None, None, [], [], None, None, [], [], Allow,
                   None, None, false, AnyItems, Allow, false, false, [], [], [])
  }

  /** With a union, a value that validates can be changed: the first alternative that accepts the
      coerced value wins, and 5 becomes text. */
  lemma {:induction false} UnionChangesValid(c: Numerals, o: Oracle)
    ensures var s := TypesOnly([]).(hasAnyOf := true, anyOf := [TypesOnly([StringType]), TypesOnly([NumberType])]);
            Satisfies(o, NumberValue(5.0), s) && Coerced(c, o, NumberValue(5.0), s) == TextValue(c.show(5.0))
  {
    var text, number := TypesOnly([StringType]), TypesOnly([NumberType]);
    var s := TypesOnly([]).(hasAnyOf := true, anyOf := [text, number]);
    var v, w := NumberValue(5.0), TextValue(c.show(5.0));
    assert MatchesType(v, number.types[0]) && MatchesType(w, text.types[0]);
    assert Satisfies(o, v, s.anyOf[1]);
    assert Coerced(c, o, v, text) == w by {
      assert FirstChange(c, v, text.types, 0) == w;
    }
    assert Satisfies(o, w, text);
    assert CoerceUnion(c, o, v, s, false, 0) == w;
    assert CoerceUnion(c, o, w, s, true, 0) == w;
    assert FirstChange(c, w, [], 0) == w;
  }

  /** With allOf, coercing twice can differ from coercing once: empty text becomes null, and null
      becomes zero. */
  lemma {:induction false} AllOfNotIdempotent(c: Numerals, o: Oracle)
    requires c.parse("").None?
    ensures var s := TypesOnly([]).(allOf := [TypesOnly([BooleanType, StringType]), TypesOnly([NumberType, NullType])]);
            && Coerced(c, o, TextValue(""), s) == NullValue
            && Coerced(c, o, NullValue, s) == NumberValue(0.0)
  {
    var first, second := TypesOnly([BooleanType, StringType]), TypesOnly([NumberType, NullType]);
    var s := TypesOnly([]).(allOf := [first, second]);
    TypesOnlyCoerces(c, o, TextValue(""), first.types);
    TypesOnlyCoerces(c, o, TextValue(""), second.types);
    TypesOnlyCoerces(c, o, NullValue, first.types);
    TypesOnlyCoerces(c, o, BoolValue(false), second.types);
    assert MatchesType(TextValue(""), first.types[1]);
    assert CoerceType(c, TextValue(""), first.types) == TextValue("");
    assert CoerceType(c, TextValue(""), second.types) == NullValue;
    assert CoerceType(c, NullValue, first.types) == BoolValue(false);
    assert CoerceType(c, BoolValue(false), second.types) == NumberValue(0.0);
    AllOfTwo(c, o, TextValue(""), s);
    AllOfTwo(c, o, NullValue, s);
  }

  lemma {:induction false} TypesOnlyCoerces(c: Numerals, o: Oracle, v: Value, types: seq<JsonType>)
    requires !v.ListValue? && !v.ObjectValue?
    requires ArrayType !in types && ObjectType !in types
    ensures Coerced(c, o, v, TypesOnly(types)) == CoerceType(c, v, types)
  {
    var s := TypesOnly(types);
    assert CoerceAll(c, o, v, s, 0) == v;
    assert CoerceUnion(c, o, v, s, false, 0) == v && CoerceUnion(c, o, v, s, true, 0) == v;
  }

  lemma {:induction false} AllOfTwo(c: Numerals, o: Oracle, v: Value, s: CompiledSchema)
    requires |s.allOf| == 2 && s == TypesOnly([]).(allOf := s.allOf)
    ensures Coerced(c, o, v, s) == Coerced(c, o, Coerced(c, o, v, s.allOf[0]), s.allOf[1])
  {
    assert CoerceAll(c, o, v, s, 0) == v;
    assert CoerceAll(c, o, v, s, 1) == Coerced(c, o, v, s.allOf[0]);
  }

  // ---------------------------------------------------------------- the coercer

  method CoerceWithUnion(c: Numerals, o: Oracle, v: Value, s: CompiledSchema, one: bool) returns (w: Value)
    ensures w == CoerceUnion(c, o, v, s, one, 0)
    decreases s, 1
  {
    var alternatives := Alternatives(s, one);
    var i := 0;
    while i < |alternatives|
      invariant i <= |alternatives|
      invariant CoerceUnion(c, o, v, s, one, 0) == CoerceUnion(c, o, v, s, one, i)
    {
      var candidate := CoerceValue(c, o, v, alternatives[i]);
      var ok := Validator.ValueSatisfies(o, candidate, alternatives[i]);
      if ok {
        return candidate;
      }
      i := i + 1;
    }
    return v;
  }

  method ChangeType(c: Numerals, v: Value, types: seq<JsonType>) returns (w: Value)
    ensures w == CoerceType(c, v, types)
  {
    var typed := Validator.MatchTypes(v, types);
    if |types| > 1 && typed {
      return v;
    }
    for i := 0 to |types|
      invariant FirstChange(c, v, types, 0) == FirstChange(c, v, types, i)
    {
      var candidate := CoercePrimitive(c, v, types[i]);
      if candidate != v {
        return candidate;
      }
    }
    return v;
  }

  method CoerceValue(c: Numerals, o: Oracle, v: Value, s: CompiledSchema) returns (w: Value)
    ensures w == Coerced(c, o, v, s)
    decreases s, 2
  {
    w := v;
    for i := 0 to |s.allOf|
      invariant w == CoerceAll(c, o, v, s, i)
    {
      w := CoerceValue(c, o, w, s.allOf[i]);
    }
    w := CoerceWithUnion(c, o, w, s, false);
    w := CoerceWithUnion(c, o, w, s, true);
    w := ChangeType(c, w, s.types);
    if w.ObjectValue? && ObjectType in s.types {
      var members := CoerceObject(c, o, w.members, s);
      w := ObjectValue(members);
    } else if w.ListValue? && ArrayType in s.types {
      var items := CoerceList(c, o, w.items, s);
      w := ListValue(items);
    }
  }

  method CoerceObject(c: Numerals, o: Oracle, members: seq<Member>, s: CompiledSchema) returns (out: seq<Member>)
    ensures out == CoerceMembers(c, o, members, s)
    decreases s, 1
  {
    out := members;
    for i := 0 to |s.properties|
      invariant out == CoerceProperties(c, o, members, s, i)
    {
      var at := Find(out, s.properties[i].name);
      if at < |out| {
        var value := CoerceValue(c, o, out[at].value, s.properties[i].schema);
        out := PutValue(out, at, value);
      }
    }
    ghost var declared := out;
    if s.additionalProperties.Must? {
      for i := 0 to |out|
        invariant |out| == |declared|
        invariant forall k :: 0 <= k < i ==> out[k] == CoerceExtra(c, o, declared[k], s)
        invariant forall k :: i <= k < |out| ==> out[k] == declared[k]
      {
        if !Declares(s.properties, out[i].name) {
          var value := CoerceValue(c, o, out[i].value, s.additionalProperties.schema);
          out := PutValue(out, i, value);
        }
      }
    }
    assert out == CoerceExtras(c, o, declared, s);
  }

  method CoerceList(c: Numerals, o: Oracle, items: seq<Value>, s: CompiledSchema) returns (out: seq<Value>)
    ensures out == CoerceItems(c, o, items, s)
    decreases s, 1
  {
    out := items;
    if s.items.EachItem? {
      for i := 0 to |items|
        invariant |out| == |items|
        invariant forall k :: 0 <= k < i ==> out[k] == CoerceItem(c, o, items[k], s, k)
        invariant forall k :: i <= k < |items| ==> out[k] == items[k]
      {
        var value := CoerceValue(c, o, out[i], s.items.schema);
        out := out[i := value];
      }
    } else if s.items.Tuple? {
      var count := if |items| < |s.items.schemas| then |items| else |s.items.schemas|;
      for i := 0 to count
        invariant |out| == |items|
        invariant forall k :: 0 <= k < i ==> out[k] == CoerceItem(c, o, items[k], s, k)
        invariant forall k :: i <= k < |items| ==> out[k] == items[k]
      {
        var value := CoerceValue(c, o, out[i], s.items.schemas[i]);
        out := out[i := value];
      }
    }
    assert out == CoerceItems(c, o, items, s);
  }
}
