/** The validator: it appends failures to a list of at most eight. The list it leaves is proved to be
    the first eight of what was there and the complete list of failures, and that complete list is
    empty exactly when the value satisfies the schema. */
module Validator {
  import opened Values
  import opened Schema

  const MAX_FAILURES: nat := 8

  datatype Step = Field(name: string) | At(index: nat)

  type Location = seq<Step>

  datatype Failure = Failure(location: Location, reason: string)

  // ---------------------------------------------------------------- the cap

  function Room(before: seq<Failure>): nat {
    if |before| >= MAX_FAILURES then 0 else MAX_FAILURES - |before|
  }

  /** As many of `more` as the cap admits after `before`. */
  function Capped(before: seq<Failure>, more: seq<Failure>): seq<Failure> {
    before + if |more| <= Room(before) then more else more[..Room(before)]
  }

  /** Adding twice is adding both at once. */
  lemma {:induction false} CappedTwice(a: seq<Failure>, x: seq<Failure>, y: seq<Failure>)
    ensures Capped(Capped(a, x), y) == Capped(a, x + y)
  {
    if |x| <= Room(a) {
      assert Capped(a, x) == a + x;
      assert (a + x) + y == a + (x + y);
      if |x| + |y| > Room(a) {
        assert (x + y)[..Room(a)] == x + y[..Room(a) - |x|];
      }
    } else {
      assert Room(Capped(a, x)) == 0;
      assert (x + y)[..Room(a)] == x[..Room(a)];
    }
  }

  /** A check turned the list `before` into `after`: nothing was removed, the cap was kept, and a
      list with room for a failure grew exactly when the check did not hold. */
  ghost predicate Reports(before: seq<Failure>, after: seq<Failure>, holds: bool) {
    && before <= after
    && (|before| <= MAX_FAILURES ==> |after| <= MAX_FAILURES)
    && (|before| < MAX_FAILURES ==> (after == before <==> holds))
    && (|before| >= MAX_FAILURES ==> after == before)
  }

  lemma {:induction false} CappedReports(before: seq<Failure>, more: seq<Failure>)
    ensures Reports(before, Capped(before, more), more == [])
  {
  }

  /** Lists of failures in a row. */
  function Joined(parts: seq<seq<Failure>>): seq<Failure> {
    if parts == [] then [] else Joined(parts[..|parts| - 1]) + parts[|parts| - 1]
  }

  lemma {:induction false} JoinedEmpty(parts: seq<seq<Failure>>)
    ensures Joined(parts) == [] <==> forall i :: 0 <= i < |parts| ==> parts[i] == []
  {
    if parts != [] {
      JoinedEmpty(parts[..|parts| - 1]);
    }
  }

  /** One more list was added. */
  lemma {:induction false} NextPart(start: seq<Failure>, parts: seq<seq<Failure>>, i: nat, before: seq<Failure>, after: seq<Failure>)
    requires i < |parts| && before == Capped(start, Joined(parts[..i])) && after == Capped(before, parts[i])
    ensures after == Capped(start, Joined(parts[..i + 1]))
  {
    CappedTwice(start, Joined(parts[..i]), parts[i]);
    assert parts[..i + 1][..i] == parts[..i];
  }

  lemma {:induction false} AllParts(start: seq<Failure>, parts: seq<seq<Failure>>)
    ensures Capped(start, Joined(parts[..0])) == start && parts[..|parts|] == parts
  {
  }

  function Complain(holds: bool, location: Location, reason: string): seq<Failure> {
    if holds then [] else [Failure(location, reason)]
  }

  /** `add_failure`, for a check that may hold. */
  method Add(holds: bool, location: Location, reason: string, failures: seq<Failure>) returns (after: seq<Failure>)
    ensures after == Capped(failures, Complain(holds, location, reason))
  {
    after := failures;
    if !holds && |failures| < MAX_FAILURES {
      after := failures + [Failure(location, reason)];
    }
  }

  /** The same after `sofar` was reported since `start`. */
  method Check(holds: bool, location: Location, reason: string, failures: seq<Failure>,
               ghost start: seq<Failure>, ghost sofar: seq<Failure>)
    returns (after: seq<Failure>)
    requires failures == Capped(start, sofar)
    ensures after == Capped(start, sofar + Complain(holds, location, reason))
  {
    CappedTwice(start, sofar, Complain(holds, location, reason));
    after := Add(holds, location, reason, failures);
  }

  // ---------------------------------------------------------------- general and scalar assertions

  function Complaint(k: Keyword): string {
    match k
    case MultipleOf(_) => "number is not a multipleOf the required value"
    case MinLength(_) => "string is shorter than minLength"
    case MaxLength(_) => "string is longer than maxLength"
    case Pattern(_) => "string does not match the required pattern"
    case Format(_) => "string does not match the required format"
  }

  function KeywordParts(o: Oracle, keywords: seq<Keyword>, v: Value, location: Location): seq<seq<Failure>> {
    seq(|keywords|, i requires 0 <= i < |keywords| => Complain(o(keywords[i], v), location, Complaint(keywords[i])))
  }

  lemma {:induction false} KeywordsIff(o: Oracle, keywords: seq<Keyword>, v: Value, location: Location)
    ensures Joined(KeywordParts(o, keywords, v, location)) == [] <==> AllAccept(o, keywords, v)
  {
    var parts := KeywordParts(o, keywords, v, location);
    JoinedEmpty(parts);
    forall i | 0 <= i < |keywords|
      ensures parts[i] == [] <==> o(keywords[i], v)
    {
    }
  }

  method AcceptAll(o: Oracle, keywords: seq<Keyword>, v: Value, location: Location, failures: seq<Failure>)
    returns (after: seq<Failure>)
    ensures after == Capped(failures, Joined(KeywordParts(o, keywords, v, location)))
  {
    ghost var parts := KeywordParts(o, keywords, v, location);
    AllParts(failures, parts);
    after := failures;
    for i := 0 to |keywords|
      invariant after == Capped(failures, Joined(parts[..i]))
    {
      ghost var before := after;
      after := Add(o(keywords[i], v), location, Complaint(keywords[i]), after);
      NextPart(failures, parts, i, before, after);
    }
  }

  /** `any_of` over the allowed types. */
  method MatchTypes(v: Value, types: seq<JsonType>) returns (found: bool)
    ensures found == MatchesSome(v, types)
  {
    found := false;
    for i := 0 to |types|
      invariant found <==> exists k :: 0 <= k < i && MatchesType(v, types[k])
    {
      found := found || MatchesType(v, types[i]);
    }
  }

  predicate TypeOk(v: Value, s: CompiledSchema) {
    s.types != [] ==> MatchesSome(v, s.types)
  }

  predicate EnumOk(v: Value, s: CompiledSchema) {
    s.enumValues.Some? ==> v in s.enumValues.value
  }

  predicate ConstantOk(v: Value, s: CompiledSchema) {
    s.constant.Some? ==> v == s.constant.value
  }

  /** `none_of` over the allowed values. */
  method Listed(v: Value, values: seq<Value>) returns (found: bool)
    ensures found == (v in values)
  {
    found := false;
    for i := 0 to |values|
      invariant found == (v in values[..i])
    {
      found := found || v == values[i];
      assert values[..i + 1] == values[..i] + [values[i]];
    }
    assert values[..|values|] == values;
  }

  method TypeAllowed(v: Value, s: CompiledSchema) returns (ok: bool)
    ensures ok == TypeOk(v, s)
  {
    ok := s.types == [];
    if !ok {
      ok := MatchTypes(v, s.types);
    }
  }

  method EnumAllowed(v: Value, s: CompiledSchema) returns (ok: bool)
    ensures ok == EnumOk(v, s)
  {
    ok := true;
    if s.enumValues.Some? {
      ok := Listed(v, s.enumValues.value);
    }
  }

  function GeneralFailures(v: Value, s: CompiledSchema, location: Location): seq<Failure> {
    Complain(TypeOk(v, s), location, "value does not match an allowed JSON type")
    + Complain(EnumOk(v, s), location, "value is not one of the allowed enum values")
    + Complain(ConstantOk(v, s), location, "value does not equal the required constant")
  }

  method ValidateGeneral(v: Value, s: CompiledSchema, location: Location, failures: seq<Failure>)
    returns (after: seq<Failure>)
    ensures after == Capped(failures, GeneralFailures(v, s, location))
  {
    var typed := TypeAllowed(v, s);
    var listed := EnumAllowed(v, s);
    ghost var a := Complain(typed, location, "value does not match an allowed JSON type");
    ghost var b := Complain(listed, location, "value is not one of the allowed enum values");
    assert [] + a == a;
    after := Check(typed, location, "value does not match an allowed JSON type", failures, failures, []);
    after := Check(listed, location, "value is not one of the allowed enum values", after, failures, a);
    after := Check(ConstantOk(v, s), location, "value does not equal the required constant", after, failures, a + b);
  }

  function LowerFailures(n: real, s: CompiledSchema, location: Location): seq<Failure> {
    Complain(s.minimum.Some? ==> s.minimum.value <= n, location, "number is below minimum")
    + Complain(s.maximum.Some? ==> n <= s.maximum.value, location, "number is above maximum")
  }

  function ExclusiveFailures(n: real, s: CompiledSchema, location: Location): seq<Failure> {
    Complain(s.exclusiveMinimum.Some? ==> s.exclusiveMinimum.value < n, location, "number is not above exclusiveMinimum")
    + Complain(s.exclusiveMaximum.Some? ==> n < s.exclusiveMaximum.value, location, "number is not below exclusiveMaximum")
  }

  method ValidateBounds(n: real, s: CompiledSchema, location: Location, failures: seq<Failure>)
    returns (after: seq<Failure>)
    ensures after == Capped(failures, LowerFailures(n, s, location) + ExclusiveFailures(n, s, location))
  {
    var low := s.minimum.Some? ==> s.minimum.value <= n;
    var high := s.maximum.Some? ==> n <= s.maximum.value;
    var above := s.exclusiveMinimum.Some? ==> s.exclusiveMinimum.value < n;
    var below := s.exclusiveMaximum.Some? ==> n < s.exclusiveMaximum.value;
    ghost var a := Complain(low, location, "number is below minimum");
    ghost var b := Complain(above, location, "number is not above exclusiveMinimum");
    assert [] + a == a && [] + b == b;
    var bounded := Check(low, location, "number is below minimum", failures, failures, []);
    bounded := Check(high, location, "number is above maximum", bounded, failures, a);
    after := Check(above, location, "number is not above exclusiveMinimum", bounded, bounded, []);
    after := Check(below, location, "number is not below exclusiveMaximum", after, bounded, b);
    CappedTwice(failures, LowerFailures(n, s, location), ExclusiveFailures(n, s, location));
  }

  function NumberFailures(o: Oracle, v: Value, s: CompiledSchema, location: Location): seq<Failure>
    requires v.NumberValue?
  {
    LowerFailures(v.number, s, location) + ExclusiveFailures(v.number, s, location)
    + Joined(KeywordParts(o, s.numberKeywords, v, location))
  }

  method ValidateNumber(o: Oracle, v: Value, s: CompiledSchema, location: Location, failures: seq<Failure>)
    returns (after: seq<Failure>)
    requires v.NumberValue?
    ensures after == Capped(failures, NumberFailures(o, v, s, location))
  {
    after := ValidateBounds(v.number, s, location, failures);
    after := AcceptAll(o, s.numberKeywords, v, location, after);
    CappedTwice(failures, LowerFailures(v.number, s, location) + ExclusiveFailures(v.number, s, location),
      Joined(KeywordParts(o, s.numberKeywords, v, location)));
  }

  function KindFailures(o: Oracle, v: Value, s: CompiledSchema, location: Location): seq<Failure> {
    if v.NumberValue? then NumberFailures(o, v, s, location)
    else if v.TextValue? then Joined(KeywordParts(o, s.textKeywords, v, location))
    else []
  }

  /** Failures of assertions that do not look inside lists and objects. */
  function ScalarFailures(o: Oracle, v: Value, s: CompiledSchema, location: Location): seq<Failure> {
    GeneralFailures(v, s, location) + KindFailures(o, v, s, location)
  }

  lemma {:induction false} GeneralIff(v: Value, s: CompiledSchema, location: Location)
    ensures GeneralFailures(v, s, location) == [] <==> TypeOk(v, s) && EnumOk(v, s) && ConstantOk(v, s)
  {
  }

  predicate BoundsOk(n: real, s: CompiledSchema) {
    && (s.minimum.Some? ==> s.minimum.value <= n)
    && (s.maximum.Some? ==> n <= s.maximum.value)
    && (s.exclusiveMinimum.Some? ==> s.exclusiveMinimum.value < n)
    && (s.exclusiveMaximum.Some? ==> n < s.exclusiveMaximum.value)
  }

  lemma {:induction false} BoundsIff(n: real, s: CompiledSchema, location: Location)
    ensures LowerFailures(n, s, location) + ExclusiveFailures(n, s, location) == [] <==> BoundsOk(n, s)
  {
  }

  predicate KindOk(o: Oracle, v: Value, s: CompiledSchema) {
    && (v.NumberValue? ==> BoundsOk(v.number, s) && AllAccept(o, s.numberKeywords, v))
    && (v.TextValue? ==> AllAccept(o, s.textKeywords, v))
  }

  lemma {:induction false} KindIff(o: Oracle, v: Value, s: CompiledSchema, location: Location)
    ensures KindFailures(o, v, s, location) == [] <==> KindOk(o, v, s)
  {
    if v.NumberValue? {
      BoundsIff(v.number, s, location);
      KeywordsIff(o, s.numberKeywords, v, location);
    } else if v.TextValue? {
      KeywordsIff(o, s.textKeywords, v, location);
    }
  }

  lemma {:induction false} ScalarIff(o: Oracle, v: Value, s: CompiledSchema, location: Location)
    ensures ScalarFailures(o, v, s, location) == [] <==> ScalarOk(o, v, s)
  {
    GeneralIff(v, s, location);
    KindIff(o, v, s, location);
    assert ScalarOk(o, v, s) <==> TypeOk(v, s) && EnumOk(v, s) && ConstantOk(v, s) && KindOk(o, v, s);
  }

  method ValidateScalars(o: Oracle, v: Value, s: CompiledSchema, location: Location, failures: seq<Failure>)
    returns (after: seq<Failure>)
    ensures after == Capped(failures, ScalarFailures(o, v, s, location))
  {
    after := ValidateGeneral(v, s, location, failures);
    if v.NumberValue? {
      after := ValidateNumber(o, v, s, location, after);
    } else if v.TextValue? {
      after := AcceptAll(o, s.textKeywords, v, location, after);
    }
    CappedTwice(failures, GeneralFailures(v, s, location), KindFailures(o, v, s, location));
  }

  method FindDuplicate(items: seq<Value>) returns (duplicate: bool)
    ensures duplicate == !Distinct(items)
  {
    duplicate := false;
    var left := 0;
    while left < |items| && !duplicate
      invariant left <= |items|
      invariant duplicate ==> !Distinct(items)
      invariant !duplicate ==> forall i, j :: 0 <= i < left && i < j < |items| ==> items[i] != items[j]
      decreases |items| - left
    {
      var right := left + 1;
      while right < |items| && !duplicate
        invariant left < right <= |items|
        invariant duplicate ==> !Distinct(items)
        invariant !duplicate ==> forall j :: left < j < right ==> items[left] != items[j]
      {
        if items[left] == items[right] {
          duplicate := true;
        }
        right := right + 1;
      }
      left := left + 1;
    }
  }

  // ---------------------------------------------------------------- the complete list of failures

  ghost predicate ShapeOk(o: Oracle, v: Value, s: CompiledSchema) {
    && (v.ObjectValue? ==> ObjectOk(o, v.members, s))
    && (v.ListValue? ==> ListOk(o, v.items, s))
  }

  ghost predicate AllOk(o: Oracle, v: Value, s: CompiledSchema, n: nat)
    requires n <= |s.allOf|
  {
    forall i :: 0 <= i < n ==> Satisfies(o, v, s.allOf[i])
  }

  ghost predicate AnyOk(o: Oracle, v: Value, s: CompiledSchema) {
    exists i :: 0 <= i < |s.anyOf| && Satisfies(o, v, s.anyOf[i])
  }

  ghost predicate OnlyOk(o: Oracle, v: Value, s: CompiledSchema, n: nat, i: nat)
    requires i < n <= |s.oneOf|
  {
    Satisfies(o, v, s.oneOf[i]) && forall j :: 0 <= j < n && j != i ==> !Satisfies(o, v, s.oneOf[j])
  }

  ghost predicate OneOk(o: Oracle, v: Value, s: CompiledSchema) {
    exists i: nat :: i < |s.oneOf| && OnlyOk(o, v, s, |s.oneOf|, i)
  }

  lemma {:induction false} OneMeaning(o: Oracle, v: Value, s: CompiledSchema)
    ensures OneOk(o, v, s) <==>
            exists i :: 0 <= i < |s.oneOf| && Satisfies(o, v, s.oneOf[i]) &&
              forall j :: 0 <= j < |s.oneOf| && j != i ==> !Satisfies(o, v, s.oneOf[j])
  {
    if i :| 0 <= i < |s.oneOf| && Satisfies(o, v, s.oneOf[i]) &&
            forall j :: 0 <= j < |s.oneOf| && j != i ==> !Satisfies(o, v, s.oneOf[j]) {
      assert OnlyOk(o, v, s, |s.oneOf|, i);
    }
  }

  lemma {:induction false} SatisfiesParts(o: Oracle, v: Value, s: CompiledSchema)
    ensures Satisfies(o, v, s) ==
            (!s.rejectAll && ScalarOk(o, v, s) && ShapeOk(o, v, s) && AllOk(o, v, s, |s.allOf|)
             && (s.hasAnyOf ==> AnyOk(o, v, s)) && (s.hasOneOf ==> OneOk(o, v, s)))
  {
    OneMeaning(o, v, s);
  }

  /** Every failure of a value, in the order the validator meets them, as if there were no cap. */
  ghost function Failures(o: Oracle, v: Value, s: CompiledSchema, location: Location): seq<Failure>
    decreases s, 3
  {
    if s.rejectAll then [Failure(location, "value is rejected by the boolean schema")]
    else
      ScalarFailures(o, v, s, location) + ShapeFailures(o, v, s, location)
      + Joined(AllOfParts(o, v, s, location)) + UnionFailures(o, v, s, location)
  }

  ghost function UnionFailures(o: Oracle, v: Value, s: CompiledSchema, location: Location): seq<Failure> {
    Complain(s.hasAnyOf ==> AnyOk(o, v, s), location, "value does not satisfy anyOf")
    + Complain(s.hasOneOf ==> OneOk(o, v, s), location, "value does not satisfy exactly one oneOf branch")
  }

  ghost function AllOfParts(o: Oracle, v: Value, s: CompiledSchema, location: Location): seq<seq<Failure>>
    decreases s, 2
  {
    seq(|s.allOf|, i requires 0 <= i < |s.allOf| => Failures(o, v, s.allOf[i], location))
  }

  ghost function ShapeFailures(o: Oracle, v: Value, s: CompiledSchema, location: Location): seq<Failure>
    decreases s, 2, 0
  {
    match v
    case ObjectValue(members) => ObjectFailures(o, members, s, location)
    case ListValue(items) => ListFailures(o, items, s, location)
    case _ => []
  }

  ghost function AdditionalFailures(o: Oracle, v: Value, a: Additional, location: Location, reason: string): seq<Failure>
    decreases a, 4
  {
    match a
    case Allow => []
    case Deny => [Failure(location, reason)]
    case Must(s) => Failures(o, v, s, location)
  }

  ghost function ObjectFailures(o: Oracle, members: seq<Member>, s: CompiledSchema, location: Location): seq<Failure>
    decreases s, 1, 0
  {
    MemberCountFailures(members, s, location) + Joined(RequiredParts(members, s, location))
    + Joined(PropertyParts(o, members, s, location)) + Joined(ExtraParts(o, members, s, location))
  }

  function MemberCountFailures(members: seq<Member>, s: CompiledSchema, location: Location): seq<Failure> {
    Complain(AtLeast(s.minProperties, |members|), location, "object has fewer members than minProperties")
    + Complain(AtMost(s.maxProperties, |members|), location, "object has more members than maxProperties")
  }

  function RequiredParts(members: seq<Member>, s: CompiledSchema, location: Location): seq<seq<Failure>> {
    seq(|s.required|, i requires 0 <= i < |s.required| =>
      Complain(Has(members, s.required[i]), location + [Field(s.required[i])], "required member is missing"))
  }

  ghost function PropertyFailure(o: Oracle, members: seq<Member>, s: CompiledSchema, location: Location, i: nat): seq<Failure>
    requires i < |s.properties|
    decreases s, 0, 0
  {
    var p := s.properties[i];
    if Has(members, p.name) then Failures(o, members[Find(members, p.name)].value, p.schema, location + [Field(p.name)])
    else []
  }

  ghost function PropertyParts(o: Oracle, members: seq<Member>, s: CompiledSchema, location: Location): seq<seq<Failure>>
    decreases s, 0, 1
  {
    seq(|s.properties|, i requires 0 <= i < |s.properties| => PropertyFailure(o, members, s, location, i))
  }

  ghost function ExtraFailure(o: Oracle, m: Member, s: CompiledSchema, location: Location): seq<Failure>
    decreases s, 0, 0
  {
    if Declares(s.properties, m.name) then []
    else
      AdditionalFailures(o, m.value, s.additionalProperties, location + [Field(m.name)], "additional member is not allowed")
  }

  ghost function ExtraParts(o: Oracle, members: seq<Member>, s: CompiledSchema, location: Location): seq<seq<Failure>>
    decreases s, 0, 1
  {
    seq(|members|, i requires 0 <= i < |members| => ExtraFailure(o, members[i], s, location))
  }

  ghost function ListFailures(o: Oracle, items: seq<Value>, s: CompiledSchema, location: Location): seq<Failure>
    decreases s, 1, 0
  {
    ItemCountFailures(items, s, location) + Joined(ItemParts(o, items, s, location))
  }

  function ItemCountFailures(items: seq<Value>, s: CompiledSchema, location: Location): seq<Failure> {
    Complain(AtLeast(s.minItems, |items|), location, "array has fewer elements than minItems")
    + Complain(AtMost(s.maxItems, |items|), location, "array has more elements than maxItems")
    + Complain(s.uniqueItems ==> Distinct(items), location, "array elements are not unique")
  }

  ghost function ItemFailure(o: Oracle, v: Value, s: CompiledSchema, location: Location, i: nat): seq<Failure>
    decreases s, 0, 0
  {
    match s.items
    case AnyItems => []
    case EachItem(each) => Failures(o, v, each, location + [At(i)])
    case Tuple(schemas) =>
      if i < |schemas| then Failures(o, v, schemas[i], location + [At(i)])
      else AdditionalFailures(o, v, s.additionalItems, location + [At(i)], "additional tuple element is not allowed")
  }

  ghost function ItemParts(o: Oracle, items: seq<Value>, s: CompiledSchema, location: Location): seq<seq<Failure>>
    decreases s, 0, 1
  {
    seq(|items|, i requires 0 <= i < |items| => ItemFailure(o, items[i], s, location, i))
  }

  // ---------------------------------------------------------------- no failures, exactly when satisfied

  predicate RequiredTo(members: seq<Member>, s: CompiledSchema, n: nat)
    requires n <= |s.required|
  {
    forall i :: 0 <= i < n ==> Has(members, s.required[i])
  }

  ghost predicate PropertyOk(o: Oracle, members: seq<Member>, p: Property) {
    Has(members, p.name) ==> Satisfies(o, members[Find(members, p.name)].value, p.schema)
  }

  ghost predicate PropertiesTo(o: Oracle, members: seq<Member>, s: CompiledSchema, n: nat)
    requires n <= |s.properties|
  {
    forall i :: 0 <= i < n ==> PropertyOk(o, members, s.properties[i])
  }

  ghost predicate ExtraOk(o: Oracle, m: Member, s: CompiledSchema) {
    !Declares(s.properties, m.name) ==> AdditionalOk(o, m.value, s.additionalProperties)
  }

  ghost predicate ExtrasTo(o: Oracle, members: seq<Member>, s: CompiledSchema, n: nat)
    requires n <= |members|
  {
    forall i :: 0 <= i < n ==> ExtraOk(o, members[i], s)
  }

  lemma {:induction false} ObjectParts(o: Oracle, members: seq<Member>, s: CompiledSchema)
    ensures ObjectOk(o, members, s) ==
            (AtLeast(s.minProperties, |members|) && AtMost(s.maxProperties, |members|)
             && RequiredTo(members, s, |s.required|)
             && PropertiesTo(o, members, s, |s.properties|) && ExtrasTo(o, members, s, |members|))
  {
    assert PropertiesTo(o, members, s, |s.properties|) ==
           forall i :: 0 <= i < |s.properties| && Has(members, s.properties[i].name) ==>
             Satisfies(o, members[Find(members, s.properties[i].name)].value, s.properties[i].schema);
    assert ExtrasTo(o, members, s, |members|) ==
           forall i :: 0 <= i < |members| && !Declares(s.properties, members[i].name) ==>
             AdditionalOk(o, members[i].value, s.additionalProperties);
  }

  /** The schema that applies to the element at `i`. */
  ghost predicate ItemOk(o: Oracle, items: seq<Value>, s: CompiledSchema, i: nat)
    requires i < |items|
  {
    match s.items
    case AnyItems => true
    case EachItem(each) => Satisfies(o, items[i], each)
    case Tuple(schemas) =>
      if i < |schemas| then Satisfies(o, items[i], schemas[i]) else AdditionalOk(o, items[i], s.additionalItems)
  }

  ghost predicate ItemsTo(o: Oracle, items: seq<Value>, s: CompiledSchema, n: nat)
    requires n <= |items|
  {
    forall i: nat :: i < n ==> ItemOk(o, items, s, i)
  }

  lemma {:induction false} ItemsParts(o: Oracle, items: seq<Value>, s: CompiledSchema)
    ensures ItemsOk(o, items, s) == ItemsTo(o, items, s, |items|)
  {
    if ItemsOk(o, items, s) {
      forall i: nat | i < |items| ensures ItemOk(o, items, s, i) {
      }
    }
    if ItemsTo(o, items, s, |items|) {
      assert forall i: nat :: i < |items| ==> ItemOk(o, items, s, i);
      forall i: nat | i < |items| ensures ItemOk(o, items, s, i) {
      }
      match s.items {
        case AnyItems =>
        case EachItem(each) =>
          forall i | 0 <= i < |items| ensures Satisfies(o, items[i], each) {
            assert ItemOk(o, items, s, i);
          }
        case Tuple(schemas) =>
          forall i | 0 <= i < |items| && i < |schemas| ensures Satisfies(o, items[i], schemas[i]) {
            assert ItemOk(o, items, s, i);
          }
          forall i | |schemas| <= i < |items| ensures AdditionalOk(o, items[i], s.additionalItems) {
            assert ItemOk(o, items, s, i);
          }
      }
    }
  }

  /** A value has no failures exactly when it satisfies the schema. */
  lemma {:induction false} FailuresIff(o: Oracle, v: Value, s: CompiledSchema, location: Location)
    ensures Failures(o, v, s, location) == [] <==> Satisfies(o, v, s)
    decreases s, 3
  {
    SatisfiesParts(o, v, s);
    ScalarIff(o, v, s, location);
    ShapeIff(o, v, s, location);
    AllOfIff(o, v, s, location);
  }

  lemma {:induction false} AllOfIff(o: Oracle, v: Value, s: CompiledSchema, location: Location)
    ensures Joined(AllOfParts(o, v, s, location)) == [] <==> AllOk(o, v, s, |s.allOf|)
    decreases s, 2
  {
    var parts := AllOfParts(o, v, s, location);
    JoinedEmpty(parts);
    forall i | 0 <= i < |s.allOf|
      ensures parts[i] == [] <==> Satisfies(o, v, s.allOf[i])
    {
      FailuresIff(o, v, s.allOf[i], location);
    }
  }

  lemma {:induction false} AdditionalIff(o: Oracle, v: Value, a: Additional, location: Location, reason: string)
    ensures AdditionalFailures(o, v, a, location, reason) == [] <==> AdditionalOk(o, v, a)
    decreases a, 4
  {
    if a.Must? { FailuresIff(o, v, a.schema, location); }
  }

  lemma {:induction false} ShapeIff(o: Oracle, v: Value, s: CompiledSchema, location: Location)
    ensures ShapeFailures(o, v, s, location) == [] <==> ShapeOk(o, v, s)
    decreases s, 2, 0
  {
    match v
    case ObjectValue(members) => ObjectIff(o, members, s, location);
    case ListValue(items) => ListIff(o, items, s, location);
    case _ =>
  }

  lemma {:induction false} ObjectIff(o: Oracle, members: seq<Member>, s: CompiledSchema, location: Location)
    ensures ObjectFailures(o, members, s, location) == [] <==> ObjectOk(o, members, s)
    decreases s, 1, 2
  {
    ObjectParts(o, members, s);
    RequiredIff(members, s, location);
    PropertiesIff(o, members, s, location);
    ExtrasIff(o, members, s, location);
  }

  lemma {:induction false} ListIff(o: Oracle, items: seq<Value>, s: CompiledSchema, location: Location)
    ensures ListFailures(o, items, s, location) == [] <==> ListOk(o, items, s)
    decreases s, 1, 2
  {
    ItemsParts(o, items, s);
    ItemsIff(o, items, s, location);
  }

  lemma {:induction false} PropertyIff(o: Oracle, members: seq<Member>, s: CompiledSchema, location: Location, i: nat)
    requires i < |s.properties|
    ensures PropertyFailure(o, members, s, location, i) == [] <==> PropertyOk(o, members, s.properties[i])
    decreases s, 1, 0
  {
    var p := s.properties[i];
    if Has(members, p.name) {
      FailuresIff(o, members[Find(members, p.name)].value, p.schema, location + [Field(p.name)]);
    }
  }

  lemma {:induction false} RequiredIff(members: seq<Member>, s: CompiledSchema, location: Location)
    ensures Joined(RequiredParts(members, s, location)) == [] <==> RequiredTo(members, s, |s.required|)
  {
    var parts := RequiredParts(members, s, location);
    JoinedEmpty(parts);
    forall i | 0 <= i < |s.required|
      ensures parts[i] == [] <==> Has(members, s.required[i])
    {
    }
  }

  lemma {:induction false} PropertiesIff(o: Oracle, members: seq<Member>, s: CompiledSchema, location: Location)
    ensures Joined(PropertyParts(o, members, s, location)) == [] <==> PropertiesTo(o, members, s, |s.properties|)
    decreases s, 1, 1
  {
    var parts := PropertyParts(o, members, s, location);
    JoinedEmpty(parts);
    forall i | 0 <= i < |s.properties|
      ensures parts[i] == [] <==> PropertyOk(o, members, s.properties[i])
    {
      PropertyIff(o, members, s, location, i);
    }
  }

  lemma {:induction false} ExtraIff(o: Oracle, m: Member, s: CompiledSchema, location: Location)
    ensures ExtraFailure(o, m, s, location) == [] <==> ExtraOk(o, m, s)
    decreases s, 1, 0
  {
    AdditionalIff(o, m.value, s.additionalProperties, location + [Field(m.name)], "additional member is not allowed");
  }

  lemma {:induction false} ExtrasIff(o: Oracle, members: seq<Member>, s: CompiledSchema, location: Location)
    ensures Joined(ExtraParts(o, members, s, location)) == [] <==> ExtrasTo(o, members, s, |members|)
    decreases s, 1, 1
  {
    var parts := ExtraParts(o, members, s, location);
    JoinedEmpty(parts);
    forall i | 0 <= i < |members|
      ensures parts[i] == [] <==> ExtraOk(o, members[i], s)
    {
      ExtraIff(o, members[i], s, location);
    }
  }

  lemma {:induction false} ItemIff(o: Oracle, items: seq<Value>, s: CompiledSchema, location: Location, i: nat)
    requires i < |items|
    ensures ItemFailure(o, items[i], s, location, i) == [] <==> ItemOk(o, items, s, i)
    decreases s, 1, 0
  {
    match s.items
    case AnyItems =>
    case EachItem(each) => FailuresIff(o, items[i], each, location + [At(i)]);
    case Tuple(schemas) =>
      if i < |schemas| {
        FailuresIff(o, items[i], schemas[i], location + [At(i)]);
      } else {
        AdditionalIff(o, items[i], s.additionalItems, location + [At(i)], "additional tuple element is not allowed");
      }
  }

  lemma {:induction false} ItemsIff(o: Oracle, items: seq<Value>, s: CompiledSchema, location: Location)
    ensures Joined(ItemParts(o, items, s, location)) == [] <==> ItemsTo(o, items, s, |items|)
    decreases s, 1, 1
  {
    var parts := ItemParts(o, items, s, location);
    JoinedEmpty(parts);
    forall i: nat | i < |items|
      ensures parts[i] == [] <==> ItemOk(o, items, s, i)
    {
      ItemIff(o, items, s, location, i);
    }
  }

  // ---------------------------------------------------------------- the validator

  /** `validate_value`: the list becomes the first eight of what it held and all failures of the
      value. So, started with fewer than eight, it is unchanged exactly when the value satisfies
      the schema, and it never grows beyond eight. */
  method ValidateValue(o: Oracle, v: Value, s: CompiledSchema, location: Location, failures: seq<Failure>)
    returns (after: seq<Failure>)
    ensures after == Capped(failures, Failures(o, v, s, location))
    ensures Reports(failures, after, Satisfies(o, v, s))
    decreases s, 3
  {
    FailuresIff(o, v, s, location);
    CappedReports(failures, Failures(o, v, s, location));
    if |failures| >= MAX_FAILURES {
      return failures;
    }
    if s.rejectAll {
      return failures + [Failure(location, "value is rejected by the boolean schema")];
    }
    after := ValidateParts(o, v, s, location, failures);
  }

  method ValidateParts(o: Oracle, v: Value, s: CompiledSchema, location: Location, failures: seq<Failure>)
    returns (after: seq<Failure>)
    requires !s.rejectAll
    ensures after == Capped(failures, Failures(o, v, s, location))
    decreases s, 2, 3
  {
    ghost var scalar, shape := ScalarFailures(o, v, s, location), ShapeFailures(o, v, s, location);
    ghost var all, union := Joined(AllOfParts(o, v, s, location)), UnionFailures(o, v, s, location);
    after := ValidateScalars(o, v, s, location, failures);
    after := ValidateShape(o, v, s, location, after);
    CappedTwice(failures, scalar, shape);
    after := ValidateAllOf(o, v, s, location, after);
    CappedTwice(failures, scalar + shape, all);
    after := ValidateUnions(o, v, s, location, after);
    CappedTwice(failures, scalar + shape + all, union);
  }

  method ValidateUnions(o: Oracle, v: Value, s: CompiledSchema, location: Location, failures: seq<Failure>)
    returns (after: seq<Failure>)
    ensures after == Capped(failures, UnionFailures(o, v, s, location))
    decreases s, 2, 2
  {
    var matched, one := true, true;
    if s.hasAnyOf {
      matched := AnyMatches(o, v, s);
    }
    ghost var a := Complain(matched, location, "value does not satisfy anyOf");
    assert [] + a == a;
    after := Check(matched, location, "value does not satisfy anyOf", failures, failures, []);
    if s.hasOneOf {
      one := OneMatches(o, v, s);
    }
    after := Check(one, location, "value does not satisfy exactly one oneOf branch", after, failures, a);
  }

  /** `value_satisfies`: validation into a fresh list. */
  method ValueSatisfies(o: Oracle, v: Value, s: CompiledSchema) returns (ok: bool)
    ensures ok == Satisfies(o, v, s)
    decreases s, 4
  {
    var failures := ValidateValue(o, v, s, [], []);
    return failures == [];
  }

  method ValidateShape(o: Oracle, v: Value, s: CompiledSchema, location: Location, failures: seq<Failure>)
    returns (after: seq<Failure>)
    ensures after == Capped(failures, ShapeFailures(o, v, s, location))
    decreases s, 2, 2
  {
    match v {
      case ObjectValue(members) => after := ValidateObject(o, members, s, location, failures);
      case ListValue(items) => after := ValidateList(o, items, s, location, failures);
      case _ => after := failures;
    }
  }

  method ValidateAllOf(o: Oracle, v: Value, s: CompiledSchema, location: Location, failures: seq<Failure>)
    returns (after: seq<Failure>)
    ensures after == Capped(failures, Joined(AllOfParts(o, v, s, location)))
    decreases s, 1
  {
    ghost var parts := AllOfParts(o, v, s, location);
    AllParts(failures, parts);
    after := failures;
    for i := 0 to |s.allOf|
      invariant after == Capped(failures, Joined(parts[..i]))
    {
      ghost var before := after;
      after := ValidateValue(o, v, s.allOf[i], location, after);
      NextPart(failures, parts, i, before, after);
    }
  }

  method AnyMatches(o: Oracle, v: Value, s: CompiledSchema) returns (matched: bool)
    ensures matched == AnyOk(o, v, s)
    decreases s, 1
  {
    matched := false;
    var i := 0;
    while i < |s.anyOf| && !matched
      invariant i <= |s.anyOf|
      invariant matched <==> exists k :: 0 <= k < i && Satisfies(o, v, s.anyOf[k])
    {
      matched := ValueSatisfies(o, v, s.anyOf[i]);
      i := i + 1;
    }
  }

  ghost function CountOk(o: Oracle, v: Value, s: CompiledSchema, n: nat): nat
    requires n <= |s.oneOf|
  {
    if n == 0 then 0 else CountOk(o, v, s, n - 1) + if Satisfies(o, v, s.oneOf[n - 1]) then 1 else 0
  }

  lemma {:induction false} CountNone(o: Oracle, v: Value, s: CompiledSchema, n: nat)
    requires n <= |s.oneOf|
    ensures CountOk(o, v, s, n) == 0 <==> forall i :: 0 <= i < n ==> !Satisfies(o, v, s.oneOf[i])
  {
    if n > 0 { CountNone(o, v, s, n - 1); }
  }

  lemma {:induction false} CountOne(o: Oracle, v: Value, s: CompiledSchema, n: nat) returns (w: nat)
    requires n <= |s.oneOf|
    ensures CountOk(o, v, s, n) == 1 ==> w < n && OnlyOk(o, v, s, n, w)
    ensures forall i: nat :: i < n && OnlyOk(o, v, s, n, i) ==> CountOk(o, v, s, n) == 1
  {
    w := 0;
    if n > 0 {
      CountNone(o, v, s, n - 1);
      w := CountOne(o, v, s, n - 1);
      forall i: nat | i < n && OnlyOk(o, v, s, n, i) ensures CountOk(o, v, s, n) == 1 {
        if i < n - 1 { assert OnlyOk(o, v, s, n - 1, i); }
      }
      if Satisfies(o, v, s.oneOf[n - 1]) { w := n - 1; }
    }
  }

  /** Counting matches to one is having exactly one match. */
  lemma {:induction false} OneCount(o: Oracle, v: Value, s: CompiledSchema)
    ensures CountOk(o, v, s, |s.oneOf|) == 1 <==> OneOk(o, v, s)
  {
    var w := CountOne(o, v, s, |s.oneOf|);
  }

  method OneMatches(o: Oracle, v: Value, s: CompiledSchema) returns (one: bool)
    ensures one == OneOk(o, v, s)
    decreases s, 1
  {
    var matches := 0;
    for i := 0 to |s.oneOf|
      invariant matches == CountOk(o, v, s, i)
    {
      var ok := ValueSatisfies(o, v, s.oneOf[i]);
      if ok {
        matches := matches + 1;
      }
    }
    OneCount(o, v, s);
    return matches == 1;
  }

  method ValidateAdditional(o: Oracle, v: Value, a: Additional, location: Location, reason: string, failures: seq<Failure>)
    returns (after: seq<Failure>)
    ensures after == Capped(failures, AdditionalFailures(o, v, a, location, reason))
    decreases a, 4
  {
    match a {
      case Allow => after := failures;
      case Deny => after := if |failures| < MAX_FAILURES then failures + [Failure(location, reason)] else failures;
      case Must(s) => after := ValidateValue(o, v, s, location, failures);
    }
  }

  // ---------------------------------------------------------------- objects

  method ValidateRequired(members: seq<Member>, s: CompiledSchema, location: Location, failures: seq<Failure>)
    returns (after: seq<Failure>)
    ensures after == Capped(failures, Joined(RequiredParts(members, s, location)))
  {
    ghost var parts := RequiredParts(members, s, location);
    AllParts(failures, parts);
    after := failures;
    for i := 0 to |s.required|
      invariant after == Capped(failures, Joined(parts[..i]))
    {
      ghost var before := after;
      after := Add(Has(members, s.required[i]), location + [Field(s.required[i])], "required member is missing", after);
      NextPart(failures, parts, i, before, after);
    }
  }

  method ValidateProperties(o: Oracle, members: seq<Member>, s: CompiledSchema, location: Location, failures: seq<Failure>)
    returns (after: seq<Failure>)
    ensures after == Capped(failures, Joined(PropertyParts(o, members, s, location)))
    decreases s, 1
  {
    ghost var parts := PropertyParts(o, members, s, location);
    AllParts(failures, parts);
    after := failures;
    for i := 0 to |s.properties|
      invariant after == Capped(failures, Joined(parts[..i]))
    {
      ghost var before := after;
      var at := Find(members, s.properties[i].name);
      if at < |members| {
        after := ValidateValue(o, members[at].value, s.properties[i].schema, location + [Field(s.properties[i].name)], after);
      }
      assert after == Capped(before, PropertyFailure(o, members, s, location, i));
      NextPart(failures, parts, i, before, after);
    }
  }

  method ValidateExtras(o: Oracle, members: seq<Member>, s: CompiledSchema, location: Location, failures: seq<Failure>)
    returns (after: seq<Failure>)
    ensures after == Capped(failures, Joined(ExtraParts(o, members, s, location)))
    decreases s, 1
  {
    ghost var parts := ExtraParts(o, members, s, location);
    AllParts(failures, parts);
    after := failures;
    for i := 0 to |members|
      invariant after == Capped(failures, Joined(parts[..i]))
    {
      ghost var before := after;
      if !Declares(s.properties, members[i].name) {
        after := ValidateAdditional(o, members[i].value, s.additionalProperties, location + [Field(members[i].name)],
          "additional member is not allowed", after);
      }
      assert after == Capped(before, ExtraFailure(o, members[i], s, location));
      NextPart(failures, parts, i, before, after);
    }
  }

  method ValidateMemberCount(members: seq<Member>, s: CompiledSchema, location: Location, failures: seq<Failure>)
    returns (after: seq<Failure>)
    ensures after == Capped(failures, MemberCountFailures(members, s, location))
  {
    var many := AtLeast(s.minProperties, |members|);
    ghost var a := Complain(many, location, "object has fewer members than minProperties");
    assert [] + a == a;
    after := Check(many, location, "object has fewer members than minProperties", failures, failures, []);
    after := Check(AtMost(s.maxProperties, |members|), location, "object has more members than maxProperties", after, failures, a);
  }

  method ValidateObject(o: Oracle, members: seq<Member>, s: CompiledSchema, location: Location, failures: seq<Failure>)
    returns (after: seq<Failure>)
    ensures after == Capped(failures, ObjectFailures(o, members, s, location))
    decreases s, 2, 1
  {
    ghost var counts, required := MemberCountFailures(members, s, location), Joined(RequiredParts(members, s, location));
    ghost var declared := Joined(PropertyParts(o, members, s, location));
    after := ValidateMemberCount(members, s, location, failures);
    after := ValidateRequired(members, s, location, after);
    CappedTwice(failures, counts, required);
    after := ValidateProperties(o, members, s, location, after);
    CappedTwice(failures, counts + required, declared);
    after := ValidateExtras(o, members, s, location, after);
    CappedTwice(failures, counts + required + declared, Joined(ExtraParts(o, members, s, location)));
  }

  // ---------------------------------------------------------------- arrays

  method ValidateEach(o: Oracle, items: seq<Value>, s: CompiledSchema, location: Location, failures: seq<Failure>)
    returns (after: seq<Failure>)
    requires s.items.EachItem?
    ensures after == Capped(failures, Joined(ItemParts(o, items, s, location)))
    decreases s, 0
  {
    ghost var parts := ItemParts(o, items, s, location);
    AllParts(failures, parts);
    after := failures;
    for i := 0 to |items|
      invariant after == Capped(failures, Joined(parts[..i]))
    {
      ghost var before := after;
      after := ValidateValue(o, items[i], s.items.schema, location + [At(i)], after);
      assert after == Capped(before, ItemFailure(o, items[i], s, location, i));
      NextPart(failures, parts, i, before, after);
    }
  }

  method ValidateTuple(o: Oracle, items: seq<Value>, s: CompiledSchema, location: Location, failures: seq<Failure>)
    returns (after: seq<Failure>)
    requires s.items.Tuple?
    ensures after == Capped(failures, Joined(ItemParts(o, items, s, location)))
    decreases s, 1, 0
  {
    var count := if |items| < |s.items.schemas| then |items| else |s.items.schemas|;
    after := ValidatePairs(o, items, s, location, failures, count);
    after := ValidateRest(o, items, s, location, failures, count, after);
  }

  /** The elements that have a schema of their own. */
  method ValidatePairs(o: Oracle, items: seq<Value>, s: CompiledSchema, location: Location, failures: seq<Failure>, count: nat)
    returns (after: seq<Failure>)
    requires s.items.Tuple? && count <= |items| && count <= |s.items.schemas|
    ensures after == Capped(failures, Joined(ItemParts(o, items, s, location)[..count]))
    decreases s, 0
  {
    ghost var parts := ItemParts(o, items, s, location);
    AllParts(failures, parts);
    after := failures;
    var schemas := s.items.schemas;
    for i := 0 to count
      invariant after == Capped(failures, Joined(parts[..i]))
    {
      ghost var before := after;
      after := ValidateValue(o, items[i], schemas[i], location + [At(i)], after);
      assert after == Capped(before, ItemFailure(o, items[i], s, location, i));
      NextPart(failures, parts, i, before, after);
    }
  }

  method ValidateExtraItem(o: Oracle, v: Value, s: CompiledSchema, location: Location, i: nat, failures: seq<Failure>)
    returns (after: seq<Failure>)
    requires s.items.Tuple? && i >= |s.items.schemas|
    ensures after == Capped(failures, ItemFailure(o, v, s, location, i))
    decreases s, 0, 0
  {
    after := ValidateAdditional(o, v, s.additionalItems, location + [At(i)], "additional tuple element is not allowed", failures);
  }

  /** The elements after those. */
  method ValidateRest(o: Oracle, items: seq<Value>, s: CompiledSchema, location: Location, ghost failures: seq<Failure>, count: nat, sofar: seq<Failure>)
    returns (after: seq<Failure>)
    requires s.items.Tuple? && count <= |items| && (count < |items| ==> count == |s.items.schemas|)
    requires sofar == Capped(failures, Joined(ItemParts(o, items, s, location)[..count]))
    ensures after == Capped(failures, Joined(ItemParts(o, items, s, location)))
    decreases s, 0, 1
  {
    ghost var parts := ItemParts(o, items, s, location);
    AllParts(failures, parts);
    after := sofar;
    var i := count;
    while i < |items|
      invariant count <= i <= |items|
      invariant after == Capped(failures, Joined(parts[..i]))
    {
      ghost var before := after;
      after := ValidateExtraItem(o, items[i], s, location, i, after);
      NextPart(failures, parts, i, before, after);
      i := i + 1;
    }
  }

  lemma {:induction false} NoItemSchema(o: Oracle, items: seq<Value>, s: CompiledSchema, location: Location)
    requires s.items.AnyItems?
    ensures Joined(ItemParts(o, items, s, location)) == []
  {
    JoinedEmpty(ItemParts(o, items, s, location));
  }

  method ValidateItems(o: Oracle, items: seq<Value>, s: CompiledSchema, location: Location, failures: seq<Failure>)
    returns (after: seq<Failure>)
    ensures after == Capped(failures, Joined(ItemParts(o, items, s, location)))
    decreases s, 1, 1
  {
    match s.items {
      case AnyItems =>
        NoItemSchema(o, items, s, location);
        after := failures;
      case EachItem(_) => after := ValidateEach(o, items, s, location, failures);
      case Tuple(_) => after := ValidateTuple(o, items, s, location, failures);
    }
  }

  method ValidateItemCount(items: seq<Value>, s: CompiledSchema, location: Location, failures: seq<Failure>)
    returns (after: seq<Failure>)
    ensures after == Capped(failures, ItemCountFailures(items, s, location))
  {
    var many := AtLeast(s.minItems, |items|);
    var few := AtMost(s.maxItems, |items|);
    ghost var a := Complain(many, location, "array has fewer elements than minItems");
    ghost var b := Complain(few, location, "array has more elements than maxItems");
    assert [] + a == a;
    after := Check(many, location, "array has fewer elements than minItems", failures, failures, []);
    after := Check(few, location, "array has more elements than maxItems", after, failures, a);
    var unique := true;
    if s.uniqueItems {
      var duplicate := FindDuplicate(items);
      unique := !duplicate;
    }
    after := Check(unique, location, "array elements are not unique", after, failures, a + b);
  }

  method ValidateList(o: Oracle, items: seq<Value>, s: CompiledSchema, location: Location, failures: seq<Failure>)
    returns (after: seq<Failure>)
    ensures after == Capped(failures, ListFailures(o, items, s, location))
    decreases s, 2, 1
  {
    after := ValidateItemCount(items, s, location, failures);
    after := ValidateItems(o, items, s, location, after);
    CappedTwice(failures, ItemCountFailures(items, s, location), Joined(ItemParts(o, items, s, location)));
  }
}
