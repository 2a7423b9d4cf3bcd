/** Where failures are reported: exactly at the parts of the value that break an assertion of a schema
    which applies to them. */
module Located {
  import opened Values
  import opened Schema
  import opened Validator

  predicate CountsOk(v: Value, s: CompiledSchema) {
    && (v.ObjectValue? ==> AtLeast(s.minProperties, |v.members|) && AtMost(s.maxProperties, |v.members|))
    && (v.ListValue? ==>
          AtLeast(s.minItems, |v.items|) && AtMost(s.maxItems, |v.items|) && (s.uniqueItems ==> Distinct(v.items)))
  }

  ghost predicate UnionsOk(o: Oracle, v: Value, s: CompiledSchema) {
    (s.hasAnyOf ==> AnyOk(o, v, s)) && (s.hasOneOf ==> OneOk(o, v, s))
  }

  /** The value breaks an assertion of the schema that is about the value as a whole. */
  ghost predicate ViolatesHere(o: Oracle, v: Value, s: CompiledSchema) {
    !ScalarOk(o, v, s) || !CountsOk(v, s) || !UnionsOk(o, v, s)
  }

  /** At the end of the path, from a value and the schema that applies to it, there is something to blame:
      the value there breaks an assertion of its own, or is rejected outright, or a required member is
      missing, or a member or an element is not allowed. */
  ghost predicate Blames(o: Oracle, v: Value, s: CompiledSchema, path: Location)
    decreases s, 1
  {
    if s.rejectAll then path == []
    else
      || (path == [] && ViolatesHere(o, v, s))
      || (exists i :: 0 <= i < |s.allOf| && Blames(o, v, s.allOf[i], path))
      || (path != [] && BlamesPart(o, v, s, path[0], path[1..]))
  }

  ghost predicate BlamesPart(o: Oracle, v: Value, s: CompiledSchema, step: Step, rest: Location)
    decreases s, 0
  {
    match step
    case Field(name) =>
      && v.ObjectValue?
      && (|| (rest == [] && name in s.required && !Has(v.members, name))
          || (exists i :: 0 <= i < |s.properties| && s.properties[i].name == name && Has(v.members, name)
                && Blames(o, v.members[Find(v.members, name)].value, s.properties[i].schema, rest))
          || (exists i :: 0 <= i < |v.members| && v.members[i].name == name && !Declares(s.properties, name)
                && BlamesAdditional(o, v.members[i].value, s.additionalProperties, rest)))
    case At(i) =>
      && v.ListValue? && i < |v.items|
      && (|| (s.items.EachItem? && Blames(o, v.items[i], s.items.schema, rest))
          || (s.items.Tuple? && i < |s.items.schemas| && Blames(o, v.items[i], s.items.schemas[i], rest))
          || (s.items.Tuple? && i >= |s.items.schemas| && BlamesAdditional(o, v.items[i], s.additionalItems, rest)))
  }

  ghost predicate BlamesAdditional(o: Oracle, v: Value, a: Additional, rest: Location)
    decreases a, 2
  {
    match a
    case Allow => false
    case Deny => rest == []
    case Must(s) => Blames(o, v, s, rest)
  }

  /** The failure is at `location` or below it, where there is something to blame. */
  ghost predicate Located(o: Oracle, v: Value, s: CompiledSchema, location: Location, f: Failure) {
    location <= f.location && Blames(o, v, s, f.location[|location|..])
  }

  // ---------------------------------------------------------------- blame is justified

  /** Whatever is blamed, the value as a whole violates the schema. */
  lemma {:induction false} BlameViolates(o: Oracle, v: Value, s: CompiledSchema, path: Location)
    requires Blames(o, v, s, path)
    ensures !Satisfies(o, v, s)
    decreases s, 1
  {
    SatisfiesParts(o, v, s);
    if s.rejectAll {
    } else if i :| 0 <= i < |s.allOf| && Blames(o, v, s.allOf[i], path) {
      BlameViolates(o, v, s.allOf[i], path);
    } else if path != [] && BlamesPart(o, v, s, path[0], path[1..]) {
      PartViolates(o, v, s, path[0], path[1..]);
    }
  }

  lemma {:induction false} AdditionalViolates(o: Oracle, v: Value, a: Additional, rest: Location)
    requires BlamesAdditional(o, v, a, rest)
    ensures !AdditionalOk(o, v, a)
    decreases a, 2
  {
    if a.Must? {
      BlameViolates(o, v, a.schema, rest);
    }
  }

  lemma {:induction false} PartViolates(o: Oracle, v: Value, s: CompiledSchema, step: Step, rest: Location)
    requires BlamesPart(o, v, s, step, rest)
    ensures !Satisfies(o, v, s)
    decreases s, 0
  {
    match step
    case Field(name) => MemberViolates(o, v.members, s, name, rest);
    case At(i) => ItemViolates(o, v.items, s, i, rest);
  }

  lemma {:induction false} MemberViolates(o: Oracle, members: seq<Member>, s: CompiledSchema, name: string, rest: Location)
    requires BlamesPart(o, ObjectValue(members), s, Field(name), rest)
    ensures !ObjectOk(o, members, s)
    decreases s, 0, 0
  {
    if i :| 0 <= i < |s.properties| && s.properties[i].name == name && Has(members, name)
            && Blames(o, members[Find(members, name)].value, s.properties[i].schema, rest) {
      BlameViolates(o, members[Find(members, name)].value, s.properties[i].schema, rest);
    } else if i :| 0 <= i < |members| && members[i].name == name && !Declares(s.properties, name)
                   && BlamesAdditional(o, members[i].value, s.additionalProperties, rest) {
      AdditionalViolates(o, members[i].value, s.additionalProperties, rest);
    } else {
      var i :| 0 <= i < |s.required| && s.required[i] == name;
      assert !Has(members, s.required[i]);
    }
  }

  lemma {:induction false} ItemViolates(o: Oracle, items: seq<Value>, s: CompiledSchema, i: nat, rest: Location)
    requires BlamesPart(o, ListValue(items), s, At(i), rest)
    ensures !ListOk(o, items, s)
    decreases s, 0, 0
  {
    match s.items
    case AnyItems =>
    case EachItem(each) => BlameViolates(o, items[i], each, rest);
    case Tuple(schemas) =>
      if i < |schemas| {
        BlameViolates(o, items[i], schemas[i], rest);
      } else {
        AdditionalViolates(o, items[i], s.additionalItems, rest);
      }
  }

  // ---------------------------------------------------------------- every failure is located

  lemma {:induction false} InJoined(parts: seq<seq<Failure>>, f: Failure) returns (i: nat)
    requires f in Joined(parts)
    ensures i < |parts| && f in parts[i]
  {
    var n := |parts| - 1;
    if f in parts[n] {
      i := n;
    } else {
      i := InJoined(parts[..n], f);
    }
  }

  /** A failure right here is located if the value breaks an assertion. */
  lemma {:induction false} LocatedHere(o: Oracle, v: Value, s: CompiledSchema, location: Location, f: Failure)
    requires f.location == location && (s.rejectAll || ViolatesHere(o, v, s))
    ensures Located(o, v, s, location, f)
  {
    assert f.location[|location|..] == [];
  }

  /** A failure below a step is located if what the step leads to is to blame. */
  lemma {:induction false} LocatedBelow(o: Oracle, v: Value, s: CompiledSchema, location: Location, step: Step, f: Failure)
    requires !s.rejectAll && location + [step] <= f.location
    requires BlamesPart(o, v, s, step, f.location[|location| + 1..])
    ensures Located(o, v, s, location, f)
  {
    var path := f.location[|location|..];
    assert f.location[|location|] == (location + [step])[|location|] == step;
    assert path[0] == step && path[1..] == f.location[|location| + 1..];
    assert f.location[..|location|] == (location + [step])[..|location|] == location;
  }

  /** Every failure the validator reports is located. */
  lemma {:induction false} FailuresLocated(o: Oracle, v: Value, s: CompiledSchema, location: Location, f: Failure)
    requires f in Failures(o, v, s, location)
    ensures Located(o, v, s, location, f)
    decreases s, 3
  {
    if !s.rejectAll {
      if f in ShapeFailures(o, v, s, location) {
        ShapeLocated(o, v, s, location, f);
      } else if f in Joined(AllOfParts(o, v, s, location)) {
        var i := InJoined(AllOfParts(o, v, s, location), f);
        FailuresLocated(o, v, s.allOf[i], location, f);
      } else {
        HereLocated(o, v, s, location, f);
        ScalarIff(o, v, s, location);
        LocatedHere(o, v, s, location, f);
      }
    } else {
      LocatedHere(o, v, s, location, f);
    }
  }

  ghost predicate AllAt(failures: seq<Failure>, location: Location) {
    forall k :: 0 <= k < |failures| ==> failures[k].location == location
  }

  lemma {:induction false} KeywordsHere(o: Oracle, keywords: seq<Keyword>, v: Value, location: Location)
    ensures AllAt(Joined(KeywordParts(o, keywords, v, location)), location)
  {
    var parts := KeywordParts(o, keywords, v, location);
    forall f | f in Joined(parts)
      ensures f.location == location
    {
      var i := InJoined(parts, f);
      assert parts[i] == Complain(o(keywords[i], v), location, Complaint(keywords[i]));
    }
  }

  lemma {:induction false} BoundsHere(n: real, s: CompiledSchema, location: Location)
    ensures AllAt(LowerFailures(n, s, location) + ExclusiveFailures(n, s, location), location)
  {
  }

  lemma {:induction false} KindHere(o: Oracle, v: Value, s: CompiledSchema, location: Location)
    ensures AllAt(KindFailures(o, v, s, location), location)
  {
    if v.NumberValue? {
      BoundsHere(v.number, s, location);
      KeywordsHere(o, s.numberKeywords, v, location);
    } else if v.TextValue? {
      KeywordsHere(o, s.textKeywords, v, location);
    }
  }

  /** Scalar and union failures are reported right here. */
  lemma {:induction false} HereLocated(o: Oracle, v: Value, s: CompiledSchema, location: Location, f: Failure)
    requires f in ScalarFailures(o, v, s, location) || f in UnionFailures(o, v, s, location)
    ensures f.location == location
  {
    KindHere(o, v, s, location);
    assert AllAt(GeneralFailures(v, s, location), location);
  }

  lemma {:induction false} ShapeLocated(o: Oracle, v: Value, s: CompiledSchema, location: Location, f: Failure)
    requires !s.rejectAll && f in ShapeFailures(o, v, s, location)
    ensures Located(o, v, s, location, f)
    decreases s, 2
  {
    match v
    case ObjectValue(members) =>
      if f in MemberCountFailures(members, s, location) {
        LocatedHere(o, v, s, location, f);
      } else {
        MemberLocated(o, members, s, location, f);
      }
    case ListValue(items) =>
      if f in ItemCountFailures(items, s, location) {
        LocatedHere(o, v, s, location, f);
      } else {
        var i := InJoined(ItemParts(o, items, s, location), f);
        ItemLocated(o, items, s, location, i, f);
      }
    case _ =>
  }

  lemma {:induction false} AdditionalLocated(o: Oracle, v: Value, a: Additional, location: Location, reason: string, f: Failure)
    requires f in AdditionalFailures(o, v, a, location, reason)
    ensures location <= f.location && BlamesAdditional(o, v, a, f.location[|location|..])
    decreases a, 4
  {
    match a
    case Allow =>
    case Deny => assert f.location[|location|..] == [];
    case Must(s) => FailuresLocated(o, v, s, location, f);
  }

  lemma {:induction false} MemberLocated(o: Oracle, members: seq<Member>, s: CompiledSchema, location: Location, f: Failure)
    requires !s.rejectAll && f in ObjectFailures(o, members, s, location) && f !in MemberCountFailures(members, s, location)
    ensures Located(o, ObjectValue(members), s, location, f)
    decreases s, 1
  {
    if f in Joined(RequiredParts(members, s, location)) {
      var i := InJoined(RequiredParts(members, s, location), f);
      RequiredLocated(o, members, s, location, i, f);
    } else if f in Joined(PropertyParts(o, members, s, location)) {
      var i := InJoined(PropertyParts(o, members, s, location), f);
      PropertyLocated(o, members, s, location, i, f);
    } else {
      var i := InJoined(ExtraParts(o, members, s, location), f);
      ExtraLocated(o, members, s, location, i, f);
    }
  }

  lemma {:induction false} RequiredLocated(o: Oracle, members: seq<Member>, s: CompiledSchema, location: Location, i: nat, f: Failure)
    requires !s.rejectAll && i < |s.required| && f in RequiredParts(members, s, location)[i]
    ensures Located(o, ObjectValue(members), s, location, f)
  {
    var step := Field(s.required[i]);
    assert f.location == location + [step];
    assert f.location[|location| + 1..] == [];
    LocatedBelow(o, ObjectValue(members), s, location, step, f);
  }

  lemma {:induction false} PropertyLocated(o: Oracle, members: seq<Member>, s: CompiledSchema, location: Location, i: nat, f: Failure)
    requires !s.rejectAll && i < |s.properties| && f in PropertyFailure(o, members, s, location, i)
    ensures Located(o, ObjectValue(members), s, location, f)
    decreases s, 0
  {
    var p := s.properties[i];
    var step := Field(p.name);
    FailuresLocated(o, members[Find(members, p.name)].value, p.schema, location + [step], f);
    assert BlamesPart(o, ObjectValue(members), s, step, f.location[|location| + 1..]);
    LocatedBelow(o, ObjectValue(members), s, location, step, f);
  }

  lemma {:induction false} ExtraLocated(o: Oracle, members: seq<Member>, s: CompiledSchema, location: Location, i: nat, f: Failure)
    requires !s.rejectAll && i < |members| && f in ExtraFailure(o, members[i], s, location)
    ensures Located(o, ObjectValue(members), s, location, f)
    decreases s, 0
  {
    var step := Field(members[i].name);
    AdditionalLocated(o, members[i].value, s.additionalProperties, location + [step], "additional member is not allowed", f);
    assert BlamesPart(o, ObjectValue(members), s, step, f.location[|location| + 1..]);
    LocatedBelow(o, ObjectValue(members), s, location, step, f);
  }

  lemma {:induction false} ItemBlamed(o: Oracle, items: seq<Value>, s: CompiledSchema, location: Location, i: nat, f: Failure)
    requires i < |items| && f in ItemFailure(o, items[i], s, location, i)
    ensures location + [At(i)] <= f.location
    ensures BlamesPart(o, ListValue(items), s, At(i), f.location[|location + [At(i)]|..])
    decreases s, 0, 0
  {
    match s.items
    case AnyItems =>
    case EachItem(each) => FailuresLocated(o, items[i], each, location + [At(i)], f);
    case Tuple(schemas) =>
      if i < |schemas| {
        FailuresLocated(o, items[i], schemas[i], location + [At(i)], f);
      } else {
        AdditionalLocated(o, items[i], s.additionalItems, location + [At(i)], "additional tuple element is not allowed", f);
      }
  }

  lemma {:induction false} ItemLocated(o: Oracle, items: seq<Value>, s: CompiledSchema, location: Location, i: nat, f: Failure)
    requires !s.rejectAll && i < |items| && f in ItemFailure(o, items[i], s, location, i)
    ensures Located(o, ListValue(items), s, location, f)
    decreases s, 0, 1
  {
    ItemBlamed(o, items, s, location, i, f);
    LocatedBelow(o, ListValue(items), s, location, At(i), f);
  }

  // ---------------------------------------------------------------- everything to blame is reported

  /** Some failure of the list is at the end of the path. */
  ghost predicate ReportsAt(failures: seq<Failure>, location: Location) {
    exists f :: f in failures && f.location == location
  }

  lemma {:induction false} JoinedReports(parts: seq<seq<Failure>>, i: nat, location: Location)
    requires i < |parts| && ReportsAt(parts[i], location)
    ensures ReportsAt(Joined(parts), location)
  {
    var f :| f in parts[i] && f.location == location;
    for n := i + 1 to |parts|
      invariant f in Joined(parts[..n])
    {
      assert parts[..n + 1][..n] == parts[..n];
    }
    assert parts[..|parts|] == parts;
  }

  /** Whatever there is to blame, at that place the validator reports a failure. */
  lemma {:induction false} BlameReported(o: Oracle, v: Value, s: CompiledSchema, location: Location, path: Location)
    requires Blames(o, v, s, path)
    ensures ReportsAt(Failures(o, v, s, location), location + path)
    decreases s, 3
  {
    if s.rejectAll || (path == [] && ViolatesHere(o, v, s)) {
      WholeReported(o, v, s, location);
      assert location + path == location;
    } else if i :| 0 <= i < |s.allOf| && Blames(o, v, s.allOf[i], path) {
      ConjunctReported(o, v, s, location, i, path);
    } else {
      OneStep(location, path);
      StepReported(o, v, s, location, path[0], path[1..], location + path);
    }
  }

  lemma {:induction false} OneStep(location: Location, path: Location)
    requires path != []
    ensures location + [path[0]] + path[1..] == location + path
  {
  }

  lemma {:induction false} ConjunctReported(o: Oracle, v: Value, s: CompiledSchema, location: Location, i: nat, path: Location)
    requires !s.rejectAll && i < |s.allOf| && Blames(o, v, s.allOf[i], path)
    ensures ReportsAt(Failures(o, v, s, location), location + path)
    decreases s, 2
  {
    BlameReported(o, v, s.allOf[i], location, path);
    ConjunctReports(o, v, s, location, i, location + path);
  }

  lemma {:induction false} ConjunctReports(o: Oracle, v: Value, s: CompiledSchema, location: Location, i: nat, at: Location)
    requires !s.rejectAll && i < |s.allOf| && ReportsAt(Failures(o, v, s.allOf[i], location), at)
    ensures ReportsAt(Failures(o, v, s, location), at)
  {
    JoinedReports(AllOfParts(o, v, s, location), i, at);
    PartReports(o, v, s, location, at);
  }

  lemma {:induction false} WholeReported(o: Oracle, v: Value, s: CompiledSchema, location: Location)
    requires s.rejectAll || ViolatesHere(o, v, s)
    ensures ReportsAt(Failures(o, v, s, location), location)
  {
    if s.rejectAll {
      assert Failure(location, "value is rejected by the boolean schema") in Failures(o, v, s, location);
    } else {
      HereReported(o, v, s, location);
      PartReports(o, v, s, location, location);
    }
  }

  /** The complete list reports what one of its parts reports. */
  lemma {:induction false} PartReports(o: Oracle, v: Value, s: CompiledSchema, location: Location, at: Location)
    requires !s.rejectAll
    requires || ReportsAt(ScalarFailures(o, v, s, location), at) || ReportsAt(ShapeFailures(o, v, s, location), at)
             || ReportsAt(Joined(AllOfParts(o, v, s, location)), at) || ReportsAt(UnionFailures(o, v, s, location), at)
    ensures ReportsAt(Failures(o, v, s, location), at)
  {
  }

  lemma {:induction false} CountsReported(o: Oracle, v: Value, s: CompiledSchema, location: Location)
    requires !CountsOk(v, s)
    ensures ReportsAt(ShapeFailures(o, v, s, location), location)
  {
    if v.ObjectValue? {
      var f := MemberCountFailures(v.members, s, location)[0];
      assert f in ObjectFailures(o, v.members, s, location);
    } else {
      var f := ItemCountFailures(v.items, s, location)[0];
      assert f in ListFailures(o, v.items, s, location);
    }
  }

  lemma {:induction false} UnionsReported(o: Oracle, v: Value, s: CompiledSchema, location: Location)
    requires !UnionsOk(o, v, s)
    ensures ReportsAt(UnionFailures(o, v, s, location), location)
  {
    var f := UnionFailures(o, v, s, location)[0];
    assert f in UnionFailures(o, v, s, location);
  }

  lemma {:induction false} HereReported(o: Oracle, v: Value, s: CompiledSchema, location: Location)
    requires ViolatesHere(o, v, s)
    ensures || ReportsAt(ScalarFailures(o, v, s, location), location) || ReportsAt(ShapeFailures(o, v, s, location), location)
            || ReportsAt(UnionFailures(o, v, s, location), location)
  {
    ScalarIff(o, v, s, location);
    if !ScalarOk(o, v, s) {
      HereLocated(o, v, s, location, ScalarFailures(o, v, s, location)[0]);
    } else if !CountsOk(v, s) {
      CountsReported(o, v, s, location);
    } else {
      UnionsReported(o, v, s, location);
    }
  }

  lemma {:induction false} StepReported(o: Oracle, v: Value, s: CompiledSchema, location: Location, step: Step, rest: Location, at: Location)
    requires !s.rejectAll && BlamesPart(o, v, s, step, rest) && at == location + [step] + rest
    ensures ReportsAt(Failures(o, v, s, location), at)
    decreases s, 2, 0
  {
    match step
    case Field(name) =>
      MemberReported(o, v.members, s, location, name, rest);
      ShapeReports(o, v, s, location, at);
    case At(i) =>
      ItemReported(o, v.items, s, location, i, rest);
      ListReports(o, v.items, s, location, i, at);
      ShapeReports(o, v, s, location, at);
  }

  lemma {:induction false} ShapeReports(o: Oracle, v: Value, s: CompiledSchema, location: Location, at: Location)
    requires !s.rejectAll
    requires || (v.ObjectValue? && ReportsAt(ObjectFailures(o, v.members, s, location), at))
             || (v.ListValue? && ReportsAt(ListFailures(o, v.items, s, location), at))
    ensures ReportsAt(Failures(o, v, s, location), at)
  {
    PartReports(o, v, s, location, at);
  }

  lemma {:induction false} ListReports(o: Oracle, items: seq<Value>, s: CompiledSchema, location: Location, i: nat, at: Location)
    requires i < |items| && ReportsAt(ItemFailure(o, items[i], s, location, i), at)
    ensures ReportsAt(ListFailures(o, items, s, location), at)
  {
    JoinedReports(ItemParts(o, items, s, location), i, at);
  }

  lemma {:induction false} AdditionalReported(o: Oracle, v: Value, a: Additional, location: Location, reason: string, rest: Location)
    requires BlamesAdditional(o, v, a, rest)
    ensures ReportsAt(AdditionalFailures(o, v, a, location, reason), location + rest)
    decreases a, 4
  {
    match a
    case Deny =>
      assert location + rest == location;
      assert Failure(location, reason) in AdditionalFailures(o, v, a, location, reason);
    case Must(s) => BlameReported(o, v, s, location, rest);
  }

  lemma {:induction false} RequiredReported(members: seq<Member>, s: CompiledSchema, location: Location, i: nat)
    requires i < |s.required| && !Has(members, s.required[i])
    ensures ReportsAt(Joined(RequiredParts(members, s, location)), location + [Field(s.required[i])])
  {
    var parts := RequiredParts(members, s, location);
    assert Failure(location + [Field(s.required[i])], "required member is missing") in parts[i];
    JoinedReports(parts, i, location + [Field(s.required[i])]);
  }

  lemma {:induction false} PropertyReported(o: Oracle, members: seq<Member>, s: CompiledSchema, location: Location, i: nat, rest: Location)
    requires i < |s.properties| && Has(members, s.properties[i].name)
    requires Blames(o, members[Find(members, s.properties[i].name)].value, s.properties[i].schema, rest)
    ensures ReportsAt(Joined(PropertyParts(o, members, s, location)), location + [Field(s.properties[i].name)] + rest)
    decreases s, 0
  {
    var p := s.properties[i];
    var at := location + [Field(p.name)];
    BlameReported(o, members[Find(members, p.name)].value, p.schema, at, rest);
    assert ReportsAt(PropertyFailure(o, members, s, location, i), at + rest);
    JoinedReports(PropertyParts(o, members, s, location), i, at + rest);
  }

  lemma {:induction false} ExtraReported(o: Oracle, members: seq<Member>, s: CompiledSchema, location: Location, i: nat, rest: Location)
    requires i < |members| && !Declares(s.properties, members[i].name)
    requires BlamesAdditional(o, members[i].value, s.additionalProperties, rest)
    ensures ReportsAt(Joined(ExtraParts(o, members, s, location)), location + [Field(members[i].name)] + rest)
    decreases s, 0
  {
    var at := location + [Field(members[i].name)];
    AdditionalReported(o, members[i].value, s.additionalProperties, at, "additional member is not allowed", rest);
    assert ReportsAt(ExtraFailure(o, members[i], s, location), at + rest);
    JoinedReports(ExtraParts(o, members, s, location), i, at + rest);
  }

  lemma {:induction false} MemberReported(o: Oracle, members: seq<Member>, s: CompiledSchema, location: Location, name: string, rest: Location)
    requires BlamesPart(o, ObjectValue(members), s, Field(name), rest)
    ensures ReportsAt(ObjectFailures(o, members, s, location), location + [Field(name)] + rest)
    decreases s, 1
  {
    if i :| 0 <= i < |s.properties| && s.properties[i].name == name && Has(members, name)
            && Blames(o, members[Find(members, name)].value, s.properties[i].schema, rest) {
      PropertyReported(o, members, s, location, i, rest);
    } else if i :| 0 <= i < |members| && members[i].name == name && !Declares(s.properties, name)
                   && BlamesAdditional(o, members[i].value, s.additionalProperties, rest) {
      ExtraReported(o, members, s, location, i, rest);
    } else {
      var i :| 0 <= i < |s.required| && s.required[i] == name;
      assert location + [Field(name)] + rest == location + [Field(name)];
      RequiredReported(members, s, location, i);
    }
  }

  lemma {:induction false} ItemReported(o: Oracle, items: seq<Value>, s: CompiledSchema, location: Location, i: nat, rest: Location)
    requires BlamesPart(o, ListValue(items), s, At(i), rest)
    ensures ReportsAt(ItemFailure(o, items[i], s, location, i), location + [At(i)] + rest)
    decreases s, 1
  {
    match s.items
    case EachItem(each) => BlameReported(o, items[i], each, location + [At(i)], rest);
    case Tuple(schemas) =>
      if i < |schemas| {
        BlameReported(o, items[i], schemas[i], location + [At(i)], rest);
      } else {
        AdditionalReported(o, items[i], s.additionalItems, location + [At(i)], "additional tuple element is not allowed", rest);
      }
  }

  /** Failures are reported exactly at the places where there is something to blame. */
  lemma {:induction false} ReportedIff(o: Oracle, v: Value, s: CompiledSchema, path: Location)
    ensures ReportsAt(Failures(o, v, s, []), path) <==> Blames(o, v, s, path)
  {
    if f :| f in Failures(o, v, s, []) && f.location == path {
      FailuresLocated(o, v, s, [], f);
      assert f.location[0..] == path;
    }
    if Blames(o, v, s, path) {
      BlameReported(o, v, s, [], path);
      assert [] + path == path;
    }
  }

  /** Every failure added to the list is located. */
  ghost predicate AllLocated(o: Oracle, v: Value, s: CompiledSchema, added: seq<Failure>) {
    forall k :: 0 <= k < |added| ==> Located(o, v, s, [], added[k])
  }

  /** Every place with something to blame is among those added to the list. */
  ghost predicate NoneMissing(o: Oracle, v: Value, s: CompiledSchema, added: seq<Failure>) {
    forall path :: Blames(o, v, s, path) ==> ReportsAt(added, path)
  }

  lemma {:induction false} PrefixLocated(o: Oracle, v: Value, s: CompiledSchema, added: seq<Failure>)
    requires added <= Failures(o, v, s, [])
    ensures AllLocated(o, v, s, added)
  {
    forall k | 0 <= k < |added|
      ensures Located(o, v, s, [], added[k])
    {
      assert added[k] == Failures(o, v, s, [])[k];
      FailuresLocated(o, v, s, [], added[k]);
    }
  }

  lemma {:induction false} CompleteList(o: Oracle, v: Value, s: CompiledSchema)
    ensures NoneMissing(o, v, s, Failures(o, v, s, []))
  {
    forall path | Blames(o, v, s, path)
      ensures ReportsAt(Failures(o, v, s, []), path)
    {
      ReportedIff(o, v, s, path);
    }
  }

  lemma {:induction false} CappedAdds(before: seq<Failure>, more: seq<Failure>) returns (added: seq<Failure>)
    ensures added == Capped(before, more)[|before|..] && added <= more
    ensures |Capped(before, more)| < MAX_FAILURES ==> added == more
  {
    added := Capped(before, more)[|before|..];
  }

  /** Every failure `validate_value` adds is located, there is one if the value violates the schema and
      the list has room, and none is missing unless the list is full. */
  method ValidateLocated(o: Oracle, v: Value, s: CompiledSchema, failures: seq<Failure>) returns (after: seq<Failure>)
    ensures failures <= after
    ensures AllLocated(o, v, s, after[|failures|..])
    ensures |failures| < MAX_FAILURES ==> (|after| > |failures| <==> !Satisfies(o, v, s))
    ensures |after| < MAX_FAILURES ==> NoneMissing(o, v, s, after[|failures|..])
  {
    after := ValidateValue(o, v, s, [], failures);
    ghost var added := CappedAdds(failures, Failures(o, v, s, []));
    PrefixLocated(o, v, s, added);
    CompleteList(o, v, s);
  }
}
