/** Tool argument schemas: values, compiled schemas, and when a value satisfies a schema. */
module Schema {
  import opened Values

  /** Members keep their order, and two objects are equal only with their members in the same
      order, as the argument layer compares them. Numbers are finite. */
  datatype Value =
    | NullValue
    | BoolValue(flag: bool)
    | NumberValue(number: real)
    | TextValue(text: string)
    | ListValue(items: seq<Value>)
    | ObjectValue(members: seq<Member>)

  datatype Member = Member(name: string, value: Value)

  datatype JsonType = NullType | BooleanType | NumberType | IntegerType | StringType | ArrayType | ObjectType

  /** Keywords that rest on regular expressions, format grammars, grapheme counts or floating
      remainders. What they accept is a parameter. */
  datatype Keyword =
    | MultipleOf(divisor: real)
    | MinLength(count: nat)
    | MaxLength(count: nat)
    | Pattern(source: string)
    | Format(name: string)

  type Oracle = (Keyword, Value) -> bool

  datatype Additional = Allow | Deny | Must(schema: CompiledSchema)

  datatype Items = AnyItems | EachItem(schema: CompiledSchema) | Tuple(schemas: seq<CompiledSchema>)

  datatype Property = Property(name: string, schema: CompiledSchema)

  datatype CompiledSchema = CompiledSchema(
    rejectAll: bool,
    types: seq<JsonType>,
    enumValues: Option<seq<Value>>,
    constant: Option<Value>,
    minimum: Option<real>,
    maximum: Option<real>,
    exclusiveMinimum: Option<real>,
    exclusiveMaximum: Option<real>,
    numberKeywords: seq<Keyword>,
    textKeywords: seq<Keyword>,
    minProperties: Option<nat>,
    maxProperties: Option<nat>,
    properties: seq<Property>,
    required: seq<string>,
    additionalProperties: Additional,
    minItems: Option<nat>,
    maxItems: Option<nat>,
    uniqueItems: bool,
    items: Items,
    additionalItems: Additional,
    hasAnyOf: bool,
    hasOneOf: bool,
    allOf: seq<CompiledSchema>,
    anyOf: seq<CompiledSchema>,
    oneOf: seq<CompiledSchema>)

  // ---------------------------------------------------------------- values

  predicate IsInteger(n: real) {
    n.Floor as real == n
  }

  predicate MatchesType(v: Value, t: JsonType) {
    match t
    case NullType => v.NullValue?
    case BooleanType => v.BoolValue?
    case NumberType => v.NumberValue?
    case IntegerType => v.NumberValue? && IsInteger(v.number)
    case StringType => v.TextValue?
    case ArrayType => v.ListValue?
    case ObjectType => v.ObjectValue?
  }

  predicate MatchesSome(v: Value, types: seq<JsonType>) {
    exists i :: 0 <= i < |types| && MatchesType(v, types[i])
  }

  /** The position of a member; the number of members if it is missing. */
  function Find(members: seq<Member>, name: string): (i: nat)
    ensures i <= |members| && (i < |members| ==> members[i].name == name)
    ensures forall j :: 0 <= j < i ==> members[j].name != name
  {
    if members == [] || members[0].name == name then 0 else 1 + Find(members[1..], name)
  }

  predicate Has(members: seq<Member>, name: string) {
    Find(members, name) < |members|
  }

  predicate Declares(properties: seq<Property>, name: string) {
    exists i :: 0 <= i < |properties| && properties[i].name == name
  }

  // ---------------------------------------------------------------- what a schema means

  predicate AtLeast(bound: Option<nat>, n: nat) { bound.Some? ==> bound.value <= n }

  predicate AtMost(bound: Option<nat>, n: nat) { bound.Some? ==> n <= bound.value }

  predicate AllAccept(o: Oracle, keywords: seq<Keyword>, v: Value) {
    forall i :: 0 <= i < |keywords| ==> o(keywords[i], v)
  }

  /** Assertions that do not look inside lists and objects. */
  predicate ScalarOk(o: Oracle, v: Value, s: CompiledSchema) {
    && (s.types != [] ==> MatchesSome(v, s.types))
    && (s.enumValues.Some? ==> v in s.enumValues.value)
    && (s.constant.Some? ==> v == s.constant.value)
    && (v.NumberValue? ==>
          && (s.minimum.Some? ==> s.minimum.value <= v.number)
          && (s.maximum.Some? ==> v.number <= s.maximum.value)
          && (s.exclusiveMinimum.Some? ==> s.exclusiveMinimum.value < v.number)
          && (s.exclusiveMaximum.Some? ==> v.number < s.exclusiveMaximum.value)
          && AllAccept(o, s.numberKeywords, v))
    && (v.TextValue? ==> AllAccept(o, s.textKeywords, v))
  }

  predicate Distinct(items: seq<Value>) {
    forall i, j :: 0 <= i < j < |items| ==> items[i] != items[j]
  }

  /** A value satisfies a schema when it passes every assertion (section 6 of JSON Schema
      Validation, draft 7), its parts satisfy the schemas that apply to them, and the
      combinations hold. */
  ghost predicate Satisfies(o: Oracle, v: Value, s: CompiledSchema)
    decreases s, 1
  {
    && !s.rejectAll
    && ScalarOk(o, v, s)
    && (v.ObjectValue? ==> ObjectOk(o, v.members, s))
    && (v.ListValue? ==> ListOk(o, v.items, s))
    && (forall i :: 0 <= i < |s.allOf| ==> Satisfies(o, v, s.allOf[i]))
    && (s.hasAnyOf ==> exists i :: 0 <= i < |s.anyOf| && Satisfies(o, v, s.anyOf[i]))
    && (s.hasOneOf ==>
          exists i :: 0 <= i < |s.oneOf| && Satisfies(o, v, s.oneOf[i]) &&
            forall j :: 0 <= j < |s.oneOf| && j != i ==> !Satisfies(o, v, s.oneOf[j]))
  }

  ghost predicate AdditionalOk(o: Oracle, v: Value, a: Additional)
    decreases a, 2
  {
    match a
    case Allow => true
    case Deny => false
    case Must(s) => Satisfies(o, v, s)
  }

  ghost predicate ObjectOk(o: Oracle, members: seq<Member>, s: CompiledSchema)
    decreases s, 0
  {
    && AtLeast(s.minProperties, |members|) && AtMost(s.maxProperties, |members|)
    && (forall i :: 0 <= i < |s.required| ==> Has(members, s.required[i]))
    && (forall i :: 0 <= i < |s.properties| && Has(members, s.properties[i].name) ==>
          Satisfies(o, members[Find(members, s.properties[i].name)].value, s.properties[i].schema))
    && (forall i :: 0 <= i < |members| && !Declares(s.properties, members[i].name) ==>
          AdditionalOk(o, members[i].value, s.additionalProperties))
  }

  ghost predicate ItemsOk(o: Oracle, items: seq<Value>, s: CompiledSchema)
    decreases s, 0, 0
  {
    match s.items
    case AnyItems => true
    case EachItem(each) => forall i :: 0 <= i < |items| ==> Satisfies(o, items[i], each)
    case Tuple(schemas) =>
      && (forall i :: 0 <= i < |items| && i < |schemas| ==> Satisfies(o, items[i], schemas[i]))
      && (forall i :: |schemas| <= i < |items| ==> AdditionalOk(o, items[i], s.additionalItems))
  }

  ghost predicate ListOk(o: Oracle, items: seq<Value>, s: CompiledSchema)
    decreases s, 0, 1
  {
    && AtLeast(s.minItems, |items|) && AtMost(s.maxItems, |items|)
    && (s.uniqueItems ==> Distinct(items))
    && ItemsOk(o, items, s)
  }
}
