/** src/ainir/mcp_tool_call.py: the bounded JSON Schema subset, the check of a
    schema's own definition and the check of a value against a schema. */
module JsonSchema {
  import opened Text
  import opened JsonTree

  datatype Rule =
    | SchemaNotObject | UnsupportedKeyword | UnknownType | BadEnum | BadProperties
    | EmptyPropertyName | BadRequired | RequiredNotInProperties | OpenProperties
    | MissingItems | BadBound | BadNumber
    | WrongType | ConstMismatch | OutsideEnum | MissingRequired | AdditionalProperty
    | TooFewItems | TooManyItems | TooShort | TooLong | BelowMinimum | AboveMaximum

  /** A finding: where, and which rule; the wording is not modelled. */
  datatype Finding = Finding(path: string, rule: Rule)

  function When(failed: bool, path: string, rule: Rule): (r: seq<Finding>)
    ensures r == [] <==> !failed
  {
    if failed then [Finding(path, rule)] else []
  }

  predicate AllowedKeyword(k: string) {
    k in {"$schema", "title", "description", "type", "properties", "required",
          "additionalProperties", "items", "minItems", "maxItems", "minLength",
          "maxLength", "minimum", "maximum", "enum", "const"}
  }

  datatype SchemaType = ObjectT | ArrayT | StringT | NumberT | IntegerT | BooleanT | NullT | NoType

  function TypeOf(schema: Json): SchemaType {
    match Get(schema, "type")
    case Str(s) =>
      if s == "object" then ObjectT
      else if s == "array" then ArrayT
      else if s == "string" then StringT
      else if s == "number" then NumberT
      else if s == "integer" then IntegerT
      else if s == "boolean" then BooleanT
      else if s == "null" then NullT
      else NoType
    case _ => NoType
  }

  // ----- the definition check -----

  predicate NonEmptyString(v: Json) { v.Str? && v.s != "" }

  predicate BadNameList(required: Json) {
    || !required.Arr?
    || (exists i | 0 <= i < |required.items| :: !NonEmptyString(required.items[i]))
    || (exists i, j | 0 <= i < j < |required.items| :: required.items[i] == required.items[j])
  }

  function Properties(schema: Json): Json { GetOr(schema, "properties", Obj([])) }

  function Required(schema: Json): Json { GetOr(schema, "required", Arr([])) }

  predicate BadBoundAt(schema: Json, k: string) {
    Has(schema, k) && !(Get(schema, k).Int? && Get(schema, k).n >= 0)
  }

  predicate BadNumberAt(schema: Json, k: string) {
    Has(schema, k) && !(Get(schema, k).Int? || Get(schema, k).Float?)
  }

  predicate RequiredOutside(schema: Json)
    requires Required(schema).Arr?
  {
    Properties(schema).Obj? &&
    exists i | 0 <= i < |Required(schema).items| ::
      !(Required(schema).items[i].Str? && Has(Properties(schema), Required(schema).items[i].s))
  }

  lemma {:induction false} LookupIsSmaller(v: Json, k: string)
    requires Has(v, k)
    ensures Get(v, k) < v
  {
    var m := Member(k, Get(v, k));
    assert m in v.members;
    assert m < v;
  }

  function DefinitionFindings(schema: Json, path: string): seq<Finding>
    decreases schema, 2
  {
    if !schema.Obj? then [Finding(path, SchemaNotObject)]
    else Keywords(schema, path) + ShapeFindings(schema, path) + Bounds(schema, path)
  }

  function Keywords(schema: Json, path: string): seq<Finding>
    requires schema.Obj?
  {
    When(exists m | m in schema.members :: !AllowedKeyword(m.key), path, UnsupportedKeyword)
    + When(TypeOf(schema).NoType?, path + ".type", UnknownType)
    + When(var e := Get(schema, "enum"); !e.Null? && !(e.Arr? && e.items != []), path + ".enum", BadEnum)
  }

  function Bounds(schema: Json, path: string): seq<Finding> {
    When(BadBoundAt(schema, "minLength"), path + ".minLength", BadBound)
    + When(BadBoundAt(schema, "maxLength"), path + ".maxLength", BadBound)
    + When(BadBoundAt(schema, "minItems"), path + ".minItems", BadBound)
    + When(BadBoundAt(schema, "maxItems"), path + ".maxItems", BadBound)
    + When(BadNumberAt(schema, "minimum"), path + ".minimum", BadNumber)
    + When(BadNumberAt(schema, "maximum"), path + ".maximum", BadNumber)
  }

  function NamingFindings(schema: Json, path: string): seq<Finding> {
    (if BadNameList(Required(schema)) then [Finding(path + ".required", BadRequired)]
     else When(RequiredOutside(schema), path + ".required", RequiredNotInProperties))
    + When(GetOr(schema, "additionalProperties", Bool(false)) != Bool(false), path + ".additionalProperties", OpenProperties)
  }

  function ShapeFindings(schema: Json, path: string): seq<Finding>
    requires schema.Obj?
    decreases schema, 1
  {
    match TypeOf(schema)
    case ObjectT =>
      (if Has(schema, "properties") then
         LookupIsSmaller(schema, "properties");
         var properties := Get(schema, "properties");
         if properties.Obj? then PropertyDefinitionFindings(properties.members, path)
         else [Finding(path + ".properties", BadProperties)]
       else [])
      + NamingFindings(schema, path)
    case ArrayT =>
      if !Has(schema, "items") then [Finding(path + ".items", MissingItems)]
      else
        LookupIsSmaller(schema, "items");
        DefinitionFindings(Get(schema, "items"), path + ".items")
    case _ => []
  }

  function PropertyDefinitionFindings(ms: seq<Member>, path: string): seq<Finding>
    decreases ms, 0
  {
    if ms == [] then []
    else
      var m := ms[|ms| - 1];
      PropertyDefinitionFindings(ms[..|ms| - 1], path)
      + (if m.key == "" then [Finding(path + ".properties", EmptyPropertyName)]
         else DefinitionFindings(m.value, path + ".properties." + m.key))
  }

  lemma {:induction false} CleanProperty(ms: seq<Member>, path: string, i: nat)
    requires PropertyDefinitionFindings(ms, path) == [] && i < |ms|
    ensures ms[i].key != "" && DefinitionFindings(ms[i].value, path + ".properties." + ms[i].key) == []
  {
    if i < |ms| - 1 { CleanProperty(ms[..|ms| - 1], path, i); }
  }

  method SchemaDefinitionFindings(schema: Json, path: string) returns (findings: seq<Finding>)
    ensures findings == DefinitionFindings(schema, path)
    decreases schema, 1
  {
    if !schema.Obj? { return [Finding(path, SchemaNotObject)]; }
    findings := Keywords(schema, path);
    var shape := SchemaShapeFindings(schema, path);
    findings := findings + shape;
    findings := findings + Bounds(schema, path);
  }

  method SchemaShapeFindings(schema: Json, path: string) returns (findings: seq<Finding>)
    requires schema.Obj?
    ensures findings == ShapeFindings(schema, path)
    decreases schema, 0
  {
    findings := [];
    match TypeOf(schema) {
      case ObjectT =>
        if Has(schema, "properties") {
          LookupIsSmaller(schema, "properties");
          var properties := Get(schema, "properties");
          if properties.Obj? {
            findings := SchemaPropertyFindings(properties.members, path);
          } else {
            findings := [Finding(path + ".properties", BadProperties)];
          }
        }
        findings := findings + NamingFindings(schema, path);
      case ArrayT =>
        if !Has(schema, "items") {
          findings := [Finding(path + ".items", MissingItems)];
        } else {
          LookupIsSmaller(schema, "items");
          findings := SchemaDefinitionFindings(Get(schema, "items"), path + ".items");
        }
      case _ =>
    }
  }

  /** The loop over `properties` in the definition check. */
  method SchemaPropertyFindings(ms: seq<Member>, path: string) returns (findings: seq<Finding>)
    ensures findings == PropertyDefinitionFindings(ms, path)
    decreases ms, 0
  {
    findings := [];
    for i := 0 to |ms|
      invariant findings == PropertyDefinitionFindings(ms[..i], path)
    {
      assert ms[..i + 1][..i] == ms[..i];
      if ms[i].key == "" {
        findings := findings + [Finding(path + ".properties", EmptyPropertyName)];
      } else {
        var child := SchemaDefinitionFindings(ms[i].value, path + ".properties." + ms[i].key);
        findings := findings + child;
      }
    }
    assert ms[..|ms|] == ms;
  }

  // ----- the value check -----

  predicate TypeAdmits(t: SchemaType, v: Json) {
    match t
    case ObjectT => v.Obj?
    case ArrayT => v.Arr?
    case StringT => v.Str?
    case NumberT => v.Int? || v.Float?
    case IntegerT => v.Int?
    case BooleanT => v.Bool?
    case NullT => v.Null?
    case NoType => false
  }

  /** Python's `value in list`. */
  predicate In(v: Json, items: seq<Json>) { exists x | x in items :: PyEq(v, x) }

  predicate IsInt(v: Json) { v.Int? || v.Bool? }

  function Missing(schema: Json, v: Json): bool
    requires v.Obj?
  {
    var required := Get(schema, "required");
    required.Arr? && exists x | x in required.items :: !(x.Str? && Has(v, x.s))
  }

  function ShownProperties(schema: Json): seq<Member> {
    var properties := Get(schema, "properties");
    if properties.Obj? then properties.members else []
  }

  predicate Additional(schema: Json, v: Json)
    requires v.Obj?
  {
    && (exists m | m in v.members :: !HasKey(ShownProperties(schema), m.key))
    && GetOr(schema, "additionalProperties", Bool(false)) == Bool(false)
  }

  function ValueFindings(v: Json, schema: Json, path: string): seq<Finding>
    decreases v, 2
  {
    if !TypeAdmits(TypeOf(schema), v) then [Finding(path, WrongType)]
    else FixedValueFindings(v, schema, path) + ContentFindings(v, schema, path)
  }

  function FixedValueFindings(v: Json, schema: Json, path: string): seq<Finding> {
    When(Has(schema, "const") && !PyEq(v, Get(schema, "const")), path, ConstMismatch)
    + When(Get(schema, "enum").Arr? && !In(v, Get(schema, "enum").items), path, OutsideEnum)
  }

  function ContentFindings(v: Json, schema: Json, path: string): seq<Finding>
    requires TypeAdmits(TypeOf(schema), v)
    decreases v, 1
  {
    match v
    case Obj(_) =>
      When(Missing(schema, v), path, MissingRequired)
      + When(Additional(schema, v), path, AdditionalProperty)
      + PropertyFindings(v, ShownProperties(schema), path)
    case Arr(items) =>
      LengthFindings(|items|, Get(schema, "minItems"), Get(schema, "maxItems"), path, TooFewItems, TooManyItems)
      + (if Get(schema, "items").Obj? then ItemFindings(items, Get(schema, "items"), path) else [])
    case Str(s) =>
      LengthFindings(|s|, Get(schema, "minLength"), Get(schema, "maxLength"), path, TooShort, TooLong)
    case Int(_) => RangeFindings(v, schema, path)
    case Float(_, _) => RangeFindings(v, schema, path)
    case _ => []
  }

  function LengthFindings(size: nat, lo: Json, hi: Json, path: string, below: Rule, above: Rule): (r: seq<Finding>)
    ensures r == [] <==> (IsInt(lo) ==> NumericValue(lo) <= size as real) && (IsInt(hi) ==> size as real <= NumericValue(hi))
  {
    When(IsInt(lo) && (size as real) < NumericValue(lo), path, below)
    + When(IsInt(hi) && (size as real) > NumericValue(hi), path, above)
  }

  function RangeFindings(v: Json, schema: Json, path: string): (r: seq<Finding>)
    requires IsNumeric(v)
    ensures var lo, hi := Get(schema, "minimum"), Get(schema, "maximum");
            r == [] <==> (IsNumeric(lo) ==> NumericValue(lo) <= NumericValue(v)) && (IsNumeric(hi) ==> NumericValue(v) <= NumericValue(hi))
  {
    var lo, hi := Get(schema, "minimum"), Get(schema, "maximum");
    When(IsNumeric(lo) && NumericValue(v) < NumericValue(lo), path, BelowMinimum)
    + When(IsNumeric(hi) && NumericValue(v) > NumericValue(hi), path, AboveMaximum)
  }

  function PropertyFindings(v: Json, properties: seq<Member>, path: string): seq<Finding>
    requires v.Obj?
    decreases v, 0, |properties|
  {
    if properties == [] then []
    else
      var p := properties[|properties| - 1];
      PropertyFindings(v, properties[..|properties| - 1], path)
      + (if Has(v, p.key) && p.value.Obj? then
           LookupIsSmaller(v, p.key);
           ValueFindings(Get(v, p.key), p.value, path + "/" + p.key)
         else [])
  }

  function ItemFindings(items: seq<Json>, schema: Json, path: string): seq<Finding>
    decreases items, 0
  {
    if items == [] then []
    else
      var n := |items| - 1;
      ItemFindings(items[..n], schema, path) + ValueFindings(items[n], schema, path + "/" + NatText(n))
  }

  method SchemaValueFindings(v: Json, schema: Json, path: string) returns (findings: seq<Finding>)
    ensures findings == ValueFindings(v, schema, path)
    decreases v, 1
  {
    if !TypeAdmits(TypeOf(schema), v) { return [Finding(path, WrongType)]; }
    findings := FixedValueFindings(v, schema, path);
    var content: seq<Finding> := [];
    match v {
      case Obj(_) =>
        var inner := SchemaMemberFindings(v, ShownProperties(schema), path);
        content := When(Missing(schema, v), path, MissingRequired) + When(Additional(schema, v), path, AdditionalProperty) + inner;
      case Arr(items) =>
        content := LengthFindings(|items|, Get(schema, "minItems"), Get(schema, "maxItems"), path, TooFewItems, TooManyItems);
        if Get(schema, "items").Obj? {
          var inner := SchemaItemFindings(items, Get(schema, "items"), path);
          content := content + inner;
        }
      case Str(s) =>
        content := LengthFindings(|s|, Get(schema, "minLength"), Get(schema, "maxLength"), path, TooShort, TooLong);
      case Int(_) => content := RangeFindings(v, schema, path);
      case Float(_, _) => content := RangeFindings(v, schema, path);
      case _ =>
    }
    findings := findings + content;
  }

  /** The loop over `properties` in the value check. */
  method SchemaMemberFindings(v: Json, properties: seq<Member>, path: string) returns (findings: seq<Finding>)
    requires v.Obj?
    ensures findings == PropertyFindings(v, properties, path)
    decreases v, 0
  {
    findings := [];
    for i := 0 to |properties|
      invariant findings == PropertyFindings(v, properties[..i], path)
    {
      assert properties[..i + 1][..i] == properties[..i];
      var p := properties[i];
      if Has(v, p.key) && p.value.Obj? {
        LookupIsSmaller(v, p.key);
        var child := SchemaValueFindings(Get(v, p.key), p.value, path + "/" + p.key);
        findings := findings + child;
      }
    }
    assert properties[..|properties|] == properties;
  }

  /** The loop over the items in the value check. */
  method SchemaItemFindings(items: seq<Json>, schema: Json, path: string) returns (findings: seq<Finding>)
    ensures findings == ItemFindings(items, schema, path)
    decreases items, 0
  {
    findings := [];
    for i := 0 to |items|
      invariant findings == ItemFindings(items[..i], schema, path)
    {
      assert items[..i + 1][..i] == items[..i];
      var child := SchemaValueFindings(items[i], schema, path + "/" + NatText(i));
      findings := findings + child;
    }
    assert items[..|items|] == items;
  }

  // ----- what a schema means -----

  predicate AtLeast(schema: Json, k: string, size: real) {
    Has(schema, k) ==> IsNumeric(Get(schema, k)) && NumericValue(Get(schema, k)) <= size
  }

  predicate AtMost(schema: Json, k: string, size: real) {
    Has(schema, k) ==> IsNumeric(Get(schema, k)) && size <= NumericValue(Get(schema, k))
  }

  /** JSON Schema 2020-12 restricted to the subset: Validation sections 6.1 to 6.5
      with Core sections 10.3.1.2 and 10.3.2.1, every object closed. */
  ghost predicate Conforms(v: Json, schema: Json)
    decreases v, 1
  {
    && TypeAdmits(TypeOf(schema), v)
    && (Has(schema, "const") ==> PyEq(v, Get(schema, "const")))
    && (Get(schema, "enum").Arr? ==> In(v, Get(schema, "enum").items))
    && ContentConforms(v, schema)
  }

  ghost predicate ContentConforms(v: Json, schema: Json)
    decreases v, 0
  {
    match v
    case Obj(ms) =>
      && RequiredPresent(v, Required(schema))
      && (forall m | m in ms :: Has(Properties(schema), m.key))
      && MembersConform(ms, Properties(schema))
    case Arr(items) =>
      && AtLeast(schema, "minItems", |items| as real)
      && AtMost(schema, "maxItems", |items| as real)
      && ItemsConform(items, Get(schema, "items"))
    case Str(s) => AtLeast(schema, "minLength", |s| as real) && AtMost(schema, "maxLength", |s| as real)
    case Int(n) => AtLeast(schema, "minimum", n as real) && AtMost(schema, "maximum", n as real)
    case Float(r, _) => AtLeast(schema, "minimum", r) && AtMost(schema, "maximum", r)
    case _ => true
  }

  predicate RequiredPresent(v: Json, required: Json) {
    required.Arr? && forall x | x in required.items :: x.Str? && Has(v, x.s)
  }

  ghost predicate MembersConform(ms: seq<Member>, properties: Json)
    decreases ms, 0
  {
    forall m | m in ms && Has(properties, m.key) :: Conforms(m.value, Get(properties, m.key))
  }

  ghost predicate ItemsConform(items: seq<Json>, schema: Json)
    decreases items, 0
  {
    forall x | x in items :: Conforms(x, schema)
  }

  // ----- the check computes the meaning -----

  ghost predicate Defined(schema: Json) { DefinitionFindings(schema, "$") == [] }

  /** Findings move with their path and never appear or vanish with it. */
  lemma {:induction false} DefinitionPathFree(schema: Json, p: string, q: string)
    requires DefinitionFindings(schema, p) == []
    ensures DefinitionFindings(schema, q) == []
    decreases schema, 1
  {
    if Has(schema, "properties") { LookupIsSmaller(schema, "properties"); }
    if Has(schema, "items") { LookupIsSmaller(schema, "items"); }
    match TypeOf(schema)
    case ObjectT =>
      if Has(schema, "properties") { PropertiesPathFree(Get(schema, "properties").members, p, q); }
    case ArrayT => DefinitionPathFree(Get(schema, "items"), p + ".items", q + ".items");
    case _ =>
  }

  lemma {:induction false} PropertiesPathFree(ms: seq<Member>, p: string, q: string)
    requires PropertyDefinitionFindings(ms, p) == []
    ensures PropertyDefinitionFindings(ms, q) == []
    decreases ms, 0
  {
    if ms != [] {
      var m := ms[|ms| - 1];
      PropertiesPathFree(ms[..|ms| - 1], p, q);
      DefinitionPathFree(m.value, p + ".properties." + m.key, q + ".properties." + m.key);
    }
  }

  /** Nothing reported means nothing reported by any part. */
  lemma {:induction false} CleanParts(schema: Json, path: string)
    requires DefinitionFindings(schema, path) == []
    ensures schema.Obj? && Keywords(schema, path) == [] && ShapeFindings(schema, path) == [] && Bounds(schema, path) == []
  {
  }

  lemma {:induction false} CleanObject(schema: Json, path: string)
    requires schema.Obj? && TypeOf(schema).ObjectT? && ShapeFindings(schema, path) == []
    ensures Has(schema, "properties") ==>
              Get(schema, "properties").Obj? && PropertyDefinitionFindings(Get(schema, "properties").members, path) == []
    ensures NamingFindings(schema, path) == []
    ensures Properties(schema).Obj? && ShownProperties(schema) == Properties(schema).members
  {
  }

  lemma {:induction false} ChildDefined(schema: Json, k: string)
    requires Defined(schema) && TypeOf(schema).ObjectT? && Has(Properties(schema), k)
    ensures Defined(Get(Properties(schema), k)) && Get(Properties(schema), k).Obj?
  {
    CleanParts(schema, "$");
    CleanObject(schema, "$");
    var ms := Properties(schema).members;
    var i :| 0 <= i < |ms| && ms[i] == Member(k, Get(Properties(schema), k));
    CleanProperty(ms, "$", i);
    DefinitionPathFree(ms[i].value, "$" + ".properties." + k, "$");
  }

  lemma {:induction false} ItemsDefined(schema: Json)
    requires Defined(schema) && TypeOf(schema).ArrayT?
    ensures Has(schema, "items") && Defined(Get(schema, "items")) && Get(schema, "items").Obj?
  {
    CleanParts(schema, "$");
    DefinitionPathFree(Get(schema, "items"), "$" + ".items", "$");
  }

  lemma {:induction false} BoundsMean(schema: Json, path: string)
    requires Bounds(schema, path) == []
    ensures Has(schema, "minLength") ==> IsInt(Get(schema, "minLength"))
    ensures Has(schema, "maxLength") ==> IsInt(Get(schema, "maxLength"))
    ensures Has(schema, "minItems") ==> IsInt(Get(schema, "minItems"))
    ensures Has(schema, "maxItems") ==> IsInt(Get(schema, "maxItems"))
    ensures Has(schema, "minimum") ==> IsNumeric(Get(schema, "minimum"))
    ensures Has(schema, "maximum") ==> IsNumeric(Get(schema, "maximum"))
  {
  }

  lemma {:induction false} AbsentIsNull(schema: Json, k: string)
    requires !Has(schema, k)
    ensures Get(schema, k) == Null
  {
  }

  lemma {:induction false} LengthsMean(schema: Json, size: nat, lo: string, hi: string, path: string, below: Rule, above: Rule)
    requires Has(schema, lo) ==> IsInt(Get(schema, lo))
    requires Has(schema, hi) ==> IsInt(Get(schema, hi))
    ensures LengthFindings(size, Get(schema, lo), Get(schema, hi), path, below, above) == [] <==>
              AtLeast(schema, lo, size as real) && AtMost(schema, hi, size as real)
  {
    if !Has(schema, lo) { AbsentIsNull(schema, lo); }
    if !Has(schema, hi) { AbsentIsNull(schema, hi); }
  }

  lemma {:induction false} NamingMeans(schema: Json, path: string)
    requires schema.Obj? && Properties(schema).Obj? && NamingFindings(schema, path) == []
    ensures Required(schema).Arr?
    ensures forall x | x in Required(schema).items :: x.Str? && Has(Properties(schema), x.s)
    ensures GetOr(schema, "additionalProperties", Bool(false)) == Bool(false)
  {
    forall x | x in Required(schema).items ensures x.Str? && Has(Properties(schema), x.s) {
      var i :| 0 <= i < |Required(schema).items| && Required(schema).items[i] == x;
    }
  }

  ghost predicate PropertyClean(v: Json, p: Member, path: string) {
    Has(v, p.key) && p.value.Obj? ==> ValueFindings(Get(v, p.key), p.value, path + "/" + p.key) == []
  }

  lemma {:induction false} PropertyFindingsLast(v: Json, properties: seq<Member>, path: string)
    requires v.Obj? && properties != []
    ensures var n := |properties| - 1;
            PropertyFindings(v, properties, path) == [] <==>
              PropertyFindings(v, properties[..n], path) == [] && PropertyClean(v, properties[n], path)
  {
  }

  ghost predicate PropertiesClean(v: Json, properties: seq<Member>, path: string) {
    forall p | p in properties :: PropertyClean(v, p, path)
  }

  lemma {:induction false} PropertiesCleanLast(v: Json, properties: seq<Member>, path: string)
    requires properties != []
    ensures var n := |properties| - 1;
            PropertiesClean(v, properties, path) <==>
              PropertiesClean(v, properties[..n], path) && PropertyClean(v, properties[n], path)
  {
    assert forall p :: p in properties <==> p in properties[..|properties| - 1] || p == properties[|properties| - 1];
  }

  lemma {:induction false} PropertyFindingsEmpty(v: Json, properties: seq<Member>, path: string)
    requires v.Obj?
    ensures PropertyFindings(v, properties, path) == [] <==> PropertiesClean(v, properties, path)
    decreases |properties|
  {
    if properties != [] {
      PropertyFindingsEmpty(v, properties[..|properties| - 1], path);
      PropertyFindingsLast(v, properties, path);
      PropertiesCleanLast(v, properties, path);
    }
  }

  /** Main result: under a clean definition, the value check reports nothing
      exactly when the value conforms. */
  lemma {:induction false} ValueCheckExact(v: Json, schema: Json, path: string)
    requires Defined(schema) && WellFormed(v) && WellFormed(schema)
    ensures ValueFindings(v, schema, path) == [] <==> Conforms(v, schema)
    decreases v, 3
  {
    if TypeAdmits(TypeOf(schema), v) { ContentCheckExact(v, schema, path); }
  }

  lemma {:induction false} ContentCheckExact(v: Json, schema: Json, path: string)
    requires Defined(schema) && WellFormed(v) && WellFormed(schema) && TypeAdmits(TypeOf(schema), v)
    ensures ContentFindings(v, schema, path) == [] <==> ContentConforms(v, schema)
    decreases v, 2
  {
    if v.Obj? {
      ObjectCheckExact(v, schema, path);
    } else if v.Arr? {
      ArrayCheckExact(v.items, schema, path);
    } else {
      CleanParts(schema, "$");
      BoundsMean(schema, "$");
      if v.Str? { LengthsMean(schema, |v.s|, "minLength", "maxLength", path, TooShort, TooLong); }
    }
  }

  lemma {:induction false} ObjectCheckExact(v: Json, schema: Json, path: string)
    requires Defined(schema) && WellFormed(v) && WellFormed(schema) && v.Obj? && TypeOf(schema).ObjectT?
    ensures ContentFindings(v, schema, path) == [] <==> ContentConforms(v, schema)
    decreases v, 1
  {
    CleanParts(schema, "$");
    CleanObject(schema, "$");
    NamingMeans(schema, "$");
    var properties := Properties(schema);
    assert Missing(schema, v) <==> !RequiredPresent(v, Required(schema));
    assert Additional(schema, v) <==> exists m | m in v.members :: !Has(properties, m.key);
    PropertyFindingsEmpty(v, properties.members, path);
    if Has(schema, "properties") { assert Member("properties", properties) in schema.members; }
    MembersCheckExact(v, schema, path);
  }

  lemma {:induction false} MembersCheckExact(v: Json, schema: Json, path: string)
    requires Defined(schema) && WellFormed(v) && WellFormed(schema) && v.Obj? && TypeOf(schema).ObjectT?
    requires Properties(schema).Obj? && Distinct(Properties(schema).members)
    ensures MembersConform(v.members, Properties(schema)) <==> PropertiesClean(v, Properties(schema).members, path)
    decreases v, 0
  {
    var properties := Properties(schema);
    forall m | m in v.members && Has(properties, m.key)
      ensures var p := Member(m.key, Get(properties, m.key));
              && p in properties.members
              && (PropertyClean(v, p, path) <==> Conforms(m.value, p.value))
    {
      var i :| 0 <= i < |v.members| && v.members[i] == m;
      LookupAt(v.members, i);
      ChildDefined(schema, m.key);
      ChildWellFormed(schema, m.key);
      ValueCheckExact(m.value, Get(properties, m.key), path + "/" + m.key);
    }
    forall p | p in properties.members && Has(v, p.key)
      ensures Member(p.key, Get(v, p.key)) in v.members && Get(properties, p.key) == p.value
    {
      var i :| 0 <= i < |properties.members| && properties.members[i] == p;
      LookupAt(properties.members, i);
    }
  }

  lemma {:induction false} ChildWellFormed(schema: Json, k: string)
    requires WellFormed(schema) && Has(Properties(schema), k)
    ensures WellFormed(Get(Properties(schema), k))
  {
    var properties := Properties(schema);
    if Has(schema, "properties") {
      assert Member("properties", properties) in schema.members;
      assert WellFormed(properties);
      assert Member(k, Get(properties, k)) in properties.members;
    }
  }

  lemma {:induction false} ArrayCheckExact(items: seq<Json>, schema: Json, path: string)
    requires Defined(schema) && WellFormed(Arr(items)) && WellFormed(schema) && TypeOf(schema).ArrayT?
    ensures ContentFindings(Arr(items), schema, path) == [] <==> ContentConforms(Arr(items), schema)
    decreases items, 1
  {
    CleanParts(schema, "$");
    BoundsMean(schema, "$");
    LengthsMean(schema, |items|, "minItems", "maxItems", path, TooFewItems, TooManyItems);
    ItemsDefined(schema);
    assert Member("items", Get(schema, "items")) in schema.members;
    ItemsCheckExact(items, Get(schema, "items"), path);
  }

  lemma {:induction false} ItemsCheckExact(items: seq<Json>, schema: Json, path: string)
    requires Defined(schema) && WellFormed(Arr(items)) && WellFormed(schema)
    ensures ItemFindings(items, schema, path) == [] <==> ItemsConform(items, schema)
    decreases items, 0
  {
    if items != [] {
      var n := |items| - 1;
      assert items == items[..n] + [items[n]];
      assert items[n] in items;
      ItemsCheckExact(items[..n], schema, path);
      ValueCheckExact(items[n], schema, path + "/" + NatText(n));
    }
  }

  // ----- a clean schema bounds the depth of what it accepts -----

  lemma {:induction false} ConformingIsShallow(v: Json, schema: Json)
    requires Defined(schema) && WellFormed(v) && Conforms(v, schema)
    ensures Height(v) <= Height(schema)
    decreases v, 1
  {
    match v
    case Obj(ms) =>
      if ms != [] {
        CleanParts(schema, "$");
        CleanObject(schema, "$");
        assert Has(Properties(schema), ms[0].key);
        MembersAreShallow(ms, schema);
      }
    case Arr(items) =>
      if items != [] {
        ItemsDefined(schema);
        ChildHeight(schema, "items");
        ItemsAreShallow(items, Get(schema, "items"));
      }
    case _ =>
  }

  lemma {:induction false} ChildHeight(v: Json, k: string)
    requires Has(v, k)
    ensures Height(Get(v, k)) + 1 <= Height(v)
  {
    var i :| 0 <= i < |v.members| && v.members[i] == Member(k, Get(v, k));
    MembersHeightBound(v.members, i);
  }

  lemma {:induction false} MembersAreShallow(ms: seq<Member>, schema: Json)
    requires Defined(schema) && TypeOf(schema).ObjectT? && ms != []
    requires forall m | m in ms :: WellFormed(m.value) && Has(Properties(schema), m.key)
    requires MembersConform(ms, Properties(schema))
    ensures 1 + MembersHeight(ms) <= Height(schema)
    decreases ms, 0
  {
    var m := ms[0];
    ChildDefined(schema, m.key);
    ConformingIsShallow(m.value, Get(Properties(schema), m.key));
    ChildHeight(Properties(schema), m.key);
    ChildHeight(schema, "properties");
    if |ms| == 1 {
      assert MembersHeight(ms[1..]) == 0;
    } else {
      MembersAreShallow(ms[1..], schema);
    }
  }

  lemma {:induction false} ItemsAreShallow(items: seq<Json>, schema: Json)
    requires Defined(schema) && ItemsConform(items, schema) && forall x | x in items :: WellFormed(x)
    ensures ItemsHeight(items) <= Height(schema)
    decreases items, 0
  {
    if items != [] {
      ConformingIsShallow(items[0], schema);
      ItemsAreShallow(items[1..], schema);
    }
  }

  /** An accepted value is no deeper than the schema that accepted it. */
  lemma {:induction false} AcceptedIsShallow(v: Json, schema: Json, path: string)
    requires Defined(schema) && WellFormed(v) && WellFormed(schema)
    requires ValueFindings(v, schema, path) == []
    ensures Height(v) <= Height(schema)
  {
    ValueCheckExact(v, schema, path);
    ConformingIsShallow(v, schema);
  }
}
