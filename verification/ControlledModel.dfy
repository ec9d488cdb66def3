/**
  The deterministic reply of the controlled model: one instance of the target's own
  output schema (agentcheck/adapters/controlled_model.py), and what it is an instance of.
 */
module ControlledModel {
  import opened Bags
  import opened Json

  const MAX_INSTANCE_DEPTH: nat := 6

  datatype TypeName = ObjectType | ArrayType | StringType | IntegerType | NumberType | BooleanType | NullType | NoType

  function TypeNamed(s: string): (t: TypeName) {
    if s == "object" then ObjectType
    else if s == "array" then ArrayType
    else if s == "string" then StringType
    else if s == "integer" then IntegerType
    else if s == "number" then NumberType
    else if s == "boolean" then BooleanType
    else if s == "null" then NullType
    else NoType
  }

  datatype Keyword = Ref | Enum | AnyOf | OneOf | TypeKey | Properties | Required | Items | MinItems

  function KeyText(k: Keyword): (s: string) {
    match k
    case Ref => "$ref"
    case Enum => "enum"
    case AnyOf => "anyOf"
    case OneOf => "oneOf"
    case TypeKey => "type"
    case Properties => "properties"
    case Required => "required"
    case Items => "items"
    case MinItems => "minItems"
  }

  /** `mapping.get(key)`. */
  function Lookup(fields: seq<Field>, key: string): (r: Option<Json>) {
    if Has(fields, key) then Some(fields[Find(fields, key)].value) else None
  }

  function Get(schema: seq<Field>, k: Keyword): (r: Option<Json>) {
    if schema == [] then None
    else if schema[0].key == KeyText(k) then Some(schema[0].value)
    else Get(schema[1..], k)
  }

  /** The text after the last slash. */
  function AfterSlash(s: string): (r: string) {
    if '/' !in s then s
    else AfterSlash(s[1..])
  }

  /** A non-empty list under the keyword. */
  function ListAt(schema: seq<Field>, k: Keyword): (r: seq<Json>) {
    if Get(schema, k).Some? && Get(schema, k).value.Arr? then Get(schema, k).value.items else []
  }

  /** The declared type: of a list of types, the first that is not null. */
  function Declared(schema: seq<Field>): (t: TypeName) {
    match Get(schema, TypeKey)
    case Some(Str(s)) => TypeNamed(s)
    case Some(Arr(items)) => FirstType(items)
    case _ => NoType
  }

  function FirstType(items: seq<Json>): (t: TypeName) {
    if items == [] then NoType
    else if items[0].Str? then (if TypeNamed(items[0].s).NullType? then FirstType(items[1..]) else TypeNamed(items[0].s))
    else NoType
  }

  function Names(properties: seq<Field>): (r: seq<Json>) {
    if properties == [] then [] else [Str(properties[0].key)] + Names(properties[1..])
  }

  function Repeat(v: Json, n: nat): (r: seq<Json>)
    ensures |r| == n && forall i :: 0 <= i < n ==> r[i] == v
  {
    seq(n, _ => v)
  }

  /** Whether the text of a value, as the host language prints it, contains `null`. */
  type Shows = Json -> bool

  predicate Nullable(child: seq<Field>, shows: Shows) {
    Get(child, TypeKey).Some? && shows(Get(child, TypeKey).value)
  }

  function Rank(depth: nat): nat { if depth > MAX_INSTANCE_DEPTH then 0 else MAX_INSTANCE_DEPTH + 1 - depth }

  /** One value for the schema; `Null` means that there is none, or that it is null. */
  function InstanceFor(schema: seq<Field>, definitions: seq<Field>, depth: nat, shows: Shows): (r: Json)
    decreases Rank(depth), 2, 0
  {
    if depth > MAX_INSTANCE_DEPTH then Null
    else if Get(schema, Ref).Some? && Get(schema, Ref).value.Str? then
      var target := Lookup(definitions, AfterSlash(Get(schema, Ref).value.s));
      if target.Some? && target.value.Obj? then InstanceFor(target.value.fields, definitions, depth + 1, shows) else Null
    else if ListAt(schema, Enum) != [] then ListAt(schema, Enum)[0]
    else if ListAt(schema, AnyOf) != [] then FirstOption(ListAt(schema, AnyOf), definitions, depth, shows)
    else if ListAt(schema, OneOf) != [] then FirstOption(ListAt(schema, OneOf), definitions, depth, shows)
    else match Declared(schema)
      case ObjectType =>
        if Get(schema, Properties).Some? && Get(schema, Properties).value.Obj? then
          var properties := Get(schema, Properties).value.fields;
          var names := if Get(schema, Required).Some? && Get(schema, Required).value.Arr?
                       then Get(schema, Required).value.items else Names(properties);
          var built := BuildObject(names, properties, definitions, depth, [], shows);
          if built.Some? then Obj(built.value) else Null
        else Obj([])
      case ArrayType =>
        var minimum := Minimum(schema);
        if minimum <= 0 then Arr([])
        else if Get(schema, Items).Some? && Get(schema, Items).value.Obj? then
          var element := InstanceFor(Get(schema, Items).value.fields, definitions, depth + 1, shows);
          if element.Null? then Null else Arr(Repeat(element, minimum))
        else Null
      case StringType => Str("agentcheck-controlled-value")
      case IntegerType => Int(0)
      case NumberType => Float(0.0)
      case BooleanType => Bool(false)
      case NullType => Null
      case NoType => Null
  }

  /** `minItems`, where a Boolean counts as 0 or 1 and anything else than an integer as 0. */
  function Minimum(schema: seq<Field>): (n: int) {
    match Get(schema, MinItems)
    case Some(Int(i)) => i
    case Some(Bool(b)) => if b then 1 else 0
    case _ => 0
  }

  /** The first option that has an instance. */
  function FirstOption(options: seq<Json>, definitions: seq<Field>, depth: nat, shows: Shows): (r: Json)
    requires depth <= MAX_INSTANCE_DEPTH
    decreases Rank(depth), 1, |options|
  {
    if options == [] then Null
    else
      var candidate := if options[0].Obj? then InstanceFor(options[0].fields, definitions, depth + 1, shows) else Null;
      if !candidate.Null? then candidate else FirstOption(options[1..], definitions, depth, shows)
  }

  /** One value for each name; none when a name has no schema or no acceptable value. */
  function BuildObject(
    names: seq<Json>, properties: seq<Field>, definitions: seq<Field>, depth: nat, built: seq<Field>, shows: Shows
  ): (r: Option<seq<Field>>)
    requires depth <= MAX_INSTANCE_DEPTH
    decreases Rank(depth), 1, |names|
  {
    if names == [] then Some(built)
    else if !names[0].Str? then None
    else
      var child := Lookup(properties, names[0].s);
      if child.None? || !child.value.Obj? then None
      else
        var value := InstanceFor(child.value.fields, definitions, depth + 1, shows);
        if value.Null? && !Nullable(child.value.fields, shows) then None
        else BuildObject(names[1..], properties, definitions, depth, Put(built, names[0].s, value), shows)
  }

  // ---------------------------------------------------------------------------
  // Conformance (JSON Schema 2020-12), for the keywords above
  // ---------------------------------------------------------------------------

  predicate HasType(v: Json, t: TypeName) {
    match t
    case ObjectType => v.Obj?
    case ArrayType => v.Arr?
    case StringType => v.Str?
    case IntegerType => v.Int? || (v.Float? && v.r.Floor as real == v.r)
    case NumberType => v.Int? || v.Float?
    case BooleanType => v.Bool?
    case NullType => v.Null?
    case NoType => false
  }

  /** `type`, section 6.1.1 of JSON Schema Validation: one name, or one of a list of names. */
  ghost predicate TypeConforms(v: Json, declared: Json) {
    match declared
    case Str(s) => HasType(v, TypeNamed(s))
    case Arr(items) => exists i :: 0 <= i < |items| && items[i].Str? && HasType(v, TypeNamed(items[i].s))
    case _ => false
  }

  const DEFS := "#/$defs/"

  /**
    Conformance with a derivation of at most `n` steps. A cyclic `$ref` that never
    reaches a constraint has no derivation.
   */
  ghost predicate Conforms(schema: seq<Field>, definitions: seq<Field>, v: Json, n: nat)
    decreases n, 0
  {
    n > 0
    && (Get(schema, Ref).Some? ==> RefConforms(Get(schema, Ref).value, definitions, v, n - 1))
    && (Get(schema, Enum).Some? ==> v in ListAt(schema, Enum))
    && (Get(schema, AnyOf).Some? ==> AnyConforms(ListAt(schema, AnyOf), definitions, v, n - 1))
    && (Get(schema, TypeKey).Some? ==> TypeConforms(v, Get(schema, TypeKey).value))
    && (Get(schema, Properties).Some? && v.Obj? ==> PropertiesConform(Get(schema, Properties).value, definitions, v.fields, n - 1))
    && (v.Obj? ==> HasAll(v.fields, ListAt(schema, Required)))
    && (Get(schema, Items).Some? && v.Arr? ==> ItemsConform(Get(schema, Items).value, definitions, v.items, n - 1))
    && (v.Arr? && Get(schema, MinItems).Some? && Get(schema, MinItems).value.Int? ==> |v.items| >= Get(schema, MinItems).value.i)
  }

  /** `required`, section 6.5.3 of JSON Schema Validation. */
  ghost predicate HasAll(fields: seq<Field>, names: seq<Json>) {
    forall i :: 0 <= i < |names| && names[i].Str? ==> Has(fields, names[i].s)
  }

  /** `anyOf`, section 10.2.1.2 of JSON Schema Core. */
  ghost predicate AnyConforms(options: seq<Json>, definitions: seq<Field>, v: Json, n: nat)
    decreases n, 2
  {
    exists i :: 0 <= i < |options| && OptionConforms(options[i], definitions, v, n)
  }

  ghost predicate ItemsConform(schema: Json, definitions: seq<Field>, items: seq<Json>, n: nat)
    decreases n, 2
  {
    forall i :: 0 <= i < |items| ==> OptionConforms(schema, definitions, items[i], n)
  }

  /** A subschema, where only schema objects are considered. */
  ghost predicate OptionConforms(schema: Json, definitions: seq<Field>, v: Json, n: nat)
    decreases n, 1
  {
    schema.Obj? && Conforms(schema.fields, definitions, v, n)
  }

  /** `$ref` to a definition of the same document, section 8.2.3.1 of JSON Schema Core. */
  ghost predicate RefConforms(reference: Json, definitions: seq<Field>, v: Json, n: nat)
    decreases n, 2
  {
    reference.Str? && DEFS <= reference.s
    && var target := Lookup(definitions, reference.s[|DEFS|..]);
       target.Some? && OptionConforms(target.value, definitions, v, n)
  }

  /** `properties`, section 10.3.2.1 of JSON Schema Core. */
  ghost predicate PropertiesConform(properties: Json, definitions: seq<Field>, fields: seq<Field>, n: nat)
    decreases n, 2
  {
    properties.Obj?
    && forall i :: 0 <= i < |fields| && Has(properties.fields, fields[i].key) ==>
         OptionConforms(Lookup(properties.fields, fields[i].key).value, definitions, fields[i].value, n)
  }

  /** A longer derivation is a derivation. */
  lemma {:induction false} ConformsMonotone(schema: seq<Field>, definitions: seq<Field>, v: Json, n: nat, m: nat)
    requires Conforms(schema, definitions, v, n) && n <= m
    ensures Conforms(schema, definitions, v, m)
    decreases n, 0, 1
  {
    ApplicatorsMonotone(schema, definitions, v, n, m);
    ChildrenMonotone(schema, definitions, v, n, m);
  }

  lemma {:induction false} ApplicatorsMonotone(schema: seq<Field>, definitions: seq<Field>, v: Json, n: nat, m: nat)
    requires Conforms(schema, definitions, v, n) && n <= m
    ensures Get(schema, Ref).Some? ==> RefConforms(Get(schema, Ref).value, definitions, v, m - 1)
    ensures Get(schema, AnyOf).Some? ==> AnyConforms(ListAt(schema, AnyOf), definitions, v, m - 1)
    decreases n, 0, 0
  {
    if Get(schema, Ref).Some? { RefMonotone(Get(schema, Ref).value, definitions, v, n - 1, m - 1); }
    if Get(schema, AnyOf).Some? { AnyMonotone(ListAt(schema, AnyOf), definitions, v, n - 1, m - 1); }
  }

  lemma {:induction false} ChildrenMonotone(schema: seq<Field>, definitions: seq<Field>, v: Json, n: nat, m: nat)
    requires Conforms(schema, definitions, v, n) && n <= m
    ensures Get(schema, Properties).Some? && v.Obj? ==> PropertiesConform(Get(schema, Properties).value, definitions, v.fields, m - 1)
    ensures Get(schema, Items).Some? && v.Arr? ==> ItemsConform(Get(schema, Items).value, definitions, v.items, m - 1)
    decreases n, 0, 0
  {
    if Get(schema, Properties).Some? && v.Obj? {
      PropertiesMonotone(Get(schema, Properties).value, definitions, v.fields, n - 1, m - 1);
    }
    if Get(schema, Items).Some? && v.Arr? {
      ItemsMonotone(Get(schema, Items).value, definitions, v.items, n - 1, m - 1);
    }
  }

  lemma {:induction false} OptionMonotone(schema: Json, definitions: seq<Field>, v: Json, n: nat, m: nat)
    requires OptionConforms(schema, definitions, v, n) && n <= m
    ensures OptionConforms(schema, definitions, v, m)
    decreases n, 1
  {
    ConformsMonotone(schema.fields, definitions, v, n, m);
  }

  lemma {:induction false} RefMonotone(reference: Json, definitions: seq<Field>, v: Json, n: nat, m: nat)
    requires RefConforms(reference, definitions, v, n) && n <= m
    ensures RefConforms(reference, definitions, v, m)
    decreases n, 2
  {
    OptionMonotone(Lookup(definitions, reference.s[|DEFS|..]).value, definitions, v, n, m);
  }

  lemma {:induction false} AnyMonotone(options: seq<Json>, definitions: seq<Field>, v: Json, n: nat, m: nat)
    requires AnyConforms(options, definitions, v, n) && n <= m
    ensures AnyConforms(options, definitions, v, m)
    decreases n, 2
  {
    var i :| 0 <= i < |options| && OptionConforms(options[i], definitions, v, n);
    OptionMonotone(options[i], definitions, v, n, m);
  }

  lemma {:induction false} PropertiesMonotone(
    properties: Json, definitions: seq<Field>, fields: seq<Field>, n: nat, m: nat
  )
    requires PropertiesConform(properties, definitions, fields, n) && n <= m
    ensures PropertiesConform(properties, definitions, fields, m)
    decreases n, 2
  {
    forall i | 0 <= i < |fields| && Has(properties.fields, fields[i].key)
      ensures OptionConforms(Lookup(properties.fields, fields[i].key).value, definitions, fields[i].value, m)
    {
      OptionMonotone(Lookup(properties.fields, fields[i].key).value, definitions, fields[i].value, n, m);
    }
  }

  lemma {:induction false} ItemsMonotone(schema: Json, definitions: seq<Field>, items: seq<Json>, n: nat, m: nat)
    requires ItemsConform(schema, definitions, items, n) && n <= m
    ensures ItemsConform(schema, definitions, items, m)
    decreases n, 2
  {
    forall i | 0 <= i < |items| ensures OptionConforms(schema, definitions, items[i], m) {
      OptionMonotone(schema, definitions, items[i], n, m);
    }
  }
}
