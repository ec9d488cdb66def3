/**
  Where the controlled reply meets `oneOf`, which the generator treats as `anyOf`: exactly
  when the reply is right for options that only name types, and a condition on the schema
  under which it is right for every option the generator is promised for.
 */
module OneOfFacts {
  import opened Bags
  import opened Json
  import opened ControlledModel
  import opened ControlledModelFacts

  /** `oneOf`, section 10.2.1.3 of JSON Schema Core: one option accepts the value and no other does. */
  ghost predicate ExactlyOneConforms(options: seq<Json>, definitions: seq<Field>, v: Json, n: nat) {
    exists i :: 0 <= i < |options| && OptionConforms(options[i], definitions, v, n) && NoOtherConforms(options, i, definitions, v, n)
  }

  ghost predicate NoOtherConforms(options: seq<Json>, i: nat, definitions: seq<Field>, v: Json, n: nat) {
    forall j :: 0 <= j < |options| && j != i ==> !OptionConforms(options[j], definitions, v, n)
  }

  /** The option whose instance `FirstOption` returns: the first that has one. */
  ghost function FirstWithInstance(options: seq<Json>, definitions: seq<Field>, depth: nat, shows: Shows): (i: nat)
    requires depth <= MAX_INSTANCE_DEPTH && !FirstOption(options, definitions, depth, shows).Null?
    ensures i < |options|
  {
    if options[0].Obj? && !InstanceFor(options[0].fields, definitions, depth + 1, shows).Null? then 0
    else 1 + FirstWithInstance(options[1..], definitions, depth, shows)
  }

  lemma {:induction false} FirstWithInstanceConforms(
    options: seq<Json>, definitions: seq<Field>, depth: nat, shows: Shows
  )
    requires AllSupported(definitions) && Faithful(shows) && depth <= MAX_INSTANCE_DEPTH
    requires AllOptionsSupported(options) && !FirstOption(options, definitions, depth, shows).Null?
    ensures OptionConforms(options[FirstWithInstance(options, definitions, depth, shows)], definitions,
                           FirstOption(options, definitions, depth, shows), Steps(depth) - 1)
    decreases |options|
  {
    Sound(options[0], definitions, depth + 1, shows);
    if InstanceFor(options[0].fields, definitions, depth + 1, shows).Null? {
      FirstWithInstanceConforms(options[1..], definitions, depth, shows);
    }
  }

  /** A `oneOf` node, as the generator reads it. */
  ghost predicate OneOfNode(schema: seq<Field>, options: seq<Json>) {
    Absent(schema, Ref) && Absent(schema, Enum) && Absent(schema, AnyOf) && ListAt(schema, OneOf) == options
  }

  // ---------------------------------------------------------------------------
  // Options that only name types
  // ---------------------------------------------------------------------------

  /** A node with a `type` of standard names and no other keyword. */
  ghost predicate OnlyTyped(option: Json) {
    option.Obj? && Get(option.fields, TypeKey).Some? && TypeWellFormed(Get(option.fields, TypeKey).value)
    && forall k: Keyword :: k != TypeKey ==> Absent(option.fields, k)
  }

  ghost predicate AllOnlyTyped(options: seq<Json>) {
    forall i :: 0 <= i < |options| ==> OnlyTyped(options[i])
  }

  /** Two types with a value in common: equal ones, and the two numeric ones. */
  predicate Overlap(a: TypeName, b: TypeName) {
    a == b || (a in {IntegerType, NumberType} && b in {IntegerType, NumberType})
  }

  /** Some type the node names overlaps `t`. */
  ghost predicate Admits(option: Json, t: TypeName)
    requires OnlyTyped(option)
  {
    match Get(option.fields, TypeKey).value
    case Str(s) => Overlap(t, TypeNamed(s))
    case Arr(items) => exists i :: 0 <= i < |items| && items[i].Str? && Overlap(t, TypeNamed(items[i].s))
  }

  /** The node declares a type beside null. */
  predicate DeclaresValue(option: Json) {
    option.Obj? && !Declared(option.fields).NullType? && !Declared(option.fields).NoType?
  }

  /** Position of the first option that declares a type beside null. */
  function FirstTyped(options: seq<Json>): (i: nat)
    ensures i <= |options|
    ensures i < |options| ==> DeclaresValue(options[i])
    ensures forall j :: 0 <= j < i ==> !DeclaresValue(options[j])
  {
    if options == [] then 0
    else if DeclaresValue(options[0]) then 0
    else
      var rest := FirstTyped(options[1..]);
      assert forall j :: 1 <= j <= rest && j < |options| ==> options[j] == options[1..][j - 1];
      rest + 1
  }

  /** What the generator answers for a node that only names types. */
  function Sample(t: TypeName): (v: Json) {
    match t
    case ObjectType => Obj([])
    case ArrayType => Arr([])
    case StringType => Str("agentcheck-controlled-value")
    case IntegerType => Int(0)
    case NumberType => Float(0.0)
    case BooleanType => Bool(false)
    case NullType => Null
    case NoType => Null
  }

  lemma {:induction false} SampleOfType(d: TypeName, t: TypeName)
    requires !d.NullType? && !d.NoType?
    ensures HasType(Sample(d), t) <==> Overlap(d, t)
  {
  }

  lemma {:induction false} TypedInstance(option: Json, definitions: seq<Field>, depth: nat, shows: Shows)
    requires OnlyTyped(option) && depth <= MAX_INSTANCE_DEPTH
    ensures InstanceFor(option.fields, definitions, depth, shows) == Sample(Declared(option.fields))
  {
    assert Absent(option.fields, Ref) && Absent(option.fields, Enum) && Absent(option.fields, AnyOf);
    assert Absent(option.fields, OneOf) && Absent(option.fields, Properties) && Absent(option.fields, MinItems);
  }

  /** Such a node accepts the sample of a type exactly when it names an overlapping one. */
  lemma {:induction false} TypedAccepts(option: Json, definitions: seq<Field>, d: TypeName, n: nat)
    requires OnlyTyped(option) && n > 0 && !d.NullType? && !d.NoType?
    ensures OptionConforms(option, definitions, Sample(d), n) <==> Admits(option, d)
  {
    var fields := option.fields;
    assert Absent(fields, Ref) && Absent(fields, Enum) && Absent(fields, AnyOf) && Absent(fields, Properties);
    assert Absent(fields, Required) && Absent(fields, Items) && Absent(fields, MinItems);
    forall t ensures HasType(Sample(d), t) <==> Overlap(d, t) { SampleOfType(d, t); }
  }

  /** A declared type is one of the types the node names. */
  lemma {:induction false} AdmitsDeclared(option: Json)
    requires OnlyTyped(option) && DeclaresValue(option)
    ensures Admits(option, Declared(option.fields))
  {
    if Get(option.fields, TypeKey).value.Arr? { FirstTypeListed(Get(option.fields, TypeKey).value.items); }
  }

  // ---------------------------------------------------------------------------
  // References to such nodes
  // ---------------------------------------------------------------------------

  /** A node with a reference to a definition and no other keyword. */
  ghost predicate OnlyReference(option: Json) {
    option.Obj? && Get(option.fields, Ref).Some? && Get(option.fields, Ref).value.Str?
    && DEFS <= Get(option.fields, Ref).value.s && '/' !in Get(option.fields, Ref).value.s[|DEFS|..]
    && forall k: Keyword :: k != Ref ==> Absent(option.fields, k)
  }

  /** The node that at most `hops` references lead to. */
  ghost function Resolved(option: Json, definitions: seq<Field>, hops: nat): (r: Json)
    decreases hops
  {
    if hops == 0 || !OnlyReference(option) then option
    else
      var target := Lookup(definitions, Get(option.fields, Ref).value.s[|DEFS|..]);
      if target.None? then option else Resolved(target.value, definitions, hops - 1)
  }

  ghost function AllResolved(options: seq<Json>, definitions: seq<Field>, hops: nat): (r: seq<Json>)
    ensures |r| == |options| && forall i :: 0 <= i < |r| ==> r[i] == Resolved(options[i], definitions, hops)
  {
    seq(|options|, i requires 0 <= i < |options| => Resolved(options[i], definitions, hops))
  }

  lemma {:induction false} ResolvedInstance(
    option: Json, definitions: seq<Field>, hops: nat, depth: nat, shows: Shows
  )
    requires OnlyTyped(Resolved(option, definitions, hops)) && depth + hops <= MAX_INSTANCE_DEPTH
    ensures option.Obj?
    ensures InstanceFor(option.fields, definitions, depth, shows)
         == Sample(Declared(Resolved(option, definitions, hops).fields))
    decreases hops
  {
    if hops > 0 && OnlyReference(option) {
      var reference := Get(option.fields, Ref).value.s;
      RefName(reference);
      var target := Lookup(definitions, reference[|DEFS|..]);
      assert Absent(option.fields, TypeKey);
      assert target.Some?;
      ResolvedInstance(target.value, definitions, hops - 1, depth + 1, shows);
    } else {
      TypedInstance(option, definitions, depth, shows);
    }
  }

  lemma {:induction false} ReferenceConforms(option: Json, definitions: seq<Field>, v: Json, n: nat)
    requires OnlyReference(option) && n > 0
    ensures OptionConforms(option, definitions, v, n) <==> RefConforms(Get(option.fields, Ref).value, definitions, v, n - 1)
  {
    var fields := option.fields;
    assert Absent(fields, Enum) && Absent(fields, AnyOf) && Absent(fields, TypeKey) && Absent(fields, Properties);
    assert Absent(fields, Required) && Absent(fields, Items) && Absent(fields, MinItems);
  }

  lemma {:induction false} ResolvedAccepts(option: Json, definitions: seq<Field>, hops: nat, d: TypeName, n: nat)
    requires OnlyTyped(Resolved(option, definitions, hops)) && n > hops && !d.NullType? && !d.NoType?
    ensures OptionConforms(option, definitions, Sample(d), n) <==> Admits(Resolved(option, definitions, hops), d)
    decreases hops
  {
    if hops > 0 && OnlyReference(option) {
      var target := Lookup(definitions, Get(option.fields, Ref).value.s[|DEFS|..]);
      assert Absent(option.fields, TypeKey);
      assert target.Some?;
      ReferenceConforms(option, definitions, Sample(d), n);
      ResolvedAccepts(target.value, definitions, hops - 1, d, n - 1);
    } else {
      TypedAccepts(option, definitions, d, n);
    }
  }

  lemma {:induction false} FirstOptionStep(options: seq<Json>, definitions: seq<Field>, depth: nat, shows: Shows)
    requires options != [] && options[0].Obj? && depth <= MAX_INSTANCE_DEPTH
    ensures var candidate := InstanceFor(options[0].fields, definitions, depth + 1, shows);
      FirstOption(options, definitions, depth, shows)
      == if candidate.Null? then FirstOption(options[1..], definitions, depth, shows) else candidate
  {
  }

  /** A sample is null exactly when no type beside null is declared. */
  lemma {:induction false} SampleNull(t: TypeName)
    ensures Sample(t).Null? <==> t.NullType? || t.NoType?
  {
  }

  lemma {:induction false} ResolvedTail(options: seq<Json>, types: seq<Json>, definitions: seq<Field>, hops: nat)
    requires options != [] && types == AllResolved(options, definitions, hops) && AllOnlyTyped(types)
    ensures types[1..] == AllResolved(options[1..], definitions, hops) && AllOnlyTyped(types[1..])
    ensures !DeclaresValue(types[0]) ==> FirstTyped(types) == 1 + FirstTyped(types[1..])
    ensures FirstTyped(types[1..]) < |types[1..]| ==> types[1 + FirstTyped(types[1..])] == types[1..][FirstTyped(types[1..])]
  {
    assert forall i :: 0 <= i < |types| - 1 ==> types[1..][i] == types[i + 1] && options[1..][i] == options[i + 1];
  }

  lemma {:induction false} FirstTypedReply(
    options: seq<Json>, types: seq<Json>, definitions: seq<Field>, hops: nat, depth: nat, shows: Shows
  )
    requires types == AllResolved(options, definitions, hops) && AllOnlyTyped(types) && depth + hops < MAX_INSTANCE_DEPTH
    ensures var i := FirstTyped(types);
      FirstOption(options, definitions, depth, shows) == if i < |types| then Sample(Declared(types[i].fields)) else Null
    decreases |options|
  {
    if options != [] {
      assert OnlyTyped(types[0]);
      ResolvedInstance(options[0], definitions, hops, depth + 1, shows);
      FirstOptionStep(options, definitions, depth, shows);
      SampleNull(Declared(types[0].fields));
      if !DeclaresValue(types[0]) {
        ResolvedTail(options, types, definitions, hops);
        FirstTypedReply(options[1..], types[1..], definitions, hops, depth, shows);
      }
    }
  }

  /** No option beside the `i`-th names a type that overlaps the one it declares. */
  ghost predicate TypedApart(types: seq<Json>, i: nat)
    requires AllOnlyTyped(types) && i < |types|
  {
    forall j :: 0 <= j < |types| && j != i ==> !Admits(types[j], Declared(types[i].fields))
  }

  /**
    For options that only name types, by themselves or through references, there is a reply
    exactly when one of them names a type beside null, and the reply is accepted by exactly
    one option exactly when the declared type of the first such option overlaps no type
    named by another option.
   */
  lemma {:induction false} OneOfExactly(
    schema: seq<Field>, options: seq<Json>, types: seq<Json>, definitions: seq<Field>, hops: nat, depth: nat, shows: Shows, n: nat
  )
    requires OneOfNode(schema, options) && options != []
    requires types == AllResolved(options, definitions, hops) && AllOnlyTyped(types)
    requires depth + hops < MAX_INSTANCE_DEPTH && n > hops
    ensures var r, i := InstanceFor(schema, definitions, depth, shows), FirstTyped(types);
      && (!r.Null? <==> i < |types|)
      && (i < |types| ==> (ExactlyOneConforms(options, definitions, r, n) <==> TypedApart(types, i)))
  {
    var r, i := InstanceFor(schema, definitions, depth, shows), FirstTyped(types);
    FirstTypedReply(options, types, definitions, hops, depth, shows);
    OneOfInstance(schema, options, definitions, depth, shows);
    if i < |types| {
      var d := Declared(types[i].fields);
      SampleNull(d);
      AdmitsDeclared(types[i]);
      forall j | 0 <= j < |options| ensures OptionConforms(options[j], definitions, r, n) <==> Admits(types[j], d) {
        ResolvedAccepts(options[j], definitions, hops, d, n);
      }
      OneAccepts(options, definitions, r, n, i, types);
    } else {
      SampleNull(NoType);
    }
  }

  lemma {:induction false} OneOfInstance(
    schema: seq<Field>, options: seq<Json>, definitions: seq<Field>, depth: nat, shows: Shows
  )
    requires OneOfNode(schema, options) && options != [] && depth <= MAX_INSTANCE_DEPTH
    ensures InstanceFor(schema, definitions, depth, shows) == FirstOption(options, definitions, depth, shows)
  {
  }

  lemma {:induction false} OneAccepts(
    options: seq<Json>, definitions: seq<Field>, r: Json, n: nat, i: nat, types: seq<Json>
  )
    requires |options| == |types| && i < |types| && AllOnlyTyped(types) && Admits(types[i], Declared(types[i].fields))
    requires forall j :: 0 <= j < |options| ==>
      (OptionConforms(options[j], definitions, r, n) <==> Admits(types[j], Declared(types[i].fields)))
    ensures ExactlyOneConforms(options, definitions, r, n) <==> TypedApart(types, i)
  {
    if TypedApart(types, i) {
      assert NoOtherConforms(options, i, definitions, r, n);
    }
  }

  function OfType(t: string): (s: seq<Field>) { [Field("type", Str(t))] }

  const NUMERIC: seq<Json> := [Obj(OfType("integer")), Obj(OfType("number"))]

  lemma {:induction false} NumericOverlap()
    ensures AllOnlyTyped(NUMERIC) && FirstTyped(NUMERIC) == 0 && AllResolved(NUMERIC, [], 0) == NUMERIC
    ensures Declared(NUMERIC[0].fields) == IntegerType && !TypedApart(NUMERIC, 0)
  {
    OneKeyword(OfType("integer"), TypeKey, Str("integer"));
    OneKeyword(OfType("number"), TypeKey, Str("number"));
    assert OnlyTyped(NUMERIC[0]) && OnlyTyped(NUMERIC[1]);
    assert Admits(NUMERIC[1], IntegerType);
  }

  /** For "integer or number" the types overlap: the reply is 0, and not exactly one option accepts it. */
  lemma {:induction false} OneOfCanFail(shows: Shows, n: nat)
    requires n > 0
    ensures InstanceFor([Field("oneOf", Arr(NUMERIC))], [], 0, shows) == Int(0)
    ensures !ExactlyOneConforms(NUMERIC, [], Int(0), n)
  {
    var schema := [Field("oneOf", Arr(NUMERIC))];
    OneKeyword(schema, OneOf, Arr(NUMERIC));
    assert OneOfNode(schema, NUMERIC);
    NumericOverlap();
    FirstTypedReply(NUMERIC, NUMERIC, [], 0, 0, shows);
    OneOfExactly(schema, NUMERIC, NUMERIC, [], 0, 0, shows, n);
  }

  lemma {:induction false} OneKeyword(schema: seq<Field>, k: Keyword, v: Json)
    requires schema == [Field(KeyText(k), v)]
    ensures forall j :: Get(schema, j) == if j == k then Some(v) else None
  {
    forall j ensures Get(schema, j) == if j == k then Some(v) else None {
      assert schema[1..] == [];
      KeyTextsDiffer(j, k);
    }
  }

  lemma {:induction false} KeyTextsDiffer(j: Keyword, k: Keyword)
    ensures KeyText(j) == KeyText(k) ==> j == k
  {
    if KeyText(j) == KeyText(k) {
      assert |KeyText(j)| == |KeyText(k)| && KeyText(j)[0] == KeyText(k)[0] && KeyText(j)[1] == KeyText(k)[1];
    }
  }

  // ---------------------------------------------------------------------------
  // All options the generator is promised for
  // ---------------------------------------------------------------------------

  /** Kinds of values, where a number without fraction is one kind however it is written. */
  datatype Kind = AnObject | AnArray | AString | AWhole | AFraction | ABoolean | ANull

  function KindOf(v: Json): (k: Kind) {
    match v
    case Null => ANull
    case Bool(_) => ABoolean
    case Int(_) => AWhole
    case Float(r) => if r.Floor as real == r then AWhole else AFraction
    case Str(_) => AString
    case Arr(_) => AnArray
    case Obj(_) => AnObject
  }

  function KindsOf(t: TypeName): (ks: set<Kind>) {
    match t
    case ObjectType => {AnObject}
    case ArrayType => {AnArray}
    case StringType => {AString}
    case IntegerType => {AWhole}
    case NumberType => {AWhole, AFraction}
    case BooleanType => {ABoolean}
    case NullType => {ANull}
    case NoType => {}
  }

  const ALL_KINDS: set<Kind> := {AnObject, AnArray, AString, AWhole, AFraction, ABoolean, ANull}

  function KindsOfTypes(items: seq<Json>): (ks: set<Kind>) {
    if items == [] then {}
    else (if items[0].Str? then KindsOf(TypeNamed(items[0].s)) else {}) + KindsOfTypes(items[1..])
  }

  function KindsOfValues(values: seq<Json>): (ks: set<Kind>) {
    if values == [] then {} else {KindOf(values[0])} + KindsOfValues(values[1..])
  }

  /**
    The kinds a schema can accept, read off its references, enumerations, unions and types;
    after `n` references and unions all kinds are taken to be possible.
   */
  function Kinds(schema: Json, definitions: seq<Field>, n: nat): (ks: set<Kind>)
    decreases n, 0
  {
    if n == 0 then ALL_KINDS
    else if !schema.Obj? then {}
    else if Get(schema.fields, Ref).Some? then KindsOfReference(Get(schema.fields, Ref).value, definitions, n - 1)
    else if Get(schema.fields, Enum).Some? then KindsOfValues(ListAt(schema.fields, Enum))
    else if Get(schema.fields, AnyOf).Some? then KindsOfOptions(ListAt(schema.fields, AnyOf), definitions, n - 1)
    else match Get(schema.fields, TypeKey)
      case Some(Str(s)) => KindsOf(TypeNamed(s))
      case Some(Arr(items)) => KindsOfTypes(items)
      case Some(_) => {}
      case None => ALL_KINDS
  }

  function KindsOfReference(reference: Json, definitions: seq<Field>, n: nat): (ks: set<Kind>)
    decreases n, 1
  {
    if !reference.Str? || !(DEFS <= reference.s) then {}
    else
      var target := Lookup(definitions, reference.s[|DEFS|..]);
      if target.None? then {} else Kinds(target.value, definitions, n)
  }

  function KindsOfOptions(options: seq<Json>, definitions: seq<Field>, n: nat): (ks: set<Kind>)
    decreases n, 1, |options|
  {
    if options == [] then {} else Kinds(options[0], definitions, n) + KindsOfOptions(options[1..], definitions, n)
  }

  /** Whatever conforms to a schema, by whatever derivation, is of a kind read off it. */
  lemma {:induction false} ConformsKind(schema: Json, definitions: seq<Field>, v: Json, m: nat, n: nat)
    requires OptionConforms(schema, definitions, v, m)
    ensures KindOf(v) in Kinds(schema, definitions, n)
    decreases n, 0
  {
    if n > 0 {
      if Get(schema.fields, Ref).Some? {
        ReferenceKind(Get(schema.fields, Ref).value, definitions, v, m - 1, n - 1);
      } else if Get(schema.fields, Enum).Some? {
        ListedKind(ListAt(schema.fields, Enum), v);
      } else if Get(schema.fields, AnyOf).Some? {
        UnionKind(ListAt(schema.fields, AnyOf), definitions, v, m - 1, n - 1);
      } else if Get(schema.fields, TypeKey).Some? {
        TypeKind(Get(schema.fields, TypeKey).value, v);
      }
    }
  }

  lemma {:induction false} ReferenceKind(reference: Json, definitions: seq<Field>, v: Json, m: nat, n: nat)
    requires RefConforms(reference, definitions, v, m)
    ensures KindOf(v) in KindsOfReference(reference, definitions, n)
    decreases n, 1
  {
    ConformsKind(Lookup(definitions, reference.s[|DEFS|..]).value, definitions, v, m, n);
  }

  lemma {:induction false} UnionKind(options: seq<Json>, definitions: seq<Field>, v: Json, m: nat, n: nat)
    requires AnyConforms(options, definitions, v, m)
    ensures KindOf(v) in KindsOfOptions(options, definitions, n)
    decreases n, 1
  {
    var i :| 0 <= i < |options| && OptionConforms(options[i], definitions, v, m);
    ConformsKind(options[i], definitions, v, m, n);
    OptionKinds(options, definitions, n, i);
  }

  lemma {:induction false} ListedKind(values: seq<Json>, v: Json)
    requires v in values
    ensures KindOf(v) in KindsOfValues(values)
  {
    if values[0] != v { ListedKind(values[1..], v); }
  }

  lemma {:induction false} OptionKinds(options: seq<Json>, definitions: seq<Field>, n: nat, i: nat)
    requires i < |options|
    ensures Kinds(options[i], definitions, n) <= KindsOfOptions(options, definitions, n)
    decreases |options|
  {
    if i > 0 { OptionKinds(options[1..], definitions, n, i - 1); }
  }

  lemma {:induction false} TypeKind(declared: Json, v: Json)
    requires TypeConforms(v, declared)
    ensures declared.Str? ==> KindOf(v) in KindsOf(TypeNamed(declared.s))
    ensures declared.Arr? ==> KindOf(v) in KindsOfTypes(declared.items)
  {
    if declared.Arr? {
      var i :| 0 <= i < |declared.items| && declared.items[i].Str? && HasType(v, TypeNamed(declared.items[i].s));
      NamedKinds(declared.items, i);
      HasTypeKind(v, TypeNamed(declared.items[i].s));
    } else {
      HasTypeKind(v, TypeNamed(declared.s));
    }
  }

  lemma {:induction false} HasTypeKind(v: Json, t: TypeName)
    requires HasType(v, t)
    ensures KindOf(v) in KindsOf(t)
  {
  }

  lemma {:induction false} NamedKinds(items: seq<Json>, i: nat)
    requires i < |items| && items[i].Str?
    ensures KindsOf(TypeNamed(items[i].s)) <= KindsOfTypes(items)
  {
    if i > 0 { NamedKinds(items[1..], i - 1); }
  }

  /** No two options can accept values of one kind. */
  ghost predicate KindsApart(options: seq<Json>, definitions: seq<Field>, n: nat) {
    forall i, j :: 0 <= i < |options| && 0 <= j < |options| && i != j ==>
      Kinds(options[i], definitions, n) !! Kinds(options[j], definitions, n)
  }

  ghost predicate AllOptionsSupported(options: seq<Json>) {
    forall j :: 0 <= j < |options| ==> Supported(options[j])
  }

  /**
    If no two options share a kind, read off to whatever nesting `n`, the reply is accepted
    by exactly one of them, through references, enumerations and unions.
   */
  lemma {:induction false} DisjointKindsSuffice(
    schema: seq<Field>, options: seq<Json>, definitions: seq<Field>, depth: nat, shows: Shows, n: nat, m: nat
  )
    requires OneOfNode(schema, options) && AllSupported(definitions) && AllOptionsSupported(options) && Faithful(shows)
    requires KindsApart(options, definitions, n)
    requires !InstanceFor(schema, definitions, depth, shows).Null? && options != [] && m >= Steps(depth)
    ensures ExactlyOneConforms(options, definitions, InstanceFor(schema, definitions, depth, shows), m)
  {
    var r := InstanceFor(schema, definitions, depth, shows);
    var i := FirstWithInstance(options, definitions, depth, shows);
    FirstWithInstanceConforms(options, definitions, depth, shows);
    OptionMonotone(options[i], definitions, r, Steps(depth) - 1, m);
    ConformsKind(options[i], definitions, r, m, n);
    forall j | 0 <= j < |options| && j != i ensures !OptionConforms(options[j], definitions, r, m) {
      if OptionConforms(options[j], definitions, r, m) { ConformsKind(options[j], definitions, r, m, n); }
    }
    assert NoOtherConforms(options, i, definitions, r, m);
  }
}
