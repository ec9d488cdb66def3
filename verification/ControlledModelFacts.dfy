/**
  The controlled reply conforms to the schema it was built from, and more depth never
  loses a reply.
 */
module ControlledModelFacts {
  import opened Bags
  import opened Json
  import opened ControlledModel

  // ---------------------------------------------------------------------------
  // The schemas the reply is promised for
  // ---------------------------------------------------------------------------

  ghost predicate Absent(schema: seq<Field>, k: Keyword) { Get(schema, k).None? }

  ghost predicate NoCompanions(schema: seq<Field>) {
    Absent(schema, Properties) && Absent(schema, Required) && Absent(schema, Items) && Absent(schema, MinItems)
  }

  ghost predicate RefShape(schema: seq<Field>) {
    Get(schema, Ref).Some? ==>
      && Get(schema, Ref).value.Str? && DEFS <= Get(schema, Ref).value.s
      && '/' !in Get(schema, Ref).value.s[|DEFS|..]
      && Absent(schema, Enum) && Absent(schema, AnyOf) && Absent(schema, TypeKey) && NoCompanions(schema)
  }

  /** An enumeration agrees with the type beside it, in its first value and on null. */
  ghost predicate EnumShape(schema: seq<Field>) {
    Get(schema, Enum).Some? ==>
      && ListAt(schema, Enum) != [] && Absent(schema, AnyOf) && NoCompanions(schema)
      && (Get(schema, TypeKey).Some? ==>
            TypeConforms(ListAt(schema, Enum)[0], Get(schema, TypeKey).value)
            && (TypeConforms(Null, Get(schema, TypeKey).value) ==> Null in ListAt(schema, Enum)))
  }

  ghost predicate AnyOfShape(schema: seq<Field>) {
    Get(schema, AnyOf).Some? ==> ListAt(schema, AnyOf) != [] && Absent(schema, TypeKey) && NoCompanions(schema)
  }

  ghost predicate TypeShape(schema: seq<Field>) {
    && (Get(schema, TypeKey).Some? ==> TypeWellFormed(Get(schema, TypeKey).value))
    && (Get(schema, Required).Some? ==> Get(schema, Required).value.Arr? && Get(schema, Properties).Some?)
    && (Get(schema, Properties).Some? ==> Get(schema, Properties).value.Obj?)
    && (Get(schema, MinItems).Some? ==> Get(schema, MinItems).value.Int?)
    && (Get(schema, Items).Some? ==> Get(schema, Items).value.Obj?)
  }

  ghost predicate TypeWellFormed(t: Json) {
    (t.Str? && !TypeNamed(t.s).NoType?)
    || (t.Arr? && forall i :: 0 <= i < |t.items| ==> t.items[i].Str? && !TypeNamed(t.items[i].s).NoType?)
  }

  /** One construct per node, `required` with `properties`, no `oneOf`, to nesting `n`. */
  ghost predicate SupportedTo(schema: Json, n: nat)
    decreases n, 0
  {
    n == 0
    || (schema.Obj?
        && Absent(schema.fields, OneOf) && RefShape(schema.fields) && EnumShape(schema.fields)
        && AnyOfShape(schema.fields) && TypeShape(schema.fields)
        && OptionsSupportedTo(ListAt(schema.fields, AnyOf), n - 1)
        && (Get(schema.fields, Items).Some? ==> SupportedTo(Get(schema.fields, Items).value, n - 1))
        && (Get(schema.fields, Properties).Some? ==> FieldsSupportedTo(Get(schema.fields, Properties).value.fields, n - 1)))
  }

  ghost predicate OptionsSupportedTo(options: seq<Json>, n: nat)
    decreases n, 1
  {
    forall i :: 0 <= i < |options| ==> SupportedTo(options[i], n)
  }

  ghost predicate FieldsSupportedTo(fields: seq<Field>, n: nat)
    decreases n, 1
  {
    forall i :: 0 <= i < |fields| ==> SupportedTo(fields[i].value, n)
  }

  /** Supported at every level. */
  ghost predicate Supported(schema: Json) {
    forall n: nat :: SupportedTo(schema, n)
  }

  ghost predicate AllSupported(definitions: seq<Field>) {
    forall i :: 0 <= i < |definitions| ==> Supported(definitions[i].value)
  }

  /** Of a well-formed `type`, the printed text contains `null` exactly when null is one of the types. */
  ghost predicate Faithful(shows: Shows) {
    forall t :: TypeWellFormed(t) ==> (shows(t) <==> TypeConforms(Null, t))
  }

  lemma {:induction false} SupportedOption(schema: Json, i: nat)
    requires Supported(schema)
    ensures schema.Obj?
    ensures i < |ListAt(schema.fields, AnyOf)| ==> Supported(ListAt(schema.fields, AnyOf)[i])
  {
    assert SupportedTo(schema, 1);
    if i < |ListAt(schema.fields, AnyOf)| {
      forall n: nat ensures SupportedTo(ListAt(schema.fields, AnyOf)[i], n) {
        assert SupportedTo(schema, n + 1);
        assert OptionsSupportedTo(ListAt(schema.fields, AnyOf), n);
      }
    }
  }

  lemma {:induction false} SupportedItems(schema: Json)
    requires Supported(schema) && schema.Obj? && Get(schema.fields, Items).Some?
    ensures Supported(Get(schema.fields, Items).value)
  {
    forall n: nat ensures SupportedTo(Get(schema.fields, Items).value, n) {
      assert SupportedTo(schema, n + 1);
    }
  }

  lemma {:induction false} SupportedProperty(schema: Json, i: nat)
    requires Supported(schema) && schema.Obj? && Get(schema.fields, Properties).Some?
    requires Get(schema.fields, Properties).value.Obj? && i < |Get(schema.fields, Properties).value.fields|
    ensures Supported(Get(schema.fields, Properties).value.fields[i].value)
  {
    forall n: nat ensures SupportedTo(Get(schema.fields, Properties).value.fields[i].value, n) {
      assert SupportedTo(schema, n + 1);
      assert FieldsSupportedTo(Get(schema.fields, Properties).value.fields, n);
    }
  }

  lemma {:induction false} SupportedHere(schema: Json)
    requires Supported(schema)
    ensures schema.Obj? && Absent(schema.fields, OneOf) && RefShape(schema.fields) && EnumShape(schema.fields)
    ensures AnyOfShape(schema.fields) && TypeShape(schema.fields)
  {
    assert SupportedTo(schema, 1);
  }

  // ---------------------------------------------------------------------------
  // Soundness
  // ---------------------------------------------------------------------------

  /** How long a derivation an instance found at this depth can need. */
  function Steps(depth: nat): (n: nat) { if depth > MAX_INSTANCE_DEPTH then 1 else MAX_INSTANCE_DEPTH + 2 - depth }

  lemma {:induction false} AfterDefs(s: string, name: string)
    requires '/' !in name && '/' in s && s[|s| - 1] == '/'
    ensures AfterSlash(s + name) == name
    decreases |s|
  {
    assert (s + name)[|s| - 1] == '/';
    assert (s + name)[1..] == s[1..] + name;
    if |s| > 1 {
      assert s[1..][|s| - 2] == '/';
      AfterDefs(s[1..], name);
    } else {
      assert s[1..] + name == name;
    }
  }

  lemma {:induction false} RefName(reference: string)
    requires DEFS <= reference && '/' !in reference[|DEFS|..]
    ensures AfterSlash(reference) == reference[|DEFS|..]
  {
    assert reference == DEFS + reference[|DEFS|..];
    assert DEFS[|DEFS| - 1] == '/';
    AfterDefs(DEFS, reference[|DEFS|..]);
  }

  /** A node that allows null by its type accepts null. */
  lemma {:induction false} NullConforms(schema: Json, definitions: seq<Field>, n: nat)
    requires Supported(schema) && schema.Obj? && n > 0
    requires Get(schema.fields, TypeKey).Some? && TypeConforms(Null, Get(schema.fields, TypeKey).value)
    ensures Conforms(schema.fields, definitions, Null, n)
  {
    SupportedHere(schema);
  }

  /** The fields built so far: each with a schema of its own and conforming to it. */
  ghost predicate Built(built: seq<Field>, properties: seq<Field>, definitions: seq<Field>, n: nat) {
    forall i :: 0 <= i < |built| ==>
      Has(properties, built[i].key) && OptionConforms(Lookup(properties, built[i].key).value, definitions, built[i].value, n)
  }

  lemma {:induction false} Sound(schema: Json, definitions: seq<Field>, depth: nat, shows: Shows)
    requires Supported(schema) && AllSupported(definitions) && Faithful(shows)
    ensures schema.Obj?
    ensures !InstanceFor(schema.fields, definitions, depth, shows).Null? ==>
              Conforms(schema.fields, definitions, InstanceFor(schema.fields, definitions, depth, shows), Steps(depth))
    decreases Rank(depth), 2, 0
  {
    SupportedHere(schema);
    var fields := schema.fields;
    var r := InstanceFor(fields, definitions, depth, shows);
    if !r.Null? {
      if Get(fields, Ref).Some? {
        SoundRef(schema, definitions, depth, shows);
      } else if ListAt(fields, Enum) != [] {
        assert r in ListAt(fields, Enum);
      } else if ListAt(fields, AnyOf) != [] {
        SoundOptions(schema, ListAt(fields, AnyOf), 0, definitions, depth, shows);
      } else if Declared(fields).ObjectType? {
        SoundObject(schema, definitions, depth, shows);
      } else if Declared(fields).ArrayType? {
        SoundArray(schema, definitions, depth, shows);
      } else {
        DeclaredConforms(fields, r);
      }
    }
  }

  lemma {:induction false} SoundRef(schema: Json, definitions: seq<Field>, depth: nat, shows: Shows)
    requires Supported(schema) && AllSupported(definitions) && Faithful(shows) && depth <= MAX_INSTANCE_DEPTH
    requires schema.Obj? && Get(schema.fields, Ref).Some?
    requires !InstanceFor(schema.fields, definitions, depth, shows).Null?
    ensures Conforms(schema.fields, definitions, InstanceFor(schema.fields, definitions, depth, shows), Steps(depth))
    decreases Rank(depth), 1
  {
    SupportedHere(schema);
    var reference := Get(schema.fields, Ref).value;
    RefName(reference.s);
    var target := Lookup(definitions, AfterSlash(reference.s)).value;
    Sound(target, definitions, depth + 1, shows);
    assert RefConforms(reference, definitions, InstanceFor(schema.fields, definitions, depth, shows), Steps(depth) - 1);
  }

  lemma {:induction false} SoundOptions(
    schema: Json, options: seq<Json>, i: nat, definitions: seq<Field>, depth: nat, shows: Shows
  )
    requires Supported(schema) && AllSupported(definitions) && Faithful(shows) && depth <= MAX_INSTANCE_DEPTH
    requires schema.Obj? && i <= |ListAt(schema.fields, AnyOf)| && options == ListAt(schema.fields, AnyOf)[i..]
    requires Get(schema.fields, AnyOf).Some? && Absent(schema.fields, Ref)
    requires Absent(schema.fields, Enum)
    ensures !FirstOption(options, definitions, depth, shows).Null? ==>
              Conforms(schema.fields, definitions, FirstOption(options, definitions, depth, shows), Steps(depth))
    decreases Rank(depth), 1, |options|
  {
    SupportedHere(schema);
    if options != [] {
      SupportedOption(schema, i);
      Sound(options[0], definitions, depth + 1, shows);
      var candidate := InstanceFor(options[0].fields, definitions, depth + 1, shows);
      if candidate.Null? {
        SoundOptions(schema, options[1..], i + 1, definitions, depth, shows);
      } else {
        assert OptionConforms(ListAt(schema.fields, AnyOf)[i], definitions, candidate, Steps(depth) - 1);
      }
    }
  }

  /** The value of a declared simple type has that type. */
  lemma {:induction false} DeclaredConforms(schema: seq<Field>, v: Json)
    requires Get(schema, TypeKey).Some? ==> TypeWellFormed(Get(schema, TypeKey).value)
    requires HasType(v, Declared(schema))
    ensures Get(schema, TypeKey).Some? && TypeConforms(v, Get(schema, TypeKey).value)
  {
    match Get(schema, TypeKey)
    case Some(Arr(items)) => FirstTypeListed(items);
    case _ =>
  }

  lemma {:induction false} FirstTypeListed(items: seq<Json>)
    requires !FirstType(items).NoType?
    ensures exists i :: 0 <= i < |items| && items[i].Str? && TypeNamed(items[i].s) == FirstType(items)
  {
    if items[0].Str? && TypeNamed(items[0].s).NullType? {
      FirstTypeListed(items[1..]);
      var i :| 0 <= i < |items[1..]| && items[1..][i].Str? && TypeNamed(items[1..][i].s) == FirstType(items[1..]);
      assert items[i + 1] == items[1..][i];
    } else {
      assert items[0].Str?;
    }
  }

  lemma {:induction false} SoundArray(schema: Json, definitions: seq<Field>, depth: nat, shows: Shows)
    requires Supported(schema) && AllSupported(definitions) && Faithful(shows) && depth <= MAX_INSTANCE_DEPTH
    requires schema.Obj? && Absent(schema.fields, Ref) && Absent(schema.fields, Enum) && Absent(schema.fields, AnyOf)
    requires Declared(schema.fields).ArrayType? && !InstanceFor(schema.fields, definitions, depth, shows).Null?
    ensures Conforms(schema.fields, definitions, InstanceFor(schema.fields, definitions, depth, shows), Steps(depth))
    decreases Rank(depth), 1
  {
    SupportedHere(schema);
    ArrayInstance(schema.fields, definitions, depth, shows);
    if Minimum(schema.fields) > 0 {
      var items := Get(schema.fields, Items).value;
      SupportedItems(schema);
      Sound(items, definitions, depth + 1, shows);
      var element := InstanceFor(items.fields, definitions, depth + 1, shows);
      RepeatConforms(items, definitions, element, Minimum(schema.fields), Steps(depth) - 1);
    }
    ArrayConforms(schema.fields, definitions, InstanceFor(schema.fields, definitions, depth, shows), Steps(depth));
  }

  /** No reference, enumeration or union decides the instance. */
  ghost predicate ByType(schema: seq<Field>) {
    !(Get(schema, Ref).Some? && Get(schema, Ref).value.Str?)
    && ListAt(schema, Enum) == [] && ListAt(schema, AnyOf) == [] && ListAt(schema, OneOf) == []
  }

  lemma {:induction false} ArrayInstance(schema: seq<Field>, definitions: seq<Field>, depth: nat, shows: Shows)
    requires ByType(schema) && Declared(schema).ArrayType? && depth <= MAX_INSTANCE_DEPTH
    requires !InstanceFor(schema, definitions, depth, shows).Null?
    ensures var r := InstanceFor(schema, definitions, depth, shows);
      if Minimum(schema) <= 0 then r == Arr([])
      else
        && Get(schema, Items).Some? && Get(schema, Items).value.Obj?
        && var element := InstanceFor(Get(schema, Items).value.fields, definitions, depth + 1, shows);
           !element.Null? && r == Arr(Repeat(element, Minimum(schema)))
  {
  }

  lemma {:induction false} RepeatConforms(items: Json, definitions: seq<Field>, element: Json, count: nat, n: nat)
    requires OptionConforms(items, definitions, element, n)
    ensures ItemsConform(items, definitions, Repeat(element, count), n)
  {
  }

  lemma {:induction false} ArrayConforms(schema: seq<Field>, definitions: seq<Field>, v: Json, n: nat)
    requires n > 0 && v.Arr? && TypeShape(schema) && Declared(schema).ArrayType? && |v.items| >= Minimum(schema)
    requires Absent(schema, Ref) && Absent(schema, Enum) && Absent(schema, AnyOf)
    requires Get(schema, Items).Some? ==>
      ItemsConform(Get(schema, Items).value, definitions, v.items, n - 1)
    ensures Conforms(schema, definitions, v, n)
  {
    DeclaredConforms(schema, v);
  }

  lemma {:induction false} SoundObject(schema: Json, definitions: seq<Field>, depth: nat, shows: Shows)
    requires Supported(schema) && AllSupported(definitions) && Faithful(shows) && depth <= MAX_INSTANCE_DEPTH
    requires schema.Obj? && Absent(schema.fields, Ref) && Absent(schema.fields, Enum) && Absent(schema.fields, AnyOf)
    requires Declared(schema.fields).ObjectType? && !InstanceFor(schema.fields, definitions, depth, shows).Null?
    ensures Conforms(schema.fields, definitions, InstanceFor(schema.fields, definitions, depth, shows), Steps(depth))
    decreases Rank(depth), 1, 1
  {
    SupportedHere(schema);
    var r := InstanceFor(schema.fields, definitions, depth, shows);
    assert r.Obj?;
    DeclaredConforms(schema.fields, r);
    if Get(schema.fields, Properties).Some? {
      var properties := Get(schema.fields, Properties).value.fields;
      var names := if Get(schema.fields, Required).Some? then Get(schema.fields, Required).value.items else Names(properties);
      SoundFields(schema, names, definitions, depth, [], shows);
    }
  }

  /** The value found for a required name conforms to the schema of that name. */
  lemma {:induction false} SoundField(
    schema: Json, name: string, definitions: seq<Field>, depth: nat, shows: Shows
  )
    requires Supported(schema) && AllSupported(definitions) && Faithful(shows) && depth <= MAX_INSTANCE_DEPTH
    requires schema.Obj? && Get(schema.fields, Properties).Some? && Get(schema.fields, Properties).value.Obj?
    requires var properties := Get(schema.fields, Properties).value.fields;
      Has(properties, name) && Lookup(properties, name).value.Obj?
      && var child := Lookup(properties, name).value;
         InstanceFor(child.fields, definitions, depth + 1, shows).Null? ==> Nullable(child.fields, shows)
    ensures var child := Lookup(Get(schema.fields, Properties).value.fields, name).value;
      OptionConforms(child, definitions, InstanceFor(child.fields, definitions, depth + 1, shows), Steps(depth) - 1)
    decreases Rank(depth), 1, 0, 0
  {
    var properties := Get(schema.fields, Properties).value.fields;
    var child := Lookup(properties, name).value;
    SupportedProperty(schema, Find(properties, name));
    Sound(child, definitions, depth + 1, shows);
    if InstanceFor(child.fields, definitions, depth + 1, shows).Null? {
      SupportedHere(child);
      NullConforms(child, definitions, Steps(depth) - 1);
    }
  }

  ghost predicate KeysKept(built: seq<Field>, r: seq<Field>) {
    forall i :: 0 <= i < |built| ==> Has(r, built[i].key)
  }

  ghost predicate NamesHad(names: seq<Json>, r: seq<Field>) {
    forall i :: 0 <= i < |names| ==> names[i].Str? && Has(r, names[i].s)
  }

  lemma {:induction false} KeptThrough(built: seq<Field>, key: string, value: Json, r: seq<Field>)
    requires KeysKept(Put(built, key, value), r)
    ensures KeysKept(built, r) && Has(r, key)
  {
    var more := Put(built, key, value);
    PutKeeps(built, key, value, key);
    assert more[Find(more, key)].key == key;
    forall i | 0 <= i < |built| ensures Has(r, built[i].key) {
      assert more[i].key == built[i].key;
    }
  }

  lemma {:induction false} NamesStep(names: seq<Json>, r: seq<Field>)
    requires names != [] && names[0].Str? && Has(r, names[0].s) && NamesHad(names[1..], r)
    ensures NamesHad(names, r)
  {
    assert forall i :: 0 < i < |names| ==> names[i] == names[1..][i - 1];
  }

  /** One name of `BuildObject`, when it goes through. */
  lemma {:induction false} BuildStep(
    names: seq<Json>, properties: seq<Field>, definitions: seq<Field>, depth: nat, built: seq<Field>, shows: Shows
  )
    requires names != [] && depth <= MAX_INSTANCE_DEPTH
    requires BuildObject(names, properties, definitions, depth, built, shows).Some?
    ensures names[0].Str? && Has(properties, names[0].s) && Lookup(properties, names[0].s).value.Obj?
    ensures var child := Lookup(properties, names[0].s).value;
      var value := InstanceFor(child.fields, definitions, depth + 1, shows);
      (value.Null? ==> Nullable(child.fields, shows))
      && BuildObject(names, properties, definitions, depth, built, shows)
         == BuildObject(names[1..], properties, definitions, depth, Put(built, names[0].s, value), shows)
  {
  }

  lemma {:induction false} SoundFields(
    schema: Json, names: seq<Json>, definitions: seq<Field>, depth: nat, built: seq<Field>, shows: Shows
  )
    requires Supported(schema) && AllSupported(definitions) && Faithful(shows) && depth <= MAX_INSTANCE_DEPTH
    requires schema.Obj? && Get(schema.fields, Properties).Some? && Get(schema.fields, Properties).value.Obj?
    requires Built(built, Get(schema.fields, Properties).value.fields, definitions, Steps(depth) - 1)
    requires BuildObject(names, Get(schema.fields, Properties).value.fields, definitions, depth, built, shows).Some?
    ensures var r := BuildObject(names, Get(schema.fields, Properties).value.fields, definitions, depth, built, shows).value;
      Built(r, Get(schema.fields, Properties).value.fields, definitions, Steps(depth) - 1) && NamesHad(names, r) && KeysKept(built, r)
    decreases Rank(depth), 1, 0, |names|
  {
    var properties := Get(schema.fields, Properties).value.fields;
    if names != [] {
      BuildStep(names, properties, definitions, depth, built, shows);
      var name := names[0].s;
      SoundField(schema, name, definitions, depth, shows);
      var value := InstanceFor(Lookup(properties, name).value.fields, definitions, depth + 1, shows);
      PutBuilt(built, properties, definitions, Steps(depth) - 1, name, value);
      SoundFields(schema, names[1..], definitions, depth, Put(built, name, value), shows);
      var r := BuildObject(names, properties, definitions, depth, built, shows).value;
      KeptThrough(built, name, value, r);
      NamesStep(names, r);
    } else {
      OwnKeys(built);
    }
  }

  lemma {:induction false} OwnKeys(built: seq<Field>)
    ensures KeysKept(built, built)
  {
  }

  lemma {:induction false} PutBuilt(
    built: seq<Field>, properties: seq<Field>, definitions: seq<Field>, n: nat, name: string, value: Json
  )
    requires Built(built, properties, definitions, n)
    requires Has(properties, name) && OptionConforms(Lookup(properties, name).value, definitions, value, n)
    ensures Built(Put(built, name, value), properties, definitions, n)
  {
  }

  // ---------------------------------------------------------------------------
  // More depth, and cycles
  // ---------------------------------------------------------------------------

  /** The names an object is built with. */
  function RequiredNames(schema: seq<Field>): (r: seq<Json>) {
    if Get(schema, Required).Some? && Get(schema, Required).value.Arr? then Get(schema, Required).value.items
    else if Get(schema, Properties).Some? && Get(schema, Properties).value.Obj? then Names(Get(schema, Properties).value.fields)
    else []
  }

  /** An object with properties has an instance exactly when each of its required names has a value. */
  lemma {:induction false} ObjectInstance(schema: seq<Field>, definitions: seq<Field>, depth: nat, shows: Shows)
    requires ByType(schema) && Declared(schema).ObjectType? && depth <= MAX_INSTANCE_DEPTH
    requires Get(schema, Properties).Some? && Get(schema, Properties).value.Obj?
    ensures InstanceFor(schema, definitions, depth, shows).Null?
       <==> BuildObject(RequiredNames(schema), Get(schema, Properties).value.fields, definitions, depth, [], shows).None?
  {
  }

  /** A reply found with less depth left is still found with more. */
  lemma {:induction false} MoreDepth(schema: seq<Field>, definitions: seq<Field>, depth: nat, less: nat, shows: Shows)
    requires less <= depth && !InstanceFor(schema, definitions, depth, shows).Null?
    ensures !InstanceFor(schema, definitions, less, shows).Null?
    decreases Rank(depth), 2, 0
  {
    if Get(schema, Ref).Some? && Get(schema, Ref).value.Str? {
      MoreDepthReference(schema, definitions, depth, less, shows);
    } else if ListAt(schema, Enum) != [] {
    } else if ListAt(schema, AnyOf) != [] {
      MoreDepthOptions(ListAt(schema, AnyOf), definitions, depth, less, shows);
    } else if ListAt(schema, OneOf) != [] {
      MoreDepthOptions(ListAt(schema, OneOf), definitions, depth, less, shows);
    } else if Declared(schema).ObjectType? {
      MoreDepthObject(schema, definitions, depth, less, shows);
    } else if Declared(schema).ArrayType? {
      MoreDepthArray(schema, definitions, depth, less, shows);
    }
  }

  lemma {:induction false} MoreDepthReference(
    schema: seq<Field>, definitions: seq<Field>, depth: nat, less: nat, shows: Shows
  )
    requires less <= depth && !InstanceFor(schema, definitions, depth, shows).Null?
    requires Get(schema, Ref).Some? && Get(schema, Ref).value.Str?
    ensures !InstanceFor(schema, definitions, less, shows).Null?
    decreases Rank(depth), 1
  {
    var target := Lookup(definitions, AfterSlash(Get(schema, Ref).value.s)).value;
    MoreDepth(target.fields, definitions, depth + 1, less + 1, shows);
  }

  lemma {:induction false} MoreDepthArray(schema: seq<Field>, definitions: seq<Field>, depth: nat, less: nat, shows: Shows)
    requires less <= depth && !InstanceFor(schema, definitions, depth, shows).Null?
    requires ByType(schema) && Declared(schema).ArrayType?
    ensures !InstanceFor(schema, definitions, less, shows).Null?
    decreases Rank(depth), 1
  {
    if Minimum(schema) > 0 {
      MoreDepth(Get(schema, Items).value.fields, definitions, depth + 1, less + 1, shows);
    }
  }

  lemma {:induction false} MoreDepthObject(schema: seq<Field>, definitions: seq<Field>, depth: nat, less: nat, shows: Shows)
    requires less <= depth && !InstanceFor(schema, definitions, depth, shows).Null?
    requires ByType(schema) && Declared(schema).ObjectType?
    ensures !InstanceFor(schema, definitions, less, shows).Null?
    decreases Rank(depth), 1, |RequiredNames(schema)| + 1
  {
    if Get(schema, Properties).Some? && Get(schema, Properties).value.Obj? {
      ObjectInstance(schema, definitions, depth, shows);
      ObjectInstance(schema, definitions, less, shows);
      MoreDepthFields(RequiredNames(schema), Get(schema, Properties).value.fields, definitions, depth, less, [], [], shows);
    }
  }

  lemma {:induction false} MoreDepthOptions(
    options: seq<Json>, definitions: seq<Field>, depth: nat, less: nat, shows: Shows
  )
    requires less <= depth <= MAX_INSTANCE_DEPTH && !FirstOption(options, definitions, depth, shows).Null?
    ensures !FirstOption(options, definitions, less, shows).Null?
    decreases Rank(depth), 1, |options|
  {
    if options[0].Obj? && !InstanceFor(options[0].fields, definitions, depth + 1, shows).Null? {
      MoreDepth(options[0].fields, definitions, depth + 1, less + 1, shows);
    } else {
      MoreDepthOptions(options[1..], definitions, depth, less, shows);
    }
  }

  lemma {:induction false} MoreDepthFields(
    names: seq<Json>, properties: seq<Field>, definitions: seq<Field>, depth: nat, less: nat,
    built: seq<Field>, other: seq<Field>, shows: Shows
  )
    requires less <= depth <= MAX_INSTANCE_DEPTH
    requires BuildObject(names, properties, definitions, depth, built, shows).Some?
    ensures BuildObject(names, properties, definitions, less, other, shows).Some?
    decreases Rank(depth), 1, |names|
  {
    if names != [] {
      var child := Lookup(properties, names[0].s).value;
      var value, deeper := InstanceFor(child.fields, definitions, depth + 1, shows), InstanceFor(child.fields, definitions, less + 1, shows);
      if !value.Null? { MoreDepth(child.fields, definitions, depth + 1, less + 1, shows); }
      MoreDepthFields(names[1..], properties, definitions, depth, less,
                      Put(built, names[0].s, value), Put(other, names[0].s, deeper), shows);
    }
  }

  /** A definition that only refers to itself has no reply, at any depth. */
  lemma {:induction false} SelfReference(schema: seq<Field>, definitions: seq<Field>, depth: nat, shows: Shows)
    requires Get(schema, Ref).Some? && Get(schema, Ref).value.Str?
    requires Lookup(definitions, AfterSlash(Get(schema, Ref).value.s)) == Some(Obj(schema))
    ensures InstanceFor(schema, definitions, depth, shows).Null?
    decreases Rank(depth)
  {
    if depth <= MAX_INSTANCE_DEPTH {
      SelfReference(schema, definitions, depth + 1, shows);
    }
  }
}
