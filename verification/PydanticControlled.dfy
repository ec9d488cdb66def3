/**
  The second copy of the instance generator (agentcheck/adapters/pydantic_ai_controlled.py),
  which must answer exactly as the first.
 */
module PydanticControlled {
  import opened Bags
  import opened Json
  import opened ControlledModel

  /** One value for the schema, or `Null` outside of the handled subset. */
  function InstanceOf(schema: seq<Field>, definitions: seq<Field>, depth: nat, shows: Shows): (r: Json)
    decreases Rank(depth), 3, 0
  {
    if depth > MAX_INSTANCE_DEPTH then Null
    else match Get(schema, Ref)
      case Some(Str(reference)) => Referenced(Lookup(definitions, AfterSlash(reference)), definitions, depth, shows)
      case _ =>
        var enumerated := ListAt(schema, Enum);
        if enumerated != [] then enumerated[0]
        else
          var options := if ListAt(schema, AnyOf) != [] then ListAt(schema, AnyOf) else ListAt(schema, OneOf);
          if options != [] then Candidate(options, definitions, depth, shows)
          else Typed(schema, Declared(schema), definitions, depth, shows)
  }

  function Referenced(target: Option<Json>, definitions: seq<Field>, depth: nat, shows: Shows): (r: Json)
    requires depth <= MAX_INSTANCE_DEPTH
    decreases Rank(depth), 1, 0
  {
    match target
    case Some(Obj(fields)) => InstanceOf(fields, definitions, depth + 1, shows)
    case _ => Null
  }

  function Candidate(options: seq<Json>, definitions: seq<Field>, depth: nat, shows: Shows): (r: Json)
    requires depth <= MAX_INSTANCE_DEPTH
    decreases Rank(depth), 1, |options|
  {
    if options == [] then Null
    else match options[0]
      case Obj(fields) =>
        var candidate := InstanceOf(fields, definitions, depth + 1, shows);
        if candidate.Null? then Candidate(options[1..], definitions, depth, shows) else candidate
      case _ => Candidate(options[1..], definitions, depth, shows)
  }

  function Typed(schema: seq<Field>, declared: TypeName, definitions: seq<Field>, depth: nat, shows: Shows): (r: Json)
    requires depth <= MAX_INSTANCE_DEPTH
    decreases Rank(depth), 2, 0
  {
    match declared
    case ObjectType =>
      (match Get(schema, Properties)
       case Some(Obj(properties)) =>
         var required := Get(schema, Required);
         var built := Fields(if required.Some? && required.value.Arr? then required.value.items else Names(properties),
                             properties, definitions, depth, [], shows);
         if built.None? then Null else Obj(built.value)
       case _ => Obj([]))
    case ArrayType =>
      if Minimum(schema) <= 0 then Arr([])
      else (match Get(schema, Items)
            case Some(Obj(items)) =>
              var element := InstanceOf(items, definitions, depth + 1, shows);
              if element.Null? then Null else Arr(Repeat(element, Minimum(schema)))
            case _ => Null)
    case StringType => Str("agentcheck-controlled-value")
    case IntegerType => Int(0)
    case NumberType => Float(0.0)
    case BooleanType => Bool(false)
    case _ => Null
  }

  function Fields(
    names: seq<Json>, properties: seq<Field>, definitions: seq<Field>, depth: nat, built: seq<Field>, shows: Shows
  ): (r: Option<seq<Field>>)
    requires depth <= MAX_INSTANCE_DEPTH
    decreases Rank(depth), 1, |names|
  {
    if names == [] then Some(built)
    else match names[0]
      case Str(name) =>
        (match Lookup(properties, name)
         case Some(Obj(child)) =>
           var value := InstanceOf(child, definitions, depth + 1, shows);
           if value.Null? && !Nullable(child, shows) then None
           else Fields(names[1..], properties, definitions, depth, Put(built, name, value), shows)
         case _ => None)
      case _ => None
  }

  // ---------------------------------------------------------------------------
  // Agreement
  // ---------------------------------------------------------------------------

  /** The two adapters build the same reply from the same schema. */
  lemma {:induction false} SameInstance(schema: seq<Field>, definitions: seq<Field>, depth: nat, shows: Shows)
    ensures InstanceOf(schema, definitions, depth, shows) == InstanceFor(schema, definitions, depth, shows)
    decreases Rank(depth), 2, 0
  {
    if depth <= MAX_INSTANCE_DEPTH {
      match Get(schema, Ref) {
        case Some(Str(reference)) =>
          var target := Lookup(definitions, AfterSlash(reference));
          if target.Some? && target.value.Obj? { SameInstance(target.value.fields, definitions, depth + 1, shows); }
        case _ =>
          if ListAt(schema, Enum) == [] {
            SameCandidate(ListAt(schema, AnyOf), definitions, depth, shows);
            SameCandidate(ListAt(schema, OneOf), definitions, depth, shows);
            if ListAt(schema, AnyOf) == [] && ListAt(schema, OneOf) == [] { SameTyped(schema, definitions, depth, shows); }
          }
      }
    }
  }

  lemma {:induction false} SameCandidate(options: seq<Json>, definitions: seq<Field>, depth: nat, shows: Shows)
    requires depth <= MAX_INSTANCE_DEPTH
    ensures Candidate(options, definitions, depth, shows) == FirstOption(options, definitions, depth, shows)
    decreases Rank(depth), 1, |options|
  {
    if options != [] {
      if options[0].Obj? { SameInstance(options[0].fields, definitions, depth + 1, shows); }
      SameCandidate(options[1..], definitions, depth, shows);
    }
  }

  /** Neither a reference nor an enumeration nor a union decides the reply. */
  ghost predicate ByType(schema: seq<Field>) {
    ListAt(schema, Enum) == [] && ListAt(schema, AnyOf) == [] && ListAt(schema, OneOf) == []
    && !(Get(schema, Ref).Some? && Get(schema, Ref).value.Str?)
  }

  lemma {:induction false} SameTyped(schema: seq<Field>, definitions: seq<Field>, depth: nat, shows: Shows)
    requires depth <= MAX_INSTANCE_DEPTH && ByType(schema)
    ensures Typed(schema, Declared(schema), definitions, depth, shows) == InstanceFor(schema, definitions, depth, shows)
    decreases Rank(depth), 1, 0, 2
  {
    if Declared(schema).ObjectType? {
      SameObject(schema, definitions, depth, shows);
    } else if Declared(schema).ArrayType? {
      SameArray(schema, definitions, depth, shows);
    } else {
      SameSimple(schema, definitions, depth, shows);
    }
  }

  lemma {:induction false} SameSimple(schema: seq<Field>, definitions: seq<Field>, depth: nat, shows: Shows)
    requires depth <= MAX_INSTANCE_DEPTH && ByType(schema) && !Declared(schema).ObjectType? && !Declared(schema).ArrayType?
    ensures Typed(schema, Declared(schema), definitions, depth, shows) == InstanceFor(schema, definitions, depth, shows)
  {
  }

  lemma {:induction false} SameArray(schema: seq<Field>, definitions: seq<Field>, depth: nat, shows: Shows)
    requires depth <= MAX_INSTANCE_DEPTH && ByType(schema) && Declared(schema).ArrayType?
    ensures Typed(schema, Declared(schema), definitions, depth, shows) == InstanceFor(schema, definitions, depth, shows)
    decreases Rank(depth), 1, 0, 1
  {
    if Get(schema, Items).Some? && Get(schema, Items).value.Obj? {
      SameInstance(Get(schema, Items).value.fields, definitions, depth + 1, shows);
    }
  }

  lemma {:induction false} SameObject(schema: seq<Field>, definitions: seq<Field>, depth: nat, shows: Shows)
    requires depth <= MAX_INSTANCE_DEPTH && ByType(schema) && Declared(schema).ObjectType?
    ensures Typed(schema, Declared(schema), definitions, depth, shows) == InstanceFor(schema, definitions, depth, shows)
    decreases Rank(depth), 1, 0, 1
  {
    if Get(schema, Properties).Some? && Get(schema, Properties).value.Obj? {
      var properties := Get(schema, Properties).value.fields;
      var required := Get(schema, Required);
      SameFields(if required.Some? && required.value.Arr? then required.value.items else Names(properties),
                 properties, definitions, depth, [], shows);
    }
  }

  lemma {:induction false} SameFields(
    names: seq<Json>, properties: seq<Field>, definitions: seq<Field>, depth: nat, built: seq<Field>, shows: Shows
  )
    requires depth <= MAX_INSTANCE_DEPTH
    ensures Fields(names, properties, definitions, depth, built, shows)
         == BuildObject(names, properties, definitions, depth, built, shows)
    decreases Rank(depth), 1, 0, 0, |names|, 1
  {
    if names != [] && names[0].Str? && Lookup(properties, names[0].s).Some? && Lookup(properties, names[0].s).value.Obj? {
      SameField(names, properties, definitions, depth, built, shows, Lookup(properties, names[0].s).value.fields);
    } else {
      SameRefusal(names, properties, definitions, depth, built, shows);
    }
  }

  lemma {:induction false} SameField(
    names: seq<Json>, properties: seq<Field>, definitions: seq<Field>, depth: nat, built: seq<Field>, shows: Shows,
    child: seq<Field>
  )
    requires depth <= MAX_INSTANCE_DEPTH && names != [] && names[0].Str? && Lookup(properties, names[0].s) == Some(Obj(child))
    ensures Fields(names, properties, definitions, depth, built, shows)
         == BuildObject(names, properties, definitions, depth, built, shows)
    decreases Rank(depth), 1, 0, 0, |names|, 0
  {
    var value := InstanceFor(child, definitions, depth + 1, shows);
    assert InstanceOf(child, definitions, depth + 1, shows) == value by {
      SameInstance(child, definitions, depth + 1, shows);
    }
    var rest, extended := names[1..], Put(built, names[0].s, value);
    assert Fields(rest, properties, definitions, depth, extended, shows)
        == BuildObject(rest, properties, definitions, depth, extended, shows) by {
      SameFields(rest, properties, definitions, depth, extended, shows);
    }
    SameStep(names, properties, definitions, depth, built, shows, child, value);
  }

  /** No name left, or one that has no schema. */
  lemma {:induction false} SameRefusal(
    names: seq<Json>, properties: seq<Field>, definitions: seq<Field>, depth: nat, built: seq<Field>, shows: Shows
  )
    requires depth <= MAX_INSTANCE_DEPTH
    requires names != [] && names[0].Str? ==>
      Lookup(properties, names[0].s).None? || !Lookup(properties, names[0].s).value.Obj?
    ensures Fields(names, properties, definitions, depth, built, shows)
         == BuildObject(names, properties, definitions, depth, built, shows)
  {
  }

  /** One name, where its value and what follows agree. */
  lemma {:induction false} SameStep(
    names: seq<Json>, properties: seq<Field>, definitions: seq<Field>, depth: nat, built: seq<Field>, shows: Shows,
    child: seq<Field>, value: Json
  )
    requires depth <= MAX_INSTANCE_DEPTH && names != [] && names[0].Str? && Lookup(properties, names[0].s) == Some(Obj(child))
    requires InstanceFor(child, definitions, depth + 1, shows) == value
    requires InstanceOf(child, definitions, depth + 1, shows) == value
    requires Fields(names[1..], properties, definitions, depth, Put(built, names[0].s, value), shows)
          == BuildObject(names[1..], properties, definitions, depth, Put(built, names[0].s, value), shows)
    ensures Fields(names, properties, definitions, depth, built, shows)
         == BuildObject(names, properties, definitions, depth, built, shows)
  {
  }
}
