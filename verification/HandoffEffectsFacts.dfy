/**
  The callback analysis refines the language's own semantics: an accepted callback, run
  with every `randint` at its lower bound, writes exactly the assignments found, unless
  a local name hides the provider of `randint`.
 */
module HandoffEffectsFacts {
  import opened Bags
  import opened Json
  import opened HandoffEffects

  // ---------------------------------------------------------------------------
  // The reference run
  // ---------------------------------------------------------------------------

  /** `randint` of the standard module, reached through names that are not local to the function. */
  predicate Provider(func: Expr, statics: set<string>, env: Environment) {
    match func
    case Attribute(Name(id), attr) => attr == "randint" && id !in statics && env.isRandom(id)
    case Name(id) => id !in statics && env.isRandint(id)
    case _ => false
  }

  function ConstantValue(literal: Literal): (r: Option<Json>) {
    match literal
    case Plain(Null) => Some(Null)
    case Plain(Bool(b)) => Some(Bool(b))
    case Plain(Int(i)) => Some(Int(i))
    case Plain(Str(s)) => Some(Str(s))
    case _ => None
  }

  function Sum(a: Json, b: Json): (r: Option<Json>) {
    if a.Str? && b.Str? then Some(Str(a.s + b.s))
    else if a.Int? && b.Int? then Some(Int(a.i + b.i))
    else None
  }

  /** Text of a value inside an f-string. */
  function TextOf(v: Json, env: Environment): (r: Option<string>) {
    match v
    case Str(s) => Some(s)
    case Int(i) => Some(env.text(i))
    case Bool(b) => Some(if b then "True" else "False")
    case Null => Some("None")
    case _ => None
  }

  /**
    The value of an expression when every `randint` returns its lower bound; none when
    it raises or leaves the modelled language. `statics` are the names local to the
    function: reading one before it has a value raises, it never falls back to a global.
   */
  function RefEval(e: Expr, statics: set<string>, locals: Locals, env: Environment): (r: Option<Json>)
    decreases e
  {
    match e
    case Constant(literal) => ConstantValue(literal)
    case Name(id) => if id in statics && id in locals then Some(locals[id]) else None
    case JoinedStr(parts) => RefParts(parts, [], statics, locals, env)
    case Add(x, y) =>
      var a := RefEval(x, statics, locals, env);
      var b := RefEval(y, statics, locals, env);
      if a.Some? && b.Some? then Sum(a.value, b.value) else None
    case Call(func, args, keywords) =>
      if keywords != 0 || |args| != 2 || !Provider(func, statics, env) then None
      else
        var low := RefEval(args[0], statics, locals, env);
        var high := RefEval(args[1], statics, locals, env);
        if low.Some? && high.Some? && low.value.Int? && high.value.Int? && low.value.i <= high.value.i then low else None
    case _ => None
  }

  function RefPart(part: Part, statics: set<string>, locals: Locals, env: Environment): (r: Option<string>)
    decreases part
  {
    match part
    case Fixed(literal) => if literal.Plain? && literal.value.Str? then Some(literal.value.s) else None
    case Formatted(value, conversion, spec) =>
      if (conversion != -1 && conversion != 115) || spec then None
      else
        var v := RefEval(value, statics, locals, env);
        if v.Some? then TextOf(v.value, env) else None
  }

  function RefParts(
    parts: seq<Part>, done: string, statics: set<string>, locals: Locals, env: Environment
  ): (r: Option<Json>)
    decreases parts
  {
    if parts == [] then Some(Str(done))
    else
      var text := RefPart(parts[0], statics, locals, env);
      if text.None? then None else RefParts(parts[1..], done + text.value, statics, locals, env)
  }

  /** The context writes of a run, in order; none when the run raises. */
  function RefRun(
    locals: Locals, writes: seq<Field>, body: seq<Statement>, param: string, statics: set<string>, env: Environment
  ): (r: Option<seq<Field>>)
    decreases |body|
  {
    if body == [] then Some(writes)
    else match body[0]
      case Pass => RefRun(locals, writes, body[1..], param, statics, env)
      case Expression(value) =>
        if RefEval(value, statics, locals, env).None? then None
        else RefRun(locals, writes, body[1..], param, statics, env)
      case Return(value) =>
        if value.Some? && RefEval(value.value, statics, locals, env).None? then None else Some(writes)
      case Assign(targets, value) =>
        var v := RefEval(value, statics, locals, env);
        if |targets| != 1 || v.None? then None
        else (match targets[0]
          case Name(id) => RefRun(locals[id := v.value], writes, body[1..], param, statics, env)
          case Attribute(Attribute(Name(id), inner), field) =>
            if id == param && id !in locals && inner == "context"
            then RefRun(locals, writes + [Field(field, v.value)], body[1..], param, statics, env) else None
          case _ => None)
      case OtherStatement => None
  }

  /** Names assigned anywhere in the body. */
  function AssignedNames(body: seq<Statement>): (r: set<string>) {
    if body == [] then {}
    else (if body[0].Assign? && |body[0].targets| == 1 && body[0].targets[0].Name? then {body[0].targets[0].id} else {})
         + AssignedNames(body[1..])
  }

  /** The names local to the function: its parameter and everything it assigns. */
  function Statics(body: seq<Statement>, param: string): (r: set<string>) {
    {param} + AssignedNames(body)
  }

  function Callback(body: seq<Statement>, param: string, env: Environment): (r: Option<seq<Field>>) {
    RefRun(map[], [], body, param, Statics(body, param), env)
  }

  // ---------------------------------------------------------------------------
  // The names through which randint is reached
  // ---------------------------------------------------------------------------

  function ProviderName(func: Expr): (r: set<string>) {
    match func
    case Attribute(Name(id), _) => {id}
    case Name(id) => {id}
    case _ => {}
  }

  function Providers(e: Expr): (r: set<string>)
    decreases e
  {
    match e
    case JoinedStr(parts) => PartsProviders(parts)
    case Add(x, y) => Providers(x) + Providers(y)
    case Call(func, args, _) =>
      if |args| != 2 then ProviderName(func) else ProviderName(func) + Providers(args[0]) + Providers(args[1])
    case _ => {}
  }

  function PartProviders(part: Part): (r: set<string>)
    decreases part
  {
    if part.Formatted? then Providers(part.value) else {}
  }

  function PartsProviders(parts: seq<Part>): (r: set<string>)
    decreases parts
  {
    if parts == [] then {} else PartProviders(parts[0]) + PartsProviders(parts[1..])
  }

  function BodyProviders(body: seq<Statement>): (r: set<string>)
    decreases |body|
  {
    if body == [] then {}
    else (if body[0].Assign? then Providers(body[0].value) else {}) + BodyProviders(body[1..])
  }

  // ---------------------------------------------------------------------------
  // Refinement
  // ---------------------------------------------------------------------------

  /** An accepted expression has the value found, unless a provider is a local name: then it raises. */
  lemma {:induction false} EvalRefines(e: Expr, statics: set<string>, locals: Locals, env: Environment, left: int)
    requires Eval(e, locals, env, left).Accepted? && locals.Keys <= statics
    ensures RefEval(e, statics, locals, env)
         == if Providers(e) !! statics then Some(Eval(e, locals, env, left).value) else None
    decreases e
  {
    match e
    case JoinedStr(parts) => PartsRefine(parts, [], statics, locals, env, left - 1);
    case Add(x, y) =>
      EvalRefines(x, statics, locals, env, left - 1);
      EvalRefines(y, statics, locals, env, Eval(x, locals, env, left - 1).left);
    case Call(func, args, keywords) =>
      EvalRefines(args[0], statics, locals, env, left - 1);
      EvalRefines(args[1], statics, locals, env, Eval(args[0], locals, env, left - 1).left);
      ProviderHidden(func, statics, locals, env);
    case _ =>
  }

  lemma {:induction false} ProviderHidden(func: Expr, statics: set<string>, locals: Locals, env: Environment)
    requires ProvenRandint(func, locals, env)
    ensures Provider(func, statics, env) <==> ProviderName(func) !! statics
  {
  }

  lemma {:induction false} PartRefines(part: Part, statics: set<string>, locals: Locals, env: Environment, left: int)
    requires EvalPart(part, locals, env, left).Accepted? && locals.Keys <= statics
    ensures EvalPart(part, locals, env, left).value.Str?
    ensures RefPart(part, statics, locals, env)
         == if PartProviders(part) !! statics then Some(EvalPart(part, locals, env, left).value.s) else None
    decreases part
  {
    if part.Formatted? {
      EvalRefines(part.value, statics, locals, env, left - 1);
    }
  }

  lemma {:induction false} PartsRefine(
    parts: seq<Part>, done: string, statics: set<string>, locals: Locals, env: Environment, left: int
  )
    requires EvalParts(parts, done, locals, env, left).Accepted? && locals.Keys <= statics
    ensures RefParts(parts, done, statics, locals, env)
         == if PartsProviders(parts) !! statics then Some(EvalParts(parts, done, locals, env, left).value) else None
    decreases parts
  {
    if parts != [] {
      PartRefines(parts[0], statics, locals, env, left);
      var first := EvalPart(parts[0], locals, env, left);
      PartsRefine(parts[1..], done + first.value.s, statics, locals, env, first.left);
    }
  }

  /** The statements of an accepted body, followed by at most a return of nothing. */
  lemma {:induction false} StepsRefine(
    st: State, body: seq<Statement>, tail: seq<Statement>, param: string, statics: set<string>, env: Environment
  )
    requires Steps(st, body, param, env).Some?
    requires st.locals.Keys <= statics && param in statics && param !in st.locals && AssignedNames(body) <= statics
    requires tail == [] || (|tail| == 1 && ReturnsNothing(tail[0]))
    ensures RefRun(st.locals, st.assignments, body + tail, param, statics, env)
         == if BodyProviders(body) !! statics then Some(Steps(st, body, param, env).value.assignments) else None
    decreases |body|
  {
    if body == [] {
      assert body + tail == tail;
    } else {
      var next := Step(st, body[0], param, env).value;
      assert (body + tail)[0] == body[0] && (body + tail)[1..] == body[1..] + tail;
      if body[0].Assign? {
        EvalRefines(body[0].value, statics, st.locals, env, st.left);
      }
      StepsRefine(next, body[1..], tail, param, statics, env);
    }
  }

  lemma {:induction false} NamesAndProvidersSplit(a: seq<Statement>, b: seq<Statement>)
    ensures AssignedNames(a + b) == AssignedNames(a) + AssignedNames(b)
    ensures BodyProviders(a + b) == BodyProviders(a) + BodyProviders(b)
    decreases |a|
  {
    if a == [] {
      assert a + b == b;
    } else {
      assert (a + b)[0] == a[0] && (a + b)[1..] == a[1..] + b;
      NamesAndProvidersSplit(a[1..], b);
    }
  }

  /** A body is a docstring, the statements to evaluate, and a final return; only the middle assigns and calls. */
  lemma {:induction false} Parts(
    body: seq<Statement>
  ) returns (head: seq<Statement>, core: seq<Statement>, tail: seq<Statement>)
    requires Core(body).Some?
    ensures core == Core(body).value && body == head + (core + tail) && core + tail == AfterDocstring(body)
    ensures head == [] || (|head| == 1 && IsDocstring(head[0]))
    ensures tail == [] || (|tail| == 1 && ReturnsNothing(tail[0]))
    ensures AssignedNames(body) == AssignedNames(core) && BodyProviders(body) == BodyProviders(core)
  {
    var rest := AfterDocstring(body);
    core := Core(body).value;
    head := if rest == body then [] else [body[0]];
    tail := if rest != [] && rest[|rest| - 1].Return? then [rest[|rest| - 1]] else [];
    assert rest == core + tail;
    assert body == head + rest;
    NamesAndProvidersSplit(head, rest);
    NamesAndProvidersSplit(core, tail);
    assert AssignedNames(head) == {} && BodyProviders(head) == {};
    assert AssignedNames(tail) == {} && BodyProviders(tail) == {};
  }

  /** The docstring and the final return neither assign, nor call, nor write. */
  lemma {:induction false} CoreRefines(body: seq<Statement>, param: string, env: Environment)
    requires Core(body).Some? && Steps(State(map[], [], MAX_AST_NODES), Core(body).value, param, env).Some?
    ensures Callback(body, param, env)
         == if BodyProviders(body) !! Statics(body, param)
            then Some(Steps(State(map[], [], MAX_AST_NODES), Core(body).value, param, env).value.assignments) else None
  {
    var head, core, tail := Parts(body);
    var rest := core + tail;
    var statics := Statics(body, param);
    StepsRefine(State(map[], [], MAX_AST_NODES), core, tail, param, statics, env);
    if head != [] {
      assert RefEval(body[0].value, statics, map[], env).Some?;
      assert body[1..] == rest;
    }
  }

  /**
    An accepted callback finishes exactly when none of the names it reaches `randint`
    through is local to it, and then it writes exactly the assignments found, in order.
   */
  lemma {:induction false} AcceptedCallback(body: seq<Statement>, param: string, env: Environment)
    requires Analysis(body, param, env).Some?
    ensures Callback(body, param, env).Some? <==> BodyProviders(body) !! Statics(body, param)
    ensures Callback(body, param, env).Some? ==> Callback(body, param, env) == Analysis(body, param, env)
  {
    CoreRefines(body, param, env);
  }

  function Reference(provider: string): Expr { Attribute(Name(provider), "randint") }

  function FieldTarget(param: string, field: string): Expr { Attribute(Attribute(Name(param), "context"), field) }

  function Draw(
    provider: string
  ): Expr { Call(Reference(provider), [Constant(Plain(Int(1))), Constant(Plain(Int(9)))], 0) }

  /** The analysis misses it when the provider becomes local only by a later assignment. */
  lemma {:induction false} LaterRebindingIsMissed(param: string, provider: string, field: string, env: Environment)
    requires param != provider && env.isRandom(provider) && SafeName(provider) && SafeName(field)
    ensures var body := [Assign([FieldTarget(param, field)], Draw(provider)), Assign([Name(provider)], Constant(Plain(Null)))];
      Analysis(body, param, env) == Some([Field(field, Int(1))]) && Callback(body, param, env).None?
  {
    var first, second := Assign([FieldTarget(param, field)], Draw(provider)), Assign([Name(provider)], Constant(Plain(Null)));
    var body := [first, second];
    DrawStep(provider, param, field, env);
    assert body[1..] == [second] && [second][1..] == [];
    assert Core(body) == Some(body);
    var next := State(map[], [Field(field, Int(1))], MAX_AST_NODES - 3);
    assert Eval(Constant(Plain(Null)), map[], env, MAX_AST_NODES - 3) == Accepted(Null, MAX_AST_NODES - 4);
    assert Step(next, second, param, env) == Some(State(map[provider := Null], next.assignments, MAX_AST_NODES - 4));
    assert Steps(next, [second], param, env).Some?;
    CoreRefines(body, param, env);
    assert AssignedNames([second]) == {provider};
    assert provider in Statics(body, param) && provider in Providers(Draw(provider));
    assert provider in BodyProviders(body);
    assert Steps(next, [second], param, env).value.assignments == next.assignments;
  }

  lemma {:induction false} DrawAccepted(provider: string, locals: Locals, env: Environment, left: int)
    requires env.isRandom(provider) && provider !in locals && left >= 3
    ensures Eval(Draw(provider), locals, env, left) == Accepted(Int(1), left - 3)
  {
    var args := [Constant(Plain(Int(1))), Constant(Plain(Int(9)))];
    assert Eval(args[0], locals, env, left - 1) == Accepted(Int(1), left - 2);
    assert Eval(args[1], locals, env, left - 2) == Accepted(Int(9), left - 3);
  }

  lemma {:induction false} DrawStep(provider: string, param: string, field: string, env: Environment)
    requires env.isRandom(provider) && SafeName(field)
    ensures Step(State(map[], [], MAX_AST_NODES), Assign([FieldTarget(param, field)], Draw(provider)), param, env)
         == Some(State(map[], [Field(field, Int(1))], MAX_AST_NODES - 3))
  {
    DrawAccepted(provider, map[], env, MAX_AST_NODES);
    var targets := [FieldTarget(param, field)];
    assert targets[0] == FieldTarget(param, field) && ContextField(targets[0], param) == Some(field);
    assert [] + [Field(field, Int(1))] == [Field(field, Int(1))];
  }

  /** And it misses it when the parameter itself hides the module. */
  lemma {:induction false} ParameterShadowingIsMissed(provider: string, field: string, env: Environment)
    requires env.isRandom(provider) && SafeName(field)
    ensures var body := [Assign([FieldTarget(provider, field)], Draw(provider))];
      Analysis(body, provider, env) == Some([Field(field, Int(1))]) && Callback(body, provider, env).None?
  {
    var statement := Assign([FieldTarget(provider, field)], Draw(provider));
    var body := [statement];
    DrawStep(provider, provider, field, env);
    assert body[1..] == [];
    assert Core(body) == Some(body);
    CoreRefines(body, provider, env);
    assert provider in Providers(Draw(provider));
  }

  // ---------------------------------------------------------------------------
  // What is applied
  // ---------------------------------------------------------------------------

  predicate SafeValue(v: Json, env: Environment) {
    v.Str? ==> |v.s| <= MAX_STRING_CHARS && !env.secret(v.s)
  }

  /** At most four assignments, to distinct safe field names, of short values that are no secrets. */
  ghost predicate SafeAssignments(fields: seq<Field>, env: Environment) {
    |fields| <= MAX_ASSIGNMENTS && DistinctKeys(fields)
    && forall i :: 0 <= i < |fields| ==> SafeName(fields[i].key) && SafeValue(fields[i].value, env)
  }

  predicate Short(v: Json) { v.Str? ==> |v.s| <= MAX_STRING_CHARS }

  ghost predicate ShortLocals(locals: Locals) { forall k :: k in locals ==> Short(locals[k]) }

  lemma {:induction false} EvalShort(e: Expr, locals: Locals, env: Environment, left: int)
    requires Eval(e, locals, env, left).Accepted? && ShortLocals(locals)
    ensures Short(Eval(e, locals, env, left).value)
  {
    if e.JoinedStr? { PartsShort(e.parts, [], locals, env, left - 1); }
  }

  lemma {:induction false} PartsShort(parts: seq<Part>, done: string, locals: Locals, env: Environment, left: int)
    requires EvalParts(parts, done, locals, env, left).Accepted?
    ensures Short(EvalParts(parts, done, locals, env, left).value)
    decreases |parts|
  {
    if parts != [] {
      var first := EvalPart(parts[0], locals, env, left);
      PartsShort(parts[1..], done + first.value.s, locals, env, first.left);
    }
  }

  lemma {:induction false} StepsSafe(st: State, body: seq<Statement>, param: string, env: Environment)
    requires Steps(st, body, param, env).Some? && SafeAssignments(st.assignments, env) && ShortLocals(st.locals)
    ensures SafeAssignments(Steps(st, body, param, env).value.assignments, env)
    decreases |body|
  {
    if body != [] {
      if body[0].Assign? { EvalShort(body[0].value, st.locals, env, st.left); }
      StepsSafe(Step(st, body[0], param, env).value, body[1..], param, env);
    }
  }

  lemma {:induction false} AssignmentsAreSafe(body: seq<Statement>, param: string, env: Environment)
    requires Analysis(body, param, env).Some?
    ensures SafeAssignments(Analysis(body, param, env).value, env)
  {
    StepsSafe(State(map[], [], MAX_AST_NODES), Core(body).value, param, env);
  }

  /** The context bag a run owns. */
  class RunContext {
    var attributes: map<string, Json>

    constructor ()
      ensures attributes == map[]
    {
      attributes := map[];
    }
  }

  function Applied(bag: map<string, Json>, fields: seq<Field>): (r: map<string, Json>)
    decreases |fields|
  {
    if fields == [] then bag else Applied(bag, fields[..|fields| - 1])[fields[|fields| - 1].key := fields[|fields| - 1].value]
  }

  method ApplyContextAssignments(bag: RunContext, fields: seq<Field>)
    modifies bag
    ensures bag.attributes == Applied(old(bag.attributes), fields)
  {
    for i := 0 to |fields|
      invariant bag.attributes == Applied(old(bag.attributes), fields[..i])
    {
      assert fields[..i + 1][..i] == fields[..i];
      bag.attributes := bag.attributes[fields[i].key := fields[i].value];
    }
    assert fields[..|fields|] == fields;
  }

  predicate Maps(m: map<string, Json>, k: string, v: Json) { k in m && m[k] == v }

  /** With distinct fields, an attribute is its assignment if there is one, and untouched otherwise. */
  lemma {:induction false} AppliedAt(bag: map<string, Json>, fields: seq<Field>, k: string, v: Json)
    requires DistinctKeys(fields)
    ensures Maps(Applied(bag, fields), k, v)
       <==> Field(k, v) in fields || ((forall f :: f in fields ==> f.key != k) && Maps(bag, k, v))
    decreases |fields|
  {
    if fields != [] {
      var rest, last := fields[..|fields| - 1], fields[|fields| - 1];
      AppliedAt(bag, rest, k, v);
      assert fields == rest + [last];
      if last.key == k { LastIsOnly(fields); }
    }
  }

  lemma {:induction false} LastIsOnly(fields: seq<Field>)
    requires fields != [] && DistinctKeys(fields)
    ensures forall f :: f in fields[..|fields| - 1] ==> f.key != fields[|fields| - 1].key
  {
    forall f | f in fields[..|fields| - 1] ensures f.key != fields[|fields| - 1].key {
      var i :| 0 <= i < |fields| - 1 && fields[..|fields| - 1][i] == f;
    }
  }

  /** The order in which proven assignments are applied does not matter. */
  lemma {:induction false} ApplyOrderIrrelevant(bag: map<string, Json>, a: seq<Field>, b: seq<Field>)
    requires DistinctKeys(a) && DistinctKeys(b) && multiset(a) == multiset(b)
    ensures Applied(bag, a) == Applied(bag, b)
  {
    forall f ensures f in a <==> f in b {
      assert f in a <==> f in multiset(a);
      assert f in b <==> f in multiset(b);
    }
    forall k, v ensures Maps(Applied(bag, a), k, v) <==> Maps(Applied(bag, b), k, v)
    {
      AppliedAt(bag, a, k, v);
      AppliedAt(bag, b, k, v);
    }
    SameEntries(Applied(bag, a), Applied(bag, b));
  }

  lemma {:induction false} SameEntries(x: map<string, Json>, y: map<string, Json>)
    requires forall k, v :: Maps(x, k, v) <==> Maps(y, k, v)
    ensures x == y
  {
    forall k | k in x ensures k in y && y[k] == x[k] { assert Maps(x, k, x[k]); }
    forall k | k in y ensures k in x { assert Maps(y, k, y[k]); }
  }
}
