/**
  The static analysis of `on_handoff` callbacks
  (agentcheck/adapters/openai_handoff_effects.py): a callback body is evaluated
  symbolically, within bounds, into assignments on a context bag. The body is given as
  its syntax tree; the checks made before on source text and signature only refuse more.
 */
module HandoffEffects {
  import opened Bags
  import opened Json

  const MAX_AST_NODES: int := 200
  const MAX_BODY_STATEMENTS: nat := 16
  const MAX_ASSIGNMENTS: nat := 4
  const MAX_STRING_CHARS: nat := 200
  const MAX_RANDINT_SPAN: int := 1_000_000

  /** A literal: null, Boolean, integer and text as JSON values, or anything else. */
  datatype Literal = Plain(value: Json) | OtherLiteral

  datatype Expr =
    | Constant(literal: Literal)
    | Name(id: string)
    | Attribute(holder: Expr, attr: string)
    | JoinedStr(parts: seq<Part>)
    | Add(left: Expr, right: Expr)
    | Call(func: Expr, args: seq<Expr>, keywords: nat)
    | OtherExpr

  /** A piece of an f-string; `conversion` is -1 for none and 115 for `!s`. */
  datatype Part = Fixed(literal: Literal) | Formatted(value: Expr, conversion: int, spec: bool)

  datatype Statement =
    | Pass
    | Assign(targets: seq<Expr>, value: Expr)
    | Expression(value: Expr)
    | Return(returned: Option<Expr>)
    | OtherStatement

  /**
    What the module globals and the redactor say: which names are the standard `random`
    module, which are its `randint`, which text looks like a secret, how an integer prints.
   */
  datatype Environment = Environment(
    isRandom: string -> bool,
    isRandint: string -> bool,
    secret: string -> bool,
    text: int -> string
  )

  type Locals = map<string, Json>

  /** A value and what is left of the node budget. */
  datatype Evaluated = Rejected | Accepted(value: Json, left: int)

  function Spend(left: int): (r: Option<int>) { if left - 1 < 0 then None else Some(left - 1) }

  function Bounded(s: string, left: int): (r: Evaluated) {
    if |s| > MAX_STRING_CHARS then Rejected else Accepted(Str(s), left)
  }

  function SafeConstant(literal: Literal, left: int): (r: Evaluated) {
    match literal
    case Plain(Null) => Accepted(Null, left)
    case Plain(Bool(b)) => Accepted(Bool(b), left)
    case Plain(Int(i)) => Accepted(Int(i), left)
    case Plain(Str(s)) => Bounded(s, left)
    case _ => Rejected
  }

  /** The called function is the standard `randint`, not hidden by a local assigned so far. */
  predicate ProvenRandint(func: Expr, locals: Locals, env: Environment) {
    match func
    case Attribute(Name(id), attr) => attr == "randint" && id !in locals && env.isRandom(id)
    case Name(id) => id !in locals && env.isRandint(id)
    case _ => false
  }

  function Eval(e: Expr, locals: Locals, env: Environment, left: int): (r: Evaluated)
    decreases e
  {
    var budget := Spend(left);
    if budget.None? then Rejected
    else match e
      case Constant(literal) => SafeConstant(literal, budget.value)
      case Name(id) => if id in locals then Accepted(locals[id], budget.value) else Rejected
      case JoinedStr(parts) => EvalParts(parts, [], locals, env, budget.value)
      case Add(x, y) =>
        (match Eval(x, locals, env, budget.value)
         case Accepted(a, more) =>
           (match Eval(y, locals, env, more)
            case Accepted(b, rest) => if a.Str? && b.Str? then Bounded(a.s + b.s, rest) else Rejected
            case Rejected => Rejected)
         case Rejected => Rejected)
      case Call(func, args, keywords) =>
        if keywords != 0 || |args| != 2 || !ProvenRandint(func, locals, env) then Rejected
        else
          (match Eval(args[0], locals, env, budget.value)
           case Accepted(low, more) =>
             (match Eval(args[1], locals, env, more)
              case Accepted(high, rest) => LowerBound(low, high, rest)
              case Rejected => Rejected)
           case Rejected => Rejected)
      case _ => Rejected
  }

  /** `randint(low, high)` is replaced by its lower bound. */
  function LowerBound(low: Json, high: Json, left: int): (r: Evaluated) {
    if low.Int? && high.Int? && low.i <= high.i && high.i - low.i <= MAX_RANDINT_SPAN
    then Accepted(low, left) else Rejected
  }

  /** The text of one piece of an f-string. */
  function EvalPart(part: Part, locals: Locals, env: Environment, left: int): (r: Evaluated)
    decreases part
  {
    var budget := Spend(left);
    if budget.None? then Rejected
    else match part
      case Fixed(Plain(Str(s))) => Accepted(Str(s), budget.value)
      case Fixed(_) => Rejected
      case Formatted(value, conversion, spec) =>
        if (conversion != -1 && conversion != 115) || spec then Rejected
        else match Eval(value, locals, env, budget.value)
          case Accepted(Int(i), rest) => Accepted(Str(env.text(i)), rest)
          case Accepted(Str(s), rest) => Accepted(Str(s), rest)
          case _ => Rejected
  }

  function EvalParts(parts: seq<Part>, done: string, locals: Locals, env: Environment, left: int): (r: Evaluated)
    decreases parts
  {
    if parts == [] then Bounded(done, left)
    else match EvalPart(parts[0], locals, env, left)
      case Accepted(Str(s), rest) => EvalParts(parts[1..], done + s, locals, env, rest)
      case _ => Rejected
  }

  // ---------------------------------------------------------------------------
  // The body
  // ---------------------------------------------------------------------------

  predicate IsLetter(c: char) { 'a' <= c <= 'z' || 'A' <= c <= 'Z' }

  predicate IsNameChar(c: char) { IsLetter(c) || '0' <= c <= '9' || c == '_' }

  /** A letter, then at most 63 letters, digits and underscores. */
  predicate SafeName(s: string) {
    1 <= |s| <= 64 && IsLetter(s[0]) && forall i :: 1 <= i < |s| ==> IsNameChar(s[i])
  }

  /** The field of `param.context.field`. */
  function ContextField(target: Expr, param: string): (r: Option<string>) {
    match target
    case Attribute(Attribute(Name(id), inner), field) =>
      if id == param && inner == "context" && SafeName(field) then Some(field) else None
    case _ => None
  }

  /** What the analysis has gathered: local values, assignments in order, node budget left. */
  datatype State = State(locals: Locals, assignments: seq<Field>, left: int)

  predicate Assigned(assignments: seq<Field>, field: string) {
    exists i :: 0 <= i < |assignments| && assignments[i].key == field
  }

  /** One statement; none when the callback is refused because of it. */
  function Step(st: State, s: Statement, param: string, env: Environment): (r: Option<State>) {
    match s
    case Pass => Some(st)
    case Assign(targets, value) =>
      if |targets| != 1 then None
      else
        (match Eval(value, st.locals, env, st.left)
         case Rejected => None
         case Accepted(v, left) =>
           if targets[0].Name? then
             var id := targets[0].id;
             if id == param || !SafeName(id) then None else Some(State(st.locals[id := v], st.assignments, left))
           else
             var field := ContextField(targets[0], param);
             if field.None? || Assigned(st.assignments, field.value) || |st.assignments| >= MAX_ASSIGNMENTS
                || (v.Str? && env.secret(v.s)) then None
             else Some(State(st.locals, st.assignments + [Field(field.value, v)], left)))
    case _ => None
  }

  function Steps(st: State, body: seq<Statement>, param: string, env: Environment): (r: Option<State>)
    decreases |body|
  {
    if body == [] then Some(st)
    else
      var next := Step(st, body[0], param, env);
      if next.None? then None else Steps(next.value, body[1..], param, env)
  }

  predicate IsDocstring(s: Statement) {
    s.Expression? && s.value.Constant? && s.value.literal.Plain? && s.value.literal.value.Str?
  }

  predicate ReturnsNothing(s: Statement) {
    s.Return? && (s.returned.None? || s.returned.value == Constant(Plain(Null)))
  }

  function AfterDocstring(body: seq<Statement>): (r: seq<Statement>) {
    if body != [] && IsDocstring(body[0]) then body[1..] else body
  }

  /** The statements to evaluate: no docstring, no final return; none when a value is returned. */
  function Core(body: seq<Statement>): (r: Option<seq<Statement>>) {
    var b := AfterDocstring(body);
    if b != [] && b[|b| - 1].Return? then
      if ReturnsNothing(b[|b| - 1]) then Some(b[..|b| - 1]) else None
    else Some(b)
  }

  /** The proven assignments of a callback, or none when it is refused. */
  function Analysis(body: seq<Statement>, param: string, env: Environment): (r: Option<seq<Field>>) {
    var core := Core(body);
    if core.None? || |core.value| > MAX_BODY_STATEMENTS then None
    else
      var end := Steps(State(map[], [], MAX_AST_NODES), core.value, param, env);
      if end.None? then None else Some(end.value.assignments)
  }

  // ---------------------------------------------------------------------------
  // The evaluator, with its shared budget
  // ---------------------------------------------------------------------------

  class Evaluator {
    const env: Environment
    var left: int

    constructor (env: Environment)
      ensures this.env == env && left == MAX_AST_NODES
    {
      this.env := env;
      left := MAX_AST_NODES;
    }

    /** The outcome of an evaluation method, when it says `r` and the budget is now `left`. */
    ghost predicate Agrees(r: Option<Json>, expected: Evaluated)
      reads this
    {
      if r.None? then expected.Rejected? else expected == Accepted(r.value, left)
    }

    method EvalExpr(e: Expr, locals: Locals) returns (r: Option<Json>)
      modifies this
      ensures Agrees(r, Eval(e, locals, env, old(left)))
      decreases e
    {
      left := left - 1;
      if left < 0 { return None; }
      match e
      case Constant(literal) =>
        var constant := SafeConstant(literal, left);
        r := if constant.Accepted? then Some(constant.value) else None;
      case Name(id) =>
        r := if id in locals then Some(locals[id]) else None;
      case JoinedStr(parts) =>
        r := EvalJoinedStr(parts, locals);
      case Add(x, y) =>
        var a := EvalExpr(x, locals);
        if a.None? { return None; }
        var b := EvalExpr(y, locals);
        if b.None? || !a.value.Str? || !b.value.Str? { return None; }
        var joined := a.value.s + b.value.s;
        r := if |joined| > MAX_STRING_CHARS then None else Some(Str(joined));
      case Call(func, args, keywords) =>
        if keywords != 0 || |args| != 2 || !ProvenRandint(func, locals, env) { return None; }
        var low := EvalExpr(args[0], locals);
        if low.None? { return None; }
        var high := EvalExpr(args[1], locals);
        if high.None? || !low.value.Int? || !high.value.Int? { return None; }
        if low.value.i > high.value.i || high.value.i - low.value.i > MAX_RANDINT_SPAN { return None; }
        r := low;
      case _ =>
        r := None;
    }

    method EvalJoinedStr(parts: seq<Part>, locals: Locals) returns (r: Option<Json>)
      modifies this
      ensures Agrees(r, EvalParts(parts, [], locals, env, old(left)))
      decreases parts
    {
      var text: string := [];
      for i := 0 to |parts|
        invariant EvalParts(parts[i..], text, locals, env, left) == EvalParts(parts, [], locals, env, old(left))
      {
        assert parts[i..][1..] == parts[i + 1..] && parts[i..][0] == parts[i];
        var rendered := EvalPiece(parts[i], locals);
        if rendered.None? { return None; }
        text := text + rendered.value.s;
      }
      assert parts[|parts|..] == [];
      r := if |text| > MAX_STRING_CHARS then None else Some(Str(text));
    }

    method EvalPiece(part: Part, locals: Locals) returns (r: Option<Json>)
      modifies this
      ensures Agrees(r, EvalPart(part, locals, env, old(left)))
      ensures r.Some? ==> r.value.Str?
      decreases part
    {
      left := left - 1;
      if left < 0 { return None; }
      match part
      case Fixed(literal) =>
        r := if literal.Plain? && literal.value.Str? then Some(literal.value) else None;
      case Formatted(value, conversion, spec) =>
        if (conversion != -1 && conversion != 115) || spec { return None; }
        var rendered := EvalExpr(value, locals);
        if rendered.None? { return None; }
        r := if rendered.value.Int? then Some(Str(env.text(rendered.value.i)))
             else if rendered.value.Str? then rendered else None;
    }
  }

  method AssignmentsFromBody(body: seq<Statement>, param: string, env: Environment) returns (r: Option<seq<Field>>)
    ensures r == Analysis(body, param, env)
  {
    var core := Core(body);
    if core.None? || |core.value| > MAX_BODY_STATEMENTS { return None; }
    var statements := core.value;
    var evaluator := new Evaluator(env);
    var locals: Locals := map[];
    var assignments: seq<Field> := [];
    for i := 0 to |statements|
      invariant evaluator.env == env
      invariant Steps(State(locals, assignments, evaluator.left), statements[i..], param, env)
             == Steps(State(map[], [], MAX_AST_NODES), statements, param, env)
    {
      assert statements[i..][1..] == statements[i + 1..] && statements[i..][0] == statements[i];
      var statement := statements[i];
      if statement.Pass? { continue; }
      if !statement.Assign? || |statement.targets| != 1 { return None; }
      var target := statement.targets[0];
      var outcome := evaluator.EvalExpr(statement.value, locals);
      if outcome.None? { return None; }
      if target.Name? {
        if target.id == param || !SafeName(target.id) { return None; }
        locals := locals[target.id := outcome.value];
      } else {
        var field := ContextField(target, param);
        if field.None? || Assigned(assignments, field.value) || |assignments| >= MAX_ASSIGNMENTS { return None; }
        if outcome.value.Str? && env.secret(outcome.value.s) { return None; }
        assignments := assignments + [Field(field.value, outcome.value)];
      }
    }
    assert statements[|statements|..] == [];
    r := Some(assignments);
  }
}
