/**
  The schema projection behind coverage bindings (`_stable_projection`) and the
  artifact redaction it anticipates (`_redact_artifact`). Values are trees, so the
  cycle guards of the original never fire and are not modelled; text redaction and
  case folding are parameters.
 */
module Projection {
  import opened Json
  import Keys
  import Text

  /** Credential redaction of free text, and which keys are secrets. */
  datatype Cleaner = Cleaner(redact: string -> string, secret: string -> bool)

  const MAX_STRING_CHARS := 8192
  const MAX_KEY_CHARS := 256
  const STABLE_ITEMS := 100
  const STABLE_DEPTH := 14
  const STABLE_NODES := 10000
  const ARTIFACT_DEPTH := 20
  const ARTIFACT_ITEMS := 100
  const TRUNCATION := "...[TRUNCATED]"
  const INTEGER_BOUND: int := 0x1_0000_0000_0000_0000_0000_0000_0000_0000_0000_0000_0000_0000_0000_0000_0000_0000

  // ---------------------------------------------------------------------------
  // Single values
  // ---------------------------------------------------------------------------

  /** One text under a fresh budget: cut to `limit` characters, redacted, cut again. */
  function CleanText(c: Cleaner, value: string, limit: nat): (r: string) {
    var candidate :=
      if |value| <= limit then value
      else
        var kept := if limit > |TRUNCATION| then limit - |TRUNCATION| else 0;
        value[..kept] + TRUNCATION[..if limit - kept < |TRUNCATION| then limit - kept else |TRUNCATION|];
    var safe := c.redact(candidate);
    if |safe| > limit then safe[..limit] else safe
  }

  /** A key whose value is withheld: too long to judge, or a secret. */
  predicate Withheld(c: Cleaner, key: string) {
    |key| > MAX_KEY_CHARS || c.secret(key)
  }

  /** An integer of at most 256 bits. */
  predicate Representable(i: int) { -INTEGER_BOUND < i < INTEGER_BOUND }

  /**
    What the passes over trees need of the sanitizer: the text of a value, the text of a
    key and whether it withholds the value, and the key an artifact is stored under.
   */
  datatype Rules = Rules(text: string -> string, key: string -> string, withheld: string -> bool, stored: string -> (string, bool))

  function RulesOf(c: Cleaner): (r: Rules) {
    Rules((s: string) => CleanText(c, s, MAX_STRING_CHARS), (s: string) => CleanText(c, s, MAX_KEY_CHARS),
          (s: string) => Withheld(c, s), (s: string) => ArtifactKey(c, s))
  }

  /** The key under which a value is stored, and whether the value is withheld. */
  function ArtifactKey(c: Cleaner, key: string): (r: (string, bool)) {
    if key == "token_budget" then (CleanText(c, key, MAX_STRING_CHARS), false)
    else (CleanText(c, key, MAX_KEY_CHARS), Withheld(c, key))
  }

  predicate KeyStable(rules: Rules, key: string) {
    rules.key(key) == key && !rules.withheld(key)
  }

  /** A key that survives cleaning is stored as it is. */
  ghost predicate Lawful(rules: Rules) {
    forall key :: KeyStable(rules, key) ==> rules.stored(key) == (key, false)
  }

  lemma {:induction false} RulesLawful(c: Cleaner)
    ensures Lawful(RulesOf(c))
  {
    forall key | KeyStable(RulesOf(c), key) ensures ArtifactKey(c, key) == (key, false) {}
  }

  function CleanScalar(rules: Rules, v: Json): (r: Json)
    requires !v.Arr? && !v.Obj?
    ensures !r.Arr? && !r.Obj?
  {
    match v
    case Str(s) => Str(rules.text(s))
    case Int(i) => if Representable(i) then v else Str("[NUMBER_OUT_OF_RANGE]")
    case _ => v
  }

  // ---------------------------------------------------------------------------
  // Trees
  // ---------------------------------------------------------------------------

  function NodeCount(v: Json): (n: nat)
    ensures n >= 1
    decreases v, 0
  {
    match v
    case Arr(items) => 1 + ItemsCount(items, |items|)
    case Obj(fields) => 1 + FieldsCount(fields, |fields|)
    case _ => 1
  }

  /** The nodes of the first `k` items. */
  function ItemsCount(items: seq<Json>, k: nat): (n: nat)
    requires k <= |items|
    decreases items, 1, k
  {
    if k == 0 then 0 else ItemsCount(items, k - 1) + NodeCount(items[k - 1])
  }

  function FieldsCount(fields: seq<Field>, k: nat): (n: nat)
    requires k <= |fields|
    decreases fields, 1, k
  {
    if k == 0 then 0 else FieldsCount(fields, k - 1) + NodeCount(fields[k - 1].value)
  }

  /** Every node of `v` is at most `d` levels below it. */
  ghost predicate Within(v: Json, d: int) {
    d >= 0
    && match v
       case Arr(items) => forall i :: 0 <= i < |items| ==> Within(items[i], d - 1)
       case Obj(fields) => forall i :: 0 <= i < |fields| ==> Within(fields[i].value, d - 1)
       case _ => true
  }

  /** Every container is small, and every key and scalar survives cleaning unchanged. */
  ghost predicate Stable(rules: Rules, v: Json) {
    match v
    case Arr(items) => |items| <= STABLE_ITEMS && forall i :: 0 <= i < |items| ==> Stable(rules, items[i])
    case Obj(fields) =>
      |fields| <= STABLE_ITEMS
      && forall i :: 0 <= i < |fields| ==> KeyStable(rules, fields[i].key) && Stable(rules, fields[i].value)
    case _ => CleanScalar(rules, v) == v
  }

  lemma {:induction false} ItemsCountMonotone(items: seq<Json>, i: nat, k: nat)
    requires i <= k <= |items|
    ensures ItemsCount(items, i) <= ItemsCount(items, k)
    decreases k
  {
    if i < k { ItemsCountMonotone(items, i, k - 1); }
  }

  lemma {:induction false} FieldsCountMonotone(fields: seq<Field>, i: nat, k: nat)
    requires i <= k <= |fields|
    ensures FieldsCount(fields, i) <= FieldsCount(fields, k)
    decreases k
  {
    if i < k { FieldsCountMonotone(fields, i, k - 1); }
  }

  /** The projection cannot keep `v` from `depth` with `nodes` left, or it can. */
  ghost predicate Keeps(rules: Rules, v: Json, depth: int, nodes: int) {
    Stable(rules, v) && Within(v, STABLE_DEPTH - depth) && NodeCount(v) <= nodes
  }

  /** The first `i` items survive, each within what depth is left below its container. */
  ghost predicate ItemsKept(rules: Rules, items: seq<Json>, i: nat, depth: nat)
    requires i <= |items|
  {
    forall j :: 0 <= j < i ==> Stable(rules, items[j]) && Within(items[j], STABLE_DEPTH - depth - 1)
  }

  ghost predicate FieldsKept(rules: Rules, fields: seq<Field>, i: nat, depth: nat)
    requires i <= |fields|
  {
    forall j :: 0 <= j < i ==>
      KeyStable(rules, fields[j].key) && Stable(rules, fields[j].value) && Within(fields[j].value, STABLE_DEPTH - depth - 1)
  }

  lemma {:induction false} PrefixGrows<T>(s: seq<T>, i: nat)
    requires i < |s|
    ensures s[..i + 1] == s[..i] + [s[i]]
  {
  }

  lemma {:induction false} WholePrefix<T>(s: seq<T>)
    ensures s[..|s|] == s
  {
  }

  /** What is wrong with one item is wrong with the list. */
  lemma {:induction false} ItemBlocks(rules: Rules, items: seq<Json>, i: nat, depth: nat, n: int)
    requires i < |items| && !Keeps(rules, items[i], depth + 1, n - ItemsCount(items, i))
    ensures !Keeps(rules, Arr(items), depth, n + 1)
  {
    ItemsCountMonotone(items, i + 1, |items|);
  }

  lemma {:induction false} ItemKept(rules: Rules, items: seq<Json>, i: nat, depth: nat)
    requires i < |items| && ItemsKept(rules, items, i, depth)
    requires Stable(rules, items[i]) && Within(items[i], STABLE_DEPTH - depth - 1)
    ensures ItemsKept(rules, items, i + 1, depth)
  {
  }

  lemma {:induction false} ItemsAllKept(rules: Rules, items: seq<Json>, depth: nat, n: int)
    requires |items| <= STABLE_ITEMS && depth <= STABLE_DEPTH && ItemsKept(rules, items, |items|, depth)
    requires ItemsCount(items, |items|) <= n
    ensures Keeps(rules, Arr(items), depth, n + 1)
  {
  }

  lemma {:induction false} FieldBlocks(rules: Rules, fields: seq<Field>, i: nat, depth: nat, n: int)
    requires i < |fields|
    requires !KeyStable(rules, fields[i].key) || !Keeps(rules, fields[i].value, depth + 1, n - FieldsCount(fields, i))
    ensures !Keeps(rules, Obj(fields), depth, n + 1)
  {
    FieldsCountMonotone(fields, i + 1, |fields|);
  }

  lemma {:induction false} FieldKept(rules: Rules, fields: seq<Field>, i: nat, depth: nat)
    requires i < |fields| && FieldsKept(rules, fields, i, depth) && KeyStable(rules, fields[i].key)
    requires Stable(rules, fields[i].value) && Within(fields[i].value, STABLE_DEPTH - depth - 1)
    ensures FieldsKept(rules, fields, i + 1, depth)
  {
  }

  lemma {:induction false} FieldsAllKept(rules: Rules, fields: seq<Field>, depth: nat, n: int)
    requires |fields| <= STABLE_ITEMS && depth <= STABLE_DEPTH && FieldsKept(rules, fields, |fields|, depth)
    requires FieldsCount(fields, |fields|) <= n
    ensures Keeps(rules, Obj(fields), depth, n + 1)
  {
  }

  /** A key survives the cleaning of a one-entry dictionary. */
  method SurvivesCleaning(rules: Rules, key: string) returns (kept: bool)
    ensures kept == KeyStable(rules, key)
  {
    var safeKey := rules.key(key);
    kept := safeKey == key && !rules.withheld(key);
  }

  // ---------------------------------------------------------------------------
  // What the artifact redaction makes of a value
  // ---------------------------------------------------------------------------

  function Shown(n: nat): (k: nat)
    ensures k <= n
  {
    if n > ARTIFACT_ITEMS then ARTIFACT_ITEMS else n
  }

  /** What assigning all entries leaves. */
  function Dict(entries: seq<Field>): (r: seq<Field>)
    ensures |r| <= |entries|
  {
    Assigned(entries, |entries|)
  }

  /** The stored form of `v`, and what is left of `n` nodes. */
  function Stored(rules: Rules, v: Json, depth: nat, n: int): (r: (Json, int))
    decreases v, 1
  {
    if depth > ARTIFACT_DEPTH then (Str("[MAX_DEPTH]"), n)
    else if n <= 0 then (Str("[TRUNCATED_NODES]"), n)
    else match v
      case Obj(fields) => StoredObject(rules, fields, depth, n - 1)
      case Arr(items) => StoredArray(rules, items, depth, n - 1)
      case _ => (CleanScalar(rules, v), n - 1)
  }

  function StoredArray(rules: Rules, items: seq<Json>, depth: nat, n: int): (r: (Json, int))
    decreases items, 1
  {
    var r := StoredItems(rules, items, Shown(|items|), depth, n);
    (Arr(if |items| > ARTIFACT_ITEMS then r.0 + [Str("[TRUNCATED_ITEMS]")] else r.0), r.1)
  }

  function StoredObject(rules: Rules, fields: seq<Field>, depth: nat, n: int): (r: (Json, int))
    decreases fields, 1
  {
    var r := StoredFields(rules, fields, Shown(|fields|), depth, n);
    (Obj(if |fields| > ARTIFACT_ITEMS then Put(Dict(r.0), "[TRUNCATED_ITEMS]", Bool(true)) else Dict(r.0)), r.1)
  }

  /** The first `k` items. */
  function StoredItems(rules: Rules, items: seq<Json>, k: nat, depth: nat, n: int): (r: (seq<Json>, int))
    requires k <= |items|
    decreases items, 0, k
  {
    if k == 0 then ([], n)
    else
      var head := StoredItems(rules, items, k - 1, depth, n);
      var last := Stored(rules, items[k - 1], depth + 1, head.1);
      (head.0 + [last.0], last.1)
  }

  /** The value one entry is stored with. */
  function StoredValue(rules: Rules, field: Field, depth: nat, n: int): (r: (Json, int))
    decreases field, 0
  {
    if rules.stored(field.key).1 then (Str("[REDACTED]"), n) else Stored(rules, field.value, depth + 1, n)
  }

  /** The assignments made for the first `k` entries. */
  function StoredFields(rules: Rules, fields: seq<Field>, k: nat, depth: nat, n: int): (r: (seq<Field>, int))
    requires k <= |fields|
    decreases fields, 0, k
  {
    if k == 0 then ([], n)
    else
      var head := StoredFields(rules, fields, k - 1, depth, n);
      var value := StoredValue(rules, fields[k - 1], depth, head.1);
      (head.0 + [Field(rules.stored(fields[k - 1].key).0, value.0)], value.1)
  }

  // ---------------------------------------------------------------------------
  // The two passes share a node counter
  // ---------------------------------------------------------------------------

  class NodeCounter {
    var remaining: int

    constructor (n: int)
      ensures remaining == n
    {
      remaining := n;
    }

    /**
      `_stable_projection`: lossless exactly when the value is stable, shallow enough
      and small enough, and then it spends exactly the value's nodes and returns the
      value itself.
     */
    method Project(rules: Rules, v: Json, depth: nat) returns (lossless: bool, projected: Json)
      modifies this
      ensures lossless <==> Keeps(rules, v, depth, old(remaining))
      ensures lossless ==> projected == v && remaining == old(remaining) - NodeCount(v)
      ensures remaining <= old(remaining)
      decreases v, 1
    {
      if depth > STABLE_DEPTH || remaining <= 0 {
        return false, Null;
      }
      remaining := remaining - 1;
      match v
      case Obj(fields) => lossless, projected := ProjectFields(rules, fields, depth);
      case Arr(items) => lossless, projected := ProjectItems(rules, items, depth);
      case _ =>
        var normalized := CleanScalar(rules, v);
        lossless := normalized == v;
        projected := if lossless then normalized else Null;
    }

    method ProjectItems(rules: Rules, items: seq<Json>, depth: nat)
      returns (lossless: bool, projected: Json)
      requires depth <= STABLE_DEPTH && remaining >= 0
      modifies this
      ensures lossless <==> Keeps(rules, Arr(items), depth, old(remaining) + 1)
      ensures lossless ==> projected == Arr(items) && remaining == old(remaining) + 1 - NodeCount(Arr(items))
      ensures remaining <= old(remaining)
      decreases items, 0
    {
      if |items| > STABLE_ITEMS { return false, Null; }
      var kept: seq<Json> := [];
      for i := 0 to |items|
        invariant kept == items[..i]
        invariant remaining == old(remaining) - ItemsCount(items, i) && remaining >= 0
        invariant ItemsKept(rules, items, i, depth)
      {
        var ok, child := Project(rules, items[i], depth + 1);
        if !ok {
          ItemBlocks(rules, items, i, depth, old(remaining));
          return false, Null;
        }
        ItemKept(rules, items, i, depth);
        ItemsCountMonotone(items, i + 1, |items|);
        PrefixGrows(items, i);
        kept := kept + [child];
      }
      WholePrefix(items);
      ItemsAllKept(rules, items, depth, old(remaining));
      return true, Arr(kept);
    }

    method ProjectFields(rules: Rules, fields: seq<Field>, depth: nat)
      returns (lossless: bool, projected: Json)
      requires depth <= STABLE_DEPTH && remaining >= 0
      modifies this
      ensures lossless <==> Keeps(rules, Obj(fields), depth, old(remaining) + 1)
      ensures lossless ==> projected == Obj(fields) && remaining == old(remaining) + 1 - NodeCount(Obj(fields))
      ensures remaining <= old(remaining)
      decreases fields, 1
    {
      if |fields| > STABLE_ITEMS { return false, Null; }
      var kept: seq<Field> := [];
      for i := 0 to |fields|
        invariant kept == fields[..i]
        invariant remaining == old(remaining) - FieldsCount(fields, i) && remaining >= 0
        invariant FieldsKept(rules, fields, i, depth)
      {
        var ok, child := ProjectEntry(rules, fields[i], depth);
        if !ok {
          FieldBlocks(rules, fields, i, depth, old(remaining));
          return false, Null;
        }
        FieldKept(rules, fields, i, depth);
        FieldsCountMonotone(fields, i + 1, |fields|);
        PrefixGrows(fields, i);
        kept := kept + [child];
      }
      WholePrefix(fields);
      FieldsAllKept(rules, fields, depth, old(remaining));
      return true, Obj(kept);
    }

    method ProjectEntry(rules: Rules, field: Field, depth: nat) returns (lossless: bool, projected: Field)
      modifies this
      ensures lossless <==> KeyStable(rules, field.key) && Keeps(rules, field.value, depth + 1, old(remaining))
      ensures lossless ==> projected == field && remaining == old(remaining) - NodeCount(field.value)
      ensures remaining <= old(remaining)
      decreases field, 0
    {
      var keyKept := SurvivesCleaning(rules, field.key);
      if !keyKept { return false, field; }
      var child: Json;
      lossless, child := Project(rules, field.value, depth + 1);
      projected := Field(field.key, child);
    }

    /** `_redact_artifact`. */
    method Redact(rules: Rules, v: Json, depth: nat) returns (out: Json)
      modifies this
      ensures (out, remaining) == Stored(rules, v, depth, old(remaining))
      decreases v, 1
    {
      if depth > ARTIFACT_DEPTH { return Str("[MAX_DEPTH]"); }
      if remaining <= 0 { return Str("[TRUNCATED_NODES]"); }
      remaining := remaining - 1;
      match v
      case Obj(fields) => out := RedactFields(rules, fields, depth);
      case Arr(items) => out := RedactItems(rules, items, depth);
      case _ => out := CleanScalar(rules, v);
    }

    method RedactItems(rules: Rules, items: seq<Json>, depth: nat) returns (out: Json)
      requires depth <= ARTIFACT_DEPTH && remaining >= 0
      modifies this
      ensures (out, remaining) == Stored(rules, Arr(items), depth, old(remaining) + 1)
      decreases items, 0
    {
      var listed: seq<Json> := [];
      for i := 0 to Shown(|items|)
        invariant (listed, remaining) == StoredItems(rules, items, i, depth, old(remaining))
      {
        var item := Redact(rules, items[i], depth + 1);
        listed := listed + [item];
      }
      if |items| > ARTIFACT_ITEMS {
        listed := listed + [Str("[TRUNCATED_ITEMS]")];
      }
      return Arr(listed);
    }

    method RedactFields(rules: Rules, fields: seq<Field>, depth: nat) returns (out: Json)
      requires depth <= ARTIFACT_DEPTH && remaining >= 0
      modifies this
      ensures (out, remaining) == Stored(rules, Obj(fields), depth, old(remaining) + 1)
      decreases fields, 1
    {
      var result: seq<Field> := [];
      ghost var done: seq<Field> := [];
      for i := 0 to |fields|
        invariant i <= ARTIFACT_ITEMS && result == Dict(done)
        invariant (done, remaining) == StoredFields(rules, fields, i, depth, old(remaining))
      {
        if i >= ARTIFACT_ITEMS {
          return Obj(Put(result, "[TRUNCATED_ITEMS]", Bool(true)));
        }
        var stored := RedactValue(rules, fields[i], depth);
        var key := rules.stored(fields[i].key).0;
        AssignedMore(done, Field(key, stored));
        result := Put(result, key, stored);
        done := done + [Field(key, stored)];
      }
      return Obj(result);
    }

    method RedactValue(rules: Rules, field: Field, depth: nat) returns (stored: Json)
      modifies this
      ensures (stored, remaining) == StoredValue(rules, field, depth, old(remaining))
      decreases field, 0
    {
      if rules.stored(field.key).1 { return Str("[REDACTED]"); }
      stored := Redact(rules, field.value, depth + 1);
    }
  }

  // ---------------------------------------------------------------------------
  // The shape of what is stored
  // ---------------------------------------------------------------------------

  /** No container has more entries than the item bound and its one truncation marker. */
  ghost predicate Narrow(v: Json) {
    match v
    case Arr(items) => |items| <= ARTIFACT_ITEMS + 1 && forall i :: 0 <= i < |items| ==> Narrow(items[i])
    case Obj(fields) => |fields| <= ARTIFACT_ITEMS + 1 && forall i :: 0 <= i < |fields| ==> Narrow(fields[i].value)
    case _ => true
  }

  ghost predicate Fits(v: Json, d: int) { Narrow(v) && Within(v, d) }

  ghost predicate ItemsFit(items: seq<Json>, d: int) {
    forall i :: 0 <= i < |items| ==> Fits(items[i], d)
  }

  ghost predicate FieldsFit(fields: seq<Field>, d: int) {
    forall i :: 0 <= i < |fields| ==> Fits(fields[i].value, d)
  }

  lemma {:induction false} PutFits(fields: seq<Field>, key: string, v: Json, d: int)
    requires FieldsFit(fields, d) && Fits(v, d)
    ensures FieldsFit(Put(fields, key, v), d)
  {
  }

  lemma {:induction false} AssignedFits(entries: seq<Field>, k: nat, d: int)
    requires FieldsFit(entries, d) && k <= |entries|
    ensures FieldsFit(Assigned(entries, k), d)
  {
    if k > 0 {
      AssignedFits(entries, k - 1, d);
      PutFits(Assigned(entries, k - 1), entries[k - 1].key, entries[k - 1].value, d);
    }
  }

  /** Whatever is redacted, the result is narrow and shallow and the budget is never overdrawn. */
  lemma {:induction false} StoredFits(rules: Rules, v: Json, depth: nat, n: int)
    requires depth <= ARTIFACT_DEPTH + 1 && n >= 0
    ensures var r := Stored(rules, v, depth, n); 0 <= r.1 <= n && Fits(r.0, ARTIFACT_DEPTH + 1 - depth)
    decreases v, 1
  {
    if depth > ARTIFACT_DEPTH || n == 0 {
      StoredMarkerFits(rules, v, depth, n);
    } else {
      match v
      case Obj(fields) => StoredObjectFits(rules, fields, depth, n);
      case Arr(items) => StoredArrayFits(rules, items, depth, n);
      case _ => StoredScalarFits(rules, v, depth, n);
    }
  }

  lemma {:induction false} StoredArrayFits(rules: Rules, items: seq<Json>, depth: nat, n: int)
    requires depth <= ARTIFACT_DEPTH && n > 0
    ensures var r := Stored(rules, Arr(items), depth, n); 0 <= r.1 <= n && Fits(r.0, ARTIFACT_DEPTH + 1 - depth)
    decreases items, 1
  {
    StoredItemsFit(rules, items, Shown(|items|), depth, n - 1);
    assert Stored(rules, Arr(items), depth, n) == StoredArray(rules, items, depth, n - 1);
  }

  lemma {:induction false} StoredObjectFits(rules: Rules, fields: seq<Field>, depth: nat, n: int)
    requires depth <= ARTIFACT_DEPTH && n > 0
    ensures var r := Stored(rules, Obj(fields), depth, n); 0 <= r.1 <= n && Fits(r.0, ARTIFACT_DEPTH + 1 - depth)
    decreases fields, 1
  {
    StoredFieldsFit(rules, fields, Shown(|fields|), depth, n - 1);
    var r := StoredFields(rules, fields, Shown(|fields|), depth, n - 1).0;
    AssignedFits(r, |r|, ARTIFACT_DEPTH - depth);
    PutFits(Dict(r), "[TRUNCATED_ITEMS]", Bool(true), ARTIFACT_DEPTH - depth);
    assert Stored(rules, Obj(fields), depth, n) == StoredObject(rules, fields, depth, n - 1);
  }

  lemma {:induction false} StoredScalarFits(rules: Rules, v: Json, depth: nat, n: int)
    requires depth <= ARTIFACT_DEPTH && n > 0 && !v.Arr? && !v.Obj?
    ensures var r := Stored(rules, v, depth, n); 0 <= r.1 <= n && Fits(r.0, ARTIFACT_DEPTH + 1 - depth)
  {
  }

  lemma {:induction false} StoredMarkerFits(rules: Rules, v: Json, depth: nat, n: int)
    requires depth <= ARTIFACT_DEPTH + 1 && n >= 0 && (depth > ARTIFACT_DEPTH || n == 0)
    ensures var r := Stored(rules, v, depth, n); 0 <= r.1 <= n && Fits(r.0, ARTIFACT_DEPTH + 1 - depth)
  {
  }

  lemma {:induction false} StoredItemsFit(rules: Rules, items: seq<Json>, k: nat, depth: nat, n: int)
    requires depth <= ARTIFACT_DEPTH && n >= 0 && k <= |items|
    ensures var r := StoredItems(rules, items, k, depth, n);
      |r.0| == k && 0 <= r.1 <= n && ItemsFit(r.0, ARTIFACT_DEPTH - depth)
    decreases items, 0, k
  {
    if k > 0 {
      StoredItemsFit(rules, items, k - 1, depth, n);
      StoredFits(rules, items[k - 1], depth + 1, StoredItems(rules, items, k - 1, depth, n).1);
    }
  }

  lemma {:induction false} StoredFieldsFit(rules: Rules, fields: seq<Field>, k: nat, depth: nat, n: int)
    requires depth <= ARTIFACT_DEPTH && n >= 0 && k <= |fields|
    ensures var r := StoredFields(rules, fields, k, depth, n);
      |r.0| == k && 0 <= r.1 <= n && FieldsFit(r.0, ARTIFACT_DEPTH - depth)
    decreases fields, 0, k
  {
    if k > 0 {
      StoredFieldsFit(rules, fields, k - 1, depth, n);
      StoredValueFits(rules, fields[k - 1], depth, StoredFields(rules, fields, k - 1, depth, n).1);
    }
  }

  lemma {:induction false} StoredValueFits(rules: Rules, field: Field, depth: nat, n: int)
    requires depth <= ARTIFACT_DEPTH && n >= 0
    ensures var r := StoredValue(rules, field, depth, n); 0 <= r.1 <= n && Fits(r.0, ARTIFACT_DEPTH - depth)
    decreases field, 0
  {
    if !rules.stored(field.key).1 { StoredFits(rules, field.value, depth + 1, n); }
  }

  // ---------------------------------------------------------------------------
  // What is withheld
  // ---------------------------------------------------------------------------

  /** The same value, except for what is under withheld keys. */
  ghost predicate SameButWithheld(rules: Rules, v: Json, w: Json)
    decreases v, 1
  {
    match v
    case Obj(fields) => w.Obj? && |w.fields| == |fields| && forall i :: 0 <= i < |fields| ==> SameField(rules, fields[i], w.fields[i])
    case Arr(items) => w.Arr? && |w.items| == |items| && forall i :: 0 <= i < |items| ==> SameButWithheld(rules, items[i], w.items[i])
    case _ => v == w
  }

  ghost predicate SameField(rules: Rules, f: Field, g: Field)
    decreases f, 0
  {
    f.key == g.key && (rules.stored(f.key).1 || SameButWithheld(rules, f.value, g.value))
  }

  /** Nothing under a withheld key has any influence on what is stored, or on the budget. */
  lemma {:induction false} WithheldConcealed(rules: Rules, v: Json, w: Json, depth: nat, n: int)
    requires SameButWithheld(rules, v, w)
    ensures Stored(rules, v, depth, n) == Stored(rules, w, depth, n)
    decreases v, 1
  {
    if v.Obj? {
      FieldsConcealed(rules, v, w, Shown(|v.fields|), depth, n - 1);
      SameObject(rules, v.fields, w.fields, depth, n);
    } else if v.Arr? {
      ItemsConcealed(rules, v, w, Shown(|v.items|), depth, n - 1);
      SameArray(rules, v.items, w.items, depth, n);
    }
  }

  lemma {:induction false} SameObject(rules: Rules, f: seq<Field>, g: seq<Field>, depth: nat, n: int)
    requires |f| == |g|
    requires StoredFields(rules, f, Shown(|f|), depth, n - 1) == StoredFields(rules, g, Shown(|g|), depth, n - 1)
    ensures Stored(rules, Obj(f), depth, n) == Stored(rules, Obj(g), depth, n)
  {
  }

  lemma {:induction false} SameArray(rules: Rules, f: seq<Json>, g: seq<Json>, depth: nat, n: int)
    requires |f| == |g|
    requires StoredItems(rules, f, Shown(|f|), depth, n - 1) == StoredItems(rules, g, Shown(|g|), depth, n - 1)
    ensures Stored(rules, Arr(f), depth, n) == Stored(rules, Arr(g), depth, n)
  {
  }

  lemma {:induction false} ItemsConcealed(rules: Rules, v: Json, w: Json, k: nat, depth: nat, n: int)
    requires v.Arr? && SameButWithheld(rules, v, w) && k <= |v.items|
    ensures StoredItems(rules, v.items, k, depth, n) == StoredItems(rules, w.items, k, depth, n)
    decreases v, 0, k
  {
    if k > 0 {
      ItemsConcealed(rules, v, w, k - 1, depth, n);
      WithheldConcealed(rules, v.items[k - 1], w.items[k - 1], depth + 1, StoredItems(rules, v.items, k - 1, depth, n).1);
    }
  }

  lemma {:induction false} FieldsConcealed(rules: Rules, v: Json, w: Json, k: nat, depth: nat, n: int)
    requires v.Obj? && SameButWithheld(rules, v, w) && k <= |v.fields|
    ensures StoredFields(rules, v.fields, k, depth, n) == StoredFields(rules, w.fields, k, depth, n)
    decreases v, 0, k
  {
    if k > 0 {
      FieldsConcealed(rules, v, w, k - 1, depth, n);
      var f, g := v.fields[k - 1], w.fields[k - 1];
      assert SameField(rules, f, g);
      if !rules.stored(f.key).1 {
        WithheldConcealed(rules, f.value, g.value, depth + 1, StoredFields(rules, v.fields, k - 1, depth, n).1);
      }
    }
  }

  /** The entry `i` is the last one whose key is stored under its text. */
  ghost predicate LastUnderKey(rules: Rules, fields: seq<Field>, i: nat) {
    i < |fields| && forall j :: i < j < |fields| ==> rules.stored(fields[j].key).0 != rules.stored(fields[i].key).0
  }

  lemma {:induction false} StoredEntry(rules: Rules, fields: seq<Field>, i: nat, k: nat, depth: nat, n: int)
    requires i < k <= |fields|
    ensures var r := StoredFields(rules, fields, k, depth, n).0;
      |r| == k && r[i].key == rules.stored(fields[i].key).0
      && r[i].value == StoredValue(rules, fields[i], depth, StoredFields(rules, fields, i, depth, n).1).0
    decreases k
  {
    StoredLength(rules, fields, k - 1, depth, n);
    if i < k - 1 { StoredEntry(rules, fields, i, k - 1, depth, n); }
  }

  lemma {:induction false} StoredLength(rules: Rules, fields: seq<Field>, k: nat, depth: nat, n: int)
    requires k <= |fields|
    ensures |StoredFields(rules, fields, k, depth, n).0| == k
  {
    if k > 0 { StoredLength(rules, fields, k - 1, depth, n); }
  }

  lemma {:induction false} StoredLast(rules: Rules, fields: seq<Field>, i: nat, depth: nat, n: int)
    requires LastUnderKey(rules, fields, i)
    ensures LastWithKey(StoredFields(rules, fields, |fields|, depth, n).0, i)
  {
    var r := StoredFields(rules, fields, |fields|, depth, n).0;
    StoredEntry(rules, fields, i, |fields|, depth, n);
    forall j | i < j < |r| ensures r[j].key != r[i].key { StoredEntry(rules, fields, j, |fields|, depth, n); }
  }

  /** Under a withheld key the marker is stored, unless a later key cleans to the same text. */
  lemma {:induction false} WithheldReplaced(rules: Rules, fields: seq<Field>, i: nat, depth: nat, n: int)
    requires |fields| <= ARTIFACT_ITEMS && depth <= ARTIFACT_DEPTH && n > 0
    requires LastUnderKey(rules, fields, i) && rules.stored(fields[i].key).1
    ensures var r, key := Stored(rules, Obj(fields), depth, n).0, rules.stored(fields[i].key).0;
      r.Obj? && Has(r.fields, key) && r.fields[Find(r.fields, key)].value == Str("[REDACTED]")
  {
    var r := StoredFields(rules, fields, |fields|, depth, n - 1);
    StoredDict(rules, fields, depth, n, r.0, r.1);
    StoredEntry(rules, fields, i, |fields|, depth, n - 1);
    StoredLast(rules, fields, i, depth, n - 1);
    AssignedLast(r.0, i, |r.0|);
  }

  // ---------------------------------------------------------------------------
  // What is kept
  // ---------------------------------------------------------------------------

  /** A value the artifact redaction reaches whole and leaves alone. */
  ghost predicate Untouched(rules: Rules, v: Json, depth: int, nodes: int) {
    Stable(rules, v) && WellFormed(v) && Within(v, ARTIFACT_DEPTH - depth) && NodeCount(v) <= nodes
  }

  lemma {:induction false} KeptKey(rules: Rules, fields: seq<Field>, i: nat)
    requires Lawful(rules) && Stable(rules, Obj(fields)) && i < |fields|
    ensures rules.stored(fields[i].key) == (fields[i].key, false)
  {
    assert KeyStable(rules, fields[i].key);
  }

  lemma {:induction false} UntouchedItem(rules: Rules, items: seq<Json>, i: nat, depth: nat, n: int)
    requires Untouched(rules, Arr(items), depth, n + 1) && i < |items|
    ensures Untouched(rules, items[i], depth + 1, n - ItemsCount(items, i))
  {
    ItemsCountMonotone(items, i + 1, |items|);
  }

  lemma {:induction false} UntouchedField(rules: Rules, fields: seq<Field>, i: nat, depth: nat, n: int)
    requires Untouched(rules, Obj(fields), depth, n + 1) && i < |fields|
    ensures Untouched(rules, fields[i].value, depth + 1, n - FieldsCount(fields, i))
  {
    FieldsCountMonotone(fields, i + 1, |fields|);
  }

  lemma {:induction false} StoredList(rules: Rules, items: seq<Json>, depth: nat, n: int, listed: seq<Json>, left: int)
    requires |items| <= ARTIFACT_ITEMS && depth <= ARTIFACT_DEPTH && n > 0
    requires StoredItems(rules, items, |items|, depth, n - 1) == (listed, left)
    ensures Stored(rules, Arr(items), depth, n) == (Arr(listed), left)
  {
    assert Shown(|items|) == |items|;
  }

  lemma {:induction false} StoredDict(rules: Rules, fields: seq<Field>, depth: nat, n: int, result: seq<Field>, left: int)
    requires |fields| <= ARTIFACT_ITEMS && depth <= ARTIFACT_DEPTH && n > 0
    requires StoredFields(rules, fields, |fields|, depth, n - 1) == (result, left)
    ensures Stored(rules, Obj(fields), depth, n) == (Obj(Dict(result)), left)
  {
    assert Shown(|fields|) == |fields|;
  }

  lemma {:induction false} StoredScalar(rules: Rules, v: Json, depth: nat, n: int)
    requires !v.Obj? && !v.Arr? && CleanScalar(rules, v) == v && depth <= ARTIFACT_DEPTH && n > 0
    ensures Stored(rules, v, depth, n) == (v, n - 1)
  {
  }

  /** A stable value that fits the budget is stored as it is and costs exactly its nodes. */
  lemma {:induction false} StoredUntouched(rules: Rules, v: Json, depth: nat, n: int)
    requires Lawful(rules) && Untouched(rules, v, depth, n)
    ensures Stored(rules, v, depth, n) == (v, n - NodeCount(v))
    decreases v, 1
  {
    match v
    case Obj(fields) => UntouchedDict(rules, fields, depth, n);
    case Arr(items) => UntouchedList(rules, items, depth, n);
    case _ => StoredScalar(rules, v, depth, n);
  }

  /** `r` is the first `k` elements of `s`. */
  ghost predicate Copies<T>(r: seq<T>, s: seq<T>, k: nat) {
    |r| == k <= |s| && forall j :: 0 <= j < k ==> r[j] == s[j]
  }

  lemma {:induction false} CopiesMore<T>(r: seq<T>, s: seq<T>, k: nat)
    requires k < |s| && Copies(r, s, k)
    ensures Copies(r + [s[k]], s, k + 1)
  {
  }

  lemma {:induction false} CopiesAll<T>(r: seq<T>, s: seq<T>)
    requires Copies(r, s, |s|)
    ensures r == s
  {
  }

  lemma {:induction false} UntouchedList(rules: Rules, items: seq<Json>, depth: nat, n: int)
    requires Lawful(rules) && Untouched(rules, Arr(items), depth, n)
    ensures Stored(rules, Arr(items), depth, n) == (Arr(items), n - NodeCount(Arr(items)))
    decreases items, 1
  {
    UntouchedItems(rules, items, |items|, depth, n - 1);
    var r := StoredItems(rules, items, |items|, depth, n - 1);
    CopiesAll(r.0, items);
    StoredList(rules, items, depth, n, r.0, r.1);
  }

  lemma {:induction false} UntouchedDict(rules: Rules, fields: seq<Field>, depth: nat, n: int)
    requires Lawful(rules) && Untouched(rules, Obj(fields), depth, n)
    ensures Stored(rules, Obj(fields), depth, n) == (Obj(fields), n - NodeCount(Obj(fields)))
    decreases fields, 1
  {
    UntouchedFields(rules, fields, |fields|, depth, n - 1);
    var r := StoredFields(rules, fields, |fields|, depth, n - 1);
    CopiesAll(r.0, fields);
    AssignedDistinct(fields, |fields|);
    WholePrefix(fields);
    StoredDict(rules, fields, depth, n, r.0, r.1);
  }

  lemma {:induction false} UntouchedItems(rules: Rules, items: seq<Json>, k: nat, depth: nat, n: int)
    requires Lawful(rules) && Untouched(rules, Arr(items), depth, n + 1) && k <= |items|
    ensures Copies(StoredItems(rules, items, k, depth, n).0, items, k)
    ensures StoredItems(rules, items, k, depth, n).1 == n - ItemsCount(items, k)
    decreases items, 0, k, 1
  {
    if k > 0 {
      UntouchedItems(rules, items, k - 1, depth, n);
      UntouchedChild(rules, items, k - 1, depth, n);
      CopiesMore(StoredItems(rules, items, k - 1, depth, n).0, items, k - 1);
    }
  }

  lemma {:induction false} UntouchedChild(rules: Rules, items: seq<Json>, i: nat, depth: nat, n: int)
    requires Lawful(rules) && Untouched(rules, Arr(items), depth, n + 1) && i < |items|
    ensures Stored(rules, items[i], depth + 1, n - ItemsCount(items, i))
         == (items[i], n - ItemsCount(items, i) - NodeCount(items[i]))
    decreases items, 0, i, 0
  {
    UntouchedItem(rules, items, i, depth, n);
    StoredUntouched(rules, items[i], depth + 1, n - ItemsCount(items, i));
  }

  lemma {:induction false} UntouchedFields(rules: Rules, fields: seq<Field>, k: nat, depth: nat, n: int)
    requires Lawful(rules) && Untouched(rules, Obj(fields), depth, n + 1) && k <= |fields|
    ensures Copies(StoredFields(rules, fields, k, depth, n).0, fields, k)
    ensures StoredFields(rules, fields, k, depth, n).1 == n - FieldsCount(fields, k)
    decreases fields, 0, k, 1
  {
    if k > 0 {
      UntouchedFields(rules, fields, k - 1, depth, n);
      UntouchedValue(rules, fields, k - 1, depth, n);
      CopiesMore(StoredFields(rules, fields, k - 1, depth, n).0, fields, k - 1);
    }
  }

  lemma {:induction false} UntouchedValue(rules: Rules, fields: seq<Field>, i: nat, depth: nat, n: int)
    requires Lawful(rules) && Untouched(rules, Obj(fields), depth, n + 1) && i < |fields|
    ensures Field(rules.stored(fields[i].key).0, StoredValue(rules, fields[i], depth, n - FieldsCount(fields, i)).0) == fields[i]
    ensures StoredValue(rules, fields[i], depth, n - FieldsCount(fields, i)).1
         == n - FieldsCount(fields, i) - NodeCount(fields[i].value)
    decreases fields, 0, i, 0
  {
    UntouchedField(rules, fields, i, depth, n);
    KeptKey(rules, fields, i);
    StoredUntouched(rules, fields[i].value, depth + 1, n - FieldsCount(fields, i));
  }

  // ---------------------------------------------------------------------------
  // The projection anticipates the artifact store
  // ---------------------------------------------------------------------------

  lemma {:induction false} WithinMonotone(v: Json, d: int, e: int)
    requires Within(v, d) && d <= e
    ensures Within(v, e)
  {
    match v
    case Arr(items) =>
      forall i | 0 <= i < |items| ensures Within(items[i], e - 1) { WithinMonotone(items[i], d - 1, e - 1); }
    case Obj(fields) =>
      forall i | 0 <= i < |fields| ensures Within(fields[i].value, e - 1) {
        WithinMonotone(fields[i].value, d - 1, e - 1);
      }
    case _ =>
  }

  /**
    What the projection keeps, the artifact store keeps: nested at most six levels
    down, with the value's nodes left in the store's budget, it is stored as it is.
   */
  lemma {:induction false} ProjectionAnticipatesStore(rules: Rules, v: Json, depth: nat, nodes: int)
    requires Keeps(rules, v, 0, STABLE_NODES) && WellFormed(v)
    requires depth <= ARTIFACT_DEPTH - STABLE_DEPTH && NodeCount(v) <= nodes
    ensures Untouched(rules, v, depth, nodes)
  {
    WithinMonotone(v, STABLE_DEPTH, ARTIFACT_DEPTH - depth);
  }

  /** The same, run through both passes. */
  method ProjectThenStore(c: Cleaner, v: Json, depth: nat, nodes: nat) returns (lossless: bool, stored: Json)
    requires WellFormed(v) && depth <= ARTIFACT_DEPTH - STABLE_DEPTH && nodes >= STABLE_NODES
    ensures lossless <==> Keeps(RulesOf(c), v, 0, STABLE_NODES)
    ensures lossless ==> stored == v
  {
    var rules := RulesOf(c);
    var projection := new NodeCounter(STABLE_NODES);
    var projected: Json;
    lossless, projected := projection.Project(rules, v, 0);
    var store := new NodeCounter(nodes);
    if lossless {
      RulesLawful(c);
      ProjectionAnticipatesStore(rules, v, depth, nodes);
      StoredUntouched(rules, v, depth, nodes);
    }
    stored := store.Redact(rules, v, depth);
  }

  const LOSS_SENTINELS: seq<string> :=
    ["[CYCLE]", "[MAX_DEPTH]", "[NUMBER_OUT_OF_RANGE]", "[REDACTED]", "[TRUNCATED]", "[TRUNCATED_NODES]",
     "[UNAVAILABLE_ITEMS]"]

  predicate SentinelText(s: string) {
    s in LOSS_SENTINELS || Text.Inside(s, "[REDACTED]") || Keys.EndsWith(s, TRUNCATION)
  }

  /** A stored value already shows a loss marker somewhere. */
  predicate ShowsLoss(v: Json) {
    match v
    case Str(s) => SentinelText(s)
    case Arr(items) => exists i :: 0 <= i < |items| && ShowsLoss(items[i])
    case Obj(fields) => exists i :: 0 <= i < |fields| && (SentinelText(fields[i].key) || ShowsLoss(fields[i].value))
    case _ => false
  }

  /** A tool's name and schema survive the artifact boundary exactly. */
  ghost predicate BindingLossless(c: Cleaner, name: string, schema: Json) {
    !SentinelText(name) && c.redact(name) == name && !ShowsLoss(schema) && Keeps(RulesOf(c), schema, 0, STABLE_NODES)
  }
}
