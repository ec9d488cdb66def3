/**
  Bounded sanitization of one telemetry value (`sanitize_value`,
  `_bounded_redacted_text`): a recursion over a tree that draws on one shared
  budget of nodes and characters.
 */
module Sanitize {
  import opened Json
  import opened Projection

  const MAX_DEPTH := 20
  const MAX_ITEMS := 100
  const MAX_NODES := 1000
  const MAX_CHARS := 65536

  /** The sanitized value, with every marker told apart from emitted text. */
  datatype Out =
    | Scalar(v: Json)
    | OutOfRange
    | Text(s: string)
    | NoChars
    | TooDeep
    | NoNodes
    | ListOut(items: seq<Out>, cut: bool)
    | DictOut(writes: seq<Write>, cut: bool)

  datatype Write = Secret(key: string) | Kept(key: string, value: Out)

  /** Characters of emitted text, keys included. */
  function Charged(o: Out): (n: nat)
    decreases o, 0
  {
    match o
    case Text(s) => |s|
    case ListOut(items, _) => ItemsCharged(items)
    case DictOut(writes, _) => WritesCharged(writes)
    case _ => 0
  }

  function ItemsCharged(items: seq<Out>): (n: nat)
    decreases items, 1
  {
    if items == [] then 0 else ItemsCharged(items[..|items| - 1]) + Charged(items[|items| - 1])
  }

  function WritesCharged(writes: seq<Write>): (n: nat)
    decreases writes, 1
  {
    if writes == [] then 0 else WritesCharged(writes[..|writes| - 1]) + WriteCharge(writes[|writes| - 1])
  }

  function WriteCharge(w: Write): (n: nat)
    decreases w, 0
  {
    |w.key| + if w.Kept? then Charged(w.value) else 0
  }

  /** Nodes that were processed rather than cut off. */
  function Visited(o: Out): (n: nat)
    decreases o, 0
  {
    match o
    case TooDeep => 0
    case NoNodes => 0
    case ListOut(items, _) => 1 + ItemsVisited(items)
    case DictOut(writes, _) => 1 + WritesVisited(writes)
    case _ => 1
  }

  function ItemsVisited(items: seq<Out>): (n: nat)
    decreases items, 1
  {
    if items == [] then 0 else ItemsVisited(items[..|items| - 1]) + Visited(items[|items| - 1])
  }

  function WritesVisited(writes: seq<Write>): (n: nat)
    decreases writes, 1
  {
    if writes == [] then 0 else WritesVisited(writes[..|writes| - 1]) + WriteVisits(writes[|writes| - 1])
  }

  function WriteVisits(w: Write): (n: nat)
    decreases w, 0
  {
    if w.Kept? then Visited(w.value) else 0
  }

  /** `safe` is the cleaned text of a key, within some length up to the bound for keys. */
  ghost predicate Cleaned(c: Cleaner, key: string, safe: string) {
    exists limit :: 0 < limit <= MAX_KEY_CHARS && safe == CleanText(c, key, limit)
  }

  /**
    `o` is a sanitized form of `v` reached at `depth`: containers keep a prefix of
    their entries, at most the bound, and say so when they are cut; every key is cleaned,
    a secret key's value is withheld and no other is; nothing lies below the depth bound.
   */
  ghost predicate Follows(c: Cleaner, v: Json, depth: int, o: Out)
    decreases o
  {
    match o
    case TooDeep => depth > MAX_DEPTH
    case NoNodes => depth <= MAX_DEPTH
    case Scalar(x) => depth <= MAX_DEPTH && x == v && !v.Str? && !v.Arr? && !v.Obj?
    case OutOfRange => depth <= MAX_DEPTH && v.Int? && !Representable(v.i)
    case NoChars => depth <= MAX_DEPTH && v.Str?
    case Text(s) =>
      depth <= MAX_DEPTH && v.Str? && exists limit :: 0 < limit <= MAX_STRING_CHARS && s == CleanText(c, v.s, limit)
    case ListOut(items, cut) =>
      depth <= MAX_DEPTH && v.Arr? && |items| <= |v.items| && |items| <= MAX_ITEMS
      && (cut <==> |items| < |v.items|)
      && forall i :: 0 <= i < |items| ==> Follows(c, v.items[i], depth + 1, items[i])
    case DictOut(writes, cut) =>
      depth <= MAX_DEPTH && v.Obj? && |writes| <= |v.fields| && |writes| <= MAX_ITEMS
      && (cut <==> |writes| < |v.fields|)
      && forall i :: 0 <= i < |writes| ==> Written(c, v.fields[i], depth, writes[i])
  }

  /** The key is cleaned, and the value is withheld exactly when the key is a secret. */
  ghost predicate Written(c: Cleaner, field: Field, depth: int, w: Write)
    decreases w
  {
    Cleaned(c, field.key, w.key) && (w.Secret? <==> Withheld(c, field.key))
    && (w.Kept? ==> Follows(c, field.value, depth + 1, w.value))
  }

  lemma {:induction false} ItemAppended(items: seq<Out>, o: Out)
    ensures ItemsCharged(items + [o]) == ItemsCharged(items) + Charged(o)
    ensures ItemsVisited(items + [o]) == ItemsVisited(items) + Visited(o)
  {
    assert (items + [o])[..|items|] == items;
  }

  lemma {:induction false} WriteAppended(writes: seq<Write>, w: Write)
    ensures WritesCharged(writes + [w]) == WritesCharged(writes) + WriteCharge(w)
    ensures WritesVisited(writes + [w]) == WritesVisited(writes) + WriteVisits(w)
  {
    assert (writes + [w])[..|writes|] == writes;
  }

  class SanitizeBudget {
    var nodes: int
    var chars: int

    constructor ()
      ensures nodes == MAX_NODES && chars == MAX_CHARS
    {
      nodes := MAX_NODES;
      chars := MAX_CHARS;
    }

    ghost predicate Valid()
      reads this
    {
      nodes >= 0 && chars >= 0
    }

    /** `_bounded_redacted_text`: what is emitted is charged; the exhaustion marker is not. */
    method BoundedText(c: Cleaner, value: string, limit: nat) returns (emitted: bool, safe: string)
      requires Valid() && limit > 0
      modifies `chars
      ensures Valid()
      ensures emitted <==> old(chars) > 0
      ensures emitted ==> chars == old(chars) - |safe| && exists n :: 0 < n <= limit && safe == CleanText(c, value, n)
      ensures !emitted ==> chars == old(chars) && safe == "[TRUNCATED]"
    {
      var available := if limit < chars then limit else chars;
      if available <= 0 { return false, "[TRUNCATED]"; }
      safe := CleanText(c, value, available);
      chars := chars - |safe|;
      return true, safe;
    }

    /** `sanitize_value` on a tree: both budgets pay exactly for what comes out. */
    method Sanitize(c: Cleaner, v: Json, depth: nat) returns (o: Out)
      requires Valid()
      modifies this
      ensures Valid()
      ensures chars == old(chars) - Charged(o) && nodes == old(nodes) - Visited(o)
      ensures Follows(c, v, depth, o)
      decreases v, 1
    {
      if depth > MAX_DEPTH { return TooDeep; }
      if nodes <= 0 { return NoNodes; }
      nodes := nodes - 1;
      match v
      case Obj(fields) => o := SanitizeFields(c, fields, depth);
      case Arr(items) => o := SanitizeItems(c, items, depth);
      case Str(s) =>
        var emitted, safe := BoundedText(c, s, MAX_STRING_CHARS);
        o := if emitted then Text(safe) else NoChars;
      case Int(i) => o := if Representable(i) then Scalar(v) else OutOfRange;
      case _ => o := Scalar(v);
    }

    method SanitizeItems(c: Cleaner, items: seq<Json>, depth: nat) returns (o: Out)
      requires Valid() && depth <= MAX_DEPTH
      modifies this
      ensures Valid()
      ensures chars == old(chars) - Charged(o) && nodes == old(nodes) + 1 - Visited(o)
      ensures Follows(c, Arr(items), depth, o)
      decreases items, 0
    {
      var listed: seq<Out> := [];
      for i := 0 to |items|
        invariant Valid() && |listed| == i <= MAX_ITEMS
        invariant chars == old(chars) - ItemsCharged(listed) && nodes == old(nodes) - ItemsVisited(listed)
        invariant forall j :: 0 <= j < i ==> Follows(c, items[j], depth + 1, listed[j])
      {
        if i >= MAX_ITEMS || nodes <= 0 || chars <= 0 { return ListOut(listed, true); }
        var item := Sanitize(c, items[i], depth + 1);
        ItemAppended(listed, item);
        listed := listed + [item];
      }
      return ListOut(listed, false);
    }

    method SanitizeFields(c: Cleaner, fields: seq<Field>, depth: nat) returns (o: Out)
      requires Valid() && depth <= MAX_DEPTH
      modifies this
      ensures Valid()
      ensures chars == old(chars) - Charged(o) && nodes == old(nodes) + 1 - Visited(o)
      ensures Follows(c, Obj(fields), depth, o)
      decreases fields, 1
    {
      var writes: seq<Write> := [];
      for i := 0 to |fields|
        invariant Valid() && |writes| == i <= MAX_ITEMS
        invariant chars == old(chars) - WritesCharged(writes) && nodes == old(nodes) - WritesVisited(writes)
        invariant forall j :: 0 <= j < i ==> Written(c, fields[j], depth, writes[j])
      {
        if i >= MAX_ITEMS || nodes <= 0 || chars <= 0 { return DictOut(writes, true); }
        var entry := SanitizeEntry(c, fields[i], depth);
        WriteAppended(writes, entry);
        writes := writes + [entry];
      }
      return DictOut(writes, false);
    }

    method SanitizeEntry(c: Cleaner, field: Field, depth: nat) returns (w: Write)
      requires Valid() && chars > 0
      modifies this
      ensures Valid()
      ensures chars == old(chars) - WriteCharge(w) && nodes == old(nodes) - WriteVisits(w)
      ensures Written(c, field, depth, w)
      decreases field, 0
    {
      var _, safeKey := BoundedText(c, field.key, MAX_KEY_CHARS);
      if Withheld(c, field.key) { return Secret(safeKey); }
      var value := Sanitize(c, field.value, depth + 1);
      return Kept(safeKey, value);
    }
  }

  /** One value under a fresh budget emits at most 65,536 characters from at most 1,000 nodes. */
  method SanitizeValue(c: Cleaner, v: Json) returns (o: Out)
    ensures Follows(c, v, 0, o)
    ensures Charged(o) <= MAX_CHARS && Visited(o) <= MAX_NODES
  {
    var budget := new SanitizeBudget();
    o := budget.Sanitize(c, v, 0);
  }
}
