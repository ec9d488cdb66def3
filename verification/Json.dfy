/**
  JSON values as the analyzer sees them: dictionaries keep their insertion order
  and have distinct keys, and `==` is the host language's equality, under which
  true, 1 and 1.0 are equal and the order of dictionary entries is irrelevant.
 */
module Json {

  datatype Json =
    | Null
    | Bool(b: bool)
    | Int(i: int)
    | Float(r: real)
    | Str(s: string)
    | Arr(items: seq<Json>)
    | Obj(fields: seq<Field>)

  datatype Field = Field(key: string, value: Json)

  /** Position of the entry with key `k`, or the number of entries when there is none. */
  function Find(fields: seq<Field>, k: string): (i: nat)
    ensures i <= |fields|
    ensures i < |fields| ==> fields[i].key == k
    ensures forall j :: 0 <= j < i ==> fields[j].key != k
  {
    FindFrom(fields, k, 0)
  }

  function FindFrom(fields: seq<Field>, k: string, from: nat): (i: nat)
    requires from <= |fields|
    ensures from <= i <= |fields|
    ensures i < |fields| ==> fields[i].key == k
    ensures forall j :: from <= j < i ==> fields[j].key != k
    decreases |fields| - from
  {
    if from == |fields| || fields[from].key == k then from else FindFrom(fields, k, from + 1)
  }

  predicate Has(fields: seq<Field>, k: string) {
    Find(fields, k) < |fields|
  }

  /** `dict[key] = value`. */
  function Put(fields: seq<Field>, key: string, value: Json): (r: seq<Field>)
    ensures |r| <= |fields| + 1
  {
    if Has(fields, key) then fields[Find(fields, key) := Field(key, value)] else fields + [Field(key, value)]
  }

  /** The dictionary that assigning the first `k` entries one after another leaves. */
  function Assigned(entries: seq<Field>, k: nat): (r: seq<Field>)
    requires k <= |entries|
    ensures |r| <= k
  {
    if k == 0 then [] else Put(Assigned(entries, k - 1), entries[k - 1].key, entries[k - 1].value)
  }

  ghost predicate DistinctKeys(fields: seq<Field>) {
    forall i, j :: 0 <= i < j < |fields| ==> fields[i].key != fields[j].key
  }

  /** Every dictionary inside `v` has distinct keys. */
  ghost predicate WellFormed(v: Json) {
    match v
    case Arr(items) => forall i :: 0 <= i < |items| ==> WellFormed(items[i])
    case Obj(fields) =>
      DistinctKeys(fields) && forall i :: 0 <= i < |fields| ==> WellFormed(fields[i].value)
    case _ => true
  }

  predicate IsNumber(v: Json) {
    v.Bool? || v.Int? || v.Float?
  }

  function Magnitude(v: Json): real
    requires IsNumber(v)
  {
    match v
    case Bool(b) => if b then 1.0 else 0.0
    case Int(i) => i as real
    case Float(r) => r
  }

  /** The host language's `==`. */
  predicate Equal(a: Json, b: Json) {
    match a
    case Null => b.Null?
    case Str(s) => b == a
    case Arr(items) =>
      b.Arr? && |items| == |b.items|
      && forall i :: 0 <= i < |items| ==> Equal(items[i], b.items[i])
    case Obj(fields) =>
      b.Obj? && |fields| == |b.fields|
      && forall i :: 0 <= i < |fields| ==>
           var j := Find(b.fields, fields[i].key);
           j < |b.fields| && Equal(fields[i].value, b.fields[j].value)
    case _ => IsNumber(b) && Magnitude(a) == Magnitude(b)
  }

  /** A fixture's declared arguments `e` are contained in the actual arguments `a`. */
  predicate Subset(e: Json, a: Json) {
    match e
    case Obj(fields) =>
      a.Obj?
      && forall i :: 0 <= i < |fields| ==>
           var j := Find(a.fields, fields[i].key);
           j < |a.fields| && Subset(fields[i].value, a.fields[j].value)
    case _ => Equal(e, a)
  }

  /** How many argument details a fixture pins down. */
  function Specificity(v: Json): (n: nat) {
    match v
    case Obj(fields) => FieldsSpecificity(fields)
    case Arr(items) => |items| + ItemsSpecificity(items)
    case _ => 1
  }

  function FieldsSpecificity(fields: seq<Field>): (n: nat) {
    if fields == [] then 0 else 1 + Specificity(fields[0].value) + FieldsSpecificity(fields[1..])
  }

  function ItemsSpecificity(items: seq<Json>): (n: nat) {
    if items == [] then 0 else Specificity(items[0]) + ItemsSpecificity(items[1..])
  }

  // ---------------------------------------------------------------------------
  // Dictionaries
  // ---------------------------------------------------------------------------

  lemma {:induction false} FindAt(fields: seq<Field>, i: nat)
    requires DistinctKeys(fields) && i < |fields|
    ensures Find(fields, fields[i].key) == i
  {
  }

  lemma {:induction false} PutKeeps(fields: seq<Field>, key: string, value: Json, other: string)
    ensures Has(Put(fields, key, value), key)
    ensures Has(fields, other) ==> Has(Put(fields, key, value), other)
  {
    var put := Put(fields, key, value);
    if Has(fields, key) {
      assert put[Find(fields, key)].key == key;
    } else {
      assert put[|fields|].key == key;
    }
    if Has(fields, other) {
      var i := Find(fields, other);
      assert put[i].key == other;
    }
  }

  lemma {:induction false} PutFinds(fields: seq<Field>, key: string, value: Json)
    ensures Has(Put(fields, key, value), key)
    ensures Put(fields, key, value)[Find(Put(fields, key, value), key)].value == value
  {
    var put := Put(fields, key, value);
    if Has(fields, key) {
      FirstIs(put, key, Find(fields, key));
    } else {
      FirstIs(put, key, |fields|);
    }
  }

  lemma {:induction false} FirstIs(fields: seq<Field>, key: string, i: nat)
    requires i < |fields| && fields[i].key == key && forall j :: 0 <= j < i ==> fields[j].key != key
    ensures Find(fields, key) == i
  {
  }

  lemma {:induction false} PutElsewhere(fields: seq<Field>, key: string, value: Json, other: string)
    requires other != key && Has(fields, other)
    ensures Has(Put(fields, key, value), other)
    ensures Put(fields, key, value)[Find(Put(fields, key, value), other)] == fields[Find(fields, other)]
  {
    FirstIs(Put(fields, key, value), other, Find(fields, other));
  }

  lemma {:induction false} AssignedPrefix(a: seq<Field>, b: seq<Field>, k: nat)
    requires k <= |a| && k <= |b| && a[..k] == b[..k]
    ensures Assigned(a, k) == Assigned(b, k)
  {
    if k > 0 {
      assert a[k - 1] == a[..k][k - 1] && b[k - 1] == b[..k][k - 1];
      assert a[..k - 1] == a[..k][..k - 1] && b[..k - 1] == b[..k][..k - 1];
      AssignedPrefix(a, b, k - 1);
    }
  }

  lemma {:induction false} AssignedMore(entries: seq<Field>, e: Field)
    ensures Assigned(entries + [e], |entries| + 1) == Put(Assigned(entries, |entries|), e.key, e.value)
  {
    AssignedPrefix(entries + [e], entries, |entries|);
  }

  /** Assigning entries with distinct keys lists them. */
  lemma {:induction false} AssignedDistinct(entries: seq<Field>, k: nat)
    requires DistinctKeys(entries) && k <= |entries|
    ensures Assigned(entries, k) == entries[..k]
  {
    if k > 0 {
      AssignedDistinct(entries, k - 1);
      FindNew(entries, k - 1);
    }
  }

  lemma {:induction false} FindNew(entries: seq<Field>, i: nat)
    requires DistinctKeys(entries) && i < |entries|
    ensures Put(entries[..i], entries[i].key, entries[i].value) == entries[..i + 1]
  {
    assert forall j :: 0 <= j < i ==> entries[..i][j].key != entries[i].key;
  }

  /** No entry of the list after `i` has its key. */
  ghost predicate LastWithKey(entries: seq<Field>, i: nat) {
    i < |entries| && forall j :: i < j < |entries| ==> entries[j].key != entries[i].key
  }

  /** The last assignment to a key is the one that stays. */
  lemma {:induction false} AssignedLast(entries: seq<Field>, i: nat, k: nat)
    requires LastWithKey(entries, i) && i < k <= |entries|
    ensures var r, key := Assigned(entries, k), entries[i].key; Has(r, key) && r[Find(r, key)].value == entries[i].value
    decreases k
  {
    var rest, last := Assigned(entries, k - 1), entries[k - 1];
    if i == k - 1 {
      PutFinds(rest, last.key, last.value);
    } else {
      AssignedLast(entries, i, k - 1);
      PutElsewhere(rest, last.key, last.value, entries[i].key);
    }
  }

  function Without(fields: seq<Field>, p: nat): (r: seq<Field>)
    requires p < |fields|
    ensures |r| == |fields| - 1
  {
    fields[..p] + fields[p + 1..]
  }

  lemma {:induction false} WithoutFields(fields: seq<Field>, p: nat)
    requires DistinctKeys(fields) && p < |fields|
    ensures DistinctKeys(Without(fields, p))
    ensures forall i :: 0 <= i < |fields| && i != p ==>
              var j := Find(Without(fields, p), fields[i].key);
              j < |fields| - 1 && Without(fields, p)[j] == fields[i]
    ensures forall i :: 0 <= i < |fields| - 1 ==> Without(fields, p)[i] in fields
  {
    var rest := Without(fields, p);
    forall i | 0 <= i < |fields| && i != p
      ensures var j := Find(rest, fields[i].key); j < |fields| - 1 && rest[j] == fields[i]
    {
      var k := if i < p then i else i - 1;
      assert rest[k] == fields[i];
      FindAt(rest, k);
    }
  }

  lemma {:induction false} FieldsSpecificitySplit(s: seq<Field>, t: seq<Field>)
    ensures FieldsSpecificity(s + t) == FieldsSpecificity(s) + FieldsSpecificity(t)
  {
    if s == [] {
      assert s + t == t;
    } else {
      assert (s + t)[1..] == s[1..] + t;
      FieldsSpecificitySplit(s[1..], t);
    }
  }

  lemma {:induction false} FieldsSpecificityWithout(fields: seq<Field>, p: nat)
    requires p < |fields|
    ensures FieldsSpecificity(fields)
         == 1 + Specificity(fields[p].value) + FieldsSpecificity(Without(fields, p))
  {
    var head, tail := fields[..p], fields[p + 1..];
    assert fields == head + ([fields[p]] + tail) && Without(fields, p) == head + tail;
    FieldsSpecificitySplit(head, [fields[p]] + tail);
    FieldsSpecificitySplit(head, tail);
    assert ([fields[p]] + tail)[1..] == tail;
  }

  // ---------------------------------------------------------------------------
  // Equality
  // ---------------------------------------------------------------------------

  lemma {:induction false} EqualReflexive(v: Json)
    requires WellFormed(v)
    ensures Equal(v, v)
  {
    match v
    case Arr(items) =>
      forall i | 0 <= i < |items| ensures Equal(items[i], items[i]) { EqualReflexive(items[i]); }
    case Obj(fields) =>
      forall i | 0 <= i < |fields|
        ensures Find(fields, fields[i].key) == i && Equal(fields[i].value, fields[i].value)
      {
        FindAt(fields, i);
        EqualReflexive(fields[i].value);
      }
    case _ =>
  }

  lemma {:induction false} EqualTransitive(a: Json, b: Json, c: Json)
    requires Equal(a, b) && Equal(b, c)
    ensures Equal(a, c)
  {
    match a
    case Arr(items) =>
      forall i | 0 <= i < |items| ensures Equal(items[i], c.items[i]) {
        EqualTransitive(items[i], b.items[i], c.items[i]);
      }
    case Obj(fields) =>
      forall i | 0 <= i < |fields|
        ensures var j := Find(c.fields, fields[i].key);
                j < |c.fields| && Equal(fields[i].value, c.fields[j].value)
      {
        var k := Find(b.fields, fields[i].key);
        var j := Find(c.fields, b.fields[k].key);
        EqualTransitive(fields[i].value, b.fields[k].value, c.fields[j].value);
      }
    case _ =>
  }

  // ---------------------------------------------------------------------------
  // Containment is a partial order, and specificity is strictly monotone along it
  // ---------------------------------------------------------------------------

  lemma {:induction false} EqualImpliesSubset(a: Json, b: Json)
    requires Equal(a, b)
    ensures Subset(a, b)
  {
    if a.Obj? {
      forall i | 0 <= i < |a.fields|
        ensures var j := Find(b.fields, a.fields[i].key);
                j < |b.fields| && Subset(a.fields[i].value, b.fields[j].value)
      {
        EqualImpliesSubset(a.fields[i].value, b.fields[Find(b.fields, a.fields[i].key)].value);
      }
    }
  }

  lemma {:induction false} SubsetReflexive(v: Json)
    requires WellFormed(v)
    ensures Subset(v, v)
  {
    EqualReflexive(v);
    EqualImpliesSubset(v, v);
  }

  lemma {:induction false} SubsetTransitive(a: Json, b: Json, c: Json)
    requires Subset(a, b) && Subset(b, c)
    ensures Subset(a, c)
  {
    match a
    case Obj(fields) =>
      forall i | 0 <= i < |fields|
        ensures var j := Find(c.fields, fields[i].key);
                j < |c.fields| && Subset(fields[i].value, c.fields[j].value)
      {
        var k := Find(b.fields, fields[i].key);
        var j := Find(c.fields, b.fields[k].key);
        SubsetTransitive(fields[i].value, b.fields[k].value, c.fields[j].value);
      }
    case _ =>
      EqualTransitive(a, b, c);
  }

  /**
    A value contained in another is at most as specific, and equally specific only
    when the two are equal: a strictly more general pattern always scores lower.
   */
  lemma {:induction false} SpecificityMonotone(e: Json, a: Json)
    requires WellFormed(e) && WellFormed(a) && Subset(e, a)
    ensures Specificity(e) <= Specificity(a)
    ensures Specificity(e) == Specificity(a) <==> Equal(e, a)
    decreases e, 0
  {
    match e
    case Obj(fields) => FieldsMonotone(fields, a.fields);
    case Arr(items) => ItemsEqual(items, a.items);
    case _ =>
  }

  lemma {:induction false} ItemsEqual(s: seq<Json>, t: seq<Json>)
    requires |s| == |t|
    requires forall i :: 0 <= i < |s| ==> WellFormed(s[i]) && WellFormed(t[i]) && Equal(s[i], t[i])
    ensures ItemsSpecificity(s) == ItemsSpecificity(t)
    decreases s, 1
  {
    if s != [] {
      EqualImpliesSubset(s[0], t[0]);
      SpecificityMonotone(s[0], t[0]);
      ItemsEqual(s[1..], t[1..]);
    }
  }

  ghost predicate FieldsWithin(es: seq<Field>, fs: seq<Field>) {
    forall i :: 0 <= i < |es| ==>
      var j := Find(fs, es[i].key);
      j < |fs| && Subset(es[i].value, fs[j].value)
  }

  ghost predicate FieldsEqual(es: seq<Field>, fs: seq<Field>) {
    |es| == |fs|
    && forall i :: 0 <= i < |es| ==>
         var j := Find(fs, es[i].key);
         j < |fs| && Equal(es[i].value, fs[j].value)
  }

  lemma {:induction false} FieldsMonotone(es: seq<Field>, fs: seq<Field>)
    requires DistinctKeys(es) && DistinctKeys(fs) && FieldsWithin(es, fs)
    requires forall i :: 0 <= i < |es| ==> WellFormed(es[i].value)
    requires forall i :: 0 <= i < |fs| ==> WellFormed(fs[i].value)
    ensures FieldsSpecificity(es) <= FieldsSpecificity(fs)
    ensures FieldsSpecificity(es) == FieldsSpecificity(fs) <==> FieldsEqual(es, fs)
    decreases es, 1
  {
    if es == [] {
      assert FieldsEqual(es, fs) <==> fs == [];
    } else {
      var p := Find(fs, es[0].key);
      var rest := Without(fs, p);
      WithoutFields(fs, p);
      FieldsSpecificityWithout(fs, p);
      SpecificityMonotone(es[0].value, fs[p].value);
      WithinTail(es, fs, p);
      FieldsMonotone(es[1..], rest);
    }
  }

  /** Setting aside the first entry and its counterpart changes no other lookup. */
  lemma {:induction false} LookupsKept(es: seq<Field>, fs: seq<Field>, p: nat, i: nat)
    requires DistinctKeys(es) && DistinctKeys(fs) && p < |fs| && 0 < i < |es| && fs[p].key == es[0].key
    requires Has(fs, es[i].key)
    ensures Has(Without(fs, p), es[i].key)
    ensures Without(fs, p)[Find(Without(fs, p), es[i].key)] == fs[Find(fs, es[i].key)]
  {
    WithoutFields(fs, p);
    var j := Find(fs, es[i].key);
    assert fs[j].key == es[i].key != es[0].key;
  }

  lemma {:induction false} WithinTail(es: seq<Field>, fs: seq<Field>, p: nat)
    requires es != [] && DistinctKeys(es) && DistinctKeys(fs) && FieldsWithin(es, fs)
    requires p == Find(fs, es[0].key)
    ensures DistinctKeys(es[1..]) && DistinctKeys(Without(fs, p)) && FieldsWithin(es[1..], Without(fs, p))
    ensures FieldsEqual(es, fs)
       <==> Equal(es[0].value, fs[p].value) && FieldsEqual(es[1..], Without(fs, p))
  {
    var rest := Without(fs, p);
    WithoutFields(fs, p);
    forall i | 0 < i < |es|
      ensures Has(rest, es[i].key) && rest[Find(rest, es[i].key)] == fs[Find(fs, es[i].key)] && es[1..][i - 1] == es[i]
    {
      LookupsKept(es, fs, p, i);
    }
    EqualTail(es, fs, rest);
  }

  /** Where the lookups agree, equality is equality of the first entry and of the others. */
  lemma {:induction false} EqualTail(es: seq<Field>, fs: seq<Field>, rest: seq<Field>)
    requires es != [] && Has(fs, es[0].key) && |rest| == |fs| - 1
    requires forall i :: 0 < i < |es| ==>
      Has(fs, es[i].key) && Has(rest, es[i].key) && rest[Find(rest, es[i].key)] == fs[Find(fs, es[i].key)]
    ensures FieldsEqual(es, fs)
       <==> Equal(es[0].value, fs[Find(fs, es[0].key)].value) && FieldsEqual(es[1..], rest)
  {
    var tail := es[1..];
    assert forall i :: 0 < i < |es| ==> tail[i - 1] == es[i];
    if FieldsEqual(tail, rest) {
      forall i | 0 < i < |es| ensures Equal(es[i].value, fs[Find(fs, es[i].key)].value) {
        assert tail[i - 1] == es[i];
      }
    }
  }

  /** Containment both ways is equality, so containment is a partial order modulo `==`. */
  lemma {:induction false} SubsetAntisymmetric(a: Json, b: Json)
    requires WellFormed(a) && WellFormed(b)
    ensures Subset(a, b) && Subset(b, a) <==> Equal(a, b) && Equal(b, a)
  {
    if Subset(a, b) && Subset(b, a) {
      SpecificityMonotone(a, b);
      SpecificityMonotone(b, a);
    }
    if Equal(a, b) && Equal(b, a) {
      EqualImpliesSubset(a, b);
      EqualImpliesSubset(b, a);
    }
  }

  /** Two patterns contained in each other's direction order their scores strictly. */
  lemma {:induction false} StrictlyMoreGeneral(e: Json, a: Json)
    requires WellFormed(e) && WellFormed(a) && Subset(e, a) && !Subset(a, e)
    ensures Specificity(e) < Specificity(a)
  {
    SpecificityMonotone(e, a);
    if Equal(e, a) {
      EqualSymmetric(e, a);
      EqualImpliesSubset(a, e);
    }
  }

  lemma {:induction false} EqualSymmetric(a: Json, b: Json)
    requires WellFormed(a) && WellFormed(b) && Equal(a, b)
    ensures Equal(b, a)
    decreases a, 0
  {
    match a
    case Arr(items) =>
      forall i | 0 <= i < |items| ensures Equal(b.items[i], items[i]) {
        EqualSymmetric(items[i], b.items[i]);
      }
    case Obj(fields) => FieldsSymmetric(fields, b.fields);
    case _ =>
  }

  lemma {:induction false} FieldsSymmetric(es: seq<Field>, fs: seq<Field>)
    requires DistinctKeys(es) && DistinctKeys(fs) && FieldsEqual(es, fs)
    requires forall i :: 0 <= i < |es| ==> WellFormed(es[i].value)
    requires forall i :: 0 <= i < |fs| ==> WellFormed(fs[i].value)
    ensures FieldsEqual(fs, es)
    decreases es, 1
  {
    if es != [] {
      var p := Find(fs, es[0].key);
      var rest := Without(fs, p);
      WithoutFields(fs, p);
      forall i | 0 <= i < |es| ensures Subset(es[i].value, fs[Find(fs, es[i].key)].value) {
        EqualImpliesSubset(es[i].value, fs[Find(fs, es[i].key)].value);
      }
      WithinTail(es, fs, p);
      FieldsSymmetric(es[1..], rest);
      EqualSymmetric(es[0].value, fs[p].value);
      forall j | 0 <= j < |fs|
        ensures var i := Find(es, fs[j].key); i < |es| && Equal(fs[j].value, es[i].value)
      {
        SymmetricAt(es, fs, p, j);
      }
    }
  }

  lemma {:induction false} SymmetricAt(es: seq<Field>, fs: seq<Field>, p: nat, j: nat)
    requires DistinctKeys(es) && DistinctKeys(fs) && es != [] && p < |fs| && j < |fs|
    requires fs[p].key == es[0].key && Equal(fs[p].value, es[0].value) && FieldsEqual(Without(fs, p), es[1..])
    ensures var i := Find(es, fs[j].key); i < |es| && Equal(fs[j].value, es[i].value)
  {
    if j == p {
      FindAt(es, 0);
    } else {
      var rest := Without(fs, p);
      WithoutFields(fs, p);
      var r := Find(rest, fs[j].key);
      assert rest[r] == fs[j];
      var i := Find(es[1..], fs[j].key);
      assert es[1..][i] == es[i + 1];
      FindAt(es, i + 1);
    }
  }
}
