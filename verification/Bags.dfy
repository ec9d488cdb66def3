/**
  Order-insensitive facts about sequences: what a pass over a list yields depends
  only on the multiset of its elements. The coverage analyzer, the slot selection
  and the baseline comparison all rest on these.
 */
module Bags {

  datatype Option<+T> = None | Some(value: T) {
    function GetOr(default: T): T { if Some? then value else default }
  }

  /** The concatenation of `f` over `s`, in order. */
  function Gather<T, U>(s: seq<T>, f: T -> seq<U>): (r: seq<U>) {
    if s == [] then [] else f(s[0]) + Gather(s[1..], f)
  }

  /** `s` without the element at `i`. */
  function Drop<T>(s: seq<T>, i: nat): (r: seq<T>)
    requires i < |s|
    ensures |r| == |s| - 1
    ensures multiset(s) == multiset(r) + multiset{s[i]}
  {
    assert s == s[..i] + [s[i]] + s[i + 1..];
    s[..i] + s[i + 1..]
  }

  lemma {:induction false} HeadApart<T>(s: seq<T>)
    requires s != []
    ensures multiset(s[1..]) == multiset(s) - multiset{s[0]}
    ensures s[0] in multiset(s)
  {
    assert s == [s[0]] + s[1..];
  }

  lemma {:induction false} GatherSplit<T, U>(s: seq<T>, t: seq<T>, f: T -> seq<U>)
    ensures Gather(s + t, f) == Gather(s, f) + Gather(t, f)
  {
    if s == [] {
      assert s + t == t;
    } else {
      assert (s + t)[1..] == s[1..] + t;
      GatherSplit(s[1..], t, f);
    }
  }

  lemma {:induction false} GatherDrop<T, U>(s: seq<T>, i: nat, f: T -> seq<U>)
    requires i < |s|
    ensures multiset(Gather(s, f)) == multiset(f(s[i])) + multiset(Gather(Drop(s, i), f))
  {
    var tail := s[i..];
    assert s == s[..i] + tail;
    assert tail[1..] == s[i + 1..];
    GatherSplit(s[..i], tail, f);
    GatherSplit(s[..i], s[i + 1..], f);
  }

  /** A sub-multiset of inputs yields a sub-multiset of outputs, whatever the two orders are. */
  lemma {:induction false} GatherMonotone<T, U>(s: seq<T>, t: seq<T>, f: T -> seq<U>)
    requires multiset(s) <= multiset(t)
    ensures multiset(Gather(s, f)) <= multiset(Gather(t, f))
    decreases |s|
  {
    if s != [] {
      assert s[0] in multiset(t);
      var i :| 0 <= i < |t| && t[i] == s[0];
      HeadApart(s);
      GatherMonotone(s[1..], Drop(t, i), f);
      GatherDrop(t, i, f);
    }
  }

  /** Reordering the inputs only reorders the outputs. */
  lemma {:induction false} GatherPermuted<T, U>(s: seq<T>, t: seq<T>, f: T -> seq<U>)
    requires multiset(s) == multiset(t)
    ensures multiset(Gather(s, f)) == multiset(Gather(t, f))
  {
    GatherMonotone(s, t, f);
    GatherMonotone(t, s, f);
  }

  lemma {:induction false} GatherMember<T, U>(s: seq<T>, f: T -> seq<U>, u: U)
    ensures u in Gather(s, f) <==> exists i :: 0 <= i < |s| && u in f(s[i])
  {
    if s != [] {
      GatherMember(s[1..], f, u);
      if u in Gather(s[1..], f) {
        var j :| 0 <= j < |s[1..]| && u in f(s[1..][j]);
        assert u in f(s[j + 1]);
      }
      if i :| 0 < i < |s| && u in f(s[i]) {
        assert s[1..][i - 1] == s[i];
      }
    }
  }

  /** What two elements yield is yielded twice. */
  lemma {:induction false} GatherTwice<T, U>(s: seq<T>, i: nat, j: nat, f: T -> seq<U>, u: U)
    requires i < j < |s| && u in f(s[i]) && u in f(s[j])
    ensures multiset(Gather(s, f))[u] >= 2
  {
    GatherDrop(s, j, f);
    assert u in multiset(f(s[j]));
    assert Drop(s, j)[i] == s[i];
    GatherMember(Drop(s, j), f, u);
    assert u in multiset(Gather(Drop(s, j), f));
  }

  /** The elements of `s` that satisfy `p`, in order. */
  function Filter<T>(s: seq<T>, p: T -> bool): (r: seq<T>)
    ensures forall x :: x in r ==> x in s && p(x)
    ensures forall x :: x in s && p(x) ==> x in r
  {
    if s == [] then [] else if p(s[0]) then [s[0]] + Filter(s[1..], p) else Filter(s[1..], p)
  }

  function Keep<T>(p: T -> bool): (f: T -> seq<T>) {
    (x: T) => if p(x) then [x] else []
  }

  lemma {:induction false} FilterIsGather<T>(s: seq<T>, p: T -> bool)
    ensures Filter(s, p) == Gather(s, Keep(p))
  {
    if s != [] { FilterIsGather(s[1..], p); }
  }

  lemma {:induction false} FilterMonotone<T>(s: seq<T>, t: seq<T>, p: T -> bool)
    requires multiset(s) <= multiset(t)
    ensures multiset(Filter(s, p)) <= multiset(Filter(t, p))
  {
    FilterIsGather(s, p);
    FilterIsGather(t, p);
    GatherMonotone(s, t, Keep(p));
  }

  /** How many elements of `s` satisfy `p`. */
  function Count<T>(s: seq<T>, p: T -> bool): (n: nat)
    ensures n <= |s|
  {
    if s == [] then 0 else (if p(s[0]) then 1 else 0) + Count(s[1..], p)
  }

  lemma {:induction false} CountSplit<T>(s: seq<T>, t: seq<T>, p: T -> bool)
    ensures Count(s + t, p) == Count(s, p) + Count(t, p)
  {
    if s == [] {
      assert s + t == t;
    } else {
      assert (s + t)[1..] == s[1..] + t;
      CountSplit(s[1..], t, p);
    }
  }

  lemma {:induction false} CountDrop<T>(s: seq<T>, i: nat, p: T -> bool)
    requires i < |s|
    ensures Count(s, p) == (if p(s[i]) then 1 else 0) + Count(Drop(s, i), p)
  {
    assert s == s[..i] + ([s[i]] + s[i + 1..]);
    CountSplit(s[..i], [s[i]] + s[i + 1..], p);
    CountSplit(s[..i], s[i + 1..], p);
  }

  lemma {:induction false} CountPermuted<T>(s: seq<T>, t: seq<T>, p: T -> bool)
    requires multiset(s) == multiset(t)
    ensures |s| == |t| && Count(s, p) == Count(t, p)
    decreases |s|
  {
    assert |multiset(s)| == |s| && |multiset(t)| == |t|;
    if s != [] {
      assert s[0] in multiset(t);
      var i :| 0 <= i < |t| && t[i] == s[0];
      HeadApart(s);
      CountPermuted(s[1..], Drop(t, i), p);
      CountDrop(t, i, p);
    }
  }

  // ---------------------------------------------------------------------------
  // Sizes
  // ---------------------------------------------------------------------------

  ghost predicate Distinct<T>(s: seq<T>) {
    forall i, j :: 0 <= i < j < |s| ==> s[i] != s[j]
  }

  lemma {:induction false} DistinctSize<T>(s: seq<T>)
    requires Distinct(s)
    ensures |set x | x in s| == |s|
  {
    if s != [] {
      var last := s[|s| - 1];
      var rest := s[..|s| - 1];
      DistinctSize(rest);
      assert s == rest + [last];
      assert (set x | x in s) == (set x | x in rest) + {last};
    }
  }

  lemma {:induction false} SubsetSize<T>(a: set<T>, b: set<T>)
    requires a <= b
    ensures |a| <= |b|
  {
    if x :| x in a { SubsetSize(a - {x}, b - {x}); }
  }

  // ---------------------------------------------------------------------------
  // Sorting
  // ---------------------------------------------------------------------------

  ghost predicate Order<T(!new)>(le: (T, T) -> bool) {
    (forall a, b :: le(a, b) || le(b, a)) && (forall a, b, c :: le(a, b) && le(b, c) ==> le(a, c))
  }

  ghost predicate Ordered<T>(s: seq<T>, le: (T, T) -> bool) {
    forall i, j :: 0 <= i < j < |s| ==> le(s[i], s[j])
  }

  lemma {:induction false} OrderedJoin<T>(a: seq<T>, b: seq<T>, le: (T, T) -> bool)
    requires Ordered(a, le) && Ordered(b, le) && forall x, y :: x in a && y in b ==> le(x, y)
    ensures Ordered(a + b, le)
  {
    var r := a + b;
    forall i, j | 0 <= i < j < |r| ensures le(r[i], r[j]) {
      if j < |a| {
        assert r[i] == a[i] && r[j] == a[j];
      } else if i >= |a| {
        assert r[i] == b[i - |a|] && r[j] == b[j - |a|];
      } else {
        assert r[i] in a && r[j] in b;
      }
    }
  }

  /** Every earlier element yields only what comes before what later ones yield. */
  ghost predicate Staged<T, U>(s: seq<T>, f: T -> seq<U>, le: (U, U) -> bool) {
    (forall i :: 0 <= i < |s| ==> Ordered(f(s[i]), le))
    && forall i, j, x, y :: 0 <= i < j < |s| && x in f(s[i]) && y in f(s[j]) ==> le(x, y)
  }

  lemma {:induction false} GatherOrdered<T, U(!new)>(s: seq<T>, f: T -> seq<U>, le: (U, U) -> bool)
    requires Staged(s, f, le)
    ensures Ordered(Gather(s, f), le)
  {
    if s != [] {
      assert forall i :: 0 <= i < |s| - 1 ==> s[1..][i] == s[i + 1];
      GatherOrdered(s[1..], f, le);
      forall x, y | x in f(s[0]) && y in Gather(s[1..], f) ensures le(x, y) {
        GatherMember(s[1..], f, y);
        var j :| 0 <= j < |s[1..]| && y in f(s[1..][j]);
        assert s[1..][j] == s[j + 1];
      }
      OrderedJoin(f(s[0]), Gather(s[1..], f), le);
    }
  }

  lemma {:induction false} OrderedInsert<T>(a: seq<T>, x: T, b: seq<T>, le: (T, T) -> bool)
    requires Ordered(a + b, le)
    requires forall i :: 0 <= i < |a| ==> le(a[i], x)
    requires forall i :: 0 <= i < |b| ==> le(x, b[i])
    ensures Ordered(a + [x] + b, le)
  {
    var r := a + [x] + b;
    forall i, j | 0 <= i < j < |r| ensures le(r[i], r[j]) {
      if i != |a| && j != |a| {
        var i', j' := if i < |a| then i else i - 1, if j < |a| then j else j - 1;
        assert r[i] == (a + b)[i'] && r[j] == (a + b)[j'];
      }
    }
  }

  method Insert<T(!new)>(s: seq<T>, x: T, le: (T, T) -> bool) returns (r: seq<T>)
    requires Order(le) && Ordered(s, le)
    ensures Ordered(r, le) && multiset(r) == multiset(s) + multiset{x}
  {
    var n := |s|;
    while n > 0 && !le(s[n - 1], x)
      invariant 0 <= n <= |s|
      invariant forall k :: n <= k < |s| ==> le(x, s[k])
    {
      n := n - 1;
    }
    assert s == s[..n] + s[n..];
    OrderedInsert(s[..n], x, s[n..], le);
    r := s[..n] + [x] + s[n..];
  }

  /** The elements of `s` in ascending order. */
  method SortBy<T(!new)>(s: seq<T>, le: (T, T) -> bool) returns (r: seq<T>)
    requires Order(le)
    ensures Ordered(r, le) && multiset(r) == multiset(s)
  {
    r := [];
    for i := 0 to |s|
      invariant Ordered(r, le) && multiset(r) == multiset(s[..i])
    {
      assert s[..i + 1] == s[..i] + [s[i]];
      r := Insert(r, s[i], le);
    }
    assert s[..|s|] == s;
  }
}
