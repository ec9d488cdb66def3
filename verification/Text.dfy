/**
  Substrings; strings in code-point order, the order `sorted` and `min` use on text; and
  the one ascending listing of a finite set of strings.
 */
module Text {

  predicate PartAt(s: string, p: string, i: nat) {
    i + |p| <= |s| && s[i..i + |p|] == p
  }

  /** `p in s`, for text. */
  predicate Inside(s: string, p: string) {
    exists i: nat :: i <= |s| && PartAt(s, p, i)
  }

  /** Lexicographic order by code point. */
  predicate Le(a: string, b: string) {
    a == [] || (b != [] && (a[0] < b[0] || (a[0] == b[0] && Le(a[1..], b[1..]))))
  }

  lemma {:induction false} LeTotal(a: string, b: string)
    ensures Le(a, b) || Le(b, a)
    ensures Le(a, b) && Le(b, a) ==> a == b
  {
    if a != [] && b != [] && a[0] == b[0] {
      LeTotal(a[1..], b[1..]);
      assert a == [a[0]] + a[1..] && b == [b[0]] + b[1..];
    }
  }

  lemma {:induction false} LeTransitive(a: string, b: string, c: string)
    requires Le(a, b) && Le(b, c)
    ensures Le(a, c)
  {
    if a != [] && b != [] && c != [] && a[0] == b[0] == c[0] {
      LeTransitive(a[1..], b[1..], c[1..]);
    }
  }

  predicate IsLeast(s: set<string>, x: string) {
    x in s && forall y :: y in s ==> Le(x, y)
  }

  lemma {:induction false} LeastExists(s: set<string>)
    requires s != {}
    ensures exists x :: IsLeast(s, x)
  {
    var x :| x in s;
    LeTotal(x, x);
    if s - {x} == {} {
      assert s == {x};
      assert IsLeast(s, x);
    } else {
      LeastExists(s - {x});
      var m :| IsLeast(s - {x}, m);
      LeTotal(x, m);
      if Le(x, m) {
        forall y | y in s ensures Le(x, y) {
          if y != x { LeTransitive(x, m, y); }
        }
        assert IsLeast(s, x);
      } else {
        assert IsLeast(s, m);
      }
    }
  }

  lemma {:induction false} LeastUnique(s: set<string>, x: string, y: string)
    requires IsLeast(s, x) && IsLeast(s, y)
    ensures x == y
  {
    LeTotal(x, y);
  }

  ghost function Least(s: set<string>): (m: string)
    requires s != {}
    ensures m in s
  {
    LeastExists(s);
    var m :| IsLeast(s, m);
    m
  }

  /** The elements of `s`, each once, in ascending order. */
  ghost function Sorted(s: set<string>): (r: seq<string>)
    ensures |r| == |s|
    ensures forall x :: x in r <==> x in s
    decreases |s|
  {
    if s == {} then [] else [Least(s)] + Sorted(s - {Least(s)})
  }

  lemma {:induction false} LeastIsLeast(s: set<string>)
    requires s != {}
    ensures IsLeast(s, Least(s))
  {
    LeastExists(s);
    var m :| IsLeast(s, m);
  }

  lemma {:induction false} SortedHead(s: set<string>, x: string)
    requires IsLeast(s, x)
    ensures Sorted(s) == [x] + Sorted(s - {x})
  {
    LeastIsLeast(s);
    LeastUnique(s, x, Least(s));
  }

  ghost predicate Ascending(s: seq<string>) {
    forall i, j :: 0 <= i < j < |s| ==> Le(s[i], s[j])
  }

  lemma {:induction false} SortedAscending(s: set<string>)
    ensures forall i, j :: 0 <= i < j < |Sorted(s)| ==> Sorted(s)[i] != Sorted(s)[j] && Le(Sorted(s)[i], Sorted(s)[j])
    decreases |s|
  {
    if s != {} {
      var m := Least(s);
      LeastIsLeast(s);
      SortedAscending(s - {m});
      var rest := Sorted(s - {m});
      forall j | 0 <= j < |rest| ensures rest[j] != m && Le(m, rest[j]) {
        assert rest[j] in rest;
      }
      forall i, j | 0 <= i < j < |Sorted(s)|
        ensures Sorted(s)[i] != Sorted(s)[j] && Le(Sorted(s)[i], Sorted(s)[j])
      {
        assert Sorted(s)[j] == rest[j - 1];
        if i > 0 { assert Sorted(s)[i] == rest[i - 1]; }
      }
    }
  }
}
