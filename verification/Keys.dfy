/**
  Which dictionary keys are treated as secrets (`_normalized_key`,
  `_is_sensitive_key`). Keys are split into lower-case alphanumeric words; the
  library's case folding is a parameter that must leave such words alone.
 */
module Keys {
  import opened Text


  type Words = seq<string>

  predicate Alnum(c: char) {
    ('a' <= c <= 'z') || ('0' <= c <= '9')
  }

  predicate Upper(c: char) {
    'A' <= c <= 'Z'
  }

  predicate AllAlnum(s: string) {
    forall i :: 0 <= i < |s| ==> Alnum(s[i])
  }

  /** Lower-case letters, digits and underscores only. */
  predicate Plain(s: string) {
    forall i :: 0 <= i < |s| ==> Alnum(s[i]) || s[i] == '_'
  }

  ghost predicate KeepsPlain(lower: string -> string) {
    forall s :: Plain(s) ==> lower(s) == s
  }

  /** An underscore between a lower-case letter or digit and a capital. */
  function WithBoundaries(s: string): (r: string) {
    if |s| < 2 then s
    else [s[0]] + (if Alnum(s[0]) && Upper(s[1]) then "_" else "") + WithBoundaries(s[1..])
  }

  function SkipSeparators(s: string): (r: string)
    ensures |r| <= |s|
    ensures s != [] && !Alnum(s[0]) ==> |r| < |s|
  {
    if s == [] || Alnum(s[0]) then s else SkipSeparators(s[1..])
  }

  /** Every run of other characters becomes one underscore. */
  function Collapse(s: string): (r: string)
    decreases |s|
  {
    if s == [] then ""
    else if Alnum(s[0]) then [s[0]] + Collapse(s[1..])
    else "_" + Collapse(SkipSeparators(s))
  }

  function StripLeft(s: string): (r: string) {
    if s != [] && s[0] == '_' then StripLeft(s[1..]) else s
  }

  function StripRight(s: string): (r: string) {
    if s != [] && s[|s| - 1] == '_' then StripRight(s[..|s| - 1]) else s
  }

  function NormalizedKey(lower: string -> string, key: string): (r: string) {
    StripRight(StripLeft(Collapse(lower(WithBoundaries(key)))))
  }

  const USAGE_KEYS: set<string> := {"tokens_prompt", "tokens_completion", "tokens_total"}

  predicate StartsWith(s: string, p: string) {
    |p| <= |s| && s[..|p|] == p
  }

  predicate EndsWith(s: string, p: string) {
    |p| <= |s| && s[|s| - |p|..] == p
  }

  predicate MarkerMatches(normalized: string, candidate: string) {
    candidate != ""
    && (normalized == candidate
        || StartsWith(normalized, candidate + "_")
        || EndsWith(normalized, "_" + candidate)
        || Inside(normalized, "_" + candidate + "_"))
  }

  predicate SensitiveKey(lower: string -> string, key: string, markers: seq<string>) {
    var normalized := NormalizedKey(lower, key);
    normalized !in USAGE_KEYS
    && exists i :: 0 <= i < |markers| && MarkerMatches(normalized, NormalizedKey(lower, markers[i]))
  }

  /** The loop over markers, stopping at the first match. */
  method IsSensitiveKey(lower: string -> string, key: string, markers: seq<string>) returns (sensitive: bool)
    ensures sensitive == SensitiveKey(lower, key, markers)
  {
    var normalized := NormalizedKey(lower, key);
    if normalized in USAGE_KEYS { return false; }
    for i := 0 to |markers|
      invariant forall j :: 0 <= j < i ==> !MarkerMatches(normalized, NormalizedKey(lower, markers[j]))
    {
      var candidate := NormalizedKey(lower, markers[i]);
      if candidate == "" { continue; }
      if normalized == candidate
         || StartsWith(normalized, candidate + "_")
         || EndsWith(normalized, "_" + candidate)
         || Inside(normalized, "_" + candidate + "_")
      {
        return true;
      }
    }
    return false;
  }

  // ---------------------------------------------------------------------------
  // Words
  // ---------------------------------------------------------------------------

  /** The leading word of `s`. */
  function Head(s: string): (r: string)
    ensures r <= s && AllAlnum(r)
    ensures |r| < |s| ==> !Alnum(s[|r|])
    ensures s != [] && Alnum(s[0]) ==> r != []
  {
    if s == [] || !Alnum(s[0]) then "" else [s[0]] + Head(s[1..])
  }

  /** The maximal alphanumeric runs of `s`. */
  function Split(s: string): (r: Words)
    ensures forall i :: 0 <= i < |r| ==> r[i] != [] && AllAlnum(r[i])
    decreases |s|
  {
    if s == [] then []
    else if Alnum(s[0]) then [Head(s)] + Split(s[|Head(s)|..])
    else Split(SkipSeparators(s))
  }

  /** Words separated by single underscores. */
  function Join(ws: Words): (r: string) {
    if ws == [] then "" else if |ws| == 1 then ws[0] else ws[0] + "_" + Join(ws[1..])
  }

  /** Every word with an underscore on either side. */
  function Wrap(ws: Words): (r: string)
    ensures r != [] && r[0] == '_' && r[|r| - 1] == '_'
  {
    if ws == [] then "_" else "_" + ws[0] + Wrap(ws[1..])
  }

  ghost predicate Proper(ws: Words) {
    forall i :: 0 <= i < |ws| ==> ws[i] != [] && AllAlnum(ws[i])
  }

  lemma {:induction false} WrapIsJoin(ws: Words)
    requires ws != []
    ensures Wrap(ws) == "_" + Join(ws) + "_"
  {
    if |ws| > 1 {
      WrapIsJoin(ws[1..]);
      assert "_" + ws[0] + ("_" + Join(ws[1..]) + "_") == "_" + (ws[0] + "_" + Join(ws[1..])) + "_";
    } else {
      assert ws[1..] == [];
    }
  }

  lemma {:induction false} CollapseWord(s: string, n: nat)
    requires n <= |s| && AllAlnum(s[..n])
    ensures Collapse(s) == s[..n] + Collapse(s[n..])
  {
    if n > 0 {
      assert Alnum(s[..n][0]);
      var tail := s[1..][..n - 1];
      assert s[..n][1..] == tail;
      assert forall i :: 0 <= i < |tail| ==> tail[i] == s[..n][i + 1];
      CollapseWord(s[1..], n - 1);
      assert s[1..][n - 1..] == s[n..];
    }
  }

  lemma {:induction false} SkippedStart(s: string)
    ensures SkipSeparators(s) == [] || Alnum(SkipSeparators(s)[0])
  {
    if s != [] && !Alnum(s[0]) { SkippedStart(s[1..]); }
  }

  lemma {:induction false} SplitStep(s: string)
    requires s != [] && Alnum(s[0])
    ensures var rest := s[|Head(s)|..];
            rest == [] || (!Alnum(rest[0]) && |SkipSeparators(rest)| < |s|)
    ensures Split(s) == [Head(s)] + Split(SkipSeparators(s[|Head(s)|..]))
    ensures Collapse(s) == Head(s) + (if s[|Head(s)|..] == [] then "" else "_" + Collapse(SkipSeparators(s[|Head(s)|..])))
  {
    var h := Head(s);
    assert s[..|h|] == h;
    CollapseWord(s, |h|);
    var rest := s[|h|..];
    if rest != [] { assert rest[0] == s[|h|]; }
  }

  /** The words joined; the end may keep one separator. */
  ghost predicate Joins(c: string, ws: Words) {
    ws != [] && (c == Join(ws) || c == Join(ws) + "_")
  }

  lemma {:induction false} JoinsOne(h: string)
    ensures Joins(h, [h]) && Joins(h + "_", [h])
  {
  }

  lemma {:induction false} JoinsMore(h: string, c: string, ws: Words)
    requires Joins(c, ws)
    ensures Joins(h + ("_" + c), [h] + ws)
  {
    var more := [h] + ws;
    assert more[1..] == ws && Join(more) == h + "_" + Join(ws);
    assert h + ("_" + Join(ws)) == h + "_" + Join(ws);
    assert h + ("_" + (Join(ws) + "_")) == h + "_" + Join(ws) + "_";
  }

  /** Collapsing keeps exactly the words. */
  lemma {:induction false} CollapseIsWords(s: string)
    requires s != [] && Alnum(s[0])
    ensures Joins(Collapse(s), Split(s))
    decreases |s|
  {
    SplitStep(s);
    var h, rest := Head(s), s[|Head(s)|..];
    SkippedStart(rest);
    JoinsOne(h);
    if rest != [] {
      var next := SkipSeparators(rest);
      if next == [] {
        assert h + ("_" + "") == h + "_";
      } else {
        CollapseIsWords(next);
        JoinsMore(h, Collapse(next), Split(next));
      }
    }
  }

  lemma {:induction false} StripRightOf(s: string)
    requires s != [] ==> s[|s| - 1] != '_'
    ensures StripRight(s) == s && StripRight(s + "_") == s
  {
    assert (s + "_")[..|s|] == s;
  }

  lemma {:induction false} JoinEnds(ws: Words)
    requires Proper(ws) && ws != []
    ensures Join(ws) != [] && Alnum(Join(ws)[0]) && Alnum(Join(ws)[|Join(ws)| - 1])
  {
    assert Alnum(ws[0][0]) && Alnum(ws[0][|ws[0]| - 1]);
    if |ws| > 1 {
      JoinEnds(ws[1..]);
      var rest := Join(ws[1..]);
      assert Join(ws)[|Join(ws)| - 1] == rest[|rest| - 1];
    }
  }

  /** The normalized key is its words joined by single underscores. */
  lemma {:induction false} NormalizedIsJoined(lower: string -> string, key: string)
    ensures NormalizedKey(lower, key) == Join(Split(lower(WithBoundaries(key))))
  {
    var s := lower(WithBoundaries(key));
    var t := SkipSeparators(s);
    SkippedStart(s);
    assert Split(s) == Split(t);
    assert Collapse(s) == if s == t then Collapse(t) else "_" + Collapse(t);
    if t == [] {
      assert StripLeft("_") == "";
    } else {
      CollapseIsWords(t);
      var n := Join(Split(t));
      JoinEnds(Split(t));
      assert Collapse(t)[0] != '_';
      assert ("_" + Collapse(t))[1..] == Collapse(t);
      assert StripLeft(Collapse(s)) == Collapse(t);
      StripRightOf(n);
    }
  }

  // ---------------------------------------------------------------------------
  // Idempotence
  // ---------------------------------------------------------------------------

  lemma {:induction false} SplitWord(w: string, rest: string)
    requires AllAlnum(w) && w != [] && (rest != [] ==> !Alnum(rest[0]))
    ensures Split(w + rest) == [w] + Split(rest)
  {
    HeadWord(w, rest);
    assert (w + rest)[|w|..] == rest;
  }

  lemma {:induction false} HeadWord(w: string, rest: string)
    requires AllAlnum(w) && (rest != [] ==> !Alnum(rest[0]))
    ensures Head(w + rest) == w
  {
    if w != [] {
      assert (w + rest)[1..] == w[1..] + rest;
      HeadWord(w[1..], rest);
    }
  }

  /** Splitting what was joined gives the words back. */
  lemma {:induction false} SplitJoin(ws: Words)
    requires Proper(ws)
    ensures Split(Join(ws)) == ws
  {
    if |ws| == 1 {
      SplitWord(ws[0], "");
      assert ws[0] + "" == ws[0];
    } else if |ws| > 1 {
      var rest := Join(ws[1..]);
      SplitJoin(ws[1..]);
      JoinEnds(ws[1..]);
      SplitWord(ws[0], "_" + rest);
      assert Join(ws) == ws[0] + ("_" + rest);
      assert ("_" + rest)[1..] == rest;
      assert SkipSeparators("_" + rest) == rest;
    }
  }

  lemma {:induction false} JoinPlain(ws: Words)
    requires Proper(ws)
    ensures Plain(Join(ws))
  {
    if |ws| > 1 {
      JoinPlain(ws[1..]);
    }
  }

  lemma {:induction false} NoBoundaryInPlain(s: string)
    requires Plain(s)
    ensures WithBoundaries(s) == s
  {
    if |s| >= 2 {
      NoBoundaryInPlain(s[1..]);
      assert s == [s[0]] + s[1..];
    }
  }

  /** Normalizing a normalized key changes nothing. */
  lemma {:induction false} NormalizedIdempotent(lower: string -> string, key: string)
    requires KeepsPlain(lower)
    ensures NormalizedKey(lower, NormalizedKey(lower, key)) == NormalizedKey(lower, key)
  {
    var ws := Split(lower(WithBoundaries(key)));
    NormalizedIsJoined(lower, key);
    NormalizedIsJoined(lower, Join(ws));
    JoinPlain(ws);
    NoBoundaryInPlain(Join(ws));
    SplitJoin(ws);
  }

  // ---------------------------------------------------------------------------
  // Sensitivity is a contiguous run of words
  // ---------------------------------------------------------------------------

  ghost predicate RunAt(ws: Words, cs: Words, i: nat) {
    i + |cs| <= |ws| && ws[i..i + |cs|] == cs
  }

  /** `cs` occurs in `ws` as consecutive words. */
  ghost predicate Run(ws: Words, cs: Words) {
    exists i: nat :: i <= |ws| && RunAt(ws, cs, i)
  }

  /** Two texts that agree past their leading words have the same leading word. */
  lemma {:induction false} EqualHeads(w: string, a: string, c: string, b: string)
    requires AllAlnum(w) && AllAlnum(c) && a != [] && b != [] && a[0] == '_' && b[0] == '_'
    requires c + b <= w + a
    ensures w == c && b <= a
  {
    assert (c + b)[|c|] == '_' == (w + a)[|c|];
    assert |w| < |w + a| && (w + a)[|w|] == '_';
    assert |w| < |c + b| ==> (c + b)[|w|] == (w + a)[|w|];
    assert |w| == |c|;
    assert w == (w + a)[..|w|] && c == (c + b)[..|c|];
    assert a == (w + a)[|w|..] && b == (c + b)[|c|..];
  }

  lemma {:induction false} WrappedHeads(w: string, a: string, c: string, b: string)
    requires AllAlnum(w) && AllAlnum(c) && a != [] && b != [] && a[0] == '_' && b[0] == '_'
    ensures "_" + (c + b) <= "_" + (w + a) <==> w == c && b <= a
  {
    if "_" + (c + b) <= "_" + (w + a) {
      Unwrap(c + b, w + a);
      EqualHeads(w, a, c, b);
    }
    if w == c && b <= a {
      SameHead(w, a, b);
      SameHead("_", w + a, c + b);
    }
  }

  lemma {:induction false} WrapUnfolds(ws: Words)
    requires ws != []
    ensures Wrap(ws) == "_" + (ws[0] + Wrap(ws[1..]))
    ensures Wrap(ws[1..]) != [] && Wrap(ws[1..])[0] == '_'
  {
  }

  lemma {:induction false} WrapHeads(ws: Words, cs: Words)
    requires Proper(ws) && Proper(cs) && ws != [] && cs != []
    ensures Wrap(cs) <= Wrap(ws) <==> ws[0] == cs[0] && Wrap(cs[1..]) <= Wrap(ws[1..])
  {
    WrapUnfolds(ws);
    WrapUnfolds(cs);
    WrappedHeads(ws[0], Wrap(ws[1..]), cs[0], Wrap(cs[1..]));
  }

  lemma {:induction false} SameHead(w: string, a: string, b: string)
    requires b <= a
    ensures w + b <= w + a
  {
    assert a == b + a[|b|..];
    assert w + a == (w + b) + a[|b|..];
  }

  lemma {:induction false} RunHeads(ws: Words, cs: Words)
    requires ws != [] && cs != []
    ensures RunAt(ws, cs, 0) <==> ws[0] == cs[0] && RunAt(ws[1..], cs[1..], 0)
  {
    if RunAt(ws, cs, 0) {
      assert ws[..|cs|][0] == cs[0];
      assert ws[1..][..|cs| - 1] == ws[..|cs|][1..] == cs[1..];
    }
    if ws[0] == cs[0] && RunAt(ws[1..], cs[1..], 0) {
      assert ws[..|cs|] == [ws[0]] + ws[1..][..|cs| - 1];
    }
  }

  lemma {:induction false} PrefixWords(ws: Words, cs: Words)
    requires Proper(ws) && Proper(cs)
    ensures Wrap(cs) <= Wrap(ws) <==> RunAt(ws, cs, 0)
  {
    if cs != [] {
      if ws == [] {
        assert |cs[0]| > 0;
      } else {
        PrefixWords(ws[1..], cs[1..]);
        WrapHeads(ws, cs);
        RunHeads(ws, cs);
      }
    }
  }

  lemma {:induction false} Unwrap(a: string, b: string)
    requires "_" + a <= "_" + b
    ensures a <= b
  {
    assert a == ("_" + a)[1..] && b == ("_" + b)[1..];
  }

  /** A part that starts with an underscore cannot start inside the leading word. */
  lemma {:induction false} PastFirstWord(w: string, tail: string, part: string, p: nat)
    requires AllAlnum(w) && part != [] && part[0] == '_' && p > 0
    requires PartAt("_" + w + tail, part, p)
    ensures p >= 1 + |w| && PartAt(tail, part, p - 1 - |w|)
  {
    var whole := "_" + w + tail;
    assert whole[p..p + |part|][0] == whole[p];
    assert forall i :: 1 <= i <= |w| ==> whole[i] == w[i - 1];
    assert p >= 1 + |w|;
    assert tail[p - 1 - |w|..p - 1 - |w| + |part|] == whole[p..p + |part|];
  }

  lemma {:induction false} BeforeFirstWord(w: string, tail: string, part: string, p: nat)
    requires PartAt(tail, part, p)
    ensures PartAt("_" + w + tail, part, 1 + |w| + p)
  {
    var whole := "_" + w + tail;
    assert tail[p..p + |part|] == whole[1 + |w| + p..1 + |w| + p + |part|];
  }

  lemma {:induction false} TailSlice(ws: Words, i: nat, n: nat)
    requires 1 + i + n <= |ws|
    ensures ws[1..][i..i + n] == ws[i + 1..i + 1 + n]
  {
    var a, b := ws[1..][i..i + n], ws[i + 1..i + 1 + n];
    assert forall j :: 0 <= j < n ==> a[j] == ws[1 + i + j] == b[j];
  }

  lemma {:induction false} InsideIsRun(ws: Words, cs: Words, p: nat) returns (k: nat)
    requires Proper(ws) && Proper(cs) && cs != [] && PartAt(Wrap(ws), Wrap(cs), p)
    ensures RunAt(ws, cs, k)
  {
    if p == 0 {
      PrefixWords(ws, cs);
      k := 0;
    } else {
      assert |Wrap(cs)| >= 2;
      PastFirstWord(ws[0], Wrap(ws[1..]), Wrap(cs), p);
      var j := InsideIsRun(ws[1..], cs, p - 1 - |ws[0]|);
      k := j + 1;
      RunAhead(ws, cs, j);
    }
  }

  lemma {:induction false} RunBehind(ws: Words, cs: Words, k: nat)
    requires k > 0 && RunAt(ws, cs, k)
    ensures RunAt(ws[1..], cs, k - 1)
  {
    TailSlice(ws, k - 1, |cs|);
  }

  lemma {:induction false} RunAhead(ws: Words, cs: Words, j: nat)
    requires ws != [] && RunAt(ws[1..], cs, j)
    ensures RunAt(ws, cs, j + 1)
  {
    TailSlice(ws, j, |cs|);
  }

  lemma {:induction false} RunIsInside(ws: Words, cs: Words, k: nat) returns (p: nat)
    requires Proper(ws) && Proper(cs) && cs != [] && RunAt(ws, cs, k)
    ensures PartAt(Wrap(ws), Wrap(cs), p)
    decreases k
  {
    if k == 0 {
      PrefixWords(ws, cs);
      p := 0;
    } else {
      RunBehind(ws, cs, k);
      var q := RunIsInside(ws[1..], cs, k - 1);
      p := 1 + |ws[0]| + q;
      BeforeFirstWord(ws[0], Wrap(ws[1..]), Wrap(cs), q);
    }
  }

  lemma {:induction false} MatchIsInside(n: string, c: string)
    requires MarkerMatches(n, c)
    ensures Inside("_" + n + "_", "_" + c + "_")
  {
    var whole, part := "_" + n + "_", "_" + c + "_";
    if n == c {
      assert PartAt(whole, part, 0);
    } else if StartsWith(n, c + "_") {
      var start := whole[..|part|];
      assert start == ("_" + n)[..|part|];
      assert start == "_" + n[..|c| + 1];
      assert PartAt(whole, part, 0);
    } else if EndsWith(n, "_" + c) {
      var i := |n| - |c|;
      assert whole[i..i + |part|] == n[i - 1..] + "_";
      assert PartAt(whole, part, i);
    } else {
      var i: nat :| i <= |n| && PartAt(n, "_" + c + "_", i);
      assert whole[i + 1..i + 1 + |part|] == n[i..i + |part|];
      assert PartAt(whole, part, i + 1);
    }
  }

  lemma {:induction false} SliceOfSlice(s: string, i: nat, j: nat, a: nat, b: nat)
    requires i <= j <= |s| && a <= b <= j - i
    ensures s[i..j][a..b] == s[i + a..i + b]
  {
    var x, y := s[i..j][a..b], s[i + a..i + b];
    assert forall k :: 0 <= k < |x| ==> x[k] == y[k];
  }

  lemma {:induction false} WrappedSlice(n: string, a: nat, b: nat)
    requires a <= b <= |n|
    ensures ("_" + n + "_")[a + 1..b + 1] == n[a..b]
  {
  }

  lemma {:induction false} InsideIsMatch(n: string, c: string, i: nat)
    requires c != "" && PartAt("_" + n + "_", "_" + c + "_", i)
    ensures MarkerMatches(n, c)
  {
    var whole, part := "_" + n + "_", "_" + c + "_";
    var m := |part|;
    var cut := whole[i..i + m];
    assert cut == part;
    if i == 0 && |c| == |n| {
      SliceOfSlice(whole, 0, m, 1, m - 1);
      WrappedSlice(n, 0, |n|);
      WrappedSlice(c, 0, |c|);
      assert n == n[0..|n|] && c == c[0..|c|];
    } else if i == 0 {
      SliceOfSlice(whole, 0, m, 1, m);
      WrappedSlice(n, 0, |c| + 1);
      assert part[1..m] == c + "_";
    } else if i + m == |whole| {
      SliceOfSlice(whole, i, i + m, 0, m - 1);
      WrappedSlice(n, i - 1, |n|);
      assert part[0..m - 1] == "_" + c;
    } else {
      WrappedSlice(n, i - 1, i - 1 + m);
      assert PartAt(n, part, i - 1);
    }
  }

  /** The four textual tests are one test: the candidate between underscores, inside the key between underscores. */
  lemma {:induction false} FourTests(n: string, c: string)
    requires c != ""
    ensures MarkerMatches(n, c) <==> Inside("_" + n + "_", "_" + c + "_")
  {
    if MarkerMatches(n, c) { MatchIsInside(n, c); }
    if Inside("_" + n + "_", "_" + c + "_") {
      var i: nat :| i <= |"_" + n + "_"| && PartAt("_" + n + "_", "_" + c + "_", i);
      InsideIsMatch(n, c, i);
    }
  }

  /** A marker matches a key exactly when its words occur in the key's words, next to each other. */
  lemma {:induction false} MarkerIsRun(ws: Words, cs: Words)
    requires Proper(ws) && Proper(cs) && cs != []
    ensures MarkerMatches(Join(ws), Join(cs)) <==> Run(ws, cs)
  {
    JoinEnds(cs);
    FourTests(Join(ws), Join(cs));
    WrapIsJoin(cs);
    if ws == [] {
      assert |"_" + Join(ws) + "_"| == 2 && |Join(cs)| >= 1;
      assert !Run(ws, cs);
    } else {
      WrapIsJoin(ws);
      if Inside(Wrap(ws), Wrap(cs)) {
        var p: nat :| p <= |Wrap(ws)| && PartAt(Wrap(ws), Wrap(cs), p);
        var k := InsideIsRun(ws, cs, p);
        assert RunAt(ws, cs, k);
      }
      if Run(ws, cs) {
        var k: nat :| k <= |ws| && RunAt(ws, cs, k);
        var p := RunIsInside(ws, cs, k);
        assert PartAt(Wrap(ws), Wrap(cs), p);
      }
    }
  }

  ghost function WordsOf(lower: string -> string, key: string): (ws: Words) {
    Split(lower(WithBoundaries(key)))
  }

  /**
    A key is a secret exactly when it is not one of the token-usage counters and the
    words of some marker occur in it next to each other.
   */
  lemma {:induction false} SensitiveExactly(lower: string -> string, key: string, markers: seq<string>)
    ensures SensitiveKey(lower, key, markers)
       <==> NormalizedKey(lower, key) !in USAGE_KEYS
            && exists i :: 0 <= i < |markers| && WordsOf(lower, markers[i]) != []
                 && Run(WordsOf(lower, key), WordsOf(lower, markers[i]))
  {
    NormalizedIsJoined(lower, key);
    forall i | 0 <= i < |markers|
      ensures MarkerMatches(NormalizedKey(lower, key), NormalizedKey(lower, markers[i]))
         <==> WordsOf(lower, markers[i]) != [] && Run(WordsOf(lower, key), WordsOf(lower, markers[i]))
    {
      NormalizedIsJoined(lower, markers[i]);
      var cs := WordsOf(lower, markers[i]);
      if cs != [] { MarkerIsRun(WordsOf(lower, key), cs); }
    }
  }
}
