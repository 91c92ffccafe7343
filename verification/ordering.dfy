/** Python's `sorted` on a set of strings: strings are ordered
    lexicographically by code point, and the sorted list of a set is the
    unique strictly increasing sequence holding exactly its elements. */
module Ordering {

  /** Python's `a < b` on strings: lexicographic order on code points, with a
      proper prefix ordered before the longer string. */
  predicate Less(a: string, b: string) {
    |b| > 0 && (|a| == 0 || a[0] < b[0] || (a[0] == b[0] && Less(a[1..], b[1..])))
  }

  lemma {:induction false} LessIrreflexive(a: string)
    ensures !Less(a, a)
  {
    if |a| > 0 {
      LessIrreflexive(a[1..]);
    }
  }

  lemma {:induction false} LessTransitive(a: string, b: string, c: string)
    requires Less(a, b) && Less(b, c)
    ensures Less(a, c)
  {
    if |a| > 0 && a[0] == b[0] && b[0] == c[0] {
      LessTransitive(a[1..], b[1..], c[1..]);
    }
  }

  /** Any two different strings are ordered one way or the other. */
  lemma {:induction false} LessTotal(a: string, b: string)
    requires a != b
    ensures Less(a, b) || Less(b, a)
  {
    if |a| > 0 && |b| > 0 && a[0] == b[0] {
      assert a == [a[0]] + a[1..] && b == [b[0]] + b[1..];
      LessTotal(a[1..], b[1..]);
    }
  }

  /** Strictly increasing, hence also free of duplicates. */
  ghost predicate StrictlySorted(xs: seq<string>) {
    forall i, j :: 0 <= i < j < |xs| ==> Less(xs[i], xs[j])
  }

  /** Inserts `x` into a strictly increasing sequence that lacks it. */
  function Insert(xs: seq<string>, x: string): (r: seq<string>)
    requires StrictlySorted(xs) && x !in xs
    ensures StrictlySorted(r)
    ensures |r| == |xs| + 1
    ensures forall y :: y in r <==> y in xs || y == x
  {
    if |xs| == 0 then [x]
    else if Less(x, xs[0]) then
      assert forall j :: 0 < j < |xs| ==> Less(x, xs[j]) by {
        forall j | 0 < j < |xs| ensures Less(x, xs[j]) {
          LessTransitive(x, xs[0], xs[j]);
        }
      }
      [x] + xs
    else
      LessTotal(x, xs[0]);
      var rest := Insert(xs[1..], x);
      assert forall y :: y in rest ==> Less(xs[0], y);
      [xs[0]] + rest
  }

  /** The least element of a non-empty set of strings. */
  ghost function Least(s: set<string>): (m: string)
    requires s != {}
    ensures m in s
    ensures forall y :: y in s && y != m ==> Less(m, y)
  {
    var x :| x in s;
    if s == {x} then x
    else
      var m' := Least(s - {x});
      if Less(x, m') then
        assert forall y :: y in s - {x} && y != m' ==> Less(x, y) by {
          forall y | y in s - {x} && y != m' ensures Less(x, y) {
            LessTransitive(x, m', y);
          }
        }
        x
      else
        LessTotal(x, m');
        m'
  }

  /** The sorted list of a set: what Python's `sorted(s)` returns. */
  ghost function SortedOf(s: set<string>): (xs: seq<string>)
    ensures StrictlySorted(xs)
    ensures forall y :: y in xs <==> y in s
    decreases s
  {
    if s == {} then []
    else
      var m := Least(s);
      [m] + SortedOf(s - {m})
  }

  lemma {:induction false} LessAsymmetric(a: string, b: string)
    ensures Less(a, b) ==> !Less(b, a)
  {
    if |a| > 0 && |b| > 0 && a[0] == b[0] {
      LessAsymmetric(a[1..], b[1..]);
    }
  }

  /** The head of a strictly increasing sequence is below all its other elements. */
  lemma HeadIsLeast(xs: seq<string>, y: string)
    requires StrictlySorted(xs) && y in xs
    ensures y == xs[0] || Less(xs[0], y)
  {
  }

  /** Two strictly increasing sequences with the same elements are equal, so
      the sorted rendering of a set depends on the set alone. */
  lemma {:induction false} SortedUnique(xs: seq<string>, ys: seq<string>)
    requires StrictlySorted(xs) && StrictlySorted(ys)
    requires forall y :: y in xs <==> y in ys
    ensures xs == ys
  {
    assert |xs| > 0 ==> xs[0] in ys;
    assert |ys| > 0 ==> ys[0] in xs;
    if |xs| > 0 && |ys| > 0 {
      HeadIsLeast(ys, xs[0]);
      HeadIsLeast(xs, ys[0]);
      LessAsymmetric(xs[0], ys[0]);
      assert xs[0] == ys[0];
      assert xs == [xs[0]] + xs[1..] && ys == [ys[0]] + ys[1..];
      forall y ensures y in xs[1..] <==> y in ys[1..] {
        LessIrreflexive(y);
        if y in xs[1..] {
          var i :| 0 <= i < |xs[1..]| && xs[1..][i] == y;
          assert Less(xs[0], xs[i + 1]);
          assert y in ys && y != ys[0];
        }
        if y in ys[1..] {
          var i :| 0 <= i < |ys[1..]| && ys[1..][i] == y;
          assert Less(ys[0], ys[i + 1]);
          assert y in xs && y != xs[0];
        }
      }
      SortedUnique(xs[1..], ys[1..]);
    }
  }

  /** Python's `sorted(s)` for a set `s` of strings, computed by repeated
      insertion; the result is the canonical sorted list of `s`. */
  method SortSet(s: set<string>) returns (xs: seq<string>)
    ensures xs == SortedOf(s)
    ensures |xs| == |s|
  {
    xs := [];
    var rest := s;
    while rest != {}
      invariant rest <= s
      invariant StrictlySorted(xs)
      invariant forall y :: y in xs <==> y in s - rest
      invariant |xs| + |rest| == |s|
      decreases rest
    {
      var x :| x in rest;
      xs := Insert(xs, x);
      rest := rest - {x};
    }
    SortedUnique(xs, SortedOf(s));
  }
}
