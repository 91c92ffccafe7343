/** The handful of Python string operations the scraper relies on, over
    `seq<char>`: `strip()`, `split(c, 1)[0]`, `replace(c, t)`, substring `in`,
    `isdigit()` with `int()`, and `sep.join(parts)`. Only ASCII is modelled. */
module Text {

  /** The ASCII characters that Python's argument-less `str.strip()` treats
      as whitespace: tab, line feed, vertical tab, form feed, carriage return,
      the four information separators 0x1C-0x1F, and space. */
  predicate IsSpace(c: char) {
    9 <= c as int <= 13 || 28 <= c as int <= 32
  }

  /** Removes leading whitespace. */
  function TrimLeft(s: string): (r: string)
    ensures |r| <= |s| && r == s[|s| - |r|..]
    ensures forall i :: 0 <= i < |s| - |r| ==> IsSpace(s[i])
    ensures |r| > 0 ==> !IsSpace(r[0])
  {
    if |s| > 0 && IsSpace(s[0]) then TrimLeft(s[1..]) else s
  }

  /** Removes trailing whitespace. */
  function TrimRight(s: string): (r: string)
    ensures |r| <= |s| && r == s[..|r|]
    ensures forall i :: |r| <= i < |s| ==> IsSpace(s[i])
    ensures |r| > 0 ==> !IsSpace(r[|r| - 1])
  {
    if |s| > 0 && IsSpace(s[|s| - 1]) then TrimRight(s[..|s| - 1]) else s
  }

  /** Python's `s.strip()`: the result is the contiguous middle of `s` left
      after removing whitespace from both ends; it neither starts nor ends
      with whitespace, and a string that already does neither is unchanged. */
  function Strip(s: string): (r: string)
    ensures |r| <= |s|
    ensures |r| > 0 ==> !IsSpace(r[0]) && !IsSpace(r[|r| - 1])
    ensures (|s| == 0 || (!IsSpace(s[0]) && !IsSpace(s[|s| - 1]))) ==> r == s
  {
    var l := TrimLeft(s);
    var r := TrimRight(l);
    assert r == l[..|r|];
    assert |s| > 0 && !IsSpace(s[0]) ==> l == s;
    r
  }

  /** Stripping removes only whitespace, and only at the two ends: the result
      is the slice of `s` between a run of leading and a run of trailing
      whitespace. */
  lemma StripKeepsMiddle(s: string)
    returns (k: nat)
    ensures k + |Strip(s)| <= |s|
    ensures Strip(s) == s[k..k + |Strip(s)|]
    ensures forall i :: 0 <= i < k ==> IsSpace(s[i])
    ensures forall i :: k + |Strip(s)| <= i < |s| ==> IsSpace(s[i])
  {
    var l := TrimLeft(s);
    var r := TrimRight(l);
    k := |s| - |l|;
    assert Strip(s) == r;
    SpacesAfterPrefix(s, k, l, r);
  }

  /** If `l` is `s` from `k` on and `r` a prefix of `l` followed only by
      whitespace, then `r` sits at `k` in `s` and only whitespace follows it. */
  lemma SpacesAfterPrefix(s: string, k: nat, l: string, r: string)
    requires k <= |s| && l == s[k..]
    requires |r| <= |l| && r == l[..|r|]
    requires forall i :: |r| <= i < |l| ==> IsSpace(l[i])
    ensures k + |r| <= |s| && r == s[k..k + |r|]
    ensures forall i :: k + |r| <= i < |s| ==> IsSpace(s[i])
  {
    assert s[k..][..|r|] == s[k..k + |r|];
    forall i | k + |r| <= i < |s|
      ensures IsSpace(s[i])
    {
      assert s[i] == l[i - k];
    }
  }

  /** Stripping introduces no character. */
  lemma StripSubset(s: string)
    ensures forall x :: x in Strip(s) ==> x in s
  {
    var _ := StripKeepsMiddle(s);
  }

  /** Stripping twice is stripping once. */
  lemma StripIdempotent(s: string)
    ensures Strip(Strip(s)) == Strip(s)
  {
  }

  /** Python's `s.split(c, 1)[0]`: the part of `s` before the first `c`,
      or all of `s` when there is no `c`. */
  function BeforeFirst(s: string, c: char): (r: string)
    ensures c !in r
    ensures r <= s
    ensures c in s ==> |r| < |s| && s[|r|] == c
    ensures c !in s ==> r == s
  {
    if |s| == 0 then s
    else if s[0] == c then []
    else [s[0]] + BeforeFirst(s[1..], c)
  }

  /** The three facts `BeforeFirst` promises pin its result down: any prefix
      of `s` free of `c` that is either all of `s` or stops at a `c` is it. */
  lemma {:induction false} BeforeFirstUnique(s: string, c: char, p: string)
    requires p <= s && c !in p
    requires p == s || s[|p|] == c
    ensures p == BeforeFirst(s, c)
  {
    if |s| > 0 && s[0] != c {
      assert |p| > 0 && p[0] == s[0];
      BeforeFirstUnique(s[1..], c, p[1..]);
      assert p == [s[0]] + p[1..];
    }
  }

  /** Python's `s.replace(c, t)` for a one-character pattern: every `c` is
      replaced by `t` and every other character is kept. With
      `ReplaceCharAppend`, the one-character case fixes the whole function. */
  function ReplaceChar(s: string, c: char, t: string): (r: string)
    ensures |s| == 1 && s[0] == c ==> r == t
    ensures |s| == 1 && s[0] != c ==> r == s
    ensures c !in t ==> c !in r
    ensures c !in s ==> r == s
    ensures forall x :: x in r ==> x in t || (x in s && x != c)
    ensures forall x :: x in s && x != c ==> x in r
  {
    if |s| == 0 then []
    else (if s[0] == c then t else [s[0]]) + ReplaceChar(s[1..], c, t)
  }

  /** Replacement works piecewise: replacing in a concatenation is the
      concatenation of the replacements. */
  lemma {:induction false} ReplaceCharAppend(a: string, b: string, c: char, t: string)
    ensures ReplaceChar(a + b, c, t) == ReplaceChar(a, c, t) + ReplaceChar(b, c, t)
  {
    if |a| > 0 {
      var head := if a[0] == c then t else [a[0]];
      assert (a + b)[0] == a[0];
      assert (a + b)[1..] == a[1..] + b;
      ReplaceCharAppend(a[1..], b, c, t);
      calc {
        ReplaceChar(a + b, c, t);
        head + ReplaceChar(a[1..] + b, c, t);
        head + (ReplaceChar(a[1..], c, t) + ReplaceChar(b, c, t));
        (head + ReplaceChar(a[1..], c, t)) + ReplaceChar(b, c, t);
      }
    } else {
      assert a + b == b;
    }
  }

  /** `sub` occurs in `s` starting at index `i`. */
  ghost predicate OccursAt(s: string, sub: string, i: int) {
    0 <= i && i + |sub| <= |s| && s[i..i + |sub|] == sub
  }

  /** Python's substring test `sub in s`. */
  predicate Contains(s: string, sub: string)
    decreases |s|
  {
    sub <= s || (|s| > 0 && Contains(s[1..], sub))
  }

  /** An occurrence at any position makes the recursive test succeed. */
  lemma {:induction false} OccursImpliesContains(s: string, sub: string, i: int)
    requires OccursAt(s, sub, i)
    ensures Contains(s, sub)
    decreases i
  {
    if i > 0 {
      assert s[1..][i - 1..i - 1 + |sub|] == s[i..i + |sub|];
      OccursImpliesContains(s[1..], sub, i - 1);
    }
  }

  /** The recursive substring test agrees with the positional definition. */
  lemma {:induction false} ContainsIffOccurs(s: string, sub: string)
    ensures Contains(s, sub) <==> exists i :: OccursAt(s, sub, i)
    decreases |s|
  {
    if sub <= s {
      assert OccursAt(s, sub, 0);
    } else if |s| > 0 && Contains(s[1..], sub) {
      ContainsIffOccurs(s[1..], sub);
      var i :| OccursAt(s[1..], sub, i);
      assert s[i + 1..i + 1 + |sub|] == s[1..][i..i + |sub|];
      assert OccursAt(s, sub, i + 1);
    }
    forall i | OccursAt(s, sub, i)
      ensures Contains(s, sub)
    {
      OccursImpliesContains(s, sub, i);
    }
  }

  /** An ASCII decimal digit. */
  predicate IsDigit(c: char) {
    '0' <= c <= '9'
  }

  /** Python's `s.isdigit()` restricted to ASCII: non-empty and all digits. */
  predicate IsDigits(s: string) {
    |s| > 0 && forall i :: 0 <= i < |s| ==> IsDigit(s[i])
  }

  /** The value of a decimal digit. */
  function DigitValue(c: char): (d: nat)
    requires IsDigit(c)
    ensures d < 10
  {
    c as int - '0' as int
  }

  /** Python's `int(s)` on a string of decimal digits (leading zeros allowed). */
  function ParseNat(s: string): (n: nat)
    requires forall i :: 0 <= i < |s| ==> IsDigit(s[i])
  {
    if |s| == 0 then 0
    else 10 * ParseNat(s[..|s| - 1]) + DigitValue(s[|s| - 1])
  }

  /** The decimal rendering of `n` without leading zeros. */
  function ShowNat(n: nat): (s: string)
    ensures IsDigits(s)
    ensures |s| > 1 ==> s[0] != '0'
  {
    if n < 10 then [('0' as int + n) as char]
    else ShowNat(n / 10) + [('0' as int + n % 10) as char]
  }

  /** Reading back the rendering of a number gives the number. */
  lemma {:induction false} ParseShowNat(n: nat)
    ensures ParseNat(ShowNat(n)) == n
  {
    if n >= 10 {
      var s := ShowNat(n);
      assert s[..|s| - 1] == ShowNat(n / 10);
      ParseShowNat(n / 10);
    }
  }

  /** Python's `sep.join(parts)`. */
  function Join(parts: seq<string>, sep: string): (r: string)
    ensures |parts| == 0 ==> r == []
    ensures |parts| == 1 ==> r == parts[0]
    ensures |parts| > 0 ==> parts[0] <= r
  {
    if |parts| == 0 then []
    else if |parts| == 1 then parts[0]
    else parts[0] + sep + Join(parts[1..], sep)
  }

  /** Joining two non-empty runs of parts puts one separator between them. */
  lemma {:induction false} JoinAppend(a: seq<string>, b: seq<string>, sep: string)
    requires |a| > 0 && |b| > 0
    ensures Join(a + b, sep) == Join(a, sep) + sep + Join(b, sep)
  {
    if |a| > 1 {
      assert (a + b)[1..] == a[1..] + b;
      JoinAppend(a[1..], b, sep);
    } else {
      assert (a + b)[1..] == b;
    }
  }
}
