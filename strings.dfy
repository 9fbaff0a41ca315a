/**
 * String helpers the registry relies on: Python's ordering of `str` values,
 * fixed-width zero-padded decimal fields (as `strftime` writes them), suffix
 * tests, and `sorted()` on a list of names.
 */
module Strings {

  /** Python's `a < b` on `str`: code-point order, a proper prefix first. */
  predicate LexLess(a: string, b: string)
    decreases |a|
  {
    if |a| == 0 then |b| > 0
    else if |b| == 0 then false
    else a[0] < b[0] || (a[0] == b[0] && LexLess(a[1..], b[1..]))
  }

  /** Python's `a <= b` on `str`. */
  predicate LexLeq(a: string, b: string) {
    a == b || LexLess(a, b)
  }

  lemma {:induction false} LexLessIrreflexive(a: string)
    ensures !LexLess(a, a)
  {
    if |a| > 0 {
      LexLessIrreflexive(a[1..]);
    }
  }

  lemma {:induction false} LexLessTransitive(a: string, b: string, c: string)
    requires LexLess(a, b) && LexLess(b, c)
    ensures LexLess(a, c)
  {
    if |a| > 0 && |b| > 0 && |c| > 0 && a[0] == b[0] && b[0] == c[0] {
      LexLessTransitive(a[1..], b[1..], c[1..]);
    }
  }

  lemma {:induction false} LexLessTotal(a: string, b: string)
    ensures a == b || LexLess(a, b) || LexLess(b, a)
  {
    if |a| > 0 && |b| > 0 && a[0] == b[0] {
      LexLessTotal(a[1..], b[1..]);
      if a[1..] == b[1..] {
        assert a == [a[0]] + a[1..] && b == [b[0]] + b[1..];
      }
    }
  }

  lemma LexLeqTransitive(a: string, b: string, c: string)
    requires LexLeq(a, b) && LexLeq(b, c)
    ensures LexLeq(a, c)
  {
    if a != b && b != c {
      LexLessTransitive(a, b, c);
    }
  }

  /** `<=` is total, as `sorted()` needs. */
  lemma LexLeqTotal(a: string, b: string)
    ensures LexLeq(a, b) || LexLeq(b, a)
  {
    LexLessTotal(a, b);
  }

  /**
   * Comparing two concatenations whose first parts have the same length
   * compares the first parts, and the second parts only when the first
   * parts are equal.
   */
  lemma {:induction false} LexLessAppend(a: string, b: string, x: string, y: string)
    requires |a| == |b|
    ensures LexLess(a + x, b + y) <==> LexLess(a, b) || (a == b && LexLess(x, y))
    ensures a + x == b + y <==> a == b && x == y
  {
    if |a| == 0 {
      assert a + x == x && b + y == y;
    } else {
      assert (a + x)[0] == a[0] && (a + x)[1..] == a[1..] + x;
      assert (b + y)[0] == b[0] && (b + y)[1..] == b[1..] + y;
      LexLessAppend(a[1..], b[1..], x, y);
      if a + x == b + y {
        assert a == (a + x)[..|a|] && b == (b + y)[..|b|];
        assert x == (a + x)[|a|..] && y == (b + y)[|b|..];
      }
      if a[0] == b[0] && a[1..] == b[1..] {
        assert a == [a[0]] + a[1..] && b == [b[0]] + b[1..];
      }
      if a == b {
        assert a[1..] == b[1..];
      }
    }
  }

  /** `s.startswith(prefix)`. */
  predicate StartsWith(s: string, prefix: string) {
    |prefix| <= |s| && s[..|prefix|] == prefix
  }

  /** `s.endswith(suffix)`. */
  predicate EndsWith(s: string, suffix: string) {
    |suffix| <= |s| && s[|s| - |suffix|..] == suffix
  }

  function Pow10(w: nat): (p: nat)
    ensures p >= 1
  {
    if w == 0 then 1 else 10 * Pow10(w - 1)
  }

  predicate IsDigit(c: char) {
    '0' <= c <= '9'
  }

  function DigitChar(d: nat): (c: char)
    requires d < 10
    ensures IsDigit(c)
  {
    ('0' as int + d) as char
  }

  /**
   * The `w` lowest decimal digits of `n`, most significant first and padded
   * with zeros on the left: what `%04d` (width 4) or `%02d` (width 2) print
   * for a number below 10^w.
   */
  function Digits(n: nat, w: nat): (s: string)
    ensures |s| == w
    ensures forall i :: 0 <= i < |s| ==> IsDigit(s[i])
  {
    if w == 0 then [] else Digits(n / 10, w - 1) + [DigitChar(n % 10)]
  }

  lemma DivLt(n: nat, w: nat)
    requires w > 0 && n < Pow10(w)
    ensures n / 10 < Pow10(w - 1)
  {
  }

  /**
   * For numbers that fit the width, string order of the padded fields is
   * numeric order, and equal fields mean equal numbers.
   */
  lemma {:induction false} DigitsOrder(n: nat, m: nat, w: nat)
    requires n < Pow10(w) && m < Pow10(w)
    ensures LexLess(Digits(n, w), Digits(m, w)) <==> n < m
    ensures Digits(n, w) == Digits(m, w) <==> n == m
  {
    if w > 0 {
      DivLt(n, w);
      DivLt(m, w);
      DigitsOrder(n / 10, m / 10, w - 1);
      var hn, hm := Digits(n / 10, w - 1), Digits(m / 10, w - 1);
      var cn, cm := [DigitChar(n % 10)], [DigitChar(m % 10)];
      LexLessAppend(hn, hm, cn, cm);
      assert LexLess(cn, cm) <==> n % 10 < m % 10 by {
        assert cn[1..] == [] && cm[1..] == [];
      }
      assert n == 10 * (n / 10) + n % 10;
      assert m == 10 * (m / 10) + m % 10;
    }
  }

  /** Ascending under Python's `<=` on `str`. */
  predicate Sorted(s: seq<string>) {
    forall i, j :: 0 <= i < j < |s| ==> LexLeq(s[i], s[j])
  }

  function Insert(x: string, s: seq<string>): (r: seq<string>)
    requires Sorted(s)
    ensures Sorted(r)
    ensures multiset(r) == multiset(s) + multiset{x}
  {
    if s == [] then [x]
    else if LexLeq(x, s[0]) then
      assert forall j :: 0 <= j < |s| ==> LexLeq(x, s[j]) by {
        forall j | 0 <= j < |s| ensures LexLeq(x, s[j]) {
          if j > 0 { LexLeqTransitive(x, s[0], s[j]); }
        }
      }
      [x] + s
    else
      var t := Insert(x, s[1..]);
      assert s == [s[0]] + s[1..];
      LexLeqTotal(x, s[0]);
      assert forall e :: e in multiset(t) ==> LexLeq(s[0], e) by {
        forall e | e in multiset(t) ensures LexLeq(s[0], e) {
          if e != x {
            assert e in multiset(s[1..]);
            var j :| 0 <= j < |s[1..]| && s[1..][j] == e;
            assert s[j + 1] == e;
          }
        }
      }
      assert forall j :: 0 <= j < |t| ==> LexLeq(s[0], t[j]) by {
        forall j | 0 <= j < |t| ensures LexLeq(s[0], t[j]) {
          assert t[j] in multiset(t);
        }
      }
      [s[0]] + t
  }

  /** Python's `sorted()` on a list of names: ascending, duplicates kept. */
  function Sort(s: seq<string>): (r: seq<string>)
    ensures Sorted(r)
    ensures multiset(r) == multiset(s)
  {
    if s == [] then []
    else
      assert s == [s[0]] + s[1..];
      Insert(s[0], Sort(s[1..]))
  }

  /** No name occurs twice. */
  predicate Distinct(s: seq<string>) {
    forall i, j :: 0 <= i < j < |s| ==> s[i] != s[j]
  }

  /** A sorted list without repetitions is strictly ascending. */
  lemma SortedDistinctAscending(s: seq<string>)
    requires Sorted(s) && Distinct(s)
    ensures forall i, j :: 0 <= i < j < |s| ==> LexLess(s[i], s[j])
  {
  }
}
