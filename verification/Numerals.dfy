/** Fixed-width positional numerals, most significant digit first, and their lexicographic order. */
module Numerals {

  function Value(base: nat, d: seq<nat>): nat {
    if d == [] then 0 else Value(base, d[..|d| - 1]) * base + d[|d| - 1]
  }

  predicate Proper(base: nat, d: seq<nat>) { forall i | 0 <= i < |d| :: d[i] < base }

  /** The `n` lowest digits of `v`. */
  function Digits(base: nat, n: nat, v: nat): (d: seq<nat>)
    requires base > 0
    ensures |d| == n && Proper(base, d)
  {
    if n == 0 then [] else Digits(base, n - 1, v / base) + [v % base]
  }

  function Pow(base: nat, n: nat): nat { if n == 0 then 1 else Pow(base, n - 1) * base }

  lemma ScaledLess(a: nat, b: nat, base: nat, x: nat, y: nat)
    requires a < b && x < base
    ensures a * base + x < b * base + y
  {
    assert (a + 1) * base <= b * base;
  }

  lemma DivModSum(v: nat, base: nat)
    requires base > 0
    ensures (v / base) * base + v % base == v
  {
  }

  lemma DivSmaller(v: nat, base: nat, p: nat)
    requires base > 0 && v < p * base
    ensures v / base < p
  {
    DivModSum(v, base);
  }

  lemma {:induction false} ValueOfDigits(base: nat, n: nat, v: nat)
    requires base > 0 && v < Pow(base, n)
    ensures Value(base, Digits(base, n, v)) == v
  {
    if n > 0 {
      var q, r := v / base, v % base;
      DivSmaller(v, base, Pow(base, n - 1));
      ValueOfDigits(base, n - 1, q);
      ValueAppend(base, Digits(base, n - 1, q), r);
      DivModSum(v, base);
    }
  }

  lemma ValueAppend(base: nat, d: seq<nat>, x: nat)
    ensures Value(base, d + [x]) == Value(base, d) * base + x
  {
    assert (d + [x])[..|d|] == d;
  }

  lemma QuotientUnique(base: nat, q: nat, r: nat, v: nat)
    requires r < base && v == q * base + r
    ensures v / base == q && v % base == r
  {
    DivModSum(v, base);
    if v / base < q {
      ScaledLess(v / base, q, base, v % base, r);
    } else if v / base > q {
      ScaledLess(q, v / base, base, r, v % base);
    }
  }

  lemma {:induction false} ValueBound(base: nat, d: seq<nat>)
    requires base > 0 && Proper(base, d)
    ensures Value(base, d) < Pow(base, |d|)
  {
    if d != [] {
      var init := d[..|d| - 1];
      ValueBound(base, init);
      ScaledLess(Value(base, init), Pow(base, |init|), base, d[|d| - 1], 0);
    }
  }

  lemma {:induction false} DigitsOfValue(base: nat, d: seq<nat>)
    requires base > 0 && Proper(base, d)
    ensures Digits(base, |d|, Value(base, d)) == d
  {
    if d != [] {
      var init := d[..|d| - 1];
      QuotientUnique(base, Value(base, init), d[|d| - 1], Value(base, d));
      DigitsOfValue(base, init);
      assert d == init + [d[|d| - 1]];
    }
  }

  /** Lexicographic order as used by the object store and the database. */
  ghost predicate LexLess(d: seq<nat>, e: seq<nat>) {
    (|d| < |e| && d == e[..|d|]) || exists k :: DiffersAt(d, e, k) && d[k] < e[k]
  }

  predicate DiffersAt(d: seq<nat>, e: seq<nat>, k: int) {
    0 <= k < |d| && k < |e| && d[..k] == e[..k]
  }

  lemma {:induction false} LessByFirstDifference(base: nat, d: seq<nat>, e: seq<nat>, k: nat)
    requires base > 0 && Proper(base, d) && Proper(base, e) && |d| == |e|
    requires DiffersAt(d, e, k) && d[k] < e[k]
    ensures Value(base, d) < Value(base, e)
    decreases |d|
  {
    var n := |d|;
    var d', e' := d[..n - 1], e[..n - 1];
    if k == n - 1 {
      assert d' == e';
    } else {
      assert d'[..k] == d[..k] && e'[..k] == e[..k];
      LessByFirstDifference(base, d', e', k);
      ScaledLess(Value(base, d'), Value(base, e'), base, d[n - 1], e[n - 1]);
    }
  }

  lemma {:induction false} FirstDifference(d: seq<nat>, e: seq<nat>) returns (k: nat)
    requires |d| == |e| && d != e
    ensures DiffersAt(d, e, k) && d[k] != e[k]
    decreases |d|
  {
    var n := |d|;
    if d[..n - 1] == e[..n - 1] {
      assert d == d[..n - 1] + [d[n - 1]] && e == e[..n - 1] + [e[n - 1]];
      k := n - 1;
    } else {
      k := FirstDifference(d[..n - 1], e[..n - 1]);
      assert d[..n - 1][..k] == d[..k] && e[..n - 1][..k] == e[..k];
    }
  }

  /** On proper numerals of one length, lexicographic order is numeric order. */
  lemma OrderAgrees(base: nat, d: seq<nat>, e: seq<nat>)
    requires base > 0 && Proper(base, d) && Proper(base, e) && |d| == |e|
    ensures LexLess(d, e) <==> Value(base, d) < Value(base, e)
  {
    if LexLess(d, e) {
      var k :| DiffersAt(d, e, k) && d[k] < e[k];
      LessByFirstDifference(base, d, e, k);
    }
    if Value(base, d) < Value(base, e) {
      var k := FirstDifference(d, e);
      if d[k] > e[k] { LessByFirstDifference(base, e, d, k); }
    }
  }

  /** The same for the digits of two numbers. */
  lemma DigitsOrder(base: nat, n: nat, u: nat, v: nat)
    requires base > 0 && u < Pow(base, n) && v < Pow(base, n)
    ensures LexLess(Digits(base, n, u), Digits(base, n, v)) <==> u < v
  {
    ValueOfDigits(base, n, u);
    ValueOfDigits(base, n, v);
    OrderAgrees(base, Digits(base, n, u), Digits(base, n, v));
  }
}
