/** Numeric idioms of the Python source, over exact reals. */
module Arithmetic {

  function Abs(x: real): real {
    if x < 0.0 then -x else x
  }

  function Max(a: int, b: int): int {
    if a >= b then a else b
  }

  function Min(a: int, b: int): int {
    if a <= b then a else b
  }

  /** Python's `int(x)` on a float: truncation toward zero. */
  function Truncate(x: real): int {
    if x >= 0.0 then x.Floor else -((-x).Floor)
  }

  /** Python's `round(x)`: to the nearest integer, ties to the even one. */
  function Round(x: real): int {
    var low := x.Floor;
    var rest := x - low as real;
    if rest < 0.5 || (rest == 0.5 && low % 2 == 0) then low else low + 1
  }

  function Sum(xs: seq<real>): real {
    if |xs| == 0 then 0.0 else Sum(xs[..|xs| - 1]) + xs[|xs| - 1]
  }

  function Mean(xs: seq<real>): real
    requires |xs| > 0
  {
    Sum(xs) / |xs| as real
  }

  /** The list `[c - x for x in xs]`: negation for c = 0, the complement of a percentage for c = 100. */
  function Reflect(c: real, xs: seq<real>): seq<real> {
    seq(|xs|, i requires 0 <= i < |xs| => c - xs[i])
  }

  function AbsAll(xs: seq<real>): seq<real> {
    seq(|xs|, i requires 0 <= i < |xs| => Abs(xs[i]))
  }

  lemma {:induction false} SumReflect(c: real, xs: seq<real>)
    ensures Sum(Reflect(c, xs)) == c * |xs| as real - Sum(xs)
  {
    if |xs| == 0 {
    } else {
      var n := |xs| - 1;
      SumReflect(c, xs[..n]);
      assert Reflect(c, xs)[..n] == Reflect(c, xs[..n]);
      OneMore(c, n);
    }
  }

  lemma MeanReflect(c: real, xs: seq<real>)
    requires |xs| > 0
    ensures Mean(Reflect(c, xs)) == c - Mean(xs)
  {
    SumReflect(c, xs);
    var n := |xs| as real;
    assert (c * n - Sum(xs)) / n == c - Sum(xs) / n;
  }

  /** The triangle inequality for a whole list. */
  lemma {:induction false} SumAbs(xs: seq<real>)
    ensures Abs(Sum(xs)) <= Sum(AbsAll(xs))
  {
    if |xs| == 0 {
    } else {
      var n := |xs| - 1;
      SumAbs(xs[..n]);
      assert AbsAll(xs)[..n] == AbsAll(xs[..n]);
    }
  }

  lemma {:induction false} SumAtMost(xs: seq<real>, bound: real)
    requires forall i :: 0 <= i < |xs| ==> xs[i] <= bound
    ensures Sum(xs) <= bound * |xs| as real
  {
    if |xs| == 0 {
    } else {
      var n := |xs| - 1;
      SumAtMost(xs[..n], bound);
      OneMore(bound, n);
      assert xs[n] <= bound;
    }
  }

  lemma OneMore(bound: real, n: nat)
    ensures bound * (n + 1) as real == bound * n as real + bound
  {
  }

  lemma SumBound(xs: seq<real>, bound: real)
    requires forall i :: 0 <= i < |xs| ==> Abs(xs[i]) <= bound
    ensures Abs(Sum(xs)) <= bound * |xs| as real
  {
    SumAtMost(xs, bound);
    SumAtMost(Reflect(0.0, xs), bound);
    SumReflect(0.0, xs);
  }

  lemma MeanBound(xs: seq<real>, bound: real)
    requires |xs| > 0
    requires forall i :: 0 <= i < |xs| ==> Abs(xs[i]) <= bound
    ensures Abs(Mean(xs)) <= bound
  {
    SumBound(xs, bound);
    DivideWithin(Sum(xs), bound, |xs| as real);
  }

  lemma DivideWithin(x: real, bound: real, n: real)
    requires n > 0.0 && Abs(x) <= bound * n
    ensures Abs(x / n) <= bound
  {
    var q := x / n;
    assert q * n == x;
    if q > bound {
      assert q * n > bound * n;
    } else if -q > bound {
      assert -q * n > bound * n;
    }
  }

  lemma TruncateScaled(qty: int, ratio: real)
    requires qty >= 1 && 0.0 <= ratio <= 1.0
    ensures 0 <= Truncate(qty as real * ratio) <= qty
  {
    var x := qty as real * ratio;
    assert 0.0 <= x <= qty as real;
    assert x.Floor as real <= x;
  }

  lemma DropRatio(x: real, v: real)
    requires x > 0.0
    ensures (x - v) / x == 1.0 - v / x
  {
    var a, b := v / x, (x - v) / x;
    assert a * x == v && b * x == x - v;
    assert (a + b - 1.0) * x == 0.0;
    assert a + b == 1.0;
  }

  lemma NegatedRatio(x: real, y: real)
    requires y > 0.0
    ensures (-x) / y == -(x / y)
  {
    var a, b := x / y, (-x) / y;
    assert a * y == x && b * y == -x;
    assert (a + b) * y == 0.0;
  }
}
