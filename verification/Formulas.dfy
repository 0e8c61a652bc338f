/** The textbook formula behind each value of every indicator list, in the prices themselves. */
module Formulas {
  import opened Arithmetic
  import opened Market
  import opened Indicators
  import opened IndicatorLaws
  import opened Wrappers

  /** A list of means: one for each full window. */
  lemma SmaFormula(values: seq<real>, n: nat, j: nat)
    requires n >= 1 && j + n <= |values|
    ensures |Sma(values, n)| == |values| - n + 1 && Sma(values, n)[j] == Sum(values[j..j + n]) / n as real
  {
    RollingAt(MeanAt, values, n, j);
  }

  /** The EMA starts with the plain mean of its first `n` values. */
  lemma EmaSeed(values: seq<real>, n: nat)
    requires n >= 1
    ensures |values| < n ==> Ema(values, n) == []
    ensures |values| == n ==> Ema(values, n) == [Sum(values) / n as real]
  {
  }

  /** Then it moves 2 / (n + 1) of the way to each next value. */
  lemma EmaFormula(values: seq<real>, x: real, n: nat)
    requires 1 <= n <= |values|
    ensures var before, after := Ema(values, n), Ema(values + [x], n);
            var k := |before|;
            && k == |values| - n + 1 && |after| == k + 1 && after[..k] == before
            && (n + 1) as real * (after[k] - before[k - 1]) == 2.0 * (x - before[k - 1])
  {
    assert (values + [x])[..|values|] == values;
    var before := Ema(values, n);
    var last, m := before[|before| - 1], 2.0 / (n + 1) as real;
    assert Ema(values + [x], n) == before + [Smooth(last, x, m)];
    TowardsNext(last, x, m, (n + 1) as real);
  }

  lemma TowardsNext(last: real, x: real, m: real, n: real)
    requires n > 0.0 && m == 2.0 / n
    ensures n * (Smooth(last, x, m) - last) == 2.0 * (x - last)
  {
    assert Smooth(last, x, m) - last == m * (x - last);
    assert n * m == 2.0;
    assert n * (m * (x - last)) == n * m * (x - last);
  }

  lemma DemaFormula(values: seq<real>, n: nat, i: nat)
    requires n >= 1 && i + 2 * n <= |values| + 1
    ensures var once := Ema(values, n);
            var twice := Ema(once, n);
            |Dema(values, n)| == |values| + 2 - 2 * n
                && Dema(values, n)[i] == 2.0 * once[i + n - 1] - twice[i]
  {
    var once := Ema(values, n);
    CombineAt(once[n - 1..], Ema(once, n), i);
  }

  lemma CombineAt(xs: seq<real>, ys: seq<real>, i: nat)
    requires i < |xs| == |ys|
    ensures |Combine(xs, ys)| == |xs| && Combine(xs, ys)[i] == 2.0 * xs[i] - ys[i]
  {
  }

  function TypicalsOf(bars: seq<Candle>, j: nat, n: nat): seq<real>
    requires j + n <= |bars|
  {
    seq(n, i requires 0 <= i < n => (bars[j + i].high + bars[j + i].low + bars[j + i].close) / 3.0)
  }

  function Distances(values: seq<real>, mean: real): seq<real> {
    seq(|values|, i requires 0 <= i < |values| => if values[i] < mean then mean - values[i] else values[i] - mean)
  }

  /** The newest typical price's distance from the mean, in units of 0.015 mean deviations; 0 where that is flat. */
  lemma CciFormula(bars: seq<Candle>, n: nat, j: nat)
    requires n >= 1 && j + n <= |bars|
    ensures var tps := TypicalsOf(bars, j, n);
            var mean := Sum(tps) / n as real;
            var deviation := Sum(Distances(tps, mean)) / n as real;
            && |Cci(bars, n)| == |bars| - n + 1
            && Cci(bars, n)[j] == if deviation < 0.000000001 then 0.0 else (tps[n - 1] - mean) / (0.015 * deviation)
  {
    var tps := TypicalsOf(bars, j, n);
    RollingAt(CciAt, TypicalPrices(bars), n, j);
    assert TypicalPrices(bars)[j..j + n] == tps;
    assert AbsAll(Deviations(tps)) == Distances(tps, Mean(tps));
  }

  /** Where the newest close stands between the lowest low and the highest high of the window; 50 where that is flat. */
  lemma KFormula(bars: seq<Candle>, n: nat, j: nat) returns (high: real, low: real)
    requires n >= 1 && j + n <= |bars|
    ensures (forall i :: j <= i < j + n ==> low <= bars[i].low && bars[i].high <= high)
    ensures (exists i :: j <= i < j + n && bars[i].low == low) && (exists i :: j <= i < j + n && bars[i].high == high)
    ensures |StochasticK(bars, n)| == |bars| - n + 1
    ensures StochasticK(bars, n)[j]
            == if high - low < 0.000000001 then 50.0 else (bars[j + n - 1].close - low) / (high - low) * 100.0
  {
    var window := bars[j..j + n];
    RollingAt(KAt, bars, n, j);
    var top := HighestBounds(window);
    var bottom := LowestBounds(window);
    high, low := Highest(window), Lowest(window);
    assert bars[j + top] == window[top] && bars[j + bottom] == window[bottom];
    forall i | j <= i < j + n ensures low <= bars[i].low && bars[i].high <= high {
      assert bars[i] == window[i - j];
    }
  }

  /** The pivot lows: every bar with both wings whose neighbours are no lower, in order, and no other bar. */
  lemma PivotFormula(bars: seq<Candle>, left: nat, right: nat, i: int, low: real)
    ensures (i, low) in PivotLows(bars, left, right) <==>
            && left <= i < |bars| - right && low == bars[i].low
            && forall k :: i - left <= k <= i + right ==> bars[k].low >= bars[i].low
  {
    PivotsExact(bars, left, right, |bars| - right, i, low);
  }
}
