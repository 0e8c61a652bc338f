/**
 The indicators of core/strategy/indicators: what each list is, position by position, and the
 source's loops proved to build exactly that list.
 */
module Indicators {
  import opened Arithmetic
  import opened Market
  import opened Wrappers

  /** Widths below this count as flat, both for the CCI deviation and the Stochastic range. */
  const FLAT: real := 0.000000001

  /** One value per full window, oldest first: what every windowed list of this package is. */
  function Rolling<A, B>(f: seq<A> -> B, xs: seq<A>, period: nat): (r: seq<B>)
    requires period >= 1
    ensures |r| == if |xs| < period then 0 else |xs| - period + 1
  {
    if |xs| < period then []
    else seq(|xs| - period + 1, j requires 0 <= j <= |xs| - period => f(xs[j..j + period]))
  }

  lemma RollingAt<A, B>(f: seq<A> -> B, xs: seq<A>, period: nat, j: nat)
    requires period >= 1 && j + period <= |xs|
    ensures Rolling(f, xs, period)[j] == f(xs[j..j + period])
  {
  }

  /** A list built window by window, in a loop over the newest bar of each. */
  lemma RollingNext<A, B>(f: seq<A> -> B, xs: seq<A>, period: nat, r: seq<B>, value: B)
    requires period >= 1 && |r| + period <= |xs|
    requires r == Rolling(f, xs, period)[..|r|] && value == f(xs[|r|..|r| + period])
    ensures r + [value] == Rolling(f, xs, period)[..|r| + 1]
  {
    RollingAt(f, xs, period, |r|);
  }

  // ----- moving averages (ma.py, dema.py)

  function MeanAt(window: seq<real>): real {
    if window == [] then 0.0 else Mean(window)
  }

  /** The moving average; the CCI signal line and %D are the same list. */
  function Sma(values: seq<real>, period: nat): seq<real>
    requires period >= 1
  {
    Rolling(MeanAt, values, period)
  }

  /** One exponential smoothing step. */
  function Smooth(last: real, value: real, multiplier: real): real {
    value * multiplier + last * (1.0 - multiplier)
  }

  function Ema(values: seq<real>, period: nat): (r: seq<real>)
    requires period >= 1
    ensures |r| == if |values| < period then 0 else |values| - period + 1
  {
    if |values| < period then []
    else if |values| == period then [Mean(values)]
    else
      var before := Ema(values[..|values| - 1], period);
      before + [Smooth(before[|before| - 1], values[|values| - 1], 2.0 / (period + 1) as real)]
  }

  /** 2 * EMA - EMA(EMA), the two lists aligned at the newest value. */
  function Dema(values: seq<real>, period: nat): seq<real>
    requires period >= 1
  {
    var ema1 := Ema(values, period);
    if |ema1| < period then []
    else Combine(ema1[period - 1..], Ema(ema1, period))
  }

  /** 2 * x - y, position by position. */
  function Combine(xs: seq<real>, ys: seq<real>): seq<real>
    requires |xs| == |ys|
  {
    seq(|xs|, i requires 0 <= i < |xs| => 2.0 * xs[i] - ys[i])
  }

  predicate SlopeUp(dema: seq<real>) {
    var n := |dema|;
    n >= 3 && dema[n - 1] - dema[n - 2] > dema[n - 2] - dema[n - 3]
  }

  predicate SlopeDown(dema: seq<real>) {
    var n := |dema|;
    n >= 3 && dema[n - 1] - dema[n - 2] < dema[n - 2] - dema[n - 3]
  }

  // ----- commodity channel index (cci.py)

  function TypicalPrice(c: Candle): real {
    (c.high + c.low + c.close) / 3.0
  }

  function TypicalPrices(cs: seq<Candle>): seq<real> {
    seq(|cs|, i requires 0 <= i < |cs| => TypicalPrice(cs[i]))
  }

  /** The distances of a window's values from its mean, signed. */
  function Deviations(window: seq<real>): seq<real>
    requires |window| > 0
  {
    Reflect(0.0, Reflect(Mean(window), window))
  }

  function MeanDeviation(window: seq<real>): real
    requires |window| > 0
  {
    Mean(AbsAll(Deviations(window)))
  }

  function CciAt(window: seq<real>): real {
    if window == [] then 0.0
    else
      var md := MeanDeviation(window);
      if md < FLAT then 0.0 else (window[|window| - 1] - Mean(window)) / (0.015 * md)
  }

  function CciOf(tps: seq<real>, period: nat): seq<real>
    requires period >= 1
  {
    Rolling(CciAt, tps, period)
  }

  function Cci(cs: seq<Candle>, period: nat): seq<real>
    requires period >= 1
  {
    CciOf(TypicalPrices(cs), period)
  }

  predicate GoldenCross(cci: seq<real>, signal: seq<real>) {
    var n := |cci|;
    n == |signal| && n >= 2 && cci[n - 2] <= signal[n - 2] && cci[n - 1] > signal[n - 1]
  }

  predicate DeadCross(cci: seq<real>, signal: seq<real>) {
    var n := |cci|;
    n == |signal| && n >= 2 && cci[n - 2] >= signal[n - 2] && cci[n - 1] < signal[n - 1]
  }

  // ----- stochastic (stochastic.py) and swings (swing.py)

  function Highest(window: seq<Candle>): real
    requires |window| > 0
  {
    var n := |window| - 1;
    if n == 0 then window[0].high
    else
      var rest := Highest(window[..n]);
      if window[n].high > rest then window[n].high else rest
  }

  function Lowest(window: seq<Candle>): real
    requires |window| > 0
  {
    var n := |window| - 1;
    if n == 0 then window[0].low
    else
      var rest := Lowest(window[..n]);
      if window[n].low < rest then window[n].low else rest
  }

  function KAt(window: seq<Candle>): real {
    if window == [] then 50.0
    else
      var lowest := Lowest(window);
      var range := Highest(window) - lowest;
      if range < FLAT then 50.0 else (window[|window| - 1].close - lowest) / range * 100.0
  }

  function StochasticK(cs: seq<Candle>, period: nat): seq<real>
    requires period >= 1
  {
    Rolling(KAt, cs, period)
  }

  /** The `n` bars before the current one, or as many as there are. */
  function SwingWindow(cs: seq<Candle>, n: nat): seq<Candle> {
    if |cs| < 2 then []
    else if |cs| > n then cs[|cs| - (n + 1)..|cs| - 1]
    else cs[..|cs| - 1]
  }

  function SwingHigh(cs: seq<Candle>, n: nat): Option<real> {
    var window := SwingWindow(cs, n);
    if window == [] then None else Some(Highest(window))
  }

  function SwingLow(cs: seq<Candle>, n: nat): Option<real> {
    var window := SwingWindow(cs, n);
    if window == [] then None else Some(Lowest(window))
  }

  predicate IsPivotLow(cs: seq<Candle>, i: int, left: nat, right: nat)
    requires left <= i < |cs| - right
  {
    forall j :: i - left <= j <= i + right && j != i ==> cs[j].low >= cs[i].low
  }

  /** The pivots among the bars `left..upTo`, oldest first. */
  function PivotsBefore(cs: seq<Candle>, left: nat, right: nat, upTo: int): seq<(int, real)>
    requires upTo <= |cs| - right
    decreases if upTo > left then upTo - left else 0
  {
    if upTo <= left then []
    else
      PivotsBefore(cs, left, right, upTo - 1)
      + (if IsPivotLow(cs, upTo - 1, left, right) then [(upTo - 1, cs[upTo - 1].low)] else [])
  }

  function PivotLows(cs: seq<Candle>, left: nat, right: nat): seq<(int, real)> {
    PivotsBefore(cs, left, right, |cs| - right)
  }

  // ----- the source's loops

  method CalculateSma(values: seq<real>, period: nat) returns (r: seq<real>)
    requires period >= 1
    ensures r == Sma(values, period)
  {
    if |values| < period {
      return [];
    }
    r := [];
    for i := period - 1 to |values|
      invariant |r| == i - (period - 1) && r == Rolling(MeanAt, values, period)[..|r|]
    {
      var average := AverageOf(values[i - period + 1..i + 1]);
      RollingNext(MeanAt, values, period, r, average);
      r := r + [average];
    }
  }

  method AverageOf(window: seq<real>) returns (average: real)
    requires |window| > 0
    ensures average == MeanAt(window)
  {
    average := Sum(window) / |window| as real;
  }

  method CalculateEma(values: seq<real>, period: nat) returns (r: seq<real>)
    requires period >= 1
    ensures r == Ema(values, period)
  {
    if |values| < period {
      return [];
    }
    var multiplier := 2.0 / (period + 1) as real;
    r := [Sum(values[..period]) / period as real];
    for i := period to |values|
      invariant r == Ema(values[..i], period)
    {
      ghost var taken := values[..i + 1];
      assert taken[..|taken| - 1] == values[..i] && taken[|taken| - 1] == values[i];
      r := r + [Smooth(r[|r| - 1], values[i], multiplier)];
    }
    assert values[..|values|] == values;
  }

  method CalculateDema(values: seq<real>, period: nat) returns (r: seq<real>)
    requires period >= 1
    ensures r == Dema(values, period)
  {
    var ema1 := CalculateEma(values, period);
    if |ema1| < period {
      return [];
    }
    var ema2 := CalculateEma(ema1, period);
    assert |ema1| - |ema2| == period - 1;
    r := Combine(ema1[|ema1| - |ema2|..], ema2);
  }

  /** Two loops over the typical prices: their moving average, and then the CCI of each window. */
  method CalculateCci(cs: seq<Candle>, period: nat) returns (r: seq<real>)
    requires period >= 1
    ensures r == Cci(cs, period)
  {
    if |cs| < period {
      return [];
    }
    var tps := TypicalPrices(cs);
    var averages := CalculateSma(tps, period);
    r := [];
    for i := period - 1 to |tps|
      invariant |r| == i - (period - 1) && r == Rolling(CciAt, tps, period)[..|r|]
    {
      RollingAt(MeanAt, tps, period, |r|);
      var cci := CalculateOneCci(tps[i - period + 1..i + 1], averages[|r|]);
      RollingNext(CciAt, tps, period, r, cci);
      r := r + [cci];
    }
  }

  /** The second loop's body: the distances from the average, their mean, and the scaled newest one. */
  method CalculateOneCci(window: seq<real>, sma: real) returns (cci: real)
    requires |window| > 0 && sma == MeanAt(window)
    ensures cci == CciAt(window)
  {
    var distances := seq(|window|, k requires 0 <= k < |window| => Abs(window[k] - sma));
    var md := Sum(distances) / |window| as real;
    assert distances == AbsAll(Deviations(window));
    cci := if md < FLAT then 0.0 else (window[|window| - 1] - sma) / (0.015 * md);
  }

  method CalculateCciSignal(cci: seq<real>, period: nat) returns (r: seq<real>)
    requires period >= 1
    ensures r == Sma(cci, period)
  {
    if |cci| < period {
      return [];
    }
    r := [];
    for i := period - 1 to |cci|
      invariant |r| == i - (period - 1) && r == Rolling(MeanAt, cci, period)[..|r|]
    {
      var average := AverageOf(cci[i - period + 1..i + 1]);
      RollingNext(MeanAt, cci, period, r, average);
      r := r + [average];
    }
  }

  method CalculateStochasticK(cs: seq<Candle>, period: nat) returns (r: seq<real>)
    requires period >= 1
    ensures r == StochasticK(cs, period)
  {
    if |cs| < period {
      return [];
    }
    r := [];
    for i := period - 1 to |cs|
      invariant |r| == i - (period - 1) && r == Rolling(KAt, cs, period)[..|r|]
    {
      var window := cs[i - period + 1..i + 1];
      var k := CalculateK(window, window[period - 1].close);
      RollingNext(KAt, cs, period, r, k);
      r := r + [k];
    }
  }

  /** The loop body of calculate_stochastic_k: where the close stands between the window's extremes. */
  method CalculateK(window: seq<Candle>, close: real) returns (k: real)
    requires |window| > 0 && close == window[|window| - 1].close
    ensures k == KAt(window)
  {
    var lowest := Lowest(window);
    var range := Highest(window) - lowest;
    k := if range < FLAT then 50.0 else (close - lowest) / range * 100.0;
  }

  method FindPivotLows(cs: seq<Candle>, left: nat, right: nat) returns (r: seq<(int, real)>)
    ensures r == PivotLows(cs, left, right)
  {
    r := [];
    if |cs| - right <= left {
      return;
    }
    for i := left to |cs| - right
      invariant r == PivotsBefore(cs, left, right, i)
    {
      var isPivot := IsPivotLow(cs, i, left, right);
      if isPivot {
        r := r + [(i, cs[i].low)];
      }
    }
  }
}
