/**
 What the indicators show on one stream of bars: rest, a surge to a new level, a spike and a turn. Every
 window of the stream that an engine may show the strategy is read off here.
 */
module Surges {
  import opened Arithmetic
  import opened Market
  import opened Indicators
  import opened IndicatorLaws
  import opened LeverageInverse
  import opened Wrappers

  // ----- the CCI of one window

  lemma {:induction false} SumConstant(xs: seq<real>, c: real)
    requires forall i :: 0 <= i < |xs| ==> xs[i] == c
    ensures Sum(xs) == c * |xs| as real
  {
    if |xs| == 0 {
    } else {
      SumConstant(xs[..|xs| - 1], c);
      OneMore(c, |xs| - 1);
    }
  }

  lemma MeanAtMost(xs: seq<real>, bound: real)
    requires |xs| > 0 && forall i :: 0 <= i < |xs| ==> xs[i] <= bound
    ensures Mean(xs) <= bound
  {
    SumAtMost(xs, bound);
    var n := |xs| as real;
    var mean := Sum(xs) / n;
    assert mean * n == Sum(xs);
    if mean > bound {
      assert mean * n > bound * n;
    }
  }

  lemma FlatCci(window: seq<real>, c: real)
    requires |window| > 0 && forall i :: 0 <= i < |window| ==> window[i] == c
    ensures CciAt(window) == 0.0
  {
    FlatMean(window, c);
    var distances := AbsAll(Deviations(window));
    assert forall i :: 0 <= i < |distances| ==> distances[i] == 0.0;
    FlatMean(distances, 0.0);
  }

  lemma FlatMean(window: seq<real>, c: real)
    requires |window| > 0 && forall i :: 0 <= i < |window| ==> window[i] == c
    ensures Mean(window) == c
  {
    var n := |window| as real;
    SumConstant(window, c);
    assert c * n / n == c;
  }

  /** A window whose newest value stands alone above equal others has the largest CCI there is. */
  lemma LoneCci(window: seq<real>, c: real, rise: real)
    requires |window| >= 2 && rise >= |window| as real
    requires forall i :: 0 <= i < |window| - 1 ==> window[i] == c
    requires window[|window| - 1] == c + rise
    ensures CciAt(window) == |window| as real / 0.03
  {
    var n := |window| as real;
    var part := rise / n;
    LoneShare(rise, n);
    assert window[|window| - 1] == c + part * n;
    LonePart(window, c, part);
  }

  lemma LoneShare(rise: real, n: real)
    requires n >= 2.0 && rise >= n
    ensures rise / n >= 1.0 && rise / n * n == rise
  {
  }

  /** The newest value is above the others by `part` for every value in the window. */
  lemma LonePart(window: seq<real>, c: real, part: real)
    requires |window| >= 2 && part >= 1.0
    requires forall i :: 0 <= i < |window| - 1 ==> window[i] == c
    requires window[|window| - 1] == c + part * |window| as real
    ensures CciAt(window) == |window| as real / 0.03
  {
    LoneMean(window, c, part);
    LoneDistances(window, c, part);
    LoneCciFrom(window, part, part * |window| as real - part);
  }

  lemma LoneCciFrom(window: seq<real>, part: real, d: real)
    requires |window| >= 2 && part >= 1.0 && d == part * |window| as real - part
    requires window[|window| - 1] - Mean(window) == d && Sum(AbsAll(Deviations(window))) == 2.0 * d
    ensures CciAt(window) == |window| as real / 0.03
  {
    LoneRatio(d, |window| as real, part);
    CciFrom(window, d, 2.0 * d);
  }

  /** The CCI of a window, from its newest distance and the sum of all distances. */
  lemma CciFrom(window: seq<real>, newest: real, total: real)
    requires |window| > 0 && window[|window| - 1] - Mean(window) == newest
    requires Sum(AbsAll(Deviations(window))) == total && total / |window| as real >= FLAT
    ensures CciAt(window) == newest / (0.015 * (total / |window| as real))
  {
  }

  lemma LoneDistances(window: seq<real>, c: real, part: real)
    requires |window| >= 2 && part >= 1.0 && Mean(window) == c + part
    requires forall i :: 0 <= i < |window| - 1 ==> window[i] == c
    requires window[|window| - 1] == c + part * |window| as real
    ensures Sum(AbsAll(Deviations(window))) == 2.0 * (part * |window| as real - part)
  {
    var last, distances := |window| - 1, AbsAll(Deviations(window));
    OneMore(part, last);
    assert part * last as real >= 0.0;
    assert forall i :: 0 <= i < last ==> distances[..last][i] == part;
    SumConstant(distances[..last], part);
    assert distances[last] == part * last as real;
  }

  lemma LoneMean(window: seq<real>, c: real, part: real)
    requires |window| >= 2
    requires forall i :: 0 <= i < |window| - 1 ==> window[i] == c
    requires window[|window| - 1] == c + part * |window| as real
    ensures Mean(window) == c + part
  {
    var n, last := |window| as real, |window| - 1;
    SumConstant(window[..last], c);
    OneMore(c, last);
    assert Sum(window) == (c + part) * n;
    assert (c + part) * n / n == c + part;
  }

  lemma LoneRatio(d: real, n: real, part: real)
    requires n >= 2.0 && part >= 1.0 && d == part * n - part
    ensures 2.0 * d / n >= FLAT
    ensures d / (0.015 * (2.0 * d / n)) == n / 0.03
  {
    assert part * n >= part * 2.0;
    var md := 2.0 * d / n;
    assert md * n == 2.0 * d;
    assert 2.0 * d >= part * n;
    assert (md - part) * n >= 0.0;
    assert md >= part;
    HalfRatio(d, md, n);
  }

  lemma HalfRatio(d: real, md: real, n: real)
    requires md > 0.0 && md * n == 2.0 * d
    ensures d / (0.015 * md) == n / 0.03
  {
    var q := d / (0.015 * md);
    assert q * (0.015 * md) == d;
    assert (0.03 * q - n) * md == 0.0;
    assert 0.03 * q == n;
  }

  /** A newest value no higher than any other gives no positive CCI. */
  lemma LowestCci(window: seq<real>)
    requires |window| > 0 && forall i :: 0 <= i < |window| ==> window[|window| - 1] <= window[i]
    ensures CciAt(window) <= 0.0
  {
    var newest, md := window[|window| - 1], MeanDeviation(window);
    MeanAtMost(Reflect(0.0, window), -newest);
    MeanReflect(0.0, window);
    if md >= FLAT {
      SignOfQuotient(newest - Mean(window), 0.015 * md);
    }
  }

  lemma SignOfQuotient(x: real, y: real)
    requires x <= 0.0 && y > 0.0
    ensures x / y <= 0.0
  {
    var q := x / y;
    assert q * y == x;
  }

  /** And one no lower gives no negative CCI. */
  lemma HighestCci(window: seq<real>)
    requires |window| > 0 && forall i :: 0 <= i < |window| ==> window[|window| - 1] >= window[i]
    ensures CciAt(window) >= 0.0
  {
    LowestCci(Reflect(0.0, window));
    CciAtReflect(0.0, window);
  }

  // ----- the moving averages of a window

  lemma MeanWithin(xs: seq<real>, low: real, high: real)
    requires |xs| > 0 && forall i :: 0 <= i < |xs| ==> low <= xs[i] <= high
    ensures low <= Mean(xs) <= high
  {
    MeanAtMost(xs, high);
    MeanAtMost(Reflect(0.0, xs), -low);
    MeanReflect(0.0, xs);
  }

  lemma ProductNonNegative(a: real, b: real)
    requires a >= 0.0 && b >= 0.0
    ensures a * b >= 0.0
  {
  }

  lemma SmoothAtLeast(last: real, value: real, m: real, low: real)
    requires low <= last && low <= value && 0.0 <= m <= 1.0
    ensures low <= Smooth(last, value, m)
  {
    var a, b := value - low, last - low;
    ProductNonNegative(a, m);
    ProductNonNegative(b, 1.0 - m);
    assert Smooth(last, value, m) == low + a * m + b * (1.0 - m);
  }

  lemma SmoothWithin(last: real, value: real, m: real, low: real, high: real)
    requires low <= last <= high && low <= value <= high && 0.0 <= m <= 1.0
    ensures low <= Smooth(last, value, m) <= high
  {
    SmoothAtLeast(last, value, m, low);
    SmoothAtLeast(0.0 - last, 0.0 - value, m, 0.0 - high);
    SmoothReflect(0.0, last, value, m);
  }

  lemma Multiplier(period: nat)
    requires period >= 3
    ensures 0.0 < 2.0 / (period + 1) as real <= 0.5
  {
    var m, n := 2.0 / (period + 1) as real, (period + 1) as real;
    assert m * n == 2.0 && n >= 4.0;
  }

  /** An average never leaves the range of what it averages. */
  lemma {:induction false} EmaWithin(values: seq<real>, low: real, high: real, period: nat)
    requires period >= 3 && forall i :: 0 <= i < |values| ==> low <= values[i] <= high
    ensures forall i :: 0 <= i < |Ema(values, period)| ==> low <= Ema(values, period)[i] <= high
  {
    if |values| < period {
    } else if |values| == period {
      MeanWithin(values, low, high);
    } else {
      var n := |values| - 1;
      EmaWithin(values[..n], low, high, period);
      Multiplier(period);
      var before := Ema(values[..n], period);
      SmoothWithin(before[|before| - 1], values[n], 2.0 / (period + 1) as real, low, high);
    }
  }

  /** One more value adds one more to the average, smoothed from the last one. */
  lemma EmaSnoc(values: seq<real>, x: real, period: nat, m: real) returns (last: real, next: real)
    requires 1 <= period <= |values| && m == 2.0 / (period + 1) as real
    ensures |Ema(values, period)| > 0 && last == Ema(values, period)[|Ema(values, period)| - 1]
    ensures next == Smooth(last, x, m) && Ema(values + [x], period) == Ema(values, period) + [next]
  {
    var ema := Ema(values, period);
    last := ema[|ema| - 1];
    next := Smooth(last, x, m);
    assert (values + [x])[..|values|] == values;
  }

  lemma CombineSnoc(xs: seq<real>, ys: seq<real>, x: real, y: real)
    requires |xs| == |ys|
    ensures Combine(xs + [x], ys + [y]) == Combine(xs, ys) + [2.0 * x - y]
  {
  }

  lemma DropSnoc(xs: seq<real>, x: real, n: nat)
    requires n <= |xs|
    ensures (xs + [x])[n..] == xs[n..] + [x]
  {
  }

  /** One more value adds one more to the DEMA. */
  lemma DemaSnoc(values: seq<real>, x: real, period: nat, m: real)
    returns (once: real, twice: real, newest: real, smoothed: real)
    requires period >= 1 && |values| >= 2 * period && m == 2.0 / (period + 1) as real
    ensures var ema := Ema(values, period);
            && |ema| > 0 && once == ema[|ema| - 1]
            && |Ema(ema, period)| > 0 && twice == Ema(ema, period)[|Ema(ema, period)| - 1]
    ensures newest == Smooth(once, x, m) && smoothed == Smooth(twice, newest, m)
    ensures Dema(values + [x], period) == Dema(values, period) + [2.0 * newest - smoothed]
  {
    var ema := Ema(values, period);
    once, newest := EmaSnoc(values, x, period, m);
    twice, smoothed := EmaSnoc(ema, newest, period, m);
    DemaGrows(values, x, period, ema, Ema(ema, period), newest, smoothed);
  }

  /** The DEMA follows from the two averages alone. */
  lemma DemaGrows(
    values: seq<real>, x: real, period: nat, ema: seq<real>, ema2: seq<real>, newest: real, smoothed: real)
    requires period >= 1 && |ema| >= period && |ema2| == |ema| - (period - 1)
    requires Ema(values, period) == ema && Ema(values + [x], period) == ema + [newest]
    requires Ema(ema, period) == ema2 && Ema(ema + [newest], period) == ema2 + [smoothed]
    ensures Dema(values + [x], period) == Dema(values, period) + [2.0 * newest - smoothed]
  {
    DemaOf(values, period, ema, ema2);
    DemaOf(values + [x], period, ema + [newest], ema2 + [smoothed]);
    CombineNext(ema, ema2, newest, smoothed, period);
  }

  lemma CombineNext(ema: seq<real>, ema2: seq<real>, x: real, y: real, period: nat)
    requires period >= 1 && |ema| >= period && |ema2| == |ema| - (period - 1)
    ensures Combine((ema + [x])[period - 1..], ema2 + [y]) == Combine(ema[period - 1..], ema2) + [2.0 * x - y]
  {
    DropSnoc(ema, x, period - 1);
    CombineSnoc(ema[period - 1..], ema2, x, y);
  }

  lemma DemaOf(values: seq<real>, period: nat, ema: seq<real>, ema2: seq<real>)
    requires period >= 1 && ema == Ema(values, period) && |ema| >= period && ema2 == Ema(ema, period)
    ensures |ema2| == |ema| - (period - 1) && Dema(values, period) == Combine(ema[period - 1..], ema2)
  {
  }

  lemma CombineWithin(xs: seq<real>, ys: seq<real>, low: real, high: real)
    requires |xs| == |ys|
    requires forall i :: 0 <= i < |xs| ==> low <= xs[i] <= high && low <= ys[i] <= high
    ensures forall i :: 0 <= i < |Combine(xs, ys)| ==> 2.0 * low - high <= Combine(xs, ys)[i] <= 2.0 * high - low
  {
  }

  lemma DemaWithin(values: seq<real>, low: real, high: real, period: nat)
    requires period >= 3 && |values| >= 2 * period && forall i :: 0 <= i < |values| ==> low <= values[i] <= high
    ensures var d := Dema(values, period);
            |d| >= 2 && forall i :: 0 <= i < |d| ==> 2.0 * low - high <= d[i] <= 2.0 * high - low
  {
    var ema := Ema(values, period);
    EmaWithin(values, low, high, period);
    EmaWithin(ema, low, high, period);
    CombineWithin(ema[period - 1..], Ema(ema, period), low, high);
  }

  /** Another value after values in a range: where the DEMA was, and where it goes. */
  lemma DemaNext(values: seq<real>, x: real, low: real, high: real, period: nat)
    returns (before: seq<real>, once: real, twice: real, newest: real, smoothed: real, m: real)
    requires period >= 3 && |values| >= 2 * period && forall i :: 0 <= i < |values| ==> low <= values[i] <= high
    ensures |before| >= 2 && forall i :: 0 <= i < |before| ==> 2.0 * low - high <= before[i] <= 2.0 * high - low
    ensures low <= once <= high && low <= twice <= high
    ensures m == 2.0 / (period + 1) as real && newest == Smooth(once, x, m) && smoothed == Smooth(twice, newest, m)
    ensures Dema(values + [x], period) == before + [2.0 * newest - smoothed]
  {
    before := Dema(values, period);
    m := 2.0 / (period + 1) as real;
    once, twice, newest, smoothed := DemaSnoc(values, x, period, m);
    DemaWithin(values, low, high, period);
    EmaWithin(values, low, high, period);
    EmaWithin(Ema(values, period), low, high, period);
  }

  lemma SlopeOf(before: seq<real>, x: real)
    requires |before| >= 2
    ensures SlopeUp(before + [x]) <==> x - before[|before| - 1] > before[|before| - 1] - before[|before| - 2]
    ensures SlopeDown(before + [x]) <==> x - before[|before| - 1] < before[|before| - 1] - before[|before| - 2]
  {
  }

  /** After level closes a rise moves the DEMA up, and not as far as itself. */
  lemma DemaRises(values: seq<real>, period: nat)
    requires period >= 3 && |values| >= 2 * period && forall i :: 0 <= i < |values| ==> values[i] == 10.0
    ensures var d := Dema(values + [20.0], period); SlopeUp(d) && !SlopeDown(d) && d[|d| - 1] < 20.0
  {
    var before, once, twice, newest, smoothed, m := DemaNext(values, 20.0, 10.0, 10.0, period);
    Multiplier(period);
    RiseShare(newest, smoothed, m);
    SlopeOf(before, 2.0 * newest - smoothed);
  }

  lemma RiseShare(newest: real, smoothed: real, m: real)
    requires 0.0 < m <= 0.5 && newest == Smooth(10.0, 20.0, m) && smoothed == Smooth(10.0, newest, m)
    ensures 10.0 < 2.0 * newest - smoothed < 20.0
  {
    assert newest == 10.0 + 10.0 * m;
    assert smoothed == 10.0 + 10.0 * m * m;
    assert 0.0 < m * m <= 0.5 * m;
    assert (1.0 - m) * (1.0 - m) == 1.0 - 2.0 * m + m * m;
    assert (1.0 - m) * (1.0 - m) > 0.0;
  }

  /** A close far above all earlier ones turns the DEMA upwards, whatever it did before. */
  lemma DemaLeaps(values: seq<real>, close: real, period: nat)
    requires period >= 3 && |values| >= 2 * period && forall i :: 0 <= i < |values| ==> 10.0 <= values[i] <= 20.0
    requires close == 80.0 * (period + 1) as real
    ensures !SlopeDown(Dema(values + [close], period))
  {
    var before, once, twice, newest, smoothed, m := DemaNext(values, close, 10.0, 20.0, period);
    Multiplier(period);
    Leap(close, period, m);
    LeapShare(once, twice, close, newest, smoothed, m);
    SlopeOf(before, 2.0 * newest - smoothed);
  }

  lemma Leap(close: real, period: nat, m: real)
    requires close == 80.0 * (period + 1) as real && m == 2.0 / (period + 1) as real
    ensures close * m == 160.0
  {
    var n := (period + 1) as real;
    assert m * n == 2.0;
    assert 80.0 * n * m == 80.0 * (m * n);
  }

  lemma LeapShare(once: real, twice: real, close: real, newest: real, smoothed: real, m: real)
    requires 10.0 <= once <= 20.0 && 10.0 <= twice <= 20.0 && 0.0 < m <= 0.5 && close * m == 160.0
    requires newest == Smooth(once, close, m) && smoothed == Smooth(twice, newest, m)
    ensures 2.0 * newest - smoothed >= 200.0
  {
    assert once * (1.0 - m) >= 0.0;
    assert newest >= 160.0;
    assert newest * m <= newest * 0.5;
    assert twice * (1.0 - m) <= 20.0 * (1.0 - m);
  }

  // ----- the stream

  /** The largest value a CCI of this period can take. */
  function CciLimit(p: ValidParams): (limit: real)
    ensures limit > 0.0
  {
    p.cciPeriod as real / 0.03
  }

  /** The tighter of the two stochastic filters, seen from below. */
  function Filter(p: ValidParams): (limit: real)
    ensures limit > 0.0
  {
    if p.overbought < 100.0 - p.oversold then p.overbought else 100.0 - p.oversold
  }

  /** The last close, far above the others. */
  function Leaping(p: ValidParams): real {
    80.0 * (p.demaPeriod + 1) as real
  }

  /** High enough for the CCI to reach its limit, and for a close of 20 to be low in its bar. */
  function Height(p: ValidParams): (high: real)
    ensures high >= 3.0 * p.cciPeriod as real + 31.0 + 2.0 * Leaping(p) && Leaping(p) >= 320.0
  {
    PositiveQuotient(2000.0, Filter(p));
    3.0 * p.cciPeriod as real + 31.0 + 2000.0 / Filter(p) + 2.0 * Leaping(p)
  }

  lemma PositiveQuotient(x: real, y: real)
    requires x > 0.0 && y > 0.0
    ensures x / y > 0.0
  {
  }

  function Bar(cfg: Config, t: nat, high: real, low: real, close: real): Candle {
    Candle(cfg.underlying, close, high, low, close, 1, t, "domestic")
  }

  /**
   Bar by bar: `size` bars of rest, a new level as long as a CCI window, the last bar of it with a spike, and
   then a close far above whose typical price is that of the level.
   */
  function BarAt(cfg: Config, size: nat, t: nat): Candle {
    var p, high := cfg.params, Height(cfg.params);
    if t < size then Bar(cfg, t, 11.0, 10.0, 10.0)
    else if t < size + p.cciPeriod - 1 then Bar(cfg, t, high, 20.0, 20.0)
    else if t == size + p.cciPeriod - 1 then Bar(cfg, t, high + 3.0 * p.cciPeriod as real, 20.0, 20.0)
    else Bar(cfg, t, high + 30.0 - Leaping(p), 10.0, Leaping(p))
  }

  lemma BarPrices(cfg: Config, size: nat, t: nat)
    requires t <= size + cfg.params.cciPeriod
    ensures var p, bar := cfg.params, BarAt(cfg, size, t);
            && (t < size ==> bar.close == bar.low == 10.0 && bar.high == 11.0)
            && (size <= t < size + p.cciPeriod ==> bar.close == bar.low == 20.0)
            && (t == size ==> bar.high == Height(p))
            && (t == size + p.cciPeriod ==> bar.low == 10.0 && bar.close == Leaping(p) >= 320.0)
  {
  }

  function Stream(cfg: Config, size: nat, start: nat, n: nat): seq<Candle> {
    seq(n, i requires 0 <= i => BarAt(cfg, size, start + i))
  }

  /** What an engine with a buffer of `size` candles shows on the n-th tick after the level began. */
  function Shown(cfg: Config, size: nat, n: nat): seq<Candle> {
    Stream(cfg, size, n + 1, size)
  }

  // ----- its CCI

  function LevelPrice(p: ValidParams): real {
    (Height(p) + 40.0) / 3.0
  }

  lemma TypicalPriceAt(cfg: Config, size: nat, t: nat)
    requires t <= size + cfg.params.cciPeriod
    ensures var p := cfg.params;
            TypicalPrice(BarAt(cfg, size, t))
            == if t < size then 31.0 / 3.0
               else if t == size + p.cciPeriod - 1 then LevelPrice(p) + p.cciPeriod as real
               else LevelPrice(p)
    ensures LevelPrice(cfg.params) >= 31.0 / 3.0 + cfg.params.cciPeriod as real
  {
  }

  /** The typical prices of one CCI window, by the bar it ends with. */
  function Ending(cfg: Config, size: nat, end: nat): (window: seq<real>)
    requires end + 1 >= cfg.params.cciPeriod
    ensures |window| == cfg.params.cciPeriod
  {
    TypicalPrices(Stream(cfg, size, end + 1 - cfg.params.cciPeriod, cfg.params.cciPeriod))
  }

  function CciEnding(cfg: Config, size: nat, end: nat): real
    requires end + 1 >= cfg.params.cciPeriod
  {
    CciAt(Ending(cfg, size, end))
  }

  lemma EndingAt(cfg: Config, size: nat, end: nat)
    requires cfg.params.cciPeriod <= end + 1 && end <= size + cfg.params.cciPeriod
    ensures var p, window := cfg.params, Ending(cfg, size, end);
            forall i :: 0 <= i < p.cciPeriod ==>
              var t := end + 1 - p.cciPeriod + i;
              window[i] == if t < size then 31.0 / 3.0
                           else if t == size + p.cciPeriod - 1 then LevelPrice(p) + p.cciPeriod as real
                           else LevelPrice(p)
  {
    var p, window := cfg.params, Ending(cfg, size, end);
    forall i | 0 <= i < p.cciPeriod
      ensures var t := end + 1 - p.cciPeriod + i;
              window[i] == if t < size then 31.0 / 3.0
                           else if t == size + p.cciPeriod - 1 then LevelPrice(p) + p.cciPeriod as real
                           else LevelPrice(p)
    {
      TypicalPriceAt(cfg, size, end + 1 - p.cciPeriod + i);
    }
  }

  /** Zero at rest, at its limit where the level begins and on the spike, never negative before the last bar. */
  lemma CciEndings(cfg: Config, size: nat, end: nat)
    requires cfg.params.cciPeriod <= end + 1 && cfg.params.cciPeriod <= size && end <= size + cfg.params.cciPeriod
    ensures var p, cci := cfg.params, CciEnding(cfg, size, end);
            && (end < size ==> cci == 0.0)
            && (end == size || end == size + p.cciPeriod - 1 ==> cci == CciLimit(p))
            && (if end < size + p.cciPeriod then cci >= 0.0 else cci <= 0.0)
  {
    var p, window := cfg.params, Ending(cfg, size, end);
    EndingAt(cfg, size, end);
    TypicalPriceAt(cfg, size, end);
    if end < size {
      FlatCci(window, 31.0 / 3.0);
    } else if end == size {
      LoneCci(window, 31.0 / 3.0, LevelPrice(p) - 31.0 / 3.0);
    } else if end < size + p.cciPeriod - 1 {
      HighestCci(window);
    } else if end == size + p.cciPeriod - 1 {
      LoneCci(window, LevelPrice(p), p.cciPeriod as real);
    } else {
      LowestCci(window);
    }
  }

  lemma CciShown(cfg: Config, size: nat, n: nat, m: nat)
    requires m + cfg.params.cciPeriod <= size
    ensures |Cci(Shown(cfg, size, n), cfg.params.cciPeriod)| == size + 1 - cfg.params.cciPeriod
    ensures Cci(Shown(cfg, size, n), cfg.params.cciPeriod)[m] == CciEnding(cfg, size, n + m + cfg.params.cciPeriod)
  {
    var p, tps := cfg.params.cciPeriod, TypicalPrices(Shown(cfg, size, n));
    RollingAt(CciAt, tps, p, m);
    assert tps[m..m + p] == Ending(cfg, size, n + m + p);
  }

  // ----- its readings

  /** The last two CCI values shown. */
  lemma CciLast(cfg: Config, size: nat, n: nat)
    requires cfg.params.cciPeriod < size
    ensures var cci := Cci(Shown(cfg, size, n), cfg.params.cciPeriod);
            && |cci| >= 2 && cci[|cci| - 1] == CciEnding(cfg, size, size + n)
            && cci[|cci| - 2] == CciEnding(cfg, size, size + n - 1)
  {
    CciShown(cfg, size, n, size - cfg.params.cciPeriod);
    CciShown(cfg, size, n, size - cfg.params.cciPeriod - 1);
  }

  lemma SignalWithin(p: ValidParams, cs: seq<Candle>)
    ensures var signal := Sma(Cci(cs, p.cciPeriod), p.cciSignalPeriod);
            forall i :: 0 <= i < |signal| ==> signal[i] <= CciLimit(p)
  {
    CciBound(cs, p.cciPeriod, p.cciSignalPeriod);
    var signal := Sma(Cci(cs, p.cciPeriod), p.cciSignalPeriod);
    forall i | 0 <= i < |signal| ensures signal[i] <= CciLimit(p) {
      assert signal[i] in signal;
    }
  }

  /** On the last bar the CCI has fallen below its signal line. */
  lemma SignalAbove(cfg: Config, size: nat)
    requires size >= cfg.params.cciPeriod + cfg.params.cciSignalPeriod
    ensures var cci := Cci(Shown(cfg, size, cfg.params.cciPeriod), cfg.params.cciPeriod);
            var signal := Sma(cci, cfg.params.cciSignalPeriod);
            |signal| > 0 && |cci| > 0 && signal[|signal| - 1] > cci[|cci| - 1]
  {
    var n := cfg.params.cciPeriod;
    var cci := Cci(Shown(cfg, size, n), n);
    CciShown(cfg, size, n, 0);
    forall m: nat | m < |cci|
      ensures if m == |cci| - 1 then cci[m] <= 0.0 else cci[m] >= 0.0
      ensures m == |cci| - 2 ==> cci[m] == CciLimit(cfg.params)
    {
      LastCciShown(cfg, size, m);
    }
    LastSignal(cci, CciLimit(cfg.params), cfg.params.cciSignalPeriod);
  }

  lemma LastCciShown(cfg: Config, size: nat, m: nat)
    requires m + cfg.params.cciPeriod <= size
    ensures var p := cfg.params.cciPeriod;
            var cci, last := Cci(Shown(cfg, size, p), p), size - p;
            && |cci| == last + 1 && (if m == last then cci[m] <= 0.0 else cci[m] >= 0.0)
            && (m == last - 1 ==> cci[m] == CciLimit(cfg.params))
  {
    var n := cfg.params.cciPeriod;
    CciShown(cfg, size, n, m);
    CciEndings(cfg, size, n + m + n);
  }

  lemma LastSignal(cci: seq<real>, top: real, period: nat)
    requires 2 <= period <= |cci| && top > 0.0 && cci[|cci| - 1] <= 0.0 && cci[|cci| - 2] == top
    requires forall m :: 0 <= m < |cci| - 1 ==> cci[m] >= 0.0
    ensures var signal := Sma(cci, period); |signal| > 0 && signal[|signal| - 1] > cci[|cci| - 1]
  {
    var window := cci[|cci| - period..];
    RollingAt(MeanAt, cci, period, |cci| - period);
    assert cci[|cci| - period..|cci| - period + period] == window;
    TurnWindow(window, top);
  }

  /** A fall to zero or below after non-negative values, the last of them positive, is a fall below their mean. */
  lemma TurnWindow(window: seq<real>, top: real)
    requires |window| >= 2 && top > 0.0 && window[|window| - 1] <= 0.0 && window[|window| - 2] == top
    requires forall i :: 0 <= i < |window| - 1 ==> window[i] >= 0.0
    ensures Mean(window) > window[|window| - 1]
  {
    var earlier := window[..|window| - 1];
    assert earlier[|earlier| - 1] == top;
    SumAtMost(Reflect(0.0, earlier[..|earlier| - 1]), 0.0);
    SumReflect(0.0, earlier[..|earlier| - 1]);
    assert Sum(earlier) >= top;
    MeanAbove(window);
  }

  lemma MeanAbove(window: seq<real>)
    requires |window| > 0 && window[|window| - 1] <= 0.0 && Sum(window[..|window| - 1]) > 0.0
    ensures Mean(window) > window[|window| - 1]
  {
    var n, last := |window| as real, window[|window| - 1];
    var mean := Mean(window);
    assert mean * n > last;
    assert last * (n - 1.0) <= 0.0;
    assert (mean - last) * n > 0.0;
  }

  lemma ClosesShown(cfg: Config, size: nat, n: nat)
    requires size >= 1 && n <= cfg.params.cciPeriod
    ensures var closes := Closes(Shown(cfg, size, n));
            && (forall i :: 0 <= i < size - 1 ==> 10.0 <= closes[i] <= 20.0)
            && (n == 0 ==> (forall i :: 0 <= i < size - 1 ==> closes[i] == 10.0) && closes[size - 1] == 20.0)
            && (n == cfg.params.cciPeriod ==> closes[size - 1] == Leaping(cfg.params))
  {
    var closes := Closes(Shown(cfg, size, n));
    forall i | 0 <= i < size - 1 ensures 10.0 <= closes[i] <= 20.0 && (n == 0 ==> closes[i] == 10.0) {
      BarPrices(cfg, size, n + 1 + i);
    }
    BarPrices(cfg, size, size + n);
  }

  lemma DemaShown(cfg: Config, size: nat, n: nat)
    requires size > 2 * cfg.params.demaPeriod && (n == 0 || n == cfg.params.cciPeriod)
    ensures var dema := Dema(Closes(Shown(cfg, size, n)), cfg.params.demaPeriod);
            !SlopeDown(dema) && (n == 0 ==> SlopeUp(dema) && dema[|dema| - 1] < 20.0)
  {
    var closes := Closes(Shown(cfg, size, n));
    ClosesShown(cfg, size, n);
    assert closes == closes[..size - 1] + [closes[size - 1]];
    if n == 0 {
      DemaRises(closes[..size - 1], cfg.params.demaPeriod);
    } else {
      DemaLeaps(closes[..size - 1], closes[size - 1], cfg.params.demaPeriod);
    }
  }

  /** A close no lower than the low of the bar before is not below the swing low. */
  lemma NotBelowSwing(dema: seq<real>, cs: seq<Candle>, lookback: nat)
    requires |cs| >= 2 && lookback >= 1 && cs[|cs| - 2].low <= cs[|cs| - 1].close
    ensures !BreaksBelow(dema, cs, lookback)
  {
    var window := SwingWindow(cs, lookback);
    assert window != [] && window[|window| - 1] == cs[|cs| - 2];
    var lowest := LowestBounds(window);
    assert window[|window| - 1].low >= Lowest(window);
  }

  lemma AboveSwing(dema: seq<real>, cs: seq<Candle>, lookback: nat)
    requires |cs| >= 2 && lookback >= 1 && |dema| > 0 && cs[|cs| - 1].close > dema[|dema| - 1]
    requires forall i :: 0 <= i < |cs| - 1 ==> cs[i].high < cs[|cs| - 1].close
    ensures BreaksAbove(dema, cs, lookback)
  {
    var window := SwingWindow(cs, lookback);
    var highest := HighestBounds(window);
    assert window[highest] == cs[|cs| - 1 - |window| + highest];
  }

  lemma NoBreakBelow(cfg: Config, size: nat, n: nat, dema: seq<real>)
    requires size >= 2 && n <= cfg.params.cciPeriod
    ensures !BreaksBelow(dema, Shown(cfg, size, n), cfg.params.swingLookback)
  {
    BarPrices(cfg, size, n + 1 + (size - 2));
    BarPrices(cfg, size, n + 1 + (size - 1));
    NotBelowSwing(dema, Shown(cfg, size, n), cfg.params.swingLookback);
  }

  lemma BreakAbove(cfg: Config, size: nat, dema: seq<real>)
    requires size >= 2 && |dema| > 0 && dema[|dema| - 1] < 20.0
    ensures BreaksAbove(dema, Shown(cfg, size, 0), cfg.params.swingLookback)
  {
    var cs := Shown(cfg, size, 0);
    forall i | 0 <= i < size - 1 ensures cs[i].high == 11.0 {
      BarPrices(cfg, size, 1 + i);
    }
    BarPrices(cfg, size, 1 + (size - 1));
    AboveSwing(dema, cs, cfg.params.swingLookback);
  }

  // ----- its %D on the first tick

  /** Where a close of 20 stands in its window, in percent. */
  function LowShare(p: ValidParams): (share: real)
    ensures 0.0 < share < Filter(p)
  {
    ShareBelow(Filter(p), Height(p) - 10.0);
    10.0 / (Height(p) - 10.0) * 100.0
  }

  lemma ShareBelow(limit: real, room: real)
    requires limit > 0.0 && room > 0.0 && room > 2000.0 / limit
    ensures 0.0 < 10.0 / room * 100.0 < limit
  {
    var part, share := 2000.0 / limit, 10.0 / room;
    assert part * limit == 2000.0 && share * room == 10.0;
    assert (room - part) * limit > 0.0;
    assert (limit - share * 100.0) * room > 0.0;
  }

  lemma WindowK(p: ValidParams, window: seq<Candle>, top: real)
    requires |window| >= 2 && forall i :: 0 <= i < |window| - 1 ==> window[i].low == 10.0 && window[i].high == 11.0
    requires var last := window[|window| - 1];
            || (top == 11.0 && last.high == 11.0 && last.low == 10.0 && last.close == 10.0)
            || (top == Height(p) && last.high == top && last.low == 20.0 && last.close == 20.0)
    ensures KAt(window) <= LowShare(p)
  {
    var lowest := LowestBounds(window);
    var highest := HighestBounds(window);
    assert Lowest(window) == 10.0 by {
      assert window[0].low == 10.0;
    }
    assert Highest(window) == top by {
      assert window[|window| - 1].high == top;
    }
    if top == 11.0 {
      assert 0.0 / 1.0 * 100.0 == 0.0;
    }
  }

  lemma StochasticShown(cfg: Config, size: nat)
    requires var p := cfg.params; size >= p.kPeriod + p.dPeriod - 1
    ensures var p := cfg.params;
            var d := Sma(StochasticK(Shown(cfg, size, 0), p.kPeriod), p.dPeriod);
            |d| > 0 && d[|d| - 1] < Filter(p)
  {
    var p := cfg.params;
    var k := StochasticK(Shown(cfg, size, 0), p.kPeriod);
    forall j | 0 <= j < |k| ensures k[j] <= LowShare(p) {
      KShown(cfg, size, j);
    }
    LastMean(k, p.dPeriod, LowShare(p));
  }

  lemma KShown(cfg: Config, size: nat, j: nat)
    requires j + cfg.params.kPeriod <= size
    ensures StochasticK(Shown(cfg, size, 0), cfg.params.kPeriod)[j] <= LowShare(cfg.params)
  {
    var k, cs := cfg.params.kPeriod, Shown(cfg, size, 0);
    RollingAt(KAt, cs, k, j);
    assert cs[j..j + k] == Stream(cfg, size, 1 + j, k);
    StreamK(cfg, size, j);
  }

  lemma StreamK(cfg: Config, size: nat, j: nat)
    requires j + cfg.params.kPeriod <= size
    ensures KAt(Stream(cfg, size, 1 + j, cfg.params.kPeriod)) <= LowShare(cfg.params)
  {
    var k := cfg.params.kPeriod;
    var window := Stream(cfg, size, 1 + j, k);
    forall i | 0 <= i < k - 1 ensures window[i].low == 10.0 && window[i].high == 11.0 {
      BarPrices(cfg, size, 1 + j + i);
    }
    BarPrices(cfg, size, j + k);
    WindowK(cfg.params, window, if j + k == size then Height(cfg.params) else 11.0);
  }

  lemma LastMean(values: seq<real>, period: nat, bound: real)
    requires 1 <= period <= |values| && forall j :: 0 <= j < |values| ==> values[j] <= bound
    ensures var mean := Sma(values, period); |mean| > 0 && mean[|mean| - 1] <= bound
  {
    var first := |values| - period;
    RollingAt(MeanAt, values, period, first);
    MeanAtMost(values[first..first + period], bound);
  }

  // ----- what a strategy sees of it

  predicate Entering(p: ValidParams, cs: seq<Candle>) {
    var dema, cci := Dema(Closes(cs), p.demaPeriod), Cci(cs, p.cciPeriod);
    var d := Sma(StochasticK(cs, p.kPeriod), p.dPeriod);
    && SlopeUp(dema) && BreaksAbove(dema, cs, p.swingLookback)
    && |cci| >= 2 && cci[|cci| - 2] <= 0.0 < cci[|cci| - 1]
    && |d| > 0 && d[|d| - 1] < Filter(p)
  }

  predicate Unconfirmed(p: ValidParams, cs: seq<Candle>) {
    var dema, cci := Dema(Closes(cs), p.demaPeriod), Cci(cs, p.cciPeriod);
    !BreaksBelow(dema, cs, p.swingLookback) && |cci| >= 1 && (cci[|cci| - 1] >= 0.0 || !SlopeDown(dema))
  }

  predicate AtLimit(p: ValidParams, cs: seq<Candle>) {
    var cci := Cci(cs, p.cciPeriod);
    |cci| >= 1 && cci[|cci| - 1] == CciLimit(p)
  }

  predicate Crossing(p: ValidParams, cs: seq<Candle>) {
    var cci := Cci(cs, p.cciPeriod);
    var signal := Sma(cci, p.cciSignalPeriod);
    && |cci| >= 2 && |signal| >= 2
    && cci[|cci| - 2] >= signal[|signal| - 2] && cci[|cci| - 1] < signal[|signal| - 1]
  }

  lemma EntryShown(cfg: Config, size: nat)
    requires size >= WarmUpBars(cfg.params)
    ensures Entering(cfg.params, Shown(cfg, size, 0))
  {
    var p, cs := cfg.params, Shown(cfg, size, 0);
    var dema := Dema(Closes(cs), p.demaPeriod);
    assert SlopeUp(dema) && BreaksAbove(dema, cs, p.swingLookback) by {
      DemaShown(cfg, size, 0);
      BreakAbove(cfg, size, dema);
    }
    StochasticShown(cfg, size);
    RiseShown(cfg, size);
  }

  lemma RiseShown(cfg: Config, size: nat)
    requires cfg.params.cciPeriod < size
    ensures var cci := Cci(Shown(cfg, size, 0), cfg.params.cciPeriod);
            |cci| >= 2 && cci[|cci| - 2] <= 0.0 < cci[|cci| - 1]
  {
    assert CciEnding(cfg, size, size - 1) == 0.0 by {
      CciEndings(cfg, size, size - 1);
    }
    assert CciEnding(cfg, size, size) == CciLimit(cfg.params) by {
      CciEndings(cfg, size, size);
    }
    CciLast(cfg, size, 0);
  }

  /** The CCI turns negative only on the last bar, and there the slope is not down. */
  lemma UnconfirmedShown(cfg: Config, size: nat, n: nat)
    requires size >= WarmUpBars(cfg.params) && n <= cfg.params.cciPeriod
    ensures Unconfirmed(cfg.params, Shown(cfg, size, n))
  {
    var p, cs := cfg.params, Shown(cfg, size, n);
    assert !BreaksBelow(Dema(Closes(cs), p.demaPeriod), cs, p.swingLookback) by {
      NoBreakBelow(cfg, size, n, Dema(Closes(cs), p.demaPeriod));
    }
    if n == p.cciPeriod {
      DemaShown(cfg, size, n);
      CciLast(cfg, size, n);
    } else {
      SignShown(cfg, size, n);
    }
  }

  /** Before the last bar the CCI is not negative, and on the spike it is at its limit. */
  lemma SignShown(cfg: Config, size: nat, n: nat)
    requires n < cfg.params.cciPeriod < size
    ensures var cci := Cci(Shown(cfg, size, n), cfg.params.cciPeriod);
            && |cci| >= 1 && cci[|cci| - 1] >= 0.0
            && (n == cfg.params.cciPeriod - 1 ==> cci[|cci| - 1] == CciLimit(cfg.params))
  {
    CciLast(cfg, size, n);
    CciEndings(cfg, size, size + n);
  }

  lemma LimitShown(cfg: Config, size: nat, n: nat)
    requires size >= WarmUpBars(cfg.params) && n == cfg.params.cciPeriod - 1
    ensures AtLimit(cfg.params, Shown(cfg, size, n))
  {
    SignShown(cfg, size, n);
  }

  lemma CrossShown(cfg: Config, size: nat, n: nat)
    requires size >= WarmUpBars(cfg.params) && n == cfg.params.cciPeriod
    ensures Crossing(cfg.params, Shown(cfg, size, n))
  {
    CciLast(cfg, size, n);
    CciEndings(cfg, size, size + n - 1);
    SignalWithin(cfg.params, Shown(cfg, size, n));
    SignalAbove(cfg, size);
    assert |Sma(Cci(Shown(cfg, size, n), n), cfg.params.cciSignalPeriod)| >= 2;
  }

  // What these mean for a strategy that reads the indicators.

  lemma EnteringReads(p: ValidParams, cs: seq<Candle>, r: Readings)
    requires ReadingsOf(p, cs) == Some(r) && Entering(p, cs)
    ensures EvaluateLeverageEntry(r, cs, p).CoreCount() == 3 && r.stochD[|r.stochD| - 1] < Filter(p)
  {
    LastReads(p, cs, r);
    EntryFrom(p, cs, r);
  }

  lemma EntryFrom(p: ValidParams, cs: seq<Candle>, r: Readings)
    requires r.Ready() && SlopeUp(r.dema) && BreaksAbove(r.dema, cs, p.swingLookback)
    requires r.cci[|r.cci| - 2] <= 0.0 < r.cci[|r.cci| - 1]
    ensures EvaluateLeverageEntry(r, cs, p).CoreCount() == 3
  {
  }

  lemma UnconfirmedReads(p: ValidParams, cs: seq<Candle>, r: Readings)
    requires ReadingsOf(p, cs) == Some(r) && Unconfirmed(p, cs)
    ensures LeverageConfirmations(p, cs, r) <= 1
  {
    LastReads(p, cs, r);
    CalmFrom(p, cs, r);
  }

  lemma CalmFrom(p: ValidParams, cs: seq<Candle>, r: Readings)
    requires r.Ready() && !BreaksBelow(r.dema, cs, p.swingLookback)
    requires r.cci[|r.cci| - 1] >= 0.0 || !SlopeDown(r.dema)
    ensures LeverageConfirmations(p, cs, r) <= 1
  {
  }

  lemma LimitReads(p: ValidParams, cs: seq<Candle>, r: Readings)
    requires ReadingsOf(p, cs) == Some(r) && AtLimit(p, cs)
    ensures r.cci[|r.cci| - 1] == CciLimit(p)
  {
    LastReads(p, cs, r);
  }

  lemma CrossingReads(p: ValidParams, cs: seq<Candle>, r: Readings)
    requires ReadingsOf(p, cs) == Some(r) && Crossing(p, cs)
    ensures DeadCross(r.cci, r.signal)
  {
    LastReads(p, cs, r);
  }

  lemma WindowReads(p: ValidParams, cs: seq<Candle>, r: Readings)
    requires ReadingsOf(p, cs) == Some(r)
    ensures Unconfirmed(p, cs) ==> LeverageConfirmations(p, cs, r) <= 1
    ensures AtLimit(p, cs) ==> r.cci[|r.cci| - 1] == CciLimit(p)
    ensures Crossing(p, cs) ==> DeadCross(r.cci, r.signal)
  {
    if Unconfirmed(p, cs) {
      UnconfirmedReads(p, cs, r);
    }
    if AtLimit(p, cs) {
      LimitReads(p, cs, r);
    }
    if Crossing(p, cs) {
      CrossingReads(p, cs, r);
    }
  }
}
