/** What holds of every indicator list: a hard bound, stability under new candles, and mirror symmetry. */
module IndicatorLaws {
  import opened Arithmetic
  import opened Market
  import opened Indicators
  import opened Wrappers

  // ----- the CCI bound

  lemma DeviationsCancel(window: seq<real>)
    requires |window| > 0
    ensures Sum(Deviations(window)) == 0.0
  {
    var mean, n := Mean(window), |window| as real;
    SumReflect(mean, window);
    SumReflect(0.0, Reflect(mean, window));
    assert mean * n == Sum(window);
  }

  /** The newest deviation is balanced by the others, so it is at most half of the total. */
  lemma NewestDeviation(window: seq<real>)
    requires |window| > 0
    ensures 2.0 * Abs(window[|window| - 1] - Mean(window)) <= Sum(AbsAll(Deviations(window)))
  {
    var devs, n := Deviations(window), |window| - 1;
    DeviationsCancel(window);
    SumAbs(devs[..n]);
    assert AbsAll(devs)[..n] == AbsAll(devs[..n]);
  }

  lemma CciAtBound(window: seq<real>)
    requires |window| > 0
    ensures Abs(CciAt(window)) <= |window| as real / 0.03
  {
    var md, n := MeanDeviation(window), |window| as real;
    if md >= FLAT {
      var d := window[|window| - 1] - Mean(window);
      NewestDeviation(window);
      assert md * n == Sum(AbsAll(Deviations(window)));
      assert n / 0.03 * (0.015 * md) == n * md / 2.0;
      DivideWithin(d, n / 0.03, 0.015 * md);
    }
  }

  ghost predicate BoundedAt<A>(f: seq<A> -> real, xs: seq<A>, period: nat, bound: real, j: int)
    requires 0 <= j <= |xs| - period
  {
    Abs(f(xs[j..j + period])) <= bound
  }

  /** What bounds every window bounds the whole list. */
  lemma RollingBound<A>(f: seq<A> -> real, xs: seq<A>, period: nat, bound: real)
    requires period >= 1 && forall j :: 0 <= j <= |xs| - period ==> BoundedAt(f, xs, period, bound, j)
    ensures forall j :: 0 <= j < |Rolling(f, xs, period)| ==> Abs(Rolling(f, xs, period)[j]) <= bound
  {
    var r := Rolling(f, xs, period);
    forall j | 0 <= j < |r| ensures Abs(r[j]) <= bound {
      RollingAt(f, xs, period, j);
      assert BoundedAt(f, xs, period, bound, j);
    }
  }

  lemma CciValuesBound(tps: seq<real>, period: nat)
    requires period >= 1
    ensures var cci := CciOf(tps, period); forall j :: 0 <= j < |cci| ==> Abs(cci[j]) <= period as real / 0.03
  {
    var bound := period as real / 0.03;
    forall j | 0 <= j <= |tps| - period ensures BoundedAt(CciAt, tps, period, bound, j) {
      CciAtBound(tps[j..j + period]);
    }
    RollingBound(CciAt, tps, period, bound);
  }

  lemma SmaBound(values: seq<real>, period: nat, bound: real)
    requires period >= 1 && forall j :: 0 <= j < |values| ==> Abs(values[j]) <= bound
    ensures var sma := Sma(values, period); forall j :: 0 <= j < |sma| ==> Abs(sma[j]) <= bound
  {
    forall j | 0 <= j <= |values| - period ensures BoundedAt(MeanAt, values, period, bound, j) {
      MeanBound(values[j..j + period], bound);
    }
    RollingBound(MeanAt, values, period, bound);
  }

  /** Every CCI value and every signal-line value of any candle list is within period / 0.03 of zero. */
  lemma CciBound(cs: seq<Candle>, period: nat, signalPeriod: nat)
    requires period >= 1 && signalPeriod >= 1
    ensures forall v :: v in Cci(cs, period) ==> Abs(v) <= period as real / 0.03
    ensures forall v :: v in Sma(Cci(cs, period), signalPeriod) ==> Abs(v) <= period as real / 0.03
  {
    CciValuesBound(TypicalPrices(cs), period);
    SmaBound(Cci(cs, period), signalPeriod, period as real / 0.03);
  }

  // ----- the range of %K

  /** The extremes of a window bound its bars, and some bar attains each. */
  lemma {:induction false} HighestBounds(window: seq<Candle>) returns (at: nat)
    requires |window| > 0
    ensures forall i :: 0 <= i < |window| ==> window[i].high <= Highest(window)
    ensures at < |window| && window[at].high == Highest(window)
  {
    var n := |window| - 1;
    if n == 0 {
      at := 0;
    } else {
      at := HighestBounds(window[..n]);
      if window[n].high > Highest(window[..n]) {
        at := n;
      }
    }
  }

  lemma {:induction false} LowestBounds(window: seq<Candle>) returns (at: nat)
    requires |window| > 0
    ensures forall i :: 0 <= i < |window| ==> window[i].low >= Lowest(window)
    ensures at < |window| && window[at].low == Lowest(window)
  {
    var n := |window| - 1;
    if n == 0 {
      at := 0;
    } else {
      at := LowestBounds(window[..n]);
      if window[n].low < Lowest(window[..n]) {
        at := n;
      }
    }
  }

  /**
   A close inside its own bar gives a percentage. In a window that is not flat, 0 and 100 mean that it stands
   on the lowest low or the highest high.
   */
  lemma KExtremes(window: seq<Candle>)
    requires |window| > 0 && window[|window| - 1].low <= window[|window| - 1].close <= window[|window| - 1].high
    ensures 0.0 <= KAt(window) <= 100.0
    ensures Highest(window) - Lowest(window) >= FLAT ==>
              (KAt(window) == 0.0 <==> window[|window| - 1].close == Lowest(window))
              && (KAt(window) == 100.0 <==> window[|window| - 1].close == Highest(window))
  {
    CloseWithin(window);
    if Highest(window) - Lowest(window) >= FLAT {
      Percentage(window[|window| - 1].close - Lowest(window), Highest(window) - Lowest(window));
    }
  }

  lemma CloseWithin(window: seq<Candle>)
    requires |window| > 0 && window[|window| - 1].low <= window[|window| - 1].close <= window[|window| - 1].high
    ensures Lowest(window) <= window[|window| - 1].close <= Highest(window)
  {
    var _ := HighestBounds(window);
    var _ := LowestBounds(window);
  }

  lemma Percentage(part: real, whole: real)
    requires 0.0 <= part <= whole && whole > 0.0
    ensures 0.0 <= part / whole * 100.0 <= 100.0
    ensures (part / whole * 100.0 == 0.0 <==> part == 0.0) && (part / whole * 100.0 == 100.0 <==> part == whole)
  {
    var q := part / whole;
    assert q * whole == part;
  }

  // ----- no repainting: new input only appends output

  lemma RollingStable<A, B>(f: seq<A> -> B, xs: seq<A>, more: seq<A>, period: nat)
    requires period >= 1
    ensures Rolling(f, xs, period) <= Rolling(f, xs + more, period)
  {
    var before, after := Rolling(f, xs, period), Rolling(f, xs + more, period);
    forall j | 0 <= j < |before| ensures before[j] == after[j] {
      RollingAt(f, xs, period, j);
      RollingAt(f, xs + more, period, j);
      assert (xs + more)[j..j + period] == xs[j..j + period];
    }
  }

  lemma SmaStable(values: seq<real>, more: seq<real>, period: nat)
    requires period >= 1
    ensures Sma(values, period) <= Sma(values + more, period)
  {
    RollingStable(MeanAt, values, more, period);
  }

  lemma {:induction false} EmaStable(values: seq<real>, more: seq<real>, period: nat)
    requires period >= 1
    ensures Ema(values, period) <= Ema(values + more, period)
  {
    if |more| == 0 {
      assert values + more == values;
    } else {
      var n := |more| - 1;
      EmaStable(values, more[..n], period);
      assert (values + more)[..|values| + n] == values + more[..n];
    }
  }

  lemma DemaStable(values: seq<real>, more: seq<real>, period: nat)
    requires period >= 1
    ensures Dema(values, period) <= Dema(values + more, period)
  {
    var ema, ema' := Ema(values, period), Ema(values + more, period);
    EmaStable(values, more, period);
    if |ema| >= period {
      EmaStable(ema, ema'[|ema|..], period);
      assert ema + ema'[|ema|..] == ema';
      assert forall j :: period - 1 <= j < |ema| ==> ema[j] == ema'[j];
      CombineStable(ema[period - 1..], Ema(ema, period), ema'[period - 1..], Ema(ema', period));
    }
  }

  lemma CombineStable(xs: seq<real>, ys: seq<real>, xs': seq<real>, ys': seq<real>)
    requires |xs| == |ys| && |xs'| == |ys'| && xs <= xs' && ys <= ys'
    ensures Combine(xs, ys) <= Combine(xs', ys')
  {
  }

  lemma CciStable(cs: seq<Candle>, more: seq<Candle>, period: nat)
    requires period >= 1
    ensures Cci(cs, period) <= Cci(cs + more, period)
  {
    assert TypicalPrices(cs + more) == TypicalPrices(cs) + TypicalPrices(more);
    RollingStable(CciAt, TypicalPrices(cs), TypicalPrices(more), period);
  }

  lemma KStable(cs: seq<Candle>, more: seq<Candle>, period: nat)
    requires period >= 1
    ensures StochasticK(cs, period) <= StochasticK(cs + more, period)
  {
    RollingStable(KAt, cs, more, period);
  }

  lemma {:induction false} PivotsStable(cs: seq<Candle>, more: seq<Candle>, left: nat, right: nat, upTo: int)
    requires upTo <= |cs| - right
    ensures PivotsBefore(cs, left, right, upTo) == PivotsBefore(cs + more, left, right, upTo)
    decreases upTo - left
  {
    if upTo <= left {
    } else {
      PivotsStable(cs, more, left, right, upTo - 1);
      assert forall j :: 0 <= j < |cs| ==> (cs + more)[j] == cs[j];
    }
  }

  lemma {:induction false} PivotsGrow(cs: seq<Candle>, left: nat, right: nat, upTo: int, later: int)
    requires upTo <= later <= |cs| - right
    ensures PivotsBefore(cs, left, right, upTo) <= PivotsBefore(cs, left, right, later)
    decreases later - upTo
  {
    if upTo == later {
    } else {
      PivotsGrow(cs, left, right, upTo, later - 1);
    }
  }

  /**
   Appending candles only appends to the outputs: a value once shown is never revised, by any of
   the CCI, its signal line, the EMA, the DEMA, %K, %D and the pivot lows.
   */
  lemma NoRepainting(cs: seq<Candle>, more: seq<Candle>, p: nat, q: nat, left: nat, right: nat)
    requires p >= 1 && q >= 1
    ensures Cci(cs, p) <= Cci(cs + more, p)
    ensures Sma(Cci(cs, p), q) <= Sma(Cci(cs + more, p), q)
    ensures Ema(Closes(cs), p) <= Ema(Closes(cs + more), p)
    ensures Dema(Closes(cs), p) <= Dema(Closes(cs + more), p)
    ensures StochasticK(cs, p) <= StochasticK(cs + more, p)
    ensures Sma(StochasticK(cs, p), q) <= Sma(StochasticK(cs + more, p), q)
    ensures PivotLows(cs, left, right) <= PivotLows(cs + more, left, right)
  {
    CciStable(cs, more, p);
    SmaSuffix(Cci(cs, p), Cci(cs + more, p), q);
    AveragesStable(cs, more, p);
    KStable(cs, more, p);
    SmaSuffix(StochasticK(cs, p), StochasticK(cs + more, p), q);
    PivotLowsStable(cs, more, left, right);
  }

  lemma AveragesStable(cs: seq<Candle>, more: seq<Candle>, p: nat)
    requires p >= 1
    ensures Ema(Closes(cs), p) <= Ema(Closes(cs + more), p)
    ensures Dema(Closes(cs), p) <= Dema(Closes(cs + more), p)
  {
    assert Closes(cs + more) == Closes(cs) + Closes(more);
    EmaStable(Closes(cs), Closes(more), p);
    DemaStable(Closes(cs), Closes(more), p);
  }

  lemma PivotLowsStable(cs: seq<Candle>, more: seq<Candle>, left: nat, right: nat)
    ensures PivotLows(cs, left, right) <= PivotLows(cs + more, left, right)
  {
    PivotsStable(cs, more, left, right, |cs| - right);
    PivotsGrow(cs + more, left, right, |cs| - right, |cs + more| - right);
  }

  lemma SmaSuffix(values: seq<real>, longer: seq<real>, period: nat)
    requires period >= 1 && values <= longer
    ensures Sma(values, period) <= Sma(longer, period)
  {
    assert values + longer[|values|..] == longer;
    SmaStable(values, longer[|values|..], period);
  }

  /** The list of pivots holds exactly the bars no lower than which their neighbours are, with their lows. */
  lemma {:induction false} PivotsExact(cs: seq<Candle>, left: nat, right: nat, upTo: int, i: int, low: real)
    requires upTo <= |cs| - right
    ensures (i, low) in PivotsBefore(cs, left, right, upTo)
        <==> left <= i < upTo && IsPivotLow(cs, i, left, right) && low == cs[i].low
    decreases upTo - left
  {
    if upTo <= left {
    } else {
      PivotsExact(cs, left, right, upTo - 1, i, low);
    }
  }

  // ----- mirror symmetry

  /** One window's value reflects when the window is replaced by its mirror image. */
  ghost predicate ReflectsAt<A>(f: seq<A> -> real, c: real, xs: seq<A>, ys: seq<A>, period: nat, j: int)
    requires |xs| == |ys| && 0 <= j <= |xs| - period
  {
    f(ys[j..j + period]) == c - f(xs[j..j + period])
  }

  lemma RollingReflect<A>(f: seq<A> -> real, c: real, xs: seq<A>, ys: seq<A>, period: nat)
    requires period >= 1 && |xs| == |ys|
    requires forall j :: 0 <= j <= |xs| - period ==> ReflectsAt(f, c, xs, ys, period, j)
    ensures Rolling(f, ys, period) == Reflect(c, Rolling(f, xs, period))
  {
    var r, s := Rolling(f, ys, period), Rolling(f, xs, period);
    forall j | 0 <= j < |s| ensures r[j] == c - s[j] {
      RollingAt(f, xs, period, j);
      RollingAt(f, ys, period, j);
      assert ReflectsAt(f, c, xs, ys, period, j);
    }
  }

  lemma ReflectSlice(c: real, xs: seq<real>, low: nat, high: nat)
    requires low <= high <= |xs|
    ensures Reflect(c, xs)[low..high] == Reflect(c, xs[low..high])
  {
  }

  lemma MirrorSlice(axis: real, cs: seq<Candle>, low: nat, high: nat)
    requires low <= high <= |cs|
    ensures MirrorAll(axis, cs)[low..high] == MirrorAll(axis, cs[low..high])
  {
  }

  lemma SmaReflect(c: real, values: seq<real>, period: nat)
    requires period >= 1
    ensures Sma(Reflect(c, values), period) == Reflect(c, Sma(values, period))
  {
    forall j | 0 <= j <= |values| - period ensures ReflectsAt(MeanAt, c, values, Reflect(c, values), period, j) {
      MeanReflect(c, values[j..j + period]);
      ReflectSlice(c, values, j, j + period);
    }
    RollingReflect(MeanAt, c, values, Reflect(c, values), period);
  }

  lemma {:induction false} EmaReflect(c: real, values: seq<real>, period: nat)
    requires period >= 1
    ensures Ema(Reflect(c, values), period) == Reflect(c, Ema(values, period))
  {
    if |values| < period {
    } else if |values| == period {
      MeanReflect(c, values);
    } else {
      var n := |values| - 1;
      EmaReflect(c, values[..n], period);
      assert Reflect(c, values)[..n] == Reflect(c, values[..n]);
      var before := Ema(values[..n], period);
      SmoothReflect(c, before[|before| - 1], values[n], 2.0 / (period + 1) as real);
    }
  }

  lemma SmoothReflect(c: real, last: real, value: real, m: real)
    ensures Smooth(c - last, c - value, m) == c - Smooth(last, value, m)
  {
    assert (c - value) * m == c * m - value * m;
    assert (c - last) * (1.0 - m) == c - c * m - last * (1.0 - m);
  }

  lemma DemaReflect(c: real, values: seq<real>, period: nat)
    requires period >= 1
    ensures Dema(Reflect(c, values), period) == Reflect(c, Dema(values, period))
  {
    var ema := Ema(values, period);
    EmaReflect(c, values, period);
    if |ema| >= period {
      EmaReflect(c, ema, period);
      ReflectDrop(c, ema, period - 1);
      CombineReflect(c, ema[period - 1..], Ema(ema, period));
    }
  }

  lemma ReflectDrop(c: real, xs: seq<real>, n: nat)
    requires n <= |xs|
    ensures Reflect(c, xs)[n..] == Reflect(c, xs[n..])
  {
  }

  lemma CombineReflect(c: real, xs: seq<real>, ys: seq<real>)
    requires |xs| == |ys|
    ensures Combine(Reflect(c, xs), Reflect(c, ys)) == Reflect(c, Combine(xs, ys))
  {
  }

  lemma CciAtReflect(c: real, window: seq<real>)
    requires |window| > 0
    ensures CciAt(Reflect(c, window)) == -CciAt(window)
  {
    MeanReflect(c, window);
    assert AbsAll(Deviations(Reflect(c, window))) == AbsAll(Deviations(window));
    var d, md := window[|window| - 1] - Mean(window), 0.015 * MeanDeviation(window);
    if md > 0.0 {
      NegatedRatio(d, md);
    }
  }

  lemma TypicalMirror(axis: real, cs: seq<Candle>)
    ensures TypicalPrices(MirrorAll(axis, cs)) == Reflect(axis, TypicalPrices(cs))
  {
  }

  lemma CciMirror(axis: real, cs: seq<Candle>, period: nat)
    requires period >= 1
    ensures Cci(MirrorAll(axis, cs), period) == Reflect(0.0, Cci(cs, period))
  {
    TypicalMirror(axis, cs);
    CciReflect(axis, TypicalPrices(cs), period);
  }

  lemma CciReflect(c: real, tps: seq<real>, period: nat)
    requires period >= 1
    ensures CciOf(Reflect(c, tps), period) == Reflect(0.0, CciOf(tps, period))
  {
    forall j | 0 <= j <= |tps| - period ensures ReflectsAt(CciAt, 0.0, tps, Reflect(c, tps), period, j) {
      CciAtReflect(c, tps[j..j + period]);
      ReflectSlice(c, tps, j, j + period);
    }
    RollingReflect(CciAt, 0.0, tps, Reflect(c, tps), period);
  }

  lemma {:induction false} HighestMirror(axis: real, window: seq<Candle>)
    requires |window| > 0
    ensures Highest(MirrorAll(axis, window)) == axis - Lowest(window)
    ensures Lowest(MirrorAll(axis, window)) == axis - Highest(window)
  {
    var n := |window| - 1;
    if n == 0 {
    } else {
      HighestMirror(axis, window[..n]);
      assert MirrorAll(axis, window)[..n] == MirrorAll(axis, window[..n]);
    }
  }

  lemma KAtMirror(axis: real, window: seq<Candle>)
    requires |window| > 0
    ensures KAt(MirrorAll(axis, window)) == 100.0 - KAt(window)
  {
    HighestMirror(axis, window);
    var close, lowest, range := window[|window| - 1].close, Lowest(window), Highest(window) - Lowest(window);
    if range >= FLAT {
      DropRatio(range, close - lowest);
    }
  }

  lemma KMirror(axis: real, cs: seq<Candle>, period: nat)
    requires period >= 1
    ensures StochasticK(MirrorAll(axis, cs), period) == Reflect(100.0, StochasticK(cs, period))
  {
    forall j | 0 <= j <= |cs| - period ensures ReflectsAt(KAt, 100.0, cs, MirrorAll(axis, cs), period, j) {
      KAtMirror(axis, cs[j..j + period]);
      MirrorSlice(axis, cs, j, j + period);
    }
    RollingReflect(KAt, 100.0, cs, MirrorAll(axis, cs), period);
  }

  /** The swing high of the mirrored bars is the reflected swing low, and the other way round. */
  lemma SwingMirror(axis: real, cs: seq<Candle>, n: nat)
    ensures SwingHigh(MirrorAll(axis, cs), n)
            == match SwingLow(cs, n) case None => None case Some(low) => Some(axis - low)
    ensures SwingLow(MirrorAll(axis, cs), n)
            == match SwingHigh(cs, n) case None => None case Some(high) => Some(axis - high)
  {
    var window := SwingWindow(cs, n);
    assert SwingWindow(MirrorAll(axis, cs), n) == MirrorAll(axis, window);
    if window != [] {
      HighestMirror(axis, window);
    }
  }

  /** Negating both lists turns every golden cross into a dead cross. */
  lemma CrossMirror(cci: seq<real>, signal: seq<real>)
    ensures GoldenCross(Reflect(0.0, cci), Reflect(0.0, signal)) <==> DeadCross(cci, signal)
    ensures DeadCross(Reflect(0.0, cci), Reflect(0.0, signal)) <==> GoldenCross(cci, signal)
  {
  }

  /** Reflecting a list turns every upturn into a downturn. */
  lemma SlopeMirror(c: real, dema: seq<real>)
    ensures SlopeUp(Reflect(c, dema)) <==> SlopeDown(dema)
    ensures SlopeDown(Reflect(c, dema)) <==> SlopeUp(dema)
  {
  }
}
