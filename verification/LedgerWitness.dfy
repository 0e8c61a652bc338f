/**
 A run that breaks the ledger: with one lot per entry the first warning sells the whole position, and
 the later full exit then sells one lot that was never bought.
 */
module LedgerWitness {
  import opened Arithmetic
  import opened Market
  import opened Indicators
  import opened LeverageInverse
  import opened Machines
  import opened Ledger
  import opened Wrappers

  const PARAMS: ValidParams := Params(3, 2, 2, 2, 1, 100.0, 1.0, 50.0, 60.0, -50.0, -60.0, 1, 0.4, 10.0)

  const ONE_LOT := Config("demo", "U", "LONG", "SHORT", 1, PARAMS)

  function Bar(close: real): Candle {
    Candle("U", close, close + 1.0, close, close, 0, 0, "domestic")
  }

  function Bars(closes: seq<real>): seq<Candle> {
    seq(|closes|, i requires 0 <= i < |closes| => Bar(closes[i]))
  }

  /** The CCI of two bars depends on which close is higher, and on nothing else. */
  function PairCci(a: real, b: real): real {
    CciAt([a + 1.0 / 3.0, b + 1.0 / 3.0])
  }

  lemma Sum2(a: real, b: real)
    ensures Sum([a, b]) == a + b && Mean([a, b]) == (a + b) / 2.0
  {
    assert [a, b][..1] == [a] && [a][..0] == [];
    assert Sum([a]) == a;
  }

  lemma PairCciValue(a: real, b: real)
    ensures b >= a + 1.0 ==> PairCci(a, b) == 200.0 / 3.0
    ensures a >= b + 1.0 ==> PairCci(a, b) == -200.0 / 3.0
    ensures a == b ==> PairCci(a, b) == 0.0
  {
    var x, y := a + 1.0 / 3.0, b + 1.0 / 3.0;
    Sum2(x, y);
    var mean := (x + y) / 2.0;
    assert Deviations([x, y]) == [x - mean, y - mean];
    assert AbsAll([x - mean, y - mean]) == [Abs(x - mean), Abs(y - mean)];
    Sum2(Abs(x - mean), Abs(y - mean));
    var d := y - mean;
    assert MeanDeviation([x, y]) == Abs(d);
    if d > 0.0 {
      UnitRatio(d);
    } else if d < 0.0 {
      UnitRatio(-d);
      NegatedRatio(-d, 0.015 * -d);
    }
  }

  lemma UnitRatio(d: real)
    requires d > 0.0
    ensures d / (0.015 * d) == 200.0 / 3.0
  {
    var q := d / (0.015 * d);
    assert q * (0.015 * d) == d;
    Cancel(0.015 * q, d);
  }

  lemma Cancel(x: real, d: real)
    requires d > 0.0 && x * d == d
    ensures x == 1.0
  {
    assert (x - 1.0) * d == 0.0;
  }

  lemma TypicalBar(close: real)
    ensures TypicalPrice(Bar(close)) == close + 1.0 / 3.0
  {
  }

  lemma BarsCci(closes: seq<real>)
    requires |closes| == 7
    ensures var cci := Cci(Bars(closes), 2);
            |cci| == 6 && forall j :: 0 <= j < 6 ==> cci[j] == PairCci(closes[j], closes[j + 1])
  {
    var tps := TypicalPrices(Bars(closes));
    forall j | 0 <= j < 6 ensures CciOf(tps, 2)[j] == PairCci(closes[j], closes[j + 1]) {
      RollingAt(CciAt, tps, 2, j);
      TypicalBar(closes[j]);
      TypicalBar(closes[j + 1]);
      assert tps[j..j + 2] == [tps[j], tps[j + 1]];
    }
  }

  lemma PairSignal(cci: seq<real>)
    requires |cci| == 6
    ensures var signal := Sma(cci, 2);
            |signal| == 5 && forall j :: 0 <= j < 5 ==> signal[j] == (cci[j] + cci[j + 1]) / 2.0
  {
    forall j | 0 <= j < 5 ensures Sma(cci, 2)[j] == (cci[j] + cci[j + 1]) / 2.0 {
      RollingAt(MeanAt, cci, 2, j);
      assert cci[j..j + 2] == [cci[j], cci[j + 1]];
      Sum2(cci[j], cci[j + 1]);
    }
  }

  /** The readings of seven bars, as far as a decision looks at them. */
  lemma BarsReadings(closes: seq<real>)
    requires |closes| == 7 && |Dema(closes, 3)| == 3
    ensures var r := ReadingsOf(PARAMS, Bars(closes));
            && r.Some? && r.value.dema == Dema(closes, 3) && |r.value.cci| == |r.value.signal| == 5
            && r.value.cci[3] == PairCci(closes[4], closes[5]) && r.value.cci[4] == PairCci(closes[5], closes[6])
            && r.value.signal[3] == (PairCci(closes[3], closes[4]) + PairCci(closes[4], closes[5])) / 2.0
            && r.value.signal[4] == (PairCci(closes[4], closes[5]) + PairCci(closes[5], closes[6])) / 2.0
            && |r.value.stochD| == 6 && r.value.stochD[5] == KAt([Bar(closes[5]), Bar(closes[6])])
  {
    assert Closes(Bars(closes)) == closes;
    BarsCci(closes);
    PairSignal(Cci(Bars(closes), 2));
    BarsStochastic(closes);
  }

  lemma BarsStochastic(closes: seq<real>)
    requires |closes| == 7
    ensures var d := Sma(StochasticK(Bars(closes), 2), 1); |d| == 6 && d[5] == KAt([Bar(closes[5]), Bar(closes[6])])
  {
    var k := StochasticK(Bars(closes), 2);
    RollingAt(KAt, Bars(closes), 2, 5);
    assert Bars(closes)[5..7] == [Bar(closes[5]), Bar(closes[6])];
    RollingAt(MeanAt, k, 1, 5);
    assert k[5..6] == [k[5]];
    Mean1(k[5]);
  }

  lemma Mean1(x: real)
    ensures MeanAt([x]) == x
  {
    assert [x][..0] == [];
    assert Sum([x]) == x;
  }

  // ----- the moving averages, value by value

  lemma HalfWay(last: real, x: real)
    ensures Smooth(last, x, 2.0 / (3 + 1) as real) == (x + last) / 2.0
  {
    assert 2.0 / (3 + 1) as real == 0.5;
  }

  lemma EmaSnoc(values: seq<real>, x: real, before: seq<real>)
    requires |values| >= 3 && Ema(values, 3) == before
    ensures Ema(values + [x], 3) == before + [(x + before[|before| - 1]) / 2.0]
  {
    var longer := values + [x];
    assert longer[..|longer| - 1] == values && longer[|longer| - 1] == x;
    HalfWay(before[|before| - 1], x);
  }

  lemma EmaSeed(a: real, b: real, c: real)
    ensures Ema([a, b, c], 3) == [(a + b + c) / 3.0]
  {
    Sum2(a, b);
    assert [a, b, c][..2] == [a, b];
  }

  lemma Ema5(a: real, b: real, c: real, d: real, e: real) returns (m0: real, m1: real, m2: real)
    ensures m0 == (a + b + c) / 3.0 && m1 == (d + m0) / 2.0 && m2 == (e + m1) / 2.0
    ensures Ema([a, b, c, d, e], 3) == [m0, m1, m2]
  {
    m0 := (a + b + c) / 3.0;
    m1 := (d + m0) / 2.0;
    m2 := (e + m1) / 2.0;
    EmaSeed(a, b, c);
    EmaSnoc([a, b, c], d, [m0]);
    assert [a, b, c] + [d] == [a, b, c, d];
    EmaSnoc([a, b, c, d], e, [m0, m1]);
    assert [a, b, c, d] + [e] == [a, b, c, d, e];
  }

  lemma Dema7(a: real, b: real, c: real, d: real, e: real, f: real, g: real) returns (x: real, y: real, z: real)
    ensures var m0 := (a + b + c) / 3.0;
            var m1 := (d + m0) / 2.0;
            var m2 := (e + m1) / 2.0;
            var m3 := (f + m2) / 2.0;
            var m4 := (g + m3) / 2.0;
            var n0 := (m0 + m1 + m2) / 3.0;
            var n1 := (m3 + n0) / 2.0;
            var n2 := (m4 + n1) / 2.0;
            x == 2.0 * m2 - n0 && y == 2.0 * m3 - n1 && z == 2.0 * m4 - n2
    ensures Dema([a, b, c, d, e, f, g], 3) == [x, y, z]
  {
    var m0, m1, m2 := Ema5(a, b, c, d, e);
    var m3 := (f + m2) / 2.0;
    var m4 := (g + m3) / 2.0;
    EmaSnoc([a, b, c, d, e], f, [m0, m1, m2]);
    assert [a, b, c, d, e] + [f] == [a, b, c, d, e, f];
    EmaSnoc([a, b, c, d, e, f], g, [m0, m1, m2, m3]);
    assert [a, b, c, d, e, f] + [g] == [a, b, c, d, e, f, g];
    var ema1 := [m0, m1, m2, m3, m4];
    assert Ema([a, b, c, d, e, f, g], 3) == ema1;
    var n0, n1, n2 := Ema5(m0, m1, m2, m3, m4);
    assert ema1[2..] == [m2, m3, m4];
    x, y, z := 2.0 * m2 - n0, 2.0 * m3 - n1, 2.0 * m4 - n2;
  }

  const RISE := [10.0, 10.0, 10.0, 10.0, 10.0, 10.0, 20.0]
  const PAUSE := [10.0, 10.0, 10.0, 10.0, 10.0, 20.0, 20.0]
  const FALL := [10.0, 10.0, 10.0, 10.0, 20.0, 20.0, 5.0]

  lemma Demas()
    ensures Dema(RISE, 3) == [10.0, 10.0, 17.5]
    ensures Dema(PAUSE, 3) == [10.0, 17.5, 20.0]
    ensures |Dema(FALL, 3)| == 3 && Dema(FALL, 3)[2] < Dema(FALL, 3)[1] && Dema(FALL, 3)[1] - Dema(FALL, 3)[0] > 0.0
  {
    var _, _, _ := Dema7(10.0, 10.0, 10.0, 10.0, 10.0, 10.0, 20.0);
    var _, _, _ := Dema7(10.0, 10.0, 10.0, 10.0, 10.0, 20.0, 20.0);
    var _, _, _ := Dema7(10.0, 10.0, 10.0, 10.0, 20.0, 20.0, 5.0);
  }

  lemma Swings(closes: seq<real>)
    requires |closes| == 7
    ensures SwingHigh(Bars(closes), 1) == Some(closes[5] + 1.0) && SwingLow(Bars(closes), 1) == Some(closes[5])
  {
    assert SwingWindow(Bars(closes), 1) == [Bar(closes[5])];
  }

  lemma RiseStochastic()
    ensures KAt([Bar(10.0), Bar(20.0)]) < 100.0
  {
    var w := [Bar(10.0), Bar(20.0)];
    assert w[..1] == [Bar(10.0)];
    assert Highest([Bar(10.0)]) == 11.0 && Lowest([Bar(10.0)]) == 10.0;
    assert Highest(w) == 21.0 && Lowest(w) == 10.0;
    assert KAt(w) == 10.0 / 11.0 * 100.0;
  }

  /** The four steps of the run. */
  lemma EntersOnRise()
    ensures Step(ONE_LOT, INITIAL, TICK, Bars(RISE))
            == (State(LeverageHolding, 1, false, false), Some(Signal("demo", "LONG", Buy, 1, None)))
  {
    Demas();
    BarsReadings(RISE);
    var r := ReadingsOf(PARAMS, Bars(RISE)).value;
    assert EvaluateLeverageEntry(r, Bars(RISE), PARAMS).AllMet() by {
      Demas();
      Swings(RISE);
      RiseStochastic();
      PairCciValue(10.0, 10.0);
      PairCciValue(10.0, 20.0);
    }
  }

  lemma WarnsOnRise()
    ensures Step(ONE_LOT, State(LeverageHolding, 1, false, false), TICK, Bars(RISE))
            == (State(LeverageHolding, 1, true, false), None)
  {
    Demas();
    BarsReadings(RISE);
    Swings(RISE);
    PairCciValue(10.0, 10.0);
    PairCciValue(10.0, 20.0);
  }

  lemma SellsAllOnPause()
    ensures Step(ONE_LOT, State(LeverageHolding, 1, true, false), TICK, Bars(PAUSE))
            == (State(LeveragePartial, 0, true, false), Some(Signal("demo", "LONG", Sell, 1, None)))
  {
    Demas();
    BarsReadings(PAUSE);
    Swings(PAUSE);
    PairCciValue(10.0, 10.0);
    PairCciValue(10.0, 20.0);
    PairCciValue(20.0, 20.0);
  }

  lemma SellsAgainOnFall()
    ensures Step(ONE_LOT, State(LeveragePartial, 0, true, false), TICK, Bars(FALL))
            == (INITIAL, Some(Signal("demo", "LONG", Sell, 1, None)))
  {
    Demas();
    BarsReadings(FALL);
    Swings(FALL);
    PairCciValue(20.0, 5.0);
  }

  const TICK := Tick("U", 0.0, 0, 0, "domestic")

  ghost predicate StepsTo<S, I, O>(step: (S, I) -> (S, Option<O>), s: S, i: I, s': S, out: Option<O>) {
    step(s, i) == (s', out)
  }

  /** Any machine that takes these four steps has bought one lot and sold two. */
  lemma FourSteps(
    step: (State, Input) -> (State, Option<Signal>), i: Input, j: Input, k: Input, s1: State, s2: State, s3: State,
    buy: Signal, sell: Signal)
    requires StepsTo<State, Input, Signal>(step, INITIAL, i, s1, Some(buy))
            && StepsTo<State, Input, Signal>(step, s1, i, s2, None)
    requires StepsTo<State, Input, Signal>(step, s2, j, s3, Some(sell))
            && StepsTo<State, Input, Signal>(step, s3, k, INITIAL, Some(sell))
    requires buy.symbol == sell.symbol && buy.side == Buy && sell.side == Sell && buy.qty == sell.qty == 1
    ensures Net(Fold(step, INITIAL, [i, i, j, k]).1, buy.symbol) == -1
  {
    FoldSnoc(step, INITIAL, [], i);
    assert [] + [i] == [i] && [] + [buy] == [buy];
    FoldSnoc(step, INITIAL, [i], i);
    assert [i] + [i] == [i, i] && [buy] + [] == [buy];
    FoldSnoc(step, INITIAL, [i, i], j);
    assert [i, i] + [j] == [i, i, j] && [buy] + [sell] == [buy, sell];
    FoldSnoc(step, INITIAL, [i, i, j], k);
    assert [i, i, j] + [k] == [i, i, j, k] && [buy, sell] + [sell] == [buy, sell, sell];
    BoughtOneSoldTwo(buy, sell);
  }

  lemma BoughtOneSoldTwo(a: Signal, b: Signal)
    requires a.symbol == b.symbol && a.side == Buy && b.side == Sell && a.qty == b.qty == 1
    ensures Net([a, b, b], a.symbol) == -1
  {
    assert [a, b, b][..2] == [a, b] && [a, b][..1] == [a] && [a][..0] == [];
    assert Net([a], a.symbol) == 1;
    assert Net([a, b], a.symbol) == 0;
  }

  /** Bought one, sold two. */
  lemma OversellsOneLot()
    ensures !LeavesRemainder(ONE_LOT)
    ensures var rise, pause, fall := Input(TICK, Bars(RISE)), Input(TICK, Bars(PAUSE)), Input(TICK, Bars(FALL));
            Net(Fold(Machine(ONE_LOT), INITIAL, [rise, rise, pause, fall]).1, "LONG") == -1
  {
    var m, buy, sell := Machine(ONE_LOT), Signal("demo", "LONG", Buy, 1, None), Signal("demo", "LONG", Sell, 1, None);
    var s1, s2, s3 := State(LeverageHolding, 1, false, false), State(LeverageHolding, 1, true, false),
        State(LeveragePartial, 0, true, false);
    assert StepsTo<State, Input, Signal>(m, INITIAL, Input(TICK, Bars(RISE)), s1, Some(buy)) by { EntersOnRise(); }
    assert StepsTo<State, Input, Signal>(m, s1, Input(TICK, Bars(RISE)), s2, None) by { WarnsOnRise(); }
    assert StepsTo<State, Input, Signal>(m, s2, Input(TICK, Bars(PAUSE)), s3, Some(sell)) by { SellsAllOnPause(); }
    assert StepsTo<State, Input, Signal>(m, s3, Input(TICK, Bars(FALL)), INITIAL, Some(sell)) by { SellsAgainOnFall(); }
    FourSteps(m, Input(TICK, Bars(RISE)), Input(TICK, Bars(PAUSE)), Input(TICK, Bars(FALL)), s1, s2, s3, buy, sell);
  }
}
