/**
 What trading costs in a backtest: every fill is made at the open moved against the trader, so that no fill has
 a negative friction and no run earns more than its price gains.
 */
module BacktestFriction {
  import opened Arithmetic
  import opened Market
  import opened Plugins
  import opened Backtest
  import opened BacktestMoney
  import opened BacktestCausality
  import opened Wrappers

  /** A trade at this open: a purchase above it by the slippage rate, a sale below it by the same rate. */
  predicate AgainstTrader(t: Trade, costs: Costs, open: real) {
    match t.side
    case Buy => t.price == open * (1.0 + costs.slippage) && t.price >= open
    case Sell => t.price == open * (1.0 - costs.slippage) && t.price <= open
  }

  lemma SlipsAgainst(open: real, rate: real)
    requires open >= 0.0 && rate >= 0.0
    ensures open * (1.0 + rate) >= open && open * (1.0 - rate) <= open
  {
    assert open * rate >= 0.0;
  }

  /** Every trade of every run fills at the open of the bar after its signal's, and never to the trader's advantage. */
  lemma FillsAgainst<S>(
    p: Plugin<S>, costs: Costs, state: S, capital: real, symbol: string, candles: seq<Candle>, k: nat)
    returns (bars: seq<nat>)
    requires k <= |candles| && After(p, costs, Fresh(state, capital), symbol, candles, k).Some?
    requires SoundCosts(costs) && PositiveOpens(candles)
    ensures var trades := After(p, costs, Fresh(state, capital), symbol, candles, k).value.book.trades;
            && |bars| == |trades|
            && forall j :: 0 <= j < |trades| ==>
                 bars[j] + 1 < |candles| && AgainstTrader(trades[j], costs, candles[bars[j] + 1].open)
  {
    var trades := After(p, costs, Fresh(state, capital), symbol, candles, k).value.book.trades;
    bars := NextOpenFills(p, costs, state, capital, symbol, candles, k);
    forall j | 0 <= j < |trades|
      ensures bars[j] + 1 < |candles| && AgainstTrader(trades[j], costs, candles[bars[j] + 1].open)
    {
      assert FillsAfter(trades[j], costs, candles, bars[j]);
      SlipsAgainst(candles[bars[j] + 1].open, costs.slippage);
    }
  }

  /** The three parts of what a trade costs at this open, none of them negative. */
  predicate CostsAtLeastNothing(t: Trade, open: real) {
    && (if t.side == Buy then t.price - open else open - t.price) * t.qty as real >= 0.0
    && t.commission >= 0.0 && t.tax >= 0.0
  }

  lemma FillCosts(costs: Costs, pending: Pending, bar: Candle, b: Book)
    requires SoundCosts(costs) && bar.open > 0.0 && b.cash >= 0.0 && b.qty >= 0
    ensures FillSignal(costs, pending, bar, b).Some?
    ensures var b' := FillSignal(costs, pending, bar, b).value;
            |b'.trades| > |b.trades| ==> CostsAtLeastNothing(b'.trades[|b.trades|], bar.open)
  {
    if pending.signal.side == Buy {
      PurchaseCosts(costs, pending, bar, b);
    } else {
      SaleCosts(costs, pending, bar, b);
    }
  }

  lemma PurchaseCosts(costs: Costs, pending: Pending, bar: Candle, b: Book)
    requires SoundCosts(costs) && bar.open > 0.0 && b.cash >= 0.0 && pending.signal.side == Buy
    ensures FillSignal(costs, pending, bar, b).Some?
    ensures var b' := FillSignal(costs, pending, bar, b).value;
            |b'.trades| > |b.trades| ==> CostsAtLeastNothing(b'.trades[|b.trades|], bar.open)
  {
    var lots := PurchaseExact(costs, pending, bar, b);
    if lots > 0 {
      SlipsAgainst(bar.open, costs.slippage);
      var t := FillSignal(costs, pending, bar, b).value.trades[|b.trades|];
      RecordCosts(t, pending, costs, bar, t.price, lots);
    }
  }

  lemma SaleCosts(costs: Costs, pending: Pending, bar: Candle, b: Book)
    requires SoundCosts(costs) && bar.open > 0.0 && b.qty >= 0 && pending.signal.side == Sell
    ensures FillSignal(costs, pending, bar, b).Some?
    ensures var b' := FillSignal(costs, pending, bar, b).value;
            |b'.trades| > |b.trades| ==> CostsAtLeastNothing(b'.trades[|b.trades|], bar.open)
  {
    var lots := SaleExact(costs, pending, bar, b);
    if lots > 0 {
      SlipsAgainst(bar.open, costs.slippage);
      Positive(bar.open, 1.0 - costs.slippage);
      var t := FillSignal(costs, pending, bar, b).value.trades[|b.trades|];
      RecordCosts(t, pending, costs, bar, t.price, lots);
    }
  }

  lemma RecordCosts(t: Trade, pending: Pending, costs: Costs, bar: Candle, price: real, lots: nat)
    requires SoundCosts(costs) && Records(t, pending, costs, bar, price, lots)
    requires price >= 0.0 && if t.side == Buy then price >= bar.open else price <= bar.open
    ensures CostsAtLeastNothing(t, bar.open)
  {
    NoGain(if t.side == Buy then price - bar.open else bar.open - price, t.qty as real);
    NoGain(price, lots as real);
    NoGain(price * lots as real, costs.commission);
    NoGain(price * lots as real, costs.tax);
  }

  lemma NoGain(a: real, b: real)
    requires a >= 0.0 && b >= 0.0
    ensures a * b >= 0.0
  {
  }

  lemma FrictionIs(t: Trade, open: real)
    ensures Friction(t, open)
            == (if t.side == Buy then t.price - open else open - t.price) * t.qty as real + t.commission + t.tax
  {
  }

  /** Over every run the frictions add up to something, never to a gain. */
  lemma {:induction false} FrictionCosts<S>(
    p: Plugin<S>, costs: Costs, state: S, capital: real, symbol: string, candles: seq<Candle>, k: nat)
    requires k <= |candles| && After(p, costs, Fresh(state, capital), symbol, candles, k).Some?
    requires SoundCosts(costs) && PositiveOpens(candles) && capital >= 0.0
    ensures Gains(p, costs, Fresh(state, capital), symbol, candles, k).1 >= 0.0
  {
    if k == 0 {
    } else {
      FrictionCosts(p, costs, state, capital, symbol, candles, k - 1);
      CashNonNegative(p, costs, state, capital, symbol, candles, k - 1);
      RunConserves(p, costs, state, capital, symbol, candles, k - 1);
      var before := After(p, costs, Fresh(state, capital), symbol, candles, k - 1).value;
      var after := Opened(p, costs, Fresh(state, capital), symbol, candles, k - 1).value;
      BarCosts(costs, before, candles[k - 1], after);
    }
  }

  lemma BarCosts<S>(costs: Costs, s: Sim<S>, bar: Candle, next: Sim<S>)
    requires SoundCosts(costs) && bar.open > 0.0 && s.book.cash >= 0.0 && s.book.qty >= 0
    requires OpenBar(costs, s, bar) == Some(next)
    ensures BarFriction(s.book, next.book, bar) >= 0.0
  {
    if s.pending.Some? {
      FillCosts(costs, s.pending.value, bar, s.book);
      if |next.book.trades| > |s.book.trades| {
        FrictionIs(next.book.trades[|s.book.trades|], bar.open);
      }
    }
  }

  /** So no run ends above its capital and its price gains. */
  lemma NeverAboveGains<S>(
    p: Plugin<S>, costs: Costs, state: S, capital: real, symbol: string, candles: seq<Candle>, k: nat)
    requires 0 < k <= |candles| && After(p, costs, Fresh(state, capital), symbol, candles, k).Some?
    requires SoundCosts(costs) && PositiveOpens(candles) && capital >= 0.0
    ensures var s := After(p, costs, Fresh(state, capital), symbol, candles, k).value;
            var gains := Gains(p, costs, Fresh(state, capital), symbol, candles, k).0;
            |s.equity| > 0 && s.equity[|s.equity| - 1] <= capital + gains
  {
    ProfitAttribution(p, costs, state, capital, symbol, candles, k);
    FrictionCosts(p, costs, state, capital, symbol, candles, k);
  }

  /** What is recorded at each bar: the cash and the lots held, valued at its close. */
  lemma EquityIs<S>(
    p: Plugin<S>, costs: Costs, state: S, capital: real, symbol: string, candles: seq<Candle>, k: nat)
    requires 0 < k <= |candles| && After(p, costs, Fresh(state, capital), symbol, candles, k).Some?
    ensures var s := After(p, costs, Fresh(state, capital), symbol, candles, k).value;
            && |s.equity| == k
            && s.equity[k - 1] == s.book.cash + candles[k - 1].close * s.book.qty as real
  {
    EquityLength(p, costs, Fresh(state, capital), symbol, candles, k);
  }

  /** A purchase blends into the average so that the lots are held at what was paid for them. */
  lemma AverageIs(qty: int, avg: real, bought: int, price: real)
    requires qty + bought > 0
    ensures AverageAfterBuy(qty, avg, bought, price) * (qty + bought) as real
            == avg * qty as real + price * bought as real
  {
    var n := (qty + bought) as real;
    var total := Amount(avg, qty) + Amount(price, bought);
    assert total / n * n == total;
  }
}
