/** The money of every backtest run: conserved cash and lots, solvency, and where the profit comes from. */
module BacktestMoney {
  import opened Arithmetic
  import opened Market
  import opened Plugins
  import opened Backtest
  import opened Wrappers

  // ----- conservation

  function NetCash(trades: seq<Trade>): real {
    if trades == [] then 0.0
    else
      var last := trades[|trades| - 1];
      var amount := last.price * last.qty as real;
      NetCash(trades[..|trades| - 1])
      + if last.side == Buy then -amount - last.commission else amount - last.commission - last.tax
  }

  function NetLots(trades: seq<Trade>): int {
    if trades == [] then 0
    else
      var last := trades[|trades| - 1];
      var lots: int := last.qty;
      NetLots(trades[..|trades| - 1]) + if last.side == Buy then lots else -lots
  }

  /** Cash and lots are exactly what the trades moved, and lots never go below zero. */
  ghost predicate Conserves(b: Book, capital: real) {
    b.cash == capital + NetCash(b.trades) && b.qty == NetLots(b.trades) && b.qty >= 0
  }

  lemma AddTrade(trades: seq<Trade>, t: Trade)
    ensures NetCash(trades + [t]) == NetCash(trades) + t.NetAmount()
    ensures NetLots(trades + [t]) == NetLots(trades) + (var lots: int := t.qty; if t.side == Buy then lots else -lots)
  {
    assert (trades + [t])[..|trades|] == trades;
  }

  lemma FillConserves(costs: Costs, p: Pending, bar: Candle, b: Book, capital: real)
    requires Conserves(b, capital) && FillSignal(costs, p, bar, b).Some?
    ensures Conserves(FillSignal(costs, p, bar, b).value, capital)
  {
    if p.signal.side == Buy {
      var lots := BuyableLots(costs, p.signal.qty, bar, b.cash).value;
      if lots >= 1 {
        BoughtConserves(costs, p, bar, b, lots, capital);
      }
    } else if Min(p.signal.qty, b.qty) >= 1 {
      SoldConserves(costs, p, bar, b, Min(p.signal.qty, b.qty), capital);
    }
  }

  lemma BoughtConserves(costs: Costs, p: Pending, bar: Candle, b: Book, lots: Lots, capital: real)
    requires Conserves(b, capital)
    ensures Conserves(Bought(costs, p, bar, b, lots), capital)
  {
    AddTrade(b.trades, Bought(costs, p, bar, b, lots).trades[|b.trades|]);
  }

  lemma SoldConserves(costs: Costs, p: Pending, bar: Candle, b: Book, lots: Lots, capital: real)
    requires Conserves(b, capital) && lots <= b.qty
    ensures Conserves(Sold(costs, p, bar, b, lots), capital)
  {
    AddTrade(b.trades, Sold(costs, p, bar, b, lots).trades[|b.trades|]);
  }

  lemma {:induction false} RunConserves<S>(
    p: Plugin<S>, costs: Costs, state: S, capital: real, symbol: string, candles: seq<Candle>, k: nat)
    requires k <= |candles| && After(p, costs, Fresh(state, capital), symbol, candles, k).Some?
    ensures Conserves(After(p, costs, Fresh(state, capital), symbol, candles, k).value.book, capital)
  {
    if k == 0 {
    } else {
      RunConserves(p, costs, state, capital, symbol, candles, k - 1);
      var before := After(p, costs, Fresh(state, capital), symbol, candles, k - 1).value;
      if before.pending.Some? {
        FillConserves(costs, before.pending.value, candles[k - 1], before.book, capital);
      }
    }
  }

  // ----- where the profit comes from

  /** What a fill costs against a frictionless one at the same open: slippage, commission and tax. */
  function Friction(t: Trade, open: real): real {
    Amount(if t.side == Buy then t.price - open else open - t.price, t.qty) + t.commission + t.tax
  }

  function BarFriction(before: Book, after: Book, bar: Candle): real {
    if |after.trades| > |before.trades| then Friction(after.trades[|before.trades|], bar.open) else 0.0
  }

  /** What the held lots earn from the previous close over the open to this close, at unaltered prices. */
  function BarGain(before: Book, after: Book, last: real, bar: Candle): real {
    Amount(bar.open - last, before.qty) + Amount(bar.close - bar.open, after.qty)
  }

  function CloseBefore(candles: seq<Candle>, i: nat): real
    requires i <= |candles|
  {
    if i == 0 then 0.0 else candles[i - 1].close
  }

  /** Price gains and frictions summed over the first `k` bars. */
  function Gains<S>(
    p: Plugin<S>, costs: Costs, start: Sim<S>, symbol: string, candles: seq<Candle>, k: nat): (real, real)
    requires k <= |candles| && After(p, costs, start, symbol, candles, k).Some?
  {
    if k == 0 then (0.0, 0.0)
    else
      assert Opened(p, costs, start, symbol, candles, k - 1).Some?;
      assert After(p, costs, start, symbol, candles, k - 1).Some?;
      var earlier := Gains(p, costs, start, symbol, candles, k - 1);
      var before, after := After(p, costs, start, symbol, candles, k - 1).value.book,
          Opened(p, costs, start, symbol, candles, k - 1).value.book;
      (earlier.0 + BarGain(before, after, CloseBefore(candles, k - 1), candles[k - 1]),
       earlier.1 + BarFriction(before, after, candles[k - 1]))
  }

  function Worth(b: Book, price: real): real {
    b.cash + Amount(price, b.qty)
  }

  /** Revaluing a holding from one price to another. */
  lemma AmountMoves(from: real, to: real, lots: int)
    ensures Amount(to, lots) == Amount(from, lots) + Amount(to - from, lots)
  {
  }

  lemma AmountAdds(price: real, a: int, b: int)
    ensures Amount(price, a + b) == Amount(price, a) + Amount(price, b)
  {
  }

  lemma FillCostsFriction(costs: Costs, p: Pending, bar: Candle, b: Book)
    requires FillSignal(costs, p, bar, b).Some?
    ensures var b' := FillSignal(costs, p, bar, b).value;
            Worth(b', bar.open) == Worth(b, bar.open) - BarFriction(b, b', bar)
  {
    var b' := FillSignal(costs, p, bar, b).value;
    if b' != b {
      var t := b'.trades[|b.trades|];
      var lots: int := t.qty;
      if t.side == Buy {
        AmountAdds(bar.open, b.qty, lots);
        AmountMoves(bar.open, t.price, lots);
      } else {
        AmountAdds(bar.open, b'.qty, lots);
        AmountMoves(t.price, bar.open, lots);
      }
    }
  }

  lemma BarAttributes(costs: Costs, before: Book, pending: Option<Pending>, after: Book, last: real, bar: Candle)
    requires if pending.Some? then FillSignal(costs, pending.value, bar, before) == Some(after) else after == before
    ensures Worth(after, bar.close)
            == Worth(before, last) + BarGain(before, after, last, bar) - BarFriction(before, after, bar)
  {
    AmountMoves(last, bar.open, before.qty);
    AmountMoves(bar.open, bar.close, after.qty);
    if pending.Some? {
      FillCostsFriction(costs, pending.value, bar, before);
    }
  }

  /**
   The profit, attributed: at every bar the equity exceeds the initial capital by what the held lots
   earned from price moves on the frictionless path with the same fills, less all slippage,
   commission and tax.
   */
  lemma {:induction false} ProfitAttribution<S>(
    p: Plugin<S>, costs: Costs, state: S, capital: real, symbol: string, candles: seq<Candle>, k: nat)
    requires k <= |candles| && After(p, costs, Fresh(state, capital), symbol, candles, k).Some?
    ensures var s, gains := After(p, costs, Fresh(state, capital), symbol, candles, k).value,
            Gains(p, costs, Fresh(state, capital), symbol, candles, k);
            && Worth(s.book, CloseBefore(candles, k)) == capital + gains.0 - gains.1
            && (k > 0 ==> |s.equity| > 0 && s.equity[|s.equity| - 1] == capital + gains.0 - gains.1)
  {
    var start := Fresh(state, capital);
    if k == 0 {
      assert Amount(0.0, 0) == 0.0;
    } else {
      ProfitAttribution(p, costs, state, capital, symbol, candles, k - 1);
      var before, after := After(p, costs, start, symbol, candles, k - 1).value,
          Opened(p, costs, start, symbol, candles, k - 1).value;
      BarAttributes(costs, before.book, before.pending, after.book, CloseBefore(candles, k - 1), candles[k - 1]);
    }
  }

  // ----- solvency

  ghost predicate SoundCosts(costs: Costs) {
    0.0 <= costs.slippage < 1.0 && 0.0 <= costs.commission && 0.0 <= costs.tax && costs.commission + costs.tax <= 1.0
  }

  ghost predicate PositiveOpens(candles: seq<Candle>) {
    forall i :: 0 <= i < |candles| ==> candles[i].open > 0.0
  }

  lemma TruncateAffordable(cash: real, unit: real)
    requires cash >= 0.0 && unit > 0.0
    ensures var lots := Truncate(cash / unit);
            lots >= 0 && Amount(unit, lots) <= cash < Amount(unit, lots + 1)
  {
    var q := cash / unit;
    var lots := Truncate(q);
    assert q * unit == cash;
    assert q >= 0.0 && lots as real <= q < (lots + 1) as real;
    assert lots as real * unit <= q * unit;
    BelowNext(q, unit, lots);
  }

  lemma BelowNext(q: real, unit: real, lots: int)
    requires unit > 0.0 && q < (lots + 1) as real
    ensures q * unit < Amount(unit, lots + 1)
  {
    var gap := (lots + 1) as real - q;
    Positive(gap, unit);
    assert gap * unit == (lots + 1) as real * unit - q * unit;
  }

  function Product(a: real, b: real, c: real): real {
    a * b * c
  }

  /** What a purchase takes from the cash for one lot: the open with the slippage and the commission on top. */
  function PerLot(costs: Costs, bar: Candle): real {
    Product(bar.open, 1.0 + costs.slippage, 1.0 + costs.commission)
  }

  lemma ScaledTwice(amount: real, rate: real, scaled: real, rate': real)
    requires scaled == amount * rate
    ensures Scaled(scaled, rate') == Product(amount, rate, rate')
  {
  }

  /** A purchase of so many lots takes this much cash. */
  lemma OutlayIs(costs: Costs, bar: Candle, lots: int)
    ensures var cost := Amount(BuyPrice(costs, bar), lots);
            cost + Scaled(cost, costs.commission) == lots as real * PerLot(costs, bar)
  {
    UnitCost(BuyPrice(costs, bar), costs.commission, lots);
    ScaledTwice(bar.open, 1.0 + costs.slippage, BuyPrice(costs, bar), 1.0 + costs.commission);
  }

  /** A buy fills as many of the wanted lots as the cash pays for, and no fewer. */
  lemma BuyAffordable(costs: Costs, wanted: Lots, bar: Candle, cash: real)
    requires SoundCosts(costs) && bar.open > 0.0 && cash >= 0.0
    ensures var lots := BuyableLots(costs, wanted, bar, cash);
            && lots.Some? && 0 <= lots.value <= wanted
            && lots.value as real * PerLot(costs, bar) <= cash
            && (lots.value < wanted ==> cash < (lots.value + 1) as real * PerLot(costs, bar))
  {
    var price := BuyPrice(costs, bar);
    Positive(bar.open, 1.0 + costs.slippage);
    Positive(price, 1.0 + costs.commission);
    OutlayIs(costs, bar, wanted);
    ScaledTwice(bar.open, 1.0 + costs.slippage, price, 1.0 + costs.commission);
    var unit := PerLot(costs, bar);
    if cash < wanted as real * unit {
      TruncateAffordable(cash, unit);
      FewerLots(unit, Truncate(cash / unit), wanted);
    }
  }

  lemma FewerLots(unit: real, lots: int, wanted: int)
    requires unit > 0.0 && Amount(unit, lots) < Amount(unit, wanted)
    ensures lots < wanted
  {
  }

  /** Buying lots one by one or together costs the same. */
  lemma UnitCost(price: real, rate: real, lots: int)
    ensures Amount(Scaled(price, 1.0 + rate), lots) == Amount(price, lots) + Scaled(Amount(price, lots), rate)
  {
    var n := lots as real;
    assert price * (1.0 + rate) == price + price * rate;
    assert (price + price * rate) * n == price * n + price * rate * n;
    assert price * rate * n == price * n * rate;
  }

  lemma Positive(x: real, y: real)
    requires x > 0.0 && y > 0.0
    ensures x * y > 0.0
  {
  }

  lemma SaleAddsCash(costs: Costs, bar: Candle, lots: Lots)
    requires SoundCosts(costs) && bar.open > 0.0
    ensures var gross := Amount(SellPrice(costs, bar), lots);
            gross - Scaled(gross, costs.commission) - Scaled(gross, costs.tax) >= 0.0
  {
    var gross, rest := Amount(SellPrice(costs, bar), lots), 1.0 - costs.commission - costs.tax;
    Positive(bar.open, 1.0 - costs.slippage);
    AmountPositive(SellPrice(costs, bar), lots);
    Gap(0.0, rest, gross);
    Remainder(gross, costs.commission, costs.tax);
  }

  lemma AmountPositive(price: real, lots: Lots)
    requires price > 0.0
    ensures Amount(price, lots) > 0.0
  {
  }

  lemma Remainder(gross: real, commission: real, tax: real)
    ensures (1.0 - commission - tax) * gross == gross - Scaled(gross, commission) - Scaled(gross, tax)
  {
  }

  /** The trade a fill records: at the slipped open of this bar, commission on its amount and tax on a sale's. */
  predicate Records(t: Trade, p: Pending, costs: Costs, bar: Candle, price: real, lots: int) {
    && t.symbol == p.signal.symbol && t.side == p.signal.side && t.price == price && t.qty == lots
    && t.timestamp == bar.timestamp && t.signalTimestamp == p.timestamp
    && t.commission == Product(price, lots as real, costs.commission)
    && t.tax == if t.side == Buy then 0.0 else Product(price, lots as real, costs.tax)
  }

  /** At most one trade more. */
  predicate Adds(b: Book, b': Book, lots: nat) {
    if lots == 0 then b'.trades == b.trades
    else |b'.trades| == |b.trades| + 1 && b'.trades[..|b.trades|] == b.trades
  }

  /** A purchase: the most lots, of those asked for, that the cash pays for, at the open plus the slippage rate. */
  lemma PurchaseExact(costs: Costs, p: Pending, bar: Candle, b: Book) returns (lots: nat)
    requires SoundCosts(costs) && bar.open > 0.0 && b.cash >= 0.0 && p.signal.side == Buy
    ensures lots <= p.signal.qty && lots as real * PerLot(costs, bar) <= b.cash
    ensures lots < p.signal.qty ==> b.cash < (lots + 1) as real * PerLot(costs, bar)
    ensures FillSignal(costs, p, bar, b).Some?
    ensures var b' := FillSignal(costs, p, bar, b).value;
            && b'.cash == b.cash - lots as real * PerLot(costs, bar) && b'.qty == b.qty + lots && Adds(b, b', lots)
            && (lots > 0 ==>
                  Records(b'.trades[|b.trades|], p, costs, bar, bar.open * (1.0 + costs.slippage), lots))
  {
    BuyAffordable(costs, p.signal.qty, bar, b.cash);
    lots := BuyableLots(costs, p.signal.qty, bar, b.cash).value;
    if lots > 0 {
      BoughtIs(costs, p, bar, b, lots);
    }
  }

  lemma BoughtIs(costs: Costs, p: Pending, bar: Candle, b: Book, lots: Lots)
    requires p.signal.side == Buy
    ensures var b' := Bought(costs, p, bar, b, lots);
            && b'.cash == b.cash - lots as real * PerLot(costs, bar) && b'.qty == b.qty + lots && Adds(b, b', lots)
            && Records(b'.trades[|b.trades|], p, costs, bar, bar.open * (1.0 + costs.slippage), lots)
  {
    var price := BuyPrice(costs, bar);
    OutlayIs(costs, bar, lots);
    ScaledTwice(price, lots as real, Amount(price, lots), costs.commission);
  }

  /** A sale: the lots asked for or all that are held, at the open less the slippage rate. */
  lemma SaleExact(costs: Costs, p: Pending, bar: Candle, b: Book) returns (lots: nat)
    requires p.signal.side == Sell && b.qty >= 0
    ensures lots == if p.signal.qty <= b.qty then p.signal.qty else b.qty
    ensures FillSignal(costs, p, bar, b).Some?
    ensures var b' := FillSignal(costs, p, bar, b).value;
            && b'.qty == b.qty - lots && Adds(b, b', lots)
            && (lots == 0 ==> b'.cash == b.cash)
            && (lots > 0 ==>
                  var t := b'.trades[|b.trades|];
                  && Records(t, p, costs, bar, bar.open * (1.0 - costs.slippage), lots)
                  && b'.cash == b.cash + t.price * lots as real - t.commission - t.tax)
  {
    lots := Min(p.signal.qty, b.qty);
    if lots > 0 {
      var price := SellPrice(costs, bar);
      ScaledTwice(price, lots as real, Amount(price, lots), costs.commission);
      ScaledTwice(price, lots as real, Amount(price, lots), costs.tax);
      assert FillSignal(costs, p, bar, b) == Some(Sold(costs, p, bar, b, lots));
    }
  }

  lemma FillSolvent(costs: Costs, p: Pending, bar: Candle, b: Book)
    requires SoundCosts(costs) && bar.open > 0.0 && b.cash >= 0.0
    ensures var filled := FillSignal(costs, p, bar, b);
            filled.Some? && filled.value.cash >= 0.0
  {
    if p.signal.side == Buy {
      var _ := PurchaseExact(costs, p, bar, b);
    } else if Min(p.signal.qty, b.qty) >= 1 {
      SaleAddsCash(costs, bar, Min(p.signal.qty, b.qty));
    }
  }

  lemma OpenSolvent<S>(costs: Costs, s: Sim<S>, bar: Candle)
    requires SoundCosts(costs) && bar.open > 0.0 && s.book.cash >= 0.0
    ensures var next := OpenBar(costs, s, bar);
            next.Some? && next.value.book.cash >= 0.0
  {
    if s.pending.Some? {
      FillSolvent(costs, s.pending.value, bar, s.book);
    }
  }

  lemma {:induction false} CashNonNegative<S>(
    p: Plugin<S>, costs: Costs, state: S, capital: real, symbol: string, candles: seq<Candle>, k: nat)
    requires k <= |candles| && SoundCosts(costs) && PositiveOpens(candles) && capital >= 0.0
    ensures var s := After(p, costs, Fresh(state, capital), symbol, candles, k);
            s.Some? ==> s.value.book.cash >= 0.0
  {
    if k == 0 {
    } else {
      CashNonNegative(p, costs, state, capital, symbol, candles, k - 1);
      var before := After(p, costs, Fresh(state, capital), symbol, candles, k - 1);
      if before.Some? {
        OpenSolvent(costs, before.value, candles[k - 1]);
      }
    }
  }

  /** With positive opens and sane rates no fill raises and cash never goes negative, whatever the strategy asks for. */
  lemma RunSolvent<S>(
    p: Plugin<S>, costs: Costs, state: S, capital: real, symbol: string, candles: seq<Candle>, k: nat)
    requires k <= |candles| && SoundCosts(costs) && PositiveOpens(candles) && capital >= 0.0
    ensures var s := After(p, costs, Fresh(state, capital), symbol, candles, k);
            s.Some? ==>
              && s.value.book.cash >= 0.0
              && (k < |candles| ==> Opened(p, costs, Fresh(state, capital), symbol, candles, k).Some?)
  {
    CashNonNegative(p, costs, state, capital, symbol, candles, k);
    var s := After(p, costs, Fresh(state, capital), symbol, candles, k);
    if k < |candles| && s.Some? {
      OpenSolvent(costs, s.value, candles[k]);
    }
  }

  ghost predicate NonNegativeCloses(candles: seq<Candle>) {
    forall i :: 0 <= i < |candles| ==> candles[i].close >= 0.0
  }

  /** So every recorded equity is non-negative too, when closes are. */
  lemma {:induction false} EquityNonNegative<S>(
    p: Plugin<S>, costs: Costs, state: S, capital: real, symbol: string, candles: seq<Candle>, k: nat)
    requires k <= |candles| && SoundCosts(costs) && PositiveOpens(candles) && NonNegativeCloses(candles)
            && capital >= 0.0
    requires After(p, costs, Fresh(state, capital), symbol, candles, k).Some?
    ensures var equity := After(p, costs, Fresh(state, capital), symbol, candles, k).value.equity;
            forall i :: 0 <= i < |equity| ==> equity[i] >= 0.0
  {
    if k == 0 {
    } else {
      EquityNonNegative(p, costs, state, capital, symbol, candles, k - 1);
      RunSolvent(p, costs, state, capital, symbol, candles, k);
      RunConserves(p, costs, state, capital, symbol, candles, k);
      var b := After(p, costs, Fresh(state, capital), symbol, candles, k).value.book;
      AmountNonNegative(candles[k - 1].close, b.qty);
    }
  }

  lemma AmountNonNegative(price: real, lots: int)
    requires price >= 0.0 && lots >= 0
    ensures Amount(price, lots) >= 0.0
  {
  }

  // ----- the average price

  /** The buy prices that make up the current holding: those since the lots were last zero. */
  function BuysSinceFlat(trades: seq<Trade>): seq<real> {
    if trades == [] then []
    else
      var n := |trades| - 1;
      var earlier := BuysSinceFlat(trades[..n]);
      if trades[n].side == Buy then earlier + [trades[n].price] else if NetLots(trades) == 0 then [] else earlier
  }

  ghost predicate Within(prices: seq<real>, low: real, high: real) {
    forall i :: 0 <= i < |prices| ==> low <= prices[i] <= high
  }

  lemma AverageStays(qty: int, avg: real, bought: Lots, price: real, low: real, high: real)
    requires qty >= 0 && low <= price <= high && (qty > 0 ==> low <= avg <= high)
    ensures low <= AverageAfterBuy(qty, avg, bought, price) <= high
  {
    var n, m := qty as real, bought as real;
    if qty == 0 {
      assert avg * n == 0.0;
      ScaleBetween(low, price, high, m);
      Quotient(low, high, price * m, m);
    } else {
      Blend(low, avg, price, n, m);
      Blend(-high, -avg, -price, n, m);
      Quotient(low, high, avg * n + price * m, n + m);
    }
  }

  /** Two amounts at no less than a price come to no less together. */
  lemma Blend(low: real, x: real, y: real, n: real, m: real)
    requires low <= x && low <= y && n >= 0.0 && m >= 0.0
    ensures low * (n + m) <= x * n + y * m
  {
    Gap(low, x, n);
    Gap(low, y, m);
  }

  lemma Gap(low: real, x: real, n: real)
    requires low <= x && n >= 0.0
    ensures low * n <= x * n
  {
    var gap := x - low;
    assert gap * n >= 0.0;
    assert gap * n == x * n - low * n;
  }

  lemma ScaleBetween(low: real, x: real, high: real, n: real)
    requires low <= x <= high && n >= 0.0
    ensures low * n <= x * n <= high * n
  {
  }

  lemma Quotient(low: real, high: real, total: real, n: real)
    requires n > 0.0 && low * n <= total <= high * n
    ensures low <= total / n <= high
  {
    var q := total / n;
    assert q * n == total;
  }

  lemma BoughtAverage(costs: Costs, p: Pending, bar: Candle, b: Book, lots: Lots, low: real, high: real)
    requires b.qty >= 0 && (Within(BuysSinceFlat(b.trades), low, high) && b.qty > 0 ==> low <= b.avg <= high)
    requires Within(BuysSinceFlat(Bought(costs, p, bar, b, lots).trades), low, high)
    ensures low <= Bought(costs, p, bar, b, lots).avg <= high
  {
    var b' := Bought(costs, p, bar, b, lots);
    assert b'.trades[..|b.trades|] == b.trades;
    var buys, buys' := BuysSinceFlat(b.trades), BuysSinceFlat(b'.trades);
    var price := BuyPrice(costs, bar);
    assert buys' == buys + [price];
    assert buys'[|buys|] == price;
    assert Within(buys, low, high) by {
      assert forall i :: 0 <= i < |buys| ==> buys[i] == buys'[i];
    }
    AverageStays(b.qty, b.avg, lots, price, low, high);
  }

  lemma SoldAverage(costs: Costs, p: Pending, bar: Candle, b: Book, lots: Lots, capital: real, low: real, high: real)
    requires Conserves(b, capital) && lots < b.qty
    requires Within(BuysSinceFlat(b.trades), low, high) ==> low <= b.avg <= high
    requires Within(BuysSinceFlat(Sold(costs, p, bar, b, lots).trades), low, high)
    ensures low <= Sold(costs, p, bar, b, lots).avg <= high
  {
    var b' := Sold(costs, p, bar, b, lots);
    assert b'.trades[..|b.trades|] == b.trades;
    AddTrade(b.trades, b'.trades[|b.trades|]);
    assert BuysSinceFlat(b'.trades) == BuysSinceFlat(b.trades);
  }

  lemma FillAverage(costs: Costs, p: Pending, bar: Candle, b: Book, capital: real, low: real, high: real)
    requires FillSignal(costs, p, bar, b).Some? && Conserves(b, capital)
    requires Within(BuysSinceFlat(b.trades), low, high) && b.qty > 0 ==> low <= b.avg <= high
    ensures var b' := FillSignal(costs, p, bar, b).value;
            Within(BuysSinceFlat(b'.trades), low, high) && b'.qty > 0 ==> low <= b'.avg <= high
  {
    var b' := FillSignal(costs, p, bar, b).value;
    if b' != b && Within(BuysSinceFlat(b'.trades), low, high) && b'.qty > 0 {
      if p.signal.side == Buy {
        BoughtAverage(costs, p, bar, b, BuyableLots(costs, p.signal.qty, bar, b.cash).value, low, high);
      } else {
        SoldAverage(costs, p, bar, b, Min(p.signal.qty, b.qty), capital, low, high);
      }
    }
  }

  /** While lots are held, their average price lies between the lowest and the highest buy since the last flat point. */
  lemma {:induction false} AverageBetweenBuys<S>(
    p: Plugin<S>, costs: Costs, state: S, capital: real, symbol: string, candles: seq<Candle>, k: nat, low: real,
        high: real)
    requires k <= |candles| && After(p, costs, Fresh(state, capital), symbol, candles, k).Some?
    ensures var b := After(p, costs, Fresh(state, capital), symbol, candles, k).value.book;
            Within(BuysSinceFlat(b.trades), low, high) && b.qty > 0 ==> low <= b.avg <= high
  {
    if k == 0 {
    } else {
      AverageBetweenBuys(p, costs, state, capital, symbol, candles, k - 1, low, high);
      RunConserves(p, costs, state, capital, symbol, candles, k - 1);
      var before := After(p, costs, Fresh(state, capital), symbol, candles, k - 1).value;
      if before.pending.Some? {
        FillAverage(costs, before.pending.value, candles[k - 1], before.book, capital, low, high);
      }
    }
  }
}
