/** What a backtest run can depend on: results never look ahead, and every fill is at the next bar's open. */
module BacktestCausality {
  import opened Arithmetic
  import opened Market
  import opened Plugins
  import opened Backtest
  import opened BacktestMoney
  import opened Wrappers

  // ----- causality

  lemma SameShown(candles: seq<Candle>, other: seq<Candle>, k: nat)
    requires 0 < k <= |candles| && k <= |other| && candles[..k] == other[..k]
    ensures candles[k - 1] == other[k - 1] && Recent(candles, k - 1) == Recent(other, k - 1)
  {
    assert candles[k - 1] == candles[..k][k - 1] && other[k - 1] == other[..k][k - 1];
    var from := Max(0, k - 1 - LOOKBACK);
    assert candles[from..k] == candles[..k][from..k] && other[from..k] == other[..k][from..k];
  }

  /** The first `k` bars are all that the first `k` bars of a run depend on. */
  lemma {:induction false} AfterDepends<S>(
    p: Plugin<S>, costs: Costs, start: Sim<S>, symbol: string, candles: seq<Candle>, other: seq<Candle>, k: nat)
    requires k <= |candles| && k <= |other| && candles[..k] == other[..k]
    ensures After(p, costs, start, symbol, candles, k) == After(p, costs, start, symbol, other, k)
  {
    if k == 0 {
    } else {
      assert candles[..k - 1] == candles[..k][..k - 1] && other[..k - 1] == other[..k][..k - 1];
      AfterDepends(p, costs, start, symbol, candles, other, k - 1);
      SameShown(candles, other, k);
    }
  }

  /** Results only grow from bar to bar. */
  ghost predicate Extends<S>(s: Sim<S>, later: Sim<S>) {
    s.equity <= later.equity && s.book.trades <= later.book.trades
  }

  lemma BarExtends<S>(p: Plugin<S>, costs: Costs, s: Sim<S>, symbol: string, candles: seq<Candle>, i: nat)
    requires i < |candles| && OpenBar(costs, s, candles[i]).Some?
    ensures Extends(s, OpenBar(costs, s, candles[i]).value)
  {
  }

  lemma {:induction false} RunExtends<S>(
    p: Plugin<S>, costs: Costs, start: Sim<S>, symbol: string, candles: seq<Candle>, k: nat, n: nat)
    requires k <= n <= |candles| && After(p, costs, start, symbol, candles, n).Some?
    ensures After(p, costs, start, symbol, candles, k).Some?
    ensures Extends(After(p, costs, start, symbol, candles, k).value, After(p, costs, start, symbol, candles, n).value)
  {
    if k == n {
    } else {
      var before := After(p, costs, start, symbol, candles, n - 1);
      if before.Some? {
        RunExtends(p, costs, start, symbol, candles, k, n - 1);
        BarExtends(p, costs, before.value, symbol, candles, n - 1);
      }
    }
  }

  lemma {:induction false} EquityLength<S>(
    p: Plugin<S>, costs: Costs, start: Sim<S>, symbol: string, candles: seq<Candle>, k: nat)
    requires k <= |candles| && After(p, costs, start, symbol, candles, k).Some?
    ensures |After(p, costs, start, symbol, candles, k).value.equity| == |start.equity| + k
  {
    if k == 0 {
    } else {
      EquityLength(p, costs, start, symbol, candles, k - 1);
    }
  }

  /**
   From one post-warm-up strategy state, the run on the first `k` bars alone has the full run's equity
   of those bars, and its trades begin the full run's trades.
   */
  lemma PrefixRun<S>(p: Plugin<S>, costs: Costs, state: S, capital: real, symbol: string, candles: seq<Candle>, k: nat)
    requires k <= |candles| && RunFrom(p, costs, state, capital, symbol, candles).Some?
    ensures RunFrom(p, costs, state, capital, symbol, candles[..k]).Some?
    ensures var prefix, run := RunFrom(p, costs, state, capital, symbol, candles[..k]).value,
            RunFrom(p, costs, state, capital, symbol, candles).value;
            Extends(prefix, run) && |prefix.equity| == k && |run.equity| == |candles|
  {
    var start := Fresh(state, capital);
    assert candles[..k][..k] == candles[..k];
    AfterDepends(p, costs, start, symbol, candles, candles[..k], k);
    RunExtends(p, costs, start, symbol, candles, k, |candles|);
    EquityLength(p, costs, start, symbol, candles, k);
    EquityLength(p, costs, start, symbol, candles, |candles|);
  }

  /** Two histories that agree on their first `k` bars cannot be told apart by the results of those bars. */
  lemma NoLookAhead<S>(
    p: Plugin<S>, costs: Costs, state: S, capital: real, symbol: string, candles: seq<Candle>, other: seq<Candle>,
        k: nat)
    requires k <= |candles| && k <= |other| && candles[..k] == other[..k]
    requires RunFrom(p, costs, state, capital, symbol, candles).Some?
    requires RunFrom(p, costs, state, capital, symbol, other).Some?
    ensures var run, run' := RunFrom(p, costs, state, capital, symbol, candles).value,
            RunFrom(p, costs, state, capital, symbol, other).value;
            var soFar := RunFrom(p, costs, state, capital, symbol, candles[..k]);
            && |run.equity| == |candles| && |run'.equity| == |other| && run.equity[..k] == run'.equity[..k]
            && soFar.Some? && soFar.value.book.trades <= run.book.trades && soFar.value.book.trades <= run'.book.trades
  {
    PrefixRun(p, costs, state, capital, symbol, candles, k);
    PrefixRun(p, costs, state, capital, symbol, other, k);
  }

  // ----- but the warm-up is given later bars

  /** A strategy with the warm-up `w` that buys one lot on every bar while its state is as `when` says. */
  function Buying<S>(w: (S, seq<Candle>) -> (S, bool), when: S -> bool): Plugin<S> {
    Plugin(
      "buying",
      w,
      (s: S, tick: Tick, ctx: Context) =>
        (s, if when(s) then Emit(Signal("buying", tick.symbol, Buy, 1, None)) else Silent))
  }

  /** The promise: the engine's result on the first `k` candles begins its result on all of them. */
  ghost predicate SamePrefix<S>(
    p: Plugin<S>, costs: Costs, s0: S, capital: real, symbol: string, candles: seq<Candle>, k: nat)
    requires k <= |candles|
  {
    var run, prefix := Backtested(p, costs, s0, capital, symbol, candles),
        Backtested(p, costs, s0, capital, symbol, candles[..k]);
    run.Some? ==> prefix.Some? && Extends(prefix.value, run.value)
  }

  lemma {:induction false} NotBuying<S>(
    w: (S, seq<Candle>) -> (S, bool), when: S -> bool, s: S, costs: Costs, capital: real, symbol: string,
        candles: seq<Candle>, k: nat)
    requires k <= |candles| && !when(s)
    ensures var after := After(Buying(w, when), costs, Fresh(s, capital), symbol, candles, k);
            after.Some? && after.value.state == s && after.value.book == Book(capital, 0, 0.0, [])
                && after.value.pending.None?
  {
    if k == 0 {
    } else {
      NotBuying(w, when, s, costs, capital, symbol, candles, k - 1);
    }
  }

  ghost predicate OneLotAffordable(costs: Costs, bar: Candle, capital: real) {
    var cost := Amount(BuyPrice(costs, bar), 1);
    cost + Scaled(cost, costs.commission) <= capital
  }

  lemma FirstSignal<S>(
    w: (S, seq<Candle>) -> (S, bool), when: S -> bool, s: S, costs: Costs, capital: real, symbol: string,
        candles: seq<Candle>)
    requires |candles| >= 2 && OneLotAffordable(costs, candles[1], capital) && when(s)
    ensures After(Buying(w, when), costs, Fresh(s, capital), symbol, candles, 2).Some?
  {
    var p, start := Buying(w, when), Fresh(s, capital);
    assert After(p, costs, start, symbol, candles, 0) == Some(start);
    var first := After(p, costs, start, symbol, candles, 1).value;
    assert first.pending.Some? && first.pending.value.signal.side == Buy && first.pending.value.signal.qty == 1;
    assert first.book == start.book;
    assert Opened(p, costs, start, symbol, candles, 1) == OpenBar(costs, first, candles[1]);
  }

  lemma BuyingTrades<S>(
    w: (S, seq<Candle>) -> (S, bool), when: S -> bool, s: S, costs: Costs, capital: real, symbol: string,
        candles: seq<Candle>, k: nat)
    requires 2 <= k <= |candles| && OneLotAffordable(costs, candles[1], capital) && when(s)
    requires After(Buying(w, when), costs, Fresh(s, capital), symbol, candles, k).Some?
    ensures After(Buying(w, when), costs, Fresh(s, capital), symbol, candles, k).value.book.trades != []
  {
    var p, start := Buying(w, when), Fresh(s, capital);
    RunExtends(p, costs, start, symbol, candles, 2, k);
    RunExtends(p, costs, start, symbol, candles, 1, k);
    var first := After(p, costs, start, symbol, candles, 1).value;
    assert After(p, costs, start, symbol, candles, 0) == Some(start);
    assert first.pending.Some? && first.pending.value.signal.side == Buy && first.pending.value.signal.qty == 1;
    assert first.book == start.book;
    assert Opened(p, costs, start, symbol, candles, 1) == OpenBar(costs, first, candles[1]);
  }

  lemma SameWarmup<S>(
    p: Plugin<S>, costs: Costs, s0: S, capital: real, symbol: string, candles: seq<Candle>, k: nat)
    requires k <= |candles|
    requires p.warm(s0, WarmupBars(candles)).1
            ==> p.warm(s0, WarmupBars(candles[..k])) == p.warm(s0, WarmupBars(candles))
    ensures SamePrefix(p, costs, s0, capital, symbol, candles, k)
  {
    if Backtested(p, costs, s0, capital, symbol, candles).Some? {
      PrefixRun(p, costs, p.warm(s0, WarmupBars(candles)).0, capital, symbol, candles, k);
    }
  }

  /** A warm-up that completes on all bars but raises on fewer, or ends elsewhere, lets some strategy look ahead. */
  lemma OtherWarmup<S(!new)>(
    w: (S, seq<Candle>) -> (S, bool), s0: S, costs: Costs, capital: real, symbol: string, candles: seq<Candle>, k: nat)
    returns (p: Plugin<S>)
    requires 2 <= k <= |candles| && OneLotAffordable(costs, candles[1], capital)
    requires w(s0, WarmupBars(candles)).1 && w(s0, WarmupBars(candles[..k])) != w(s0, WarmupBars(candles))
    ensures p.warm == w && !SamePrefix(p, costs, s0, capital, symbol, candles, k)
  {
    var full, part := w(s0, WarmupBars(candles)), w(s0, WarmupBars(candles[..k]));
    ghost var when := (s: S) => part.1 && s != full.0;
    p := Buying(w, when);
    NotBuying(w, when, full.0, costs, capital, symbol, candles, |candles|);
    if part.1 && RunFrom(p, costs, part.0, capital, symbol, candles[..k]).Some? {
      assert candles[..k][1] == candles[1];
      BuyingTrades(w, when, part.0, costs, capital, symbol, candles[..k], k);
    }
  }

  /**
   The engine warms a strategy up on all bars but the last. Whatever a strategy does on its ticks, its
   results stay free of look-ahead exactly when its warm-up cannot tell the longer history from the
   shorter one: where it completes on the longer, it does so on the shorter, in the same state.
   */
  lemma WarmupDecides<S(!new)>(
    w: (S, seq<Candle>) -> (S, bool), s0: S, costs: Costs, capital: real, symbol: string, candles: seq<Candle>, k: nat)
    requires 2 <= k <= |candles| && OneLotAffordable(costs, candles[1], capital)
    ensures (forall p: Plugin<S> :: p.warm == w ==> SamePrefix(p, costs, s0, capital, symbol, candles, k))
            <==> (w(s0, WarmupBars(candles)).1 ==> w(s0, WarmupBars(candles[..k])) == w(s0, WarmupBars(candles)))
  {
    if w(s0, WarmupBars(candles)).1 ==> w(s0, WarmupBars(candles[..k])) == w(s0, WarmupBars(candles)) {
      forall p: Plugin<S> | p.warm == w ensures SamePrefix(p, costs, s0, capital, symbol, candles, k) {
        SameWarmup(p, costs, s0, capital, symbol, candles, k);
      }
    } else {
      var _ := OtherWarmup(w, s0, costs, capital, symbol, candles, k);
    }
  }

  const FREE := Costs(0.0, 0.0, 0.0)

  const FLAT_BAR := Candle("U", 100.0, 100.0, 100.0, 100.0, 0, 0, "domestic")

  /** A warm-up that keeps the length of the history it is given. */
  function CountBars(s: int, history: seq<Candle>): (int, bool) {
    (|history|, true)
  }

  function WarmedOnOne(s: int): bool {
    s == 1
  }

  const TWO := [FLAT_BAR, FLAT_BAR]
  const THREE := [FLAT_BAR, FLAT_BAR, FLAT_BAR]

  /**
   A strategy that buys when it was warmed up on a single bar: two bars make it trade, and one bar more
   undoes the trade.
   */
  lemma WarmupLooksAhead()
    ensures var p := Buying(CountBars, WarmedOnOne);
            var short, long := Backtested(p, FREE, 0, 1000.0, "U", TWO), Backtested(p, FREE, 0, 1000.0, "U", THREE);
            && short.Some? && short.value.book.trades != []
            && long.Some? && long.value.book.trades == []
            && !SamePrefix(p, FREE, 0, 1000.0, "U", THREE, 2)
  {
    assert THREE[..2] == TWO;
    NotBuying(CountBars, WarmedOnOne, 2, FREE, 1000.0, "U", THREE, 3);
    FirstSignal(CountBars, WarmedOnOne, 1, FREE, 1000.0, "U", TWO);
    BuyingTrades(CountBars, WarmedOnOne, 1, FREE, 1000.0, "U", TWO, 2);
  }

  /** The same with the running engine. */
  method RunLooksAhead() returns (short: seq<Trade>, long: seq<Trade>)
    ensures short != [] && long == []
  {
    WarmupLooksAhead();
    var p := Buying(CountBars, WarmedOnOne);
    var engine := new BacktestEngine<int>(p, 0, FREE, 1000.0);
    var r := engine.Run("U", TWO);
    short := r.value.trades;
    engine := new BacktestEngine<int>(p, 0, FREE, 1000.0);
    r := engine.Run("U", THREE);
    long := r.value.trades;
  }

  // ----- next-open fills

  /** What the strategy answers on bar `i`, shown its close and the last 51 bars. */
  function Answer<S>(p: Plugin<S>, costs: Costs, start: Sim<S>, symbol: string, candles: seq<Candle>, i: nat): Outcome
    requires i < |candles| && Opened(p, costs, start, symbol, candles, i).Some?
  {
    var bar := candles[i];
    p.tick(
      Opened(p, costs, start, symbol, candles, i).value.state,
      Tick(bar.symbol, bar.close, bar.volume, bar.timestamp, bar.market),
      Context(symbol, candles[if i > 50 then i - 50 else 0..i + 1])).1
  }

  /** A lot costs something at this open, as with any positive price and sane rates. */
  predicate Priced(costs: Costs, bar: Candle) {
    PerLot(costs, bar) > 0.0
  }

  /** Trade `t` carries out the signal at this open: its symbol and side, and no more lots than it asks for. */
  predicate CarriesOut(t: Trade, signal: Signal, costs: Costs, bar: Candle) {
    t.symbol == signal.symbol && t.side == signal.side && (t.side == Sell || Priced(costs, bar) ==> t.qty <= signal.qty)
  }

  /** The strategy emitted on bar `i` a signal that trade `t` carries out on the next. */
  ghost predicate Decided<S>(
    p: Plugin<S>, costs: Costs, start: Sim<S>, symbol: string, candles: seq<Candle>, t: Trade, i: nat)
  {
    && i + 1 < |candles| && Opened(p, costs, start, symbol, candles, i).Some?
    && Answer(p, costs, start, symbol, candles, i).Emit?
    && CarriesOut(t, Answer(p, costs, start, symbol, candles, i).signal, costs, candles[i + 1])
  }

  /** The open, moved by the slippage rate against the trader. */
  function SlippedOpen(side: Side, costs: Costs, bar: Candle): real {
    match side
    case Buy => bar.open * (1.0 + costs.slippage)
    case Sell => bar.open * (1.0 - costs.slippage)
  }

  /** The fill of trade `t`: decided on bar `i`, made at the open of the bar after it. */
  ghost predicate FillsAfter(t: Trade, costs: Costs, candles: seq<Candle>, i: nat) {
    && i + 1 < |candles|
    && t.signalTimestamp == candles[i].timestamp && t.timestamp == candles[i + 1].timestamp
    && t.price == SlippedOpen(t.side, costs, candles[i + 1])
  }

  /** Every trade fills on the bar after its signal's bar, at most one trade a bar, in bar order. */
  ghost predicate FillsInOrder(trades: seq<Trade>, costs: Costs, candles: seq<Candle>, bars: seq<nat>) {
    && |bars| == |trades|
    && (forall j :: 0 <= j < |trades| ==> FillsAfter(trades[j], costs, candles, bars[j]))
    && (forall j, m :: 0 <= j < m < |bars| ==> bars[j] < bars[m])
  }

  ghost predicate AllDecided<S>(
    p: Plugin<S>, costs: Costs, start: Sim<S>, symbol: string, candles: seq<Candle>, trades: seq<Trade>, bars: seq<nat>)
  {
    && |bars| == |trades|
    && forall j :: 0 <= j < |trades| ==> Decided(p, costs, start, symbol, candles, trades[j], bars[j])
  }

  lemma PricedUnit(costs: Costs, bar: Candle)
    ensures Priced(costs, bar) <==> Scaled(BuyPrice(costs, bar), 1.0 + costs.commission) > 0.0
  {
    ScaledTwice(bar.open, 1.0 + costs.slippage, BuyPrice(costs, bar), 1.0 + costs.commission);
  }

  lemma NoMoreThanWanted(costs: Costs, wanted: Lots, bar: Candle, cash: real)
    requires Scaled(BuyPrice(costs, bar), 1.0 + costs.commission) > 0.0
    requires BuyableLots(costs, wanted, bar, cash).Some?
    ensures BuyableLots(costs, wanted, bar, cash).value <= wanted
  {
    var price := BuyPrice(costs, bar);
    var cost := Amount(price, wanted);
    if cash < cost + Scaled(cost, costs.commission) {
      var unit := Scaled(price, 1.0 + costs.commission);
      UnitCost(price, costs.commission, wanted);
      BelowQuotient(cash, unit, wanted);
    }
  }

  lemma BelowQuotient(cash: real, unit: real, wanted: Lots)
    requires unit > 0.0 && cash < Amount(unit, wanted)
    ensures Truncate(cash / unit) <= wanted
  {
    var q := cash / unit;
    assert q * unit == cash;
    if q >= wanted as real {
      assert q * unit >= wanted as real * unit;
    }
  }

  /** A bar adds at most one trade, which carries out the pending signal at this open. */
  lemma BarTrade<S>(costs: Costs, s: Sim<S>, bar: Candle)
    requires OpenBar(costs, s, bar).Some?
    ensures var trades := OpenBar(costs, s, bar).value.book.trades;
            || trades == s.book.trades
            || (&& s.pending.Some? && |trades| == |s.book.trades| + 1 && trades[..|s.book.trades|] == s.book.trades
                && (var t := trades[|s.book.trades|];
                    && CarriesOut(t, s.pending.value.signal, costs, bar)
                    && t.signalTimestamp == s.pending.value.timestamp && t.timestamp == bar.timestamp
                    && t.price == SlippedOpen(t.side, costs, bar)))
  {
    if s.pending.Some? && s.pending.value.signal.side == Buy && Priced(costs, bar) {
      PricedUnit(costs, bar);
      NoMoreThanWanted(costs, s.pending.value.signal.qty, bar, s.book.cash);
    }
  }

  /** What waits after bar `k - 1` is what the strategy emitted on it, and nothing if it emitted nothing. */
  lemma PendingIsAnswer<S>(p: Plugin<S>, costs: Costs, start: Sim<S>, symbol: string, candles: seq<Candle>, k: nat)
    requires 0 < k <= |candles| && After(p, costs, start, symbol, candles, k).Some?
    ensures Opened(p, costs, start, symbol, candles, k - 1).Some?
    ensures var answer := Answer(p, costs, start, symbol, candles, k - 1);
            After(p, costs, start, symbol, candles, k).value.pending
            == if answer.Emit? then Some(Pending(answer.signal, candles[k - 1].timestamp)) else None
  {
  }

  lemma OneMoreFill<S>(
    p: Plugin<S>, costs: Costs, start: Sim<S>, symbol: string, candles: seq<Candle>,
    trades: seq<Trade>, bars: seq<nat>, t: Trade, i: nat)
    requires FillsInOrder(trades, costs, candles, bars) && AllDecided(p, costs, start, symbol, candles, trades, bars)
    requires FillsAfter(t, costs, candles, i) && Decided(p, costs, start, symbol, candles, t, i)
    requires forall j :: 0 <= j < |bars| ==> bars[j] < i
    ensures FillsInOrder(trades + [t], costs, candles, bars + [i])
    ensures AllDecided(p, costs, start, symbol, candles, trades + [t], bars + [i])
  {
  }

  /**
   Every trade of every run carries out a signal that the strategy emitted on one bar, at the open of the
   bar after it; no two trades stem from one bar.
   */
  lemma {:induction false} NextOpenFills<S>(
    p: Plugin<S>, costs: Costs, state: S, capital: real, symbol: string, candles: seq<Candle>, k: nat)
    returns (bars: seq<nat>)
    requires k <= |candles| && After(p, costs, Fresh(state, capital), symbol, candles, k).Some?
    ensures var trades := After(p, costs, Fresh(state, capital), symbol, candles, k).value.book.trades;
            && FillsInOrder(trades, costs, candles, bars)
            && AllDecided(p, costs, Fresh(state, capital), symbol, candles, trades, bars)
            && forall j :: 0 <= j < |bars| ==> bars[j] + 1 < k
  {
    var start := Fresh(state, capital);
    if k == 0 {
      return [];
    }
    PendingIsAnswer(p, costs, start, symbol, candles, k);
    bars := NextOpenFills(p, costs, state, capital, symbol, candles, k - 1);
    var before := After(p, costs, start, symbol, candles, k - 1).value;
    BarTrade(costs, before, candles[k - 1]);
    if k > 1 {
      PendingIsAnswer(p, costs, start, symbol, candles, k - 1);
    }
    var trades := OpenBar(costs, before, candles[k - 1]).value.book.trades;
    if |trades| > |before.book.trades| {
      var t := trades[|before.book.trades|];
      assert trades == before.book.trades + [t];
      OneMoreFill(p, costs, start, symbol, candles, before.book.trades, bars, t, k - 2);
      bars := bars + [k - 2];
    }
  }

  /** A trade charged at the engine's rates: commission on every fill, tax on sales only. */
  predicate Charged(t: Trade, costs: Costs) {
    var amount := t.price * t.qty as real;
    t.commission == amount * costs.commission && t.tax == if t.side == Buy then 0.0 else amount * costs.tax
  }

  predicate AllCharged(trades: seq<Trade>, costs: Costs) {
    forall i :: 0 <= i < |trades| ==> Charged(trades[i], costs)
  }

  lemma FillCharges(costs: Costs, p: Pending, bar: Candle, b: Book)
    requires AllCharged(b.trades, costs) && FillSignal(costs, p, bar, b).Some?
    ensures AllCharged(FillSignal(costs, p, bar, b).value.trades, costs)
  {
  }

  /** Every trade of every run is charged at those rates. */
  lemma {:induction false} RunCharges<S>(
    p: Plugin<S>, costs: Costs, state: S, capital: real, symbol: string, candles: seq<Candle>, k: nat)
    requires k <= |candles| && After(p, costs, Fresh(state, capital), symbol, candles, k).Some?
    ensures AllCharged(After(p, costs, Fresh(state, capital), symbol, candles, k).value.book.trades, costs)
  {
    if k == 0 {
    } else {
      RunCharges(p, costs, state, capital, symbol, candles, k - 1);
      var before := After(p, costs, Fresh(state, capital), symbol, candles, k - 1).value;
      if before.pending.Some? {
        FillCharges(costs, before.pending.value, candles[k - 1], before.book);
      }
    }
  }
}
