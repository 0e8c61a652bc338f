/** The daily-bar backtest (core/backtest/engine.py): signals of one bar are filled at the next bar's open. */
module Backtest {
  import opened Arithmetic
  import opened Market
  import opened Plugins
  import opened Wrappers

  const LOOKBACK := 50

  datatype Trade = Trade(
    symbol: string, side: Side, price: real, qty: Lots, commission: real, tax: real,
    timestamp: int, signalTimestamp: int)
  {
    /** Cash in, positive for a sale. */
    function NetAmount(): real {
      var gross := Amount(price, qty);
      if side == Buy then -(gross + commission) else gross - commission - tax
    }
  }

  /** Rates, as fractions. */
  datatype Costs = Costs(commission: real, tax: real, slippage: real)

  datatype Pending = Pending(signal: Signal, timestamp: int)

  datatype Book = Book(cash: real, qty: int, avg: real, trades: seq<Trade>)

  /** The simulation between two bars. */
  datatype Sim<!S> = Sim(state: S, book: Book, pending: Option<Pending>, equity: seq<real>)

  // ----- one fill

  function Amount(price: real, lots: int): real {
    price * lots as real
  }

  function Scaled(amount: real, rate: real): real {
    amount * rate
  }

  function BuyPrice(costs: Costs, bar: Candle): real {
    bar.open * (1.0 + costs.slippage)
  }

  function SellPrice(costs: Costs, bar: Candle): real {
    bar.open * (1.0 - costs.slippage)
  }

  function AverageAfterBuy(qty: int, avg: real, bought: int, price: real): real {
    if qty + bought > 0 then (Amount(avg, qty) + Amount(price, bought)) / (qty + bought) as real else 0.0
  }

  function Bought(costs: Costs, p: Pending, bar: Candle, b: Book, lots: Lots): Book {
    var price := BuyPrice(costs, bar);
    var cost := Amount(price, lots);
    var commission := Scaled(cost, costs.commission);
    Book(
      b.cash - (cost + commission),
      b.qty + lots,
      AverageAfterBuy(b.qty, b.avg, lots, price),
      b.trades + [Trade(p.signal.symbol, Buy, price, lots, commission, 0.0, bar.timestamp, p.timestamp)])
  }

  function Sold(costs: Costs, p: Pending, bar: Candle, b: Book, lots: Lots): Book {
    var price := SellPrice(costs, bar);
    var gross := Amount(price, lots);
    var commission, tax := Scaled(gross, costs.commission), Scaled(gross, costs.tax);
    var left := Max(0, b.qty - lots);
    Book(
      b.cash + (gross - commission - tax),
      left,
      if left == 0 then 0.0 else b.avg,
      b.trades + [Trade(p.signal.symbol, Sell, price, lots, commission, tax, bar.timestamp, p.timestamp)])
  }

  /** How many lots a buy fills: all it asks for, or what the cash pays for. None: the division by zero raises. */
  function BuyableLots(costs: Costs, wanted: Lots, bar: Candle, cash: real): Option<int> {
    var price := BuyPrice(costs, bar);
    var cost := Amount(price, wanted);
    if cash < cost + Scaled(cost, costs.commission) then
      var unit := Scaled(price, 1.0 + costs.commission);
      if unit == 0.0 then None else Some(Truncate(cash / unit))
    else Some(wanted)
  }

  function FillSignal(costs: Costs, p: Pending, bar: Candle, b: Book): Option<Book> {
    match p.signal.side
    case Buy =>
      (match BuyableLots(costs, p.signal.qty, bar, b.cash)
       case None => None
       case Some(lots) => if lots < 1 then Some(b) else Some(Bought(costs, p, bar, b, lots)))
    case Sell =>
      var lots := Min(p.signal.qty, b.qty);
      if lots < 1 then Some(b) else Some(Sold(costs, p, bar, b, lots))
  }

  // ----- one bar

  /** The start of a bar: fill what is pending at its open, then value the book at its close. */
  function OpenBar<S>(costs: Costs, s: Sim<S>, bar: Candle): Option<Sim<S>> {
    var filled := if s.pending.Some? then FillSignal(costs, s.pending.value, bar, s.book) else Some(s.book);
    match filled
    case None => None
    case Some(b) => Some(Sim(s.state, b, None, s.equity + [b.cash + Amount(bar.close, b.qty)]))
  }

  /** The bars a strategy is shown at bar `i`: itself and at most fifty before it. */
  function Recent(candles: seq<Candle>, i: nat): seq<Candle>
    requires i < |candles|
  {
    candles[Max(0, i - LOOKBACK)..i + 1]
  }

  /** The end of a bar: the strategy's signal waits for the next open. None: the strategy raised. */
  function CloseBar<S>(p: Plugin<S>, s: Sim<S>, symbol: string, candles: seq<Candle>, i: nat): Option<Sim<S>>
    requires i < |candles|
  {
    var (state, out) := p.tick(s.state, CandleToTick(candles[i]), Context(symbol, Recent(candles, i)));
    match out
    case Raise => None
    case Silent => Some(Sim(state, s.book, s.pending, s.equity))
    case Emit(signal) => Some(Sim(state, s.book, Some(Pending(signal, candles[i].timestamp)), s.equity))
  }

  /** The simulation after `k` whole bars. */
  function After<S>(
    p: Plugin<S>, costs: Costs, start: Sim<S>, symbol: string, candles: seq<Candle>, k: nat): Option<Sim<S>>
    requires k <= |candles|
    decreases k, 0
  {
    if k == 0 then Some(start)
    else
      match Opened(p, costs, start, symbol, candles, k - 1)
      case None => None
      case Some(s) => CloseBar(p, s, symbol, candles, k - 1)
  }

  /** The simulation inside bar `i`, after its fill and its valuation. */
  function Opened<S>(
    p: Plugin<S>, costs: Costs, start: Sim<S>, symbol: string, candles: seq<Candle>, i: nat): Option<Sim<S>>
    requires i < |candles|
    decreases i, 1
  {
    match After(p, costs, start, symbol, candles, i)
    case None => None
    case Some(s) => OpenBar(costs, s, candles[i])
  }

  function Fresh<S>(state: S, capital: real): Sim<S> {
    Sim(state, Book(capital, 0, 0.0, []), None, [])
  }

  /** The whole run from a warmed-up strategy; its `pending` at the end is the signal that stays unfilled. */
  function RunFrom<S>(
    p: Plugin<S>, costs: Costs, state: S, capital: real, symbol: string, candles: seq<Candle>): Option<Sim<S>> {
    After(p, costs, Fresh(state, capital), symbol, candles, |candles|)
  }

  /** The bars a run on at least two candles warms its strategy up on: all but the last. */
  function WarmupBars(candles: seq<Candle>): seq<Candle> {
    if candles == [] then [] else candles[..|candles| - 1]
  }

  /** The run as the engine makes it, warm-up included. None: the warm-up, a fill or a tick raised. */
  function Backtested<S>(
    p: Plugin<S>, costs: Costs, s0: S, capital: real, symbol: string, candles: seq<Candle>): Option<Sim<S>>
  {
    var (state, warmed) := p.warm(s0, WarmupBars(candles));
    if warmed then RunFrom(p, costs, state, capital, symbol, candles) else None
  }

  // ----- the engine

  class Position {
    var qty: int
    var avgPrice: real

    constructor ()
      ensures qty == 0 && avgPrice == 0.0
    {
      qty, avgPrice := 0, 0.0;
    }

    method UpdateBuy(bought: int, price: real)
      modifies this
      ensures qty == old(qty) + bought
      ensures avgPrice == AverageAfterBuy(old(qty), old(avgPrice), bought, price)
    {
      var totalCost := Amount(avgPrice, qty) + Amount(price, bought);
      qty := qty + bought;
      avgPrice := if qty > 0 then totalCost / qty as real else 0.0;
    }

    method UpdateSell(sold: int)
      modifies this
      ensures qty == Max(0, old(qty) - sold)
      ensures avgPrice == if qty == 0 then 0.0 else old(avgPrice)
    {
      qty := Max(0, qty - sold);
      if qty == 0 {
        avgPrice := 0.0;
      }
    }
  }

  datatype Report = Report(trades: seq<Trade>, equity: seq<real>, unfilled: seq<Signal>, capital: real)

  class BacktestEngine<S(!new)> {
    const plugin: Plugin<S>
    const costs: Costs
    const capital: real
    var state: S

    constructor (plugin: Plugin<S>, state: S, costs: Costs, capital: real)
      ensures this.plugin == plugin && this.state == state && this.costs == costs && this.capital == capital
    {
      this.plugin, this.state, this.costs, this.capital := plugin, state, costs, capital;
    }

    method Run(symbol: string, candles: seq<Candle>) returns (r: Result<Report, string>)
      modifies this
      ensures |candles| < 2 ==> r == Success(Report([], [capital], [], capital)) && state == old(state)
      ensures |candles| >= 2 ==>
                var run := Backtested(plugin, costs, old(state), capital, symbol, candles);
                if run.Some?
                then r == Success(Report(run.value.book.trades, run.value.equity,
                                         if run.value.pending.Some? then [run.value.pending.value.signal] else [],
                                         capital))
                     && state == run.value.state
                else r.Failure?
    {
      if |candles| < 2 {
        return Success(Report([], [capital], [], capital));
      }
      var warmed := plugin.warm(state, candles[..|candles| - 1]);
      state := warmed.0;
      if !warmed.1 {
        return Failure("warmup");
      }
      ghost var start := Fresh(state, capital);
      var cash := capital;
      var position := new Position();
      var trades, equity := [], [];
      var pending: Option<Pending> := None;
      for i := 0 to |candles|
        invariant fresh(position)
        invariant After(plugin, costs, start, symbol, candles, i)
                  == Some(Sim(state, Book(cash, position.qty, position.avgPrice, trades), pending, equity))
      {
        var ok;
        cash, pending, trades, equity, ok := Bar(symbol, candles, i, cash, position, pending, trades, equity);
        if !ok {
          FailureSpreads(plugin, costs, start, symbol, candles, i + 1, |candles|);
          return Failure("raised");
        }
      }
      r := Success(Report(trades, equity, if pending.Some? then [pending.value.signal] else [], capital));
    }

    /** One pass of the bar loop. */
    method Bar(
      symbol: string, candles: seq<Candle>, i: nat,
      cash: real, position: Position, pending: Option<Pending>, trades: seq<Trade>, equity: seq<real>)
      returns (cash': real, pending': Option<Pending>, trades': seq<Trade>, equity': seq<real>, ok: bool)
      requires i < |candles|
      modifies this, position
      ensures var book := Book(cash, old(position.qty), old(position.avgPrice), trades);
              var before := Sim(old(state), book, pending, equity);
              var start := OpenBar(costs, before, candles[i]);
              var end := if start.None? then None else CloseBar(plugin, start.value, symbol, candles, i);
              if end.None? then !ok
              else
                && ok
                && end.value == Sim(state, Book(cash', position.qty, position.avgPrice, trades'), pending', equity')
    {
      cash', pending', trades', equity', ok := cash, pending, trades, equity, true;
      var bar := candles[i];
      if pending.Some? {
        cash', ok, trades' := Fill(pending.value, bar, cash, position, trades);
        if !ok {
          return;
        }
        pending' := None;
      }
      equity' := equity + [cash' + Amount(bar.close, position.qty)];
      var ticked := plugin.tick(state, CandleToTick(bar), Context(symbol, Recent(candles, i)));
      state := ticked.0;
      match ticked.1 {
        case Raise => ok := false;
        case Emit(signal) => pending' := Some(Pending(signal, bar.timestamp));
        case Silent =>
      }
    }

    method Fill(p: Pending, bar: Candle, cash: real, position: Position, trades: seq<Trade>)
      returns (cash': real, ok: bool, trades': seq<Trade>)
      modifies position
      ensures Filled(FillSignal(costs, p, bar, Book(cash, old(position.qty), old(position.avgPrice), trades)),
                     cash', ok, position, trades')
    {
      if p.signal.side == Buy {
        cash', ok, trades' := FillBuy(p, bar, cash, position, trades);
      } else {
        cash', trades' := FillSell(p, bar, cash, position, trades);
        ok := true;
      }
    }

    ghost predicate Filled(expected: Option<Book>, cash: real, ok: bool, position: Position, trades: seq<Trade>)
      reads position
    {
      match expected
      case None => !ok
      case Some(b) => ok && b == Book(cash, position.qty, position.avgPrice, trades)
    }

    method FillBuy(p: Pending, bar: Candle, cash: real, position: Position, trades: seq<Trade>)
      returns (cash': real, ok: bool, trades': seq<Trade>)
      requires p.signal.side == Buy
      modifies position
      ensures Filled(FillSignal(costs, p, bar, Book(cash, old(position.qty), old(position.avgPrice), trades)),
                     cash', ok, position, trades')
    {
      cash', ok, trades' := cash, true, trades;
      var price := BuyPrice(costs, bar);
      var lots: int := p.signal.qty;
      var cost := Amount(price, lots);
      var commission := Scaled(cost, costs.commission);
      if cash < cost + commission {
        var unit := Scaled(price, 1.0 + costs.commission);
        if unit == 0.0 {
          ok := false;
          return;
        }
        lots := Truncate(cash / unit);
        if lots < 1 {
          return;
        }
        cost := Amount(price, lots);
        commission := Scaled(cost, costs.commission);
      }
      cash' := cash - (cost + commission);
      position.UpdateBuy(lots, price);
      trades' := trades + [Trade(p.signal.symbol, Buy, price, lots, commission, 0.0, bar.timestamp, p.timestamp)];
    }

    method FillSell(p: Pending, bar: Candle, cash: real, position: Position, trades: seq<Trade>)
      returns (cash': real, trades': seq<Trade>)
      requires p.signal.side == Sell
      modifies position
      ensures Filled(FillSignal(costs, p, bar, Book(cash, old(position.qty), old(position.avgPrice), trades)),
                     cash', true, position, trades')
    {
      cash', trades' := cash, trades;
      var price := SellPrice(costs, bar);
      var lots := Min(p.signal.qty, position.qty);
      if lots < 1 {
        return;
      }
      var gross := Amount(price, lots);
      var commission, tax := Scaled(gross, costs.commission), Scaled(gross, costs.tax);
      cash' := cash + (gross - commission - tax);
      position.UpdateSell(lots);
      trades' := trades + [Trade(p.signal.symbol, Sell, price, lots, commission, tax, bar.timestamp, p.timestamp)];
    }
  }

  /** A run that has raised stays raised. */
  lemma {:induction false} FailureSpreads<S>(
    p: Plugin<S>, costs: Costs, start: Sim<S>, symbol: string, candles: seq<Candle>, i: nat, k: nat)
    requires i <= k <= |candles| && After(p, costs, start, symbol, candles, i).None?
    ensures After(p, costs, start, symbol, candles, k).None?
  {
    if i == k {
    } else {
      FailureSpreads(p, costs, start, symbol, candles, i, k - 1);
    }
  }
}
