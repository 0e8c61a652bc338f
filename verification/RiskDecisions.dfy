/**
 What the risk gate decides, in the figures of the signal, the positions and the limits: who is refused and why,
 who must be let through, and with how many lots.
 */
module RiskDecisions {
  import opened Arithmetic
  import opened Market
  import opened Risk
  import opened Wrappers

  /** The approvals already counted for today. */
  function CountToday(rs: RiskState, today: int): int {
    if rs.day == today then rs.count else 0
  }

  /** What a limit purchase would add to the book. */
  function Added(signal: Signal): real
    requires signal.price.Some?
  {
    signal.qty as real * signal.price.value
  }

  function HeldValue(ps: Positions, symbol: string): real {
    if symbol in ps then ps[symbol].qty as real * ps[symbol].avgPrice else 0.0
  }

  /** The total does not depend on an order of the positions: nothing is worth nothing, and each adds its own value. */
  lemma ExposureAdds(ps: Positions, symbol: string, p: Position)
    ensures Exposure(map[]) == 0.0
    ensures Exposure(ps[symbol := p]) == Exposure(ps) - HeldValue(ps, symbol) + p.qty as real * p.avgPrice
  {
    ExposureUpdate(ps, symbol, p);
  }

  /** A purchase the limits leave room for. */
  ghost predicate Affordable(cfg: Risk.Config, signal: Signal, ps: Positions) {
    && signal.price.Some?
    && Exposure(ps) + Added(signal) <= cfg.maxTotalExposure
    && HeldValue(ps, signal.symbol) + Added(signal) <= cfg.maxPositionValue
  }

  lemma PurchaseValues(signal: Signal, ps: Positions)
    requires signal.price.Some?
    ensures LimitValue(signal) == Added(signal) && BookOf(ps, signal.symbol) == HeldValue(ps, signal.symbol)
  {
  }

  /**
   A signal is approved exactly when today's limit is not used up and, for a purchase, it names a price, no halt
   above REDUCE is on, and both caps have room for all it asks for.
   */
  lemma ApprovedExactly(cfg: Risk.Config, rs: RiskState, signal: Signal, ps: Positions, today: int)
    ensures Evaluated(cfg, rs, signal, ps, today).1.Approved? <==>
            && CountToday(rs, today) < cfg.maxDailyOrders
            && (signal.side == Buy ==> rs.halt in {NoHalt, Reduce} && Affordable(cfg, signal, ps))
  {
    if signal.price.Some? {
      PurchaseValues(signal, ps);
    }
  }

  /** A refusal names the first reason there is. */
  lemma RefusedFor(cfg: Risk.Config, rs: RiskState, signal: Signal, ps: Positions, today: int)
    ensures var d := Evaluated(cfg, rs, signal, ps, today).1;
            var buy, full := signal.side == Buy, CountToday(rs, today) >= cfg.maxDailyOrders;
            && (d == Rejected(Halted) <==> buy && rs.halt in {Pause, Kill})
            && (d == Rejected(MarketBuy) <==> buy && rs.halt in {NoHalt, Reduce} && signal.price.None?)
            && (d == Rejected(DailyLimit) <==>
                  full && (buy ==> rs.halt in {NoHalt, Reduce} && signal.price.Some?))
            && (d == Rejected(TotalExposure) ==>
                  buy && signal.price.Some? && Exposure(ps) + Added(signal) > cfg.maxTotalExposure)
            && (d == Rejected(PositionValue) ==>
                  && buy && signal.price.Some? && Exposure(ps) + Added(signal) <= cfg.maxTotalExposure
                  && HeldValue(ps, signal.symbol) + Added(signal) > cfg.maxPositionValue)
  {
    if signal.price.Some? {
      PurchaseValues(signal, ps);
    }
  }

  /** The share of the lots, rounded down, but one at least. */
  predicate ReducedTo(lots: int, qty: Lots, ratio: real) {
    var share := qty as real * ratio;
    lots >= 1 && if share < 1.0 then lots == 1 else lots as real <= share < (lots + 1) as real
  }

  lemma ReducedExactly(cfg: Risk.Config, qty: Lots)
    ensures ReducedTo(ReducedQty(cfg, Reduce, qty), qty, cfg.reduceRatio)
  {
    RoundedDown(qty as real * cfg.reduceRatio);
  }

  lemma RoundedDown(x: real)
    ensures var lots := Max(1, Truncate(x));
            lots >= 1 && if x < 1.0 then lots == 1 else lots as real <= x < (lots + 1) as real
  {
    assert x.Floor as real <= x < x.Floor as real + 1.0;
    assert x < 0.0 ==> (-x).Floor >= 0;
  }

  /** An approved order is the signal's: with all its lots, or for a purchase under REDUCE with their share. */
  lemma ApprovedOrder(cfg: Risk.Config, rs: RiskState, signal: Signal, ps: Positions, today: int)
    requires Evaluated(cfg, rs, signal, ps, today).1.Approved?
    ensures var o := Evaluated(cfg, rs, signal, ps, today).1.order;
            && o.symbol == signal.symbol && o.side == signal.side && o.limit == signal.price
            && if signal.side == Buy && rs.halt == Reduce then ReducedTo(o.qty, signal.qty, cfg.reduceRatio)
               else o.qty == signal.qty
  {
    ReducedExactly(cfg, signal.qty);
  }

  /** The level stays, the day is today, and only an approval counts. */
  lemma EvaluationCounts(cfg: Risk.Config, rs: RiskState, signal: Signal, ps: Positions, today: int)
    ensures var (rs', d) := Evaluated(cfg, rs, signal, ps, today);
            rs' == RiskState(rs.halt, CountToday(rs, today) + (if d.Approved? then 1 else 0), today)
  {
  }

  /** What a fill does to the positions: lots add up or come off, and no other position changes. */
  lemma SettledExactly(ps: Positions, o: Order, filled: nat, price: real)
    requires o.symbol in ps && ps[o.symbol].qty >= 0 && ps[o.symbol].avgPrice >= 0.0 && price >= 0.0
    ensures var p, after := ps[o.symbol], Settled(ps, o, filled, price);
            && after - {o.symbol} == ps - {o.symbol} && o.symbol in after
            && (o.side == Buy ==>
                  && after[o.symbol].qty == p.qty + filled
                  && HeldValue(after, o.symbol) == HeldValue(ps, o.symbol) + filled as real * price)
            && (o.side == Sell ==>
                  && after[o.symbol].avgPrice == p.avgPrice
                  && after[o.symbol].qty == if filled <= p.qty then p.qty - filled else 0)
  {
    BlendedBook(ps[o.symbol], filled, price);
  }
}
