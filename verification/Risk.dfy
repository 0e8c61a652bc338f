/**
 The risk gate (core/risk/manager.py, core/risk/models.py) and the control handlers that write its halt
 level (core/api/routes/control.py).
 */
module Risk {
  import opened Arithmetic
  import opened Market
  import opened Wrappers

  /** The graded kill switch, mildest first. */
  datatype HaltLevel = NoHalt | Reduce | Pause | Kill

  function Rank(level: HaltLevel): int {
    match level
    case NoHalt => 0
    case Reduce => 1
    case Pause => 2
    case Kill => 3
  }

  datatype Config = Config(maxPositionValue: real, maxDailyOrders: int, maxTotalExposure: real, reduceRatio: real)

  datatype Position = Position(qty: int, avgPrice: real)

  type Positions = map<string, Position>

  datatype Order = Order(symbol: string, side: Side, qty: Lots, limit: Option<Price>)

  datatype Reason = Halted | MarketBuy | DailyLimit | TotalExposure | PositionValue

  datatype Decision = Approved(order: Order) | Rejected(reason: Reason)

  datatype RiskState = RiskState(halt: HaltLevel, count: int, day: int)

  function Value(qty: int, price: real): real {
    qty as real * price
  }

  function BookValue(p: Position): real {
    Value(p.qty, p.avgPrice)
  }

  /** The book value of all positions, whatever order they are added up in. */
  ghost function Exposure(ps: Positions): real {
    if ps == map[] then 0.0
    else
      var s :| s in ps;
      BookValue(ps[s]) + Exposure(ps - {s})
  }

  function BookOf(ps: Positions, symbol: string): real {
    if symbol in ps then BookValue(ps[symbol]) else 0.0
  }

  /** REDUCE scales the quantity down, but never below one lot. */
  function ReducedQty(cfg: Config, halt: HaltLevel, qty: Lots): Lots {
    if halt == Reduce then Max(1, Truncate(qty as real * cfg.reduceRatio)) else qty
  }

  function Refreshed(rs: RiskState, today: int): RiskState {
    if today != rs.day then rs.(count := 0, day := today) else rs
  }

  function LimitValue(signal: Signal): real {
    Value(signal.qty, if signal.price.Some? then signal.price.value else 0.0)
  }

  /** The checks in the source's order; the first that fails decides. */
  ghost function Judge(cfg: Config, rs: RiskState, signal: Signal, ps: Positions): Decision {
    if signal.side == Buy && (rs.halt == Kill || rs.halt == Pause) then Rejected(Halted)
    else if signal.side == Buy && signal.price.None? then Rejected(MarketBuy)
    else if rs.count >= cfg.maxDailyOrders then Rejected(DailyLimit)
    else if signal.side == Buy && Exposure(ps) + LimitValue(signal) > cfg.maxTotalExposure then Rejected(TotalExposure)
    else if signal.side == Buy && BookOf(ps, signal.symbol) + LimitValue(signal) > cfg.maxPositionValue
        then Rejected(PositionValue)
    else Approved(Order(signal.symbol, signal.side, if signal.side == Buy then ReducedQty(cfg, rs.halt, signal.qty)
        else signal.qty, signal.price))
  }

  ghost function Evaluated(
    cfg: Config, rs: RiskState, signal: Signal, ps: Positions, today: int): (RiskState, Decision) {
    var refreshed := Refreshed(rs, today);
    var decision := Judge(cfg, refreshed, signal, ps);
    (if decision.Approved? then refreshed.(count := refreshed.count + 1) else refreshed, decision)
  }

  function Raised(halt: HaltLevel, level: HaltLevel): HaltLevel {
    if Rank(level) <= Rank(halt) then halt else level
  }

  class RiskManager {
    const cfg: Config
    var halt: HaltLevel
    var dailyOrderCount: int
    var dailyResetDate: int

    function Current(): RiskState
      reads this
    {
      RiskState(halt, dailyOrderCount, dailyResetDate)
    }

    constructor (cfg: Config, today: int)
      ensures this.cfg == cfg && Current() == RiskState(NoHalt, 0, today)
    {
      this.cfg := cfg;
      halt, dailyOrderCount, dailyResetDate := NoHalt, 0, today;
    }

    method RefreshDailyCounter(today: int)
      modifies this`dailyOrderCount, this`dailyResetDate
      ensures Current() == Refreshed(old(Current()), today)
      ensures dailyResetDate == today
      ensures dailyOrderCount == if today == old(dailyResetDate) then old(dailyOrderCount) else 0
    {
      if today != dailyResetDate {
        dailyOrderCount := 0;
        dailyResetDate := today;
      }
    }

    method Evaluate(signal: Signal, ps: Positions, today: int) returns (d: Decision)
      modifies this
      ensures (Current(), d) == Evaluated(cfg, old(Current()), signal, ps, today)
    {
      RefreshDailyCounter(today);
      if signal.side == Buy && (halt == Kill || halt == Pause) {
        return Rejected(Halted);
      }
      if signal.side == Buy && signal.price.None? {
        return Rejected(MarketBuy);
      }
      if dailyOrderCount >= cfg.maxDailyOrders {
        return Rejected(DailyLimit);
      }
      if signal.side == Buy {
        var exposure := TotalExposureOf(ps);
        if exposure + LimitValue(signal) > cfg.maxTotalExposure {
          return Rejected(TotalExposure);
        }
        if BookOf(ps, signal.symbol) + LimitValue(signal) > cfg.maxPositionValue {
          return Rejected(PositionValue);
        }
      }
      var qty := if signal.side == Buy then ReducedQty(cfg, halt, signal.qty) else signal.qty;
      dailyOrderCount := dailyOrderCount + 1;
      return Approved(Order(signal.symbol, signal.side, qty, signal.price));
    }

    /** The level only ever rises. */
    method GraduatedHalt(level: HaltLevel)
      modifies this`halt
      ensures halt == Raised(old(halt), level)
      ensures halt == if Kill in {old(halt), level} then Kill else if Pause in {old(halt), level} then Pause
                      else if Reduce in {old(halt), level} then Reduce else NoHalt
    {
      if Rank(level) <= Rank(halt) {
        return;
      }
      halt := level;
    }

    method ResetHalt()
      modifies this`halt
      ensures halt == NoHalt
    {
      halt := NoHalt;
    }
  }

  method TotalExposureOf(ps: Positions) returns (total: real)
    ensures total == Exposure(ps)
  {
    total := 0.0;
    var left := ps;
    while left != map[]
      invariant total + Exposure(left) == Exposure(ps)
      decreases |left|
    {
      var s :| s in left;
      ExposureRemove(left, s);
      total := total + BookValue(left[s]);
      left := left - {s};
    }
  }

  lemma {:induction false} ExposureRemove(ps: Positions, s: string)
    requires s in ps
    ensures Exposure(ps) == BookValue(ps[s]) + Exposure(ps - {s})
    decreases |ps|
  {
    var t :| t in ps && Exposure(ps) == BookValue(ps[t]) + Exposure(ps - {t});
    if t == s {
    } else {
      ExposureRemove(ps - {t}, s);
      ExposureRemove(ps - {s}, t);
      assert ps - {t} - {s} == ps - {s} - {t};
    }
  }

  lemma ExposureUpdate(ps: Positions, s: string, p: Position)
    ensures Exposure(ps[s := p]) == Exposure(ps) - BookOf(ps, s) + BookValue(p)
  {
    ExposureRemove(ps[s := p], s);
    if s in ps {
      ExposureRemove(ps, s);
      assert ps[s := p] - {s} == ps - {s};
    } else {
      assert ps[s := p] - {s} == ps;
    }
  }

  // ----- the control handlers; false is the 409 answer

  method PauseHandler(risk: RiskManager) returns (ok: bool)
    modifies risk`halt
    ensures ok == (old(risk.halt) != Kill) && risk.halt == Paused(old(risk.halt))
    ensures risk.halt == if old(risk.halt) == Kill then Kill else Pause
  {
    if risk.halt == Kill {
      return false;
    }
    risk.halt := Pause;
    return true;
  }

  method ResumeHandler(risk: RiskManager) returns (ok: bool)
    modifies risk`halt
    ensures ok == (old(risk.halt) != Kill) && risk.halt == Resumed(old(risk.halt))
    ensures risk.halt == if old(risk.halt) == Kill then Kill else NoHalt
  {
    if risk.halt == Kill {
      return false;
    }
    risk.halt := NoHalt;
    return true;
  }

  method KillHandler(risk: RiskManager)
    modifies risk`halt
    ensures risk.halt == Kill
  {
    risk.halt := Kill;
  }

  function Paused(halt: HaltLevel): HaltLevel {
    if halt == Kill then Kill else Pause
  }

  function Resumed(halt: HaltLevel): HaltLevel {
    if halt == Kill then Kill else NoHalt
  }

  // ----- runs: every approved order settles before the next evaluation

  /** An evaluation on some day, with how many lots of an approved order fill and at what price; or a halt write. */
  datatype Event =
    | Evaluate(signal: Signal, today: int, filled: nat, price: real)
    | Graduate(level: HaltLevel) | Reset | ControlPause | ControlResume | ControlKill

  datatype World = World(risk: RiskState, positions: Positions, approvals: seq<(int, Order)>)

  function Blended(p: Position, bought: nat, price: real): Position {
    var qty := p.qty + bought;
    Position(qty, if qty > 0 then (BookValue(p) + Value(bought, price)) / qty as real else 0.0)
  }

  /** A buy blends into the position; a sale takes at most what is held. */
  function Settled(ps: Positions, o: Order, filled: nat, price: real): Positions {
    if o.side == Buy then
      ps[o.symbol := Blended(if o.symbol in ps then ps[o.symbol] else Position(0, 0.0), filled, price)]
    else if o.symbol in ps then
      ps[o.symbol := ps[o.symbol].(qty := ps[o.symbol].qty - Min(filled, ps[o.symbol].qty))]
    else ps
  }

  ghost function Next(cfg: Config, w: World, e: Event): World {
    match e
    case Evaluate(signal, today, filled, price) =>
      var (risk, decision) := Evaluated(cfg, w.risk, signal, w.positions, today);
      (match decision
       case Rejected(_) => w.(risk := risk)
       case Approved(o) => World(risk, Settled(w.positions, o, filled, price), w.approvals + [(today, o)]))
    case Graduate(level) => w.(risk := w.risk.(halt := Raised(w.risk.halt, level)))
    case Reset => w.(risk := w.risk.(halt := NoHalt))
    case ControlPause => w.(risk := w.risk.(halt := Paused(w.risk.halt)))
    case ControlResume => w.(risk := w.risk.(halt := Resumed(w.risk.halt)))
    case ControlKill => w.(risk := w.risk.(halt := Kill))
  }

  /** Fills are no larger than the order, buys no dearer than its limit; days do not run backwards. */
  ghost predicate Orderly(cfg: Config, w: World, e: Event) {
    e.Evaluate? ==>
      var decision := Evaluated(cfg, w.risk, e.signal, w.positions, e.today).1;
      && e.today >= w.risk.day && e.price >= 0.0
      && (decision.Approved? ==>
            e.filled <= decision.order.qty
            && (decision.order.side == Buy && decision.order.limit.Some? ==> e.price <= decision.order.limit.value))
  }

  ghost predicate IsRun(cfg: Config, trace: seq<World>, events: seq<Event>) {
    && |trace| == |events| + 1
    && forall i :: 0 <= i < |events|
        ==> Orderly(cfg, trace[i], events[i]) && trace[i + 1] == Next(cfg, trace[i], events[i])
  }

  ghost predicate WithinCaps(cfg: Config, ps: Positions) {
    && Exposure(ps) <= cfg.maxTotalExposure
    && forall s :: s in ps ==> ps[s].qty >= 0 && ps[s].avgPrice >= 0.0 && BookValue(ps[s]) <= cfg.maxPositionValue
  }

  lemma ValueMonotone(a: int, b: int, x: real, y: real)
    requires 0 <= a <= b && 0.0 <= x <= y
    ensures 0.0 <= Value(a, x) <= Value(b, y)
  {
    assert a as real * x <= b as real * x;
    assert b as real * x <= b as real * y;
  }

  lemma BlendedBook(p: Position, bought: nat, price: real)
    requires p.qty >= 0 && p.avgPrice >= 0.0 && price >= 0.0
    ensures BookValue(Blended(p, bought, price)) == BookValue(p) + Value(bought, price)
    ensures Blended(p, bought, price).avgPrice >= 0.0
  {
    ValueMonotone(0, p.qty, p.avgPrice, p.avgPrice);
    ValueMonotone(0, bought, price, price);
    var total, qty := BookValue(p) + Value(bought, price), p.qty + bought;
    if qty > 0 {
      Quotient(total, qty as real);
    }
  }

  lemma Quotient(total: real, n: real)
    requires n > 0.0 && total >= 0.0
    ensures total / n >= 0.0 && n * (total / n) == total
  {
  }

  lemma ReducedAtMost(cfg: Config, halt: HaltLevel, qty: Lots)
    requires 0.0 <= cfg.reduceRatio <= 1.0
    ensures ReducedQty(cfg, halt, qty) <= qty
  {
    TruncateScaled(qty, cfg.reduceRatio);
  }

  /** What the gate lets through fits under both caps, at its limit and in full. */
  lemma ApprovedFits(cfg: Config, rs: RiskState, signal: Signal, ps: Positions)
    requires Judge(cfg, rs, signal, ps).Approved? && signal.side == Buy && 0.0 <= cfg.reduceRatio <= 1.0
    ensures var o := Judge(cfg, rs, signal, ps).order;
            && o.limit.Some? && o.symbol == signal.symbol && o.side == Buy
            && Exposure(ps) + Value(o.qty, o.limit.value) <= cfg.maxTotalExposure
            && BookOf(ps, o.symbol) + Value(o.qty, o.limit.value) <= cfg.maxPositionValue
  {
    ReducedAtMost(cfg, rs.halt, signal.qty);
    ValueMonotone(ReducedQty(cfg, rs.halt, signal.qty), signal.qty, signal.price.value, signal.price.value);
  }

  lemma BuySettles(cfg: Config, ps: Positions, o: Order, filled: nat, price: real)
    requires WithinCaps(cfg, ps) && o.side == Buy && o.limit.Some? && filled <= o.qty && 0.0 <= price <= o.limit.value
    requires Exposure(ps) + Value(o.qty, o.limit.value) <= cfg.maxTotalExposure
    requires BookOf(ps, o.symbol) + Value(o.qty, o.limit.value) <= cfg.maxPositionValue
    ensures WithinCaps(cfg, Settled(ps, o, filled, price))
  {
    var p := if o.symbol in ps then ps[o.symbol] else Position(0, 0.0);
    BlendedBook(p, filled, price);
    ExposureUpdate(ps, o.symbol, Blended(p, filled, price));
    ValueMonotone(filled, o.qty, price, o.limit.value);
  }

  lemma SellSettles(cfg: Config, ps: Positions, o: Order, filled: nat, price: real)
    requires WithinCaps(cfg, ps) && o.side == Sell
    ensures WithinCaps(cfg, Settled(ps, o, filled, price))
  {
    if o.symbol in ps {
      var p := ps[o.symbol];
      var left := p.(qty := p.qty - Min(filled, p.qty));
      ExposureUpdate(ps, o.symbol, left);
      ValueMonotone(left.qty, p.qty, p.avgPrice, p.avgPrice);
    }
  }

  lemma StepWithinCaps(cfg: Config, w: World, e: Event)
    requires WithinCaps(cfg, w.positions) && Orderly(cfg, w, e) && 0.0 <= cfg.reduceRatio <= 1.0
    ensures WithinCaps(cfg, Next(cfg, w, e).positions)
  {
    if e.Evaluate? {
      var rs := Refreshed(w.risk, e.today);
      var decision := Judge(cfg, rs, e.signal, w.positions);
      if decision.Approved? {
        if e.signal.side == Buy {
          ApprovedFits(cfg, rs, e.signal, w.positions);
          BuySettles(cfg, w.positions, decision.order, e.filled, e.price);
        } else {
          SellSettles(cfg, w.positions, decision.order, e.filled, e.price);
        }
      }
    }
  }

  /** From a start within the caps, every run stays within them. */
  lemma {:induction false} RunWithinCaps(cfg: Config, trace: seq<World>, events: seq<Event>, i: nat)
    requires IsRun(cfg, trace, events) && i < |trace| && WithinCaps(cfg, trace[0].positions)
            && 0.0 <= cfg.reduceRatio <= 1.0
    ensures WithinCaps(cfg, trace[i].positions)
  {
    if i == 0 {
    } else {
      RunWithinCaps(cfg, trace, events, i - 1);
      StepWithinCaps(cfg, trace[i - 1], events[i - 1]);
    }
  }

  // ----- the daily limit

  function ApprovedOn(day: int, approvals: seq<(int, Order)>): nat {
    if approvals == [] then 0
    else ApprovedOn(day, approvals[..|approvals| - 1]) + if approvals[|approvals| - 1].0 == day then 1 else 0
  }

  lemma ApprovedOnSnoc(day: int, approvals: seq<(int, Order)>, a: (int, Order))
    ensures ApprovedOn(day, approvals + [a]) == ApprovedOn(day, approvals) + if a.0 == day then 1 else 0
  {
    assert (approvals + [a])[..|approvals|] == approvals;
  }

  lemma {:induction false} NoneOnLaterDays(day: int, approvals: seq<(int, Order)>)
    requires forall i :: 0 <= i < |approvals| ==> approvals[i].0 < day
    ensures ApprovedOn(day, approvals) == 0
  {
    if approvals == [] {
    } else {
      NoneOnLaterDays(day, approvals[..|approvals| - 1]);
    }
  }

  /** The counter counts today's approvals, and no day has more than the limit. */
  ghost predicate CountsDays(cfg: Config, w: World) {
    Counted(w.risk, cfg.maxDailyOrders, w.approvals)
  }

  ghost predicate Counted(rs: RiskState, limit: int, approvals: seq<(int, Order)>) {
    && rs.count == ApprovedOn(rs.day, approvals)
    && (forall i :: 0 <= i < |approvals| ==> approvals[i].0 <= rs.day)
    && (forall day :: ApprovedOn(day, approvals) <= Max(0, limit))
  }

  lemma RefreshCounts(rs: RiskState, limit: int, approvals: seq<(int, Order)>, today: int)
    requires Counted(rs, limit, approvals) && today >= rs.day
    ensures Counted(Refreshed(rs, today), limit, approvals)
  {
    if today > rs.day {
      NoneOnLaterDays(today, approvals);
    }
  }

  lemma ApprovalCounts(rs: RiskState, limit: int, approvals: seq<(int, Order)>, o: Order)
    requires Counted(rs, limit, approvals) && rs.count < limit
    ensures Counted(rs.(count := rs.count + 1), limit, approvals + [(rs.day, o)])
  {
    forall day
      ensures ApprovedOn(day, approvals + [(rs.day, o)]) == ApprovedOn(day, approvals) + if day == rs.day then 1 else 0
    {
      ApprovedOnSnoc(day, approvals, (rs.day, o));
    }
  }

  /** What an evaluation does to the counter and to the list of approvals. */
  lemma EvaluationNext(cfg: Config, w: World, e: Event)
    requires e.Evaluate?
    ensures var rs := Refreshed(w.risk, e.today);
            var decision := Judge(cfg, rs, e.signal, w.positions);
            var w' := Next(cfg, w, e);
            if decision.Approved?
            then w'.risk == rs.(count := rs.count + 1) && w'.approvals == w.approvals + [(e.today, decision.order)]
            else w'.risk == rs && w'.approvals == w.approvals
  {
  }

  lemma StepCountsDays(cfg: Config, w: World, e: Event)
    requires CountsDays(cfg, w) && (e.Evaluate? ==> e.today >= w.risk.day)
    ensures CountsDays(cfg, Next(cfg, w, e))
  {
    if e.Evaluate? {
      var rs := Refreshed(w.risk, e.today);
      RefreshCounts(w.risk, cfg.maxDailyOrders, w.approvals, e.today);
      EvaluationNext(cfg, w, e);
      var decision := Judge(cfg, rs, e.signal, w.positions);
      if decision.Approved? {
        ApprovalCounts(rs, cfg.maxDailyOrders, w.approvals, decision.order);
      }
    }
  }

  /** Over every run, no day sees more approvals than the limit. */
  lemma {:induction false} RunCountsDays(cfg: Config, trace: seq<World>, events: seq<Event>, i: nat)
    requires IsRun(cfg, trace, events) && i < |trace| && trace[0].approvals == [] && trace[0].risk.count == 0
    ensures CountsDays(cfg, trace[i])
  {
    if i == 0 {
    } else {
      RunCountsDays(cfg, trace, events, i - 1);
      StepCountsDays(cfg, trace[i - 1], events[i - 1]);
    }
  }

  // ----- the kill switch

  /** After KILL, until an explicit reset, the level stays and no buy is approved. */
  lemma {:induction false} KillHolds(cfg: Config, trace: seq<World>, events: seq<Event>, i: nat, j: nat)
    requires IsRun(cfg, trace, events) && i <= j < |trace| && trace[i].risk.halt == Kill
    requires forall k :: i <= k < j ==> events[k] != Reset
    ensures trace[j].risk.halt == Kill && trace[i].approvals <= trace[j].approvals
    ensures forall k :: |trace[i].approvals| <= k < |trace[j].approvals| ==> trace[j].approvals[k].1.side == Sell
  {
    if i == j {
    } else {
      KillHolds(cfg, trace, events, i, j - 1);
    }
  }

  /**
   The control documents KILL as lasting until a restart. It lasts exactly as long as nobody resets it: no
   other event, in any number, lowers it.
   */
  lemma KillUntilReset(cfg: Config, trace: seq<World>, events: seq<Event>, i: nat, j: nat)
    requires IsRun(cfg, trace, events) && i <= j < |trace| && trace[i].risk.halt == Kill
    ensures (forall m :: i <= m <= j ==> trace[m].risk.halt == Kill)
            <==> (forall k :: i <= k < j ==> events[k] != Reset)
  {
    if forall k :: i <= k < j ==> events[k] != Reset {
      forall m | i <= m <= j ensures trace[m].risk.halt == Kill {
        KillHolds(cfg, trace, events, i, m);
      }
    } else {
      var k :| i <= k < j && events[k] == Reset;
      assert trace[k + 1] == Next(cfg, trace[k], events[k]);
      assert trace[k + 1].risk.halt == NoHalt;
    }
  }

  /** The failing run: KILL, a reset, and the purchase that KILL refused is approved. */
  lemma ResetLiftsKill(symbol: string)
    ensures var cfg, buy := Config(100.0, 10, 100.0, 0.5), Signal("s", symbol, Buy, 1, Some(1.0));
            var killed, evaluation := World(RiskState(Kill, 0, 0), map[], []), Evaluate(buy, 0, 1, 1.0);
            && Next(cfg, killed, evaluation).approvals == []
            && Next(cfg, Next(cfg, killed, Reset), evaluation).approvals == [(0, Order(symbol, Buy, 1, Some(1.0)))]
  {
    var cfg, buy := Config(100.0, 10, 100.0, 0.5), Signal("s", symbol, Buy, 1, Some(1.0));
    assert Exposure(map[]) == 0.0;
    assert Value(1, 1.0) == 1.0 && LimitValue(buy) == 1.0;
    assert Judge(cfg, RiskState(NoHalt, 0, 0), buy, map[]) == Approved(Order(symbol, Buy, 1, Some(1.0)));
  }

  /** The events of a run are the calls of the risk manager and of the control handlers. */
  method Perform(risk: RiskManager, e: Event, ps: Positions, ghost w: World)
    requires risk.Current() == w.risk && ps == w.positions
    modifies risk
    ensures risk.Current() == Next(risk.cfg, w, e).risk
  {
    match e {
      case Evaluate(signal, today, _, _) => var _ := risk.Evaluate(signal, ps, today);
      case Graduate(level) => risk.GraduatedHalt(level);
      case Reset => risk.ResetHalt();
      case ControlPause => var _ := PauseHandler(risk);
      case ControlResume => var _ := ResumeHandler(risk);
      case ControlKill => KillHandler(risk);
    }
  }

  /** The same from PAUSE upwards, until a resume or a reset. */
  lemma {:induction false} HaltHolds(cfg: Config, trace: seq<World>, events: seq<Event>, i: nat, j: nat)
    requires IsRun(cfg, trace, events) && i <= j < |trace| && Rank(trace[i].risk.halt) >= Rank(Pause)
    requires forall k :: i <= k < j ==> events[k] != Reset && events[k] != ControlResume
    ensures Rank(trace[j].risk.halt) >= Rank(trace[i].risk.halt) && trace[i].approvals <= trace[j].approvals
    ensures forall k :: |trace[i].approvals| <= k < |trace[j].approvals| ==> trace[j].approvals[k].1.side == Sell
  {
    if i == j {
    } else {
      HaltHolds(cfg, trace, events, i, j - 1);
    }
  }
}
