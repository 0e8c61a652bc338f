/**
 The leverage/inverse swing strategy: parameters and entry conditions
 (core/strategy/plugins/leverage_inverse_conditions.py), the transition of the five-phase state
 machine as a function, and the stateful class whose methods are proved to follow it
 (core/strategy/plugins/leverage_inverse_strategy.py).
 */
module LeverageInverse {
  import opened Arithmetic
  import opened Market
  import opened Indicators
  import opened Wrappers

  datatype Params = Params(
    demaPeriod: nat, cciPeriod: nat, cciSignalPeriod: nat, kPeriod: nat, dPeriod: nat,
    overbought: real, oversold: real,
    cciOverboughtWarning: real, cciOverboughtExtreme: real,
    cciOversoldWarning: real, cciOversoldExtreme: real,
    swingLookback: nat, partialExitRatio: real, maxAllocationPct: real)
  {
    /** What construction demands of a parameter set. */
    predicate Valid() {
      && demaPeriod >= 3 && cciPeriod >= 2 && cciSignalPeriod >= 2 && kPeriod >= 2 && dPeriod >= 1
      && swingLookback >= 1
      && 0.0 < partialExitRatio < 1.0
      && 0.0 < maxAllocationPct <= 100.0
      && 0.0 < oversold < overbought <= 100.0
      && cciOversoldExtreme < cciOversoldWarning < 0.0 < cciOverboughtWarning < cciOverboughtExtreme
    }
  }

  /** Construction refuses every other combination; the witness is the source's default set. */
  type ValidParams = p: Params | p.Valid()
    witness Params(60, 20, 10, 14, 3, 80.0, 20.0, 150.0, 200.0, -150.0, -200.0, 10, 0.4, 10.0)

  datatype Phase = Watching | LeverageHolding | LeveragePartial | InverseHolding | InversePartial

  datatype Config = Config(
    name: string, underlying: string, long: string, short: string, qtyPerUnit: Lots, params: ValidParams)

  datatype RawState = State(phase: Phase, qty: int, overboughtSeen: bool, oversoldSeen: bool)

  /** While a full position is held there is something to sell. */
  predicate Sellable(st: RawState) {
    st.phase in {LeverageHolding, InverseHolding} ==> st.qty >= 1
  }

  type State = st: RawState | Sellable(st) witness State(Watching, 0, false, false)

  const INITIAL: State := State(Watching, 0, false, false)

  /** The CCI and its signal line are aligned: same length, same newest bar. */
  datatype Readings = Readings(dema: seq<real>, cci: seq<real>, signal: seq<real>, stochD: seq<real>)
  {
    predicate Ready() {
      |dema| >= 3 && |cci| == |signal| >= 2 && |stochD| >= 1
    }
  }

  /** How many of a position's lots the first warning wants to sell. */
  function WantedPart(qty: Lots, ratio: real): Lots {
    Max(1, Round(qty as real * ratio))
  }

  /** How many it sells: no more than there are. */
  function PartialQty(qty: Lots, ratio: real): (sold: Lots)
    ensures sold <= qty
    ensures sold < qty <==> WantedPart(qty, ratio) < qty
  {
    Min(qty, WantedPart(qty, ratio))
  }

  function ReadingsOf(p: ValidParams, candles: seq<Candle>): (r: Option<Readings>)
    ensures r.Some? ==> r.value.Ready()
  {
    var dema := Dema(Closes(candles), p.demaPeriod);
    var cci := Cci(candles, p.cciPeriod);
    var signal := Sma(cci, p.cciSignalPeriod);
    if signal == [] then None
    else
      var aligned := cci[|cci| - |signal|..];
      var stochD := Sma(StochasticK(candles, p.kPeriod), p.dPeriod);
      if |dema| < 3 || |aligned| < 2 || |signal| < 2 || stochD == [] then None
      else Some(Readings(dema, aligned, signal, stochD))
  }

  // ----- entry conditions

  datatype EntryEvaluation = EntryEvaluation(demaOk: bool, cciOk: bool, priceOk: bool, stochOk: bool)
  {
    function CoreCount(): int {
      Count(demaOk) + Count(cciOk) + Count(priceOk)
    }

    predicate AllMet() {
      CoreCount() == 3 && stochOk
    }
  }

  /** The CCI rises through zero, or through its signal line while above zero. */
  predicate CciTurnsUp(r: Readings) {
    var n := |r.cci|;
    n >= 2 && |r.signal| >= 2
    && ((r.cci[n - 2] <= 0.0 && r.cci[n - 1] > 0.0) || (GoldenCross(r.cci, r.signal) && r.cci[n - 1] > 0.0))
  }

  predicate CciTurnsDown(r: Readings) {
    var n := |r.cci|;
    n >= 2 && |r.signal| >= 2
    && ((r.cci[n - 2] >= 0.0 && r.cci[n - 1] < 0.0) || (DeadCross(r.cci, r.signal) && r.cci[n - 1] < 0.0))
  }

  /** The newest close is above both the DEMA and the recent swing high. */
  predicate BreaksAbove(dema: seq<real>, candles: seq<Candle>, lookback: nat) {
    var swing := SwingHigh(candles, lookback);
    swing.Some? && |dema| > 0 && |candles| > 0
    && candles[|candles| - 1].close > dema[|dema| - 1] && candles[|candles| - 1].close > swing.value
  }

  predicate BreaksBelow(dema: seq<real>, candles: seq<Candle>, lookback: nat) {
    var swing := SwingLow(candles, lookback);
    swing.Some? && |dema| > 0 && |candles| > 0
    && candles[|candles| - 1].close < dema[|dema| - 1] && candles[|candles| - 1].close < swing.value
  }

  function EvaluateLeverageEntry(r: Readings, candles: seq<Candle>, p: Params): EntryEvaluation {
    EntryEvaluation(
      SlopeUp(r.dema), CciTurnsUp(r), BreaksAbove(r.dema, candles, p.swingLookback),
      |r.stochD| > 0 && r.stochD[|r.stochD| - 1] < p.overbought)
  }

  function EvaluateInverseEntry(r: Readings, candles: seq<Candle>, p: Params): EntryEvaluation {
    EntryEvaluation(
      SlopeDown(r.dema), CciTurnsDown(r), BreaksBelow(r.dema, candles, p.swingLookback),
      |r.stochD| > 0 && r.stochD[|r.stochD| - 1] > p.oversold)
  }

  // ----- the transition

  function Enter(cfg: Config, symbol: string, phase: Phase): (State, Option<Signal>) {
    (State(phase, cfg.qtyPerUnit, false, false), Some(Signal(cfg.name, symbol, Buy, cfg.qtyPerUnit, None)))
  }

  function ExitFull(cfg: Config, st: State, symbol: string): (State, Option<Signal>) {
    (INITIAL, Some(Signal(cfg.name, symbol, Sell, if st.qty > 0 then st.qty else cfg.qtyPerUnit, None)))
  }

  function ExitPartial(cfg: Config, st: State, symbol: string, target: Phase): (State, Option<Signal>)
    requires st.qty >= 1 && target in {LeveragePartial, InversePartial}
  {
    var sold := PartialQty(st.qty, cfg.params.partialExitRatio);
    (st.(qty := st.qty - sold, phase := target), Some(Signal(cfg.name, symbol, Sell, sold, None)))
  }

  function TryEntries(cfg: Config, st: State, candles: seq<Candle>, r: Readings): (State, Option<Signal>) {
    if EvaluateLeverageEntry(r, candles, cfg.params).AllMet() then Enter(cfg, cfg.long, LeverageHolding)
    else if EvaluateInverseEntry(r, candles, cfg.params).AllMet() then Enter(cfg, cfg.short, InverseHolding)
    else (st, None)
  }

  function Count(b: bool): int {
    if b then 1 else 0
  }

  /** The confirmations that a leverage position has turned: momentum, slope and price. */
  function LeverageConfirmations(p: Params, candles: seq<Candle>, r: Readings): int
    requires r.Ready()
  {
    Count(r.cci[|r.cci| - 1] < 0.0) + Count(SlopeDown(r.dema)) + Count(BreaksBelow(r.dema, candles, p.swingLookback))
  }

  function InverseConfirmations(p: Params, candles: seq<Candle>, r: Readings): int
    requires r.Ready()
  {
    Count(r.cci[|r.cci| - 1] > 0.0) + Count(SlopeUp(r.dema)) + Count(BreaksAbove(r.dema, candles, p.swingLookback))
  }

  /** Two confirmations sell everything; otherwise the first warning may sell a part. */
  function LeverageExit(cfg: Config, st: State, confirmations: int, cci: real, cross: bool): (State, Option<Signal>) {
    if confirmations >= 2 then ExitFull(cfg, st, cfg.long)
    else
      var seen := st.overboughtSeen || cci >= cfg.params.cciOverboughtWarning;
      var st' := st.(overboughtSeen := seen);
      if st.phase == LeverageHolding && seen && cross then ExitPartial(cfg, st', cfg.long, LeveragePartial)
      else (st', None)
  }

  function InverseExit(cfg: Config, st: State, confirmations: int, cci: real, cross: bool): (State, Option<Signal>) {
    if confirmations >= 2 then ExitFull(cfg, st, cfg.short)
    else
      var seen := st.oversoldSeen || cci <= cfg.params.cciOversoldWarning;
      var st' := st.(oversoldSeen := seen);
      if st.phase == InverseHolding && seen && cross then ExitPartial(cfg, st', cfg.short, InversePartial)
      else (st', None)
  }

  function ManageLeverage(cfg: Config, st: State, candles: seq<Candle>, r: Readings): (State, Option<Signal>)
    requires r.Ready() && |candles| > 0
  {
    LeverageExit(cfg, st, LeverageConfirmations(cfg.params, candles, r), r.cci[|r.cci| - 1], DeadCross(r.cci, r.signal))
  }

  function ManageInverse(cfg: Config, st: State, candles: seq<Candle>, r: Readings): (State, Option<Signal>)
    requires r.Ready() && |candles| > 0
  {
    InverseExit(cfg, st, InverseConfirmations(cfg.params, candles, r), r.cci[|r.cci| - 1], GoldenCross(r.cci, r.signal))
  }

  function Decide(cfg: Config, st: State, candles: seq<Candle>, r: Readings): (State, Option<Signal>)
    requires r.Ready() && |candles| > 0
  {
    match st.phase
    case Watching => TryEntries(cfg, st, candles, r)
    case LeverageHolding => ManageLeverage(cfg, st, candles, r)
    case LeveragePartial => ManageLeverage(cfg, st, candles, r)
    case InverseHolding => ManageInverse(cfg, st, candles, r)
    case InversePartial => ManageInverse(cfg, st, candles, r)
  }

  /** One `on_tick`: the next state and the signal returned, if any. */
  function Step(cfg: Config, st: State, tick: Tick, candles: seq<Candle>): (State, Option<Signal>) {
    if tick.symbol != cfg.underlying || |candles| < 3 then (st, None)
    else
      match ReadingsOf(cfg.params, candles)
      case None => (st, None)
      case Some(r) => Decide(cfg, st, candles, r)
  }

  /** What the strategy sees on each call: the tick and the engine's recent candles. */
  datatype Input = Input(tick: Tick, candles: seq<Candle>)

  function Machine(cfg: Config): (State, Input) -> (State, Option<Signal>) {
    (st: State, input: Input) => Step(cfg, st, input.tick, input.candles)
  }

  /** How many bars the slowest indicator needs. */
  function WarmUpBars(p: ValidParams): nat {
    Max(2 * p.demaPeriod + 1, Max(p.cciPeriod + p.cciSignalPeriod, p.kPeriod + p.dPeriod - 1))
  }

  /** The indicators are available exactly from the first bar every one of them has warmed up on. */
  lemma WarmUpExact(p: ValidParams, candles: seq<Candle>)
    ensures ReadingsOf(p, candles).Some? <==> |candles| >= WarmUpBars(p)
    ensures ReadingsOf(p, candles).Some? ==>
              var r, cci := ReadingsOf(p, candles).value, Cci(candles, p.cciPeriod);
              |r.cci| == |r.signal| <= |cci| && r.cci == cci[|cci| - |r.cci|..]
              && r.signal == Sma(cci, p.cciSignalPeriod)
  {
    var n := |candles|;
    var ema1 := Ema(Closes(candles), p.demaPeriod);
    assert |Dema(Closes(candles), p.demaPeriod)| == if n < 2 * p.demaPeriod - 1 then 0 else n - 2 * p.demaPeriod + 2;
    assert |Cci(candles, p.cciPeriod)| == if n < p.cciPeriod then 0 else n - p.cciPeriod + 1;
    assert |StochasticK(candles, p.kPeriod)| == if n < p.kPeriod then 0 else n - p.kPeriod + 1;
  }

  /** The readings end as the lists they are cut from. */
  lemma LastReads(p: ValidParams, cs: seq<Candle>, r: Readings)
    requires ReadingsOf(p, cs) == Some(r)
    ensures var cci, signal := Cci(cs, p.cciPeriod), Sma(Cci(cs, p.cciPeriod), p.cciSignalPeriod);
            && |cci| >= 2 && |signal| >= 2
            && r.cci[|r.cci| - 1] == cci[|cci| - 1] && r.cci[|r.cci| - 2] == cci[|cci| - 2]
            && r.signal == signal && r.dema == Dema(Closes(cs), p.demaPeriod)
            && r.stochD == Sma(StochasticK(cs, p.kPeriod), p.dPeriod)
  {
  }

  /** The two entries exclude each other: one needs the CCI above zero, the other below. */
  lemma EntriesExclusive(r: Readings, candles: seq<Candle>, p: Params)
    ensures !(EvaluateLeverageEntry(r, candles, p).AllMet() && EvaluateInverseEntry(r, candles, p).AllMet())
  {
  }

  // ----- the stateful strategy

  class LeverageInverseStrategy {
    const cfg: Config
    var phase: Phase
    var positionQty: int
    var overboughtSeen: bool
    var oversoldSeen: bool

    function Current(): RawState
      reads this
    {
      State(phase, positionQty, overboughtSeen, oversoldSeen)
    }

    ghost predicate Valid()
      reads this
    {
      Sellable(Current())
    }

    constructor (cfg: Config)
      ensures Valid() && this.cfg == cfg && Current() == INITIAL
    {
      this.cfg := cfg;
      phase, positionQty, overboughtSeen, oversoldSeen := Watching, 0, false, false;
    }

    method OnTick(tick: Tick, ctx: Context) returns (signal: Option<Signal>)
      requires Valid()
      modifies this
      ensures Valid() && (Current(), signal) == Step(cfg, old(Current()), tick, ctx.recent)
    {
      if tick.symbol != cfg.underlying {
        return None;
      }
      var candles := ctx.recent;
      if |candles| < 3 {
        return None;
      }
      var indicators := ComputeIndicators(candles);
      if indicators.None? {
        return None;
      }
      match phase {
        case Watching => signal := EnterIfMet(candles, indicators.value);
        case LeverageHolding => signal := ManageLeveragePosition(candles, indicators.value);
        case LeveragePartial => signal := ManageLeveragePosition(candles, indicators.value);
        case InverseHolding => signal := ManageInversePosition(candles, indicators.value);
        case InversePartial => signal := ManageInversePosition(candles, indicators.value);
      }
    }

    method ComputeIndicators(candles: seq<Candle>) returns (r: Option<Readings>)
      ensures r == ReadingsOf(cfg.params, candles)
    {
      var dema := CalculateDema(Closes(candles), cfg.params.demaPeriod);
      var cciRaw := CalculateCci(candles, cfg.params.cciPeriod);
      var cciSignal := CalculateCciSignal(cciRaw, cfg.params.cciSignalPeriod);
      if cciSignal == [] {
        return None;
      }
      var cciAligned := cciRaw[|cciRaw| - |cciSignal|..];
      var stochK := CalculateStochasticK(candles, cfg.params.kPeriod);
      var stochD := CalculateSma(stochK, cfg.params.dPeriod);
      if |dema| < 3 || |cciAligned| < 2 || |cciSignal| < 2 || stochD == [] {
        return None;
      }
      return Some(Readings(dema, cciAligned, cciSignal, stochD));
    }

    method EnterIfMet(candles: seq<Candle>, r: Readings) returns (signal: Option<Signal>)
      requires Valid()
      modifies this
      ensures (Current(), signal) == TryEntries(cfg, old(Current()), candles, r)
    {
      var leverage := EvaluateLeverageEntry(r, candles, cfg.params);
      if leverage.AllMet() {
        signal := Open(cfg.long, LeverageHolding);
        return;
      }
      var inverse := EvaluateInverseEntry(r, candles, cfg.params);
      if inverse.AllMet() {
        signal := Open(cfg.short, InverseHolding);
        return;
      }
      return None;
    }

    method Open(symbol: string, target: Phase) returns (signal: Option<Signal>)
      requires target in {LeverageHolding, InverseHolding}
      modifies this
      ensures (Current(), signal) == Enter(cfg, symbol, target)
    {
      ResetPositionState();
      phase := target;
      positionQty := cfg.qtyPerUnit;
      signal := Some(Signal(cfg.name, symbol, Buy, cfg.qtyPerUnit, None));
    }

    method ResetPositionState()
      modifies this`overboughtSeen, this`oversoldSeen
      ensures !overboughtSeen && !oversoldSeen
    {
      overboughtSeen := false;
      oversoldSeen := false;
    }

    method ManageLeveragePosition(candles: seq<Candle>, r: Readings) returns (signal: Option<Signal>)
      requires Valid() && r.Ready() && |candles| > 0 && phase in {LeverageHolding, LeveragePartial}
      modifies this
      ensures (Current(), signal) == ManageLeverage(cfg, old(Current()), candles, r)
    {
      var confirmCount := 0;
      var cci, close := r.cci[|r.cci| - 1], candles[|candles| - 1].close;
      if cci < 0.0 {
        confirmCount := confirmCount + 1;
      }
      if SlopeDown(r.dema) {
        confirmCount := confirmCount + 1;
      }
      var swingLow := SwingLow(candles, cfg.params.swingLookback);
      if swingLow.Some? && close < r.dema[|r.dema| - 1] && close < swingLow.value {
        confirmCount := confirmCount + 1;
      }
      if confirmCount >= 2 {
        signal := ExitPositionFull(cfg.long);
        return;
      }
      if cci >= cfg.params.cciOverboughtWarning {
        overboughtSeen := true;
      }
      if phase == LeverageHolding && overboughtSeen && DeadCross(r.cci, r.signal) {
        signal := ExitPositionPartial(cfg.long, LeveragePartial);
        return;
      }
      return None;
    }

    method ManageInversePosition(candles: seq<Candle>, r: Readings) returns (signal: Option<Signal>)
      requires Valid() && r.Ready() && |candles| > 0 && phase in {InverseHolding, InversePartial}
      modifies this
      ensures (Current(), signal) == ManageInverse(cfg, old(Current()), candles, r)
    {
      var confirmCount := 0;
      var cci, close := r.cci[|r.cci| - 1], candles[|candles| - 1].close;
      if cci > 0.0 {
        confirmCount := confirmCount + 1;
      }
      if SlopeUp(r.dema) {
        confirmCount := confirmCount + 1;
      }
      var swingHigh := SwingHigh(candles, cfg.params.swingLookback);
      if swingHigh.Some? && close > r.dema[|r.dema| - 1] && close > swingHigh.value {
        confirmCount := confirmCount + 1;
      }
      if confirmCount >= 2 {
        signal := ExitPositionFull(cfg.short);
        return;
      }
      if cci <= cfg.params.cciOversoldWarning {
        oversoldSeen := true;
      }
      if phase == InverseHolding && oversoldSeen && GoldenCross(r.cci, r.signal) {
        signal := ExitPositionPartial(cfg.short, InversePartial);
        return;
      }
      return None;
    }

    /** Sells the estimate, or a whole unit when the estimate is zero. */
    method ExitPositionFull(symbol: string) returns (signal: Option<Signal>)
      requires Valid()
      modifies this
      ensures (Current(), signal) == ExitFull(cfg, old(Current()), symbol)
    {
      var qty := if positionQty > 0 then positionQty else cfg.qtyPerUnit;
      phase := Watching;
      positionQty := 0;
      ResetPositionState();
      signal := Some(Signal(cfg.name, symbol, Sell, qty, None));
    }

    method ExitPositionPartial(symbol: string, target: Phase) returns (signal: Option<Signal>)
      requires positionQty >= 1 && target in {LeveragePartial, InversePartial}
      modifies this
      ensures (Current(), signal) == ExitPartial(cfg, old(Current()), symbol, target)
    {
      var sellQty := PartialQty(positionQty, cfg.params.partialExitRatio);
      positionQty := positionQty - sellQty;
      phase := target;
      signal := Some(Signal(cfg.name, symbol, Sell, sellQty, None));
    }
  }
}
