/**
 What one call of the strategy decides, in the inequalities of the trading rules (specs/trade.md, sections 2 to
 4) on the indicator lists and the bars, with every exit counted and every quantity rounded in plain arithmetic.
 */
module TradingRules {
  import opened Arithmetic
  import opened Market
  import opened Indicators
  import opened IndicatorLaws
  import opened LeverageInverse
  import opened Wrappers

  /** The four lists the rules look at, each ending at the newest bar. */
  datatype Lists = Lists(dema: seq<real>, cci: seq<real>, signal: seq<real>, d: seq<real>)

  /** The DEMA is of the closing prices; the other lists are of the bars. */
  function ListsOf(p: ValidParams, bars: seq<Candle>): Lists {
    var cci, closes := Cci(bars, p.cciPeriod), seq(|bars|, i requires 0 <= i < |bars| => bars[i].close);
    Lists(
      Dema(closes, p.demaPeriod), cci, Sma(cci, p.cciSignalPeriod),
      Sma(StochasticK(bars, p.kPeriod), p.dPeriod))
  }

  /** The `k`-th value from the end, the newest being the first. */
  function Back(xs: seq<real>, k: nat): real
    requires 1 <= k <= |xs|
  {
    xs[|xs| - k]
  }

  /** Enough bars of the right symbol for every indicator the rules read. */
  predicate Looks(cfg: Config, tick: Tick, bars: seq<Candle>) {
    var p := cfg.params;
    && tick.symbol == cfg.underlying
    && |bars| >= 2 * p.demaPeriod + 1 && |bars| >= p.cciPeriod + p.cciSignalPeriod
    && |bars| >= p.kPeriod + p.dPeriod - 1
  }

  predicate Enough(l: Lists) {
    |l.dema| >= 3 && |l.cci| >= 2 && |l.signal| >= 2 && |l.d| >= 1
  }

  lemma ClosesAre(bars: seq<Candle>)
    ensures Closes(bars) == seq(|bars|, i requires 0 <= i < |bars| => bars[i].close)
  {
  }

  lemma LooksEnough(cfg: Config, tick: Tick, bars: seq<Candle>)
    requires Looks(cfg, tick, bars)
    ensures Enough(ListsOf(cfg.params, bars)) && |bars| >= 7
  {
    WarmUpExact(cfg.params, bars);
    ClosesAre(bars);
  }

  // ----- the inequalities

  predicate Steepens(dema: seq<real>)
    requires |dema| >= 3
  {
    Back(dema, 1) - Back(dema, 2) > Back(dema, 2) - Back(dema, 3)
  }

  predicate Flattens(dema: seq<real>)
    requires |dema| >= 3
  {
    Back(dema, 1) - Back(dema, 2) < Back(dema, 2) - Back(dema, 3)
  }

  predicate CrossesUp(l: Lists)
    requires Enough(l)
  {
    Back(l.cci, 2) <= Back(l.signal, 2) && Back(l.cci, 1) > Back(l.signal, 1)
  }

  predicate CrossesDown(l: Lists)
    requires Enough(l)
  {
    Back(l.cci, 2) >= Back(l.signal, 2) && Back(l.cci, 1) < Back(l.signal, 1)
  }

  /** The newest close is above the DEMA and above every high of the `n` bars before it. */
  predicate Breakout(l: Lists, bars: seq<Candle>, n: nat)
    requires Enough(l) && |bars| >= 1
  {
    var last := |bars| - 1;
    var close := bars[last].close;
    close > Back(l.dema, 1) && forall i :: 0 <= i < last && i >= last - n ==> close > bars[i].high
  }

  predicate Breakdown(l: Lists, bars: seq<Candle>, n: nat)
    requires Enough(l) && |bars| >= 1
  {
    var last := |bars| - 1;
    var close := bars[last].close;
    close < Back(l.dema, 1) && forall i :: 0 <= i < last && i >= last - n ==> close < bars[i].low
  }

  /** When a leverage position is opened: all three conditions and the filter. */
  predicate LongRule(p: ValidParams, bars: seq<Candle>, l: Lists)
    requires Enough(l) && |bars| >= 1
  {
    && Steepens(l.dema)
    && Back(l.cci, 1) > 0.0 && (Back(l.cci, 2) <= 0.0 || CrossesUp(l))
    && Breakout(l, bars, p.swingLookback)
    && Back(l.d, 1) < p.overbought
  }

  predicate ShortRule(p: ValidParams, bars: seq<Candle>, l: Lists)
    requires Enough(l) && |bars| >= 1
  {
    && Flattens(l.dema)
    && Back(l.cci, 1) < 0.0 && (Back(l.cci, 2) >= 0.0 || CrossesDown(l))
    && Breakdown(l, bars, p.swingLookback)
    && Back(l.d, 1) > p.oversold
  }

  predicate TwoOf(a: bool, b: bool, c: bool) {
    (a && b) || (a && c) || (b && c)
  }

  predicate LongOver(p: ValidParams, bars: seq<Candle>, l: Lists)
    requires Enough(l) && |bars| >= 1
  {
    TwoOf(Back(l.cci, 1) < 0.0, Flattens(l.dema), Breakdown(l, bars, p.swingLookback))
  }

  predicate ShortOver(p: ValidParams, bars: seq<Candle>, l: Lists)
    requires Enough(l) && |bars| >= 1
  {
    TwoOf(Back(l.cci, 1) > 0.0, Steepens(l.dema), Breakout(l, bars, p.swingLookback))
  }

  // ----- the rounded share

  /** `n` is the integer nearest to `x`, the even one of two. */
  predicate Nearest(n: int, x: real) {
    -0.5 <= x - n as real <= 0.5 && (x - n as real == 0.5 || x - n as real == -0.5 ==> n % 2 == 0)
  }

  lemma RoundNearest(x: real, n: int)
    ensures Nearest(n, x) <==> n == Round(x)
  {
    var low := x.Floor;
    assert low as real <= x < low as real + 1.0;
    if Nearest(n, x) {
      assert n == low || n == low + 1;
    }
  }

  /** The number nearest to `x`, but one at least and no more than `most`. */
  ghost predicate Clamped(sold: int, x: real, most: int) {
    exists n: int :: Nearest(n, x) && sold == (if n < 1 then 1 else if n > most then most else n)
  }

  /** What a partial exit sells of `qty` lots. */
  ghost predicate Share(sold: int, qty: int, ratio: real) {
    Clamped(sold, qty as real * ratio, qty)
  }

  lemma PartialQtyShare(qty: Lots, ratio: real)
    ensures forall sold: int :: Share(sold, qty, ratio) <==> sold == PartialQty(qty, ratio)
  {
    var x := qty as real * ratio;
    RoundNearest(x, Round(x));
    forall n: int | Nearest(n, x) ensures n == Round(x) {
      RoundNearest(x, n);
    }
  }

  // ----- the source's own evaluations come to these inequalities

  /** The bars the swing looks at are the `n` before the newest. */
  lemma SwingWindowBars(bars: seq<Candle>, n: nat)
    requires |bars| >= 2 && n >= 1
    ensures var w, last := SwingWindow(bars, n), |bars| - 1;
            var first := if last - n >= 0 then last - n else 0;
            w != [] && w == bars[first..last]
  {
  }

  lemma AboveSwingExact(bars: seq<Candle>, n: nat, close: real)
    requires |bars| >= 2 && n >= 1
    ensures SwingHigh(bars, n).Some?
    ensures var last := |bars| - 1;
            close > SwingHigh(bars, n).value <==> forall i :: 0 <= i < last && i >= last - n ==> close > bars[i].high
  {
    SwingWindowBars(bars, n);
    var w, last := SwingWindow(bars, n), |bars| - 1;
    var first := last - |w|;
    var at := HighestBounds(w);
    assert w[at] == bars[first + at];
    forall i | first <= i < last ensures bars[i].high <= Highest(w) {
      assert bars[i] == w[i - first];
    }
  }

  lemma BelowSwingExact(bars: seq<Candle>, n: nat, close: real)
    requires |bars| >= 2 && n >= 1
    ensures SwingLow(bars, n).Some?
    ensures var last := |bars| - 1;
            close < SwingLow(bars, n).value <==> forall i :: 0 <= i < last && i >= last - n ==> close < bars[i].low
  {
    SwingWindowBars(bars, n);
    var w, last := SwingWindow(bars, n), |bars| - 1;
    var first := last - |w|;
    var at := LowestBounds(w);
    assert w[at] == bars[first + at];
    forall i | first <= i < last ensures bars[i].low >= Lowest(w) {
      assert bars[i] == w[i - first];
    }
  }

  lemma BreaksExact(l: Lists, bars: seq<Candle>, n: nat)
    requires Enough(l) && |bars| >= 2 && n >= 1
    ensures BreaksAbove(l.dema, bars, n) <==> Breakout(l, bars, n)
    ensures BreaksBelow(l.dema, bars, n) <==> Breakdown(l, bars, n)
  {
    AboveSwingExact(bars, n, bars[|bars| - 1].close);
    BelowSwingExact(bars, n, bars[|bars| - 1].close);
  }

  /** The readings of a call are these lists, as far as the rules look at them. */
  ghost predicate Reads(r: Readings, l: Lists) {
    && r.Ready() && Enough(l) && r.dema == l.dema && r.stochD == l.d && r.signal == l.signal
    && Back(r.cci, 1) == Back(l.cci, 1) && Back(r.cci, 2) == Back(l.cci, 2)
  }

  lemma ReadingsAre(cfg: Config, tick: Tick, bars: seq<Candle>)
    ensures tick.symbol == cfg.underlying && |bars| >= 3 && ReadingsOf(cfg.params, bars).Some? <==>
            Looks(cfg, tick, bars)
  {
    WarmUpExact(cfg.params, bars);
  }

  lemma ListsRead(p: ValidParams, bars: seq<Candle>, r: Readings)
    requires ReadingsOf(p, bars) == Some(r)
    ensures Reads(r, ListsOf(p, bars))
  {
    LastReads(p, bars, r);
    ClosesAre(bars);
  }

  lemma LongExact(p: ValidParams, bars: seq<Candle>, r: Readings, l: Lists)
    requires Reads(r, l) && |bars| >= 2
    ensures EvaluateLeverageEntry(r, bars, p).AllMet() <==> LongRule(p, bars, l)
  {
    var e := EvaluateLeverageEntry(r, bars, p);
    assert e.AllMet() <==> e.demaOk && e.cciOk && e.priceOk && e.stochOk;
    assert e.demaOk <==> Steepens(l.dema);
    assert e.priceOk <==> Breakout(l, bars, p.swingLookback) by { BreaksExact(l, bars, p.swingLookback); }
    CciExact(r, l);
  }

  lemma ShortExact(p: ValidParams, bars: seq<Candle>, r: Readings, l: Lists)
    requires Reads(r, l) && |bars| >= 2
    ensures EvaluateInverseEntry(r, bars, p).AllMet() <==> ShortRule(p, bars, l)
  {
    var e := EvaluateInverseEntry(r, bars, p);
    assert e.AllMet() <==> e.demaOk && e.cciOk && e.priceOk && e.stochOk;
    assert e.demaOk <==> Flattens(l.dema);
    assert e.priceOk <==> Breakdown(l, bars, p.swingLookback) by { BreaksExact(l, bars, p.swingLookback); }
    CciExact(r, l);
  }

  lemma CciExact(r: Readings, l: Lists)
    requires Reads(r, l)
    ensures CciTurnsUp(r) <==> Back(l.cci, 1) > 0.0 && (Back(l.cci, 2) <= 0.0 || CrossesUp(l))
    ensures CciTurnsDown(r) <==> Back(l.cci, 1) < 0.0 && (Back(l.cci, 2) >= 0.0 || CrossesDown(l))
  {
  }

  lemma ConfirmationsExact(p: ValidParams, bars: seq<Candle>, r: Readings, l: Lists)
    requires Reads(r, l) && |bars| >= 2
    ensures LeverageConfirmations(p, bars, r) >= 2 <==> LongOver(p, bars, l)
    ensures InverseConfirmations(p, bars, r) >= 2 <==> ShortOver(p, bars, l)
    ensures DeadCross(r.cci, r.signal) <==> CrossesDown(l)
    ensures GoldenCross(r.cci, r.signal) <==> CrossesUp(l)
  {
    BreaksExact(l, bars, p.swingLookback);
  }

  // ----- one call

  function Sale(cfg: Config, symbol: string, lots: Lots): Option<Signal> {
    Some(Signal(cfg.name, symbol, Sell, lots, None))
  }

  lemma StepReads(cfg: Config, st: State, tick: Tick, bars: seq<Candle>) returns (r: Readings)
    requires Looks(cfg, tick, bars)
    ensures Reads(r, ListsOf(cfg.params, bars)) && |bars| >= 7 && Step(cfg, st, tick, bars) == Decide(cfg, st, bars, r)
  {
    LooksEnough(cfg, tick, bars);
    ReadingsAre(cfg, tick, bars);
    r := ReadingsOf(cfg.params, bars).value;
    ListsRead(cfg.params, bars, r);
  }

  /** On another symbol, or before the indicators have warmed up, nothing happens. */
  lemma OtherwiseStill(cfg: Config, st: State, tick: Tick, bars: seq<Candle>)
    requires !Looks(cfg, tick, bars)
    ensures Step(cfg, st, tick, bars) == (st, None)
  {
    ReadingsAre(cfg, tick, bars);
  }

  /**
   While watching, the strategy buys one unit of the leverage product exactly when the long rule holds, one unit
   of the inverse product exactly when the short rule does, and otherwise does nothing.
   */
  lemma WatchingRule(cfg: Config, st: State, tick: Tick, bars: seq<Candle>)
    requires st.phase == Watching && Looks(cfg, tick, bars)
    ensures Enough(ListsOf(cfg.params, bars)) && |bars| >= 7
    ensures var l, next := ListsOf(cfg.params, bars), Step(cfg, st, tick, bars);
            var long, short := LongRule(cfg.params, bars, l), ShortRule(cfg.params, bars, l);
            && !(long && short)
            && (long <==> next.0 == State(LeverageHolding, cfg.qtyPerUnit, false, false)
                          && next.1 == Some(Signal(cfg.name, cfg.long, Buy, cfg.qtyPerUnit, None)))
            && (short <==> next.0 == State(InverseHolding, cfg.qtyPerUnit, false, false)
                           && next.1 == Some(Signal(cfg.name, cfg.short, Buy, cfg.qtyPerUnit, None)))
            && (!long && !short <==> next == (st, None))
  {
    var r := StepReads(cfg, st, tick, bars);
    LongExact(cfg.params, bars, r, ListsOf(cfg.params, bars));
    ShortExact(cfg.params, bars, r, ListsOf(cfg.params, bars));
  }

  /**
   With a leverage position: when it is over everything is sold. Otherwise an overbought CCI is remembered, and
   once it has been seen the first fall below the signal line sells the share.
   */
  ghost predicate LeverageOutcome(
    cfg: Config, st: State, over: bool, cci: real, falls: bool, next: (State, Option<Signal>))
  {
    var seen := st.overboughtSeen || cci >= cfg.params.cciOverboughtWarning;
    if over
    then next == (State(Watching, 0, false, false),
                  Sale(cfg, cfg.long, if st.qty > 0 then st.qty else cfg.qtyPerUnit))
    else if st.phase == LeverageHolding && seen && falls
    then exists w: Lots :: Share(w, st.qty, cfg.params.partialExitRatio) && w <= st.qty
             && next == (State(LeveragePartial, st.qty - w, true, st.oversoldSeen), Sale(cfg, cfg.long, w))
    else next == (State(st.phase, st.qty, seen, st.oversoldSeen), None)
  }

  ghost predicate InverseOutcome(
    cfg: Config, st: State, over: bool, cci: real, rises: bool, next: (State, Option<Signal>))
  {
    var seen := st.oversoldSeen || cci <= cfg.params.cciOversoldWarning;
    if over
    then next == (State(Watching, 0, false, false),
                  Sale(cfg, cfg.short, if st.qty > 0 then st.qty else cfg.qtyPerUnit))
    else if st.phase == InverseHolding && seen && rises
    then exists w: Lots :: Share(w, st.qty, cfg.params.partialExitRatio) && w <= st.qty
             && next == (State(InversePartial, st.qty - w, st.overboughtSeen, true), Sale(cfg, cfg.short, w))
    else next == (State(st.phase, st.qty, st.overboughtSeen, seen), None)
  }

  lemma LeverageExitExact(cfg: Config, st: State, confirmations: int, cci: real, cross: bool)
    requires st.phase in {LeverageHolding, LeveragePartial}
    ensures LeverageOutcome(
              cfg, st, confirmations >= 2, cci, cross, LeverageExit(cfg, st, confirmations, cci, cross))
  {
    if st.phase == LeverageHolding {
      PartialQtyShare(st.qty, cfg.params.partialExitRatio);
      assert Share(PartialQty(st.qty, cfg.params.partialExitRatio), st.qty, cfg.params.partialExitRatio);
    }
  }

  lemma InverseExitExact(cfg: Config, st: State, confirmations: int, cci: real, cross: bool)
    requires st.phase in {InverseHolding, InversePartial}
    ensures InverseOutcome(cfg, st, confirmations >= 2, cci, cross, InverseExit(cfg, st, confirmations, cci, cross))
  {
    if st.phase == InverseHolding {
      PartialQtyShare(st.qty, cfg.params.partialExitRatio);
      assert Share(PartialQty(st.qty, cfg.params.partialExitRatio), st.qty, cfg.params.partialExitRatio);
    }
  }

  lemma LeverageDecides(
    cfg: Config, st: State, bars: seq<Candle>, r: Readings, confirmations: int, cci: real, cross: bool)
    requires r.Ready() && |bars| > 0 && st.phase in {LeverageHolding, LeveragePartial}
    requires LeverageConfirmations(cfg.params, bars, r) == confirmations
    requires r.cci[|r.cci| - 1] == cci && DeadCross(r.cci, r.signal) == cross
    ensures LeverageOutcome(cfg, st, confirmations >= 2, cci, cross, Decide(cfg, st, bars, r))
  {
    LeverageExitExact(cfg, st, confirmations, cci, cross);
    assert Decide(cfg, st, bars, r) == LeverageExit(cfg, st, confirmations, cci, cross);
  }

  lemma InverseDecides(
    cfg: Config, st: State, bars: seq<Candle>, r: Readings, confirmations: int, cci: real, cross: bool)
    requires r.Ready() && |bars| > 0 && st.phase in {InverseHolding, InversePartial}
    requires InverseConfirmations(cfg.params, bars, r) == confirmations
    requires r.cci[|r.cci| - 1] == cci && GoldenCross(r.cci, r.signal) == cross
    ensures InverseOutcome(cfg, st, confirmations >= 2, cci, cross, Decide(cfg, st, bars, r))
  {
    InverseExitExact(cfg, st, confirmations, cci, cross);
    assert Decide(cfg, st, bars, r) == InverseExit(cfg, st, confirmations, cci, cross);
  }

  /** A leverage position is over exactly when two of its three signs are there. */
  lemma LeverageRule(cfg: Config, st: State, tick: Tick, bars: seq<Candle>)
    requires st.phase in {LeverageHolding, LeveragePartial} && Looks(cfg, tick, bars)
    ensures Enough(ListsOf(cfg.params, bars)) && |bars| >= 7
    ensures var l := ListsOf(cfg.params, bars);
            LeverageOutcome(
              cfg, st, LongOver(cfg.params, bars, l), Back(l.cci, 1), CrossesDown(l), Step(cfg, st, tick, bars))
  {
    var r := StepReads(cfg, st, tick, bars);
    var l := ListsOf(cfg.params, bars);
    var confirmations := LeverageConfirmations(cfg.params, bars, r);
    ConfirmationsExact(cfg.params, bars, r, l);
    LeverageDecides(cfg, st, bars, r, confirmations, Back(l.cci, 1), CrossesDown(l));
  }

  lemma InverseRule(cfg: Config, st: State, tick: Tick, bars: seq<Candle>)
    requires st.phase in {InverseHolding, InversePartial} && Looks(cfg, tick, bars)
    ensures Enough(ListsOf(cfg.params, bars)) && |bars| >= 7
    ensures var l := ListsOf(cfg.params, bars);
            InverseOutcome(
              cfg, st, ShortOver(cfg.params, bars, l), Back(l.cci, 1), CrossesUp(l), Step(cfg, st, tick, bars))
  {
    var r := StepReads(cfg, st, tick, bars);
    var l := ListsOf(cfg.params, bars);
    var confirmations := InverseConfirmations(cfg.params, bars, r);
    ConfirmationsExact(cfg.params, bars, r, l);
    InverseDecides(cfg, st, bars, r, confirmations, Back(l.cci, 1), CrossesUp(l));
  }
}
