/**
 When a run of the strategy can reach a partial exit at all, over direct calls and over the candles an engine
 shows. The CCI bound makes a warning beyond it unreachable; for every other parameter set there are bars a
 market could deliver that reach one. With that, whether the estimate is right and whether a partial exit sells
 the share it promises can be read off the configuration.
 */
module PartialExits {
  import opened Arithmetic
  import opened Market
  import opened Indicators
  import opened IndicatorLaws
  import opened LeverageInverse
  import opened Surges
  import opened MirrorSimulation
  import opened Machines
  import opened Harness
  import opened StrategyRuns
  import opened Ledger
  import opened Wrappers

  predicate LeverageWarns(p: ValidParams) {
    p.cciOverboughtWarning <= CciLimit(p)
  }

  predicate InverseWarns(p: ValidParams) {
    -p.cciOversoldWarning <= CciLimit(p)
  }

  // ----- beyond the bound, no warning

  /** What a half whose warning is out of reach never is. */
  predicate Unwarned(p: ValidParams, st: State) {
    && (!LeverageWarns(p) ==> !st.overboughtSeen && st.phase != LeveragePartial)
    && (!InverseWarns(p) ==> !st.oversoldSeen && st.phase != InversePartial)
  }

  lemma ExitUnwarned(cfg: Config, st: State, confirmations: int, cci: real, cross: bool)
    requires Unwarned(cfg.params, st) && Abs(cci) <= CciLimit(cfg.params)
    ensures st.phase in {LeverageHolding, LeveragePartial} ==>
              Unwarned(cfg.params, LeverageExit(cfg, st, confirmations, cci, cross).0)
    ensures st.phase in {InverseHolding, InversePartial} ==>
              Unwarned(cfg.params, InverseExit(cfg, st, confirmations, cci, cross).0)
  {
  }

  lemma DecideUnwarned(cfg: Config, st: State, cs: seq<Candle>, r: Readings)
    requires r.Ready() && |cs| > 0 && Unwarned(cfg.params, st) && Abs(r.cci[|r.cci| - 1]) <= CciLimit(cfg.params)
    ensures Unwarned(cfg.params, Decide(cfg, st, cs, r).0)
  {
    var cci := r.cci[|r.cci| - 1];
    if st.phase in {LeverageHolding, LeveragePartial} {
      ExitUnwarned(cfg, st, LeverageConfirmations(cfg.params, cs, r), cci, DeadCross(r.cci, r.signal));
    } else if st.phase in {InverseHolding, InversePartial} {
      ExitUnwarned(cfg, st, InverseConfirmations(cfg.params, cs, r), cci, GoldenCross(r.cci, r.signal));
    }
  }

  lemma ReadWithin(p: ValidParams, cs: seq<Candle>)
    requires ReadingsOf(p, cs).Some?
    ensures var r := ReadingsOf(p, cs).value; Abs(r.cci[|r.cci| - 1]) <= CciLimit(p)
  {
    var r, cci := ReadingsOf(p, cs).value, Cci(cs, p.cciPeriod);
    CciValuesBound(TypicalPrices(cs), p.cciPeriod);
    assert r.cci[|r.cci| - 1] == cci[|cci| - 1];
  }

  lemma StepUnwarned(cfg: Config, st: State, tick: Tick, cs: seq<Candle>)
    requires Unwarned(cfg.params, st)
    ensures Unwarned(cfg.params, Step(cfg, st, tick, cs).0)
  {
    if tick.symbol == cfg.underlying && |cs| >= 3 {
      var readings := ReadingsOf(cfg.params, cs);
      if readings.Some? {
        ReadWithin(cfg.params, cs);
        DecideUnwarned(cfg, st, cs, readings.value);
      }
    }
  }

  lemma RunUnwarned(cfg: Config, inputs: seq<Input>)
    ensures Unwarned(cfg.params, Fold(Machine(cfg), INITIAL, inputs).0)
  {
    var keeps := (st: State) => Unwarned(cfg.params, st);
    forall st: State, i: Input ensures StepKeeps(Machine(cfg), keeps, st, i) {
      if keeps(st) {
        StepUnwarned(cfg, st, i.tick, i.candles);
      }
    }
    FoldKeeps(Machine(cfg), keeps, INITIAL, inputs);
  }

  /** Before the indicators have warmed up nothing happens. */
  lemma StepCold(cfg: Config, st: State, tick: Tick, cs: seq<Candle>)
    requires |cs| < WarmUpBars(cfg.params)
    ensures Step(cfg, st, tick, cs) == (st, None)
  {
    WarmUpExact(cfg.params, cs);
  }

  // ----- within the bound: what one tick does to a position

  predicate LeverageHeld(st: State) {
    st.phase in {LeverageHolding, LeveragePartial}
  }

  predicate InverseHeld(st: State) {
    st.phase in {InverseHolding, InversePartial}
  }

  /** The warning was seen, or already acted on. */
  predicate LeverageWarned(st: State) {
    st.phase == LeveragePartial || (st.phase == LeverageHolding && st.overboughtSeen)
  }

  predicate InverseWarned(st: State) {
    st.phase == InversePartial || (st.phase == InverseHolding && st.oversoldSeen)
  }

  lemma LeverageTick(cfg: Config, st: State, confirmations: int, cci: real, cross: bool)
    requires LeverageHeld(st) && confirmations <= 1
    ensures var st' := LeverageExit(cfg, st, confirmations, cci, cross).0;
            && LeverageHeld(st')
            && (LeverageWarned(st) || cci >= cfg.params.cciOverboughtWarning ==> LeverageWarned(st'))
            && (LeverageWarned(st) && cross ==> InPartial(st'))
  {
  }

  lemma InverseTick(cfg: Config, st: State, confirmations: int, cci: real, cross: bool)
    requires InverseHeld(st) && confirmations <= 1
    ensures var st' := InverseExit(cfg, st, confirmations, cci, cross).0;
            && InverseHeld(st')
            && (InverseWarned(st) || cci <= cfg.params.cciOversoldWarning ==> InverseWarned(st'))
            && (InverseWarned(st) && cross ==> InPartial(st'))
  {
  }

  lemma StepReads(cfg: Config, st: State, tick: Tick, cs: seq<Candle>, r: Readings)
    requires tick.symbol == cfg.underlying && |cs| >= 3 && ReadingsOf(cfg.params, cs) == Some(r)
    ensures Step(cfg, st, tick, cs) == Decide(cfg, st, cs, r)
  {
  }

  ghost predicate ReachesPartial<I>(step: (State, I) -> (State, Option<Signal>), inputs: seq<I>) {
    InPartial(Fold(step, INITIAL, inputs).0)
  }

  // ----- the leverage half on the stream

  lemma LeverageEnters(cfg: Config, i: Input)
    requires i.tick.symbol == cfg.underlying && |i.candles| >= WarmUpBars(cfg.params)
    requires Entering(cfg.params, i.candles)
    ensures LeverageHeld(Machine(cfg)(INITIAL, i).0)
  {
    WarmUpExact(cfg.params, i.candles);
    var r := ReadingsOf(cfg.params, i.candles).value;
    EnteringReads(cfg.params, i.candles, r);
    EntersLong(cfg, i.candles, r);
    StepReads(cfg, INITIAL, i.tick, i.candles, r);
  }

  lemma EntersLong(cfg: Config, cs: seq<Candle>, r: Readings)
    requires r.Ready() && |cs| > 0 && EvaluateLeverageEntry(r, cs, cfg.params).CoreCount() == 3
    requires r.stochD[|r.stochD| - 1] < Filter(cfg.params)
    ensures Decide(cfg, INITIAL, cs, r) == Enter(cfg, cfg.long, LeverageHolding)
  {
  }

  lemma LeverageLeads(cfg: Config, i: Input)
    requires i.tick.symbol == cfg.underlying && |i.candles| >= WarmUpBars(cfg.params)
    requires Unconfirmed(cfg.params, i.candles)
    ensures Leads(Machine(cfg), LeverageHeld, i, LeverageHeld)
    ensures LeverageWarns(cfg.params) && AtLimit(cfg.params, i.candles) ==>
              Leads(Machine(cfg), LeverageHeld, i, LeverageWarned)
    ensures Crossing(cfg.params, i.candles) ==> Leads(Machine(cfg), LeverageWarned, i, InPartial)
  {
    var p, cs := cfg.params, i.candles;
    WarmUpExact(p, cs);
    var r := ReadingsOf(p, cs).value;
    forall st: State | LeverageHeld(st)
      ensures var st' := Machine(cfg)(st, i).0;
              && LeverageHeld(st') && (LeverageWarns(p) && AtLimit(p, cs) ==> LeverageWarned(st'))
              && (Crossing(p, cs) && LeverageWarned(st) ==> InPartial(st'))
    {
      LeverageStep(cfg, st, i, r);
    }
  }

  lemma LeverageStep(cfg: Config, st: State, i: Input, r: Readings)
    requires i.tick.symbol == cfg.underlying && |i.candles| >= 3 && ReadingsOf(cfg.params, i.candles) == Some(r)
    requires Unconfirmed(cfg.params, i.candles) && LeverageHeld(st)
    ensures var p, cs, st' := cfg.params, i.candles, Machine(cfg)(st, i).0;
            && LeverageHeld(st') && (LeverageWarns(p) && AtLimit(p, cs) ==> LeverageWarned(st'))
            && (Crossing(p, cs) && LeverageWarned(st) ==> InPartial(st'))
  {
    LeverageRead(cfg, st, i, r);
    WindowReads(cfg.params, i.candles, r);
    LeverageTick(
      cfg, st, LeverageConfirmations(cfg.params, i.candles, r), r.cci[|r.cci| - 1], DeadCross(r.cci, r.signal));
  }

  lemma LeverageRead(cfg: Config, st: State, i: Input, r: Readings)
    requires i.tick.symbol == cfg.underlying && |i.candles| >= 3 && ReadingsOf(cfg.params, i.candles) == Some(r)
    requires LeverageHeld(st)
    ensures Machine(cfg)(st, i)
            == LeverageExit(cfg, st, LeverageConfirmations(cfg.params, i.candles, r), r.cci[|r.cci| - 1],
                            DeadCross(r.cci, r.signal))
  {
    StepReads(cfg, st, i.tick, i.candles, r);
  }

  // ----- the inverse half on the mirrored stream

  lemma InverseEnters(axis: real, cfg: Config, i: Input)
    requires i.tick.symbol == cfg.underlying && |i.candles| >= WarmUpBars(cfg.params)
    requires Entering(cfg.params, i.candles)
    ensures InverseHeld(Machine(cfg)(INITIAL, MirrorInput(axis, i)).0)
  {
    var p, cs := cfg.params, i.candles;
    WarmUpExact(p, cs);
    var r := ReadingsOf(p, cs).value;
    var cs', r' := MirrorAll(axis, cs), MirrorReadings(axis, r);
    ReadingsMirror(axis, p, cs);
    EnteringReads(p, cs, r);
    CoreMirror(axis, r, cs, p);
    assert r'.stochD[|r'.stochD| - 1] == 100.0 - r.stochD[|r.stochD| - 1];
    EntriesExclusive(r', cs', p);
    EntersShort(cfg, cs', r');
    StepReads(cfg, INITIAL, MirrorInput(axis, i).tick, cs', r');
  }

  lemma EntersShort(cfg: Config, cs: seq<Candle>, r: Readings)
    requires r.Ready() && |cs| > 0
    requires !EvaluateLeverageEntry(r, cs, cfg.params).AllMet() && EvaluateInverseEntry(r, cs, cfg.params).AllMet()
    ensures Decide(cfg, INITIAL, cs, r) == Enter(cfg, cfg.short, InverseHolding)
  {
  }

  lemma InverseLeads(axis: real, cfg: Config, i: Input)
    requires i.tick.symbol == cfg.underlying && |i.candles| >= WarmUpBars(cfg.params)
    requires Unconfirmed(cfg.params, i.candles)
    ensures Leads(Machine(cfg), InverseHeld, MirrorInput(axis, i), InverseHeld)
    ensures InverseWarns(cfg.params) && AtLimit(cfg.params, i.candles) ==>
              Leads(Machine(cfg), InverseHeld, MirrorInput(axis, i), InverseWarned)
    ensures Crossing(cfg.params, i.candles) ==> Leads(Machine(cfg), InverseWarned, MirrorInput(axis, i), InPartial)
  {
    var p, cs := cfg.params, i.candles;
    WarmUpExact(p, cs);
    var r := ReadingsOf(p, cs).value;
    forall st: State | InverseHeld(st)
      ensures var st' := Machine(cfg)(st, MirrorInput(axis, i)).0;
              && InverseHeld(st') && (InverseWarns(p) && AtLimit(p, cs) ==> InverseWarned(st'))
              && (Crossing(p, cs) && InverseWarned(st) ==> InPartial(st'))
    {
      InverseStep(axis, cfg, st, i, r);
    }
  }

  lemma InverseStep(axis: real, cfg: Config, st: State, i: Input, r: Readings)
    requires i.tick.symbol == cfg.underlying && |i.candles| >= 3 && ReadingsOf(cfg.params, i.candles) == Some(r)
    requires Unconfirmed(cfg.params, i.candles) && InverseHeld(st)
    ensures var p, cs, st' := cfg.params, i.candles, Machine(cfg)(st, MirrorInput(axis, i)).0;
            && InverseHeld(st') && (InverseWarns(p) && AtLimit(p, cs) ==> InverseWarned(st'))
            && (Crossing(p, cs) && InverseWarned(st) ==> InPartial(st'))
  {
    InverseRead(axis, cfg, st, i, r);
    WindowReads(cfg.params, i.candles, r);
    InverseTick(
      cfg, st, LeverageConfirmations(cfg.params, i.candles, r), -r.cci[|r.cci| - 1], DeadCross(r.cci, r.signal));
  }

  /** Holding the inverse product on mirrored data, in terms of the original. */
  lemma InverseRead(axis: real, cfg: Config, st: State, i: Input, r: Readings)
    requires i.tick.symbol == cfg.underlying && |i.candles| >= 3 && ReadingsOf(cfg.params, i.candles) == Some(r)
    requires InverseHeld(st)
    ensures Machine(cfg)(st, MirrorInput(axis, i))
            == InverseExit(cfg, st, LeverageConfirmations(cfg.params, i.candles, r), -r.cci[|r.cci| - 1],
                           DeadCross(r.cci, r.signal))
  {
    var cs', r' := MirrorAll(axis, i.candles), MirrorReadings(axis, r);
    ReadingsMirror(axis, cfg.params, i.candles);
    StepReads(cfg, st, MirrorInput(axis, i).tick, cs', r');
    DecideMirrored(axis, cfg, st, i.candles, r);
  }

  lemma DecideMirrored(axis: real, cfg: Config, st: State, cs: seq<Candle>, r: Readings)
    requires r.Ready() && |cs| > 0 && InverseHeld(st)
    ensures Decide(cfg, st, MirrorAll(axis, cs), MirrorReadings(axis, r))
            == InverseExit(cfg, st, LeverageConfirmations(cfg.params, cs, r), -r.cci[|r.cci| - 1],
                           DeadCross(r.cci, r.signal))
  {
    var cs', r' := MirrorAll(axis, cs), MirrorReadings(axis, r);
    var confirmations, cci := LeverageConfirmations(cfg.params, cs, r), r.cci[|r.cci| - 1];
    var cross := DeadCross(r.cci, r.signal);
    assert InverseConfirmations(cfg.params, cs', r') == confirmations by {
      ConfirmationsMirror(axis, r, cs, cfg.params);
    }
    assert GoldenCross(r'.cci, r'.signal) == cross by { CrossMirror(r.cci, r.signal); }
    assert r'.cci[|r'.cci| - 1] == -cci;
    DecideInverse(cfg, st, cs', r', confirmations, -cci, cross);
  }

  lemma DecideInverse(cfg: Config, st: State, cs: seq<Candle>, r: Readings, confirmations: int, cci: real, cross: bool)
    requires r.Ready() && |cs| > 0 && InverseHeld(st)
    requires InverseConfirmations(cfg.params, cs, r) == confirmations
    requires r.cci[|r.cci| - 1] == cci && GoldenCross(r.cci, r.signal) == cross
    ensures Decide(cfg, st, cs, r) == InverseExit(cfg, st, confirmations, cci, cross)
  {
  }

  // ----- the stream as an engine shows it

  /** A bar as a market delivers it: positive prices, and opening and closing inside its range. */
  predicate MarketBar(cfg: Config, bar: Candle) {
    bar.symbol == cfg.underlying && 0.0 < bar.low && bar.low <= bar.open <= bar.high && bar.low <= bar.close <= bar.high
  }

  /** A history of such bars, in the order of their times. */
  ghost predicate MarketBars(cfg: Config, bars: seq<Candle>) {
    && (forall i :: 0 <= i < |bars| ==> MarketBar(cfg, bars[i]))
    && (forall i, j :: 0 <= i < j < |bars| ==> bars[i].timestamp < bars[j].timestamp)
  }

  /** Warm-up history and replayed bars of the surge. */
  function Before(cfg: Config, size: nat): seq<Candle> {
    Stream(cfg, size, 0, size + 1)
  }

  function During(cfg: Config, size: nat): seq<Candle> {
    Stream(cfg, size, size + 1, cfg.params.cciPeriod + 1)
  }

  /** Above every high of the surge, so that its mirror image keeps positive prices. */
  function Axis(p: ValidParams): real {
    Height(p) + 3.0 * p.cciPeriod as real + 40.0
  }

  lemma BarSound(cfg: Config, size: nat, t: nat)
    ensures MarketBar(cfg, BarAt(cfg, size, t)) && BarAt(cfg, size, t).timestamp == t
    ensures MarketBar(cfg, Mirror(Axis(cfg.params), BarAt(cfg, size, t)))
  {
  }

  lemma StreamSound(cfg: Config, size: nat)
    ensures MarketBars(cfg, Before(cfg, size) + During(cfg, size))
    ensures var axis := Axis(cfg.params);
            MarketBars(cfg, MirrorAll(axis, Before(cfg, size)) + MirrorAll(axis, During(cfg, size)))
  {
    var n := size + cfg.params.cciPeriod + 2;
    var bars := Stream(cfg, size, 0, n);
    assert Before(cfg, size) + During(cfg, size) == bars;
    forall t: nat | t < n
      ensures MarketBar(cfg, bars[t]) && bars[t].timestamp == t && MarketBar(cfg, Mirror(Axis(cfg.params), bars[t]))
    {
      BarSound(cfg, size, t);
    }
    assert MirrorAll(Axis(cfg.params), Before(cfg, size)) + MirrorAll(Axis(cfg.params), During(cfg, size))
        == MirrorAll(Axis(cfg.params), bars);
  }

  lemma EngineShows(cfg: Config, size: nat, n: nat)
    requires n <= cfg.params.cciPeriod
    ensures var i := WindowInputs(size, Before(cfg, size), During(cfg, size))[n];
            i.tick.symbol == cfg.underlying && i.candles == Shown(cfg, size, n)
  {
    WindowInputsAt(size, Before(cfg, size), During(cfg, size), n);
    ShownSoFar(cfg, size, n);
    assert During(cfg, size)[n].symbol == cfg.underlying;
  }

  lemma ShownSoFar(cfg: Config, size: nat, n: nat)
    requires n <= cfg.params.cciPeriod
    ensures LastN(Before(cfg, size) + During(cfg, size)[..n], size) == Shown(cfg, size, n)
  {
    var shown := Before(cfg, size) + During(cfg, size)[..n];
    assert shown == Stream(cfg, size, 0, size + 1 + n);
    StreamTail(cfg, size, n + 1);
  }

  lemma StreamTail(cfg: Config, size: nat, n: nat)
    ensures LastN(Stream(cfg, size, 0, n + size), size) == Stream(cfg, size, n, size)
  {
  }

  lemma LeverageReaches(cfg: Config, size: nat)
    requires size >= WarmUpBars(cfg.params) && LeverageWarns(cfg.params)
    ensures ReachesPartial(Machine(cfg), WindowInputs(size, Before(cfg, size), During(cfg, size)))
  {
    var m, inputs := Machine(cfg), WindowInputs(size, Before(cfg, size), During(cfg, size));
    assert LeverageHeld(m(INITIAL, inputs[0]).0) by {
      EngineShows(cfg, size, 0);
      EntryShown(cfg, size);
      LeverageEnters(cfg, inputs[0]);
    }
    forall n | 1 <= n < |inputs|
      ensures Leads(m, LeverageHeld, inputs[n], LeverageHeld)
      ensures n == |inputs| - 2 ==> Leads(m, LeverageHeld, inputs[n], LeverageWarned)
      ensures n == |inputs| - 1 ==> Leads(m, LeverageWarned, inputs[n], InPartial)
    {
      EngineShows(cfg, size, n);
      WindowsShown(cfg, size, n);
      LeverageLeads(cfg, inputs[n]);
    }
    EndsIn(m, INITIAL, inputs, LeverageHeld, LeverageWarned, InPartial);
  }

  lemma WindowsShown(cfg: Config, size: nat, n: nat)
    requires size >= WarmUpBars(cfg.params) && n <= cfg.params.cciPeriod
    ensures Unconfirmed(cfg.params, Shown(cfg, size, n))
    ensures n == cfg.params.cciPeriod - 1 ==> AtLimit(cfg.params, Shown(cfg, size, n))
    ensures n == cfg.params.cciPeriod ==> Crossing(cfg.params, Shown(cfg, size, n))
  {
    UnconfirmedShown(cfg, size, n);
    if n == cfg.params.cciPeriod - 1 {
      LimitShown(cfg, size, n);
    } else if n == cfg.params.cciPeriod {
      CrossShown(cfg, size, n);
    }
  }

  lemma InverseReaches(cfg: Config, size: nat)
    requires size >= WarmUpBars(cfg.params) && InverseWarns(cfg.params)
    ensures var axis := Axis(cfg.params);
            ReachesPartial(Machine(cfg),
                           WindowInputs(size, MirrorAll(axis, Before(cfg, size)), MirrorAll(axis, During(cfg, size))))
  {
    var axis, m := Axis(cfg.params), Machine(cfg);
    var originals := WindowInputs(size, Before(cfg, size), During(cfg, size));
    var inputs := MapSeq(Mirroring(axis), originals);
    MirroredInputs(axis, size, Before(cfg, size), During(cfg, size));
    assert InverseHeld(m(INITIAL, inputs[0]).0) by {
      EngineShows(cfg, size, 0);
      EntryShown(cfg, size);
      InverseEnters(axis, cfg, originals[0]);
    }
    forall n | 1 <= n < |inputs|
      ensures Leads(m, InverseHeld, inputs[n], InverseHeld)
      ensures n == |inputs| - 2 ==> Leads(m, InverseHeld, inputs[n], InverseWarned)
      ensures n == |inputs| - 1 ==> Leads(m, InverseWarned, inputs[n], InPartial)
    {
      EngineShows(cfg, size, n);
      WindowsShown(cfg, size, n);
      InverseLeads(axis, cfg, originals[n]);
    }
    EndsIn(m, INITIAL, inputs, InverseHeld, InverseWarned, InPartial);
  }

  // ----- when some run reaches a partial exit

  /** What an engine with a buffer of `size` candles shows a strategy of a market's bars. */
  ghost predicate Delivered(cfg: Config, size: nat, inputs: seq<Input>) {
    exists before, bars :: MarketBars(cfg, before + bars) && inputs == WindowInputs(size, before, bars)
  }

  predicate SomeWarning(p: ValidParams) {
    LeverageWarns(p) || InverseWarns(p)
  }

  lemma NeverReached(cfg: Config, inputs: seq<Input>)
    requires !SomeWarning(cfg.params)
    ensures !ReachesPartial(Machine(cfg), inputs)
  {
    RunUnwarned(cfg, inputs);
  }

  lemma NeverWarm(cfg: Config, size: nat, before: seq<Candle>, bars: seq<Candle>)
    requires size < WarmUpBars(cfg.params)
    ensures !ReachesPartial(Machine(cfg), WindowInputs(size, before, bars))
  {
    var inputs, idle := WindowInputs(size, before, bars), (st: State) => st == INITIAL;
    forall n | 0 <= n < |inputs| ensures Leads(Machine(cfg), idle, inputs[n], idle) {
      WindowInputsAt(size, before, bars, n);
      StepCold(cfg, INITIAL, inputs[n].tick, inputs[n].candles);
    }
    StaysIn(Machine(cfg), INITIAL, inputs, idle);
  }

  /** Over all inputs: some run exits partially exactly when one of the warnings is within the CCI's range. */
  lemma PartialExitReachable(cfg: Config)
    ensures (exists inputs :: ReachesPartial(Machine(cfg), inputs)) <==> SomeWarning(cfg.params)
  {
    if SomeWarning(cfg.params) {
      var _ := SurgeReaches(cfg, WarmUpBars(cfg.params));
    } else {
      forall inputs ensures !ReachesPartial(Machine(cfg), inputs) {
        NeverReached(cfg, inputs);
      }
    }
  }

  lemma SurgeReaches(cfg: Config, size: nat) returns (inputs: seq<Input>)
    requires size >= WarmUpBars(cfg.params) && SomeWarning(cfg.params)
    ensures Delivered(cfg, size, inputs) && ReachesPartial(Machine(cfg), inputs)
  {
    var axis, before, bars := Axis(cfg.params), Before(cfg, size), During(cfg, size);
    StreamSound(cfg, size);
    if LeverageWarns(cfg.params) {
      LeverageReaches(cfg, size);
      inputs := WindowInputs(size, before, bars);
    } else {
      InverseReaches(cfg, size);
      inputs := WindowInputs(size, MirrorAll(axis, before), MirrorAll(axis, bars));
    }
  }

  /** Through a buffer of any size: when besides the slowest indicator warms up within the buffer. */
  lemma DeliveredReachable(cfg: Config, size: nat)
    ensures (exists inputs :: Delivered(cfg, size, inputs) && ReachesPartial(Machine(cfg), inputs))
            <==> SomeWarning(cfg.params) && WarmUpBars(cfg.params) <= size
  {
    if SomeWarning(cfg.params) && WarmUpBars(cfg.params) <= size {
      var _ := SurgeReaches(cfg, size);
    } else {
      forall inputs | Delivered(cfg, size, inputs) ensures !ReachesPartial(Machine(cfg), inputs) {
        var before, bars :| inputs == WindowInputs(size, before, bars);
        if SomeWarning(cfg.params) {
          NeverWarm(cfg, size, before, bars);
        } else {
          NeverReached(cfg, inputs);
        }
      }
    }
  }

  /** So through the replay harness, whose buffer holds 200 candles. */
  lemma ReplayReachable(cfg: Config)
    ensures (exists history, bars ::
               MarketBars(cfg, history + bars) && ReachesPartial(Machine(cfg), ReplayInputs(history, bars)))
            <==> SomeWarning(cfg.params) && WarmUpBars(cfg.params) <= HARNESS_BUFFER
  {
    DeliveredReachable(cfg, HARNESS_BUFFER);
    if inputs :| Delivered(cfg, HARNESS_BUFFER, inputs) && ReachesPartial(Machine(cfg), inputs) {
      var history, bars :| MarketBars(cfg, history + bars) && inputs == WindowInputs(HARNESS_BUFFER, history, bars);
      assert ReachesPartial(Machine(cfg), ReplayInputs(history, bars));
    }
    if history, bars :| MarketBars(cfg, history + bars) && ReachesPartial(Machine(cfg), ReplayInputs(history, bars)) {
      assert Delivered(cfg, HARNESS_BUFFER, ReplayInputs(history, bars));
    }
  }

  // ----- from one run to all runs

  /** A set of runs that contains every beginning of its runs. */
  ghost predicate PrefixClosed<I(!new)>(runs: iset<seq<I>>) {
    forall inputs, k: nat :: inputs in runs && k <= |inputs| ==> inputs[..k] in runs
  }

  ghost predicate SomeReaches<I(!new)>(step: (State, I) -> (State, Option<Signal>), runs: iset<seq<I>>) {
    exists inputs :: inputs in runs && ReachesPartial(step, inputs)
  }

  /** A promise that a run keeps when it makes no partial exit is kept by all exactly when none makes one. */
  lemma DecidedBy<I(!new)>(step: (State, I) -> (State, Option<Signal>), runs: iset<seq<I>>)
    requires PrefixClosed(runs)
    ensures (forall inputs :: inputs in runs ==> NoPartialExit(step, inputs)) <==> !SomeReaches(step, runs)
  {
    if SomeReaches(step, runs) {
      var inputs :| inputs in runs && ReachesPartial(step, inputs);
      assert inputs[..|inputs|] == inputs;
      assert !NoPartialExit(step, inputs);
    } else {
      forall inputs | inputs in runs ensures NoPartialExit(step, inputs) {
        assert forall k :: 0 <= k <= |inputs| ==> !ReachesPartial(step, inputs[..k]);
      }
    }
  }

  ghost function AllRuns(): iset<seq<Input>> {
    iset inputs: seq<Input> | |inputs| >= 0
  }

  ghost function DeliveredRuns(cfg: Config, size: nat): iset<seq<Input>> {
    iset inputs: seq<Input> | Delivered(cfg, size, inputs)
  }

  lemma EarlierBars(cfg: Config, before: seq<Candle>, bars: seq<Candle>, k: nat)
    requires MarketBars(cfg, before + bars) && k <= |bars|
    ensures MarketBars(cfg, before + bars[..k])
  {
    assert before + bars[..k] == (before + bars)[..|before| + k];
  }

  lemma DeliveredClosed(cfg: Config, size: nat)
    ensures PrefixClosed(DeliveredRuns(cfg, size))
  {
    forall inputs, k: nat | inputs in DeliveredRuns(cfg, size) && k <= |inputs|
      ensures inputs[..k] in DeliveredRuns(cfg, size)
    {
      var before, bars :| MarketBars(cfg, before + bars) && inputs == WindowInputs(size, before, bars);
      WindowInputsPrefix(size, before, bars, k);
      EarlierBars(cfg, before, bars, k);
    }
  }

  // ----- the ledger

  ghost predicate AlwaysBalanced<I>(t: Terms, step: (State, I) -> (State, Option<Signal>), inputs: seq<I>) {
    forall k: nat :: k <= |inputs| ==> BalancedAt(t, step, inputs, k)
  }

  lemma LedgerDecidedFor<I(!new)>(t: Terms, step: (State, I) -> (State, Option<Signal>), runs: iset<seq<I>>)
    requires OnlyMoves(t, step) && PrefixClosed(runs)
    ensures (forall inputs :: inputs in runs ==> AlwaysBalanced(t, step, inputs))
            <==> t.part < t.unit || !SomeReaches(step, runs)
  {
    forall inputs ensures AlwaysBalanced(t, step, inputs) <==> t.part < t.unit || NoPartialExit(step, inputs) {
      LedgerExactFor(t, step, inputs);
    }
    DecidedBy(step, runs);
  }

  /**
   The ledger theorem for a configuration: the estimate is right at every point of every run exactly when a
   partial exit leaves a remainder, or both warnings lie beyond what the CCI can reach.
   */
  lemma LedgerDecided(cfg: Config)
    ensures (forall inputs :: AlwaysBalanced(TermsOf(cfg), Machine(cfg), inputs))
            <==> LeavesRemainder(cfg) || !SomeWarning(cfg.params)
  {
    MachineMoves(cfg);
    LedgerDecidedFor(TermsOf(cfg), Machine(cfg), AllRuns());
    PartialExitReachable(cfg);
  }

  /** The same over everything an engine with a buffer of `size` candles shows of a market's bars. */
  lemma LedgerDecidedThrough(cfg: Config, size: nat)
    ensures (forall inputs :: Delivered(cfg, size, inputs) ==> AlwaysBalanced(TermsOf(cfg), Machine(cfg), inputs))
            <==> LeavesRemainder(cfg) || !SomeWarning(cfg.params) || WarmUpBars(cfg.params) > size
  {
    MachineMoves(cfg);
    DeliveredClosed(cfg, size);
    LedgerDecidedFor(TermsOf(cfg), Machine(cfg), DeliveredRuns(cfg, size));
    DeliveredReachable(cfg, size);
  }

  // ----- the share a partial exit sells

  /** Between a third and a half of the lots held. */
  predicate ThirdToHalf(sold: int, held: int) {
    held <= 3 * sold && 2 * sold <= held
  }

  /** If the k-th call makes a partial exit, it sells such a share of what was held. */
  ghost predicate ShareKeptAt<I>(step: (State, I) -> (State, Option<Signal>), inputs: seq<I>, k: nat)
    requires k < |inputs|
  {
    var st := Fold(step, INITIAL, inputs[..k]).0;
    var next := step(st, inputs[k]);
    !InPartial(st) && InPartial(next.0) ==>
      next.1.Some? && next.1.value.side == Sell && ThirdToHalf(next.1.value.qty, st.qty)
  }

  ghost predicate SellsThirdToHalf<I>(step: (State, I) -> (State, Option<Signal>), inputs: seq<I>) {
    forall k: nat :: k < |inputs| ==> ShareKeptAt(step, inputs, k)
  }

  /** The first partial exit of a run that makes one. */
  lemma {:induction false} FirstPartial<I>(step: (State, I) -> (State, Option<Signal>), inputs: seq<I>, upTo: nat)
    returns (k: nat)
    requires upTo <= |inputs| && InPartial(Fold(step, INITIAL, inputs[..upTo]).0)
    ensures k < |inputs| && !InPartial(Fold(step, INITIAL, inputs[..k]).0)
    ensures InPartial(step(Fold(step, INITIAL, inputs[..k]).0, inputs[k]).0)
  {
    if upTo == 0 {
      assert false;
    } else if InPartial(Fold(step, INITIAL, inputs[..upTo - 1]).0) {
      k := FirstPartial(step, inputs, upTo - 1);
    } else {
      k := upTo - 1;
      FoldAt(step, INITIAL, inputs, k);
    }
  }

  /** A call that enters a partial phase sells the part of a whole unit. */
  lemma PartialSale<I(!new)>(t: Terms, step: (State, I) -> (State, Option<Signal>), inputs: seq<I>, k: nat)
    requires OnlyMoves(t, step) && k < |inputs|
    ensures var st := Fold(step, INITIAL, inputs[..k]).0;
            var next := step(st, inputs[k]);
            !InPartial(st) && InPartial(next.0) ==>
              next.1.Some? && next.1.value.side == Sell && next.1.value.qty == t.part && st.qty == t.unit
  {
    var st := Fold(step, INITIAL, inputs[..k]).0;
    RunConsistent(t, step, inputs[..k]);
    assert MovesAt(t, step, st, inputs[k]);
  }

  /** A run keeps the share exactly when the configured part is such a share, or it makes no partial exit. */
  lemma ShareExactFor<I(!new)>(t: Terms, step: (State, I) -> (State, Option<Signal>), inputs: seq<I>)
    requires OnlyMoves(t, step)
    ensures SellsThirdToHalf(step, inputs) <==> ThirdToHalf(t.part, t.unit) || NoPartialExit(step, inputs)
  {
    if NoPartialExit(step, inputs) {
      forall k: nat | k < |inputs| ensures ShareKeptAt(step, inputs, k) {
        FoldAt(step, INITIAL, inputs, k);
      }
    } else {
      var upTo: nat :| upTo <= |inputs| && InPartial(Fold(step, INITIAL, inputs[..upTo]).0);
      var k := FirstPartial(step, inputs, upTo);
      PartialSale(t, step, inputs, k);
      if ThirdToHalf(t.part, t.unit) {
        forall k: nat | k < |inputs| ensures ShareKeptAt(step, inputs, k) {
          PartialSale(t, step, inputs, k);
        }
      } else {
        assert !ShareKeptAt(step, inputs, k);
      }
    }
  }

  lemma ShareDecidedFor<I(!new)>(t: Terms, step: (State, I) -> (State, Option<Signal>), runs: iset<seq<I>>)
    requires OnlyMoves(t, step) && PrefixClosed(runs)
    ensures (forall inputs :: inputs in runs ==> SellsThirdToHalf(step, inputs))
            <==> ThirdToHalf(t.part, t.unit) || !SomeReaches(step, runs)
  {
    forall inputs
      ensures SellsThirdToHalf(step, inputs) <==> ThirdToHalf(t.part, t.unit) || NoPartialExit(step, inputs)
    {
      ShareExactFor(t, step, inputs);
    }
    DecidedBy(step, runs);
  }

  /** The lots and the ratio make a partial exit sell a third to a half. */
  predicate SoundShare(cfg: Config) {
    ThirdToHalf(PartialQty(cfg.qtyPerUnit, cfg.params.partialExitRatio), cfg.qtyPerUnit)
  }

  /** Over every run, every partial exit sells a third to a half of the position exactly under this condition. */
  lemma ShareDecided(cfg: Config)
    ensures (forall inputs :: SellsThirdToHalf(Machine(cfg), inputs)) <==> SoundShare(cfg) || !SomeWarning(cfg.params)
  {
    MachineMoves(cfg);
    ShareDecidedFor(TermsOf(cfg), Machine(cfg), AllRuns());
    PartialExitReachable(cfg);
  }

  lemma ShareDecidedThrough(cfg: Config, size: nat)
    ensures (forall inputs :: Delivered(cfg, size, inputs) ==> SellsThirdToHalf(Machine(cfg), inputs))
            <==> SoundShare(cfg) || !SomeWarning(cfg.params) || WarmUpBars(cfg.params) > size
  {
    MachineMoves(cfg);
    DeliveredClosed(cfg, size);
    ShareDecidedFor(TermsOf(cfg), Machine(cfg), DeliveredRuns(cfg, size));
    DeliveredReachable(cfg, size);
  }

  /** With the default ratio the promise fails for a single lot and for nothing else. */
  lemma DefaultShare(qty: Lots)
    ensures ThirdToHalf(PartialQty(qty, 0.4), qty) <==> qty >= 2
  {
    var wanted := qty as real * 0.4;
    assert wanted.Floor as real <= wanted < wanted.Floor as real + 1.0;
    assert wanted - 0.5 <= Round(wanted) as real <= wanted + 0.5;
  }

  /** Other ratios miss it both ways although a remainder is left: one of four lots, and nine of ten. */
  lemma ShareMissed()
    ensures PartialQty(4, 0.35) == 1 && !ThirdToHalf(1, 4)
    ensures PartialQty(10, 0.9) == 9 && !ThirdToHalf(9, 10)
  {
    assert (4.0 * 0.35).Floor == 1 && (10.0 * 0.9).Floor == 9;
  }
}
