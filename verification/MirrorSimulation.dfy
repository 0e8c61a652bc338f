/**
 The long and the short half of the strategy are mirror images: on candles reflected at any axis, every run
 emits the same sides and quantities with the two products exchanged. An axis of zero negates all prices; an
 axis above them all keeps them positive.
 */
module MirrorSimulation {
  import opened Arithmetic
  import opened Market
  import opened Indicators
  import opened IndicatorLaws
  import opened LeverageInverse
  import opened Machines
  import opened Wrappers

  /** The thresholds the source declares separately for each half, placed symmetrically. */
  predicate Symmetric(p: Params) {
    p.oversold == 100.0 - p.overbought && p.cciOversoldWarning == -p.cciOverboughtWarning
  }

  function MirrorPhase(phase: Phase): Phase {
    match phase
    case Watching => Watching
    case LeverageHolding => InverseHolding
    case LeveragePartial => InversePartial
    case InverseHolding => LeverageHolding
    case InversePartial => LeveragePartial
  }

  function MirrorState(st: State): State {
    State(MirrorPhase(st.phase), st.qty, st.oversoldSeen, st.overboughtSeen)
  }

  function MirrorSymbol(cfg: Config, symbol: string): string {
    if symbol == cfg.long then cfg.short else if symbol == cfg.short then cfg.long else symbol
  }

  function MirrorSignal(cfg: Config, s: Signal): Signal {
    s.(symbol := MirrorSymbol(cfg, s.symbol))
  }

  function MirrorInput(axis: real, input: Input): Input {
    Input(input.tick.(price := axis - input.tick.price), MirrorAll(axis, input.candles))
  }

  /** Reflection at one axis, as a function of the input. */
  function Mirroring(axis: real): Input -> Input {
    (input: Input) => MirrorInput(axis, input)
  }

  function MirrorReadings(axis: real, r: Readings): Readings {
    Readings(Reflect(axis, r.dema), Reflect(0.0, r.cci), Reflect(0.0, r.signal), Reflect(100.0, r.stochD))
  }

  function MirrorRead(axis: real, read: Option<Readings>): Option<Readings> {
    match read
    case None => None
    case Some(r) => Some(MirrorReadings(axis, r))
  }

  lemma CciReadingsMirror(axis: real, cs: seq<Candle>, period: nat, signalPeriod: nat)
    requires period >= 1 && signalPeriod >= 1
    ensures var cci, signal := Cci(cs, period), Sma(Cci(cs, period), signalPeriod);
            var cci', signal' := Cci(MirrorAll(axis, cs), period), Sma(Cci(MirrorAll(axis, cs), period), signalPeriod);
            |signal'| == |signal| <= |cci| == |cci'| && signal' == Reflect(0.0, signal)
            && cci'[|cci'| - |signal'|..] == Reflect(0.0, cci[|cci| - |signal|..])
  {
    CciMirror(axis, cs, period);
    SmaReflect(0.0, Cci(cs, period), signalPeriod);
  }

  lemma StochasticMirror(axis: real, cs: seq<Candle>, kPeriod: nat, dPeriod: nat)
    requires kPeriod >= 1 && dPeriod >= 1
    ensures Sma(StochasticK(MirrorAll(axis, cs), kPeriod), dPeriod)
            == Reflect(100.0, Sma(StochasticK(cs, kPeriod), dPeriod))
  {
    KMirror(axis, cs, kPeriod);
    SmaReflect(100.0, StochasticK(cs, kPeriod), dPeriod);
  }

  lemma DemaMirror(axis: real, cs: seq<Candle>, period: nat)
    requires period >= 1
    ensures Dema(Closes(MirrorAll(axis, cs)), period) == Reflect(axis, Dema(Closes(cs), period))
  {
    assert Closes(MirrorAll(axis, cs)) == Reflect(axis, Closes(cs));
    DemaReflect(axis, Closes(cs), period);
  }

  lemma ReadingsMirror(axis: real, p: ValidParams, cs: seq<Candle>)
    ensures ReadingsOf(p, MirrorAll(axis, cs)) == MirrorRead(axis, ReadingsOf(p, cs))
  {
    DemaMirror(axis, cs, p.demaPeriod);
    CciReadingsMirror(axis, cs, p.cciPeriod, p.cciSignalPeriod);
    StochasticMirror(axis, cs, p.kPeriod, p.dPeriod);
  }

  lemma BreaksMirror(axis: real, dema: seq<real>, cs: seq<Candle>, n: nat)
    ensures BreaksAbove(Reflect(axis, dema), MirrorAll(axis, cs), n) <==> BreaksBelow(dema, cs, n)
    ensures BreaksBelow(Reflect(axis, dema), MirrorAll(axis, cs), n) <==> BreaksAbove(dema, cs, n)
  {
    SwingMirror(axis, cs, n);
  }

  lemma TurnsMirror(axis: real, r: Readings)
    ensures CciTurnsUp(MirrorReadings(axis, r)) <==> CciTurnsDown(r)
    ensures CciTurnsDown(MirrorReadings(axis, r)) <==> CciTurnsUp(r)
  {
    CrossMirror(r.cci, r.signal);
  }

  /** The core conditions of the two entries exchange whatever the thresholds; only the filter needs symmetric ones. */
  lemma CoreMirror(axis: real, r: Readings, cs: seq<Candle>, p: Params)
    ensures var long, short := EvaluateLeverageEntry(r, cs, p), EvaluateInverseEntry(r, cs, p);
            && EvaluateLeverageEntry(MirrorReadings(axis, r), MirrorAll(axis, cs), p).CoreCount() == short.CoreCount()
            && EvaluateInverseEntry(MirrorReadings(axis, r), MirrorAll(axis, cs), p).CoreCount() == long.CoreCount()
  {
    BreaksMirror(axis, r.dema, cs, p.swingLookback);
    TurnsMirror(axis, r);
    SlopeMirror(axis, r.dema);
  }

  lemma EntryMirror(axis: real, r: Readings, cs: seq<Candle>, p: Params)
    requires Symmetric(p)
    ensures EvaluateLeverageEntry(MirrorReadings(axis, r), MirrorAll(axis, cs), p) == EvaluateInverseEntry(r, cs, p)
    ensures EvaluateInverseEntry(MirrorReadings(axis, r), MirrorAll(axis, cs), p) == EvaluateLeverageEntry(r, cs, p)
  {
    BreaksMirror(axis, r.dema, cs, p.swingLookback);
    TurnsMirror(axis, r);
    SlopeMirror(axis, r.dema);
  }

  lemma ConfirmationsMirror(axis: real, r: Readings, cs: seq<Candle>, p: Params)
    requires r.Ready()
    ensures LeverageConfirmations(p, MirrorAll(axis, cs), MirrorReadings(axis, r)) == InverseConfirmations(p, cs, r)
    ensures InverseConfirmations(p, MirrorAll(axis, cs), MirrorReadings(axis, r)) == LeverageConfirmations(p, cs, r)
  {
    BreaksMirror(axis, r.dema, cs, p.swingLookback);
    SlopeMirror(axis, r.dema);
  }

  lemma TryEntriesMirror(axis: real, cfg: Config, st: State, cs: seq<Candle>, r: Readings)
    requires Symmetric(cfg.params) && st.phase == Watching
    ensures TryEntries(cfg, MirrorState(st), MirrorAll(axis, cs), MirrorReadings(axis, r))
            == MirrorOutcome(cfg, TryEntries(cfg, st, cs, r))
  {
    EntryMirror(axis, r, cs, cfg.params);
    EntriesExclusive(r, cs, cfg.params);
  }

  function MirrorOutcome(cfg: Config, outcome: (State, Option<Signal>)): (State, Option<Signal>) {
    (MirrorState(outcome.0), MapOption((s: Signal) => MirrorSignal(cfg, s), outcome.1))
  }

  lemma LeverageExitMirror(cfg: Config, st: State, confirmations: int, cci: real, cross: bool)
    requires Symmetric(cfg.params) && st.phase in {LeverageHolding, LeveragePartial}
    ensures InverseExit(cfg, MirrorState(st), confirmations, -cci, cross)
            == MirrorOutcome(cfg, LeverageExit(cfg, st, confirmations, cci, cross))
  {
  }

  lemma InverseExitMirror(cfg: Config, st: State, confirmations: int, cci: real, cross: bool)
    requires Symmetric(cfg.params) && st.phase in {InverseHolding, InversePartial}
    ensures LeverageExit(cfg, MirrorState(st), confirmations, -cci, cross)
            == MirrorOutcome(cfg, InverseExit(cfg, st, confirmations, cci, cross))
  {
  }

  lemma ManageLeverageMirror(axis: real, cfg: Config, st: State, cs: seq<Candle>, r: Readings)
    requires Symmetric(cfg.params) && r.Ready() && |cs| > 0 && st.phase in {LeverageHolding, LeveragePartial}
    ensures ManageInverse(cfg, MirrorState(st), MirrorAll(axis, cs), MirrorReadings(axis, r))
            == MirrorOutcome(cfg, ManageLeverage(cfg, st, cs, r))
  {
    var m, cci := MirrorReadings(axis, r), r.cci[|r.cci| - 1];
    var confirmations, cross := LeverageConfirmations(cfg.params, cs, r), DeadCross(r.cci, r.signal);
    LeverageExitMirror(cfg, st, confirmations, cci, cross);
    assert InverseConfirmations(cfg.params, MirrorAll(axis, cs), m) == confirmations by {
      ConfirmationsMirror(axis, r, cs, cfg.params);
    }
    assert GoldenCross(m.cci, m.signal) == cross by { CrossMirror(r.cci, r.signal); }
    assert m.cci[|m.cci| - 1] == -cci;
  }

  lemma ManageInverseMirror(axis: real, cfg: Config, st: State, cs: seq<Candle>, r: Readings)
    requires Symmetric(cfg.params) && r.Ready() && |cs| > 0 && st.phase in {InverseHolding, InversePartial}
    ensures ManageLeverage(cfg, MirrorState(st), MirrorAll(axis, cs), MirrorReadings(axis, r))
            == MirrorOutcome(cfg, ManageInverse(cfg, st, cs, r))
  {
    var m, cci := MirrorReadings(axis, r), r.cci[|r.cci| - 1];
    var confirmations, cross := InverseConfirmations(cfg.params, cs, r), GoldenCross(r.cci, r.signal);
    InverseExitMirror(cfg, st, confirmations, cci, cross);
    assert LeverageConfirmations(cfg.params, MirrorAll(axis, cs), m) == confirmations by {
      ConfirmationsMirror(axis, r, cs, cfg.params);
    }
    assert DeadCross(m.cci, m.signal) == cross by { CrossMirror(r.cci, r.signal); }
    assert m.cci[|m.cci| - 1] == -cci;
  }

  lemma DecideMirror(axis: real, cfg: Config, st: State, cs: seq<Candle>, r: Readings)
    requires Symmetric(cfg.params) && r.Ready() && |cs| > 0
    ensures Decide(cfg, MirrorState(st), MirrorAll(axis, cs), MirrorReadings(axis, r))
            == MirrorOutcome(cfg, Decide(cfg, st, cs, r))
  {
    match st.phase {
      case Watching => TryEntriesMirror(axis, cfg, st, cs, r);
      case LeverageHolding => ManageLeverageMirror(axis, cfg, st, cs, r);
      case LeveragePartial => ManageLeverageMirror(axis, cfg, st, cs, r);
      case InverseHolding => ManageInverseMirror(axis, cfg, st, cs, r);
      case InversePartial => ManageInverseMirror(axis, cfg, st, cs, r);
    }
  }

  lemma StepMirror(axis: real, cfg: Config, st: State, tick: Tick, cs: seq<Candle>)
    requires Symmetric(cfg.params)
    ensures Step(cfg, MirrorState(st), tick.(price := axis - tick.price), MirrorAll(axis, cs))
            == MirrorOutcome(cfg, Step(cfg, st, tick, cs))
  {
    if tick.symbol == cfg.underlying && |cs| >= 3 {
      ReadingsMirror(axis, cfg.params, cs);
      match ReadingsOf(cfg.params, cs)
      case None =>
      case Some(r) => DecideMirror(axis, cfg, st, cs, r);
    }
  }

  /** The mirror simulation, over every run from every pair of mirrored states. */
  lemma MirrorRun(axis: real, cfg: Config, st: State, inputs: seq<Input>)
    requires Symmetric(cfg.params)
    ensures var run := Fold(Machine(cfg), st, inputs);
            Fold(Machine(cfg), MirrorState(st), MapSeq(Mirroring(axis), inputs))
            == (MirrorState(run.0), MapSeq((s: Signal) => MirrorSignal(cfg, s), run.1))
  {
    var onSignal := (s: Signal) => MirrorSignal(cfg, s);
    forall s: State, i: Input
      ensures CommutesAt(Machine(cfg), MirrorState, Mirroring(axis), onSignal, s, i)
    {
      StepMirror(axis, cfg, s, i.tick, i.candles);
    }
    FoldEquivariant(Machine(cfg), MirrorState, Mirroring(axis), onSignal, st, inputs);
  }
}
