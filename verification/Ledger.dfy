/**
 The strategy keeps no fills, only an estimate of what it holds. This module says when the estimate
 is right: the books balance at every point of a run exactly when the first partial exit cannot sell
 the whole position, or none happens.
 */
module Ledger {
  import opened Arithmetic
  import opened Market
  import opened LeverageInverse
  import opened Machines
  import opened Wrappers

  /** What the ledger depends on: the products, the lots of one entry, and the lots of one partial exit. */
  datatype RawTerms = Terms(name: string, long: string, short: string, unit: Lots, part: Lots)

  type Terms = t: RawTerms | t.part <= t.unit witness Terms("", "", "", 1, 1)

  function TermsOf(cfg: Config): Terms {
    Terms(cfg.name, cfg.long, cfg.short, cfg.qtyPerUnit, PartialQty(cfg.qtyPerUnit, cfg.params.partialExitRatio))
  }

  /** The first warning leaves something to sell later. */
  predicate LeavesRemainder(cfg: Config) {
    WantedPart(cfg.qtyPerUnit, cfg.params.partialExitRatio) < cfg.qtyPerUnit
  }

  function Change(s: Signal, symbol: string): int {
    var lots: int := s.qty;
    if s.symbol != symbol then 0 else if s.side == Buy then lots else -lots
  }

  /** The lots of one symbol bought less the lots sold. */
  function Net(signals: seq<Signal>, symbol: string): int {
    if signals == [] then 0
    else
      var n := |signals| - 1;
      Net(signals[..n], symbol) + Change(signals[n], symbol)
  }

  /** What the state machine believes it holds of a symbol. */
  function Held(t: Terms, st: State, symbol: string): int {
    if st.phase in {LeverageHolding, LeveragePartial} && symbol == t.long then st.qty
    else if st.phase in {InverseHolding, InversePartial} && symbol == t.short then st.qty
    else 0
  }

  predicate InPartial(st: State) {
    st.phase in {LeveragePartial, InversePartial}
  }

  /** The quantities a run can be in, phase by phase. */
  predicate Consistent(t: Terms, st: State) {
    match st.phase
    case Watching => st.qty == 0
    case LeverageHolding => st.qty == t.unit
    case InverseHolding => st.qty == t.unit
    case LeveragePartial => st.qty == t.unit - t.part
    case InversePartial => st.qty == t.unit - t.part
  }

  function SymbolOf(t: Terms, st: State): string {
    if st.phase in {InverseHolding, InversePartial} then t.short else t.long
  }

  function Order(t: Terms, symbol: string, side: Side, qty: Lots): Signal {
    Signal(t.name, symbol, side, qty, None)
  }

  /** Every move the five phases allow, whatever the indicators say. */
  predicate Move(t: Terms, st: State, next: (State, Option<Signal>)) {
    var st' := next.0;
    match next.1
    case None => st'.phase == st.phase && st'.qty == st.qty
    case Some(s) =>
      match st.phase
      case Watching =>
        st'.phase in {LeverageHolding, InverseHolding} && st'.qty == t.unit
        && s == Order(t, SymbolOf(t, st'), Buy, t.unit)
      case LeverageHolding => Close(t, st, st', s) || Part(t, st, st', s, LeveragePartial)
      case InverseHolding => Close(t, st, st', s) || Part(t, st, st', s, InversePartial)
      case LeveragePartial => Close(t, st, st', s)
      case InversePartial => Close(t, st, st', s)
  }

  predicate Close(t: Terms, st: State, st': State, s: Signal) {
    st'.phase == Watching && st'.qty == 0
    && s == Order(t, SymbolOf(t, st), Sell, if st.qty > 0 then st.qty else t.unit)
  }

  predicate Part(t: Terms, st: State, st': State, s: Signal, target: Phase) {
    st'.phase == target && st'.qty == st.qty - t.part && s == Order(t, SymbolOf(t, st), Sell, t.part)
  }

  lemma StepMoves(cfg: Config, st: State, tick: Tick, candles: seq<Candle>)
    requires Consistent(TermsOf(cfg), st)
    ensures Move(TermsOf(cfg), st, Step(cfg, st, tick, candles))
  {
    if tick.symbol == cfg.underlying && |candles| >= 3 {
      var readings := ReadingsOf(cfg.params, candles);
      if readings.Some? {
        DecideMoves(cfg, st, candles, readings.value);
      }
    }
  }

  lemma DecideMoves(cfg: Config, st: State, candles: seq<Candle>, r: Readings)
    requires r.Ready() && |candles| > 0 && Consistent(TermsOf(cfg), st)
    ensures Move(TermsOf(cfg), st, Decide(cfg, st, candles, r))
  {
    var cci := r.cci[|r.cci| - 1];
    if st.phase in {LeverageHolding, LeveragePartial} {
      ExitMoves(cfg, st, LeverageConfirmations(cfg.params, candles, r), cci, Indicators.DeadCross(r.cci, r.signal));
    } else if st.phase in {InverseHolding, InversePartial} {
      ExitMoves(cfg, st, InverseConfirmations(cfg.params, candles, r), cci, Indicators.GoldenCross(r.cci, r.signal));
    }
  }

  lemma ExitMoves(cfg: Config, st: State, confirmations: int, cci: real, cross: bool)
    requires Consistent(TermsOf(cfg), st)
    ensures st.phase in {LeverageHolding, LeveragePartial} ==>
              Move(TermsOf(cfg), st, LeverageExit(cfg, st, confirmations, cci, cross))
    ensures st.phase in {InverseHolding, InversePartial} ==>
              Move(TermsOf(cfg), st, InverseExit(cfg, st, confirmations, cci, cross))
  {
  }

  // ----- over runs of any machine that only makes such moves

  ghost predicate MovesAt<I>(t: Terms, step: (State, I) -> (State, Option<Signal>), st: State, i: I) {
    Consistent(t, st) ==> Move(t, st, step(st, i))
  }

  ghost predicate OnlyMoves<I(!new)>(t: Terms, step: (State, I) -> (State, Option<Signal>)) {
    forall st, i :: MovesAt(t, step, st, i)
  }

  /** The estimate agrees with the signals, per symbol, and is zero exactly while watching. */
  ghost predicate BooksBalance(t: Terms, st: State, signals: seq<Signal>) {
    && (st.phase == Watching <==> st.qty == 0)
    && Net(signals, t.long) == Held(t, st, t.long)
    && Net(signals, t.short) == Held(t, st, t.short)
  }

  lemma {:induction false} RunConsistent<I(!new)>(
    t: Terms, step: (State, I) -> (State, Option<Signal>), inputs: seq<I>)
    requires OnlyMoves(t, step)
    ensures Consistent(t, Fold(step, INITIAL, inputs).0)
  {
    if inputs == [] {
    } else {
      var n := |inputs| - 1;
      RunConsistent(t, step, inputs[..n]);
      assert inputs == inputs[..n] + [inputs[n]];
      FoldSnoc(step, INITIAL, inputs[..n], inputs[n]);
      assert MovesAt(t, step, Fold(step, INITIAL, inputs[..n]).0, inputs[n]);
    }
  }

  lemma NetSnoc(t: Terms, signals: seq<Signal>, out: Option<Signal>, symbol: string)
    ensures Net(signals + Emitted(out), symbol)
            == Net(signals, symbol) + if out.Some? then Change(out.value, symbol) else 0
  {
    if out.Some? {
      assert (signals + [out.value])[..|signals|] == signals;
    } else {
      assert signals + Emitted(out) == signals;
    }
  }

  /** A signal changes what is believed held of its symbol by its own lots, and of no other. */
  lemma MoveHolds(t: Terms, st: State, next: (State, Option<Signal>), symbol: string)
    requires Move(t, st, next) && Consistent(t, st)
    requires t.part < t.unit || !InPartial(next.0)
    requires symbol == t.long || symbol == t.short
    requires st.phase == Watching <==> st.qty == 0
    ensures next.0.phase == Watching <==> next.0.qty == 0
    ensures Held(t, next.0, symbol)
            == Held(t, st, symbol) + if next.1.Some? then Change(next.1.value, symbol) else 0
  {
    match next.1
    case None =>
    case Some(s) =>
      if st.phase == Watching {
        assert s.side == Buy && s.qty == t.unit == next.0.qty;
      } else {
        assert s.side == Sell && st.qty == s.qty + next.0.qty;
      }
  }

  /** One allowed move keeps the books balanced, unless it leaves a position of zero behind. */
  lemma MoveBalances(t: Terms, st: State, signals: seq<Signal>, next: (State, Option<Signal>))
    requires Move(t, st, next) && Consistent(t, st) && BooksBalance(t, st, signals)
    requires t.part < t.unit || !InPartial(next.0)
    ensures BooksBalance(t, next.0, signals + Emitted(next.1))
  {
    NetSnoc(t, signals, next.1, t.long);
    NetSnoc(t, signals, next.1, t.short);
    MoveHolds(t, st, next, t.long);
    MoveHolds(t, st, next, t.short);
  }

  ghost predicate NoPartialExit<I>(step: (State, I) -> (State, Option<Signal>), inputs: seq<I>) {
    forall k :: 0 <= k <= |inputs| ==> !InPartial(Fold(step, INITIAL, inputs[..k]).0)
  }

  ghost predicate BalancedAt<I>(t: Terms, step: (State, I) -> (State, Option<Signal>), inputs: seq<I>, k: nat)
    requires k <= |inputs|
  {
    var run := Fold(step, INITIAL, inputs[..k]);
    BooksBalance(t, run.0, run.1)
  }

  lemma {:induction false} RunBalances<I(!new)>(
    t: Terms, step: (State, I) -> (State, Option<Signal>), inputs: seq<I>, k: nat)
    requires OnlyMoves(t, step) && k <= |inputs|
    requires t.part < t.unit || NoPartialExit(step, inputs)
    ensures BalancedAt(t, step, inputs, k)
  {
    if k == 0 {
      assert inputs[..0] == [];
    } else {
      var before := inputs[..k - 1];
      RunBalances(t, step, inputs, k - 1);
      RunConsistent(t, step, before);
      assert inputs[..k] == before + [inputs[k - 1]];
      FoldSnoc(step, INITIAL, before, inputs[k - 1]);
      var run := Fold(step, INITIAL, before);
      assert MovesAt(t, step, run.0, inputs[k - 1]);
      MoveBalances(t, run.0, run.1, step(run.0, inputs[k - 1]));
    }
  }

  /** A partial exit that sells everything unbalances the books at once: a phase holding nothing. */
  lemma PartialOfEverything<I(!new)>(
    t: Terms, step: (State, I) -> (State, Option<Signal>), inputs: seq<I>, k: nat)
    requires OnlyMoves(t, step) && k <= |inputs| && InPartial(Fold(step, INITIAL, inputs[..k]).0)
    requires t.part >= t.unit
    ensures !BalancedAt(t, step, inputs, k)
  {
    RunConsistent(t, step, inputs[..k]);
  }

  lemma LedgerExactFor<I(!new)>(t: Terms, step: (State, I) -> (State, Option<Signal>), inputs: seq<I>)
    requires OnlyMoves(t, step)
    ensures (forall k: nat :: k <= |inputs| ==> BalancedAt(t, step, inputs, k))
            <==> (t.part < t.unit || NoPartialExit(step, inputs))
  {
    if t.part < t.unit || NoPartialExit(step, inputs) {
      forall k: nat | k <= |inputs| ensures BalancedAt(t, step, inputs, k) {
        RunBalances(t, step, inputs, k);
      }
    } else {
      var k: nat :| k <= |inputs| && InPartial(Fold(step, INITIAL, inputs[..k]).0);
      PartialOfEverything(t, step, inputs, k);
    }
  }

  lemma MachineMoves(cfg: Config)
    ensures OnlyMoves(TermsOf(cfg), Machine(cfg))
  {
    forall st: State, i: Input ensures MovesAt(TermsOf(cfg), Machine(cfg), st, i) {
      if Consistent(TermsOf(cfg), st) {
        StepMoves(cfg, st, i.tick, i.candles);
      }
    }
  }

  /**
   The ledger theorem. Over every run, at every point: the estimate equals bought minus sold, it is
   zero exactly while watching, and the two products are never held together; all of it exactly
   when a partial exit leaves a remainder or none occurs.
   */
  lemma LedgerExact(cfg: Config, inputs: seq<Input>)
    ensures (forall k: nat :: k <= |inputs| ==> BalancedAt(TermsOf(cfg), Machine(cfg), inputs, k))
            <==> (LeavesRemainder(cfg) || NoPartialExit(Machine(cfg), inputs))
  {
    MachineMoves(cfg);
    LedgerExactFor(TermsOf(cfg), Machine(cfg), inputs);
  }

  // ----- the shape of the signal stream

  /** (BUY q, then SELL q, or one partial SELL and a SELL of the rest, all of one product)*, cut anywhere. */
  predicate Cycles(t: Terms, signals: seq<Signal>)
    decreases |signals|
  {
    signals == []
    || (signals[0] in {Order(t, t.long, Buy, t.unit), Order(t, t.short, Buy, t.unit)}
        && AfterBuy(t, signals[0].symbol, signals[1..]))
  }

  predicate AfterBuy(t: Terms, product: string, signals: seq<Signal>)
    decreases |signals|
  {
    signals == []
    || (signals[0] == Order(t, product, Sell, t.unit) && Cycles(t, signals[1..]))
    || (signals[0] == Order(t, product, Sell, t.part) && AfterPartial(t, product, signals[1..]))
  }

  predicate AfterPartial(t: Terms, product: string, signals: seq<Signal>)
    decreases |signals|
  {
    signals == []
    || (signals[0].qty == t.unit - t.part
        && signals[0] == Order(t, product, Sell, signals[0].qty) && Cycles(t, signals[1..]))
  }

  /** What may follow from a given phase. */
  predicate Follows(t: Terms, st: State, signals: seq<Signal>) {
    if st.phase == Watching then Cycles(t, signals)
    else if InPartial(st) then AfterPartial(t, SymbolOf(t, st), signals)
    else AfterBuy(t, SymbolOf(t, st), signals)
  }

  lemma MoveFollows(t: Terms, st: State, next: (State, Option<Signal>), rest: seq<Signal>)
    requires Move(t, st, next) && Consistent(t, st) && t.part < t.unit && Follows(t, next.0, rest)
    ensures Follows(t, st, Emitted(next.1) + rest)
  {
    match next.1
    case None => assert Emitted(next.1) + rest == rest;
    case Some(s) => assert (Emitted(next.1) + rest)[1..] == rest;
  }

  lemma {:induction false} RunFollows<I(!new)>(
    t: Terms, step: (State, I) -> (State, Option<Signal>), st: State, inputs: seq<I>)
    requires OnlyMoves(t, step) && t.part < t.unit && Consistent(t, st)
    ensures Follows(t, st, Fold(step, st, inputs).1)
    decreases |inputs|
  {
    if inputs == [] {
    } else {
      var next := step(st, inputs[0]);
      assert MovesAt(t, step, st, inputs[0]);
      RunFollows(t, step, next.0, inputs[1..]);
      MoveFollows(t, st, next, Fold(step, next.0, inputs[1..]).1);
    }
  }

  /** Every run emits whole cycles of one product each, the last one possibly still open. */
  lemma SignalsAreCycles(cfg: Config, inputs: seq<Input>)
    requires LeavesRemainder(cfg)
    ensures Cycles(TermsOf(cfg), Fold(Machine(cfg), INITIAL, inputs).1)
  {
    MachineMoves(cfg);
    RunFollows(TermsOf(cfg), Machine(cfg), INITIAL, inputs);
  }
}
