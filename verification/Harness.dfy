/** The replay harness (core/strategy/harness.py): warm up on a prefix, replay the rest bar by bar. */
module Harness {
  import opened Arithmetic
  import opened Market
  import opened Plugins
  import opened Wrappers

  const HARNESS_BUFFER: nat := 200

  datatype Report = Report(signals: seq<Signal>, totalTicks: nat, errorCount: nat, symbol: string)

  /** The strategy's state, its context buffer and the report, after some bars. */
  datatype Replay<!S> = Replay(state: S, buffer: seq<Candle>, report: Report)

  function ReplayBar<S>(p: Plugin<S>, r: Replay<S>, bar: Candle): Replay<S> {
    var (state, out) := p.tick(r.state, CandleToTick(bar), Context(r.report.symbol, r.buffer));
    Replay(
      state,
      LastN(r.buffer + [bar], HARNESS_BUFFER),
      r.report.(
        signals := r.report.signals + SignalsOf(out),
        totalTicks := r.report.totalTicks + 1,
        errorCount := r.report.errorCount + if out.Raise? then 1 else 0))
  }

  function ReplayBars<S>(p: Plugin<S>, r: Replay<S>, bars: seq<Candle>): Replay<S> {
    if bars == [] then r
    else ReplayBar(p, ReplayBars(p, r, bars[..|bars| - 1]), bars[|bars| - 1])
  }

  /** None means half of the candles; anything else is clamped into the list. */
  function WarmupLength(n: nat, requested: Option<int>): (w: nat)
    ensures w <= n && SplitsAt(n, requested, w)
  {
    match requested
    case None => n / 2
    case Some(k) => Max(0, Min(k, n))
  }

  /** Where `n` candles are split: in the middle, or as near to the requested place as the list allows. */
  predicate SplitsAt(n: nat, requested: Option<int>, w: int) {
    match requested
    case None => 2 * w <= n <= 2 * w + 1
    case Some(k) => if k < 0 then w == 0 else if k > n then w == n else w == k
  }

  function Start<S>(state: S, candles: seq<Candle>, w: nat): Replay<S>
    requires 0 < |candles| && w <= |candles|
  {
    Replay(state, LastN(candles[..w], HARNESS_BUFFER), Report([], 0, 0, candles[0].symbol))
  }

  /** A raising warm-up is the caller's failure; a raising tick is counted and the replay goes on. */
  method RunBacktest<S>(p: Plugin<S>, s0: S, candles: seq<Candle>, warmupSize: Option<int>)
    returns (r: Result<Replay<S>, string>)
    ensures candles == [] ==> r == Success(Replay(s0, [], Report([], 0, 0, "")))
    ensures candles != [] ==>
              var w := WarmupLength(|candles|, warmupSize);
              var warmed := p.warm(s0, candles[..w]);
              if warmed.1 then r == Success(ReplayBars(p, Start(warmed.0, candles, w), candles[w..])) else r.Failure?
    ensures r.Success? && candles != [] ==>
              && SplitsAt(|candles|, warmupSize, |candles| - r.value.report.totalTicks)
              && r.value.report.symbol == candles[0].symbol
              && r.value.buffer == candles[if |candles| > 200 then |candles| - 200 else 0..]
  {
    if candles == [] {
      return Success(Replay(s0, [], Report([], 0, 0, "")));
    }
    var w := WarmupLength(|candles|, warmupSize);
    var warmupCandles, replayCandles := candles[..w], candles[w..];
    var (state, warmed) := p.warm(s0, warmupCandles);
    if !warmed {
      return Failure("warmup");
    }
    var replay := ReplayEach(p, Start(state, candles, w), replayCandles);
    ReplayedWhole(p, state, candles, w);
    r := Success(replay);
  }

  /** The replay loop. */
  method ReplayEach<S>(p: Plugin<S>, start: Replay<S>, bars: seq<Candle>) returns (r: Replay<S>)
    ensures r == ReplayBars(p, start, bars)
  {
    var state, buffer, symbol := start.state, start.buffer, start.report.symbol;
    var signals, ticks, errors := start.report.signals, start.report.totalTicks, start.report.errorCount;
    for i := 0 to |bars|
      invariant Replay(state, buffer, Report(signals, ticks, errors, symbol)) == ReplayBars(p, start, bars[..i])
    {
      assert bars[..i + 1][..i] == bars[..i];
      state, buffer, signals, ticks, errors :=
        ReplayOne(p, state, buffer, signals, ticks, errors, symbol, bars[i]);
    }
    assert bars[..|bars|] == bars;
    r := Replay(state, buffer, Report(signals, ticks, errors, symbol));
  }

  /** What a replay of everything after the warm-up reports and leaves in its buffer. */
  lemma ReplayedWhole<S>(p: Plugin<S>, state: S, candles: seq<Candle>, w: nat)
    requires 0 < |candles| && w <= |candles|
    ensures var r := ReplayBars(p, Start(state, candles, w), candles[w..]);
            && r.report.totalTicks == |candles| - w && r.report.symbol == candles[0].symbol
            && r.buffer == candles[if |candles| > 200 then |candles| - 200 else 0..]
  {
    var start := Start(state, candles, w);
    assert candles == candles[..w] + candles[w..];
    ReplayBuffer(p, start, candles[..w], candles[w..]);
    ReplayTicks(p, start, candles[w..]);
  }

  /** One pass of the replay loop. */
  method ReplayOne<S>(
    p: Plugin<S>, state: S, buffer: seq<Candle>, signals: seq<Signal>, ticks: nat, errors: nat, symbol: string,
    bar: Candle)
    returns (state': S, buffer': seq<Candle>, signals': seq<Signal>, ticks': nat, errors': nat)
    ensures Replay(state', buffer', Report(signals', ticks', errors', symbol))
            == ReplayBar(p, Replay(state, buffer, Report(signals, ticks, errors, symbol)), bar)
  {
    signals', errors' := signals, errors;
    var out;
    state', out := TickOnce(p, state, CandleToTick(bar), Context(symbol, buffer));
    match out {
      case Emit(s) => signals' := signals + [s];
      case Raise => errors' := errors + 1;
      case Silent =>
    }
    buffer' := LastN(buffer + [bar], HARNESS_BUFFER);
    ticks' := ticks + 1;
  }

  method TickOnce<S>(p: Plugin<S>, s: S, tick: Tick, ctx: Context) returns (s': S, out: Outcome)
    ensures (s', out) == p.tick(s, tick, ctx)
  {
    var r := p.tick(s, tick, ctx);
    s', out := r.0, r.1;
  }

  /** Every replayed bar counts as one tick, raising or not, and the report keeps its symbol. */
  lemma {:induction false} ReplayTicks<S>(p: Plugin<S>, r: Replay<S>, bars: seq<Candle>)
    ensures var report := ReplayBars(p, r, bars).report;
            report.totalTicks == r.report.totalTicks + |bars| && report.symbol == r.report.symbol
  {
    if bars == [] {
    } else {
      ReplayTicks(p, r, bars[..|bars| - 1]);
    }
  }

  /** The harness's buffer is always the newest candles of everything it has been given. */
  lemma {:induction false} ReplayBuffer<S>(p: Plugin<S>, r: Replay<S>, before: seq<Candle>, bars: seq<Candle>)
    requires r.buffer == LastN(before, HARNESS_BUFFER)
    ensures ReplayBars(p, r, bars).buffer == LastN(before + bars, HARNESS_BUFFER)
  {
    if bars == [] {
      assert before + bars == before;
    } else {
      var n := |bars| - 1;
      ReplayBuffer(p, r, before, bars[..n]);
      LastNAppend(before + bars[..n], bars[n], HARNESS_BUFFER);
      assert before + bars == before + bars[..n] + [bars[n]];
    }
  }
}
