/**
 The leverage/inverse strategy inside its engines. The replay harness feeds it through a bounded
 buffer, so the theorems about runs of its state machine become theorems about whole histories.
 */
module StrategyRuns {
  import opened Market
  import opened Plugins
  import opened Harness
  import opened Machines
  import opened LeverageInverse
  import opened MirrorSimulation
  import opened Ledger
  import Backtest
  import BacktestCausality
  import opened Wrappers

  /** A step function as a plugin whose warm-up leaves its state alone: on_tick never reads what warmup stored. */
  function PluginOf<S>(name: string, step: (S, Input) -> (S, Option<Signal>)): Plugin<S> {
    Plugin(
      name,
      (s: S, history: seq<Candle>) => (s, true),
      (s: S, tick: Tick, ctx: Context) =>
        var next := step(s, Input(tick, ctx.recent));
        (next.0, match next.1 case None => Silent case Some(signal) => Emit(signal)))
  }

  /** What an engine with a buffer of `size` candles shows the strategy on each bar: the newest candles before it. */
  function WindowInputs(size: nat, before: seq<Candle>, bars: seq<Candle>): (r: seq<Input>)
    ensures |r| == |bars|
  {
    if bars == [] then []
    else
      var n := |bars| - 1;
      WindowInputs(size, before, bars[..n]) + [Input(CandleToTick(bars[n]), LastN(before + bars[..n], size))]
  }

  lemma {:induction false} WindowInputsAt(size: nat, before: seq<Candle>, bars: seq<Candle>, k: nat)
    requires k < |bars|
    ensures WindowInputs(size, before, bars)[k] == Input(CandleToTick(bars[k]), LastN(before + bars[..k], size))
    ensures var bar, shown := bars[k], before + bars[..k];
            WindowInputs(size, before, bars)[k]
            == Input(Tick(bar.symbol, bar.close, bar.volume, bar.timestamp, bar.market),
                     shown[if |shown| > size then |shown| - size else 0..])
  {
    var n := |bars| - 1;
    if k == n {
    } else {
      WindowInputsAt(size, before, bars[..n], k);
      assert bars[..n][..k] == bars[..k];
    }
  }

  lemma {:induction false} WindowInputsPrefix(size: nat, before: seq<Candle>, bars: seq<Candle>, k: nat)
    requires k <= |bars|
    ensures WindowInputs(size, before, bars)[..k] == WindowInputs(size, before, bars[..k])
  {
    var n := |bars| - 1;
    if k == |bars| {
      assert bars[..k] == bars;
    } else {
      WindowInputsPrefix(size, before, bars[..n], k);
      assert bars[..n][..k] == bars[..k];
    }
  }

  /** What the harness shows the strategy on each replayed bar. */
  function ReplayInputs(before: seq<Candle>, bars: seq<Candle>): seq<Input> {
    WindowInputs(HARNESS_BUFFER, before, bars)
  }

  /** A replay is a run of the step function over those inputs. */
  lemma {:induction false} ReplayIsFold<S>(
    name: string, step: (S, Input) -> (S, Option<Signal>), r: Replay<S>, before: seq<Candle>, bars: seq<Candle>)
    requires r.buffer == LastN(before, HARNESS_BUFFER) && r.report.signals == []
    ensures var replay, run := ReplayBars(PluginOf(name, step), r, bars),
            Fold(step, r.state, ReplayInputs(before, bars));
            replay.state == run.0 && replay.report.signals == run.1
  {
    if bars == [] {
    } else {
      var n := |bars| - 1;
      ReplayIsFold(name, step, r, before, bars[..n]);
      ReplayBuffer(PluginOf(name, step), r, before, bars[..n]);
      FoldSnoc(step, r.state, ReplayInputs(before, bars[..n]),
          Input(CandleToTick(bars[n]), LastN(before + bars[..n], HARNESS_BUFFER)));
    }
  }

  lemma {:induction false} MirroredInputs(axis: real, size: nat, before: seq<Candle>, bars: seq<Candle>)
    ensures WindowInputs(size, MirrorAll(axis, before), MirrorAll(axis, bars))
            == MapSeq(Mirroring(axis), WindowInputs(size, before, bars))
  {
    if bars == [] {
      assert MapSeq(Mirroring(axis), WindowInputs(size, before, bars)) == [];
    } else {
      var n := |bars| - 1;
      MirroredInputs(axis, size, before, bars[..n]);
      assert MirrorAll(axis, bars)[..n] == MirrorAll(axis, bars[..n]);
      var last := Input(CandleToTick(bars[n]), LastN(before + bars[..n], size));
      MirroredWindow(axis, size, before, bars[..n]);
      assert CandleToTick(Mirror(axis, bars[n])) == MirrorInput(axis, last).tick;
      MapSnoc(Mirroring(axis), WindowInputs(size, before, bars[..n]), last);
    }
  }

  lemma MirroredWindow(axis: real, size: nat, before: seq<Candle>, bars: seq<Candle>)
    ensures LastN(MirrorAll(axis, before) + MirrorAll(axis, bars), size) == MirrorAll(axis, LastN(before + bars, size))
  {
    assert MirrorAll(axis, before) + MirrorAll(axis, bars) == MirrorAll(axis, before + bars);
  }

  /** The signals of replaying `bars` after a warm-up on `history`, from a fresh strategy. */
  function Replayed(cfg: Config, history: seq<Candle>, bars: seq<Candle>): seq<Signal>
    requires |history| + |bars| > 0
  {
    ReplayBars(PluginOf(cfg.name, Machine(cfg)), Start(INITIAL, history + bars, |history|), bars).report.signals
  }

  lemma ReplayedIsFold(cfg: Config, history: seq<Candle>, bars: seq<Candle>)
    requires |history| + |bars| > 0
    ensures Replayed(cfg, history, bars) == Fold(Machine(cfg), INITIAL, ReplayInputs(history, bars)).1
  {
    assert (history + bars)[..|history|] == history;
    ReplayIsFold(cfg.name, Machine(cfg), Start(INITIAL, history + bars, |history|), history, bars);
  }

  /**
   The mirror simulation over whole histories: replaying any history reflected at any axis emits the signals
   of the original replay with the two products exchanged.
   */
  lemma MirrorReplay(axis: real, cfg: Config, history: seq<Candle>, bars: seq<Candle>)
    requires Symmetric(cfg.params) && |history| + |bars| > 0
    ensures Replayed(cfg, MirrorAll(axis, history), MirrorAll(axis, bars))
            == MapSeq((s: Signal) => MirrorSignal(cfg, s), Replayed(cfg, history, bars))
  {
    ReplayedIsFold(cfg, history, bars);
    ReplayedIsFold(cfg, MirrorAll(axis, history), MirrorAll(axis, bars));
    MirroredInputs(axis, HARNESS_BUFFER, history, bars);
    MirrorRun(axis, cfg, INITIAL, ReplayInputs(history, bars));
    assert MirrorState(INITIAL) == INITIAL;
  }

  /** The ledger over whole histories. */
  lemma ReplayedCycles(cfg: Config, history: seq<Candle>, bars: seq<Candle>)
    requires Ledger.LeavesRemainder(cfg) && |history| + |bars| > 0
    ensures Cycles(TermsOf(cfg), Replayed(cfg, history, bars))
  {
    ReplayedIsFold(cfg, history, bars);
    SignalsAreCycles(cfg, ReplayInputs(history, bars));
  }

  /** Its warm-up reveals nothing, so a whole backtest of this strategy, warm-up included, has the prefix property. */
  lemma BacktestHasNoLookAhead(
    cfg: Config, costs: Backtest.Costs, capital: real, symbol: string, candles: seq<Candle>, k: nat)
    requires k <= |candles|
    ensures BacktestCausality.SamePrefix(PluginOf(cfg.name, Machine(cfg)), costs, INITIAL, capital, symbol, candles, k)
  {
    BacktestCausality.SameWarmup(PluginOf(cfg.name, Machine(cfg)), costs, INITIAL, capital, symbol, candles, k);
  }
}
