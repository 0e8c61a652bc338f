/**
 "Research-to-live parity": the live engine and the replay harness are two different loops, and on
 one symbol's stream every registered strategy goes through the same states and emits the same
 signals in both.
 */
module Parity {
  import opened Market
  import opened Plugins
  import opened Harness
  import opened StrategyEngine
  import opened Wrappers

  /** What one bar, delivered as a TICK and then a CANDLE, does to a strategy and to its symbol's buffer. */
  function LiveBars<S>(
    p: Plugin<S>, l: Live<S>, buffer: seq<Candle>, size: nat, bars: seq<Candle>): (Live<S>, seq<Candle>) {
    if bars == [] then (l, buffer)
    else
      var n := |bars| - 1;
      var before := LiveBars(p, l, buffer, size, bars[..n]);
      (LiveTick(p, before.0, CandleToTick(bars[n]), Context(bars[n].symbol, before.1)),
       LastN(before.1 + [bars[n]], size))
  }

  ghost predicate SingleSymbol(symbol: string, bars: seq<Candle>) {
    forall i :: 0 <= i < |bars| ==> bars[i].symbol == symbol
  }

  /** The event bus delivering a stream of bars to the engine, in order and without a drop. */
  method Deliver<S(!new)>(engine: StrategyEngine<S>, symbol: string, bars: seq<Candle>)
    requires engine.Valid() && SingleSymbol(symbol, bars)
    modifies engine`states, engine`published, engine`buffers
    ensures engine.Valid()
    ensures forall n :: n in engine.plugins ==>
              (View(engine.Current(), n), engine.BufferOf(symbol))
              == LiveBars(engine.plugins[n], View(old(engine.Current()), n), old(engine.BufferOf(symbol)),
                          engine.bufferSize, bars)
  {
    ghost var before, buffer := engine.Current(), engine.BufferOf(symbol);
    for i := 0 to |bars|
      invariant engine.Valid()
      invariant forall n :: n in engine.plugins ==>
                  (View(engine.Current(), n), engine.BufferOf(symbol))
                  == LiveBars(engine.plugins[n], View(before, n), buffer, engine.bufferSize, bars[..i])
    {
      assert bars[..i + 1][..i] == bars[..i] && bars[i].symbol == symbol;
      engine.HandleTick(CandleToTick(bars[i]));
      engine.HandleCandle(bars[i]);
    }
    assert bars[..|bars|] == bars;
  }

  /** Harness and engine stay in step from any common point. */
  lemma {:induction false} InStep<S>(p: Plugin<S>, l: Live<S>, r: Replay<S>, buffer: seq<Candle>, bars: seq<Candle>)
    requires !l.failed && r.state == l.state && r.buffer == buffer && l.signals == r.report.signals
    requires SingleSymbol(r.report.symbol, bars)
    ensures var live, replay := LiveBars(p, l, buffer, HARNESS_BUFFER, bars), ReplayBars(p, r, bars);
            !live.0.failed && live.0.state == replay.state && live.1 == replay.buffer
            && replay.report.symbol == r.report.symbol && live.0.signals == replay.report.signals
  {
    if bars == [] {
    } else {
      InStep(p, l, r, buffer, bars[..|bars| - 1]);
    }
  }

  /**
   Parity, for any strategy: warmed on the same non-empty history without raising, the engine fed the
   later bars publishes exactly the signals the harness reports, ends in the same strategy state, and
   both context buffers hold the newest candles of the whole history.
   */
  lemma ResearchToLiveParity<S>(p: Plugin<S>, s0: S, history: seq<Candle>, bars: seq<Candle>)
    requires history != [] && SingleSymbol(history[0].symbol, history + bars)
    requires p.warm(s0, history).1
    ensures var live := LiveBars(p, LiveWarm(p, Live(s0, false, []), history), LastN(history, DEFAULT_BUFFER),
            DEFAULT_BUFFER, bars);
            var replay := ReplayBars(p, Start(p.warm(s0, history).0, history + bars, |history|), bars);
            live.0.signals == replay.report.signals
            && live.0.state == replay.state
            && live.1 == replay.buffer == LastN(history + bars, DEFAULT_BUFFER)
  {
    var warmed := p.warm(s0, history).0;
    var start := Start(warmed, history + bars, |history|);
    assert (history + bars)[..|history|] == history;
    assert SingleSymbol(history[0].symbol, bars) by {
      assert forall i :: 0 <= i < |bars| ==> bars[i] == (history + bars)[|history| + i];
    }
    InStep(p, Live(warmed, false, []), start, LastN(history, DEFAULT_BUFFER), bars);
    ReplayBuffer(p, start, history, bars);
  }

  // ----- warm-ups that are empty or raise

  /** What the engine makes of a warm-up on a freshly registered strategy; an empty one does nothing. */
  function LiveFrom<S>(p: Plugin<S>, s0: S, history: seq<Candle>): (Live<S>, seq<Candle>) {
    if history == [] then (Live(s0, false, []), [])
    else (LiveWarm(p, Live(s0, false, []), history), LastN(history, DEFAULT_BUFFER))
  }

  function LiveSignals<S>(p: Plugin<S>, s0: S, history: seq<Candle>, bars: seq<Candle>): seq<Signal> {
    var (l, buffer) := LiveFrom(p, s0, history);
    LiveBars(p, l, buffer, DEFAULT_BUFFER, bars).0.signals
  }

  /** What the harness reports. None: the warm-up raised, which it does not catch. */
  function ResearchSignals<S>(p: Plugin<S>, s0: S, history: seq<Candle>, bars: seq<Candle>): Option<seq<Signal>> {
    if history + bars == [] then Some([])
    else
      var (state, warmed) := p.warm(s0, history);
      if warmed then Some(ReplayBars(p, Start(state, history + bars, |history|), bars).report.signals) else None
  }

  predicate InParity<S>(p: Plugin<S>, s0: S, history: seq<Candle>, bars: seq<Candle>) {
    ResearchSignals(p, s0, history, bars) == Some(LiveSignals(p, s0, history, bars))
  }

  /** The warm-up completes, and where the engine skips it, it changes nothing. */
  predicate SameStart<S(==)>(w: (S, seq<Candle>) -> (S, bool), s0: S, history: seq<Candle>, bars: seq<Candle>) {
    history + bars == [] || (w(s0, history).1 && (history == [] ==> w(s0, history).0 == s0))
  }

  lemma SameStartAgrees<S>(p: Plugin<S>, s0: S, symbol: string, history: seq<Candle>, bars: seq<Candle>)
    requires SingleSymbol(symbol, history + bars) && SameStart(p.warm, s0, history, bars)
    ensures InParity(p, s0, history, bars)
  {
    if history != [] {
      assert history[0] == (history + bars)[0];
      ResearchToLiveParity(p, s0, history, bars);
    } else if bars != [] {
      assert history + bars == bars;
      InStep(p, Live(s0, false, []), Start(s0, bars, 0), [], bars);
    }
  }

  /** A strategy with the warm-up `w` that speaks on every bar while its state is as `when` says. */
  function Speaking<S>(w: (S, seq<Candle>) -> (S, bool), when: S -> bool): Plugin<S> {
    Plugin(
      "speaking",
      w,
      (s: S, tick: Tick, ctx: Context) =>
        (s, if when(s) then Emit(Signal("speaking", tick.symbol, Buy, 1, None)) else Silent))
  }

  lemma {:induction false} SpeaksLive<S>(
    w: (S, seq<Candle>) -> (S, bool), when: S -> bool, s: S, buffer: seq<Candle>, size: nat, bars: seq<Candle>)
    requires when(s)
    ensures var l := LiveBars(Speaking(w, when), Live(s, false, []), buffer, size, bars).0;
            l.state == s && !l.failed && |l.signals| == |bars|
  {
    if bars == [] {
    } else {
      SpeaksLive(w, when, s, buffer, size, bars[..|bars| - 1]);
    }
  }

  lemma {:induction false} SilentReplay<S>(
    w: (S, seq<Candle>) -> (S, bool), when: S -> bool, r: Replay<S>, bars: seq<Candle>)
    requires !when(r.state)
    ensures var r' := ReplayBars(Speaking(w, when), r, bars);
            r'.state == r.state && r'.report.signals == r.report.signals
  {
    if bars == [] {
    } else {
      SilentReplay(w, when, r, bars[..|bars| - 1]);
    }
  }

  /** The engine skips an empty warm-up; a strategy that speaks only where it skipped it tells the two apart. */
  lemma SkippedWarmupShows<S>(w: (S, seq<Candle>) -> (S, bool), s0: S, when: S -> bool, bars: seq<Candle>)
    requires bars != [] && when(s0) && !when(w(s0, []).0)
    ensures !InParity(Speaking(w, when), s0, [], bars)
  {
    assert [] + bars == bars;
    assert |LiveSignals(Speaking(w, when), s0, [], bars)| == |bars| by {
      SpeaksLive(w, when, s0, [], DEFAULT_BUFFER, bars);
    }
    SilentReplay(w, when, Start(w(s0, []).0, bars, 0), bars);
  }

  /**
   Parity, exactly. Whatever a strategy does on its ticks, live and research agree if and only if the
   warm-up completes and, where it is empty, leaves the strategy as it was.
   */
  lemma ParityExact<S(!new)>(
    w: (S, seq<Candle>) -> (S, bool), s0: S, symbol: string, history: seq<Candle>, bars: seq<Candle>)
    requires SingleSymbol(symbol, history + bars)
    ensures (forall p: Plugin<S> :: p.warm == w ==> InParity(p, s0, history, bars)) <==> SameStart(w, s0, history, bars)
  {
    if SameStart(w, s0, history, bars) {
      forall p: Plugin<S> | p.warm == w ensures InParity(p, s0, history, bars) {
        SameStartAgrees(p, s0, symbol, history, bars);
      }
    } else {
      ghost var when := (s: S) => s == s0;
      var p := Speaking(w, when);
      if w(s0, history).1 {
        SkippedWarmupShows(w, s0, when, bars);
      }
      assert p.warm == w && !InParity(p, s0, history, bars);
    }
  }

  /** A strategy that is disabled stays where it is, whatever comes. */
  lemma {:induction false} DisabledStays<S>(p: Plugin<S>, l: Live<S>, buffer: seq<Candle>, size: nat, bars: seq<Candle>)
    requires l.failed
    ensures LiveBars(p, l, buffer, size, bars).0 == l
  {
    if bars == [] {
    } else {
      DisabledStays(p, l, buffer, size, bars[..|bars| - 1]);
    }
  }

  /** A warm-up that raises ends the research run, and silences the live strategy whatever bars follow. */
  lemma RaisingWarmup<S>(p: Plugin<S>, s0: S, history: seq<Candle>, bars: seq<Candle>)
    requires history != [] && !p.warm(s0, history).1
    ensures ResearchSignals(p, s0, history, bars).None? && LiveSignals(p, s0, history, bars) == []
  {
    var (l, buffer) := LiveFrom(p, s0, history);
    DisabledStays(p, l, buffer, DEFAULT_BUFFER, bars);
  }

  // ----- the running objects

  /** An engine with any number of strategies against one call of the harness. */
  method LiveMatchesResearch<S(!new, ==)>(
    plugins: seq<Plugin<S>>, s0: S, symbol: string, history: seq<Candle>, bars: seq<Candle>, k: nat)
    returns (live: seq<Signal>, research: Option<seq<Signal>>)
    requires k < |plugins| && SingleSymbol(symbol, history + bars)
    requires forall i, j :: 0 <= i < j < |plugins| ==> plugins[i].name != plugins[j].name
    ensures live == LiveSignals(plugins[k], s0, history, bars)
    ensures research == ResearchSignals(plugins[k], s0, history, bars)
    ensures SameStart(plugins[k].warm, s0, history, bars) ==> research == Some(live)
    ensures history != [] && !plugins[k].warm(s0, history).1 ==> research.None? && live == []
  {
    var p := plugins[k];
    live := RunLive(plugins, s0, symbol, history, bars, k);
    research := RunResearch(p, s0, history, bars);
    if SameStart(p.warm, s0, history, bars) {
      SameStartAgrees(p, s0, symbol, history, bars);
    }
    if history != [] && !p.warm(s0, history).1 {
      RaisingWarmup(p, s0, history, bars);
    }
  }

  method RunResearch<S>(
    p: Plugin<S>, s0: S, history: seq<Candle>, bars: seq<Candle>) returns (research: Option<seq<Signal>>)
    ensures research == ResearchSignals(p, s0, history, bars)
  {
    var result := RunBacktest(p, s0, history + bars, Some(|history|));
    assert (history + bars)[..|history|] == history && (history + bars)[|history|..] == bars;
    research := if result.Success? then Some(result.value.report.signals) else None;
  }

  /** A strategy just registered, in its first state. */
  ghost predicate Registered<S(!new)>(engine: StrategyEngine<S>, p: Plugin<S>, s0: S)
    reads engine
  {
    && p.name in engine.plugins && engine.plugins[p.name] == p
    && p.name in engine.states && engine.states[p.name] == s0
  }

  method EngineWith<S(!new)>(plugins: seq<Plugin<S>>, s0: S) returns (engine: StrategyEngine<S>)
    requires forall i, j :: 0 <= i < j < |plugins| ==> plugins[i].name != plugins[j].name
    ensures fresh(engine) && engine.Valid() && engine.bufferSize == DEFAULT_BUFFER && engine.buffers == map[]
    ensures engine.published == [] && engine.failed == {}
    ensures forall i :: 0 <= i < |plugins| ==> Registered(engine, plugins[i], s0)
  {
    engine := new StrategyEngine<S>(DEFAULT_BUFFER);
    for i := 0 to |plugins|
      invariant fresh(engine) && engine.Valid() && engine.bufferSize == DEFAULT_BUFFER
      invariant engine.published == [] && engine.failed == {} && engine.buffers == map[]
      invariant forall j :: 0 <= j < i ==> Registered(engine, plugins[j], s0)
    {
      engine.Register(plugins[i], s0);
    }
  }

  method WarmedEngine<S(!new)>(plugins: seq<Plugin<S>>, s0: S, symbol: string, history: seq<Candle>, k: nat)
    returns (engine: StrategyEngine<S>)
    requires k < |plugins| && (history != [] ==> history[0].symbol == symbol)
    requires forall i, j :: 0 <= i < j < |plugins| ==> plugins[i].name != plugins[j].name
    ensures fresh(engine) && engine.Valid() && engine.bufferSize == DEFAULT_BUFFER
    ensures var n := plugins[k].name;
            && n in engine.plugins && engine.plugins[n] == plugins[k]
            && (View(engine.Current(), n), engine.BufferOf(symbol)) == LiveFrom(plugins[k], s0, history)
  {
    engine := EngineWith(plugins, s0);
    ghost var n := plugins[k].name;
    assert Registered(engine, plugins[k], s0);
    assert View(engine.Current(), n) == Live(s0, false, []);
    engine.Warmup(history);
    assert View(engine.Current(), n) == LiveFrom(plugins[k], s0, history).0;
  }

  method RunLive<S(!new)>(
    plugins: seq<Plugin<S>>, s0: S, symbol: string, history: seq<Candle>, bars: seq<Candle>, k: nat)
    returns (live: seq<Signal>)
    requires k < |plugins| && SingleSymbol(symbol, history + bars)
    requires forall i, j :: 0 <= i < j < |plugins| ==> plugins[i].name != plugins[j].name
    ensures live == LiveSignals(plugins[k], s0, history, bars)
  {
    assert history != [] ==> history[0] == (history + bars)[0];
    var engine := WarmedEngine(plugins, s0, symbol, history, k);
    assert SingleSymbol(symbol, bars) by {
      assert forall i :: 0 <= i < |bars| ==> bars[i] == (history + bars)[|history| + i];
    }
    Deliver(engine, symbol, bars);
    live := engine.SignalsBy(plugins[k].name);
  }
}
