/** The live engine (core/strategy/engine.py): plugins, candle ring buffers and the event handlers. */
module StrategyEngine {
  import opened Market
  import opened Plugins
  import opened Wrappers

  const DEFAULT_BUFFER: nat := 200

  /** One registered strategy, as seen from outside: its state, whether it is disabled, what it published. */
  datatype Live<!S> = Live(state: S, failed: bool, signals: seq<Signal>)

  function LiveTick<S>(p: Plugin<S>, l: Live<S>, tick: Tick, ctx: Context): Live<S> {
    if l.failed then l
    else
      var (state, out) := p.tick(l.state, tick, ctx);
      Live(state, false, l.signals + SignalsOf(out))
  }

  function LiveWarm<S>(p: Plugin<S>, l: Live<S>, history: seq<Candle>): Live<S> {
    var (state, warmed) := p.warm(l.state, history);
    Live(state, l.failed || !warmed, l.signals)
  }

  /** The signals one strategy has published, in order. */
  function PublishedBy(name: string, log: seq<(string, Signal)>): seq<Signal> {
    if log == [] then []
    else
      var n := |log| - 1;
      PublishedBy(name, log[..n]) + if log[n].0 == name then [log[n].1] else []
  }

  lemma PublishedBySnoc(name: string, log: seq<(string, Signal)>, entry: (string, Signal))
    ensures PublishedBy(name, log + [entry])
            == PublishedBy(name, log) + if entry.0 == name then [entry.1] else []
  {
    assert (log + [entry])[..|log|] == log;
  }

  // ----- what the handlers do, one strategy after another

  /** Everything the strategies' calls change. */
  datatype Board<!S> = Board(states: map<string, S>, failed: set<string>, published: seq<(string, Signal)>)

  function View<S>(b: Board<S>, name: string): Live<S>
    requires name in b.states
  {
    Live(b.states[name], name in b.failed, PublishedBy(name, b.published))
  }

  predicate Registers<S>(plugins: map<string, Plugin<S>>, b: Board<S>, names: seq<string>) {
    forall n :: n in names ==> n in plugins && n in b.states
  }

  predicate Distinct(names: seq<string>) {
    forall i, j :: 0 <= i < j < |names| ==> names[i] != names[j]
  }

  /** A disabled strategy is skipped; any other sees the tick and may publish, or raise with its state changed. */
  function Ticked<S>(b: Board<S>, name: string, p: Plugin<S>, tick: Tick, ctx: Context): (b': Board<S>)
    requires name in b.states
    ensures b'.states.Keys == b.states.Keys
  {
    if name in b.failed then b
    else
      var (state, out) := p.tick(b.states[name], tick, ctx);
      b.(states := b.states[name := state],
         published := match out case Emit(s) => b.published + [(name, s)] case _ => b.published)
  }

  lemma TickedView<S>(b: Board<S>, name: string, p: Plugin<S>, tick: Tick, ctx: Context, n: string)
    requires name in b.states && n in b.states
    ensures View(Ticked(b, name, p, tick, ctx), n)
            == if n == name then LiveTick(p, View(b, n), tick, ctx) else View(b, n)
  {
    if name !in b.failed {
      match p.tick(b.states[name], tick, ctx).1
      case Emit(s) => PublishedBySnoc(n, b.published, (name, s));
      case _ => assert PublishedBy(n, b.published) + [] == PublishedBy(n, b.published);
    }
  }

  function TickedAll<S>(
    b: Board<S>, plugins: map<string, Plugin<S>>, names: seq<string>, tick: Tick, ctx: Context): (b': Board<S>)
    requires Registers(plugins, b, names)
    ensures b'.states.Keys == b.states.Keys
  {
    if names == [] then b
    else
      var last := names[|names| - 1];
      Ticked(TickedAll(b, plugins, names[..|names| - 1], tick, ctx), last, plugins[last], tick, ctx)
  }

  /** No strategy's tick touches another, so the order does not matter. */
  lemma {:induction false} TickedAllView<S>(
    b: Board<S>, plugins: map<string, Plugin<S>>, names: seq<string>, tick: Tick, ctx: Context, n: string)
    requires Registers(plugins, b, names) && Distinct(names) && n in b.states
    ensures View(TickedAll(b, plugins, names, tick, ctx), n)
            == if n in names then LiveTick(plugins[n], View(b, n), tick, ctx) else View(b, n)
  {
    if names == [] {
    } else {
      var k := |names| - 1;
      assert names == names[..k] + [names[k]];
      TickedAllView(b, plugins, names[..k], tick, ctx, n);
      TickedView(TickedAll(b, plugins, names[..k], tick, ctx), names[k], plugins[names[k]], tick, ctx, n);
    }
  }

  /** A warm-up that raises disables its strategy and keeps whatever it had already changed. */
  function Warmed<S>(b: Board<S>, name: string, p: Plugin<S>, history: seq<Candle>): (b': Board<S>)
    requires name in b.states
    ensures b'.states.Keys == b.states.Keys
  {
    var (state, warmed) := p.warm(b.states[name], history);
    b.(states := b.states[name := state], failed := if warmed then b.failed else b.failed + {name})
  }

  function WarmedAll<S>(
    b: Board<S>, plugins: map<string, Plugin<S>>, names: seq<string>, history: seq<Candle>): (b': Board<S>)
    requires Registers(plugins, b, names)
    ensures b'.states.Keys == b.states.Keys
  {
    if names == [] then b
    else
      var last := names[|names| - 1];
      Warmed(WarmedAll(b, plugins, names[..|names| - 1], history), last, plugins[last], history)
  }

  lemma {:induction false} WarmedAllView<S>(
    b: Board<S>, plugins: map<string, Plugin<S>>, names: seq<string>, history: seq<Candle>, n: string)
    requires Registers(plugins, b, names) && Distinct(names) && n in b.states
    ensures View(WarmedAll(b, plugins, names, history), n)
            == if n in names then LiveWarm(plugins[n], View(b, n), history) else View(b, n)
  {
    if names == [] {
    } else {
      var k := |names| - 1;
      assert names == names[..k] + [names[k]];
      WarmedAllView(b, plugins, names[..k], history, n);
    }
  }

  class StrategyEngine<S(!new)> {
    const bufferSize: nat
    /** Names in registration order, which is the order the handlers visit them in. */
    var order: seq<string>
    var plugins: map<string, Plugin<S>>
    var states: map<string, S>
    var buffers: map<string, seq<Candle>>
    var failed: set<string>
    /** SIGNAL events published so far, each with the name of the strategy that caused it. */
    var published: seq<(string, Signal)>

    ghost predicate Valid()
      reads this
    {
      && Distinct(order) && Registers(plugins, Current(), order)
      && (forall n :: n in plugins ==> n in order)
    }

    function Current(): Board<S>
      reads this
    {
      Board(states, failed, published)
    }

    function BufferOf(symbol: string): seq<Candle>
      reads this
    {
      if symbol in buffers then buffers[symbol] else []
    }

    constructor (bufferSize: nat)
      ensures Valid() && this.bufferSize == bufferSize
      ensures order == [] && plugins == map[] && buffers == map[] && failed == {} && published == []
    {
      this.bufferSize := bufferSize;
      order, plugins, states, buffers, failed, published := [], map[], map[], map[], {}, [];
    }

    /** A name already taken is overwritten in place and loses its failure mark. */
    method Register(p: Plugin<S>, s0: S)
      requires Valid()
      modifies this
      ensures Valid()
      ensures plugins == old(plugins)[p.name := p] && states == old(states)[p.name := s0]
      ensures failed == old(failed) - {p.name}
      ensures buffers == old(buffers) && published == old(published)
      ensures order == if p.name in old(plugins) then old(order) else old(order) + [p.name]
    {
      if p.name !in plugins {
        order := order + [p.name];
      }
      plugins := plugins[p.name := p];
      states := states[p.name := s0];
      failed := failed - {p.name};
    }

    /** Warm-up on an empty history does nothing at all, not even call the strategies. */
    method Warmup(history: seq<Candle>)
      requires Valid()
      modifies this`buffers, this`states, this`failed
      ensures Valid()
      ensures history == [] ==> buffers == old(buffers) && Current() == old(Current())
      ensures history != [] ==> buffers == old(buffers)[history[0].symbol := LastN(history, bufferSize)]
      ensures history != [] ==>
                forall n :: n in plugins ==>
                  View(Current(), n) == LiveWarm(plugins[n], View(old(Current()), n), history)
    {
      if history == [] {
        return;
      }
      buffers := buffers[history[0].symbol := LastN(history, bufferSize)];
      ghost var before := Current();
      WarmAll(history);
      forall n | n in plugins ensures View(Current(), n) == LiveWarm(plugins[n], View(before, n), history) {
        WarmedAllView(before, plugins, order, history, n);
      }
    }

    method WarmAll(history: seq<Candle>)
      requires Valid()
      modifies this`states, this`failed
      ensures Valid() && Current() == WarmedAll(old(Current()), plugins, order, history)
    {
      ghost var before := Current();
      for i := 0 to |order|
        invariant Registers(plugins, before, order) && Registers(plugins, Current(), order)
        invariant Current() == WarmedAll(before, plugins, order[..i], history)
      {
        assert order[..i + 1][..i] == order[..i];
        WarmOne(order[i], history);
      }
      assert order[..|order|] == order;
    }

    method WarmOne(name: string, history: seq<Candle>)
      requires name in plugins && name in states
      modifies this`states, this`failed
      ensures Current() == Warmed(old(Current()), name, plugins[name], history)
    {
      var warmed := plugins[name].warm(states[name], history);
      states := states[name := warmed.0];
      if !warmed.1 {
        failed := failed + {name};
      }
    }

    /** Every strategy that is not disabled sees the tick; an exception stays inside that strategy. */
    method HandleTick(tick: Tick)
      requires Valid()
      modifies this`states, this`published
      ensures Valid()
      ensures var ctx := Context(tick.symbol, BufferOf(tick.symbol));
              forall n :: n in plugins ==>
                View(Current(), n) == LiveTick(plugins[n], View(old(Current()), n), tick, ctx)
    {
      var ctx := Context(tick.symbol, BufferOf(tick.symbol));
      ghost var before := Current();
      TickAll(tick, ctx);
      forall n | n in plugins ensures View(Current(), n) == LiveTick(plugins[n], View(before, n), tick, ctx) {
        TickedAllView(before, plugins, order, tick, ctx, n);
      }
    }

    method TickAll(tick: Tick, ctx: Context)
      requires Valid()
      modifies this`states, this`published
      ensures Valid() && Current() == TickedAll(old(Current()), plugins, order, tick, ctx)
    {
      ghost var before := Current();
      for i := 0 to |order|
        invariant Registers(plugins, before, order) && Registers(plugins, Current(), order)
        invariant Current() == TickedAll(before, plugins, order[..i], tick, ctx)
      {
        assert order[..i + 1][..i] == order[..i];
        TickOne(order[i], tick, ctx);
      }
      assert order[..|order|] == order;
    }

    method TickOne(name: string, tick: Tick, ctx: Context)
      requires name in plugins && name in states
      modifies this`states, this`published
      ensures Current() == Ticked(old(Current()), name, plugins[name], tick, ctx)
    {
      if name in failed {
        return;
      }
      var r := plugins[name].tick(states[name], tick, ctx);
      states := states[name := r.0];
      match r.1 {
        case Emit(s) => published := published + [(name, s)];
        case _ =>
      }
    }

    /** What a subscriber to SIGNAL events that listens for one strategy has collected. */
    method SignalsBy(name: string) returns (signals: seq<Signal>)
      ensures signals == PublishedBy(name, published)
    {
      signals := [];
      for i := 0 to |published|
        invariant signals == PublishedBy(name, published[..i])
      {
        assert published[..i + 1] == published[..i] + [published[i]];
        PublishedBySnoc(name, published[..i], published[i]);
        if published[i].0 == name {
          signals := signals + [published[i].1];
        }
      }
      assert published[..|published|] == published;
    }

    method HandleCandle(candle: Candle)
      requires Valid()
      modifies this`buffers
      ensures Valid()
      ensures buffers == old(buffers)[candle.symbol := LastN(old(BufferOf(candle.symbol)) + [candle], bufferSize)]
    {
      buffers := buffers[candle.symbol := LastN(BufferOf(candle.symbol) + [candle], bufferSize)];
    }
  }
}
