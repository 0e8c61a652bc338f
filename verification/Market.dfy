/** Candles, ticks and signals (core/marketdata/models.py, core/strategy/base.py). */
module Market {
  import opened Wrappers

  /** Signal.__post_init__ refuses a quantity below one, so no signal ever carries one. */
  type Lots = n: int | n >= 1 witness 1

  /** ... and a price, when given, is positive. */
  type Price = x: real | x > 0.0 witness 1.0

  datatype Candle = Candle(
    symbol: string, open: real, high: real, low: real, close: real,
    volume: int, timestamp: int, market: string)

  datatype Tick = Tick(symbol: string, price: real, volume: int, timestamp: int, market: string)

  datatype Context = Context(symbol: string, recent: seq<Candle>)

  datatype Side = Buy | Sell

  /** A signal without its free-text reason and its creation time. */
  datatype Signal = Signal(strategy: string, symbol: string, side: Side, qty: Lots, price: Option<Price>)

  /** Both the harness and the backtest feed a bar's close as the tick. */
  function CandleToTick(c: Candle): Tick {
    Tick(c.symbol, c.close, c.volume, c.timestamp, c.market)
  }

  function Closes(cs: seq<Candle>): seq<real> {
    seq(|cs|, i requires 0 <= i < |cs| => cs[i].close)
  }

  /** The last `size` candles: the contents of a deque with that `maxlen`. */
  function LastN(cs: seq<Candle>, size: nat): (r: seq<Candle>)
    ensures |r| <= size && (|r| == size || |r| == |cs|) && |r| <= |cs| && r == cs[|cs| - |r|..]
  {
    if |cs| <= size then cs else cs[|cs| - size..]
  }

  /** Appending to a full deque drops from the left; the window over the whole history is the same. */
  lemma LastNAppend(cs: seq<Candle>, c: Candle, size: nat)
    ensures LastN(LastN(cs, size) + [c], size) == LastN(cs + [c], size)
  {
  }

  /** The candle reflected at half the axis: every price x becomes axis - x, so high and low trade places. */
  function Mirror(axis: real, bar: Candle): Candle {
    bar.(open := axis - bar.open, high := axis - bar.low, low := axis - bar.high, close := axis - bar.close)
  }

  function MirrorAll(axis: real, cs: seq<Candle>): seq<Candle> {
    seq(|cs|, i requires 0 <= i < |cs| => Mirror(axis, cs[i]))
  }
}
