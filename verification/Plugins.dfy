/**
 A strategy plugin as its engines see it (core/strategy/base.py): a warm-up and a tick step over a
 state of its own, either of which may raise after having changed that state.
 */
module Plugins {
  import opened Market

  datatype Outcome = Silent | Emit(signal: Signal) | Raise

  /** `warm` returns whether it completed. */
  datatype Plugin<!S> = Plugin(
    name: string,
    warm: (S, seq<Candle>) -> (S, bool),
    tick: (S, Tick, Context) -> (S, Outcome))

  function SignalsOf(out: Outcome): seq<Signal> {
    match out
    case Emit(s) => [s]
    case _ => []
  }
}
