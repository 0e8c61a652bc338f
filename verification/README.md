# Verified model of the trading core

The repository runs strategies over market candles, gates their signals, sends orders to one broker and
keeps its own record of orders and positions; a replay harness and a daily backtest share the strategies.
This project models that core and proves what it relies on. Prices, quantities and rates are exact reals
where the source uses floats, `int()` is truncation and `round()` rounds half to even. Classes whose
methods update fields stay classes, list-building loops stay loops, and each is proved against a function
that the theorems about whole runs then speak of.

## What is modelled

- **The leverage/inverse strategy** (`Indicators`, `LeverageInverse`): five phases driven by DEMA, CCI and
  Stochastic. `MirrorSimulation` proves that its long and short halves, written separately in the source,
  are mirror images over every run. `Ledger` proves when its own estimate of what it holds is right, and
  `LedgerWitness` gives candles on which it is not. `PartialExits` proves for which parameters a partial exit
  can happen at all, over direct calls and over a market's bars in a bounded buffer, and so when the estimate
  and the promised share are right for a configuration; `Surges` reads the indicators off the stream of bars
  this needs. `StrategyRuns` carries the theorems through the replay harness to whole histories.
  `TradingRules` states what one call decides in the inequalities of `specs/trade.md`, and `Formulas` every
  indicator value in prices.
- **The engines** (`Harness`, `StrategyEngine`, `Parity`): two different loops, one live and one for
  research, proved to take any strategy through the same states and signals.
- **The order table** (`OrderTable`, `OrderExecutor`, `OrderFeeds`): `OrderProtocol` is the shared table as
  a state machine whose steps lie between awaits: submissions, the broker, listings, polls, orders placed
  in the broker's own app, commits and crashes, in any interleaving. `OrderRefinement` shows that submit and
  both feeds' sync_once are runs of those steps. `FrozenBroker` is about both feeds when the broker does not change.
- **The backtest** (`Backtest`, `BacktestCausality`, `BacktestMoney`, `BacktestFriction`, `Metrics`,
  `PairFit`): next-open fills, friction that never helps, conservation, solvency, attribution of profit, drawdown, pairing and what pairing by count costs.
- **The edges** (`DataSource`, `PositionSync`, `Risk`, `RiskDecisions`): the paged candle fetch against a plain filter, the
  position table and its change events, the risk gate and the control handlers.

`Machines` holds what is true of a run of any deterministic step function; `Arithmetic` and `Market` hold
the shared numbers and values; `Plugins` is a strategy as its engines see it.

## Where a promise needs a condition

Each of these is a promise of the code's own text that does not hold as it stands. The model follows the
code; the theorems named say exactly when the promise holds, and where the condition alone does not show it they
give an input on which it fails.

- A partial exit is documented to sell a third to a half of the position (strategy file, line 388;
  `specs/trade.md`, lines 90 and 99). The rounding, its floor of one lot and the configured ratio decide.
  Exactly when: `PartialExits.ShareDecided` for a configuration, `PartialExits.ShareDecidedThrough` through an
  engine's buffer. With the default ratio only a single lot misses it: `PartialExits.DefaultShare`. Other
  inputs: `PartialExits.ShareMissed`.
- The strategy keeps no fills and uses its own estimate as it is when it exits fully (strategy file, lines
  14-17). With `qty_per_unit` 1 a partial exit sells everything, the phase stays partial, and the later full
  exit falls back to a whole unit (line 373) that was never bought. Exactly when the estimate is right:
  `PartialExits.LedgerDecided` for a configuration, `PartialExits.LedgerDecidedThrough` through an engine's
  buffer, `Ledger.LedgerExact` by run. The input: `LedgerWitness.OversellsOneLot`.
- The substitute id `toss-native-...` is said to mark orders the bot did not make (`core/store/db.py`,
  lines 257-259). A listing without client id that arrives before the acknowledgement is recorded files the
  bot's own order under it, and the acknowledgement then duplicates the broker id. Exactly when:
  `OrderProtocol.TimelyExact`. The run: `OrderRefinement.DuplicateReachable`.
- The backtest is said to prevent look-ahead (`core/backtest/engine.py`, lines 3 and 147), and its bar loop
  does; but `warmup(candles[:-1])` on line 192 shows the strategy later bars. Exactly when:
  `BacktestCausality.WarmupDecides`. The input: `BacktestCausality.WarmupLooksAhead`. The leverage/inverse
  strategy is safe: `StrategyRuns.BacktestHasNoLookAhead`.
- Win rate and profit ratio are counted over pairs of trades (`core/backtest/metrics.py`, lines 130-153),
  whatever their lots, so a partial exit is booked against the whole purchase. Exactly when wins and losses
  of the lots sold are told apart rightly: `PairFit.ClassifiesExactly` for given purchases, `PairFit.LotsDecide`
  whatever the prices; then the ratio's totals are right too: `PairFit.TotalsAgree`. The inputs:
  `PairFit.DoubledButLost` and `PairFit.SoldOverTwoPurchases`.
- Live and research are said to be in parity (`core/strategy/harness.py`, lines 7-9). The engine ignores an
  empty warm-up and disables a strategy whose warm-up raises, where the harness warms on nothing and lets
  the exception escape. Exactly when: `Parity.ParityExact`. The failing cases: `Parity.SkippedWarmupShows`
  and `Parity.RaisingWarmup`.
- The KILL level is said to need a restart (`core/api/routes/control.py`, line 52); `reset_halt` also clears
  it. Exactly when: `Risk.KillUntilReset`. The run: `Risk.ResetLiftsKill`.
- A symbol bought again after it was closed is announced as "updated", not "opened", because its row
  remains with quantity 0. Exactly when: `PositionSync.OpenedOnlyOnce`. The input:
  `PositionSync.BuyCloseBuyAgain`. A subscriber that treats both alike follows the broker all the same:
  `PositionSync.FollowBroker`.
- The backfill flag is exact, but 5000 closed orders are all a first sync can take in:
  `FrozenBroker.BackfillExact`. Likewise a candle fetch stops at 100000 candles, and without a start date at
  one page: `DataSource.FetchRange`.
- A drawdown is a ratio only while equity stays non-negative: `Metrics.RatioExact`; `BacktestMoney.RunSolvent`
  says which rates and prices guarantee that.

## Assumptions a reader should know

- Broker listings are truthful: an order is echoed with its own client id or with none. Broker ids are
  never reused. The bot's client ids are non-empty and do not begin with `toss-native-`. Broker and local
  environment are the single one the source writes, `prod`.
- A `SELECT ... fetchone` without ordering returns any one of the matching rows; theorems hold for every choice.
- In `FrozenBroker`, cursors serve the closed orders in consecutive pages of 50, and the single open call
  returns the first 100 of the open orders, none of which has ended.
- In `Parity`, one symbol's bars arrive as TICK then CANDLE, and the bus drops nothing.
- No halt level blocks a sale, and the gate does not clamp one to the holding; in `Risk`, settlement does.
- In `Risk`, an approved order settles before the next evaluation, at no more than its quantity and, for a
  purchase, its limit; the clock's day does not run backwards; the reduction ratio lies between 0 and 1.
- In `DataSource`, the history is static with distinct times.

## Model

| member | source | states |
|---|---|---|
| `StrategyRuns.MirrorReplay` | core/strategy/plugins/leverage_inverse_strategy.py:124-403 | Over whole replayed histories: reflecting every candle at any axis (each price x becomes axis - x, high and low swapped) makes the strategy emit the same sides and quantities with the two products exchanged, when the two halves have symmetric thresholds |
| `MirrorSimulation.MirrorRun` | core/strategy/plugins/leverage_inverse_strategy.py:124-403 | The same for any run from any state and any axis: states, inputs and signals mirror step for step |
| `MirrorSimulation.StepMirror` | core/strategy/plugins/leverage_inverse_strategy.py:124-144 | One on_tick of the mirrored state on mirrored input is the mirror of on_tick, wrong symbol and missing indicators included |
| `MirrorSimulation.DecideMirror` | core/strategy/plugins/leverage_inverse_strategy.py:137-144 | The five-phase dispatch commutes with exchanging the two halves |
| `MirrorSimulation.ReadingsMirror` | core/strategy/plugins/leverage_inverse_strategy.py:160-185 | On the reflected bars the DEMA is reflected at the same axis, CCI and signal line are negated, %D is complemented to 100, and they are missing exactly when the originals are |
| `MirrorSimulation.EntryMirror` | core/strategy/plugins/leverage_inverse_conditions.py:164-241 | Each entry evaluation on mirrored data is the other one on the original data, field by field |
| `MirrorSimulation.CoreMirror` | core/strategy/plugins/leverage_inverse_conditions.py:164-241 | The three core conditions of the two entries exchange under mirroring whatever the thresholds are |
| `MirrorSimulation.TryEntriesMirror` | core/strategy/plugins/leverage_inverse_strategy.py:191-213 | Entering mirrors although the leverage side is always asked first, because the two entries exclude each other |
| `MirrorSimulation.ConfirmationsMirror` | core/strategy/plugins/leverage_inverse_strategy.py:278-339 | The confirmations that a leverage position has turned, counted on mirrored data, are those of an inverse position, and the other way round |
| `MirrorSimulation.ManageLeverageMirror` | core/strategy/plugins/leverage_inverse_strategy.py:269-309 | Managing a leverage position mirrors to managing an inverse one: full exit, first warning and seen flag |
| `MirrorSimulation.ManageInverseMirror` | core/strategy/plugins/leverage_inverse_strategy.py:315-365 | And the other way round |
| `LeverageInverse.EntriesExclusive` | core/strategy/plugins/leverage_inverse_conditions.py:164-241 | No readings satisfy both entries at once |
| `TradingRules.WatchingRule` | core/strategy/plugins/leverage_inverse_strategy.py:191-263 | From watching, one unit of the leverage product is bought iff DEMA steepens, CCI is above 0 and was not or crossed its signal line, the close tops DEMA and every high of the last N bars, and %D is below overbought; the inverse product iff the mirrored inequalities hold; else nothing |
| `TradingRules.LeverageRule` | core/strategy/plugins/leverage_inverse_strategy.py:269-309 | A leverage position is sold whole iff two of three hold: CCI below 0, DEMA flattens, close below DEMA and every low of the last N bars; else CCI at the warning is remembered, and once seen a fall below the signal line sells the share nearest to q*ratio (ties to even, within 1 and q), once |
| `TradingRules.InverseRule` | core/strategy/plugins/leverage_inverse_strategy.py:315-365 | The same for an inverse position, in its own inequalities |
| `TradingRules.OtherwiseStill` | core/strategy/plugins/leverage_inverse_strategy.py:124-136 | On another symbol, or with too few bars for any one indicator, nothing changes and nothing is signalled |
| `TradingRules.PartialQtyShare` | core/strategy/plugins/leverage_inverse_strategy.py:389-392 | The share of a partial exit is the integer nearest to q*ratio, the even one of two, raised to 1 and cut to q, and no other number |
| `IndicatorLaws.DemaReflect` | core/strategy/indicators/dema.py:40-62 | The DEMA of reflected values c - x is the reflected DEMA |
| `IndicatorLaws.EmaReflect` | core/strategy/indicators/dema.py:16-37 | The EMA, seeded by a plain mean, commutes with x -> c - x |
| `IndicatorLaws.SmaReflect` | core/strategy/indicators/ma.py:43-63 | So does every moving average |
| `IndicatorLaws.CciMirror` | core/strategy/indicators/cci.py:36-66 | The CCI list changes sign on mirrored bars, flat windows included |
| `IndicatorLaws.KMirror` | core/strategy/indicators/stochastic.py:38-55 | %K of mirrored bars is 100 - %K, flat windows included |
| `IndicatorLaws.SwingMirror` | core/strategy/indicators/swing.py:20-57 | The swing high of reflected bars is the reflected swing low and conversely, missing together |
| `IndicatorLaws.CrossMirror` | core/strategy/indicators/cci.py:92-143 | Negation turns golden crosses into dead crosses and dead crosses into golden ones |
| `IndicatorLaws.SlopeMirror` | core/strategy/indicators/dema.py:65-96 | Reflection turns upward slopes into downward ones, in both directions |
| `Ledger.LedgerExact` | core/strategy/plugins/leverage_inverse_strategy.py:371-403 | At every point of a run the estimate equals BUY minus SELL per product and is 0 iff watching, with at most one product held: exactly when max(1, round(q*ratio)) < q or no partial exit happens in the run |
| `PartialExits.LedgerDecided` | core/strategy/plugins/leverage_inverse_strategy.py:371-403 | For a configuration, over all sequences of on_tick calls: the estimate is right at every point of every run exactly when max(1, round(q*ratio)) < q, or both CCI warnings lie beyond cci_period/0.03 |
| `PartialExits.LedgerDecidedThrough` | core/strategy/plugins/leverage_inverse_strategy.py:371-403 | The same over everything an engine whose buffer holds n candles shows of a market's bars (positive prices, each bar inside its range, in time order): exactly when a lot remains, or no warning is in reach, or the indicators need more than n bars |
| `PartialExits.ShareDecided` | core/strategy/plugins/leverage_inverse_strategy.py:387-403 | Over every run every partial exit sells w of the q lots held with q <= 3*w and 2*w <= q, if and only if w = min(q, max(1, round(q*ratio))) satisfies that for the configured q, or both warnings are out of reach |
| `PartialExits.ShareDecidedThrough` | core/strategy/plugins/leverage_inverse_strategy.py:387-403 | The same over everything an engine with a buffer of n candles shows of a market's bars, the promise then also holding when the indicators need more than n bars |
| `PartialExits.ShareExactFor` | core/strategy/plugins/leverage_inverse_strategy.py:387-403 | One run keeps the promised share exactly when the configured part is such a share or the run makes no partial exit |
| `PartialExits.DefaultShare` | core/strategy/plugins/leverage_inverse_conditions.py:65-65 | With the default ratio 0.4 the promised share is met for every quantity except a single lot |
| `PartialExits.ShareMissed` | core/strategy/plugins/leverage_inverse_strategy.py:387-403 | With other allowed ratios it is missed although lots remain: 0.35 sells one of four lots, 0.9 sells nine of ten |
| `PartialExits.PartialExitReachable` | core/strategy/plugins/leverage_inverse_strategy.py:269-365 | Some sequence of on_tick calls reaches a partial exit if and only if the overbought or the negated oversold warning is at most cci_period/0.03 |
| `PartialExits.ReplayReachable` | core/strategy/harness.py:95-133 | Some replay of a market's bars through the 200-candle harness buffer reaches a partial exit if and only if a warning is at most cci_period/0.03 and the slowest indicator warms up within 200 bars |
| `PartialExits.DeliveredReachable` | core/strategy/engine.py:90-180 | The same for an engine with a buffer of any size |
| `PartialExits.LeverageReaches` | core/strategy/plugins/leverage_inverse_strategy.py:191-309 | On one stream of bars, shown window by window, the strategy enters where a new level begins, holds it, is warned by a spike and exits partially on the next bar, for every parameter set whose warning is in reach and whose indicators fit the buffer |
| `PartialExits.InverseReaches` | core/strategy/plugins/leverage_inverse_strategy.py:191-365 | The stream reflected at an axis above all its highs, so that prices stay positive, does the same for the inverse half, without symmetric thresholds |
| `PartialExits.RunUnwarned` | core/strategy/plugins/leverage_inverse_strategy.py:296-354 | A half whose warning lies beyond the CCI limit never sets its seen flag and never exits partially, over every run |
| `Surges.LoneCci` | core/strategy/indicators/cci.py:54-64 | The bound is attained: a newest value standing alone above equal others has a CCI of exactly p/0.03 |
| `Surges.CciEndings` | core/strategy/indicators/cci.py:54-64 | The CCI over the whole of that stream: zero at rest, at its limit where the level begins and again on the spike, never negative before the last bar, never positive on it |
| `Surges.LastSignal` | core/strategy/indicators/cci.py:69-89 | A CCI that falls to zero or below after a positive value, none of the earlier ones negative, falls below its signal line |
| `Surges.DemaLeaps` | core/strategy/indicators/dema.py:65-96 | A close far enough above all earlier ones does not turn the DEMA downwards, whatever it did before |
| `Surges.EmaWithin` | core/strategy/indicators/dema.py:16-37 | An EMA never leaves the range of the values it averages |
| `Ledger.SignalsAreCycles` | core/strategy/plugins/leverage_inverse_strategy.py:219-309 | When a partial exit leaves a remainder, every run emits (BUY q, then SELL q, or one partial SELL and a SELL of the rest)*, one product per cycle, the last possibly open |
| `StrategyRuns.ReplayedCycles` | core/strategy/plugins/leverage_inverse_strategy.py:219-309 | The same of the signals of replaying any history through the harness |
| `Ledger.StepMoves` | core/strategy/plugins/leverage_inverse_strategy.py:124-144 | Whatever the indicators say, one on_tick makes one of the moves the five phases allow, with the quantities of the phase |
| `Ledger.RunConsistent` | core/strategy/plugins/leverage_inverse_strategy.py:219-403 | Every run keeps the estimate at the value its phase prescribes: 0, q, or q less one partial exit |
| `Ledger.MoveBalances` | core/strategy/plugins/leverage_inverse_strategy.py:371-403 | An allowed move keeps the books balanced, unless it leaves a partial position of zero lots |
| `Ledger.PartialOfEverything` | core/strategy/plugins/leverage_inverse_strategy.py:387-403 | A partial exit that sells the whole position unbalances the books at once |
| `LedgerWitness.OversellsOneLot` | core/strategy/plugins/leverage_inverse_strategy.py:371-403 | A run on concrete candles with one lot per entry: the strategy buys one lot and sells two |
| `LedgerWitness.SellsAllOnPause` | core/strategy/plugins/leverage_inverse_strategy.py:299-309 | The step of that run where the first warning, meant to sell a part, sells the only lot and leaves a holding phase with none |
| `LedgerWitness.SellsAgainOnFall` | core/strategy/plugins/leverage_inverse_strategy.py:371-385 | The step where the full exit falls back to a whole unit and sells a lot that was never bought |
| `LeverageInverse.PartialQty` | core/strategy/plugins/leverage_inverse_strategy.py:389-392 | A partial exit sells at most what is held, and leaves something exactly when the rounded share is below the holding |
| `LeverageInverse.WarmUpExact` | core/strategy/plugins/leverage_inverse_strategy.py:160-185 | Indicators are available iff n >= max(2*dema+1, cci+signal, k+d-1); then CCI and signal line have one length and end on the same bar |
| `LeverageInverse.LeverageInverseStrategy.OnTick` | core/strategy/plugins/leverage_inverse_strategy.py:124-144 | The updating method makes exactly the transition of the state-machine function all run theorems speak about, and returns its signal |
| `LeverageInverse.LeverageInverseStrategy.ComputeIndicators` | core/strategy/plugins/leverage_inverse_strategy.py:160-185 | Built from the list loops, it returns the readings of the specification or nothing |
| `LeverageInverse.LeverageInverseStrategy.EnterIfMet` | core/strategy/plugins/leverage_inverse_strategy.py:191-213 | Leverage entry first, inverse second, otherwise unchanged |
| `LeverageInverse.LeverageInverseStrategy.Open` | core/strategy/plugins/leverage_inverse_strategy.py:219-263 | Entering clears both seen flags, sets phase and estimate and buys one unit |
| `LeverageInverse.LeverageInverseStrategy.ManageLeveragePosition` | core/strategy/plugins/leverage_inverse_strategy.py:269-309 | Two of three confirmations exit fully before the flag is touched; otherwise the flag is set and a dead cross may exit partially, once |
| `LeverageInverse.LeverageInverseStrategy.ManageInversePosition` | core/strategy/plugins/leverage_inverse_strategy.py:315-365 | The inverse half, written out separately as in the source |
| `LeverageInverse.LeverageInverseStrategy.ExitPositionFull` | core/strategy/plugins/leverage_inverse_strategy.py:371-385 | Back to the initial state, selling the estimate or one unit if it is 0 |
| `LeverageInverse.LeverageInverseStrategy.ExitPositionPartial` | core/strategy/plugins/leverage_inverse_strategy.py:387-403 | Sells the capped rounded share and keeps the rest in the target phase |
| `IndicatorLaws.CciBound` | core/strategy/indicators/cci.py:21-89 | For every candle list and period p, every CCI value and every signal-line value is within p/0.03 of zero |
| `IndicatorLaws.CciAtBound` | core/strategy/indicators/cci.py:54-64 | The bound for one window: the newest deviation is at most half the sum of all absolute deviations |
| `IndicatorLaws.DeviationsCancel` | core/strategy/indicators/cci.py:46-58 | The signed deviations of a window from its mean sum to zero |
| `IndicatorLaws.KExtremes` | core/strategy/indicators/stochastic.py:38-55 | For a close inside its own bar %K lies in [0,100]; in a window whose range is not flat it is 0 iff the close is the lowest low and 100 iff it is the highest high |
| `IndicatorLaws.NoRepainting` | core/strategy/plugins/leverage_inverse_strategy.py:160-185 | Appending candles only appends to the outputs of CCI, CCI signal, EMA, DEMA, %K, %D and pivot lows |
| `IndicatorLaws.EmaStable` | core/strategy/indicators/dema.py:29-37 | More values only extend the EMA list |
| `IndicatorLaws.DemaStable` | core/strategy/indicators/dema.py:52-62 | More values only extend the DEMA list, although it is built from an end-aligned slice |
| `IndicatorLaws.PivotLowsStable` | core/strategy/indicators/swing.py:77-86 | A pivot once found is never revised: the newest right-hand bars are held back until confirmed |
| `IndicatorLaws.PivotsExact` | core/strategy/indicators/swing.py:60-86 | A bar is listed iff it has both wings and none of its neighbours is lower, and with its own low |
| `Formulas.CciFormula` | core/strategy/indicators/cci.py:36-66 | Every CCI value in prices: the newest (high+low+close)/3 less its mean, over 0.015 times the mean absolute distance; 0 where that distance is below 1e-9 |
| `Formulas.KFormula` | core/strategy/indicators/stochastic.py:38-55 | Every %K in prices: the close between the lowest low and the highest high of its window in percent; 50 where they are less than 1e-9 apart |
| `Formulas.EmaFormula` | core/strategy/indicators/dema.py:29-37 | Each further value moves the EMA by 2/(n+1) of the way to it |
| `Formulas.DemaFormula` | core/strategy/indicators/dema.py:52-62 | Every DEMA value is twice the EMA less the EMA of the EMA at the same bar |
| `Formulas.PivotFormula` | core/strategy/indicators/swing.py:60-86 | A bar is listed iff it has both wings and no bar within them has a lower low |
| `Indicators.CalculateSma` | core/strategy/indicators/ma.py:43-63 | The loop builds the list of window means, oldest first, empty when too short |
| `Indicators.CalculateEma` | core/strategy/indicators/dema.py:16-37 | The loop builds the EMA of the recursive definition |
| `Indicators.CalculateDema` | core/strategy/indicators/dema.py:40-62 | 2*EMA - EMA(EMA), aligned at the newest value |
| `Indicators.CalculateCci` | core/strategy/indicators/cci.py:21-66 | The two loops over typical prices build the CCI of each window, 0 for a flat one |
| `Indicators.CalculateCciSignal` | core/strategy/indicators/cci.py:69-89 | The signal line is the moving average of the CCI list |
| `Indicators.CalculateStochasticK` | core/strategy/indicators/stochastic.py:23-55 | The loop builds %K of each window, 50 for a flat one |
| `Indicators.FindPivotLows` | core/strategy/indicators/swing.py:60-86 | The loop builds the pivot list PivotsExact characterises |
| `Parity.LiveMatchesResearch` | core/strategy/harness.py:61-133 | Running objects, any number of registered strategies and any warm-up: what the live engine publishes for a strategy and what one harness call reports agree whenever ParityExact's condition holds; after a raising warm-up one raises and the other stays silent |
| `Parity.ParityExact` | core/strategy/engine.py:90-121 | For any warm-up function and one symbol: live and research agree for every strategy with that warm-up if and only if there are no candles at all, or it completes and, where the history is empty, leaves the state as it was |
| `Parity.SkippedWarmupShows` | core/strategy/engine.py:100-101 | The engine skips an empty warm-up that the harness makes: a strategy that speaks only in its unwarmed state tells the two apart on any bars |
| `Parity.RaisingWarmup` | core/strategy/engine.py:112-121 | A warm-up that raises ends the research run, while the live engine disables the strategy, which publishes nothing whatever bars follow |
| `Parity.ResearchToLiveParity` | core/strategy/harness.py:95-133 | Where a non-empty warm-up completes, the two loops end in the same strategy state with the same signals, and both ring buffers hold the last 200 candles of the whole history |
| `Parity.InStep` | core/strategy/engine.py:152-190 | Engine and harness stay in step from any common point, raising ticks included |
| `Parity.Deliver` | core/strategy/engine.py:152-180 | A TICK then a CANDLE per bar takes every registered strategy through its own run; strategies do not affect each other |
| `Harness.RunBacktest` | core/strategy/harness.py:61-144 | The replay loop computes the fold over the replayed bars; with n candles it replays n - w, where 2w <= n <= 2w+1 by default and w is the requested size cut into 0..n otherwise; a raising warm-up escapes, a raising tick is counted and skipped |
| `Harness.ReplayBuffer` | core/strategy/harness.py:101-132 | The bounded buffer always holds the newest 200 candles of everything given |
| `Harness.WarmupLength` | core/strategy/harness.py:90-92 | Half by default, otherwise clamped, so the split is always inside the list |
| `StrategyRuns.ReplayIsFold` | core/strategy/harness.py:95-133 | A replay is a run of the step function over the last 200 candles before each bar |
| `StrategyRuns.WindowInputsAt` | core/strategy/harness.py:104-132 | What is shown on each bar: a tick with the bar's own symbol, close, volume and time, and the newest candles before it, as many as the buffer holds |
| `StrategyEngine.StrategyEngine.Register` | core/strategy/engine.py:58-68 | A taken name is replaced in place and loses its failure mark; nothing else changes |
| `StrategyEngine.StrategyEngine.Warmup` | core/strategy/engine.py:90-121 | An empty history does nothing; otherwise the first candle's symbol gets the newest candles and every strategy is warmed, one that raises being disabled |
| `StrategyEngine.StrategyEngine.HandleTick` | core/strategy/engine.py:152-172 | Each enabled strategy sees the tick with its symbol's buffer and publishes at most its own signal; disabled ones do not move |
| `StrategyEngine.StrategyEngine.HandleCandle` | core/strategy/engine.py:174-180 | Only the candle's symbol's buffer changes, by one candle, bounded |
| `OrderProtocol.NoSharedBrokerIds` | core/store/db.py:236-325 | In every interleaving of submit, accept, ack, failure, listings, polls, app orders and crashes: no two rows share a broker id and each row names its own order, live and durable, if each listing echoes its client id or follows the recorded ack |
| `OrderProtocol.AtMostOnePlacement` | core/execution/executor.py:95-149 | In every interleaving, crashes included: no client id is sent twice, one is sent only when its row is already durable, and the broker holds at most one order per client id |
| `OrderProtocol.TimelyExact` | core/store/db.py:276-325 | From any reachable state, reflecting a listing leaves every row naming its own order if and only if the listing is timely |
| `OrderProtocol.TimelyWhen` | core/store/db.py:257-275 | In every reachable state a truthful listing is timely iff it is of an app order, echoes its client id, or comes after the row recorded its broker id |
| `OrderProtocol.UntimelyDuplicates` | core/store/db.py:274-325 | An untimely listing followed by the acknowledgement puts one broker id in two rows, one of them toss-native |
| `OrderRefinement.DuplicateReachable` | core/store/db.py:274-325 | Any first submission of the bot gets there: a run from the empty system whose next listing has no echo, and after the acknowledgement two rows share the broker id |
| `OrderProtocol.RunKeeps` | core/execution/executor.py:95-152 | The invariant behind both theorems holds at every point of every run |
| `OrderProtocol.StepKeeps` | core/store/db.py:204-325 | Each step of each coroutine keeps the invariant |
| `OrderProtocol.PlaceKeeps` | core/execution/executor.py:115-134 | The call of the broker happens only for a durable row never sent before |
| `OrderProtocol.InsertOwns` | core/store/schema.py:30-50 | An INSERT that passes the UNIQUE constraint gives the submission a client id nobody else owns or ever sent |
| `OrderProtocol.AckKeeps` | core/execution/executor.py:152-152 | Recording the acknowledgement names the submission's own order, even when a listing has named it first |
| `OrderProtocol.SelectFindsOwner` | core/store/db.py:276-280 | For a timely listing the two-key SELECT can only return the owner's row, or nothing, and then the listing's own key is the owner |
| `OrderProtocol.WriteKeepsTable` | core/store/db.py:282-325 | The UPDATE or INSERT keeps rows naming their own orders and removes or renames none |
| `OrderProtocol.CrashKeeps` | core/execution/executor.py:95-134 | Falling back to the committed rows and forgetting every coroutine keeps the invariant |
| `OrderRefinement.UpsertIsSelectThenWrite` | core/store/db.py:274-325 | The store's upsert is exactly the protocol's SELECT and write back to back, in both directions |
| `OrderRefinement.SubmitIsARun` | core/execution/executor.py:81-178 | A submit call, of a new or a known client id, leaves table and broker calls exactly as the protocol's steps do, from start to final commit or to the known row, and keeps the protocol's invariant |
| `OrderRefinement.PollIsARun` | core/execution/order_sync.py:124-201 | The poll's sync_once is a run of the protocol's read, update and commit steps, and keeps the protocol's invariant |
| `OrderRefinement.HistorySyncIsARun` | core/execution/order_history_sync.py:148-242 | The history feed's sync_once is a run of the protocol's listing, select, write and commit steps when what it fetched is truthful, and keeps the protocol's invariant when every fetched order is timely at its start |
| `OrderTable.StateStore.UpsertBrokerOrder` | core/store/db.py:236-325 | Overwrites some row matching client or broker id, or files a new one under the client id or toss-native id |
| `OrderTable.UpsertWritesOne` | core/store/db.py:269-325 | An upsert writes exactly one row, which then says all the listing does with the mapped status: a matching one, keeping its creation time, or else a new one created when the order was |
| `OrderTable.StateStore.FindMatch` | core/store/db.py:276-280 | Any matching row, and none only if there is none |
| `OrderTable.StateStore.GetPendingOrders` | core/store/db.py:166-202 | Exactly the rows in status pending, submitted or partial, each once |
| `OrderTable.StateStore.UpdateOrderStatus` | core/store/db.py:204-234 | Status, and broker id only when given, of one row; a missing row is no effect |
| `OrderTable.NativeIdInjective` | core/store/db.py:274-274 | Orders made elsewhere never collide under their substitute client ids |
| `OrderExecutor.OrderExecutor.Submit` | core/execution/executor.py:81-178 | A known client id sends nothing and answers the recorded row, or refuses a rejected one; a new one is inserted, sent once and recorded as submitted or rejected, with its event |
| `OrderExecutor.OrderExecutor.SubmitTwice` | core/execution/executor.py:95-112 | Submitting the same order again sends nothing and repeats the answer, or the refusal |
| `FrozenBroker.FirstSyncThenQuiet` | core/execution/order_history_sync.py:148-242 | The feeds over an unchanging broker: the first sync completes iff at most 5000 orders are closed; then every listed order of known status (all, with at most 100 open) has its row and status, and a later sync and poll change no status and publish nothing |
| `FrozenBroker.PendingAfterSync` | core/execution/order_history_sync.py:148-242 | After a completed first sync the rows get_pending_orders returns name, of the listed orders, exactly those that have not ended, and each listed order has a row with all its figures |
| `FrozenBroker.QuietForever` | core/execution/order_history_sync.py:148-182 | After a complete reflection any number of syncs and polls in any order keep the table settled and every status as it was |
| `FrozenBroker.QuietPolls` | core/execution/order_sync.py:131-201 | At any time in such a run a poll publishes no event |
| `FrozenBroker.OneRowEach` | core/execution/order_history_sync.py:215-242 | In a settled table each known-status order has exactly one row, with the mapped status |
| `FrozenBroker.SyncSettles` | core/execution/order_history_sync.py:165-182 | Reflecting all orders settles the table, whichever matching rows the SELECTs return |
| `FrozenBroker.ResyncQuiet` | core/execution/order_history_sync.py:165-182 | Reflecting any of them again changes no status and adds no row |
| `FrozenBroker.PollQuiet` | core/execution/order_sync.py:124-201 | A poll of a settled table changes and publishes nothing |
| `FrozenBroker.BackfillExact` | core/execution/order_history_sync.py:184-213 | The backfill reports completion iff the closed orders fit its 100 pages of 50; either way it holds the newest of them, all pages joined in order |
| `FrozenBroker.WalkServed` | core/execution/order_history_sync.py:199-206 | The same from any cursor and any page budget |
| `FrozenBroker.RunsAreAligned` | core/store/db.py:236-325 | Every state the order protocol can reach is aligned with the broker's timely listings, so these theorems apply to it |
| `OrderFeeds.OrderHistorySyncFeed.SyncOnce` | core/execution/order_history_sync.py:148-182 | Reflects the open listing, then all closed pages until a backfill has completed and one page afterwards; the flag is true iff the end was reached, and stays true |
| `OrderFeeds.OrderHistorySyncFeed.FetchAllClosed` | core/execution/order_history_sync.py:184-213 | Pages joined in cursor order, and whether the last cursor was empty within 100 pages |
| `OrderFeeds.OrderHistorySyncFeed.Reflect` | core/execution/order_history_sync.py:215-242 | Unknown statuses are skipped and counted as not done; others are upserted with the mapped status |
| `OrderFeeds.StatusMapsAgree` | core/execution/order_history_sync.py:49-60 | For every status: only FILLED, CANCELED, REJECTED and REPLACED end an order, and there both maps agree; every other known status is recorded as pending, or partial for PARTIAL_FILLED, so that the poll goes on looking; unknown ones are skipped |
| `OrderFeeds.PolledExact` | core/execution/order_sync.py:131-201 | A poll changes a row only in its status, and only if it is unsettled and its broker order has ended: filled, rejected, or otherwise cancelled |
| `OrderFeeds.OrderSyncFeed.SyncOnce` | core/execution/order_sync.py:124-218 | Every unsettled row with a broker id and an ended broker order takes its final status; all other rows stay; one event per change |
| `OrderFeeds.AnnouncementsExact` | core/execution/order_sync.py:131-201 | Events are exactly the status changes, one per row, naming that row's broker order |
| `OrderFeeds.PolledRowsAll` | core/execution/order_sync.py:131-173 | Polling the unsettled rows one after another, in any order, is polling every row of the table at once |
| `BacktestCausality.PrefixRun` | core/backtest/engine.py:197-235 | From one post-warm-up state, the run on the first k bars has the full run's equity of those bars and a prefix of its trades |
| `BacktestCausality.NoLookAhead` | core/backtest/engine.py:197-235 | Two histories that agree on k bars give the same equity for them, and the trades decided within them begin both trade lists |
| `BacktestCausality.WarmupDecides` | core/backtest/engine.py:192-192 | Through warmup(candles[:-1]) itself: every strategy with a given warm-up has the prefix property if and only if that warm-up, where it completes on the longer history, completes on the shorter in the same state |
| `BacktestCausality.WarmupLooksAhead` | core/backtest/engine.py:167-235 | A strategy that keeps the length of its warm-up history trades on two flat candles, and not on the same two followed by a third |
| `BacktestCausality.RunLooksAhead` | core/backtest/engine.py:167-235 | The same with the running engine |
| `BacktestCausality.SameWarmup` | core/backtest/engine.py:192-235 | A warm-up that cannot tell the two histories apart gives the prefix property, warm-up included |
| `StrategyRuns.BacktestHasNoLookAhead` | core/strategy/plugins/leverage_inverse_strategy.py:114-122 | For the leverage/inverse strategy, whose warm-up changes nothing on_tick reads, the whole backtest has the prefix property |
| `BacktestCausality.NextOpenFills` | core/backtest/engine.py:201-235 | Each trade carries out a signal emitted on one bar, shown its close and the last 51 bars, on the very next bar, at that bar's open times 1 + slippage (purchase) or 1 - slippage (sale); of no more than its lots for a sale always, for a purchase where a lot costs something; one a bar at most, in order |
| `BacktestFriction.FillsAgainst` | core/backtest/engine.py:247-291 | Over every run with sound costs and positive opens no purchase fills below the open it is made at and no sale above it |
| `BacktestFriction.NeverAboveGains` | core/backtest/engine.py:197-209 | So the frictions of a run never add up to a gain, and its equity is never above its capital plus its price gains |
| `BacktestFriction.FrictionCosts` | core/backtest/engine.py:247-305 | The summed slippage, commission and tax of every run is non-negative at every bar |
| `BacktestFriction.EquityIs` | core/backtest/engine.py:206-209 | The equity recorded at a bar is the cash plus its close times the lots held |
| `BacktestFriction.AverageIs` | core/backtest/engine.py:122-126 | After a purchase the average price times the lots is what all of them cost |
| `BacktestCausality.RunCharges` | core/backtest/engine.py:249-291 | Every trade of every run pays the commission rate on its amount, and sales, and only sales, the tax rate |
| `BacktestMoney.ProfitAttribution` | core/backtest/engine.py:197-209 | At every bar equity - capital = sum of held lots times price moves on the frictionless path with the same fills, minus all slippage, commission and tax |
| `BacktestMoney.RunConserves` | core/backtest/engine.py:249-305 | At every bar cash = capital + sum of net amounts, quantity = buys - sells >= 0 |
| `BacktestMoney.FillCostsFriction` | core/backtest/engine.py:247-305 | A fill lowers the book's worth at the open by exactly its slippage, commission and tax |
| `BacktestMoney.BuyAffordable` | core/backtest/engine.py:249-263 | A buy fills at most the wanted lots, and the most whose number times open*(1+slippage)*(1+commission) is within the cash |
| `BacktestMoney.PurchaseExact` | core/backtest/engine.py:249-281 | A pending buy fills the most lots, of those wanted, whose number times open*(1+slippage)*(1+commission) is within the cash; the trade records that price, the commission on it and no tax, and cash and holding move by exactly that |
| `BacktestMoney.SaleExact` | core/backtest/engine.py:283-305 | A pending sale fills the smaller of what is wanted and held at open*(1-slippage), and pays commission and tax on its amount |
| `BacktestMoney.RunSolvent` | core/backtest/engine.py:249-291 | With positive opens, slippage in [0,1) and non-negative fees of at most 1 together, no fill raises and cash never goes negative, whatever the strategy asks for |
| `BacktestMoney.EquityNonNegative` | core/backtest/engine.py:206-209 | Nor does any recorded equity, when closes are non-negative |
| `BacktestMoney.AverageBetweenBuys` | core/backtest/engine.py:115-132 | While lots are held the average price lies between the lowest and highest buy fill since the book was last flat |
| `Backtest.BacktestEngine.Run` | core/backtest/engine.py:167-235 | The bar loop computes the run function bar by bar, equity, trades and the unfilled last signal; under two candles there is no run; a raising warm-up, tick or fill escapes |
| `Backtest.BacktestEngine.Bar` | core/backtest/engine.py:199-232 | One pass: fill what is pending at the open, value at the close, then ask the strategy with at most 51 bars |
| `Backtest.BacktestEngine.FillBuy` | core/backtest/engine.py:247-281 | The cash-limited buy, its skip below one lot, and its division by zero at a zero open |
| `Backtest.BacktestEngine.FillSell` | core/backtest/engine.py:283-305 | The sale of at most what is held |
| `Backtest.Position.UpdateBuy` | core/backtest/engine.py:122-126 | Quantity adds up and the price becomes the weighted average |
| `Backtest.Position.UpdateSell` | core/backtest/engine.py:128-132 | Quantity never below zero; the price is forgotten when flat |
| `Metrics.OnePassIsMaxDrawdown` | core/backtest/metrics.py:33-45 | On every non-negative curve the single pass equals the largest relative drop from any positive value to any later one, and lies in [0,1] |
| `Metrics.RatioExact` | core/backtest/metrics.py:33-45 | From a positive start the result lies in [0,1] iff no value is negative |
| `Metrics.BacktestDrawdown` | core/backtest/metrics.py:33-45 | So the drawdown of every solvent backtest is the true maximum and a ratio |
| `Metrics.CalculateMdd` | core/backtest/metrics.py:24-45 | The loop with running peak computes the single-pass definition; under two values it is 0 |
| `Metrics.PairsAreFifo` | core/backtest/metrics.py:87-93 | The k-th pair uses the k-th buy, each buy precedes its sale, both sides are in order so pairs never cross |
| `Metrics.PairCount` | core/backtest/metrics.py:87-93 | The number of pairs is sales minus the worst surplus of sales over buys in any prefix |
| `Metrics.FifoIsMaximum` | core/backtest/metrics.py:77-102 | No way of matching buys to later sales makes more pairs |
| `Metrics.NetSplits` | core/backtest/metrics.py:87-93 | Paired, waiting and dropped trades together moved all the cash |
| `Metrics.ProfitsAddUp` | core/backtest/metrics.py:140-147 | In a backtest, paired profit plus unpaired net amounts equals final cash minus initial capital |
| `PairFit.ProfitExact` | core/backtest/metrics.py:140-141 | A pair is booked at the profit of the lots sold, taken first in first out at what each cost, exactly when those lots cost what the paired purchase cost |
| `PairFit.ClassifiesExactly` | core/backtest/metrics.py:130-153 | Whatever the sales bring, the win count, and likewise the verdict that nothing was lost, are those of the lots actually sold by the paired sales, first in first out, if and only if each sale's lots cost what its paired purchase cost |
| `PairFit.LotsDecide` | core/backtest/metrics.py:87-93 | For trades that never sell short: that holds whatever the prices if and only if every sale is of as many lots as the purchase it is paired with |
| `PairFit.BacktestCovered` | core/backtest/engine.py:283-305 | No backtest ever sells short, so this is about all of them |
| `PairFit.HeldTotal` | core/backtest/engine.py:115-132 | The lots held first in first out are those bought less those sold |
| `PairFit.TotalsAgree` | core/backtest/metrics.py:143-154 | Where the costs fit, the totals won and lost behind the profit ratio are those of the lots actually sold |
| `PairFit.PartialExitMisfits` | core/backtest/metrics.py:87-93 | A purchase, a partial exit and the exit of the rest, as the leverage/inverse strategy trades, make one pair, of unequal lots; the true profit of its sale charges only the part sold |
| `PairFit.DoubledButLost` | core/backtest/metrics.py:105-168 | The failing input: ten lots bought at 100 and sold at 200, four and then six, are reported with a win rate and a profit ratio of 0 |
| `PairFit.SoldOverTwoPurchases` | core/backtest/metrics.py:87-141 | The other failing input: five lots bought at 100 and five at 200, all ten sold at 150, are booked with a profit of 1000 and made nothing |
| `Metrics.PairTrades` | core/backtest/metrics.py:77-102 | The queue loop computes the first-in-first-out pairs |
| `Metrics.Tally` | core/backtest/metrics.py:135-147 | Every pair wins or loses, the two totals are what winners made and others lost, and their difference is the pairs' profit |
| `Metrics.CalculateMetrics` | core/backtest/metrics.py:105-168 | Win rate is the winning share in [0,1]; the ratio times the average loss is the average profit, and it is infinite iff nothing was lost; no trades gives zeros |
| `DataSource.FetchRange` | core/backtest/toss_data_source.py:230-279 | Over a static history with distinct times, a fetch with a start date is exactly start <= t < end in order iff at most 100000 candles are in range, else the newest of them; without a start date it is one page |
| `DataSource.FetchPages` | core/backtest/toss_data_source.py:241-277 | The backward loop joins pages without gap or overlap down to the start date or the page budget |
| `DataSource.InRangeExact` | core/backtest/toss_data_source.py:261-269 | The plain filter is exactly the candles with start <= t < end, contiguous and in order |
| `DataSource.CountBeforeAt` | core/backtest/toss_data_source.py:269-270 | A cursor at a page's oldest time leaves exactly the candles before that page |
| `PositionSync.FollowBroker` | core/execution/position_sync.py:139-211 | Over any run of syncs from an empty table, replaying everything published from nothing gives the broker's last holdings, which are also the open rows |
| `PositionSync.OpenedOnlyOnce` | core/execution/position_sync.py:167-173 | Over any run of syncs from an empty table, a holding that is not open is announced as opened iff no earlier balance held its symbol, and as updated iff one did |
| `PositionSync.RowsEverLive` | core/execution/position_sync.py:153-164 | A row, open or closed, exists for exactly the symbols some balance has held |
| `PositionSync.BuyCloseBuyAgain` | core/execution/position_sync.py:139-211 | The failing input: bought, closed and bought again is announced as opened, closed, updated |
| `PositionSync.SyncReplays` | core/execution/position_sync.py:164-198 | One sync takes a subscriber in step with the table to the broker's holdings |
| `PositionSync.TableFollows` | core/execution/position_sync.py:155-198 | After a sync the open rows are the broker's holdings, whatever the table held before |
| `PositionSync.ResyncSilent` | core/execution/position_sync.py:164-193 | Syncing the same balance again publishes nothing |
| `PositionSync.PositionSyncFeed.SyncOnce` | core/execution/position_sync.py:139-211 | Rows upserted in order, stale ones set to quantity 0, and the changes published in order, comparing with the table before the sync |
| `PositionSync.ItemChangeExact` | core/execution/position_sync.py:164-184 | What is published about a holding: market, quantity, price and their product, as opened when it has no row, as updated when quantity or price differ from it, nothing otherwise |
| `PositionSync.RowsExact` | core/execution/position_sync.py:153-198 | The rows after a sync: each holding as listed, each one gone from the balance at quantity 0 with its market and price kept, all others unchanged |
| `PositionSync.PositionSyncFeed.FindStale` | core/execution/position_sync.py:187-187 | Exactly the symbols held locally and absent from the balance |
| `Risk.RunWithinCaps` | core/risk/manager.py:82-142 | From a start within the caps, total and per-symbol book exposure stay within them over every run in which orders settle before the next evaluation |
| `Risk.RunCountsDays` | core/risk/manager.py:230-237 | Over every run no day sees more approvals than the limit, and the counter counts today's |
| `Risk.KillHolds` | core/risk/manager.py:219-228 | After KILL and until reset_halt the level stays and only sales are approved, whatever graduated_halt, pause and resume do |
| `Risk.KillUntilReset` | core/risk/manager.py:203-207 | KILL lasts to a point of a run if and only if no reset_halt happens before it; no other event lowers it |
| `Risk.ResetLiftsKill` | core/risk/manager.py:203-207 | The failing run: the purchase that KILL refused is approved after a reset, without a restart |
| `Risk.Perform` | core/risk/manager.py:179-207 | Each event of these runs is the risk manager's or the control handlers' own call, reset_halt included |
| `Risk.HaltHolds` | core/risk/manager.py:219-228 | From PAUSE upwards, until a resume or a reset, the level never falls and only sales are approved |
| `Risk.ApprovedFits` | core/risk/manager.py:239-276 | An approved buy, scaled down or not, fits under both caps in full and at its limit |
| `RiskDecisions.ApprovedExactly` | core/risk/manager.py:82-142 | A signal is approved iff today's limit is not used up and, for a purchase, the level is NONE or REDUCE, it names a price, and exposure plus quantity times price, in total and for the symbol, is within both caps; so a sale below the limit passes at every level |
| `RiskDecisions.RefusedFor` | core/risk/manager.py:103-122 | A refusal gives the first reason there is: halt, missing price, daily limit, total exposure, position value |
| `RiskDecisions.ApprovedOrder` | core/risk/manager.py:124-142 | An approved order is the signal's with all its lots, but a purchase under REDUCE has n >= 1 lots with n <= qty*ratio < n+1, or one lot where qty*ratio < 1 |
| `RiskDecisions.EvaluationCounts` | core/risk/manager.py:305-310 | Evaluating keeps the level, makes the day today and counts approvals only, from zero on a new day |
| `RiskDecisions.ExposureAdds` | core/risk/models.py:92-95 | No positions are worth nothing, and writing one changes the total by the difference of quantity times price |
| `Risk.BuySettles` | core/risk/models.py:68-96 | Filling such an order in part or whole at no more than its limit keeps both caps |
| `Risk.SellSettles` | core/risk/models.py:68-96 | A sale, of at most what is held, keeps both caps |
| `Risk.RiskManager.Evaluate` | core/risk/manager.py:82-142 | The checks in their order decide as specified and only an approval counts |
| `Risk.RiskManager.GraduatedHalt` | core/risk/manager.py:179-201 | The level only rises |
| `Risk.RiskManager.RefreshDailyCounter` | core/risk/manager.py:305-310 | The counter restarts exactly when the date differs |
| `Risk.TotalExposureOf` | core/risk/models.py:92-95 | The summing loop gives the exposure, which does not depend on the order of the positions |
| `Risk.ExposureUpdate` | core/risk/models.py:92-95 | Changing one position changes the total by the difference of its book values |
| `Risk.PauseHandler` | core/api/routes/control.py:18-30 | Refused under KILL, otherwise PAUSE |
| `Risk.ResumeHandler` | core/api/routes/control.py:33-45 | Refused under KILL, otherwise back to NONE |
| `Risk.KillHandler` | core/api/routes/control.py:48-59 | KILL from any level |

## Left out

- Floating-point rounding, infinities and NaN: reals are exact, so a value near a threshold may fall on its other side in the program.
- OrderTable.StateStore.GetPendingOrders: does not state the order by creation time, because nothing modelled depends on it.
- FrozenBroker.FirstSyncThenQuiet: does not say that open orders beyond the first 100 get a row, because the source never fetches them.
- OrderFeeds.OrderHistorySyncFeed.SyncOnce: a failing row or listing is not modelled; the source logs a failing row and goes on, and a failing listing ends the sync before it writes.
- Metrics.CalculateMetrics: leaves out the Sharpe ratio and the annualised return, whose square root and real powers would only add axioms.
- PositionSync.FollowBroker: needs unique symbols and positive quantities, as the broker client delivers them after dropping zero quantities.
- Exactly-once terminal order events while the broker changes: a stale listing can move a status back, so only agreement over an unchanging broker is claimed.
- The run() loops of the feeds and the engine, their timers, failure counters and alerts.
- `record_fill` and the fills table; `get_open_positions`, which truncates fractional quantities; the watchlist.
- Order modification and cancellation, which the broker answers with a new order id.
- `check_exit` (stop-loss and take-profit) and the REDUCE rejection below one lot, which its own floor of one lot makes unreachable.
- The published halt events of the risk manager and the control handlers.
- Signal reason texts, logging, `assess_low_point`, higher lows, divergences and volume capitulation, which feed only texts or other rules.
- The candle history the strategy's warm-up stores, which nothing reads; unregistering a strategy.
- The cache in front of the candle fetch, with its expiry, and the CSV source.
- HTTP, authentication, SQLite itself, notifications, the dashboard and the schedulers.
- The bbc, intraday and head-and-shoulders rules, walk-forward windows and the scorer.
