/** Performance metrics (core/backtest/metrics.py): one-pass drawdown and first-in-first-out trade pairing. */
module Metrics {
  import opened Arithmetic
  import opened Market
  import opened Backtest
  import opened BacktestMoney
  import BacktestCausality
  import Plugins
  import opened Wrappers

  // ----- maximum drawdown

  function MaxReal(a: real, b: real): real {
    if b > a then b else a
  }

  /** The highest of the first `k` values. */
  function Peak(curve: seq<real>, k: nat): real
    requires 0 < k <= |curve|
  {
    if k == 1 then curve[0] else MaxReal(Peak(curve, k - 1), curve[k - 1])
  }

  function Drop(from: real, to: real): real {
    if from > 0.0 then (from - to) / from else 0.0
  }

  /** The running maximum of drops from the running peak. */
  function OnePass(curve: seq<real>, k: nat): real
    requires 0 < k <= |curve|
  {
    if k == 1 then 0.0 else MaxReal(OnePass(curve, k - 1), Drop(Peak(curve, k), curve[k - 1]))
  }

  method CalculateMdd(curve: seq<real>) returns (mdd: real)
    ensures mdd == if |curve| < 2 then 0.0 else OnePass(curve, |curve|)
  {
    if |curve| < 2 {
      return 0.0;
    }
    var peak := curve[0];
    mdd := 0.0;
    for i := 1 to |curve|
      invariant peak == Peak(curve, i) && mdd == OnePass(curve, i)
    {
      var value := curve[i];
      if value > peak {
        peak := value;
      }
      var drawdown := if peak > 0.0 then (peak - value) / peak else 0.0;
      mdd := MaxReal(mdd, drawdown);
    }
  }

  /** The definition: the largest relative loss from any positive value to any later one, zero if there is none. */
  ghost predicate IsMaxDrawdown(curve: seq<real>, k: nat, m: real)
    requires k <= |curve|
  {
    && (forall i, j :: 0 <= i <= j < k && curve[i] > 0.0 ==> Drop(curve[i], curve[j]) <= m)
    && (m == 0.0 || exists i, j :: 0 <= i <= j < k && curve[i] > 0.0 && Drop(curve[i], curve[j]) == m)
    && m >= 0.0
  }

  ghost predicate NonNegative(curve: seq<real>) {
    forall i :: 0 <= i < |curve| ==> curve[i] >= 0.0
  }

  lemma {:induction false} PeakIsHighest(curve: seq<real>, k: nat) returns (at: nat)
    requires 0 < k <= |curve|
    ensures at < k && curve[at] == Peak(curve, k)
    ensures forall i :: 0 <= i < k ==> curve[i] <= Peak(curve, k)
  {
    if k == 1 {
      return 0;
    }
    at := PeakIsHighest(curve, k - 1);
    if curve[k - 1] > Peak(curve, k - 1) {
      at := k - 1;
    }
  }

  /** A drop measured from a higher peak to the same non-negative value is no smaller. */
  lemma HigherPeakDropsMore(low: real, high: real, value: real)
    requires 0.0 < low <= high && value >= 0.0
    ensures Drop(low, value) <= Drop(high, value) <= 1.0
  {
    var a, b := value / low, value / high;
    assert a * low == value && b * high == value;
    assert b >= 0.0;
    assert b * low <= b * high;
    assert (a - b) * low >= 0.0;
    assert a >= b;
    DropRatio(low, value);
    DropRatio(high, value);
  }

  /** The single pass computes the quadratic definition, and stays within 0 and 1, on every non-negative curve. */
  lemma {:induction false} OnePassIsMaxDrawdown(curve: seq<real>, k: nat)
    requires 0 < k <= |curve| && NonNegative(curve)
    ensures IsMaxDrawdown(curve, k, OnePass(curve, k)) && OnePass(curve, k) <= 1.0
  {
    if k == 1 {
      assert forall i :: i == 0 && curve[i] > 0.0 ==> Drop(curve[i], curve[i]) == 0.0;
    } else {
      OnePassIsMaxDrawdown(curve, k - 1);
      var at := PeakIsHighest(curve, k);
      var before, drop := OnePass(curve, k - 1), Drop(Peak(curve, k), curve[k - 1]);
      if Peak(curve, k) > 0.0 {
        HigherPeakDropsMore(Peak(curve, k), Peak(curve, k), curve[k - 1]);
      }
      forall i | 0 <= i < k && curve[i] > 0.0 ensures Drop(curve[i], curve[k - 1]) <= drop {
        HigherPeakDropsMore(curve[i], Peak(curve, k), curve[k - 1]);
      }
      if drop > before {
        assert Drop(curve[at], curve[k - 1]) == drop;
      }
    }
  }

  /** From a positive start, the result is a ratio exactly when the curve never falls below zero. */
  lemma {:induction false} RatioExact(curve: seq<real>, k: nat)
    requires 0 < k <= |curve| && curve[0] > 0.0
    ensures 0.0 <= OnePass(curve, k) <= 1.0 <==> forall i :: 0 <= i < k ==> curve[i] >= 0.0
    ensures OnePass(curve, k) >= 0.0
  {
    if k == 1 {
    } else {
      RatioExact(curve, k - 1);
      var _ := PeakIsHighest(curve, k);
      DropSign(Peak(curve, k), curve[k - 1]);
    }
  }

  /** So the drawdown of every solvent backtest is the true maximum, and a ratio. */
  lemma BacktestDrawdown<S>(
    p: Plugins.Plugin<S>, costs: Costs, state: S, capital: real, symbol: string, candles: seq<Candle>)
    requires |candles| >= 2 && SoundCosts(costs) && PositiveOpens(candles) && NonNegativeCloses(candles)
            && capital >= 0.0
    requires RunFrom(p, costs, state, capital, symbol, candles).Some?
    ensures var equity := RunFrom(p, costs, state, capital, symbol, candles).value.equity;
            |equity| == |candles| && IsMaxDrawdown(equity, |equity|, OnePass(equity, |equity|))
                && OnePass(equity, |equity|) <= 1.0
  {
    var equity := RunFrom(p, costs, state, capital, symbol, candles).value.equity;
    EquityNonNegative(p, costs, state, capital, symbol, candles, |candles|);
    BacktestCausality.EquityLength(p, costs, Fresh(state, capital), symbol, candles, |candles|);
    OnePassIsMaxDrawdown(equity, |equity|);
  }

  lemma DropSign(peak: real, value: real)
    requires peak > 0.0
    ensures Drop(peak, value) <= 1.0 <==> value >= 0.0
  {
    DropRatio(peak, value);
    var q := value / peak;
    assert q * peak == value;
  }

  // ----- pairing

  datatype Fifo = Fifo(queue: seq<nat>, pairs: seq<(nat, nat)>, dropped: seq<nat>)

  /** Which trades are waiting, paired and dropped after the first `k`, by position. */
  function FifoAfter(trades: seq<Trade>, k: nat): (f: Fifo)
    requires k <= |trades|
    ensures Bounded(f, k)
  {
    if k == 0 then Fifo([], [], [])
    else
      var f := FifoAfter(trades, k - 1);
      if trades[k - 1].side == Buy then f.(queue := f.queue + [k - 1])
      else if f.queue == [] then f.(dropped := f.dropped + [k - 1])
      else f.(queue := f.queue[1..], pairs := f.pairs + [(f.queue[0], k - 1)])
  }

  /** All positions are among the first `k`, and each pair is a position and a later one. */
  predicate Bounded(f: Fifo, k: nat) {
    && (forall i :: 0 <= i < |f.queue| ==> f.queue[i] < k)
    && (forall i :: 0 <= i < |f.pairs| ==> f.pairs[i].0 < f.pairs[i].1 < k)
    && (forall i :: 0 <= i < |f.dropped| ==> f.dropped[i] < k)
  }

  function TradesAt(trades: seq<Trade>, at: seq<nat>): seq<Trade>
    requires forall i :: 0 <= i < |at| ==> at[i] < |trades|
  {
    seq(|at|, i requires 0 <= i < |at| => trades[at[i]])
  }

  function PairsOf(trades: seq<Trade>, pairs: seq<(nat, nat)>): seq<(Trade, Trade)>
    requires forall i :: 0 <= i < |pairs| ==> pairs[i].0 < pairs[i].1 < |trades|
  {
    seq(|pairs|, i requires 0 <= i < |pairs| => (trades[pairs[i].0], trades[pairs[i].1]))
  }

  function FifoPairs(trades: seq<Trade>): seq<(Trade, Trade)> {
    PairsOf(trades, FifoAfter(trades, |trades|).pairs)
  }

  method PairTrades(trades: seq<Trade>) returns (pairs: seq<(Trade, Trade)>)
    ensures pairs == FifoPairs(trades)
  {
    pairs := [];
    var queue: seq<Trade> := [];
    for k := 0 to |trades|
      invariant queue == TradesAt(trades, FifoAfter(trades, k).queue)
      invariant pairs == PairsOf(trades, FifoAfter(trades, k).pairs)
    {
      var trade := trades[k];
      if trade.side == Buy {
        queue := queue + [trade];
      } else if queue != [] {
        pairs := pairs + [(queue[0], trade)];
        queue := queue[1..];
      }
    }
  }

  /** The positions of the buys among the first `k` trades. */
  function BuysBefore(trades: seq<Trade>, k: nat): (buys: seq<nat>)
    requires k <= |trades|
    ensures Increasing(buys) && forall i :: 0 <= i < |buys| ==> buys[i] < k && trades[buys[i]].side == Buy
  {
    if k == 0 then [] else BuysBefore(trades, k - 1) + if trades[k - 1].side == Buy then [k - 1] else []
  }

  predicate Increasing(xs: seq<nat>) {
    forall i, j :: 0 <= i < j < |xs| ==> xs[i] < xs[j]
  }

  function Firsts(pairs: seq<(nat, nat)>): seq<nat> {
    seq(|pairs|, i requires 0 <= i < |pairs| => pairs[i].0)
  }

  function Seconds(pairs: seq<(nat, nat)>): seq<nat> {
    seq(|pairs|, i requires 0 <= i < |pairs| => pairs[i].1)
  }

  lemma PairsSnoc(pairs: seq<(nat, nat)>, pair: (nat, nat))
    ensures Firsts(pairs + [pair]) == Firsts(pairs) + [pair.0]
    ensures Seconds(pairs + [pair]) == Seconds(pairs) + [pair.1]
  {
  }

  /** Paired buys and then waiting buys are all the buys, in order: the k-th pair uses the k-th buy. */
  lemma {:induction false} PairsUseBuysInOrder(trades: seq<Trade>, k: nat)
    requires k <= |trades|
    ensures var f := FifoAfter(trades, k); Firsts(f.pairs) + f.queue == BuysBefore(trades, k)
  {
    if k == 0 {
    } else {
      PairsUseBuysInOrder(trades, k - 1);
      var f := FifoAfter(trades, k - 1);
      var firsts, queue := Firsts(f.pairs), f.queue;
      if trades[k - 1].side == Buy {
        assert firsts + (queue + [k - 1]) == firsts + queue + [k - 1];
      } else if queue != [] {
        PairsSnoc(f.pairs, (queue[0], k - 1));
        assert firsts + [queue[0]] + queue[1..] == firsts + queue;
      }
    }
  }

  /** The sales of the pairs are sales, in order. */
  lemma {:induction false} SalesInOrder(trades: seq<Trade>, k: nat)
    requires k <= |trades|
    ensures Ascending(trades, Seconds(FifoAfter(trades, k).pairs), Sell, k)
  {
    if k == 0 {
    } else {
      SalesInOrder(trades, k - 1);
      var f := FifoAfter(trades, k - 1);
      if trades[k - 1].side == Sell && f.queue != [] {
        PairsSnoc(f.pairs, (f.queue[0], k - 1));
        AscendingSnoc(trades, Seconds(f.pairs), Sell, k - 1);
      }
    }
  }

  /** Positions of trades of one side, in order, among the first `k`. */
  predicate Ascending(trades: seq<Trade>, at: seq<nat>, side: Side, k: nat)
    requires k <= |trades|
  {
    Increasing(at) && forall i :: 0 <= i < |at| ==> at[i] < k && trades[at[i]].side == side
  }

  lemma AscendingSnoc(trades: seq<Trade>, at: seq<nat>, side: Side, k: nat)
    requires k < |trades| && Ascending(trades, at, side, k) && trades[k].side == side
    ensures Ascending(trades, at + [k], side, k + 1)
  {
  }

  /** Pairs join a buy to a later sale, both sides in order, so no two pairs cross and none shares a trade. */
  lemma PairsAreFifo(trades: seq<Trade>)
    ensures var pairs := FifoAfter(trades, |trades|).pairs;
            && Firsts(pairs) <= BuysBefore(trades, |trades|)
            && (forall i :: 0 <= i < |pairs| ==>
                  pairs[i].0 < pairs[i].1 && trades[pairs[i].0].side == Buy && trades[pairs[i].1].side == Sell)
            && Increasing(Firsts(pairs)) && Increasing(Seconds(pairs))
  {
    PairsUseBuysInOrder(trades, |trades|);
    SalesInOrder(trades, |trades|);
    var f := FifoAfter(trades, |trades|);
    var firsts, sales, buys := Firsts(f.pairs), Seconds(f.pairs), BuysBefore(trades, |trades|);
    assert forall i :: 0 <= i < |firsts| ==> firsts[i] == buys[i];
    assert forall i :: 0 <= i < |f.pairs| ==> f.pairs[i].0 == firsts[i] && f.pairs[i].1 == sales[i];
  }

  // ----- how many pairs

  function CountSide(trades: seq<Trade>, side: Side, k: nat): nat
    requires k <= |trades|
  {
    if k == 0 then 0 else CountSide(trades, side, k - 1) + if trades[k - 1].side == side then 1 else 0
  }

  function Excess(trades: seq<Trade>, k: nat): int
    requires k <= |trades|
  {
    CountSide(trades, Sell, k) - CountSide(trades, Buy, k)
  }

  /** The worst surplus of sales over buys in any prefix; the empty prefix has none. */
  function MaxExcess(trades: seq<Trade>, k: nat): int
    requires k <= |trades|
  {
    if k == 0 then 0 else Max(MaxExcess(trades, k - 1), Excess(trades, k))
  }

  lemma {:induction false} PairCount(trades: seq<Trade>, k: nat)
    requires k <= |trades|
    ensures var f := FifoAfter(trades, k);
            && |f.pairs| == CountSide(trades, Sell, k) - MaxExcess(trades, k)
            && |f.pairs| + |f.queue| == CountSide(trades, Buy, k) && |f.dropped| == MaxExcess(trades, k)
  {
    if k == 0 {
    } else {
      PairCount(trades, k - 1);
    }
  }

  lemma {:induction false} MaxExcessReached(trades: seq<Trade>, k: nat) returns (j: nat)
    requires k <= |trades|
    ensures j <= k && Excess(trades, j) == MaxExcess(trades, k)
  {
    if k == 0 {
      return 0;
    }
    j := MaxExcessReached(trades, k - 1);
    if Excess(trades, k) > MaxExcess(trades, k - 1) {
      j := k;
    }
  }

  /** Any way of pairing buys with later sales, each trade used at most once. */
  ghost predicate Matching(trades: seq<Trade>, m: set<(nat, nat)>) {
    && (forall p :: p in m ==> p.0 < p.1 < |trades| && trades[p.0].side == Buy && trades[p.1].side == Sell)
    && (forall p, q :: p in m && q in m && (p.0 == q.0 || p.1 == q.1) ==> p == q)
  }

  function SideBetween(trades: seq<Trade>, side: Side, from: nat, end: nat): set<nat>
    requires from <= end <= |trades|
  {
    set i | from <= i < end && trades[i].side == side
  }

  lemma {:induction false} SideCount(trades: seq<Trade>, side: Side, from: nat, end: nat)
    requires from <= end <= |trades|
    ensures |SideBetween(trades, side, from, end)| == CountSide(trades, side, end) - CountSide(trades, side, from)
    decreases end
  {
    if from == end {
      assert SideBetween(trades, side, from, end) == {};
    } else {
      SideCount(trades, side, from, end - 1);
      var all, fewer := SideBetween(trades, side, from, end), SideBetween(trades, side, from, end - 1);
      assert all == if trades[end - 1].side == side then fewer + {end - 1} else fewer;
    }
  }

  lemma {:induction false} SubsetSize(a: set<nat>, b: set<nat>)
    requires a <= b
    ensures |a| <= |b|
    decreases b
  {
    if a == {} {
    } else {
      var x :| x in a;
      SubsetSize(a - {x}, b - {x});
    }
  }

  function Lefts(m: set<(nat, nat)>): set<nat> {
    set p | p in m :: p.0
  }

  function Rights(m: set<(nat, nat)>): set<nat> {
    set p | p in m :: p.1
  }

  lemma {:induction false} LeftsSize(trades: seq<Trade>, m: set<(nat, nat)>)
    requires Matching(trades, m)
    ensures |Lefts(m)| == |m|
    decreases m
  {
    if m == {} {
    } else {
      var p :| p in m;
      LeftsSize(trades, m - {p});
      assert Lefts(m) == Lefts(m - {p}) + {p.0};
      assert p.0 !in Lefts(m - {p});
    }
  }

  lemma {:induction false} RightsSize(trades: seq<Trade>, m: set<(nat, nat)>)
    requires Matching(trades, m)
    ensures |Rights(m)| == |m|
    decreases m
  {
    if m == {} {
    } else {
      var p :| p in m;
      RightsSize(trades, m - {p});
      assert Rights(m) == Rights(m - {p}) + {p.1};
      assert p.1 !in Rights(m - {p});
    }
  }

  /** Pairs whose sale comes early use early buys, of which there are only so many. */
  lemma EarlyPairs(trades: seq<Trade>, m: set<(nat, nat)>, j: nat)
    requires Matching(trades, m) && j <= |trades| && forall p :: p in m ==> p.1 < j
    ensures |m| <= CountSide(trades, Buy, j)
  {
    LeftsSize(trades, m);
    SubsetSize(Lefts(m), SideBetween(trades, Buy, 0, j));
    SideCount(trades, Buy, 0, j);
  }

  /** And pairs whose sale comes late use late sales. */
  lemma LatePairs(trades: seq<Trade>, m: set<(nat, nat)>, j: nat)
    requires Matching(trades, m) && j <= |trades| && forall p :: p in m ==> p.1 >= j
    ensures |m| <= CountSide(trades, Sell, |trades|) - CountSide(trades, Sell, j)
  {
    RightsSize(trades, m);
    SubsetSize(Rights(m), SideBetween(trades, Sell, j, |trades|));
    SideCount(trades, Sell, j, |trades|);
  }

  /** No way of pairing buys with later sales makes more pairs than first-in-first-out. */
  lemma FifoIsMaximum(trades: seq<Trade>, m: set<(nat, nat)>)
    requires Matching(trades, m)
    ensures |m| <= |FifoAfter(trades, |trades|).pairs|
  {
    var n := |trades|;
    PairCount(trades, n);
    var j := MaxExcessReached(trades, n);
    MatchingSize(trades, m, j);
  }

  lemma MatchingSize(trades: seq<Trade>, m: set<(nat, nat)>, j: nat)
    requires Matching(trades, m) && j <= |trades|
    ensures |m| <= CountSide(trades, Buy, j) + CountSide(trades, Sell, |trades|) - CountSide(trades, Sell, j)
  {
    var early, late := set p | p in m && p.1 < j, set p | p in m && p.1 >= j;
    assert m == early + late && early !! late;
    EarlyPairs(trades, early, j);
    LatePairs(trades, late, j);
  }

  // ----- profit of the pairs

  function NetAt(trades: seq<Trade>, at: seq<nat>): real
    requires forall i :: 0 <= i < |at| ==> at[i] < |trades|
  {
    if at == [] then 0.0 else NetAt(trades, at[..|at| - 1]) + trades[at[|at| - 1]].NetAmount()
  }

  function PairProfit(pair: (Trade, Trade)): real {
    pair.1.NetAmount() + pair.0.NetAmount()
  }

  function PairsProfit(pairs: seq<(Trade, Trade)>): real {
    if pairs == [] then 0.0 else PairsProfit(pairs[..|pairs| - 1]) + PairProfit(pairs[|pairs| - 1])
  }

  function Wins(pairs: seq<(Trade, Trade)>): nat {
    if pairs == [] then 0 else Wins(pairs[..|pairs| - 1]) + if PairProfit(pairs[|pairs| - 1]) > 0.0 then 1 else 0
  }

  /** What the winning pairs made, and what the others lost. */
  function WonBy(pairs: seq<(Trade, Trade)>): real {
    if pairs == [] then 0.0
    else
      var pnl := PairProfit(pairs[|pairs| - 1]);
      WonBy(pairs[..|pairs| - 1]) + if pnl > 0.0 then pnl else 0.0
  }

  function LostBy(pairs: seq<(Trade, Trade)>): real {
    if pairs == [] then 0.0
    else
      var pnl := PairProfit(pairs[|pairs| - 1]);
      LostBy(pairs[..|pairs| - 1]) + if pnl > 0.0 then 0.0 else -pnl
  }

  ghost predicate NoneLost(pairs: seq<(Trade, Trade)>) {
    forall i :: 0 <= i < |pairs| ==> PairProfit(pairs[i]) >= 0.0
  }

  /** The counting loop of calculate_metrics: every pair wins or loses, and profit less loss is the pairs' total. */
  method Tally(pairs: seq<(Trade, Trade)>) returns (wins: nat, losses: nat, totalProfit: real, totalLoss: real)
    ensures wins == Wins(pairs) && wins + losses == |pairs|
    ensures totalProfit == WonBy(pairs) && totalLoss == LostBy(pairs)
    ensures totalProfit - totalLoss == PairsProfit(pairs)
    ensures totalProfit >= 0.0 && totalLoss >= 0.0 && (totalProfit > 0.0 <==> wins > 0)
    ensures (totalLoss > 0.0 ==> losses > 0)
    ensures totalLoss == 0.0 <==> NoneLost(pairs)
  {
    wins, losses, totalProfit, totalLoss := 0, 0, 0.0, 0.0;
    for i := 0 to |pairs|
      invariant wins == Wins(pairs[..i]) && wins + losses == i
      invariant totalProfit == WonBy(pairs[..i]) && totalLoss == LostBy(pairs[..i])
      invariant totalProfit - totalLoss == PairsProfit(pairs[..i])
      invariant totalProfit >= 0.0 && totalLoss >= 0.0 && (totalProfit > 0.0 <==> wins > 0)
      invariant totalLoss > 0.0 ==> losses > 0
      invariant totalLoss == 0.0 <==> forall j :: 0 <= j < i ==> PairProfit(pairs[j]) >= 0.0
    {
      assert pairs[..i + 1][..i] == pairs[..i];
      var pnl := PairProfit(pairs[i]);
      if pnl > 0.0 {
        wins, totalProfit := wins + 1, totalProfit + pnl;
      } else {
        losses, totalLoss := losses + 1, totalLoss + Abs(pnl);
      }
    }
    assert pairs[..|pairs|] == pairs;
  }

  lemma {:induction false} NetAtFirst(trades: seq<Trade>, at: seq<nat>)
    requires at != [] && forall i :: 0 <= i < |at| ==> at[i] < |trades|
    ensures NetAt(trades, at) == trades[at[0]].NetAmount() + NetAt(trades, at[1..])
  {
    var n := |at| - 1;
    if n == 0 {
    } else {
      NetAtFirst(trades, at[..n]);
      assert at[1..][..n - 1] == at[..n][1..] && at[1..][n - 1] == at[n];
    }
  }

  lemma NetAtSnoc(trades: seq<Trade>, at: seq<nat>, k: nat)
    requires k < |trades| && forall i :: 0 <= i < |at| ==> at[i] < |trades|
    ensures NetAt(trades, at + [k]) == NetAt(trades, at) + trades[k].NetAmount()
  {
    assert (at + [k])[..|at|] == at;
  }

  lemma PairsProfitSnoc(trades: seq<Trade>, pairs: seq<(nat, nat)>, pair: (nat, nat))
    requires pair.0 < pair.1 < |trades| && forall i :: 0 <= i < |pairs| ==> pairs[i].0 < pairs[i].1 < |trades|
    ensures PairsProfit(PairsOf(trades, pairs + [pair]))
            == PairsProfit(PairsOf(trades, pairs)) + (trades[pair.1].NetAmount() + trades[pair.0].NetAmount())
  {
    var longer := PairsOf(trades, pairs + [pair]);
    assert longer[..|pairs|] == PairsOf(trades, pairs);
  }

  lemma NetCashSnoc(trades: seq<Trade>, k: nat)
    requires 0 < k <= |trades|
    ensures NetCash(trades[..k]) == NetCash(trades[..k - 1]) + trades[k - 1].NetAmount()
  {
    assert trades[..k][..k - 1] == trades[..k - 1];
  }

  /** Paired, waiting and dropped trades together moved all the cash the trades moved. */
  lemma {:induction false} NetSplits(trades: seq<Trade>, k: nat)
    requires k <= |trades|
    ensures var f := FifoAfter(trades, k);
            PairsProfit(PairsOf(trades, f.pairs)) + NetAt(trades, f.queue) + NetAt(trades, f.dropped)
                == NetCash(trades[..k])
  {
    if k == 0 {
    } else {
      NetSplits(trades, k - 1);
      NetCashSnoc(trades, k);
      var f := FifoAfter(trades, k - 1);
      if trades[k - 1].side == Buy {
        NetAtSnoc(trades, f.queue, k - 1);
      } else if f.queue == [] {
        NetAtSnoc(trades, f.dropped, k - 1);
      } else {
        NetAtFirst(trades, f.queue);
        PairsProfitSnoc(trades, f.pairs, (f.queue[0], k - 1));
      }
    }
  }

  /** In a backtest, the pairs' profit and the unpaired trades' cash add up to final cash less initial capital. */
  lemma ProfitsAddUp<S>(
    p: Plugins.Plugin<S>, costs: Costs, state: S, capital: real, symbol: string, candles: seq<Candle>)
    requires RunFrom(p, costs, state, capital, symbol, candles).Some?
    ensures var b := RunFrom(p, costs, state, capital, symbol, candles).value.book;
            var f := FifoAfter(b.trades, |b.trades|);
            PairsProfit(PairsOf(b.trades, f.pairs)) + NetAt(b.trades, f.queue) + NetAt(b.trades, f.dropped)
                == b.cash - capital
  {
    RunConserves(p, costs, state, capital, symbol, candles, |candles|);
    var trades := RunFrom(p, costs, state, capital, symbol, candles).value.book.trades;
    NetSplits(trades, |trades|);
    assert trades[..|trades|] == trades;
  }

  // ----- the report

  /** `plRatio` None stands for the infinite ratio. */
  datatype Performance = Performance(winRate: real, plRatio: Option<real>, mdd: real, totalTrades: nat)

  /** The share of `part` in `whole`; nothing has no share. */
  predicate IsShare(share: real, part: nat, whole: nat) {
    if whole == 0 then share == 0.0 else 0.0 <= share <= 1.0 && share * whole as real == part as real
  }

  /** The average profit of the wins is `ratio` times the average loss of the losses; without a win it is zero. */
  predicate IsProfitLossRatio(ratio: real, profit: real, wins: nat, loss: real, losses: nat) {
    if wins == 0 then ratio == 0.0 else ratio * (loss * wins as real) == profit * losses as real
  }

  predicate RatioOf(ratio: real, pairs: seq<(Trade, Trade)>) {
    Wins(pairs) <= |pairs| && IsProfitLossRatio(ratio, WonBy(pairs), Wins(pairs), LostBy(pairs), |pairs| - Wins(pairs))
  }

  method CalculateMetrics(trades: seq<Trade>, equity: seq<real>) returns (m: Performance)
    ensures m.totalTrades == |trades| && m.mdd == if |equity| < 2 then 0.0 else OnePass(equity, |equity|)
    ensures var pairs := FifoPairs(trades);
            && IsShare(m.winRate, Wins(pairs), |pairs|)
            && (trades != [] ==> (m.plRatio.None? <==> NoneLost(pairs)))
            && (trades == [] ==> m.plRatio == Some(0.0))
            && (m.plRatio.Some? ==> RatioOf(m.plRatio.value, pairs) && (m.plRatio.value > 0.0 <==> Wins(pairs) > 0))
  {
    var mdd := CalculateMdd(equity);
    if trades == [] {
      return Performance(0.0, Some(0.0), mdd, 0);
    }
    var pairs := PairTrades(trades);
    var winRate, plRatio := Summarize(pairs);
    m := Performance(winRate, plRatio, mdd, |trades|);
  }

  method Summarize(pairs: seq<(Trade, Trade)>) returns (winRate: real, plRatio: Option<real>)
    ensures IsShare(winRate, Wins(pairs), |pairs|)
    ensures plRatio.None? <==> NoneLost(pairs)
    ensures plRatio.Some? ==> RatioOf(plRatio.value, pairs) && (plRatio.value > 0.0 <==> Wins(pairs) > 0)
  {
    var wins, losses, totalProfit, totalLoss := Tally(pairs);
    winRate, plRatio := Ratios(wins, losses, totalProfit, totalLoss);
  }

  /** The win rate, and average profit over average loss; the latter is infinite when nothing was lost. */
  method Ratios(wins: nat, losses: nat, profit: real, loss: real) returns (winRate: real, plRatio: Option<real>)
    requires profit >= 0.0 && loss >= 0.0 && (profit > 0.0 <==> wins > 0) && (loss > 0.0 ==> losses > 0)
    ensures IsShare(winRate, wins, wins + losses)
    ensures plRatio.None? <==> loss == 0.0
    ensures plRatio.Some? ==>
              && IsProfitLossRatio(plRatio.value, profit, wins, loss, losses)
              && (plRatio.value > 0.0 <==> wins > 0)
  {
    var closed := wins + losses;
    winRate := if closed > 0 then wins as real / closed as real else 0.0;
    RatioWithin(wins, closed);
    var avgProfit := if wins > 0 then profit / wins as real else 0.0;
    var avgLoss := if losses > 0 then loss / losses as real else 0.0;
    SignOfRatio(profit, wins);
    SignOfRatio(loss, losses);
    if avgLoss > 0.0 {
      plRatio := Some(avgProfit / avgLoss);
      PositiveRatio(avgProfit, avgLoss);
      if wins > 0 {
        CrossMultiplied(avgProfit / avgLoss, profit, wins as real, avgProfit, loss, losses as real, avgLoss);
      }
    } else {
      plRatio := None;
    }
  }

  lemma CrossMultiplied(
    ratio: real, profit: real, wins: real, avgProfit: real, loss: real, losses: real, avgLoss: real)
    requires avgProfit * wins == profit && avgLoss * losses == loss && ratio * avgLoss == avgProfit
    ensures ratio * (loss * wins) == profit * losses
  {
    assert ratio * (avgLoss * losses * wins) == ratio * avgLoss * (losses * wins);
  }

  lemma RatioWithin(part: nat, whole: nat)
    requires part <= whole
    ensures whole > 0 ==>
              && 0.0 <= part as real / whole as real <= 1.0
              && part as real / whole as real * whole as real == part as real
  {
  }

  lemma SignOfRatio(amount: real, count: nat)
    requires amount >= 0.0
    ensures count > 0 ==> amount / count as real >= 0.0 && (amount / count as real > 0.0 <==> amount > 0.0)
  {
    if count > 0 {
      PositiveRatio(amount, count as real);
    }
  }

  lemma PositiveRatio(x: real, y: real)
    requires x >= 0.0 && y > 0.0
    ensures x / y >= 0.0 && (x / y > 0.0 <==> x > 0.0) && x / y * y == x
  {
    var q := x / y;
    assert q * y == x;
  }
}
