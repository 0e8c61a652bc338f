/**
 The pairs of core/backtest/metrics.py are made by counting trades, not lots. The truth is kept by lots: every
 sale sells the oldest lots held, at what each of them cost. When the booked profits, the win count and the
 infinite ratio are those of the lots actually sold.
 */
module PairFit {
  import opened Arithmetic
  import opened Market
  import opened Plugins
  import opened Backtest
  import opened BacktestMoney
  import opened Metrics
  import opened Wrappers

  // ----- lots, first in first out

  /** Lots left of the purchase at one position of the trade list. */
  datatype Batch = Batch(at: nat, left: Lots)

  /** The batches left after selling some lots, the oldest first. */
  function LeftAfter(batches: seq<Batch>, lots: nat): seq<Batch> {
    if batches == [] || lots == 0 then batches
    else if batches[0].left <= lots then LeftAfter(batches[1..], lots - batches[0].left)
    else [batches[0].(left := batches[0].left - lots)] + batches[1..]
  }

  /** The batches held after the first `k` trades. */
  function Held(trades: seq<Trade>, k: nat): (batches: seq<Batch>)
    requires k <= |trades|
    ensures BatchesOf(trades, k, batches)
  {
    if k == 0 then []
    else
      var before, trade := Held(trades, k - 1), trades[k - 1];
      LeftBatches(trades, k - 1, before, trade.qty);
      if trade.side == Buy then before + [Batch(k - 1, trade.qty)] else LeftAfter(before, trade.qty)
  }

  /** Every batch is of a purchase among the first `k` trades. */
  predicate BatchesOf(trades: seq<Trade>, k: nat, batches: seq<Batch>) {
    k <= |trades| && forall i :: 0 <= i < |batches| ==> batches[i].at < k && trades[batches[i].at].side == Buy
  }

  lemma {:induction false} LeftBatches(trades: seq<Trade>, k: nat, batches: seq<Batch>, lots: nat)
    requires BatchesOf(trades, k, batches)
    ensures BatchesOf(trades, k, LeftAfter(batches, lots))
    decreases batches
  {
    if batches == [] || lots == 0 {
    } else if batches[0].left <= lots {
      LeftBatches(trades, k, batches[1..], lots - batches[0].left);
    }
  }

  /** The cash some lots of a purchase moved, negative. */
  function ShareOf(trade: Trade, lots: nat): real {
    trade.NetAmount() * (lots as real / trade.qty as real)
  }

  /** The cash moved by the purchase of the oldest lots. */
  function CostOf(trades: seq<Trade>, batches: seq<Batch>, lots: nat): real
    requires BatchesOf(trades, |trades|, batches)
    decreases batches
  {
    if batches == [] || lots == 0 then 0.0
    else
      var taken := Min(batches[0].left, lots);
      ShareOf(trades[batches[0].at], taken) + CostOf(trades, batches[1..], lots - taken)
  }

  function CostSold(trades: seq<Trade>, k: nat): real
    requires k < |trades|
  {
    CostOf(trades, Held(trades, k), trades[k].qty)
  }

  /** What the lots of the sale at position `k` made. */
  function LotProfit(trades: seq<Trade>, k: nat): real
    requires k < |trades|
  {
    trades[k].NetAmount() + CostSold(trades, k)
  }

  predicate Positions(trades: seq<Trade>, pairs: seq<(nat, nat)>) {
    forall i :: 0 <= i < |pairs| ==> pairs[i].0 < pairs[i].1 < |trades|
  }

  function TrueWins(trades: seq<Trade>, pairs: seq<(nat, nat)>): nat
    requires Positions(trades, pairs)
  {
    if pairs == [] then 0
    else
      var n := |pairs| - 1;
      TrueWins(trades, pairs[..n]) + if LotProfit(trades, pairs[n].1) > 0.0 then 1 else 0
  }

  ghost predicate NoneTrulyLost(trades: seq<Trade>, pairs: seq<(nat, nat)>)
    requires Positions(trades, pairs)
  {
    forall i :: 0 <= i < |pairs| ==> LotProfit(trades, pairs[i].1) >= 0.0
  }

  /** The positions paired by the source. */
  function Paired(trades: seq<Trade>): (pairs: seq<(nat, nat)>)
    ensures Positions(trades, pairs)
  {
    FifoAfter(trades, |trades|).pairs
  }

  // ----- when the report is true

  /** The lots sold cost what the purchase paired with the sale cost. */
  predicate CostFits(trades: seq<Trade>, pair: (nat, nat))
    requires pair.0 < pair.1 < |trades|
  {
    CostSold(trades, pair.1) == trades[pair.0].NetAmount()
  }

  ghost predicate CostsFit(trades: seq<Trade>) {
    forall i :: 0 <= i < |Paired(trades)| ==> CostFits(trades, Paired(trades)[i])
  }

  /** The win count of the report, and its verdict that nothing was lost, are those of the lots sold. */
  ghost predicate WinsTrue(trades: seq<Trade>) {
    Wins(FifoPairs(trades)) == TrueWins(trades, Paired(trades))
  }

  ghost predicate VerdictTrue(trades: seq<Trade>) {
    NoneLost(FifoPairs(trades)) <==> NoneTrulyLost(trades, Paired(trades))
  }

  /** The same purchases, and sales of the same lots, whatever they bring. */
  ghost predicate SamePurchases(trades: seq<Trade>, others: seq<Trade>) {
    && SameLots(trades, others)
    && forall i :: 0 <= i < |trades| && trades[i].side == Buy ==> others[i] == trades[i]
  }

  /** The same sides and lots, whatever the prices. */
  ghost predicate SameLots(trades: seq<Trade>, others: seq<Trade>) {
    |others| == |trades|
    && forall i :: 0 <= i < |trades| ==> others[i].side == trades[i].side && others[i].qty == trades[i].qty
  }

  /** Pairing and lots depend on sides and lots alone. */
  lemma {:induction false} SamePairs(trades: seq<Trade>, others: seq<Trade>, k: nat)
    requires SameLots(trades, others) && k <= |trades|
    ensures FifoAfter(others, k) == FifoAfter(trades, k) && Held(others, k) == Held(trades, k)
  {
    if k == 0 {
    } else {
      SamePairs(trades, others, k - 1);
    }
  }

  lemma {:induction false} SameCost(trades: seq<Trade>, others: seq<Trade>, batches: seq<Batch>, lots: nat)
    requires SamePurchases(trades, others) && BatchesOf(trades, |trades|, batches)
    ensures BatchesOf(others, |others|, batches) && CostOf(others, batches, lots) == CostOf(trades, batches, lots)
    decreases batches
  {
    if batches == [] || lots == 0 {
    } else {
      SameCost(trades, others, batches[1..], lots - Min(batches[0].left, lots));
    }
  }

  lemma SameCostSold(trades: seq<Trade>, others: seq<Trade>, k: nat)
    requires SamePurchases(trades, others) && k < |trades|
    ensures CostSold(others, k) == CostSold(trades, k)
  {
    SamePairs(trades, others, k);
    SameCost(trades, others, Held(trades, k), trades[k].qty);
  }

  /** What the source books for a pair. */
  function Booked(trades: seq<Trade>, pair: (nat, nat)): real
    requires pair.0 < pair.1 < |trades|
  {
    PairProfit((trades[pair.0], trades[pair.1]))
  }

  predicate RightlyWon(trades: seq<Trade>, pair: (nat, nat))
    requires pair.0 < pair.1 < |trades|
  {
    Booked(trades, pair) > 0.0 <==> LotProfit(trades, pair.1) > 0.0
  }

  /** A pair is booked at the profit of the lots sold exactly when its costs fit. */
  lemma ProfitExact(trades: seq<Trade>, pair: (nat, nat))
    requires pair.0 < pair.1 < |trades|
    ensures Booked(trades, pair) == LotProfit(trades, pair.1) <==> CostFits(trades, pair)
  {
  }

  lemma PairsOfSnoc(trades: seq<Trade>, pairs: seq<(nat, nat)>)
    requires Positions(trades, pairs) && pairs != []
    ensures var n := |pairs| - 1;
            PairsOf(trades, pairs)[..n] == PairsOf(trades, pairs[..n])
            && PairsOf(trades, pairs)[n] == (trades[pairs[n].0], trades[pairs[n].1])
  {
  }

  lemma {:induction false} WinsAgree(trades: seq<Trade>, pairs: seq<(nat, nat)>)
    requires Positions(trades, pairs) && forall i :: 0 <= i < |pairs| ==> RightlyWon(trades, pairs[i])
    ensures Wins(PairsOf(trades, pairs)) == TrueWins(trades, pairs)
  {
    if pairs == [] {
    } else {
      WinsAgree(trades, pairs[..|pairs| - 1]);
      PairsOfSnoc(trades, pairs);
    }
  }

  lemma {:induction false} WinsDiffer(trades: seq<Trade>, pairs: seq<(nat, nat)>, i: nat)
    requires Positions(trades, pairs) && i < |pairs| && !RightlyWon(trades, pairs[i])
    requires forall j :: 0 <= j < |pairs| && j != i ==> RightlyWon(trades, pairs[j])
    ensures Wins(PairsOf(trades, pairs)) != TrueWins(trades, pairs)
  {
    var n := |pairs| - 1;
    PairsOfSnoc(trades, pairs);
    if i == n {
      WinsAgree(trades, pairs[..n]);
    } else {
      WinsDiffer(trades, pairs[..n], i);
    }
  }

  lemma FittingReport(trades: seq<Trade>, others: seq<Trade>)
    requires CostsFit(trades) && SamePurchases(trades, others)
    ensures WinsTrue(others) && VerdictTrue(others)
  {
    var pairs := Paired(trades);
    SamePairs(trades, others, |trades|);
    BuysFirst(trades);
    forall i | 0 <= i < |pairs| ensures CostFits(others, pairs[i]) {
      assert CostFits(trades, pairs[i]);
      SameCostSold(trades, others, pairs[i].1);
    }
    TrueReport(others, pairs);
  }

  lemma TrueReport(trades: seq<Trade>, pairs: seq<(nat, nat)>)
    requires Paired(trades) == pairs && forall i :: 0 <= i < |pairs| ==> CostFits(trades, pairs[i])
    ensures WinsTrue(trades) && VerdictTrue(trades)
  {
    var booked := PairsOf(trades, pairs);
    forall i | 0 <= i < |pairs| ensures PairProfit(booked[i]) == LotProfit(trades, pairs[i].1) {
      assert CostFits(trades, pairs[i]);
    }
    WinsAgree(trades, pairs);
  }

  /** Every pair but one is won by either reckoning. */
  ghost predicate OthersWon(trades: seq<Trade>, pairs: seq<(nat, nat)>, i: nat)
    requires Positions(trades, pairs)
  {
    forall j :: 0 <= j < |pairs| && j != i ==> Booked(trades, pairs[j]) > 0.0 && LotProfit(trades, pairs[j].1) > 0.0
  }

  /** One pair the wrong way among such pairs makes both the count and the verdict wrong. */
  lemma WrongReport(trades: seq<Trade>, pairs: seq<(nat, nat)>, i: nat)
    requires Paired(trades) == pairs && i < |pairs| && OthersWon(trades, pairs, i)
    requires !RightlyWon(trades, pairs[i]) && (Booked(trades, pairs[i]) >= 0.0 <==> LotProfit(trades, pairs[i].1) < 0.0)
    ensures !WinsTrue(trades) && !VerdictTrue(trades)
  {
    WinsDiffer(trades, pairs, i);
    WrongVerdict(trades, pairs, i);
  }

  lemma WrongVerdict(trades: seq<Trade>, pairs: seq<(nat, nat)>, i: nat)
    requires Paired(trades) == pairs && i < |pairs| && OthersWon(trades, pairs, i)
    requires Booked(trades, pairs[i]) >= 0.0 <==> LotProfit(trades, pairs[i].1) < 0.0
    ensures !VerdictTrue(trades)
  {
    var booked := PairsOf(trades, pairs);
    forall j | 0 <= j < |pairs| ensures PairProfit(booked[j]) == Booked(trades, pairs[j]) {
    }
    assert NoneLost(booked) <==> PairProfit(booked[i]) >= 0.0;
    assert NoneTrulyLost(trades, pairs) <==> LotProfit(trades, pairs[i].1) >= 0.0;
  }

  lemma BuysFirst(trades: seq<Trade>)
    ensures var pairs := Paired(trades);
            forall i :: 0 <= i < |pairs| ==> trades[pairs[i].0].side == Buy && trades[pairs[i].1].side == Sell
    ensures Increasing(Seconds(Paired(trades)))
  {
    PairsAreFifo(trades);
  }

  // ----- when it is not

  /** A sale of the same lots that brings the given net amount. */
  function SaleFor(sale: Trade, net: real): Trade {
    Trade(sale.symbol, Sell, net / sale.qty as real, sale.qty, 0.0, 0.0, 0, 0)
  }

  lemma SaleBrings(sale: Trade, net: real)
    ensures SaleFor(sale, net).NetAmount() == net
  {
    var n := sale.qty as real;
    assert net / n * n == net;
  }

  /** No trade among the first `k` moves more cash than this. */
  function Largest(trades: seq<Trade>, k: nat): real
    requires k <= |trades|
  {
    if k == 0 then 0.0 else MaxReal(Largest(trades, k - 1), Abs(trades[k - 1].NetAmount()))
  }

  lemma {:induction false} LargestBounds(trades: seq<Trade>, k: nat)
    requires k <= |trades|
    ensures forall i :: 0 <= i < k ==> Abs(trades[i].NetAmount()) <= Largest(trades, k)
  {
    if k == 0 {
    } else {
      LargestBounds(trades, k - 1);
    }
  }

  /** A sale that wins by either reckoning. */
  function Windfall(trades: seq<Trade>, k: nat): real
    requires k < |trades|
  {
    Largest(trades, |trades|) + Abs(CostSold(trades, k)) + 1.0
  }

  /** A sale midway between what the lots cost and what the paired purchase did. */
  function Midway(trades: seq<Trade>, pair: (nat, nat)): real
    requires pair.0 < pair.1 < |trades|
  {
    -(trades[pair.0].NetAmount() + CostSold(trades, pair.1)) / 2.0
  }

  /** One sale midway among windfalls. */
  function WithMidway(trades: seq<Trade>, pair: (nat, nat)): seq<Trade>
    requires pair.0 < pair.1 < |trades|
  {
    seq(|trades|, k requires 0 <= k < |trades| =>
      if trades[k].side == Buy then trades[k]
      else SaleFor(trades[k], if k == pair.1 then Midway(trades, pair) else Windfall(trades, k)))
  }

  lemma MidwayShows(trades: seq<Trade>, i: nat)
    requires i < |Paired(trades)| && !CostFits(trades, Paired(trades)[i])
    ensures var others := WithMidway(trades, Paired(trades)[i]);
            SamePurchases(trades, others) && !WinsTrue(others) && !VerdictTrue(others)
  {
    var pairs := Paired(trades);
    var others := WithMidway(trades, pairs[i]);
    SamePairs(trades, others, |trades|);
    BuysFirst(trades);
    forall j | 0 <= j < |pairs| && j != i
      ensures Booked(others, pairs[j]) > 0.0 && LotProfit(others, pairs[j].1) > 0.0
    {
      assert Seconds(pairs)[j] != Seconds(pairs)[i];
      WindfallWins(trades, pairs[i], pairs[j]);
    }
    MidwayDiffers(trades, pairs[i]);
    WrongReport(others, pairs, i);
  }

  lemma WindfallWins(trades: seq<Trade>, midway: (nat, nat), pair: (nat, nat))
    requires midway.0 < midway.1 < |trades| && pair.0 < pair.1 < |trades| && pair.1 != midway.1
    requires trades[pair.0].side == Buy && trades[pair.1].side == Sell
    ensures var others := WithMidway(trades, midway);
            Booked(others, pair) > 0.0 && LotProfit(others, pair.1) > 0.0
  {
    SaleBrings(trades[pair.1], Windfall(trades, pair.1));
    LargestBounds(trades, |trades|);
    SameCostSold(trades, WithMidway(trades, midway), pair.1);
  }

  lemma MidwayDiffers(trades: seq<Trade>, pair: (nat, nat))
    requires pair.0 < pair.1 < |trades| && trades[pair.0].side == Buy && trades[pair.1].side == Sell
    requires !CostFits(trades, pair)
    ensures var others := WithMidway(trades, pair);
            && !RightlyWon(others, pair)
            && (Booked(others, pair) >= 0.0 <==> LotProfit(others, pair.1) < 0.0)
  {
    var others := WithMidway(trades, pair);
    SaleBrings(trades[pair.1], Midway(trades, pair));
    SameCostSold(trades, others, pair.1);
  }

  /**
   Whatever the sales bring, the win count, and likewise the verdict that nothing was lost, are those of the
   lots actually sold if and only if every sale's lots cost what its paired purchase cost.
   */
  lemma ClassifiesExactly(trades: seq<Trade>)
    ensures (forall others :: SamePurchases(trades, others) ==> WinsTrue(others)) <==> CostsFit(trades)
    ensures (forall others :: SamePurchases(trades, others) ==> VerdictTrue(others)) <==> CostsFit(trades)
  {
    if CostsFit(trades) {
      forall others | SamePurchases(trades, others) ensures WinsTrue(others) && VerdictTrue(others) {
        FittingReport(trades, others);
      }
    } else {
      var i: nat :| i < |Paired(trades)| && !CostFits(trades, Paired(trades)[i]);
      MidwayShows(trades, i);
    }
  }

  // ----- which lots make the costs fit whatever the prices

  predicate EqualLots(trades: seq<Trade>, pair: (nat, nat))
    requires pair.0 < pair.1 < |trades|
  {
    trades[pair.0].qty == trades[pair.1].qty
  }

  ghost predicate AllEqual(trades: seq<Trade>, pairs: seq<(nat, nat)>)
    requires Positions(trades, pairs)
  {
    forall i :: 0 <= i < |pairs| ==> EqualLots(trades, pairs[i])
  }

  /** Every sale is of as many lots as the purchase it is paired with. */
  ghost predicate Matched(trades: seq<Trade>) {
    AllEqual(trades, Paired(trades))
  }

  lemma EarlierEqual(trades: seq<Trade>, pairs: seq<(nat, nat)>, earlier: seq<(nat, nat)>)
    requires Positions(trades, pairs) && AllEqual(trades, pairs) && earlier <= pairs
    ensures Positions(trades, earlier) && AllEqual(trades, earlier)
  {
    forall i | 0 <= i < |earlier| ensures earlier[i].0 < earlier[i].1 < |trades| && EqualLots(trades, earlier[i]) {
      assert earlier[i] == pairs[i];
    }
  }

  /** No prefix sells lots that were never bought. */
  ghost predicate Covered(trades: seq<Trade>) {
    forall k :: 0 <= k <= |trades| ==> NetLots(trades[..k]) >= 0
  }

  function Whole(trades: seq<Trade>, queue: seq<nat>): seq<Batch>
    requires forall i :: 0 <= i < |queue| ==> queue[i] < |trades|
  {
    seq(|queue|, i requires 0 <= i < |queue| => Batch(queue[i], trades[queue[i]].qty))
  }

  /** While every pair has equal lots, what is held is the waiting purchases, each of them whole. */
  lemma {:induction false} HeldWhole(trades: seq<Trade>, k: nat)
    requires k <= |trades| && AllEqual(trades, FifoAfter(trades, k).pairs)
    ensures Held(trades, k) == Whole(trades, FifoAfter(trades, k).queue)
  {
    if k == 0 {
    } else {
      var f, trade := FifoAfter(trades, k - 1), trades[k - 1];
      EarlierEqual(trades, FifoAfter(trades, k).pairs, f.pairs);
      HeldWhole(trades, k - 1);
      if trade.side == Buy {
        assert Whole(trades, f.queue + [k - 1]) == Whole(trades, f.queue) + [Batch(k - 1, trade.qty)];
      } else if f.queue != [] {
        assert EqualLots(trades, FifoAfter(trades, k).pairs[|f.pairs|]);
        WholeSold(trades, f.queue, trade.qty);
      }
    }
  }

  lemma WholeSold(trades: seq<Trade>, queue: seq<nat>, lots: nat)
    requires queue != [] && forall i :: 0 <= i < |queue| ==> queue[i] < |trades|
    requires lots == trades[queue[0]].qty
    ensures LeftAfter(Whole(trades, queue), lots) == Whole(trades, queue[1..])
  {
    var held := Whole(trades, queue);
    assert held[1..] == Whole(trades, queue[1..]);
    assert LeftAfter(held[1..], 0) == held[1..];
  }

  /** A sale is paired with the purchase waiting longest when it was made. */
  lemma {:induction false} PairMade(trades: seq<Trade>, k: nat, i: nat)
    requires k <= |trades| && i < |FifoAfter(trades, k).pairs|
    ensures var pair := FifoAfter(trades, k).pairs[i];
            var f := FifoAfter(trades, pair.1);
            && f.queue != [] && f.queue[0] == pair.0 && f.pairs == FifoAfter(trades, k).pairs[..i]
  {
    if k == 0 {
      assert false;
    } else {
      var f := FifoAfter(trades, k - 1);
      if i < |f.pairs| {
        PairMade(trades, k - 1, i);
        assert FifoAfter(trades, k).pairs[..i] == f.pairs[..i];
      } else {
        assert FifoAfter(trades, k).pairs[..i] == f.pairs;
      }
    }
  }

  lemma MatchedFits(trades: seq<Trade>)
    requires Matched(trades)
    ensures CostsFit(trades)
  {
    var pairs := Paired(trades);
    forall i | 0 <= i < |pairs| ensures CostFits(trades, pairs[i]) {
      var sold := pairs[i].1;
      assert EqualLots(trades, pairs[i]);
      PairMade(trades, |trades|, i);
      EarlierEqual(trades, pairs, FifoAfter(trades, sold).pairs);
      HeldWhole(trades, sold);
      WholeCost(trades, Held(trades, sold), trades[sold].qty);
    }
  }

  /** Selling exactly the oldest purchase, still whole, costs what it cost. */
  lemma WholeCost(trades: seq<Trade>, batches: seq<Batch>, lots: Lots)
    requires BatchesOf(trades, |trades|, batches) && batches != []
    requires batches[0].left == lots == trades[batches[0].at].qty
    ensures CostOf(trades, batches, lots) == trades[batches[0].at].NetAmount()
  {
    assert lots as real / lots as real == 1.0;
    assert CostOf(trades, batches[1..], 0) == 0.0;
  }

  function Total(batches: seq<Batch>): nat {
    if batches == [] then 0 else batches[0].left + Total(batches[1..])
  }

  lemma {:induction false} TotalSnoc(batches: seq<Batch>, batch: Batch)
    ensures Total(batches + [batch]) == Total(batches) + batch.left
  {
    if batches == [] {
    } else {
      TotalSnoc(batches[1..], batch);
      assert (batches + [batch])[1..] == batches[1..] + [batch];
    }
  }

  lemma {:induction false} TotalLeft(batches: seq<Batch>, lots: nat)
    requires lots <= Total(batches)
    ensures Total(LeftAfter(batches, lots)) == Total(batches) - lots
    decreases batches
  {
    if batches == [] || lots == 0 {
    } else if batches[0].left <= lots {
      TotalLeft(batches[1..], lots - batches[0].left);
    } else {
      assert LeftAfter(batches, lots)[1..] == batches[1..];
    }
  }

  /** Where no sale is short of lots, what is held is what was bought less what was sold. */
  lemma {:induction false} HeldTotal(trades: seq<Trade>, k: nat)
    requires Covered(trades) && k <= |trades|
    ensures Total(Held(trades, k)) == NetLots(trades[..k])
  {
    if k == 0 {
    } else {
      HeldTotal(trades, k - 1);
      assert trades[..k][..k - 1] == trades[..k - 1];
      var before, trade := Held(trades, k - 1), trades[k - 1];
      if trade.side == Buy {
        TotalSnoc(before, Batch(k - 1, trade.qty));
      } else {
        assert NetLots(trades[..k]) >= 0;
        TotalLeft(before, trade.qty);
      }
    }
  }

  /** The same trades at one unit of money per lot. */
  function UnitPrices(trades: seq<Trade>): seq<Trade> {
    seq(|trades|, i requires 0 <= i < |trades| =>
      Trade(trades[i].symbol, trades[i].side, 1.0, trades[i].qty, 0.0, 0.0, 0, 0))
  }

  lemma {:induction false} UnitCost(trades: seq<Trade>, batches: seq<Batch>, lots: nat)
    requires BatchesOf(trades, |trades|, batches) && lots <= Total(batches)
    ensures BatchesOf(UnitPrices(trades), |trades|, batches)
    ensures CostOf(UnitPrices(trades), batches, lots) == -(lots as real)
    decreases batches
  {
    if batches == [] || lots == 0 {
    } else {
      var taken := Min(batches[0].left, lots);
      UnitCost(trades, batches[1..], lots - taken);
      UnitShare(UnitPrices(trades)[batches[0].at], taken);
    }
  }

  lemma UnitShare(trade: Trade, lots: nat)
    requires trade.side == Buy && trade.price == 1.0 && trade.commission == 0.0
    ensures ShareOf(trade, lots) == -(lots as real)
  {
    var n := trade.qty as real;
    assert trade.NetAmount() == -n;
    assert lots as real / n * n == lots as real;
  }

  lemma UnitPricesMisfit(trades: seq<Trade>, i: nat)
    requires Covered(trades) && i < |Paired(trades)| && !EqualLots(trades, Paired(trades)[i])
    ensures SameLots(trades, UnitPrices(trades)) && !CostsFit(UnitPrices(trades))
  {
    var others, pair := UnitPrices(trades), Paired(trades)[i];
    SamePairs(trades, others, |trades|);
    SamePairs(trades, others, pair.1);
    BuysFirst(trades);
    HeldTotal(trades, pair.1);
    assert trades[..pair.1 + 1][..pair.1] == trades[..pair.1];
    assert NetLots(trades[..pair.1 + 1]) >= 0;
    UnitCost(trades, Held(trades, pair.1), trades[pair.1].qty);
    assert !CostFits(others, Paired(others)[i]);
  }

  lemma MatchedLots(trades: seq<Trade>, others: seq<Trade>)
    requires SameLots(trades, others) && Matched(trades)
    ensures Matched(others)
  {
    SamePairs(trades, others, |trades|);
    var pairs := Paired(trades);
    forall i | 0 <= i < |pairs| ensures EqualLots(others, pairs[i]) {
      assert EqualLots(trades, pairs[i]);
    }
  }

  /** Whatever the prices, the costs fit if and only if every sale is of as many lots as its paired purchase. */
  lemma LotsDecide(trades: seq<Trade>)
    requires Covered(trades)
    ensures (forall others :: SameLots(trades, others) ==> CostsFit(others)) <==> Matched(trades)
  {
    if Matched(trades) {
      forall others | SameLots(trades, others) ensures CostsFit(others) {
        MatchedLots(trades, others);
        MatchedFits(others);
      }
    } else {
      var i: nat :| i < |Paired(trades)| && !EqualLots(trades, Paired(trades)[i]);
      UnitPricesMisfit(trades, i);
    }
  }

  lemma CoveredSnoc(trades: seq<Trade>, t: Trade)
    requires Covered(trades) && NetLots(trades + [t]) >= 0
    ensures Covered(trades + [t])
  {
    var longer := trades + [t];
    forall k | 0 <= k <= |longer| ensures NetLots(longer[..k]) >= 0 {
      if k == |longer| {
        assert longer[..k] == longer;
      } else {
        assert longer[..k] == trades[..k];
      }
    }
  }

  /** No backtest ever sells short, so the theorem is about all of them. */
  lemma {:induction false} BacktestCovered<S>(
    p: Plugin<S>, costs: Costs, state: S, capital: real, symbol: string, candles: seq<Candle>, k: nat)
    requires k <= |candles| && After(p, costs, Fresh(state, capital), symbol, candles, k).Some?
    ensures Covered(After(p, costs, Fresh(state, capital), symbol, candles, k).value.book.trades)
  {
    if k == 0 {
    } else {
      BacktestCovered(p, costs, state, capital, symbol, candles, k - 1);
      RunConserves(p, costs, state, capital, symbol, candles, k);
      var before := After(p, costs, Fresh(state, capital), symbol, candles, k - 1).value;
      var trades := After(p, costs, Fresh(state, capital), symbol, candles, k).value.book.trades;
      if before.pending.Some? {
        FillAppends(costs, before.pending.value, candles[k - 1], before.book);
      }
      if trades != before.book.trades {
        assert trades == before.book.trades + [trades[|trades| - 1]];
        CoveredSnoc(before.book.trades, trades[|trades| - 1]);
      }
    }
  }

  lemma FillAppends(costs: Costs, p: Pending, bar: Candle, b: Book)
    requires FillSignal(costs, p, bar, b).Some?
    ensures var trades := FillSignal(costs, p, bar, b).value.trades;
            trades == b.trades || (|trades| == |b.trades| + 1 && trades[..|b.trades|] == b.trades)
  {
  }

  // ----- the totals

  /** What the lots sold made where they won, and lost where they did not. */
  function TrulyWonBy(trades: seq<Trade>, pairs: seq<(nat, nat)>): real
    requires Positions(trades, pairs)
  {
    if pairs == [] then 0.0
    else
      var n := |pairs| - 1;
      var pnl := LotProfit(trades, pairs[n].1);
      TrulyWonBy(trades, pairs[..n]) + if pnl > 0.0 then pnl else 0.0
  }

  function TrulyLostBy(trades: seq<Trade>, pairs: seq<(nat, nat)>): real
    requires Positions(trades, pairs)
  {
    if pairs == [] then 0.0
    else
      var n := |pairs| - 1;
      var pnl := LotProfit(trades, pairs[n].1);
      TrulyLostBy(trades, pairs[..n]) + if pnl > 0.0 then 0.0 else -pnl
  }

  /** Where the costs fit, both totals behind the profit ratio are true. */
  lemma {:induction false} TotalsAgree(trades: seq<Trade>, pairs: seq<(nat, nat)>)
    requires Positions(trades, pairs) && forall i :: 0 <= i < |pairs| ==> CostFits(trades, pairs[i])
    ensures WonBy(PairsOf(trades, pairs)) == TrulyWonBy(trades, pairs)
    ensures LostBy(PairsOf(trades, pairs)) == TrulyLostBy(trades, pairs)
  {
    if pairs == [] {
    } else {
      var n := |pairs| - 1;
      TotalsAgree(trades, pairs[..n]);
      assert PairProfit(PairsOf(trades, pairs)[n]) == LotProfit(trades, pairs[n].1) by {
        ProfitExact(trades, pairs[n]);
      }
      PairsOfSnoc(trades, pairs);
    }
  }

  // ----- examples

  lemma ThreeTrades(buy: Trade, part: Trade, rest: Trade)
    requires buy.side == Buy && part.side == Sell && rest.side == Sell
    ensures FifoAfter([buy, part, rest], 3) == Fifo([], [(0, 1)], [2])
  {
    var trades := [buy, part, rest];
    assert FifoAfter(trades, 0) == Fifo([], [], []);
    assert FifoAfter(trades, 1) == Fifo([0], [], []);
    assert FifoAfter(trades, 2) == Fifo([], [(0, 1)], []);
  }

  /**
   A purchase, a partial exit and the exit of the rest, as the leverage/inverse strategy trades: one pair, of
   unequal lots, and the second sale is in none.
   */
  lemma PartialExitMisfits(buy: Trade, part: Trade, rest: Trade)
    requires buy.side == Buy && part.side == Sell && rest.side == Sell && part.qty < buy.qty
    ensures Paired([buy, part, rest]) == [(0, 1)] && !Matched([buy, part, rest])
    ensures LotProfit([buy, part, rest], 1) == part.NetAmount() + ShareOf(buy, part.qty)
  {
    var trades := [buy, part, rest];
    ThreeTrades(buy, part, rest);
    assert !EqualLots(trades, Paired(trades)[0]);
    assert Held(trades, 0) == [] && Held(trades, 1) == [Batch(0, buy.qty)];
    FirstShare(trades, Held(trades, 1), part.qty);
  }

  lemma FirstShare(trades: seq<Trade>, batches: seq<Batch>, lots: Lots)
    requires BatchesOf(trades, |trades|, batches) && batches != [] && lots <= batches[0].left
    ensures CostOf(trades, batches, lots) == ShareOf(trades[batches[0].at], lots)
  {
  }

  lemma OnePair(trades: seq<Trade>, pair: (nat, nat))
    requires pair.0 < pair.1 < |trades|
    ensures PairsOf(trades, [pair]) == [(trades[pair.0], trades[pair.1])]
    ensures var pnl := PairProfit((trades[pair.0], trades[pair.1]));
            && Wins(PairsOf(trades, [pair])) == (if pnl > 0.0 then 1 else 0)
            && WonBy(PairsOf(trades, [pair])) == (if pnl > 0.0 then pnl else 0.0)
            && LostBy(PairsOf(trades, [pair])) == (if pnl > 0.0 then 0.0 else -pnl)
    ensures TrueWins(trades, [pair]) == if LotProfit(trades, pair.1) > 0.0 then 1 else 0
  {
    var pairs := PairsOf(trades, [pair]);
    assert pairs[..0] == [] && [pair][..0] == [];
    assert WonBy([]) == 0.0 && LostBy([]) == 0.0;
  }

  const TEN_BOUGHT := Trade("U", Buy, 100.0, 10, 0.0, 0.0, 1, 0)
  const FOUR_SOLD := Trade("U", Sell, 200.0, 4, 0.0, 0.0, 2, 1)
  const SIX_SOLD := Trade("U", Sell, 200.0, 6, 0.0, 0.0, 3, 2)

  /** Ten lots bought at 100 and sold at 200, four and then six: reported as one loss, though every lot doubled. */
  method DoubledButLost() returns (m: Performance)
    ensures m.winRate == 0.0 && m.plRatio == Some(0.0)
    ensures var trades := [TEN_BOUGHT, FOUR_SOLD, SIX_SOLD];
            && Paired(trades) == [(0, 1)] && Booked(trades, (0, 1)) == -200.0
            && LotProfit(trades, 1) == 400.0 && TrueWins(trades, [(0, 1)]) == 1
  {
    var trades := [TEN_BOUGHT, FOUR_SOLD, SIX_SOLD];
    DoubledLots(trades);
    OnePair(trades, (0, 1));
    m := CalculateMetrics(trades, []);
    assert m.winRate * 1.0 == 0.0;
  }

  lemma DoubledLots(trades: seq<Trade>)
    requires trades == [TEN_BOUGHT, FOUR_SOLD, SIX_SOLD]
    ensures Paired(trades) == [(0, 1)] && Booked(trades, (0, 1)) == -200.0 && LotProfit(trades, 1) == 400.0
  {
    PartialExitMisfits(TEN_BOUGHT, FOUR_SOLD, SIX_SOLD);
    assert ShareOf(TEN_BOUGHT, 4) == -400.0;
  }

  /** The other way: five lots bought at 100 and five at 200, all sold at 150, are booked as won, and made nothing. */
  lemma SoldOverTwoPurchases(first: Trade, second: Trade, sale: Trade)
    requires first == Trade("U", Buy, 100.0, 5, 0.0, 0.0, 1, 0) && second == Trade("U", Buy, 200.0, 5, 0.0, 0.0, 2, 1)
    requires sale == Trade("U", Sell, 150.0, 10, 0.0, 0.0, 3, 2)
    ensures var trades := [first, second, sale];
            Paired(trades) == [(0, 2)] && PairProfit((first, sale)) == 1000.0 && LotProfit(trades, 2) == 0.0
  {
    TwoPurchases(first, second, sale);
    var batches := [Batch(0, 5), Batch(1, 5)];
    assert batches[1..] == [Batch(1, 5)];
    FirstShare([first, second, sale], [Batch(1, 5)], 5);
    assert ShareOf(first, 5) == -500.0 && ShareOf(second, 5) == -1000.0;
  }

  lemma TwoPurchases(first: Trade, second: Trade, sale: Trade)
    requires first.side == Buy && second.side == Buy && sale.side == Sell
    ensures var trades := [first, second, sale];
            Paired(trades) == [(0, 2)] && Held(trades, 2) == [Batch(0, first.qty), Batch(1, second.qty)]
  {
    var trades := [first, second, sale];
    assert FifoAfter(trades, 0) == Fifo([], [], []);
    assert FifoAfter(trades, 1) == Fifo([0], [], []);
    assert FifoAfter(trades, 2) == Fifo([0, 1], [], []);
    assert FifoAfter(trades, 3) == Fifo([1], [(0, 2)], []);
    assert Held(trades, 0) == [] && Held(trades, 1) == [Batch(0, first.qty)];
  }
}
