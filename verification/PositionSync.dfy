/**
 The position feed (core/execution/position_sync.py): the positions table follows the broker's
 holdings, and the published changes tell a subscriber enough to follow them too.
 */
module PositionSync {
  import opened Wrappers

  /** One holding as the broker reports it; zero quantities are filtered out before this point. */
  datatype Holding = Holding(symbol: string, market: string, qty: real, avgPrice: real)

  datatype Row = Row(market: string, qty: real, avgPrice: real)

  /** The rows of one environment, by symbol. A closed position keeps its row, with quantity zero. */
  type Table = map<string, Row>

  datatype Change = Opened | Updated | Closed

  datatype PositionUpdate = PositionUpdate(symbol: string, market: string, qty: real, avgPrice: real, bookValue: real,
      change: Change)

  predicate UniqueSymbols(items: seq<Holding>) {
    forall i, j :: 0 <= i < j < |items| ==> items[i].symbol != items[j].symbol
  }

  predicate PositiveQuantities(items: seq<Holding>) {
    forall i :: 0 <= i < |items| ==> items[i].qty > 0.0
  }

  predicate Live(items: seq<Holding>, symbol: string) {
    exists i :: 0 <= i < |items| && items[i].symbol == symbol
  }

  function Upserted(t: Table, items: seq<Holding>): Table {
    if items == [] then t
    else
      var last := items[|items| - 1];
      Upserted(t, items[..|items| - 1])[last.symbol := Row(last.market, last.qty, last.avgPrice)]
  }

  function Zeroed(t: Table, symbols: seq<string>): Table {
    map s | s in t :: if s in symbols then t[s].(qty := 0.0) else t[s]
  }

  function BookValue(qty: real, avgPrice: real): real {
    qty * avgPrice
  }

  function Report(item: Holding, change: Change): PositionUpdate {
    PositionUpdate(item.symbol, item.market, item.qty, item.avgPrice, BookValue(item.qty, item.avgPrice), change)
  }

  /** The update published about one listed holding: none when quantity and price are as before. */
  function ItemChange(before: Table, item: Holding): seq<PositionUpdate> {
    if item.symbol !in before then [Report(item, Opened)]
    else if before[item.symbol].qty != item.qty
        || before[item.symbol].avgPrice != item.avgPrice then [Report(item, Updated)]
    else []
  }

  function ItemChanges(before: Table, items: seq<Holding>): seq<PositionUpdate> {
    if items == [] then []
    else ItemChanges(before, items[..|items| - 1]) + ItemChange(before, items[|items| - 1])
  }

  function ClosedUpdate(before: Table, symbol: string): PositionUpdate
    requires symbol in before
  {
    PositionUpdate(symbol, before[symbol].market, 0.0, 0.0, 0.0, Closed)
  }

  function ClosedUpdates(before: Table, symbols: seq<string>): seq<PositionUpdate>
    requires forall s :: s in symbols ==> s in before
  {
    if symbols == [] then []
    else ClosedUpdates(before, symbols[..|symbols| - 1]) + [ClosedUpdate(before, symbols[|symbols| - 1])]
  }

  /** Held locally and no longer at the broker, each once. */
  ghost predicate StaleIn(before: Table, items: seq<Holding>, symbols: seq<string>) {
    && (forall s :: s in symbols <==> s in before && before[s].qty > 0.0 && !Live(items, s))
    && (forall i, j :: 0 <= i < j < |symbols| ==> symbols[i] != symbols[j])
  }

  class PositionSyncFeed {
    var positions: Table
    var published: seq<PositionUpdate>

    constructor ()
      ensures positions == map[] && published == []
    {
      positions, published := map[], [];
    }

    /** One sync; `stale` are the symbols closed, in an order of the store's choosing. */
    method SyncOnce(items: seq<Holding>) returns (stale: seq<string>)
      modifies this
      ensures StaleIn(old(positions), items, stale)
      ensures positions == Zeroed(Upserted(old(positions), items), stale)
      ensures published == old(published) + ItemChanges(old(positions), items) + ClosedUpdates(old(positions), stale)
    {
      var before := positions;
      var changes := [];
      for i := 0 to |items|
        invariant positions == Upserted(before, items[..i]) && changes == ItemChanges(before, items[..i])
        invariant published == old(published)
      {
        assert items[..i + 1][..i] == items[..i];
        var item := items[i];
        positions := positions[item.symbol := Row(item.market, item.qty, item.avgPrice)];
        if item.symbol !in before {
          changes := changes + [Report(item, Opened)];
        } else if before[item.symbol].qty != item.qty || before[item.symbol].avgPrice != item.avgPrice {
          changes := changes + [Report(item, Updated)];
        }
      }
      assert items[..|items|] == items;
      stale := FindStale(before, items);
      UpsertedKeeps(before, items);
      var closings := CloseStale(before, stale);
      published := published + changes + closings;
    }

    method CloseStale(before: Table, stale: seq<string>) returns (closings: seq<PositionUpdate>)
      requires forall s :: s in stale ==> s in before && s in positions
      modifies this`positions
      ensures positions == Zeroed(old(positions), stale) && closings == ClosedUpdates(before, stale)
    {
      closings := [];
      ghost var upserted := positions;
      for i := 0 to |stale|
        invariant positions == Zeroed(upserted, stale[..i]) && closings == ClosedUpdates(before, stale[..i])
      {
        assert stale[..i + 1] == stale[..i] + [stale[i]];
        positions := positions[stale[i] := positions[stale[i]].(qty := 0.0)];
        closings := closings + [ClosedUpdate(before, stale[i])];
      }
      assert stale[..|stale|] == stale;
    }

    method FindStale(before: Table, items: seq<Holding>) returns (stale: seq<string>)
      ensures StaleIn(before, items, stale)
    {
      stale := [];
      var left := before.Keys;
      while left != {}
        invariant left <= before.Keys
        invariant forall s :: s in stale <==> s in before && s !in left && before[s].qty > 0.0 && !Live(items, s)
        invariant forall i, j :: 0 <= i < j < |stale| ==> stale[i] != stale[j]
        decreases left
      {
        var s :| s in left;
        left := left - {s};
        if before[s].qty > 0.0 && !Live(items, s) {
          stale := stale + [s];
        }
      }
    }
  }

  lemma {:induction false} UpsertedKeeps(t: Table, items: seq<Holding>)
    ensures t.Keys <= Upserted(t, items).Keys
    ensures forall s :: s in t && !Live(items, s) ==> Upserted(t, items)[s] == t[s]
    ensures forall s :: s in Upserted(t, items) ==> s in t || Live(items, s)
  {
    if items == [] {
    } else {
      var n := |items| - 1;
      UpsertedKeeps(t, items[..n]);
      assert items == items[..n] + [items[n]];
      forall s ensures Live(items, s) <==> Live(items[..n], s) || s == items[n].symbol {
        if Live(items[..n], s) {
          var i :| 0 <= i < n && items[..n][i].symbol == s;
          assert items[i].symbol == s;
        }
        if Live(items, s) && s != items[n].symbol {
          var i :| 0 <= i < |items| && items[i].symbol == s;
          assert items[..n][i].symbol == s;
        }
      }
    }
  }

  // ----- replaying the published changes

  /** What a subscriber holds: quantity and average price of each open position. */
  type View = map<string, (real, real)>

  function Applied(v: View, u: PositionUpdate): View {
    match u.change
    case Closed => v - {u.symbol}
    case Opened => v[u.symbol := (u.qty, u.avgPrice)]
    case Updated => v[u.symbol := (u.qty, u.avgPrice)]
  }

  function Replayed(v: View, updates: seq<PositionUpdate>): View {
    if updates == [] then v else Applied(Replayed(v, updates[..|updates| - 1]), updates[|updates| - 1])
  }

  lemma {:induction false} ReplayedConcat(v: View, xs: seq<PositionUpdate>, ys: seq<PositionUpdate>)
    ensures Replayed(v, xs + ys) == Replayed(Replayed(v, xs), ys)
  {
    if ys == [] {
      assert xs + ys == xs;
    } else {
      var n := |ys| - 1;
      ReplayedConcat(v, xs, ys[..n]);
      assert (xs + ys)[..|xs| + n] == xs + ys[..n];
    }
  }

  function OpenRows(t: Table): View {
    map s | s in t && t[s].qty > 0.0 :: (t[s].qty, t[s].avgPrice)
  }

  function HoldingsView(items: seq<Holding>): View {
    if items == [] then map[]
    else
      var last := items[|items| - 1];
      HoldingsView(items[..|items| - 1])[last.symbol := (last.qty, last.avgPrice)]
  }

  lemma ReplayedOne(v: View, u: PositionUpdate)
    ensures Replayed(v, [u]) == Applied(v, u)
  {
    assert [u][..0] == [];
  }

  /** Recording one holding in a row, and applying what is published about it, agree. */
  lemma ItemReplay(before: Table, t: Table, item: Holding)
    requires item.qty > 0.0
    requires item.symbol in before <==> item.symbol in t
    requires item.symbol in t ==> t[item.symbol] == before[item.symbol]
    ensures Replayed(OpenRows(t), ItemChange(before, item))
            == OpenRows(t[item.symbol := Row(item.market, item.qty, item.avgPrice)])
  {
    var v, t' := OpenRows(t), t[item.symbol := Row(item.market, item.qty, item.avgPrice)];
    var change := ItemChange(before, item);
    assert OpenRows(t') == v[item.symbol := (item.qty, item.avgPrice)];
    if change != [] {
      ReplayedOne(v, change[0]);
    }
  }

  /** Replaying the item changes brings a view of the old rows to the upserted rows. */
  lemma {:induction false} ItemsReplay(before: Table, items: seq<Holding>)
    requires UniqueSymbols(items) && PositiveQuantities(items)
    ensures Replayed(OpenRows(before), ItemChanges(before, items)) == OpenRows(Upserted(before, items))
  {
    if items == [] {
    } else {
      var n := |items| - 1;
      ItemsReplay(before, items[..n]);
      UpsertedKeeps(before, items[..n]);
      assert !Live(items[..n], items[n].symbol);
      ReplayedConcat(OpenRows(before), ItemChanges(before, items[..n]), ItemChange(before, items[n]));
      ItemReplay(before, Upserted(before, items[..n]), items[n]);
    }
  }

  lemma ZeroedOne(t: Table, symbols: seq<string>)
    requires symbols != []
    ensures OpenRows(Zeroed(t, symbols)) == OpenRows(Zeroed(t, symbols[..|symbols| - 1])) - {symbols[|symbols| - 1]}
  {
    assert symbols == symbols[..|symbols| - 1] + [symbols[|symbols| - 1]];
  }

  lemma {:induction false} ClosedReplay(before: Table, t: Table, symbols: seq<string>)
    requires forall s :: s in symbols ==> s in before
    ensures Replayed(OpenRows(t), ClosedUpdates(before, symbols)) == OpenRows(Zeroed(t, symbols))
  {
    if symbols == [] {
      assert Zeroed(t, symbols) == t;
    } else {
      var n := |symbols| - 1;
      var v, earlier, last := OpenRows(t), ClosedUpdates(before, symbols[..n]), ClosedUpdate(before, symbols[n]);
      assert Replayed(v, earlier + [last]) == Applied(Replayed(v, earlier), last) by {
        ReplayedConcat(v, earlier, [last]);
        ReplayedOne(Replayed(v, earlier), last);
      }
      ClosedReplay(before, t, symbols[..n]);
      ZeroedOne(t, symbols);
    }
  }

  lemma {:induction false} HoldingsUpserted(t: Table, items: seq<Holding>)
    requires PositiveQuantities(items)
    ensures HoldingsView(items).Keys == set i | 0 <= i < |items| :: items[i].symbol
    ensures forall s :: s in HoldingsView(items) ==>
              s in Upserted(t, items) && Upserted(t, items)[s].qty > 0.0
              && HoldingsView(items)[s] == (Upserted(t, items)[s].qty, Upserted(t, items)[s].avgPrice)
  {
    if items == [] {
    } else {
      var n := |items| - 1;
      HoldingsUpserted(t, items[..n]);
      assert items == items[..n] + [items[n]];
    }
  }

  /** After a sync, the open rows are the broker's holdings, whatever the table held before. */
  lemma TableFollows(before: Table, items: seq<Holding>, stale: seq<string>)
    requires UniqueSymbols(items) && PositiveQuantities(items) && StaleIn(before, items, stale)
    ensures OpenRows(Zeroed(Upserted(before, items), stale)) == HoldingsView(items)
  {
    UpsertedKeeps(before, items);
    HoldingsUpserted(before, items);
    var t := Zeroed(Upserted(before, items), stale);
    forall s | s in t ensures t[s].qty > 0.0 <==> Live(items, s) {
      if Live(items, s) {
        var i :| 0 <= i < |items| && items[i].symbol == s;
        assert s in HoldingsView(items);
      }
    }
    forall s ensures s in HoldingsView(items) <==> s in t && t[s].qty > 0.0 {
      if s in HoldingsView(items) {
        var i :| 0 <= i < |items| && items[i].symbol == s;
        assert Live(items, s);
      }
      if s in t && t[s].qty > 0.0 {
        var i :| 0 <= i < |items| && items[i].symbol == s;
      }
    }
  }

  /** One sync takes a subscriber that was in step with the table to the broker's holdings. */
  lemma SyncReplays(before: Table, items: seq<Holding>, stale: seq<string>)
    requires UniqueSymbols(items) && PositiveQuantities(items) && StaleIn(before, items, stale)
    ensures Replayed(OpenRows(before), ItemChanges(before, items) + ClosedUpdates(before, stale)) == HoldingsView(items)
  {
    ItemsReplay(before, items);
    UpsertedKeeps(before, items);
    ReplayedConcat(OpenRows(before), ItemChanges(before, items), ClosedUpdates(before, stale));
    ClosedReplay(before, Upserted(before, items), stale);
    TableFollows(before, items, stale);
  }

  /** The table after one sync; the order in which stale positions are closed does not matter. */
  function AfterSync(t: Table, items: seq<Holding>): Table {
    var upserted := Upserted(t, items);
    map s | s in upserted :: if s in t && t[s].qty > 0.0
        && !Live(items, s) then upserted[s].(qty := 0.0) else upserted[s]
  }

  function AfterSyncs(balances: seq<seq<Holding>>): Table {
    if balances == [] then map[] else AfterSync(AfterSyncs(balances[..|balances| - 1]), balances[|balances| - 1])
  }

  lemma ZeroedIsAfterSync(before: Table, items: seq<Holding>, stale: seq<string>)
    requires StaleIn(before, items, stale)
    ensures Zeroed(Upserted(before, items), stale) == AfterSync(before, items)
  {
  }

  /** One sync, to a subscriber that has replayed everything published so far. */
  lemma SyncFollows(published: seq<PositionUpdate>, before: Table, items: seq<Holding>, stale: seq<string>)
    requires UniqueSymbols(items) && PositiveQuantities(items) && StaleIn(before, items, stale)
    requires Replayed(map[], published) == OpenRows(before)
    ensures Replayed(map[], published + (ItemChanges(before, items) + ClosedUpdates(before, stale)))
            == HoldingsView(items)
    ensures Zeroed(Upserted(before, items), stale) == AfterSync(before, items)
    ensures OpenRows(AfterSync(before, items)) == HoldingsView(items)
  {
    ReplayedConcat(map[], published, ItemChanges(before, items) + ClosedUpdates(before, stale));
    SyncReplays(before, items, stale);
    TableFollows(before, items, stale);
    ZeroedIsAfterSync(before, items, stale);
  }

  method SyncAndFollow(feed: PositionSyncFeed, items: seq<Holding>)
    requires Replayed(map[], feed.published) == OpenRows(feed.positions)
    requires UniqueSymbols(items) && PositiveQuantities(items)
    modifies feed
    ensures Replayed(map[], feed.published) == OpenRows(feed.positions) == HoldingsView(items)
    ensures feed.positions == AfterSync(old(feed.positions), items)
  {
    ghost var before, published := feed.positions, feed.published;
    var stale := feed.SyncOnce(items);
    assert feed.published == published + (ItemChanges(before, items) + ClosedUpdates(before, stale));
    SyncFollows(published, before, items, stale);
  }

  /**
   Over any run of syncs from an empty table, replaying everything published, from nothing, gives the
   broker's last holdings, which are also the table's open rows.
   */
  method FollowBroker(feed: PositionSyncFeed, balances: seq<seq<Holding>>)
    requires feed.positions == map[] && feed.published == []
    requires forall k :: 0 <= k < |balances| ==> UniqueSymbols(balances[k]) && PositiveQuantities(balances[k])
    modifies feed
    ensures feed.positions == AfterSyncs(balances)
    ensures Replayed(map[], feed.published) == OpenRows(feed.positions)
    ensures |balances| > 0 ==> OpenRows(feed.positions) == HoldingsView(balances[|balances| - 1])
  {
    for k := 0 to |balances|
      invariant feed.positions == AfterSyncs(balances[..k])
      invariant Replayed(map[], feed.published) == OpenRows(feed.positions)
      invariant k > 0 ==> OpenRows(feed.positions) == HoldingsView(balances[k - 1])
    {
      SyncAndFollow(feed, balances[k]);
      assert balances[..k + 1][..k] == balances[..k];
    }
    assert balances[..|balances|] == balances;
  }

  // ----- bought again

  predicate EverLive(balances: seq<seq<Holding>>, symbol: string) {
    exists k :: 0 <= k < |balances| && Live(balances[k], symbol)
  }

  lemma {:induction false} LiveUpserted(t: Table, items: seq<Holding>, symbol: string)
    ensures symbol in Upserted(t, items) <==> symbol in t || Live(items, symbol)
  {
    UpsertedKeeps(t, items);
    if items == [] {
    } else {
      var n := |items| - 1;
      LiveUpserted(t, items[..n], symbol);
      if Live(items, symbol) && symbol != items[n].symbol {
        var i :| 0 <= i < |items| && items[i].symbol == symbol;
        assert items[..n][i].symbol == symbol;
      }
    }
  }

  /** A row, open or closed, exists for exactly the symbols that some balance has held. */
  lemma {:induction false} RowsEverLive(balances: seq<seq<Holding>>, symbol: string)
    ensures symbol in AfterSyncs(balances) <==> EverLive(balances, symbol)
  {
    if balances == [] {
    } else {
      var n := |balances| - 1;
      RowsEverLive(balances[..n], symbol);
      LiveUpserted(AfterSyncs(balances[..n]), balances[n], symbol);
      if EverLive(balances[..n], symbol) {
        var k :| 0 <= k < n && Live(balances[..n][k], symbol);
        assert Live(balances[k], symbol);
      }
      if EverLive(balances, symbol) && !Live(balances[n], symbol) {
        var k :| 0 <= k < |balances| && Live(balances[k], symbol);
        assert Live(balances[..n][k], symbol);
      }
    }
  }

  /**
   A holding that is not open is announced as opened exactly when no earlier balance held its symbol;
   bought again after it was closed, it is announced as updated.
   */
  lemma OpenedOnlyOnce(balances: seq<seq<Holding>>, item: Holding)
    requires item.qty > 0.0 && item.symbol !in OpenRows(AfterSyncs(balances))
    ensures ItemChange(AfterSyncs(balances), item) == [Report(item, Opened)] <==> !EverLive(balances, item.symbol)
    ensures ItemChange(AfterSyncs(balances), item) == [Report(item, Updated)] <==> EverLive(balances, item.symbol)
  {
    RowsEverLive(balances, item.symbol);
  }

  /** Bought, closed and bought again: opened, closed, and then updated. */
  method BuyCloseBuyAgain(feed: PositionSyncFeed, h: Holding)
    requires feed.positions == map[] && feed.published == [] && h.qty > 0.0
    modifies feed
    ensures feed.published ==
            [Report(h, Opened), PositionUpdate(h.symbol, h.market, 0.0, 0.0, 0.0, Closed), Report(h, Updated)]
  {
    var row := Row(h.market, h.qty, h.avgPrice);
    var none := feed.SyncOnce([h]);
    OneHolding(map[], h, none);
    var gone := feed.SyncOnce([]);
    NoHolding(h.symbol, row, gone);
    var again := feed.SyncOnce([h]);
    OneHolding(map[h.symbol := row.(qty := 0.0)], h, again);
  }

  /** A sync of one holding against a table without open rows. */
  lemma OneHolding(t: Table, h: Holding, stale: seq<string>)
    requires StaleIn(t, [h], stale) && OpenRows(t) == map[]
    ensures stale == [] && ItemChanges(t, [h]) == ItemChange(t, h) && ClosedUpdates(t, stale) == []
    ensures Zeroed(Upserted(t, [h]), stale) == t[h.symbol := Row(h.market, h.qty, h.avgPrice)]
  {
    assert [h][..0] == [];
    forall s | s in t ensures t[s].qty <= 0.0 {
      assert s !in OpenRows(t);
    }
    NoMemberEmpty(stale);
  }

  /** A sync of nothing against a table of one open row. */
  lemma NoHolding(symbol: string, row: Row, stale: seq<string>)
    requires StaleIn(map[symbol := row], [], stale) && row.qty > 0.0
    ensures stale == [symbol]
    ensures Zeroed(Upserted(map[symbol := row], []), stale) == map[symbol := row.(qty := 0.0)]
    ensures ClosedUpdates(map[symbol := row], stale) == [ClosedUpdate(map[symbol := row], symbol)]
  {
    var t := map[symbol := row];
    assert !Live([], symbol);
    assert symbol in stale;
    assert forall s :: s in stale ==> s == symbol;
    assert stale[0] in stale && stale[|stale| - 1] in stale;
    assert stale[..0] == [];
  }

  /** Syncing the same balance again publishes nothing. */
  lemma ResyncSilent(before: Table, items: seq<Holding>, stale: seq<string>, again: seq<string>)
    requires UniqueSymbols(items) && PositiveQuantities(items) && StaleIn(before, items, stale)
    requires StaleIn(Zeroed(Upserted(before, items), stale), items, again)
    ensures ItemChanges(Zeroed(Upserted(before, items), stale), items) == [] && again == []
  {
    var t := Zeroed(Upserted(before, items), stale);
    TableFollows(before, items, stale);
    HoldingsExact(items);
    forall i | 0 <= i < |items| ensures items[i].symbol in t && ItemChange(t, items[i]) == [] {
      assert items[i].symbol in OpenRows(t);
    }
    NoChanges(t, items);
    forall s | s in t && t[s].qty > 0.0 ensures Live(items, s) {
      assert s in OpenRows(t);
    }
    NoMemberEmpty(again);
  }

  lemma NoMemberEmpty(xs: seq<string>)
    ensures xs == [] || exists s :: s in xs
  {
    if xs != [] {
      assert xs[0] in xs;
    }
  }

  lemma {:induction false} HoldingsExact(items: seq<Holding>)
    requires UniqueSymbols(items)
    ensures forall i :: 0 <= i < |items| ==>
              items[i].symbol in HoldingsView(items)
                  && HoldingsView(items)[items[i].symbol] == (items[i].qty, items[i].avgPrice)
    ensures forall s :: s in HoldingsView(items) ==> exists i :: 0 <= i < |items| && items[i].symbol == s
  {
    if items == [] {
    } else {
      var n := |items| - 1;
      HoldingsExact(items[..n]);
      assert items == items[..n] + [items[n]];
    }
  }

  lemma {:induction false} NoChanges(t: Table, items: seq<Holding>)
    requires forall i :: 0 <= i < |items| ==> ItemChange(t, items[i]) == []
    ensures ItemChanges(t, items) == []
  {
    if items == [] {
    } else {
      NoChanges(t, items[..|items| - 1]);
    }
  }

  // ----- what rows and updates say

  /** What is published about a listed holding: all its figures and their product, if it is new or any has changed. */
  lemma ItemChangeExact(before: Table, item: Holding)
    ensures var change, s := ItemChange(before, item), item.symbol;
            var value := item.qty * item.avgPrice;
            && (s !in before ==> change == [PositionUpdate(s, item.market, item.qty, item.avgPrice, value, Opened)])
            && (s in before && (before[s].qty, before[s].avgPrice) != (item.qty, item.avgPrice) ==>
                  change == [PositionUpdate(s, item.market, item.qty, item.avgPrice, value, Updated)])
            && (s in before && (before[s].qty, before[s].avgPrice) == (item.qty, item.avgPrice) ==> change == [])
  {
    assert BookValue(item.qty, item.avgPrice) == item.qty * item.avgPrice;
  }

  lemma {:induction false} UpsertedRows(t: Table, items: seq<Holding>, i: nat)
    requires UniqueSymbols(items) && i < |items|
    ensures items[i].symbol in Upserted(t, items)
    ensures Upserted(t, items)[items[i].symbol] == Row(items[i].market, items[i].qty, items[i].avgPrice)
  {
    var n := |items| - 1;
    if i == n {
    } else {
      UpsertedRows(t, items[..n], i);
    }
  }

  /**
   The rows after a sync: every holding as the broker lists it, every row held before and gone from the balance
   with quantity zero and its market and price kept, and every other row as it was.
   */
  lemma RowsExact(before: Table, items: seq<Holding>, stale: seq<string>)
    requires UniqueSymbols(items) && StaleIn(before, items, stale)
    ensures var t := Zeroed(Upserted(before, items), stale);
            && (forall i :: 0 <= i < |items| ==>
                  && items[i].symbol in t
                  && t[items[i].symbol] == Row(items[i].market, items[i].qty, items[i].avgPrice))
            && (forall s :: s in before && !Live(items, s) ==>
                  && s in t
                  && t[s] == Row(before[s].market, if before[s].qty > 0.0 then 0.0 else before[s].qty,
                                 before[s].avgPrice))
            && (forall s :: s in t ==> s in before || Live(items, s))
  {
    UpsertedKeeps(before, items);
    forall i | 0 <= i < |items|
      ensures items[i].symbol !in stale && items[i].symbol in Upserted(before, items)
      ensures Upserted(before, items)[items[i].symbol] == Row(items[i].market, items[i].qty, items[i].avgPrice)
    {
      UpsertedRows(before, items, i);
      assert Live(items, items[i].symbol);
    }
  }
}
