/**
 The two feeds against a broker that does not change: when a backfill completes, what it leaves in
 the table, and why nothing moves afterwards.
 */
module FrozenBroker {
  import opened Arithmetic
  import opened OrderTable
  import opened OrderFeeds
  import OrderProtocol
  import opened Wrappers

  // ----- the paged listing

  /** The broker serves `closed` in pages; `at(cursor)` is where the page of that cursor starts. */
  ghost predicate Serves(page: Pages, at: Option<string> -> nat, closed: seq<BrokerOrder>) {
    at(None) == 0
    && forall cursor :: at(cursor) <= |closed| ==> ServesPage(page(cursor), at, at(cursor), closed)
  }

  ghost predicate ServesPage(
    listing: (seq<BrokerOrder>, Option<string>), at: Option<string> -> nat, start: nat, closed: seq<BrokerOrder>)
    requires start <= |closed|
  {
    && listing.0 == closed[start..Min(start + CLOSED_PAGE_LIMIT, |closed|)]
    && (listing.1.Some? <==> start + CLOSED_PAGE_LIMIT < |closed|)
    && (listing.1.Some? ==> at(listing.1) == start + CLOSED_PAGE_LIMIT)
  }

  lemma SlicesJoin(orders: seq<BrokerOrder>, a: nat, b: nat, c: nat)
    requires a <= b <= c <= |orders|
    ensures orders[a..b] + orders[b..c] == orders[a..c]
  {
  }

  lemma {:induction false} WalkServed(
    page: Pages, at: Option<string> -> nat, closed: seq<BrokerOrder>, cursor: Option<string>, k: nat, reach: nat)
    requires Serves(page, at, closed) && at(cursor) <= |closed| && reach == at(cursor) + CLOSED_PAGE_LIMIT * k
    ensures Walk(page, cursor, k).0 == closed[at(cursor)..Min(reach, |closed|)]
    ensures Walk(page, cursor, k).1 <==> k > 0 && |closed| <= reach
    decreases k
  {
    var start := at(cursor);
    if k == 0 {
      assert closed[start..start] == [];
    } else {
      var listing := page(cursor);
      assert ServesPage(listing, at, start, closed);
      if listing.1.Some? {
        var next := start + CLOSED_PAGE_LIMIT;
        WalkServed(page, at, closed, listing.1, k - 1, reach);
        SlicesJoin(closed, start, next, Min(reach, |closed|));
      }
    }
  }

  /**
   The backfill is complete exactly when the closed orders fit in its page budget; complete or not,
   it has collected the newest of them, all pages concatenated in order.
   */
  lemma BackfillExact(page: Pages, at: Option<string> -> nat, closed: seq<BrokerOrder>)
    requires Serves(page, at, closed)
    ensures Walk(page, None, MAX_BACKFILL_PAGES) == (closed[..Min(5000, |closed|)], |closed| <= 5000)
  {
    WalkServed(page, at, closed, None, MAX_BACKFILL_PAGES, 5000);
  }

  // ----- rows and orders

  predicate Fits(t: Table, c: string, o: BrokerOrder)
    requires c in t
  {
    c == Key(o) || t[c].broker == Some(o.id)
  }

  /** No row fits two orders and no order two rows. */
  ghost predicate Aligned(t: Table, orders: seq<BrokerOrder>) {
    && (forall o, p :: o in orders && p in orders && (o.id == p.id || Key(o) == Key(p)) ==> o == p)
    && (forall c, d, o :: c in t && d in t && o in orders && Fits(t, c, o) && Fits(t, d, o) ==> c == d)
    && (forall c, o, p :: c in t && o in orders && p in orders && Fits(t, c, o) && Fits(t, c, p) ==> o == p)
  }

  /** Some row says all that the listing of the order does, with the status; with `Aligned`, it is the only one. */
  ghost predicate Shows(t: Table, o: BrokerOrder, status: Status) {
    exists c :: c in t && Mirrors(t[c], o, status)
  }

  ghost predicate Settled(t: Table, orders: seq<BrokerOrder>) {
    && Aligned(t, orders)
    && forall o :: o in orders && LocalStatus(o.status).Some? ==> Shows(t, o, LocalStatus(o.status).value)
  }

  ghost predicate SameStatuses(t: Table, t': Table) {
    t'.Keys == t.Keys && forall c :: c in t ==> t'[c].status == t[c].status
  }

  lemma UpsertKeepsAligned(t: Table, orders: seq<BrokerOrder>, o: BrokerOrder, status: Status, t': Table)
    requires Aligned(t, orders) && o in orders && Upserted(t, o, status, t')
    ensures Aligned(t', orders)
  {
    forall c, p | c in t' && p in orders && Fits(t', c, p)
      ensures (c in t && Fits(t, c, p)) || (p == o && !Matched(t, Key(o), o.id))
    {
    }
  }

  lemma UpsertShows(
    t: Table, orders: seq<BrokerOrder>, o: BrokerOrder, status: Status, t': Table, p: BrokerOrder, shown: Status)
    requires Aligned(t, orders) && o in orders && p in orders && Upserted(t, o, status, t')
    requires if p == o then shown == status else Shows(t, p, shown)
    ensures Shows(t', p, shown)
  {
    if p == o {
      if Matched(t, Key(o), o.id) {
        var c :| Matches(t, c, Key(o), o.id) && t' == t[c := Overwritten(t[c], o, status)];
        assert Mirrors(t'[c], o, status);
      } else {
        assert Mirrors(t'[Key(o)], o, status);
      }
    } else {
      var c :| c in t && Mirrors(t[c], p, shown);
      assert Fits(t, c, p) && !Fits(t, c, o);
      assert t'[c] == t[c];
    }
  }

  lemma {:induction false} ReflectedAllSettles(
    t: Table, orders: seq<BrokerOrder>, listed: seq<BrokerOrder>, t': Table, p: BrokerOrder, shown: Status)
    requires Aligned(t, orders) && ReflectedAll(t, listed, t') && p in orders
    requires forall o :: o in listed ==> o in orders
    requires LocalStatus(p.status) == Some(shown) && (p in listed || Shows(t, p, shown))
    ensures Aligned(t', orders) && Shows(t', p, shown)
    decreases |listed|
  {
    if listed == [] {
    } else {
      var n := |listed| - 1;
      var earlier, last := listed[..n], listed[n];
      assert ReflectedThen(t, earlier, last, t');
      var mid :| ReflectedAll(t, earlier, mid) && Reflected(mid, last, t');
      ReflectedAllAligned(t, orders, earlier, mid);
      if last != p || Shows(t, p, shown) {
        assert p in listed ==> p == last || p in earlier;
        ReflectedAllSettles(t, orders, earlier, mid, p, shown);
      }
      if LocalStatus(last.status).Some? {
        UpsertKeepsAligned(mid, orders, last, LocalStatus(last.status).value, t');
        UpsertShows(mid, orders, last, LocalStatus(last.status).value, t', p, shown);
      }
    }
  }

  lemma {:induction false} ReflectedAllAligned(t: Table, orders: seq<BrokerOrder>, listed: seq<BrokerOrder>, t': Table)
    requires Aligned(t, orders) && ReflectedAll(t, listed, t')
    requires forall o :: o in listed ==> o in orders
    ensures Aligned(t', orders)
    decreases |listed|
  {
    if listed == [] {
    } else {
      var n := |listed| - 1;
      assert ReflectedThen(t, listed[..n], listed[n], t');
      var mid :| ReflectedAll(t, listed[..n], mid) && Reflected(mid, listed[n], t');
      ReflectedAllAligned(t, orders, listed[..n], mid);
      if LocalStatus(listed[n].status).Some? {
        UpsertKeepsAligned(mid, orders, listed[n], LocalStatus(listed[n].status).value, t');
      }
    }
  }

  /** Reflecting every order leaves each known-status order in exactly one row, with the mapped status. */
  lemma SyncSettles(t: Table, orders: seq<BrokerOrder>, t': Table)
    requires Aligned(t, orders) && ReflectedAll(t, orders, t')
    ensures Settled(t', orders)
  {
    ReflectedAllAligned(t, orders, orders, t');
    forall o | o in orders && LocalStatus(o.status).Some? ensures Shows(t', o, LocalStatus(o.status).value) {
      ReflectedAllSettles(t, orders, orders, t', o, LocalStatus(o.status).value);
    }
  }

  /** In a settled table an order of known status has one row, which is also the only row under its key. */
  lemma OneRowEach(t: Table, orders: seq<BrokerOrder>, o: BrokerOrder) returns (c: string)
    requires Settled(t, orders) && o in orders && LocalStatus(o.status).Some?
    ensures c in t && Mirrors(t[c], o, LocalStatus(o.status).value)
    ensures forall d :: d in t && Fits(t, d, o) ==> d == c
  {
    assert Shows(t, o, LocalStatus(o.status).value);
    c :| c in t && Mirrors(t[c], o, LocalStatus(o.status).value);
    assert Fits(t, c, o);
  }

  /** Reflecting any listing again changes no status and adds no row. */
  lemma {:induction false} ResyncQuiet(t: Table, orders: seq<BrokerOrder>, listed: seq<BrokerOrder>, t': Table)
    requires Settled(t, orders) && ReflectedAll(t, listed, t')
    requires forall o :: o in listed ==> o in orders
    ensures Settled(t', orders) && SameStatuses(t, t')
    decreases |listed|
  {
    if listed == [] {
    } else {
      var n := |listed| - 1;
      assert ReflectedThen(t, listed[..n], listed[n], t');
      var mid :| ReflectedAll(t, listed[..n], mid) && Reflected(mid, listed[n], t');
      ResyncQuiet(t, orders, listed[..n], mid);
      if LocalStatus(listed[n].status).Some? {
        UpsertQuiet(mid, orders, listed[n], t');
      }
    }
  }

  lemma UpsertQuiet(t: Table, orders: seq<BrokerOrder>, o: BrokerOrder, t': Table)
    requires Settled(t, orders) && o in orders && LocalStatus(o.status).Some?
    requires Upserted(t, o, LocalStatus(o.status).value, t')
    ensures Settled(t', orders) && SameStatuses(t, t')
  {
    var status := LocalStatus(o.status).value;
    UpsertKeepsAligned(t, orders, o, status, t');
    forall p | p in orders && LocalStatus(p.status).Some? ensures Shows(t', p, LocalStatus(p.status).value) {
      UpsertShows(t, orders, o, status, t', p, LocalStatus(p.status).value);
    }
    UpsertSameStatuses(t, orders, o, status, t');
  }

  lemma UpsertSameStatuses(t: Table, orders: seq<BrokerOrder>, o: BrokerOrder, status: Status, t': Table)
    requires Aligned(t, orders) && o in orders && Shows(t, o, status) && Upserted(t, o, status, t')
    ensures SameStatuses(t, t')
  {
    var c :| c in t && Mirrors(t[c], o, status);
    assert Fits(t, c, o);
    var d :| Matches(t, d, Key(o), o.id) && t' == t[d := Overwritten(t[d], o, status)];
    assert Fits(t, d, o);
  }

  /** get_order answers from the frozen orders, or with a status that is still open, or raises. */
  ghost predicate AnswersFrom(get: Lookup, orders: seq<BrokerOrder>) {
    forall id :: Ended(get, id) ==> exists o :: o in orders && o.id == id && get(id) == Some(o.status)
  }

  predicate Ended(get: Lookup, id: string) {
    get(id).Some? && ClosedStatus(get(id).value).Some?
  }

  /** A poll of a settled table changes nothing and announces nothing. */
  lemma PollQuiet(t: Table, orders: seq<BrokerOrder>, get: Lookup, visited: seq<string>)
    requires Settled(t, orders) && AnswersFrom(get, orders) && Enumerates(visited, t)
    ensures PolledTable(t, get) == t && Announcements(t, visited, get) == []
  {
    TableQuiet(t, orders, get);
    NothingAnnounced(t, visited, get);
  }

  lemma TableQuiet(t: Table, orders: seq<BrokerOrder>, get: Lookup)
    requires Settled(t, orders) && AnswersFrom(get, orders)
    ensures forall c :: c in t ==> PolledRow(t[c], get) == t[c]
    ensures PolledTable(t, get) == t
  {
    forall c | c in t ensures PolledRow(t[c], get) == t[c] {
      if t[c].broker.Some? && Ended(get, t[c].broker.value) {
        RowQuiet(t, orders, get, c);
      }
    }
  }

  lemma RowQuiet(t: Table, orders: seq<BrokerOrder>, get: Lookup, c: string)
    requires Settled(t, orders) && AnswersFrom(get, orders)
    requires c in t && t[c].broker.Some? && Ended(get, t[c].broker.value)
    ensures PolledRow(t[c], get) == t[c]
  {
    var o :| o in orders && o.id == t[c].broker.value && get(o.id) == Some(o.status);
    assert Shows(t, o, LocalStatus(o.status).value);
    var d :| d in t && Mirrors(t[d], o, LocalStatus(o.status).value);
    assert Fits(t, c, o) && Fits(t, d, o);
  }

  lemma {:induction false} NothingAnnounced(t: Table, visited: seq<string>, get: Lookup)
    requires forall c :: c in visited ==> c in t
    requires forall c :: c in t ==> PolledRow(t[c], get) == t[c]
    ensures Announcements(t, visited, get) == []
  {
    if visited == [] {
    } else {
      NothingAnnounced(t, visited[..|visited| - 1], get);
    }
  }

  /** One later activity of either feed, against the frozen broker. */
  ghost predicate Activity(t: Table, orders: seq<BrokerOrder>, t': Table) {
    || (exists listed :: (forall o :: o in listed ==> o in orders) && ReflectedAll(t, listed, t'))
    || (exists get :: AnswersFrom(get, orders) && t' == PolledTable(t, get))
  }

  lemma ActivityQuiet(t: Table, orders: seq<BrokerOrder>, t': Table)
    requires Settled(t, orders) && Activity(t, orders, t')
    ensures Settled(t', orders) && SameStatuses(t, t')
  {
    if listed :| (forall o :: o in listed ==> o in orders) && ReflectedAll(t, listed, t') {
      ResyncQuiet(t, orders, listed, t');
    } else {
      var get :| AnswersFrom(get, orders) && t' == PolledTable(t, get);
      TableQuiet(t, orders, get);
    }
  }

  /** After a complete reflection, any number of later syncs and polls in any order leave every status as it was. */
  lemma {:induction false} QuietForever(tables: seq<Table>, orders: seq<BrokerOrder>, i: nat)
    requires i < |tables| && Settled(tables[0], orders)
    requires forall k :: 0 < k < |tables| ==> Activity(tables[k - 1], orders, tables[k])
    ensures Settled(tables[i], orders) && SameStatuses(tables[0], tables[i])
  {
    if i == 0 {
    } else {
      QuietForever(tables, orders, i - 1);
      ActivityQuiet(tables[i - 1], orders, tables[i]);
    }
  }

  /** And at any time in such a run a poll announces nothing. */
  lemma QuietPolls(tables: seq<Table>, orders: seq<BrokerOrder>, i: nat, get: Lookup, visited: seq<string>)
    requires i < |tables| && Settled(tables[0], orders)
    requires forall k :: 0 < k < |tables| ==> Activity(tables[k - 1], orders, tables[k])
    requires AnswersFrom(get, orders) && Enumerates(visited, tables[i])
    ensures Announcements(tables[i], visited, get) == []
  {
    QuietForever(tables, orders, i);
    PollQuiet(tables[i], orders, get, visited);
  }

  /** Whatever run led to it, a table is aligned with the broker's timely listings. */
  lemma RunsAreAligned(s: OrderProtocol.State, orders: seq<BrokerOrder>)
    requires OrderProtocol.Inv(s)
    requires forall o :: o in orders ==> OrderProtocol.Truthful(s, o) && OrderProtocol.Timely(s, o)
    requires forall o, p :: o in orders && p in orders && o.id == p.id ==> o == p
    ensures Aligned(s.table, orders)
  {
    forall c, o | c in s.table && o in orders && Fits(s.table, c, o)
      ensures OrderProtocol.OwnerOf(s.broker, o.id) == c
    {
      OrderProtocol.SelectFindsOwner(s, o, Some(c));
    }
    forall o, p | o in orders && p in orders
        && OrderProtocol.OwnerOf(s.broker, o.id) == OrderProtocol.OwnerOf(s.broker, p.id)
      ensures o == p
    {
      OrderProtocol.OwnersDistinct(s.broker, s.placed, s.requests, o.id, p.id);
    }
    forall o, p | o in orders && p in orders && Key(o) == Key(p) ensures o == p {
      KeysDistinct(s, o, p);
    }
  }

  lemma KeysDistinct(s: OrderProtocol.State, o: BrokerOrder, p: BrokerOrder)
    requires OrderProtocol.Inv(s) && OrderProtocol.Truthful(s, o) && OrderProtocol.Truthful(s, p)
    requires Key(o) == Key(p)
    ensures o.id == p.id
  {
    if Key(o) == NativeId(o.id) && Key(p) == NativeId(p.id) {
      NativeIdInjective(o.id, p.id);
    }
  }

  /** The broker's own answers: any of its orders, of which the open ones have not ended. */
  ghost predicate Answers(get: Lookup, open: seq<BrokerOrder>, closed: seq<BrokerOrder>) {
    && (forall o :: o in open ==> ClosedStatus(o.status).None?)
    && forall id :: get(id).Some? ==> exists o :: o in open + closed && o.id == id && get(id) == Some(o.status)
  }

  lemma AnswersSuffice(get: Lookup, open: seq<BrokerOrder>, closed: seq<BrokerOrder>, page: seq<BrokerOrder>)
    requires Answers(get, open, closed)
    ensures AnswersFrom(get, page + closed)
  {
    forall id | Ended(get, id) ensures exists o :: o in page + closed && o.id == id && get(id) == Some(o.status) {
      var o :| o in open + closed && o.id == id && get(id) == Some(o.status);
      assert o in closed;
      assert o in page + closed;
    }
  }

  /** A later sync, which reads one page of closed orders, and a poll. */
  method QuietRound(
    history: OrderHistorySyncFeed, poll: OrderSyncFeed, ghost closed: seq<BrokerOrder>,
    openPage: seq<BrokerOrder>, page: Pages, ghost at: Option<string> -> nat, get: Lookup)
    requires history.store == poll.store && history.backfilled
    requires Serves(page, at, closed) && AnswersFrom(get, openPage + closed)
    requires Settled(history.store.orders, openPage + closed)
    modifies history, poll, history.store
    ensures history.backfilled && poll.events == old(poll.events)
    ensures SameStatuses(old(history.store.orders), history.store.orders)
  {
    ghost var settled := history.store.orders;
    var _ := history.SyncOnce(openPage, page);
    assert ServesPage(page(None), at, 0, closed);
    ghost var after := history.store.orders;
    ResyncQuiet(settled, openPage + closed, openPage + page(None).0, after);
    var visited := poll.SyncOnce(get);
    PollQuiet(after, openPage + closed, get, visited);
  }

  /** In a settled table the unsettled rows of listed orders are those of the orders that have not ended. */
  lemma PendingAreOpen(t: Table, orders: seq<BrokerOrder>, o: BrokerOrder) returns (c: string)
    requires Settled(t, orders) && o in orders && !o.status.UNKNOWN?
    ensures c in t && t[c].broker == Some(o.id)
    ensures t[c].status in {Pending, Submitted, Partial} <==> !EndsOrder(o.status)
    ensures forall d :: d in t && t[d].broker == Some(o.id) ==> d == c
  {
    StatusMapsAgree(o.status);
    c := OneRowEach(t, orders, o);
    assert forall d :: d in t && t[d].broker == Some(o.id) ==> Fits(t, d, o);
  }

  /** One of these rows names the order. */
  ghost predicate AmongRows(rows: seq<string>, t: Table, o: BrokerOrder) {
    exists c :: c in rows && c in t && t[c].broker == Some(o.id)
  }

  lemma AmongPending(pending: seq<string>, t: Table, orders: seq<BrokerOrder>, o: BrokerOrder)
    requires Settled(t, orders) && o in orders && !o.status.UNKNOWN?
    requires forall c :: c in pending <==> c in t && t[c].status in {Pending, Submitted, Partial}
    ensures AmongRows(pending, t, o) <==> !EndsOrder(o.status)
  {
    var c := PendingAreOpen(t, orders, o);
    if AmongRows(pending, t, o) {
      var d :| d in pending && d in t && t[d].broker == Some(o.id);
      assert d == c;
    }
  }

  /** A first sync settles the table if its backfill completes. */
  method FirstSync(
    history: OrderHistorySyncFeed, ghost closed: seq<BrokerOrder>,
    open: seq<BrokerOrder>, page: Pages, ghost at: Option<string> -> nat)
    requires !history.backfilled && Serves(page, at, closed) && Aligned(history.store.orders, open + closed)
    modifies history, history.store
    ensures history.backfilled <==> |closed| <= 5000
    ensures history.backfilled ==> Settled(history.store.orders, open + closed)
  {
    BackfillExact(page, at, closed);
    ghost var before := history.store.orders;
    var _ := history.SyncOnce(open, page);
    if history.backfilled {
      assert closed[..|closed|] == closed;
      SyncSettles(before, open + closed, history.store.orders);
    }
  }

  /**
   What a poll will look at once a first sync has completed: of the listed orders exactly those that have not
   ended. Every row says what the listing of its order does.
   */
  method PendingAfterSync(
    history: OrderHistorySyncFeed, ghost closed: seq<BrokerOrder>,
    open: seq<BrokerOrder>, page: Pages, ghost at: Option<string> -> nat)
    returns (pending: seq<string>)
    requires !history.backfilled && Serves(page, at, closed) && Aligned(history.store.orders, open + closed)
    modifies history, history.store
    ensures history.backfilled <==> |closed| <= 5000
    ensures history.backfilled ==>
              forall o :: o in open + closed && !o.status.UNKNOWN? ==>
                (AmongRows(pending, history.store.orders, o) <==> !EndsOrder(o.status))
    ensures history.backfilled ==>
              forall o :: o in open + closed && LocalStatus(o.status).Some? ==>
                Shows(history.store.orders, o, LocalStatus(o.status).value)
  {
    FirstSync(history, closed, open, page, at);
    pending := history.store.GetPendingOrders();
    if history.backfilled {
      forall o | o in open + closed && !o.status.UNKNOWN?
        ensures AmongRows(pending, history.store.orders, o) <==> !EndsOrder(o.status)
      {
        AmongPending(pending, history.store.orders, open + closed, o);
      }
    }
  }

  /**
   The feeds themselves: a first sync that completes, then a sync and a poll. Of the open orders the one
   listing of a hundred is reflected; the others change nothing either, because they have not ended.
   */
  method FirstSyncThenQuiet(
    history: OrderHistorySyncFeed, poll: OrderSyncFeed, ghost open: seq<BrokerOrder>, ghost closed: seq<BrokerOrder>,
    openPage: seq<BrokerOrder>, page: Pages, ghost at: Option<string> -> nat, get: Lookup)
    returns (ghost settled: Table)
    requires history.store == poll.store && !history.backfilled
    requires openPage == open[..Min(100, |open|)]
    requires Serves(page, at, closed) && Answers(get, open, closed)
    requires Aligned(history.store.orders, openPage + closed)
    modifies history, poll, history.store
    ensures history.backfilled <==> |closed| <= 5000
    ensures |open| <= 100 ==> openPage == open
    ensures history.backfilled ==>
              && Settled(settled, openPage + closed)
              && SameStatuses(settled, history.store.orders) && poll.events == old(poll.events)
  {
    FirstSync(history, closed, openPage, page, at);
    settled := history.store.orders;
    if history.backfilled {
      AnswersSuffice(get, open, closed, openPage);
      QuietRound(history, poll, closed, openPage, page, at, get);
    }
  }
}
