/**
 The two feeds that read the broker's orders back: the history sync with its paged backfill
 (core/execution/order_history_sync.py) and the status poll (core/execution/order_sync.py). Over a
 broker that does not change they agree, and once a backfill has completed neither changes a status.
 */
module OrderFeeds {
  import opened Arithmetic
  import opened OrderTable
  import opened Wrappers

  const CLOSED_PAGE_LIMIT := 50
  const MAX_BACKFILL_PAGES := 100

  /** The history sync's status map, over open and closed statuses alike. */
  function LocalStatus(status: TossStatus): Option<Status> {
    match status
    case PENDING => Some(Pending)
    case PENDING_CANCEL => Some(Pending)
    case PENDING_REPLACE => Some(Pending)
    case CANCEL_REJECTED => Some(Pending)
    case REPLACE_REJECTED => Some(Pending)
    case PARTIAL_FILLED => Some(Partial)
    case FILLED => Some(Filled)
    case CANCELED => Some(Cancelled)
    case REJECTED => Some(Rejected)
    case REPLACED => Some(Cancelled)
    case UNKNOWN(_) => None
  }

  /** The poll's status map: only statuses that end an order. */
  function ClosedStatus(status: TossStatus): Option<Status> {
    match status
    case FILLED => Some(Filled)
    case CANCELED => Some(Cancelled)
    case REJECTED => Some(Rejected)
    case REPLACED => Some(Cancelled)
    case _ => None
  }

  /** Which broker statuses end an order. */
  predicate EndsOrder(status: TossStatus) {
    status.FILLED? || status.CANCELED? || status.REJECTED? || status.REPLACED?
  }

  /**
   The two maps, status by status. They agree on every order that has ended; the history sync leaves every
   other known order in a status the poll goes on looking at, and the poll leaves those orders alone.
   */
  lemma StatusMapsAgree(status: TossStatus)
    ensures ClosedStatus(status).Some? <==> EndsOrder(status)
    ensures EndsOrder(status) ==> LocalStatus(status) == ClosedStatus(status)
    ensures LocalStatus(status).None? <==> status.UNKNOWN?
    ensures LocalStatus(status).Some? ==>
              var local := LocalStatus(status).value;
              && (local in {Pending, Submitted, Partial} <==> !EndsOrder(status))
              && (local == Filled <==> status == FILLED) && (local == Rejected <==> status == REJECTED)
              && (local == Cancelled <==> status in {CANCELED, REPLACED})
              && (local == Partial <==> status == PARTIAL_FILLED) && local != Submitted
  {
  }

  // ----- the history sync

  /** `page(cursor)` is one CLOSED listing: up to a page of orders, and the cursor of the next page, if any. */
  type Pages = Option<string> -> (seq<BrokerOrder>, Option<string>)

  /** Following cursors for at most `k` pages: what was collected, and whether the end was reached. */
  function Walk(page: Pages, cursor: Option<string>, k: nat): (seq<BrokerOrder>, bool)
    decreases k
  {
    if k == 0 then ([], false)
    else
      var (orders, next) := page(cursor);
      if next.None? then (orders, true)
      else
        var (rest, completed) := Walk(page, next, k - 1);
        (orders + rest, completed)
  }

  /** One listed order reflected, or skipped when its status is unknown. */
  ghost predicate Reflected(t: Table, o: BrokerOrder, t': Table) {
    match LocalStatus(o.status)
    case None => t' == t
    case Some(status) => Upserted(t, o, status, t')
  }

  /** A whole listing reflected in order, whichever matching rows the SELECTs happened to return. */
  ghost predicate ReflectedAll(t: Table, orders: seq<BrokerOrder>, t': Table)
    decreases |orders|, 0
  {
    if orders == [] then t' == t
    else ReflectedThen(t, orders[..|orders| - 1], orders[|orders| - 1], t')
  }

  ghost predicate ReflectedThen(t: Table, earlier: seq<BrokerOrder>, last: BrokerOrder, t': Table)
    decreases |earlier|, 1
  {
    exists mid :: ReflectedAll(t, earlier, mid) && Reflected(mid, last, t')
  }

  function KnownCount(orders: seq<BrokerOrder>): nat {
    if orders == [] then 0
    else KnownCount(orders[..|orders| - 1]) + if LocalStatus(orders[|orders| - 1].status).Some? then 1 else 0
  }

  class OrderHistorySyncFeed {
    const store: StateStore
    var backfilled: bool

    constructor (store: StateStore)
      ensures this.store == store && !backfilled
    {
      this.store := store;
      backfilled := false;
    }

    /** One sync: the OPEN listing, then all of CLOSED until a backfill has completed, its first page afterwards. */
    method SyncOnce(open: seq<BrokerOrder>, page: Pages) returns (reflected: nat)
      modifies this`backfilled, store
      ensures var closed := if old(backfilled) then (page(None).0, true) else Walk(page, None, MAX_BACKFILL_PAGES);
              && backfilled == closed.1
              && ReflectedAll(old(store.orders), open + closed.0, store.orders)
              && reflected == KnownCount(open + closed.0)
    {
      var closed;
      if backfilled {
        closed := page(None).0;
      } else {
        var completed;
        closed, completed := FetchAllClosed(page);
        backfilled := completed;
      }
      reflected := ReflectEach(open + closed);
    }

    /** The loop over everything listed. */
    method ReflectEach(orders: seq<BrokerOrder>) returns (reflected: nat)
      modifies store
      ensures ReflectedAll(old(store.orders), orders, store.orders) && reflected == KnownCount(orders)
    {
      ghost var before := store.orders;
      reflected := 0;
      for i := 0 to |orders|
        invariant ReflectedAll(before, orders[..i], store.orders) && reflected == KnownCount(orders[..i])
      {
        assert orders[..i + 1][..i] == orders[..i];
        var done := Reflect(orders[i]);
        if done {
          reflected := reflected + 1;
        }
        assert ReflectedThen(before, orders[..i], orders[i], store.orders);
      }
      assert orders[..|orders|] == orders;
    }

    method FetchAllClosed(page: Pages) returns (all: seq<BrokerOrder>, completed: bool)
      ensures (all, completed) == Walk(page, None, MAX_BACKFILL_PAGES)
    {
      all := [];
      var cursor: Option<string> := None;
      assert [] + Walk(page, None, MAX_BACKFILL_PAGES).0 == Walk(page, None, MAX_BACKFILL_PAGES).0;
      for i := 0 to MAX_BACKFILL_PAGES
        invariant Walk(page, None, MAX_BACKFILL_PAGES)
                  == (all + Walk(page, cursor, MAX_BACKFILL_PAGES - i).0, Walk(page, cursor, MAX_BACKFILL_PAGES - i).1)
      {
        var listing := page(cursor);
        ghost var rest := Walk(page, cursor, MAX_BACKFILL_PAGES - i);
        ghost var before := all;
        all := all + listing.0;
        cursor := listing.1;
        if cursor.None? {
          return all, true;
        }
        assert before + rest.0 == all + Walk(page, cursor, MAX_BACKFILL_PAGES - i - 1).0;
      }
      assert all + [] == all;
      return all, false;
    }

    method Reflect(o: BrokerOrder) returns (done: bool)
      modifies store
      ensures done == LocalStatus(o.status).Some? && Reflected(old(store.orders), o, store.orders)
    {
      var status := LocalStatus(o.status);
      if status.None? {
        return false;
      }
      store.UpsertBrokerOrder(o, status.value);
      return true;
    }
  }

  // ----- the status poll

  datatype StatusEvent = StatusEvent(client: string, broker: string, status: Status)

  /** get_order: the status of a broker order, or an exception. */
  type Lookup = string -> Option<TossStatus>

  /** What a poll makes of one row. */
  function PolledRow(row: Row, get: Lookup): Row {
    if Unsettled(row.status) && row.broker.Some? && row.broker.value != "" && get(row.broker.value).Some?
    then
      match ClosedStatus(get(row.broker.value).value)
      case None => row
      case Some(status) => row.(status := status)
    else row
  }

  /** An unsettled row whose order has ended takes the order's final status and changes in nothing else; others stay. */
  lemma PolledExact(row: Row, get: Lookup)
    ensures var polled := PolledRow(row, get);
            var answer := if row.broker.Some? && row.broker.value != "" then get(row.broker.value) else None;
            var settles := row.status in {Pending, Submitted, Partial} && answer.Some? && EndsOrder(answer.value);
            && polled.(status := row.status) == row
            && (!settles ==> polled == row)
            && (settles ==> polled.status == if answer.value == FILLED then Filled
                                             else if answer.value == REJECTED then Rejected else Cancelled)
  {
  }

  function PolledTable(t: Table, get: Lookup): Table {
    map c | c in t :: PolledRow(t[c], get)
  }

  /** The event a poll publishes about one row: only when the row changes. */
  function Announcement(t: Table, c: string, get: Lookup): seq<StatusEvent>
    requires c in t
  {
    var row := PolledRow(t[c], get);
    if row == t[c] || t[c].broker.None? then [] else [StatusEvent(c, t[c].broker.value, row.status)]
  }

  function Announcements(t: Table, visited: seq<string>, get: Lookup): seq<StatusEvent>
    requires forall c :: c in visited ==> c in t
  {
    if visited == [] then []
    else Announcements(t, visited[..|visited| - 1], get) + Announcement(t, visited[|visited| - 1], get)
  }

  /** Every unsettled row, once. */
  ghost predicate Enumerates(visited: seq<string>, t: Table) {
    && (forall c :: c in visited <==> c in t && Unsettled(t[c].status))
    && (forall i, j :: 0 <= i < j < |visited| ==> visited[i] != visited[j])
  }

  /** The table after the given rows have been polled in turn. */
  function PolledRows(t: Table, visited: seq<string>, get: Lookup): (t': Table)
    requires forall c :: c in visited ==> c in t
    ensures t'.Keys == t.Keys
  {
    if visited == [] then t
    else
      var n := |visited| - 1;
      var earlier := PolledRows(t, visited[..n], get);
      earlier[visited[n] := PolledRow(earlier[visited[n]], get)]
  }

  lemma {:induction false} PolledRowsAt(t: Table, visited: seq<string>, get: Lookup, c: string)
    requires forall d :: d in visited ==> d in t
    requires forall i, j :: 0 <= i < j < |visited| ==> visited[i] != visited[j]
    requires c in t
    ensures PolledRows(t, visited, get)[c] == if c in visited then PolledRow(t[c], get) else t[c]
  {
    if visited == [] {
    } else {
      var n := |visited| - 1;
      assert visited == visited[..n] + [visited[n]];
      PolledRowsAt(t, visited[..n], get, c);
    }
  }

  lemma PolledRowsAll(t: Table, visited: seq<string>, get: Lookup)
    requires Enumerates(visited, t)
    ensures PolledRows(t, visited, get) == PolledTable(t, get)
  {
    forall c | c in t ensures PolledRows(t, visited, get)[c] == PolledRow(t[c], get) {
      PolledRowsAt(t, visited, get, c);
    }
  }

  class OrderSyncFeed {
    const store: StateStore
    var events: seq<StatusEvent>

    constructor (store: StateStore)
      ensures this.store == store && events == []
    {
      this.store := store;
      events := [];
    }

    /** Visits every unsettled row once, in an order of the store's choosing, settling those whose order has ended. */
    method SyncOnce(get: Lookup) returns (visited: seq<string>)
      modifies this, store
      ensures store.orders == PolledTable(old(store.orders), get)
      ensures Enumerates(visited, old(store.orders))
      ensures events == old(events) + Announcements(old(store.orders), visited, get)
    {
      visited := store.GetPendingOrders();
      PolledRowsAll(store.orders, visited, get);
      PollEach(visited, get);
    }

    /** The loop over the unsettled rows. */
    method PollEach(visited: seq<string>, get: Lookup)
      requires Enumerates(visited, store.orders)
      modifies this, store
      ensures store.orders == PolledRows(old(store.orders), visited, get)
      ensures events == old(events) + Announcements(old(store.orders), visited, get)
    {
      ghost var before, published := store.orders, events;
      for i := 0 to |visited|
        invariant store.orders == PolledRows(before, visited[..i], get)
        invariant events == published + Announcements(before, visited[..i], get)
      {
        assert visited[..i + 1][..i] == visited[..i];
        var announced := PollNth(before, visited, i, get);
        events := events + announced;
      }
      assert visited[..|visited|] == visited;
    }

    /** One pass of the loop: the rows not yet visited are as they were. */
    method PollNth(ghost before: Table, visited: seq<string>, i: nat, get: Lookup) returns (announced: seq<StatusEvent>)
      requires i < |visited| && Enumerates(visited, before)
      requires store.orders == PolledRows(before, visited[..i], get)
      modifies store
      ensures store.orders == PolledRows(before, visited[..i + 1], get)
      ensures announced == Announcement(before, visited[i], get)
    {
      assert visited[..i + 1][..i] == visited[..i];
      PolledRowsAt(before, visited[..i], get, visited[i]);
      announced := PollOne(visited[i], get);
    }

    method PollOne(c: string, get: Lookup) returns (announced: seq<StatusEvent>)
      requires c in store.orders && Unsettled(store.orders[c].status)
      modifies store
      ensures store.orders == old(store.orders)[c := PolledRow(old(store.orders)[c], get)]
      ensures announced == Announcement(old(store.orders), c, get)
    {
      var row := store.orders[c];
      if row.broker.None? || row.broker.value == "" {
        return [];
      }
      var answer := get(row.broker.value);
      if answer.None? {
        return [];
      }
      var status := ClosedStatus(answer.value);
      if status.None? {
        return [];
      }
      store.UpdateOrderStatus(c, status.value, None);
      return [StatusEvent(c, row.broker.value, status.value)];
    }
  }

  /** The events of a poll are exactly its status changes, one each, naming the row's broker order. */
  lemma {:induction false} AnnouncementsExact(t: Table, visited: seq<string>, get: Lookup)
    requires forall c :: c in visited ==> c in t
    requires forall i, j :: 0 <= i < j < |visited| ==> visited[i] != visited[j]
    ensures var events := Announcements(t, visited, get);
            && (forall e :: e in events <==>
                  e.client in visited && t[e.client].broker == Some(e.broker)
                  && e.status == PolledRow(t[e.client], get).status != t[e.client].status)
            && (forall i, j :: 0 <= i < j < |events| ==> events[i].client != events[j].client)
  {
    if visited == [] {
    } else {
      var n := |visited| - 1;
      AnnouncementsExact(t, visited[..n], get);
      assert visited == visited[..n] + [visited[n]];
    }
  }
}
