/**
 The `orders` table (core/store/db.py, core/store/schema.py). The client id is NOT NULL UNIQUE, so the
 table is a map from client id to row; the broker id is neither unique nor indexed.
 */
module OrderTable {
  import opened Wrappers

  datatype Status = Pending | Submitted | Partial | Filled | Cancelled | Rejected

  /** The broker's own statuses; a string outside its documented set is Unknown. */
  datatype TossStatus =
    | PENDING | PENDING_CANCEL | PENDING_REPLACE | CANCEL_REJECTED | REPLACE_REJECTED
    | PARTIAL_FILLED | FILLED | CANCELED | REJECTED | REPLACED | UNKNOWN(text: string)

  datatype Row = Row(
    broker: Option<string>, symbol: string, market: string, side: string, orderType: string,
    qty: real, price: real, status: Status, createdAt: string)
  {
    /** The broker id as an acknowledgement gives it back. */
    function BrokerOrEmpty(): string {
      if broker.Some? then broker.value else ""
    }
  }

  type Table = map<string, Row>

  /** An order as the broker lists it. `client` is what the broker echoes, possibly nothing. */
  datatype BrokerOrder = BrokerOrder(
    id: string, client: Option<string>, symbol: string, market: string, side: string, orderType: string,
    status: TossStatus, qty: real, price: real, orderedAt: string)

  const NATIVE_PREFIX := "toss-native-"

  /** The client id given to an order the bot did not make. */
  function NativeId(id: string): string {
    NATIVE_PREFIX + id
  }

  lemma NativeIdInjective(a: string, b: string)
    requires NativeId(a) == NativeId(b)
    ensures a == b
  {
    assert a == NativeId(a)[|NATIVE_PREFIX|..] && b == NativeId(b)[|NATIVE_PREFIX|..];
  }

  /** The client id a listing is filed under; an empty echo counts as none. */
  function Key(o: BrokerOrder): (key: string)
    ensures o.client == None || o.client == Some("") ==> key == "toss-native-" + o.id
    ensures o.client != None && o.client != Some("") ==> o.client == Some(key)
  {
    if o.client.Some? && o.client.value != "" then o.client.value else NativeId(o.id)
  }

  /** The rows `SELECT ... WHERE client_order_id = ? OR broker_order_id = ?` may return. */
  predicate Matches(t: Table, c: string, key: string, id: string) {
    c in t && (c == key || t[c].broker == Some(id))
  }

  predicate Matched(t: Table, key: string, id: string) {
    key in t || exists c :: c in t && t[c].broker == Some(id)
  }

  function Overwritten(row: Row, o: BrokerOrder, status: Status): Row {
    row.(broker := Some(o.id), symbol := o.symbol, market := o.market, side := o.side,
         orderType := o.orderType, qty := o.qty, price := o.price, status := status)
  }

  function Inserted(o: BrokerOrder, status: Status): Row {
    Row(Some(o.id), o.symbol, o.market, o.side, o.orderType, o.qty, o.price, status, o.orderedAt)
  }

  /** The row says what the listing says, with this status. */
  predicate Mirrors(row: Row, o: BrokerOrder, status: Status) {
    && row.broker == Some(o.id) && row.symbol == o.symbol && row.market == o.market && row.side == o.side
    && row.orderType == o.orderType && row.qty == o.qty && row.price == o.price && row.status == status
  }

  /** UPDATE of status and, when given, broker id; no row, no effect. */
  function WithStatus(t: Table, c: string, status: Status, broker: Option<string>): Table {
    if c !in t then t
    else if broker.Some? then t[c := t[c].(status := status, broker := broker)]
    else t[c := t[c].(status := status)]
  }

  /** One upsert: some matching row is overwritten, or a new row is filed under the listing's key. */
  ghost predicate Upserted(t: Table, o: BrokerOrder, status: Status, t': Table) {
    if Matched(t, Key(o), o.id)
    then exists c :: Matches(t, c, Key(o), o.id) && t' == t[c := Overwritten(t[c], o, status)]
    else t' == t[Key(o) := Inserted(o, status)]
  }

  /** An upsert writes one row, which then mirrors the listing: one that matched, or else a new one. */
  lemma UpsertWritesOne(t: Table, o: BrokerOrder, status: Status, t': Table) returns (c: string)
    requires Upserted(t, o, status, t')
    ensures c in t' && Mirrors(t'[c], o, status) && t' - {c} == t - {c}
    ensures c in t ==> (c == Key(o) || t[c].broker == Some(o.id)) && t'[c].createdAt == t[c].createdAt
    ensures c !in t ==>
              && c == Key(o) && t'[c].createdAt == o.orderedAt
              && forall d :: d in t ==> d != Key(o) && t[d].broker != Some(o.id)
  {
    if Matched(t, Key(o), o.id) {
      c :| Matches(t, c, Key(o), o.id) && t' == t[c := Overwritten(t[c], o, status)];
    } else {
      c := Key(o);
    }
  }

  /** The statuses get_pending_orders selects. */
  predicate Unsettled(status: Status) {
    status in {Pending, Submitted, Partial}
  }

  class StateStore {
    var orders: Table

    constructor ()
      ensures orders == map[]
    {
      orders := map[];
    }

    /** Every unsettled row once. The source orders them by creation time; nothing here depends on the order. */
    method GetPendingOrders() returns (pending: seq<string>)
      ensures forall c :: c in pending <==> c in orders && orders[c].status in {Pending, Submitted, Partial}
      ensures forall i, j :: 0 <= i < j < |pending| ==> pending[i] != pending[j]
    {
      pending := [];
      var left := orders.Keys;
      while left != {}
        invariant left <= orders.Keys
        invariant forall i :: 0 <= i < |pending| ==> pending[i] in orders && Unsettled(orders[pending[i]].status)
        invariant forall c :: c in orders && c !in left && Unsettled(orders[c].status) ==> c in pending
        invariant forall i :: 0 <= i < |pending| ==> pending[i] !in left
        invariant forall i, j :: 0 <= i < j < |pending| ==> pending[i] != pending[j]
        decreases left
      {
        var c :| c in left;
        left := left - {c};
        if Unsettled(orders[c].status) {
          pending := pending + [c];
        }
      }
    }

    method UpdateOrderStatus(c: string, status: Status, broker: Option<string>)
      modifies this
      ensures orders == WithStatus(old(orders), c, status, broker)
      ensures c !in old(orders) ==> orders == old(orders)
      ensures c in old(orders) ==>
                var row := old(orders)[c];
                var named := if broker.Some? then broker else row.broker;
                orders == old(orders)[c := row.(status := status, broker := named)]
    {
      if c in orders {
        var row := orders[c].(status := status);
        orders := orders[c := if broker.Some? then row.(broker := broker) else row];
      }
    }

    /** INSERT of a new pending order; a taken client id violates the UNIQUE constraint. */
    method InsertOrder(c: string, row: Row) returns (ok: bool)
      modifies this
      ensures ok == (c !in old(orders))
      ensures orders == if ok then old(orders)[c := row] else old(orders)
    {
      ok := c !in orders;
      if ok {
        orders := orders[c := row];
      }
    }

    method UpsertBrokerOrder(o: BrokerOrder, status: Status)
      modifies this
      ensures Upserted(old(orders), o, status, orders)
    {
      var found := FindMatch(Key(o), o.id);
      match found {
        case Some(c) => orders := orders[c := Overwritten(orders[c], o, status)];
        case None => orders := orders[Key(o) := Inserted(o, status)];
      }
    }

    /** `fetchone` of the SELECT: any one of the matching rows, None only if there is none. */
    method FindMatch(key: string, id: string) returns (found: Option<string>)
      ensures match found
              case Some(c) => Matches(orders, c, key, id)
              case None => !Matched(orders, key, id)
    {
      var left := orders.Keys;
      while left != {}
        invariant left <= orders.Keys
        invariant forall c :: c in orders && c !in left ==> !Matches(orders, c, key, id)
        decreases left
      {
        var c :| c in left;
        if Matches(orders, c, key, id) {
          return Some(c);
        }
        left := left - {c};
      }
      return None;
    }
  }
}
