/** Order submission (core/execution/executor.py), as one undisturbed call. OrderProtocol interleaves it. */
module OrderExecutor {
  import opened OrderTable
  import opened Wrappers

  datatype NewOrder = NewOrder(client: string, symbol: string, market: string, side: string, orderType: string,
      qty: real, price: real)

  datatype Ack = Ack(client: string, broker: string, symbol: string, status: Status)

  datatype OrderEvent = OrderSubmitted(client: string, broker: string) | OrderRejected(client: string)

  function PendingRow(o: NewOrder, now: string): Row {
    Row(None, o.symbol, o.market, o.side, o.orderType, o.qty, o.price, Pending, now)
  }

  class OrderExecutor {
    const store: StateStore
    /** The client ids of the orders sent to the broker, in order. */
    var placed: seq<string>
    var events: seq<OrderEvent>

    constructor (store: StateStore)
      ensures this.store == store && placed == [] && events == []
    {
      this.store := store;
      placed, events := [], [];
    }

    /** `reply` is what place_order would do if it is called: return a broker id or raise. */
    method Submit(o: NewOrder, now: string, reply: Result<string, string>) returns (r: Result<Ack, string>)
      modifies this, store
      ensures o.client in old(store.orders) ==>
                store.orders == old(store.orders) && placed == old(placed) && events == old(events)
      ensures o.client in old(store.orders) ==>
                var row := old(store.orders)[o.client];
                var broker := if row.broker.Some? then row.broker.value else "";
                r == if row.status == Rejected then Failure("rejected before")
                     else Success(Ack(o.client, broker, o.symbol, row.status))
      ensures o.client !in old(store.orders) ==> placed == old(placed) + [o.client]
      ensures o.client !in old(store.orders) && reply.Success? ==>
                store.orders == old(store.orders)[o.client :=
                    Row(Some(reply.value), o.symbol, o.market, o.side, o.orderType, o.qty, o.price, Submitted, now)]
                && events == old(events) + [OrderSubmitted(o.client, reply.value)]
                && r == Success(Ack(o.client, reply.value, o.symbol, Submitted))
      ensures o.client !in old(store.orders) && reply.Failure? ==>
                store.orders == old(store.orders)[o.client :=
                    Row(None, o.symbol, o.market, o.side, o.orderType, o.qty, o.price, Rejected, now)]
                && events == old(events) + [OrderRejected(o.client)] && r == Failure(reply.error)
    {
      if o.client in store.orders {
        var existing := store.orders[o.client];
        if existing.status == Rejected {
          return Failure("rejected before");
        }
        return Success(Ack(o.client, existing.BrokerOrEmpty(), o.symbol, existing.status));
      }
      var inserted := store.InsertOrder(o.client, PendingRow(o, now));
      placed := placed + [o.client];
      match reply {
        case Failure(error) =>
          store.UpdateOrderStatus(o.client, Rejected, None);
          events := events + [OrderRejected(o.client)];
          return Failure(error);
        case Success(broker) =>
          store.UpdateOrderStatus(o.client, Submitted, Some(broker));
          events := events + [OrderSubmitted(o.client, broker)];
          return Success(Ack(o.client, broker, o.symbol, Submitted));
      }
    }

    /** Submitting the same order again sends nothing and answers what was recorded. */
    method SubmitTwice(
      o: NewOrder, now: string, reply: Result<string, string>, later: string, reply': Result<string, string>)
      returns (first: Result<Ack, string>, second: Result<Ack, string>)
      requires o.client !in store.orders
      modifies this, store
      ensures placed == old(placed) + [o.client]
      ensures first.Success? ==> second == first
      ensures first.Failure? ==> second.Failure?
    {
      first := Submit(o, now, reply);
      second := Submit(o, later, reply');
    }
  }
}
