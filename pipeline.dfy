/**
 * The hand-off between the API and the consumer: the queue payload `create_order`
 * publishes, as `json.dumps` writes it and `json.loads` reads it back, is always
 * something the consumer's callback acknowledges.
 */
module Pipeline {
  import opened JsonValue
  import Orders
  import Consumer
  import DataStore

  /** `{"book_id": ..., "quantity": ...}`. */
  function LineJson(m: Orders.LineMessage): Json {
    JObj(map["book_id" := JNum(m.bookId), "quantity" := JNum(m.quantity)])
  }

  /** `{"order_id": ..., "items": [...]}`, the decoded form of the published body. */
  function OrderJson(m: Orders.OrderMessage): Json {
    JObj(map[
      "order_id" := JStr(m.orderId),
      "items" := JArr(seq(|m.items|, i requires 0 <= i < |m.items| => LineJson(m.items[i])))])
  }

  /** Every payload the API publishes is processed and acked, never discarded. */
  lemma PublishedOrdersAreAcked(m: Orders.OrderMessage)
    ensures Consumer.WellFormedOrder(OrderJson(m))
    ensures Consumer.Settle(Consumer.Decoded(OrderJson(m))) == Consumer.Ack
  {
    var items := OrderJson(m).fields["items"];
    assert forall i :: 0 <= i < |items.elems| ==> Consumer.IsLineEntry(items.elems[i]);
  }

  /** The messages queued by a whole submission decode to orders the consumer acks. */
  lemma SubmissionsAreAcked(
    req: Orders.OrderRequest, books: map<int, DataStore.Book>, inventory: map<int, int>,
    orders: map<string, Orders.Order>, queued: seq<Orders.OrderMessage>,
    orderId: string, anonId: string, broker: Orders.BrokerEnv)
    requires forall m :: m in queued ==> Consumer.Settle(Consumer.Decoded(OrderJson(m))) == Consumer.Ack
    ensures var s := Orders.Submit(req, books, inventory, orders, queued, orderId, anonId, broker);
      forall m :: m in s.queued ==> Consumer.Settle(Consumer.Decoded(OrderJson(m))) == Consumer.Ack
  {
    var s := Orders.Submit(req, books, inventory, orders, queued, orderId, anonId, broker);
    forall m | m in s.queued ensures Consumer.Settle(Consumer.Decoded(OrderJson(m))) == Consumer.Ack {
      PublishedOrdersAreAcked(m);
    }
  }
}
