/**
 * The order consumer of consumer.py: the simulated inventory step, the callback that
 * settles each delivery with one ack or one nack without requeue, and the channel it
 * runs on, which delivers with manual acknowledgement and a prefetch window of one.
 */
module Consumer {
  import opened Wrappers
  import opened JsonValue

  /** A message body as the callback sees it: bytes that do not decode as UTF-8 JSON,
      or the decoded value. */
  datatype MessageBody = Undecodable | Decoded(value: Json)

  /** How `process_order_inventory` ends: by raising, or by returning a flag. */
  datatype ProcessOutcome = Raised | Returned(success: bool)

  datatype Settlement = Ack | Nack(requeue: bool)

  /** A message handed to this consumer, with the delivery tag the channel gave it. */
  datatype Delivery = Delivery(tag: nat, body: MessageBody)

  /** A delivery together with the way it was settled. */
  datatype Settled = Settled(delivery: Delivery, settlement: Settlement)

  /** `basic_qos(prefetch_count=1)`. */
  const PrefetchCount: nat := 1

  // ---------------------------------------------------------------------------
  // process_order_inventory

  /** `item['book_id']` and `item['quantity']`, which the loop's print reads, both succeed. */
  predicate IsLineEntry(item: Json) {
    HasKey(item, "book_id") && HasKey(item, "quantity")
  }

  /**
   * `for item in items` runs to the end: a list of entries with both keys; an empty
   * string or empty dict, which yield nothing to iterate. A non-empty string or dict
   * yields strings, which cannot be indexed by a key; any other value is not iterable.
   */
  predicate ItemsIterate(items: Json) {
    match items
    case JArr(elems) => forall i :: 0 <= i < |elems| ==> IsLineEntry(elems[i])
    case JStr(s) => s == ""
    case JObj(fields) => fields == map[]
    case _ => false
  }

  /** The decoded message is something `process_order_inventory` gets through. */
  predicate WellFormedOrder(v: Json) {
    HasKey(v, "order_id") && HasKey(v, "items") && ItemsIterate(v.fields["items"])
  }

  /**
   * `process_order_inventory(order_data)`: it reads `order_id` and `items`, walks the
   * items (only printing, so no stock changes), and returns its `success` flag, which
   * is never reassigned from True. Any key or type error on the way is an exception.
   */
  method ProcessOrderInventory(orderData: Json) returns (outcome: ProcessOutcome)
    ensures outcome.Returned? ==> outcome.success
    ensures outcome.Returned? <==> WellFormedOrder(orderData)
  {
    if !HasKey(orderData, "order_id") || !HasKey(orderData, "items") {
      return Raised;
    }
    var items := orderData.fields["items"];
    var success := true;
    match items {
      case JArr(elems) =>
        var i := 0;
        while i < |elems|
          invariant 0 <= i <= |elems|
          invariant forall j :: 0 <= j < i ==> IsLineEntry(elems[j])
        {
          if !IsLineEntry(elems[i]) {
            return Raised;
          }
          i := i + 1;
        }
      case JStr(s) =>
        if s != "" {
          return Raised;
        }
      case JObj(fields) =>
        if fields != map[] {
          return Raised;
        }
      case _ =>
        return Raised;
    }
    outcome := Returned(success);
  }

  // ---------------------------------------------------------------------------
  // callback

  /** The outcome of processing, as a function of the decoded value. */
  function InventoryOutcome(v: Json): ProcessOutcome {
    if WellFormedOrder(v) then Returned(true) else Raised
  }

  /**
   * The callback's decision: ack only when the body decodes and processing returns
   * True; a False return, a decode failure and any other exception are all a nack
   * without requeue.
   */
  function SettlementFor(body: MessageBody, outcome: ProcessOutcome): (s: Settlement)
    ensures s == Ack <==> body.Decoded? && outcome == Returned(true)
    ensures s != Ack ==> s == Nack(false)
  {
    match body
    case Undecodable => Nack(false)
    case Decoded(_) =>
      match outcome
      case Returned(true) => Ack
      case Returned(false) => Nack(false)
      case Raised => Nack(false)
  }

  /** The settlement a body gets: ack exactly for a decodable, well-formed order. */
  function Settle(body: MessageBody): (s: Settlement)
    ensures s == Ack <==> body.Decoded? && WellFormedOrder(body.value)
    ensures s.Nack? ==> !s.requeue
  {
    match body
    case Undecodable => SettlementFor(body, Raised)
    case Decoded(v) => SettlementFor(body, InventoryOutcome(v))
  }

  // ---------------------------------------------------------------------------
  // The channel, with its prefetch window of one

  /**
   * The queue as this consumer's channel sees it. `ready` holds messages the broker has
   * not delivered yet, `unacked` the one delivery waiting for its callback, `settled`
   * every settled delivery in order, and `delivered` counts the tags handed out.
   */
  class Channel {
    var ready: seq<MessageBody>
    var unacked: Option<Delivery>
    var settled: seq<Settled>
    var delivered: nat

    /**
     * Every delivered message is either settled or the one unacknowledged delivery; the
     * single `Option` slot is what keeps at most PrefetchCount deliveries open; tags are 1, 2, 3 ... in delivery order;
     * nothing settled is requeued.
     */
    ghost predicate Valid()
      reads this
    {
      && delivered == |settled| + (if unacked.Some? then 1 else 0)
      && (forall i :: 0 <= i < |settled| ==> settled[i].delivery.tag == i + 1)
      && (forall i :: 0 <= i < |settled| ==> settled[i].settlement != Nack(true))
      && (unacked.Some? ==> unacked.value.tag == delivered)
    }

    /** `basic_consume(..., auto_ack=False)` on a queue holding `messages`. */
    constructor (messages: seq<MessageBody>)
      ensures Valid()
      ensures ready == messages && unacked == None && settled == [] && delivered == 0
    {
      ready := messages;
      unacked := None;
      settled := [];
      delivered := 0;
    }

    /** A producer publishes a message onto the queue. */
    method Publish(body: MessageBody)
      requires Valid()
      modifies this`ready
      ensures Valid()
      ensures ready == old(ready) + [body]
    {
      ready := ready + [body];
    }

    /**
     * The broker's push: the next message is delivered only when no delivery is open;
     * otherwise the prefetch window is full and nothing happens.
     */
    method Deliver() returns (d: Option<Delivery>)
      requires Valid()
      modifies this
      ensures Valid()
      ensures settled == old(settled)
      ensures old(unacked).Some? || old(ready) == [] ==>
        d == None && ready == old(ready) && unacked == old(unacked) && delivered == old(delivered)
      ensures old(unacked).None? && old(ready) != [] ==>
        && d == Some(Delivery(old(delivered) + 1, old(ready)[0]))
        && unacked == d && ready == old(ready)[1..] && delivered == old(delivered) + 1
    {
      if unacked.Some? || ready == [] {
        return None;
      }
      delivered := delivered + 1;
      d := Some(Delivery(delivered, ready[0]));
      unacked := d;
      ready := ready[1..];
    }

    /**
     * `callback(ch, method, properties, body)` for the open delivery: decode, process,
     * then exactly one `basic_ack`, or one `basic_nack(requeue=False)`. The queue is
     * left alone, so a settled message never comes back.
     */
    method Callback() returns (s: Option<Settlement>)
      requires Valid()
      modifies this`unacked, this`settled
      ensures Valid()
      ensures ready == old(ready) && delivered == old(delivered)
      ensures old(unacked).None? ==> s == None && unacked == None && settled == old(settled)
      ensures old(unacked).Some? ==>
        && s == Some(Settle(old(unacked).value.body))
        && unacked == None
        && settled == old(settled) + [Settled(old(unacked).value, s.value)]
    {
      if unacked.None? {
        return None;
      }
      var d := unacked.value;
      var settlement: Settlement;
      match d.body {
        case Undecodable =>
          settlement := Nack(false);
        case Decoded(orderData) =>
          var outcome := ProcessOrderInventory(orderData);
          if outcome == Returned(true) {
            settlement := Ack;
          } else {
            settlement := Nack(false);
          }
      }
      settled := settled + [Settled(d, settlement)];
      unacked := None;
      s := Some(settlement);
    }

    /**
     * `start_consuming()` until the queue runs dry: every waiting message is delivered
     * once, settled once by the callback, in queue order, and none is requeued.
     */
    method StartConsuming()
      requires Valid() && unacked.None?
      modifies this
      ensures Valid()
      ensures ready == [] && unacked == None
      ensures |settled| == |old(settled)| + |old(ready)|
      ensures settled[..|old(settled)|] == old(settled)
      ensures forall i :: 0 <= i < |old(ready)| ==>
        settled[|old(settled)| + i] == Settled(
          Delivery(|old(settled)| + i + 1, old(ready)[i]), Settle(old(ready)[i]))
    {
      ghost var start := |settled|;
      ghost var waiting := ready;
      while ready != []
        invariant Valid() && unacked.None?
        invariant |settled| - start + |ready| == |waiting|
        invariant start <= |settled|
        invariant ready == waiting[|settled| - start..]
        invariant settled[..start] == old(settled)
        invariant forall i :: 0 <= i < |settled| - start ==>
          settled[start + i] == Settled(Delivery(start + i + 1, waiting[i]), Settle(waiting[i]))
        decreases |ready|
      {
        ghost var before := settled;
        var d := Deliver();
        var s := Callback();
        assert settled == before + [Settled(d.value, s.value)];
      }
    }
  }
}
