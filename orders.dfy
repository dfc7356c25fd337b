/**
 * Order submission (`POST /orders`, app.py): the shape check on the request body,
 * the fail-fast validation of each line item against the catalog and the stock
 * ledger, the order record stored in the in-memory `orders` table, the minimal
 * payload handed to the broker, and the status change when publishing fails.
 *
 * Prices are integer cents, so `round(total_price, 2)` is the identity here.
 */
module Orders {
  import opened Wrappers
  import opened Text
  import opened DataStore

  // ---------------------------------------------------------------------------
  // Request shape

  /**
   * A value found under a key of a request line: a JSON integer, a JSON string,
   * an absent key (for `book_id` also a JSON null, since `.get` yields None either
   * way), or any other JSON value together with the text Python's `str()` gives it.
   */
  datatype RawValue = IntVal(i: int) | StrVal(s: string) | Missing | Other(text: string)

  /** One element of the `items` list: an object with its two keys, or anything else. */
  datatype LineItem = LineObject(bookId: RawValue, quantity: RawValue) | LineNotObject

  datatype ItemsField = ItemsAbsent | ItemsNotList | ItemsList(lines: seq<LineItem>)

  /** The JSON body of the request; NoBody covers a missing, null or empty body. */
  datatype OrderRequest = NoBody | OrderBody(items: ItemsField, userIdentifier: Option<string>)

  // ---------------------------------------------------------------------------
  // Records

  /** The reasons for a 400 answer, carrying the values each message interpolates. */
  datatype OrderError =
    | MalformedOrder
    | InvalidBookIdFormat(raw: RawValue)
    | UnknownBookId(id: int)
    | InvalidQuantity(quantity: RawValue, id: int)
    | NotEnoughStock(title: string, id: int, available: int)

  /** Why a line stops the loop: a validation error, or an exception nothing catches. */
  datatype LineFailure = Invalid(error: OrderError) | Unhandled

  /** An entry of `order_items_details`. */
  datatype LineDetail = LineDetail(bookId: int, title: string, quantity: int, pricePerItem: int)

  /** An entry of `order_items_message`, the queue payload's items. */
  datatype LineMessage = LineMessage(bookId: int, quantity: int)

  /** The queue payload `{"order_id": ..., "items": [...]}`. */
  datatype OrderMessage = OrderMessage(orderId: string, items: seq<LineMessage>)

  datatype Status = Pending | QueueingFailed

  datatype Order = Order(
    orderId: string, items: seq<LineDetail>, totalPrice: int, status: Status,
    userIdentifier: string)

  /** What the handler answers. */
  datatype OrderResponse =
    | Created(order: Order)
    | Rejected(error: OrderError)
    | QueueingError
    | ServerError

  /** The accumulators of the validation loop once every line has passed. */
  datatype Draft = Draft(details: seq<LineDetail>, messages: seq<LineMessage>, total: int)

  function HttpStatus(r: OrderResponse): int {
    match r
    case Created(_) => 201
    case Rejected(_) => 400
    case QueueingError => 500
    case ServerError => 500
  }

  function StatusText(s: Status): string {
    match s
    case Pending => "Pending"
    case QueueingFailed => "Queueing Failed"
  }

  /** `f"{value}"` for the raw values the error messages interpolate. */
  function Render(v: RawValue): string {
    match v
    case IntVal(i) => IntToString(i)
    case StrVal(s) => s
    case Missing => "None"
    case Other(text) => text
  }

  /** The `error` text of a 400 answer. */
  function ErrorMessage(e: OrderError): string {
    match e
    case MalformedOrder => "Invalid order data. 'items' list is required."
    case InvalidBookIdFormat(raw) => "Invalid book_id format: " + Render(raw)
    case UnknownBookId(id) => "Invalid book_id: " + IntToString(id)
    case InvalidQuantity(q, id) => "Invalid quantity (" + Render(q) + ") for book_id: " + IntToString(id)
    case NotEnoughStock(title, id, available) =>
      "Not enough stock for '" + title + "' (ID: " + IntToString(id) + "). Available: " + IntToString(available)
  }

  // ---------------------------------------------------------------------------
  // Per-line validation

  /** `int(book_id)`; None stands for the ValueError or TypeError it raises. */
  function BookIdOf(v: RawValue): Option<int> {
    match v
    case IntVal(i) => Some(i)
    case StrVal(s) => ParseInt(s)
    case Missing => None
    case Other(_) => None
  }

  /** `item.get('quantity', 1)`. */
  function QuantityOf(v: RawValue): RawValue {
    if v.Missing? then IntVal(1) else v
  }

  /** `inventory.get(book_id, 0)`. */
  function StockOf(inventory: map<int, int>, id: int): int {
    if id in inventory then inventory[id] else 0
  }

  /** `book.get('price', 0)`. */
  function PriceOf(b: Book): int {
    match b.price
    case Some(p) => p
    case None => 0
  }

  /** The invariant of every accepted line: it names a catalog book, asks for a positive
      whole quantity no larger than that book's stock, and copies title and price. */
  predicate AcceptedLine(item: LineItem, d: LineDetail, books: map<int, Book>, inventory: map<int, int>) {
    && item.LineObject?
    && BookIdOf(item.bookId) == Some(d.bookId)
    && d.bookId in books
    && QuantityOf(item.quantity) == IntVal(d.quantity)
    && 0 < d.quantity <= StockOf(inventory, d.bookId)
    && d.title == books[d.bookId].title
    && d.pricePerItem == PriceOf(books[d.bookId])
  }

  /** The body of the `for item in data['items']` loop for one line. */
  function CheckLine(item: LineItem, books: map<int, Book>, inventory: map<int, int>): (r: Result<LineDetail, LineFailure>)
    ensures r.Ok? <==> (exists d :: AcceptedLine(item, d, books, inventory))
    ensures r.Ok? ==> AcceptedLine(item, r.value, books, inventory)
    ensures r == Err(Unhandled) <==> item.LineNotObject?
    ensures r.Err? && r.error.Invalid? ==> item.LineObject?
    // the checks run in the order format, catalog membership, quantity, stock
    ensures r.Err? && r.error.Invalid? && r.error.error.InvalidBookIdFormat? ==>
      BookIdOf(item.bookId).None? && r.error.error.raw == item.bookId
    ensures r.Err? && r.error.Invalid? && r.error.error.UnknownBookId? ==>
      BookIdOf(item.bookId) == Some(r.error.error.id) && r.error.error.id !in books
    ensures r.Err? && r.error.Invalid? && r.error.error.InvalidQuantity? ==>
      var q := QuantityOf(item.quantity);
      && BookIdOf(item.bookId) == Some(r.error.error.id) && r.error.error.id in books
      && r.error.error.quantity == q && !(q.IntVal? && q.i > 0)
    ensures r.Err? && r.error.Invalid? && r.error.error.NotEnoughStock? ==>
      var e := r.error.error;
      && BookIdOf(item.bookId) == Some(e.id) && e.id in books && e.title == books[e.id].title
      && QuantityOf(item.quantity).IntVal? && QuantityOf(item.quantity).i > 0
      && e.available == StockOf(inventory, e.id) && e.available < QuantityOf(item.quantity).i
    ensures r.Err? && r.error.Invalid? ==> !r.error.error.MalformedOrder?
  {
    match item
    case LineNotObject => Err(Unhandled)
    case LineObject(rawId, rawQuantity) =>
      var quantity := QuantityOf(rawQuantity);
      match BookIdOf(rawId)
      case None => Err(Invalid(InvalidBookIdFormat(rawId)))
      case Some(id) =>
        if id !in books then Err(Invalid(UnknownBookId(id)))
        else if !quantity.IntVal? || quantity.i <= 0 then Err(Invalid(InvalidQuantity(quantity, id)))
        else if StockOf(inventory, id) < quantity.i then
          Err(Invalid(NotEnoughStock(books[id].title, id, StockOf(inventory, id))))
        else
          var d := LineDetail(id, books[id].title, quantity.i, PriceOf(books[id]));
          assert AcceptedLine(item, d, books, inventory);
          Ok(d)
  }

  // ---------------------------------------------------------------------------
  // The validation loop

  /**
   * The loop over all lines, fail-fast: the lines are checked in input order and the
   * first failing line decides the outcome. Defined on the last line so that it reads
   * like the loop that appends one detail per iteration.
   */
  function Validate(lines: seq<LineItem>, books: map<int, Book>, inventory: map<int, int>): Result<seq<LineDetail>, LineFailure>
    decreases |lines|
  {
    if lines == [] then Ok([])
    else
      match Validate(lines[..|lines| - 1], books, inventory)
      case Err(f) => Err(f)
      case Ok(details) =>
        match CheckLine(lines[|lines| - 1], books, inventory)
        case Err(f) => Err(f)
        case Ok(d) => Ok(details + [d])
  }

  /** Line `k` is the first line that fails. */
  predicate FirstFailing(lines: seq<LineItem>, k: int, books: map<int, Book>, inventory: map<int, int>) {
    && 0 <= k < |lines|
    && CheckLine(lines[k], books, inventory).Err?
    && forall j :: 0 <= j < k ==> CheckLine(lines[j], books, inventory).Ok?
  }

  /** `order_items_message`: the (book_id, quantity) projection of the details. */
  function Messages(details: seq<LineDetail>): seq<LineMessage> {
    seq(|details|, i requires 0 <= i < |details| => LineMessage(details[i].bookId, details[i].quantity))
  }

  /** `total_price`, accumulated line by line: the sum of price times quantity. */
  function TotalPrice(details: seq<LineDetail>): int
    decreases |details|
  {
    if details == [] then 0
    else
      var last := details[|details| - 1];
      TotalPrice(details[..|details| - 1]) + last.pricePerItem * last.quantity
  }

  /** What the loop leaves behind for a validation outcome. */
  function DraftOf(v: Result<seq<LineDetail>, LineFailure>): Result<Draft, LineFailure> {
    match v
    case Err(f) => Err(f)
    case Ok(details) => Ok(Draft(details, Messages(details), TotalPrice(details)))
  }

  /** Once a prefix has failed, nothing after it is looked at. */
  lemma {:induction false} ValidateIgnoresLaterLines(lines: seq<LineItem>, rest: seq<LineItem>, books: map<int, Book>, inventory: map<int, int>)
    requires Validate(lines, books, inventory).Err?
    ensures Validate(lines + rest, books, inventory) == Validate(lines, books, inventory)
    decreases |rest|
  {
    if rest != [] {
      var front := rest[..|rest| - 1];
      ValidateIgnoresLaterLines(lines, front, books, inventory);
      assert (lines + rest)[..|lines + rest| - 1] == lines + front;
    } else {
      assert lines + rest == lines;
    }
  }

  /** The error of the first failing line is the error of the whole validation. */
  lemma {:induction false} ValidateStopsAtFirstFailure(lines: seq<LineItem>, k: int, books: map<int, Book>, inventory: map<int, int>)
    requires FirstFailing(lines, k, books, inventory)
    ensures Validate(lines, books, inventory) == Err(CheckLine(lines[k], books, inventory).error)
    decreases |lines|
  {
    var n := |lines| - 1;
    var front := lines[..n];
    if k < n {
      assert FirstFailing(front, k, books, inventory);
      ValidateStopsAtFirstFailure(front, k, books, inventory);
    } else {
      ValidateAccepts(front, books, inventory);
      assert Validate(front, books, inventory).Ok?;
    }
  }

  /** The validation rejects exactly when some line fails, and then with the error of the
      first failing line. */
  lemma ValidateRejects(lines: seq<LineItem>, books: map<int, Book>, inventory: map<int, int>)
    ensures Validate(lines, books, inventory).Err? <==> exists k :: FirstFailing(lines, k, books, inventory)
    ensures forall k :: FirstFailing(lines, k, books, inventory) ==>
      Validate(lines, books, inventory) == Err(CheckLine(lines[k], books, inventory).error)
  {
    forall k | FirstFailing(lines, k, books, inventory)
      ensures Validate(lines, books, inventory) == Err(CheckLine(lines[k], books, inventory).error)
    {
      ValidateStopsAtFirstFailure(lines, k, books, inventory);
    }
    if Validate(lines, books, inventory).Err? {
      ValidateAccepts(lines, books, inventory);
      var k :| 0 <= k < |lines| && CheckLine(lines[k], books, inventory).Err?;
      FirstFailingExists(lines, k, books, inventory);
    }
  }

  /** If some line fails, a first failing line exists. */
  lemma {:induction false} FirstFailingExists(lines: seq<LineItem>, k: int, books: map<int, Book>, inventory: map<int, int>)
    requires 0 <= k < |lines| && CheckLine(lines[k], books, inventory).Err?
    ensures exists k' :: FirstFailing(lines, k', books, inventory)
    decreases k
  {
    if !FirstFailing(lines, k, books, inventory) {
      var j :| 0 <= j < k && CheckLine(lines[j], books, inventory).Err?;
      FirstFailingExists(lines, j, books, inventory);
    }
  }

  /** The validation accepts exactly when every line passes, and then yields one detail per
      line, in input order, each satisfying the accepted-line invariant. */
  lemma {:induction false} ValidateAccepts(lines: seq<LineItem>, books: map<int, Book>, inventory: map<int, int>)
    ensures Validate(lines, books, inventory).Ok? <==>
      forall k :: 0 <= k < |lines| ==> CheckLine(lines[k], books, inventory).Ok?
    ensures Validate(lines, books, inventory).Ok? ==>
      var details := Validate(lines, books, inventory).value;
      && |details| == |lines|
      && forall k :: 0 <= k < |lines| ==>
           details[k] == CheckLine(lines[k], books, inventory).value
           && AcceptedLine(lines[k], details[k], books, inventory)
    decreases |lines|
  {
    if lines != [] {
      var n := |lines| - 1;
      var front := lines[..n];
      ValidateAccepts(front, books, inventory);
      assert forall k :: 0 <= k < n ==> front[k] == lines[k];
    }
  }

  /** The total splits over any division of the lines: it is price times quantity summed
      over the stored items, whatever the order of accumulation. */
  lemma {:induction false} TotalPriceAppend(a: seq<LineDetail>, b: seq<LineDetail>)
    ensures TotalPrice(a + b) == TotalPrice(a) + TotalPrice(b)
    decreases |b|
  {
    if b == [] {
      assert a + b == a;
    } else {
      var front := b[..|b| - 1];
      TotalPriceAppend(a, front);
      assert (a + b)[..|a + b| - 1] == a + front;
    }
  }

  /**
   * The `for item in data['items']` loop of `create_order`: each line goes through the
   * format, catalog, quantity and stock checks in that order; the first failure ends the
   * loop; a passing line appends its detail and its (book_id, quantity) entry and adds
   * price times quantity to the total. Catalog and stock are only read.
   */
  method CheckItems(lines: seq<LineItem>, books: map<int, Book>, inventory: map<int, int>)
    returns (r: Result<Draft, LineFailure>)
    ensures r == DraftOf(Validate(lines, books, inventory))
  {
    var details: seq<LineDetail> := [];
    var messages: seq<LineMessage> := [];
    var total := 0;
    var i := 0;
    while i < |lines|
      invariant 0 <= i <= |lines|
      invariant Validate(lines[..i], books, inventory) == Ok(details)
      invariant messages == Messages(details)
      invariant total == TotalPrice(details)
    {
      var item := lines[i];
      assert lines[..i + 1][..i] == lines[..i];
      if item.LineNotObject? {
        // `item.get` on a non-object raises outside the try block
        r := Err(Unhandled);
        ValidateIgnoresLaterLines(lines[..i + 1], lines[i + 1..], books, inventory);
        assert lines[..i + 1] + lines[i + 1..] == lines;
        return;
      }
      var rawId := item.bookId;
      var quantity := QuantityOf(item.quantity);
      var parsed := BookIdOf(rawId);
      var failure: Option<OrderError> := None;
      if parsed.None? {
        failure := Some(InvalidBookIdFormat(rawId));
      } else if parsed.value !in books {
        failure := Some(UnknownBookId(parsed.value));
      } else if !quantity.IntVal? || quantity.i <= 0 {
        failure := Some(InvalidQuantity(quantity, parsed.value));
      } else {
        var id := parsed.value;
        var book := books[id];
        var currentStock := StockOf(inventory, id);
        if currentStock < quantity.i {
          failure := Some(NotEnoughStock(book.title, id, currentStock));
        }
      }
      if failure.Some? {
        r := Err(Invalid(failure.value));
        ValidateIgnoresLaterLines(lines[..i + 1], lines[i + 1..], books, inventory);
        assert lines[..i + 1] + lines[i + 1..] == lines;
        return;
      }
      var id := parsed.value;
      var book := books[id];
      var price := PriceOf(book);
      var detail := LineDetail(id, book.title, quantity.i, price);
      details := details + [detail];
      messages := messages + [LineMessage(id, quantity.i)];
      total := total + price * quantity.i;
      i := i + 1;
    }
    assert lines[..i] == lines;
    r := Ok(Draft(details, messages, total));
  }

  // ---------------------------------------------------------------------------
  // Publishing (send_order_to_queue, get_rabbitmq_connection)

  /**
   * The world outside the process as far as publishing depends on it: the value of
   * RABBITMQ_URL, whether a connection to the broker can be opened, and whether
   * declaring the queue and publishing the message go through.
   */
  datatype BrokerEnv = BrokerEnv(url: Option<string>, reachable: bool, publishSucceeds: bool)

  /** `get_rabbitmq_connection()` returns a connection (true) or None (false). */
  function GetRabbitmqConnection(env: BrokerEnv): (connected: bool) {
    env.url.Some? && env.url.value != "" && env.reachable
  }

  /** `send_order_to_queue(...)`: a missing connection and any exception inside the `try`
      are reported as false. Closing the connection in `finally` is taken never to raise. */
  function SendOrderToQueue(env: BrokerEnv): (sent: bool) {
    GetRabbitmqConnection(env) && env.publishSucceeds
  }

  // ---------------------------------------------------------------------------
  // The whole handler

  /** The effect of one `POST /orders`: the answer, the new `orders` table and the
      messages handed to the broker so far. */
  datatype Submission = Submission(response: OrderResponse, orders: map<string, Order>, queued: seq<OrderMessage>)

  /** The body has an `items` key holding a list. */
  predicate WellFormedRequest(req: OrderRequest) {
    req.OrderBody? && req.items.ItemsList?
  }

  /** `data.get('user_identifier', f"anon_...")`, with the generated fallback given. */
  function UserIdentifierOf(req: OrderRequest, anonId: string): string
    requires req.OrderBody?
  {
    match req.userIdentifier
    case Some(u) => u
    case None => anonId
  }

  /**
   * `create_order` as a function of the request, the catalog, the stock ledger, the
   * current orders table and queue, the generated ids and the broker's behaviour.
   */
  function Submit(
    req: OrderRequest, books: map<int, Book>, inventory: map<int, int>,
    orders: map<string, Order>, queued: seq<OrderMessage>,
    orderId: string, anonId: string, broker: BrokerEnv): Submission
  {
    if !WellFormedRequest(req) then Submission(Rejected(MalformedOrder), orders, queued)
    else
      match Validate(req.items.lines, books, inventory)
      case Err(Unhandled) => Submission(ServerError, orders, queued)
      case Err(Invalid(e)) => Submission(Rejected(e), orders, queued)
      case Ok(details) =>
        var order := Order(orderId, details, TotalPrice(details), Pending, UserIdentifierOf(req, anonId));
        if SendOrderToQueue(broker) then
          Submission(Created(order), orders[orderId := order], queued + [OrderMessage(orderId, Messages(details))])
        else
          Submission(QueueingError, orders[orderId := order.(status := QueueingFailed)], queued)
  }

  /** A missing body, a missing `items` key or a non-list `items` gives 400 and touches
      nothing; an empty list passes and gives an order with no items and total 0. */
  lemma SubmitChecksShape(
    req: OrderRequest, books: map<int, Book>, inventory: map<int, int>,
    orders: map<string, Order>, queued: seq<OrderMessage>,
    orderId: string, anonId: string, broker: BrokerEnv)
    ensures var s := Submit(req, books, inventory, orders, queued, orderId, anonId, broker);
      !WellFormedRequest(req) ==>
        s.response == Rejected(MalformedOrder) && HttpStatus(s.response) == 400
        && s.orders == orders && s.queued == queued
    ensures var s := Submit(req, books, inventory, orders, queued, orderId, anonId, broker);
      WellFormedRequest(req) && req.items.lines == [] ==>
        orderId in s.orders && s.orders[orderId].items == [] && s.orders[orderId].totalPrice == 0
  {
  }

  /** A failing line gives the first failing line's error with 400 (or a server error for
      a line that is not an object), and neither the orders table nor the queue changes. */
  lemma SubmitRejectsFirstFailure(
    req: OrderRequest, books: map<int, Book>, inventory: map<int, int>,
    orders: map<string, Order>, queued: seq<OrderMessage>,
    orderId: string, anonId: string, broker: BrokerEnv, k: int)
    requires WellFormedRequest(req) && FirstFailing(req.items.lines, k, books, inventory)
    ensures var s := Submit(req, books, inventory, orders, queued, orderId, anonId, broker);
      && s.orders == orders && s.queued == queued
      && (match CheckLine(req.items.lines[k], books, inventory).error
          case Invalid(e) => s.response == Rejected(e) && HttpStatus(s.response) == 400
          case Unhandled => s.response == ServerError && HttpStatus(s.response) == 500)
  {
    ValidateRejects(req.items.lines, books, inventory);
  }

  /**
   * When every line passes, exactly the entry `orderId` is written: an order with one
   * detail per line in input order and the summed total; it stays Pending and the answer
   * is 201 with the payload (the (book_id, quantity) projection) queued if publishing
   * succeeds, and it becomes "Queueing Failed" with a 500 and nothing queued otherwise.
   */
  lemma SubmitAccepts(
    req: OrderRequest, books: map<int, Book>, inventory: map<int, int>,
    orders: map<string, Order>, queued: seq<OrderMessage>,
    orderId: string, anonId: string, broker: BrokerEnv)
    requires WellFormedRequest(req)
    requires forall k :: 0 <= k < |req.items.lines| ==> CheckLine(req.items.lines[k], books, inventory).Ok?
    ensures var s := Submit(req, books, inventory, orders, queued, orderId, anonId, broker);
      var lines := req.items.lines;
      && s.orders.Keys == orders.Keys + {orderId}
      && (forall id :: id in orders && id != orderId ==> s.orders[id] == orders[id])
      && var order := s.orders[orderId];
      && order.orderId == orderId
      && |order.items| == |lines|
      && (forall k :: 0 <= k < |lines| ==> AcceptedLine(lines[k], order.items[k], books, inventory))
      && order.totalPrice == TotalPrice(order.items)
      && order.userIdentifier == UserIdentifierOf(req, anonId)
      && (SendOrderToQueue(broker) ==>
            && order.status == Pending && s.response == Created(order) && HttpStatus(s.response) == 201
            && s.queued == queued + [OrderMessage(orderId, Messages(order.items))])
      && (!SendOrderToQueue(broker) ==>
            && order.status == QueueingFailed && s.response == QueueingError
            && HttpStatus(s.response) == 500 && s.queued == queued)
  {
    ValidateAccepts(req.items.lines, books, inventory);
  }

  /** A book id sent as the text of an integer is treated exactly like that integer. */
  lemma StringIdAgreesWithInt(n: int, quantity: RawValue, books: map<int, Book>, inventory: map<int, int>)
    ensures CheckLine(LineObject(StrVal(IntToString(n)), quantity), books, inventory)
         == CheckLine(LineObject(IntVal(n), quantity), books, inventory)
  {
    ParseIntToString(n);
  }

  // ---------------------------------------------------------------------------
  // The process state the handler works on

  /** The module-level dictionaries of app.py together with the broker queue it feeds. */
  class Store {
    var books: map<int, Book>
    var inventory: map<int, int>
    var orders: map<string, Order>
    /** The payloads published to `order_processing_queue`, oldest first. */
    var queued: seq<OrderMessage>

    constructor (books: map<int, Book>, inventory: map<int, int>)
      ensures this.books == books && this.inventory == inventory
      ensures orders == map[] && queued == []
    {
      this.books := books;
      this.inventory := inventory;
      orders := map[];
      queued := [];
    }

    /**
     * `create_order`. The order id and the anonymous user id are the values uuid4
     * would produce; `broker` decides what `send_order_to_queue` returns.
     */
    method CreateOrder(req: OrderRequest, orderId: string, anonId: string, broker: BrokerEnv)
      returns (response: OrderResponse)
      modifies this`orders, this`queued
      ensures var s := Submit(req, books, inventory, old(orders), old(queued), orderId, anonId, broker);
        response == s.response && orders == s.orders && queued == s.queued
      ensures books == old(books) && inventory == old(inventory)
    {
      if req.NoBody? || !req.items.ItemsList? {
        return Rejected(MalformedOrder);
      }
      var draft := CheckItems(req.items.lines, books, inventory);
      match draft {
        case Err(Unhandled) =>
          response := ServerError;
        case Err(Invalid(e)) =>
          response := Rejected(e);
        case Ok(d) =>
          var newOrder := Order(orderId, d.details, d.total, Pending, UserIdentifierOf(req, anonId));
          orders := orders[orderId := newOrder];
          var payload := OrderMessage(orderId, d.messages);
          if SendOrderToQueue(broker) {
            queued := queued + [payload];
            response := Created(newOrder);
          } else {
            orders := orders[orderId := orders[orderId].(status := QueueingFailed)];
            response := QueueingError;
          }
      }
    }
  }
}
