# Book shop order pipeline: a Dafny model

This project models the sequential decision logic of a small book shop backend:

- **Order submission** (`POST /orders`, app.py). The handler first checks the request shape. It then runs a fail-fast loop over the line items, checking in this order: book id format, catalog membership, positive whole quantity, stock. It stores a `Pending` order in the in-memory `orders` table and publishes a minimal `(order_id, [(book_id, quantity)])` payload to the broker. When publishing fails, it turns that one order's status into `"Queueing Failed"` and answers 500.
- **The AI prompt endpoint** (app.py with ai_service.py). It lists the catalog's titles and searches the query, ignoring case, for the first known title. It picks the result envelope without any language model. It then maps that envelope to an HTTP status.
- **The order consumer** (consumer.py). Processing is simulated and never returns False, though it raises on a message without `order_id` or `items`, or with malformed items. The callback settles each delivery with exactly one ack, or one nack without requeue. The channel delivers with manual acknowledgement and a prefetch window of one.

Modules:

- `Wrappers`, `Text`, `JsonValue`: shared helpers. `Text` holds ASCII `lower()`, Python's substring test, `int()` on decimal text and `str()` on integers.
- `DataStore`: the shipped catalog and stock ledger.
- `Orders`: `create_order` and `send_order_to_queue`.
  - Specification functions: `CheckLine` for one line, `Validate` for the fail-fast loop, `Submit` for the whole handler.
  - The loop itself is the read-only method `CheckItems`.
  - The class `Store` holds the module-level dictionaries. Its `CreateOrder` method changes `orders` and the queue.
- `OrderScenarios`: concrete submissions against the shipped data.
- `AiService`: its three functions.
- `Chat`: `handle_ai_chat`.
- `Consumer`:
  - `process_order_inventory` as a method with its items loop;
  - the callback's decision;
  - the class `Channel`, the per-delivery state machine.
- `Pipeline`: proves that every payload the API publishes is one the consumer acknowledges.

Some behaviour of the code is worth knowing:

- A refusal from the AI service reaches the client as 500, not 400. The service puts a string under `error`, and the handler's `.get('message')` on that string raises. The handler's last `except` turns that into 500. So the 400 branch for `status == 'refused'` is never reached (`Chat.HandleAiChatStatus`).
- Stock is checked per line against the same unchanged ledger. Two lines for the same book can together ask for more than the stock (`OrderScenarios.NoReservationAcrossLines`).
- A title that is the empty string matches every query. `get_ai_response` then treats it as no match, because `if requested_title` is false for `""` (`AiService.RequestedTitle`).
- An empty `items` list is accepted and gives an order with no items and total 0. It is not rejected.
- Storing an order whose id already exists overwrites the old entry. It does not fail.
- The consumer never changes an order's status, so only `Pending` and `Queueing Failed` exist.

Inputs from outside the process are parameters:

- the generated order id and anonymous user id;
- the broker's behaviour (`Orders.BrokerEnv`);
- the AI configuration;
- the language model's outcome and the title the refusal regex extracts.

## Model

| member | source | states |
|---|---|---|
| `Orders.CheckLine` | app.py:125-171 | A line is accepted exactly when some detail satisfies the accepted-line invariant: object line, parsable id, id in the catalog, whole quantity (default 1) with 0 < quantity <= `inventory.get(id, 0)`, title and price (default 0) copied from the catalog. Each error kind implies that every earlier check passed: format, then membership, then quantity, then stock. A non-object line is the unhandled case |
| `Orders.ValidateRejects` | app.py:124-160 | The loop rejects exactly when some line fails, and the error is that of the first failing line |
| `Orders.ValidateStopsAtFirstFailure` | app.py:133-142 | The first failing line's error is the outcome of the whole loop |
| `Orders.ValidateIgnoresLaterLines` | app.py:157-160 | Once a prefix has failed, no later line is examined: appending lines does not change the outcome |
| `Orders.ValidateAccepts` | app.py:124-173 | The loop accepts exactly when every line passes on its own against the same stock. It then yields one detail per line, in input order, each satisfying the accepted-line invariant |
| `Orders.FirstFailingExists` | app.py:124 | When some line fails, there is a first failing line |
| `Orders.TotalPriceAppend` | app.py:174 | The running total splits over any division of the lines, so it is the sum of price times quantity over the stored items |
| `Orders.CheckItems` | app.py:119-174 | The imperative loop (with breaks) returns the specification's outcome. On success it returns the details, their (book_id, quantity) projection and the summed total |
| `Orders.SubmitChecksShape` | app.py:112-115 | A missing body, missing `items` or non-list `items` gives 400 and changes neither the orders nor the queue. An empty list gives an order with no items and total 0 |
| `Orders.SubmitRejectsFirstFailure` | app.py:177-178 | The first failing line's error is answered, with 400 (500 for a non-object line), and neither the orders table nor the queue changes |
| `Orders.SubmitAccepts` | app.py:182-215 | When all lines pass, only the key `order_id` is added or replaced. Its order has one detail per line and the summed total. It stays `Pending` with 201 and the projected payload queued when publishing succeeds. It becomes `Queueing Failed` with 500 and nothing queued otherwise |
| `Orders.StringIdAgreesWithInt` | app.py:125-130 | In the model, a book id sent as `IntToString(n)` is checked exactly like the integer `n` |
| `Orders.Store.constructor` | data_store.py:63 | The orders table and the queue start empty, over the given catalog and stock |
| `Orders.Store.CreateOrder` | app.py:103-215 | The handler's answer, new orders table and queue are those of `Submit`. The catalog and stock are unchanged |
| `OrderScenarios.TwoUnitsOfBookOne` | app.py:182-207 | Two copies of book 1 (stock 5, no price) give 201, total 0, `Pending` and the payload `(1, 2)` |
| `OrderScenarios.PricedBookTotal` | app.py:164-185 | At a price of 1000 cents, two copies total 2000 |
| `OrderScenarios.TenUnitsOfBookOne` | app.py:157-160 | Ten copies of book 1 give 400 with "Not enough stock for '…' (ID: 1). Available: 5" and no order |
| `OrderScenarios.UnknownBook` | app.py:132-134 | Book 999 gives 400 with "Invalid book_id: 999" and no order |
| `OrderScenarios.NoReservationAcrossLines` | app.py:148-157 | Two lines of 5 copies of book 1, one giving the id as text, are both accepted against a stock of 5. Their quantities sum to 10, more than the stock |
| `OrderScenarios.BrokerDown` | app.py:209-215 | An unreachable broker gives 500, the order shows "Queueing Failed", and nothing is queued |
| `Text.ParseIntToString` | app.py:130 | The model's `ParseInt` reads back the model's `IntToString` of every integer, the model's counterpart of `int(str(i)) == i` |
| `Text.OccursAt` | ai_service.py:57 | The substring scan holds exactly when the needle equals the slice of the text at some position |
| `Text.LowerIgnoresCase` | ai_service.py:52 | Strings that match position by position, either as the same character or as the two cases of one ASCII letter, have the same lower-cased form |
| `AiService.TitlesOf` | ai_service.py:33-37 | The comprehension's titles are exactly the titles of entries that are dicts with a string title, and there are no more of them than entries |
| `AiService.GetAvailableBookTitles` | ai_service.py:22-42 | It returns [] when the catalog is not a dict. Otherwise it returns exactly the string titles of the dict entries |
| `AiService.TitlesOfAppend` | ai_service.py:35 | Titles keep catalog iteration order: those of a split catalog are the first part's followed by the second's |
| `AiService.TitlesOfSingle` | ai_service.py:36 | One entry contributes its title exactly when it is a dict with a string title |
| `AiService.ShippedTitles` | ai_service.py:33-39 | On the shipped catalog the list is the six titles in insertion order |
| `AiService.FirstMatch` | ai_service.py:53-58 | None exactly when no string title's lower-cased form occurs in the query. Otherwise it is the title at the first matching position, with its own casing |
| `AiService.ExtractTitle` | ai_service.py:46-62 | None for a non-list. A result is a string element of the list, and it is the first match in list order. None exactly when no string title matches |
| `AiService.ExtractTitleIgnoresCase` | ai_service.py:52-57 | Changing the ASCII case of the query does not change the result |
| `AiService.FirstMatchAppend` | ai_service.py:53-58 | A match in an earlier part of the list shadows every later match |
| `AiService.GetAiResponse` | ai_service.py:66-109 | Exactly one of `error` and `data` is present. Every error is a string with no `status`. Success carries status "success" |
| `AiService.NotReadyIgnoresQuery` | ai_service.py:71-72 | Without a model or key, the result is the configuration error without `title_match`, whatever the query, titles or model would do |
| `AiService.NoTitleRefuses` | ai_service.py:101-109 | Without a usable title, the result is the refusal with `title_match` None, and the model's outcome makes no difference |
| `AiService.TitleReported` | ai_service.py:76-99 | A usable title is a catalog title. It is reported in the success data and as `title_match` in the failure envelope |
| `Chat.ReplyToResponse` | app.py:250-274 | 200 exactly for `data` without `error`, carrying that data. 400 exactly for an object error with status "refused". Everything else is 500 |
| `Chat.HandleAiChatStatus` | app.py:228-274 | 400 exactly for a missing, non-string or empty query. Otherwise 200 or 500, with 200 exactly when configured, titled and answered, carrying the answer and a catalog title |
| `Consumer.ProcessOrderInventory` | consumer.py:10-35 | Never returns False. It returns (True) exactly when `order_id` and `items` exist and every item has `book_id` and `quantity`; otherwise it raises. It has no state to change |
| `Consumer.SettlementFor` | consumer.py:62-77 | Ack exactly when the body decoded and processing returned True. Every other case is a nack without requeue |
| `Consumer.Settle` | consumer.py:58-77 | A delivery is acked exactly when it decodes to a well-formed order. A nack never requeues |
| `Consumer.Channel.constructor` | consumer.py:80 | Consuming starts with the queue's messages waiting, nothing delivered and nothing settled |
| `Consumer.Channel.Publish` | app.py:86-91 | Publishing appends the message to the waiting queue |
| `Consumer.Channel.Deliver` | consumer.py:56 | A delivery happens only when no delivery is open. It takes the head of the queue with the next tag; otherwise nothing changes |
| `Consumer.Channel.Callback` | consumer.py:58-77 | The open delivery is settled exactly once, as `Settle` decides. The window is freed and the queue is untouched, so nothing is requeued |
| `Consumer.Channel.StartConsuming` | consumer.py:80-82 | Every waiting message is delivered once and settled once, in queue order, with consecutive tags, and the queue ends empty |
| `Pipeline.PublishedOrdersAreAcked` | consumer.py:62-66 | The payload the API publishes decodes to an order the consumer acks |
| `Pipeline.SubmissionsAreAcked` | app.py:193-201 | Every message queued by a submission is one the consumer acks |

## Left out

- producer.py: the whole file is string literals, so it has no behaviour.
- data_store.py appears only as constants. The `stock` field inside each book is carried but never read, since order submission reads `inventory`.
- `GET /`, `GET /books` and `GET /books/<id>` are left out: they are routing and JSON shaping outside the modelled core.
- Flask routing, `jsonify` and SocketIO are left out. That covers the `order_received`/`order_error` emits and the connect/disconnect handlers. They are transport with no effect on the decisions.
- `Orders.SendOrderToQueue`: its outcome is the conjunction of the broker parameters, so nothing is proved about it on its own. Its effect on the order's status, the answer and the queue is stated by `Orders.SubmitAccepts`.
- The pika calls become booleans (`Orders.BrokerEnv`), because they are network I/O. These are connection setup, `queue_declare` and `basic_publish` with the persistent flag.
- `Orders.SendOrderToQueue`: assumes `connection.close()` in the `finally` block never raises. In the code an exception there escapes `send_order_to_queue`, even after `return True`. `create_order` then fails unhandled, Flask answers 500, the order stays `Pending`, and the message may already be published. No `Submit` outcome covers that path.
- The consumer's unbounded reconnect loop with its 5-second sleep is left out, for the same reason.
- `Consumer.Channel.StartConsuming`: models `start_consuming()` only until the queue is empty. The real loop waits for further messages forever.
- The Gemini agent call and the regex that picks the quoted title are foreign code. They are the parameters `agent` and `mentioned`.
- The model object and the API key variables become `AiConfig`.
- `time.sleep`, the debug prints and `uuid.uuid4` are left out. The ids are parameters.
- Prices are integer cents, so `round(total, 2)` is the identity. Floating point is not modelled.
- `Text.ParseInt`: accepts only an optional sign followed by ASCII digits. Python's `int()` also accepts surrounding whitespace, underscores and non-ASCII digits, truncates floats, and takes `True`/`False` as 1/0. In the model a float or boolean `book_id` is an invalid format, and a boolean quantity is invalid. In the other direction, the model parses decimal text of any length. Current CPython refuses `int()` on a string of more than 4300 digits, so such a `book_id` gets "Invalid book_id format" there, where the model answers "Invalid book_id: ...". `Text.IntToString` has no such limit either, while CPython's `str()` refuses such large integers.
- `Text.Lower`: lower-cases ASCII letters only. Python's `str.lower()` is Unicode-aware.
- `Orders.OrderRequest`: a `user_identifier` is either absent or a string. The code stores any value it finds there, including `null`, a number or an object, unchanged in the order.
- A top-level JSON body that is a list or a scalar is not modelled. On such a body `'items' in data` and `data.get` behave differently.
- `JsonValue.Json`: numbers are integers only, and an object is a map, so duplicate keys appear once.
- The check in `handle_ai_chat` that the titles are a list is always passed in the model. `GetAvailableBookTitles` returns a sequence.
- Concurrency is not modelled. The model is sequential, so the stock race between concurrent requests and the lock around `orders` are outside it.
- Several consumer instances sharing one queue are not modelled.
