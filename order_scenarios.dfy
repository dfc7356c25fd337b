/** Concrete submissions against the shipped catalog and stock ledger. */
module OrderScenarios {
  import opened Wrappers
  import opened DataStore
  import opened Orders

  function OneLine(id: int, quantity: int): OrderRequest {
    OrderBody(ItemsList([LineObject(IntVal(id), IntVal(quantity))]), None)
  }

  const Up := BrokerEnv(Some("amqp://localhost"), true, true)

  /** Two copies of book 1 against a stock of 5: accepted with total 0, since no shipped
      book has a price. */
  lemma TwoUnitsOfBookOne()
    ensures var s := Submit(OneLine(1, 2), BooksData, Inventory, map[], [], "o1", "anon_1", Up);
      && s.response.Created? && HttpStatus(s.response) == 201
      && s.orders["o1"].status == Pending && s.orders["o1"].totalPrice == 0
      && s.orders["o1"].items == [LineDetail(1, "The Hitchhiker's Guide to the Galaxy", 2, 0)]
      && s.queued == [OrderMessage("o1", [LineMessage(1, 2)])]
  {
    var lines := OneLine(1, 2).items.lines;
    var d := LineDetail(1, "The Hitchhiker's Guide to the Galaxy", 2, 0);
    assert CheckLine(lines[0], BooksData, Inventory) == Ok(d);
    ValidateAccepts(lines, BooksData, Inventory);
    var ds := Validate(lines, BooksData, Inventory).value;
    assert |ds| == 1 && ds[0] == d;
    assert ds == [d];
    assert Messages([d]) == [LineMessage(1, 2)];
    assert TotalPrice([d]) == 0 by { assert [d][..0] == []; }
  }

  /** With a price of 10.00 (1000 cents), two units total 20.00. */
  lemma PricedBookTotal()
    ensures var books := map[1 := BooksData[1].(price := Some(1000))];
      var s := Submit(OneLine(1, 2), books, Inventory, map[], [], "o1", "anon_1", Up);
      s.response.Created? && s.response.order.totalPrice == 2000 && s.response.order.status == Pending
  {
    var books := map[1 := BooksData[1].(price := Some(1000))];
    var lines := OneLine(1, 2).items.lines;
    var d := LineDetail(1, "The Hitchhiker's Guide to the Galaxy", 2, 1000);
    assert CheckLine(lines[0], books, Inventory) == Ok(d);
    ValidateAccepts(lines, books, Inventory);
    var ds := Validate(lines, books, Inventory).value;
    assert |ds| == 1 && ds[0] == d;
    assert ds == [d];
    assert TotalPrice([d]) == 2000 by { assert [d][..0] == []; }
  }

  /** Ten copies of book 1 exceed its stock of 5. */
  lemma TenUnitsOfBookOne()
    ensures var s := Submit(OneLine(1, 10), BooksData, Inventory, map[], [], "o1", "anon_1", Up);
      && s.response == Rejected(NotEnoughStock("The Hitchhiker's Guide to the Galaxy", 1, 5))
      && HttpStatus(s.response) == 400 && s.orders == map[]
      && ErrorMessage(s.response.error)
         == "Not enough stock for '" + BooksData[1].title + "' (ID: 1). Available: 5"
  {
    var lines := OneLine(1, 10).items.lines;
    var e := NotEnoughStock("The Hitchhiker's Guide to the Galaxy", 1, 5);
    assert CheckLine(lines[0], BooksData, Inventory) == Err(Invalid(e));
    assert FirstFailing(lines, 0, BooksData, Inventory);
    ValidateRejects(lines, BooksData, Inventory);
    assert Text.IntToString(1) == "1" && Text.IntToString(5) == "5";
    assert ErrorMessage(e) == "Not enough stock for '" + e.title + "' (ID: " + "1" + "). Available: " + "5";
    assert e.title == BooksData[1].title;
    assert "' (ID: " + "1" + "). Available: " + "5" == "' (ID: 1). Available: 5";
  }

  /** Book 999 is not in the catalog. */
  lemma UnknownBook()
    ensures var s := Submit(OneLine(999, 1), BooksData, Inventory, map[], [], "o1", "anon_1", Up);
      && s.response == Rejected(UnknownBookId(999)) && s.orders == map[]
      && ErrorMessage(s.response.error) == "Invalid book_id: 999"
  {
    var lines := OneLine(999, 1).items.lines;
    assert CheckLine(lines[0], BooksData, Inventory) == Err(Invalid(UnknownBookId(999)));
    assert FirstFailing(lines, 0, BooksData, Inventory);
    ValidateRejects(lines, BooksData, Inventory);
    assert Text.NatToString(9) == "9";
    assert Text.NatToString(99) == "99";
    assert Text.NatToString(999) == "999";
  }

  /** Stock is not reserved between lines: two lines of 5 copies of book 1, one with the
      id as text, both pass against its stock of 5, so the order holds 10 copies. */
  lemma NoReservationAcrossLines()
    ensures var req := OrderBody(ItemsList([LineObject(IntVal(1), IntVal(5)), LineObject(StrVal("1"), IntVal(5))]), None);
      var s := Submit(req, BooksData, Inventory, map[], [], "o1", "anon_1", Up);
      && s.response.Created? && |s.orders["o1"].items| == 2
      && s.orders["o1"].items[0].bookId == 1 && s.orders["o1"].items[1].bookId == 1
      && s.orders["o1"].items[0].quantity + s.orders["o1"].items[1].quantity == 10 > Inventory[1]
  {
    var lines := [LineObject(IntVal(1), IntVal(5)), LineObject(StrVal("1"), IntVal(5))];
    assert CheckLine(lines[0], BooksData, Inventory).Ok?;
    assert Text.ParseInt("1") == Some(1) by {
      assert Text.DigitsValue("1"[..0]) == 0;
    }
    assert CheckLine(lines[1], BooksData, Inventory).Ok?;
    ValidateAccepts(lines, BooksData, Inventory);
  }

  /** A failing broker leaves the order recorded as "Queueing Failed" behind a 500. */
  lemma BrokerDown()
    ensures var down := BrokerEnv(Some("amqp://localhost"), false, true);
      var s := Submit(OneLine(1, 2), BooksData, Inventory, map[], [], "o1", "anon_1", down);
      && s.response == QueueingError && HttpStatus(s.response) == 500
      && StatusText(s.orders["o1"].status) == "Queueing Failed" && s.queued == []
  {
    var lines := OneLine(1, 2).items.lines;
    assert CheckLine(lines[0], BooksData, Inventory).Ok?;
    ValidateAccepts(lines, BooksData, Inventory);
  }
}
