// SaleController (backend/app/Http/Controllers/Api/SaleController.php):
// recording a sale, with the stock of each line checked against the item's
// total quantity as it stands after the earlier lines, inside one
// transaction.
module SaleApi {
  import opened Types
  import opened Ledger
  import opened ServerDb
  import MockDb

  /** The validation rules of store (SaleController.php:20-28); `required` refuses "" and an empty array. */
  predicate ValidSaleRequest(customers: seq<Customer>, items: seq<InventoryItem>, req: SaleRequest) {
    (req.customerId.None? || CustomerExists(customers, req.customerId.value)) &&
    req.customerName != "" &&
    req.date.Some? &&
    |req.items| > 0 &&
    forall k :: 0 <= k < |req.items| ==>
      ItemExists(items, req.items[k].itemId) && req.items[k].quantity >= 1 && req.items[k].price >= 0
  }

  /** The first foreach of store (SaleController.php:31-34). */
  method ComputeTotal(lines: seq<LineInput>) returns (total: int)
    ensures total == SaleTotal(lines)
  {
    total := 0;
    var i := 0;
    while i < |lines|
      invariant 0 <= i <= |lines|
      invariant total == SaleTotal(lines[..i])
    {
      total := total + lines[i].price * lines[i].quantity;
      i := i + 1;
      assert lines[..i][..i - 1] == lines[..i - 1];
    }
    assert lines[..i] == lines;
  }

  /**
   * The stock side of the second foreach (SaleController.php:43-59): line by
   * line, the item's current total quantity must cover the line, and is then
   * decremented; the first shortfall aborts the whole transaction with the
   * item's name.
   */
  function SequentialDeduct(items: seq<InventoryItem>, lines: seq<LineInput>): (res: Result<seq<InventoryItem>, string>)
    ensures res.Ok? ==> |res.value| == |items|
    ensures res.Ok? ==> forall k :: 0 <= k < |items| ==> SameButStock(res.value[k], items[k])
  {
    if |lines| == 0 then Ok(items)
    else
      match SequentialDeduct(items, lines[..|lines| - 1])
      case Err(name) => Err(name)
      case Ok(cur) =>
        var l := lines[|lines| - 1];
        var i := FindIndex(cur, ItemKey, l.itemId);
        // an unknown id does not pass validation, so this branch is not reached through store
        if i == -1 then Err("")
        else if cur[i].totalQuantity < l.quantity then Err(cur[i].name)
        else Ok(Deduct(cur, l))
  }

  /** One sale_items row (SaleController.php:52-58): the item's name, the line's quantity and price, price times quantity. */
  function SaleRow(items: seq<InventoryItem>, l: LineInput): (row: SaleItem)
    requires ItemExists(items, l.itemId)
    ensures row.itemId == l.itemId && row.itemName == items[FindIndex(items, ItemKey, l.itemId)].name
    ensures row.quantity == l.quantity && row.unitPrice == l.price && row.total == l.price * l.quantity
  {
    var item := items[FindIndex(items, ItemKey, l.itemId)];
    SaleItem(item.id, item.name, l.quantity, l.price, l.price * l.quantity)
  }

  function ServerSaleLines(items: seq<InventoryItem>, lines: seq<LineInput>): (rows: seq<SaleItem>)
    requires forall k :: 0 <= k < |lines| ==> ItemExists(items, lines[k].itemId)
    ensures |rows| == |lines|
    ensures forall k :: 0 <= k < |lines| ==> rows[k] == SaleRow(items, lines[k])
  {
    seq(|lines|, k requires 0 <= k < |lines| => SaleRow(items, lines[k]))
  }

  /** The server records the same line totals as the client store, so its lines add up to the sale total. */
  lemma ServerSaleLinesTotal(items: seq<InventoryItem>, lines: seq<LineInput>)
    requires forall k :: 0 <= k < |lines| ==> ItemExists(items, lines[k].itemId)
    ensures SumOf(ServerSaleLines(items, lines), MockDb.SaleLineTotal) == SaleTotal(lines)
  {
    SumOfPointwise(ServerSaleLines(items, lines), lines, MockDb.SaleLineTotal, LineAmount);
  }

  /** The loop that checks and decrements, without writing: what SequentialDeduct describes. */
  method CheckStock(items: seq<InventoryItem>, lines: seq<LineInput>) returns (res: Result<seq<InventoryItem>, string>)
    ensures res == SequentialDeduct(items, lines)
  {
    var cur := items;
    var i := 0;
    while i < |lines|
      invariant 0 <= i <= |lines|
      invariant SequentialDeduct(items, lines[..i]) == Ok(cur)
    {
      assert lines[..i + 1][..i] == lines[..i];
      var idx := FindIndex(cur, ItemKey, lines[i].itemId);
      if idx == -1 {
        FailedPrefix(items, lines, i + 1);
        return Err("");
      }
      if cur[idx].totalQuantity < lines[i].quantity {
        FailedPrefix(items, lines, i + 1);
        return Err(cur[idx].name);
      }
      cur := Deduct(cur, lines[i]);
      i := i + 1;
    }
    assert lines[..i] == lines;
    res := Ok(cur);
  }

  /** Once a prefix of the lines has failed, the whole sale fails with that prefix's error. */
  lemma {:induction false} FailedPrefix(items: seq<InventoryItem>, lines: seq<LineInput>, j: nat)
    requires j <= |lines|
    requires SequentialDeduct(items, lines[..j]).Err?
    ensures SequentialDeduct(items, lines) == SequentialDeduct(items, lines[..j])
  {
    if j < |lines| {
      assert lines[..|lines| - 1][..j] == lines[..j];
      FailedPrefix(items, lines[..|lines| - 1], j);
    } else {
      assert lines[..j] == lines;
    }
  }

  /**
   * store (SaleController.php:18-63): a refused request and a stock
   * shortfall leave items and sales as they were (the transaction rolls
   * back); otherwise the stock is decremented and the sale recorded.
   */
  method Store(db: Database, req: SaleRequest, saleId: Id, now: Instant) returns (res: Result<Sale, ApiError>)
    modifies db`items, db`sales
    ensures !ValidSaleRequest(db.customers, old(db.items), req) ==>
              res == Err(ValidationFailed) && db.items == old(db.items) && db.sales == old(db.sales)
    ensures ValidSaleRequest(db.customers, old(db.items), req) && SequentialDeduct(old(db.items), req.items).Err? ==>
              res == Err(InsufficientStock(SequentialDeduct(old(db.items), req.items).error)) &&
              db.items == old(db.items) && db.sales == old(db.sales)
    ensures ValidSaleRequest(db.customers, old(db.items), req) && SequentialDeduct(old(db.items), req.items).Ok? ==>
              var sale := Sale(saleId, req.customerId, req.customerName, ServerSaleLines(old(db.items), req.items),
                               SaleTotal(req.items), req.date.value, now);
              res == Ok(sale) && db.items == SequentialDeduct(old(db.items), req.items).value &&
              db.sales == old(db.sales) + [sale]
  {
    if !ValidSaleRequest(db.customers, db.items, req) {
      return Err(ValidationFailed);
    }
    var totalAmount := ComputeTotal(req.items);
    var checked := CheckStock(db.items, req.items);
    if checked.Err? {
      return Err(InsufficientStock(checked.error));
    }
    var sale := Sale(saleId, req.customerId, req.customerName, ServerSaleLines(db.items, req.items),
                     totalAmount, req.date.value, now);
    db.items := checked.value;
    db.sales := db.sales + [sale];
    res := Ok(sale);
  }

  // ------------------------------------------------------------ properties

  /** On success each item has lost exactly the quantities of its lines, as on the client. */
  lemma {:induction false} SequentialDeductIsDeductAll(items: seq<InventoryItem>, lines: seq<LineInput>)
    requires SequentialDeduct(items, lines).Ok?
    ensures SequentialDeduct(items, lines).value == DeductAll(items, lines)
  {
    if |lines| > 0 {
      SequentialDeductIsDeductAll(items, lines[..|lines| - 1]);
    }
  }

  /** The server never takes an item's stock below zero. */
  lemma {:induction false} SequentialDeductKeepsStockNonNegative(items: seq<InventoryItem>, lines: seq<LineInput>)
    requires forall k :: 0 <= k < |items| ==> items[k].totalQuantity >= 0
    requires SequentialDeduct(items, lines).Ok?
    ensures forall k :: 0 <= k < |items| ==> SequentialDeduct(items, lines).value[k].totalQuantity >= 0
  {
    if |lines| > 0 {
      SequentialDeductKeepsStockNonNegative(items, lines[..|lines| - 1]);
    }
  }

  /** The stock of an item the inventory holds. */
  function StockOf(items: seq<InventoryItem>, itemId: Id): int
    requires ItemExists(items, itemId)
  {
    items[FindIndex(items, ItemKey, itemId)].totalQuantity
  }

  /** A line for an item no earlier line names meets that item's stock as it was before the sale. */
  lemma FreshLineSeesFullStock(items: seq<InventoryItem>, init: seq<LineInput>, l: LineInput)
    requires SequentialDeduct(items, init).Ok?
    requires ItemExists(items, l.itemId)
    requires forall k :: 0 <= k < |init| ==> init[k].itemId != l.itemId
    ensures var cur := SequentialDeduct(items, init).value;
            FindIndex(cur, ItemKey, l.itemId) == FindIndex(items, ItemKey, l.itemId) &&
            cur[FindIndex(items, ItemKey, l.itemId)].totalQuantity == StockOf(items, l.itemId)
  {
    var cur := SequentialDeduct(items, init).value;
    SequentialDeductIsDeductAll(items, init);
    FindIndexSameKeys(cur, items, ItemKey, l.itemId);
    var j := FindIndex(items, ItemKey, l.itemId);
    DeductAllAt(items, init, j);
    QtyForAbsent(init, l.itemId);
  }

  /** Every line is within its item's total quantity as it was before the sale. */
  predicate EnoughStock(items: seq<InventoryItem>, lines: seq<LineInput>)
    requires forall k :: 0 <= k < |lines| ==> ItemExists(items, lines[k].itemId)
  {
    forall k :: 0 <= k < |lines| ==> lines[k].quantity <= StockOf(items, lines[k].itemId)
  }

  lemma EnoughStockSplit(items: seq<InventoryItem>, lines: seq<LineInput>)
    requires |lines| > 0
    requires forall k :: 0 <= k < |lines| ==> ItemExists(items, lines[k].itemId)
    ensures EnoughStock(items, lines) <==>
            EnoughStock(items, lines[..|lines| - 1]) && lines[|lines| - 1].quantity <= StockOf(items, lines[|lines| - 1].itemId)
  {
    assert forall k :: 0 <= k < |lines| - 1 ==> lines[..|lines| - 1][k] == lines[k];
  }

  /** One more line passes exactly when the earlier ones did and its item's current stock covers it. */
  lemma SequentialDeductStep(items: seq<InventoryItem>, lines: seq<LineInput>)
    requires |lines| > 0
    ensures var prev := SequentialDeduct(items, lines[..|lines| - 1]);
            var l := lines[|lines| - 1];
            SequentialDeduct(items, lines).Ok? <==>
            prev.Ok? && FindIndex(prev.value, ItemKey, l.itemId) != -1 &&
            l.quantity <= prev.value[FindIndex(prev.value, ItemKey, l.itemId)].totalQuantity
  {
  }

  /** With one line per item, the server accepts a sale exactly when each line is within its item's total quantity. */
  lemma {:induction false} SequentialDeductIffEnoughStock(items: seq<InventoryItem>, lines: seq<LineInput>)
    requires DistinctItems(lines)
    requires forall k :: 0 <= k < |lines| ==> ItemExists(items, lines[k].itemId)
    ensures SequentialDeduct(items, lines).Ok? <==> EnoughStock(items, lines)
  {
    if |lines| > 0 {
      var n := |lines|;
      var init, l := lines[..n - 1], lines[n - 1];
      assert forall k :: 0 <= k < n - 1 ==> init[k] == lines[k];
      SequentialDeductIffEnoughStock(items, init);
      EnoughStockSplit(items, lines);
      SequentialDeductStep(items, lines);
      if SequentialDeduct(items, init).Ok? {
        FreshLineSeesFullStock(items, init, l);
      }
    }
  }

  /** Two lines for the same item are checked against the decremented stock: the server refuses what the client store oversells. */
  lemma ServerRefusesRepeatedLines()
    ensures var inv := [InventoryItem("mic", "Wireless Mic", None, None, 1000, Some(15000), 5, None)];
            var lines := [LineInput("mic", 3, 15000), LineInput("mic", 3, 15000)];
            MockDb.FirstSaleError(inv, [], lines).None? && SequentialDeduct(inv, lines) == Err("Wireless Mic")
  {
    MockDb.RepeatedLinesOversell();
    var inv := [InventoryItem("mic", "Wireless Mic", None, None, 1000, Some(15000), 5, None)];
    var lines := [LineInput("mic", 3, 15000), LineInput("mic", 3, 15000)];
    assert lines[..1] == [lines[0]] && lines[..1][..0] == [];
    assert FindIndex(inv, ItemKey, "mic") == 0;
    assert SequentialDeduct(inv, []) == Ok(inv);
    var after := SequentialDeduct(inv, lines[..1]);
    assert after == Ok(Deduct(inv, lines[0]));
    assert after.value[0].totalQuantity == 2;
    assert FindIndex(after.value, ItemKey, "mic") == 0;
  }

  /** The server checks total stock, not availability: it sells pieces the client store holds back for an open rental. */
  lemma ServerSellsRentedStock()
    ensures var inv := [InventoryItem("mic", "Wireless Mic", None, None, 1000, Some(15000), 5, None)];
            var rentals := [Rental("r1", "c1", "Jane", 0, 3, [RentalItem("mic", "Wireless Mic", 4, 1000, false, None)],
                                   4000, Active, None, 0)];
            var lines := [LineInput("mic", 3, 15000)];
            MockDb.FirstSaleError(inv, rentals, lines).Some? && SequentialDeduct(inv, lines).Ok?
  {
    var inv := [InventoryItem("mic", "Wireless Mic", None, None, 1000, Some(15000), 5, None)];
    var rental := Rental("r1", "c1", "Jane", 0, 3, [RentalItem("mic", "Wireless Mic", 4, 1000, false, None)],
                         4000, Active, None, 0);
    var rentals := [rental];
    var lines := [LineInput("mic", 3, 15000)];
    assert lines[..0] == [] && rentals[..0] == [] && rental.items[..0] == [];
    assert FindIndex(inv, ItemKey, "mic") == 0;
    FilterAll(rentals, IsOpen);
    assert Outstanding(rental.items, "mic") == 4;
    assert OutstandingIn(rentals, "mic") == 4;
    assert RentedQty(rentals, "mic") == 4;
    assert Available(inv, rentals, "mic") == 1;
  }
}
