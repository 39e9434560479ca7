// RentalController (backend/app/Http/Controllers/Api/RentalController.php):
// creating a rental with server-side prices, and returning items.
module RentalApi {
  import opened Types
  import opened Ledger
  import opened ServerDb
  import RentalsView

  /** The validation rules of store (RentalController.php:20-28); `required` refuses "" and an empty array. */
  predicate ValidRentalRequest(customers: seq<Customer>, items: seq<InventoryItem>, req: RentalRequest) {
    req.customerId != "" && CustomerExists(customers, req.customerId) &&
    req.customerName != "" &&
    req.rentDate.Some? && req.expectedReturnDate.Some? &&
    |req.items| > 0 &&
    forall k :: 0 <= k < |req.items| ==> ItemExists(items, req.items[k].itemId) && req.items[k].quantity >= 1
  }

  /** `max(1, diffInDays)`: the number of days charged, the same count the client charges. */
  function Duration(start: Day, end: Day): (d: int)
    ensures d >= 1
    ensures d == RentalDays(start, end)
  {
    var diff := AbsDiff(start, end);
    if diff > 1 then diff else 1
  }

  /** The rental_items row for one request line: the item's current name and daily rent price, unreturned. */
  function SnapshotLine(items: seq<InventoryItem>, l: RentalLineRequest): (row: RentalItem)
    requires ItemExists(items, l.itemId)
    ensures var item := items[FindIndex(items, ItemKey, l.itemId)];
            row.itemId == l.itemId && row.itemName == item.name && row.quantity == l.quantity &&
            row.dailyRentPrice == item.dailyRentPrice && !row.returned && row.returnedDate == None
  {
    var item := items[FindIndex(items, ItemKey, l.itemId)];
    RentalItem(item.id, item.name, l.quantity, item.dailyRentPrice, false, None)
  }

  function SnapshotLines(items: seq<InventoryItem>, lines: seq<RentalLineRequest>): (rows: seq<RentalItem>)
    requires forall k :: 0 <= k < |lines| ==> ItemExists(items, lines[k].itemId)
    ensures |rows| == |lines|
    ensures forall k :: 0 <= k < |lines| ==> rows[k] == SnapshotLine(items, lines[k])
  {
    seq(|lines|, k requires 0 <= k < |lines| => SnapshotLine(items, lines[k]))
  }

  /** The rental store creates for a valid request. */
  function NewServerRental(items: seq<InventoryItem>, req: RentalRequest, freshId: Id, now: Instant): (r: Rental)
    requires req.rentDate.Some? && req.expectedReturnDate.Some?
    requires forall k :: 0 <= k < |req.items| ==> ItemExists(items, req.items[k].itemId)
    ensures r.id == freshId && r.status == Active && r.createdAt == now && r.notes == None
    ensures r.customerId == req.customerId && r.customerName == req.customerName
    ensures r.rentDate == req.rentDate.value && r.expectedReturnDate == req.expectedReturnDate.value
    ensures r.items == SnapshotLines(items, req.items)
    ensures r.totalAmount ==
              Duration(req.rentDate.value, req.expectedReturnDate.value) * SumOf(r.items, DailyCharge)
  {
    var rows := SnapshotLines(items, req.items);
    var duration := Duration(req.rentDate.value, req.expectedReturnDate.value);
    RentalTotalIsDaysTimesRate(rows, duration);
    Rental(freshId, req.customerId, req.customerName, req.rentDate.value, req.expectedReturnDate.value,
           rows, RentalTotal(rows, duration), Active, None, now)
  }

  /** The foreach of store (RentalController.php:40-54): the line rows and the running total. */
  method PriceLines(items: seq<InventoryItem>, lines: seq<RentalLineRequest>, duration: int)
    returns (total: int, rows: seq<RentalItem>)
    requires forall k :: 0 <= k < |lines| ==> ItemExists(items, lines[k].itemId)
    ensures rows == SnapshotLines(items, lines)
    ensures total == RentalTotal(rows, duration)
  {
    total, rows := 0, [];
    var i := 0;
    while i < |lines|
      invariant 0 <= i <= |lines|
      invariant rows == SnapshotLines(items, lines[..i])
      invariant total == RentalTotal(rows, duration)
    {
      var item := items[FindIndex(items, ItemKey, lines[i].itemId)];
      var lineTotal := item.dailyRentPrice * lines[i].quantity * duration;
      total := total + lineTotal;
      rows := rows + [SnapshotLine(items, lines[i])];
      i := i + 1;
      assert rows[..|rows| - 1] == SnapshotLines(items, lines[..i - 1]);
    }
    assert lines[..i] == lines;
  }

  /** store (RentalController.php:18-59): a refused request writes nothing; a valid one adds the priced rental. */
  method Store(db: Database, req: RentalRequest, freshId: Id, now: Instant) returns (res: Result<Rental, ApiError>)
    modifies db`rentals
    ensures !ValidRentalRequest(db.customers, db.items, req) ==> res == Err(ValidationFailed) && db.rentals == old(db.rentals)
    ensures ValidRentalRequest(db.customers, db.items, req) ==>
              res == Ok(NewServerRental(db.items, req, freshId, now)) && db.rentals == old(db.rentals) + [res.value]
  {
    if !ValidRentalRequest(db.customers, db.items, req) {
      return Err(ValidationFailed);
    }
    var duration := Duration(req.rentDate.value, req.expectedReturnDate.value);
    var total, rows := PriceLines(db.items, req.items, duration);
    var rental := Rental(freshId, req.customerId, req.customerName, req.rentDate.value, req.expectedReturnDate.value,
                         rows, total, Active, None, now);
    db.rentals := db.rentals + [rental];
    res := Ok(rental);
  }

  /**
   * The server charges the client's estimate whenever the cart's prices are
   * the inventory's daily rates, as the rental form's add-item sets them.
   */
  lemma ServerTotalIsClientEstimate(items: seq<InventoryItem>, req: RentalRequest, cart: seq<LineInput>,
                                    freshId: Id, now: Instant)
    requires req.rentDate.Some? && req.expectedReturnDate.Some?
    requires forall k :: 0 <= k < |req.items| ==> ItemExists(items, req.items[k].itemId)
    requires |cart| == |req.items|
    requires forall k :: 0 <= k < |cart| ==>
               cart[k].itemId == req.items[k].itemId && cart[k].quantity == req.items[k].quantity &&
               ItemExists(items, cart[k].itemId) &&
               cart[k].price == items[FindIndex(items, ItemKey, cart[k].itemId)].dailyRentPrice
    ensures NewServerRental(items, req, freshId, now).totalAmount ==
            RentalsView.CalculateTotal(req.rentDate, req.expectedReturnDate, cart)
  {
    SumOfPointwise(SnapshotLines(items, req.items), cart, DailyCharge, LineAmount);
  }

  // ------------------------------------------------------------ returns

  /** `exists:rental_items,item_id`: some line of some rental names the item. */
  predicate OnSomeRental(rentals: seq<Rental>, itemId: Id) {
    exists r, l :: r in rentals && l in r.items && l.itemId == itemId
  }

  /** The rental after returnItems (RentalController.php:85-94): the listed lines returned, then Returned or Partial Return. */
  function ServerReturn(r: Rental, itemIds: seq<Id>, now: Instant): (u: Rental)
    ensures u.(items := r.items, status := r.status) == r
    ensures u.items == MarkReturned(r.items, itemIds, now)
    ensures u.status == Returned <==> AllReturned(u.items)
    ensures u.status == PartialReturn <==> !AllReturned(u.items)
  {
    var lines := MarkReturned(r.items, itemIds, now);
    r.(items := lines, status := if AllReturned(lines) then Returned else PartialReturn)
  }

  /**
   * returnItems (RentalController.php:78-97): an unknown rental is 404, an
   * empty list or an item on no rental fails validation; otherwise only that
   * rental changes.
   */
  method ReturnItems(db: Database, rentalId: Id, itemIds: seq<Id>, now: Instant) returns (res: Result<Rental, ApiError>)
    modifies db`rentals
    ensures var idx := FindIndex(old(db.rentals), RentalKey, rentalId);
            idx == -1 ==> res == Err(NotFound) && db.rentals == old(db.rentals)
    ensures var idx := FindIndex(old(db.rentals), RentalKey, rentalId);
            idx != -1 && !(|itemIds| > 0 && forall id :: id in itemIds ==> OnSomeRental(old(db.rentals), id)) ==>
              res == Err(ValidationFailed) && db.rentals == old(db.rentals)
    ensures var idx := FindIndex(old(db.rentals), RentalKey, rentalId);
            idx != -1 && |itemIds| > 0 && (forall id :: id in itemIds ==> OnSomeRental(old(db.rentals), id)) ==>
              var u := ServerReturn(old(db.rentals)[idx], itemIds, now);
              res == Ok(u) && db.rentals == old(db.rentals)[idx := u]
  {
    var idx := FindIndex(db.rentals, RentalKey, rentalId);
    if idx == -1 {
      return Err(NotFound);
    }
    if !(|itemIds| > 0 && forall id :: id in itemIds ==> OnSomeRental(db.rentals, id)) {
      return Err(ValidationFailed);
    }
    var u := ServerReturn(db.rentals[idx], itemIds, now);
    db.rentals := db.rentals[idx := u];
    res := Ok(u);
  }

  /**
   * The server's return rule against the client store's: for a rental not
   * yet Returned both close it at the same time, but where the client keeps
   * Active or Overdue the server writes Partial Return.
   */
  lemma ServerReturnVersusClient(r: Rental, itemIds: seq<Id>, now: Instant)
    requires r.status != Returned
    ensures var server, client := ServerReturn(r, itemIds, now), ApplyReturn(r, itemIds, now);
            (server.status == Returned <==> client.status == Returned) &&
            (client.status in {Active, Overdue} ==> server.status == PartialReturn) &&
            (client.status == PartialReturn ==> server.status == PartialReturn)
  {
  }

  /** A returned Overdue rental with a line still out: the client keeps Overdue, the server writes Partial Return. */
  lemma OverdueReturnDiffers()
    ensures var r := Rental("r1", "c1", "Jane", 0, 3,
                            [RentalItem("mic", "Mic", 1, 10, false, None), RentalItem("amp", "Amp", 1, 20, false, None)],
                            60, Overdue, None, 0);
            ApplyReturn(r, ["mic"], 5).status == Overdue && ServerReturn(r, ["mic"], 5).status == PartialReturn
  {
    var r := Rental("r1", "c1", "Jane", 0, 3,
                    [RentalItem("mic", "Mic", 1, 10, false, None), RentalItem("amp", "Amp", 1, 20, false, None)],
                    60, Overdue, None, 0);
    var lines := MarkReturned(r.items, ["mic"], 5);
    assert !lines[1].returned;
  }
}
