// The in-memory record store of services/mockDb.ts: customers, inventory,
// rentals, sales, payments and notes, each a sequence that the operations
// reassign or update in place. localStorage reads and writes become field
// reads and assignments; generateId() and the clock become parameters.
module MockDb {
  import opened Types
  import opened Ledger

  /** What the customer form passes to saveCustomer: an `id` only when editing. */
  datatype CustomerInput = CustomerInput(
    id: Option<Id>,
    name: string,
    phone: string,
    address: Option<string>,
    nid: Option<string>,
    photoUrl: Option<string>)

  /** What the inventory form passes to saveInventoryItem. */
  datatype ItemInput = ItemInput(
    id: Option<Id>,
    name: string,
    category: Option<string>,
    description: Option<string>,
    dailyRentPrice: int,
    sellingPrice: Option<int>,
    totalQuantity: int,
    photoUrl: Option<string>)

  /** A rental without the fields saveRental fills in (id, createdAt, status, totalAmount). */
  datatype RentalInput = RentalInput(
    customerId: Id,
    customerName: string,
    rentDate: Day,
    expectedReturnDate: Day,
    items: seq<RentalItem>,
    notes: Option<string>)

  datatype SaleInput = SaleInput(customerId: Option<Id>, customerName: string, items: seq<LineInput>, date: Day)

  datatype PaymentInput = PaymentInput(
    rentalId: Option<Id>,
    saleId: Option<Id>,
    amount: int,
    date: Day,
    note: Option<string>)

  /** The two errors saveSale throws: "Item not found" and "Insufficient stock for item: <name>. Available: <n>". */
  datatype SaleError = ItemNotFound | InsufficientStock(itemName: string, available: int)

  // ------------------------------------------------------------ records

  /** `{ ...existing, ...input }`: the form's fields over the stored customer, which keeps its id and createdAt. */
  function MergeCustomer(c: Customer, input: CustomerInput): (m: Customer)
    ensures m.id == c.id && m.createdAt == c.createdAt
    ensures m.name == input.name && m.phone == input.phone
    ensures m.address == input.address && m.nid == input.nid && m.photoUrl == input.photoUrl
  {
    c.(name := input.name, phone := input.phone, address := input.address, nid := input.nid, photoUrl := input.photoUrl)
  }

  /** A customer saved without an id: the form's fields, a fresh id and the creation time. */
  function NewCustomer(input: CustomerInput, freshId: Id, now: Instant): (c: Customer)
    ensures c.id == freshId && c.createdAt == now
    ensures c.name == input.name && c.phone == input.phone
    ensures c.address == input.address && c.nid == input.nid && c.photoUrl == input.photoUrl
  {
    Customer(freshId, input.name, input.phone, input.address, input.nid, input.photoUrl, now)
  }

  /** `{ ...existing, ...input }` for an inventory item: everything but the id comes from the form. */
  function MergeItem(i: InventoryItem, input: ItemInput): (m: InventoryItem)
    ensures m.id == i.id
    ensures m == InventoryItem(i.id, input.name, input.category, input.description, input.dailyRentPrice,
                               input.sellingPrice, input.totalQuantity, input.photoUrl)
  {
    i.(name := input.name, category := input.category, description := input.description,
       dailyRentPrice := input.dailyRentPrice, sellingPrice := input.sellingPrice,
       totalQuantity := input.totalQuantity, photoUrl := input.photoUrl)
  }

  /** An item saved without an id: the form's fields and a fresh id. */
  function NewItem(input: ItemInput, freshId: Id): (i: InventoryItem)
    ensures i.id == freshId
    ensures i.name == input.name && i.category == input.category && i.description == input.description
    ensures i.dailyRentPrice == input.dailyRentPrice && i.sellingPrice == input.sellingPrice
    ensures i.totalQuantity == input.totalQuantity && i.photoUrl == input.photoUrl
  {
    InventoryItem(freshId, input.name, input.category, input.description, input.dailyRentPrice,
                  input.sellingPrice, input.totalQuantity, input.photoUrl)
  }

  /** The rental saveRental stores (services/mockDb.ts:93-108). */
  function NewRental(input: RentalInput, freshId: Id, now: Instant): (r: Rental)
    ensures r.id == freshId && r.status == Active && r.createdAt == now
    ensures r.items == input.items && r.customerId == input.customerId && r.customerName == input.customerName
    ensures r.rentDate == input.rentDate && r.expectedReturnDate == input.expectedReturnDate && r.notes == input.notes
    ensures r.totalAmount == RentalDays(input.rentDate, input.expectedReturnDate) * SumOf(input.items, DailyCharge)
  {
    var days := RentalDays(input.rentDate, input.expectedReturnDate);
    RentalTotalIsDaysTimesRate(input.items, days);
    Rental(freshId, input.customerId, input.customerName, input.rentDate, input.expectedReturnDate,
           input.items, RentalTotal(input.items, days), Active, input.notes, now)
  }

  /** `filter(x => x.id !== id)` */
  function RemoveId<T(!new)>(s: seq<T>, key: T -> Id, id: Id): (r: seq<T>)
    ensures forall x :: x in r <==> x in s && key(x) != id
  {
    Filter(s, (x: T) => key(x) != id)
  }

  /** Deleting an id nothing has leaves the collection as it was. */
  lemma RemoveIdAbsent<T(!new)>(s: seq<T>, key: T -> Id, id: Id)
    requires forall k :: 0 <= k < |s| ==> key(s[k]) != id
    ensures RemoveId(s, key, id) == s
  {
    FilterAll(s, (x: T) => key(x) != id);
  }

  /** Deleting works record by record, so the records kept stay in their order. */
  lemma RemoveIdAppend<T(!new)>(a: seq<T>, b: seq<T>, key: T -> Id, id: Id)
    ensures RemoveId(a + b, key, id) == RemoveId(a, key, id) + RemoveId(b, key, id)
  {
    FilterAppend(a, b, (x: T) => key(x) != id);
  }

  // --------------------------------------------------------------- sales

  /** The error saveSale throws for one line, if any, judged on the stored inventory and rentals. */
  function LineError(inventory: seq<InventoryItem>, rentals: seq<Rental>, l: LineInput): (e: Option<SaleError>)
    ensures e == Some(ItemNotFound) <==> FindIndex(inventory, ItemKey, l.itemId) == -1
    ensures e.None? <==>
              FindIndex(inventory, ItemKey, l.itemId) >= 0 && l.quantity <= Available(inventory, rentals, l.itemId)
    ensures e.Some? && e.value.InsufficientStock? && FindIndex(inventory, ItemKey, l.itemId) >= 0 ==>
              e.value.itemName == inventory[FindIndex(inventory, ItemKey, l.itemId)].name &&
              e.value.available == Available(inventory, rentals, l.itemId)
  {
    var idx := FindIndex(inventory, ItemKey, l.itemId);
    if idx == -1 then Some(ItemNotFound)
    else
      var available := Available(inventory, rentals, l.itemId);
      if available < l.quantity then Some(InsufficientStock(inventory[idx].name, available)) else None
  }

  /** The error of the first line of a sale that fails its check, if any. */
  function FirstSaleError(inventory: seq<InventoryItem>, rentals: seq<Rental>, lines: seq<LineInput>): Option<SaleError> {
    if |lines| == 0 then None
    else
      var before := FirstSaleError(inventory, rentals, lines[..|lines| - 1]);
      if before.Some? then before else LineError(inventory, rentals, lines[|lines| - 1])
  }

  /** A refused sale is refused with the error of one of its own lines. */
  lemma {:induction false} FirstSaleErrorIsLineError(inventory: seq<InventoryItem>, rentals: seq<Rental>, lines: seq<LineInput>)
    requires FirstSaleError(inventory, rentals, lines).Some?
    ensures exists k :: 0 <= k < |lines| && FirstSaleError(inventory, rentals, lines) == LineError(inventory, rentals, lines[k])
  {
    var init := lines[..|lines| - 1];
    if FirstSaleError(inventory, rentals, init).Some? {
      FirstSaleErrorIsLineError(inventory, rentals, init);
      var k :| 0 <= k < |init| && FirstSaleError(inventory, rentals, init) == LineError(inventory, rentals, init[k]);
      assert init[k] == lines[k];
    } else {
      assert FirstSaleError(inventory, rentals, lines) == LineError(inventory, rentals, lines[|lines| - 1]);
    }
  }

  /** Once a prefix of the lines has failed, the sale fails with that prefix's error. */
  lemma {:induction false} FirstSaleErrorPrefix(inventory: seq<InventoryItem>, rentals: seq<Rental>, lines: seq<LineInput>, j: nat)
    requires j <= |lines|
    requires FirstSaleError(inventory, rentals, lines[..j]).Some?
    ensures FirstSaleError(inventory, rentals, lines) == FirstSaleError(inventory, rentals, lines[..j])
  {
    if j < |lines| {
      assert lines[..|lines| - 1][..j] == lines[..j];
      FirstSaleErrorPrefix(inventory, rentals, lines[..|lines| - 1], j);
    } else {
      assert lines[..j] == lines;
    }
  }

  /** One more line of the check loop: its error, if any, decides; otherwise it is deducted. */
  lemma SaleCheckStep(inventory: seq<InventoryItem>, rentals: seq<Rental>, lines: seq<LineInput>, i: nat)
    requires i < |lines|
    requires FirstSaleError(inventory, rentals, lines[..i]).None?
    ensures FirstSaleError(inventory, rentals, lines[..i + 1]) == LineError(inventory, rentals, lines[i])
    ensures DeductAll(inventory, lines[..i + 1]) == Deduct(DeductAll(inventory, lines[..i]), lines[i])
  {
    assert lines[..i + 1][..i] == lines[..i];
  }

  /** A sale passes its check exactly when every line passes on its own. */
  lemma {:induction false} FirstSaleErrorNone(inventory: seq<InventoryItem>, rentals: seq<Rental>, lines: seq<LineInput>)
    ensures FirstSaleError(inventory, rentals, lines).None? <==>
              forall k :: 0 <= k < |lines| ==> LineError(inventory, rentals, lines[k]).None?
  {
    if |lines| > 0 {
      FirstSaleErrorNone(inventory, rentals, lines[..|lines| - 1]);
      assert forall k :: 0 <= k < |lines| - 1 ==> lines[..|lines| - 1][k] == lines[k];
    }
  }

  /**
   * A sale that passes the check, whose lines name distinct items with
   * positive quantities, leaves every sold item with at least the quantity
   * that is still out on rentals: it never sells rented stock.
   */
  lemma SaleKeepsRentedStock(inventory: seq<InventoryItem>, rentals: seq<Rental>, lines: seq<LineInput>, j: nat)
    requires FirstSaleError(inventory, rentals, lines).None?
    requires DistinctItems(lines)
    requires j < |lines| && lines[j].quantity >= 1
    ensures var idx := FindIndex(inventory, ItemKey, lines[j].itemId);
            0 <= idx &&
            DeductAll(inventory, lines)[idx].totalQuantity >= RentedQty(rentals, lines[j].itemId)
  {
    var id := lines[j].itemId;
    FirstSaleErrorNone(inventory, rentals, lines);
    assert LineError(inventory, rentals, lines[j]).None?;
    var idx := FindIndex(inventory, ItemKey, id);
    QtyForSingle(lines, j);
    DeductAllAt(inventory, lines, idx);
  }

  /**
   * Two lines for the same item are each checked against the availability
   * before the sale, so together they can sell more than is in stock: five
   * units, two lines of three, and the stored quantity drops to -1.
   */
  lemma RepeatedLinesOversell()
    ensures var inv := [InventoryItem("mic", "Wireless Mic", None, None, 1000, Some(15000), 5, None)];
            var lines := [LineInput("mic", 3, 15000), LineInput("mic", 3, 15000)];
            FirstSaleError(inv, [], lines).None? && DeductAll(inv, lines)[0].totalQuantity == -1
  {
    var inv := [InventoryItem("mic", "Wireless Mic", None, None, 1000, Some(15000), 5, None)];
    var lines := [LineInput("mic", 3, 15000), LineInput("mic", 3, 15000)];
    assert FindIndex(inv, ItemKey, "mic") == 0;
    assert RentedQty([], "mic") == 0;
    assert Available(inv, [], "mic") == 5;
    assert lines[..1] == [lines[0]];
    assert [lines[0]][..0] == [];
    assert FirstSaleError(inv, [], lines[..1]).None?;
    assert DeductAll(inv, lines[..1])[0].totalQuantity == 2;
  }

  /** The sale lines saveSale records (services/mockDb.ts:193-202). */
  function SaleLines(inv: seq<InventoryItem>, lines: seq<LineInput>): (r: seq<SaleItem>)
    ensures |r| == |lines|
    ensures forall k :: 0 <= k < |r| ==>
              r[k].itemId == lines[k].itemId && r[k].quantity == lines[k].quantity &&
              r[k].unitPrice == lines[k].price && r[k].total == lines[k].price * lines[k].quantity
  {
    seq(|lines|, k requires 0 <= k < |lines| =>
      SaleItem(lines[k].itemId, ItemNameOrUnknown(inv, lines[k].itemId), lines[k].quantity, lines[k].price,
               lines[k].price * lines[k].quantity))
  }

  function SaleLineTotal(s: SaleItem): int {
    s.total
  }

  /** A sale's total is the sum of its recorded line totals. */
  lemma {:induction false} SaleTotalIsSumOfLines(inv: seq<InventoryItem>, lines: seq<LineInput>)
    ensures SumOf(SaleLines(inv, lines), SaleLineTotal) == SaleTotal(lines)
  {
    if |lines| > 0 {
      var n := |lines|;
      SaleTotalIsSumOfLines(inv, lines[..n - 1]);
      assert SaleLines(inv, lines)[..n - 1] == SaleLines(inv, lines[..n - 1]);
    }
  }

  // --------------------------------------------------------------- store

  class Store {
    var customers: seq<Customer>
    var inventory: seq<InventoryItem>
    var rentals: seq<Rental>
    var sales: seq<Sale>
    var payments: seq<Payment>
    var notes: seq<Note>

    constructor ()
      ensures customers == [] && inventory == [] && rentals == []
      ensures sales == [] && payments == [] && notes == []
    {
      customers, inventory, rentals := [], [], [];
      sales, payments, notes := [], [], [];
    }

    /** getRentals(): the stored rentals as shown on day `today`. */
    function GetRentals(today: Day): seq<Rental>
      reads this
    {
      OverdueView(rentals, today)
    }

    /** getRentalPayments(rentalId) */
    function GetRentalPayments(rentalId: Id): seq<Payment>
      reads this
    {
      RentalPayments(payments, rentalId)
    }

    /**
     * saveCustomer (services/mockDb.ts:22-37): with a non-empty id, merge into
     * the first customer with that id, or change nothing if there is none;
     * without one, append a new customer.
     */
    method SaveCustomer(input: CustomerInput, freshId: Id, now: Instant)
      modifies this`customers
      ensures Truthy(input.id) ==>
                var idx := FindIndex(old(customers), CustomerKey, input.id.value);
                (idx == -1 ==> customers == old(customers)) &&
                (idx >= 0 ==> customers == old(customers)[idx := MergeCustomer(old(customers)[idx], input)])
      ensures !Truthy(input.id) ==> customers == old(customers) + [NewCustomer(input, freshId, now)]
    {
      if Truthy(input.id) {
        var index := FindIndex(customers, CustomerKey, input.id.value);
        if index != -1 {
          customers := customers[index := MergeCustomer(customers[index], input)];
        }
      } else {
        customers := customers + [NewCustomer(input, freshId, now)];
      }
    }

    /** deleteCustomer */
    method DeleteCustomer(id: Id)
      modifies this`customers
      ensures customers == RemoveId(old(customers), CustomerKey, id)
    {
      customers := RemoveId(customers, CustomerKey, id);
    }

    /** saveInventoryItem (services/mockDb.ts:50-59): the same upsert as saveCustomer. */
    method SaveInventoryItem(input: ItemInput, freshId: Id)
      modifies this`inventory
      ensures Truthy(input.id) ==>
                var idx := FindIndex(old(inventory), ItemKey, input.id.value);
                (idx == -1 ==> inventory == old(inventory)) &&
                (idx >= 0 ==> inventory == old(inventory)[idx := MergeItem(old(inventory)[idx], input)])
      ensures !Truthy(input.id) ==> inventory == old(inventory) + [NewItem(input, freshId)]
    {
      if Truthy(input.id) {
        var index := FindIndex(inventory, ItemKey, input.id.value);
        if index != -1 {
          inventory := inventory[index := MergeItem(inventory[index], input)];
        }
      } else {
        inventory := inventory + [NewItem(input, freshId)];
      }
    }

    /** deleteInventoryItem */
    method DeleteInventoryItem(id: Id)
      modifies this`inventory
      ensures inventory == RemoveId(old(inventory), ItemKey, id)
    {
      inventory := RemoveId(inventory, ItemKey, id);
    }

    /**
     * saveRental (services/mockDb.ts:89-113): reads the rentals through
     * getRentals(), so the Overdue statuses shown today are written back with
     * the new Active rental appended.
     */
    method SaveRental(input: RentalInput, freshId: Id, now: Instant, today: Day) returns (r: Rental)
      modifies this`rentals
      ensures r == NewRental(input, freshId, now)
      ensures rentals == OverdueView(old(rentals), today) + [r]
      ensures GetRentals(today) == old(GetRentals(today)) + [r.(status := ShownStatus(r, today))]
    {
      var all := GetRentals(today);
      r := NewRental(input, freshId, now);
      rentals := all + [r];
      OverdueViewIdempotent(old(rentals), today);
      assert OverdueView(rentals, today)[..|all|] == OverdueView(all, today);
    }

    /**
     * updateRentalStatus (services/mockDb.ts:115-157): an unknown id changes
     * nothing; otherwise the rental is updated by ApplyReturn and the shown
     * statuses of all rentals are written back.
     */
    method UpdateRentalStatus(rentalId: Id, itemsToReturn: seq<Id>, now: Instant, today: Day)
      modifies this`rentals
      ensures var view := OverdueView(old(rentals), today);
              var idx := FindIndex(view, RentalKey, rentalId);
              (idx == -1 ==> rentals == old(rentals)) &&
              (idx >= 0 ==> rentals == view[idx := ApplyReturn(view[idx], itemsToReturn, now)])
    {
      var all := GetRentals(today);
      var index := FindIndex(all, RentalKey, rentalId);
      if index == -1 {
        return;
      }
      rentals := all[index := ApplyReturn(all[index], itemsToReturn, now)];
    }

    /**
     * getAvailableStock (services/mockDb.ts:252-270), with its two nested
     * loops over the rentals that are not Returned and their lines.
     */
    method GetAvailableStock(itemId: Id, today: Day) returns (n: int)
      ensures n == Available(inventory, GetRentals(today), itemId)
      ensures n >= 0
    {
      var index := FindIndex(inventory, ItemKey, itemId);
      if index == -1 {
        return 0;
      }
      var item := inventory[index];
      var activeRentals := Filter(GetRentals(today), IsOpen);
      var rentedQty := 0;
      var i := 0;
      while i < |activeRentals|
        invariant 0 <= i <= |activeRentals|
        invariant rentedQty == OutstandingIn(activeRentals[..i], itemId)
      {
        var lines := activeRentals[i].items;
        var j := 0;
        while j < |lines|
          invariant 0 <= j <= |lines|
          invariant rentedQty == OutstandingIn(activeRentals[..i], itemId) + Outstanding(lines[..j], itemId)
        {
          if lines[j].itemId == itemId && !lines[j].returned {
            rentedQty := rentedQty + lines[j].quantity;
          }
          j := j + 1;
          assert lines[..j][..j - 1] == lines[..j - 1];
        }
        assert lines[..j] == lines;
        i := i + 1;
        assert activeRentals[..i][..i - 1] == activeRentals[..i - 1];
      }
      assert activeRentals[..i] == activeRentals;
      n := if item.totalQuantity - rentedQty > 0 then item.totalQuantity - rentedQty else 0;
    }

    /**
     * Step 1 of saveSale (services/mockDb.ts:166-181): each line is checked
     * with getAvailableStock, which reads the stored inventory, while the
     * deductions go to a local copy of it; the first failing line throws.
     */
    method CheckAndDeduct(lines: seq<LineInput>, today: Day) returns (res: Result<seq<InventoryItem>, SaleError>)
      ensures var err := FirstSaleError(inventory, GetRentals(today), lines);
              (err.Some? ==> res == Err(err.value)) && (err.None? ==> res == Ok(DeductAll(inventory, lines)))
    {
      var inv := inventory;
      var i := 0;
      while i < |lines|
        invariant 0 <= i <= |lines|
        invariant inv == DeductAll(inventory, lines[..i])
        invariant FirstSaleError(inventory, GetRentals(today), lines[..i]).None?
      {
        var saleItem := lines[i];
        SaleCheckStep(inventory, GetRentals(today), lines, i);
        FindIndexSameKeys(inv, inventory, ItemKey, saleItem.itemId);
        var invIndex := FindIndex(inv, ItemKey, saleItem.itemId);
        if invIndex == -1 {
          FirstSaleErrorPrefix(inventory, GetRentals(today), lines, i + 1);
          return Err(ItemNotFound);
        }
        var available := GetAvailableStock(saleItem.itemId, today);
        if available < saleItem.quantity {
          FirstSaleErrorPrefix(inventory, GetRentals(today), lines, i + 1);
          return Err(InsufficientStock(inv[invIndex].name, available));
        }
        inv := Deduct(inv, saleItem);
        i := i + 1;
      }
      assert lines[..i] == lines;
      res := Ok(inv);
    }

    /**
     * saveSale (services/mockDb.ts:165-216): nothing is stored unless every
     * line passes; then the deducted inventory is stored and the sale and its
     * full payment are appended.
     */
    method SaveSale(data: SaleInput, saleId: Id, paymentId: Id, now: Instant, today: Day)
      returns (res: Result<Sale, SaleError>)
      modifies this`inventory, this`sales, this`payments
      ensures var err := FirstSaleError(old(inventory), GetRentals(today), data.items);
              err.Some? ==>
                res == Err(err.value) &&
                inventory == old(inventory) && sales == old(sales) && payments == old(payments)
      ensures var err := FirstSaleError(old(inventory), GetRentals(today), data.items);
              err.None? ==>
                var total := SaleTotal(data.items);
                var inv := DeductAll(old(inventory), data.items);
                var sale := Sale(saleId, data.customerId, data.customerName, SaleLines(inv, data.items), total, data.date, now);
                res == Ok(sale) && inventory == inv && sales == old(sales) + [sale] &&
                payments == old(payments) + [Payment(paymentId, None, Some(saleId), total, data.date, Some("Sale Payment"))]
    {
      var checked := CheckAndDeduct(data.items, today);
      if checked.Err? {
        return Err(checked.error);
      }
      inventory := checked.value;

      var totalAmount := SaleTotal(data.items);
      var newSale := Sale(saleId, data.customerId, data.customerName, SaleLines(inventory, data.items),
                          totalAmount, data.date, now);
      sales := sales + [newSale];
      AddPayment(PaymentInput(None, Some(saleId), totalAmount, data.date, Some("Sale Payment")), paymentId);
      res := Ok(newSale);
    }

    /** addPayment: append with a fresh id. */
    method AddPayment(input: PaymentInput, freshId: Id)
      modifies this`payments
      ensures payments == old(payments) + [Payment(freshId, input.rentalId, input.saleId, input.amount, input.date, input.note)]
    {
      payments := payments + [Payment(freshId, input.rentalId, input.saleId, input.amount, input.date, input.note)];
    }

    /** addNote: the newest note goes first (unshift). */
    method AddNote(content: string, freshId: Id, now: Instant)
      modifies this`notes
      ensures notes == [Note(freshId, content, now)] + old(notes)
    {
      notes := [Note(freshId, content, now)] + notes;
    }

    /** deleteNote */
    method DeleteNote(id: Id)
      modifies this`notes
      ensures notes == RemoveId(old(notes), NoteKey, id)
    {
      notes := RemoveId(notes, NoteKey, id);
    }
  }
}
