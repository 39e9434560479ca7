// The Sales screen (components/Sales.tsx): the sale form's cart, its total,
// the customer-name resolution for registered and walk-in buyers, and the
// submit that hands the cart to saveSale.
module SalesView {
  import opened Types
  import opened Ledger
  import opened Cart
  import opened MockDb

  /** The price a sale line starts with: `item.sellingPrice || 0`. */
  function SalePrice(item: InventoryItem): (p: int)
    ensures item.sellingPrice.Some? ==> p == item.sellingPrice.value
    ensures item.sellingPrice.None? ==> p == 0
  {
    if item.sellingPrice.Some? && item.sellingPrice.value != 0 then item.sellingPrice.value else 0
  }

  /** The two fields handleUpdateItem may set. */
  datatype LineField = Quantity | Price

  /** handleUpdateItem: `{ ...line, [field]: value }` at the index. */
  function UpdateLine(items: seq<LineInput>, index: int, field: LineField, value: int): (r: seq<LineInput>)
    requires 0 <= index < |items|
    ensures |r| == |items|
    ensures forall j :: 0 <= j < |items| && j != index ==> r[j] == items[j]
    ensures r[index].itemId == items[index].itemId
    ensures field == Quantity ==> r[index].quantity == value && r[index].price == items[index].price
    ensures field == Price ==> r[index].price == value && r[index].quantity == items[index].quantity
  {
    match field
    case Quantity => SetQuantity(items, index, value)
    case Price => SetPrice(items, index, value)
  }

  /** The cart total the form shows (components/Sales.tsx:89) is never negative while prices and quantities are not. */
  lemma CartTotalNonNegative(items: seq<LineInput>)
    requires forall l :: l in items ==> l.price >= 0 && l.quantity >= 0
    ensures SaleTotal(items) >= 0
  {
    SumOfNonNegative(items, LineAmount);
  }

  /**
   * The buyer's name (components/Sales.tsx:69-73): a selected customer's
   * name when the id resolves to a customer with a name, otherwise the typed
   * name, otherwise "Guest Customer".
   */
  function ResolveCustomerName(customers: seq<Customer>, customerId: Id, typedName: string): (name: string)
    ensures name != ""
    ensures var i := FindIndex(customers, CustomerKey, customerId);
            customerId != "" && i >= 0 && customers[i].name != "" ==> name == customers[i].name
    ensures var i := FindIndex(customers, CustomerKey, customerId);
            !(customerId != "" && i >= 0 && customers[i].name != "") ==>
              name == (if typedName != "" then typedName else "Guest Customer")
  {
    var custName :=
      if customerId != "" then
        var i := FindIndex(customers, CustomerKey, customerId);
        if i >= 0 && customers[i].name != "" then customers[i].name else typedName
      else typedName;
    if custName == "" then "Guest Customer" else custName
  }

  /**
   * The browser's checks on a cart line: its quantity within `min="1"` and
   * `max` the item's available stock (components/Sales.tsx:171), its price
   * at least `min="0"` (components/Sales.tsx:177).
   */
  predicate LineWithinLimits(inventory: seq<InventoryItem>, rentals: seq<Rental>, l: LineInput) {
    1 <= l.quantity <= Available(inventory, rentals, l.itemId) && l.price >= 0
  }

  /**
   * Why the form saves nothing: the date left empty or a line outside its
   * input limits (both refused by the browser), an empty cart, or saveSale
   * refusing the stock.
   */
  datatype SaleFormError = MissingDate | BadLine | EmptyCart | Refused(reason: SaleError)

  /**
   * The browser's checks of the required date and of each line's limits,
   * then the guards before saveSale (components/Sales.tsx:62-81) and the
   * input it receives.
   */
  function CheckSubmit(customers: seq<Customer>, inventory: seq<InventoryItem>, rentals: seq<Rental>,
                       customerId: Id, typedName: string,
                       date: Option<Day>, items: seq<LineInput>): (res: Result<SaleInput, SaleFormError>)
    ensures date.None? <==> res == Err(MissingDate)
    ensures res == Err(BadLine) <==>
              date.Some? && !(forall k :: 0 <= k < |items| ==> LineWithinLimits(inventory, rentals, items[k]))
    ensures res == Err(EmptyCart) <==> date.Some? && |items| == 0
    ensures res.Ok? ==> forall k :: 0 <= k < |items| ==> LineWithinLimits(inventory, rentals, items[k])
    ensures res.Ok? ==> res.value.items == items && res.value.date == date.value && |items| > 0
    ensures res.Ok? ==> (res.value.customerId == None <==> customerId == "")
    ensures res.Ok? && customerId != "" ==> res.value.customerId == Some(customerId)
    ensures res.Ok? ==> res.value.customerName == ResolveCustomerName(customers, customerId, typedName)
  {
    if date.None? then Err(MissingDate)
    else if !(forall k :: 0 <= k < |items| ==> LineWithinLimits(inventory, rentals, items[k])) then Err(BadLine)
    else if |items| == 0 then Err(EmptyCart)
    else
      var id := if customerId != "" then Some(customerId) else None;
      Ok(SaleInput(id, ResolveCustomerName(customers, customerId, typedName), items, date.value))
  }

  /**
   * A cart the form submits passes saveSale's stock check, and its total is
   * not negative: every line names a known item (its available stock is at
   * least one) and asks for no more than is available.
   */
  lemma AcceptedCartSells(customers: seq<Customer>, inventory: seq<InventoryItem>, rentals: seq<Rental>,
                          customerId: Id, typedName: string, date: Option<Day>, items: seq<LineInput>)
    requires CheckSubmit(customers, inventory, rentals, customerId, typedName, date, items).Ok?
    ensures FirstSaleError(inventory, rentals, items).None?
    ensures SaleTotal(items) >= 0
  {
    forall k | 0 <= k < |items|
      ensures LineError(inventory, rentals, items[k]).None?
    {
      assert LineWithinLimits(inventory, rentals, items[k]);
    }
    FirstSaleErrorNone(inventory, rentals, items);
    CartTotalNonNegative(items);
  }

  /** The sale form's state (formData); the date field left empty is None. */
  class SaleForm {
    var customerId: Id
    var customerName: string
    var date: Option<Day>
    var items: seq<LineInput>

    /** A fresh form: a walk-in buyer, dated today, an empty cart. */
    constructor (today: Day)
      ensures customerId == "" && customerName == "" && date == Some(today) && items == []
    {
      customerId, customerName, date, items := "", "", Some(today), [];
    }

    /** Choosing a customer in the select clears the typed guest name. */
    method SelectCustomer(id: Id)
      modifies this`customerId, this`customerName
      ensures customerId == id && customerName == ""
    {
      customerId, customerName := id, "";
    }

    /** handleAddItem (components/Sales.tsx:39-48). */
    method AddItem(inventory: seq<InventoryItem>, itemId: Id)
      modifies this`items
      ensures items == AddLine(inventory, old(items), itemId, SalePrice)
      ensures DistinctItems(old(items)) ==> DistinctItems(items)
    {
      if DistinctItems(items) {
        AddLineKeepsDistinct(inventory, items, itemId, SalePrice);
      }
      items := AddLine(inventory, items, itemId, SalePrice);
    }

    /** handleRemoveItem (components/Sales.tsx:50-54). */
    method RemoveItem(index: int)
      modifies this`items
      ensures items == RemoveAt(old(items), index)
      ensures DistinctItems(old(items)) ==> DistinctItems(items)
    {
      if DistinctItems(items) {
        RemoveAtKeepsDistinct(items, index);
      }
      items := RemoveAt(items, index);
    }

    /** handleUpdateItem (components/Sales.tsx:56-60). */
    method UpdateItem(index: int, field: LineField, value: int)
      requires 0 <= index < |items|
      modifies this`items
      ensures items == UpdateLine(old(items), index, field, value)
      ensures DistinctItems(old(items)) ==> DistinctItems(items)
    {
      if DistinctItems(items) {
        SetFieldKeepsDistinct(items, index, value);
      }
      items := UpdateLine(items, index, field, value);
    }

    /** The form after a recorded sale: a walk-in sale dated today with an empty cart. */
    method Reset(today: Day)
      modifies this
      ensures customerId == "" && customerName == "" && date == Some(today) && items == []
    {
      customerId, customerName, date, items := "", "", Some(today), [];
    }

    /**
     * handleSubmit (components/Sales.tsx:62-87): a submit the form refuses
     * leaves everything as it is; an accepted one records the sale, whose
     * total is the cart total shown, and resets the form. The form's limits
     * leave saveSale nothing to refuse.
     */
    method Submit(store: MockDb.Store, customers: seq<Customer>, saleId: Id, paymentId: Id,
                  now: Instant, today: Day) returns (res: Result<Sale, SaleFormError>)
      modifies this, store`inventory, store`sales, store`payments
      ensures var check := CheckSubmit(customers, old(store.inventory), old(store.GetRentals(today)),
                                       old(customerId), old(customerName), old(date), old(items));
              check.Err? ==>
                res == Err(check.error) && unchanged(store) && unchanged(this)
      ensures var check := CheckSubmit(customers, old(store.inventory), old(store.GetRentals(today)),
                                       old(customerId), old(customerName), old(date), old(items));
              check.Ok? ==>
                res.Ok? && res.value.totalAmount == SaleTotal(old(items)) && res.value.totalAmount >= 0 &&
                res.value.customerName == check.value.customerName && res.value.customerId == check.value.customerId &&
                store.inventory == DeductAll(old(store.inventory), old(items)) &&
                store.sales == old(store.sales) + [res.value] &&
                store.payments == old(store.payments) + [Payment(paymentId, None, Some(saleId), res.value.totalAmount, old(date).value, Some("Sale Payment"))] &&
                customerId == "" && customerName == "" && date == Some(today) && items == []
    {
      var check := CheckSubmit(customers, store.inventory, store.GetRentals(today), customerId, customerName, date, items);
      if check.Err? {
        return Err(check.error);
      }
      var input := check.value;
      assert input.items == items && input.date == date.value;
      AcceptedCartSells(customers, store.inventory, store.GetRentals(today), customerId, customerName, date, items);
      ghost var total := SaleTotal(items);
      ghost var inv := DeductAll(store.inventory, items);
      ghost var oldSales, oldPayments := store.sales, store.payments;
      var saved := store.SaveSale(input, saleId, paymentId, now, today);
      assert saved.Ok?;
      assert saved.value.totalAmount == total;
      assert store.inventory == inv && store.sales == oldSales + [saved.value];
      assert store.payments == oldPayments + [Payment(paymentId, None, Some(saleId), total, input.date, Some("Sale Payment"))];
      Reset(today);
      res := Ok(saved.value);
    }
  }
}
