// The Rentals screen (components/Rentals.tsx): the create form with its
// running estimate, the submit guards and the line mapping handed to
// saveRental, and the status filter of the list.
module RentalsView {
  import opened Types
  import opened Ledger
  import opened Cart
  import opened MockDb

  // ------------------------------------------------------------ estimate

  /** `formData.items.reduce((sum, item) => sum + item.price * item.quantity * days, 0)` */
  function CartRentTotal(items: seq<LineInput>, days: int): int {
    if |items| == 0 then 0
    else CartRentTotal(items[..|items| - 1], days) + items[|items| - 1].price * items[|items| - 1].quantity * days
  }

  lemma {:induction false} CartRentTotalIsDaysTimesAmount(items: seq<LineInput>, days: int)
    ensures CartRentTotal(items, days) == days * SumOf(items, LineAmount)
  {
    if |items| > 0 {
      var init, last := items[..|items| - 1], items[|items| - 1];
      CartRentTotalIsDaysTimesAmount(init, days);
      assert last.price * last.quantity * days == days * LineAmount(last);
    }
  }

  /**
   * calculateTotal (components/Rentals.tsx:52-60): nothing while either date
   * field is empty, otherwise every line's price times its quantity times the
   * number of days, which is at least one.
   */
  function CalculateTotal(rentDate: Option<Day>, expectedReturnDate: Option<Day>, items: seq<LineInput>): (total: int)
    ensures rentDate.None? || expectedReturnDate.None? ==> total == 0
    ensures rentDate.Some? && expectedReturnDate.Some? ==>
              total == RentalDays(rentDate.value, expectedReturnDate.value) * SumOf(items, LineAmount)
  {
    if rentDate.None? || expectedReturnDate.None? then 0
    else
      var days := RentalDays(rentDate.value, expectedReturnDate.value);
      CartRentTotalIsDaysTimesAmount(items, days);
      CartRentTotal(items, days)
  }

  // -------------------------------------------------------------- submit

  /**
   * Why a submit saves nothing: a required field left empty or a quantity
   * below the input's minimum (both refused by the browser), an empty cart,
   * or a customer not in the list.
   */
  datatype SubmitError = MissingField | BadQuantity | EmptyCart | UnknownCustomer

  /** The price a rental line starts with: the item's daily rent. */
  function RentPrice(item: InventoryItem): int {
    item.dailyRentPrice
  }

  /** The rental lines built from the cart: the inventory name (or 'Unknown'), the cart's quantity and price, not returned. */
  function SubmitLines(inventory: seq<InventoryItem>, items: seq<LineInput>): (lines: seq<RentalItem>)
    ensures |lines| == |items|
    ensures forall k :: 0 <= k < |items| ==>
              lines[k].itemId == items[k].itemId && lines[k].quantity == items[k].quantity &&
              lines[k].dailyRentPrice == items[k].price &&
              !lines[k].returned && lines[k].returnedDate == None &&
              lines[k].itemName == ItemNameOrUnknown(inventory, items[k].itemId)
  {
    seq(|items|, k requires 0 <= k < |items| =>
      RentalItem(items[k].itemId, ItemNameOrUnknown(inventory, items[k].itemId), items[k].quantity, items[k].price, false, None))
  }

  /**
   * handleSubmitRental's guards (components/Rentals.tsx:88-112), after the
   * browser's check of the form's required fields and of each quantity's
   * `min="1"` (components/Rentals.tsx:234): an empty cart and an unknown
   * customer are refused; otherwise the input for saveRental. The quantity's
   * `max` is the available stock plus the line's own quantity, which no
   * quantity exceeds, since available stock is never negative.
   */
  function CheckSubmit(customers: seq<Customer>, inventory: seq<InventoryItem>, customerId: Id,
                       rentDate: Option<Day>, expectedReturnDate: Option<Day>, items: seq<LineInput>): (res: Result<RentalInput, SubmitError>)
    ensures (customerId == "" || rentDate.None? || expectedReturnDate.None?) <==> res == Err(MissingField)
    ensures res == Err(BadQuantity) <==>
              customerId != "" && rentDate.Some? && expectedReturnDate.Some? && !QuantitiesAtLeastOne(items)
    ensures res == Err(EmptyCart) <==>
              customerId != "" && rentDate.Some? && expectedReturnDate.Some? && |items| == 0
    ensures res == Err(UnknownCustomer) <==>
              customerId != "" && rentDate.Some? && expectedReturnDate.Some? && |items| > 0 &&
              QuantitiesAtLeastOne(items) && FindIndex(customers, CustomerKey, customerId) == -1
    ensures res.Ok? ==> QuantitiesAtLeastOne(items)
    ensures res.Ok? ==>
              var c := customers[FindIndex(customers, CustomerKey, customerId)];
              c.id == customerId &&
              res.value == RentalInput(c.id, c.name, rentDate.value, expectedReturnDate.value,
                                       SubmitLines(inventory, items), None)
  {
    if customerId == "" || rentDate.None? || expectedReturnDate.None? then Err(MissingField)
    else if !QuantitiesAtLeastOne(items) then Err(BadQuantity)
    else if |items| == 0 then Err(EmptyCart)
    else
      var i := FindIndex(customers, CustomerKey, customerId);
      if i == -1 then Err(UnknownCustomer)
      else
        var c := customers[i];
        Ok(RentalInput(c.id, c.name, rentDate.value, expectedReturnDate.value, SubmitLines(inventory, items), None))
  }

  /** The saved lines carry the cart's rate: their daily charge adds up to the cart's amount. */
  lemma SubmitLinesDailyCharge(inventory: seq<InventoryItem>, items: seq<LineInput>)
    ensures SumOf(SubmitLines(inventory, items), DailyCharge) == SumOf(items, LineAmount)
  {
    SumOfPointwise(SubmitLines(inventory, items), items, DailyCharge, LineAmount);
  }

  /** The estimate the form shows is the total saveRental stores for the submitted rental. */
  lemma EstimateIsSavedTotal(customers: seq<Customer>, inventory: seq<InventoryItem>, customerId: Id,
                             rentDate: Option<Day>, expectedReturnDate: Option<Day>, items: seq<LineInput>,
                             freshId: Id, now: Instant)
    requires CheckSubmit(customers, inventory, customerId, rentDate, expectedReturnDate, items).Ok?
    ensures var input := CheckSubmit(customers, inventory, customerId, rentDate, expectedReturnDate, items).value;
            NewRental(input, freshId, now).totalAmount == CalculateTotal(rentDate, expectedReturnDate, items)
  {
    SubmitLinesDailyCharge(inventory, items);
  }

  /**
   * What the form's constraints guarantee the store: with the inventory's
   * daily rates not negative, a rental the form submits has non-negative
   * lines and so a non-negative total.
   */
  lemma SubmittedRentalNonNegative(customers: seq<Customer>, inventory: seq<InventoryItem>, customerId: Id,
                                   rentDate: Option<Day>, expectedReturnDate: Option<Day>, items: seq<LineInput>,
                                   freshId: Id, now: Instant)
    requires forall k :: 0 <= k < |items| ==> items[k].price >= 0
    requires CheckSubmit(customers, inventory, customerId, rentDate, expectedReturnDate, items).Ok?
    ensures var input := CheckSubmit(customers, inventory, customerId, rentDate, expectedReturnDate, items).value;
            NonNegativeLines(input.items) && NewRental(input, freshId, now).totalAmount >= 0
  {
    var input := CheckSubmit(customers, inventory, customerId, rentDate, expectedReturnDate, items).value;
    RentalTotalNonNegative(input.items, RentalDays(input.rentDate, input.expectedReturnDate));
  }

  // -------------------------------------------------------------- filter

  /** The display text of each status. */
  function StatusLabel(s: RentalStatus): string {
    match s
    case Active => "Active"
    case Returned => "Returned"
    case Overdue => "Overdue"
    case PartialReturn => "Partial Return"
  }

  /** The list's filter: 'all' keeps every rental, 'Partial' the partly returned ones, any other value the rentals whose status reads exactly so. */
  predicate KeptByFilter(statusFilter: string, r: Rental) {
    if statusFilter == "all" then true
    else if statusFilter == "Partial" then r.status == PartialReturn
    else StatusLabel(r.status) == statusFilter
  }

  /** filteredRentals (components/Rentals.tsx:436-440). */
  function FilterRentals(rentals: seq<Rental>, statusFilter: string): (r: seq<Rental>)
    ensures forall x :: x in r <==> x in rentals && KeptByFilter(statusFilter, x)
  {
    Filter(rentals, (x: Rental) => KeptByFilter(statusFilter, x))
  }

  /** The filter button that selects each status: 'Partial' for Partial Return, the label otherwise. */
  function FilterButton(s: RentalStatus): string {
    if s == PartialReturn then "Partial" else StatusLabel(s)
  }

  /** Each status button shows exactly the rentals with that status. */
  lemma FilterButtonSelectsStatus(rentals: seq<Rental>, s: RentalStatus)
    ensures forall x :: x in FilterRentals(rentals, FilterButton(s)) <==> x in rentals && x.status == s
  {
    forall x | x in rentals
      ensures KeptByFilter(FilterButton(s), x) <==> x.status == s
    {
      if s != PartialReturn && x.status != s {
        assert StatusLabel(x.status) != StatusLabel(s) by {
          match x.status
          case Active =>
          case Returned =>
          case Overdue =>
          case PartialReturn => assert StatusLabel(x.status)[0] == 'P';
        }
      }
    }
  }

  /** 'all' shows every rental in the stored order. */
  lemma FilterAllShowsEverything(rentals: seq<Rental>)
    ensures FilterRentals(rentals, "all") == rentals
  {
    FilterAll(rentals, (x: Rental) => KeptByFilter("all", x));
  }

  // ---------------------------------------------------------------- form

  /** The create form's state (formData); a date field left empty is None. */
  class RentalForm {
    var customerId: Id
    var rentDate: Option<Day>
    var expectedReturnDate: Option<Day>
    var items: seq<LineInput>

    /** A fresh form: no customer, issued today, no return date, an empty cart. */
    constructor (today: Day)
      ensures customerId == "" && rentDate == Some(today) && expectedReturnDate == None && items == []
    {
      customerId, rentDate, expectedReturnDate, items := "", Some(today), None, [];
    }

    /** The estimate shown beside the cart. */
    function Estimate(): int
      reads this
    {
      CalculateTotal(rentDate, expectedReturnDate, items)
    }

    /** handleAddItem (components/Rentals.tsx:62-73). */
    method AddItem(inventory: seq<InventoryItem>, itemId: Id)
      modifies this`items
      ensures items == AddLine(inventory, old(items), itemId, RentPrice)
      ensures DistinctItems(old(items)) ==> DistinctItems(items)
    {
      if DistinctItems(items) {
        AddLineKeepsDistinct(inventory, items, itemId, RentPrice);
      }
      items := AddLine(inventory, items, itemId, RentPrice);
    }

    /** handleRemoveItem (components/Rentals.tsx:75-79). */
    method RemoveItem(index: int)
      modifies this`items
      ensures items == RemoveAt(old(items), index)
      ensures DistinctItems(old(items)) ==> DistinctItems(items)
    {
      if DistinctItems(items) {
        RemoveAtKeepsDistinct(items, index);
      }
      items := RemoveAt(items, index);
    }

    /** handleUpdateItemQty (components/Rentals.tsx:81-86). */
    method UpdateItemQty(index: int, qty: int)
      requires 0 <= index < |items|
      modifies this`items
      ensures items == SetQuantity(old(items), index, qty)
    {
      items := SetQuantity(items, index, qty);
    }

    /**
     * handleSubmitRental (components/Rentals.tsx:88-122): a refused submit
     * changes nothing; an accepted one saves the rental and resets the form.
     */
    method Submit(store: MockDb.Store, customers: seq<Customer>, inventory: seq<InventoryItem>,
                  freshId: Id, now: Instant, today: Day) returns (res: Result<Rental, SubmitError>)
      modifies this, store`rentals
      ensures var check := CheckSubmit(customers, inventory, old(customerId), old(rentDate), old(expectedReturnDate), old(items));
              if check.Err? then
                res == Err(check.error) && store.rentals == old(store.rentals) &&
                customerId == old(customerId) && rentDate == old(rentDate) &&
                expectedReturnDate == old(expectedReturnDate) && items == old(items)
              else
                res == Ok(NewRental(check.value, freshId, now)) &&
                store.rentals == OverdueView(old(store.rentals), today) + [res.value] &&
                res.value.totalAmount == old(Estimate()) &&
                customerId == "" && rentDate == Some(today) && expectedReturnDate == None && items == []
    {
      var check := CheckSubmit(customers, inventory, customerId, rentDate, expectedReturnDate, items);
      if check.Err? {
        return Err(check.error);
      }
      EstimateIsSavedTotal(customers, inventory, customerId, rentDate, expectedReturnDate, items, freshId, now);
      var r := store.SaveRental(check.value, freshId, now, today);
      customerId, rentDate, expectedReturnDate, items := "", Some(today), None, [];
      res := Ok(r);
    }
  }
}
