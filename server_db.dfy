// The Laravel server's tables as the two API controllers see them, and the
// request bodies they validate. A row is the same record the client keeps
// (types.ts); ids are given, not generated.
module ServerDb {
  import opened Types

  /** Why a request is answered without changing anything: a failed validation rule, a missing route model, or a stock shortfall. */
  datatype ApiError = ValidationFailed | NotFound | InsufficientStock(itemName: string)

  /** `items.*`: an item id and a quantity of a rental request. */
  datatype RentalLineRequest = RentalLineRequest(itemId: Id, quantity: int)

  /** The body of POST /rentals; a date that is absent or not a date is None. */
  datatype RentalRequest = RentalRequest(
    customerId: Id,
    customerName: string,
    rentDate: Option<Day>,
    expectedReturnDate: Option<Day>,
    items: seq<RentalLineRequest>)

  /** The body of POST /sales; a customerId that is absent, null or "" is None. */
  datatype SaleRequest = SaleRequest(
    customerId: Option<Id>,
    customerName: string,
    date: Option<Day>,
    items: seq<LineInput>)

  /** `exists:items,id` */
  predicate ItemExists(items: seq<InventoryItem>, itemId: Id) {
    FindIndex(items, ItemKey, itemId) != -1
  }

  /** `exists:customers,id` */
  predicate CustomerExists(customers: seq<Customer>, customerId: Id) {
    FindIndex(customers, CustomerKey, customerId) != -1
  }

  /** The tables the controllers read and write. */
  class Database {
    var customers: seq<Customer>
    var items: seq<InventoryItem>
    var rentals: seq<Rental>
    var sales: seq<Sale>

    constructor ()
      ensures customers == [] && items == [] && rentals == [] && sales == []
    {
      customers, items, rentals, sales := [], [], [], [];
    }
  }
}
