// The bookkeeping rules that the mock store, the React screens and the
// Laravel controllers share: billed rental days and totals, the quantity of
// an item still out on rentals, available stock, the Overdue status shown on
// read, the status a rental takes after a return, and sale and payment sums.
module Ledger {
  import opened Types

  function AbsDiff(a: int, b: int): nat {
    if a >= b then a - b else b - a
  }

  /**
   * Days billed for a rental from `start` to `end`: the whole days between the
   * two dates in either order, and at least one (services/mockDb.ts:93-96).
   */
  function RentalDays(start: Day, end: Day): (d: nat)
    ensures d >= 1
    ensures d >= AbsDiff(start, end) && d <= AbsDiff(start, end) + 1
    ensures start != end ==> d == AbsDiff(start, end)
  {
    var diff := AbsDiff(end, start);
    if diff == 0 then 1 else diff
  }

  lemma RentalDaysSymmetric(start: Day, end: Day)
    ensures RentalDays(start, end) == RentalDays(end, start)
  {
  }

  // ---------------------------------------------------------------- totals

  /** Rate times quantity of one rental line: what it costs per day. */
  function DailyCharge(l: RentalItem): int {
    l.dailyRentPrice * l.quantity
  }

  /** `items.reduce((sum, item) => sum + item.dailyRentPrice * item.quantity * days, 0)` */
  function RentalTotal(items: seq<RentalItem>, days: int): int {
    if |items| == 0 then 0
    else RentalTotal(items[..|items| - 1], days) + items[|items| - 1].dailyRentPrice * items[|items| - 1].quantity * days
  }

  /** The rental total is the number of days times the rental's daily rate. */
  lemma {:induction false} RentalTotalIsDaysTimesRate(items: seq<RentalItem>, days: int)
    ensures RentalTotal(items, days) == days * SumOf(items, DailyCharge)
  {
    if |items| > 0 {
      var init, last := items[..|items| - 1], items[|items| - 1];
      RentalTotalIsDaysTimesRate(init, days);
      calc {
        RentalTotal(items, days);
        days * SumOf(init, DailyCharge) + last.dailyRentPrice * last.quantity * days;
        { assert last.dailyRentPrice * last.quantity * days == days * DailyCharge(last); }
        days * SumOf(init, DailyCharge) + days * DailyCharge(last);
        days * (SumOf(init, DailyCharge) + DailyCharge(last));
      }
    }
  }

  predicate NonNegativeLines(items: seq<RentalItem>) {
    forall k :: 0 <= k < |items| ==> items[k].dailyRentPrice >= 0 && items[k].quantity >= 0
  }

  lemma {:induction false} RentalTotalNonNegative(items: seq<RentalItem>, days: nat)
    requires NonNegativeLines(items)
    ensures RentalTotal(items, days) >= 0
  {
    if |items| > 0 {
      var last := items[|items| - 1];
      RentalTotalNonNegative(items[..|items| - 1], days);
      assert last.dailyRentPrice * last.quantity >= 0;
      assert last.dailyRentPrice * last.quantity * days >= 0;
    }
  }

  /** `price * quantity` of a form or sale line. */
  function LineAmount(l: LineInput): int {
    l.price * l.quantity
  }

  /** `items.reduce((sum, item) => sum + item.price * item.quantity, 0)` */
  function SaleTotal(lines: seq<LineInput>): int {
    SumOf(lines, LineAmount)
  }

  // ------------------------------------------------------------ stock

  /** Quantity of `itemId` on the unreturned lines of one rental. */
  function Outstanding(lines: seq<RentalItem>, itemId: Id): int {
    if |lines| == 0 then 0
    else
      var l := lines[|lines| - 1];
      Outstanding(lines[..|lines| - 1], itemId) + (if l.itemId == itemId && !l.returned then l.quantity else 0)
  }

  /** Quantity of `itemId` on the unreturned lines of all the given rentals. */
  function OutstandingIn(rentals: seq<Rental>, itemId: Id): int {
    if |rentals| == 0 then 0
    else OutstandingIn(rentals[..|rentals| - 1], itemId) + Outstanding(rentals[|rentals| - 1].items, itemId)
  }

  /** A rental still counts against stock unless it is Returned. */
  function IsOpen(r: Rental): bool {
    r.status != Returned
  }

  /** Quantity of `itemId` still out: unreturned lines of rentals that are not Returned. */
  function RentedQty(rentals: seq<Rental>, itemId: Id): int {
    OutstandingIn(Filter(rentals, IsOpen), itemId)
  }

  /**
   * Available stock of an item (services/mockDb.ts:252-270): 0 for an unknown
   * id, otherwise the first matching item's total quantity less what is rented
   * out, floored at 0.
   */
  function Available(inventory: seq<InventoryItem>, rentals: seq<Rental>, itemId: Id): (n: int)
    ensures n >= 0
    ensures FindIndex(inventory, ItemKey, itemId) == -1 ==> n == 0
    ensures FindIndex(inventory, ItemKey, itemId) >= 0 ==>
              var total := inventory[FindIndex(inventory, ItemKey, itemId)].totalQuantity;
              n >= total - RentedQty(rentals, itemId) && (n == 0 || n == total - RentedQty(rentals, itemId))
  {
    var idx := FindIndex(inventory, ItemKey, itemId);
    if idx == -1 then 0
    else
      var rest := inventory[idx].totalQuantity - RentedQty(rentals, itemId);
      if rest > 0 then rest else 0
  }

  lemma {:induction false} OutstandingNonNegative(lines: seq<RentalItem>, itemId: Id)
    requires forall k :: 0 <= k < |lines| ==> lines[k].quantity >= 0
    ensures Outstanding(lines, itemId) >= 0
  {
    if |lines| > 0 {
      OutstandingNonNegative(lines[..|lines| - 1], itemId);
    }
  }

  // ----------------------------------------------------- stock deduction

  /** Two records of one inventory item that may differ only in their total quantity. */
  predicate SameButStock(a: InventoryItem, b: InventoryItem) {
    a == b.(totalQuantity := a.totalQuantity)
  }

  /** `inventory[invIndex].totalQuantity -= saleItem.quantity` for the first item with the line's id. */
  function Deduct(inv: seq<InventoryItem>, l: LineInput): (r: seq<InventoryItem>)
    ensures |r| == |inv|
    ensures forall k :: 0 <= k < |r| ==> SameButStock(r[k], inv[k])
  {
    var idx := FindIndex(inv, ItemKey, l.itemId);
    if idx == -1 then inv else inv[idx := inv[idx].(totalQuantity := inv[idx].totalQuantity - l.quantity)]
  }

  /** The local inventory copy after deducting every line in order. */
  function DeductAll(inv: seq<InventoryItem>, lines: seq<LineInput>): (r: seq<InventoryItem>)
    ensures |r| == |inv|
    ensures forall k :: 0 <= k < |r| ==> SameButStock(r[k], inv[k])
  {
    if |lines| == 0 then inv else Deduct(DeductAll(inv, lines[..|lines| - 1]), lines[|lines| - 1])
  }

  /** Total quantity of the lines that name `itemId`. */
  function QtyFor(lines: seq<LineInput>, itemId: Id): int {
    if |lines| == 0 then 0
    else QtyFor(lines[..|lines| - 1], itemId) + (if lines[|lines| - 1].itemId == itemId then lines[|lines| - 1].quantity else 0)
  }

  /**
   * After a sale, the first inventory entry with a given id has lost the
   * quantities of all lines naming it; no other entry changes.
   */
  lemma {:induction false} DeductAllAt(inv: seq<InventoryItem>, lines: seq<LineInput>, k: nat)
    requires k < |inv|
    ensures DeductAll(inv, lines)[k].totalQuantity ==
              inv[k].totalQuantity - (if FindIndex(inv, ItemKey, inv[k].id) == k then QtyFor(lines, inv[k].id) else 0)
  {
    if |lines| > 0 {
      var init, l := lines[..|lines| - 1], lines[|lines| - 1];
      var before := DeductAll(inv, init);
      DeductAllAt(inv, init, k);
      FindIndexSameKeys(before, inv, ItemKey, l.itemId);
      var idx := FindIndex(inv, ItemKey, l.itemId);
      assert DeductAll(inv, lines) == Deduct(before, l);
      if idx == k {
        assert l.itemId == inv[k].id;
        assert DeductAll(inv, lines)[k].totalQuantity == before[k].totalQuantity - l.quantity;
      } else {
        assert DeductAll(inv, lines)[k] == before[k];
        assert l.itemId == inv[k].id ==> FindIndex(inv, ItemKey, inv[k].id) == idx;
      }
    }
  }

  lemma {:induction false} QtyForAbsent(lines: seq<LineInput>, itemId: Id)
    requires forall k :: 0 <= k < |lines| ==> lines[k].itemId != itemId
    ensures QtyFor(lines, itemId) == 0
  {
    if |lines| > 0 {
      QtyForAbsent(lines[..|lines| - 1], itemId);
    }
  }

  /** When only line j names its item, the quantity sold of that item is line j's quantity. */
  lemma {:induction false} QtyForSingle(lines: seq<LineInput>, j: nat)
    requires j < |lines|
    requires forall k :: 0 <= k < |lines| && k != j ==> lines[k].itemId != lines[j].itemId
    ensures QtyFor(lines, lines[j].itemId) == lines[j].quantity
  {
    var n := |lines|;
    if j == n - 1 {
      QtyForAbsent(lines[..n - 1], lines[j].itemId);
    } else {
      assert lines[..n - 1][j] == lines[j];
      QtyForSingle(lines[..n - 1], j);
    }
  }

  /** `invItem?.name || 'Unknown'` */
  function ItemNameOrUnknown(inv: seq<InventoryItem>, itemId: Id): (name: string)
    ensures name != ""
    ensures FindIndex(inv, ItemKey, itemId) >= 0 && inv[FindIndex(inv, ItemKey, itemId)].name != "" ==>
              name == inv[FindIndex(inv, ItemKey, itemId)].name
    ensures !(FindIndex(inv, ItemKey, itemId) >= 0 && inv[FindIndex(inv, ItemKey, itemId)].name != "") ==>
              name == "Unknown"
  {
    var idx := FindIndex(inv, ItemKey, itemId);
    if idx >= 0 && inv[idx].name != "" then inv[idx].name else "Unknown"
  }

  // ------------------------------------------------------- overdue view

  /** The status getRentals() reports for one stored rental on day `today`. */
  function ShownStatus(r: Rental, today: Day): (st: RentalStatus)
    ensures r.status == Returned ==> st == Returned
    ensures st == Overdue <==> r.status == Overdue || (r.status != Returned && today > r.expectedReturnDate)
    ensures st != Overdue ==> st == r.status
  {
    if r.status != Returned && today > r.expectedReturnDate then Overdue else r.status
  }

  /**
   * getRentals() (services/mockDb.ts:75-86): every rental in the same order,
   * with only the status changed, to Overdue for a rental that is not
   * Returned and whose expected return day is before today.
   */
  function OverdueView(rentals: seq<Rental>, today: Day): (v: seq<Rental>)
    ensures |v| == |rentals|
    ensures forall i :: 0 <= i < |v| ==> v[i] == rentals[i].(status := ShownStatus(rentals[i], today))
    ensures forall i :: 0 <= i < |v| ==> rentals[i].status == Returned ==> v[i] == rentals[i]
  {
    seq(|rentals|, i requires 0 <= i < |rentals| =>
      var r := rentals[i];
      if r.status == Returned then r
      else if today > r.expectedReturnDate && r.status != Overdue then r.(status := Overdue)
      else r)
  }

  /** Reading twice on the same day shows the same thing as reading once. */
  lemma OverdueViewIdempotent(rentals: seq<Rental>, today: Day)
    ensures OverdueView(OverdueView(rentals, today), today) == OverdueView(rentals, today)
  {
  }

  /** The view of a list with one more rental in front. */
  lemma OverdueViewCons(r: Rental, rentals: seq<Rental>, today: Day)
    ensures OverdueView([r] + rentals, today) == [r.(status := ShownStatus(r, today))] + OverdueView(rentals, today)
  {
    assert ([r] + rentals)[1..] == rentals;
  }

  /** The view never turns a rental into, or out of, Returned, so it lets through the same rentals as IsOpen. */
  lemma {:induction false} FilterOpenOverdueView(rentals: seq<Rental>, today: Day)
    ensures Filter(OverdueView(rentals, today), IsOpen) == OverdueView(Filter(rentals, IsOpen), today)
  {
    if |rentals| > 0 {
      var r, rest := rentals[0], rentals[1..];
      assert rentals == [r] + rest;
      OverdueViewCons(r, rest, today);
      FilterOpenOverdueView(rest, today);
      if IsOpen(r) {
        OverdueViewCons(r, Filter(rest, IsOpen), today);
      }
    }
  }

  lemma {:induction false} OutstandingInOverdueView(rentals: seq<Rental>, today: Day, itemId: Id)
    ensures OutstandingIn(OverdueView(rentals, today), itemId) == OutstandingIn(rentals, itemId)
  {
    if |rentals| > 0 {
      var n := |rentals|;
      assert OverdueView(rentals, today)[..n - 1] == OverdueView(rentals[..n - 1], today);
      OutstandingInOverdueView(rentals[..n - 1], today, itemId);
    }
  }

  /** The quantity rented out is the same whether counted on stored or on shown statuses. */
  lemma RentedQtyOverdueView(rentals: seq<Rental>, today: Day, itemId: Id)
    ensures RentedQty(OverdueView(rentals, today), itemId) == RentedQty(rentals, itemId)
  {
    FilterOpenOverdueView(rentals, today);
    OutstandingInOverdueView(Filter(rentals, IsOpen), today, itemId);
  }

  // ------------------------------------------------------------- returns

  /** One line after `updateRentalStatus`: returned (stamped `now`) when its item id is in the list. */
  function ReturnLine(l: RentalItem, itemIds: seq<Id>, now: Instant): RentalItem {
    if l.itemId in itemIds then l.(returned := true, returnedDate := Some(now)) else l
  }

  /** services/mockDb.ts:123-128: the lines after marking the listed item ids returned. */
  function MarkReturned(lines: seq<RentalItem>, itemIds: seq<Id>, now: Instant): (r: seq<RentalItem>)
    ensures |r| == |lines|
    ensures forall k :: 0 <= k < |r| ==> r[k].returned == (lines[k].returned || lines[k].itemId in itemIds)
    ensures forall k :: 0 <= k < |r| ==>
              r[k].(returned := lines[k].returned, returnedDate := lines[k].returnedDate) == lines[k]
    ensures forall k :: 0 <= k < |r| ==> lines[k].itemId !in itemIds ==> r[k] == lines[k]
    ensures forall k :: 0 <= k < |r| ==> lines[k].itemId in itemIds ==> r[k].returnedDate == Some(now)
  {
    seq(|lines|, k requires 0 <= k < |lines| => ReturnLine(lines[k], itemIds, now))
  }

  predicate AllReturned(lines: seq<RentalItem>) {
    forall k :: 0 <= k < |lines| ==> lines[k].returned
  }

  predicate SomeReturned(lines: seq<RentalItem>) {
    exists k :: 0 <= k < |lines| && lines[k].returned
  }

  /**
   * The status after a return in the mock store (services/mockDb.ts:137-148):
   * Returned once every line is back; otherwise an Active rental with some
   * line back becomes Partial Return and any other status is kept.
   */
  function NextStatus(prev: RentalStatus, lines: seq<RentalItem>): (s: RentalStatus)
    ensures s == Returned <==> AllReturned(lines) || prev == Returned
    ensures s == PartialReturn <==>
              !AllReturned(lines) && (prev == PartialReturn || (prev == Active && SomeReturned(lines)))
    ensures s == Overdue <==> !AllReturned(lines) && prev == Overdue
    ensures s == Active <==> !AllReturned(lines) && prev == Active && !SomeReturned(lines)
  {
    if AllReturned(lines) then Returned
    else if prev == Active && SomeReturned(lines) then PartialReturn
    else prev
  }

  /** The rental written back by updateRentalStatus (services/mockDb.ts:150-154). */
  function ApplyReturn(r: Rental, itemIds: seq<Id>, now: Instant): (u: Rental)
    ensures u.(items := r.items, status := r.status) == r
    ensures u.items == MarkReturned(r.items, itemIds, now)
    ensures u.status == NextStatus(r.status, u.items)
  {
    var lines := MarkReturned(r.items, itemIds, now);
    r.(items := lines, status := NextStatus(r.status, lines))
  }

  // ------------------------------------------------------------ payments

  function PaymentAmount(p: Payment): int {
    p.amount
  }

  /** getRentalPayments: the payments whose rentalId is `rentalId`, in order. */
  function RentalPayments(payments: seq<Payment>, rentalId: Id): (r: seq<Payment>)
    ensures forall p :: p in r <==> p in payments && p.rentalId == Some(rentalId)
  {
    Filter(payments, (p: Payment) => p.rentalId == Some(rentalId))
  }

  /** `payments.filter(p => p.rentalId === rentalId).reduce((s, p) => s + p.amount, 0)` */
  function PaidFor(payments: seq<Payment>, rentalId: Id): int {
    SumOf(RentalPayments(payments, rentalId), PaymentAmount)
  }

  function RentalAmount(r: Rental): int {
    r.totalAmount
  }

  /** `rental.totalAmount - paid`: what is still owed on a rental, not clamped (an overpayment makes it negative). */
  function RentalDue(r: Rental, payments: seq<Payment>): int {
    r.totalAmount - PaidFor(payments, r.id)
  }

  /** A payment recorded against a rental lowers what is due on it by the payment's amount. */
  lemma RentalDueAfterPayment(r: Rental, payments: seq<Payment>, p: Payment)
    requires p.rentalId == Some(r.id)
    ensures RentalDue(r, payments + [p]) == RentalDue(r, payments) - p.amount
  {
    var tagged := (q: Payment) => q.rentalId == Some(r.id);
    FilterAppend(payments, [p], tagged);
    assert Filter([p], tagged) == [p];
    SumOfAppend(Filter(payments, tagged), [p], PaymentAmount);
    assert SumOf([p], PaymentAmount) == p.amount by {
      assert [p][..0] == [];
    }
  }

  /** Only payments tagged with the rental count towards it. */
  lemma {:induction false} PaidForIgnoresOthers(payments: seq<Payment>, extra: seq<Payment>, rentalId: Id)
    requires forall p :: p in extra ==> p.rentalId != Some(rentalId)
    ensures PaidFor(payments + extra, rentalId) == PaidFor(payments, rentalId)
  {
    var tagged := (p: Payment) => p.rentalId == Some(rentalId);
    FilterAppend(payments, extra, tagged);
    FilterNone(extra, tagged);
    assert Filter(payments + extra, tagged) == Filter(payments, tagged);
  }
}
