// The Dashboard's figures (components/Dashboard.tsx): how many customers and
// items there are, how many pieces are out on Active or Overdue rentals, how
// many rentals are overdue, and what was paid today.
module Dashboard {
  import opened Types
  import opened Ledger
  import opened MockDb
  import Reports

  datatype DashboardStats = DashboardStats(
    totalCustomers: int,
    totalItems: int,
    itemsRented: int,
    overdueCount: int,
    todaysIncome: int)

  /** `activeRentals`: status Active or Overdue; a Partial Return rental is left out. */
  function IsOut(r: Rental): bool {
    r.status == Active || r.status == Overdue
  }

  function IsOverdue(r: Rental): bool {
    r.status == Overdue
  }

  function IsPartial(r: Rental): bool {
    r.status == PartialReturn
  }

  /** The quantity a line still has out: its quantity unless it was returned. */
  function UnreturnedQty(l: RentalItem): int {
    if l.returned then 0 else l.quantity
  }

  /** The pieces one rental still has out. */
  function PiecesOut(r: Rental): int {
    SumOf(r.items, UnreturnedQty)
  }

  /** itemsRented: the pieces out over the Active and Overdue rentals. */
  function ItemsRented(rentals: seq<Rental>): int {
    SumOf(Filter(rentals, IsOut), PiecesOut)
  }

  /** todaysIncome: the amounts of the payments made today. */
  function TodaysIncome(payments: seq<Payment>, today: Day): int {
    SumOf(Filter(payments, (p: Payment) => p.date == today), PaymentAmount)
  }

  /**
   * The stats memo of the Dashboard (components/Dashboard.tsx:31-61), over
   * the store's collections as getRentals() shows them on day `today`.
   */
  method ComputeStats(store: MockDb.Store, today: Day) returns (stats: DashboardStats)
    ensures stats.totalCustomers == |store.customers| && stats.totalItems == |store.inventory|
    ensures stats.itemsRented == ItemsRented(store.GetRentals(today))
    ensures stats.overdueCount == |Filter(store.GetRentals(today), IsOverdue)|
    ensures stats.todaysIncome == TodaysIncome(store.payments, today)
  {
    var rentals := store.GetRentals(today);
    var activeRentals := Filter(rentals, IsOut);
    var overdueRentals := Filter(rentals, IsOverdue);
    var itemsRented := 0;
    var i := 0;
    while i < |activeRentals|
      invariant 0 <= i <= |activeRentals|
      invariant itemsRented == SumOf(activeRentals[..i], PiecesOut)
    {
      var r := activeRentals[i];
      var j := 0;
      var before := itemsRented;
      while j < |r.items|
        invariant 0 <= j <= |r.items|
        invariant itemsRented == before + SumOf(r.items[..j], UnreturnedQty)
      {
        if !r.items[j].returned {
          itemsRented := itemsRented + r.items[j].quantity;
        }
        j := j + 1;
        assert r.items[..j][..j - 1] == r.items[..j - 1];
      }
      assert r.items[..j] == r.items;
      i := i + 1;
      assert activeRentals[..i][..i - 1] == activeRentals[..i - 1];
    }
    assert activeRentals[..i] == activeRentals;
    var todaysIncome := TodaysIncome(store.payments, today);
    stats := DashboardStats(|store.customers|, |store.inventory|, itemsRented, |overdueRentals|, todaysIncome);
  }

  /** What a rental that is not Returned has out: its pieces, nothing for a Returned one. */
  function OpenPieces(r: Rental): int {
    if IsOpen(r) then PiecesOut(r) else 0
  }

  /**
   * itemsRented leaves out the pieces still out on Partial Return rentals:
   * together they are everything the open rentals have out.
   */
  lemma ItemsRentedPlusPartial(rentals: seq<Rental>)
    ensures ItemsRented(rentals) + SumOf(Filter(rentals, IsPartial), PiecesOut) ==
            SumOf(Filter(rentals, IsOpen), PiecesOut)
  {
    var outPieces := (r: Rental) => if IsOut(r) then PiecesOut(r) else 0;
    var partialPieces := (r: Rental) => if IsPartial(r) then PiecesOut(r) else 0;
    SumOfFilter(rentals, IsOut, PiecesOut, outPieces);
    SumOfFilter(rentals, IsPartial, PiecesOut, partialPieces);
    SumOfFilter(rentals, IsOpen, PiecesOut, OpenPieces);
    SumOfAdd(rentals, outPieces, partialPieces, OpenPieces);
  }

  /**
   * On the day shown, a rental that is not Returned and is past its expected
   * return day counts among the rentals with pieces out and among the
   * overdue ones, even when it was stored as Partial Return.
   */
  lemma LateRentalsCounted(rentals: seq<Rental>, today: Day, k: int)
    requires 0 <= k < |rentals|
    requires rentals[k].status != Returned && today > rentals[k].expectedReturnDate
    ensures var shown := OverdueView(rentals, today);
            shown[k] in Filter(shown, IsOut) && shown[k] in Filter(shown, IsOverdue)
  {
    var shown := OverdueView(rentals, today);
    assert shown[k].status == Overdue;
    assert shown[k] in shown;
  }

  /** A rental still shown as Partial Return is not yet past its expected return day. */
  lemma ShownPartialIsNotLate(rentals: seq<Rental>, today: Day)
    ensures forall v :: v in Filter(OverdueView(rentals, today), IsPartial) ==> today <= v.expectedReturnDate
  {
    var shown := OverdueView(rentals, today);
    forall v | v in Filter(shown, IsPartial)
      ensures today <= v.expectedReturnDate
    {
      var k :| 0 <= k < |shown| && shown[k] == v;
      assert rentals[k].expectedReturnDate == v.expectedReturnDate;
    }
  }

  /** With dates as days, today's income is what the Reports screen lists as received today. */
  lemma TodaysIncomeIsDailyReceipts(rentals: seq<Rental>, sales: seq<Sale>, payments: seq<Payment>, today: Day)
    ensures TodaysIncome(payments, today) == Reports.Stats(rentals, sales, payments, today).0.paymentsReceived
  {
    var daily := (d: Day) => Reports.IsToday(d, today);
    var paidToday := (p: Payment) => p.date == today;
    var inDay := (p: Payment) => daily(p.date);
    assert Reports.Stats(rentals, sales, payments, today).0 == Reports.CalculateStats(rentals, sales, payments, daily);
    assert Reports.PeriodPayments(payments, daily) == Filter(payments, inDay);
    FilterSame(payments, paidToday, inDay);
  }
}
