// The Reports screen (components/Reports.tsx): the four figures computed
// for a date window (calculateStats), the three windows, and the payment
// list tagged with its source and sorted newest first (loadData).
module Reports {
  import opened Types
  import opened Ledger

  datatype ReportStats = ReportStats(rentGenerated: int, salesRevenue: int, paymentsReceived: int, dueFromRent: int)

  // ------------------------------------------------------------- windows

  /**
   * The calendar month of a day number (day 0 is 1 January 1970), as
   * year * 12 + month - 1, by the proleptic Gregorian civil-from-days rule.
   */
  function MonthIndex(d: Day): int {
    var z := d + 719468;
    var era := z / 146097;
    var doe := z - era * 146097;
    var yoe := (doe - doe / 1460 + doe / 36524 - doe / 146096) / 365;
    var doy := doe - (365 * yoe + yoe / 4 - yoe / 100);
    var mp := (5 * doy + 2) / 153;
    var month := if mp < 10 then mp + 3 else mp - 9;
    var year := yoe + era * 400 + (if month <= 2 then 1 else 0);
    year * 12 + month - 1
  }

  /** Day 0 is in January 1970 and day 59 (1 March 1970) in March. */
  lemma MonthIndexExamples()
    ensures MonthIndex(0) == 1970 * 12
    ensures MonthIndex(59) == 1970 * 12 + 2
  {
    assert 719468 / 146097 == 4 && 135080 / 1460 == 92 && 135080 / 36524 == 3 && 135080 / 146096 == 0;
    assert 134991 / 365 == 369 && 369 / 4 == 92 && 369 / 100 == 3 && 1532 / 153 == 10;
    assert 719527 / 146097 == 4 && 135139 / 1460 == 92 && 135139 / 36524 == 3 && 135139 / 146096 == 0;
    assert 135050 / 365 == 370 && 370 / 4 == 92 && 370 / 100 == 3 && 2 / 153 == 0;
  }

  /** isToday: the same calendar day. */
  predicate IsToday(d: Day, today: Day) {
    d == today
  }

  /** isThisWeek: on or after the day a week before today, with no upper bound. */
  predicate IsThisWeek(d: Day, today: Day) {
    d >= today - 7
  }

  /** isThisMonth: the same month of the same year. */
  predicate IsThisMonth(d: Day, today: Day) {
    MonthIndex(d) == MonthIndex(today)
  }

  /**
   * Today lies in all three windows, a day of today lies in the week and
   * the month, and the week admits every later day.
   */
  lemma WindowsContainToday(d: Day, today: Day)
    ensures IsToday(today, today) && IsThisWeek(today, today) && IsThisMonth(today, today)
    ensures IsToday(d, today) ==> IsThisWeek(d, today) && IsThisMonth(d, today)
    ensures d >= today ==> IsThisWeek(d, today)
  {
  }

  // ------------------------------------------------------- calculateStats

  function SaleAmount(s: Sale): int {
    s.totalAmount
  }

  /** `Math.max(0, r.totalAmount - paidForThis)`, paidForThis counting payments of any date. */
  function RentDue(r: Rental, payments: seq<Payment>): int {
    var d := RentalDue(r, payments);
    if d > 0 then d else 0
  }

  function PeriodRentals(rentals: seq<Rental>, inWindow: Day -> bool): seq<Rental> {
    Filter(rentals, (r: Rental) => inWindow(r.rentDate))
  }

  function PeriodPayments(payments: seq<Payment>, inWindow: Day -> bool): seq<Payment> {
    Filter(payments, (p: Payment) => inWindow(p.date))
  }

  /** calculateStats(filterFn) (components/Reports.tsx:92-112). */
  function CalculateStats(rentals: seq<Rental>, sales: seq<Sale>, payments: seq<Payment>, inWindow: Day -> bool): (s: ReportStats)
    ensures s.dueFromRent >= 0
  {
    var periodRentals := PeriodRentals(rentals, inWindow);
    SumOfNonNegative(periodRentals, (r: Rental) => RentDue(r, payments));
    ReportStats(
      SumOf(periodRentals, RentalAmount),
      SumOf(Filter(sales, (s: Sale) => inWindow(s.date)), SaleAmount),
      SumOf(PeriodPayments(payments, inWindow), PaymentAmount),
      SumOf(periodRentals, (r: Rental) => RentDue(r, payments)))
  }

  /** The daily, weekly and monthly figures of the Reports screen. */
  function Stats(rentals: seq<Rental>, sales: seq<Sale>, payments: seq<Payment>, today: Day): (ReportStats, ReportStats, ReportStats) {
    (CalculateStats(rentals, sales, payments, (d: Day) => IsToday(d, today)),
     CalculateStats(rentals, sales, payments, (d: Day) => IsThisWeek(d, today)),
     CalculateStats(rentals, sales, payments, (d: Day) => IsThisMonth(d, today)))
  }

  /** A window that admits no day has all four figures zero. */
  lemma EmptyWindowHasNoFigures(rentals: seq<Rental>, sales: seq<Sale>, payments: seq<Payment>, inWindow: Day -> bool)
    requires forall d :: !inWindow(d)
    ensures CalculateStats(rentals, sales, payments, inWindow) == ReportStats(0, 0, 0, 0)
  {
    FilterNone(rentals, (r: Rental) => inWindow(r.rentDate));
    FilterNone(sales, (s: Sale) => inWindow(s.date));
    FilterNone(payments, (p: Payment) => inWindow(p.date));
  }

  lemma PaidForNonNegative(payments: seq<Payment>, rentalId: Id)
    requires forall p :: p in payments ==> p.amount >= 0
    ensures PaidFor(payments, rentalId) >= 0
  {
    SumOfNonNegative(RentalPayments(payments, rentalId), PaymentAmount);
  }

  /** With non-negative amounts, what is still due on a window's rentals is at most what they billed. */
  lemma DueFromRentAtMostRentGenerated(rentals: seq<Rental>, sales: seq<Sale>, payments: seq<Payment>, inWindow: Day -> bool)
    requires forall p :: p in payments ==> p.amount >= 0
    requires forall r :: r in rentals ==> r.totalAmount >= 0
    ensures CalculateStats(rentals, sales, payments, inWindow).dueFromRent <=
            CalculateStats(rentals, sales, payments, inWindow).rentGenerated
  {
    var period := PeriodRentals(rentals, inWindow);
    forall r | r in period
      ensures RentDue(r, payments) <= RentalAmount(r)
    {
      PaidForNonNegative(payments, r.id);
    }
    SumOfMonotone(period, (r: Rental) => RentDue(r, payments), RentalAmount);
  }

  /** A new rental adds its total to rentGenerated exactly when its rent date is in the window. */
  lemma RentGeneratedAfterNewRental(rentals: seq<Rental>, r: Rental, sales: seq<Sale>, payments: seq<Payment>, inWindow: Day -> bool)
    ensures CalculateStats(rentals + [r], sales, payments, inWindow).rentGenerated ==
            CalculateStats(rentals, sales, payments, inWindow).rentGenerated + (if inWindow(r.rentDate) then r.totalAmount else 0)
  {
    var inW := (x: Rental) => inWindow(x.rentDate);
    FilterAppend(rentals, [r], inW);
    SumOfAppend(Filter(rentals, inW), Filter([r], inW), RentalAmount);
  }

  /** A new payment adds its amount to paymentsReceived exactly when its date is in the window. */
  lemma PaymentsReceivedAfterPayment(rentals: seq<Rental>, sales: seq<Sale>, payments: seq<Payment>, p: Payment, inWindow: Day -> bool)
    ensures CalculateStats(rentals, sales, payments + [p], inWindow).paymentsReceived ==
            CalculateStats(rentals, sales, payments, inWindow).paymentsReceived + (if inWindow(p.date) then p.amount else 0)
  {
    var inW := (x: Payment) => inWindow(x.date);
    FilterAppend(payments, [p], inW);
    SumOfAppend(Filter(payments, inW), Filter([p], inW), PaymentAmount);
  }

  /** With non-negative amounts, a window that contains another receives at least as much. */
  lemma WiderWindowReceivesMore(rentals: seq<Rental>, sales: seq<Sale>, payments: seq<Payment>,
                                narrow: Day -> bool, wide: Day -> bool)
    requires forall p :: p in payments ==> p.amount >= 0
    requires forall d :: narrow(d) ==> wide(d)
    ensures CalculateStats(rentals, sales, payments, narrow).paymentsReceived <=
            CalculateStats(rentals, sales, payments, wide).paymentsReceived
  {
    var inNarrow := (p: Payment) => narrow(p.date);
    var inWide := (p: Payment) => wide(p.date);
    var narrowAmount := (p: Payment) => if inNarrow(p) then p.amount else 0;
    var wideAmount := (p: Payment) => if inWide(p) then p.amount else 0;
    SumOfFilter(payments, inNarrow, PaymentAmount, narrowAmount);
    SumOfFilter(payments, inWide, PaymentAmount, wideAmount);
    SumOfMonotone(payments, narrowAmount, wideAmount);
  }

  /**
   * Today lies in this week and this month, and the week has no upper bound:
   * with non-negative amounts the daily receipts are at most the weekly and
   * the monthly ones.
   */
  lemma DailyWithinWeeklyAndMonthly(rentals: seq<Rental>, sales: seq<Sale>, payments: seq<Payment>, today: Day)
    requires forall p :: p in payments ==> p.amount >= 0
    ensures var (daily, weekly, monthly) := Stats(rentals, sales, payments, today);
            daily.paymentsReceived <= weekly.paymentsReceived && daily.paymentsReceived <= monthly.paymentsReceived
  {
    WiderWindowReceivesMore(rentals, sales, payments, (d: Day) => IsToday(d, today), (d: Day) => IsThisWeek(d, today));
    WiderWindowReceivesMore(rentals, sales, payments, (d: Day) => IsToday(d, today), (d: Day) => IsThisMonth(d, today));
  }

  // ------------------------------------------------------------ loadData

  datatype SourceType = RentalSource | SaleSource | OtherSource

  /** A payment with the source tag, reference and customer name the transaction list shows. */
  datatype EnrichedTransaction = EnrichedTransaction(
    payment: Payment,
    sourceType: SourceType,
    sourceRef: string,
    customerName: string)

  /** Which record a payment belongs to: a truthy rentalId wins over a saleId. */
  function SourceOf(p: Payment): (t: SourceType)
    ensures t == RentalSource <==> Truthy(p.rentalId)
    ensures t == SaleSource <==> !Truthy(p.rentalId) && Truthy(p.saleId)
    ensures t == OtherSource <==> !Truthy(p.rentalId) && !Truthy(p.saleId)
  {
    if Truthy(p.rentalId) then RentalSource
    else if Truthy(p.saleId) then SaleSource
    else OtherSource
  }

  /** `#${id.substring(0,6)}` */
  function ShortRef(id: Id): (r: string)
    ensures |r| == 1 + (if |id| < 6 then |id| else 6)
    ensures r[0] == '#' && r[1..] == id[..|r| - 1]
  {
    "#" + (if |id| <= 6 then id else id[..6])
  }

  /** One element of `payments.map(...)` in loadData (components/Reports.tsx:36-58). */
  function Enrich(p: Payment, rentals: seq<Rental>, sales: seq<Sale>): (e: EnrichedTransaction)
    ensures e.payment == p && e.sourceType == SourceOf(p)
    ensures e.sourceType == OtherSource ==> e.sourceRef == "-" && e.customerName == "Unknown"
    ensures e.customerName != ""
    ensures e.sourceType == RentalSource ==>
              var i := FindIndex(rentals, RentalKey, p.rentalId.value);
              (i == -1 ==> e.sourceRef == "Unknown" && e.customerName == "Unknown") &&
              (i >= 0 ==> e.sourceRef == ShortRef(rentals[i].id) &&
                          e.customerName == OrElse(Some(rentals[i].customerName), "Unknown"))
    ensures e.sourceType == SaleSource ==>
              var i := FindIndex(sales, SaleKey, p.saleId.value);
              (i == -1 ==> e.sourceRef == "Unknown" && e.customerName == "Unknown") &&
              (i >= 0 ==> e.sourceRef == ShortRef(sales[i].id) &&
                          e.customerName == OrElse(Some(sales[i].customerName), "Unknown"))
  {
    if Truthy(p.rentalId) then
      var i := FindIndex(rentals, RentalKey, p.rentalId.value);
      if i == -1 then EnrichedTransaction(p, RentalSource, "Unknown", "Unknown")
      else EnrichedTransaction(p, RentalSource, ShortRef(rentals[i].id),
                               if rentals[i].customerName != "" then rentals[i].customerName else "Unknown")
    else if Truthy(p.saleId) then
      var i := FindIndex(sales, SaleKey, p.saleId.value);
      if i == -1 then EnrichedTransaction(p, SaleSource, "Unknown", "Unknown")
      else EnrichedTransaction(p, SaleSource, ShortRef(sales[i].id),
                               if sales[i].customerName != "" then sales[i].customerName else "Unknown")
    else EnrichedTransaction(p, OtherSource, "-", "Unknown")
  }

  function EnrichAll(payments: seq<Payment>, rentals: seq<Rental>, sales: seq<Sale>): (r: seq<EnrichedTransaction>)
    ensures |r| == |payments|
    ensures forall k :: 0 <= k < |r| ==> r[k] == Enrich(payments[k], rentals, sales)
  {
    seq(|payments|, k requires 0 <= k < |payments| => Enrich(payments[k], rentals, sales))
  }

  predicate SortedNewestFirst(s: seq<EnrichedTransaction>) {
    forall i, j :: 0 <= i < j < |s| ==> s[i].payment.date >= s[j].payment.date
  }

  /** Insert before the first element that is not newer, so equal dates keep their order. */
  function Insert(x: EnrichedTransaction, s: seq<EnrichedTransaction>): (r: seq<EnrichedTransaction>)
    requires SortedNewestFirst(s)
    ensures SortedNewestFirst(r)
    ensures multiset(r) == multiset(s) + multiset{x}
    ensures |r| == |s| + 1
    ensures |s| > 0 && x.payment.date < s[0].payment.date ==> r[0] == s[0]
    ensures |s| == 0 || x.payment.date >= s[0].payment.date ==> r[0] == x
  {
    if |s| == 0 || x.payment.date >= s[0].payment.date then [x] + s
    else
      var rest := Insert(x, s[1..]);
      assert s == [s[0]] + s[1..];
      [s[0]] + rest
  }

  /** `sort((a, b) => date(b) - date(a))`, a stable sort newest first. */
  function SortNewestFirst(s: seq<EnrichedTransaction>): (r: seq<EnrichedTransaction>)
    ensures SortedNewestFirst(r)
    ensures multiset(r) == multiset(s)
  {
    if |s| == 0 then []
    else
      assert s == [s[0]] + s[1..];
      Insert(s[0], SortNewestFirst(s[1..]))
  }

  /** The transaction list of the Reports screen. */
  function Transactions(payments: seq<Payment>, rentals: seq<Rental>, sales: seq<Sale>): (t: seq<EnrichedTransaction>)
    ensures |t| == |payments| && SortedNewestFirst(t)
    ensures multiset(t) == multiset(EnrichAll(payments, rentals, sales))
  {
    var e := EnrichAll(payments, rentals, sales);
    var t := SortNewestFirst(e);
    assert |multiset(t)| == |multiset(e)|;
    t
  }

  /** Every payment appears in the list exactly as often as it was recorded, and the list is newest first. */
  lemma TransactionsArePaymentsNewestFirst(payments: seq<Payment>, rentals: seq<Rental>, sales: seq<Sale>)
    ensures var t := Transactions(payments, rentals, sales);
            multiset(t) == multiset(EnrichAll(payments, rentals, sales)) &&
            |t| == |payments| && SortedNewestFirst(t) &&
            forall k :: 0 <= k < |t| ==> t[k] == Enrich(t[k].payment, rentals, sales) && t[k].payment in payments
  {
    var e := EnrichAll(payments, rentals, sales);
    var t := Transactions(payments, rentals, sales);
    assert |multiset(t)| == |multiset(e)|;
    forall k | 0 <= k < |t|
      ensures t[k] == Enrich(t[k].payment, rentals, sales) && t[k].payment in payments
    {
      assert t[k] in multiset(t);
      assert t[k] in e;
    }
  }

  // --------------------------------------------------- payments by source

  function RentalTagged(p: Payment): int {
    if SourceOf(p) == RentalSource then p.amount else 0
  }

  function SaleTagged(p: Payment): int {
    if SourceOf(p) == SaleSource then p.amount else 0
  }

  function OtherTagged(p: Payment): int {
    if SourceOf(p) == OtherSource then p.amount else 0
  }

  /**
   * paymentsReceived is the in-window total of the rental, sale and untagged
   * payments together: every payment counts once, whatever its source.
   */
  lemma PaymentsReceivedBySource(rentals: seq<Rental>, sales: seq<Sale>, payments: seq<Payment>, inWindow: Day -> bool)
    ensures var period := PeriodPayments(payments, inWindow);
            CalculateStats(rentals, sales, payments, inWindow).paymentsReceived ==
            SumOf(period, RentalTagged) + SumOf(period, SaleTagged) + SumOf(period, OtherTagged)
  {
    var period := PeriodPayments(payments, inWindow);
    var rentalOrSale := (p: Payment) => RentalTagged(p) + SaleTagged(p);
    SumOfAdd(period, RentalTagged, SaleTagged, rentalOrSale);
    SumOfAdd(period, rentalOrSale, OtherTagged, PaymentAmount);
  }
}
