// The Customers screen (components/Customers.tsx): a customer's rental
// figures (getCustomerStats) and the name/phone search (filteredCustomers).
module CustomersView {
  import opened Types
  import opened Ledger

  datatype CustomerStats = CustomerStats(totalRentals: int, totalSpent: int, totalDue: int)

  /** `getRentals().filter(r => r.customerId === customerId)` */
  function CustomerRentals(rentals: seq<Rental>, customerId: Id): (r: seq<Rental>)
    ensures forall x :: x in r <==> x in rentals && x.customerId == customerId
  {
    Filter(rentals, (x: Rental) => x.customerId == customerId)
  }

  /** What has been paid towards the given rentals, payment by rental id. */
  function PaidForRentals(rentals: seq<Rental>, payments: seq<Payment>): int {
    SumOf(rentals, (r: Rental) => PaidFor(payments, r.id))
  }

  /**
   * getCustomerStats (components/Customers.tsx:87-105): the number of the
   * customer's rentals, their billed total, and that total less the payments
   * recorded against them; the due is not clamped at 0.
   */
  method GetCustomerStats(customerId: Id, rentals: seq<Rental>, payments: seq<Payment>) returns (stats: CustomerStats)
    ensures var mine := CustomerRentals(rentals, customerId);
            stats.totalRentals == |mine| &&
            stats.totalSpent == SumOf(mine, RentalAmount) &&
            stats.totalDue == SumOf(mine, RentalAmount) - PaidForRentals(mine, payments)
  {
    var mine := CustomerRentals(rentals, customerId);
    var totalRentVal := 0;
    var totalPaid := 0;
    var i := 0;
    while i < |mine|
      invariant 0 <= i <= |mine|
      invariant totalRentVal == SumOf(mine[..i], RentalAmount)
      invariant totalPaid == PaidForRentals(mine[..i], payments)
    {
      var r := mine[i];
      totalRentVal := totalRentVal + r.totalAmount;
      var rPayments := RentalPayments(payments, r.id);
      totalPaid := totalPaid + SumOf(rPayments, PaymentAmount);
      i := i + 1;
      assert mine[..i][..i - 1] == mine[..i - 1];
    }
    assert mine[..i] == mine;
    stats := CustomerStats(|mine|, totalRentVal, totalRentVal - totalPaid);
  }

  /** The customer's due is the sum of the dues the Rentals screen shows for each of their rentals. */
  lemma CustomerDueIsSumOfRentalDues(rentals: seq<Rental>, payments: seq<Payment>)
    ensures SumOf(rentals, RentalAmount) - PaidForRentals(rentals, payments) ==
            SumOf(rentals, (r: Rental) => RentalDue(r, payments))
  {
    SumOfAdd(rentals, (r: Rental) => RentalDue(r, payments), (r: Rental) => PaidFor(payments, r.id), RentalAmount);
  }

  /** Payments that name none of the rentals (sale payments, untagged ones) leave the figures unchanged. */
  lemma {:induction false} PaidForRentalsIgnoresOthers(rentals: seq<Rental>, payments: seq<Payment>, extra: seq<Payment>)
    requires forall p, r :: p in extra && r in rentals ==> p.rentalId != Some(r.id)
    ensures PaidForRentals(rentals, payments + extra) == PaidForRentals(rentals, payments)
  {
    if |rentals| > 0 {
      var n := |rentals|;
      assert forall r :: r in rentals[..n - 1] ==> r in rentals;
      PaidForRentalsIgnoresOthers(rentals[..n - 1], payments, extra);
      PaidForIgnoresOthers(payments, extra, rentals[n - 1].id);
    }
  }

  /** An overpaid rental gives a negative due: 100 billed, 150 paid. */
  lemma OverpaymentGivesNegativeDue()
    ensures var r := Rental("r1", "c1", "John Doe", 0, 1, [], 100, Active, None, 0);
            var p := Payment("p1", Some("r1"), None, 150, 0, None);
            SumOf([r], RentalAmount) - PaidForRentals([r], [p]) == -50
  {
    var r := Rental("r1", "c1", "John Doe", 0, 1, [], 100, Active, None, 0);
    var p := Payment("p1", Some("r1"), None, 150, 0, None);
    assert [r][..0] == [] && [p][..0] == [];
    assert RentalPayments([p], "r1") == [p];
    assert SumOf([p], PaymentAmount) == SumOf([p][..0], PaymentAmount) + PaymentAmount(p);
    assert PaidFor([p], "r1") == 150;
    assert SumOf([r], RentalAmount) == 100;
    var paid := (x: Rental) => PaidFor([p], x.id);
    assert SumOf([r], paid) == SumOf([r][..0], paid) + paid(r);
    assert PaidForRentals([r], [p]) == 150;
  }

  // -------------------------------------------------------------- search

  /** `toLowerCase()` on one character, for the ASCII letters. */
  function LowerChar(c: char): char {
    if 'A' <= c <= 'Z' then (c as int + 32) as char else c
  }

  function Lower(s: string): (r: string)
    ensures |r| == |s| && forall i :: 0 <= i < |s| ==> r[i] == LowerChar(s[i])
  {
    seq(|s|, i requires 0 <= i < |s| => LowerChar(s[i]))
  }

  predicate StartsWith(s: string, prefix: string) {
    |prefix| <= |s| && s[..|prefix|] == prefix
  }

  /** `s.includes(sub)` */
  predicate Contains(s: string, sub: string)
    decreases |s|
  {
    StartsWith(s, sub) || (|s| > 0 && Contains(s[1..], sub))
  }

  /** `sub` occurs in `s` starting at position i. */
  predicate OccursAt(s: string, sub: string, i: int) {
    0 <= i <= |s| - |sub| && s[i..i + |sub|] == sub
  }

  /** `includes` holds exactly when `sub` occurs at some position of `s`. */
  lemma {:induction false} ContainsIffOccurs(s: string, sub: string)
    ensures Contains(s, sub) <==> exists i :: OccursAt(s, sub, i)
  {
    if |s| > 0 {
      ContainsIffOccurs(s[1..], sub);
      if exists i :: OccursAt(s, sub, i) {
        var i :| OccursAt(s, sub, i);
        if i > 0 {
          assert s[1..][i - 1..i - 1 + |sub|] == s[i..i + |sub|];
          assert OccursAt(s[1..], sub, i - 1);
        } else {
          assert StartsWith(s, sub);
        }
      }
      if Contains(s, sub) {
        if StartsWith(s, sub) {
          assert OccursAt(s, sub, 0);
        } else {
          var i :| OccursAt(s[1..], sub, i);
          assert s[i + 1..i + 1 + |sub|] == s[1..][i..i + |sub|];
          assert OccursAt(s, sub, i + 1);
        }
      }
    } else {
      if Contains(s, sub) {
        assert OccursAt(s, sub, 0);
      }
      if exists i :: OccursAt(s, sub, i) {
        var i :| OccursAt(s, sub, i);
        assert StartsWith(s, sub);
      }
    }
  }

  /** The search keeps a customer whose lower-cased name contains the lower-cased term, or whose phone contains the term. */
  predicate Matches(c: Customer, term: string) {
    Contains(Lower(c.name), Lower(term)) || Contains(c.phone, term)
  }

  /** filteredCustomers (components/Customers.tsx:107-110). */
  function FilterCustomers(customers: seq<Customer>, term: string): (r: seq<Customer>)
    ensures forall c :: c in r <==> c in customers && Matches(c, term)
  {
    Filter(customers, (c: Customer) => Matches(c, term))
  }

  /** An empty search shows every customer, in the stored order. */
  lemma EmptySearchKeepsEveryone(customers: seq<Customer>)
    ensures FilterCustomers(customers, "") == customers
  {
    forall c | c in customers
      ensures Matches(c, "")
    {
      assert StartsWith(c.phone, "");
    }
    FilterAll(customers, (c: Customer) => Matches(c, ""));
  }
}
