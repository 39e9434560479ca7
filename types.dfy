// The records of the rental/sales store (types.ts), with dates as whole day
// numbers, timestamps as integers and money as integer amounts, plus the few
// generic sequence helpers (find-first, filter, sum) that the JavaScript code
// gets from Array.prototype.
module Types {

  datatype Option<T> = None | Some(value: T)

  datatype Result<T, E> = Ok(value: T) | Err(error: E)

  /** Record identifiers (generateId() strings, UUIDs on the server). */
  type Id = string

  /** A calendar date as a whole number of days since an epoch. */
  type Day = int

  /** A point in time (createdAt, returnedDate); only ever copied, never compared. */
  type Instant = int

  /** JavaScript truthiness of an optional string: present and not "". */
  predicate Truthy(s: Option<string>) {
    s.Some? && s.value != ""
  }

  /** `s || fallback` for an optional string. */
  function OrElse(s: Option<string>, fallback: string): (r: string)
    ensures Truthy(s) ==> r == s.value
    ensures !Truthy(s) ==> r == fallback
  {
    if Truthy(s) then s.value else fallback
  }

  datatype Customer = Customer(
    id: Id,
    name: string,
    phone: string,
    address: Option<string>,
    nid: Option<string>,
    photoUrl: Option<string>,
    createdAt: Instant)

  datatype InventoryItem = InventoryItem(
    id: Id,
    name: string,
    category: Option<string>,
    description: Option<string>,
    dailyRentPrice: int,
    sellingPrice: Option<int>,
    totalQuantity: int,
    photoUrl: Option<string>)

  /** The four values of the RentalStatus enum: 'Active', 'Returned', 'Overdue', 'Partial Return'. */
  datatype RentalStatus = Active | Returned | Overdue | PartialReturn

  /** One line of a rental; dailyRentPrice is the rate snapshotted at creation. */
  datatype RentalItem = RentalItem(
    itemId: Id,
    itemName: string,
    quantity: int,
    dailyRentPrice: int,
    returned: bool,
    returnedDate: Option<Instant>)

  datatype Rental = Rental(
    id: Id,
    customerId: Id,
    customerName: string,
    rentDate: Day,
    expectedReturnDate: Day,
    items: seq<RentalItem>,
    totalAmount: int,
    status: RentalStatus,
    notes: Option<string>,
    createdAt: Instant)

  datatype SaleItem = SaleItem(
    itemId: Id,
    itemName: string,
    quantity: int,
    unitPrice: int,
    total: int)

  datatype Sale = Sale(
    id: Id,
    customerId: Option<Id>,
    customerName: string,
    items: seq<SaleItem>,
    totalAmount: int,
    date: Day,
    createdAt: Instant)

  datatype Payment = Payment(
    id: Id,
    rentalId: Option<Id>,
    saleId: Option<Id>,
    amount: int,
    date: Day,
    note: Option<string>)

  datatype Note = Note(id: Id, content: string, createdAt: Instant)

  /** The `{itemId, quantity, price}` line that the rental and sale forms edit and saveSale receives. */
  datatype LineInput = LineInput(itemId: Id, quantity: int, price: int)

  /** No two lines name the same item (what the rental and sale carts guarantee). */
  predicate DistinctItems(lines: seq<LineInput>) {
    forall a, b :: 0 <= a < b < |lines| ==> lines[a].itemId != lines[b].itemId
  }

  function CustomerKey(c: Customer): Id { c.id }
  function ItemKey(i: InventoryItem): Id { i.id }
  function RentalKey(r: Rental): Id { r.id }
  function SaleKey(s: Sale): Id { s.id }
  function NoteKey(n: Note): Id { n.id }
  function LineKey(l: LineInput): Id { l.itemId }

  /** `findIndex(x => key(x) === id)`: the first position whose key is id, or -1. */
  function FindIndex<T>(s: seq<T>, key: T -> Id, id: Id): (r: int)
    ensures -1 <= r < |s|
    ensures r == -1 <==> forall k :: 0 <= k < |s| ==> key(s[k]) != id
    ensures 0 <= r ==> key(s[r]) == id && forall k :: 0 <= k < r ==> key(s[k]) != id
  {
    if |s| == 0 then -1
    else if key(s[0]) == id then 0
    else
      var r := FindIndex(s[1..], key, id);
      if r == -1 then -1 else r + 1
  }

  /** Two sequences with the same keys position by position find the same index. */
  lemma {:induction false} FindIndexSameKeys<T>(s: seq<T>, t: seq<T>, key: T -> Id, id: Id)
    requires |s| == |t|
    requires forall k :: 0 <= k < |s| ==> key(s[k]) == key(t[k])
    ensures FindIndex(s, key, id) == FindIndex(t, key, id)
  {
    if |s| > 0 && key(s[0]) != id {
      FindIndexSameKeys(s[1..], t[1..], key, id);
    }
  }

  /** `filter(p)`: the elements satisfying p, in their original order. */
  function Filter<T(!new)>(s: seq<T>, p: T -> bool): (r: seq<T>)
    ensures |r| <= |s|
    ensures forall x :: x in r <==> x in s && p(x)
  {
    if |s| == 0 then []
    else if p(s[0]) then [s[0]] + Filter(s[1..], p)
    else Filter(s[1..], p)
  }

  /** Filtering distributes over concatenation, so the kept elements keep their relative order. */
  lemma {:induction false} FilterAppend<T(!new)>(a: seq<T>, b: seq<T>, p: T -> bool)
    ensures Filter(a + b, p) == Filter(a, p) + Filter(b, p)
  {
    if |a| > 0 {
      assert (a + b)[0] == a[0] && (a + b)[1..] == a[1..] + b;
      FilterAppend(a[1..], b, p);
    } else {
      assert a + b == b;
    }
  }

  /** A filter that keeps every element returns the sequence itself. */
  lemma {:induction false} FilterAll<T(!new)>(s: seq<T>, p: T -> bool)
    requires forall x :: x in s ==> p(x)
    ensures Filter(s, p) == s
  {
    if |s| > 0 {
      FilterAll(s[1..], p);
    }
  }

  /** A filter that keeps no element returns the empty sequence. */
  lemma {:induction false} FilterNone<T(!new)>(s: seq<T>, p: T -> bool)
    requires forall x :: x in s ==> !p(x)
    ensures Filter(s, p) == []
  {
    if |s| > 0 {
      FilterNone(s[1..], p);
    }
  }

  /** Filters whose predicates agree on every element keep the same elements. */
  lemma {:induction false} FilterSame<T(!new)>(s: seq<T>, p: T -> bool, q: T -> bool)
    requires forall x :: x in s ==> p(x) == q(x)
    ensures Filter(s, p) == Filter(s, q)
  {
    if |s| > 0 {
      assert forall x :: x in s[1..] ==> x in s;
      FilterSame(s[1..], p, q);
    }
  }

  /** `reduce((sum, x) => sum + f(x), 0)`. */
  function SumOf<T>(s: seq<T>, f: T -> int): int {
    if |s| == 0 then 0 else SumOf(s[..|s| - 1], f) + f(s[|s| - 1])
  }

  lemma {:induction false} SumOfAppend<T>(a: seq<T>, b: seq<T>, f: T -> int)
    ensures SumOf(a + b, f) == SumOf(a, f) + SumOf(b, f)
  {
    if |b| > 0 {
      assert (a + b)[..|a + b| - 1] == a + b[..|b| - 1];
      SumOfAppend(a, b[..|b| - 1], f);
    } else {
      assert a + b == a;
    }
  }

  lemma {:induction false} SumOfNonNegative<T>(s: seq<T>, f: T -> int)
    requires forall x :: x in s ==> f(x) >= 0
    ensures SumOf(s, f) >= 0
  {
    if |s| > 0 {
      assert forall x :: x in s[..|s| - 1] ==> x in s;
      SumOfNonNegative(s[..|s| - 1], f);
    }
  }

  /** Sums are monotone in the summand. */
  lemma {:induction false} SumOfMonotone<T>(s: seq<T>, f: T -> int, g: T -> int)
    requires forall x :: x in s ==> f(x) <= g(x)
    ensures SumOf(s, f) <= SumOf(s, g)
  {
    if |s| > 0 {
      assert forall x :: x in s[..|s| - 1] ==> x in s;
      SumOfMonotone(s[..|s| - 1], f, g);
    }
  }

  /** Sums are additive in the summand. */
  lemma {:induction false} SumOfAdd<T>(s: seq<T>, f: T -> int, g: T -> int, h: T -> int)
    requires forall x :: x in s ==> h(x) == f(x) + g(x)
    ensures SumOf(s, h) == SumOf(s, f) + SumOf(s, g)
  {
    if |s| > 0 {
      assert forall x :: x in s[..|s| - 1] ==> x in s;
      SumOfAdd(s[..|s| - 1], f, g, h);
    }
  }

  /** Two sequences whose summands agree position by position have the same sum. */
  lemma {:induction false} SumOfPointwise<T, U>(s: seq<T>, t: seq<U>, f: T -> int, g: U -> int)
    requires |s| == |t|
    requires forall k :: 0 <= k < |s| ==> f(s[k]) == g(t[k])
    ensures SumOf(s, f) == SumOf(t, g)
  {
    if |s| > 0 {
      SumOfPointwise(s[..|s| - 1], t[..|t| - 1], f, g);
    }
  }

  /** A sum over a filtered sequence equals the sum over the whole with the dropped elements counted as 0. */
  lemma {:induction false} SumOfFilter<T(!new)>(s: seq<T>, p: T -> bool, f: T -> int, g: T -> int)
    requires forall x :: x in s ==> g(x) == (if p(x) then f(x) else 0)
    ensures SumOf(Filter(s, p), f) == SumOf(s, g)
  {
    if |s| > 0 {
      var rest := s[1..];
      assert s == [s[0]] + rest;
      assert forall x :: x in rest ==> x in s;
      SumOfFilter(rest, p, f, g);
      SumOfAppend([s[0]], rest, g);
      if p(s[0]) {
        SumOfAppend([s[0]], Filter(rest, p), f);
      }
    }
  }
}
