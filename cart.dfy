// The item carts of the rental and sale forms (components/Rentals.tsx and
// components/Sales.tsx): both hold `{itemId, quantity, price}` lines and edit
// them with the same three handlers, differing only in the price a new line
// starts with.
module Cart {
  import opened Types
  import opened Ledger

  /**
   * handleAddItem: an item that is not in the inventory, or already in the
   * cart, leaves the cart as it is; any other item is appended with quantity 1
   * and the price `priceOf` gives for it.
   */
  function AddLine(inventory: seq<InventoryItem>, items: seq<LineInput>, itemId: Id,
                   priceOf: InventoryItem -> int): (r: seq<LineInput>)
    ensures FindIndex(inventory, ItemKey, itemId) == -1 ==> r == items
    ensures FindIndex(items, LineKey, itemId) != -1 ==> r == items
    ensures FindIndex(inventory, ItemKey, itemId) != -1 && FindIndex(items, LineKey, itemId) == -1 ==>
              r == items + [LineInput(itemId, 1, priceOf(inventory[FindIndex(inventory, ItemKey, itemId)]))]
  {
    var i := FindIndex(inventory, ItemKey, itemId);
    if i == -1 then items
    else if FindIndex(items, LineKey, itemId) != -1 then items
    else items + [LineInput(itemId, 1, priceOf(inventory[i]))]
  }

  /** Adding never puts a second line for the same item into the cart. */
  lemma AddLineKeepsDistinct(inventory: seq<InventoryItem>, items: seq<LineInput>, itemId: Id,
                             priceOf: InventoryItem -> int)
    requires DistinctItems(items)
    ensures DistinctItems(AddLine(inventory, items, itemId, priceOf))
  {
  }

  /** After adding, the item is in the cart exactly when it is a known item or was in the cart already. */
  lemma AddLineContains(inventory: seq<InventoryItem>, items: seq<LineInput>, itemId: Id,
                        priceOf: InventoryItem -> int)
    ensures var r := AddLine(inventory, items, itemId, priceOf);
            FindIndex(r, LineKey, itemId) != -1 <==>
            FindIndex(inventory, ItemKey, itemId) != -1 || FindIndex(items, LineKey, itemId) != -1
  {
    var r := AddLine(inventory, items, itemId, priceOf);
    if FindIndex(inventory, ItemKey, itemId) != -1 && FindIndex(items, LineKey, itemId) == -1 {
      assert LineKey(r[|items|]) == itemId;
    }
  }

  /**
   * The position `Array.prototype.splice(start, …)` starts at: a negative
   * start counts back from the end (not before 0), a start past the end is
   * the end.
   */
  function SpliceStart(len: nat, start: int): (k: nat)
    ensures k <= len
    ensures 0 <= start <= len ==> k == start
    ensures start > len ==> k == len
    ensures start < 0 ==> k == if len + start < 0 then 0 else len + start
  {
    if start < 0 then (if len + start < 0 then 0 else len + start)
    else if start > len then len
    else start
  }

  /** handleRemoveItem: `copy.splice(index, 1)` on a copy of the cart. */
  function RemoveAt<T>(s: seq<T>, index: int): (r: seq<T>)
    ensures var k := SpliceStart(|s|, index);
            if k < |s| then
              |r| == |s| - 1 &&
              (forall j :: 0 <= j < k ==> r[j] == s[j]) &&
              (forall j :: k <= j < |r| ==> r[j] == s[j + 1])
            else r == s
  {
    var k := SpliceStart(|s|, index);
    if k < |s| then s[..k] + s[k + 1..] else s
  }

  /** Removing an entry at a valid index removes exactly that one entry. */
  lemma RemoveAtMultiset<T>(s: seq<T>, index: int)
    requires 0 <= index < |s|
    ensures multiset(RemoveAt(s, index)) + multiset{s[index]} == multiset(s)
  {
    assert s == s[..index] + [s[index]] + s[index + 1..];
  }

  /** Removing keeps the remaining lines' items distinct. */
  lemma RemoveAtKeepsDistinct(items: seq<LineInput>, index: int)
    requires DistinctItems(items)
    ensures DistinctItems(RemoveAt(items, index))
  {
    var r := RemoveAt(items, index);
    var k := SpliceStart(|items|, index);
    if k < |items| {
      forall a, b | 0 <= a < b < |r|
        ensures r[a].itemId != r[b].itemId
      {
        var a' := if a < k then a else a + 1;
        var b' := if b < k then b else b + 1;
        assert r[a] == items[a'] && r[b] == items[b'];
      }
    }
  }

  /** handleUpdateItemQty, and handleUpdateItem on 'quantity': the line at index gets the new quantity. */
  function SetQuantity(items: seq<LineInput>, index: int, qty: int): (r: seq<LineInput>)
    requires 0 <= index < |items|
    ensures |r| == |items|
    ensures r[index] == items[index].(quantity := qty)
    ensures forall j :: 0 <= j < |items| && j != index ==> r[j] == items[j]
  {
    items[index := items[index].(quantity := qty)]
  }

  /** handleUpdateItem on 'price': the line at index gets the new price. */
  function SetPrice(items: seq<LineInput>, index: int, price: int): (r: seq<LineInput>)
    requires 0 <= index < |items|
    ensures |r| == |items|
    ensures r[index] == items[index].(price := price)
    ensures forall j :: 0 <= j < |items| && j != index ==> r[j] == items[j]
  {
    items[index := items[index].(price := price)]
  }

  /** Editing a line's quantity or price keeps every line's item, so distinct items stay distinct. */
  lemma SetFieldKeepsDistinct(items: seq<LineInput>, index: int, value: int)
    requires 0 <= index < |items|
    requires DistinctItems(items)
    ensures DistinctItems(SetQuantity(items, index, value))
    ensures DistinctItems(SetPrice(items, index, value))
  {
  }

  /** The amount of a cart split around one line. */
  lemma SumAround(items: seq<LineInput>, index: int)
    requires 0 <= index < |items|
    ensures SumOf(items, LineAmount) ==
            SumOf(items[..index], LineAmount) + LineAmount(items[index]) + SumOf(items[index + 1..], LineAmount)
  {
    assert items == items[..index] + [items[index]] + items[index + 1..];
    SumOfAppend(items[..index] + [items[index]], items[index + 1..], LineAmount);
    SumOfAppend(items[..index], [items[index]], LineAmount);
    assert [items[index]][..0] == [];
  }

  /** Helper for SetQuantityAmount: multiplication distributes over a difference, out of the larger proof's context. */
  lemma DistributeOverDifference(p: int, a: int, b: int)
    ensures p * a == p * b + p * (a - b)
  {
  }

  /** Setting a quantity changes the cart's amount by the line's price times the change in quantity. */
  lemma SetQuantityAmount(items: seq<LineInput>, index: int, qty: int)
    requires 0 <= index < |items|
    ensures SumOf(SetQuantity(items, index, qty), LineAmount) ==
            SumOf(items, LineAmount) + items[index].price * (qty - items[index].quantity)
  {
    var r := SetQuantity(items, index, qty);
    SumAround(items, index);
    SumAround(r, index);
    assert r[..index] == items[..index];
    assert r[index + 1..] == items[index + 1..];
    var p, q := items[index].price, items[index].quantity;
    assert LineAmount(r[index]) == p * qty;
    assert LineAmount(items[index]) == p * q;
    DistributeOverDifference(p, qty, q);
  }

  // ---------------------------------------------------- input constraints

  /** The `min="1"` of every quantity input: the browser submits no line below one piece. */
  predicate QuantitiesAtLeastOne(items: seq<LineInput>) {
    forall k :: 0 <= k < |items| ==> items[k].quantity >= 1
  }
}
