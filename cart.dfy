/** The shopping cart: a list of (product, power, quantity) entries keyed by
    (product id, power). The cart keeps each key at most once and every
    quantity at least 1; each operation replaces the whole list. */
module Cart {
  import opened Common
  import opened Catalog

  datatype CartItem = CartItem(product: Product, power: string, quantity: int)

  predicate HasKey(item: CartItem, productId: int, power: string) {
    item.product.id == productId && item.power == power
  }

  predicate SameKey(a: CartItem, b: CartItem) {
    HasKey(b, a.product.id, a.power)
  }

  predicate UniqueKeys(items: seq<CartItem>) {
    forall i, j :: 0 <= i < j < |items| ==> !SameKey(items[i], items[j])
  }

  predicate PositiveQuantities(items: seq<CartItem>) {
    forall i :: 0 <= i < |items| ==> items[i].quantity >= 1
  }

  /** The cart invariant. */
  predicate WellFormed(items: seq<CartItem>) {
    UniqueKeys(items) && PositiveQuantities(items)
  }

  /** `findIndex`: the position of the first entry with the key, or -1. */
  function FindIndex(items: seq<CartItem>, productId: int, power: string): (i: int)
    ensures -1 <= i < |items|
    ensures 0 <= i ==> HasKey(items[i], productId, power)
    ensures 0 <= i ==> forall j :: 0 <= j < i ==> !HasKey(items[j], productId, power)
    ensures i == -1 <==> forall j :: 0 <= j < |items| ==> !HasKey(items[j], productId, power)
  {
    if items == [] then -1
    else if HasKey(items[0], productId, power) then 0
    else
      var k := FindIndex(items[1..], productId, power);
      if k == -1 then -1 else k + 1
  }

  /** The list `addItem` stores: the first entry with the key gets one more
      unit, otherwise a new entry of quantity 1 is appended. */
  function AddedItem(items: seq<CartItem>, product: Product, power: string): seq<CartItem> {
    var i := FindIndex(items, product.id, power);
    if i >= 0 then items[i := items[i].(quantity := items[i].quantity + 1)]
    else items + [CartItem(product, power, 1)]
  }

  /** The list `removeItem` stores: every entry with the key is dropped. */
  function Removed(items: seq<CartItem>, productId: int, power: string): seq<CartItem> {
    if items == [] then []
    else if HasKey(items[0], productId, power) then Removed(items[1..], productId, power)
    else [items[0]] + Removed(items[1..], productId, power)
  }

  /** After removing, no entry has the key, and the entries left are exactly
      those of the list without it. */
  lemma {:induction false} RemovedSpec(items: seq<CartItem>, productId: int, power: string)
    ensures var r := Removed(items, productId, power);
      && |r| <= |items|
      && (forall k :: 0 <= k < |r| ==> !HasKey(r[k], productId, power))
      && (forall x :: x in r ==> x in items)
      && (forall x :: x in items && !HasKey(x, productId, power) ==> x in r)
  {
    if items != [] {
      RemovedSpec(items[1..], productId, power);
      assert items == [items[0]] + items[1..];
    }
  }

  /** Every entry with the key gets quantity `q`; the others are kept. */
  function WithQuantity(items: seq<CartItem>, productId: int, power: string, q: int): (r: seq<CartItem>)
    ensures |r| == |items|
    ensures forall k :: 0 <= k < |items| ==>
      r[k] == if HasKey(items[k], productId, power) then items[k].(quantity := q) else items[k]
  {
    if items == [] then []
    else
      [if HasKey(items[0], productId, power) then items[0].(quantity := q) else items[0]]
      + WithQuantity(items[1..], productId, power, q)
  }

  /** The list `updateQuantity` stores. */
  function Updated(items: seq<CartItem>, productId: int, power: string, q: int): seq<CartItem> {
    if q <= 0 then Removed(items, productId, power) else WithQuantity(items, productId, power, q)
  }

  /** `totalItems`: the sum of the quantities. */
  function Total(items: seq<CartItem>): (n: int)
    ensures PositiveQuantities(items) ==> n >= |items|
  {
    if items == [] then 0 else items[0].quantity + Total(items[1..])
  }

  // ---------------------------------------------------------------------------
  // addItem

  /** Adding a product/power that is already in the cart raises that entry's
      quantity by exactly 1; the length, the entry's product and every other
      entry stay as they were. */
  lemma AddExistingKey(items: seq<CartItem>, product: Product, power: string, j: int)
    requires 0 <= j < |items| && HasKey(items[j], product.id, power)
    requires forall k :: 0 <= k < j ==> !HasKey(items[k], product.id, power)
    ensures |AddedItem(items, product, power)| == |items|
    ensures AddedItem(items, product, power)[j] == items[j].(quantity := items[j].quantity + 1)
    ensures forall k :: 0 <= k < |items| && k != j ==> AddedItem(items, product, power)[k] == items[k]
  {
  }

  /** Under the invariant, any entry with the key is the one that grows. */
  lemma AddExistingKeyWellFormed(items: seq<CartItem>, product: Product, power: string, j: int)
    requires UniqueKeys(items)
    requires 0 <= j < |items| && HasKey(items[j], product.id, power)
    ensures |AddedItem(items, product, power)| == |items|
    ensures AddedItem(items, product, power)[j] == items[j].(quantity := items[j].quantity + 1)
    ensures forall k :: 0 <= k < |items| && k != j ==> AddedItem(items, product, power)[k] == items[k]
  {
    forall k | 0 <= k < j ensures !HasKey(items[k], product.id, power) {
      assert !SameKey(items[k], items[j]);
    }
    AddExistingKey(items, product, power, j);
  }

  /** Adding a key that is not in the cart appends a new entry of quantity 1. */
  lemma AddNewKey(items: seq<CartItem>, product: Product, power: string)
    requires forall k :: 0 <= k < |items| ==> !HasKey(items[k], product.id, power)
    ensures AddedItem(items, product, power) == items + [CartItem(product, power, 1)]
  {
  }

  lemma AddPreservesWellFormed(items: seq<CartItem>, product: Product, power: string)
    requires WellFormed(items)
    ensures WellFormed(AddedItem(items, product, power))
  {
    var r := AddedItem(items, product, power);
    var i := FindIndex(items, product.id, power);
    if i < 0 {
      forall a, b | 0 <= a < b < |r| ensures !SameKey(r[a], r[b]) {
        if b == |items| {
          assert !HasKey(items[a], product.id, power);
        }
      }
    }
  }

  // ---------------------------------------------------------------------------
  // removeItem

  /** Removing distributes over concatenation, so the kept entries stay in
      their original order. */
  lemma {:induction false} RemovedAppend(a: seq<CartItem>, b: seq<CartItem>, productId: int, power: string)
    ensures Removed(a + b, productId, power) == Removed(a, productId, power) + Removed(b, productId, power)
  {
    if a != [] {
      var ab := a + b;
      assert ab[0] == a[0];
      assert ab[1..] == a[1..] + b;
      RemovedAppend(a[1..], b, productId, power);
    } else {
      assert a + b == b;
    }
  }

  lemma {:induction false} RemoveAbsentKey(items: seq<CartItem>, productId: int, power: string)
    requires forall k :: 0 <= k < |items| ==> !HasKey(items[k], productId, power)
    ensures Removed(items, productId, power) == items
  {
    if items != [] {
      RemoveAbsentKey(items[1..], productId, power);
    }
  }

  /** In a well-formed cart, removing a key that is present drops exactly that
      one entry and keeps the others in order. */
  lemma RemoveExistingKey(items: seq<CartItem>, productId: int, power: string, j: int)
    requires UniqueKeys(items)
    requires 0 <= j < |items| && HasKey(items[j], productId, power)
    ensures Removed(items, productId, power) == items[..j] + items[j + 1..]
  {
    assert items == items[..j] + ([items[j]] + items[j + 1..]);
    forall k | 0 <= k < j ensures !HasKey(items[..j][k], productId, power) {
      assert !SameKey(items[k], items[j]);
    }
    forall k | j < k < |items| ensures !HasKey(items[k], productId, power) {
      assert !SameKey(items[j], items[k]);
    }
    RemovedAppend(items[..j], [items[j]] + items[j + 1..], productId, power);
    RemovedAppend([items[j]], items[j + 1..], productId, power);
    RemoveAbsentKey(items[..j], productId, power);
    RemoveAbsentKey(items[j + 1..], productId, power);
  }

  /** The first entry of a cart with unique keys shares its key with no later
      entry. */
  lemma HeadKeyUnique(items: seq<CartItem>)
    requires UniqueKeys(items) && items != []
    ensures UniqueKeys(items[1..])
    ensures forall y :: y in items[1..] ==> !SameKey(items[0], y)
  {
    forall y | y in items[1..] ensures !SameKey(items[0], y) {
      var m :| 0 <= m < |items[1..]| && items[1..][m] == y;
      assert items[m + 1] == y;
    }
  }

  /** An entry whose key is new can be put in front of a list with unique keys. */
  lemma UniqueCons(h: CartItem, t: seq<CartItem>)
    requires UniqueKeys(t)
    requires forall y :: y in t ==> !SameKey(h, y)
    ensures UniqueKeys([h] + t)
  {
    var r := [h] + t;
    forall a, b | 0 <= a < b < |r| ensures !SameKey(r[a], r[b]) {
      if a == 0 {
        assert r[b] in t;
      } else {
        assert r[a] == t[a - 1] && r[b] == t[b - 1];
      }
    }
  }

  lemma {:induction false} RemovedUniqueKeys(items: seq<CartItem>, productId: int, power: string)
    requires UniqueKeys(items)
    ensures UniqueKeys(Removed(items, productId, power))
  {
    if items != [] {
      HeadKeyUnique(items);
      RemovedUniqueKeys(items[1..], productId, power);
      RemovedSpec(items[1..], productId, power);
      if !HasKey(items[0], productId, power) {
        UniqueCons(items[0], Removed(items[1..], productId, power));
      }
    }
  }

  /** Removing keeps the cart invariant. */
  lemma RemovePreservesWellFormed(items: seq<CartItem>, productId: int, power: string)
    requires WellFormed(items)
    ensures WellFormed(Removed(items, productId, power))
  {
    RemovedUniqueKeys(items, productId, power);
    RemovedSpec(items, productId, power);
    var r := Removed(items, productId, power);
    forall k | 0 <= k < |r| ensures r[k].quantity >= 1 {
      assert r[k] in items;
    }
  }

  // ---------------------------------------------------------------------------
  // updateQuantity

  /** In a well-formed cart, a quantity of zero or less drops exactly the entry
      with the key, keeps the others in order, and lowers the total by that
      entry's quantity. */
  lemma UpdateNonPositiveRemoves(items: seq<CartItem>, productId: int, power: string, q: int, j: int)
    requires UniqueKeys(items) && q <= 0
    requires 0 <= j < |items| && HasKey(items[j], productId, power)
    ensures Updated(items, productId, power, q) == items[..j] + items[j + 1..]
    ensures Total(Updated(items, productId, power, q)) == Total(items) - items[j].quantity
  {
    RemoveExistingKey(items, productId, power, j);
    TotalAfterRemove(items, productId, power, j);
  }

  /** A positive quantity for a key that is not in the cart changes nothing. */
  lemma UpdateAbsentKey(items: seq<CartItem>, productId: int, power: string, q: int)
    requires q > 0
    requires forall k :: 0 <= k < |items| ==> !HasKey(items[k], productId, power)
    ensures Updated(items, productId, power, q) == items
  {
  }

  /** In a well-formed cart, a positive quantity replaces the quantity of the
      one entry with the key and nothing else. */
  lemma UpdateExistingKey(items: seq<CartItem>, productId: int, power: string, q: int, j: int)
    requires UniqueKeys(items)
    requires q > 0 && 0 <= j < |items| && HasKey(items[j], productId, power)
    ensures Updated(items, productId, power, q) == items[j := items[j].(quantity := q)]
  {
    forall k | 0 <= k < |items| && k != j ensures !HasKey(items[k], productId, power) {
      if k < j { assert !SameKey(items[k], items[j]); } else { assert !SameKey(items[j], items[k]); }
    }
  }

  lemma UpdatePreservesWellFormed(items: seq<CartItem>, productId: int, power: string, q: int)
    requires WellFormed(items)
    ensures WellFormed(Updated(items, productId, power, q))
  {
    if q <= 0 {
      RemovePreservesWellFormed(items, productId, power);
    }
  }

  // ---------------------------------------------------------------------------
  // totalItems

  lemma {:induction false} TotalAppend(a: seq<CartItem>, b: seq<CartItem>)
    ensures Total(a + b) == Total(a) + Total(b)
  {
    if a != [] {
      assert (a + b)[0] == a[0] && (a + b)[1..] == a[1..] + b;
      TotalAppend(a[1..], b);
    } else {
      assert a + b == b;
    }
  }

  /** Replacing one entry changes the total by the difference of quantities. */
  lemma {:induction false} TotalReplace(items: seq<CartItem>, i: int, x: CartItem)
    requires 0 <= i < |items|
    ensures Total(items[i := x]) == Total(items) - items[i].quantity + x.quantity
  {
    if i > 0 {
      assert items[i := x][1..] == items[1..][i - 1 := x];
      TotalReplace(items[1..], i - 1, x);
    }
  }

  /** Every call of `addItem` raises the total by exactly 1. */
  lemma TotalAfterAdd(items: seq<CartItem>, product: Product, power: string)
    ensures Total(AddedItem(items, product, power)) == Total(items) + 1
  {
    var i := FindIndex(items, product.id, power);
    if i >= 0 {
      TotalReplace(items, i, items[i].(quantity := items[i].quantity + 1));
    } else {
      TotalAppend(items, [CartItem(product, power, 1)]);
    }
  }

  /** Removing a present key lowers the total by that entry's quantity. */
  lemma TotalAfterRemove(items: seq<CartItem>, productId: int, power: string, j: int)
    requires UniqueKeys(items)
    requires 0 <= j < |items| && HasKey(items[j], productId, power)
    ensures Total(Removed(items, productId, power)) == Total(items) - items[j].quantity
  {
    RemoveExistingKey(items, productId, power, j);
    assert items == items[..j] + [items[j]] + items[j + 1..];
    TotalAppend(items[..j] + [items[j]], items[j + 1..]);
    TotalAppend(items[..j], [items[j]]);
    TotalAppend(items[..j], items[j + 1..]);
  }

  /** Setting a present key to `q > 0` moves the total to match. */
  lemma TotalAfterUpdate(items: seq<CartItem>, productId: int, power: string, q: int, j: int)
    requires UniqueKeys(items)
    requires q > 0 && 0 <= j < |items| && HasKey(items[j], productId, power)
    ensures Total(Updated(items, productId, power, q)) == Total(items) - items[j].quantity + q
  {
    UpdateExistingKey(items, productId, power, q, j);
    TotalReplace(items, j, items[j].(quantity := q));
  }

  // ---------------------------------------------------------------------------
  // The cart state cell

  class CartStore {
    var items: seq<CartItem>

    predicate Valid()
      reads this
    {
      WellFormed(items)
    }

    function TotalItems(): int
      reads this
    {
      Total(items)
    }

    constructor ()
      ensures items == [] && Valid()
    {
      items := [];
    }

    method AddItem(product: Product, power: string)
      modifies this
      ensures items == AddedItem(old(items), product, power)
      ensures old(Valid()) ==> Valid()
      ensures TotalItems() == old(TotalItems()) + 1
    {
      if Valid() { AddPreservesWellFormed(items, product, power); }
      TotalAfterAdd(items, product, power);
      var existing := FindIndex(items, product.id, power);
      if existing >= 0 {
        var updated := items;
        updated := updated[existing := updated[existing].(quantity := updated[existing].quantity + 1)];
        items := updated;
      } else {
        items := items + [CartItem(product, power, 1)];
      }
    }

    method RemoveItem(productId: int, power: string)
      modifies this
      ensures items == Removed(old(items), productId, power)
      ensures old(Valid()) ==> Valid()
    {
      if Valid() { RemovePreservesWellFormed(items, productId, power); }
      items := Removed(items, productId, power);
    }

    method UpdateQuantity(productId: int, power: string, quantity: int)
      modifies this
      ensures items == Updated(old(items), productId, power, quantity)
      ensures old(Valid()) ==> Valid()
    {
      if Valid() { UpdatePreservesWellFormed(items, productId, power, quantity); }
      if quantity <= 0 {
        RemoveItem(productId, power);
        return;
      }
      items := WithQuantity(items, productId, power, quantity);
    }

    method ClearCart()
      modifies this
      ensures items == [] && Valid() && TotalItems() == 0
    {
      items := [];
    }
  }
}
