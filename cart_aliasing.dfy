/** The `addItem` state updater with the object identity the JavaScript code
    has: `[...prevItems]` copies the list but not its elements, so bumping
    `quantity` on the copy's element changes the very object the previous
    state holds. React's development-mode StrictMode calls every state updater
    twice on the same previous state, so the bump happens twice. The rest of
    the model uses the value-semantics updater `Cart.AddedItem`, which is what
    the code evidently means. */
module CartAliasing {
  /** A cart entry as a heap object: key fields fixed, quantity mutable. */
  class ItemCell {
    const productId: int
    const power: string
    var quantity: int

    constructor (productId: int, power: string, quantity: int)
      ensures this.productId == productId && this.power == power && this.quantity == quantity
    {
      this.productId := productId;
      this.power := power;
      this.quantity := quantity;
    }
  }

  /** `findIndex` over entry objects (it reads only the fixed key fields). */
  function FindCell(cells: seq<ItemCell>, productId: int, power: string): (i: int)
    ensures -1 <= i < |cells|
    ensures 0 <= i ==> cells[i].productId == productId && cells[i].power == power
    ensures 0 <= i ==> forall j :: 0 <= j < i ==> !(cells[j].productId == productId && cells[j].power == power)
    ensures i == -1 <==> forall j :: 0 <= j < |cells| ==> !(cells[j].productId == productId && cells[j].power == power)
  {
    if cells == [] then -1
    else if cells[0].productId == productId && cells[0].power == power then 0
    else
      var k := FindCell(cells[1..], productId, power);
      if k == -1 then -1 else k + 1
  }

  /** The updater as written: for a present key it returns a copy holding the
      same objects, after incrementing the matching object in place. */
  method AddItemUpdater(prev: seq<ItemCell>, productId: int, power: string) returns (next: seq<ItemCell>)
    modifies set c | c in prev
    ensures FindCell(prev, productId, power) >= 0 ==>
      next == prev
      && prev[FindCell(prev, productId, power)].quantity == old(prev[FindCell(prev, productId, power)].quantity) + 1
      && forall c :: c in prev && c != prev[FindCell(prev, productId, power)] ==> c.quantity == old(c.quantity)
    ensures FindCell(prev, productId, power) < 0 ==>
      |next| == |prev| + 1 && next[..|prev|] == prev && fresh(next[|prev|])
      && next[|prev|].productId == productId && next[|prev|].power == power && next[|prev|].quantity == 1
      && forall c :: c in prev ==> c.quantity == old(c.quantity)
  {
    var existingItemIndex := FindCell(prev, productId, power);
    if existingItemIndex >= 0 {
      var updatedItems := prev;
      updatedItems[existingItemIndex].quantity := updatedItems[existingItemIndex].quantity + 1;
      next := updatedItems;
    } else {
      var cell := new ItemCell(productId, power, 1);
      next := prev + [cell];
    }
  }

  /** StrictMode's double invocation of the updater on one previous state: the
      entry already in the cart ends up two units higher. */
  method StrictModeAddItem(prev: seq<ItemCell>, productId: int, power: string) returns (next: seq<ItemCell>)
    modifies set c | c in prev
    ensures FindCell(prev, productId, power) >= 0 ==>
      next == prev
      && next[FindCell(prev, productId, power)].quantity == old(prev[FindCell(prev, productId, power)].quantity) + 2
  {
    var discarded := AddItemUpdater(prev, productId, power);
    next := AddItemUpdater(prev, productId, power);
  }

  /** A cart holding one entry of quantity 1: adding the same product and power
      once under StrictMode leaves quantity 3 instead of 2. */
  method StrictModeCounterexample() returns (quantity: int)
    ensures quantity == 3
  {
    var cell := new ItemCell(1, "-1.00", 1);
    var next := StrictModeAddItem([cell], 1, "-1.00");
    quantity := next[0].quantity;
  }
}
