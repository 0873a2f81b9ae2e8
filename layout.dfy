/**
 * The page layout that owns the in-memory cart and comparison lists, calls
 * the services, and mirrors each change into its own state.
 */
module Layout {
  import opened Wrappers
  import opened Storage
  import opened Seqs
  import opened Entities
  import opened Cart
  import opened Comparison

  /** `prevItems.map(item => item.Id === id ? {...item, quantity: q} : item)`. */
  function WithQuantity(lines: seq<CartLine>, id: int, q: int): seq<CartLine> {
    seq(|lines|, i requires 0 <= i < |lines| =>
      if LineKey(lines[i]) == Some(id) then lines[i].(quantity := q) else lines[i])
  }

  /** The in-memory list after `handleUpdateQuantity(id, q)`: exactly 0 removes, anything else is stored. */
  function QuantityUpdated(lines: seq<CartLine>, id: int, q: int): seq<CartLine> {
    if q == 0 then Removed(lines, id) else WithQuantity(lines, id, q)
  }

  /** The stored list after `handleUpdateQuantity(id, q)`. */
  function StoredQuantityUpdated(stored: seq<CartLine>, id: int, q: int): seq<CartLine> {
    if q == 0 then Removed(stored, id) else Upserted(stored, id, QuantityOnly(q))
  }

  /** A non-zero update touches only the quantity of entries with that `Id`; a negative quantity is kept. */
  lemma QuantityUpdateOnlyMatching(lines: seq<CartLine>, id: int, q: int)
    requires q != 0
    ensures var r := QuantityUpdated(lines, id, q);
      |r| == |lines| && forall i :: 0 <= i < |lines| ==>
        r[i].item == lines[i].item
        && r[i].quantity == if LineKey(lines[i]) == Some(id) then q else lines[i].quantity
  {
  }

  /** The in-memory list after `handleAddToCart(p)`. The existence check reads the IN-MEMORY list. */
  function AddedInMemory(lines: seq<CartLine>, p: Product): seq<CartLine> {
    match IndexOfKey(lines, LineKey, Some(p.id))
    case Some(i) => QuantityUpdated(lines, p.id, lines[i].quantity + 1)
    case None => lines + [CartLine(Some(p), 1)]
  }

  /** The stored list after `handleAddToCart(p)`, given the in-memory list that decided the branch. */
  function AddedInStorage(lines: seq<CartLine>, stored: seq<CartLine>, p: Product): seq<CartLine> {
    match IndexOfKey(lines, LineKey, Some(p.id))
    case Some(i) => StoredQuantityUpdated(stored, p.id, lines[i].quantity + 1)
    case None => Upserted(stored, p.id, WholeLine(CartLine(Some(p), 1)))
  }

  lemma {:induction false} WithQuantityAtUnique(lines: seq<CartLine>, id: int, q: int, i: nat)
    requires UniqueIds(lines) && i < |lines| && LineKey(lines[i]) == Some(id)
    ensures WithQuantity(lines, id, q) == lines[i := lines[i].(quantity := q)]
  {
    var r := WithQuantity(lines, id, q);
    forall j | 0 <= j < |lines| ensures r[j] == lines[i := lines[i].(quantity := q)][j] {
    }
  }

  /**
   * While the in-memory list equals the stored one and `Id`s are unique, the
   * layout's add agrees with the cart service's add in memory and in storage
   * (unless an entry holds the quantity -1, which the add turns into a removal).
   */
  lemma {:induction false} AddAgreesWithService(lines: seq<CartLine>, p: Product)
    requires UniqueIds(lines)
    requires forall i :: 0 <= i < |lines| && LineKey(lines[i]) == Some(p.id) ==> lines[i].quantity != -1
    ensures AddedInMemory(lines, p) == Incremented(lines, p)
    ensures AddedInStorage(lines, lines, p) == Incremented(lines, p)
  {
    match IndexOfKey(lines, LineKey, Some(p.id))
    case Some(i) =>
      WithQuantityAtUnique(lines, p.id, lines[i].quantity + 1, i);
    case None =>
  }

  /** A quantity update for an `Id` that only memory holds desynchronises the two lists. */
  lemma UpdateOfUnstoredIdDiverges(lines: seq<CartLine>, stored: seq<CartLine>, id: int, q: int)
    requires q != 0 && |lines| == |stored| && !HasKey(stored, LineKey, Some(id))
    ensures |StoredQuantityUpdated(stored, id, q)| == |QuantityUpdated(lines, id, q)| + 1
  {
  }

  class Shop {
    const cart: CartStore
    const compare: CompareStore
    var cartItems: seq<CartLine>
    var compareItems: seq<Product>

    /** Mounting loads both lists from their services (`loadCartItems`, `loadCompareItems`). */
    constructor (cart: CartStore, compare: CompareStore)
      ensures this.cart == cart && this.compare == compare
      ensures cartItems == cart.Items() && compareItems == compare.Items()
    {
      this.cart := cart;
      this.compare := compare;
      cartItems := cart.Items();
      compareItems := compare.Items();
    }

    /** The header badge: the sum of quantities. */
    function CartItemCount(): int
      reads this
    {
      ItemCount(cartItems)
    }

    function CompareCount(): nat
      reads this
    {
      |compareItems|
    }

    method HandleRemoveItem(id: int)
      modifies this`cartItems, cart`slot
      ensures cartItems == Removed(old(cartItems), id)
      ensures cart.slot == AfterWrite(old(cart.slot), Removed(old(cart.Items()), id), cart.writesFail)
    {
      var _ := cart.RemoveFromCart(id);
      cartItems := Removed(cartItems, id);
    }

    method HandleUpdateQuantity(id: int, q: int)
      modifies this`cartItems, cart`slot
      ensures cartItems == QuantityUpdated(old(cartItems), id, q)
      ensures cart.slot == AfterWrite(old(cart.slot), StoredQuantityUpdated(old(cart.Items()), id, q), cart.writesFail)
      ensures q == 0 ==> cartItems == Removed(old(cartItems), id)
    {
      if q == 0 {
        HandleRemoveItem(id);
        return;
      }
      var _ := cart.UpdateCartItem(id, QuantityOnly(q));
      cartItems := WithQuantity(cartItems, id, q);
    }

    method HandleAddToCart(p: Product)
      modifies this`cartItems, cart`slot
      ensures cartItems == AddedInMemory(old(cartItems), p)
      ensures cart.slot == AfterWrite(old(cart.slot), AddedInStorage(old(cartItems), old(cart.Items()), p), cart.writesFail)
    {
      var existing := IndexOfKey(cartItems, LineKey, Some(p.id));
      if existing.Some? {
        HandleUpdateQuantity(p.id, cartItems[existing.value].quantity + 1);
      } else {
        var newItem := CartLine(Some(p), 1);
        var _ := cart.UpdateCartItem(p.id, WholeLine(newItem));
        cartItems := cartItems + [newItem];
      }
    }

    /** The service result is returned unchanged; the list is replaced only on success. */
    method HandleAddToCompare(p: Product) returns (r: CompareResult)
      modifies this`compareItems, compare`slot
      ensures r == AddResult(old(compare.Items()), p, compare.writesFail)
      ensures compareItems == if r.success then r.items.value else old(compareItems)
      ensures compare.slot == if r.success then Stored(r.items.value) else old(compare.slot)
    {
      r := compare.AddToCompare(p);
      if r.success {
        compareItems := r.items.value;
      }
    }

    method HandleRemoveFromCompare(id: int) returns (r: CompareResult)
      modifies this`compareItems, compare`slot
      ensures r == RemoveResult(old(compare.Items()), id, compare.writesFail)
      ensures compareItems == if r.success then r.items.value else old(compareItems)
      ensures compare.slot == if r.success then Stored(r.items.value) else old(compare.slot)
    {
      r := compare.RemoveFromCompare(id);
      if r.success {
        compareItems := r.items.value;
      }
    }
  }
}
