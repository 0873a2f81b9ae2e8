/**
 * The cart service: the list of cart entries kept under one storage key,
 * read on every call, changed on a copy and written back whole.
 */
module Cart {
  import opened Wrappers
  import opened Storage
  import opened Seqs
  import opened Entities

  /** No two entries that carry a product share an `Id`. */
  ghost predicate UniqueIds(lines: seq<CartLine>) {
    forall i, j :: 0 <= i < j < |lines| && lines[i].item.Some? && lines[j].item.Some? ==>
      lines[i].item.value.id != lines[j].item.value.id
  }

  /** The badge count: `reduce((sum, item) => sum + item.quantity, 0)`. */
  function ItemCount(lines: seq<CartLine>): int {
    if lines == [] then 0 else ItemCount(lines[..|lines| - 1]) + lines[|lines| - 1].quantity
  }

  lemma {:induction false} ItemCountAppend(lines: seq<CartLine>, l: CartLine)
    ensures ItemCount(lines + [l]) == ItemCount(lines) + l.quantity
  {
    assert (lines + [l])[..|lines|] == lines;
  }

  /** Changing one entry's quantity by `d` changes the total by `d`. */
  lemma {:induction false} ItemCountUpdate(lines: seq<CartLine>, i: nat, q: int)
    requires i < |lines|
    ensures ItemCount(lines[i := lines[i].(quantity := q)]) == ItemCount(lines) - lines[i].quantity + q
    decreases |lines|
  {
    var u := lines[i := lines[i].(quantity := q)];
    var n := |lines| - 1;
    if i < n {
      assert u[..n] == lines[..n][i := lines[i].(quantity := q)];
      ItemCountUpdate(lines[..n], i, q);
    } else {
      assert u[..n] == lines[..n];
    }
  }

  /** The list `addToCart(product)` builds: bump the first entry with that `Id`, or append `{...product, quantity: 1}`. */
  function Incremented(lines: seq<CartLine>, p: Product): seq<CartLine> {
    match IndexOfKey(lines, LineKey, Some(p.id))
    case Some(i) => lines[i := lines[i].(quantity := lines[i].quantity + 1)]
    case None => lines + [CartLine(Some(p), 1)]
  }

  /** An existing entry gains one unit; the length and every other entry stay as they were. */
  lemma IncrementExisting(lines: seq<CartLine>, p: Product, i: nat)
    requires IndexOfKey(lines, LineKey, Some(p.id)) == Some(i)
    ensures |Incremented(lines, p)| == |lines|
    ensures Incremented(lines, p)[i].quantity == lines[i].quantity + 1
    ensures Incremented(lines, p)[i].item == lines[i].item
    ensures forall j :: 0 <= j < |lines| && j != i ==> Incremented(lines, p)[j] == lines[j]
  {
  }

  /** A product not yet in the cart is appended with quantity 1. */
  lemma IncrementNew(lines: seq<CartLine>, p: Product)
    requires !HasKey(lines, LineKey, Some(p.id))
    ensures Incremented(lines, p) == lines + [CartLine(Some(p), 1)]
  {
  }

  /** Every add raises the unit count by exactly one. */
  lemma IncrementCount(lines: seq<CartLine>, p: Product)
    ensures ItemCount(Incremented(lines, p)) == ItemCount(lines) + 1
  {
    match IndexOfKey(lines, LineKey, Some(p.id))
    case Some(i) => ItemCountUpdate(lines, i, lines[i].quantity + 1);
    case None => ItemCountAppend(lines, CartLine(Some(p), 1));
  }

  /** Adding never creates a second entry for an `Id`. */
  lemma IncrementKeepsIdsUnique(lines: seq<CartLine>, p: Product)
    requires UniqueIds(lines)
    ensures UniqueIds(Incremented(lines, p))
  {
    var r := Incremented(lines, p);
    if !HasKey(lines, LineKey, Some(p.id)) {
      forall i, j | 0 <= i < j < |r| && r[i].item.Some? && r[j].item.Some?
        ensures r[i].item.value.id != r[j].item.value.id
      {
        if j == |lines| {
          assert LineKey(lines[i]) != Some(p.id);
        }
      }
    }
  }

  /** Adding the same new product twice gives ONE entry of quantity 2 and two units. */
  lemma AddTwice(lines: seq<CartLine>, p: Product)
    requires !HasKey(lines, LineKey, Some(p.id))
    ensures var r := Incremented(Incremented(lines, p), p);
      |r| == |lines| + 1 && r[|lines|] == CartLine(Some(p), 2)
      && r[..|lines|] == lines && ItemCount(r) == ItemCount(lines) + 2
  {
    var once := Incremented(lines, p);
    IncrementNew(lines, p);
    assert LineKey(once[|lines|]) == Some(p.id);
    var k := IndexOfKey(once, LineKey, Some(p.id)).value;
    assert k == |lines|;
    var twice := Incremented(once, p);
    assert twice == lines + [CartLine(Some(p), 2)];
    ItemCountAppend(lines, CartLine(Some(p), 2));
    ItemCountAppend(lines, CartLine(Some(p), 1));
    IncrementCount(once, p);
  }

  /** The list `updateCartItem(id, updates)` builds: merge into the first match, or push `updates` as it is. */
  function Upserted(lines: seq<CartLine>, id: int, u: CartPatch): seq<CartLine> {
    match IndexOfKey(lines, LineKey, Some(id))
    case Some(i) => lines[i := MergeLine(lines[i], u)]
    case None => lines + [LineOf(u)]
  }

  /** On a present `Id` only that index changes; on an absent one the patch is appended unmerged. */
  lemma UpsertShape(lines: seq<CartLine>, id: int, u: CartPatch)
    ensures HasKey(lines, LineKey, Some(id)) ==>
      var i := IndexOfKey(lines, LineKey, Some(id)).value;
      |Upserted(lines, id, u)| == |lines| && Upserted(lines, id, u)[i] == MergeLine(lines[i], u)
      && forall j :: 0 <= j < |lines| && j != i ==> Upserted(lines, id, u)[j] == lines[j]
    ensures !HasKey(lines, LineKey, Some(id)) ==> Upserted(lines, id, u) == lines + [LineOf(u)]
  {
  }

  /** A quantity-only update of a missing `Id` appends an entry with no product at all. */
  lemma UpsertMissingQuantityOnly(lines: seq<CartLine>, id: int, q: int)
    requires !HasKey(lines, LineKey, Some(id))
    ensures var r := Upserted(lines, id, QuantityOnly(q));
      r[|r| - 1] == CartLine(None, q) && LineKey(r[|r| - 1]) == None
  {
  }

  /** `filter(item => item.Id !== productId)`. */
  function Removed(lines: seq<CartLine>, id: int): (r: seq<CartLine>)
    ensures !HasKey(r, LineKey, Some(id))
    ensures IsSubsequence(r, lines)
    ensures forall l {:trigger multiset(r)[l]} :: multiset(r)[l] == if LineKey(l) == Some(id) then 0 else multiset(lines)[l]
  {
    WithoutKey(lines, LineKey, Some(id))
  }

  class CartStore {
    var slot: Slot<seq<CartLine>>
    /** Whether `localStorage.setItem` throws (for example, storage quota exceeded). */
    var writesFail: bool

    constructor (slot0: Slot<seq<CartLine>>, writesFail0: bool)
      ensures slot == slot0 && writesFail == writesFail0
    {
      slot := slot0;
      writesFail := writesFail0;
    }

    /** `getCartFromStorage`: a missing key or an unreadable value is the empty cart. */
    function Items(): (r: seq<CartLine>)
      reads this
      ensures slot.Stored? ==> r == slot.value
      ensures slot.Missing? || slot.Unreadable? ==> r == []
    {
      ReadOr(slot, [])
    }

    /** `saveCartToStorage`: a failing write is logged and swallowed. */
    method Save(lines: seq<CartLine>)
      modifies this`slot
      ensures slot == AfterWrite(old(slot), lines, writesFail)
      ensures !writesFail ==> Items() == lines
    {
      if !writesFail {
        slot := Stored(lines);
      }
    }

    method AddToCart(p: Product) returns (r: seq<CartLine>)
      modifies this`slot
      ensures r == Incremented(old(Items()), p)
      ensures slot == AfterWrite(old(slot), r, writesFail)
    {
      r := Items();
      var existing := IndexOfKey(r, LineKey, Some(p.id));
      if existing.Some? {
        var i := existing.value;
        r := r[i := r[i].(quantity := r[i].quantity + 1)];
      } else {
        r := r + [CartLine(Some(p), 1)];
      }
      Save(r);
    }

    method UpdateCartItem(id: int, u: CartPatch) returns (r: seq<CartLine>)
      modifies this`slot
      ensures r == Upserted(old(Items()), id, u)
      ensures slot == AfterWrite(old(slot), r, writesFail)
    {
      r := Items();
      var index := IndexOfKey(r, LineKey, Some(id));
      if index.Some? {
        r := r[index.value := MergeLine(r[index.value], u)];
      } else {
        r := r + [LineOf(u)];
      }
      Save(r);
    }

    method RemoveFromCart(id: int) returns (r: seq<CartLine>)
      modifies this`slot
      ensures r == Removed(old(Items()), id)
      ensures slot == AfterWrite(old(slot), r, writesFail)
    {
      r := Removed(Items(), id);
      Save(r);
    }

    /** `clearCart`: the key is removed, so the next read is the empty cart. */
    method ClearCart() returns (r: seq<CartLine>)
      modifies this`slot
      ensures r == [] && slot == Missing && Items() == []
    {
      slot := Missing;
      r := [];
    }

    /** `getCartItemCount`: units, not entries. */
    function GetCartItemCount(): int
      reads this
    {
      ItemCount(Items())
    }
  }
}
