/**
 * The money rule shared by the cart page, the cart drawer and checkout:
 * subtotal is the sum of `price * quantity` over the entries, shipping is
 * free above ₹1000 and ₹100 otherwise, and total is their sum.
 */
module Money {
  import opened Wrappers
  import opened JsNumber
  import opened Entities
  import opened Seqs
  import opened Cart

  const FreeShippingAbove := 1000
  const ShippingFee := 100

  /** `item.price`; an entry without a product has no price (`undefined`). */
  function UnitPrice(l: CartLine): Num {
    if l.item.Some? then Num(l.item.value.price) else NaN
  }

  /** `item.price * item.quantity`. */
  function LineTotal(l: CartLine): Num {
    Mul(UnitPrice(l), Num(l.quantity))
  }

  /** `cartItems.reduce((sum, item) => sum + item.price * item.quantity, 0)`; one entry without a price makes it `NaN`. */
  function Subtotal(lines: seq<CartLine>): (r: Num)
    ensures r.NaN? <==> exists i :: 0 <= i < |lines| && lines[i].item.None?
  {
    if lines == [] then Num(0)
    else
      var n := |lines| - 1;
      assert forall i :: 0 <= i < n ==> lines[..n][i] == lines[i];
      Add(Subtotal(lines[..n]), LineTotal(lines[n]))
  }

  /** `subtotal > 1000 ? 0 : 100`; a `NaN` subtotal is not above the threshold. */
  function Shipping(subtotal: Num): (r: int)
    ensures r == 0 <==> Gt(subtotal, FreeShippingAbove)
    ensures r == 0 || r == ShippingFee
  {
    if Gt(subtotal, FreeShippingAbove) then 0 else ShippingFee
  }

  function Total(subtotal: Num): (r: Num)
    ensures subtotal.Num? ==> r == Num(subtotal.v + Shipping(subtotal))
    ensures subtotal.NaN? ==> r.NaN?
  {
    Add(subtotal, Num(Shipping(subtotal)))
  }

  lemma SubtotalAppend(lines: seq<CartLine>, l: CartLine)
    ensures Subtotal(lines + [l]) == Add(Subtotal(lines), LineTotal(l))
  {
    assert (lines + [l])[..|lines|] == lines;
  }

  /** Replacing a priced entry changes the subtotal by the difference of the two line totals. */
  lemma {:induction false} SubtotalUpdate(lines: seq<CartLine>, i: nat, l: CartLine)
    requires i < |lines| && lines[i].item.Some?
    ensures Subtotal(lines[i := l]) == Add(Sub(Subtotal(lines), LineTotal(lines[i])), LineTotal(l))
    decreases |lines|
  {
    var u := lines[i := l];
    var n := |lines| - 1;
    if i < n {
      assert u[..n] == lines[..n][i := l];
      SubtotalUpdate(lines[..n], i, l);
    } else {
      assert u[..n] == lines[..n];
    }
  }

  /** One more unit of a priced entry adds its unit price to the subtotal. */
  lemma {:induction false} OneMoreUnit(lines: seq<CartLine>, i: nat)
    requires i < |lines| && lines[i].item.Some?
    ensures Subtotal(lines[i := lines[i].(quantity := lines[i].quantity + 1)]) == Add(Subtotal(lines), UnitPrice(lines[i]))
  {
    var l := lines[i];
    var m := l.(quantity := l.quantity + 1);
    SubtotalUpdate(lines, i, m);
    var price := l.item.value.price;
    var before := Subtotal(lines);
    assert LineTotal(l) == Num(price * l.quantity);
    assert LineTotal(m) == Num(price * (l.quantity + 1));
    if before.Num? {
      assert price * (l.quantity + 1) == price * l.quantity + price;
    }
  }

  /** Adding a product to the cart raises the subtotal by one unit price: the stored snapshot's, or the product's when new. */
  lemma {:induction false} AddToCartRaisesSubtotal(lines: seq<CartLine>, p: Product)
    ensures Subtotal(Incremented(lines, p)) == Add(Subtotal(lines),
      match IndexOfKey(lines, LineKey, Some(p.id))
      case Some(i) => UnitPrice(lines[i])
      case None => Num(p.price))
  {
    match IndexOfKey(lines, LineKey, Some(p.id))
    case Some(i) =>
      OneMoreUnit(lines, i);
    case None =>
      SubtotalAppend(lines, CartLine(Some(p), 1));
  }

  /** Crossing the threshold lowers the total: ₹1001 of goods cost less than ₹1000 of goods. */
  lemma ThresholdLowersTotal()
    ensures Total(Num(1001)).v < Total(Num(1000)).v
  {
  }
}
