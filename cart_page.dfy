/**
 * The rules of the cart page and the cart drawer beyond the shared money
 * rule: the free-shipping hint, the quantity step buttons, the entry count
 * label and the drawer's checkout guard.
 */
module CartPage {
  import opened Wrappers
  import opened JsNumber
  import opened Entities
  import opened Cart
  import opened Layout
  import opened Money

  /** The hint as written: shown while shipping is charged, asking for `1000 - subtotal` more. */
  function FreeShippingHintAsWritten(subtotal: Num): Option<Num> {
    if Shipping(subtotal) > 0 then Some(Sub(Num(FreeShippingAbove), subtotal)) else None
  }

  /** Adding exactly the amount the written hint asks for never makes shipping free. */
  lemma HintAsWrittenNeverSuffices(s: int)
    requires Shipping(Num(s)) > 0
    ensures Shipping(Add(Num(s), FreeShippingHintAsWritten(Num(s)).value)) == ShippingFee
  {
  }

  /** At a subtotal of exactly ₹1000 the written hint reads "Add ₹0 more" while ₹100 shipping is charged. */
  lemma HintAsWrittenAtThreshold()
    ensures FreeShippingHintAsWritten(Num(1000)) == Some(Num(0)) && Shipping(Num(1000)) == ShippingFee
  {
  }

  /** The hint: shown exactly while shipping is charged, asking for the least whole-rupee amount that makes it free. */
  function FreeShippingHint(subtotal: Num): (r: Option<Num>)
    ensures r.Some? <==> Shipping(subtotal) == ShippingFee
    ensures subtotal.Num? && r.Some? ==> r.value.Num? && r.value.v >= 1
  {
    if Shipping(subtotal) > 0 then Some(Sub(Num(FreeShippingAbove + 1), subtotal)) else None
  }

  /** Adding the hinted amount makes shipping free, and any smaller amount does not. */
  lemma HintIsLeastSufficient(s: int, a: int)
    requires Shipping(Num(s)) > 0
    ensures var h := FreeShippingHint(Num(s)).value;
      Shipping(Add(Num(s), h)) == 0 && (a < h.v ==> Shipping(Add(Num(s), Num(a))) == ShippingFee)
  {
  }

  /** The minus button: `Math.max(0, quantity - 1)`, never negative. */
  function DecrementRequest(q: int): (r: int)
    ensures r >= 0
    ensures q >= 1 ==> r == q - 1
    ensures q <= 1 ==> r == 0
  {
    if q - 1 > 0 then q - 1 else 0
  }

  /** The plus button: `quantity + 1`. */
  function IncrementRequest(q: int): int {
    q + 1
  }

  /** On a positive quantity the two buttons undo each other. */
  lemma StepsUndoEachOther(q: int)
    requires q >= 1
    ensures DecrementRequest(IncrementRequest(q)) == q && IncrementRequest(DecrementRequest(q)) == q
  {
  }

  /** The minus button on a quantity of 1 requests 0, which the layout turns into removing the entry. */
  lemma DecrementFromOneRemoves(lines: seq<CartLine>, id: int)
    ensures QuantityUpdated(lines, id, DecrementRequest(1)) == Removed(lines, id)
  {
  }

  /** The "(n items)" label: the number of entries. */
  function ItemsLabel(lines: seq<CartLine>): nat {
    |lines|
  }

  /** The label agrees with the header badge only when every entry holds one unit. */
  lemma {:induction false} LabelMatchesBadgeForSingleUnits(lines: seq<CartLine>)
    requires forall i :: 0 <= i < |lines| ==> lines[i].quantity == 1
    ensures ItemsLabel(lines) == ItemCount(lines)
  {
    if lines != [] {
      LabelMatchesBadgeForSingleUnits(lines[..|lines| - 1]);
    }
  }

  lemma LabelDiffersFromBadge(p: Product)
    ensures ItemsLabel([CartLine(Some(p), 2)]) == 1 && ItemCount([CartLine(Some(p), 2)]) == 2
  {
    assert [CartLine(Some(p), 2)][..0] == [];
  }
}

/** The cart drawer's checkout button. */
module CartDrawer {
  import opened Entities

  const EmptyCartMessage := "Your cart is empty"

  datatype DrawerAction = Refused(message: string) | CloseAndNavigate(path: string)

  /** An empty cart is refused with a message and the drawer stays open; otherwise it closes and goes to checkout. */
  function CheckoutAction(lines: seq<CartLine>): (r: DrawerAction)
    ensures r.Refused? <==> lines == []
    ensures r.Refused? ==> r.message == EmptyCartMessage
    ensures r.CloseAndNavigate? ==> r.path == "/checkout"
  {
    if |lines| == 0 then Refused(EmptyCartMessage) else CloseAndNavigate("/checkout")
  }
}
