/**
 * The order confirmation page: the order looked up from the URL, its padded
 * number, its payment label, its line totals and its summary.
 */
module Confirmation {
  import opened Wrappers
  import opened JsNumber
  import opened Seqs
  import opened Text
  import opened Entities
  import opened Cart
  import opened Money
  import opened Orders
  import opened Checkout
  import opened Numerals

  const NotFoundMessage := "Order not found"
  const FreeLabel := "Free"
  const FeeLabel := "₹100"

  /** The summary subtotal as written: taken back out of the total alone. */
  function DisplayedSubtotalAsWritten(total: Num): Num {
    Sub(total, Num(if Gt(total, FreeShippingAbove) then 0 else ShippingFee))
  }

  /** The shipping line as written, also read off the total. */
  function ShippingLabelAsWritten(total: Num): string {
    if Gt(total, FreeShippingAbove) then FreeLabel else FeeLabel
  }

  /**
   * For a checkout subtotal `s`, the written page shows `s` back only when
   * `s <= 900` or `s > 1000`, and calls shipping free whenever `s > 900`
   * although ₹100 was charged up to 1000.
   */
  lemma ReconstructionAsWritten(s: int)
    ensures DisplayedSubtotalAsWritten(Total(Num(s))) == Num(s) <==> s <= 900 || s > 1000
    ensures ShippingLabelAsWritten(Total(Num(s))) == FreeLabel <==> s > 900
    ensures Shipping(Num(s)) == 0 <==> s > 1000
  {
  }

  lemma ReconstructionCounterexample()
    ensures Shipping(Num(950)) == ShippingFee
    ensures DisplayedSubtotalAsWritten(Total(Num(950))) == Num(1050)
    ensures ShippingLabelAsWritten(Total(Num(950))) == FreeLabel
  {
  }

  /** `item.price * item.quantity` for one order line. */
  function ItemTotal(it: OrderItem): Num {
    Mul(if it.price.Some? then Num(it.price.value) else NaN, Num(it.quantity))
  }

  /** The subtotal recomputed from the order's own lines. */
  function ItemsSubtotal(items: seq<OrderItem>): Num {
    if items == [] then Num(0)
    else Add(ItemsSubtotal(items[..|items| - 1]), ItemTotal(items[|items| - 1]))
  }

  /** The order lines carry exactly the subtotal checkout charged for. */
  lemma {:induction false} ItemsSubtotalMatchesCart(cart: seq<CartLine>)
    ensures ItemsSubtotal(OrderItems(cart)) == Subtotal(cart)
  {
    if cart != [] {
      var n := |cart| - 1;
      assert OrderItems(cart)[..n] == OrderItems(cart[..n]);
      ItemsSubtotalMatchesCart(cart[..n]);
    }
  }

  function ShippingLabel(subtotal: Num): (r: string)
    ensures r == FreeLabel <==> Shipping(subtotal) == 0
  {
    if Shipping(subtotal) == 0 then FreeLabel else FeeLabel
  }

  /** An ASCII upper-cased string contains no lower-case `a`. */
  lemma UpperHasNoLowerA(m: string)
    ensures 'a' !in ToUpper(m)
  {
    var r := ToUpper(m);
    forall i | 0 <= i < |r| ensures r[i] != 'a' {
      assert r[i] == UpperChar(m[i]);
    }
  }

  /** `"cod"` reads "Cash on Delivery"; any other method is shown upper-cased, and never as that phrase. */
  function PaymentLabel(pm: string): (r: string)
    ensures r == "Cash on Delivery" <==> pm == "cod"
    ensures pm != "cod" ==> |r| == |pm| && forall i :: 0 <= i < |pm| ==> r[i] == UpperChar(pm[i])
  {
    if pm == "cod" then "Cash on Delivery"
    else
      UpperHasNoLowerA(pm);
      assert "Cash on Delivery"[1] == 'a';
      ToUpper(pm)
  }

  /** `order.Id.toString().padStart(8, "0")`. */
  function OrderNumber(id: int): (r: string)
    ensures var n := IntToString(id);
      |r| == (if |n| >= 8 then |n| else 8) && r[|r| - |n|..] == n && forall i :: 0 <= i < |r| - |n| ==> r[i] == '0'
    ensures id >= 0 ==> ParseInt(r) == Some(id)
  {
    assert id >= 0 ==> ParseInt(PadStart(IntToString(id), 8)) == Some(id) by {
      if id >= 0 {
        PaddedIdRoundTrip(id, 8);
      }
    }
    PadStart(IntToString(id), 8)
  }

  datatype Summary = Summary(
    orderNumber: string, payment: string, lineTotals: seq<Num>,
    subtotal: Num, shippingLabel: string, total: Num)

  datatype ConfirmationView = Failed(message: string) | Shown(summary: Summary)

  /**
   * The summary the model shows for an order. The subtotal and the shipping
   * line are the corrected ones, recomputed from the order's lines; the page as
   * written reads both off the total (`DisplayedSubtotalAsWritten`,
   * `ShippingLabelAsWritten`).
   */
  function SummaryOf(o: Order): Summary {
    var sub := ItemsSubtotal(o.items);
    Summary(OrderNumber(o.id), PaymentLabel(o.paymentMethod),
      seq(|o.items|, i requires 0 <= i < |o.items| => ItemTotal(o.items[i])),
      sub, ShippingLabel(sub), o.total)
  }

  /** An order placed at checkout is summarised with the subtotal, shipping and total checkout charged. */
  lemma SummaryMatchesCheckout(id: int, cart: seq<CartLine>, d: DeliveryInfo, paymentMethod: string)
    ensures var o := NewOrder(id, OrderDataFor(cart, d, paymentMethod));
      var s := SummaryOf(o);
      s.subtotal == Subtotal(cart) && s.total == Total(s.subtotal)
      && (s.shippingLabel == FreeLabel <==> Shipping(Subtotal(cart)) == 0)
  {
    ItemsSubtotalMatchesCart(cart);
  }

  /**
   * `loadOrder`: the route parameter goes through `parseInt` and the lookup;
   * `NaN` matches no order, so both failures read "Order not found".
   */
  function View(book: OrderBook, orderId: string): (r: ConfirmationView)
    reads book
    ensures r.Failed? <==> ParseInt(orderId).None? || !HasKey(book.orders, OrderId, ParseInt(orderId).value)
    ensures r.Failed? ==> r.message == NotFoundMessage
  {
    match ParseInt(orderId)
    case None => Failed(NotFoundMessage)
    case Some(n) =>
      match book.OrderById(n)
      case None => Failed(NotFoundMessage)
      case Some(o) => Shown(SummaryOf(o))
  }

  /** The page that checkout navigates to after placing an order shows that order. */
  lemma PlacedOrderIsShown(book: OrderBook, before: seq<Order>, o: Order)
    requires book.orders == before + [o] && o.id == NextId(OrderIds(before))
    ensures View(book, IntToString(o.id)) == Shown(SummaryOf(o))
  {
    IntToStringRoundTrip(o.id);
    assert !HasKey(before, OrderId, o.id) by {
      forall j | 0 <= j < |before| ensures OrderId(before[j]) != o.id {
        assert OrderIds(before)[j] == before[j].id;
      }
    }
    FoundAtEnd(before, o);
    assert book.OrderById(o.id) == Some(o);
  }

  lemma FoundAtEnd(before: seq<Order>, o: Order)
    requires !HasKey(before, OrderId, o.id)
    ensures IndexOfKey(before + [o], OrderId, o.id) == Some(|before|)
  {
    var all := before + [o];
    assert OrderId(all[|before|]) == o.id;
  }
}
