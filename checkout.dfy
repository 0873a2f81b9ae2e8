/**
 * The checkout page: the delivery form and its validation, the input handler,
 * and placing the order from the cart.
 */
module Checkout {
  import opened Wrappers
  import opened JsNumber
  import opened Seqs
  import opened Text
  import opened Entities
  import opened Validation
  import opened Cart
  import opened Money
  import opened Orders
  import opened Numerals

  datatype Field = FullName | Email | Phone | Address | City | State | Pincode | Country

  const FullNameRequired := "Full name is required"
  const EmailRequired := "Email is required"
  const EmailInvalid := "Email is invalid"
  const PhoneRequired := "Phone number is required"
  const PhoneInvalid := "Phone number must be 10 digits"
  const AddressRequired := "Address is required"
  const CityRequired := "City is required"
  const StateRequired := "State is required"
  const PincodeRequired := "Pincode is required"
  const PincodeInvalid := "Pincode must be 6 digits"

  /** The form's starting values: everything empty except the country. */
  function InitialDelivery(): DeliveryInfo {
    DeliveryInfo("", "", "", "", "", "", "", "India")
  }

  function FieldValue(d: DeliveryInfo, f: Field): string {
    match f
    case FullName => d.fullName
    case Email => d.email
    case Phone => d.phone
    case Address => d.address
    case City => d.city
    case State => d.state
    case Pincode => d.pincode
    case Country => d.country
  }

  /** `{...prev, [field]: value}`. */
  function WithField(d: DeliveryInfo, f: Field, v: string): (r: DeliveryInfo)
    ensures forall g :: FieldValue(r, g) == if g == f then v else FieldValue(d, g)
  {
    match f
    case FullName => d.(fullName := v)
    case Email => d.(email := v)
    case Phone => d.(phone := v)
    case Address => d.(address := v)
    case City => d.(city := v)
    case State => d.(state := v)
    case Pincode => d.(pincode := v)
    case Country => d.(country := v)
  }

  /** What the form accepts, field by field; the country is not checked. */
  predicate FieldOk(d: DeliveryInfo, f: Field) {
    match f
    case FullName => !IsBlank(d.fullName)
    case Email => !IsBlank(d.email) && EmailShaped(d.email)
    case Phone => !IsBlank(d.phone) && PhoneValid(d.phone)
    case Address => !IsBlank(d.address)
    case City => !IsBlank(d.city)
    case State => !IsBlank(d.state)
    case Pincode => !IsBlank(d.pincode) && PincodeValid(d.pincode)
    case Country => true
  }

  predicate DeliveryValid(d: DeliveryInfo) {
    forall f :: FieldOk(d, f)
  }

  /**
   * The message `validateForm` records for one field: the required check on
   * the trimmed value first, and the format check only when that passes.
   */
  function FieldError(d: DeliveryInfo, f: Field): Option<string> {
    match f
    case FullName => if Trim(d.fullName) == [] then Some(FullNameRequired) else None
    case Email =>
      if Trim(d.email) == [] then Some(EmailRequired)
      else if !EmailShaped(d.email) then Some(EmailInvalid) else None
    case Phone =>
      if Trim(d.phone) == [] then Some(PhoneRequired)
      else if !PhoneValid(d.phone) then Some(PhoneInvalid) else None
    case Address => if Trim(d.address) == [] then Some(AddressRequired) else None
    case City => if Trim(d.city) == [] then Some(CityRequired) else None
    case State => if Trim(d.state) == [] then Some(StateRequired) else None
    case Pincode =>
      if Trim(d.pincode) == [] then Some(PincodeRequired)
      else if !PincodeValid(d.pincode) then Some(PincodeInvalid) else None
    case Country => None
  }

  /** A field has no message exactly when it passes its rule. */
  lemma FieldErrorIffOk(d: DeliveryInfo, f: Field)
    ensures FieldError(d, f).None? <==> FieldOk(d, f)
  {
  }

  /** The message each field gets when it is blank. */
  function RequiredMessage(f: Field): string {
    match f
    case FullName => FullNameRequired
    case Email => EmailRequired
    case Phone => PhoneRequired
    case Address => AddressRequired
    case City => CityRequired
    case State => StateRequired
    case Pincode => PincodeRequired
    case Country => ""
  }

  /** A blank field gets only its required message; the format message is reserved for a filled-in field. */
  lemma RequiredBeforeFormat(d: DeliveryInfo, f: Field)
    requires f != Country
    ensures IsBlank(FieldValue(d, f)) <==> FieldError(d, f) == Some(RequiredMessage(f))
  {
    match f
    case FullName => BlankIffTrimmedEmpty(d.fullName);
    case Email => BlankIffTrimmedEmpty(d.email); assert |EmailInvalid| != |EmailRequired|;
    case Phone => BlankIffTrimmedEmpty(d.phone); assert |PhoneInvalid| != |PhoneRequired|;
    case Address => BlankIffTrimmedEmpty(d.address);
    case City => BlankIffTrimmedEmpty(d.city);
    case State => BlankIffTrimmedEmpty(d.state);
    case Pincode => BlankIffTrimmedEmpty(d.pincode); assert |PincodeInvalid| != |PincodeRequired|;
    case Country =>
  }

  /** A value is blank exactly when trimming leaves nothing. */
  lemma BlankIffTrimmedEmpty(s: string)
    ensures IsBlank(s) <==> Trim(s) == []
  {
  }

  /** A phone number is accepted exactly when ten digits remain after dropping everything else. */
  lemma PhoneRule(d: DeliveryInfo)
    ensures FieldOk(d, Phone) <==> |DigitsOnly(d.phone)| == 10
  {
    DigitsMeanNotBlank(d.phone);
  }

  lemma DigitsMeanNotBlank(s: string)
    ensures |DigitsOnly(s)| > 0 ==> !IsBlank(s)
  {
    var r := DigitsOnly(s);
    if |r| > 0 {
      assert multiset(r)[r[0]] == multiset(s)[r[0]];
    }
  }

  /** `item.Id`, `item.quantity`, `item.price`, `item.name`; an entry without a product has no `Id`, price or name. */
  function OrderItemOf(l: CartLine): OrderItem {
    match l.item
    case Some(p) => OrderItem(Some(p.id), l.quantity, Some(p.price), Some(p.name))
    case None => OrderItem(None, l.quantity, None, None)
  }

  /** `cartItems.map(...)`: one order line per cart entry, in cart order. */
  function OrderItems(lines: seq<CartLine>): (r: seq<OrderItem>)
    ensures |r| == |lines| && forall i :: 0 <= i < |lines| ==> r[i] == OrderItemOf(lines[i])
  {
    seq(|lines|, i requires 0 <= i < |lines| => OrderItemOf(lines[i]))
  }

  /** The `orderData` handed to `createOrder`. */
  function OrderDataFor(lines: seq<CartLine>, d: DeliveryInfo, paymentMethod: string): OrderData {
    OrderData(OrderItems(lines), Total(Subtotal(lines)), d, paymentMethod, "confirmed")
  }

  /** One step of `validateForm`: record the message `m` for `f`, if there is one. */
  function Record(e: map<Field, string>, f: Field, m: Option<string>): (r: map<Field, string>)
    ensures forall g :: g in r <==> g in e || (g == f && m.Some?)
    ensures forall g :: g in r ==> r[g] == if g == f && m.Some? then m.value else e[g]
  {
    if m.Some? then e[f := m.value] else e
  }

  /** Every field's message on the form `d`. */
  function Messages(d: DeliveryInfo): Field -> Option<string> {
    f => FieldError(d, f)
  }

  /** `e` holds exactly the fields that have a message, each with its message. */
  predicate ErrorsFor(e: map<Field, string>, d: DeliveryInfo) {
    forall f :: (f in e <==> FieldError(d, f).Some?) && (f in e ==> e[f] == FieldError(d, f).value)
  }

  /** The form is valid exactly when no message is recorded. */
  lemma NoErrorsIffValid(e: map<Field, string>, d: DeliveryInfo)
    requires ErrorsFor(e, d)
    ensures e == map[] <==> DeliveryValid(d)
  {
    if e == map[] {
      forall f ensures FieldOk(d, f) {
        assert f !in e;
        FieldErrorIffOk(d, f);
      }
    } else {
      var f :| f in e;
      FieldErrorIffOk(d, f);
    }
  }

  /** `e` holds the messages of exactly the fields in `done` that have one. */
  ghost predicate RecordedFor(e: map<Field, string>, msg: Field -> Option<string>, done: set<Field>) {
    forall f :: (f in e <==> f in done && msg(f).Some?) && (f in e ==> e[f] == msg(f).value)
  }

  lemma RecordStep(e: map<Field, string>, msg: Field -> Option<string>, done: set<Field>, f: Field)
    requires RecordedFor(e, msg, done)
    ensures RecordedFor(Record(e, f, msg(f)), msg, done + {f})
  {
  }

  /** Every field but the country has been checked, and the country never has a message. */
  lemma RecordedAll(e: map<Field, string>, d: DeliveryInfo, done: set<Field>)
    requires RecordedFor(e, Messages(d), done)
    requires FullName in done && Email in done && Phone in done && Address in done
    requires City in done && State in done && Pincode in done
    ensures ErrorsFor(e, d) && (e == map[] <==> DeliveryValid(d))
  {
    forall f ensures (f in e <==> FieldError(d, f).Some?) && (f in e ==> e[f] == FieldError(d, f).value) {
      assert Messages(d)(f) == FieldError(d, f);
      assert f == Country || f in done;
    }
    NoErrorsIffValid(e, d);
  }

  datatype PlaceOutcome = CartEmpty | FormInvalid | Placed(path: string)

  const ConfirmationPath := "/order-confirmation/"

  class CheckoutForm {
    var delivery: DeliveryInfo
    var paymentMethod: string
    var errors: map<Field, string>

    constructor ()
      ensures delivery == InitialDelivery() && paymentMethod == "cod" && errors == map[]
    {
      delivery := InitialDelivery();
      paymentMethod := "cod";
      errors := map[];
    }

    /** `validateForm`: records one message per failing field and reports whether none was recorded. */
    method ValidateForm() returns (ok: bool)
      modifies this`errors
      ensures ErrorsFor(errors, delivery)
      ensures ok <==> errors == map[]
      ensures ok <==> DeliveryValid(delivery)
    {
      var d := delivery;
      var e: map<Field, string> := map[];
      ghost var msg := Messages(d);
      ghost var done: set<Field> := {};
      RecordStep(e, msg, done, FullName);
      e, done := Record(e, FullName, FieldError(d, FullName)), done + {FullName};
      RecordStep(e, msg, done, Email);
      e, done := Record(e, Email, FieldError(d, Email)), done + {Email};
      RecordStep(e, msg, done, Phone);
      e, done := Record(e, Phone, FieldError(d, Phone)), done + {Phone};
      RecordStep(e, msg, done, Address);
      e, done := Record(e, Address, FieldError(d, Address)), done + {Address};
      RecordStep(e, msg, done, City);
      e, done := Record(e, City, FieldError(d, City)), done + {City};
      RecordStep(e, msg, done, State);
      e, done := Record(e, State, FieldError(d, State)), done + {State};
      RecordStep(e, msg, done, Pincode);
      e, done := Record(e, Pincode, FieldError(d, Pincode)), done + {Pincode};
      RecordedAll(e, d, done);
      errors := e;
      ok := e == map[];
    }

    /** `handleInputChange(field, value)`: sets the field and blanks its message if one is showing. */
    method InputChange(f: Field, v: string)
      modifies this`delivery, this`errors
      ensures delivery == WithField(old(delivery), f, v)
      ensures errors == if f in old(errors) && old(errors)[f] != [] then old(errors)[f := ""] else old(errors)
    {
      delivery := WithField(delivery, f, v);
      if f in errors && errors[f] != [] {
        errors := errors[f := ""];
      }
    }

    /**
     * `handlePlaceOrder`: an empty cart is refused before validation; an
     * invalid form is refused; otherwise the order is created and the page
     * goes to its confirmation.
     */
    method PlaceOrder(cart: seq<CartLine>, book: OrderBook) returns (r: PlaceOutcome)
      modifies this`errors, book
      ensures r.CartEmpty? <==> cart == []
      ensures cart == [] ==> errors == old(errors) && book.orders == old(book.orders)
      ensures cart != [] ==> (r == FormInvalid <==> !DeliveryValid(delivery))
      ensures cart != [] ==> ErrorsFor(errors, delivery)
      ensures r.CartEmpty? || r.FormInvalid? ==> book.orders == old(book.orders)
      ensures r.Placed? ==>
        var id := NextId(OrderIds(old(book.orders)));
        book.orders == old(book.orders) + [NewOrder(id, OrderDataFor(cart, delivery, paymentMethod))]
        && r.path == ConfirmationPath + IntToString(id)
    {
      if |cart| == 0 {
        return CartEmpty;
      }
      var ok := ValidateForm();
      if !ok {
        return FormInvalid;
      }
      var data := OrderDataFor(cart, delivery, paymentMethod);
      var order := book.CreateOrder(data);
      r := Placed(ConfirmationPath + IntToString(order.id));
    }
  }
}
