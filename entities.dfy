/**
 * The records the storefront passes around. Products, cart lines and orders
 * are keyed by their `Id` field. Prices are whole rupees; a rating is a
 * decimal between 0 and 5.
 */
module Entities {
  import opened Wrappers
  import opened JsNumber

  datatype Product = Product(
    id: int,
    name: string,
    description: string,
    category: string,
    brand: Option<string>,
    price: int,
    originalPrice: Option<int>,
    rating: Option<real>,
    reviewCount: int,
    inStock: bool,
    images: seq<string>,
    specifications: Option<map<string, string>>)

  function ProductId(p: Product): int { p.id }
  function ProductCategory(p: Product): string { p.category }

  /** The object spread `{...product, ...updates}`: every field present in `updates` wins. */
  datatype ProductPatch = ProductPatch(
    id: Option<int>,
    name: Option<string>,
    description: Option<string>,
    category: Option<string>,
    brand: Option<Option<string>>,
    price: Option<int>,
    originalPrice: Option<Option<int>>,
    rating: Option<Option<real>>,
    reviewCount: Option<int>,
    inStock: Option<bool>,
    images: Option<seq<string>>,
    specifications: Option<Option<map<string, string>>>)

  function MergeProduct(p: Product, u: ProductPatch): Product {
    Product(
      u.id.GetOr(p.id), u.name.GetOr(p.name), u.description.GetOr(p.description),
      u.category.GetOr(p.category), u.brand.GetOr(p.brand), u.price.GetOr(p.price),
      u.originalPrice.GetOr(p.originalPrice), u.rating.GetOr(p.rating),
      u.reviewCount.GetOr(p.reviewCount), u.inStock.GetOr(p.inStock),
      u.images.GetOr(p.images), u.specifications.GetOr(p.specifications))
  }

  /** The data given to `createProduct`; it may carry its own `Id`. */
  datatype ProductDraft = ProductDraft(
    id: Option<int>,
    name: string,
    description: string,
    category: string,
    brand: Option<string>,
    price: int,
    originalPrice: Option<int>,
    images: seq<string>,
    specifications: Option<map<string, string>>)

  /**
   * A cart entry `{...product, quantity}`. `item` is `None` for the entry that
   * `updateCartItem` appends when it is given only `{quantity}` for an `Id`
   * the stored cart does not hold: that entry has no `Id`, name or price.
   */
  datatype CartLine = CartLine(item: Option<Product>, quantity: int)

  /** The entry's `Id`; `None` stands for `undefined`, which equals no number. */
  function LineKey(l: CartLine): Option<int> {
    if l.item.Some? then Some(l.item.value.id) else None
  }

  /** The two shapes of `updates` the storefront passes to `updateCartItem`. */
  datatype CartPatch = QuantityOnly(quantity: int) | WholeLine(line: CartLine)

  /** `{...line, ...updates}`. */
  function MergeLine(l: CartLine, u: CartPatch): CartLine {
    match u
    case QuantityOnly(q) => l.(quantity := q)
    case WholeLine(w) => w
  }

  /** What `cartItems.push(updates)` appends. */
  function LineOf(u: CartPatch): CartLine {
    match u
    case QuantityOnly(q) => CartLine(None, q)
    case WholeLine(w) => w
  }

  datatype DeliveryInfo = DeliveryInfo(
    fullName: string, email: string, phone: string, address: string,
    city: string, state: string, pincode: string, country: string)

  /** One line of a placed order; fields copied from an entry without a product are `undefined`. */
  datatype OrderItem = OrderItem(productId: Option<int>, quantity: int, price: Option<int>, name: Option<string>)

  datatype Order = Order(
    id: int,
    items: seq<OrderItem>,
    total: Num,
    deliveryAddress: DeliveryInfo,
    paymentMethod: string,
    status: string)

  function OrderId(o: Order): int { o.id }
  function OrderStatus(o: Order): string { o.status }

  /** The argument of `createOrder`: an order without its `Id`. */
  datatype OrderData = OrderData(
    items: seq<OrderItem>,
    total: Num,
    deliveryAddress: DeliveryInfo,
    paymentMethod: string,
    status: string)

  datatype OrderPatch = OrderPatch(
    id: Option<int>,
    items: Option<seq<OrderItem>>,
    total: Option<Num>,
    deliveryAddress: Option<DeliveryInfo>,
    paymentMethod: Option<string>,
    status: Option<string>)

  function MergeOrder(o: Order, u: OrderPatch): Order {
    Order(
      u.id.GetOr(o.id), u.items.GetOr(o.items), u.total.GetOr(o.total),
      u.deliveryAddress.GetOr(o.deliveryAddress), u.paymentMethod.GetOr(o.paymentMethod),
      u.status.GetOr(o.status))
  }

  /** The user record the login page builds and the auth slice stores. */
  datatype User = User(email: string, name: string)
}
