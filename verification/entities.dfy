/**
 * The records the storefront pages exchange with the remote store:
 * cart lines, product data, shipping addresses, order payloads, and the
 * remote calls a page issues together with their possible outcomes.
 */
module Entities {
  import opened Common

  /**
   * What a cart line holds in its `product` field. The server normally
   * populates it with the product document (which may lack `_id` or
   * `price`); it may also be a bare identifier or missing altogether.
   */
  datatype ProductRef =
    | Populated(id: Option<string>, price: Option<real>)
    | BareId(raw: string)
    | Absent

  /** One line of the cart: a product reference and a quantity. */
  datatype CartLine = CartLine(product: ProductRef, quantity: int)

  /** Stock data of a product; stock is never negative. */
  datatype Inventory = Inventory(quantity: nat, allowOutOfStockPurchase: bool)

  datatype Image = Image(url: string, alt: string)

  /** The product document shown on the product page. */
  datatype Product = Product(
    name: string,
    featuredImage: string,
    images: Option<seq<Image>>,
    inventory: Inventory)

  /** The checkout form's shipping fields, sent verbatim with an order. */
  datatype ShippingAddress = ShippingAddress(
    name: string,
    street: string,
    city: string,
    country: string,
    zipCode: string,
    phone: string)

  /** The `product` field of an order item: an identifier, or the line's raw reference. */
  datatype ItemProduct = ById(id: string) | AsGiven(ref: ProductRef)

  datatype OrderItem = OrderItem(product: ItemProduct, quantity: int)

  /** The body of the order-creation request. */
  datatype OrderData = OrderData(
    items: seq<OrderItem>,
    shippingAddress: ShippingAddress,
    paymentMethod: string,
    shippingMethod: string,
    notes: string)

  /** The order the server reports as created. */
  datatype OrderRecord = OrderRecord(id: string)

  /** A request a page sends to the remote store. */
  datatype RemoteCall =
    | GetCart
    | UpdateCartLine(lineProduct: Option<string>, newQuantity: int)
    | RemoveCartLine(removedProduct: Option<string>)
    | AddToCart(productId: string, quantity: int)
    | CreateOrder(order: OrderData)

  /** Outcome of a mutating request whose response body is not read. */
  datatype Ack = Acked | Rejected

  /** Outcome of fetching the cart: a response body, or a thrown error. */
  datatype CartResponse =
    | Received(success: bool, data: Option<seq<CartLine>>)
    | RequestFailed

  /**
   * Outcome of creating an order: a resolved request, whose body's `data`
   * (the created order) may be missing and whose `success` flag the page
   * never reads, or an error carrying the server's `response.data.message`
   * and the error's own `message`.
   */
  datatype OrderOutcome =
    | Resolved(data: Option<OrderRecord>)
    | Failed(serverMessage: Option<string>, errorMessage: Option<string>)

  /** `item.product?._id`: the identifier a cart page sends for a line. */
  function ProductIdOf(p: ProductRef): (r: Option<string>)
    ensures p.Populated? ==> r == p.id
    ensures r.Some? ==> p.Populated? && p.id == r
  {
    match p
    case Populated(id, _) => id
    case _ => None
  }
}
