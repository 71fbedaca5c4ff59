/**
 * The cart page: its order summary (always-free shipping), the loading of
 * the cart, and the quantity and removal controls, each of which is
 * followed by a reload of the cart when the server accepts it.
 */
module CartPage {
  import opened Common
  import opened Entities
  import opened Pricing

  /** The page's state: the displayed cart and the loading flag. */
  datatype CartView = CartView(cart: seq<CartLine>, loading: bool)

  /** The page before its first load: an empty cart, loading. */
  const InitialView: CartView := CartView([], true)

  /** How the summary shows shipping: the word FREE, or an amount. */
  datatype ShippingText = Free | Priced(amount: real)

  datatype Summary = Summary(subtotal: real, tax: real, shipping: real, total: real)

  /** What one control leaves behind: the page state and the requests sent, in order. */
  datatype CartStep = CartStep(view: CartView, calls: seq<RemoteCall>)

  /** The summary card: subtotal, 10% tax, shipping and total. */
  function Summarize(cart: seq<CartLine>): (r: Summary)
    ensures r.subtotal == SumOfLines(cart)
    ensures r.tax * 10.0 == r.subtotal
    ensures r.shipping == 0.0
    ensures r.total == r.subtotal + r.tax + r.shipping
    ensures r.total == SumOfLines(cart) * 1.1
  {
    SubtotalIsSumOfLines(cart);
    var subtotal := Subtotal(cart);
    var tax := Tax(subtotal);
    // both arms of the page's conditional are zero
    var shipping := if subtotal > 0.0 then 0.0 else 0.0;
    Summary(subtotal, tax, shipping, subtotal + tax + shipping)
  }

  /** `shipping === 0 ? 'FREE' : amount`. */
  function ShippingLabel(shipping: real): (t: ShippingText)
    ensures t == Free <==> shipping == 0.0
    ensures t.Priced? ==> t.amount == shipping
  {
    if shipping == 0.0 then Free else Priced(shipping)
  }

  /** The summary of every cart shows shipping as FREE. */
  lemma ShippingAlwaysShownFree(cart: seq<CartLine>)
    ensures ShippingLabel(Summarize(cart).shipping) == Free
  {
  }

  /** A cart response the page can adopt: a success response carries data. */
  predicate ValidReload(response: CartResponse)
  {
    response.Received? && response.success ==> response.data.Some?
  }

  /**
   * `loadCart`: the cart is replaced only by a successful response; loading
   * ends false whatever happens. A success response is taken to carry data.
   */
  function LoadCart(v: CartView, response: CartResponse): (r: CartView)
    requires ValidReload(response)
    ensures !r.loading
    ensures response.Received? && response.success ==> r.cart == response.data.value
    ensures !(response.Received? && response.success) ==> r.cart == v.cart
  {
    match response
    case Received(true, data) => CartView(data.value, false)
    case _ => v.(loading := false)
  }

  /**
   * `updateQuantity`: send the new quantity; when the server accepts it,
   * reload the cart from `reload`; when it does not, change nothing.
   */
  function UpdateQuantity(v: CartView, productId: Option<string>, quantity: int, ack: Ack, reload: CartResponse): (r: CartStep)
    requires ValidReload(reload)
    ensures |r.calls| >= 1 && r.calls[0] == UpdateCartLine(productId, quantity)
    ensures ack.Acked? <==> r.calls == [UpdateCartLine(productId, quantity), GetCart]
    ensures ack.Acked? ==> r.view == LoadCart(v, reload)
    ensures ack.Rejected? ==> r.view == v && |r.calls| == 1
  {
    match ack
    case Acked => CartStep(LoadCart(v, reload), [UpdateCartLine(productId, quantity), GetCart])
    case Rejected => CartStep(v, [UpdateCartLine(productId, quantity)])
  }

  /** `removeItem`: send the removal, then reload when the server accepts it. */
  function RemoveItem(v: CartView, productId: Option<string>, ack: Ack, reload: CartResponse): (r: CartStep)
    requires ValidReload(reload)
    ensures |r.calls| >= 1 && r.calls[0] == RemoveCartLine(productId)
    ensures ack.Acked? <==> r.calls == [RemoveCartLine(productId), GetCart]
    ensures ack.Acked? ==> r.view == LoadCart(v, reload)
    ensures ack.Rejected? ==> r.view == v && |r.calls| == 1
  {
    match ack
    case Acked => CartStep(LoadCart(v, reload), [RemoveCartLine(productId), GetCart])
    case Rejected => CartStep(v, [RemoveCartLine(productId)])
  }

  /** The minus button is enabled only above quantity 1. */
  predicate DecrementEnabled(line: CartLine)
    ensures DecrementEnabled(line) <==> line.quantity - 1 >= 1
  {
    !(line.quantity <= 1)
  }

  /** Pressing minus on a line: nothing when disabled, else an update to quantity - 1. */
  function PressDecrement(v: CartView, line: CartLine, ack: Ack, reload: CartResponse): (r: CartStep)
    requires ValidReload(reload)
    ensures line.quantity <= 1 ==> r == CartStep(v, [])
    ensures line.quantity > 1 ==> |r.calls| >= 1 && r.calls[0] == UpdateCartLine(ProductIdOf(line.product), line.quantity - 1)
    ensures forall i :: 0 <= i < |r.calls| && r.calls[i].UpdateCartLine? ==> r.calls[i].newQuantity >= 1
  {
    if DecrementEnabled(line) then
      UpdateQuantity(v, ProductIdOf(line.product), line.quantity - 1, ack, reload)
    else
      CartStep(v, [])
  }

  /** Pressing plus on a line: an update to quantity + 1. */
  function PressIncrement(v: CartView, line: CartLine, ack: Ack, reload: CartResponse): (r: CartStep)
    requires ValidReload(reload)
    ensures |r.calls| >= 1 && r.calls[0] == UpdateCartLine(ProductIdOf(line.product), line.quantity + 1)
    ensures forall i :: 0 <= i < |r.calls| && r.calls[i].UpdateCartLine? ==> r.calls[i].newQuantity > line.quantity
  {
    UpdateQuantity(v, ProductIdOf(line.product), line.quantity + 1, ack, reload)
  }

  /** Pressing delete on a line: a removal of that line's product. */
  function PressRemove(v: CartView, line: CartLine, ack: Ack, reload: CartResponse): (r: CartStep)
    requires ValidReload(reload)
    ensures |r.calls| >= 1 && r.calls[0] == RemoveCartLine(ProductIdOf(line.product))
    ensures ack.Rejected? ==> r.view == v
  {
    RemoveItem(v, ProductIdOf(line.product), ack, reload)
  }

  /**
   * After an accepted mutation and a successful reload, the page shows the
   * server's cart, whatever it showed before: the client never keeps its own
   * idea of the next cart.
   */
  lemma AcceptedMutationAdoptsServerCart(v1: CartView, v2: CartView, productId: Option<string>, quantity: int, lines: seq<CartLine>)
    ensures UpdateQuantity(v1, productId, quantity, Acked, Received(true, Some(lines))).view
         == UpdateQuantity(v2, productId, quantity, Acked, Received(true, Some(lines))).view
         == CartView(lines, false)
  {
  }

  /** Mounting the page loads the cart once and always ends the spinner. */
  lemma MountEndsLoading(response: CartResponse)
    requires ValidReload(response)
    ensures !LoadCart(InitialView, response).loading
    ensures !(response.Received? && response.success) ==> LoadCart(InitialView, response).cart == []
  {
  }
}
