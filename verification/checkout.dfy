/**
 * The checkout page: its shipping policy and grand total, the loading of
 * the cart, and order submission (local validation, payload assembly and
 * the choice of error message).
 */
module Checkout {
  import opened Common
  import opened Entities
  import opened Pricing

  const FreeShippingThreshold: real := 50.0
  const FlatShippingFee: real := 5.99

  const MissingFieldsMessage: string := "Please fill in all required shipping fields"
  const EmptyCartMessage: string := "Your cart is empty"
  const OrderFailedMessage: string := "Failed to place order"
  const LoadFailedMessage: string := "Failed to load cart"
  const StandardShipping: string := "standard"
  const OrderNotes: string := "Order from website"
  const OrderSuccessPath: string := "/order-success"
  const OrderPlacedMessage: string := "Order placed successfully!"

  /** The two ways local validation rejects a submission. */
  datatype InvalidOrder = MissingShippingFields | EmptyCart

  /** The message each validation failure throws. */
  function InvalidOrderMessage(e: InvalidOrder): string
  {
    match e
    case MissingShippingFields => MissingFieldsMessage
    case EmptyCart => EmptyCartMessage
  }

  /** The payment part of the form; only `method` (here `methodName`) is ever sent. */
  datatype PaymentForm = PaymentForm(
    methodName: string,
    cardNumber: string,
    expiryDate: string,
    cvv: string,
    nameOnCard: string)

  /** The page's state: the loaded cart, the two forms, and the loading and error flags. */
  datatype CheckoutView = CheckoutView(
    cart: seq<CartLine>,
    address: ShippingAddress,
    payment: PaymentForm,
    loading: bool,
    error: string)

  /** The move to the confirmation page once the create request resolves; the order may be missing. */
  datatype Navigation = Navigation(path: string, order: Option<OrderRecord>, message: string)

  /** What one submission leaves behind: the page state, the requests sent, and any navigation. */
  datatype SubmitStep = SubmitStep(view: CheckoutView, calls: seq<RemoteCall>, navigation: Option<Navigation>)

  /** `calculateShipping`: free strictly above the threshold, a flat fee otherwise. */
  function Shipping(cart: seq<CartLine>): (r: real)
    ensures r == 0.0 <==> Subtotal(cart) > FreeShippingThreshold
    ensures r == FlatShippingFee <==> Subtotal(cart) <= FreeShippingThreshold
  {
    var total := Subtotal(cart);
    if total > 50.0 then 0.0 else 5.99
  }

  /** The displayed total: subtotal plus shipping plus tax on the subtotal. */
  function GrandTotal(cart: seq<CartLine>): (r: real)
    ensures Subtotal(cart) > FreeShippingThreshold ==> r == Subtotal(cart) * 1.1
    ensures Subtotal(cart) <= FreeShippingThreshold ==> r == Subtotal(cart) * 1.1 + FlatShippingFee
  {
    Subtotal(cart) + Shipping(cart) + Tax(Subtotal(cart))
  }

  /** One of name, street, city or country is empty; zip code and phone are optional. */
  predicate MissingRequiredField(a: ShippingAddress)
    ensures MissingRequiredField(a) <==> "" in [a.name, a.street, a.city, a.country]
    ensures !MissingRequiredField(a) ==> |a.name| > 0 && |a.street| > 0 && |a.city| > 0 && |a.country| > 0
  {
    a.name == "" || a.street == "" || a.city == "" || a.country == ""
  }

  /** `item.product?._id || item.product`. */
  function ItemProductOf(p: ProductRef): (r: ItemProduct)
    ensures r.ById? <==> p.Populated? && Truthy(p.id)
    ensures r.ById? ==> Some(r.id) == p.id
    ensures r.AsGiven? ==> r.ref == p
  {
    if p.Populated? && Truthy(p.id) then ById(p.id.value) else AsGiven(p)
  }

  /** `cart.map(item => ({product, quantity}))`: one item per line, in order. */
  function OrderItems(cart: seq<CartLine>): (items: seq<OrderItem>)
    ensures |items| == |cart|
    ensures forall i :: 0 <= i < |cart| ==>
      items[i] == OrderItem(ItemProductOf(cart[i].product), cart[i].quantity)
    decreases |cart|
  {
    if cart == [] then []
    else [OrderItem(ItemProductOf(cart[0].product), cart[0].quantity)] + OrderItems(cart[1..])
  }

  /** The validation steps of `handleSubmitOrder` followed by the assembly of `orderData`. */
  function BuildOrder(address: ShippingAddress, payment: PaymentForm, cart: seq<CartLine>): (r: Result<OrderData, InvalidOrder>)
    ensures r == Err(MissingShippingFields) <==> MissingRequiredField(address)
    ensures r == Err(EmptyCart) <==> !MissingRequiredField(address) && |cart| == 0
    ensures r.Ok? <==> !MissingRequiredField(address) && |cart| > 0
    ensures r.Ok? ==> |r.value.items| == |cart|
    ensures r.Ok? ==> forall i :: 0 <= i < |cart| ==>
      r.value.items[i] == OrderItem(ItemProductOf(cart[i].product), cart[i].quantity)
    ensures r.Ok? ==> r.value.shippingAddress == address
    ensures r.Ok? ==> r.value.paymentMethod == payment.methodName
    ensures r.Ok? ==> r.value.shippingMethod == StandardShipping && r.value.notes == OrderNotes
  {
    if MissingRequiredField(address) then Err(MissingShippingFields)
    else if |cart| == 0 then Err(EmptyCart)
    else Ok(OrderData(OrderItems(cart), address, payment.methodName, StandardShipping, OrderNotes))
  }

  /** `error.response?.data?.message || error.message || 'Failed to place order'`. */
  function ErrorMessage(serverMessage: Option<string>, errorMessage: Option<string>): (m: string)
    ensures m != ""
    ensures Truthy(serverMessage) ==> m == serverMessage.value
    ensures !Truthy(serverMessage) && Truthy(errorMessage) ==> m == errorMessage.value
    ensures !Truthy(serverMessage) && !Truthy(errorMessage) ==> m == OrderFailedMessage
  {
    if Truthy(serverMessage) then serverMessage.value
    else if Truthy(errorMessage) then errorMessage.value
    else OrderFailedMessage
  }

  /**
   * `handleSubmitOrder`: clear the error and set loading, validate and build
   * the payload, send it, and either navigate to the confirmation page or
   * surface an error; loading is false at the end either way. The server's
   * answer is the parameter `outcome`, consulted only when a request is sent.
   */
  function SubmitOrder(v: CheckoutView, outcome: OrderOutcome): (r: SubmitStep)
    ensures !r.view.loading
    ensures r.view.cart == v.cart && r.view.address == v.address && r.view.payment == v.payment
    ensures BuildOrder(v.address, v.payment, v.cart).Err? ==>
      r.calls == [] && r.navigation == None && r.view.error == InvalidOrderMessage(BuildOrder(v.address, v.payment, v.cart).error)
    ensures BuildOrder(v.address, v.payment, v.cart).Ok? ==>
      r.calls == [CreateOrder(BuildOrder(v.address, v.payment, v.cart).value)]
    ensures r.navigation.Some? <==> BuildOrder(v.address, v.payment, v.cart).Ok? && outcome.Resolved?
    ensures r.navigation.Some? ==>
      r.navigation.value == Navigation(OrderSuccessPath, outcome.data, OrderPlacedMessage) && r.view.error == ""
    ensures BuildOrder(v.address, v.payment, v.cart).Ok? && outcome.Failed? ==>
      r.view.error == ErrorMessage(outcome.serverMessage, outcome.errorMessage)
  {
    var started := v.(loading := true, error := "");
    match BuildOrder(v.address, v.payment, v.cart)
    case Err(invalid) =>
      // a validation failure is thrown as a plain Error: no response, its message set
      SubmitStep(started.(loading := false, error := ErrorMessage(None, Some(InvalidOrderMessage(invalid)))), [], None)
    case Ok(order) =>
      match outcome
      case Resolved(data) =>
        // any resolved response navigates, whatever its body says
        SubmitStep(started.(loading := false), [CreateOrder(order)],
                   Some(Navigation(OrderSuccessPath, data, OrderPlacedMessage)))
      case Failed(serverMessage, errorMessage) =>
        SubmitStep(started.(loading := false, error := ErrorMessage(serverMessage, errorMessage)),
                   [CreateOrder(order)], None)
  }

  /**
   * The checkout page's `loadCart`: it adopts `data || []` whatever the
   * `success` flag says, and on a thrown error keeps the cart and shows a message.
   */
  function LoadCart(v: CheckoutView, response: CartResponse): (r: CheckoutView)
    ensures response.Received? && response.data.Some? ==> r.cart == response.data.value
    ensures response.Received? && response.data.None? ==> r.cart == []
    ensures response.Received? ==> r.error == v.error
    ensures response.RequestFailed? ==> r.cart == v.cart && r.error == LoadFailedMessage
    ensures r.address == v.address && r.payment == v.payment && r.loading == v.loading
  {
    match response
    case Received(_, Some(lines)) => v.(cart := lines)
    case Received(_, None) => v.(cart := [])
    case RequestFailed => v.(error := LoadFailedMessage)
  }

  /** A submission that fails validation sends nothing, so the server's answer cannot matter. */
  lemma RejectedSubmissionIgnoresServer(v: CheckoutView, o1: OrderOutcome, o2: OrderOutcome)
    requires MissingRequiredField(v.address) || v.cart == []
    ensures SubmitOrder(v, o1) == SubmitOrder(v, o2)
    ensures SubmitOrder(v, o1).calls == []
    ensures MissingRequiredField(v.address) ==> SubmitOrder(v, o1).view.error == MissingFieldsMessage
    ensures !MissingRequiredField(v.address) ==> SubmitOrder(v, o1).view.error == EmptyCartMessage
  {
  }

  /** Card number, expiry, CVV and name on card never reach the request. */
  lemma CardFieldsNeverSent(v: CheckoutView, card: PaymentForm, outcome: OrderOutcome)
    requires card.methodName == v.payment.methodName
    ensures SubmitOrder(v.(payment := card), outcome).calls == SubmitOrder(v, outcome).calls
  {
  }

  /** A resubmission after a failure starts from a cleared error and ends with loading false. */
  lemma FailedSubmissionCanBeRetried(v: CheckoutView, first: OrderOutcome, second: OrderOutcome)
    ensures var again := SubmitOrder(SubmitOrder(v, first).view, second);
      again == SubmitOrder(v, second)
  {
  }

  /** The worked example: one line of price 100 and quantity 2. */
  lemma TwoItemExample()
    ensures var cart := [CartLine(Populated(Some("A"), Some(100.0)), 2)];
      Subtotal(cart) == 200.0 && Tax(Subtotal(cart)) == 20.0 && Shipping(cart) == 0.0 && GrandTotal(cart) == 220.0
  {
    var cart := [CartLine(Populated(Some("A"), Some(100.0)), 2)];
    SubtotalIsSumOfLines(cart);
    assert cart[1..] == [];
  }

  /** A subtotal of exactly 50 is charged the flat fee. */
  lemma ThresholdIsExclusive()
    ensures var cart := [CartLine(Populated(Some("B"), Some(25.0)), 2)];
      Subtotal(cart) == 50.0 && Shipping(cart) == FlatShippingFee && GrandTotal(cart) == 60.99
  {
    var cart := [CartLine(Populated(Some("B"), Some(25.0)), 2)];
    SubtotalIsSumOfLines(cart);
    assert cart[1..] == [];
  }
}
