/**
 * The product page's purchase controls: the quantity choices, the stock
 * status, when the buttons are disabled, the login gate in front of the
 * add-to-cart and buy-now actions, and the image gallery's fallback.
 */
module ProductDetail {
  import opened Common
  import opened Entities

  const MaxQuantityOptions: nat := 10
  const InitialQuantity: int := 1
  const LoginPath: string := "/login"
  const CartPath: string := "/cart"
  const AddFailedAlert: string := "Failed to add product to cart"

  /** The three stock messages the page can show. */
  datatype StockStatus = InStock(available: nat) | PreOrder | OutOfStock

  /** The page's state: the route's product id, the chosen quantity, the added-to-cart flag. */
  datatype DetailState = DetailState(id: string, quantity: int, addedToCart: bool)

  /** What one button press leaves behind: state, requests sent, navigation, and any alert. */
  datatype DetailStep = DetailStep(
    state: DetailState,
    calls: seq<RemoteCall>,
    navigateTo: Option<string>,
    alert: Option<string>)

  /** The state when the page opens: quantity 1, nothing added yet. */
  function InitialState(id: string): DetailState
  {
    DetailState(id, InitialQuantity, false)
  }

  /** `Math.min(10, stock || 1)`: how many quantity choices the select offers. */
  function OptionCount(stock: nat): (n: nat)
    ensures 1 <= n <= MaxQuantityOptions
    ensures stock > 0 ==> n <= stock && (n == stock || n == MaxQuantityOptions)
    ensures stock == 0 ==> n == 1
  {
    Min(MaxQuantityOptions, if stock == 0 then 1 else stock)
  }

  /** `[...Array(n).keys()].map(num => num + 1)`: the choices 1 .. n. */
  function QuantityOptions(stock: nat): (r: seq<int>)
    ensures stock > 0 ==> |r| == Min(MaxQuantityOptions, stock)
    ensures stock == 0 ==> r == [1]
    ensures 1 <= |r| <= MaxQuantityOptions
    ensures forall i :: 0 <= i < |r| ==> r[i] == i + 1
    ensures forall k :: k in r <==> 1 <= k <= |r|
    ensures stock > 0 ==> forall k :: k in r ==> k <= stock
  {
    var opts := seq(OptionCount(stock), i => i + 1);
    CountingUpCovers(opts);
    opts
  }

  /** A sequence that counts up from 1 holds exactly the numbers 1 .. its length. */
  lemma CountingUpCovers(s: seq<int>)
    requires forall i :: 0 <= i < |s| ==> s[i] == i + 1
    ensures forall k :: k in s <==> 1 <= k <= |s|
  {
    forall k | 1 <= k <= |s|
      ensures k in s
    {
      assert s[k - 1] == k;
    }
  }

  /** The inventory block: in stock, available for pre-order, or out of stock. */
  function ClassifyStock(inv: Inventory): (s: StockStatus)
    ensures s.InStock? <==> inv.quantity > 0
    ensures s.InStock? ==> s.available == inv.quantity
    ensures s == PreOrder <==> inv.quantity == 0 && inv.allowOutOfStockPurchase
    ensures s == OutOfStock <==> inv.quantity == 0 && !inv.allowOutOfStockPurchase
  {
    if inv.quantity > 0 then InStock(inv.quantity)
    else if inv.allowOutOfStockPurchase then PreOrder
    else OutOfStock
  }

  /** `disabled` of the quantity select and of Buy Now: only when the product cannot be bought. */
  predicate PurchaseDisabled(inv: Inventory)
    ensures PurchaseDisabled(inv) <==> ClassifyStock(inv) == OutOfStock
  {
    inv.quantity == 0 && !inv.allowOutOfStockPurchase
  }

  /** `disabled` of Add to Cart: when the product cannot be bought, or right after an add. */
  predicate AddToCartDisabled(inv: Inventory, addedToCart: bool)
    ensures AddToCartDisabled(inv, addedToCart) <==> ClassifyStock(inv) == OutOfStock || addedToCart
    ensures PurchaseDisabled(inv) ==> AddToCartDisabled(inv, addedToCart)
  {
    PurchaseDisabled(inv) || addedToCart
  }

  /** Picking the `k`-th choice of the select sets the quantity to it. */
  function SelectQuantity(s: DetailState, inv: Inventory, k: nat): (r: DetailState)
    requires k < |QuantityOptions(inv.quantity)|
    ensures r.quantity in QuantityOptions(inv.quantity)
    ensures 1 <= r.quantity <= MaxQuantityOptions
    ensures inv.quantity > 0 ==> r.quantity <= inv.quantity
    ensures r.id == s.id && r.addedToCart == s.addedToCart
  {
    s.(quantity := QuantityOptions(inv.quantity)[k])
  }

  /**
   * `handleAddToCart`: without a token go to the login page and send
   * nothing; otherwise send the route id and the chosen quantity, set the
   * added flag on success and alert on failure.
   */
  function HandleAddToCart(s: DetailState, token: Option<string>, ack: Ack): (r: DetailStep)
    ensures !Truthy(token) ==> r == DetailStep(s, [], Some(LoginPath), None)
    ensures Truthy(token) ==> r.calls == [AddToCart(s.id, s.quantity)] && r.navigateTo == None
    ensures r.state.addedToCart <==> s.addedToCart || (Truthy(token) && ack.Acked?)
    ensures r.alert.Some? <==> Truthy(token) && ack.Rejected?
    ensures r.state.id == s.id && r.state.quantity == s.quantity
  {
    if !Truthy(token) then DetailStep(s, [], Some(LoginPath), None)
    else
      var call := AddToCart(s.id, s.quantity);
      match ack
      case Acked => DetailStep(s.(addedToCart := true), [call], None, None)
      case Rejected => DetailStep(s, [call], None, Some(AddFailedAlert))
  }

  /**
   * `handleBuyNow`: the same gate and request as adding to the cart, then
   * on success go to the cart page instead of setting the flag.
   */
  function HandleBuyNow(s: DetailState, token: Option<string>, ack: Ack): (r: DetailStep)
    ensures !Truthy(token) ==> r == DetailStep(s, [], Some(LoginPath), None)
    ensures Truthy(token) ==> r.calls == [AddToCart(s.id, s.quantity)]
    ensures r.navigateTo == Some(CartPath) <==> Truthy(token) && ack.Acked?
    ensures r.alert.Some? <==> Truthy(token) && ack.Rejected?
    ensures r.state == s
  {
    if !Truthy(token) then DetailStep(s, [], Some(LoginPath), None)
    else
      var call := AddToCart(s.id, s.quantity);
      match ack
      case Acked => DetailStep(s, [call], Some(CartPath), None)
      case Rejected => DetailStep(s, [call], None, Some(AddFailedAlert))
  }

  /** Both buttons send exactly the same request, whatever the server answers. */
  lemma BothActionsSendSameRequest(s: DetailState, token: Option<string>, a1: Ack, a2: Ack)
    ensures HandleAddToCart(s, token, a1).calls == HandleBuyNow(s, token, a2).calls
  {
  }

  /**
   * Starting from the opening state, choosing a quantity and adding to the
   * cart sends a quantity the select offered: between 1 and 10 and never
   * above a positive stock.
   */
  lemma AddedQuantityWasOffered(id: string, inv: Inventory, k: nat, token: Option<string>, ack: Ack)
    requires k < |QuantityOptions(inv.quantity)|
    requires Truthy(token)
    ensures var step := HandleAddToCart(SelectQuantity(InitialState(id), inv, k), token, ack);
      step.calls[0].productId == id && 1 <= step.calls[0].quantity <= MaxQuantityOptions
      && (inv.quantity > 0 ==> step.calls[0].quantity <= inv.quantity)
  {
  }

  /** The gallery: the product's images when there are any, else its featured image. */
  function Gallery(p: Product): (r: seq<Image>)
    ensures |r| >= 1
    ensures p.images.Some? && |p.images.value| > 0 ==> r == p.images.value
    ensures !(p.images.Some? && |p.images.value| > 0) ==> r == [Image(p.featuredImage, p.name)]
  {
    if p.images.Some? && |p.images.value| > 0 then p.images.value
    else [Image(p.featuredImage, p.name)]
  }
}
