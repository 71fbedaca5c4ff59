# Storefront cart and checkout, modelled in Dafny

This project models the client-side logic of a React storefront that keeps
its cart and orders on a remote REST store. It covers three pages:

- **Checkout** (`src/pages/Checkout.jsx`): the subtotal fold over cart lines, the
  flat 10% tax, shipping that is free above 50 and 5.99 otherwise, the grand
  total, loading the cart, and order submission. Submission covers local
  validation, assembly of the order payload, and the three-level choice of
  error message.
- **Cart** (`src/pages/Cart.jsx`): the order summary. Here shipping is always
  free and is shown as FREE. The page also has the load, update-quantity and
  remove transitions, each mutation followed by a reload, and the guards on
  the minus and plus buttons.
- **Product detail** (`src/pages/ProductDetail.jsx`): the quantity choices
  `1 .. min(10, stock || 1)`, the three-way stock status, when the buttons are
  disabled, the login gate in front of add-to-cart and buy-now, and the
  gallery's fallback to the featured image.

Everything is a pure function over immutable records:

- `common.dfy` holds `Option`, `Result` and JavaScript truthiness of strings.
- `entities.dfy` holds the records exchanged with the store.
- `pricing.dfy` holds the subtotal and tax shared by both pages.
- `checkout.dfy`, `cart_page.dfy` and `product_detail.dfy` hold one page each.
- `shipping_policies.dfy` relates the two shipping policies without merging them.

Money is an exact `real`, so `amount * 0.1` is exactly a tenth. Quantities are
integers. Stock is a `nat`.

Remote calls are not performed. Each server answer is a parameter: an `Ack`,
a `CartResponse` or an `OrderOutcome`. Each transition returns the requests it
sent as a `calls` list, so "no request is made" reads `calls == []`. The login
token from browser storage is likewise a parameter. Navigation and alerts are
returned as values.

Behaviour of the pages worth knowing before reading the contracts:

- A failed cart load keeps the previous cart; the cart is empty only before
  the first load.
- The checkout page adopts `data || []` without checking `success`. The cart
  page adopts `data` only when `success` is set.
- Once the order-creation request resolves, the checkout page navigates to
  the confirmation page without reading the body's `success` flag. The order
  it passes along may be missing.
- Line quantities are not forced to be at least 1 by the pages, so they are
  plain integers here.

## Model

| member | source | states |
|---|---|---|
| Pricing.UnitPrice | src/pages/Checkout.jsx:63 | A line's unit price is the product's price when it has one; any non-zero unit price comes from a present product price, so a missing price counts as 0 |
| Pricing.Subtotal | src/pages/Checkout.jsx:61-65 | The subtotal (the same fold as src/pages/Cart.jsx:44-48) equals the independent sum over lines of unit price times quantity, and is 0 for the empty cart |
| Pricing.AccumulateAddsSum | src/pages/Checkout.jsx:62-64 | The `reduce` fold started from any accumulator adds the sum over lines of (price, or 0 when absent) times quantity to that accumulator |
| Pricing.SubtotalIsSumOfLines | src/pages/Checkout.jsx:61-65 | The subtotal equals the sum over lines of (price or 0) times quantity; the empty cart has subtotal 0 and tax 0 |
| Pricing.SubtotalAppend | src/pages/Checkout.jsx:61-65 | The subtotal of two carts joined end to end is the sum of their subtotals |
| Pricing.UnpricedLineAddsNothing | src/pages/Checkout.jsx:63 | A line whose product has no price leaves the subtotal unchanged wherever it sits |
| Pricing.SubtotalNonNegative | src/pages/Checkout.jsx:61-65 | When no price or quantity is negative, the subtotal is not negative |
| Pricing.Tax | src/pages/Checkout.jsx:67-69 | Tax is exactly one tenth of the amount (ten times it gives the amount back), so 0 for 0, and lies between 0 and the amount for a non-negative amount |
| Checkout.Shipping | src/pages/Checkout.jsx:71-74 | Shipping is 0 exactly when the subtotal is strictly above 50, and 5.99 exactly when it is 50 or less |
| Checkout.GrandTotal | src/pages/Checkout.jsx:306 | The total is 1.1 times the subtotal above 50 and 1.1 times the subtotal plus 5.99 otherwise; removing shipping and tax leaves the subtotal |
| Checkout.TwoItemExample | src/pages/Checkout.jsx:291-307 | A single line of price 100 and quantity 2 gives subtotal 200, tax 20, shipping 0 and total 220 |
| Checkout.ThresholdIsExclusive | src/pages/Checkout.jsx:73 | A subtotal of exactly 50 is charged 5.99, for a total of 60.99 |
| Checkout.MissingRequiredField | src/pages/Checkout.jsx:83 | A required field is missing exactly when the empty string is among name, street, city and country; zip code and phone are never required |
| Checkout.ItemProductOf | src/pages/Checkout.jsx:93 | An item's product is the product's `_id` exactly when the line holds a product with a non-empty `_id`, and otherwise the line's raw product value |
| Checkout.OrderItems | src/pages/Checkout.jsx:92-95 | The payload has one item per cart line, in cart order, each with that line's product reference and its quantity unchanged |
| Checkout.BuildOrder | src/pages/Checkout.jsx:83-100 | A missing name, street, city or country fails as missing shipping fields; otherwise an empty cart fails as an empty cart; otherwise the payload carries the items, the address verbatim, the payment method string only, shipping method 'standard' and notes 'Order from website' |
| Checkout.ErrorMessage | src/pages/Checkout.jsx:117 | The message is the server's message if present and non-empty, else the error's own message if so, else 'Failed to place order'; it is never empty |
| Checkout.SubmitOrder | src/pages/Checkout.jsx:76-121 | Loading ends false and the cart and forms are unchanged; a validation failure sends nothing and shows its message; a valid form sends exactly one create-order request with the built payload; navigation to the confirmation page, carrying the body's order data (possibly missing) and no error, happens exactly when the create request resolves, whatever its body says; a thrown error shows the fallback-chain message |
| Checkout.LoadCart | src/pages/Checkout.jsx:35-43 | A received response replaces the cart with its data, or with the empty cart when data is missing, whatever its success flag; a failed request keeps the cart and shows 'Failed to load cart' |
| Checkout.RejectedSubmissionIgnoresServer | src/pages/Checkout.jsx:83-89 | With a missing required field or an empty cart, submission sends no request, so its result does not depend on the server; the field check wins over the empty-cart check |
| Checkout.CardFieldsNeverSent | src/pages/Checkout.jsx:96-97 | Changing card number, expiry, CVV or name on card, with the same payment method, changes none of the requests sent |
| Checkout.FailedSubmissionCanBeRetried | src/pages/Checkout.jsx:78-79 | Resubmitting after any earlier submission behaves as a first submission, because the error is cleared at the start and loading is false at the end |
| CartPage.Summarize | src/pages/Cart.jsx:44-52 | The summary's subtotal is the sum over lines of (price or 0) times quantity; tax is one tenth of it; shipping is 0 for every cart; the total is subtotal plus tax plus shipping, which is 1.1 times the subtotal |
| CartPage.ShippingLabel | src/pages/Cart.jsx:149 | Shipping is shown as FREE exactly when it is 0, and otherwise as its amount |
| CartPage.ShippingAlwaysShownFree | src/pages/Cart.jsx:51 | Every cart's summary shows shipping as FREE |
| CartPage.LoadCart | src/pages/Cart.jsx:13-24 | Loading ends false; the cart is replaced by the response data only when a response arrives with success set, and is otherwise kept |
| CartPage.UpdateQuantity | src/pages/Cart.jsx:26-33 | The update request is sent first; the cart is reloaded exactly when the server accepts it; a rejected update changes nothing on the page |
| CartPage.RemoveItem | src/pages/Cart.jsx:35-42 | The removal request is sent first; the cart is reloaded exactly when the server accepts it; a rejected removal changes nothing on the page |
| Entities.ProductIdOf | src/pages/Cart.jsx:99 | The product id a cart control sends is the line product's `_id` when the product is populated, and is absent otherwise |
| CartPage.DecrementEnabled | src/pages/Cart.jsx:100 | The minus button is enabled exactly when quantity minus 1 is at least 1 |
| CartPage.PressDecrement | src/pages/Cart.jsx:96-103 | At quantity 1 or below the minus button does nothing; above it, it requests quantity minus 1; no quantity below 1 is ever submitted |
| CartPage.PressIncrement | src/pages/Cart.jsx:110-116 | The plus button requests the line's quantity plus 1 for the line's product id |
| CartPage.PressRemove | src/pages/Cart.jsx:124-129 | The delete button requests removal of the line's product id; a rejected removal leaves the page unchanged |
| CartPage.AcceptedMutationAdoptsServerCart | src/pages/Cart.jsx:26-33 | After an accepted update and a successful reload, the page shows exactly the server's cart, whatever it showed before |
| CartPage.MountEndsLoading | src/pages/Cart.jsx:9-24 | The first load always ends the spinner; if it does not succeed the cart stays empty |
| ShippingPolicies.CheckoutTotalExceedsCartTotal | src/pages/Cart.jsx:50-52 | The checkout total is the cart page's total plus checkout's shipping: equal above 50, 5.99 more at 50 or below |
| ProductDetail.OptionCount | src/pages/ProductDetail.jsx:212 | The number of quantity choices is between 1 and 10; for positive stock it is the stock or 10, never above the stock; for zero stock it is 1 |
| ProductDetail.QuantityOptions | src/pages/ProductDetail.jsx:212 | The choices are exactly 1 .. min(10, stock) for positive stock and [1] for zero stock; never empty, at most 10, each at least 1 and never above a positive stock |
| ProductDetail.ClassifyStock | src/pages/ProductDetail.jsx:192-198 | In stock exactly when stock is positive, with that count; pre-order exactly when stock is 0 and out-of-stock purchase is allowed; out of stock exactly when stock is 0 and it is not |
| ProductDetail.PurchaseDisabled | src/pages/ProductDetail.jsx:210 | The quantity select and Buy Now are disabled exactly when the stock status is out of stock |
| ProductDetail.AddToCartDisabled | src/pages/ProductDetail.jsx:234 | Add to Cart is disabled exactly when the product is out of stock or the added-to-cart flag is set |
| ProductDetail.SelectQuantity | src/pages/ProductDetail.jsx:205-216 | Picking a choice sets the quantity to an offered value, between 1 and 10 and never above a positive stock |
| ProductDetail.HandleAddToCart | src/pages/ProductDetail.jsx:31-50 | Without a token it sends nothing and goes to /login; with one it sends the route id and the chosen quantity unchanged; the added flag becomes set only after an accepted add; an alert appears exactly when the add is rejected |
| ProductDetail.HandleBuyNow | src/pages/ProductDetail.jsx:52-70 | Without a token it sends nothing and goes to /login; with one it sends the route id and chosen quantity, goes to /cart exactly when the add is accepted and alerts exactly when it is rejected |
| ProductDetail.BothActionsSendSameRequest | src/pages/ProductDetail.jsx:39-42 | Add to Cart and Buy Now send the same requests for the same state and token |
| ProductDetail.AddedQuantityWasOffered | src/pages/ProductDetail.jsx:10 | From the opening state, a chosen quantity that is then added is sent with the route id, is between 1 and 10, and never exceeds a positive stock |
| ProductDetail.Gallery | src/pages/ProductDetail.jsx:93 | The gallery is the product's images when there are any, else a single entry of the featured image and the product name, so index 0 is always valid |

## Left out

- `src/services/api.js` is not part of this model. It is the HTTP client: base URL, bearer header from browser storage, and the 401 redirect.
- The other pages are not part of this model: home, product list, about, connection test, navigation bar, footer and entry point. They are markup and fetch-and-render with no rule to state.
- The order-confirmation page is not part of this model. It ignores the order it is handed and shows fixed placeholder data after a timer.
- Pricing.Tax: states exact arithmetic on reals, not the page's IEEE double arithmetic. The same holds for every other money amount here. The two-decimal `toFixed` display and the rounded percent-off figure on the product page are not modelled.
- CartPage.LoadCart: requires a success response to carry data. The page would otherwise store `undefined` as the cart and throw while rendering, which the model does not represent. The same requirement on the reload response is carried by every control that reloads: CartPage.UpdateQuantity, CartPage.RemoveItem, CartPage.PressDecrement, CartPage.PressIncrement and CartPage.PressRemove.
- ProductDetail.QuantityOptions: stock is a `nat`. A negative stock would make `Array(n)` throw a RangeError at src/pages/ProductDetail.jsx:212; the type excludes that case rather than modelling the throw.
- The per-line price shown on the cart page has no default for a missing price. It is not modelled and is not claimed to agree with the subtotal.
- The two shipping policies are kept as written and not unified. Cart shipping is always free; checkout shipping is free only above 50.
- ProductDetail.HandleAddToCart: does not model the three-second timer that clears the added-to-cart flag.
- Concurrency is not modelled: overlapping in-flight requests, unawaited reloads, and responses arriving out of order. Each transition takes its server answers in sequence.
- The render-time early returns are not modelled: the spinner, "Product not found", and the empty-cart view. The product page's `loadProduct` and its thumbnail selection are not modelled either.
- A round trip through the store is not modelled: after an update and a reload, the cart would hold that quantity. That depends on the server's behaviour, which is not part of this code.
