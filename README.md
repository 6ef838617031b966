# Client-side cart of the e-commerce storefront, in Dafny

This project models the browser-side cart of a Next.js storefront and proves properties of it.

The cart is an ordered list of line items `{productId, name, price, quantity}`. It is kept as JSON under the `"cart"` key of localStorage. Three handlers change it:

- "Add to Cart" on a product card finds the line by product id. It bumps that line's quantity or appends a new line.
- A cart row sets a line's quantity. A quantity below 1 removes the line.
- A cart row removes a line by id.

Each handler reads the slot afresh and, when it writes, saves the whole array back and dispatches a `"cartUpdated"` window event. The navbar badge and the cart page re-read the slot when that event fires.

Checkout on the cart page works like this:

1. It checks for a login token first, then for a non-empty cart.
2. It sends the cart's lines as an order.
3. It clears the cart only when the backend confirms the order.

A failed checkout keeps the cart, but it does not return the page to a state from which the order can be placed again. The page shows any non-empty error in place of the whole cart view, and only checkout itself clears the error, so a retry needs the page to be mounted afresh. The model follows the page as written here, not a retry-from-Failed state machine.

Around the cart sit three more pieces:

- the request client, whose default `Authorization` header follows the stored token;
- a request interceptor, which stamps that header on every request;
- a route predicate that hides the storefront navbar on admin pages.

Modelling choices:

- **Storage.** localStorage and the window's event bus are one class, `Store.Browser`. It holds the `"cart"` slot, the `"token"` slot and a count of `"cartUpdated"` dispatches.
- **The cart slot.** It is read as `Missing | Malformed | NonArray | Array(items)`. `Missing` covers both `null` and `""`, because every reader tests the stored text for truthiness.
- **Tokens.** A token is an `Option<string>`. JavaScript truthiness is `Wrappers.Truthy`: absent and `""` are falsy.
- **Components.** Each React component's state is a class `Component` in the module of that component. Its handlers are methods. Each method's `ensures` ties the new state to a pure function of the old state, and lemmas state what the source promises about those functions.
- **The backend.** The backend's answer is a parameter, `Api.PostOutcome = Created | Rejected(error?, message?) | NoResponse`. The network is not modelled.
- **Numbers.** Prices and quantities are integers.
- **Headers.** The axios default headers are one `map<string, string>` (`Api.Client.headers`). It starts as `{"Content-Type": "application/json"}`, and `setAuthToken` writes or deletes `Authorization` in it. In axios, `Authorization` lives in the `common` sub-dictionary and is merged into every request. The model keeps one map, the merged view of the headers this code sets. The built-in defaults axios adds on its own are left out.

Modules and files:

- `wrappers.dfy`, module `Wrappers`: `Option` and truthiness.
- `store.dfy`, module `Store`: line items, the slot, find-first-index, quantity sums and the cart invariant (`ValidCart`: unique ids and quantities of at least 1).
- `api.dfy`, module `Api`: `frontend/app/lib/api.ts`.
- `product_card.dfy`, module `ProductCard`: `frontend/app/components/ProductCard.tsx`.
- `cart_item.dfy`, module `CartItem`: `frontend/app/components/CartItem.tsx`.
- `cart_page.dfy`, module `CartPage`: `frontend/app/cart/page.tsx`.
- `navbar.dfy`, module `Navbar`: `frontend/app/components/Navbar.tsx`.
- `conditional_navbar.dfy`, module `ConditionalNavbar`: `frontend/app/components/ConditionalNavbar.tsx`.
- `session.dfy`, module `Session`: any sequence of the three cart handlers.

## Model

| member | source | states |
|---|---|---|
| Store.FindIndex | frontend/app/components/ProductCard.tsx:38 | The result is -1 or an in-range index. A non-negative result holds the id, and no earlier line holds it. A -1 result means no line holds it. |
| Store.Editable | frontend/app/components/CartItem.tsx:20 | The array the mutating handlers work on. A missing slot reads as [], an array as itself, and a malformed or non-array slot makes the handler throw. CartPage.LoadedAgreesWithEditable relates it to the page's loader. |
| Store.QuantitySumAppend | frontend/app/components/ProductCard.tsx:45-50 | Appending a line adds its quantity to the sum of quantities. |
| Store.QuantitySumUpdate | frontend/app/components/ProductCard.tsx:42 | Replacing line i changes the sum of quantities by the new quantity minus the old one. |
| Store.Browser.constructor | frontend/app/cart/page.tsx:26 | The storage starts with the given cart and token slots and no events dispatched. |
| Store.Browser.SaveCart | frontend/app/components/ProductCard.tsx:54 | The cart slot becomes exactly the saved array (total replacement). The token and the event count are kept. |
| Store.Browser.RemoveCart | frontend/app/cart/page.tsx:86 | The cart slot becomes missing. Nothing else changes. |
| Store.Browser.RemoveToken | frontend/app/components/Navbar.tsx:49 | The token slot becomes missing. Nothing else changes. |
| Store.Browser.NotifyCartUpdated | frontend/app/components/ProductCard.tsx:63 | The "cartUpdated" count grows by one. Both slots are kept. |
| Api.WithAuth | frontend/app/lib/api.ts:15-21 | A truthy token sets Authorization to "Bearer " + token. `null` or `""` removes Authorization. Every other header, Content-Type included, keeps its presence and value. |
| Api.Intercepted | frontend/app/lib/api.ts:34-44 | A truthy stored token overwrites the request's Authorization with its bearer value and leaves the other headers alone. Otherwise the headers come back unchanged. |
| Api.WithAuthIdempotent | frontend/app/lib/api.ts:15-21 | Calling setAuthToken twice with the same argument equals calling it once. |
| Api.WithAuthOverrides | frontend/app/lib/api.ts:15-21 | Two setAuthToken calls equal the second one alone. |
| Api.InterceptorAgreesWithDefaults | frontend/app/lib/api.ts:36-44 | After setAuthToken(t) with the same truthy stored t, the interceptor changes nothing. |
| Api.Client.constructor | frontend/app/lib/api.ts:7-12 | The default headers start as exactly Content-Type: application/json. |
| Api.Client.SetAuthToken | frontend/app/lib/api.ts:15-21 | The new default headers are WithAuth of the old headers and the token. |
| Api.Client.InitAuth | frontend/app/lib/api.ts:24-31 | A truthy stored token acts as setAuthToken(token). A missing or empty token leaves the headers exactly as they were and does not delete Authorization. |
| Api.Client.Prepare | frontend/app/lib/api.ts:34-44 | The headers a request carries are the defaults passed through the interceptor with the stored token. |
| Api.RequestConfig.constructor | frontend/app/lib/api.ts:35 | The interceptor's config holds the given headers. |
| Api.RequestConfig.Intercept | frontend/app/lib/api.ts:36-44 | The config's headers become Intercepted of the old headers and the stored token. |
| ProductCard.Added | frontend/app/components/ProductCard.tsx:38-51 | The cart after one "Add to Cart". Its meaning is stated by AddedAbsent, AddedPresent, AddedQuantitySum, AddedValid and CartPage.AddedTotal. |
| ProductCard.AddEffect | frontend/app/components/ProductCard.tsx:34-54 | addToCart's effect on the slot: a throw on an unreadable slot, otherwise a write of Added. Session.StepValid proves that the write keeps a valid slot valid. |
| ProductCard.AddedAbsent | frontend/app/components/ProductCard.tsx:43-51 | For an absent id, exactly one line {id, name, price, 1} is appended at the end, so the length grows by 1. |
| ProductCard.AddedPresent | frontend/app/components/ProductCard.tsx:38-42 | For a present id, the first line with it gets quantity + 1 and keeps its stored name and price. The length is unchanged, and every other index keeps its line. |
| ProductCard.AddedQuantitySum | frontend/app/components/ProductCard.tsx:38-51 | Every add grows the sum of quantities by exactly 1. |
| ProductCard.AddedValid | frontend/app/components/ProductCard.tsx:38-51 | Unique ids and quantities of at least 1 survive an add. |
| ProductCard.AddTwiceKeepsFirstSnapshot | frontend/app/components/ProductCard.tsx:38-51 | Adding an id twice, the second time with a new name and price, gives one line of quantity 2 with the first name and price. |
| ProductCard.OrderNowItems | frontend/app/components/ProductCard.tsx:81-88 | The "Order Now" body. CartPage.OrderNowIsCheckoutOfOne proves it equal to the checkout payload of a cart into which only this product was added. |
| ProductCard.OrderNowFailureAlert | frontend/app/components/ProductCard.tsx:94-96 | The failure alert is the response's truthy `error`, otherwise "Failed to place order". It is never empty. |
| ProductCard.Component.constructor | frontend/app/components/ProductCard.tsx:21-24 | All four flags start false. |
| ProductCard.Component.AddToCart | frontend/app/components/ProductCard.tsx:27-64 | An unreadable slot (malformed or non-array) throws: nothing is written, no event fires, and `isAdding` stays set. A readable slot (a missing one counts as []) is replaced by Added(cart, product) and one event fires. Then `isAdding` is false and `added` is true. The token is untouched. |
| ProductCard.Component.OrderNow | frontend/app/components/ProductCard.tsx:66-98 | Without a truthy token: the login alert, no request, no header or flag change. With one: the token is installed, and one request carries the single item under "Bearer " + token. Success sets `orderSuccess`. Failure alerts and clears `isOrdering`. The cart slot is never touched, because the method's frame excludes storage. |
| CartItem.WithQuantity | frontend/app/components/CartItem.tsx:20-25 | The cart with the first line of the id set to n. Its meaning is stated by WithQuantityPresent and UpdateValid. |
| CartItem.UpdateEffect | frontend/app/components/CartItem.tsx:14-29 | updateQuantity's effect on the slot. It is stated by UpdateBelowOneIsRemove, UpdateAbsentWritesNothing, ShoeScenario and UpdateValid. |
| CartItem.RemoveEffect | frontend/app/components/CartItem.tsx:31-37 | removeItem's effect on the slot: a throw on an unreadable slot, otherwise a write of Removed. It is stated by UpdateValid and Session.StepValid. |
| CartItem.Removed | frontend/app/components/CartItem.tsx:33 | The filtered cart is no longer than the cart. |
| CartItem.RemovedMembers | frontend/app/components/CartItem.tsx:33 | A line is in the filtered cart exactly when it was in the cart under another id. |
| CartItem.UpdateBelowOneIsRemove | frontend/app/components/CartItem.tsx:15-18 | updateQuantity(n) with n < 1 has exactly removeItem's effect. |
| CartItem.WithQuantityPresent | frontend/app/components/CartItem.tsx:20-25 | With the id present, only the first line with it changes, to quantity n. Its other fields stay, and every other line stays. |
| CartItem.UpdateAbsentWritesNothing | frontend/app/components/CartItem.tsx:20-28 | With n >= 1 and the id absent from a readable slot, a missing slot included, the effect is NoWrite: no save and no event. |
| CartItem.RemovedAppend | frontend/app/components/CartItem.tsx:33 | The filter distributes over concatenation, so the kept lines stay in their order. |
| CartItem.RemovedAbsent | frontend/app/components/CartItem.tsx:32-36 | Removing an absent id leaves the contents unchanged. |
| CartItem.RemovedIdempotent | frontend/app/components/CartItem.tsx:32-36 | Removing twice equals removing once. |
| CartItem.RemovedUniqueLine | frontend/app/components/CartItem.tsx:33 | In a cart with unique ids, removing line i's id leaves exactly the lines before and after i, in order. |
| CartItem.RemovedBetween | frontend/app/components/CartItem.tsx:33 | When the id occurs only in the middle line, the filter yields the surrounding lines. |
| CartItem.RemovedUnique | frontend/app/components/CartItem.tsx:33 | The filter keeps ids unique. |
| CartItem.ConsUnique | frontend/app/components/CartItem.tsx:33 | Putting a line in front of a unique cart that lacks its id keeps ids unique. |
| CartItem.UpdateValid | frontend/app/components/CartItem.tsx:15-25 | Whatever set-quantity or remove writes to a valid cart is valid: no line with quantity <= 0 and no duplicate id. |
| CartItem.ShoeScenario | frontend/app/components/CartItem.tsx:20-25 | Setting [{p1, "Shoe", 1000, 2}] to 5 writes [{p1, "Shoe", 1000, 5}]. |
| CartItem.Component.constructor | frontend/app/components/CartItem.tsx:13 | The row holds its line and whether onUpdate was passed. onUpdate has not been called yet. |
| CartItem.Component.RemoveItem | frontend/app/components/CartItem.tsx:31-37 | An unreadable slot throws and changes nothing. Otherwise the slot becomes the filtered cart, even when the id is absent. One event fires, and onUpdate is called once if it was given. |
| CartItem.Component.UpdateQuantity | frontend/app/components/CartItem.tsx:14-29 | The slot, the event count and onUpdate calls follow UpdateEffect: removal below 1, a write only when the id is present, and a throw on an unreadable slot. |
| CartItem.Component.Decrement | frontend/app/components/CartItem.tsx:53 | "-" asks for the shown quantity minus 1. On a shown quantity of 1 or less this is removeItem. The slot, the event count and the onUpdate calls follow UpdateEffect for that quantity. |
| CartItem.Component.Increment | frontend/app/components/CartItem.tsx:62 | "+" asks for the shown quantity plus 1. The slot, the event count and the onUpdate calls follow UpdateEffect for that quantity. |
| CartPage.LoadedCart | frontend/app/cart/page.tsx:24-39 | A parsed array is shown unchanged. A missing, unparsable or non-array slot gives []. |
| CartPage.LoadedAgreesWithEditable | frontend/app/cart/page.tsx:24-39 | Wherever the mutating handlers can read the slot, the page shows the same cart. Wherever they throw, the page shows []. |
| CartPage.Total | frontend/app/cart/page.tsx:52 | The subtotal. Its meaning is stated by TotalAppend, TotalUpdate and AddedTotal. |
| CartPage.TotalAppend | frontend/app/cart/page.tsx:52 | The subtotal of a cart plus a line is the old subtotal plus price * quantity (the left fold from 0). |
| CartPage.TotalUpdate | frontend/app/cart/page.tsx:52 | Replacing line i changes the subtotal by that line's new price * quantity minus its old one. |
| CartPage.AddedTotal | frontend/app/cart/page.tsx:52 | After an add, the subtotal grows by one unit price. That is the stored line's price if the product was present, and the product's price otherwise. |
| CartPage.OrderItems | frontend/app/cart/page.tsx:74-79 | The payload has the cart's length and order. Item k copies line k's four fields. |
| CartPage.OrderItemsRoundTrip | frontend/app/cart/page.tsx:74-79 | Reading the payload back as lines gives exactly the cart. |
| CartPage.OrderNowIsCheckoutOfOne | frontend/app/components/ProductCard.tsx:81-88 | "Order Now" sends exactly the checkout payload of a cart into which only that product was added. |
| CartPage.CheckoutFailureMessage | frontend/app/cart/page.tsx:97 | The error is a truthy `error`, else a truthy `message`, else "Failed to place order". It is never empty. |
| CartPage.Component.constructor | frontend/app/cart/page.tsx:16-20 | The page starts with an empty cart, loading, no error and both flags false. |
| CartPage.Component.Phase | frontend/app/cart/page.tsx:16-20 | The checkout phase the flags encode. HandleCheckout states the phase each outcome leads to, and SubmittingDisablesOrder ties it to the button. |
| CartPage.Component.PlaceOrderDisabled | frontend/app/cart/page.tsx:185 | The button is disabled exactly when an order is being placed or the cart is empty. HandleCheckout states that it is disabled after a confirmed order. After a failed one the flag reads enabled, but no button is on screen (see PlaceOrderShown). |
| CartPage.Component.PlaceOrderShown | frontend/app/cart/page.tsx:102-185 | A Place Order button is rendered only once loading has ended, with no error, a non-empty cart and no confirmed order. These are the loading view (line 102), the error view (line 117), the empty-cart view (line 139) and the success banner (line 173). ShownButtonDisabledWhilePlacing and HandleCheckout state its properties. |
| CartPage.Component.EmptyCartShown | frontend/app/cart/page.tsx:139-155 | The "Your cart is empty" view is drawn once loading has ended, with no error and an empty shown cart. HandleCheckout states that a confirmed order ends in this view. The "Order Placed Successfully!" banner is therefore never drawn after checkout. |
| CartPage.Component.ShownButtonDisabledWhilePlacing | frontend/app/cart/page.tsx:173-185 | A button that is on screen is disabled exactly while an order is being placed. |
| CartPage.Component.SubmittingDisablesOrder | frontend/app/cart/page.tsx:185 | While an order is being submitted the button is disabled. |
| CartPage.Component.LoadCart | frontend/app/cart/page.tsx:24-39 | The shown cart becomes LoadedCart of the slot, and loading ends. The checkout flags are kept. |
| CartPage.Component.OnRowUpdate | frontend/app/cart/page.tsx:161-167 | The row callback re-reads a slot that holds an array. A missing slot keeps the shown cart. |
| CartPage.Component.HandleCheckout | frontend/app/cart/page.tsx:54-100 | The token gate comes first: no request, error "Please login to place an order", nothing else changed. Next the empty-cart gate: "Your cart is empty", no request. Otherwise one request carries OrderItems(cart) under "Bearer " + token. Success removes the slot, empties the shown cart, fires one event and sets orderSuccess (phase Succeeded). The page's own listener then reloads the cart and ends loading. Failure keeps the slot, the event count and the shown cart, sets the derived error and clears isPlacingOrder. No gate and no outcome leaves a Place Order button on screen. A gate or a failure sets a non-empty error, and the error view replaces the whole page. A confirmed order empties the shown cart, so the empty-cart view (page.tsx:139) replaces the list, the success banner included (EmptyCartShown). A retry after a failure therefore needs the page to be mounted afresh. |
| Navbar.CartCount | frontend/app/components/Navbar.tsx:24-37 | A missing slot, and any slot that fails to parse or is not an array, counts 0. So does an empty array. |
| Navbar.Counted | frontend/app/components/Navbar.tsx:29 | One line's share of the badge: a zero quantity counts as 1. It is stated by CountedSumAtLeastLength. |
| Navbar.CountedSum | frontend/app/components/Navbar.tsx:29 | The badge sum over the stored lines. It is stated by CountedSumOfPositive, CountedSumAtLeastLength and AddRaisesCount. |
| Navbar.CountedSumOfPositive | frontend/app/components/Navbar.tsx:29 | When every quantity is at least 1, the badge count is exactly the sum of quantities. |
| Navbar.CountedSumAtLeastLength | frontend/app/components/Navbar.tsx:29 | With no negative quantity, each line adds at least 1, because a zero quantity counts as 1. |
| Navbar.NavbarAgreesWithCartPage | frontend/app/components/Navbar.tsx:24-37 | On a well-formed cart, the badge count equals the sum of the quantities the cart page shows. |
| Navbar.AddRaisesCount | frontend/app/components/Navbar.tsx:29 | On a valid cart, each "Add to Cart" raises the badge count by exactly 1. |
| Navbar.Badge | frontend/app/components/Navbar.tsx:92-94 | The badge is shown exactly when the count is positive. It reads "9+" above 9, and otherwise the count's single digit. |
| Navbar.Component.constructor | frontend/app/components/Navbar.tsx:8-10 | The navbar starts with no token and a count of 0. |
| Navbar.Component.UpdateCartCount | frontend/app/components/Navbar.tsx:24-37 | The count becomes CartCount of the slot. |
| Navbar.Component.Mount | frontend/app/components/Navbar.tsx:13-16 | The state token is the stored token. The headers are setAuthToken of it, so a missing token deletes Authorization. The count is loaded. |
| Navbar.Component.HandleLogout | frontend/app/components/Navbar.tsx:48-50 | The token slot is removed and Authorization is gone from the defaults. The cart and the event count are kept. |
| ConditionalNavbar.StartsWith | frontend/app/components/ConditionalNavbar.tsx:10 | True exactly when the prefix is no longer than the string and equals its first characters. |
| ConditionalNavbar.IsAdminPage | frontend/app/components/ConditionalNavbar.tsx:10-12 | Whether the navbar is hidden. It is stated by HiddenExactly, PublicPagesShown, ShownPages and PrefixOnly. |
| ConditionalNavbar.HiddenExactly | frontend/app/components/ConditionalNavbar.tsx:10-16 | The navbar is hidden exactly when the pathname is present, starts with "/admin", and is neither "/admin/login" nor "/admin/set-token". |
| ConditionalNavbar.PublicPagesShown | frontend/app/components/ConditionalNavbar.tsx:10-12 | "/admin/login", "/admin/set-token" and a null pathname show the navbar. |
| ConditionalNavbar.ShownPages | frontend/app/components/ConditionalNavbar.tsx:10 | Every path not starting with "/admin" shows the navbar. |
| ConditionalNavbar.PrefixOnly | frontend/app/components/ConditionalNavbar.tsx:10 | "/admin/products", "/adminx" and "/admin" all hide the navbar, because the test is a prefix test. |
| Session.StepValid | frontend/app/components/ProductCard.tsx:38-54 | Any single add, set-quantity or remove keeps a valid slot valid. |
| Session.RunValid | frontend/app/components/CartItem.tsx:14-37 | Any sequence of adds, set-quantities and removes keeps the slot free of duplicate ids and of quantities below 1. |
| Session.FromEmpty | frontend/app/components/ProductCard.tsx:34-35 | Starting from no cart slot, every such sequence ends with a valid cart. |
| Session.HatScenario | frontend/app/components/ProductCard.tsx:38-51 | From no slot, adding (p2, "Hat", 500) and then (p2, "HatV2", 999) stores [{p2, "Hat", 500, 2}]. |

## Left out

- Rendering: JSX, styling, the "Loading cart..." view, the alert dialogs and the error banner. Only the values they show are modelled: the flags, the error text, the alert text and the badge label.
- Navigation and timers: `router.push`, `window.location.href`, the 2-second redirect after an order and the reset of "Added!". These are timing and routing, not state the cart depends on.
- The HTTP call itself. Its answer is the `outcome` parameter. The await is treated as atomic: no other handler runs while a request is pending. This hides the following case: the rows stay editable during the request, because only Place Order is disabled. A "+" pressed meanwhile is saved to the slot but not sent with the order, and a confirmed order then removes the slot with the edit in it. The "alert" on "Order Now" is returned as a value.
- Cross-tab races on storage and on the event bus. One tab is modelled; the bus is a dispatch counter, and listeners re-read the slot when called.
- The shape of array elements in storage. Stored elements are taken to be line items with string ids and integer prices and quantities. A missing or non-numeric quantity is not modelled. Such a quantity would make `+= 1` concatenate or give NaN. For the navbar's falsy-quantity rule only the zero case is modelled.
- Prices as floating-point numbers: prices here are whole integers with no rounding. The same goes for `toLocaleString` formatting of the subtotal.
- Non-JSON values as the response's `error` or `message`: only absent or string values are modelled.
- The built-in defaults axios itself merges into each request, such as `Accept`. Only the headers this code sets are modelled.
- JSON serialisation: a saved array is read back as the same array.
- The server-side rendering guard (`typeof window`) in initAuth and the interceptor: every handler modelled here runs in the browser. The try/catch in initAuth guards only storage access, which cannot fail in the model.
- CartPage.Component.OnRowUpdate: a slot that holds JSON but not an array is not modelled there. The source would put that non-array into the page state. This cannot happen right after a row's own save.
- The loading state of the page before mount, and the effect cleanup that removes listeners.
- Admin pages, authentication pages, order history, reports and JWT payload decoding. They are request plumbing and presentation outside the cart.
