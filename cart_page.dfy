/**
  The cart page: the lenient loader, the subtotal, and checkout — a small state
  machine over the flags `isPlacingOrder`, `orderSuccess` and `error` that
  clears the cart only when the backend confirms the order.
*/
module CartPage {
  import opened Wrappers
  import opened Store
  import Api
  import ProductCard

  /** loadCart: a missing, unparsable or non-array slot all read as the empty cart. */
  function LoadedCart(slot: Slot): (cart: seq<LineItem>)
    ensures slot.Array? ==> cart == slot.items
    ensures !slot.Array? ==> cart == []
  {
    if slot.Array? then slot.items else []
  }

  /** Where the slot is readable by the mutating handlers, the page sees the same cart. */
  lemma LoadedAgreesWithEditable(slot: Slot)
    ensures Editable(slot).Some? ==> LoadedCart(slot) == Editable(slot).value
    ensures Editable(slot).None? ==> LoadedCart(slot) == []
  {
  }

  /** The subtotal: the sum of `price * quantity` over the lines. */
  function Total(cart: seq<LineItem>): int {
    if cart == [] then 0 else cart[0].price * cart[0].quantity + Total(cart[1..])
  }

  lemma {:induction false} TotalAppend(cart: seq<LineItem>, x: LineItem)
    ensures Total(cart + [x]) == Total(cart) + x.price * x.quantity
  {
    if cart != [] {
      assert (cart + [x])[1..] == cart[1..] + [x];
      TotalAppend(cart[1..], x);
    }
  }

  lemma {:induction false} TotalUpdate(cart: seq<LineItem>, i: int, x: LineItem)
    requires 0 <= i < |cart|
    ensures Total(cart[i := x]) == Total(cart) - cart[i].price * cart[i].quantity + x.price * x.quantity
  {
    if i == 0 {
      assert cart[i := x][1..] == cart[1..];
    } else {
      assert cart[i := x][1..] == cart[1..][i - 1 := x];
      TotalUpdate(cart[1..], i - 1, x);
    }
  }

  /**
    Adding a product raises the subtotal by one unit price: the stored line's
    price when the product is already in the cart, the product's price otherwise.
  */
  lemma AddedTotal(cart: seq<LineItem>, p: ProductCard.Product)
    ensures var i := FindIndex(cart, p.id);
      Total(ProductCard.Added(cart, p)) == Total(cart) + (if i >= 0 then cart[i].price else p.price)
  {
    var i := FindIndex(cart, p.id);
    if i >= 0 {
      var x := cart[i].(quantity := cart[i].quantity + 1);
      TotalUpdate(cart, i, x);
      assert x.price * x.quantity == cart[i].price * cart[i].quantity + cart[i].price;
    } else {
      TotalAppend(cart, ProductCard.NewLine(p));
    }
  }

  /** The order payload: one item per line, in cart order, copying all four fields. */
  function OrderItems(cart: seq<LineItem>): (items: seq<Api.OrderItem>)
    ensures |items| == |cart|
    ensures forall k :: 0 <= k < |cart| ==>
      items[k] == Api.OrderItem(cart[k].productId, cart[k].name, cart[k].price, cart[k].quantity)
  {
    seq(|cart|, k requires 0 <= k < |cart| =>
      Api.OrderItem(cart[k].productId, cart[k].name, cart[k].price, cart[k].quantity))
  }

  /** Reading a payload back as cart lines. */
  function LinesOf(items: seq<Api.OrderItem>): seq<LineItem> {
    seq(|items|, k requires 0 <= k < |items| =>
      LineItem(items[k].productId, items[k].name, items[k].price, items[k].quantity))
  }

  /** The payload loses nothing: it reads back as exactly the cart it was built from. */
  lemma OrderItemsRoundTrip(cart: seq<LineItem>)
    ensures LinesOf(OrderItems(cart)) == cart
  {
  }

  /**
    "Order Now" on a card sends exactly what checkout would send for a cart
    into which only that product was added.
  */
  lemma OrderNowIsCheckoutOfOne(p: ProductCard.Product)
    ensures ProductCard.OrderNowItems(p) == OrderItems(ProductCard.Added([], p))
  {
  }

  /** The checkout error after a failed request: `error`, else `message`, else a fixed text. */
  function CheckoutFailureMessage(outcome: Api.PostOutcome): (m: string)
    ensures m != ""
    ensures outcome.Rejected? && Truthy(outcome.error) ==> m == outcome.error.value
    ensures outcome.Rejected? && !Truthy(outcome.error) && Truthy(outcome.message) ==> m == outcome.message.value
    ensures !(outcome.Rejected? && (Truthy(outcome.error) || Truthy(outcome.message))) ==> m == "Failed to place order"
  {
    if outcome.Rejected? && Truthy(outcome.error) then outcome.error.value
    else if outcome.Rejected? && Truthy(outcome.message) then outcome.message.value
    else "Failed to place order"
  }

  const LoginRequired: string := "Please login to place an order"
  const EmptyCart: string := "Your cart is empty"

  /** The checkout state the flags encode. */
  datatype CheckoutPhase = Idle | Submitting | Succeeded | Failed(reason: string)

  /** The page's React state. */
  class Component {
    var cartItems: seq<LineItem>
    var loading: bool
    var error: string
    var isPlacingOrder: bool
    var orderSuccess: bool

    constructor ()
      ensures cartItems == [] && loading && error == "" && !isPlacingOrder && !orderSuccess
    {
      cartItems, loading, error, isPlacingOrder, orderSuccess := [], true, "", false, false;
    }

    /** The phase of the checkout state machine, read off the flags. */
    function Phase(): CheckoutPhase
      reads this
    {
      if orderSuccess then Succeeded
      else if isPlacingOrder then Submitting
      else if error != "" then Failed(error)
      else Idle
    }

    /** The Place Order button is disabled while placing an order or when the cart is empty. */
    function PlaceOrderDisabled(): (disabled: bool)
      reads this
      ensures cartItems == [] ==> disabled
      ensures isPlacingOrder ==> disabled
      ensures disabled ==> cartItems == [] || isPlacingOrder
    {
      isPlacingOrder || |cartItems| == 0
    }

    /** While an order is being submitted the Place Order button cannot be pressed again. */
    lemma SubmittingDisablesOrder()
      ensures Phase() == Submitting ==> PlaceOrderDisabled()
    {
    }

    /**
      Whether a Place Order button is on screen at all: the page has loaded,
      shows no error (any error replaces the whole view), lists a non-empty
      cart and has not confirmed an order (that replaces the button by a banner).
    */
    predicate PlaceOrderShown()
      reads this
    {
      !loading && error == "" && cartItems != [] && !orderSuccess
    }

    /** The "Your cart is empty" view: loaded, no error, nothing in the shown cart. */
    predicate EmptyCartShown()
      reads this
    {
      !loading && error == "" && cartItems == []
    }

    /** A button on screen is disabled exactly while an order is being placed. */
    lemma ShownButtonDisabledWhilePlacing()
      ensures PlaceOrderShown() ==> (PlaceOrderDisabled() <==> isPlacingOrder)
    {
    }

    /** loadCart (run on mount and on every "cartUpdated"). */
    method LoadCart(browser: Browser)
      modifies this
      ensures cartItems == LoadedCart(browser.cart) && !loading
      ensures error == old(error) && isPlacingOrder == old(isPlacingOrder) && orderSuccess == old(orderSuccess)
    {
      var slot := browser.cart;
      if slot.Array? {
        cartItems := slot.items;
      } else {
        cartItems := [];
      }
      loading := false;
    }

    /**
      The `onUpdate` callback a row calls after it saved: re-read the slot when
      it holds something; a missing slot leaves the shown cart as it was.
    */
    method OnRowUpdate(browser: Browser)
      modifies this
      ensures browser.cart.Array? ==> cartItems == browser.cart.items
      ensures !browser.cart.Array? ==> cartItems == old(cartItems)
      ensures loading == old(loading) && error == old(error)
      ensures isPlacingOrder == old(isPlacingOrder) && orderSuccess == old(orderSuccess)
    {
      if browser.cart.Array? {
        cartItems := browser.cart.items;
      }
    }

    /**
      handleCheckout, with the backend's answer given as `outcome`.
      No truthy token: "Please login to place an order", nothing sent, nothing
      else changed (this is checked before the empty cart). Empty cart: "Your
      cart is empty", nothing sent. Otherwise: the token is installed, one
      request with the cart's payload is sent under the bearer token; on
      success the slot is removed, the shown cart emptied, one "cartUpdated"
      dispatched (whose listener reloads the page's cart and ends loading) and
      `orderSuccess` set (`isPlacingOrder` stays set); on failure the slot is
      untouched, the error derived from the response and `isPlacingOrder`
      cleared. No ending leaves a Place Order button on screen: a gate or a
      failure sets a non-empty error, which replaces the whole view, and a
      confirmed order empties the shown cart, so the empty-cart view replaces
      the whole list, the success banner included.
    */
    method HandleCheckout(browser: Browser, client: Api.Client, outcome: Api.PostOutcome)
      returns (request: Option<Api.OrderRequest>)
      modifies this, browser, client
      ensures browser.token == old(browser.token)
      ensures !Truthy(browser.token) ==>
        && request.None? && error == LoginRequired && loading == old(loading) && !PlaceOrderShown()
        && cartItems == old(cartItems) && isPlacingOrder == old(isPlacingOrder) && orderSuccess == old(orderSuccess)
        && browser.cart == old(browser.cart) && browser.cartUpdated == old(browser.cartUpdated)
        && client.headers == old(client.headers)
      ensures Truthy(browser.token) && old(cartItems) == [] ==>
        && request.None? && error == EmptyCart && loading == old(loading) && !PlaceOrderShown()
        && cartItems == old(cartItems) && isPlacingOrder == old(isPlacingOrder) && orderSuccess == old(orderSuccess)
        && browser.cart == old(browser.cart) && browser.cartUpdated == old(browser.cartUpdated)
        && client.headers == old(client.headers)
      ensures Truthy(browser.token) && old(cartItems) != [] ==>
        && client.headers == Api.WithAuth(old(client.headers), browser.token)
        && request == Some(Api.OrderRequest(OrderItems(old(cartItems)), client.headers))
        && (outcome.Created? ==>
              && browser.cart == Missing && cartItems == []
              && browser.cartUpdated == old(browser.cartUpdated) + 1
              && orderSuccess && isPlacingOrder && error == "" && !loading
              && Phase() == Succeeded && PlaceOrderDisabled() && !PlaceOrderShown()
              && EmptyCartShown())
        && (!outcome.Created? ==>
              && browser.cart == old(browser.cart) && browser.cartUpdated == old(browser.cartUpdated)
              && cartItems == old(cartItems)
              && error == CheckoutFailureMessage(outcome) && !isPlacingOrder
              && orderSuccess == old(orderSuccess) && loading == old(loading)
              && !PlaceOrderShown()
              && (!orderSuccess ==> Phase() == Failed(CheckoutFailureMessage(outcome)))
              && !PlaceOrderDisabled())
    {
      var token := browser.token;
      if !Truthy(token) {
        error := LoginRequired;
        request := None;
        return;
      }
      if |cartItems| == 0 {
        error := EmptyCart;
        request := None;
        return;
      }
      isPlacingOrder := true;
      error := "";
      client.SetAuthToken(token);
      var items := OrderItems(cartItems);
      var headers := client.Prepare(browser);
      Api.InterceptorAgreesWithDefaults(old(client.headers), token);
      request := Some(Api.OrderRequest(items, headers));
      if outcome.Created? {
        browser.RemoveCart();
        cartItems := [];
        browser.NotifyCartUpdated();
        // The page's own "cartUpdated" listener runs synchronously inside the dispatch.
        LoadCart(browser);
        orderSuccess := true;
      } else {
        error := CheckoutFailureMessage(outcome);
        isPlacingOrder := false;
      }
    }
  }
}
