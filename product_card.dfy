/**
  The product card: "Add to Cart" (find the line by product id, then bump its
  quantity or append a new line) and "Order Now" (a one-item order that never
  touches the cart).
*/
module ProductCard {
  import opened Wrappers
  import opened Store
  import Api

  /** The product a card shows (the fields the handlers use, plus its category). */
  datatype Product = Product(id: string, name: string, price: int, category: string)

  /** The line appended for a product not yet in the cart. */
  function NewLine(p: Product): LineItem {
    LineItem(p.id, p.name, p.price, 1)
  }

  /** The cart after adding `p` once: bump the first line with its id, or append a new line. */
  function Added(cart: seq<LineItem>, p: Product): seq<LineItem> {
    var i := FindIndex(cart, p.id);
    if i >= 0 then cart[i := cart[i].(quantity := cart[i].quantity + 1)]
    else cart + [NewLine(p)]
  }

  /** What addToCart does to the "cart" slot. */
  function AddEffect(slot: Slot, p: Product): Effect {
    match Editable(slot)
    case None => Throws
    case Some(cart) => Write(Added(cart, p))
  }

  /** An absent id: exactly one line `{id, name, price, quantity: 1}` is appended at the end. */
  lemma AddedAbsent(cart: seq<LineItem>, p: Product)
    requires Absent(cart, p.id)
    ensures Added(cart, p) == cart + [LineItem(p.id, p.name, p.price, 1)]
    ensures |Added(cart, p)| == |cart| + 1
  {
  }

  /**
    A present id: the first line with it gets quantity + 1 and keeps its stored
    name and price; every other line, and the order, stays as it was.
  */
  lemma AddedPresent(cart: seq<LineItem>, p: Product, i: int)
    requires 0 <= i < |cart| && cart[i].productId == p.id
    requires forall j :: 0 <= j < i ==> cart[j].productId != p.id
    ensures |Added(cart, p)| == |cart|
    ensures Added(cart, p)[i] == LineItem(p.id, cart[i].name, cart[i].price, cart[i].quantity + 1)
    ensures forall j :: 0 <= j < |cart| && j != i ==> Added(cart, p)[j] == cart[j]
  {
  }

  /** Every add grows the sum of quantities by exactly one. */
  lemma AddedQuantitySum(cart: seq<LineItem>, p: Product)
    ensures QuantitySum(Added(cart, p)) == QuantitySum(cart) + 1
  {
    var i := FindIndex(cart, p.id);
    if i >= 0 {
      QuantitySumUpdate(cart, i, cart[i].(quantity := cart[i].quantity + 1));
    } else {
      QuantitySumAppend(cart, NewLine(p));
    }
  }

  /** Unique ids and quantities of at least one survive an add. */
  lemma AddedValid(cart: seq<LineItem>, p: Product)
    requires ValidCart(cart)
    ensures ValidCart(Added(cart, p))
  {
  }

  /**
    Adding the same product twice, the second time under a new name and price,
    gives one line of quantity 2 that keeps the first name and price.
  */
  lemma AddTwiceKeepsFirstSnapshot(id: string, name1: string, price1: int, name2: string, price2: int, category: string)
    ensures Added(Added([], Product(id, name1, price1, category)), Product(id, name2, price2, category))
         == [LineItem(id, name1, price1, 2)]
  {
  }

  /** The single-item body of "Order Now". */
  function OrderNowItems(p: Product): (items: seq<Api.OrderItem>)
    ensures |items| == 1
    ensures items[0] == Api.OrderItem(p.id, p.name, p.price, 1)
  {
    [Api.OrderItem(p.id, p.name, p.price, 1)]
  }

  /** The alert shown when "Order Now" fails: the response's `error`, else a fixed text. */
  function OrderNowFailureAlert(outcome: Api.PostOutcome): (m: string)
    ensures m != ""
    ensures outcome.Rejected? && Truthy(outcome.error) ==> m == outcome.error.value
    ensures !(outcome.Rejected? && Truthy(outcome.error)) ==> m == "Failed to place order"
  {
    if outcome.Rejected? && Truthy(outcome.error) then outcome.error.value else "Failed to place order"
  }

  const LoginPrompt: string := "Please login to place an order"

  /** The card's React state. */
  class Component {
    const product: Product
    var isAdding: bool
    var added: bool
    var isOrdering: bool
    var orderSuccess: bool

    constructor (product: Product)
      ensures this.product == product
      ensures !isAdding && !added && !isOrdering && !orderSuccess
    {
      this.product := product;
      isAdding, added, isOrdering, orderSuccess := false, false, false, false;
    }

    /**
      addToCart: load, bump or append, save, notify. A slot that cannot be read
      as an array aborts the handler after `isAdding` was set, so nothing is
      written and no event fires. The token slot is never touched.
    */
    method AddToCart(browser: Browser)
      modifies this, browser
      ensures Applied(old(browser.cart), old(browser.cartUpdated), browser.cart, browser.cartUpdated,
                      AddEffect(old(browser.cart), product))
      ensures browser.token == old(browser.token)
      ensures isOrdering == old(isOrdering) && orderSuccess == old(orderSuccess)
      ensures Editable(old(browser.cart)).None? ==> isAdding && added == old(added)
      ensures Editable(old(browser.cart)).Some? ==> !isAdding && added
    {
      isAdding := true;
      var loaded := Editable(browser.cart);
      if loaded.None? {
        return;
      }
      var cart := loaded.value;
      var i := FindIndex(cart, product.id);
      if i >= 0 {
        cart := cart[i := cart[i].(quantity := cart[i].quantity + 1)];
      } else {
        cart := cart + [NewLine(product)];
      }
      browser.SaveCart(cart);
      isAdding := false;
      added := true;
      browser.NotifyCartUpdated();
    }

    /**
      handleOrderNow with the backend's answer given as `outcome`. Without a
      truthy token it only alerts and sends nothing. Otherwise it installs the
      token and sends one item, quantity 1, under that bearer token. The cart
      slot is never touched: `browser` is not modified at all.
    */
    method OrderNow(browser: Browser, client: Api.Client, outcome: Api.PostOutcome)
      returns (request: Option<Api.OrderRequest>, alert: Option<string>)
      modifies this, client
      ensures !Truthy(browser.token) ==>
        && request.None? && alert == Some(LoginPrompt)
        && client.headers == old(client.headers)
        && isOrdering == old(isOrdering) && orderSuccess == old(orderSuccess)
      ensures Truthy(browser.token) ==>
        && client.headers == Api.WithAuth(old(client.headers), browser.token)
        && request == Some(Api.OrderRequest(OrderNowItems(product), client.headers))
        && (outcome.Created? ==> alert.None? && isOrdering && orderSuccess)
        && (!outcome.Created? ==>
              alert == Some(OrderNowFailureAlert(outcome)) && !isOrdering && orderSuccess == old(orderSuccess))
      ensures isAdding == old(isAdding) && added == old(added)
    {
      var token := browser.token;
      if !Truthy(token) {
        alert := Some(LoginPrompt);
        request := None;
        return;
      }
      isOrdering := true;
      client.SetAuthToken(token);
      var headers := client.Prepare(browser);
      Api.InterceptorAgreesWithDefaults(old(client.headers), token);
      request := Some(Api.OrderRequest(OrderNowItems(product), headers));
      if outcome.Created? {
        orderSuccess := true;
        alert := None;
      } else {
        alert := Some(OrderNowFailureAlert(outcome));
        isOrdering := false;
      }
    }
  }
}
