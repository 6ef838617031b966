/**
  The storefront navbar: the cart badge (count and "9+" label), the token it
  shows, and logout.
*/
module Navbar {
  import opened Wrappers
  import opened Store
  import Api
  import CartPage
  import ProductCard

  /** How much one line adds to the badge: a zero (falsy) quantity counts as one. */
  function Counted(q: int): int {
    if q == 0 then 1 else q
  }

  /** The badge sum over the stored lines, left to right from 0. */
  function CountedSum(items: seq<LineItem>): int {
    if items == [] then 0 else Counted(items[0].quantity) + CountedSum(items[1..])
  }

  /**
    updateCartCount: the badge count for a slot. A missing slot gives 0; a slot
    that fails to parse, or parses to something without `reduce`, throws into
    the catch and also gives 0.
  */
  function CartCount(slot: Slot): (count: int)
    ensures !slot.Array? ==> count == 0
    ensures slot == Array([]) ==> count == 0
  {
    if slot.Array? then CountedSum(slot.items) else 0
  }

  /** On a cart whose quantities are all at least 1 the badge is exactly the sum of quantities. */
  lemma {:induction false} CountedSumOfPositive(items: seq<LineItem>)
    requires PositiveQuantities(items)
    ensures CountedSum(items) == QuantitySum(items)
  {
    if items != [] {
      assert PositiveQuantities(items[1..]) by {
        forall j | 0 <= j < |items[1..]| ensures items[1..][j].quantity >= 1 {
          assert items[1..][j] == items[j + 1];
        }
      }
      CountedSumOfPositive(items[1..]);
    }
  }

  /** Every line adds at least one to the count when no quantity is negative. */
  lemma {:induction false} CountedSumAtLeastLength(items: seq<LineItem>)
    requires forall j :: 0 <= j < |items| ==> items[j].quantity >= 0
    ensures CountedSum(items) >= |items|
  {
    if items != [] {
      CountedSumAtLeastLength(items[1..]);
    }
  }

  /** The navbar and the cart page agree: on a well-formed cart the badge counts its quantities. */
  lemma NavbarAgreesWithCartPage(slot: Slot)
    requires PositiveQuantities(CartPage.LoadedCart(slot))
    ensures CartCount(slot) == QuantitySum(CartPage.LoadedCart(slot))
  {
    if slot.Array? {
      CountedSumOfPositive(slot.items);
    }
  }

  /** Each "Add to Cart" on a valid cart raises the badge count by exactly one. */
  lemma AddRaisesCount(cart: seq<LineItem>, p: ProductCard.Product)
    requires ValidCart(cart)
    ensures CartCount(Array(ProductCard.Added(cart, p))) == CartCount(Array(cart)) + 1
  {
    ProductCard.AddedValid(cart, p);
    ProductCard.AddedQuantitySum(cart, p);
    CountedSumOfPositive(cart);
    CountedSumOfPositive(ProductCard.Added(cart, p));
  }

  const Digits: string := "0123456789"

  /**
    The badge: hidden (None) unless the count is positive; "9+" above nine;
    otherwise the count written as its single digit.
  */
  function Badge(count: int): (shown: Option<string>)
    ensures shown.None? <==> count <= 0
    ensures count > 9 ==> shown == Some("9+")
    ensures 0 < count <= 9 ==> |shown.value| == 1 && shown.value[0] as int - '0' as int == count
  {
    if count <= 0 then None
    else if count > 9 then Some("9+")
    else Some([Digits[count]])
  }

  /** The navbar's React state. */
  class Component {
    var token: Option<string>
    var cartCount: int

    constructor ()
      ensures token == None && cartCount == 0
    {
      token, cartCount := None, 0;
    }

    /** updateCartCount (run on mount and on every "cartUpdated"). */
    method UpdateCartCount(browser: Browser)
      modifies this
      ensures cartCount == CartCount(browser.cart)
      ensures token == old(token)
    {
      var slot := browser.cart;
      if slot.Array? {
        cartCount := CountedSum(slot.items);
      } else {
        cartCount := 0;
      }
    }

    /**
      The mount effect: copy the stored token into state, pass it to
      setAuthToken (so a missing token deletes Authorization), load the count.
    */
    method Mount(browser: Browser, client: Api.Client)
      modifies this, client
      ensures token == browser.token
      ensures client.headers == Api.WithAuth(old(client.headers), browser.token)
      ensures cartCount == CartCount(browser.cart)
    {
      token := browser.token;
      client.SetAuthToken(token);
      UpdateCartCount(browser);
    }

    /** handleLogout: remove the token slot and the Authorization default; the cart is kept. */
    method HandleLogout(browser: Browser, client: Api.Client)
      modifies browser, client
      ensures browser.token == None
      ensures Api.Authorization !in client.headers
      ensures client.headers == Api.WithAuth(old(client.headers), None)
      ensures browser.cart == old(browser.cart) && browser.cartUpdated == old(browser.cartUpdated)
    {
      browser.RemoveToken();
      client.SetAuthToken(None);
    }
  }
}
