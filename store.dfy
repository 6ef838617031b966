/**
  The browser-side cart store: the line items kept under the "cart" key of
  localStorage, the "token" key beside it, and the "cartUpdated" window event
  (modelled as a count of dispatches).
*/
module Store {
  import opened Wrappers

  /** One cart line, with the name and price captured when it was first added. */
  datatype LineItem = LineItem(productId: string, name: string, price: int, quantity: int)

  /**
    What reading the "cart" slot and `JSON.parse` yield.
    Missing: `getItem` returned `null` or `""` (both falsy, so every reader treats them alike).
    Malformed: the text is not JSON, so `JSON.parse` throws.
    NonArray: the text is JSON but not an array (an object, a number, `null`, ...).
    Array: a JSON array of line items.
  */
  datatype Slot = Missing | Malformed | NonArray | Array(items: seq<LineItem>)

  /**
    The array the mutating handlers (addToCart, updateQuantity, removeItem) work on:
    a missing slot reads as `[]`; a malformed slot makes `JSON.parse` throw and a
    non-array makes `findIndex`/`filter` throw, so those give None (the handler aborts).
  */
  function Editable(slot: Slot): Option<seq<LineItem>> {
    match slot
    case Missing => Some([])
    case Array(items) => Some(items)
    case _ => None
  }

  /** The index of the first line with product `id`, or -1 when there is none. */
  function FindIndex(cart: seq<LineItem>, id: string): (i: int)
    ensures -1 <= i < |cart|
    ensures 0 <= i ==> cart[i].productId == id
    ensures forall j :: 0 <= j < |cart| && (i < 0 || j < i) ==> cart[j].productId != id
  {
    if cart == [] then -1
    else if cart[0].productId == id then 0
    else
      var k := FindIndex(cart[1..], id);
      if k < 0 then -1 else k + 1
  }

  /** The id does not occur in the cart. */
  ghost predicate Absent(cart: seq<LineItem>, id: string) {
    forall j :: 0 <= j < |cart| ==> cart[j].productId != id
  }

  /** Sum of the quantities of all lines. */
  function QuantitySum(cart: seq<LineItem>): int {
    if cart == [] then 0 else cart[0].quantity + QuantitySum(cart[1..])
  }

  /** At most one line per product id. */
  ghost predicate UniqueIds(cart: seq<LineItem>) {
    forall i, j :: 0 <= i < j < |cart| ==> cart[i].productId != cart[j].productId
  }

  /** No line is ever kept with a quantity below 1. */
  ghost predicate PositiveQuantities(cart: seq<LineItem>) {
    forall i :: 0 <= i < |cart| ==> cart[i].quantity >= 1
  }

  /** The cart invariant the handlers are meant to keep. */
  ghost predicate ValidCart(cart: seq<LineItem>) {
    UniqueIds(cart) && PositiveQuantities(cart)
  }

  lemma {:induction false} QuantitySumAppend(cart: seq<LineItem>, x: LineItem)
    ensures QuantitySum(cart + [x]) == QuantitySum(cart) + x.quantity
  {
    if cart != [] {
      assert (cart + [x])[1..] == cart[1..] + [x];
      QuantitySumAppend(cart[1..], x);
    }
  }

  lemma {:induction false} QuantitySumUpdate(cart: seq<LineItem>, i: int, x: LineItem)
    requires 0 <= i < |cart|
    ensures QuantitySum(cart[i := x]) == QuantitySum(cart) - cart[i].quantity + x.quantity
  {
    if i == 0 {
      assert cart[i := x][1..] == cart[1..];
    } else {
      assert cart[i := x][1..] == cart[1..][i - 1 := x];
      QuantitySumUpdate(cart[1..], i - 1, x);
    }
  }

  /** localStorage plus the window's "cartUpdated" event bus. */
  class Browser {
    /** The "cart" slot. */
    var cart: Slot
    /** The "token" slot (a raw string, not JSON). */
    var token: Option<string>
    /** How many "cartUpdated" events have been dispatched. */
    var cartUpdated: nat

    constructor (cart: Slot, token: Option<string>)
      ensures this.cart == cart && this.token == token && cartUpdated == 0
    {
      this.cart := cart;
      this.token := token;
      cartUpdated := 0;
    }

    /** Serialise `items` into the "cart" slot, replacing whatever was there. */
    method SaveCart(items: seq<LineItem>)
      modifies this
      ensures cart == Array(items)
      ensures token == old(token) && cartUpdated == old(cartUpdated)
    {
      cart := Array(items);
    }

    /** Remove the "cart" slot. */
    method RemoveCart()
      modifies this
      ensures cart == Missing
      ensures token == old(token) && cartUpdated == old(cartUpdated)
    {
      cart := Missing;
    }

    /** Remove the "token" slot. */
    method RemoveToken()
      modifies this
      ensures token == None
      ensures cart == old(cart) && cartUpdated == old(cartUpdated)
    {
      token := None;
    }

    /** Dispatch one "cartUpdated" window event. */
    method NotifyCartUpdated()
      modifies this
      ensures cartUpdated == old(cartUpdated) + 1
      ensures cart == old(cart) && token == old(token)
    {
      cartUpdated := cartUpdated + 1;
    }
  }

  /**
    How a mutating handler ends: it throws before writing, it decides not to
    write, or it writes `items` to the slot and dispatches "cartUpdated".
  */
  datatype Effect = Throws | NoWrite | Write(items: seq<LineItem>)

  /** The slot and event count after `e`, given the slot and count before it. */
  predicate Applied(slot: Slot, events: nat, slot': Slot, events': nat, e: Effect) {
    if e.Write? then slot' == Array(e.items) && events' == events + 1
    else slot' == slot && events' == events
  }
}
