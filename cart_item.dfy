/**
  One row of the cart page: set a line's quantity (below 1 removes the line),
  remove the line, and the "-"/"+" buttons.
*/
module CartItem {
  import opened Wrappers
  import opened Store

  /** The cart with the first line of `id` set to quantity `n`; unchanged if `id` is absent. */
  function WithQuantity(cart: seq<LineItem>, id: string, n: int): seq<LineItem> {
    var i := FindIndex(cart, id);
    if i >= 0 then cart[i := cart[i].(quantity := n)] else cart
  }

  /** The cart without any line of product `id`, the other lines in their order. */
  function Removed(cart: seq<LineItem>, id: string): (r: seq<LineItem>)
    ensures |r| <= |cart|
  {
    if cart == [] then []
    else (if cart[0].productId == id then [] else [cart[0]]) + Removed(cart[1..], id)
  }

  /** A line survives the filter exactly when it was in the cart under another id. */
  lemma {:induction false} RemovedMembers(cart: seq<LineItem>, id: string)
    ensures forall x :: x in Removed(cart, id) <==> x in cart && x.productId != id
  {
    if cart != [] {
      RemovedMembers(cart[1..], id);
      assert cart == [cart[0]] + cart[1..];
    }
  }

  /** What removeItem does to the "cart" slot: it always writes once the slot reads as an array. */
  function RemoveEffect(slot: Slot, id: string): Effect {
    match Editable(slot)
    case None => Throws
    case Some(cart) => Write(Removed(cart, id))
  }

  /**
    What updateQuantity(n) does to the "cart" slot: below 1 it is removeItem;
    otherwise it writes only when the id is present.
  */
  function UpdateEffect(slot: Slot, id: string, n: int): Effect {
    if n < 1 then RemoveEffect(slot, id)
    else match Editable(slot)
      case None => Throws
      case Some(cart) => if FindIndex(cart, id) >= 0 then Write(WithQuantity(cart, id, n)) else NoWrite
  }

  /** A quantity below 1 is exactly a removal. */
  lemma UpdateBelowOneIsRemove(slot: Slot, id: string, n: int)
    requires n < 1
    ensures UpdateEffect(slot, id, n) == RemoveEffect(slot, id)
  {
  }

  /** With n >= 1 and the id present, only that line's quantity changes, to n. */
  lemma WithQuantityPresent(cart: seq<LineItem>, id: string, n: int, i: int)
    requires 0 <= i < |cart| && cart[i].productId == id
    requires forall j :: 0 <= j < i ==> cart[j].productId != id
    ensures |WithQuantity(cart, id, n)| == |cart|
    ensures WithQuantity(cart, id, n)[i] == cart[i].(quantity := n)
    ensures forall j :: 0 <= j < |cart| && j != i ==> WithQuantity(cart, id, n)[j] == cart[j]
  {
  }

  /**
    With n >= 1 and the id absent from a readable slot (a missing slot reads as
    the empty cart), nothing is written and so nothing is notified.
  */
  lemma UpdateAbsentWritesNothing(slot: Slot, cart: seq<LineItem>, id: string, n: int)
    requires Editable(slot) == Some(cart) && Absent(cart, id) && n >= 1
    ensures UpdateEffect(slot, id, n) == NoWrite
  {
  }

  /** Filtering distributes over concatenation: the kept lines stay in their order. */
  lemma {:induction false} RemovedAppend(a: seq<LineItem>, b: seq<LineItem>, id: string)
    ensures Removed(a + b, id) == Removed(a, id) + Removed(b, id)
  {
    if a == [] {
      assert a + b == b;
    } else {
      assert (a + b)[1..] == a[1..] + b;
      RemovedAppend(a[1..], b, id);
    }
  }

  /** Removing an absent id leaves the contents as they were. */
  lemma {:induction false} RemovedAbsent(cart: seq<LineItem>, id: string)
    requires Absent(cart, id)
    ensures Removed(cart, id) == cart
  {
    if cart != [] {
      RemovedAbsent(cart[1..], id);
    }
  }

  /** Removing twice is removing once. */
  lemma RemovedIdempotent(cart: seq<LineItem>, id: string)
    ensures Removed(Removed(cart, id), id) == Removed(cart, id)
  {
    var r := Removed(cart, id);
    RemovedMembers(cart, id);
    assert forall j :: 0 <= j < |r| ==> r[j] in r;
    RemovedAbsent(r, id);
  }

  /**
    In a cart with unique ids, removing the line at index i leaves exactly the
    lines before and after it, in their order.
  */
  lemma RemovedUniqueLine(cart: seq<LineItem>, i: int)
    requires UniqueIds(cart) && 0 <= i < |cart|
    ensures Removed(cart, cart[i].productId) == cart[..i] + cart[i + 1..]
  {
    var id := cart[i].productId;
    var before, after := cart[..i], cart[i + 1..];
    assert before + ([cart[i]] + after) == cart by {
      var whole := before + ([cart[i]] + after);
      forall k | 0 <= k < |cart| ensures whole[k] == cart[k] {
        if k < i { assert whole[k] == before[k]; }
        else if k > i { assert whole[k] == after[k - i - 1]; }
      }
    }
    assert Absent(before, id) by {
      forall j | 0 <= j < |before| ensures before[j].productId != id {
        assert before[j] == cart[j];
      }
    }
    assert Absent(after, id) by {
      forall j | 0 <= j < |after| ensures after[j].productId != id {
        assert after[j] == cart[i + 1 + j];
      }
    }
    RemovedBetween(before, cart[i], after);
  }

  lemma RemovedBetween(before: seq<LineItem>, x: LineItem, after: seq<LineItem>)
    requires Absent(before, x.productId) && Absent(after, x.productId)
    ensures Removed(before + ([x] + after), x.productId) == before + after
  {
    var id := x.productId;
    RemovedAppend(before, [x] + after, id);
    RemovedAppend([x], after, id);
    assert Removed([x], id) == [] by {
      assert [x][1..] == [];
    }
    RemovedAbsent(before, id);
    RemovedAbsent(after, id);
  }

  /** A subsequence-by-filter keeps ids unique. */
  lemma {:induction false} RemovedUnique(cart: seq<LineItem>, id: string)
    requires UniqueIds(cart)
    ensures UniqueIds(Removed(cart, id))
  {
    if cart != [] {
      var tail := cart[1..];
      var rest := Removed(tail, id);
      assert UniqueIds(tail) by {
        forall a, b | 0 <= a < b < |tail| ensures tail[a].productId != tail[b].productId {
          assert tail[a] == cart[a + 1] && tail[b] == cart[b + 1];
        }
      }
      RemovedUnique(tail, id);
      if cart[0].productId != id {
        assert Absent(rest, cart[0].productId) by {
          forall k | 0 <= k < |rest| ensures rest[k].productId != cart[0].productId {
            RemovedMembers(tail, id);
            assert rest[k] in tail;
            var m :| 0 <= m < |tail| && tail[m] == rest[k];
            assert tail[m] == cart[m + 1];
          }
        }
        ConsUnique(cart[0], rest);
      }
    }
  }

  lemma ConsUnique(x: LineItem, rest: seq<LineItem>)
    requires UniqueIds(rest) && Absent(rest, x.productId)
    ensures UniqueIds([x] + rest)
  {
  }

  /** Set-quantity and remove keep the cart invariant: unique ids, quantities >= 1. */
  lemma UpdateValid(cart: seq<LineItem>, id: string, n: int)
    requires ValidCart(cart)
    requires UpdateEffect(Array(cart), id, n).Write?
    ensures ValidCart(UpdateEffect(Array(cart), id, n).items)
  {
    if n < 1 {
      RemovedUnique(cart, id);
      RemovedMembers(cart, id);
      var r := Removed(cart, id);
      assert forall j :: 0 <= j < |r| ==> r[j] in cart;
    }
  }

  /** Setting [{p1, "Shoe", 1000, 2}] to quantity 5 gives [{p1, "Shoe", 1000, 5}]. */
  lemma ShoeScenario(p1: string)
    ensures UpdateEffect(Array([LineItem(p1, "Shoe", 1000, 2)]), p1, 5) == Write([LineItem(p1, "Shoe", 1000, 5)])
  {
  }

  /** A row's props (the line it shows, and whether an `onUpdate` callback was passed) and the callback's call count. */
  class Component {
    const item: LineItem
    const hasOnUpdate: bool
    var onUpdateCalls: nat

    constructor (item: LineItem, hasOnUpdate: bool)
      ensures this.item == item && this.hasOnUpdate == hasOnUpdate && onUpdateCalls == 0
    {
      this.item := item;
      this.hasOnUpdate := hasOnUpdate;
      onUpdateCalls := 0;
    }

    /** removeItem: filter out every line of this id, save, notify, call onUpdate. */
    method RemoveItem(browser: Browser)
      modifies this, browser
      ensures Applied(old(browser.cart), old(browser.cartUpdated), browser.cart, browser.cartUpdated,
                      RemoveEffect(old(browser.cart), item.productId))
      ensures browser.token == old(browser.token)
      ensures onUpdateCalls == old(onUpdateCalls) +
        (if RemoveEffect(old(browser.cart), item.productId).Write? && hasOnUpdate then 1 else 0)
    {
      var loaded := Editable(browser.cart);
      if loaded.None? {
        return;
      }
      var updated := Removed(loaded.value, item.productId);
      browser.SaveCart(updated);
      browser.NotifyCartUpdated();
      if hasOnUpdate {
        onUpdateCalls := onUpdateCalls + 1;
      }
    }

    /**
      updateQuantity(n): below 1 it is removeItem; otherwise the first line of
      this id gets quantity n, and the slot is saved, notified and onUpdate
      called only when such a line exists.
    */
    method UpdateQuantity(browser: Browser, n: int)
      modifies this, browser
      ensures Applied(old(browser.cart), old(browser.cartUpdated), browser.cart, browser.cartUpdated,
                      UpdateEffect(old(browser.cart), item.productId, n))
      ensures browser.token == old(browser.token)
      ensures onUpdateCalls == old(onUpdateCalls) +
        (if UpdateEffect(old(browser.cart), item.productId, n).Write? && hasOnUpdate then 1 else 0)
    {
      if n < 1 {
        RemoveItem(browser);
        return;
      }
      var loaded := Editable(browser.cart);
      if loaded.None? {
        return;
      }
      var cart := loaded.value;
      var i := FindIndex(cart, item.productId);
      if i >= 0 {
        cart := cart[i := cart[i].(quantity := n)];
        browser.SaveCart(cart);
        browser.NotifyCartUpdated();
        if hasOnUpdate {
          onUpdateCalls := onUpdateCalls + 1;
        }
      }
    }

    /** The "-" button: asks for the shown quantity minus one, so a shown 1 removes the line. */
    method Decrement(browser: Browser)
      modifies this, browser
      ensures Applied(old(browser.cart), old(browser.cartUpdated), browser.cart, browser.cartUpdated,
                      UpdateEffect(old(browser.cart), item.productId, item.quantity - 1))
      ensures item.quantity <= 1 ==>
        Applied(old(browser.cart), old(browser.cartUpdated), browser.cart, browser.cartUpdated,
                RemoveEffect(old(browser.cart), item.productId))
      ensures browser.token == old(browser.token)
      ensures onUpdateCalls == old(onUpdateCalls) +
        (if UpdateEffect(old(browser.cart), item.productId, item.quantity - 1).Write? && hasOnUpdate then 1 else 0)
    {
      UpdateQuantity(browser, item.quantity - 1);
    }

    /** The "+" button: asks for the shown quantity plus one. */
    method Increment(browser: Browser)
      modifies this, browser
      ensures Applied(old(browser.cart), old(browser.cartUpdated), browser.cart, browser.cartUpdated,
                      UpdateEffect(old(browser.cart), item.productId, item.quantity + 1))
      ensures browser.token == old(browser.token)
      ensures onUpdateCalls == old(onUpdateCalls) +
        (if UpdateEffect(old(browser.cart), item.productId, item.quantity + 1).Write? && hasOnUpdate then 1 else 0)
    {
      UpdateQuantity(browser, item.quantity + 1);
    }
  }
}
