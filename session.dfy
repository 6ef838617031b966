/**
  Any run of the cart handlers one after another: "Add to Cart" on a product
  card, and set-quantity or remove on a cart row. Each reads the slot afresh,
  so a run is a fold of their effects over the slot.
*/
module Session {
  import opened Store
  import ProductCard
  import CartItem

  datatype CartOp =
    | Add(product: ProductCard.Product)
    | SetQuantity(id: string, n: int)
    | Remove(id: string)

  function EffectOf(slot: Slot, op: CartOp): Effect {
    match op
    case Add(p) => ProductCard.AddEffect(slot, p)
    case SetQuantity(id, n) => CartItem.UpdateEffect(slot, id, n)
    case Remove(id) => CartItem.RemoveEffect(slot, id)
  }

  /** The slot once an effect is applied: written, or left as it was. */
  function After(slot: Slot, e: Effect): Slot {
    if e.Write? then Array(e.items) else slot
  }

  function Run(slot: Slot, ops: seq<CartOp>): Slot
    decreases |ops|
  {
    if ops == [] then slot else Run(After(slot, EffectOf(slot, ops[0])), ops[1..])
  }

  /** The slot, wherever the handlers can read it, holds a valid cart. */
  ghost predicate ValidSlot(slot: Slot) {
    Editable(slot).Some? ==> ValidCart(Editable(slot).value)
  }

  /** A single handler keeps the slot valid. */
  lemma StepValid(slot: Slot, op: CartOp)
    requires ValidSlot(slot)
    ensures ValidSlot(After(slot, EffectOf(slot, op)))
  {
    var e := EffectOf(slot, op);
    if e.Write? {
      var cart := Editable(slot).value;
      match op
      case Add(p) => ProductCard.AddedValid(cart, p);
      case SetQuantity(id, n) => CartItem.UpdateValid(cart, id, n);
      case Remove(id) => CartItem.UpdateValid(cart, id, 0);
    }
  }

  /**
    Whatever sequence of adds, set-quantities and removes runs, the cart never
    holds two lines with one product id, nor a line with quantity below 1.
  */
  lemma {:induction false} RunValid(slot: Slot, ops: seq<CartOp>)
    requires ValidSlot(slot)
    ensures ValidSlot(Run(slot, ops))
    decreases |ops|
  {
    if ops != [] {
      StepValid(slot, ops[0]);
      RunValid(After(slot, EffectOf(slot, ops[0])), ops[1..]);
    }
  }

  /** Starting from no cart at all, every run ends valid. */
  lemma FromEmpty(ops: seq<CartOp>)
    ensures ValidSlot(Run(Missing, ops))
  {
    RunValid(Missing, ops);
  }

  /** Adding "Hat" at 500, then the same id as "HatV2" at 999, keeps the first snapshot. */
  lemma HatScenario(p2: string, category: string)
    ensures Run(Missing, [Add(ProductCard.Product(p2, "Hat", 500, category)),
                          Add(ProductCard.Product(p2, "HatV2", 999, category))])
         == Array([LineItem(p2, "Hat", 500, 2)])
  {
    var hat := ProductCard.Product(p2, "Hat", 500, category);
    var hat2 := ProductCard.Product(p2, "HatV2", 999, category);
    var ops := [Add(hat), Add(hat2)];
    ProductCard.AddTwiceKeepsFirstSnapshot(p2, "Hat", 500, "HatV2", 999, category);
    var s1 := Array(ProductCard.Added([], hat));
    assert Run(Missing, ops) == Run(s1, ops[1..]);
    assert Run(s1, ops[1..]) == Run(Array(ProductCard.Added(ProductCard.Added([], hat), hat2)), []);
  }
}
