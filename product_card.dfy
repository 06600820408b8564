/**
 * The controls of one product card on the menu: the quantity shown for
 * the product, the + control (`addItem` with the defaults) and the -
 * control, which picks a store operation by the shown quantity.
 */
module ProductCardControls {
  import opened Wrappers
  import opened CartStore

  /** `items.find(item => item.product.id === id)`. */
  function Find(items: seq<CartLine>, id: string): (r: Option<CartLine>)
    ensures r.None? <==> !HasId(items, id)
    ensures r.Some? ==> FindIndex(items, id) >= 0 && r.value == items[FindIndex(items, id)]
  {
    if items == [] then None
    else if items[0].product.id == id then Some(items[0])
    else Find(items[1..], id)
  }

  /** The quantity shown on the card: that of the matching line, or 0. */
  function QuantityInCart(items: seq<CartLine>, id: string): int {
    match Find(items, id)
    case Some(line) => line.quantity
    case None => 0
  }

  /** What + does: `addItem(product)`, quantity 1 and an empty note. */
  function AddOne(items: seq<CartLine>, product: Product): seq<CartLine> {
    Added(items, product, 1, "")
  }

  /** What - does: remove at quantity 1, one less above 1, nothing otherwise. */
  function RemoveOne(items: seq<CartLine>, id: string): seq<CartLine> {
    var quantity := QuantityInCart(items, id);
    if quantity == 1 then Removed(items, id)
    else if quantity > 1 then QuantityUpdated(items, id, quantity - 1)
    else items
  }

  /** With unique ids, the shown quantity is that of the product's line, or 0 when it has none. */
  lemma {:induction false} QuantityShown(items: seq<CartLine>, id: string)
    requires UniqueIds(items)
    ensures !HasId(items, id) ==> QuantityInCart(items, id) == 0
    ensures forall i :: 0 <= i < |items| && items[i].product.id == id ==> QuantityInCart(items, id) == items[i].quantity
  {
    var k := FindIndex(items, id);
    forall i | 0 <= i < |items| && items[i].product.id == id ensures QuantityInCart(items, id) == items[i].quantity {
      assert k >= 0;
      assert i == k;
    }
  }

  /**
   * + raises the product's line by 1 without touching its note, or
   * appends a line with quantity 1 and an empty note when there is none.
   */
  lemma {:induction false} AddOneEffect(items: seq<CartLine>, product: Product)
    ensures HasId(items, product.id) ==>
      var k := FindIndex(items, product.id);
      AddOne(items, product) == items[k := items[k].(quantity := items[k].quantity + 1)]
    ensures !HasId(items, product.id) ==>
      AddOne(items, product) == items + [CartLine(product, 1, "")]
  {
    if HasId(items, product.id) {
      var k := FindIndex(items, product.id);
      AddedExisting(items, product, 1, "", k);
    } else {
      AddedAbsent(items, product, 1, "");
    }
  }

  /**
   * - at quantity 1 leaves no line for the product, above 1 lowers every
   * line for it by one, and at 0 (or below) changes nothing.
   */
  lemma {:induction false} RemoveOneEffect(items: seq<CartLine>, id: string)
    ensures var q := QuantityInCart(items, id);
      var r := RemoveOne(items, id);
      && (q == 1 ==> !HasId(r, id) && r == Removed(items, id))
      && (q > 1 ==> |r| == |items| && forall i :: 0 <= i < |items| ==>
            r[i] == if items[i].product.id == id then items[i].(quantity := q - 1) else items[i])
      && (q <= 0 ==> r == items)
  {
    var q := QuantityInCart(items, id);
    if q == 1 {
      RemovedGone(items, id);
    } else if q > 1 {
      QuantitySetAt(items, id, q - 1);
    }
  }

  lemma {:induction false} AddOneThenRemoveOnePresent(items: seq<CartLine>, product: Product)
    requires UniqueIds(items) && HasId(items, product.id)
    requires QuantityInCart(items, product.id) >= 1
    ensures RemoveOne(AddOne(items, product), product.id) == items
  {
    var id := product.id;
    var up := AddOne(items, product);
    var k := FindIndex(items, id);
    var q := items[k].quantity;
    assert up == items[k := items[k].(quantity := q + 1)] by {
      AddOneEffect(items, product);
    }
    assert QuantityInCart(items, id) == q by {
      QuantityShown(items, id);
    }
    assert FindIndex(up, id) == k by {
      assert up[k].product.id == id;
      assert forall j :: 0 <= j < k ==> up[j].product.id != id by {
        forall j | 0 <= j < k ensures up[j].product.id != id { assert up[j] == items[j]; }
      }
    }
    assert QuantityInCart(up, id) == q + 1;
    var down := QuantitySet(up, id, q);
    assert RemoveOne(up, id) == down;
    QuantitySetAt(up, id, q);
    forall i | 0 <= i < |items| ensures down[i] == items[i] {
      if items[i].product.id == id {
        assert i == k;
      } else {
        assert up[i] == items[i];
      }
    }
  }

  lemma {:induction false} AddOneThenRemoveOneAbsent(items: seq<CartLine>, product: Product)
    requires !HasId(items, product.id)
    ensures RemoveOne(AddOne(items, product), product.id) == items
  {
    var id := product.id;
    var line := CartLine(product, 1, "");
    var up := AddOne(items, product);
    assert up == items + [line] by {
      AddOneEffect(items, product);
    }
    assert FindIndex(up, id) == |items| by {
      assert forall j :: 0 <= j < |items| ==> up[j].product.id != id by {
        forall j | 0 <= j < |items| ensures up[j].product.id != id { assert up[j] == items[j]; }
      }
      assert up[|items|].product.id == id;
    }
    assert QuantityInCart(up, id) == 1;
    assert Removed(up, id) == items by {
      RemovedConcat(items, [line], id);
      RemovedAbsent(items, id);
      assert Removed([line], id) == [];
    }
  }

  /**
   * + followed by - leaves the cart as it was, whether the product was
   * absent or present with quantity at least 1 (ids unique).
   */
  lemma {:induction false} AddOneThenRemoveOne(items: seq<CartLine>, product: Product)
    requires UniqueIds(items)
    requires HasId(items, product.id) ==> QuantityInCart(items, product.id) >= 1
    ensures RemoveOne(AddOne(items, product), product.id) == items
  {
    if HasId(items, product.id) {
      AddOneThenRemoveOnePresent(items, product);
    } else {
      AddOneThenRemoveOneAbsent(items, product);
    }
  }

  /** One rendered product card: its product and the store. */
  class ProductCardView {
    const product: Product
    const store: Cart

    constructor (store: Cart, product: Product)
      ensures this.store == store && this.product == product
    {
      this.store := store;
      this.product := product;
    }

    function Quantity(): int
      reads store
    {
      QuantityInCart(store.items, product.id)
    }

    method HandleAddToCart()
      modifies store
      ensures store.items == AddOne(old(store.items), product)
    {
      store.AddItem(product, 1, "");
    }

    method HandleRemoveFromCart()
      modifies store
      ensures store.items == RemoveOne(old(store.items), product.id)
    {
      var quantity := Quantity();
      if quantity == 1 {
        store.RemoveItem(product.id);
      } else if quantity > 1 {
        store.UpdateQuantity(product.id, quantity - 1);
      }
    }
  }
}
