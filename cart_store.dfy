/**
 * The shopping-cart store: an ordered list of lines, each a product with a
 * quantity and a free-text note, changed by five operations and summarised
 * by two folds. Prices are integer cents, so the subtotal is exact.
 *
 * Each operation is a pure function on the list of lines; the class `Cart`
 * holds the current list and replaces it through those operations, as the
 * provider does with its `setItems` updates.
 */
module CartStore {
  import opened Wrappers

  /** Menu reference data; `price` is in cents. */
  datatype Product = Product(id: string, name: string, price: int, description: string, category: string, image: string)

  /** One line of the cart. A note the customer never wrote is the empty string. */
  datatype CartLine = CartLine(product: Product, quantity: int, note: string)

  /** Some line of the cart is for the product with this id. */
  predicate HasId(items: seq<CartLine>, id: string) {
    exists i :: 0 <= i < |items| && items[i].product.id == id
  }

  /** The store's invariant: at most one line per product id. */
  predicate UniqueIds(items: seq<CartLine>) {
    forall i, j :: 0 <= i < j < |items| ==> items[i].product.id != items[j].product.id
  }

  /** `items.findIndex(item => item.product.id === id)`: the first matching index, or -1. */
  function FindIndex(items: seq<CartLine>, id: string): (k: int)
    ensures -1 <= k < |items|
    ensures k >= 0 ==> items[k].product.id == id
    ensures forall j :: 0 <= j < |items| && (k == -1 || j < k) ==> items[j].product.id != id
  {
    if items == [] then -1
    else if items[0].product.id == id then 0
    else
      var k := FindIndex(items[1..], id);
      if k == -1 then -1 else k + 1
  }

  /** An existing line after `addItem`: quantity raised, note replaced only by a non-empty one. */
  function Merged(line: CartLine, quantity: int, note: string): CartLine {
    line.(quantity := line.quantity + quantity, note := if note != "" then note else line.note)
  }

  /** The cart after `addItem(product, quantity, note)`: merge into the first line for the id, else append. */
  function Added(items: seq<CartLine>, product: Product, quantity: int, note: string): seq<CartLine> {
    if items == [] then [CartLine(product, quantity, note)]
    else if items[0].product.id == product.id then [Merged(items[0], quantity, note)] + items[1..]
    else [items[0]] + Added(items[1..], product, quantity, note)
  }

  /** The cart after `removeItem(id)`: the lines for other ids, in their order. */
  function Removed(items: seq<CartLine>, id: string): seq<CartLine> {
    if items == [] then []
    else if items[0].product.id == id then Removed(items[1..], id)
    else [items[0]] + Removed(items[1..], id)
  }

  /** Every line for the id with its quantity replaced. */
  function QuantitySet(items: seq<CartLine>, id: string, quantity: int): seq<CartLine> {
    if items == [] then []
    else [if items[0].product.id == id then items[0].(quantity := quantity) else items[0]]
         + QuantitySet(items[1..], id, quantity)
  }

  /** The cart after `updateQuantity(id, quantity)`. */
  function QuantityUpdated(items: seq<CartLine>, id: string, quantity: int): seq<CartLine> {
    if quantity <= 0 then Removed(items, id) else QuantitySet(items, id, quantity)
  }

  /** The cart after `updateNote(id, note)`: every line for the id with its note replaced. */
  function NoteSet(items: seq<CartLine>, id: string, note: string): seq<CartLine> {
    if items == [] then []
    else [if items[0].product.id == id then items[0].(note := note) else items[0]]
         + NoteSet(items[1..], id, note)
  }

  /** `itemCount`: the sum of the quantities. */
  function ItemCount(items: seq<CartLine>): int {
    if items == [] then 0 else items[0].quantity + ItemCount(items[1..])
  }

  /** `subtotal`: the sum of price times quantity, in cents. */
  function Subtotal(items: seq<CartLine>): int {
    if items == [] then 0 else items[0].product.price * items[0].quantity + Subtotal(items[1..])
  }

  // ---------------------------------------------------------------------
  // addItem

  /**
   * Adding a product whose id is already in the cart changes only the
   * first line for that id: its quantity grows by `quantity`, its product
   * stays, its note is replaced only by a non-empty note; length and order
   * are kept.
   */
  lemma {:induction false} AddedExisting(items: seq<CartLine>, product: Product, quantity: int, note: string, k: nat)
    requires k < |items| && items[k].product.id == product.id
    requires forall j :: 0 <= j < k ==> items[j].product.id != product.id
    ensures Added(items, product, quantity, note) == items[k := Merged(items[k], quantity, note)]
    ensures var r := Added(items, product, quantity, note);
      && |r| == |items|
      && r[k].product == items[k].product
      && r[k].quantity == items[k].quantity + quantity
      && r[k].note == (if note != "" then note else items[k].note)
      && forall j :: 0 <= j < |items| && j != k ==> r[j] == items[j]
  {
    if k > 0 {
      AddedExisting(items[1..], product, quantity, note, k - 1);
      assert [items[0]] + items[1..][k - 1 := Merged(items[k], quantity, note)]
          == items[k := Merged(items[k], quantity, note)];
    }
  }

  /** Adding a product whose id is absent appends exactly one line, at the end. */
  lemma {:induction false} AddedAbsent(items: seq<CartLine>, product: Product, quantity: int, note: string)
    requires !HasId(items, product.id)
    ensures Added(items, product, quantity, note) == items + [CartLine(product, quantity, note)]
  {
    if items != [] {
      assert !HasId(items[1..], product.id) by {
        forall i | 0 <= i < |items[1..]| ensures items[1..][i].product.id != product.id {
          assert items[1..][i] == items[i + 1];
        }
      }
      AddedAbsent(items[1..], product, quantity, note);
      assert [items[0]] + (items[1..] + [CartLine(product, quantity, note)]) == items + [CartLine(product, quantity, note)];
    }
  }

  /** The line list after `addItem` keeps the product ids of the old one, plus the new id when it was absent. */
  lemma {:induction false} AddedIds(items: seq<CartLine>, product: Product, quantity: int, note: string)
    ensures var r := Added(items, product, quantity, note);
      && (HasId(items, product.id) ==> |r| == |items| && forall i :: 0 <= i < |r| ==> r[i].product.id == items[i].product.id)
      && (!HasId(items, product.id) ==> |r| == |items| + 1 && r[..|items|] == items && r[|items|].product.id == product.id)
  {
    var k := FindIndex(items, product.id);
    if k >= 0 {
      AddedExisting(items, product, quantity, note, k);
    } else {
      AddedAbsent(items, product, quantity, note);
    }
  }

  /** `addItem` keeps at most one line per product id. */
  lemma {:induction false} AddedKeepsUnique(items: seq<CartLine>, product: Product, quantity: int, note: string)
    requires UniqueIds(items)
    ensures UniqueIds(Added(items, product, quantity, note))
  {
    AddedIds(items, product, quantity, note);
  }

  // ---------------------------------------------------------------------
  // removeItem

  /** A line survives `removeItem(id)` iff it was in the cart and is for another id. */
  lemma {:induction false} RemovedMembers(items: seq<CartLine>, id: string)
    ensures forall x :: x in Removed(items, id) <==> x in items && x.product.id != id
  {
    if items != [] {
      RemovedMembers(items[1..], id);
      assert items == [items[0]] + items[1..];
    }
  }

  /** `removeItem` distributes over concatenation, so the survivors keep their relative order. */
  lemma {:induction false} RemovedConcat(a: seq<CartLine>, b: seq<CartLine>, id: string)
    ensures Removed(a + b, id) == Removed(a, id) + Removed(b, id)
  {
    if a == [] {
      assert a + b == b;
    } else {
      var head: seq<CartLine> := if a[0].product.id == id then [] else [a[0]];
      assert Removed(a + b, id) == head + Removed(a[1..] + b, id) by {
        assert (a + b)[0] == a[0];
        assert (a + b)[1..] == a[1..] + b;
      }
      assert Removed(a, id) == head + Removed(a[1..], id);
      RemovedConcat(a[1..], b, id);
      assert head + (Removed(a[1..], id) + Removed(b, id)) == (head + Removed(a[1..], id)) + Removed(b, id);
    }
  }

  /** `removeItem` of an absent id changes nothing. */
  lemma {:induction false} RemovedAbsent(items: seq<CartLine>, id: string)
    requires !HasId(items, id)
    ensures Removed(items, id) == items
  {
    if items != [] {
      assert items[0].product.id != id;
      assert !HasId(items[1..], id) by {
        forall i | 0 <= i < |items[1..]| ensures items[1..][i].product.id != id {
          assert items[1..][i] == items[i + 1];
        }
      }
      RemovedAbsent(items[1..], id);
      assert items == [items[0]] + items[1..];
    }
  }

  /** `removeItem` leaves no line for the id and never lengthens the cart. */
  lemma {:induction false} RemovedGone(items: seq<CartLine>, id: string)
    ensures !HasId(Removed(items, id), id)
    ensures |Removed(items, id)| <= |items|
  {
    RemovedMembers(items, id);
    if items != [] {
      RemovedGone(items[1..], id);
    }
  }

  /** `removeItem` keeps at most one line per product id. */
  lemma {:induction false} RemovedKeepsUnique(items: seq<CartLine>, id: string)
    requires UniqueIds(items)
    ensures UniqueIds(Removed(items, id))
  {
    if items != [] {
      var rest := Removed(items[1..], id);
      assert UniqueIds(items[1..]) by {
        forall i, j | 0 <= i < j < |items[1..]|
          ensures items[1..][i].product.id != items[1..][j].product.id
        {
          assert items[1..][i] == items[i + 1] && items[1..][j] == items[j + 1];
        }
      }
      RemovedKeepsUnique(items[1..], id);
      RemovedMembers(items[1..], id);
      if items[0].product.id != id {
        forall j | 0 <= j < |rest| ensures rest[j].product.id != items[0].product.id {
          assert rest[j] in items[1..];
          var m :| 0 <= m < |items[1..]| && items[1..][m] == rest[j];
          assert items[m + 1] == rest[j];
        }
        var r := [items[0]] + rest;
        forall i, j | 0 <= i < j < |r| ensures r[i].product.id != r[j].product.id {
          if i > 0 { assert r[i] == rest[i - 1] && r[j] == rest[j - 1]; }
          else { assert r[j] == rest[j - 1]; }
        }
      }
    }
  }

  // ---------------------------------------------------------------------
  // updateQuantity and updateNote

  /** Setting the quantity of an id touches exactly the lines for that id, and only their quantity. */
  lemma {:induction false} QuantitySetAt(items: seq<CartLine>, id: string, quantity: int)
    ensures var r := QuantitySet(items, id, quantity);
      && |r| == |items|
      && forall i :: 0 <= i < |items| ==>
           r[i] == if items[i].product.id == id then items[i].(quantity := quantity) else items[i]
  {
    if items != [] {
      QuantitySetAt(items[1..], id, quantity);
    }
  }

  /** Setting the note of an id touches exactly the lines for that id, and only their note. */
  lemma {:induction false} NoteSetAt(items: seq<CartLine>, id: string, note: string)
    ensures var r := NoteSet(items, id, note);
      && |r| == |items|
      && forall i :: 0 <= i < |items| ==>
           r[i] == if items[i].product.id == id then items[i].(note := note) else items[i]
  {
    if items != [] {
      NoteSetAt(items[1..], id, note);
    }
  }

  /** `updateQuantity` with a positive quantity keeps the ids, so it keeps at most one line per id. */
  lemma {:induction false} QuantityUpdatedKeepsUnique(items: seq<CartLine>, id: string, quantity: int)
    requires UniqueIds(items)
    ensures UniqueIds(QuantityUpdated(items, id, quantity))
  {
    if quantity <= 0 {
      RemovedKeepsUnique(items, id);
    } else {
      QuantitySetAt(items, id, quantity);
    }
  }

  /** `updateNote` keeps the ids, so it keeps at most one line per id. */
  lemma {:induction false} NoteSetKeepsUnique(items: seq<CartLine>, id: string, note: string)
    requires UniqueIds(items)
    ensures UniqueIds(NoteSet(items, id, note))
  {
    NoteSetAt(items, id, note);
  }

  /** `updateQuantity` and `updateNote` of an absent id change nothing. */
  lemma {:induction false} UpdatesOfAbsentId(items: seq<CartLine>, id: string, quantity: int, note: string)
    requires !HasId(items, id)
    ensures QuantityUpdated(items, id, quantity) == items
    ensures NoteSet(items, id, note) == items
  {
    if quantity <= 0 {
      RemovedAbsent(items, id);
    } else {
      QuantitySetAt(items, id, quantity);
    }
    NoteSetAt(items, id, note);
  }

  // ---------------------------------------------------------------------
  // itemCount and subtotal

  lemma {:induction false} TotalsConcat(a: seq<CartLine>, b: seq<CartLine>)
    ensures ItemCount(a + b) == ItemCount(a) + ItemCount(b)
    ensures Subtotal(a + b) == Subtotal(a) + Subtotal(b)
  {
    if a == [] {
      assert a + b == b;
    } else {
      TotalsConcat(a[1..], b);
      assert (a + b)[0] == a[0];
      assert (a + b)[1..] == a[1..] + b;
    }
  }

  /**
   * `addItem(product, quantity)` raises `itemCount` by `quantity` and
   * `subtotal` by the unit price times `quantity`, where the unit price is
   * that of the product already in the cart under this id, if any.
   */
  lemma {:induction false} TotalsAdded(items: seq<CartLine>, product: Product, quantity: int, note: string)
    ensures ItemCount(Added(items, product, quantity, note)) == ItemCount(items) + quantity
    ensures Subtotal(Added(items, product, quantity, note)) == Subtotal(items) +
      (if HasId(items, product.id) then items[FindIndex(items, product.id)].product.price else product.price) * quantity
  {
    if items != [] && items[0].product.id != product.id {
      TotalsAdded(items[1..], product, quantity, note);
      var k := FindIndex(items, product.id);
      if HasId(items, product.id) {
        var w :| 0 <= w < |items| && items[w].product.id == product.id;
        assert items[1..][w - 1].product.id == product.id;
        assert HasId(items[1..], product.id);
        assert k >= 1 && FindIndex(items[1..], product.id) == k - 1;
      } else {
        assert !HasId(items[1..], product.id) by {
          forall i | 0 <= i < |items[1..]| ensures items[1..][i].product.id != product.id {
            assert items[1..][i] == items[i + 1];
          }
        }
      }
    } else if items != [] {
      assert HasId(items, product.id) && FindIndex(items, product.id) == 0;
    }
  }

  /** Clearing the cart leaves nothing to count or pay. */
  lemma {:induction false} TotalsEmpty()
    ensures ItemCount([]) == 0 && Subtotal([]) == 0
  {
  }

  /** Two burgers at 28.90 and one soda at 6.00 make three items and 63.80. */
  lemma {:induction false} TotalsExample(burger: Product, soda: Product)
    requires burger.price == 2890 && soda.price == 600
    ensures var items := [CartLine(burger, 2, ""), CartLine(soda, 1, "")];
      ItemCount(items) == 3 && Subtotal(items) == 6380
  {
    var items := [CartLine(burger, 2, ""), CartLine(soda, 1, "")];
    var tail := [CartLine(soda, 1, "")];
    assert items[1..] == tail && tail[1..] == [];
    assert ItemCount(tail) == 1 && Subtotal(tail) == 600;
    assert ItemCount(items) == 2 + ItemCount(tail);
    assert Subtotal(items) == 2890 * 2 + Subtotal(tail);
  }

  // ---------------------------------------------------------------------
  // Repeated adds of one product

  /** The cart after adding the same product once per quantity in `qs`, with the default empty note. */
  function AddedAll(items: seq<CartLine>, product: Product, qs: seq<int>): seq<CartLine>
    decreases |qs|
  {
    if qs == [] then items else AddedAll(Added(items, product, qs[0], ""), product, qs[1..])
  }

  function Sum(qs: seq<int>): int {
    if qs == [] then 0 else qs[0] + Sum(qs[1..])
  }

  lemma {:induction false} AddedAllExisting(items: seq<CartLine>, product: Product, qs: seq<int>, k: nat)
    requires k < |items| && items[k].product.id == product.id
    requires forall j :: 0 <= j < k ==> items[j].product.id != product.id
    ensures AddedAll(items, product, qs) == items[k := items[k].(quantity := items[k].quantity + Sum(qs))]
    decreases |qs|
  {
    if qs != [] {
      var next := Added(items, product, qs[0], "");
      AddedExisting(items, product, qs[0], "", k);
      AddedAllExisting(next, product, qs[1..], k);
      assert next[k := next[k].(quantity := next[k].quantity + Sum(qs[1..]))]
          == items[k := items[k].(quantity := items[k].quantity + Sum(qs))];
    } else {
      assert items[k := items[k]] == items;
    }
  }

  /**
   * Adding one product several times to a cart without it yields exactly one
   * line for it, at the end, whose quantity is the sum of the quantities
   * passed; the earlier lines are untouched.
   */
  lemma {:induction false} AddedAllOneLine(items: seq<CartLine>, product: Product, qs: seq<int>)
    requires !HasId(items, product.id) && qs != []
    ensures var r := AddedAll(items, product, qs);
      && |r| == |items| + 1
      && r[..|items|] == items
      && r[|items|] == CartLine(product, Sum(qs), "")
      && forall j :: 0 <= j < |r| && r[j].product.id == product.id ==> j == |items|
  {
    var n := |items|;
    var line := CartLine(product, qs[0], "");
    var first := Added(items, product, qs[0], "");
    AddedAbsent(items, product, qs[0], "");
    assert first == items + [line];
    assert forall j :: 0 <= j < n ==> first[j].product.id != product.id by {
      forall j | 0 <= j < n ensures first[j].product.id != product.id {
        assert first[j] == items[j];
      }
    }
    AddedAllExisting(first, product, qs[1..], n);
    var r := AddedAll(items, product, qs);
    assert r == first[n := line.(quantity := qs[0] + Sum(qs[1..]))];
    assert r == items + [CartLine(product, Sum(qs), "")];
    assert forall j :: 0 <= j < n ==> r[j].product.id != product.id by {
      forall j | 0 <= j < n ensures r[j].product.id != product.id {
        assert r[j] == items[j];
      }
    }
  }

  // ---------------------------------------------------------------------
  // The store

  class Cart {
    var items: seq<CartLine>

    constructor ()
      ensures items == []
    {
      items := [];
    }

    /** Rehydration on mount: a saved value replaces the lines unless it is missing, empty or unparseable. */
    method Load(saved: Option<string>, parse: string -> Option<seq<CartLine>>)
      modifies this
      ensures saved.Some? && saved.value != "" && parse(saved.value).Some? ==> items == parse(saved.value).value
      ensures saved.None? || saved.value == "" || parse(saved.value).None? ==> items == old(items)
    {
      if saved.Some? && saved.value != "" {
        var parsed := parse(saved.value);
        if parsed.Some? {
          items := parsed.value;
        }
      }
    }

    method AddItem(product: Product, quantity: int, note: string)
      modifies this
      ensures items == Added(old(items), product, quantity, note)
      ensures UniqueIds(old(items)) ==> UniqueIds(items)
    {
      var k := FindIndex(items, product.id);
      if k > -1 {
        AddedExisting(items, product, quantity, note, k);
        var updatedItems := items;
        updatedItems := updatedItems[k := Merged(updatedItems[k], quantity, note)];
        items := updatedItems;
      } else {
        AddedAbsent(items, product, quantity, note);
        items := items + [CartLine(product, quantity, note)];
      }
      if UniqueIds(old(items)) {
        AddedKeepsUnique(old(items), product, quantity, note);
      }
    }

    method RemoveItem(id: string)
      modifies this
      ensures items == Removed(old(items), id)
      ensures UniqueIds(old(items)) ==> UniqueIds(items)
    {
      if UniqueIds(items) {
        RemovedKeepsUnique(items, id);
      }
      items := Removed(items, id);
    }

    method UpdateQuantity(id: string, quantity: int)
      modifies this
      ensures items == QuantityUpdated(old(items), id, quantity)
      ensures quantity <= 0 ==> items == Removed(old(items), id)
      ensures UniqueIds(old(items)) ==> UniqueIds(items)
    {
      if quantity <= 0 {
        RemoveItem(id);
        return;
      }
      if UniqueIds(items) {
        QuantityUpdatedKeepsUnique(items, id, quantity);
      }
      items := QuantitySet(items, id, quantity);
    }

    method UpdateNote(id: string, note: string)
      modifies this
      ensures items == NoteSet(old(items), id, note)
      ensures UniqueIds(old(items)) ==> UniqueIds(items)
    {
      if UniqueIds(items) {
        NoteSetKeepsUnique(items, id, note);
      }
      items := NoteSet(items, id, note);
    }

    method ClearCart()
      modifies this
      ensures items == [] && ItemCount(items) == 0 && Subtotal(items) == 0
    {
      items := [];
    }
  }
}
