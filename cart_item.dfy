/**
 * The controls of one cart line on the cart page: +, -, the trash button
 * and the note editor. Each handler issues one store operation for the
 * line it was rendered with; the editor keeps a local draft and a flag.
 */
module CartItemControls {
  import opened CartStore

  /** What the + control does to the cart: `updateQuantity(id, quantity + 1)`. */
  function Increase(items: seq<CartLine>, line: CartLine): seq<CartLine> {
    QuantityUpdated(items, line.product.id, line.quantity + 1)
  }

  /** What the - control does: one less while above 1, otherwise `removeItem(id)`. */
  function Decrease(items: seq<CartLine>, line: CartLine): seq<CartLine> {
    if line.quantity > 1 then QuantityUpdated(items, line.product.id, line.quantity - 1)
    else Removed(items, line.product.id)
  }

  /**
   * On a line with a non-negative quantity, + sets the quantity of the
   * line's id to one more and changes nothing else (notes included). On a
   * line whose quantity is below -1 or equal to it (only stored data can
   * hold one), one more is still 0 or less, so + removes the id's lines.
   */
  lemma {:induction false} IncreaseEffect(items: seq<CartLine>, line: CartLine)
    ensures var r := Increase(items, line);
      && (line.quantity >= 0 ==>
           |r| == |items|
           && forall i :: 0 <= i < |items| ==>
                r[i] == if items[i].product.id == line.product.id then items[i].(quantity := line.quantity + 1) else items[i])
      && (line.quantity + 1 <= 0 ==> r == Removed(items, line.product.id) && !HasId(r, line.product.id))
  {
    if line.quantity >= 0 {
      QuantitySetAt(items, line.product.id, line.quantity + 1);
    } else if line.quantity + 1 <= 0 {
      RemovedGone(items, line.product.id);
    }
  }

  /**
   * Above 1, - sets the quantity of the line's id to one less, which is
   * still at least 1; at 1 or below it removes every line for the id. So no
   * line for the id is left with quantity 0 or less by this control.
   */
  lemma {:induction false} DecreaseEffect(items: seq<CartLine>, line: CartLine)
    ensures var r := Decrease(items, line);
      && (line.quantity > 1 ==>
           |r| == |items|
           && forall i :: 0 <= i < |items| ==>
                r[i] == if items[i].product.id == line.product.id then items[i].(quantity := line.quantity - 1) else items[i])
      && (line.quantity <= 1 ==> r == Removed(items, line.product.id) && !HasId(r, line.product.id))
      && forall i :: 0 <= i < |r| && r[i].product.id == line.product.id ==> r[i].quantity >= 1
  {
    if line.quantity > 1 {
      QuantitySetAt(items, line.product.id, line.quantity - 1);
    } else {
      RemovedGone(items, line.product.id);
    }
  }

  /** Saving a note stores exactly the edited text, even the empty one, on the line's id. */
  lemma {:induction false} NoteSaved(items: seq<CartLine>, line: CartLine, note: string)
    ensures var r := NoteSet(items, line.product.id, note);
      && |r| == |items|
      && forall i :: 0 <= i < |r| ==>
           (r[i].product.id == line.product.id ==> r[i].note == note)
           && (r[i].product.id != line.product.id ==> r[i] == items[i])
           && r[i].quantity == items[i].quantity
  {
    NoteSetAt(items, line.product.id, note);
  }

  /**
   * + and then - on the re-rendered line restore the cart, for a line of
   * the cart with quantity at least 1 when ids are unique.
   */
  lemma {:induction false} IncreaseThenDecrease(items: seq<CartLine>, k: nat)
    requires k < |items| && UniqueIds(items) && items[k].quantity >= 1
    ensures var line := items[k];
      Decrease(Increase(items, line), line.(quantity := line.quantity + 1)) == items
  {
    var line := items[k];
    var id := line.product.id;
    var q := line.quantity;
    var up := Increase(items, line);
    QuantitySetAt(items, id, q + 1);
    QuantitySetAt(up, id, q);
    var down := QuantitySet(up, id, q);
    assert Decrease(up, line.(quantity := q + 1)) == down;
    forall i | 0 <= i < |items| ensures down[i] == items[i] {
      if items[i].product.id == id {
        assert i == k;
      }
    }
  }

  /** One rendered cart line: the line it was rendered with, the store, and the note editor's state. */
  class CartItemView {
    const item: CartLine
    const store: Cart
    var isAddingNote: bool
    var note: string

    constructor (store: Cart, item: CartLine)
      ensures this.store == store && this.item == item
      ensures !isAddingNote && note == item.note
    {
      this.store := store;
      this.item := item;
      isAddingNote := false;
      note := item.note;
    }

    method HandleQuantityIncrease()
      modifies store
      ensures store.items == Increase(old(store.items), item)
    {
      store.UpdateQuantity(item.product.id, item.quantity + 1);
    }

    method HandleQuantityDecrease()
      modifies store
      ensures store.items == Decrease(old(store.items), item)
    {
      if item.quantity > 1 {
        store.UpdateQuantity(item.product.id, item.quantity - 1);
      } else {
        store.RemoveItem(item.product.id);
      }
    }

    method HandleRemoveItem()
      modifies store
      ensures store.items == Removed(old(store.items), item.product.id)
    {
      store.RemoveItem(item.product.id);
    }

    /** The "add/edit note" buttons open the editor on the current draft. */
    method OpenNoteEditor()
      modifies this
      ensures isAddingNote && note == old(note)
    {
      isAddingNote := true;
    }

    /** Typing in the editor replaces the draft. */
    method EditNote(text: string)
      modifies this
      ensures note == text && isAddingNote == old(isAddingNote)
    {
      note := text;
    }

    /** Cancel closes the editor and leaves the cart alone. */
    method CancelNote()
      modifies this
      ensures !isAddingNote && note == old(note)
    {
      isAddingNote := false;
    }

    /** Saving writes the draft to the line's id and closes the editor. */
    method HandleNoteSubmit()
      modifies this, store
      ensures store.items == NoteSet(old(store.items), item.product.id, old(note))
      ensures !isAddingNote && note == old(note)
    {
      store.UpdateNote(item.product.id, note);
      isAddingNote := false;
    }
  }
}
