/**
 * The WhatsApp order message and deep link. The message is a list of
 * lines joined by newlines: a header, the customer's name, the delivery
 * section, one bullet line per order item (with a note line when the item
 * has a note), the payment section with optional change lines, and the
 * total. The builder accumulates the text step by step and returns its
 * percent-encoding; the link is `https://wa.me/<digits>?text=<encoded>`.
 * Money is in integer cents and the currency formatter is a parameter.
 */
module WhatsApp {
  import opened Wrappers
  import opened Text
  import opened UriEncoding

  datatype DeliveryOption = Pickup | Delivery
  datatype PaymentMethod = Pix | Cash

  /** The checkout form as sent; `address`, `changeNeeded` and `changeAmount` may be absent. */
  datatype CheckoutFormData = CheckoutFormData(
    name: string,
    deliveryOption: DeliveryOption,
    address: Option<string>,
    paymentMethod: PaymentMethod,
    changeNeeded: Option<bool>,
    changeAmount: Option<int>)

  datatype OrderItem = OrderItem(name: string, price: int, quantity: int, note: Option<string>)

  /** JavaScript truthiness of an optional string: present and non-empty. */
  predicate Truthy(s: Option<string>) {
    s.Some? && s.value != ""
  }

  const Header: string := "\U{1F37D}\U{FE0F} *NOVO PEDIDO* \U{1F37D}\U{FE0F}"
  const DeliveryTypeLine: string := "*Tipo:* Entrega"
  const PickupTypeLine: string := "*Tipo:* Retirada"
  const ItemsHeader: string := "*ITENS DO PEDIDO:*"
  const PaymentHeader: string := "*PAGAMENTO:*"

  function NameLine(name: string): string {
    "*Nome do cliente:* " + name
  }

  function AddressLine(address: string): string {
    "*Endere\U{00E7}o:* " + address
  }

  /** The delivery section is shown iff delivery is chosen and the address is non-empty. */
  predicate ShowsAddress(form: CheckoutFormData) {
    form.deliveryOption == Delivery && Truthy(form.address)
  }

  function DeliveryLines(form: CheckoutFormData): seq<string> {
    if ShowsAddress(form) then [DeliveryTypeLine, AddressLine(form.address.value), ""]
    else [PickupTypeLine, ""]
  }

  function OpeningLines(form: CheckoutFormData): seq<string> {
    [Header, "", NameLine(form.name)] + DeliveryLines(form) + [ItemsHeader]
  }

  function BulletLine(item: OrderItem, fmt: int -> string): string {
    "\U{2022} " + IntToString(item.quantity) + "x " + item.name + " - " + fmt(item.price * item.quantity)
  }

  function NoteLine(note: string): string {
    "   _Obs: " + note + "_"
  }

  function ItemLines(item: OrderItem, fmt: int -> string): seq<string> {
    [BulletLine(item, fmt)] + (if Truthy(item.note) then [NoteLine(item.note.value)] else [])
  }

  /** The lines of the items, in order. */
  function ItemsLines(items: seq<OrderItem>, fmt: int -> string): seq<string> {
    if items == [] then []
    else ItemsLines(items[..|items| - 1], fmt) + ItemLines(items[|items| - 1], fmt)
  }

  function MethodLine(method': PaymentMethod): string {
    "*M\U{00E9}todo:* " + (if method' == Pix then "PIX" else "Dinheiro")
  }

  /** The change lines are shown iff cash, change wanted, and a non-zero amount. */
  predicate ShowsChange(form: CheckoutFormData) {
    && form.paymentMethod == Cash
    && form.changeNeeded == Some(true)
    && form.changeAmount.Some? && form.changeAmount.value != 0
  }

  function ChangeGivenLine(changeAmount: int, fmt: int -> string): string {
    "*Troco para:* " + fmt(changeAmount)
  }

  /** The change due is the amount handed over minus the total. */
  function ChangeDueLine(changeAmount: int, subtotal: int, fmt: int -> string): string {
    "*Troco a ser dado:* " + fmt(changeAmount - subtotal)
  }

  function ChangeLines(form: CheckoutFormData, subtotal: int, fmt: int -> string): seq<string> {
    if ShowsChange(form) then
      [ChangeGivenLine(form.changeAmount.value, fmt), ChangeDueLine(form.changeAmount.value, subtotal, fmt)]
    else []
  }

  function PaymentLines(form: CheckoutFormData, subtotal: int, fmt: int -> string): seq<string> {
    ["", PaymentHeader, MethodLine(form.paymentMethod)] + ChangeLines(form, subtotal, fmt)
  }

  function TotalLine(subtotal: int, fmt: int -> string): string {
    "*TOTAL: " + fmt(subtotal) + "*"
  }

  /** Every line of the message but the last, each of which ends with a newline. */
  function BodyLines(items: seq<OrderItem>, form: CheckoutFormData, subtotal: int, fmt: int -> string): seq<string> {
    OpeningLines(form) + ItemsLines(items, fmt) + PaymentLines(form, subtotal, fmt) + [""]
  }

  /** The message as a list of lines. */
  function MessageLines(items: seq<OrderItem>, form: CheckoutFormData, subtotal: int, fmt: int -> string): seq<string> {
    BodyLines(items, form, subtotal, fmt) + [TotalLine(subtotal, fmt)]
  }

  /** The message text: its lines joined by newlines. */
  function MessageText(items: seq<OrderItem>, form: CheckoutFormData, subtotal: int, fmt: int -> string): string {
    Join(MessageLines(items, form, subtotal, fmt), "\n")
  }

  /** Each line followed by a newline. */
  function Terminated(lines: seq<string>): string {
    if lines == [] then "" else Terminated(lines[..|lines| - 1]) + lines[|lines| - 1] + "\n"
  }

  lemma {:induction false} TerminatedSnoc(lines: seq<string>, line: string)
    ensures Terminated(lines + [line]) == Terminated(lines) + line + "\n"
  {
    assert (lines + [line])[..|lines|] == lines;
  }

  lemma {:induction false} TerminatedConcat(a: seq<string>, b: seq<string>)
    ensures Terminated(a + b) == Terminated(a) + Terminated(b)
    decreases |b|
  {
    if b == [] {
      assert a + b == a;
    } else {
      var init := b[..|b| - 1];
      var last := b[|b| - 1];
      assert b == init + [last];
      assert a + b == (a + init) + [last];
      TerminatedConcat(a, init);
      TerminatedSnoc(a + init, last);
      TerminatedSnoc(init, last);
    }
  }

  lemma {:induction false} ConcatAssoc(a: string, b: string, c: string)
    ensures (a + b) + c == a + (b + c)
  {
  }

  /** Joining with newlines is terminating all lines but the last. */
  lemma {:induction false} JoinIsTerminated(body: seq<string>, last: string)
    ensures Join(body + [last], "\n") == Terminated(body) + last
  {
    if body != [] {
      JoinIsTerminated(body[1..], last);
      assert (body + [last])[1..] == body[1..] + [last];
      assert body == [body[0]] + body[1..];
      TerminatedConcat([body[0]], body[1..]);
      TerminatedSnoc([], body[0]);
      assert [] + [body[0]] == [body[0]];
    }
  }

  lemma {:induction false} TerminatedOne(x: string)
    ensures Terminated([x]) == x + "\n"
  {
    TerminatedSnoc([], x);
    assert [] + [x] == [x];
  }

  lemma {:induction false} TerminatedTwo(x: string, y: string)
    ensures Terminated([x, y]) == x + "\n" + y + "\n"
  {
    TerminatedOne(x);
    TerminatedSnoc([x], y);
    assert [x] + [y] == [x, y];
  }

  lemma {:induction false} TerminatedThree(x: string, y: string, z: string)
    ensures Terminated([x, y, z]) == x + "\n" + y + "\n" + z + "\n"
  {
    TerminatedTwo(x, y);
    TerminatedSnoc([x, y], z);
    assert [x, y] + [z] == [x, y, z];
  }

  /** The opening lines, written the way the builder appends them (generic in the texts). */
  lemma {:induction false} OpeningShape(header: string, name: string, delivery: seq<string>, itemsHeader: string)
    ensures Terminated([header, "", name] + delivery + [itemsHeader]) ==
      header + "\n\n" + (name + "\n") + Terminated(delivery) + (itemsHeader + "\n")
  {
    TerminatedThree(header, "", name);
    TerminatedOne(itemsHeader);
    TerminatedConcat([header, "", name] + delivery, [itemsHeader]);
    TerminatedConcat([header, "", name], delivery);
  }

  lemma {:induction false} DeliveryShape(prefix: string, kind: string, address: string, rest: string)
    ensures prefix + Terminated([kind, address, ""]) + rest == prefix + (kind + "\n") + (address + "\n\n") + rest
  {
    TerminatedThree(kind, address, "");
  }

  lemma {:induction false} PickupShape(prefix: string, kind: string, rest: string)
    ensures prefix + Terminated([kind, ""]) + rest == prefix + (kind + "\n\n") + rest
  {
    TerminatedTwo(kind, "");
  }

  lemma {:induction false} OpeningText(form: CheckoutFormData)
    ensures ShowsAddress(form) ==>
      Terminated(OpeningLines(form)) ==
      Header + "\n\n" + (NameLine(form.name) + "\n") + (DeliveryTypeLine + "\n")
      + (AddressLine(form.address.value) + "\n\n") + (ItemsHeader + "\n")
    ensures !ShowsAddress(form) ==>
      Terminated(OpeningLines(form)) ==
      Header + "\n\n" + (NameLine(form.name) + "\n") + (PickupTypeLine + "\n\n") + (ItemsHeader + "\n")
  {
    OpeningShape(Header, NameLine(form.name), DeliveryLines(form), ItemsHeader);
    if ShowsAddress(form) {
      DeliveryShape(Header + "\n\n" + (NameLine(form.name) + "\n"), DeliveryTypeLine, AddressLine(form.address.value), ItemsHeader + "\n");
    } else {
      PickupShape(Header + "\n\n" + (NameLine(form.name) + "\n"), PickupTypeLine, ItemsHeader + "\n");
    }
  }

  lemma {:induction false} AppendShape(prefix: string, lines: seq<string>, x: string)
    ensures prefix + Terminated(lines + [x]) == prefix + Terminated(lines) + (x + "\n")
  {
    TerminatedSnoc(lines, x);
  }

  /** One more item appends its bullet line and, when it has a note, its note line. */
  lemma {:induction false} ItemStep(prefix: string, items: seq<OrderItem>, i: nat, fmt: int -> string)
    requires i < |items|
    ensures Truthy(items[i].note) ==>
      prefix + Terminated(ItemsLines(items[..i + 1], fmt)) ==
      prefix + Terminated(ItemsLines(items[..i], fmt)) + (BulletLine(items[i], fmt) + "\n") + (NoteLine(items[i].note.value) + "\n")
    ensures !Truthy(items[i].note) ==>
      prefix + Terminated(ItemsLines(items[..i + 1], fmt)) ==
      prefix + Terminated(ItemsLines(items[..i], fmt)) + (BulletLine(items[i], fmt) + "\n")
  {
    var item := items[i];
    var before := ItemsLines(items[..i], fmt);
    assert items[..i + 1][..i] == items[..i];
    assert ItemsLines(items[..i + 1], fmt) == before + ItemLines(item, fmt);
    if Truthy(item.note) {
      assert before + ItemLines(item, fmt) == (before + [BulletLine(item, fmt)]) + [NoteLine(item.note.value)];
      AppendShape(prefix, before + [BulletLine(item, fmt)], NoteLine(item.note.value));
      AppendShape(prefix, before, BulletLine(item, fmt));
    } else {
      assert ItemLines(item, fmt) == [BulletLine(item, fmt)];
      AppendShape(prefix, before, BulletLine(item, fmt));
    }
  }

  lemma {:induction false} PaymentShape(prefix: string, paymentHeader: string, methodLine: string, change: seq<string>)
    ensures prefix + Terminated(["", paymentHeader, methodLine] + change) ==
      prefix + ("\n" + paymentHeader + "\n") + (methodLine + "\n") + Terminated(change)
  {
    TerminatedConcat(["", paymentHeader, methodLine], change);
    TerminatedThree("", paymentHeader, methodLine);
  }

  lemma {:induction false} ChangeShape(prefix: string, given: string, due: string)
    ensures prefix + Terminated([given, due]) == prefix + (given + "\n") + (due + "\n")
  {
    TerminatedTwo(given, due);
  }

  lemma {:induction false} PaymentText(prefix: string, form: CheckoutFormData, subtotal: int, fmt: int -> string)
    ensures ShowsChange(form) ==>
      prefix + Terminated(PaymentLines(form, subtotal, fmt)) ==
      prefix + ("\n" + PaymentHeader + "\n") + (MethodLine(form.paymentMethod) + "\n")
      + (ChangeGivenLine(form.changeAmount.value, fmt) + "\n") + (ChangeDueLine(form.changeAmount.value, subtotal, fmt) + "\n")
    ensures !ShowsChange(form) ==>
      prefix + Terminated(PaymentLines(form, subtotal, fmt)) ==
      prefix + ("\n" + PaymentHeader + "\n") + (MethodLine(form.paymentMethod) + "\n")
  {
    var change := ChangeLines(form, subtotal, fmt);
    PaymentShape(prefix, PaymentHeader, MethodLine(form.paymentMethod), change);
    if ShowsChange(form) {
      ChangeShape(prefix + ("\n" + PaymentHeader + "\n") + (MethodLine(form.paymentMethod) + "\n"),
        ChangeGivenLine(form.changeAmount.value, fmt), ChangeDueLine(form.changeAmount.value, subtotal, fmt));
    }
  }

  lemma {:induction false} SectionsShape(opening: seq<string>, items: seq<string>, payment: seq<string>, total: string)
    ensures Join(opening + items + payment + [""] + [total], "\n") ==
      Terminated(opening) + Terminated(items) + Terminated(payment) + ("\n" + total)
  {
    JoinIsTerminated(opening + items + payment + [""], total);
    TerminatedConcat(opening + items + payment, [""]);
    TerminatedConcat(opening + items, payment);
    TerminatedConcat(opening, items);
    TerminatedOne("");
  }

  /** The header, name and delivery part of `generateOrderMessage`, up to the items header. */
  method AppendOpening(formData: CheckoutFormData) returns (message: string)
    ensures message == Terminated(OpeningLines(formData))
  {
    OpeningText(formData);
    message := Header + "\n\n";
    message := message + (NameLine(formData.name) + "\n");
    if formData.deliveryOption == Delivery && Truthy(formData.address) {
      message := message + (DeliveryTypeLine + "\n");
      message := message + (AddressLine(formData.address.value) + "\n\n");
    } else {
      message := message + (PickupTypeLine + "\n\n");
    }
    message := message + (ItemsHeader + "\n");
  }

  /** The payment part of `generateOrderMessage`, appended to the text so far. */
  method AppendPayment(prefix: string, formData: CheckoutFormData, subtotal: int, fmt: int -> string) returns (message: string)
    ensures message == prefix + Terminated(PaymentLines(formData, subtotal, fmt))
  {
    PaymentText(prefix, formData, subtotal, fmt);
    message := prefix + ("\n" + PaymentHeader + "\n");
    message := message + (MethodLine(formData.paymentMethod) + "\n");
    if formData.paymentMethod == Cash && formData.changeNeeded == Some(true)
      && formData.changeAmount.Some? && formData.changeAmount.value != 0
    {
      message := message + (ChangeGivenLine(formData.changeAmount.value, fmt) + "\n");
      message := message + (ChangeDueLine(formData.changeAmount.value, subtotal, fmt) + "\n");
    }
  }

  /**
   * `generateOrderMessage`: builds the message by appending to a string,
   * one item after the other, and returns its percent-encoding, which
   * decodes back to the message.
   */
  method GenerateOrderMessage(orderItems: seq<OrderItem>, formData: CheckoutFormData, subtotal: int, fmt: int -> string)
    returns (encoded: string)
    ensures encoded == PercentEncode(MessageText(orderItems, formData, subtotal, fmt))
    ensures PercentDecode(encoded) == Some(MessageText(orderItems, formData, subtotal, fmt))
  {
    var message := AppendOpening(formData);
    ghost var opening := message;
    assert message == opening + Terminated(ItemsLines(orderItems[..0], fmt)) by {
      assert orderItems[..0] == [];
    }

    for i := 0 to |orderItems|
      invariant message == opening + Terminated(ItemsLines(orderItems[..i], fmt))
    {
      var item := orderItems[i];
      ItemStep(opening, orderItems, i, fmt);
      message := message + (BulletLine(item, fmt) + "\n");
      if Truthy(item.note) {
        message := message + (NoteLine(item.note.value) + "\n");
      }
    }
    assert orderItems[..|orderItems|] == orderItems;

    message := AppendPayment(message, formData, subtotal, fmt);
    message := message + ("\n" + TotalLine(subtotal, fmt));
    assert message == MessageText(orderItems, formData, subtotal, fmt) by {
      SectionsShape(OpeningLines(formData), ItemsLines(orderItems, fmt), PaymentLines(formData, subtotal, fmt), TotalLine(subtotal, fmt));
    }

    encoded := PercentEncode(message);
    PercentRoundTrip(message);
  }

  // ----- the message, line by line -----

  /** The message starts with the header, an empty line and the customer's name. */
  lemma {:induction false} MessageStart(items: seq<OrderItem>, form: CheckoutFormData, subtotal: int, fmt: int -> string)
    ensures var lines := MessageLines(items, form, subtotal, fmt);
      |lines| > 3 && lines[0] == Header && lines[1] == "" && lines[2] == NameLine(form.name)
  {
    var lines := MessageLines(items, form, subtotal, fmt);
    assert lines[..|OpeningLines(form)|] == OpeningLines(form);
  }

  /**
   * Line 3 is the delivery line, followed by the address line, iff delivery
   * was chosen with a non-empty address; otherwise it is the pickup line,
   * also for delivery with a blank address.
   */
  lemma {:induction false} DeliverySection(items: seq<OrderItem>, form: CheckoutFormData, subtotal: int, fmt: int -> string)
    ensures var lines := MessageLines(items, form, subtotal, fmt);
      && |lines| > 5
      && (lines[3] == DeliveryTypeLine <==> ShowsAddress(form))
      && (lines[3] == PickupTypeLine <==> !ShowsAddress(form))
      && (ShowsAddress(form) ==> lines[4] == AddressLine(form.address.value))
  {
    var lines := MessageLines(items, form, subtotal, fmt);
    assert lines[..|OpeningLines(form)|] == OpeningLines(form);
    assert DeliveryTypeLine[9] != PickupTypeLine[9];
  }

  /** The index at which the item lines start. */
  function ItemsStart(form: CheckoutFormData): nat {
    |OpeningLines(form)|
  }

  /** The lines after the opening section are the item lines, then the payment section. */
  lemma {:induction false} ItemsSection(items: seq<OrderItem>, form: CheckoutFormData, subtotal: int, fmt: int -> string)
    ensures var lines := MessageLines(items, form, subtotal, fmt);
      var k := ItemsStart(form);
      && k + |ItemsLines(items, fmt)| <= |lines|
      && lines[k - 1] == ItemsHeader
      && lines[k..k + |ItemsLines(items, fmt)|] == ItemsLines(items, fmt)
  {
    var o := OpeningLines(form);
    var it := ItemsLines(items, fmt);
    var lines := MessageLines(items, form, subtotal, fmt);
    assert lines == o + it + (PaymentLines(form, subtotal, fmt) + ["", TotalLine(subtotal, fmt)]);
    assert lines[|o|..|o| + |it|] == it;
  }

  predicate IsBullet(line: string) {
    |line| > 0 && line[0] == '\U{2022}'
  }

  predicate IsNote(line: string) {
    |line| > 0 && line[0] == ' '
  }

  /** The bullet lines among some lines, in order. */
  function Bullets(lines: seq<string>): seq<string> {
    if lines == [] then []
    else Bullets(lines[..|lines| - 1]) + (if IsBullet(lines[|lines| - 1]) then [lines[|lines| - 1]] else [])
  }

  /** The note lines among some lines, in order. */
  function Notes(lines: seq<string>): seq<string> {
    if lines == [] then []
    else Notes(lines[..|lines| - 1]) + (if IsNote(lines[|lines| - 1]) then [lines[|lines| - 1]] else [])
  }

  /** The note line of each item that has a non-empty note, in order. */
  function ItemNotes(items: seq<OrderItem>): seq<string> {
    if items == [] then []
    else
      var item := items[|items| - 1];
      ItemNotes(items[..|items| - 1]) + (if Truthy(item.note) then [NoteLine(item.note.value)] else [])
  }

  lemma {:induction false} FiltersConcat(a: seq<string>, b: seq<string>)
    ensures Bullets(a + b) == Bullets(a) + Bullets(b)
    ensures Notes(a + b) == Notes(a) + Notes(b)
    decreases |b|
  {
    if b == [] {
      assert a + b == a;
    } else {
      var init := b[..|b| - 1];
      assert (a + b)[..|a + b| - 1] == a + init;
      assert (a + b)[|a + b| - 1] == b[|b| - 1];
      FiltersConcat(a, init);
    }
  }

  lemma {:induction false} FiltersOfOne(b: string)
    requires IsBullet(b) && !IsNote(b)
    ensures Bullets([b]) == [b] && Notes([b]) == []
  {
    assert [b][..0] == [];
  }

  lemma {:induction false} FiltersOfTwo(b: string, n: string)
    requires IsBullet(b) && !IsNote(b) && IsNote(n) && !IsBullet(n)
    ensures Bullets([b, n]) == [b] && Notes([b, n]) == [n]
  {
    FiltersOfOne(b);
    assert [b, n][..1] == [b];
  }

  lemma {:induction false} ItemLinesFilters(item: OrderItem, fmt: int -> string)
    ensures Bullets(ItemLines(item, fmt)) == [BulletLine(item, fmt)]
    ensures Notes(ItemLines(item, fmt)) == if Truthy(item.note) then [NoteLine(item.note.value)] else []
  {
    var b := BulletLine(item, fmt);
    assert b[0] == '\U{2022}';
    if Truthy(item.note) {
      var n := NoteLine(item.note.value);
      assert n[0] == ' ';
      FiltersOfTwo(b, n);
    } else {
      FiltersOfOne(b);
    }
  }

  /** The line of each item, in order, for a given way of writing one item. */
  function EachLine(items: seq<OrderItem>, line: OrderItem -> string): (r: seq<string>)
    ensures |r| == |items|
  {
    if items == [] then []
    else EachLine(items[..|items| - 1], line) + [line(items[|items| - 1])]
  }

  lemma {:induction false} EachLineAt(items: seq<OrderItem>, line: OrderItem -> string, i: nat)
    requires i < |items|
    ensures EachLine(items, line)[i] == line(items[i])
  {
    var n := |items| - 1;
    if i < n {
      EachLineAt(items[..n], line, i);
      assert items[..n][i] == items[i];
    }
  }

  /** The bullet line of each item, in order. */
  function ItemBulletLines(items: seq<OrderItem>, fmt: int -> string): seq<string> {
    EachLine(items, item => BulletLine(item, fmt))
  }

  /** The bullet line at position i is that of the i-th item: its quantity, name and formatted price times quantity. */
  lemma {:induction false} ItemBulletLineAt(items: seq<OrderItem>, fmt: int -> string, i: nat)
    requires i < |items|
    ensures |ItemBulletLines(items, fmt)| == |items|
    ensures ItemBulletLines(items, fmt)[i] == BulletLine(items[i], fmt)
  {
    EachLineAt(items, item => BulletLine(item, fmt), i);
  }

  /**
   * There is exactly one bullet line per item, in the order of the items,
   * with its quantity, name and formatted price times quantity.
   */
  lemma {:induction false} ItemBullets(items: seq<OrderItem>, fmt: int -> string)
    ensures Bullets(ItemsLines(items, fmt)) == ItemBulletLines(items, fmt)
  {
    if items != [] {
      var init := items[..|items| - 1];
      var last := items[|items| - 1];
      ItemBullets(init, fmt);
      FiltersConcat(ItemsLines(init, fmt), ItemLines(last, fmt));
      ItemLinesFilters(last, fmt);
    }
  }

  /**
   * A note line follows for each item with a non-empty note, in the order
   * of the items, and nothing else is among the item lines.
   */
  lemma {:induction false} ItemNoteLines(items: seq<OrderItem>, fmt: int -> string)
    ensures Notes(ItemsLines(items, fmt)) == ItemNotes(items)
    ensures |ItemsLines(items, fmt)| == |items| + |ItemNotes(items)|
  {
    if items != [] {
      var init := items[..|items| - 1];
      var last := items[|items| - 1];
      ItemNoteLines(init, fmt);
      FiltersConcat(ItemsLines(init, fmt), ItemLines(last, fmt));
      ItemLinesFilters(last, fmt);
    }
  }

  /** The lines of two runs of items are the lines of the first run followed by those of the second. */
  lemma {:induction false} ItemsLinesConcat(a: seq<OrderItem>, b: seq<OrderItem>, fmt: int -> string)
    ensures ItemsLines(a + b, fmt) == ItemsLines(a, fmt) + ItemsLines(b, fmt)
    decreases |b|
  {
    if b == [] {
      assert a + b == a;
    } else {
      var init := b[..|b| - 1];
      var last := b[|b| - 1];
      assert (a + b)[..|a + b| - 1] == a + init;
      assert (a + b)[|a + b| - 1] == last;
      ItemsLinesConcat(a, init, fmt);
      assert ItemsLines(a + b, fmt) == ItemsLines(a + init, fmt) + ItemLines(last, fmt);
      assert ItemsLines(a, fmt) + (ItemsLines(init, fmt) + ItemLines(last, fmt))
        == (ItemsLines(a, fmt) + ItemsLines(init, fmt)) + ItemLines(last, fmt);
    }
  }

  /**
   * The lines of item i sit between those of the items before it and those
   * of the items after it: its bullet line comes at the position after the
   * earlier items' lines, and its note line, when it has a non-empty note,
   * straight after its bullet.
   */
  lemma {:induction false} ItemsLinesAt(items: seq<OrderItem>, fmt: int -> string, i: nat)
    requires i < |items|
    ensures ItemsLines(items, fmt)
      == ItemsLines(items[..i], fmt) + ItemLines(items[i], fmt) + ItemsLines(items[i + 1..], fmt)
    ensures var lines := ItemsLines(items, fmt);
      var k := |ItemsLines(items[..i], fmt)|;
      && k < |lines|
      && lines[k] == BulletLine(items[i], fmt)
      && (Truthy(items[i].note) ==> k + 1 < |lines| && lines[k + 1] == NoteLine(items[i].note.value))
  {
    var before := items[..i];
    var after := items[i + 1..];
    assert items == (before + [items[i]]) + after;
    ItemsLinesConcat(before + [items[i]], after, fmt);
    assert (before + [items[i]])[..|before|] == before;
    assert ItemsLines(before + [items[i]], fmt) == ItemsLines(before, fmt) + ItemLines(items[i], fmt);
  }

  /** The index of the payment method line. */
  function MethodIndex(items: seq<OrderItem>, form: CheckoutFormData, fmt: int -> string): nat {
    ItemsStart(form) + |ItemsLines(items, fmt)| + 2
  }

  /**
   * After the items: an empty line, the payment header, the method line
   * (PIX iff the method is pix, Dinheiro otherwise), the two change lines iff
   * cash with change and a non-zero amount (the change due being the amount
   * minus the total), an empty line and, last, the total.
   */
  lemma {:induction false} PaymentSection(items: seq<OrderItem>, form: CheckoutFormData, subtotal: int, fmt: int -> string)
    ensures var lines := MessageLines(items, form, subtotal, fmt);
      var m := MethodIndex(items, form, fmt);
      && m < |lines|
      && lines[m - 2] == "" && lines[m - 1] == PaymentHeader
      && lines[m] == MethodLine(form.paymentMethod)
      && (ShowsChange(form) <==> |lines| == m + 5)
      && (!ShowsChange(form) <==> |lines| == m + 3)
      && (ShowsChange(form) ==>
            lines[m + 1] == ChangeGivenLine(form.changeAmount.value, fmt)
            && lines[m + 2] == ChangeDueLine(form.changeAmount.value, subtotal, fmt))
      && lines[|lines| - 2] == ""
      && lines[|lines| - 1] == TotalLine(subtotal, fmt)
  {
    var prefix := OpeningLines(form) + ItemsLines(items, fmt);
    var lines := MessageLines(items, form, subtotal, fmt);
    var p := PaymentLines(form, subtotal, fmt);
    assert lines == prefix + (p + ["", TotalLine(subtotal, fmt)]);
    assert |prefix| + 2 == MethodIndex(items, form, fmt);
  }

  /** The method line names PIX exactly for the pix method and Dinheiro exactly for cash. */
  lemma {:induction false} MethodLineNames(method': PaymentMethod)
    ensures MethodLine(method') == "*M\U{00E9}todo:* PIX" <==> method' == Pix
    ensures MethodLine(method') == "*M\U{00E9}todo:* Dinheiro" <==> method' == Cash
  {
    var pix := "*M\U{00E9}todo:* PIX";
    var cash := "*M\U{00E9}todo:* Dinheiro";
    assert |pix| != |cash|;
  }

  // ----- the text splits back into the lines -----

  predicate NoBreaks(lines: seq<string>) {
    forall k :: 0 <= k < |lines| ==> '\n' !in lines[k]
  }

  lemma {:induction false} NoBreaksConcat(a: seq<string>, b: seq<string>)
    requires NoBreaks(a) && NoBreaks(b)
    ensures NoBreaks(a + b)
  {
    forall k | 0 <= k < |a + b| ensures '\n' !in (a + b)[k] {
      if k >= |a| { assert (a + b)[k] == b[k - |a|]; }
    }
  }

  lemma {:induction false} NoBreakInNumber(i: int)
    ensures '\n' !in IntToString(i)
  {
    var digits := NatToString(if i < 0 then -i else i);
    assert forall k :: 0 <= k < |digits| ==> digits[k] != '\n' by {
      forall k | 0 <= k < |digits| ensures digits[k] != '\n' { assert IsDigit(digits[k]); }
    }
  }

  /** The fields that end up in the message hold no newline. */
  ghost predicate FieldsWithoutBreaks(items: seq<OrderItem>, form: CheckoutFormData, fmt: int -> string) {
    && '\n' !in form.name
    && (form.address.Some? ==> '\n' !in form.address.value)
    && (forall k :: 0 <= k < |items| ==> '\n' !in items[k].name)
    && (forall k :: 0 <= k < |items| ==> items[k].note.Some? ==> '\n' !in items[k].note.value)
    && (forall v :: '\n' !in fmt(v))
  }

  lemma {:induction false} ItemsLinesNoBreaks(items: seq<OrderItem>, fmt: int -> string)
    requires forall k :: 0 <= k < |items| ==> '\n' !in items[k].name
    requires forall k :: 0 <= k < |items| ==> items[k].note.Some? ==> '\n' !in items[k].note.value
    requires forall v :: '\n' !in fmt(v)
    ensures NoBreaks(ItemsLines(items, fmt))
  {
    if items != [] {
      var init := items[..|items| - 1];
      var last := items[|items| - 1];
      ItemsLinesNoBreaks(init, fmt);
      NoBreakInNumber(last.quantity);
      assert '\n' !in BulletLine(last, fmt);
      NoBreaksConcat(ItemsLines(init, fmt), ItemLines(last, fmt));
    }
  }

  lemma {:induction false} OpeningNoBreaks(form: CheckoutFormData)
    requires '\n' !in form.name
    requires form.address.Some? ==> '\n' !in form.address.value
    ensures NoBreaks(OpeningLines(form))
  {
    assert '\n' !in Header;
    assert '\n' !in NameLine(form.name);
    if ShowsAddress(form) {
      assert '\n' !in DeliveryTypeLine;
      assert '\n' !in AddressLine(form.address.value);
    } else {
      assert '\n' !in PickupTypeLine;
    }
    assert '\n' !in ItemsHeader;
  }

  lemma {:induction false} PaymentNoBreaks(form: CheckoutFormData, subtotal: int, fmt: int -> string)
    requires forall v :: '\n' !in fmt(v)
    ensures NoBreaks(PaymentLines(form, subtotal, fmt) + ["", TotalLine(subtotal, fmt)])
  {
    assert '\n' !in PaymentHeader;
    assert '\n' !in MethodLine(form.paymentMethod);
    if ShowsChange(form) {
      assert '\n' !in ChangeGivenLine(form.changeAmount.value, fmt);
      assert '\n' !in ChangeDueLine(form.changeAmount.value, subtotal, fmt);
    }
    assert '\n' !in TotalLine(subtotal, fmt);
  }

  /**
   * When no field supplied by the customer, the menu or the formatter holds
   * a newline, splitting the message text at newlines gives back exactly
   * its list of lines.
   */
  lemma {:induction false} MessageSplitsIntoLines(items: seq<OrderItem>, form: CheckoutFormData, subtotal: int, fmt: int -> string)
    requires FieldsWithoutBreaks(items, form, fmt)
    ensures Split(MessageText(items, form, subtotal, fmt), "\n") == MessageLines(items, form, subtotal, fmt)
  {
    var o := OpeningLines(form);
    var it := ItemsLines(items, fmt);
    var tail := PaymentLines(form, subtotal, fmt) + ["", TotalLine(subtotal, fmt)];
    OpeningNoBreaks(form);
    ItemsLinesNoBreaks(items, fmt);
    PaymentNoBreaks(form, subtotal, fmt);
    NoBreaksConcat(o, it);
    NoBreaksConcat(o + it, tail);
    var lines := MessageLines(items, form, subtotal, fmt);
    assert lines == o + it + tail;
    assert forall k :: 0 <= k < |lines| ==> "\n"[0] !in lines[k];
    SplitJoin(lines, "\n");
  }

  // ----- the phone number and the link -----

  /** `phoneNumber.replace(/\D/g, '')`: the digits of the input, in order. */
  function StripNonDigits(s: string): (r: string)
    ensures AllDigits(r) && |r| <= |s|
  {
    if s == [] then ""
    else (if IsDigit(s[0]) then [s[0]] else "") + StripNonDigits(s[1..])
  }

  lemma {:induction false} StripNonDigitsConcat(a: string, b: string)
    ensures StripNonDigits(a + b) == StripNonDigits(a) + StripNonDigits(b)
  {
    if a == [] {
      assert a + b == b;
    } else {
      var head: string := if IsDigit(a[0]) then [a[0]] else "";
      StripNonDigitsConcat(a[1..], b);
      assert (a + b)[0] == a[0] && (a + b)[1..] == a[1..] + b;
      assert StripNonDigits(a + b) == head + StripNonDigits(a[1..] + b);
      assert StripNonDigits(a) == head + StripNonDigits(a[1..]);
      ConcatAssoc(head, StripNonDigits(a[1..]), StripNonDigits(b));
    }
  }

  /** A string of digits is left as it is. */
  lemma {:induction false} DigitsFixed(s: string)
    requires AllDigits(s)
    ensures StripNonDigits(s) == s
  {
    if s != [] {
      assert AllDigits(s[1..]);
      DigitsFixed(s[1..]);
      assert s == [s[0]] + s[1..];
    }
  }

  /**
   * Stripping keeps every digit and drops everything else: it maps a
   * concatenation to the concatenation of the stripped parts, a single
   * character to itself or nothing, and is idempotent.
   */
  lemma {:induction false} StripNonDigitsProperties(a: string, b: string, c: char)
    ensures StripNonDigits(a + b) == StripNonDigits(a) + StripNonDigits(b)
    ensures StripNonDigits([c]) == if IsDigit(c) then [c] else []
    ensures StripNonDigits(StripNonDigits(a)) == StripNonDigits(a)
  {
    StripNonDigitsConcat(a, b);
    DigitsFixed(StripNonDigits(a));
    assert [c][1..] == [];
  }

  const WaPrefix: string := "https://wa.me/"
  const TextQuery: string := "?text="

  /** The link: `https://wa.me/${formattedPhone}?text=${message}`. */
  function WhatsAppUrl(phoneNumber: string, encoded: string): string {
    WaPrefix + StripNonDigits(phoneNumber) + TextQuery + encoded
  }

  /** The partner of the link: the phone digits and the decoded text of a `wa.me` link. */
  function ParseWhatsAppUrl(url: string): Option<(string, string)> {
    if |url| >= |WaPrefix| && url[..|WaPrefix|] == WaPrefix then
      var parts := Split(url[|WaPrefix|..], TextQuery);
      if |parts| == 2 && AllDigits(parts[0]) then
        match PercentDecode(parts[1])
        case None => None
        case Some(text) => Some((parts[0], text))
      else None
    else None
  }

  lemma {:induction false} SplitLink(digits: string, encoded: string)
    requires AllDigits(digits) && AllSafe(encoded)
    ensures Split(digits + TextQuery + encoded, TextQuery) == [digits, encoded]
  {
    assert TextQuery[0] == '?';
    assert forall i :: 0 <= i < |digits| ==> digits[i] != TextQuery[0] by {
      forall i | 0 <= i < |digits| ensures digits[i] != TextQuery[0] { assert IsDigit(digits[i]); }
    }
    assert forall i :: 0 <= i < |encoded| ==> encoded[i] != TextQuery[0] by {
      forall i | 0 <= i < |encoded| ensures encoded[i] != TextQuery[0] { assert Safe(encoded[i]); }
    }
    SplitAtSeparator(digits, TextQuery, encoded);
    SplitWithoutSeparator(encoded, TextQuery);
  }

  lemma {:induction false} PrefixParts(prefix: string, rest: string)
    ensures |prefix + rest| >= |prefix|
    ensures (prefix + rest)[..|prefix|] == prefix && (prefix + rest)[|prefix|..] == rest
  {
  }

  /** A link built from digits and an encoded text reads back as the digits and the decoded text. */
  lemma {:induction false} ParseLink(digits: string, encoded: string, text: string)
    requires AllDigits(digits) && AllSafe(encoded) && PercentDecode(encoded) == Some(text)
    ensures ParseWhatsAppUrl(WaPrefix + digits + TextQuery + encoded) == Some((digits, text))
  {
    var rest := digits + TextQuery + encoded;
    var url := WaPrefix + digits + TextQuery + encoded;
    assert url == WaPrefix + rest;
    assert |url| >= |WaPrefix| && url[..|WaPrefix|] == WaPrefix && url[|WaPrefix|..] == rest by {
      PrefixParts(WaPrefix, rest);
    }
    SplitLink(digits, encoded);
  }

  /** Reading a link back gives the phone's digits and the original message text. */
  lemma {:induction false} UrlRoundTrip(phoneNumber: string, text: string)
    ensures ParseWhatsAppUrl(WhatsAppUrl(phoneNumber, PercentEncode(text))) == Some((StripNonDigits(phoneNumber), text))
  {
    var digits := StripNonDigits(phoneNumber);
    var encoded := PercentEncode(text);
    EncodedIsSafe(text);
    PercentRoundTrip(text);
    ParseLink(digits, encoded, text);
  }

  /**
   * `sendOrderToWhatsApp` up to opening the link: the link carries the
   * digits of the phone number and the encoded message, and reads back as
   * both.
   */
  method SendOrderToWhatsApp(phoneNumber: string, orderItems: seq<OrderItem>, formData: CheckoutFormData, subtotal: int, fmt: int -> string)
    returns (whatsappUrl: string)
    ensures whatsappUrl == WhatsAppUrl(phoneNumber, PercentEncode(MessageText(orderItems, formData, subtotal, fmt)))
    ensures ParseWhatsAppUrl(whatsappUrl) == Some((StripNonDigits(phoneNumber), MessageText(orderItems, formData, subtotal, fmt)))
  {
    var formattedPhone := StripNonDigits(phoneNumber);
    var message := GenerateOrderMessage(orderItems, formData, subtotal, fmt);
    whatsappUrl := WaPrefix + formattedPhone + TextQuery + message;
    UrlRoundTrip(phoneNumber, MessageText(orderItems, formData, subtotal, fmt));
  }
}
