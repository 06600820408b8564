/**
 * The checkout page: the form handlers, the change-amount input filter,
 * validation into a dictionary of error messages, and submission, which
 * is refused while the restaurant is closed or the form is invalid and
 * otherwise sends the order link and empties the cart. Amounts are in
 * integer cents; the typed change amount is read the way `parseFloat`
 * reads a string of the accepted shape.
 */
module Checkout {
  import opened Wrappers
  import opened Text
  import opened CartStore
  import opened WhatsApp
  import opened UriEncoding

  // ---------------------------------------------------------------------
  // The change-amount field

  /** The number of leading ASCII digits. */
  function LeadingDigits(s: string): (k: nat)
    ensures k <= |s| && AllDigits(s[..k])
    ensures k == |s| || !IsDigit(s[k])
  {
    if s == [] || !IsDigit(s[0]) then 0
    else
      var k := 1 + LeadingDigits(s[1..]);
      assert s[..k] == [s[0]] + s[1..][..k - 1];
      k
  }

  /**
   * The test `/^\d+(\.\d{0,2})?$/`, as a left-to-right scan: at least one
   * digit, then either the end or a dot followed by at most two digits.
   */
  predicate AmountAccepted(s: string) {
    var k := LeadingDigits(s);
    k >= 1 && (k == |s| || (s[k] == '.' && |s| - (k + 1) <= 2 && AllDigits(s[k + 1..])))
  }

  /** The same language described by a split point: a digit run, and an optional `.` with up to two digits. */
  ghost predicate AmountShape(s: string) {
    exists k :: 1 <= k <= |s| && AllDigits(s[..k]) &&
      (k == |s| || (s[k] == '.' && |s| <= k + 3 && AllDigits(s[k + 1..])))
  }

  lemma {:induction false} LeadingDigitsAt(s: string, k: nat)
    requires k <= |s| && AllDigits(s[..k]) && (k == |s| || !IsDigit(s[k]))
    ensures LeadingDigits(s) == k
  {
    if k > 0 {
      assert s[0] == s[..k][0];
      assert s[1..][..k - 1] == s[..k][1..];
      LeadingDigitsAt(s[1..], k - 1);
    }
  }

  /** The scan accepts exactly the strings the regular expression describes. */
  lemma {:induction false} AmountAcceptedIff(s: string)
    ensures AmountAccepted(s) <==> AmountShape(s)
  {
    if AmountShape(s) {
      var k :| 1 <= k <= |s| && AllDigits(s[..k]) &&
        (k == |s| || (s[k] == '.' && |s| <= k + 3 && AllDigits(s[k + 1..])));
      LeadingDigitsAt(s, k);
    }
  }

  /** The cents of a fraction of up to two digits: "" is 0, "5" is 50, "05" is 5. */
  function FractionCents(f: string): nat
    requires |f| <= 2 && AllDigits(f)
  {
    if |f| == 0 then 0
    else if |f| == 1 then DigitValue(f[0]) * 10
    else DigitValue(f[0]) * 10 + DigitValue(f[1])
  }

  /**
   * `parseFloat` on the field's text, in cents; `None` stands for `NaN`,
   * which is what the empty string gives.
   */
  function AmountCents(s: string): (r: Option<int>)
    ensures r.Some? <==> AmountAccepted(s)
    ensures r.Some? ==> r.value >= 0
  {
    if !AmountAccepted(s) then None
    else
      var k := LeadingDigits(s);
      Some(DecimalValue(s[..k]) * 100 + if k == |s| then 0 else FractionCents(s[k + 1..]))
  }

  /** An amount of cents written with two decimals, as a customer may type it. */
  function RenderCents(cents: nat): string {
    NatToString(cents / 100) + "." + [DigitChar(cents % 100 / 10), DigitChar(cents % 10)]
  }

  /** Every amount of cents can be typed into the field, and is read back as itself. */
  lemma {:induction false} RenderCentsRoundTrip(cents: nat)
    ensures AmountAccepted(RenderCents(cents))
    ensures AmountCents(RenderCents(cents)) == Some(cents)
  {
    var w := NatToString(cents / 100);
    var f := [DigitChar(cents % 100 / 10), DigitChar(cents % 10)];
    var s := RenderCents(cents);
    assert s == w + ['.'] + f;
    assert s[..|w|] == w;
    assert s[|w| + 1..] == f;
    LeadingDigitsAt(s, |w|);
    DecimalValueOfNatToString(cents / 100);
  }

  /** Whole amounts, with or without a trailing dot, are read as that many reais. */
  lemma {:induction false} WholeAmountExamples()
    ensures AmountCents("12") == Some(1200)
    ensures AmountCents("12.") == Some(1200)
  {
    assert DecimalValue("12") == 12 by {
      assert "12"[..1] == "1" && "1"[..0] == "";
    }
    LeadingDigitsAt("12", 2);
    assert "12"[..2] == "12";
    LeadingDigitsAt("12.", 2);
    assert "12."[..2] == "12";
  }

  /** One decimal counts tens of cents, two count cents. */
  lemma {:induction false} FractionAmountExamples()
    ensures AmountCents("12.5") == Some(1250)
    ensures AmountCents("0.05") == Some(5)
  {
    assert DecimalValue("12") == 12 by {
      assert "12"[..1] == "1" && "1"[..0] == "";
    }
    LeadingDigitsAt("12.5", 2);
    assert "12.5"[..2] == "12" && "12.5"[3..] == "5";
    assert DecimalValue("0") == 0 by {
      assert "0"[..0] == "";
    }
    LeadingDigitsAt("0.05", 1);
    assert "0.05"[..1] == "0" && "0.05"[2..] == "05";
  }

  /** The filter refuses the empty string, a missing whole part, three decimals and a decimal comma. */
  lemma {:induction false} RejectedAmountExamples()
    ensures !AmountAccepted("") && !AmountAccepted(".5") && !AmountAccepted("1.234") && !AmountAccepted("1,5")
  {
    LeadingDigitsAt(".5", 0);
    LeadingDigitsAt("1.234", 1);
    LeadingDigitsAt("1,5", 1);
  }

  // ---------------------------------------------------------------------
  // Validation

  datatype ErrorKey = NameKey | AddressKey | ChangeAmountKey

  const NameMessage: string := "Nome \U{00E9} obrigat\U{00F3}rio"
  const AddressMessage: string := "Endere\U{00E7}o \U{00E9} obrigat\U{00F3}rio para entrega"
  const ChangeAmountMessage: string := "Valor para troco deve ser maior que o total"

  function Message(key: ErrorKey): string {
    match key
    case NameKey => NameMessage
    case AddressKey => AddressMessage
    case ChangeAmountKey => ChangeAmountMessage
  }

  /** `!formData.name.trim()`. */
  predicate NameMissing(form: CheckoutFormData) {
    Trim(form.name) == ""
  }

  /** Delivery with an address that is absent or `trim`s to the empty string. */
  predicate AddressMissing(form: CheckoutFormData) {
    form.deliveryOption == Delivery && (form.address.None? || Trim(form.address.value) == "")
  }

  /**
   * Cash with change asked for, and the typed amount empty or not above the
   * subtotal (a `NaN` reading compares false, so it is not too low).
   */
  predicate ChangeTooLow(form: CheckoutFormData, changeAmount: string, subtotal: int) {
    && form.paymentMethod == Cash
    && form.changeNeeded == Some(true)
    && (changeAmount == "" || (AmountCents(changeAmount).Some? && AmountCents(changeAmount).value <= subtotal))
  }

  predicate Fails(key: ErrorKey, form: CheckoutFormData, changeAmount: string, subtotal: int) {
    match key
    case NameKey => NameMissing(form)
    case AddressKey => AddressMissing(form)
    case ChangeAmountKey => ChangeTooLow(form, changeAmount, subtotal)
  }

  /** The error dictionary: the message of every rule the form breaks. */
  function FormErrors(form: CheckoutFormData, changeAmount: string, subtotal: int): map<ErrorKey, string> {
    map key | key in {NameKey, AddressKey, ChangeAmountKey} && Fails(key, form, changeAmount, subtotal) :: Message(key)
  }

  /** A dictionary holding each broken rule's message, and only those, is the error dictionary. */
  lemma {:induction false} ErrorsByRule(form: CheckoutFormData, changeAmount: string, subtotal: int, m: map<ErrorKey, string>)
    requires NameKey in m <==> NameMissing(form)
    requires AddressKey in m <==> AddressMissing(form)
    requires ChangeAmountKey in m <==> ChangeTooLow(form, changeAmount, subtotal)
    requires forall key :: key in m ==> m[key] == Message(key)
    ensures m == FormErrors(form, changeAmount, subtotal)
  {
    var e := FormErrors(form, changeAmount, subtotal);
    forall key ensures key in m <==> key in e {
      match key
      case NameKey =>
      case AddressKey =>
      case ChangeAmountKey =>
    }
  }

  /**
   * Each rule in the form's own terms: a name error iff the name is all
   * whitespace; an address error iff delivery is chosen and the address is
   * absent or all whitespace, so never for pickup; a change error iff cash
   * with change is chosen and the amount is empty or not above the
   * subtotal, so never for PIX. The form passes iff none applies.
   */
  lemma {:induction false} FormErrorsRules(form: CheckoutFormData, changeAmount: string, subtotal: int)
    ensures var errors := FormErrors(form, changeAmount, subtotal);
      && (NameKey in errors <==> AllWhitespace(form.name))
      && (AddressKey in errors <==>
            form.deliveryOption == Delivery && (form.address.None? || AllWhitespace(form.address.value)))
      && (ChangeAmountKey in errors <==>
            && form.paymentMethod == Cash && form.changeNeeded == Some(true)
            && (changeAmount == "" || (AmountAccepted(changeAmount) && AmountCents(changeAmount).value <= subtotal)))
      && (form.deliveryOption == Pickup ==> AddressKey !in errors)
      && (form.paymentMethod == Pix ==> ChangeAmountKey !in errors)
      && (forall key :: key in errors ==> errors[key] == Message(key))
      && (errors == map[] <==>
            && !AllWhitespace(form.name)
            && !AddressMissing(form)
            && !ChangeTooLow(form, changeAmount, subtotal))
  {
    var errors := FormErrors(form, changeAmount, subtotal);
    TrimEmptyIff(form.name);
    if form.address.Some? {
      TrimEmptyIff(form.address.value);
    }
    if errors == map[] {
      assert NameKey !in errors && AddressKey !in errors && ChangeAmountKey !in errors;
    } else {
      var key :| key in errors;
      assert Fails(key, form, changeAmount, subtotal);
    }
  }

  // ---------------------------------------------------------------------
  // Submission

  /** The form the message is built from: the typed amount is attached only for cash with change. */
  function FinalForm(form: CheckoutFormData, changeAmount: string): CheckoutFormData {
    if form.paymentMethod == Cash && form.changeNeeded == Some(true) then form.(changeAmount := AmountCents(changeAmount))
    else form
  }

  /** `items.map(...)`: the cart lines in order, with name, price, quantity and note copied. */
  function OrderItems(lines: seq<CartLine>): (r: seq<OrderItem>)
    ensures |r| == |lines|
    ensures forall i :: 0 <= i < |lines| ==>
      r[i] == OrderItem(lines[i].product.name, lines[i].product.price, lines[i].quantity, Some(lines[i].note))
  {
    if lines == [] then []
    else [OrderItem(lines[0].product.name, lines[0].product.price, lines[0].quantity, Some(lines[0].note))] + OrderItems(lines[1..])
  }

  /** The sum of price times quantity over the order items. */
  function OrderTotal(items: seq<OrderItem>): int {
    if items == [] then 0 else items[0].price * items[0].quantity + OrderTotal(items[1..])
  }

  /** The amounts of the bullet lines add up to the cart's subtotal, which the total line shows. */
  lemma {:induction false} OrderTotalIsSubtotal(lines: seq<CartLine>)
    ensures OrderTotal(OrderItems(lines)) == Subtotal(lines)
  {
    if lines != [] {
      OrderTotalIsSubtotal(lines[1..]);
      assert OrderItems(lines)[1..] == OrderItems(lines[1..]);
    }
  }

  /**
   * What a passing form puts in the message: for cash with change, the
   * amount read from the field, above the subtotal, so with a subtotal of
   * at least zero the change lines appear; otherwise the form unchanged,
   * and for PIX never the change lines.
   */
  lemma {:induction false} FinalFormChange(form: CheckoutFormData, changeAmount: string, subtotal: int)
    requires changeAmount == "" || AmountAccepted(changeAmount)
    requires FormErrors(form, changeAmount, subtotal) == map[]
    ensures var final := FinalForm(form, changeAmount);
      && (form.paymentMethod == Cash && form.changeNeeded == Some(true) ==>
            && AmountAccepted(changeAmount)
            && final == form.(changeAmount := AmountCents(changeAmount))
            && final.changeAmount.value > subtotal
            && (subtotal >= 0 ==> ShowsChange(final)))
      && (!(form.paymentMethod == Cash && form.changeNeeded == Some(true)) ==> final == form)
      && (form.paymentMethod == Pix ==> !ShowsChange(final))
  {
    FormErrorsRules(form, changeAmount, subtotal);
  }

  /** The link a submission opens. */
  function OrderUrl(whatsappNumber: string, lines: seq<CartLine>, form: CheckoutFormData, changeAmount: string, fmt: int -> string): string {
    WhatsAppUrl(whatsappNumber,
      PercentEncode(MessageText(OrderItems(lines), FinalForm(form, changeAmount), Subtotal(lines), fmt)))
  }

  datatype SubmitOutcome = Closed | Invalid | Sent(url: string)

  datatype InputField = NameField | AddressField

  datatype RadioChoice = DeliveryChoice(option: DeliveryOption) | PaymentChoice(method': PaymentMethod)

  function KeyOf(field: InputField): ErrorKey {
    match field
    case NameField => NameKey
    case AddressField => AddressKey
  }

  const InitialForm: CheckoutFormData := CheckoutFormData("", Pickup, None, Pix, Some(false), None)
  const RestaurantNumber: string := "5511998765432"

  /** The page's state: the form, the typed change amount and the error dictionary, over the cart store. */
  class CheckoutPage {
    var formData: CheckoutFormData
    var changeAmount: string
    var errors: map<ErrorKey, string>
    const store: Cart
    const whatsappNumber: string
    const fmt: int -> string

    /** The field only ever holds text the filter let through, and the form's change flag is set. */
    ghost predicate Valid()
      reads this
    {
      && (changeAmount == "" || AmountAccepted(changeAmount))
      && formData.changeNeeded.Some?
      && formData.changeAmount.None?
    }

    constructor (store: Cart, fmt: int -> string)
      ensures this.store == store && this.fmt == fmt && whatsappNumber == RestaurantNumber
      ensures formData == InitialForm && changeAmount == "" && errors == map[]
      ensures Valid()
    {
      this.store := store;
      this.fmt := fmt;
      whatsappNumber := RestaurantNumber;
      formData := InitialForm;
      changeAmount := "";
      errors := map[];
    }

    /** Typing in the name or address field stores the text and blanks that field's error if it shows one. */
    method HandleInputChange(field: InputField, value: string)
      requires Valid()
      modifies this
      ensures Valid()
      ensures field == NameField ==> formData == old(formData).(name := value)
      ensures field == AddressField ==> formData == old(formData).(address := Some(value))
      ensures changeAmount == old(changeAmount)
      ensures var key := KeyOf(field);
        if key in old(errors) && old(errors)[key] != "" then errors == old(errors)[key := ""] else errors == old(errors)
    {
      if field == NameField {
        formData := formData.(name := value);
      } else {
        formData := formData.(address := Some(value));
      }
      var key := KeyOf(field);
      if key in errors && errors[key] != "" {
        errors := errors[key := ""];
      }
    }

    /** Choosing pickup or delivery, PIX or cash. */
    method HandleRadioChange(choice: RadioChoice)
      requires Valid()
      modifies this
      ensures Valid()
      ensures choice.DeliveryChoice? ==> formData == old(formData).(deliveryOption := choice.option)
      ensures choice.PaymentChoice? ==> formData == old(formData).(paymentMethod := choice.method')
      ensures changeAmount == old(changeAmount) && errors == old(errors)
    {
      match choice
      case DeliveryChoice(option) => formData := formData.(deliveryOption := option);
      case PaymentChoice(m) => formData := formData.(paymentMethod := m);
    }

    /** Ticking "needs change" records the flag; unticking it also empties the amount. */
    method HandleCheckboxChange(checked: bool)
      requires Valid()
      modifies this
      ensures Valid()
      ensures formData == old(formData).(changeNeeded := Some(checked))
      ensures changeAmount == if checked then old(changeAmount) else ""
      ensures errors == old(errors)
    {
      formData := formData.(changeNeeded := Some(checked));
      if !checked {
        changeAmount := "";
      }
    }

    /** The amount field takes the new text only when it is empty or of the accepted shape. */
    method HandleChangeAmountInput(value: string)
      requires Valid()
      modifies this
      ensures Valid()
      ensures value == "" || AmountAccepted(value) ==> changeAmount == value
      ensures !(value == "" || AmountAccepted(value)) ==> changeAmount == old(changeAmount)
      ensures formData == old(formData) && errors == old(errors)
    {
      if value == "" || AmountAccepted(value) {
        changeAmount := value;
      }
    }

    /** Filling a fresh dictionary rule by rule; the form passes iff it stays empty. */
    method ValidateForm() returns (ok: bool)
      requires Valid()
      modifies this
      ensures Valid()
      ensures errors == FormErrors(formData, changeAmount, Subtotal(store.items))
      ensures ok <==> errors == map[]
      ensures formData == old(formData) && changeAmount == old(changeAmount)
    {
      var subtotal := Subtotal(store.items);
      var newErrors: map<ErrorKey, string> := map[];
      if Trim(formData.name) == "" {
        newErrors := newErrors[NameKey := NameMessage];
      }
      if formData.deliveryOption == Delivery && (formData.address.None? || Trim(formData.address.value) == "") {
        newErrors := newErrors[AddressKey := AddressMessage];
      }
      if formData.paymentMethod == Cash && formData.changeNeeded == Some(true) {
        var amount := AmountCents(changeAmount);
        if changeAmount == "" || (amount.Some? && amount.value <= subtotal) {
          newErrors := newErrors[ChangeAmountKey := ChangeAmountMessage];
        }
      }
      ErrorsByRule(formData, changeAmount, subtotal, newErrors);
      errors := newErrors;
      ok := |newErrors| == 0;
    }

    /**
     * Closed: nothing happens. Open: the form is validated; when it fails
     * nothing is sent and the cart is kept; when it passes the order link
     * is produced from the cart lines and the final form, and the cart is
     * emptied.
     */
    method HandleSubmit(isOpen: bool) returns (outcome: SubmitOutcome)
      requires Valid()
      modifies this, store
      ensures Valid()
      ensures formData == old(formData) && changeAmount == old(changeAmount)
      ensures !isOpen ==> outcome == Closed && errors == old(errors) && store.items == old(store.items)
      ensures isOpen ==> errors == FormErrors(formData, changeAmount, Subtotal(old(store.items)))
      ensures isOpen && errors != map[] ==> outcome == Invalid && store.items == old(store.items)
      ensures isOpen && errors == map[] ==>
        && outcome == Sent(OrderUrl(whatsappNumber, old(store.items), formData, changeAmount, fmt))
        && ParseWhatsAppUrl(outcome.url) == Some((StripNonDigits(whatsappNumber),
             MessageText(OrderItems(old(store.items)), FinalForm(formData, changeAmount), Subtotal(old(store.items)), fmt)))
        && store.items == []
    {
      if !isOpen {
        return Closed;
      }
      var valid := ValidateForm();
      if !valid {
        return Invalid;
      }
      var finalFormData := formData;
      if formData.paymentMethod == Cash && formData.changeNeeded == Some(true) {
        finalFormData := finalFormData.(changeAmount := AmountCents(changeAmount));
      }
      var orderItems := OrderItems(store.items);
      var url := SendOrderToWhatsApp(whatsappNumber, orderItems, finalFormData, Subtotal(store.items), fmt);
      store.ClearCart();
      outcome := Sent(url);
    }
  }
}
