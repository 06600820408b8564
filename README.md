# Restaurant storefront core, in Dafny

This project models the logic behind a small restaurant storefront and proves properties of it. The storefront is a menu of products, a cart, a checkout page and an order sent as a WhatsApp deep link. The model covers:

- **Cart store** (`CartStore`). The cart is an ordered list of lines (product, quantity, note). It is a class with an `items` field and one method per store operation: `addItem`, `removeItem`, `updateQuantity`, `updateNote` and `clearCart`. Each method is tied to a pure function of the old lines. The lemmas state what each operation does to every line. They also show that every operation keeps "at most one line per product id", and how `itemCount` and `subtotal` (money in integer cents) change.
- **Cart line and product card controls** (`CartItemControls`, `ProductCardControls`). These are the +/− buttons, the trash button and the note editor, written as compositions of store operations. They come with round trips: + then − restores the cart.
- **Menu categories** (`ProductList`). The category pills are the distinct categories in order of first appearance. The grid shows the products of the active category.
- **Opening hours** (`OpeningHours`). The fixed table is parsed as `"HH:MM - HH:MM"`. The hook tests the half-open range `[open, close)` on minutes since midnight, with the day, hour and minute given as inputs.
- **Order message and link** (`WhatsApp`, `UriEncoding`, `Text`). `generateOrderMessage` appends text step by step in a loop, then percent-encodes it. `encodeURIComponent` is modelled concretely: UTF-8 octets (RFC 3629), each written as `%HH`, except the characters `encodeURIComponent` leaves alone. A decoder is proved to invert it. The message is also described as a list of lines, with lemmas that locate each section. `sendOrderToWhatsApp` strips the phone number to digits and builds `https://wa.me/<digits>?text=<encoded>`, and the link is proved to read back as the digits and the message.
- **Checkout page** (`Checkout`). The page is a class over the form, the typed change amount and the error dictionary. Its members are the input handlers, the change-amount filter `^\d+(\.\d{0,2})?$`, validation (which builds the dictionary one rule at a time) and submission. Submission is refused while the restaurant is closed or the form is invalid; otherwise it produces the order link and empties the cart.

Currency formatting (`Intl.NumberFormat`) is the parameter `fmt: int -> string`. Every amount is in integer cents.

## Model

| member | source | states |
|---|---|---|
| CartStore.FindIndex | src/context/CartContext.tsx:55 | `findIndex`: -1 when no line has the id, otherwise the first line with it (no earlier line has the id) |
| CartStore.Cart.constructor | src/context/CartContext.tsx:33 | the store starts with no lines |
| CartStore.Cart.Load | src/context/CartContext.tsx:36-46 | a saved value replaces the lines when it is present, non-empty and parses; otherwise the lines are kept |
| CartStore.Cart.AddItem | src/context/CartContext.tsx:53-68 | the new lines are `Added(old lines, product, quantity, note)`; unique ids stay unique |
| CartStore.Cart.RemoveItem | src/context/CartContext.tsx:70-72 | the new lines are `Removed(old lines, id)`; unique ids stay unique |
| CartStore.Cart.UpdateQuantity | src/context/CartContext.tsx:74-85 | the new lines are `QuantityUpdated(...)`; a quantity of 0 or less gives exactly `Removed(old lines, id)`; unique ids stay unique |
| CartStore.Cart.UpdateNote | src/context/CartContext.tsx:87-93 | the new lines are `NoteSet(old lines, id, note)`; unique ids stay unique |
| CartStore.Cart.ClearCart | src/context/CartContext.tsx:95-104 | the cart is empty, and its item count and subtotal are 0 |
| CartStore.AddedExisting | src/context/CartContext.tsx:55-63 | adding a product whose first line is at k changes only line k: it keeps its product, gains `quantity`, and takes the note only when the note is non-empty; the length is unchanged |
| CartStore.AddedAbsent | src/context/CartContext.tsx:64-66 | adding a product with no line appends exactly one line, with the given quantity and note |
| CartStore.AddedIds | src/context/CartContext.tsx:53-66 | adding keeps the ids in place when the id is present, and otherwise keeps the old lines as a prefix and appends one line with the id |
| CartStore.AddedKeepsUnique | src/context/CartContext.tsx:53-66 | adding keeps ids unique |
| CartStore.AddedAllExisting | src/context/CartContext.tsx:53-63 | repeated adds to a present product, with the default empty note, raise its first line by the sum of the quantities and change nothing else |
| CartStore.AddedAllOneLine | src/context/CartContext.tsx:53-66 | repeated adds of an absent product append exactly one line, holding the sum of the quantities and an empty note |
| CartStore.RemovedMembers | src/context/CartContext.tsx:70-72 | a line survives `removeItem` iff it was in the cart and has another id |
| CartStore.RemovedConcat | src/context/CartContext.tsx:70-72 | removal distributes over concatenation, so the survivors keep their order |
| CartStore.RemovedAbsent | src/context/CartContext.tsx:70-72 | removing an absent id changes nothing |
| CartStore.RemovedGone | src/context/CartContext.tsx:70-72 | after removal no line has the id, and the cart is no longer than before |
| CartStore.RemovedKeepsUnique | src/context/CartContext.tsx:70-72 | removal keeps ids unique |
| CartStore.QuantitySetAt | src/context/CartContext.tsx:80-84 | with a positive quantity the update sets exactly that quantity on the lines with the id; product, note, every other line and the length are unchanged |
| CartStore.NoteSetAt | src/context/CartContext.tsx:87-93 | only the note of the lines with the id changes, to exactly the given text (which may be empty) |
| CartStore.QuantityUpdatedKeepsUnique | src/context/CartContext.tsx:74-85 | a quantity update keeps ids unique |
| CartStore.NoteSetKeepsUnique | src/context/CartContext.tsx:87-93 | a note update keeps ids unique |
| CartStore.UpdatesOfAbsentId | src/context/CartContext.tsx:74-93 | quantity and note updates of an absent id change nothing |
| CartStore.TotalsConcat | src/context/CartContext.tsx:99-104 | item count and subtotal are additive over concatenation |
| CartStore.ItemCount | src/context/CartContext.tsx:99 | definition: the sum of the lines' quantities; its behaviour under the operations is stated by `TotalsConcat`, `TotalsAdded`, `TotalsEmpty` and `Cart.ClearCart` |
| CartStore.Subtotal | src/context/CartContext.tsx:101-104 | definition: the sum of price times quantity over the lines, in cents; stated by the same lemmas and by `Checkout.OrderTotalIsSubtotal` |
| CartStore.TotalsAdded | src/context/CartContext.tsx:99-104 | `addItem(p, q)` raises the item count by q, and the subtotal by q times the unit price of the line that receives the quantity: the stored product's price when merging, p's price when appending |
| CartStore.TotalsEmpty | src/context/CartContext.tsx:95-104 | the empty cart has item count 0 and subtotal 0 |
| CartStore.TotalsExample | src/context/CartContext.tsx:99-104 | two burgers at 28.90 and a soda at 6.00 count 3 items and total 63.80 |
| CartItemControls.IncreaseEffect | src/components/cart/CartItem.tsx:15-17 | on a line with quantity 0 or more, + sets the quantity of the id's lines to one more and changes nothing else, notes included; when one more is still 0 or less, + removes the id's lines |
| CartItemControls.DecreaseEffect | src/components/cart/CartItem.tsx:19-25 | − above 1 sets every line for the id to the line's quantity minus one; at 1 or below it removes every line for the id, so no line for the id is left at quantity 0 or less |
| CartItemControls.NoteSaved | src/components/cart/CartItem.tsx:31-34 | saving stores exactly the edited text on the line's id, even an empty one, and keeps the quantities |
| CartItemControls.IncreaseThenDecrease | src/components/cart/CartItem.tsx:15-25 | + and then − on the re-rendered line restore the cart |
| CartItemControls.CartItemView.constructor | src/components/cart/CartItem.tsx:12-13 | the editor starts closed, with the line's note as its draft |
| CartItemControls.CartItemView.HandleQuantityIncrease | src/components/cart/CartItem.tsx:15-17 | the store lines become `Increase(old lines, line)` |
| CartItemControls.CartItemView.HandleQuantityDecrease | src/components/cart/CartItem.tsx:19-25 | the store lines become `Decrease(old lines, line)` |
| CartItemControls.CartItemView.HandleRemoveItem | src/components/cart/CartItem.tsx:27-29 | the store lines become `Removed(old lines, id)` |
| CartItemControls.CartItemView.OpenNoteEditor | src/components/cart/CartItem.tsx:72 | the editor opens and keeps its draft |
| CartItemControls.CartItemView.EditNote | src/components/cart/CartItem.tsx:85 | typing replaces the draft |
| CartItemControls.CartItemView.CancelNote | src/components/cart/CartItem.tsx:92 | cancel closes the editor and keeps the draft |
| CartItemControls.CartItemView.HandleNoteSubmit | src/components/cart/CartItem.tsx:31-34 | the draft is written to the line's id and the editor closes |
| ProductCardControls.Find | src/components/menu/ProductCard.tsx:13 | `find`: nothing when no line has the id, otherwise the line at `FindIndex` |
| ProductCardControls.QuantityInCart | src/components/menu/ProductCard.tsx:13-14 | definition: the found line's quantity, or 0; its meaning is stated by `QuantityShown` |
| ProductCardControls.QuantityShown | src/components/menu/ProductCard.tsx:13-14 | with unique ids the card shows the quantity of the product's line, or 0 when there is none |
| ProductCardControls.AddOneEffect | src/components/menu/ProductCard.tsx:16-18 | + raises the product's line by 1 and keeps its note, or appends a line with quantity 1 and an empty note |
| ProductCardControls.RemoveOneEffect | src/components/menu/ProductCard.tsx:20-26 | − at shown quantity 1 removes the lines for the id, above 1 sets every line for the id to the shown quantity minus one, and at 0 or below changes nothing |
| ProductCardControls.AddOneThenRemoveOne | src/components/menu/ProductCard.tsx:16-26 | + then − leaves the cart exactly as before, whether the product was absent or present (with unique ids and a quantity of at least 1) |
| ProductCardControls.ProductCardView.constructor | src/components/menu/ProductCard.tsx:10-11 | a card holds its product and the store |
| ProductCardControls.ProductCardView.HandleAddToCart | src/components/menu/ProductCard.tsx:16-18 | the store lines become `AddOne(old lines, product)` |
| ProductCardControls.ProductCardView.HandleRemoveFromCart | src/components/menu/ProductCard.tsx:20-26 | the store lines become `RemoveOne(old lines, id)` |
| ProductList.CategoriesOf | src/components/menu/ProductList.tsx:15 | one category per product, position by position |
| ProductList.Dedup | src/components/menu/ProductList.tsx:15 | definition of `[...new Set(xs)]`; its properties are stated by `DedupProperties` |
| ProductList.Categories | src/components/menu/ProductList.tsx:15 | definition: the de-duplicated categories; stated by `CategoriesMembers` and `DedupProperties` |
| ProductList.FirstIndex | src/components/menu/ProductList.tsx:15 | the position where a value first appears |
| ProductList.DedupProperties | src/components/menu/ProductList.tsx:15 | the de-duplicated list holds a value iff the input does, holds no value twice, and lists values in order of first appearance |
| ProductList.CategoriesMembers | src/components/menu/ProductList.tsx:15 | a string is a category pill iff some product has it as its category |
| ProductList.InCategoryMembers | src/components/menu/ProductList.tsx:19 | a product is shown for a category iff it is in the list and has that category |
| ProductList.InCategoryConcat | src/components/menu/ProductList.tsx:19 | filtering distributes over concatenation, so the original order is kept |
| ProductList.FilteredProducts | src/components/menu/ProductList.tsx:18-20 | definition: all products without an active category, otherwise that category's; stated by `FilteredProductsSpec` and `ListedCategoryNotEmpty` |
| ProductList.FilteredProductsSpec | src/components/menu/ProductList.tsx:18-20 | with no active category (`null` or the empty string) the grid is all products; with one it is exactly that category's products, in their original order (`InCategory`) |
| ProductList.ListedCategoryNotEmpty | src/components/menu/ProductList.tsx:15-36 | a category taken from the pills never gives an empty grid |
| OpeningHours.DayName | src/hooks/useOpeningHours.tsx:33-37 | indices 0 to 6 give Domingo to Sábado; any other index gives no name |
| OpeningHours.Status | src/hooks/useOpeningHours.tsx:60 | the status is "Aberto agora" iff open and "Fechado" iff closed |
| OpeningHours.ToNumber | src/hooks/useOpeningHours.tsx:50-51 | definition of `Number` on runs of ASCII digits (see Left out); used by `ParseClockOf` |
| OpeningHours.ParseHours | src/hooks/useOpeningHours.tsx:49-54 | definition: the opening and closing minute of an entry; stated by `ParseHoursOf`, `RangeOf` and the three table lemmas |
| OpeningHours.HoursFor | src/hooks/useOpeningHours.tsx:37-46 | definition: the day's non-empty table entry; stated by `UnknownDayClosed` and the day lemmas |
| OpeningHours.IsOpenAt | src/hooks/useOpeningHours.tsx:39-57 | definition: open iff the day has an entry and the time is in its half-open range; stated per day by `WeekdayHours`, `SaturdayHours`, `SundayHours` and `UnknownDayClosed` |
| OpeningHours.ParseClockOf | src/hooks/useOpeningHours.tsx:50-54 | "HH:MM" reads as HH·60 + MM minutes since midnight |
| OpeningHours.ParseHoursOf | src/hooks/useOpeningHours.tsx:49-54 | "open - close" reads as the pair of the two clock readings |
| OpeningHours.RangeOf | src/hooks/useOpeningHours.tsx:49-54 | an "HH:00 - HH:00" entry reads as its two whole hours in minutes |
| OpeningHours.WeekdayRange | src/hooks/useOpeningHours.tsx:11-15 | "11:00 - 22:00" reads as minutes 660 to 1320 |
| OpeningHours.SaturdayRange | src/hooks/useOpeningHours.tsx:16 | "10:00 - 23:00" reads as minutes 600 to 1380 |
| OpeningHours.SundayRange | src/hooks/useOpeningHours.tsx:17 | "10:00 - 21:00" reads as minutes 600 to 1260 |
| OpeningHours.WeekdayHours | src/hooks/useOpeningHours.tsx:10-57 | Monday to Friday it is open iff 660 ≤ hour·60+minute < 1320: open at the opening minute, closed at the closing minute |
| OpeningHours.SaturdayHours | src/hooks/useOpeningHours.tsx:10-57 | Saturday it is open iff 600 ≤ hour·60+minute < 1380 |
| OpeningHours.SundayHours | src/hooks/useOpeningHours.tsx:10-57 | Sunday it is open iff 600 ≤ hour·60+minute < 1260 |
| OpeningHours.UnknownDayClosed | src/hooks/useOpeningHours.tsx:37-46 | a day index outside 0 to 6 has no entry and is closed |
| OpeningHours.OpeningHoursHook.constructor | src/hooks/useOpeningHours.tsx:21-22 | the hook starts closed with an empty status |
| OpeningHours.OpeningHoursHook.CheckIfOpen | src/hooks/useOpeningHours.tsx:25-63 | the returned value is `IsOpenAt(day, hour, minute)`; the stored flag equals it and the stored status matches it |
| Text.TrimEmptyIff | src/pages/Checkout.tsx:72-76 | `s.trim()` is empty exactly when every character of s is ECMAScript whitespace |
| Text.Trim | src/pages/Checkout.tsx:72-76 | `trim()`: the result neither starts nor ends with whitespace; `TrimEmptyIff` states when it is empty |
| Text.Split | src/hooks/useOpeningHours.tsx:49-51 | `split(sep)`: there is always at least one piece; `SplitJoin` and `JoinSplit` relate it to `join` |
| Text.SplitJoin | src/hooks/useOpeningHours.tsx:49-51 | splitting joined pieces gives the pieces back when no piece holds the separator's first character |
| Text.JoinSplit | src/hooks/useOpeningHours.tsx:49-51 | joining the pieces of a split gives the string back |
| UriEncoding.Utf8RoundTrip | src/utils/whatsapp.ts:67 | the UTF-8 octets of a string decode back to the string |
| UriEncoding.PercentEncode | src/utils/whatsapp.ts:67 | definition of `encodeURIComponent`; stated by `PercentRoundTrip`, `EncodedIsSafe` and `EncodeLength` |
| UriEncoding.PercentRoundTrip | src/utils/whatsapp.ts:67 | decoding `encodeURIComponent(s)` gives s back |
| UriEncoding.EncodedIsSafe | src/utils/whatsapp.ts:67 | an encoded string holds only unreserved characters, `%` and upper-case hex digits, so it has no `?`, `&`, `#` or space |
| UriEncoding.EncodeLength | src/utils/whatsapp.ts:67 | encoding never shortens, and it leaves a string unchanged (in length or in content) iff every character is unreserved |
| WhatsApp.AppendOpening | src/utils/whatsapp.ts:35-47 | the header, name and delivery part is the terminated opening lines |
| WhatsApp.AppendPayment | src/utils/whatsapp.ts:56-62 | the payment part appends the terminated payment lines |
| WhatsApp.MessageText | src/utils/whatsapp.ts:33-65 | definition: the message lines joined by newlines, the total line last and unterminated; the section lemmas below locate every line, and `MessageSplitsIntoLines` reads the lines back |
| WhatsApp.GenerateOrderMessage | src/utils/whatsapp.ts:29-68 | the loop builds `MessageText` (every message line joined by newlines), and the result is its percent-encoding, which decodes back to it |
| WhatsApp.MessageStart | src/utils/whatsapp.ts:35-36 | the message opens with the header, an empty line, and the name line with the customer's name |
| WhatsApp.DeliverySection | src/utils/whatsapp.ts:39-44 | line 3 is "Entrega" (followed by the address line) iff delivery is chosen with a non-empty address; otherwise it is "Retirada", also for delivery with an empty address |
| WhatsApp.ItemsSection | src/utils/whatsapp.ts:47-53 | after the items header come exactly the item lines |
| WhatsApp.ItemBullets | src/utils/whatsapp.ts:48-49 | the bullet lines of the message are `ItemBulletLines`, one per order item, in input order |
| WhatsApp.ItemBulletLineAt | src/utils/whatsapp.ts:49 | bullet line i shows item i's quantity, name, and formatted price times quantity |
| WhatsApp.ItemNoteLines | src/utils/whatsapp.ts:50-52 | the note lines are those of the items with a non-empty note, in order; the item lines are one bullet per item plus those notes |
| WhatsApp.ItemsLinesConcat | src/utils/whatsapp.ts:48-53 | the lines of two runs of items are the first run's lines followed by the second's |
| WhatsApp.ItemsLinesAt | src/utils/whatsapp.ts:48-53 | item i's lines sit between the earlier items' lines and the later ones'; its bullet is at the position after the earlier lines, and its note line (when the note is non-empty) comes straight after the bullet |
| WhatsApp.PaymentSection | src/utils/whatsapp.ts:56-65 | the method line follows the payment header; the two change lines (amount given, and amount minus subtotal) appear iff cash with change and a non-zero amount; the last line is the total, after an empty line |
| WhatsApp.MethodLineNames | src/utils/whatsapp.ts:57 | the method line says PIX iff PIX was chosen, and Dinheiro iff cash |
| WhatsApp.MessageSplitsIntoLines | src/utils/whatsapp.ts:35-65 | when no field and no formatted amount holds a newline, splitting the text at newlines gives back exactly the message lines |
| WhatsApp.StripNonDigits | src/utils/whatsapp.ts:80 | the stripped phone holds only digits and is no longer than the input |
| WhatsApp.StripNonDigitsProperties | src/utils/whatsapp.ts:80 | stripping keeps a digit, drops any other character, maps a concatenation to the concatenation of the parts, and is idempotent |
| WhatsApp.DigitsFixed | src/utils/whatsapp.ts:80 | a string of digits is left as it is |
| WhatsApp.ParseLink | src/utils/whatsapp.ts:86 | a link made of the prefix, a run of digits, `?text=` and an encoded text that decodes reads back as those digits and that text |
| WhatsApp.UrlRoundTrip | src/utils/whatsapp.ts:80-86 | reading the link back gives the phone's digits and the original message |
| WhatsApp.SendOrderToWhatsApp | src/utils/whatsapp.ts:73-90 | the link is `https://wa.me/` + digits + `?text=` + encoded message, and reads back as the digits and the message |
| Checkout.LeadingDigits | src/pages/Checkout.tsx:160 | the count of leading digits: all of them are digits, and the next character (if any) is not |
| Checkout.AmountAcceptedIff | src/pages/Checkout.tsx:160 | the scanner accepts exactly the strings of `^\d+(\.\d{0,2})?$`: some digits, then optionally a dot with at most two digits |
| Checkout.AmountCents | src/pages/Checkout.tsx:81 | the field is read as a number of cents iff it has the accepted shape, and never as a negative amount |
| Checkout.RenderCentsRoundTrip | src/pages/Checkout.tsx:156-163 | any amount written with two decimals passes the filter and reads back as itself |
| Checkout.WholeAmountExamples | src/pages/Checkout.tsx:156-163 | "12" and "12." both read as 1200 cents |
| Checkout.FractionAmountExamples | src/pages/Checkout.tsx:156-163 | "12.5" reads as 1250 cents and "0.05" as 5 |
| Checkout.RejectedAmountExamples | src/pages/Checkout.tsx:160 | "", ".5", "1.234" and "1,5" do not pass the filter |
| Checkout.ErrorsByRule | src/pages/Checkout.tsx:69-88 | a dictionary that holds each broken rule's message, and only those, is the error dictionary |
| Checkout.FormErrors | src/pages/Checkout.tsx:69-87 | definition: each key whose rule fails, mapped to its message; stated by `FormErrorsRules` and `ErrorsByRule` |
| Checkout.FormErrorsRules | src/pages/Checkout.tsx:72-87 | name error iff the name is all whitespace; address error iff delivery with an absent or all-whitespace address (never for pickup); change error iff cash with change and an amount that is empty or not above the subtotal (never for PIX); each entry holds its message; the form passes iff no rule applies |
| Checkout.OrderItems | src/pages/Checkout.tsx:114-119 | one order item per cart line, in order, with name, price, quantity and note copied |
| Checkout.OrderTotalIsSubtotal | src/pages/Checkout.tsx:114-127 | the order items' price-times-quantity amounts add up to the cart subtotal that the total line shows |
| Checkout.FinalForm | src/pages/Checkout.tsx:108-111 | definition: the form, with the parsed amount attached for cash with change; stated by `FinalFormChange` |
| Checkout.FinalFormChange | src/pages/Checkout.tsx:108-111 | on a passing form, the amount is attached only for cash with change, and there it is the field's reading, above the subtotal, so the change lines appear; any other form is sent unchanged, and PIX never shows change |
| Checkout.CheckoutPage.constructor | src/pages/Checkout.tsx:19-29 | the form starts as pickup, PIX, no change, empty name; the amount is empty and there are no errors |
| Checkout.CheckoutPage.HandleInputChange | src/pages/Checkout.tsx:45-53 | the name or address takes the typed text; that field's error is blanked when it shows one, and errors are otherwise unchanged |
| Checkout.CheckoutPage.HandleRadioChange | src/pages/Checkout.tsx:55-58 | the delivery option or payment method takes the chosen value and nothing else changes |
| Checkout.CheckoutPage.HandleCheckboxChange | src/pages/Checkout.tsx:60-67 | the change flag takes the box's state; unticking also empties the amount |
| Checkout.CheckoutPage.HandleChangeAmountInput | src/pages/Checkout.tsx:156-163 | the amount takes the new text iff it is empty or has the accepted shape; otherwise the previous text is kept |
| Checkout.CheckoutPage.ValidateForm | src/pages/Checkout.tsx:69-88 | the stored errors are `FormErrors(form, amount, subtotal)` and the result is true iff there are none |
| Checkout.CheckoutPage.HandleSubmit | src/pages/Checkout.tsx:90-133 | closed: nothing changes; open and invalid: errors are shown, nothing is sent and the cart is kept; open and valid: the link for the cart lines and the final form is produced, reads back as the restaurant's digits and that message, and the cart is emptied |

## Left out

- `localStorage`: saving the cart on every change is not modelled. Loading is `Cart.Load`, with the saved value and `JSON.parse` as parameters, a failed parse being `None`.
- `Intl.NumberFormat`: amounts are formatted by the parameter `fmt`.
- Floating-point money: prices, subtotals and change amounts are integer cents, so `subtotal` is exact and the change due is `changeAmount - subtotal` in cents.
- Checkout.AmountCents: models `parseFloat` only on the empty string (NaN, here `None`) and on strings of the accepted shape. The filter keeps every other string out of the field (`CheckoutPage.Valid`).
- `Date`, `setInterval` and `useEffect`: the clock is not read. `CheckIfOpen` takes the day index, hour and minute, and `HandleSubmit` takes the hook's `isOpen`.
- OpeningHours.IsOpenAt: agrees with the hook on the fixed table, whose every entry parses (`WeekdayRange`, `SaturdayRange`, `SundayRange`). Other entries are not modelled faithfully. An entry that does not parse reads as closed in the model. In the hook, an entry without `" - "` leaves `closeTime` undefined, so `closeTime.split` throws a `TypeError` (src/hooks/useOpeningHours.tsx:49-51).
- OpeningHours.ToNumber: reads only runs of ASCII digits. JavaScript's `Number` also reads surrounding spaces, a sign, hex, decimals and exponents (`Number(" 11")`, `Number("0xB")` and `Number("1.1e1")` are all 11). No entry of the fixed table uses these forms.
- Browser side effects: `window.open` is modelled by returning the link it would open. `navigate`, toasts, `navigator.clipboard` and `alert` are not modelled.
- The effects that redirect an empty cart to the menu and show a toast when closed (src/pages/Checkout.tsx:32-43 and src/pages/Checkout.tsx:166-170) are not modelled.
- The page's own `formatCurrency` helper (src/pages/Checkout.tsx:140-154) is not used by any handler and is not modelled.
- All JSX rendering, CSS and routing.
- The in-place update of the found line in `addItem` (src/context/CartContext.tsx:58-59) is modelled with value semantics. The resulting cart is the same; any sharing of that line object with the previous state is not captured.
- Lone surrogates: Dafny's `char` is a Unicode scalar value, so the `URIError` that `encodeURIComponent` throws on a lone surrogate cannot arise and is not modelled.
- `encodeURIComponent` leaves `! ' ( ) *` unescaped, besides the unreserved marks of section 2.3 of RFC 3986. The model follows `encodeURIComponent`.
- CartStore: a line's note is a string, and a note that was never written is `""`. An absent note and an empty one behave the same everywhere (`if (note)`, `if (item.note)`).
- Checkout.OrderItems: copies each note as present, `Some(note)`. An empty note gives no note line, as `undefined` does.
- Checkout.CheckoutPage.HandleSubmit: models `sendOrderToWhatsApp` up to the link it would open.
- Admin pages, authentication, the menu page with its mock data, and the presentational components are not part of this model.
