# Tomato jam order page: order state, in Dafny

This project models the order state of the tomato jam product page script
(`script.js`) and proves properties about it. The page holds three values:
a quantity counter, a size label and a unit price. Two buttons change the
quantity. A refresh mirrors the state into up to four page elements. The
order button builds the record that the checkout page reads. Separately,
the contact buttons either let an e-mail link through or show a message
chosen by the button's label.

The modules are:

- `Wrappers` (`wrappers.dfy`): `Option`, used for a page element that may be
  missing and for a parse that may fail.
- `Decimal` (`decimal.dfy`): the text of numbers. `NatToString` is what
  `String(n)` writes for the quantity. `FormatCents` is what `toFixed(2)`
  writes for an amount. Amounts are integer cents, so 90.00 is 9000. Each
  formatter has a reader (`ParseNat`, `ParseCents`), and the round trips
  are proved in both directions.
- `Order` (`order.dfy`): the quantity clicks as values (`Step`, `Run`), the
  four display targets (`Targets`, `Render`), the saved order record
  (`SnapshotOf`), and the class `OrderState`. The class holds the page's
  global state as fields and updates them in place. Its invariant `Valid()`
  says the quantity is at least 1 and every present element already shows
  the current state. Each method keeps that invariant.
- `Contact` (`contact.dfy`): the contact-button click handler. It uses
  JavaScript's `trim`, the `mailto:` test and the `switch` on the label.

The decrease handler refreshes the page only inside its `quantity > 1`
guard (`script.js:45-48`), so `OrderState.Decrement` at quantity 1 leaves
the page's elements untouched.

## Model

| member | source | states |
|---|---|---|
| `Decimal.NatToString` | script.js:71 | the quantity's text is at least one decimal digit with no leading zero, and it denotes exactly the quantity |
| `Decimal.NatRoundTrip` | script.js:71 | reading the quantity's text back gives the quantity |
| `Decimal.CanonicalRoundTrip` | script.js:71 | every canonical digit string is the text written for its own value, so the quantity's text is unique |
| `Decimal.FormatCents` | script.js:69-72 | `toFixed(2)` on an amount: digits, one point, then exactly two digits after it; the whole part is canonical; reading it back gives the amount in cents |
| `Decimal.FormatCentsInjective` | script.js:69 | two different amounts never show as the same text |
| `Decimal.CentsTextIsUnique` | script.js:69 | any canonical two-decimal text that reads as an amount is exactly the formatted amount |
| `Order.Step` | script.js:44-56 | one click never takes a quantity of at least 1 below 1; it moves the quantity by at most one; it leaves the quantity unchanged exactly when it is a decrease at the floor |
| `Order.RunKeepsFloor` | script.js:44-56 | starting from a quantity of at least 1 (the initial 1), every sequence of clicks keeps the quantity at least 1 |
| `Order.RunBounds` | script.js:44-56 | after any clicks the quantity lies between the start minus the number of decreases and the start plus the number of increases |
| `Order.RunOnlyIncreases` | script.js:52-56 | with no decreases the quantity grows by exactly the number of increases: there is no ceiling |
| `Order.Write` | script.js:71-74 | a present element gets the new text and a missing element stays missing |
| `Order.TotalText` | script.js:69 | the total text has exactly two digits after its point and reads back as price times quantity in cents |
| `Order.Render` | script.js:63-75 | after a refresh each element is present exactly when it was before; the quantity element reads back as the quantity, the price element as the unit price, and both total elements as price times quantity; the two total elements hold identical text |
| `Order.RenderIdempotent` | script.js:63-75 | refreshing again without a state change changes nothing |
| `Order.RenderNoTargets` | script.js:64-74 | a page without any of the four elements is left as it is, with no error |
| `Order.SnapshotOf` | script.js:107-112 | the order record carries the given size, quantity and price, and its total reads back as price times quantity |
| `Order.SnapshotAgreesWithDisplay` | script.js:107-112 | the saved total is the same string the total element shows for the same state |
| `Order.OrderState.constructor` | script.js:9-18 | page load: quantity 1, size "120ml", price 9000 cents, then the first refresh of the page's elements; the invariant holds |
| `Order.OrderState.Refresh` | script.js:63-75 | the elements become the refresh of the old elements from the current state; quantity, size and price are unchanged |
| `Order.OrderState.Increment` | script.js:52-56 | the quantity rises by exactly 1, the page is refreshed, size and price are unchanged, and the invariant is kept |
| `Order.OrderState.Decrement` | script.js:43-49 | above 1 the quantity falls by exactly 1 and the page is refreshed; at 1 neither the quantity nor the page changes; size and price are unchanged; the invariant is kept |
| `Order.OrderState.PlaceOrder` | script.js:107-112 | the record carries the current size, quantity and price; its total reads back as price times quantity; on a refreshed page it equals the text in each present total element |
| `Order.TotalOfFour` | script.js:69 | at 90.00 a quantity of 4 shows the total "360.00" |
| `Order.TotalOfTwo` | script.js:111 | at 90.00 a quantity of 2 saves the total "180.00" |
| `Order.ThreeIncreases` | script.js:52-56 | page load then three increases gives quantity 4 and a shown total of "360.00" |
| `Order.DecreaseAtFloor` | script.js:44-49 | page load then a decrease leaves quantity 1 and the page as loaded |
| `Order.OrderTwo` | script.js:107-112 | page load, one increase, then the order button saves size "120ml", quantity 2, price 9000 cents and total "180.00" |
| `Contact.TrimStart` | script.js:155 | what remains is a suffix of the label that does not start with white space |
| `Contact.TrimEnd` | script.js:155 | what remains is a prefix of the text that does not end with white space |
| `Contact.Trim` | script.js:155 | the trimmed label neither starts nor ends with white space and is no longer than the label |
| `Contact.TrimStartDropsWhitespace` | script.js:155 | everything dropped at the front is white space |
| `Contact.TrimEndDropsWhitespace` | script.js:155 | everything dropped at the back is white space |
| `Contact.TrimPadded` | script.js:155 | white space added around an already trimmed text is exactly what `trim` removes |
| `Contact.MessageFor` | script.js:162-174 | a message other than the fallback is chosen only by that message's own label |
| `Contact.MessageForLabel` | script.js:162-171 | each of "Instagram", "Facebook" and "WhatsApp" selects its own message |
| `Contact.Dispatch` | script.js:154-176 | a click passes through, with no interception, exactly when the link's `href` starts with "mailto:" |
| `Contact.DispatchNamed` | script.js:162-171 | an intercepted click shows a named message exactly when the trimmed label is that name |
| `Contact.DispatchGeneric` | script.js:172-173 | an intercepted click shows the fallback message exactly when the trimmed label is none of the three names |
| `Contact.DispatchPaddedLabel` | script.js:155-171 | a known name surrounded by white space or line breaks still selects its own message |
| `Contact.MailtoIgnoresLabel` | script.js:158 | an e-mail link passes through whatever its label |

## Left out

- DOM lookups, listener registration and the `DOMContentLoaded` bootstrap (`script.js:16-23`, `script.js:40-43`, `script.js:151-154`) are not modelled as calls. The page is a `Targets` value passed to the constructor: a missing element is `None`. The initial refresh at `script.js:18` is part of the constructor.
- `scrollToSection`, the benefit-card hover transforms and the reveal-on-scroll observer are left out. They are cosmetic and hold no data.
- The press animation and its `setTimeout` are left out. They are timer-driven and cosmetic.
- `localStorage.setItem`, `JSON.stringify` and the redirect to `checkout.html` are browser I/O. `PlaceOrder` returns the record that would be stored.
- `alert` and its message texts are left out. The model yields which message is shown (`MessageKind`), not its text.
- Floating point is left out. Price and total are integer cents, so 90.00 is 9000. The rounding of `price * quantity` in binary floating point is not modelled. Neither is the exponent notation that `toFixed` and `String` switch to at 1e21 and above. Both only matter for quantities far beyond any order.
- Order.OrderState.Increment: `quantity` is a JavaScript number too, so from 2^53 (9007199254740992) on, `quantity++` (`script.js:54`) leaves it unchanged. The model's counter is unbounded and always rises by exactly 1.
- Order.RunOnlyIncreases: "no ceiling" holds for the unbounded counter. The source's counter stops growing at 2^53, as the line above says.
- `OrderState.PlaceOrder`: the stored record's `price` is the JavaScript number 90, and JSON writes it as `90`. The model keeps it as 9000 cents.
- `Contact.Dispatch`: a link's `href` as the browser resolves it is taken as given. `None` stands for an element that has no `href` property. An empty `href` behaves like any other non-`mailto:` one, as in the source.
