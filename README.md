# Checkout flow core, modelled in Dafny

This project models the logic under the markup of a React checkout page
(customer → shipping → payment → thanks). It covers:

- the four card-field formatters of the payment form (card number, cardholder
  name, security code, expiry date), with the regular expressions written out
  as sequence functions;
- the card-validator bookkeeping: the eight validity flags, the "anything
  invalid" aggregate and the red/grey border rule;
- the payment, shipping and customer-summary components, as classes over
  their local state and the store values they read;
- the derived displays: orders sorted by descending id on a copy, the two
  address rows, the email fallback, the capitalised shipping-method labels and
  the split-delivery banner;
- the page's stage-to-form router.

The components do not change the store themselves. They issue requests: a
`dispatch(...)` to the store, or a call to the commerce backend. Each component
class records these in `requests`, oldest first, as `Store.Action` values. The
reducers that act on them are not part of this model. So "the stage does not
change" is stated as "no `SetCheckoutStage` request is issued". Stage requests
keep their payload shape: `Bare("thanks")` for a plain string, as in
`Payment.tsx` and `CustomerInfo.tsx`, and `Wrapped("customer")` for a
`{ stage }` object, as in `Shipping.tsx`.

The card validator is an outside library. Its two booleans (`isPotentiallyValid`,
`isValid`) are passed to `Payment.PaymentForm.CardDetailChange` as free inputs.

Files: `strings.dfy` (digit filter, JavaScript `trim`, `split(' ')`/`join(' ')`,
decimal rendering), `card_format.dfy`, `card_validation.dfy`, `store.dfy`,
`wrappers.dfy`, `address_text.dfy`, `payment.dfy`, `shipping.dfy`,
`customer_info.dfy`, `checkout_page.dfy`.

Behaviour of the code that is easy to misread; the model follows the code:

- `validateCardInputs` reports a problem when any of the eight flags is false,
  `isPotentiallyValid` ones included, not only when an `isValid` flag is false.
- The expiry formatter keeps every digit (`"123456"` becomes `"12/3456"`); it
  does not cut the value to four digits. It inserts the slash only once there
  are four digits.
- On the credit-card branch, Complete order never asks for the thanks stage,
  because that transition is commented out. It only posts the card.
- The name formatter capitalises a letter after any non-word character
  (`[^A-Za-z0-9_]`), not only after white space.
- The PayPal success callback submits the order and asks for the thanks stage
  without looking at the terms agreement, unlike the Complete-order button
  (`Payment.PaymentForm.PaypalApproved` has no terms condition).

## Model

| member | source | states |
|---|---|---|
| `Strings.Digits` | src/components/checkout/Payment.tsx:67 | `replace(/\D/g, '')` keeps only digits and never grows the string |
| `Strings.Trim` | src/components/checkout/Payment.tsx:67 | `trim()`, as leading then trailing white-space removal; `TrimSpec` states what it yields |
| `Strings.TrimSpec` | src/components/checkout/Payment.tsx:67 | `trim()` returns the contiguous piece of the input left once the leading and trailing white space is removed: only white space is dropped, and neither end of the result is white space |
| `Strings.Split` | src/components/checkout/CustomerInfo.tsx:63 | `split(' ')` gives at least one piece, none holding a space |
| `Strings.Join` | src/components/checkout/CustomerInfo.tsx:65 | `join(' ')`; `JoinSplit` and `SplitJoin` tie it to `Split` |
| `Strings.JoinSplit` | src/components/checkout/CustomerInfo.tsx:63-65 | joining the pieces of `split(' ')` with single spaces gives back the original string |
| `Strings.SplitJoin` | src/components/checkout/CustomerInfo.tsx:63-65 | splitting a join of space-free words gives back exactly those words |
| `Strings.DecimalString` | src/components/checkout/Shipping.tsx:73-75 | a number in a template literal (also the banner count, CustomerInfo.tsx:78) is a non-empty string of digits that starts with `0` only for zero, so it has no leading zero, like JavaScript's number-to-string; `DecimalRoundTrip` says it reads back as that number |
| `Strings.DecimalRoundTrip` | src/components/checkout/Shipping.tsx:73 | a number written into a template literal reads back as the same number |
| `CardFormat.CapitalizeFrom` | src/components/checkout/Payment.tsx:62 | the word-boundary scan behind `/\b[a-z]/g`, upper-casing a-z at the start or after a non-word character; the result is as long as its input, and `FormatNameAt` says which characters change |
| `CardFormat.FormatName` | src/components/checkout/Payment.tsx:62 | the formatted name is as long as the raw input; `FormatNameAt` says which characters change |
| `CardFormat.FormatNameAt` | src/components/checkout/Payment.tsx:62 | the name keeps its length; a character is upper-cased exactly when it is a-z at index 0 or after a character outside `[A-Za-z0-9_]`; all others are unchanged |
| `CardFormat.FormatNameIdempotent` | src/components/checkout/Payment.tsx:62 | formatting a formatted name changes nothing |
| `CardFormat.Chunks` | src/components/checkout/Payment.tsx:67 | reference grouping: groups of 1 to 4 digits, all but the last exactly 4, concatenating to the digits |
| `CardFormat.Group4` | src/components/checkout/Payment.tsx:67 | `replace(/(\d{4})/g, '$1 ')` on the digits: one space is added per full group of four, so the length is the digit count plus that count divided by 4; `Group4Shape` ties it to `Chunks` |
| `CardFormat.FormatNumber` | src/components/checkout/Payment.tsx:67 | the digit filter, the replacement and `trim` in that order; `FormatNumberGroups` and `FormatNumberSpec` state what it yields |
| `CardFormat.FormatNumberGroups` | src/components/checkout/Payment.tsx:67 | the card number is the digit groups of four joined by single spaces; the trailing space of the replacement is trimmed away |
| `CardFormat.FormatNumberSpec` | src/components/checkout/Payment.tsx:67 | the card number has only digits and spaces; its digits are the raw input's digits in order; no leading, trailing or double space; splitting it on spaces gives the groups of four |
| `CardFormat.FormatNumberIdempotent` | src/components/checkout/Payment.tsx:67 | formatting a formatted card number changes nothing |
| `CardFormat.FormatNumberExample` | src/components/checkout/Payment.tsx:67 | `"4111111111111111"` becomes `"4111 1111 1111 1111"` |
| `CardFormat.FormatCode` | src/components/checkout/Payment.tsx:72 | the code is all digits, is the first min(4, n) digits of the raw input, where n is its digit count, and so is at most 4 long |
| `CardFormat.FormatCodeIdempotent` | src/components/checkout/Payment.tsx:72 | formatting a formatted code changes nothing |
| `CardFormat.InsertSlash` | src/components/checkout/Payment.tsx:77 | `replace(/(\d{2})(\d{2})/, '$1/$2')` on the digits: with 4 or more digits a single `/` goes after the first two and every digit is kept; with fewer the digits are unchanged |
| `CardFormat.FormatExpiry` | src/components/checkout/Payment.tsx:77 | the digit filter, the first-match replacement and `trim`; `FormatExpirySpec` states what it yields |
| `CardFormat.FormatExpirySpec` | src/components/checkout/Payment.tsx:77 | with fewer than 4 digits the expiry is the bare digits; with 4 or more it is the first 2 digits, `/`, then all remaining digits; it holds a slash exactly when there are 4 digits or more; no digit is dropped |
| `CardFormat.FormatExpiryIdempotent` | src/components/checkout/Payment.tsx:77 | formatting a formatted expiry changes nothing |
| `CardFormat.FormatExpiryExample` | src/components/checkout/Payment.tsx:77 | `"123456"` becomes `"12/3456"` |
| `CardValidation.Update` | src/components/checkout/Payment.tsx:65 | a validator verdict replaces the flags of its own field and leaves the other three fields as they were |
| `CardValidation.Flags` | src/components/checkout/Payment.tsx:53-54 | the inner `Object.values` of each field's flag pair, read in field order as eight booleans; `SomeFalse` and `CardInputsInvalidIff` state what is read from them |
| `CardValidation.SomeFalse` | src/components/checkout/Payment.tsx:53-55 | `.some(value => value === false)` is true exactly when some flag is false |
| `CardValidation.CardInputsInvalid` | src/components/checkout/Payment.tsx:52-57 | `validateCardInputs` over the four fields' flags; `CardInputsInvalidIff` characterises it |
| `CardValidation.CardInputsInvalidIff` | src/components/checkout/Payment.tsx:52-57 | `validateCardInputs` is true exactly when some field is not potentially valid or not valid |
| `CardValidation.InitiallyValid` | src/components/checkout/Payment.tsx:30-35 | all flags start true, so `validateCardInputs` starts false |
| `CardValidation.BorderColor` | src/components/checkout/Payment.tsx:46-50 | the border is `#df4545` exactly when the field is focused and not potentially valid, or is not focused and not valid; otherwise it is `#ced4da` |
| `CardValidation.ErrorBorderBlocksCard` | src/components/checkout/Payment.tsx:46-57 | a red border on any field implies `validateCardInputs` is true |
| `CardValidation.GreyBorderWhileTypingInvalidInput` | src/components/checkout/Payment.tsx:46-57 | the converse fails: a focused, potentially valid but invalid field is grey while the inputs already count as invalid |
| `Payment.CardFieldNamed` | src/components/checkout/Payment.tsx:58-81 | only the inputs named `name`, `number`, `code` and `expiry` are handled, each by its own branch |
| `Payment.FormatField` | src/components/checkout/Payment.tsx:61-80 | the formatter each named input applies before its value is stored; `FormatFieldIdempotent` and `CardFieldNamed` state its properties |
| `Payment.FormatFieldIdempotent` | src/components/checkout/Payment.tsx:61-80 | each stored card value formats to itself |
| `Payment.CompleteOrderOutcome` | src/components/checkout/Payment.tsx:234-255 | not agreed: terms error; agreed with paypal or bankTransfer: request `thanks`; agreed with creditCard: never a stage request, and the card is posted exactly when the inputs are valid and saving was chosen |
| `Payment.OutcomeRequests` | src/components/checkout/Payment.tsx:41-44 | the requests of each Complete-order outcome: a stage request exactly for the outcomes that ask for one (the `thanks` dispatches at lines 244 and 247), and `postNewCard`'s vault and cart requests for a new card |
| `Payment.CreditCardKeepsStage` | src/components/checkout/Payment.tsx:237-242 | the credit-card branch issues no stage request whatever the inputs |
| `Payment.PaymentForm.constructor` | src/components/checkout/Payment.tsx:28-40 | on mount: all flags true, nothing focused, no terms or PayPal error, saved card and save option unset; the only request is the mount effect's `getCards` (line 89) |
| `Payment.PaymentForm.ShowNewCardFields` | src/components/checkout/Payment.tsx:160 | the new-card inputs show exactly for the card method with no saved card chosen; `SavedCardClick` and `SavedCardChange` state how that changes |
| `Payment.PaymentForm.CardDetailChange` | src/components/checkout/Payment.tsx:58-82 | the card inputs exist only while the new-card inputs show (lines 160-173); a handled input sends its formatted value to the store and stores the validator's verdict for that field only; any other input changes nothing |
| `Payment.PaymentForm.Focus` | src/components/checkout/Payment.tsx:84-87 | `focusedElement` becomes the focused input's name, nothing else changes |
| `Payment.PaymentForm.Blur` | src/components/checkout/Payment.tsx:92-95 | `focusedElement` is cleared, nothing else changes |
| `Payment.PaymentForm.ToggleSaveCard` | src/components/checkout/Payment.tsx:160-173 | the checkbox exists only while the new-card inputs show; the save-card option takes its value |
| `Payment.PaymentForm.SavedCardClick` | src/components/checkout/Payment.tsx:174-180 | the saved-card rows exist only for the card method; clicking the chosen saved card deselects it, which shows the new-card inputs again for the card method; any other click changes nothing |
| `Payment.PaymentForm.SavedCardChange` | src/components/checkout/Payment.tsx:160-183 | the saved-card rows exist only for the card method (line 174); choosing a saved card records its token, which hides the new-card inputs |
| `Payment.PaymentForm.ChoosePaymentMethod` | src/components/checkout/Payment.tsx:151 | a payment-method radio requests that method (the paypal and bankTransfer radios at lines 193 and 203 do the same) |
| `Payment.PaymentForm.ChooseBillingAddress` | src/components/checkout/Payment.tsx:222-226 | a billing radio requests that billing choice |
| `Payment.PaymentForm.ToggleTerms` | src/components/checkout/Payment.tsx:213 | the terms checkbox requests the agreement toggle and changes nothing locally |
| `Payment.PaymentForm.StoreChanged` | src/components/checkout/Payment.tsx:103-105 | when the agreement becomes true the terms error is cleared; the error is never shown while the terms are agreed to |
| `Payment.PaymentForm.Back` | src/components/checkout/Payment.tsx:233 | Back requests the `shipping` stage, as a bare string |
| `Payment.PaymentForm.CompleteOrder` | src/components/checkout/Payment.tsx:234-255 | not agreed: only the terms error is raised, no request; agreed: exactly the requests of `CompleteOrderOutcome`, nothing else changes |
| `Payment.PaymentForm.PaypalApproved` | src/components/checkout/Payment.tsx:120-123 | PayPal success submits the order, then requests `thanks` |
| `Payment.PaymentForm.PaypalFailed` | src/components/checkout/Payment.tsx:124-127 | PayPal failure raises the PayPal error flag only |
| `Shipping.InsertByIdSorted` | src/components/checkout/Shipping.tsx:70 | inserting into a list sorted by descending id keeps it sorted |
| `Shipping.InsertByIdMultiset` | src/components/checkout/Shipping.tsx:70 | inserting adds exactly that order and loses none |
| `Shipping.SortByIdDesc` | src/components/checkout/Shipping.tsx:70 | the displayed list is sorted by descending id and is a permutation of `orders`; the stored sequence is a value and is not reordered |
| `Shipping.SortByIdDescStable` | src/components/checkout/Shipping.tsx:70 | orders with equal ids keep their original relative order |
| `Shipping.DeliveryBlocks` | src/components/checkout/Shipping.tsx:70-75 | one block per order, the i-th holding the i-th order of the stable sort, headed "Delivery i+1 of 2" and labelled "Item i+1"; sorted by descending id and a permutation of `orders` |
| `Shipping.DeliveryBlocksStable` | src/components/checkout/Shipping.tsx:70-75 | orders sharing an id are numbered in the order they have in `orders` |
| `Shipping.DeliveryHeading` | src/components/checkout/Shipping.tsx:73 | the heading template; `DeliveryHeadingNumber` states what it holds |
| `Shipping.ItemLabel` | src/components/checkout/Shipping.tsx:75 | `Item` followed by the block's 1-based place |
| `Shipping.ShippingRadioChecked` | src/components/checkout/Shipping.tsx:80-89 | a radio is checked exactly when its value is the order's `shipping` |
| `Shipping.OneShippingRadioChecked` | src/components/checkout/Shipping.tsx:80-89 | exactly one of an order's two radios is checked exactly when its `shipping` is `standard` or `express`; otherwise neither is |
| `Shipping.DeliveryHeadingNumber` | src/components/checkout/Shipping.tsx:73 | the number in the i-th heading has no leading zero and reads back as i + 1, and the total is the literal 2 |
| `Shipping.ThirdDeliveryHeading` | src/components/checkout/Shipping.tsx:73 | the third heading reads "Delivery 3 of 2" |
| `Shipping.ShippingLineIgnoresCity` | src/components/checkout/Shipping.tsx:55 | the city never reaches the shipping row |
| `Shipping.ShippingLineRoundTrip` | src/components/checkout/Shipping.tsx:55 | the row holds apartment, address, province and country in that order, single-space separated, with a comma after exactly the non-empty first three: it reads back to them when the first three hold no comma and do not start with a space |
| `Shipping.ReadShippingLineSound` | src/components/checkout/Shipping.tsx:55 | conversely, every line the reader accepts is exactly the row of the values it reads, so a comma after an empty slot is never read as a row |
| `Shipping.ShippingLine` | src/components/checkout/Shipping.tsx:55 | the row template; its properties are the round-trip lemmas here and `ShippingLineIgnoresCity` |
| `Shipping.ShippingForm.constructor` | src/components/checkout/Shipping.tsx:16-20 | on mount the shipping email is set from `contactInformation.email`; the email is not editable |
| `Shipping.ShippingForm.StoreChanged` | src/components/checkout/Shipping.tsx:13 | a re-render shows the new shipping email |
| `Shipping.ShippingForm.ChangeContact` | src/components/checkout/Shipping.tsx:50 | Change makes the email editable |
| `Shipping.ShippingForm.BlurEmail` | src/components/checkout/Shipping.tsx:41 | leaving the input, which exists only while the email is editable, makes the email read-only |
| `Shipping.ShippingForm.EditEmail` | src/components/checkout/Shipping.tsx:35-44 | an edit is possible only while the email is editable, and sends the new email to the store |
| `Shipping.ShippingForm.EditInstructions` | src/components/checkout/Shipping.tsx:101 | an edit sends the new delivery instructions to the store |
| `Shipping.ShippingForm.ChangeAddress` | src/components/checkout/Shipping.tsx:57 | the Shipping row's Change requests `customer` as `{ stage }` |
| `Shipping.ShippingForm.Back` | src/components/checkout/Shipping.tsx:105-107 | Back requests `customer` as `{ stage }` |
| `Shipping.ShippingForm.Continue` | src/components/checkout/Shipping.tsx:108-111 | Continue requests `payment` as `{ stage }` |
| `Shipping.ShippingForm.SelectShipping` | src/components/checkout/Shipping.tsx:80-89 | choosing the standard or express radio sends `changeShipping` with that same order and that method |
| `AddressText.Tagged` | src/components/checkout/Shipping.tsx:55 | `${s}${s && ','}` (also CustomerInfo.tsx:50): empty exactly when the slot is empty, otherwise the slot followed by one comma |
| `AddressText.ReadSlotTagged` | src/components/checkout/Shipping.tsx:55 | a comma-tagged slot followed by a space reads back to its value and the rest |
| `AddressText.ReadSlot` | src/components/checkout/Shipping.tsx:55 | whatever the slot reader accepts is a tagged slot (comma exactly when non-empty) holding no comma and no leading space, then a space, then the rest |
| `AddressText.ReadSlotBareComma` | src/components/checkout/Shipping.tsx:55 | a comma with no slot value before it is rejected |
| `CustomerInfo.ContactEmail` | src/components/checkout/CustomerInfo.tsx:34-41 | the account email when it is non-empty, otherwise `contactInformation.email` |
| `CustomerInfo.CustomerLineRoundTrip` | src/components/checkout/CustomerInfo.tsx:50 | the row holds apartment, then a space and never a comma, then address, city and province each comma-tagged exactly when non-empty, then country; it reads back to all five when the apartment has no space and address, city and province hold no comma and do not start with a space |
| `CustomerInfo.ReadCustomerLineSound` | src/components/checkout/CustomerInfo.tsx:50 | conversely, every line the reader accepts is exactly the row of the five values it reads |
| `CustomerInfo.CustomerLine` | src/components/checkout/CustomerInfo.tsx:50 | the row template; its properties are the two round-trip lemmas |
| `CustomerInfo.CapitalizeFirst` | src/components/checkout/CustomerInfo.tsx:64 | `word.charAt(0).toUpperCase() + word.slice(1)`; `CapitalizeWordsIsReference`, `CapitalizeWordsWords` and `CapitalizeOneWord` state what it does to each word |
| `CustomerInfo.CapitalizeWords` | src/components/checkout/CustomerInfo.tsx:63-65 | split on spaces, capitalise each word, join with spaces; the lemmas below state what it yields |
| `CustomerInfo.CapitalizeWordsIsReference` | src/components/checkout/CustomerInfo.tsx:63-65 | split/capitalise/join equals upper-casing the first character and each character after a space |
| `CustomerInfo.CapitalizeWordsAt` | src/components/checkout/CustomerInfo.tsx:63-65 | the label keeps the length; only the first character of each space-separated word is upper-cased |
| `CustomerInfo.CapitalizeWordsWords` | src/components/checkout/CustomerInfo.tsx:63-65 | the label has as many words as the method, each the original word with its first character upper-cased |
| `CustomerInfo.CapitalizeOneWord` | src/components/checkout/CustomerInfo.tsx:63-65 | a method name of one space-free word gets only its first character upper-cased |
| `CustomerInfo.StandardLabel` | src/components/checkout/CustomerInfo.tsx:63-65 | `"standard"` becomes `"Standard"` |
| `CustomerInfo.MethodLines` | src/components/checkout/CustomerInfo.tsx:60-67 | one line per order of the shipping slice, in order: its capitalised method followed by " shipping" |
| `CustomerInfo.ShowMethodBlock` | src/components/checkout/CustomerInfo.tsx:54 | the Method block renders exactly at the `payment` stage |
| `CustomerInfo.SplitBanner` | src/components/checkout/CustomerInfo.tsx:75-78 | the banner shows exactly when the stage is `payment` and the shipping slice has orders |
| `CustomerInfo.SplitBannerCount` | src/components/checkout/CustomerInfo.tsx:78 | the banner's number is `orders.length` in decimal without a leading zero, exactly the rendering `DecimalString` gives |
| `CustomerInfo.CustomerInfoPanel.constructor` | src/components/checkout/CustomerInfo.tsx:16 | the email starts read-only and no request is issued |
| `CustomerInfo.CustomerInfoPanel.ChangeContact` | src/components/checkout/CustomerInfo.tsx:45 | Change makes the email editable |
| `CustomerInfo.CustomerInfoPanel.BlurEmail` | src/components/checkout/CustomerInfo.tsx:36 | leaving the input, which exists only while the email is editable, makes the email read-only |
| `CustomerInfo.CustomerInfoPanel.EditEmail` | src/components/checkout/CustomerInfo.tsx:30-39 | an edit is possible only while the email is editable, and sends the new email to the shipping slice |
| `CustomerInfo.CustomerInfoPanel.ChangeAddress` | src/components/checkout/CustomerInfo.tsx:52 | the Shipping row's Change requests `customer` |
| `CustomerInfo.CustomerInfoPanel.ChangeMethod` | src/components/checkout/CustomerInfo.tsx:71 | the Method row's Change requests `shipping` |
| `CheckoutPage.Route` | src/pages/checkout.tsx:36 | `shipping` and `payment` pick their own forms; every other stage, `customer` and `thanks` included, picks the customer form; exactly one form always |
| `CheckoutPage.ThanksShowsCustomerForm` | src/pages/checkout.tsx:36 | the `thanks` stage renders the customer form |
| `CheckoutPage.Render` | src/pages/checkout.tsx:22-41 | the status bar, the router and the summary all get the same stage read from the store |
| `CheckoutPage.MethodBlockWithPaymentForm` | src/components/checkout/CustomerInfo.tsx:54 | the summary's Method block shows exactly when the router picks the payment form |

## Left out

- The card validator library (`cardholderName`, `number`, `cvv`, `expirationDate`): its results are free inputs, so nothing is claimed about Luhn checks or dates.
- The commerce SDK and the thunks that call it: `getCards`, `addCardToVault`, `addCardToCart` and `swell.cart.submitOrder` are recorded as requests (`GetCards`, `AddCardToVault`, `AddCardToCart`, `SubmitOrder`), but what they do is not modelled. `swell.init` is not modelled. The PayPal callbacks are the events `PaypalApproved` and `PaypalFailed`.
- Payment.PaymentForm.PaypalApproved: `onSuccess` awaits `swell.cart.submitOrder()` and asks for `thanks` only after it resolves; if it rejects, no `thanks` is requested. The model has no failure of the backend and always appends both requests.
- Payment.PaymentForm.constructor: the mount-time `swell.payment.createElements` call (with its `hasCalled` once-guard) is not recorded as a request; it only registers the PayPal callbacks, which are modelled as events.
- The store's reducers (`checkoutSlice`, `orderSlice.changeShipping`, `paymentSlice.setAgreementToTerms`, `shippingSlice`, `customer`, `account`): their code is not part of this model. So the model does not say what a request does, whether `changeShipping` touches one order only, or how the two stage payload shapes are handled.
- DOM focus and blur listeners: `focusedElement` is set by the `Focus` and `Blur` events. The input `ref` callbacks that move focus into the email inputs are also left out.
- Displayed card values, saved-card rows, images, layout and colours, other than the red/grey border choice and the terms-error flag.
- `Shipping.SortByIdDesc`: ids are modelled by their numeric value. Non-numeric ids, for which `parseInt`/`parseFloat` give `NaN` and the comparator is inconsistent, are out of scope, as are ids where `parseInt` and `parseFloat` differ (such as `"1.5"`).
- `Shipping.SortByIdDesc`: the library sorts a copy in place. Here it is a function on an immutable sequence, so the stored `orders` cannot be reordered by construction.
- `CustomerInfo.CapitalizeFirst`, through `Strings.ToUpperAscii`, and with it `CustomerInfo.CapitalizeWordsAt`, `CustomerInfo.CapitalizeWordsWords`, `CustomerInfo.CapitalizeOneWord` and `CustomerInfo.MethodLines`: `toUpperCase` is modelled on the ASCII letters a-z only. Characters whose upper case is longer (such as `ß` → `SS`) or non-ASCII, are kept unchanged, so length preservation is claimed for that mapping.
- JavaScript strings are UTF-16 code units, while Dafny strings are sequences of Unicode scalar values. The formatters treat a character outside the basic plane as one non-word, non-digit character where the source sees two. The digit filter and the word boundaries come out the same either way.
- JavaScript truthiness of `undefined`/`null` store values: every store string is modelled as a string, so "falsy" means empty. Likewise the shipping slice's `orders` is always a list: the source guards it with `?.` at CustomerInfo.tsx:60, but `orders.length` at line 75 would throw on `undefined`, and neither case is modelled.
- The Shipping component's "Item" badge always shows 1. It is markup and is not modelled.
