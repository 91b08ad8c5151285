# Kid-safe point-of-sale front end, modelled in Dafny

This project models the client-side logic of a small point-of-sale app. A till operator
builds a cart from menu items and checks out. The payment is one of three kinds: fake cash,
a simulated card form, or a gift card whose balance is debited first. Each completed sale
goes into a local history, newest first. Beside the till there are three screens: one keeps
a local list of custom credit cards with QR tokens, one adds or edits menu items, and one
issues gift cards and looks them up.

The backend service the screens call is not part of this model. Module `Backend` stands for
it as an oracle. `Backend.Actor` logs every call, and each call settles as an arbitrary
function of the calls made before it. A missing actor makes every request fail with
"Actor not initialized", as the request hooks do. Properties about calls are therefore
stated for every possible backend: which calls are made, in which order, and what the
screen does with each answer.

Modules, one per source file:

- `Cart`: the cart of `POSScreen.tsx`. Its operations are functions from the old cart to
  the new one.
- `CardForm`: the formatting and validity of `SimulatedCardForm.tsx`.
- `Checkout`: `CheckoutDialog.tsx`, as the `CheckoutDialog` class. Its method
  `HandleCheckout` is specified by `PlanCheckout` and `CheckoutAttempt`.
- `CompleteTransactionHook`: the `mutationFn` of `useCompleteTransaction.ts`.
- `TransactionsStore`: `transactionsStore.ts`, as functions plus a `TransactionStore` class
  holding the history.
- `CustomCards`: `CustomCreditCardsScreen.tsx`, as the `CustomCardsScreen` class,
  specified by `CreateCard` and `WithoutCard`.
- `MenuItemForm`: `MenuItemForm.tsx`, as the `MenuItemForm` class, specified by
  `SubmissionOf`.
- `GiftCards`: `GiftCardsScreen.tsx`, as the `GiftCardsScreen` class, specified by
  `IssueRequest` and `Lookup`.

Shared helpers live in three modules:

- `Text`: JavaScript's `trim`, `\s`, `\D`, ASCII case mapping and `includes`.
- `Seqs`: `filter` and generic lemmas about it.
- `Wrappers`: `Option`.

Money is `real`. `parseFloat` is a parameter `parse: string -> Option<real>`, where `None`
plays the part of `NaN`. `Number.prototype.toString` is a parameter `render`. Random and
clock values are parameters:

- the receipt suffix and the timestamp;
- the custom card token;
- the random part of a generated gift card code.

## Model

| member | source | states |
|---|---|---|
| Cart.AddToCart | src/frontend/src/features/pos/POSScreen.tsx:21-31 | adding grows the cart by one entry exactly when the name was absent, keeps every existing entry's name in place, and leaves the name in the cart; the exact result is given by AddToCartExisting and AddToCartNew |
| Cart.ClearCart | src/frontend/src/features/pos/POSScreen.tsx:47-49 | the cleared cart is empty |
| Cart.Subtotal | src/frontend/src/features/pos/POSScreen.tsx:51 | the empty cart sums to zero and a one-entry cart to its price times quantity; how the sum moves under each operation is given by the Subtotal lemmas |
| Cart.Total | src/frontend/src/features/pos/POSScreen.tsx:52 | the total is the subtotal, with no tax or discount: zero for the empty cart, price times quantity for a single entry |
| Cart.AddToCartExisting | src/frontend/src/features/pos/POSScreen.tsx:23-27 | adding an item whose name is in the cart raises exactly that entry's quantity by one; no entry is added and the others are unchanged |
| Cart.AddToCartNew | src/frontend/src/features/pos/POSScreen.tsx:29 | adding an item with a new name appends one entry, with quantity 1 and the item's name, price and category, after the unchanged old entries |
| Cart.UpdateQuantity | src/frontend/src/features/pos/POSScreen.tsx:33-41 | after any quantity change every remaining quantity is positive and the cart does not grow; the exact effect is given by the two lemmas below |
| Cart.UpdateQuantityExisting | src/frontend/src/features/pos/POSScreen.tsx:35-39 | on a valid cart, the named entry's quantity is rewritten in place or, once it is not positive, exactly that entry is removed; the others stay in order |
| Cart.UpdateQuantityAbsent | src/frontend/src/features/pos/POSScreen.tsx:33-41 | on a valid cart, updating a name that is not there changes nothing |
| Cart.RemoveFromCart | src/frontend/src/features/pos/POSScreen.tsx:43-45 | after removal no entry carries the name, and the cart did not grow |
| Cart.RemoveFromCartExisting | src/frontend/src/features/pos/POSScreen.tsx:43-45 | with distinct names, removing the name of entry k removes exactly that entry and keeps the others in order |
| Cart.RemoveFromCartAbsent | src/frontend/src/features/pos/POSScreen.tsx:43-45 | removing an absent name leaves the cart as it was |
| Cart.SubtotalConcat | src/frontend/src/features/pos/POSScreen.tsx:51 | the reduce over price times quantity is additive over concatenation |
| Cart.SubtotalNonNegative | src/frontend/src/features/pos/POSScreen.tsx:47-52 | with non-negative prices and positive quantities the total is not negative; the cleared cart totals zero |
| Cart.SubtotalReplace | src/frontend/src/features/pos/POSScreen.tsx:51 | replacing one entry changes the subtotal by the difference of the two line totals |
| Cart.SubtotalDrop | src/frontend/src/features/pos/POSScreen.tsx:51 | dropping one entry lowers the subtotal by its line total |
| Cart.AddToCartSubtotalExisting | src/frontend/src/features/pos/POSScreen.tsx:21-31 | adding an item already in the cart raises the total by that entry's unit price |
| Cart.AddToCartSubtotalNew | src/frontend/src/features/pos/POSScreen.tsx:21-31 | adding a new item raises the total by the item's price |
| Cart.RemoveFromCartSubtotal | src/frontend/src/features/pos/POSScreen.tsx:43-52 | removing an entry lowers the total by that entry's line total |
| Cart.ApplyPreservesValid | src/frontend/src/features/pos/POSScreen.tsx:21-49 | each of add, update, remove and clear keeps names pairwise distinct and quantities positive |
| Cart.ReachableCartsAreValid | src/frontend/src/features/pos/POSScreen.tsx:17-49 | every cart reached from a valid one, the empty cart included, by any sequence of button presses has distinct names and positive quantities |
| Cart.HandleCheckoutSuccess | src/frontend/src/features/pos/POSScreen.tsx:54-58 | after a successful checkout the cart is empty, its total is zero and the dialog is closed |
| CardForm.GroupByFour | src/frontend/src/features/checkout/SimulatedCardForm.tsx:28-29 | chunks of four joined by single spaces: n characters give n + (n-1)/4 characters |
| CardForm.GroupByFourAt | src/frontend/src/features/checkout/SimulatedCardForm.tsx:28-29 | position i of the grouping is a space exactly when i mod 5 is 4, and otherwise holds input character i - i/5 |
| CardForm.FormatCardNumber | src/frontend/src/features/checkout/SimulatedCardForm.tsx:26-30 | the formatted number is at most 19 characters long |
| CardForm.FormatCardNumberIsGroupedPrefix | src/frontend/src/features/checkout/SimulatedCardForm.tsx:26-30 | cutting the grouping at 19 characters is the grouping of the first at most 16 non-whitespace characters |
| CardForm.FormatCardNumberShape | src/frontend/src/features/checkout/SimulatedCardForm.tsx:26-30 | the only whitespace is a single space at every fifth position, and there is no trailing space |
| CardForm.FormatCardNumberRoundTrip | src/frontend/src/features/checkout/SimulatedCardForm.tsx:27-29 | removing the spaces from the formatted number gives the first min(16, n) non-whitespace characters of the input |
| CardForm.FormatCardNumberIdempotent | src/frontend/src/features/checkout/SimulatedCardForm.tsx:26-30 | formatting a formatted number changes nothing, so reformatting on every keystroke is stable |
| CardForm.FormatExpiry | src/frontend/src/features/checkout/SimulatedCardForm.tsx:32-38 | the formatted expiry has at most five characters |
| CardForm.FormatExpiryShape | src/frontend/src/features/checkout/SimulatedCardForm.tsx:32-38 | digits everywhere except a slash at index 2, present exactly when the value passed to the handler holds two or more digits; the digits are the first min(4, n) of that value |
| CardForm.FormatExpiryComplete | src/frontend/src/features/checkout/SimulatedCardForm.tsx:32-38 | the expiry has five characters exactly when the value passed to the handler holds at least four digits |
| CardForm.FormatExpiryIdempotent | src/frontend/src/features/checkout/SimulatedCardForm.tsx:32-38 | formatting a formatted expiry changes nothing |
| CardForm.FilterCvc | src/frontend/src/features/checkout/SimulatedCardForm.tsx:87 | the stored CVC is digits only, at most four of them, and is the first min(4, n) digits of the value passed to the handler |
| CardForm.FilterCvcIdempotent | src/frontend/src/features/checkout/SimulatedCardForm.tsx:87 | filtering a stored CVC changes nothing |
| CardForm.IsValid | src/frontend/src/features/checkout/SimulatedCardForm.tsx:17-24 | a valid form has a non-empty name and a number field of at least 13 characters; the exact condition on the values passed to the field handlers is ValidFromTypedInput |
| CardForm.ValidFromTypedInput | src/frontend/src/features/checkout/SimulatedCardForm.tsx:17-24 | in terms of the values passed to the field handlers, the form is valid exactly when the name has a non-whitespace character, the number has at least 13 non-whitespace characters, the expiry has at least four digits and the CVC at least three |
| Checkout.PlanCheckout | src/frontend/src/features/checkout/CheckoutDialog.tsx:59-86 | the checkout is refused exactly when the cart is empty, a gift card is chosen with a blank code, or a card is chosen with an invalid form; an empty cart gives "Cart is empty", a blank gift-card code "Please enter a gift card code" and an invalid card form "Please fill in all card details"; otherwise the label is "Gift Card (<trimmed code>)" with a debit of the trimmed code, "Online Credit Card (Simulated)" or "Fake Cash" |
| Checkout.CheckoutErrorMessage | src/frontend/src/features/checkout/CheckoutDialog.tsx:96-104 | an insufficient-balance error maps to its message, else a not-found error to its message, else the generic payment failure; each in both directions |
| Checkout.ChargeAttempt | src/frontend/src/features/checkout/CheckoutDialog.tsx:70-95 | the calls are exactly the debit of the total from the chosen gift card (none without one), then the sale under the label only when there was no debit or it went through; the error is the mapped rejection message of the last call, none when it resolved |
| Checkout.CheckoutAttempt | src/frontend/src/features/checkout/CheckoutDialog.tsx:59-104 | a refusal makes no backend call and shows its message; a success always ends with the sale sent to the backend, after debits only |
| Checkout.ChargedCheckoutCalls | src/frontend/src/features/checkout/CheckoutDialog.tsx:70-104 | a checkout that goes ahead makes exactly the debit (if a gift card was chosen) and then the sale only when the debit went through, and ends with the mapped error of the last call's rejection, or none |
| Checkout.Failure | src/frontend/src/features/checkout/CheckoutDialog.tsx:96-104 | a settled call leaves no error exactly when it resolved, and the mapped message of its rejection otherwise |
| Checkout.RejectedDebitRecordsNothing | src/frontend/src/features/checkout/CheckoutDialog.tsx:88-104 | a rejected debit ends the checkout: the sale is never sent, and the error shown is mapped from the debit's message |
| Checkout.GiftCardSaleFollowsDebit | src/frontend/src/features/checkout/CheckoutDialog.tsx:76-95 | a gift-card sale that succeeds made exactly two calls: the accepted debit of the total, then the sale under the gift-card label |
| Checkout.Pay | src/frontend/src/features/checkout/CheckoutDialog.tsx:88-104 | the backend calls and the error are those of ChargeAttempt; a failure leaves the history alone, a success adds the sale to its front |
| Checkout.CheckoutDialog.constructor | src/frontend/src/features/checkout/CheckoutDialog.tsx:38-41 | the form starts as cash, with an empty code, an invalid card form and no error |
| Checkout.CheckoutDialog.SetCardValid | src/frontend/src/features/checkout/CheckoutDialog.tsx:165 | the dialog's card flag becomes the card form's validity of its four fields, and nothing else changes |
| Checkout.CheckoutDialog.ResetForm | src/frontend/src/features/checkout/CheckoutDialog.tsx:45-50 | the form is back to cash, empty code, invalid card form and no error |
| Checkout.CheckoutDialog.HandleClose | src/frontend/src/features/checkout/CheckoutDialog.tsx:52-57 | closing resets the form and opening leaves it alone; the flag is passed on unchanged |
| Checkout.CheckoutDialog.ChoosePlan | src/frontend/src/features/checkout/CheckoutDialog.tsx:62-86 | the checks on the form's state yield exactly the decision PlanCheckout states, and change nothing |
| Checkout.CheckoutDialog.HandleCheckout | src/frontend/src/features/checkout/CheckoutDialog.tsx:59-105 | the calls made are those of CheckoutAttempt on the form's state; on failure the error is shown, the form is kept and no sale is stored; on success the form is reset, the sale is stored first in the history, and the receipt id "TXN-"+suffix is returned |
| CompleteTransactionHook.ToBackendItems | src/frontend/src/hooks/useCompleteTransaction.ts:23-27 | one backend record per cart entry, in order, copying name, price and category |
| CompleteTransactionHook.ProjectionLosesOnlyQuantities | src/frontend/src/hooks/useCompleteTransaction.ts:23-27 | putting the quantities back onto the projection restores the cart exactly, so only quantities are dropped |
| CompleteTransactionHook.CompleteTransaction | src/frontend/src/hooks/useCompleteTransaction.ts:12-41 | the sale is sent first; if it is rejected the history is untouched and the error is passed on; if it resolves, the transaction with the full cart, total and method goes to the front of the history, and the receipt id returned is its id, "TXN-" followed by the suffix |
| TransactionsStore.InitialHistory | src/frontend/src/state/transactionsStore.ts:22 | the history starts empty |
| TransactionsStore.AddTransaction | src/frontend/src/state/transactionsStore.ts:23-26 | the new entry is at index 0, the length grows by one, and the old entries follow unchanged and in order |
| TransactionsStore.AddTransactionKeepsAll | src/frontend/src/state/transactionsStore.ts:25 | adding never drops or alters an entry and does not deduplicate: the multiset grows by exactly the new entry |
| TransactionsStore.ClearTransactions | src/frontend/src/state/transactionsStore.ts:27 | clearing empties the history |
| TransactionsStore.RecordAllNewestFirst | src/frontend/src/state/transactionsStore.ts:23-26 | recording sales one after another lists them newest first, in front of the earlier history |
| TransactionsStore.TransactionStore.Add | src/frontend/src/state/transactionsStore.ts:23-26 | the store's history becomes AddTransaction of the old one |
| TransactionsStore.TransactionStore.Clear | src/frontend/src/state/transactionsStore.ts:27 | the store's history becomes empty |
| CustomCards.IndexOfName | src/frontend/src/features/custom-cards/CustomCreditCardsScreen.tsx:49-51 | the find stops at the first card whose lower-cased name equals the lower-cased name sought, and finds none exactly when there is no such card |
| CustomCards.RegisteredAppend | src/frontend/src/features/custom-cards/CustomCreditCardsScreen.tsx:58-62 | appending a trimmed, non-empty card whose name is free keeps names trimmed and pairwise distinct ignoring case |
| CustomCards.CreateErrorMessage | src/frontend/src/features/custom-cards/CustomCreditCardsScreen.tsx:63-69 | an "already exists" error maps to the duplicate-name message, any other to the generic one, both ways |
| CustomCards.CreateCard | src/frontend/src/features/custom-cards/CustomCreditCardsScreen.tsx:41-70 | a blank name or a name taken ignoring case gives its error and makes no call; otherwise, and only then, the trimmed name is sent with the token; the list changes exactly when the call resolves, by one card appended at the end; success clears the input and error, failure keeps the input and shows an error, which for a rejection is CreateErrorMessage of its message |
| CustomCards.CreateCardKeepsRegistered | src/frontend/src/features/custom-cards/CustomCreditCardsScreen.tsx:41-70 | whatever the backend answers, names stay trimmed, non-empty and pairwise distinct ignoring case |
| CustomCards.WithoutCard | src/frontend/src/features/custom-cards/CustomCreditCardsScreen.tsx:72-75 | after deletion no card carries the identifier |
| CustomCards.WithoutCardMembership | src/frontend/src/features/custom-cards/CustomCreditCardsScreen.tsx:72-75 | a card survives deletion exactly when it was there and its identifier differs, compared case-sensitively |
| CustomCards.WithoutCardKeepsOrder | src/frontend/src/features/custom-cards/CustomCreditCardsScreen.tsx:72-75 | deletion works part by part, so the survivors keep their order |
| CustomCards.WithoutCardRemovesOne | src/frontend/src/features/custom-cards/CustomCreditCardsScreen.tsx:72-75 | in a registry, deleting the name of card k removes that card and nothing else |
| CustomCards.WithoutCardAbsent | src/frontend/src/features/custom-cards/CustomCreditCardsScreen.tsx:72-75 | deleting an identifier no card has changes nothing |
| CustomCards.WithoutCardKeepsRegistered | src/frontend/src/features/custom-cards/CustomCreditCardsScreen.tsx:72-75 | deletion keeps the registry invariant |
| CustomCards.CustomCardsScreen.constructor | src/frontend/src/features/custom-cards/CustomCreditCardsScreen.tsx:27-30 | the screen starts with no cards, an empty input, no pending deletion and no error |
| CustomCards.CustomCardsScreen.HandleCreateCard | src/frontend/src/features/custom-cards/CustomCreditCardsScreen.tsx:41-70 | calls, cards, input and error are those CreateCard gives; the pending deletion is untouched; the registry invariant is kept |
| CustomCards.CustomCardsScreen.Submit | src/frontend/src/features/custom-cards/CustomCreditCardsScreen.tsx:57-69 | the card is sent; on success it is appended and the input cleared, on failure the list and input are kept and the mapped error is shown |
| CustomCards.CustomCardsScreen.AskDelete | src/frontend/src/features/custom-cards/CustomCreditCardsScreen.tsx:140 | the trash button records the card as pending deletion and changes nothing else |
| CustomCards.CustomCardsScreen.CancelDelete | src/frontend/src/features/custom-cards/CustomCreditCardsScreen.tsx:158 | dismissing the confirmation drops the pending deletion and changes nothing else |
| CustomCards.CustomCardsScreen.HandleDeleteCard | src/frontend/src/features/custom-cards/CustomCreditCardsScreen.tsx:72-75 | the list becomes WithoutCard of the old one, nothing is pending, and the invariant is kept |
| CustomCards.CustomCardsScreen.ConfirmDelete | src/frontend/src/features/custom-cards/CustomCreditCardsScreen.tsx:169 | the pending card is deleted unless the pending identifier is empty, which the guard lets through as nothing to do |
| MenuItemForm.NameError | src/frontend/src/features/menu/MenuItemForm.tsx:51-53 | a name error is recorded exactly when the trimmed name is empty, and it reads "Name is required" |
| MenuItemForm.PriceError | src/frontend/src/features/menu/MenuItemForm.tsx:55-60 | "Valid price is required" exactly when the price is empty or unparseable, "Price cannot be negative" exactly when it parses below zero, no error exactly when it parses to zero or more, so a price of zero is accepted |
| MenuItemForm.SubmissionOf | src/frontend/src/features/menu/MenuItemForm.tsx:66-71 | a submission happens exactly when no error is recorded, and carries the trimmed name, the parsed price and the trimmed category |
| MenuItemForm.SubmissionWellFormed | src/frontend/src/features/menu/MenuItemForm.tsx:48-71 | a submitted name is non-empty and trimmed, the price is not negative, the category is trimmed |
| MenuItemForm.PrefillRoundTrip | src/frontend/src/features/menu/MenuItemForm.tsx:35-71 | opening an item for edit and submitting it unchanged gives the item back, when its text is trimmed and parsing its rendered price restores it |
| MenuItemForm.MenuItemForm.constructor | src/frontend/src/features/menu/MenuItemForm.tsx:30-33 | the fields start empty and without errors |
| MenuItemForm.MenuItemForm.Prefill | src/frontend/src/features/menu/MenuItemForm.tsx:35-46 | existing data fills the fields, an absent category becoming empty; no data clears them; errors are reset either way |
| MenuItemForm.MenuItemForm.Validate | src/frontend/src/features/menu/MenuItemForm.tsx:48-64 | the stored errors are the name and price checks, the answer is true exactly when there are none, and the fields are untouched |
| MenuItemForm.MenuItemForm.HandleSubmit | src/frontend/src/features/menu/MenuItemForm.tsx:66-71 | what is submitted is SubmissionOf the fields, after the errors are stored |
| GiftCards.IssueRequest | src/frontend/src/features/giftcards/GiftCardsScreen.tsx:26-32 | a card is issued only when the code is non-empty and the balance parses to a positive amount, and then with exactly that code and balance |
| GiftCards.IssueErrorMessage | src/frontend/src/features/giftcards/GiftCardsScreen.tsx:105-113 | an "already exists" error maps to the duplicate-code message, any other to the generic one, both ways |
| GiftCards.LookupErrorMessage | src/frontend/src/features/giftcards/GiftCardsScreen.tsx:55-61 | a "Gift card not found" error maps to the not-found message, any other to the generic one, both ways |
| GiftCards.Lookup | src/frontend/src/features/giftcards/GiftCardsScreen.tsx:42-62 | a blank code gives an error and makes no call; otherwise only the trimmed code is queried; a result is shown exactly when the query resolves, and then it is the backend's card with no error; without a result an error is shown, which for a rejected query is LookupErrorMessage of its message |
| GiftCards.UpperIsUpper | src/frontend/src/features/giftcards/GiftCardsScreen.tsx:83 | what the code inputs store is upper-case |
| GiftCards.QueriedCodeIsUpper | src/frontend/src/features/giftcards/GiftCardsScreen.tsx:53-54 | trimming an upper-case lookup code keeps it upper-case, so the code queried is upper-case |
| GiftCards.GiftCardsScreen.constructor | src/frontend/src/features/giftcards/GiftCardsScreen.tsx:12-16 | the screen starts with empty inputs, no result, no error and an idle issue |
| GiftCards.GiftCardsScreen.SetIssueCode | src/frontend/src/features/giftcards/GiftCardsScreen.tsx:83 | the issue code stored is the typed text upper-cased; nothing else changes |
| GiftCards.GiftCardsScreen.SetLookupCode | src/frontend/src/features/giftcards/GiftCardsScreen.tsx:153 | the lookup code stored is the typed text upper-cased; nothing else changes |
| GiftCards.GiftCardsScreen.GenerateCode | src/frontend/src/features/giftcards/GiftCardsScreen.tsx:21-24 | the issue code becomes "GC" followed by the upper-cased random part, and stays upper-case |
| GiftCards.GiftCardsScreen.HandleIssue | src/frontend/src/features/giftcards/GiftCardsScreen.tsx:26-40 | without a valid request nothing is sent and nothing changes; otherwise the issue call is sent, a success clears both inputs, a failure keeps them and records the error |
| GiftCards.GiftCardsScreen.HandleLookup | src/frontend/src/features/giftcards/GiftCardsScreen.tsx:42-62 | the calls, the result and the error are those of Lookup on the stored code; when the inputs were upper-case, as every input method keeps them, every code queried is upper-case; the issue side is untouched |
| Backend.Actor.Send | src/frontend/src/backend.d.ts:23-35 | a call is appended to the actor's log and settles as the backend answers for the calls before it |
| Backend.Settle | src/frontend/src/hooks/useGiftCards.ts:21-22 | without an actor a call fails with "Actor not initialized"; with one it settles as the backend answers |
| Backend.Request | src/frontend/src/hooks/useGiftCards.ts:31-35 | without an actor the request fails with "Actor not initialized" and sends nothing; otherwise the call is logged and settles as the backend says |
| Backend.FetchedCard | src/frontend/src/hooks/useGiftCards.ts:20-24 | a card comes back exactly when the lookup call resolves |
| Backend.RequestCard | src/frontend/src/hooks/useGiftCards.ts:20-24 | the lookup is logged and settles as the backend says, and yields the card on success |
| Text.StripWhitespace | src/frontend/src/features/checkout/SimulatedCardForm.tsx:20 | the result holds no whitespace and is no longer than the input |
| Text.KeepDigits | src/frontend/src/features/checkout/SimulatedCardForm.tsx:33 | the result is digits only and no longer than the input |
| Text.IsBlank | src/frontend/src/features/menu/MenuItemForm.tsx:51 | the empty text is blank, and a text with no surrounding whitespace is blank only when empty; BlankIffAllWhitespace gives the exact condition |
| Text.ToUpper | src/frontend/src/features/giftcards/GiftCardsScreen.tsx:83 | every character is mapped on its own, ASCII lower-case letters to upper-case, and the length is kept |
| Text.ToLower | src/frontend/src/features/custom-cards/CustomCreditCardsScreen.tsx:50 | every character is mapped on its own, ASCII upper-case letters to lower-case, and the length is kept |
| Text.Contains | src/frontend/src/features/giftcards/GiftCardsScreen.tsx:56 | every text includes the empty string, and a text includes only strings no longer than itself; ContainsIff gives the exact condition |
| Text.Trim | src/frontend/src/features/custom-cards/CustomCreditCardsScreen.tsx:44 | the trimmed text is no longer than the input, and is empty or begins and ends with a non-whitespace character |
| Text.TrimSlice | src/frontend/src/features/custom-cards/CustomCreditCardsScreen.tsx:44 | the trimmed text is a contiguous slice of the input with only whitespace cut at both ends |
| Text.BlankIffAllWhitespace | src/frontend/src/features/checkout/SimulatedCardForm.tsx:19 | a text trims to empty exactly when every character is whitespace |
| Text.TrimIdempotent | src/frontend/src/features/menu/MenuItemForm.tsx:69 | trimming trimmed text changes nothing |
| Text.ContainsIff | src/frontend/src/features/giftcards/GiftCardsScreen.tsx:56 | `includes` holds exactly when the text occurs at some position |

## Left out

- CardForm.FormatCardNumber, CardForm.FormatExpiry, CardForm.FilterCvc, MenuItemForm.MenuItemForm.HandleSubmit, GiftCards.GiftCardsScreen.HandleIssue: the browser's own input constraints are not modelled. The card inputs carry `maxLength` 19, 5 and 4 (SimulatedCardForm.tsx:66, 78, 89), so pasted text is cut before the handler sees it; the formatting functions and the CardForm lemmas are stated on the value the handler receives, not on what was pasted. The price and balance inputs are `type="number"` with `step="0.01"` and `min` 0 and 0.01 (MenuItemForm.tsx:103-105, GiftCardsScreen.tsx:96-98), so the browser blocks submission of, say, "1.234" or "-5" before `handleSubmit` or `handleIssue` runs; the model runs the handlers on any text, so it also covers submissions the browser would block.

- The backend service is not part of this model. Its ledger rules are not modelled: balances,
  unique gift card codes, what a debit subtracts. Every call is answered by an arbitrary
  function of the calls before it.
- The react-query wrappers in `useMenu.ts`, `useGiftCards.ts` and `useCustomCreditCards.ts`
  are not modelled beyond the actor check and the forwarded call (`Backend.Request`). Their
  cache invalidation and pending flags are left out.
- The menu list on the POS screen, its loading and error states, and the menu management
  screen's dialog glue are display and dispatch code. They are left out.
- QR card payment (`QRCardPaymentPanel.tsx`) depends on a camera hook, and the QR image
  (`QRCodeBadge.tsx`) on a network URL. Both are left out; a stored card's token is kept as
  text.
- `generateToken`, `generateCode`'s random digits, and the receipt id's `Date.now()` and
  random part are parameters. The receipt id's clock reading and the stored timestamp are two
  independent parameters, where the source reads the clock twice.
- Floating-point arithmetic is not modelled. Money is an exact `real`, so rounding of
  price times quantity and `toFixed(2)` are not captured. `parseFloat` and `toString` are
  parameters; their own behaviour, such as a parse that stops at the first bad character, is
  not captured.
- Persistence of the history to localStorage is left out, and so are rendering, receipt and
  history screens, and tab routing.
- Text.ToUpper: only ASCII letters are mapped, not the full Unicode case mapping of
  `toUpperCase`/`toLowerCase`. String lengths count characters, not UTF-16 code units.
- Cart.HandleCheckoutSuccess: passing the receipt id on to `onCheckoutComplete` is not
  modelled. Likewise, `Checkout.CheckoutDialog.HandleCheckout` returns the receipt id in
  place of calling `onSuccess`; the dialog is closed by the POS screen's
  `handleCheckoutSuccess`, which Cart.HandleCheckoutSuccess models.
- GiftCards.GiftCardsScreen.HandleIssue: the mutation's status is kept as one field (idle,
  issued, or failed with the message) instead of react-query's status flags. The error alert
  shows IssueErrorMessage of that message.
- Checkout.Pay: when a gift card debit succeeds and recording the sale then fails, the card
  stays debited and no sale is stored. The model states this as the source does it; nothing
  rolls the debit back.
- Every asynchronous handler is modelled as one uninterrupted step:
  Checkout.CheckoutDialog.HandleCheckout, CustomCards.CustomCardsScreen.HandleCreateCard,
  GiftCards.GiftCardsScreen.HandleIssue and GiftCards.GiftCardsScreen.HandleLookup. In the
  app, other events run while a handler awaits the backend. Two examples: the Enter key starts
  a second card creation while the button is disabled, and a creation writes back the card
  list it read before the await, undoing a card created or deleted in between. The model does
  not capture such interleavings.
- Cart.UpdateQuantityExisting: the exact in-place result is stated for valid carts, which
  are the only carts the screen reaches (Cart.ReachableCartsAreValid). On other carts only
  the positivity of every survivor is stated.
