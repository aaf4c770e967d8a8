# DeliveryAppWeb core, modelled in Dafny

This project models the logic of a small food-delivery web app: a React front end and an
Express/PostgreSQL back end. The model covers these parts:

- the front end's payment-card checks (the Luhn mod-10 check of ISO/IEC 7812-1, Annex B, on
  exactly 16 digits, and the month/year expiry check);
- the input masks for card number, expiry and CVV;
- the shopping cart held in the cart context, with its totals and delivery fee;
- the four-step checkout page (cart, address, payment, confirmation), with its validators and
  quantity buttons;
- the order summary's address line and payment label;
- the menu's category chips and product filter;
- the generic form hook;
- on the server: the transaction that creates an order, the authentication middleware, and the
  register and login endpoints.

Money is in integer cents. The minimum order value for free delivery is 2000 and the delivery
fee is 500, as in `frontend/src/config/constants.ts:4-5`.

JavaScript string behaviour is stated over `seq<char>` in module `Text` (`text.dfy`):

- the `\D` filter and `\d` (ASCII digits only);
- `trim`, using the ECMAScript whitespace set;
- `split` on a character;
- `replace` with a string pattern, which replaces only the first occurrence;
- `join`;
- `parseInt(s, 10)`, with `None` standing for `NaN`.

Files, one module each:

- `validators.dfy` (`Validators`)
- `masks.dfy` (`Masks`)
- `cart.dfy` (`Cart`)
- `checkout.dfy` (`Checkout`)
- `order_summary.dfy` (`OrderSummary`)
- `menu.dfy` (`Menu`)
- `form.dfy` (`Form`)
- `order_transaction.dfy` (`OrderTransaction`)
- `auth.dfy` (`Auth`)
- `users.dfy` (`Users`)

How each kind of code is modelled:

- Code that changes state step by step becomes classes and methods:
  - the cart store;
  - the checkout page;
  - the form hook;
  - the database connection that runs the order transaction;
  - the request passing through the middleware;
  - the users table.
- Each such method is tied by its `ensures` clauses to a pure function. Lemmas prove the
  promised properties about that function.
- The card check keeps the source's right-to-left loop, and is proved equal to the Luhn sum.

Outside calls become parameters:

- The clock (`new Date()`) becomes a full year and a zero-based month index.
- `jwt.verify` becomes a partial function from token to payload.
- `bcrypt.hash`, `bcrypt.compare` and `jwt.sign` become functions.
- The database becomes an abstract store: committed tables, a working copy inside a transaction,
  and an id sequence.
- Failures of outside calls are inputs:
  - for the order transaction, the set of statement positions that fail;
  - for register and login, the step at which an outside call throws.

## Model

| member | source | states |
|---|---|---|
| Validators.ValidateCreditCardNumber | frontend/src/utils/validators.ts:1-26 | The right-to-left scan, toggling the doubling at each digit, accepts exactly the inputs whose digits number 16 and whose Luhn sum is a multiple of 10. Any other digit count is rejected. |
| Validators.LuhnTerm | frontend/src/utils/validators.ts:12-19 | A digit's contribution, doubled and reduced by 9 above 9, lies in 0..9. |
| Validators.LuhnSumIsScan | frontend/src/utils/validators.ts:8-23 | The position-weighted sum equals the scan from the rightmost digit that doubles every second digit. |
| Validators.LuhnSumBounds | frontend/src/utils/validators.ts:12-21 | The sum is between 0 and 9 per digit, so at most 144 for 16 digits. |
| Validators.SeparatorIgnored | frontend/src/utils/validators.ts:3 | Inserting any non-digit character anywhere does not change the verdict. |
| Validators.OnlyDigitsMatter | frontend/src/utils/validators.ts:3 | The verdict on an input equals the verdict on its digit subsequence. |
| Validators.LuhnSumDiffAt | frontend/src/utils/validators.ts:11-23 | Two digit strings that differ in one position have sums that differ by exactly the difference of that position's two terms. |
| Validators.LuhnTermInjective | frontend/src/utils/validators.ts:14-19 | Different digits always contribute differently, doubled or not. |
| Validators.SingleDigitErrorDetected | frontend/src/utils/validators.ts:5-25 | Changing exactly one digit of a valid 16-digit number always makes it invalid. |
| Validators.ReferenceNumberValid | frontend/src/utils/validators.ts:8-25 | "4539148803436467" has sum 80 and is accepted. |
| Validators.ReferenceNumberInvalid | frontend/src/utils/validators.ts:8-25 | "4539148803436468" has sum 81 and is rejected. |
| Validators.ExpiryOfDigits | frontend/src/utils/validators.ts:28-42 | For "MM/YY" in digits: valid iff 1 <= month <= 12, the year is not 0, the year is at least the current two-digit year, and the month is not before the current month in the current year. |
| Validators.ValidateExpiryDate | frontend/src/utils/validators.ts:28-42 | Splits at '/', parses the first two fields with `parseInt`, rejects a missing or zero part, and compares against the given clock reading. Its meaning for typed "MM/YY" input is stated by `Validators.ExpiryOfDigits`; `ExpiryWithoutSlashRejected` and `ZeroPartsRejected` state the rejections. |
| Validators.ExpiryWithoutSlashRejected | frontend/src/utils/validators.ts:29-30 | Text without '/' has no year part and is rejected whatever the date. |
| Validators.ZeroPartsRejected | frontend/src/utils/validators.ts:29-30 | A month or year that parses to 0 (such as "00/30" or "12/00") is rejected whatever the date. |
| Masks.MaskCreditCardGroups | frontend/src/utils/masks.ts:1-7 | The masked number is the first min(n, 16) digits typed, in groups of four joined by single spaces. |
| Masks.MaskCreditCardContents | frontend/src/utils/masks.ts:1-7 | The masked number has at most 19 characters, all digits or spaces. Removing the spaces gives the first min(n, 16) digits typed. |
| Masks.TrimmedSpacing | frontend/src/utils/masks.ts:4-6 | Putting a space after every group of four digits and then trimming gives the space-joined grouping. |
| Masks.GroupedShape | frontend/src/utils/masks.ts:4-6 | A grouping holds only digits and spaces, starts and ends with a digit, and keeps the digits in order. |
| Masks.GroupedLength | frontend/src/utils/masks.ts:4-6 | n digits group into n + (n - 1) / 4 characters. |
| Masks.MaskSixteenDigits | frontend/src/utils/masks.ts:4-5 | Sixteen digits show as four groups of four with single spaces and no trailing space. |
| Masks.MaskCreditCardIdempotent | frontend/src/utils/masks.ts:1-7 | Masking a masked card number changes nothing. |
| Masks.MaskExpiryDateContents | frontend/src/utils/masks.ts:9-15 | Fewer than two digits are returned as they are. Otherwise the result is two digits, '/', and up to two more digits: at most 5 characters, whose digits are the first min(n, 4) typed. After the slash come exactly the third and fourth digits typed, as many as there are. |
| Masks.MaskExpiryDateIdempotent | frontend/src/utils/masks.ts:9-15 | Masking a masked expiry changes nothing. |
| Masks.MaskCvv | frontend/src/utils/masks.ts:17-19 | The CVV is a prefix of the digits typed, of length min(3, n), with digits only. |
| Masks.MaskCvvIdempotent | frontend/src/utils/masks.ts:17-19 | Masking a masked CVV changes nothing. |
| Masks.MaskCreditCard | frontend/src/utils/masks.ts:1-7 | Keeps the digits, puts a space after each group of four, trims and cuts at 19 characters. `MaskCreditCardGroups` proves this is the first 16 digits in groups of four joined by single spaces, and `MaskCreditCardIdempotent` proves that masking twice changes nothing. |
| Masks.MaskExpiryDate | frontend/src/utils/masks.ts:9-15 | Shows fewer than two digits as typed, otherwise the first two digits, a slash and up to two more. `MaskExpiryDateContents` and `MaskExpiryDateIdempotent` state this and idempotence. |
| Cart.AddPresent | frontend/src/contexts/CartContext.tsx:30-39 | Adding a product already in the cart raises only that line's quantity by one. The length and every other line stay the same. |
| Cart.AddAbsent | frontend/src/contexts/CartContext.tsx:41 | Adding a product not in the cart appends it with quantity 1 at the end. |
| Cart.DecrementEffect | frontend/src/contexts/CartContext.tsx:49-57 | Decrementing lowers that line by one only when its quantity is above 1. It never removes a line and touches no other line. |
| Cart.DecrementAbsent | frontend/src/contexts/CartContext.tsx:49-57 | Decrementing an absent product changes nothing. |
| Cart.Remove | frontend/src/contexts/CartContext.tsx:59-63 | The kept lines are lines of the cart, none of them with the removed id. |
| Cart.RemovePresent | frontend/src/contexts/CartContext.tsx:59-63 | Removing a present product deletes exactly its line, whatever the quantity, and keeps the others in order. |
| Cart.RemoveAbsent | frontend/src/contexts/CartContext.tsx:59-63 | Removing an absent product changes nothing. |
| Cart.RemoveAppend | frontend/src/contexts/CartContext.tsx:59-63 | The removal filter distributes over concatenation. |
| Cart.AddKeepsWellFormed | frontend/src/contexts/CartContext.tsx:28-47 | Adding keeps product ids distinct and every quantity at least 1. |
| Cart.DecrementKeepsWellFormed | frontend/src/contexts/CartContext.tsx:49-57 | Decrementing keeps the cart well-formed. |
| Cart.AddItem | frontend/src/contexts/CartContext.tsx:30-42 | After adding, the cart holds the product. A product already present keeps the line count; a new one adds exactly one line. |
| Cart.Decrement | frontend/src/contexts/CartContext.tsx:49-57 | The line count is unchanged. `DecrementEffect` and `DecrementAbsent` state which line changes and by how much. |
| Cart.Total | frontend/src/contexts/CartContext.tsx:69-72 | The sum of price times quantity over the lines. `TotalAppend` and `TotalUpdate` state how it changes when a line is added or replaced. |
| Cart.FinalTotal | frontend/src/contexts/CartContext.tsx:74-75 | The total plus the delivery fee. `FinalTotalBounds` states it lies between the total and the total plus R$ 5,00, and equals the total iff the total reaches R$ 20,00. |
| Cart.RemoveKeepsWellFormed | frontend/src/contexts/CartContext.tsx:59-63 | Removing keeps the cart well-formed. |
| Cart.ClearKeepsWellFormed | frontend/src/contexts/CartContext.tsx:65-67 | The empty cart is well-formed. |
| Cart.TotalAppend | frontend/src/contexts/CartContext.tsx:69-72 | The sum of price times quantity is additive over concatenation. |
| Cart.TotalUpdate | frontend/src/contexts/CartContext.tsx:69-72 | Replacing one line changes the total by the difference of the two line totals. |
| Cart.AddPresentRaisesTotal | frontend/src/contexts/CartContext.tsx:28-72 | Adding a product already in the cart raises the total by its price. |
| Cart.AddAbsentRaisesTotal | frontend/src/contexts/CartContext.tsx:28-72 | Adding a new product raises the total by its price. |
| Cart.DecrementLowersTotal | frontend/src/contexts/CartContext.tsx:49-72 | Decrementing lowers the total by the product's price exactly when the quantity was above 1. |
| Cart.RemoveLowersTotal | frontend/src/contexts/CartContext.tsx:59-72 | Removing a line takes its whole line total off. |
| Cart.DeliveryFee | frontend/src/contexts/CartContext.tsx:74 | The fee is 0 iff the total is at least 2000 (0 exactly at the threshold), and 500 otherwise. |
| Cart.FinalTotalBounds | frontend/src/contexts/CartContext.tsx:74-75 | The final total is between the subtotal and the subtotal plus 500. It equals the subtotal iff the subtotal reaches the threshold. |
| Cart.ItemCountAtLeastLines | frontend/src/components/Layout/index.tsx:120 | The badge count of a well-formed cart is at least its number of lines. |
| Cart.ItemCountUpdate | frontend/src/components/Layout/index.tsx:120 | Replacing one line changes the badge count by the difference of the two quantities. |
| Cart.AddRaisesItemCount | frontend/src/components/Layout/index.tsx:120 | Adding any product raises the badge count by exactly one. |
| Cart.ItemCount | frontend/src/components/Layout/index.tsx:120 | When every line has quantity at least 1, the badge shows at least as many units as there are lines. |
| Cart.CartStore.Subtotal | frontend/src/contexts/CartContext.tsx:69-72 | The store's subtotal is the cart's total, the sum of price times quantity; an empty cart has 0. |
| Cart.CartStore.Fee | frontend/src/contexts/CartContext.tsx:74 | The store's fee is the delivery fee of its total: 0 iff the total reaches R$ 20,00, and R$ 5,00 otherwise. |
| Cart.CartStore.Charged | frontend/src/contexts/CartContext.tsx:75 | The amount charged is the subtotal plus the store's fee, so it lies between the subtotal and the subtotal plus R$ 5,00, with no fee iff the subtotal reaches the threshold. |
| Cart.CartStore.AddToCart | frontend/src/contexts/CartContext.tsx:28-47 | Replaces the items by the add updater's result, mirrors them to storage, and keeps the cart well-formed. |
| Cart.CartStore.DecrementQuantity | frontend/src/contexts/CartContext.tsx:49-57 | Replaces the items by the decrement updater's result, mirrors them, and keeps the cart well-formed. |
| Cart.CartStore.RemoveFromCart | frontend/src/contexts/CartContext.tsx:59-63 | Replaces the items by the filtered list, mirrors them, and keeps the cart well-formed. |
| Cart.CartStore.ClearCart | frontend/src/contexts/CartContext.tsx:65-67 | Leaves the cart, and what storage holds, empty. |
| Checkout.PaymentError | frontend/src/pages/Cart/index.tsx:212-231 | Any method but 'credit' passes. For 'credit', a blank field gives 'Preencha todos os dados do cartão'. Otherwise the result is no error iff the card check accepts the number, and 'Número de cartão inválido' if not. |
| Checkout.PaymentValid | frontend/src/pages/Cart/index.tsx:212-231 | `validatePayment`'s boolean result: true exactly when no payment error is reported. Its meaning is stated by `Checkout.PaymentValidMeaning`. |
| Checkout.PaymentValidMeaning | frontend/src/pages/Cart/index.tsx:212-231 | Payment passes iff the method is not 'credit', or all four card fields are filled and the number passes the card check. |
| Checkout.AddressComplete | frontend/src/pages/Cart/index.tsx:198-210 | The address check passes only when street, number, neighborhood and city are all non-empty; complement and reference are not checked. |
| Checkout.CheckoutPage.SetPaymentMethod | frontend/src/pages/Cart/index.tsx:162 | Choosing a method sets only the method; the step, the inputs and both errors are unchanged. |
| Checkout.PaymentIgnoresExpiryDate | frontend/src/pages/Cart/index.tsx:214-228 | The expiry only has to be non-blank; its date is never checked. |
| Checkout.AddressIgnoresOptionalFields | frontend/src/pages/Cart/index.tsx:198-202 | Complement and reference play no part in the address check. |
| Checkout.BlankStreetRejected | frontend/src/pages/Cart/index.tsx:198-207 | A required field holding only whitespace fails the address check. |
| Checkout.NextStep | frontend/src/pages/Cart/index.tsx:188-196 | The step stays put iff it is the address step with a failing address or the payment step with a failing payment. Otherwise it advances by exactly one. |
| Checkout.ForwardStaysInRange | frontend/src/pages/Cart/index.tsx:173-196 | Below the last step, a forward move stays within 0..3. It reaches the payment step from the address step, or the confirmation step, only with the matching check passed. |
| Checkout.DisplayedGrandTotal | frontend/src/pages/Cart/index.tsx:401-403 | The printed and submitted total is always the subtotal plus 500, whatever the cart's fee. |
| Checkout.DisplayedTotalIgnoresFreeDelivery | frontend/src/pages/Cart/index.tsx:401-403 | At or above the free-delivery threshold, the printed total is 500 more than the cart's own final total. |
| Checkout.DisplayedTotalAtThreshold | frontend/src/pages/Cart/index.tsx:401-403 | A single line worth exactly 2000 is charged 2000 by the cart but shown as 2500. |
| Checkout.IntendedGrandTotal | frontend/src/contexts/CartContext.tsx:74-75 | The corrected total lies between the subtotal and the subtotal plus 500, with no fee iff the subtotal reaches the threshold. |
| Checkout.IntendedGrandTotalAgrees | frontend/src/pages/Cart/index.tsx:401-403 | The corrected total is the cart's final total. It agrees with the printed one exactly below the threshold. |
| Checkout.MinusGuardRedundant | frontend/src/pages/Cart/index.tsx:328-331 | The minus button's quantity > 1 guard gives the same cart as calling the decrement directly. |
| Checkout.CheckoutPage.ShownTotal | frontend/src/pages/Cart/index.tsx:401-403 | The corrected displayed total is what the cart store charges. |
| Checkout.CheckoutPage.DisplayedTotal | frontend/src/pages/Cart/index.tsx:401-403 | As written, the page's total is the subtotal plus R$ 5,00 whatever the cart charges. At or above the R$ 20,00 threshold it is 500 more than the cart's final total. |
| Checkout.CheckoutPage.constructor | frontend/src/pages/Cart/index.tsx:149-171 | The page starts at step 0 with an empty address, 'credit', an empty card and no messages. |
| Checkout.CheckoutPage.HandleAddressChange | frontend/src/pages/Cart/index.tsx:180-182 | One address field is replaced; everything else is kept. |
| Checkout.CheckoutPage.HandleCardDataChange | frontend/src/pages/Cart/index.tsx:184-186 | One card field is replaced; everything else is kept. |
| Checkout.CheckoutPage.ValidateAddress | frontend/src/pages/Cart/index.tsx:198-210 | Returns whether street, number, neighborhood and city are each non-blank after trimming. On failure it records 'Preencha todos os campos obrigatórios'. |
| Checkout.CheckoutPage.ValidatePayment | frontend/src/pages/Cart/index.tsx:212-231 | Returns the payment verdict. On failure it records the message for the check that failed. |
| Checkout.CheckoutPage.HandleNext | frontend/src/pages/Cart/index.tsx:188-196 | The new step is the stepper function of the old step and the two checks. The address error is set to 'Preencha todos os campos obrigatórios' exactly when step 1's address check fails, and otherwise keeps its value. The payment error is set to the payment check's message exactly when step 2's payment check fails, and otherwise keeps its value. The address, method and card are unchanged. |
| Checkout.CheckoutPage.ContinueDisabled | frontend/src/pages/Cart/index.tsx:418-421 | The forward button is disabled iff the current step's check fails. Computing it runs that check, so the address error is set exactly when step 1's check fails and the payment error exactly when step 2's check fails. Every other error, the step and the inputs keep their values. |
| Checkout.CheckoutPage.PressContinue | frontend/src/pages/Cart/index.tsx:415-417 | On the last step nothing moves; before it the move is the stepper's, and the step stays within 0..3. The error fields change exactly as under `handleNext`. The address, method and card are unchanged. |
| Checkout.CheckoutPage.PressBack | frontend/src/pages/Cart/index.tsx:407-414 | Back lowers the step by one only above 0, and the step stays within 0..3. The address, method, card and both errors are unchanged. |
| Checkout.CheckoutPage.PressMinus | frontend/src/pages/Cart/index.tsx:328-331 | The minus button decrements only a line whose quantity is above 1. After a change the persisted copy equals the new lines; a press on a line of quantity 1 changes nothing. The page's own fields are unchanged. |
| Checkout.CheckoutPage.PressPlus | frontend/src/pages/Cart/index.tsx:339 | The plus button adds one more unit of the line's product. The persisted copy equals the new lines, and the page's own fields are unchanged. |
| Checkout.CheckoutPage.PressDelete | frontend/src/pages/Cart/index.tsx:351 | The delete button removes the line's product. The persisted copy equals the new lines, and the page's own fields are unchanged. |
| OrderSummary.KeepNonEmpty | frontend/src/pages/Cart/components/OrderSummary.tsx:87 | The filter keeps only non-empty parts, taken from the list. |
| OrderSummary.FormatAddress | frontend/src/pages/Cart/components/OrderSummary.tsx:80-89 | The non-empty fields among street, number, complement, neighborhood and city, joined by ", ". `FormatAddressEmptyIff`, `FormatAddressFull` and `FormatAddressWithoutComplement` state its results. |
| OrderSummary.FormatAddressEmptyIff | frontend/src/pages/Cart/components/OrderSummary.tsx:80-89 | The address line is empty iff all five shown fields are empty. |
| OrderSummary.FormatAddressIgnoresReference | frontend/src/pages/Cart/components/OrderSummary.tsx:81-86 | The reference never shows: changing it leaves the line unchanged. |
| OrderSummary.FormatAddressFull | frontend/src/pages/Cart/components/OrderSummary.tsx:80-89 | With all five fields non-empty (whitespace-only counts as non-empty), the line is street, number, complement, neighborhood and city joined by ", ". |
| OrderSummary.FormatAddressWithoutComplement | frontend/src/pages/Cart/components/OrderSummary.tsx:87-88 | An empty complement leaves no empty segment; the other four are joined directly. |
| OrderSummary.LastFour | frontend/src/pages/Cart/components/OrderSummary.tsx:94 | `slice(-4)` is the last min(4, n) characters. |
| OrderSummary.CreditLabelShowsLastFour | frontend/src/pages/Cart/components/OrderSummary.tsx:93-94 | The credit label is "Cartão de Crédito (", then the last up to four characters of the number as typed, then ")". |
| OrderSummary.MaskedCardLabel | frontend/src/pages/Cart/components/OrderSummary.tsx:93-94 | A masked 16-digit number shows its last four digits. |
| OrderSummary.OtherPaymentLabels | frontend/src/pages/Cart/components/OrderSummary.tsx:95-100 | 'debit' gives 'Cartão de Débito' and 'pix' gives 'PIX'. Every other method, 'cash' included, gives 'Dinheiro'. |
| OrderSummary.PaymentLabelsDistinct | frontend/src/pages/Cart/components/OrderSummary.tsx:91-101 | For the four methods, the label determines the method. |
| OrderSummary.FormatPaymentMethod | frontend/src/pages/Cart/components/OrderSummary.tsx:91-101 | The label per method, with the card's last four characters under 'credit'. `CreditLabelShowsLastFour`, `OtherPaymentLabels` and `PaymentLabelsDistinct` state its results. |
| Menu.FirstIndex | frontend/src/pages/Menu/index.tsx:253 | `indexOf` finds the first position holding the value. |
| Menu.KeepFirstMembers | frontend/src/pages/Menu/index.tsx:253 | Only values whose first occurrence lies in the scanned range are kept. |
| Menu.KeepFirstOrdered | frontend/src/pages/Menu/index.tsx:253 | Kept values appear in strictly increasing order of first occurrence. |
| Menu.KeepFirstComplete | frontend/src/pages/Menu/index.tsx:253 | Every value whose first occurrence lies in the scanned range is kept. |
| Menu.CategoriesShape | frontend/src/pages/Menu/index.tsx:251-254 | The chips start with 'all'. After it come exactly the products' categories, once each, in first-occurrence order. |
| Menu.EveryCategoryListed | frontend/src/pages/Menu/index.tsx:252-253 | Every product's category has a chip. |
| Menu.InCategoryMembers | frontend/src/pages/Menu/index.tsx:258 | The filter keeps exactly the products of the chosen category. |
| Menu.InCategoryAppend | frontend/src/pages/Menu/index.tsx:258 | The filter distributes over concatenation, so it keeps the original order. |
| Menu.InCategorySingle | frontend/src/pages/Menu/index.tsx:258 | One product is kept iff it has the chosen category. |
| Menu.UnusedCategoryEmpty | frontend/src/pages/Menu/index.tsx:258 | A category no product uses shows nothing. |
| Menu.AllShowsEverything | frontend/src/pages/Menu/index.tsx:256-257 | 'all' shows the product list unchanged. |
| Menu.Categories | frontend/src/pages/Menu/index.tsx:251-254 | 'all' followed by the products' categories in order of first use, each once. Stated by `CategoriesShape`. |
| Menu.FilteredProducts | frontend/src/pages/Menu/index.tsx:256-258 | Everything under 'all', otherwise the products of that category in their order. Stated by `AllShowsEverything` and `InCategoryMembers`. |
| Form.Initial | frontend/src/hooks/useForm.ts:8-10 | The form starts with the initial values and empty errors and touched maps. |
| Form.ChangeEffect | frontend/src/hooks/useForm.ts:12-16 | A change sets the value, marks the field touched and clears its error. Every other key of all three maps is unchanged. |
| Form.SetErrorEffect | frontend/src/hooks/useForm.ts:18-20 | Setting an error changes only that field's error. |
| Form.ChangeClearsError | frontend/src/hooks/useForm.ts:12-20 | A change after an error on the same field clears it, as if it had never been set. |
| Form.ChangeIdempotent | frontend/src/hooks/useForm.ts:12-16 | The same change twice equals the change once. |
| Form.ResetForgetsHistory | frontend/src/hooks/useForm.ts:22-26 | After any history, reset restores the initial state. |
| Form.RunConsistent | frontend/src/hooks/useForm.ts:7-26 | After any history: touched records only true; the values cover exactly the initial and touched fields; an untouched field holds its initial value. |
| Form.TouchedAreChanged | frontend/src/hooks/useForm.ts:12-26 | The touched fields are exactly those changed since the last reset. |
| Form.Change | frontend/src/hooks/useForm.ts:12-16 | Sets the value, marks the field touched and clears its error. Stated by `ChangeEffect`, `ChangeClearsError` and `ChangeIdempotent`. |
| Form.SetError | frontend/src/hooks/useForm.ts:18-20 | Sets one field's error. Stated by `SetErrorEffect`. |
| Form.FormHook.constructor | frontend/src/hooks/useForm.ts:8-10 | The hook starts in the initial state. |
| Form.FormHook.HandleChange | frontend/src/hooks/useForm.ts:12-16 | The state becomes the change function of the old one. |
| Form.FormHook.SetFieldError | frontend/src/hooks/useForm.ts:18-20 | The state becomes the set-error function of the old one. |
| Form.FormHook.Reset | frontend/src/hooks/useForm.ts:22-26 | The state becomes the initial one. |
| OrderTransaction.SuccessTraceShape | backend/src/controllers/OrderController.ts:10-34 | BEGIN comes first. The header insert comes second, with the request's values unchanged. Then one insert per item, in order, carrying the order id. COMMIT comes last and nowhere else, and there is no ROLLBACK. |
| OrderTransaction.WithOrderAppends | backend/src/controllers/OrderController.ts:16-34 | A committed order adds exactly one header and one row per item after the existing rows. |
| OrderTransaction.EmptyOrderCommitsHeader | backend/src/controllers/OrderController.ts:26-34 | An empty item list is not refused: BEGIN, header, COMMIT, and no item rows. |
| OrderTransaction.FirstFailure | backend/src/controllers/OrderController.ts:9-42 | The first failing statement position lies in the range, and no earlier position in the range fails. No result means none fails. |
| OrderTransaction.FirstFailureSplit | backend/src/controllers/OrderController.ts:9-42 | The first failure in a range is the first failure in its front part, or else the first in its back part. |
| OrderTransaction.FirstFailureAt | backend/src/controllers/OrderController.ts:9-42 | A failing position with none failing before it is the first failure. |
| OrderTransaction.Client.Execute | backend/src/controllers/OrderController.ts:9-41 | Each statement is logged. It fails exactly at the listed positions, and applies its effect only when it succeeds. |
| OrderTransaction.Apply | backend/src/controllers/OrderController.ts:9-34 | The effect of one statement that succeeds. Only COMMIT changes the committed tables, publishing the working copy and ending the transaction; BEGIN, the inserts and ROLLBACK leave them as they were. |
| OrderTransaction.Client.Release | backend/src/controllers/OrderController.ts:44 | The release is counted; nothing else changes. |
| OrderTransaction.InsertItems | backend/src/controllers/OrderController.ts:26-32 | One insert per item, in order. Either all succeed and the working copy gains the item rows, or the loop stops at the first failure. |
| OrderTransaction.OpenOrder | backend/src/controllers/OrderController.ts:10-23 | BEGIN, then the header insert under the next id, stopping at the first failure. |
| OrderTransaction.WriteOrder | backend/src/controllers/OrderController.ts:10-32 | BEGIN, the header insert and the item inserts, up to the first failure. When none fails, the transaction is open, the id sequence has advanced by one, and the working copy is the committed tables plus the order header and its item rows. |
| OrderTransaction.RunStatements | backend/src/controllers/OrderController.ts:9-34 | With no failure: the whole intended run is issued and the committed tables gain the order. Otherwise: the run up to the first failing statement is issued and the committed tables are unchanged. |
| OrderTransaction.Create | backend/src/controllers/OrderController.ts:5-46 | All or nothing: the committed tables gain one header and its item rows with 201 and the id, or stay unchanged after ROLLBACK with 400 'Erro ao criar pedido' (no reply when ROLLBACK itself fails). The connection is released exactly once. |
| Auth.Decide | backend/src/middlewares/auth.ts:10-34 | A rejection carries one of the two 401 messages. A present, non-empty header whose extracted token the verifier refuses is rejected with 'Token inválido'. |
| Auth.AdmitIff | backend/src/middlewares/auth.ts:17-30 | The request passes iff a non-empty header is present and its token verifies. The identity recorded is the payload's id and email. |
| Auth.MissingHeaderIgnoresVerifier | backend/src/middlewares/auth.ts:17-19 | A missing or empty header gives 'Token não fornecido' whatever the verifier would say. |
| Auth.ExtractToken | backend/src/middlewares/auth.ts:21 | The token neither starts nor ends with whitespace. |
| Text.ReplaceFirstAt | backend/src/middlewares/auth.ts:21 | `replace` with a string pattern substitutes the first occurrence, and only it. |
| Text.ReplaceFirstAbsent | backend/src/middlewares/auth.ts:21 | A string in which the pattern never occurs comes back unchanged. |
| Text.ReplaceFirst | backend/src/middlewares/auth.ts:21 | `String.prototype.replace` with a string pattern. Stated by `ReplaceFirstAt` and `ReplaceFirstAbsent`. |
| Text.Trim | frontend/src/pages/Cart/index.tsx:198-231 | The result is no longer than the input, and it neither starts nor ends with whitespace. |
| Text.TrimEmptyIffBlank | frontend/src/pages/Cart/index.tsx:198-231 | `Boolean(s.trim())` is false iff every character of s is whitespace. |
| Text.Split | frontend/src/utils/validators.ts:29 | There is always at least one field, and no field contains the separator. `SplitNoSeparator` and `SplitAtSeparator` state the fields. |
| Text.SplitNoSeparator | frontend/src/utils/validators.ts:29 | A string without the separator is its own single field. |
| Text.SplitAtSeparator | frontend/src/utils/validators.ts:29 | Splitting a + sep + b gives a, then the fields of b. |
| Text.Join | frontend/src/pages/Cart/components/OrderSummary.tsx:88 | `Array.prototype.join`. `OrderSummary.JoinNonEmptyParts` states that joining non-empty parts is empty only for no parts. |
| Text.ParseInt | frontend/src/utils/validators.ts:29 | `parseInt(s, 10)`: optional leading whitespace and sign, then the longest digit prefix, or no number. `ParseIntOfDigits` states that a non-empty digit string parses to its value. |
| Text.ParseIntOfDigits | frontend/src/utils/validators.ts:29 | A non-empty string of digits parses to the number it writes. |
| Text.Digits | frontend/src/utils/masks.ts:2 | `value.replace(/\D/g, '')`: the result holds only digits and is no longer than the input. |
| Text.DigitsIdempotent | frontend/src/utils/masks.ts:2 | Removing non-digits twice is the same as once. |
| Auth.BearerHeaderToken | backend/src/middlewares/auth.ts:21 | "Bearer " followed by t yields trim(t). |
| Auth.HeaderWithoutBearer | backend/src/middlewares/auth.ts:21 | A header without "Bearer" (case-sensitive) is only trimmed. |
| Auth.OnlyFirstBearerRemoved | backend/src/middlewares/auth.ts:21 | Only the first "Bearer" is removed; a second one stays in the token. |
| Auth.Exchange.constructor | backend/src/middlewares/auth.ts:10-14 | A request starts with no identity, nothing sent and next not called. |
| Auth.AuthMiddleware | backend/src/middlewares/auth.ts:10-34 | Exactly one thing happens: a 401 is sent with the identity left unset and next not called, or the identity is set from the payload and next is called once. |
| Users.RegisterReply | backend/src/controllers/UserController.ts:7-35 | Success iff no call throws and the email is new, returning the next id, the name and the email. Failures are 400. The message is 'Usuário já existe' iff the lookup ran and found the email; every other failure is 'Erro no registro'. |
| Users.RegisterTable | backend/src/controllers/UserController.ts:16-25 | On failure the table is unchanged. On success exactly one row is added, under the new email, storing hash(password), not the password argument; every other row is kept. |
| Users.RegisterKeepsValid | backend/src/controllers/UserController.ts:16-25 | Every row stays under its own email, with an id below the next one. |
| Users.SecondRegistrationRefused | backend/src/controllers/UserController.ts:16-18 | Registering the same email again gives 'Usuário já existe' and leaves the first row in place. |
| Users.LoginReply | backend/src/controllers/UserController.ts:37-75 | Success iff no call throws, the email is known and the password compares true. It returns the user without the hash and a token signed over id and email with lifetime '1d'. Every error is a 400 or a 401. A 401 is 'Usuário não encontrado' for an unknown email or 'Senha incorreta' for a refused password, and every 400 is 'Erro no login'. Case by case: a throwing lookup gives 400 'Erro no login'; otherwise an unknown email gives 401 'Usuário não encontrado'; a throwing compare gives 400 'Erro no login'; otherwise a refused password gives 401 'Senha incorreta'; a throwing sign after an accepted password gives 400 'Erro no login'. |
| Users.RegisterThenLogin | backend/src/controllers/UserController.ts:20-71 | After registering, logging in with the same password succeeds as the new user, provided the comparison accepts a password against its own hash. |
| Users.WrongPasswordRefused | backend/src/controllers/UserController.ts:52-56 | A refused password gives 401 'Senha incorreta'. |
| Users.UserStore.Register | backend/src/controllers/UserController.ts:7-35 | The reply and the new table are those of the register function, the id sequence advances only on success, and a table whose rows are keyed by their own email with ids below the sequence stays so. |
| Users.UserStore.Login | backend/src/controllers/UserController.ts:37-75 | The reply is the login function's, and nothing changes. |

## Left out

- Rendering, styling, routing and the empty-cart screen are not modelled. They hold no logic beyond the values modelled here.
- Storage I/O: the cart's persistence is a ghost `stored` field equal to `items` after every change. Loading from storage is the constructor's argument.
- `addToCart`'s `try`/`catch` error path: the updater it wraps cannot throw, so the model has no error state.
- Floating-point money and `toFixed` formatting: money is integer cents.
- The clock: `ValidateExpiryDate` takes the full year and the zero-based month index.
- `handleFinish`: it only logs the order it builds. Its total is the displayed total covered by the finding below.
- `handleAddressChange` and `handleCardDataChange` accept any field name in the source. The model takes only the six address fields and the four card fields the page passes.
- `pool.connect` failing before the `try` block is not modelled: `Create` starts with a connected client.
- The library internals are parameters: the SQL engine, bcrypt hashing and comparison, and JSON Web Token signing, verification and expiry.
- The request bodies' JSON shapes (missing or mistyped fields) are not modelled. So are the ids the database returns other than the id sequence.
- Concurrency is not modelled: the check-then-insert race in `register`, isolation between transactions, and React's batching of state updates.
- `listUserOrders`, the product controller and the routes are out: their logic is SQL text and routing.
- Users.UserStore.Register: an insert that throws leaves the id sequence where it was, whereas a database sequence may have advanced.
- Users.LoginReply: the users table is a map keyed by email, so the first of several rows with one email (`rows[0]`) is not modelled. Registration never creates two such rows when calls do not overlap.
- Checkout.CheckoutPage.ContinueDisabled: the source computes `disabled` during render by calling `validateAddress` or `validatePayment`, and both set state. React re-renders on a state update made during render, so this is likely to loop until React stops with "Too many re-renders" (not executed). The model treats one computation as one call that writes the error fields.
- OrderTransaction.Apply: a header insert that fails leaves the id sequence where it was, whereas a PostgreSQL sequence advances even when the insert's transaction is rolled back. Only the ids of later orders differ.
- Form.FormHook.Reset: the initial state is fixed when the hook is created. The source's `reset` uses the `initialState` of the latest render, while `useState` keeps the first, so the two differ only when a caller passes a different object on a later render.
- OrderSummary.LastFour: takes the last four characters. `slice(-4)` counts UTF-16 code units, so a card number holding characters outside the Basic Multilingual Plane is cut differently.
- OrderTransaction.Create: a statement failure is an index into the connection's statement log. The kinds of database error, and timeouts, are not told apart.

## Findings

| source | as written | input that shows it | evidently intended | confidence | as-written member | corrected member |
|---|---|---|---|---|---|---|
| frontend/src/pages/Cart/index.tsx:401-403 | The page prints a delivery fee of R$ 5,00 and a total of subtotal + 5 under every step, and puts subtotal + 5 into the order it builds. This ignores the cart's rule that delivery is free from R$ 20,00 (`frontend/src/contexts/CartContext.tsx:74-75`). The summary step repeats it (`frontend/src/pages/Cart/components/OrderSummary.tsx:176-182`). | One product priced R$ 20,00, quantity 1: the cart's final total is 2000 cents, the page shows and submits 2500. | The cart's own final total (subtotal plus the fee the cart charges). | not executed | Checkout.DisplayedTotalAtThreshold | Checkout.IntendedGrandTotalAgrees |
