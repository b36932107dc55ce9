# Storefront cart, checkout and password-reset logic in Dafny

This project models the client-side logic of a small storefront. The rest of
the front-end is markup, routing and HTTP calls. The model has three parts.

- **Cart store** (`CartStore`, cart_store.dfy). The zustand store holds one
  field, `cart`: an ordered sequence of line items. It has three actions.
  `addToCart` merges into the entry with the same id, or appends the product
  as given. `updateCartItem` writes a quantity verbatim. `removeFromCart`
  filters the id out. Each action is a pure function on `seq<Item>`. The
  class `Cart` overwrites its `items` field with that function's result, and
  its invariant is that ids are unique.
- **Checkout page** (`Checkout`, checkout.dfy). It covers the cart total (the
  `reduce` fallback) in integer minor units and the quantity stepper's
  requests. It covers the delivery form, with `trim()` over the ECMAScript
  whitespace set, and the seven required fields. It covers the pay-button
  rule, the `handlePayNow` guard chain as a decision function, and the
  handling of the payment gateway's result. The class `CheckoutPage` holds
  the page's state hooks and a reference to the shared store.
- **Password reset page** (`ResetPassword`, reset_password.dfy). It covers
  `validatePassword`, the 0–4 strength meter, the requirements checklist,
  `isFormValid` and the submit button rule. It covers the submit guards
  (token, then match, then length) and the error message chosen from the API
  answer. The class `ResetPasswordPage` holds the form, touched flags,
  message and loading state.

`Wrappers` (wrappers.dfy) defines the `Option` type used for fields that may
be missing.

Two behaviours of the code are worth stating up front:
- `updateCartItem` writes `q` as given (useCartStore.js:19). The clamp to at
  least 1 lives in the minus button (payment.jsx:415, `DecrementRequest`).
- The store defines neither `getTotalPrice` nor `clearCart`
  (useCartStore.js:3-25). So the `reduce` at payment.jsx:29 is the live
  total, and the `clearCart` call at payment.jsx:128 fails (see Findings).

## Model

| member | source | states |
|---|---|---|
| `CartStore.Find` | src/components/store/useCartStore.js:7 | `None` exactly when no entry carries the id; otherwise the first entry carrying it |
| `CartStore.Merged` | src/components/store/useCartStore.js:10-12 | one entry of the `map`: the entry carrying the product's id gets the product's quantity added, every other entry is returned as it is |
| `CartStore.AddedTo` | src/components/store/useCartStore.js:5-16 | length stays the same when the id is present and grows by one otherwise; every old position keeps its id; the id is present afterwards |
| `CartStore.AddNewAppends` | src/components/store/useCartStore.js:7-15 | a product with an absent id is appended unchanged at the end; the earlier entries are unchanged and in order |
| `CartStore.AddExistingMerges` | src/components/store/useCartStore.js:7-13 | with the id present: same length; the matching entry gets old + added quantity and keeps its stored fields; the other entries are unchanged |
| `CartStore.AddKeepsIdsUnique` | src/components/store/useCartStore.js:5-16 | unique ids stay unique after an add |
| `CartStore.AddedAll` | src/components/store/useCartStore.js:5-16 | one `addToCart` per listed quantity, in order, for the same product |
| `CartStore.MergeOntoLast` | src/components/store/useCartStore.js:7-13 | when the product's entry is last and no earlier entry has its id, a further add only raises that entry's quantity |
| `CartStore.AddedAllMerges` | src/components/store/useCartStore.js:5-16 | any non-empty run of adds of a product whose id is absent leaves the old entries untouched and one entry for the product, last, whose quantity is the sum of all the added quantities |
| `CartStore.Updated` | src/components/store/useCartStore.js:17-20 | same length; entries with the id get exactly the given quantity (no clamp); other quantities stay; no other field changes |
| `CartStore.UpdateAbsentIsNoOp` | src/components/store/useCartStore.js:17-20 | updating an absent id leaves the cart equal to what it was |
| `CartStore.UpdateKeepsIdsUnique` | src/components/store/useCartStore.js:17-20 | unique ids stay unique after an update |
| `CartStore.Removed` | src/components/store/useCartStore.js:21-24 | no entry carries the id afterwards, and the cart does not grow |
| `CartStore.RemovedMembers` | src/components/store/useCartStore.js:23 | an item is kept exactly when it was in the cart under another id |
| `CartStore.RemovedAppend` | src/components/store/useCartStore.js:23 | the filter distributes over concatenation, so kept entries keep their relative order |
| `CartStore.RemoveAbsentIsNoOp` | src/components/store/useCartStore.js:23 | removing an absent id leaves the cart unchanged |
| `CartStore.RemoveIdempotent` | src/components/store/useCartStore.js:23 | removing twice equals removing once |
| `CartStore.RemoveUniqueAt` | src/components/store/useCartStore.js:21-24 | with unique ids, removing entry k's id gives `cart[..k] + cart[k+1..]` |
| `CartStore.RemoveKeepsIdsUnique` | src/components/store/useCartStore.js:21-24 | unique ids stay unique after a remove |
| `CartStore.Cart.constructor` | src/components/store/useCartStore.js:4 | the cart starts empty |
| `CartStore.Cart.AddToCart` | src/components/store/useCartStore.js:5-16 | the new cart is `AddedTo` of the old one; unique ids are kept |
| `CartStore.Cart.UpdateCartItem` | src/components/store/useCartStore.js:17-20 | the new cart is `Updated` of the old one; unique ids are kept |
| `CartStore.Cart.RemoveFromCart` | src/components/store/useCartStore.js:21-24 | the new cart is `Removed` of the old one; unique ids are kept |
| `CartStore.Cart.ClearCart` | src/components/Payment/payment.jsx:128 | the action the checkout calls and the store lacks: the cart becomes empty (corrected half of the finding) |
| `Checkout.TotalAmount` | src/components/Payment/payment.jsx:29 | the left fold equals the sum of price × quantity, where a missing price counts as 0; the empty cart totals 0 |
| `Checkout.UnitPrice` | src/components/Payment/payment.jsx:29 | `item.priceValue \|\| 0`: the stored price, or 0 when there is none |
| `Checkout.Reduce` | src/components/Payment/payment.jsx:29 | the `reduce` itself: a left fold adding price × quantity for each line |
| `Checkout.ReduceIsSum` | src/components/Payment/payment.jsx:29 | the fold from any start value adds the sum of the lines to that value |
| `Checkout.TotalAfterAddNew` | src/components/Payment/payment.jsx:29 | adding a new product raises the total by its line |
| `Checkout.TotalAfterAddExisting` | src/components/Payment/payment.jsx:29 | merging raises the total by the added quantity at the price stored with the existing entry |
| `Checkout.TotalAfterAddAll` | src/components/Payment/payment.jsx:29 | any non-empty run of adds of a new product raises the total by its price × the sum of the added quantities |
| `Checkout.TotalAfterUpdate` | src/components/Payment/payment.jsx:29 | setting entry k to q moves the total by price × (q − old quantity) |
| `Checkout.TotalAfterRemove` | src/components/Payment/payment.jsx:29 | removing entry k lowers the total by exactly its line |
| `Checkout.RepeatedAddMerges` | src/components/store/useCartStore.js:5-16 | adding the same product twice, with quantities 1 and 2 at price 250, gives one entry of quantity 3 and a total of 750 |
| `Checkout.DecrementRequest` | src/components/Payment/payment.jsx:415 | the minus button asks for at least 1: q − 1 from q ≥ 2, otherwise 1 |
| `Checkout.IncrementRequest` | src/components/Payment/payment.jsx:422 | the plus button asks for more than the shown quantity |
| `Checkout.StepperKeepsPositive` | src/components/Payment/payment.jsx:415-422 | with all quantities ≥ 1, either stepper button keeps all quantities ≥ 1 under the verbatim update |
| `Checkout.WithField` | src/components/Payment/payment.jsx:59-64 | the named field takes the value and every other field keeps its value |
| `Checkout.Trim` | src/components/Payment/payment.jsx:77 | `trim()`: leading, then trailing whitespace removed; pinned down by `TrimStartSpec`, `TrimEndSpec` and `BlankIff` |
| `Checkout.TrimStartSpec` | src/components/Payment/payment.jsx:77 | leading trim drops only whitespace and stops at the first non-whitespace character |
| `Checkout.TrimEndSpec` | src/components/Payment/payment.jsx:77 | trailing trim drops only whitespace and stops at the last non-whitespace character |
| `Checkout.BlankIff` | src/components/Payment/payment.jsx:77 | `trim()` gives "" exactly when every character is whitespace |
| `Checkout.BlankFields` | src/components/Payment/payment.jsx:77 | the `filter` keeping the fields whose trimmed value is empty, in list order |
| `Checkout.MissingFields` | src/components/Payment/payment.jsx:76-77 | that filter over `RequiredFields`, the seven keys listed at :76 |
| `Checkout.BlankFieldsMembers` | src/components/Payment/payment.jsx:77 | the filter keeps exactly the listed fields whose trimmed value is empty |
| `Checkout.MissingFieldsInOrder` | src/components/Payment/payment.jsx:76-77 | the missing list is the blank required fields in the order firstName, lastName, address, city, province, postalCode, phone |
| `Checkout.MissingFieldsExact` | src/components/Payment/payment.jsx:76-82 | a field is listed exactly when it is required and holds only whitespace; company and apartment never are |
| `Checkout.JoinKeys` | src/components/Payment/payment.jsx:80 | `missingFields.join(', ')`: empty exactly when the list is empty |
| `Checkout.JoinKeysCons` | src/components/Payment/payment.jsx:80 | one more key in front of a non-empty list adds the key and `, ` in front of the joined rest |
| `Checkout.PayNowDecision` | src/components/Payment/payment.jsx:70-93 | the first failing guard wins, in the order terms, missing fields, login, empty cart; payment starts exactly when all four pass |
| `Checkout.PayNowNotice` | src/components/Payment/payment.jsx:71-92 | there is no notice exactly when payment starts, and a redirect exactly when not logged in |
| `Checkout.PayEnabled` | src/components/Payment/payment.jsx:142-144 | the checkout's `isFormValid`: terms accepted, a non-empty cart, the SDK ready and no payment in progress; it does not look at the delivery form or the login |
| `Checkout.EnabledAndFilledStarts` | src/components/Payment/payment.jsx:142-144 | the button is enabled, the fields are filled and a token is stored, so payment starts |
| `Checkout.EnabledWithEmptyFormIsBlocked` | src/components/Payment/payment.jsx:142-144 | the button rule ignores the form: it is enabled with an empty form, and then the chain lists all seven required fields |
| `Checkout.SettleAsWritten` | src/components/Payment/payment.jsx:119-139 | as written, no path clears the cart or navigates, and loading is reset on every path except success |
| `Checkout.Settle` | src/components/Payment/payment.jsx:119-139 | corrected: only success clears the cart and goes to /order-success; an error keeps the cart and shows the gateway's message; loading is always reset |
| `Checkout.SuccessIsStranded` | src/components/Payment/payment.jsx:125-131 | the two differ exactly on success: as written, success shows its alert but leaves the cart and keeps loading set |
| `Checkout.CheckoutPage.constructor` | src/components/Payment/payment.jsx:12-25 | an empty form, terms not accepted, not loading, the SDK not ready |
| `Checkout.CheckoutPage.Total` | src/components/Payment/payment.jsx:29 | the page's `totalAmount` over the shared store's current cart |
| `Checkout.CheckoutPage.IsFormValid` | src/components/Payment/payment.jsx:142-144 | `PayEnabled` over the page's current state and the store's cart size |
| `Checkout.CheckoutPage.HandleInputChange` | src/components/Payment/payment.jsx:59-64 | only that field of `deliveryInfo` changes; the other state is unchanged |
| `Checkout.CheckoutPage.HandleCheckboxChange` | src/components/Payment/payment.jsx:66-68 | `acceptedTerms` takes the box's value; nothing else changes |
| `Checkout.CheckoutPage.MarkSdkReady` | src/components/Payment/payment.jsx:42-45 | `sdkReady` becomes true; nothing else changes |
| `Checkout.CheckoutPage.Step` | src/components/Payment/payment.jsx:414-426 | the store is updated with the stepper's request for that entry; positive quantities stay positive |
| `Checkout.CheckoutPage.HandlePayNow` | src/components/Payment/payment.jsx:70-95 | the outcome is `PayNowDecision`; loading is set only when payment starts; the form and flags are unchanged |
| `Checkout.CheckoutPage.OnGatewayResultAsWritten` | src/components/Payment/payment.jsx:119-139 | as written: the cart is never touched, and loading stays set after a success |
| `Checkout.CheckoutPage.OnGatewayResult` | src/components/Payment/payment.jsx:119-139 | corrected: the cart is emptied exactly on success, and loading ends false |
| `ResetPassword.ValidatePassword` | src/components/Profile/resetpassword.jsx:39-41 | `validatePassword`: at least six characters |
| `ResetPassword.HasUpper` | src/components/Profile/resetpassword.jsx:51 | `/[A-Z]/.test(p)`: some character is an ASCII capital |
| `ResetPassword.HasDigit` | src/components/Profile/resetpassword.jsx:51 | `/[0-9]/.test(p)`: some character is an ASCII digit |
| `ResetPassword.HasSpecial` | src/components/Profile/resetpassword.jsx:51 | `/[!@#$%^&*]/.test(p)`: some character is one of those eight |
| `ResetPassword.PasswordStrength` | src/components/Profile/resetpassword.jsx:47-58 | the level is in 0..4, and the text is the one belonging to that level |
| `ResetPassword.StrengthByLength` | src/components/Profile/resetpassword.jsx:47-50 | level 0 iff empty; 1 iff length 1–5; 2 whenever length is 6–7 |
| `ResetPassword.StrengthByContent` | src/components/Profile/resetpassword.jsx:51-57 | from length 8: 4 iff upper, digit and special; 3 iff upper and digit without special; 2 iff not both upper and digit |
| `ResetPassword.StrengthAtLeastWeakIffValid` | src/components/Profile/resetpassword.jsx:39-58 | strength ≥ 2 exactly when `validatePassword` holds |
| `ResetPassword.GoodWithoutSpecial` | src/components/Profile/resetpassword.jsx:54-56 | "Abcdefg1" is rated 3, "Good" |
| `ResetPassword.PasswordRequirements` | src/components/Profile/resetpassword.jsx:63-69 | five entries: at least 6, at least 8, uppercase, digit, special, each met exactly when its test holds |
| `ResetPassword.StrongIffAllRequirementsMet` | src/components/Profile/resetpassword.jsx:47-69 | strength 4 exactly when every checklist entry is met |
| `ResetPassword.PasswordsMatch` | src/components/Profile/resetpassword.jsx:43 | `passwordsMatch`: the two fields are equal |
| `ResetPassword.IsFormValid` | src/components/Profile/resetpassword.jsx:45 | `isFormValid`: a valid new password, matching, with a truthy (non-empty) confirmation |
| `ResetPassword.IsFormValidIff` | src/components/Profile/resetpassword.jsx:43-45 | valid iff the new password has ≥ 6 characters and equals the confirmation; the non-empty test is implied |
| `ResetPassword.SubmitGuard` | src/components/Profile/resetpassword.jsx:89-114 | checks the token first, then the match, then the length; `None` exactly when all pass |
| `ResetPassword.SubmitEnabled` | src/components/Profile/resetpassword.jsx:390 | the submit button is enabled: not loading, the form valid and the token truthy |
| `ResetPassword.EnabledSubmitReachesApi` | src/components/Profile/resetpassword.jsx:390 | an enabled submit button always passes all three guards |
| `ResetPassword.FailureText` | src/components/Profile/resetpassword.jsx:141-153 | the server's non-empty message if present; otherwise the fixed prefix plus the suffix for status 400, then 401, else the generic one |
| `ResetPassword.FailureTextShown` | src/components/Profile/resetpassword.jsx:150-153 | the failure message is never empty |
| `ResetPassword.ResetPasswordPage.constructor` | src/components/Profile/resetpassword.jsx:21-36 | an empty form, nothing touched, no message, not loading |
| `ResetPassword.ResetPasswordPage.HandleInputChange` | src/components/Profile/resetpassword.jsx:71-75 | that field takes the value and is marked touched; the other field is untouched; a shown message is cleared |
| `ResetPassword.ResetPasswordPage.HandleSubmit` | src/components/Profile/resetpassword.jsx:84-157 | the API is reached exactly when the guards pass; the message follows the first failing guard or the API answer; a success clears the form and schedules the redirect; loading ends false |

## Left out

- Loading the payment SDK script, the 500 ms wait and the test-payment button (payment.jsx:32-57, 99, 147-176) are DOM and third-party plumbing. The model keeps only the `sdkReady` flag and treats the gateway's answer as an input, `GatewayResult`.
- Floating-point amounts and their formatting (`toFixed(2)`, `Math.round(totalAmount * 100)`) are left out. Prices are integer minor units, so the amount sent to the gateway is not modelled.
- `localStorage.getItem("token")` is the boolean input `loggedIn`. The reset page's `token` query parameter is an `Option<string>` input.
- `alert`, `navigate` and the 3-second redirect timer have no state of their own. The model returns them as values: `Notice`, `Settlement`, and the `redirect` flag of `HandleSubmit`.
- The reset API call (`resetPassword` in authApi.jsx) is an input, `ApiResult`. The client, its interceptor and its retry are not part of this model.
- `togglePasswordVisibility` and the strength meter's colours are presentation only.
- JS string length counts UTF-16 code units, and the model counts Dafny characters. The two agree for text in the Basic Multilingual Plane.
- `trim()` is modelled with the ECMAScript whitespace and line-terminator characters, written out. The space-separator class is fixed at the Unicode version those characters come from.
- The store accepts any product object. The model fixes the line item's fields to `id`, `name`, `priceValue`, `quantity` and one display field, `img`, which stands for all the display fields.
- `priceValue || 0` also maps `NaN` and `null` to 0. With integer prices, only a missing price (and 0 itself) reaches that branch.

## Findings

`Checkout.SuccessIsStranded` shows where the two halves differ. `Checkout.CheckoutPage.OnGatewayResultAsWritten` applies the code as written to the page state, and `Checkout.CheckoutPage.OnGatewayResult` applies the correction, using `CartStore.Cart.ClearCart`.

| source | as written | input that shows it | evidently intended | confidence | as-written member | corrected member |
|---|---|---|---|---|---|---|
| src/components/Payment/payment.jsx:128 | `clearCart` is taken from the store at line 28, but the store defines no such action. So on a successful payment the call throws right after the success alert. The cart is not cleared, `navigate("/order-success")` never runs, and `paymentLoading` stays true, which leaves the pay button disabled | any gateway result without `error`, e.g. `Approved("tok_1")` | empty the cart, go to /order-success, and reset loading | high; not executed | `Checkout.SettleAsWritten` | `Checkout.Settle` |
