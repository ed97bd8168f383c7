# maxi-softlens storefront: a verified model of its client-side rules

maxi-softlens is a contact-lens storefront written in React and TypeScript. This
project models the rules the storefront's client code applies, and proves the
properties those rules promise:

- **Shopping cart.** A list of (product, power, quantity) entries keyed by
  product id and power. It supports add, remove, update quantity, clear and
  total. Every operation keeps each key at most once and every quantity at
  least 1 (`Cart`). A second module models the in-place update of `addItem` with
  object identity (`CartAliasing`); see "## Findings".
- **WhatsApp ordering.**
  - Phone numbers are normalised to digits with the Indonesian country code 62.
  - The `wa.me` order link carries a fixed message template and can be read back
    field by field (`WhatsApp`).
  - The cart checkout, the contact form and the product page's direct "Buy Now"
    build texts and links from this (`CartPage`, `ContactPage`,
    `ProductDetailPage`).
- **Member rewards.**
  - The shared rewards store: its fetches and the mapping from the redemption
    call's reply to what the pages see (`RewardsContext`).
  - On the rewards page: eligibility, the shortfall, the sorted list, the
    status of redeemed rewards, and the redeem dialog (`RewardsPage`).
  - The dashboard's "next reward" card, which in one case sorts the shared array
    in place (`Dashboard`).
  - Rows and the cost ordering several pages share: `Members`.
- **Forms.** The validation of sign-in and sign-up, with ordered checks and
  first-failure messages, and what happens after the authentication call settles
  (`LoginPage`, `RegisterPage`).
- **Product list.** The series buttons, which are distinct and in order of first
  appearance, and the series filter (`ProductsPage`).

How the model is shaped:

- State that the code updates in place is held in classes: the cart cell, the
  rewards store, and each page's form or dialog state. Their methods state the
  whole new state.
- Pure rules are functions with lemmas.
- An asynchronous handler is split at its `await` or `setTimeout` into two steps:
  - the first step returns the call it would make;
  - the second step takes the outside world's answer as a parameter.
- Values a callback captured are passed back in explicitly.
- `window.open`, `alert` and navigation are returned as values.
- `encodeURIComponent` is an opaque parameter `encode: string -> string`.
- Dates are integer timestamps.
- JavaScript's `trim()` whitespace set and its UTF-16 `length` are modelled
  exactly (`Common`).

## Model

| member | source | states |
|---|---|---|
| Cart.FindIndex | src/contexts/CartContext.tsx:46-48 | the index returned holds the key and no earlier entry does; -1 exactly when no entry holds the key |
| Cart.AddedItem | src/contexts/CartContext.tsx:44-58 | the list `addItem` stores, read with value semantics; what it does is stated by AddExistingKey, AddNewKey, AddPreservesWellFormed and TotalAfterAdd |
| Cart.AddExistingKey | src/contexts/CartContext.tsx:50-54 | adding a key already present raises the first such entry's quantity by exactly 1; the length and every other entry are unchanged |
| Cart.AddExistingKeyWellFormed | src/contexts/CartContext.tsx:46-54 | in a cart with unique keys, whichever entry holds the key is the one that grows by 1, and nothing else changes |
| Cart.AddNewKey | src/contexts/CartContext.tsx:55-57 | adding an absent key appends the entry (product, power, 1) at the end |
| Cart.AddPreservesWellFormed | src/contexts/CartContext.tsx:43-60 | adding keeps keys unique and quantities at least 1 |
| Cart.Removed | src/contexts/CartContext.tsx:64-68 | the list `removeItem` stores; what it keeps and drops is stated by RemovedSpec, RemoveExistingKey and RemovePreservesWellFormed |
| Cart.RemovedSpec | src/contexts/CartContext.tsx:63-69 | no entry with the key survives; every kept entry comes from the cart; every entry with another key is kept |
| Cart.RemovedAppend | src/contexts/CartContext.tsx:64-67 | removal distributes over concatenation, so the kept entries stay in their original order |
| Cart.RemoveAbsentKey | src/contexts/CartContext.tsx:64-67 | removing a key that is not present leaves the cart as it was |
| Cart.RemoveExistingKey | src/contexts/CartContext.tsx:63-69 | in a well-formed cart, removing a present key drops exactly that entry and keeps the rest in order |
| Cart.RemovePreservesWellFormed | src/contexts/CartContext.tsx:63-69 | removing keeps keys unique and quantities at least 1 |
| Cart.WithQuantity | src/contexts/CartContext.tsx:79-84 | same length; each entry with the key gets the new quantity and every other entry is kept |
| Cart.Updated | src/contexts/CartContext.tsx:72-86 | the list `updateQuantity` stores: removal for q ≤ 0, otherwise the new quantity on the key; stated by UpdateNonPositiveRemoves, UpdateAbsentKey, UpdateExistingKey and UpdatePreservesWellFormed |
| Cart.UpdateNonPositiveRemoves | src/contexts/CartContext.tsx:72-77 | in a well-formed cart, a quantity of 0 or less drops exactly the entry with the key, keeps the others in order, and lowers the total by that entry's quantity |
| Cart.UpdateAbsentKey | src/contexts/CartContext.tsx:78-85 | a positive quantity for an absent key leaves the cart unchanged |
| Cart.UpdateExistingKey | src/contexts/CartContext.tsx:78-85 | in a well-formed cart, a positive quantity replaces the quantity of the one matching entry and nothing else |
| Cart.UpdatePreservesWellFormed | src/contexts/CartContext.tsx:72-86 | updating keeps keys unique and quantities at least 1, whatever the quantity |
| Cart.Total | src/contexts/CartContext.tsx:94 | with positive quantities the total is at least the number of entries |
| Cart.TotalAppend | src/contexts/CartContext.tsx:94 | the total of a concatenation is the sum of the totals |
| Cart.TotalReplace | src/contexts/CartContext.tsx:94 | replacing one entry changes the total by the difference of the quantities |
| Cart.TotalAfterAdd | src/contexts/CartContext.tsx:43-60 | every add raises the total by exactly 1 |
| Cart.TotalAfterRemove | src/contexts/CartContext.tsx:63-69 | removing a present key lowers the total by that entry's quantity |
| Cart.TotalAfterUpdate | src/contexts/CartContext.tsx:72-86 | setting a present key to q > 0 moves the total by q minus the old quantity |
| Cart.CartStore.constructor | src/contexts/CartContext.tsx:22 | the cart starts empty and well-formed |
| Cart.CartStore.TotalItems | src/contexts/CartContext.tsx:94 | the store's `totalItems`: the sum of the stored quantities; AddItem and ClearCart state the total in its terms |
| Cart.CartStore.AddItem | src/contexts/CartContext.tsx:43-60 | the stored list becomes the added list; well-formedness is kept; the total rises by 1 |
| Cart.CartStore.RemoveItem | src/contexts/CartContext.tsx:63-69 | the stored list becomes the cart without the key; well-formedness is kept |
| Cart.CartStore.UpdateQuantity | src/contexts/CartContext.tsx:72-86 | the stored list becomes the updated list (removal when q ≤ 0); well-formedness is kept |
| Cart.CartStore.ClearCart | src/contexts/CartContext.tsx:89-91 | the cart is empty and its total is 0 |
| CartAliasing.FindCell | src/contexts/CartContext.tsx:46-48 | the same first-match search over heap entries, reading only their key fields |
| CartAliasing.AddItemUpdater | src/contexts/CartContext.tsx:44-58 | for a present key, the copy returned holds the same objects and the matching object's quantity is raised in place; for a new key, one fresh entry of quantity 1 is appended |
| CartAliasing.StrictModeAddItem | src/main.tsx:10 | when the updater runs twice on the same previous list, the present entry ends up 2 units higher |
| CartAliasing.StrictModeCounterexample | src/contexts/CartContext.tsx:53 | a cart holding one entry of quantity 1 reaches quantity 3 after a single add under double invocation |
| Common.TrimStartSpec | src/pages/LoginPage.tsx:39 | the result is a suffix of the input; everything dropped is whitespace; the result does not start with whitespace |
| Common.TrimEndSpec | src/pages/LoginPage.tsx:39 | the result is a prefix of the input; everything dropped is whitespace; the result does not end with whitespace |
| Common.IsJsWhitespace | src/pages/LoginPage.tsx:39 | the characters `trim()` strips: ECMAScript WhiteSpace (TAB, VT, FF, ZWNBSP, every space separator) and LineTerminator (LF, CR, LS, PS); the Trim lemmas are stated in its terms |
| Common.Trim | src/pages/LoginPage.tsx:39 | `trim()`: both ends stripped of ECMAScript whitespace; TrimStartSpec, TrimEndSpec and TrimEmptyIffBlank state what it keeps |
| Common.TrimEmptyIffBlank | src/pages/RegisterPage.tsx:40-48 | `trim()` gives the empty string exactly when the input is all whitespace |
| Common.Utf16Length | src/pages/RegisterPage.tsx:50 | the length lies between the character count and twice it, and equals the character count when every character is in the Basic Multilingual Plane |
| Common.Utf16LengthAstral | src/pages/RegisterPage.tsx:50 | a string made only of characters outside the Basic Multilingual Plane has a `length` of twice its character count |
| Common.NatToDecimal | src/pages/CartPage.tsx:36 | at least one digit, all digits, and no leading zero except for 0 itself |
| Common.DecimalRoundTrip | src/pages/CartPage.tsx:36 | reading the rendered digits back gives the number |
| Common.IntToDecimal | src/pages/CartPage.tsx:36 | how `${q}` renders an integer: a minus sign before the digits of a negative value; its digits are those of NatToDecimal, and IntToDecimalHasNoNewline states it holds no line break |
| Common.Join | src/pages/CartPage.tsx:37 | `Array.prototype.join`: parts separated by the separator, no separator before the first or after the last; JoinSnoc and JoinAvoids state its shape |
| Common.JoinSnoc | src/pages/CartPage.tsx:37 | joining one more part appends the separator and that part |
| Common.JoinAvoids | src/pages/CartPage.tsx:37 | a character in neither the separator nor any part is absent from the joined string |
| WhatsApp.DigitsOf | src/lib/utils.ts:10 | the result holds only decimal digits and is no longer than the input |
| WhatsApp.DigitsOfDigits | src/lib/utils.ts:10 | a string of digits is kept as it is |
| WhatsApp.DigitsOfAppend | src/lib/utils.ts:10 | stripping non-digits distributes over concatenation |
| WhatsApp.FormatWhatsAppNumber | src/lib/utils.ts:8-20 | the result holds only digits and starts with 62 |
| WhatsApp.FormatLocalAndInternational | src/lib/utils.ts:8-20 | local notation (leading 0) and international notation (leading +62) of the same digits normalise to the same number, 62 followed by those digits |
| WhatsApp.FormatIdempotent | src/lib/utils.ts:8-20 | normalising twice is the same as normalising once |
| WhatsApp.FormatKeepsNormalised | src/lib/utils.ts:13-14 | a number that is all digits and starts with 62 is left unchanged |
| WhatsApp.StoreNumberText | src/pages/CartPage.tsx:41 | the store number the checkout passes is "+62 818 0330 0441" |
| WhatsApp.StoreNumberNormalised | src/pages/ContactPage.tsx:45 | "+62 818 0330 0441" normalises to 6281803300441, the number the contact page uses as is |
| WhatsApp.DigitsOfSpacedNumber | src/lib/utils.ts:10 | a number written "+cc aaa bbbb cccc" strips to its digit groups, concatenated |
| WhatsApp.LeadingDigits | src/lib/utils.ts:34 | the longest prefix of digits: a prefix of the input made only of digits |
| WhatsApp.LeadingDigitsOf | src/lib/utils.ts:34 | the digit prefix stops exactly where the digits end |
| WhatsApp.OrderMessage | src/lib/utils.ts:31 | the order template before encoding; OrderMessageRoundTrip shows its four fields read back in order |
| WhatsApp.GenerateWhatsAppLink | src/lib/utils.ts:22-35 | the `wa.me` link for the normalised number and the encoded template; LinkRoundTrip reads both back |
| WhatsApp.LinkRoundTrip | src/lib/utils.ts:22-35 | a generated link reads back as the normalised number and the encoded message |
| WhatsApp.SplitLineAt | src/lib/utils.ts:31 | text without a line break, followed by a break, splits back into its two halves |
| WhatsApp.OrderMessageRoundTrip | src/lib/utils.ts:30-32 | the template embeds product, customer name, phone and address in that order, and all four read back when the first three are single lines |
| CartPage.ProductLines | src/pages/CartPage.tsx:35-36 | one line per entry in cart order, each "name (Power: p) x q" |
| CartPage.ProductLine | src/pages/CartPage.tsx:36 | the line `${name} (Power: ${power}) x ${quantity}` of one entry; ProductLineIsOneLine shows it holds no line break when the name and power hold none |
| CartPage.ProductsText | src/pages/CartPage.tsx:35-37 | the entries' lines joined with a literal backslash-n; ProductsTextSnoc and ProductsTextIsOneLine state its shape |
| CartPage.ProductLinesSnoc | src/pages/CartPage.tsx:35-36 | one more entry gives one more line, at the end |
| CartPage.ProductsTextSnoc | src/pages/CartPage.tsx:35-37 | a further entry appends the two-character backslash-n separator and its line |
| CartPage.IntToDecimalHasNoNewline | src/pages/CartPage.tsx:36 | a rendered quantity holds no line break |
| CartPage.ProductsTextIsOneLine | src/pages/CartPage.tsx:37 | since the separator is not a line break, the product text holds none when the names and powers hold none |
| CartPage.CheckoutMessageRoundTrip | src/pages/CartPage.tsx:35-46 | the checkout message reads back as product text, name, WhatsApp number and address |
| CartPage.CheckoutPage.constructor | src/pages/CartPage.tsx:15-19 | the form starts with three empty fields |
| CartPage.CheckoutPage.InputChanged | src/pages/CartPage.tsx:21-24 | exactly the named field takes the value |
| CartPage.CheckoutPage.HandleCheckout | src/pages/CartPage.tsx:26-53 | an incomplete form only raises the alert and leaves the cart alone; a complete one opens the link for the cart as it was, sent to the store number, and empties the cart |
| CartPage.CheckoutLinkParts | src/pages/CartPage.tsx:40-46 | the checkout link goes to 6281803300441 and carries the encoded order message |
| CartPage.FormComplete | src/pages/CartPage.tsx:29 | the checkout goes ahead exactly when name, WhatsApp number and address are all non-empty (whitespace passes); HandleCheckout is stated in its terms |
| CartPage.MinusDisabled | src/pages/CartPage.tsx:123 | the minus button is disabled exactly when the quantity is at most 1; ClickMinus and MinusKeepsEntry are stated in its terms |
| CartPage.ClickMinus | src/pages/CartPage.tsx:120-127 | a disabled minus (quantity ≤ 1) changes nothing; otherwise the quantity is updated to q − 1 |
| CartPage.ClickPlus | src/pages/CartPage.tsx:131-137 | the quantity is updated to q + 1 |
| CartPage.MinusKeepsEntry | src/pages/CartPage.tsx:121-123 | an enabled minus lowers the entry by one, never removes it, and lowers the total by 1 |
| CartPage.PlusAddsOne | src/pages/CartPage.tsx:132 | plus raises the entry and the total by 1 and keeps the length |
| Members.InsertByCost | src/pages/RewardsPage.tsx:134 | inserting adds exactly that element, once |
| Members.InsertByCostSorted | src/pages/RewardsPage.tsx:134 | inserting into a list sorted by cost keeps it sorted |
| Members.SortByCost | src/pages/RewardsPage.tsx:134 | the result is sorted by cost (ascending or descending) and is a permutation of the input |
| Members.SortedHeadIsLeast | src/pages/DashboardPage.tsx:118 | the head of the sorted copy is an element of the input with the least key |
| RewardsContext.RedeemReward | src/contexts/RewardsContext.tsx:84-130 | success exactly when a user is present and the call returns `true`; no user means login-required and no call; an error gives its message or 'Failed to redeem reward'; false or null give 'Not enough coins'; an exception gives the generic message; `true` refreshes user data then rewards; newBalance is never set |
| RewardsContext.FailureHasMessage | src/contexts/RewardsContext.tsx:84-130 | every outcome carries a non-empty message |
| RewardsContext.ActiveRows | src/contexts/RewardsContext.tsx:41 | the active rows of the table, each with its multiplicity, and nothing else |
| RewardsContext.AnswersActiveByCost | src/contexts/RewardsContext.tsx:38-42 | what the query may return: exactly the active rows (with multiplicity), by non-decreasing cost, ties in the database's order; FetchKeepsActiveByCost assumes the reply is such an answer |
| RewardsContext.ActiveByCostAnswer | src/contexts/RewardsContext.tsx:38-42 | the query can be answered: the active rows sorted by cost are such an answer |
| RewardsContext.AnswerRowsAreActive | src/contexts/RewardsContext.tsx:41 | every row of an answer is active and comes from the table |
| RewardsContext.RewardsStore.constructor | src/contexts/RewardsContext.tsx:22-24 | both lists start empty and loading is true |
| RewardsContext.RewardsStore.BeginFetchAvailableRewards | src/contexts/RewardsContext.tsx:37 | loading turns true before the query |
| RewardsContext.RewardsStore.SettleFetchAvailableRewards | src/contexts/RewardsContext.tsx:44-53 | an error or exception keeps the list; data replaces it; null empties it; loading ends false on every path |
| RewardsContext.RewardsStore.FetchAvailableRewards | src/contexts/RewardsContext.tsx:35-54 | the whole fetch: as the settle step, with the redeemed list untouched |
| RewardsContext.RewardsStore.FetchUserRewards | src/contexts/RewardsContext.tsx:56-77 | nothing without a user; otherwise data replaces the redeemed list, null empties it, and errors keep it |
| RewardsContext.RewardsStore.RefreshRewards | src/contexts/RewardsContext.tsx:79-82 | both fetches, in order, with their effects combined |
| RewardsContext.RewardsStore.UserChanged | src/contexts/RewardsContext.tsx:26-33 | signed out, the redeemed list is cleared and only the rewards are fetched; signed in, both are refreshed |
| RewardsContext.FetchKeepsActiveByCost | src/contexts/RewardsContext.tsx:38-47 | when the database answers the query as asked, the store holds only active rewards of the table, sorted by cost |
| RewardsPage.Shortfall | src/pages/RewardsPage.tsx:204-208 | the shortfall is shown exactly when the reward cannot be redeemed; it is the cost minus the balance (0 when coins are missing); it is positive whenever coins exist |
| RewardsPage.CanRedeem | src/pages/RewardsPage.tsx:161 | a reward can be redeemed exactly when coins are present and the balance is at least the cost; Shortfall and RedeemableFirst are stated in its terms |
| RewardsPage.SortedRewards | src/pages/RewardsPage.tsx:134 | a new list, sorted by ascending cost and a permutation of the rewards |
| RewardsPage.RedeemableFirst | src/pages/RewardsPage.tsx:134 | on the sorted page no redeemable reward follows a locked one |
| RewardsPage.StatusOf | src/pages/RewardsPage.tsx:269 | Used exactly when used; Expired exactly when unused and expired; Active otherwise |
| RewardsPage.UseDisabled | src/pages/RewardsPage.tsx:319 | the use button is disabled exactly when the status is not Active |
| RewardsPage.IsExpired | src/pages/RewardsPage.tsx:250 | expired exactly when an expiry date exists and lies before now; ExpiryIsPermanent and StatusOf are stated in its terms |
| RewardsPage.ExpiryIsPermanent | src/pages/RewardsPage.tsx:250 | an expired reward stays expired later; one with no expiry date never expires |
| RewardsPage.RedeemDialog.constructor | src/pages/RewardsPage.tsx:26-31 | the dialog starts closed, idle, with no selection, error or success |
| RewardsPage.RedeemDialog.CoinsChanged | src/pages/RewardsPage.tsx:58-62 | the shown balance follows the coins when they are present, and nothing else changes |
| RewardsPage.RedeemDialog.OpenRedeemDialog | src/pages/RewardsPage.tsx:64-69 | opens the dialog on the reward and clears the success flag and the error |
| RewardsPage.RedeemDialog.BeginRedeem | src/pages/RewardsPage.tsx:71-78 | nothing happens and no call is made without a selected reward or a user; otherwise the dialog turns busy, its error is cleared, and the selected reward is redeemed |
| RewardsPage.RedeemDialog.FinishRedeem | src/pages/RewardsPage.tsx:78-122 | busy ends false on every path; on success the shown balance becomes start minus cost (when shown) and user data and rewards are refreshed; a failure shows its message; an exception shows the generic message |
| RewardsPage.RedeemExactBalance | src/pages/RewardsPage.tsx:64-122 | for any reward, the coins returned hold exactly its cost and pass the eligibility check that enables the redeem button (equality is enough, src/pages/RewardsPage.tsx:161); when the server accepts the redemption, the dialog shows success, a balance of 0 and no error |
| Dashboard.StillToEarn | src/pages/DashboardPage.tsx:113-114 | exactly the rewards costing more than the balance |
| Dashboard.StillToEarnIsLocked | src/pages/DashboardPage.tsx:114 | the pending rewards are exactly those the rewards page shows locked |
| Dashboard.PendingHead | src/pages/DashboardPage.tsx:118 | the first pending reward after sorting is a reward of the list that the member cannot afford |
| Dashboard.ProgressBelowFull | src/pages/DashboardPage.tsx:119 | balance / cost × 100 is in [0, 100) whenever the balance is below the cost |
| Dashboard.NextRewardFor | src/pages/DashboardPage.tsx:110-136 | the card for a balance and a non-empty reward list; NextRewardWhenPending and NextRewardWhenAllAffordable state both of its cases |
| Dashboard.NextRewardWhenPending | src/pages/DashboardPage.tsx:113-125 | when some reward costs more than the balance, the card shows such a reward of least cost, with progress balance / cost × 100, strictly below 100 |
| Dashboard.NextRewardWhenAllAffordable | src/pages/DashboardPage.tsx:126-133 | when every reward is affordable, the card shows a reward of greatest cost at progress 100 |
| Dashboard.NothingPending | src/pages/DashboardPage.tsx:113-117 | when every reward is affordable, nothing is pending |
| Dashboard.DashboardState.constructor | src/pages/DashboardPage.tsx:24 | the card starts empty |
| Dashboard.DashboardState.RecomputeNextReward | src/pages/DashboardPage.tsx:110-136 | nothing happens without coins or rewards; otherwise the card is the next reward; in the all-affordable case the shared array itself is left sorted by descending cost, and otherwise it is untouched |
| Dashboard.SortByCostDescendingInPlace | src/pages/DashboardPage.tsx:128 | the array ends as its old contents sorted by descending cost |
| ProductsPage.FirstIndex | src/pages/ProductsPage.tsx:12 | the position of the first occurrence |
| ProductsPage.FirstIndexSnoc | src/pages/ProductsPage.tsx:12 | appending does not move a first occurrence |
| ProductsPage.Dedup | src/pages/ProductsPage.tsx:12 | no duplicates, the same values as the input, in order of first occurrence |
| ProductsPage.SeriesOf | src/pages/ProductsPage.tsx:12 | each product's series, position by position |
| ProductsPage.UniqueSeries | src/pages/ProductsPage.tsx:12 | distinct series; a value is listed exactly when some product has it |
| ProductsPage.UniqueSeriesOrder | src/pages/ProductsPage.tsx:12 | the buttons follow the order in which each series first appears |
| ProductsPage.OfSeries | src/pages/ProductsPage.tsx:17 | exactly the products of the series, each with its multiplicity |
| ProductsPage.OfSeriesAppend | src/pages/ProductsPage.tsx:17 | filtering distributes over concatenation, so the original order is kept |
| ProductsPage.FilterBySeries | src/pages/ProductsPage.tsx:15-21 | no selection (null or empty) shows every product; a selection shows exactly its series |
| ProductsPage.SeriesButtonShowsSomething | src/pages/ProductsPage.tsx:12-17 | every non-empty series button shows at least one product |
| LoginPage.LoginErrorCases | src/pages/LoginPage.tsx:39-47 | no error exactly when neither value is blank; a blank email gives 'Email is required' first, then a blank password gives 'Password is required' |
| LoginPage.LoginError | src/pages/LoginPage.tsx:39-47 | the two checks of `handleSubmit` in order; LoginErrorCases states every case |
| LoginPage.EmailCheckedFirst | src/pages/LoginPage.tsx:39-47 | a blank email is reported whatever the password is |
| LoginPage.LoginForm.constructor | src/pages/LoginPage.tsx:13-16 | empty fields, no error, not loading |
| LoginPage.LoginForm.InputChanged | src/pages/LoginPage.tsx:104-120 | exactly the named field takes the typed value; the error and loading flag are kept |
| LoginPage.LoginForm.Submit | src/pages/LoginPage.tsx:35-51 | the error is cleared first; a failed check sets its message, makes no call and leaves loading alone; otherwise loading turns true and `signIn` gets the untrimmed values |
| LoginPage.LoginForm.SignInSettled | src/pages/LoginPage.tsx:53-71 | a service error is shown; success goes to /dashboard; an exception shows the generic message; loading ends false |
| RegisterPage.RegistrationErrorCases | src/pages/RegisterPage.tsx:39-61 | valid exactly when all four checks pass; several failures report the first in order email, password, length (untrimmed, UTF-16), match |
| RegisterPage.RegistrationError | src/pages/RegisterPage.tsx:39-61 | the four checks of `validateForm` in order; RegistrationErrorCases states every case |
| RegisterPage.RegistrationImpliesLogin | src/pages/RegisterPage.tsx:39-48 | details that pass sign-up pass sign-in, and the shared checks give the same messages |
| RegisterPage.AstralPasswordLength | src/pages/RegisterPage.tsx:50 | any three characters outside the Basic Multilingual Plane already meet the 6-unit minimum |
| RegisterPage.RegisterForm.constructor | src/pages/RegisterPage.tsx:13-18 | empty fields, no messages, not loading |
| RegisterPage.RegisterForm.InputChanged | src/pages/RegisterPage.tsx:155-182 | exactly the named field takes the typed value; the messages and loading flag are kept |
| RegisterPage.RegisterForm.ValidateForm | src/pages/RegisterPage.tsx:39-61 | returns true exactly when the details are valid, and otherwise sets the first failure's message |
| RegisterPage.RegisterForm.Submit | src/pages/RegisterPage.tsx:63-81 | both messages are cleared; invalid details never reach `signUp`; valid ones turn loading on and call it |
| RegisterPage.RegisterForm.SignUpSettled | src/pages/RegisterPage.tsx:83-115 | an error is shown; with a session the page goes to /dashboard, without one it shows the verification message; an exception shows the generic message; loading ends false |
| ContactPage.ShownEmail | src/pages/ContactPage.tsx:42 | never empty, and the email itself when one was given |
| ContactPage.RequiredFieldsFilled | src/pages/ContactPage.tsx:29 | name, WhatsApp number and message must be non-empty, the email need not be; HandleSubmit is stated in its terms |
| ContactPage.ContactMessage | src/pages/ContactPage.tsx:41-43 | the inquiry text before encoding; ContactMessageRoundTrip reads its fields back and MessageIgnoresWhatsApp shows the WhatsApp field is not in it |
| ContactPage.ContactUrl | src/pages/ContactPage.tsx:45 | the link to the hard-coded number with the encoded inquiry; ContactUrlRecipient reads both back |
| ContactPage.MessageIgnoresWhatsApp | src/pages/ContactPage.tsx:41-43 | the WhatsApp field never affects the message |
| ContactPage.ContactMessageRoundTrip | src/pages/ContactPage.tsx:41-43 | the message reads back as name, email or 'Not provided', and message text |
| ContactPage.ContactUrlRecipient | src/pages/ContactPage.tsx:45 | the contact link goes to the number the checkout's store number normalises to |
| ContactPage.ContactForm.constructor | src/pages/ContactPage.tsx:10-18 | empty fields, idle, no success |
| ContactPage.ContactForm.InputChanged | src/pages/ContactPage.tsx:20-23 | exactly the named field takes the value |
| ContactPage.ContactForm.HandleSubmit | src/pages/ContactPage.tsx:25-37 | a missing name, WhatsApp number or message raises the alert and changes nothing; otherwise the form turns busy and sending is scheduled with the current values |
| ContactPage.ContactForm.SendTimerFired | src/pages/ContactPage.tsx:37-57 | opens the link for the captured values, empties all four fields, ends busy and shows success |
| ContactPage.ContactForm.SuccessTimerFired | src/pages/ContactPage.tsx:59-61 | only the success message is hidden |
| ProductDetailPage.FindProduct | src/pages/ProductDetailPage.tsx:22 | a product found has the route's id and is in the list; none exactly when the id is not a number or no product has it |
| ProductDetailPage.FindProductIsFirst | src/pages/ProductDetailPage.tsx:22 | the product found is the first one with that id |
| ProductDetailPage.BuyNowText | src/pages/ProductDetailPage.tsx:80 | the product text `${name} (Power: ${power})` of the direct order; BuyNowMessageFields reads it back out of the message |
| ProductDetailPage.BuyNowMessageFields | src/pages/ProductDetailPage.tsx:78-84 | the direct order's message reads back as "name (Power: p)" with three empty customer fields |
| ProductDetailPage.ProductDetail.constructor | src/pages/ProductDetailPage.tsx:17-19 | no power, buy-now not armed, no notification |
| ProductDetailPage.ProductDetail.SelectPower | src/pages/ProductDetailPage.tsx:138 | only the selected power changes |
| ProductDetailPage.ProductDetail.ProductIdChanged | src/pages/ProductDetailPage.tsx:25-27 | the power is cleared and the buy-now step is not |
| ProductDetailPage.ProductDetail.NotificationExpired | src/pages/ProductDetailPage.tsx:30-38 | only the notification is cleared |
| ProductDetailPage.ProductDetail.HandleAddToCart | src/pages/ProductDetailPage.tsx:41-57 | nothing without a product; without a power only the error shows and the cart is untouched; otherwise the pair is added once (total +1) with the success notification |
| ProductDetailPage.ProductDetail.HandleBuyNow | src/pages/ProductDetailPage.tsx:60-72 | without a power the step stays unarmed and the error shows; with one the step is armed |
| ProductDetailPage.ProductDetail.HandleBuyWhatsApp | src/pages/ProductDetailPage.tsx:75-87 | nothing without a product or power; otherwise the link for "name (Power: p)" to the store number with empty customer fields |
| ProductDetailPage.ProductDetail.ClickBuyButton | src/pages/ProductDetailPage.tsx:60-87 | an unarmed button opens nothing and runs only the first step: without a product or power it stays unarmed, with the 'Please select a power first' error when a product but no power is given; otherwise it is armed and the notification is kept; an armed one opens the WhatsApp link and keeps the notification |
| ProductDetailPage.BuyNowTwoClicks | src/pages/ProductDetailPage.tsx:60-87 | with a power picked, the first click opens nothing and the second opens the store link |

## Left out

- The server-side coin ledger procedures (`add_coins`, `handle_first_login_bonus`, `redeem_reward`, src/types/database.types.ts:281-303). Only their signatures are available. The redemption call's reply is a parameter of `RedeemReward`.
- src/contexts/AuthContext.tsx, src/hooks/useSupabase.ts and src/lib/supabase.ts. These are session and network plumbing over a foreign client. The user, the coins and every query answer enter the model as parameters.
- The cart's localStorage persistence and JSON parsing (src/contexts/CartContext.tsx:25-40). This is I/O.
- `encodeURIComponent` (section 2.1 of RFC 3986 percent-encoding). It is an opaque parameter, so the round-trip lemmas read the encoded text, not its decoding.
- `Date` parsing and `toLocaleDateString`. Timestamps are integers: an absent expiry date is `None`, and an empty date string is treated as absent.
- `Number(productId)`. The route parameter arrives already converted, with `None` standing for a value that is not a number.
- Timers. Each `setTimeout` callback is a separate step, and clearing the notification timer is not modelled.
- `window.open`, `alert` and navigation. They are returned as values.
- The dashboard's first-login-bonus effect (src/pages/DashboardPage.tsx:62-107), the two-second switch to the "My Rewards" tab (src/pages/RewardsPage.tsx:111-113), confetti, `animateNumber`, coin-float effects and the form-error CSS classes. These are presentation only, from src/lib/animations.ts.
- Header, Footer, HomePage, AboutPage, NotFoundPage, ProfilePage and App. These are presentation and routing with no rules.
- The type-only files. They are used only as the source of the datatypes.
- Members.SortByCost: stability is not proved. The insertion sort keeps rewards of equal cost in input order, as JavaScript's stable `sort` does, but only sortedness and permutation are stated. The dashboard shows `[0].name` of a sorted list (src/pages/DashboardPage.tsx:118 and :128), so among rewards of equal cost the model does not fix which name is shown.
- RewardsContext.AnswersActiveByCost: the order among rewards of equal cost is the database's, so the query answer is specified only up to that order.
- Cart.CartStore.AddItem: models the updater with value semantics. The shared-object behaviour at src/contexts/CartContext.tsx:53 is captured only in `CartAliasing`.
- RewardsPage.RedeemDialog.FinishRedeem: the intermediate states while `refreshUserData` and `refreshRewards` are awaited are not modelled. The refreshes are returned as effects.
- RewardsContext.RedeemReward: the refreshes after a `true` reply are returned as effects, and their results are not awaited inside the model.
- JavaScript numbers are IEEE doubles (src/types/members.types.ts:14 and :33); the model uses unbounded `int`, `nat` and exact `real`. Cart.TotalAfterAdd's exact +1 fails in JavaScript beyond 2^53, `${q}` switches to exponent notation from 1e21 (IntToDecimal does not), and fractional quantities, costs or ids are not modelled.
- Members.CoinBalance: `balance` is a `nat`, so a negative balance, which the type allows, is excluded. Dashboard.ProgressBelowFull's `0 <= progress` and the division by a pending reward's cost (which is then above a non-negative balance) rest on it.
- Concurrency between overlapping asynchronous calls is not modelled. Each call settles before the next begins.

## Findings

| source | as written | input that shows it | evidently intended | confidence | as-written member | corrected member |
|---|---|---|---|---|---|---|
| src/contexts/CartContext.tsx:53 | `addItem`'s state updater copies the list but increments `quantity` on the shared element object, changing the previous state too; under React StrictMode (src/main.tsx:10) development builds call the updater twice on the same state | a cart with one entry of quantity 1; `addItem` with the same product and power once gives quantity 3 | one add raises the quantity by exactly 1, giving 2 | medium, not executed (StrictMode double invocation applies to development builds only) | CartAliasing.StrictModeCounterexample | Cart.TotalAfterAdd |
