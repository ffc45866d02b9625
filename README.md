# PaySphere in Dafny

PaySphere is a single-page React application for a mock payment account.
A mock authentication service keeps the session in the browser's key-value
store. A module-level array holds the ledger of transfers (newest first), and
two mock payment actions put new transfers in front of it. Five pages work over
that state:

- the dashboard shows counts, totals, the five latest entries and a greeting;
- the payments page has search and filters, plus send and request dialogs;
- the analytics page shows totals, an average, and spending by category with its chart entries and shares;
- the sign-up page has per-field validation and a password-strength meter;
- the settings page holds the profile, security and notification forms.

The root component keeps the theme and the session. It decides, for each
path, whether to render a page or redirect.

This project models that core and proves properties of it:

| file | module | models |
|---|---|---|
| `sequences.dfy` | `Sequences` | the order-preserving subsequence relation that states what the pages' filters keep |
| `js_string.dfy` | `JsString` | the string built-ins used: ASCII `toLowerCase`/`toUpperCase`, `includes`, `trim`, `split(sep)[0]`, and `length` in UTF-16 code units |
| `mock_data.dfy` | `MockData` | the seed data; `mockAuth` over a `Storage` object whose `items` map is the key-value store; `mockPaymentActions` over a `Ledger` object whose `transactions` is the shared array |
| `app.dfy` | `App` | the route table (pure) and the root component's session and theme state (class `AppComponent`) |
| `payments.dfy` | `Payments` | the filter and the empty-state hint (pure); the page state and its send/request handlers (class `PaymentsPage`) |
| `analytics.dfy` | `Analytics` | the totals, the average and the `categorySpending` fold, the chart entries and the shares (pure) |
| `dashboard.dfy` | `Dashboard` | the status counts, the recent list and the greeting name (pure) |
| `signup.dfy` | `Signup` | password strength and field checks (pure); `validateForm`, `handleChange` and the submit gate (class `SignupPage`) |
| `settings.dfy` | `Settings` | the settings page's state and handlers (class `SettingsPage`) |

Conventions:

- Money is in integer cents: 150.00 is `15000`.
- The transaction field `type` is called `kind`.
- An empty `category` models a missing one. `t.category || "other"` treats both the same.
- The ledger array is one `Ledger` object shared by the payment actions and the pages. A page's copy of the ledger is a field of that page.
- `categorySpending` is a JavaScript object filled by a `reduce`. It is modelled as a sequence of (key, value) pairs in insertion order. That order is the order `Object.entries` yields, and `categoryData` colours entries by that position.
- A Dafny `string` is a sequence of Unicode characters, while JavaScript's `length` counts UTF-16 code units. `JsString.Utf16Length` counts a character beyond U+FFFF twice, and every length check of the source is stated with it.
- Values the source reads from the environment are parameters:
  - `Date.now()` and today's date become `id` and `date`;
  - `parseFloat` of the amount field becomes `parsedAmount`, in cents;
  - the stored theme becomes `storedTheme`.

`Settings.SettingsPage.HandleProfileSave` only shows a notice. It has no `modifies` clause, so the verifier itself guarantees that it changes no state; it returns the notice's title.

## Model

| member | source | states |
|---|---|---|
| `JsString.LowerChar` | frontend/src/pages/Payments.js:48 | the result is never upper case; an upper-case letter moves down by 32; every other character is kept |
| `JsString.UpperChar` | frontend/src/pages/Analytics.js:58 | the result is never lower case; a lower-case letter moves up by 32; every other character is kept |
| `JsString.ToLowerCase` | frontend/src/pages/Payments.js:48-49 | the length is kept and each character is lower-cased in place |
| `JsString.ToLowerCaseIdempotent` | frontend/src/pages/Payments.js:48-49 | lower-casing twice equals lower-casing once |
| `JsString.Includes` | frontend/src/pages/Payments.js:48-49 | `includes`, by recursion on the text (a predicate: its meaning is `JsString.IncludesAt`) |
| `JsString.IncludesAt` | frontend/src/pages/Payments.js:48-49 | `includes` holds exactly when the substring occurs at some index |
| `JsString.TrimStart` | frontend/src/pages/Signup.js:30-32 | the result is a suffix of the input; only whitespace was removed; it does not start with whitespace |
| `JsString.TrimEnd` | frontend/src/pages/Signup.js:30-32 | the result is a prefix of the input; only whitespace was removed; it does not end with whitespace |
| `JsString.Trim` | frontend/src/pages/Signup.js:30-32 | `trim` is `TrimStart` followed by `TrimEnd` (a composition: its meaning is those two and `JsString.TrimEmptyIffBlank`) |
| `JsString.TrimEmptyIffBlank` | frontend/src/pages/Signup.js:30 | a string trims to nothing exactly when every character of it is whitespace |
| `JsString.Utf16Length` | frontend/src/pages/Signup.js:108-111 | `length` lies between the number of characters and twice that, and is 0 exactly for the empty string |
| `JsString.Utf16LengthAppend` | frontend/src/pages/Signup.js:109-111 | the length of two strings joined is the sum of their lengths |
| `JsString.Utf16LengthBmp` | frontend/src/pages/Signup.js:44 | for characters up to U+FFFF, `length` is the number of characters |
| `JsString.SplitHead` | frontend/src/pages/Dashboard.js:108 | the result is a prefix of the input with no separator in it, and it stops only at a separator or at the end |
| `MockData.IsAuthenticated` | frontend/src/data/mockData.js:144-146 | authenticated exactly when the text "true" is stored under "isAuthenticated" (a predicate: its body is its definition) |
| `MockData.GetCurrentUser` | frontend/src/data/mockData.js:148-151 | a user is returned exactly when a user record is stored under "user", and it is that record |
| `MockData.Login` | frontend/src/data/mockData.js:121-129 | success exactly for the demo e-mail and password: the flag and `mockUser` are written and every other key is kept; otherwise "Invalid credentials" and the store is unchanged; after a success the store reads back as authenticated with that user |
| `MockData.Signup` | frontend/src/data/mockData.js:131-137 | always succeeds; the user is `mockUser` with only name and e-mail replaced; it is stored and reads back |
| `MockData.Logout` | frontend/src/data/mockData.js:139-142 | removes exactly the two session keys; then not authenticated and no current user |
| `MockData.LogoutTwice` | frontend/src/data/mockData.js:139-142 | logging out twice leaves the store that logging out once leaves |
| `MockData.Ledger.constructor` | frontend/src/data/mockData.js:12-93 | the ledger starts as the eight seed transfers |
| `MockData.SentTransaction` | frontend/src/data/mockData.js:156-165 | the record `sendPayment` builds: type "sent", status "completed", category "personal", the given recipient, amount and description (a definition) |
| `MockData.RequestedTransaction` | frontend/src/data/mockData.js:173-182 | the record `requestPayment` builds: type "received", status "pending", category "personal" (a definition) |
| `MockData.SendPayment` | frontend/src/data/mockData.js:155-170 | succeeds; the new transfer is sent, completed and "personal", with recipient and description kept; it is put at index 0; the length grows by one; and old entry i is now at i+1 |
| `MockData.RequestPayment` | frontend/src/data/mockData.js:172-186 | as `SendPayment`, with a received, pending transfer |
| `App.PageAt` | frontend/src/App.js:89-116 | the page the table mounts at a guest or member path, which sits at that path |
| `App.Home` | frontend/src/App.js:89-116 | "/dashboard" exactly when signed in, else "/login"; always a path the table renders in that state |
| `App.RouteElement` | frontend/src/App.js:89-116 | member paths render exactly when authenticated and guest paths exactly when not; "/" redirects home; a rendered page sits at the requested path; every redirect goes home; nothing matches exactly outside the seven paths |
| `App.RedirectLandsOnPage` | frontend/src/App.js:89-116 | the target of any redirect renders a page in the same state, so redirects never chain or loop |
| `App.InitialTheme` | frontend/src/App.js:20-22 | the stored non-empty theme, else "light" |
| `App.ToggledTheme` | frontend/src/App.js:66-68 | always "light" or "dark"; "dark" exactly when the input was "light" |
| `App.ToggleTwice` | frontend/src/App.js:66-68 | toggling twice restores "light" and "dark" |
| `App.AppComponent.constructor` | frontend/src/App.js:19-25 | the first render: not authenticated, no user, the stored theme or "light"; the store is not touched |
| `App.AppComponent.RestoreSession` | frontend/src/App.js:33-40 | the flag is read back from the store; the stored user is taken exactly when it says "true", otherwise the user is kept; from a first render the state is then in step with the store |
| `App.Mount` | frontend/src/App.js:19-40 | first render then restore: authenticated exactly when the stored flag is "true", with the stored user only then, in step with the store |
| `App.ReloadLosesDeepLink` | frontend/src/App.js:19-116 | with a stored session, reloading a member page other than the dashboard first redirects to "/login" and, once restored, on to "/dashboard", which renders: the page asked for is not shown |
| `App.AppComponent.Login` | frontend/src/App.js:42-49 | success exactly for the demo credentials: signed in as `mockUser`, the store holds exactly the two session keys written over its old contents, in step with the component; a failure changes nothing and returns "Invalid credentials" |
| `App.AppComponent.Signup` | frontend/src/App.js:51-58 | signed in as the renamed seed user; the store gains exactly the two session keys and keeps every other key; in step with the component |
| `App.AppComponent.Logout` | frontend/src/App.js:60-64 | from any state: signed out, no user, the two keys removed, in step with the store |
| `App.AppComponent.ToggleTheme` | frontend/src/App.js:66-68 | the theme becomes its toggled value |
| `App.SignupSurvivesRestart` | frontend/src/App.js:33-58 | from any store contents, after a sign-up a fresh mount restores the signed-up user |
| `App.LogoutSurvivesRestart` | frontend/src/App.js:33-64 | after a logout, a fresh mount comes back signed out |
| `App.WrongPasswordStaysSignedOut` | frontend/src/App.js:42-49 | a wrong password on a fresh start fails and leaves the session signed out |
| `Payments.MatchesSearch` | frontend/src/pages/Payments.js:47-49 | the search text occurs, ignoring case, in the recipient or the description (a predicate: its body is its definition; see `Payments.SearchIgnoresCase`) |
| `Payments.Matches` | frontend/src/pages/Payments.js:46-55 | the filter callback: search, status and type conditions joined by "and" (a predicate: its body is its definition) |
| `Payments.Filtered` | frontend/src/pages/Payments.js:46-55 | the result is an order-preserving subsequence of the ledger; everything in it matches search, status and type; each match appears as often as in the ledger |
| `Payments.FilterKeepsMatchingList` | frontend/src/pages/Payments.js:46-55 | a list that matches throughout comes through the filter unchanged |
| `Payments.FilterIdempotent` | frontend/src/pages/Payments.js:46-55 | filtering the filtered list again changes nothing |
| `Payments.FilterNothingShowsAll` | frontend/src/pages/Payments.js:27-29 | the initial settings (no search, "all", "all") show the whole ledger in order |
| `Payments.SearchIgnoresCase` | frontend/src/pages/Payments.js:47-49 | the search does not depend on the case of the search text |
| `Payments.EmptyStateHint` | frontend/src/pages/Payments.js:350-352 | "Try adjusting…" exactly when any search or filter is set, else "Start by sending…" |
| `Payments.StartHintMeansEmptyLedger` | frontend/src/pages/Payments.js:350-352 | "Start by sending your first payment" under an empty list means the ledger itself is empty |
| `Payments.RequiredFilled` | frontend/src/pages/Payments.js:60 | the handlers' guard: recipient and amount both non-empty (a predicate: its body is its definition) |
| `Payments.PaymentsPage.constructor` | frontend/src/pages/Payments.js:26-41 | the page starts with the ledger, no search, both filters "all", dialogs closed and blank forms |
| `Payments.PaymentsPage.FilteredTransactions` | frontend/src/pages/Payments.js:46-55 | the page shows an order-preserving subsequence of its list; everything shown matches the current search and filters, and every matching transfer is shown |
| `Payments.PaymentsPage.HandleSendPayment` | frontend/src/pages/Payments.js:57-93 | the corrected handler (see "## Findings"; the code as written is `Payments.PrependAsWritten`): a missing recipient or amount changes nothing; otherwise the sent transfer is put in front of both the ledger and the page list, the form is cleared and the dialog closed; filters and the other dialog are kept; a page list that equals the ledger still equals it afterwards |
| `Payments.PaymentsPage.HandleRequestPayment` | frontend/src/pages/Payments.js:95-131 | the corrected handler, as `HandleSendPayment`, for the request dialog and a pending incoming request |
| `Payments.PrependAsWritten` | frontend/src/pages/Payments.js:70-77 | the handlers as written: the ledger gains the transfer in front, and the page list becomes that transfer followed by the page's list read after the ledger grew |
| `Payments.FirstSendShowsTransactionTwice` | frontend/src/pages/Payments.js:26-77 | as written, the first send after mount shows the new transfer twice and no longer equals the ledger |
| `Payments.LaterSendsPrependOnce` | frontend/src/pages/Payments.js:77 | once the page holds its own array, a send adds the transfer once |
| `Analytics.SumAmounts` | frontend/src/pages/Analytics.js:38 | the `reduce` sum of the amounts (a definition; see `Analytics.SumAmountsAppend`) |
| `Analytics.SumAmountsAppend` | frontend/src/pages/Analytics.js:38 | the sum over two joined lists is the sum of the two sums |
| `Analytics.Where` | frontend/src/pages/Analytics.js:37 | an order-preserving subsequence of the ledger; a transfer is kept exactly when it is in the ledger with the given type and status, and as often as in the ledger |
| `Analytics.WhereBounded` | frontend/src/pages/Analytics.js:36-42 | with no negative amounts, a filtered sum lies between 0 and the whole sum |
| `Analytics.TotalSpent` | frontend/src/pages/Analytics.js:36-38 | 0 for no transfers; with no negative amounts, between 0 and the sum of all amounts |
| `Analytics.TotalReceived` | frontend/src/pages/Analytics.js:40-42 | 0 for no transfers; with no negative amounts, between 0 and the sum of all amounts |
| `Analytics.TotalsOfPrepend` | frontend/src/pages/Analytics.js:36-42 | a transfer put in front adds its amount to the one total it belongs to, and to no other |
| `Analytics.SendRaisesTotalSpent` | frontend/src/pages/Analytics.js:36-42 | a sent payment raises `totalSpent` by its amount and leaves `totalReceived` alone |
| `Analytics.RequestLeavesTotals` | frontend/src/pages/Analytics.js:36-42 | a pending request changes neither total |
| `Analytics.LedgerSumSplits` | frontend/src/pages/Analytics.js:36-46 | with well-formed types and statuses, the ledger sum equals both totals plus the two pending sums |
| `Analytics.AvgTransactionAmount` | frontend/src/pages/Analytics.js:44-46 | 0 for no transfers; else the average times the count equals the sum |
| `Analytics.CategoryOf` | frontend/src/pages/Analytics.js:52 | never empty: the category when there is one, else "other" |
| `Analytics.Accumulate` | frontend/src/pages/Analytics.js:52-54 | the accumulator grows by one entry exactly for a new key, added at the end with the amount; existing keys keep their places |
| `Analytics.AccumulateStep` | frontend/src/pages/Analytics.js:52-54 | one accumulation adds the key, keeps keys distinct, adds the amount to the sum and to that key only |
| `Analytics.Tally` | frontend/src/pages/Analytics.js:51-55 | the `reduce` over the transfers, one `Accumulate` per transfer, left to right (a definition: its meaning is `TallySum`, `TallyKeys` and `TallyAmount`) |
| `Analytics.TallySum` | frontend/src/pages/Analytics.js:49-55 | the fold's values sum to the starting sum plus the transfers' amounts |
| `Analytics.TallyKeys` | frontend/src/pages/Analytics.js:49-55 | the fold's keys are the starting keys plus the transfers' categories, still distinct |
| `Analytics.TallyAmount` | frontend/src/pages/Analytics.js:49-55 | each key's value is its starting value plus the amounts of that category's transfers |
| `Analytics.CategorySpending` | frontend/src/pages/Analytics.js:36-55 | the keys are exactly the categories (missing ones as "other") of completed sent transfers, each once, and the values add up to `totalSpent` |
| `Analytics.CategorySpendingAmount` | frontend/src/pages/Analytics.js:49-55 | each key's value is the sum of that category's completed sent transfers |
| `Analytics.SendAddsToPersonal` | frontend/src/pages/Analytics.js:49-55 | a sent payment adds its amount to "personal" and changes no other category |
| `Analytics.InCategoryBounded` | frontend/src/pages/Analytics.js:49-55 | with non-negative amounts, a category's sum lies between 0 and the whole sum |
| `Analytics.CategoryAtMostTotal` | frontend/src/pages/Analytics.js:265-266 | with non-negative amounts, each category's value lies between 0 and `totalSpent` |
| `Analytics.Percentage` | frontend/src/pages/Analytics.js:266 | for a non-zero total, the share times the total is the amount times 100, and it lies in 0..100 when the amount is within the total |
| `Analytics.SharesAreDefined` | frontend/src/pages/Analytics.js:265-266 | with positive amounts, any category shown means `totalSpent` > 0, and every share lies in 0..100 |
| `Analytics.Capitalize` | frontend/src/pages/Analytics.js:58 | the length is kept; only the first character changes, to its upper-case form |
| `Analytics.CapitalizeIdempotent` | frontend/src/pages/Analytics.js:58 | capitalising twice is capitalising once |
| `Analytics.ColorAt` | frontend/src/pages/Analytics.js:60 | the palette colour at the index, or "#8b5cf6" past its end |
| `Analytics.CategoryDataFrom` | frontend/src/pages/Analytics.js:57-61 | one entry per key, in order, with capitalised name, unchanged amount and the colour of its position |
| `Analytics.CategoryData` | frontend/src/pages/Analytics.js:57-61 | one entry per key, in order: capitalised name, unchanged amount, the palette colour of its index |
| `Analytics.CategoryDataTotal` | frontend/src/pages/Analytics.js:57-61 | the chart has one slice per category, and the slices add up to `totalSpent` |
| `Analytics.TotalsUnrolled` | frontend/src/pages/Analytics.js:36-42 | both totals of any ledger equal their index-by-index sums |
| `Analytics.SeedTotals` | frontend/src/pages/Analytics.js:36-42 | on the seed ledger, 291.93 spent and 520.50 received |
| `Dashboard.CountStatus` | frontend/src/pages/Dashboard.js:23-24 | the count is at most the number of transfers |
| `Dashboard.CountStatusExtremes` | frontend/src/pages/Dashboard.js:23-24 | the count is 0 exactly when no transfer has the status, and the full length exactly when all do |
| `Dashboard.CountStatusAppend` | frontend/src/pages/Dashboard.js:23-24 | counting over joined lists adds the counts |
| `Dashboard.CompletedPayments` | frontend/src/pages/Dashboard.js:23 | at most the number of transfers; 0 exactly when none is completed, all exactly when every one is |
| `Dashboard.PendingPayments` | frontend/src/pages/Dashboard.js:24 | at most the number of transfers; 0 exactly when none is pending, all exactly when every one is |
| `Dashboard.CountsCoverLedger` | frontend/src/pages/Dashboard.js:23-24 | when every status is completed or pending, the completed and pending counts sum to the ledger length |
| `Dashboard.SeedCounts` | frontend/src/pages/Dashboard.js:23-24 | the seed ledger has 7 completed and 1 pending transfer |
| `Dashboard.RecentTransactions` | frontend/src/pages/Dashboard.js:32 | the first min(5, n) transfers, in ledger order |
| `Dashboard.RecentAfterPrepend` | frontend/src/pages/Dashboard.js:32 | after a prepend, the new transfer is first, followed by the first four before it |
| `Dashboard.SendShowsOnDashboard` | frontend/src/pages/Dashboard.js:23-32 | after a send: first in the recent list, one more completed, same pending, `totalSent` up by the amount, `totalReceived` unchanged |
| `Dashboard.RequestShowsOnDashboard` | frontend/src/pages/Dashboard.js:23-32 | after a request: first in the recent list, one more pending, same completed, both totals unchanged |
| `Dashboard.GreetingName` | frontend/src/pages/Dashboard.js:108 | nothing without a user; else the name's prefix before its first space, or the whole name |
| `Dashboard.SeedGreeting` | frontend/src/pages/Dashboard.js:108 | the seed user is greeted as "John" |
| `Signup.Mixed` | frontend/src/pages/Signup.js:112 | the three look-aheads: some lower-case letter, some upper-case letter and some digit (a predicate: its body is its definition) |
| `Signup.PasswordStrength` | frontend/src/pages/Signup.js:108-114 | the strength lies in 0..4 and is 0 exactly for the empty password; lengths are UTF-16 code units |
| `Signup.StrengthBands` | frontend/src/pages/Signup.js:109-113 | by `length` in UTF-16 code units: 1 for 1-5, 2 for 6-7; 4 exactly at 8 or more with lower case, upper case and a digit; 3 exactly at 8 or more without that mix |
| `Signup.ThreeEmojiAreFair` | frontend/src/pages/Signup.js:109-111 | three characters beyond U+FFFF are six code units, so the strength is 2, not 1 |
| `Signup.StrengthGrowsWithTyping` | frontend/src/pages/Signup.js:108-114 | appending a character never lowers the strength |
| `Signup.EmailShaped` | frontend/src/pages/Signup.js:38 | `\S+@\S+\.\S+` matches somewhere: an `@` and a later `.` with non-blank runs before, between and after (a predicate: its meaning is `Signup.EmailShapedIntro`) |
| `Signup.EmailShapedIntro` | frontend/src/pages/Signup.js:38 | any match of `\S+@\S+\.\S+`, with runs of any length, counts as a match of the model |
| `Signup.DemoEmailShaped` | frontend/src/pages/Signup.js:38 | the demo address passes the e-mail pattern |
| `Signup.NoAtMeansInvalidEmail` | frontend/src/pages/Signup.js:38 | an address without "@" never passes |
| `Signup.NameError` | frontend/src/pages/Signup.js:30-34 | no error exactly when the trimmed name is two or more UTF-16 code units long; "Name is required" exactly when the trimmed name is empty |
| `Signup.OneEmojiIsLongEnoughName` | frontend/src/pages/Signup.js:30-34 | a single character beyond U+FFFF already passes the two-character minimum |
| `Signup.EmailError` | frontend/src/pages/Signup.js:36-40 | no error exactly for a non-empty address of the pattern; "Email is required" exactly for the empty one |
| `Signup.PasswordError` | frontend/src/pages/Signup.js:42-46 | no error exactly at six or more UTF-16 code units; "Password is required" exactly for the empty one |
| `Signup.ConfirmError` | frontend/src/pages/Signup.js:48-52 | no error exactly for a non-empty, equal confirmation; "Please confirm your password" exactly when it is empty |
| `Signup.FormValid` | frontend/src/pages/Signup.js:27-55 | every field passes its check (a predicate: its meaning is `Signup.ValidFormMeans`) |
| `Signup.ValidFormMeans` | frontend/src/pages/Signup.js:27-56 | valid exactly when the trimmed name has 2 or more UTF-16 code units, the e-mail matches, the password has 6 or more and is typed twice the same; a valid e-mail contains "@" |
| `Signup.MismatchReported` | frontend/src/pages/Signup.js:48-52 | a non-empty, different confirmation yields "Passwords do not match" and an invalid form |
| `Signup.AddError` | frontend/src/pages/Signup.js:30-52 | one `if` of `validateForm`: a failed check enters its message under the field, a passed one leaves the dictionary as it was |
| `Signup.ErrorsOf` | frontend/src/pages/Signup.js:27-53 | the dictionary `validateForm` builds, one field check after another (its meaning is stated by `Signup.ErrorsOfMeans`) |
| `Signup.WithErrorsChain` | frontend/src/pages/Signup.js:28-53 | the four conditional assignments give an entry exactly for each failed check, holding its message, and nothing exactly when all pass |
| `Signup.ErrorsOfMeans` | frontend/src/pages/Signup.js:27-56 | the error dictionary has an entry exactly for each failing field, holding its first failing message, and is empty exactly for a valid form |
| `Signup.SignupPage.constructor` | frontend/src/pages/Signup.js:12-21 | empty form, no errors, passwords hidden, not loading |
| `Signup.SignupPage.ValidateForm` | frontend/src/pages/Signup.js:27-56 | the errors are replaced by the dictionary of failing fields; the answer is true exactly when it is empty, that is exactly for a valid form |
| `Signup.SignupPage.HandleChange` | frontend/src/pages/Signup.js:92-106 | only the named field takes the value; only that field's error is blanked, and only if it held a message |
| `Signup.SignupPage.ToggleShowPassword` | frontend/src/pages/Signup.js:195 | flips the password visibility |
| `Signup.SignupPage.ToggleShowConfirmPassword` | frontend/src/pages/Signup.js:247 | flips the confirmation visibility |
| `Signup.SignupPage.HandleSubmit` | frontend/src/pages/Signup.js:58-90 | `signup` runs exactly for a valid form and then signs in the typed name and e-mail, with exactly the two session keys written to the store; an invalid form leaves the session and the store untouched; the error dictionary is the validation's |
| `Settings.InitialProfile` | frontend/src/pages/Settings.js:35-40 | the user's name and e-mail, or empty text without a user; the default phone and bio |
| `Settings.SecurityAfterSave` | frontend/src/pages/Settings.js:72-92 | a mismatch keeps the form; a match, including both empty, clears all three fields |
| `Settings.SecuritySaveIdempotent` | frontend/src/pages/Settings.js:72-92 | saving again after a save changes nothing |
| `Settings.SettingsPage.constructor` | frontend/src/pages/Settings.js:30-63 | the initial profile, blank security form, hidden passwords, the six default preferences, two-factor off |
| `Settings.SettingsPage.HandleProfileSave` | frontend/src/pages/Settings.js:65-70 | changes no state (no `modifies`); the notice is titled "Profile updated" |
| `Settings.SettingsPage.HandleSecuritySave` | frontend/src/pages/Settings.js:72-92 | saves exactly when new and confirmation agree, and then clears the form; otherwise the form is unchanged |
| `Settings.SettingsPage.HandleNotificationChange` | frontend/src/pages/Settings.js:94-104 | the key takes the value; every other preference is kept; the six keys stay the six keys |
| `Settings.SettingsPage.ToggleShowCurrent` | frontend/src/pages/Settings.js:252 | flips only the current-password flag |
| `Settings.SettingsPage.ToggleShowNew` | frontend/src/pages/Settings.js:273 | flips only the new-password flag |
| `Settings.SettingsPage.ToggleShowConfirm` | frontend/src/pages/Settings.js:294 | flips only the confirmation flag |
| `Settings.SettingsPage.SetTwoFactor` | frontend/src/pages/Settings.js:318 | the switch's value becomes the two-factor flag |
| `Settings.SettingsPage.SetProfileName` | frontend/src/pages/Settings.js:179 | only the profile name changes |
| `Settings.SettingsPage.SetProfileEmail` | frontend/src/pages/Settings.js:188 | only the profile e-mail changes |
| `Settings.SettingsPage.SetProfilePhone` | frontend/src/pages/Settings.js:196 | only the profile phone changes |
| `Settings.SettingsPage.SetProfileBio` | frontend/src/pages/Settings.js:204 | only the profile bio changes |
| `Settings.SettingsPage.SetCurrentPassword` | frontend/src/pages/Settings.js:244 | only the current password changes |
| `Settings.SettingsPage.SetNewPassword` | frontend/src/pages/Settings.js:265 | only the new password changes |
| `Settings.SettingsPage.SetConfirmPassword` | frontend/src/pages/Settings.js:286 | only the confirmation changes |
| `Settings.MatchingPasswordsClearForm` | frontend/src/pages/Settings.js:82-91 | typing one new password twice and saving leaves a blank security form |
| `Settings.OneSwitchOnFreshPage` | frontend/src/pages/Settings.js:54-98 | any one of the six switches on a fresh page changes that preference only and keeps the six keys |

## Left out

- Rendering is not modelled: JSX, toasts, dialogs' markup, icons, the recharts charts and the `StatCard`/`TransactionItem` components.
- `frontend/src/components/DashboardLayout.js` is navigation chrome and is not part of this model.
- The random "received" series and the static `mockChartData` month and balance series are not modelled. They are synthetic, and the first is nondeterministic.
- `Date.now()` and `new Date()` are parameters (`id`, `date`). The code does not make ids unique, and the model claims no uniqueness.
- Floating point is left out: amounts are integer cents, and `parseFloat` of the amount field is the parameter `parsedAmount`. `toFixed`, `toLocaleString` and rounding of the shares are not modelled. The average and the shares are exact rationals.
- The key-value store is a map. JSON serialisation is identity on `User` records. A plain-text value stored under "user" reads back as no user; the source would hand it to `JSON.parse`, which this model does not have.
- Writing the theme to the store and setting the document's `dark` class (frontend/src/App.js:27-31) are I/O and are not modelled. The stored theme enters as the parameter `storedTheme`.
- `async`/`await` on the handlers is left out, since nothing runs concurrently. The `try`/`catch` error toasts are also left out: the mock actions never throw.
- `Signup.SignupPage.HandleSubmit`: navigating to "/dashboard" and the toasts are not modelled. The `result.success` branch is always taken, because sign-up always succeeds.
- `App.RouteElement`: react-router's case-insensitive and trailing-slash matching are not modelled. Paths are compared exactly.
- `App.AppComponent.RestoreSession`: the effect runs once, after the first render; `App.Mount` and `App.ReloadLosesDeepLink` show the two steps. React's effect scheduling itself is not modelled: the order (the redirect's effect before the root's) is written into `App.ReloadLosesDeepLink`.
- `JsString.ToLowerCase`, `JsString.UpperChar`: case mapping covers ASCII letters only, not Unicode.
- `JsString.TrimStart`, `JsString.TrimEnd`: trimming and the `\S` of the e-mail pattern treat only the ASCII whitespace characters as whitespace.
- `Signup.StrengthBands`: the look-aheads `(?=.*[a-z])` and the others are modelled as "the password contains such a character anywhere". The regex `.` does not cross line terminators, and a password containing one is not distinguished.
- `Analytics.Percentage`: a zero `totalSpent` would give NaN in the source. The function requires a non-zero total, and `Analytics.SharesAreDefined` shows that any shown category has one when amounts are positive.
- `Analytics.Accumulate`: JavaScript puts integer-like keys ("1", "42") first in an object, whatever the insertion order. The model keeps plain insertion order, which is exact for the category names the code produces. Category names that are members of `Object.prototype` ("constructor", "toString", "valueOf", "hasOwnProperty", "__proto__", …) are not modelled either: for them the source starts from the inherited value, so the entry becomes a string and `toFixed` at frontend/src/pages/Analytics.js:280 throws, or, for "__proto__", no key is created. The code never produces such a name: the seed transfers use ordinary categories and new transfers get "personal".
- The code checks neither that an amount is positive nor that ids are unique; any `parsedAmount` is accepted, and ids are whatever the caller passes.
- `Payments.PaymentsPage.HandleSendPayment`: models the corrected handler, not the code as written; the code as written is `Payments.PrependAsWritten` (see "## Findings").
- `Payments.PaymentsPage.HandleRequestPayment`: models the corrected handler, not the code as written; the code as written is `Payments.PrependAsWritten` (see "## Findings").

## Findings

| source | as written | input that shows it | evidently intended | confidence | as-written member | corrected member |
|---|---|---|---|---|---|---|
| frontend/src/pages/Payments.js:26 | `useState(mockTransactions)` keeps a reference to the very array that `sendPayment`/`requestPayment` `unshift` into (frontend/src/data/mockData.js:168,184). The handler then builds `[result.transaction, ...transactions]` (frontend/src/pages/Payments.js:77,115) from that already-grown array. | Mount the payments page on any ledger `L`, then send one payment `t` with a filled form: the page shows `[t, t] + L` while the ledger is `[t] + L` | the page list gains the new transfer once and stays equal to the ledger | not executed | `Payments.PrependAsWritten`, `Payments.FirstSendShowsTransactionTwice` | `Payments.PaymentsPage.HandleSendPayment`, `Payments.PaymentsPage.HandleRequestPayment` |
