# Storefront core, modelled in Dafny

This project models the logic of a small React storefront with an Express
payment function. It covers:

- the checkout page: card, expiry and CVV formatters, form validation, totals, the local order save, and the submit sequence with its error messages;
- the order service over the browser's storage;
- the order history page: normalisation of stored records, status filter, sorts, status badges, statistics and the expandable row;
- the demo-order utilities;
- the catalogue sidebar and the catalogue page: filters, categories, sorts and the shuffle;
- the home page carousel;
- the sign-in / sign-up form;
- the payment function's two routes.

Browser storage is a class, `LocalStore.LocalStorage`. It holds one order list per `orders_<userId>` key and the `lastOrder` record.

Anything remote or nondeterministic is a parameter of the operation that uses it:

- the Firestore calls, as an oracle reply that succeeds or throws;
- the payment processor's reply;
- the backend's HTTP answer;
- `Date.now()`, `Math.random()` and random id suffixes;
- the authentication context's reply.

Files:

- `js_text.dfy` (`JsText`): the JavaScript string and number behaviour relied on: `\s`, `trim`, `\D`, `toLowerCase`, decimal text and `parseInt`.
- `seqs.dfy` (`Seqs`): `filter`, subsequences and the insertion order of `new Set(...)`.
- `sorting.dfy` (`Sorting`): an in-place, stable sort by a numeric key, standing for `Array.prototype.sort` with a difference comparator.
- `shuffle.dfy` (`Shuffle`): the Fisher-Yates `shuffleArray` shared by two pages.
- `records.dfy` and `local_store.dfy`: the stored order record and browser storage.
- one file per source file:
  - `payment.dfy` and `checkout_page.dfy` for `Payment.jsx`;
  - `order_service.dfy`;
  - `orders.dfy`;
  - `demo_data.dfy`;
  - `sidebar.dfy`;
  - `products.dfy`;
  - `home.dfy`;
  - `auth.dfy`;
  - `payment_server.dfy` for `functions/index.js`.

## Model

| member | source | states |
|---|---|---|
| JsText.TrimEmptyIffBlank | src/pages/Payment/Payment.jsx:93-107 | `trim()` of a string is empty exactly when the string is all whitespace (the `!x.trim()` checks). |
| JsText.RemoveWhitespaceConcat | src/pages/Payment/Payment.jsx:44 | Stripping `\s` distributes over concatenation. |
| JsText.ToLowerIdempotent | src/pages/Orders/Orders.jsx:98 | Lower-casing (of ASCII capitals) keeps the length, leaves no capital, and is idempotent. |
| JsText.ToLowerOfLowercase | src/pages/Orders/Orders.jsx:156 | Text without ASCII capitals is its own lower case. |
| JsText.ParseDecimalRoundTrip | functions/index.js:28 | `parseInt` of the decimal text of any non-negative integer gives that integer back. |
| JsText.ParseIntOfDigits | functions/index.js:28 | A plain digit string has no whitespace or sign for `parseInt` to skip, so it is read as its digits. |
| Seqs.Filter | src/pages/Products/Products.jsx:33 | `filter` keeps exactly the elements satisfying the test, with their multiplicities and in their order (a subsequence). |
| Seqs.FilterFilter | src/pages/Products/Products.jsx:31-51 | Two filters in a row are one filter by the conjunction. |
| Seqs.Distinct | src/pages/Products/Products.jsx:13 | `[...new Set(s)]` has no duplicates and the same elements as `s`. |
| Seqs.DistinctFirstAppearanceOrder | src/pages/Products/Products.jsx:13 | The set lists elements in order of first appearance. |
| Sorting.SortInPlace | src/pages/Orders/Orders.jsx:103-116 | The in-place sort leaves the array sorted by the key and a permutation of the input. An already sorted input is unchanged (stability for the all-equal comparator). |
| LocalStore.OrdersKeyInjective | src/services/orderService.js:63 | Different users get different `orders_<id>` keys. |
| LocalStore.LocalStorage.Prepend | src/services/orderService.js:63-69 | `unshift` and write back: the order goes to the front of that key's list, the rest follows, and no other key changes. |
| LocalStore.LocalStorage.Remove | src/utils/demoData.js:59 | `removeItem`: the key reads as empty afterwards and other keys are unchanged. |
| OrderService.FindById | src/services/orderService.js:94 | `find` yields the first record with that id, or nothing when none has it. |
| OrderService.SaveOrderToLocalStorage | src/services/orderService.js:48-86 | The record goes to the front of the owner's list, and success reports its id with `isFirestore` false. |
| OrderService.SaveOrder | src/services/orderService.js:6-47 | Unconfigured: the local save. A remote write that succeeds reports the document id. A remote write that throws falls back to the local save. |
| OrderService.GetOrder | src/services/orderService.js:88-124 | Local lookup by id, or 'Order not found'. Remote: found, missing or the thrown message. |
| OrderService.GetUserOrders | src/services/orderService.js:126-157 | The stored list (empty when absent), or the remote list, or `success` false with an empty list and the message. |
| OrderService.SaveThenGet | src/services/orderService.js:48-97 | A locally saved order is found again by the id the save returned. |
| PaymentServer.OkAnswers | functions/index.js:23-52 | `GET /` answers 2xx with a message. On `POST /payments/create` the answer is 2xx exactly when it carries a client secret, and exactly when the processor was asked and created the intent. |
| PaymentServer.CreatePayment | functions/index.js:27-52 | Positive total: a USD intent for exactly that many cents, then 201 with the client secret, or 500 with the processor's message. Otherwise 403 'Total must be greater than 0'. |
| PaymentServer.ProcessorCalledIffNotRejected | functions/index.js:30-51 | The processor is called exactly when the answer is not 403. |
| PaymentServer.NonPositiveRejected | functions/index.js:28-30 | A total that does not parse to a positive integer is rejected without calling the processor. |
| PaymentServer.MissingTotalIsNaN | functions/index.js:28 | A missing query parameter parses as NaN and is rejected. |
| PaymentServer.DecimalTotalTruncated | functions/index.js:28 | "12.50" is charged as 12 cents. |
| PaymentServer.HexTotalAccepted | functions/index.js:28 | "0x1f" is charged as 31 cents. |
| Payment.CardFormatIsGrouped | src/pages/Payment/Payment.jsx:44 | The card formatter yields the non-whitespace characters in groups of four joined by single spaces. |
| Payment.CardFormatKeepsCharacters | src/pages/Payment/Payment.jsx:44 | Formatting keeps every non-whitespace character, in order. |
| Payment.CardFormatIdempotent | src/pages/Payment/Payment.jsx:44 | Formatting a formatted card number changes nothing. |
| Payment.CardLengthGuard | src/pages/Payment/Payment.jsx:45 | The `<= 19` guard admits exactly the inputs with at most 16 non-whitespace characters. |
| Payment.ExpiryFormat | src/pages/Payment/Payment.jsx:53 | The expiry formatter keeps the digits and inserts '/' after the month once a third digit exists. |
| Payment.ExpiryFormatIdempotent | src/pages/Payment/Payment.jsx:53 | Formatting a formatted expiry changes nothing. |
| Payment.InputKeepsFieldsAsStored | src/pages/Payment/Payment.jsx:29-76 | Every input keeps the card fields exactly as their formatters store them. |
| Payment.InputChangesOnlyItsField | src/pages/Payment/Payment.jsx:29-76 | An input changes only the field it names (a `billing.` name changes only that address field). |
| Payment.ClearFieldError | src/pages/Payment/Payment.jsx:73-75 | Typing into a field removes that field's error and keeps every other error. |
| Payment.CardErrorNotClearedAsWritten | src/pages/Payment/Payment.jsx:43-48 | As written, a card-number error survives typing into the card number. |
| Payment.ClearingAgreesElsewhere | src/pages/Payment/Payment.jsx:29-76 | For every other input name, the code as written and the corrected clearing agree. |
| Payment.CollectErrors | src/pages/Payment/Payment.jsx:79-108 | The seven checks in order: each failing one adds its message under its key. The result is the errors of all seven. |
| Payment.ValidateForm | src/pages/Payment/Payment.jsx:78-111 | Returns the errors of the failed checks, and valid exactly when there are none. |
| Payment.ValidIffNoErrors | src/pages/Payment/Payment.jsx:78-111 | No error is reported exactly when card ≥ 16 digits, expiry ≥ 5, CVV ≥ 3, and name, street, city and zip are not blank. |
| Payment.ValidStoredFormIsExact | src/pages/Payment/Payment.jsx:43-66 | A valid form whose fields are as stored has exactly 16 card digits, a 5-character expiry and a 3-digit CVV. |
| Payment.Shipping | src/pages/Payment/Payment.jsx:302 | Shipping is free strictly above $50 and $5.99 otherwise. |
| Payment.CheckoutTotals | src/pages/Payment/Payment.jsx:301-304 | The totals keep the subtotal. Shipping follows `Shipping`, tax is 8% of the subtotal, and the total is subtotal + shipping + tax. |
| Payment.AmountInCents | src/pages/Payment/Payment.jsx:170 | `Math.round(total * 100)` is the nearest cent, with halves rounded up. |
| Payment.SmallCartTotals | src/pages/Payment/Payment.jsx:301-304 | A $10 cart costs $16.79, i.e. 1679 cents. |
| Payment.CheckoutAmountAccepted | src/pages/Payment/Payment.jsx:170-186 | The amount the page sends for a non-empty cart is accepted by the server route. |
| Payment.SubmitMessageFollowsTable | src/pages/Payment/Payment.jsx:285-296 | The failure message is chosen by the first matching substring in priority order, else `❌ <message>`. |
| Payment.StorageUserId | src/pages/Payment/Payment.jsx:132-143 | The order owner is the user's id when there is a non-empty one, and 'guest' otherwise. |
| Payment.Last4IsSuffix | src/pages/Payment/Payment.jsx:249 | `slice(-4)` is a suffix of four characters, or the whole of a shorter string. |
| Payment.IntentIdFromServer | src/pages/Payment/Payment.jsx:184-219 | The `pi_` prefix is used exactly when the backend created the intent; otherwise `pi_demo_`. |
| OrderHistory.CheckoutRecordInHistory | src/pages/Payment/Payment.jsx:125-135 | A checkout record shows in the history with its intent id, amount in cents, basket, address, masked card and totals, dated to the second it was saved. The normalisation as written does not throw on it. |
| OrderHistory.ServiceRecordInHistory | src/services/orderService.js:50-77 | A record saved by the order service shows in the history under `order_<suffix>`, with the caller's basket and amount, dated to the second it was saved, shown as Delivered and kept by the 'delivered' filter. The normalisation as written does not throw on it. |
| Payment.SaveCheckoutOrder | src/pages/Payment/Payment.jsx:114-155 | `lastOrder` is written first, then the record goes to the front of the owner's list. A failure returns its message and keeps earlier writes. |
| Payment.SaveThenList | src/pages/Payment/Payment.jsx:140-146 | The saved order is the first the order service lists for its owner `StorageUserId(user)`. Every other user's list is unchanged. |
| Payment.InitialFormStored | src/pages/Payment/Payment.jsx:12-24 | The initial form holds its card fields as the formatters store them. |
| CheckoutPage.Checkout.InputChange | src/pages/Payment/Payment.jsx:29-76 | The form becomes the input's result and the card fields stay as stored. That field's error is cleared by the corrected clearing `ClearFieldError`. |
| CheckoutPage.Checkout.HandleSubmit | src/pages/Payment/Payment.jsx:157-299 | Invalid form: only its errors are shown. Valid form: processing as in `ProcessPayment`. The form is never changed. |
| CheckoutPage.Checkout.ProcessPayment | src/pages/Payment/Payment.jsx:163-299 | The steps happen in order: payment requested, order saved, cart cleared, redirect scheduled. A save failure shows its mapped message and keeps the cart. Processing always ends. |
| DemoData.WeekOffset | src/utils/demoData.js:9 | The random offset is a whole number of seconds within one week. |
| DemoData.DemoOrderWithinLastWeek | src/utils/demoData.js:9 | The demo order's `created` lies in the past week, now included. |
| DemoData.CreateDemoOrder | src/utils/demoData.js:3-56 | The demo order goes to the front of the user's list, the rest follows unchanged, and it is returned. |
| DemoData.ClearDemoOrders | src/utils/demoData.js:58-60 | The user's list is removed and other keys are unchanged. |
| DemoData.DemoTotalsConsistent | src/utils/demoData.js:10-41 | The demo subtotal is the basket's sum, and its total is subtotal + shipping + tax. |
| DemoData.DemoAmountIsNotTotal | src/utils/demoData.js:8-41 | The stored amount (129997 cents) is not the total (172796 cents). |
| DemoData.DemoTaxTruncated | src/utils/demoData.js:36-41 | The demo tax 127.99 is 8% cut to the cent, where checkout rounding would give 128.00. |
| OrderHistory.IsoCreatedAt | src/pages/Orders/Orders.jsx:32 | `toISOString` succeeds exactly when `created` is present and within the `Date` range. |
| OrderHistory.NormaliseDefaults | src/pages/Orders/Orders.jsx:23-36 | Normalisation keeps a stored id. It defaults the basket to [], the amount to 0 and the status to 'delivered', and marks every local order paid. |
| OrderHistory.NormaliseAgreesWhenDated | src/pages/Orders/Orders.jsx:23-36 | The normalisation as written throws exactly for undated records, and otherwise equals the corrected one. |
| OrderHistory.MapAsWrittenAgreesWhenDated | src/pages/Orders/Orders.jsx:22-36 | The map as written succeeds exactly when every record is dated, and then equals the corrected map. |
| OrderHistory.MapAsWrittenSucceedsIffDated | src/pages/Orders/Orders.jsx:23-36 | One throwing element makes the whole `map` throw. |
| OrderHistory.MapAsWrittenValue | src/pages/Orders/Orders.jsx:23-36 | For dated records, the map as written produces one corrected record per stored order, in order. |
| OrderHistory.UndatedRecordEmptiesHistory | src/pages/Orders/Orders.jsx:29-32 | As written, one record without `created` empties the page. The corrected fetch shows it. |
| OrderHistory.NormaliseRemoteDefaults | src/pages/Orders/Orders.jsx:49-62 | A remote document takes the defaults: items [], amount 0, status 'delivered', payment status 'paid'. A stored payment status is kept. It shows the same items, amount, time, status, address, card and totals as the same data stored locally. |
| OrderHistory.FetchOrders | src/pages/Orders/Orders.jsx:16-88 | Corrected fetch. Unconfigured, or when the remote query throws: one record per stored order, the `i`th being the corrected normalisation of the `i`th stored order. Remote: one record per document, each its remote normalisation. |
| OrderHistory.FetchOrdersAgreesWhenItSucceeds | src/pages/Orders/Orders.jsx:16-88 | The fetch as written throws exactly when it maps a local list holding an undated record. Otherwise it returns what the corrected fetch returns. |
| OrderHistory.UndatedTakesTimestamp | src/pages/Orders/Orders.jsx:29-32 | Where the code as written throws, the corrected record is dated by its defaulted `timestamp`, i.e. now for an order without `created`. |
| OrderHistory.FilterByStatus | src/pages/Orders/Orders.jsx:96-100 | 'all' keeps everything. Otherwise the result keeps exactly the orders whose lower-cased status equals the filter, as a subsequence. |
| OrderHistory.SortKeyMeaning | src/pages/Orders/Orders.jsx:103-116 | The sort orders are newest first, oldest first, highest amount first and lowest amount first. |
| OrderHistory.UnknownSortKeepsOrder | src/pages/Orders/Orders.jsx:113-114 | An unknown `sortBy` compares everything equal, so the order is kept. |
| OrderHistory.GetStatusDisplay | src/pages/Orders/Orders.jsx:148-157 | A known lower-cased status shows its own table entry; any other status shows Delivered. |
| OrderHistory.StatusDisplayIgnoresCase | src/pages/Orders/Orders.jsx:156 | The lookup ignores case. |
| OrderHistory.StatusLabelRoundTrip | src/pages/Orders/Orders.jsx:149-155 | Looking up a badge's own label yields the same badge. |
| OrderHistory.LabelFindsDisplay | src/pages/Orders/Orders.jsx:149-156 | Each table badge is found again under its label. |
| OrderHistory.SucceededShowsDelivered | src/pages/Orders/Orders.jsx:96-100 | Status 'succeeded' shows as Delivered and is hidden by every filter option but 'all'. |
| OrderHistory.CheckoutOrdersShowDelivered | src/pages/Payment/Payment.jsx:131 | Orders saved by checkout (status 'succeeded') show as Delivered and disappear under every status filter. |
| OrderHistory.GetOrderStats | src/pages/Orders/Orders.jsx:160-167 | Count, spent (sum of amounts / 100), and an average whose product with the count is the spent total (0 without orders). |
| OrderHistory.AmountSumPrepend | src/pages/Orders/Orders.jsx:163 | The sum over a list with a new first order adds that order's amount (0 if missing). |
| OrderHistory.StatsAfterPrepend | src/pages/Orders/Orders.jsx:160-167 | An order at the front adds one to the count and its amount to the spent total. |
| OrderHistory.DemoOrderStats | src/pages/Orders/Orders.jsx:128-133 | A demo order adds $1299.97 to the spent total. |
| OrderHistory.ToggleTwice | src/pages/Orders/Orders.jsx:143-145 | A toggle expands the order exactly when it was not expanded, and never expands another. Toggling twice leaves the order collapsed, unless it was the expanded one to begin with. |
| OrderHistory.OrdersPage.LoadOrders | src/pages/Orders/Orders.jsx:90-125 | With the corrected fetch, the list becomes the fetched orders, filtered and sorted by the key. It is a reordering of that list, and unchanged if already in order. Without a user it is empty. Loading ends. |
| OrderHistory.OrdersPage.HandleCreateDemoOrder | src/pages/Orders/Orders.jsx:128-133 | With a user, the demo order is at the front of their list, other users' lists are unchanged, and the page reloads. Filter, sort and expanded order are kept. |
| OrderHistory.OrdersPage.HandleClearOrders | src/pages/Orders/Orders.jsx:135-140 | With a user, their list is removed and the page shows nothing. Other users' lists, the filter, the sort, the expanded order and the loading flag are unchanged. |
| OrderHistory.OrdersPage.ToggleOrderDetails | src/pages/Orders/Orders.jsx:143-145 | The expanded order becomes `Toggled` of the old one. |
| Sidebar.PriceToggleFlips | src/components/Sidebar/Sidebar.jsx:14-21 | A price click flips that box and leaves no other range checked. Brands and rating are unchanged. |
| Sidebar.PriceToggleTwice | src/components/Sidebar/Sidebar.jsx:14-21 | From no range, the same range clicked twice leaves none chosen. |
| Sidebar.AtMostOneRangeChecked | src/components/Sidebar/Sidebar.jsx:4-10 | Of the five ranges, at most one is ever checked. |
| Sidebar.BrandToggleFlips | src/components/Sidebar/Sidebar.jsx:23-33 | A brand click flips that brand only and appends an absent brand. Price and rating are unchanged. |
| Sidebar.BrandToggleTwice | src/components/Sidebar/Sidebar.jsx:23-33 | An absent brand clicked twice restores the list exactly. |
| Sidebar.RatingToggleFlips | src/components/Sidebar/Sidebar.jsx:95-105 | A rating click flips that rating, and no other rating stays chosen. |
| Sidebar.ClearFiltersUnchecksAll | src/components/Sidebar/Sidebar.jsx:35-48 | "Clear All" unchecks every box, rating included. A rating alone does not show the button. |
| Shuffle.Pick | src/pages/Products/Products.jsx:19 | `Math.floor(random * (i + 1))` lies in `0..i`. |
| Shuffle.ShuffledIsPermutation | src/pages/Products/Products.jsx:16-23 | For any draws, the shuffle is a permutation of the input. |
| Shuffle.ShuffleArray | src/pages/Home/Home.jsx:25-32 | The swap loop on a copy computes the shuffle of the input, a permutation, and leaves the input as it was. |
| Catalogue.CategoriesListEachOnce | src/pages/Products/Products.jsx:13 | 'All', then each catalogue category exactly once, in order of first appearance. |
| Catalogue.FilteredIsOneFilter | src/pages/Products/Products.jsx:31-51 | The chain category → price → brand → rating is a single filter by all the chosen tests. |
| Catalogue.FilteredExactly | src/pages/Products/Products.jsx:31-51 | The page shows a subsequence of the shuffled list: each product passing every chosen filter as often as it occurs, and no other. |
| Catalogue.BrandsIgnored | src/pages/Products/Products.jsx:43-46 | The brand choice never changes the result. |
| Catalogue.BoundaryPriceInTwoRanges | src/pages/Products/Products.jsx:36-40 | A price at a shared bound ($25, $50, $100, $200) matches both neighbouring ranges. |
| Catalogue.SortKeyMeaning | src/pages/Products/Products.jsx:54-60 | 'price-low' is ascending price, 'price-high' descending price, 'rating' descending rating. |
| Catalogue.SortedView | src/pages/Products/Products.jsx:53-60 | The sort on a copy keeps the same products sorted by the key. 'default' and an already ordered list are kept as they are. |
| Catalogue.ProductsPage.Displayed | src/pages/Products/Products.jsx:30-60 | The rendered list holds the filtered products, in the chosen order. |
| Catalogue.ProductsPage.SetFilters | src/pages/Products/Products.jsx:101-114 | The sidebar's change, or the empty-result reset, replaces the filters. |
| Catalogue.ProductsPage.Mount | src/pages/Products/Products.jsx:26-28 | The page's list is the catalogue shuffled once. |
| Home.ArrowsStayOnSlides | src/pages/Home/Home.jsx:84-90 | Next and previous stay on a slide: last → first, first → last, otherwise ±1. |
| Home.ArrowsInverse | src/pages/Home/Home.jsx:84-90 | Previous undoes next, and next undoes previous. |
| Home.NextCycles | src/pages/Home/Home.jsx:39-86 | Five steps forward return to the same slide. |
| Home.HomePage.Tick | src/pages/Home/Home.jsx:77-82 | A timer tick is exactly the next-slide step. |
| Home.HomePage.NextSlide | src/pages/Home/Home.jsx:84-86 | The slide becomes the next one and stays valid. |
| Home.HomePage.PrevSlide | src/pages/Home/Home.jsx:88-90 | The slide becomes the previous one and stays valid. |
| Home.HomePage.Mount | src/pages/Home/Home.jsx:34-37 | The grid is the catalogue shuffled once. |
| Home.HomePage.Arrive | src/pages/Home/Home.jsx:14-22 | Arriving after a successful payment shows the banner. |
| Home.HomePage.BannerTimeout | src/pages/Home/Home.jsx:18-20 | The timeout hides the banner. |
| Auth.LoginCheckPasses | src/pages/Auth/Auth.jsx:46-50 | Login goes ahead exactly when email and password are filled in; otherwise 'Please fill in all fields'. |
| Auth.SignupCheckPasses | src/pages/Auth/Auth.jsx:60-78 | Sign-up goes ahead exactly when all four fields are filled in, the passwords agree and the password has ≥ 6 characters. Each message is that of the first failing check. |
| Auth.RedirectTarget | src/pages/Auth/Auth.jsx:21 | The redirect is the `from` path when present and non-empty, and '/' otherwise. |
| Auth.ChangeSetsOnlyItsField | src/pages/Auth/Auth.jsx:31-37 | A change sets the named input and no other, and writing back an input's value changes nothing. |
| Auth.EmptyFormStopsSubmit | src/pages/Auth/Auth.jsx:89-98 | After a mode switch the empty form stops at the first guard in both modes. |
| Auth.AuthPage.HandleSubmit | src/pages/Auth/Auth.jsx:39-87 | A failing guard shows its message and calls nothing. Otherwise exactly one login or sign-up call is made. Success navigates to `RedirectTarget(from)`; failure shows the context's error. Loading ends on every path. |
| Auth.AuthPage.HandleChange | src/pages/Auth/Auth.jsx:31-37 | The named field takes the value and the error is cleared. |
| Auth.AuthPage.ToggleMode | src/pages/Auth/Auth.jsx:89-98 | The mode flips, the error clears, and all four fields become empty. |

## Left out

- JsText.ToLower: only ASCII capitals are lower-cased. JavaScript's `toLowerCase` (`src/pages/Orders/Orders.jsx:98`, `:156`) maps all of Unicode ('É' to 'é'), and can change the length ('İ' becomes two code units).
- ToLowerIdempotent: keeping the length and idempotence are proved of the ASCII lower-casing only, so the length claim does not carry over to Unicode text.
- ToLowerOfLowercase: "no capitals" means no ASCII capitals. Text with a non-ASCII capital is not its own lower case in JavaScript.
- OrderHistory.GetStatusDisplay: the status table is a plain object, so a status that names an inherited member ('constructor' or '__proto__') finds a truthy value and skips the Delivered fallback. The model shows Delivered for these.
- PaymentServer.ParsedTotal: `parseInt` yields a double, so totals above 2^53 are rounded; here they are exact. A repeated query parameter (`?total=5&total=7`) reaches `parseInt` as an array, which reads as its first element's text; here the query is one string.
- CheckoutPage.Checkout.InputChange: clears the edited field's error with the corrected `Payment.ClearFieldError` (see Findings). As written, card-number, expiry and CVV inputs keep their errors: `Payment.ErrorsAfterInputAsWritten` models that, and `Payment.ClearingAgreesElsewhere` shows the two agree on every other input.
- OrderHistory.OrdersPage.LoadOrders: lists the corrected `OrderHistory.FetchOrders` (see Findings). As written, a local list holding an undated record throws and the page shows no orders. `OrderHistory.FetchOrdersAgreesWhenItSucceeds` shows this is the only difference. The same holds for `OrderHistory.OrdersPage.HandleCreateDemoOrder`, which reloads through it.
- Numbers: money is exact (`real` dollars, `int` cents).
  - `toFixed(2)` display and double rounding of `total * 100` are not modelled.
  - JavaScript string lengths count UTF-16 code units, whereas the model counts characters.
- Records carry only the fields the core reads.
  - Extra product fields (image, reviews, description) are omitted, as are extra order fields (`userEmail`, `items` names).
  - JSON `null` and `undefined` are both `None`.
  - A stored value that fails `JSON.parse` is not modelled.
- Firestore, the payment processor, the backend answer and the authentication context are oracle replies.
  - `AuthContext` is not part of this model.
  - Nor are `CartContext` (`getCartTotal` is the `subtotal` parameter) and `firebase/config.js`.
- Timers and delays run as sequential steps:
  - the 500 ms and 2 s simulated waits;
  - the redirect scheduled after checkout;
  - the carousel interval;
  - the banner timeout.
- Asynchrony: `handleCreateDemoOrder` does not await `loadOrders`, so in the model the reload runs to completion first.
- The status check at `src/pages/Payment/Payment.jsx:222-224` can never fail, because both paths set the status to 'succeeded' just before it. The model has no such branch.
- `Cart.jsx` shows free shipping and total = subtotal. This disagrees with `Payment.jsx:302-304`, and that page is not part of this model.
- `OrderHistory.Normalise`: `createdAt` is kept as epoch milliseconds, not rendered as ISO text. A remote `created` that is a Firestore timestamp object is taken to be a number.
- `Sorting.SortInPlace`: stability is stated only for an input already in order, which covers 'default' and unknown keys. The full stable order of equal keys is not stated.
- `CheckoutPage.Checkout.HandleSubmit`: the invalid case is stated through `ValidationErrors`. Its link to the readable conditions is the separate lemma `Payment.ValidIffNoErrors`.
- `Payment.FormAfterInput`: a top-level input name outside the card fields, or a `billing.` name outside the five address fields, adds a key to the form object in JavaScript (`src/pages/Payment/Payment.jsx:32-40`, `:68-71`). Here it leaves the form unchanged and the extra key is not kept.
- OrderHistory.IsoCreatedAt: a stored `created: null` is read as missing, so the code as written is modelled as throwing. In JavaScript `null * 1000` is 0, so `toISOString` succeeds and the record is dated 1970-01-01T00:00:00.000Z. In the code as written only an absent or out-of-range `created` throws.
- `Auth.AuthPage.HandleChange`: an input name outside the four fields adds a key to the form object in JavaScript. Here it leaves the four fields unchanged and the extra key is not kept.
- `Home.Next` and `Home.Prev` use the remainder on non-negative operands only, where Dafny's `%` agrees with JavaScript's. The slide index is always in `0..4`.
- The redirect on an already signed-in user, the rendering, styling and routing, and the diagnostics and deployment scripts are not modelled.

## Findings

| source | as written | input that shows it | evidently intended | confidence | as-written member | corrected member |
|---|---|---|---|---|---|---|
| src/pages/Orders/Orders.jsx:32 | `new Date(order.created * 1000).toISOString()` throws a RangeError when `created` is missing. The whole `map` throws, the `catch` re-runs the same map, and `loadOrders` shows no orders at all. | A stored order without `created` (line 29 explicitly defaults a missing `created`). | Render the order, taking its date from the defaulted `timestamp`. | high (not executed) | OrderHistory.UndatedRecordEmptiesHistory | OrderHistory.FetchOrders |
| src/pages/Payment/Payment.jsx:48 | The card-number, expiry and CVV branches `return` before the error-clearing lines 73-75, so their errors stay shown while the user corrects them. | `errors = {cardNumber: "Please enter a valid card number"}`, then typing into the card number. | Typing into a field clears that field's error, as it does for every other field. | high (not executed) | Payment.CardErrorNotClearedAsWritten | Payment.ClearFieldError |
