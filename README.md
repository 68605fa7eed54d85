# ypt-fitness storefront: a Dafny model of the cart, checkout and account logic

This project models the core of the ypt-fitness course storefront (a Next.js site that sells fitness
courses). It covers:

- the shopping cart with its quantity-based discount tiers;
- the server route that turns a cart, or a single course, into the parameters of a hosted checkout
  session at the payment provider;
- the provider's webhook, which confirms a completed order;
- the signed-in user's purchases and wishlist;
- the course catalogue's search, filters and sort orders;
- the cart page's checkout handler;
- the site language choice and translation lookup;
- the registration form.

Each source file has its own module:

| module | file | source |
|---|---|---|
| `Common` | `common.dfy` | JavaScript truthiness, `||` fallbacks, `join(',')`/`split(',')`, `${n}` |
| `Cart` | `cart.dfy` | `src/context/CartContext.tsx` |
| `Checkout` | `checkout.dfy` | `src/app/api/create-checkout-session/route.ts` |
| `Users` | `users.dfy` | `src/context/UserContext.tsx` |
| `Webhook` | `webhook.dfy` | `src/app/api/webhooks/stripe/route.ts` |
| `Catalog` | `catalog.dfy` | `src/app/courses/page.tsx` |
| `CartPage` | `cart_page.dfy` | `src/app/cart/page.tsx` |
| `Language` | `language.dfy` | `src/context/LanguageContext.tsx` |
| `RegisterPage` | `register.dfy` | `src/app/register/page.tsx` |
| `OrderFlow` | `flow.dfy` | properties that span the cart page, the checkout route and the webhook |

The source's shape carries over to the model:

- State the source updates in place becomes a class whose methods reassign its fields:
  - the cart's `items`;
  - the user store's `user`;
  - the cart page's `isLoading`/`error`;
  - the language, its change flag and the document attributes;
  - the registration form's `error`.
- The computations become functions: the tier choice, price recomputation, getters, the webhook
  dispatch and the translation lookup.
- The checkout route builds its parameters by successive assignments, so it is a method.
- The catalogue narrows a list step by step and then sorts it in place, so it is a method over an
  array with an insertion sort.

The main invariant is `Cart.WellFormedCart`:

- one line per course;
- every quantity at least 1;
- every line's discounted price derived from the tier of the current total quantity.

Every cart operation preserves it (`Cart.CartStore.Valid`). The `OrderFlow` lemmas connect the
modules:

- a well-formed, non-empty cart posted by the cart page always takes the route's multi-item path;
- the route chooses the same tier the cart shows;
- the provider is charged exactly the line totals the page shows;
- the webhook takes its bundle branch iff the cart had at least two lines.

The amount charged follows the per-line rounded prices, not the discounted final price the cart
displays. `OrderFlow.ChargeCanExceedShownFinalPrice` shows a cart where the two differ: 20 is
charged against a displayed 19.

Money is modelled as whole roubles (`int`). `Math.round(x / 100)` on an integer `x` is
`(x + 50) / 100`, which is exact for integer prices, so `Math.round(price * (1 - p/100))` is
`Cart.RoundHundredth(price * (100 - p))`.

## Model

| member | source | states |
|---|---|---|
| Common.OrString | src/app/api/webhooks/stripe/route.ts:112-118 | `s \|\| fallback` on an optional string: the string when it is present and non-empty, the fallback otherwise |
| Common.SplitComma | src/app/api/create-checkout-session/route.ts:83 | the inverse of the id join, used only to state the round trip: splitting on commas always yields at least one part |
| Common.SplitJoinRoundTrip | src/app/api/create-checkout-session/route.ts:83 | course ids without commas, joined with `,`, split back into exactly the same ids |
| Common.JoinHasCommaIffSeveral | src/app/api/webhooks/stripe/route.ts:109 | a join of comma-free ids contains a comma iff at least two ids were joined |
| Common.DecimalString | src/app/api/create-checkout-session/route.ts:59 | the rendering of a number in a template literal is a non-empty string of digits |
| Common.DecimalRoundTrip | src/app/api/create-checkout-session/route.ts:87 | the rendered digits read back as the same number |
| Cart.BestTier | src/context/CartContext.tsx:83-84 | filter, sort descending by threshold, take `[0]`: none iff no tier qualifies; otherwise a listed tier that qualifies and has the largest threshold among those that qualify |
| Cart.ApplicableTier | src/context/CartContext.tsx:24-28 | with the three listed tiers: 15% from 5 courses, 10% from 3, 5% from 2, none below 2 |
| Cart.TierExamples | src/context/CartContext.tsx:24-28 | 1 course has no tier; 2, 4, 5 and 10 courses get 5%, 10%, 15% and 15% |
| Cart.RoundHundredth | src/context/CartContext.tsx:93 | `Math.round(n / 100)`: the nearest integer, halves rounded up |
| Cart.TierPrice | src/context/CartContext.tsx:86-95 | no price without a tier; otherwise the list price less the percentage, rounded half up, and between 0 and the list price for a non-negative price |
| Cart.RoundedShareWithin | src/context/CartContext.tsx:174-181 | a rounded share of at most 100% of a non-negative amount lies between 0 and the amount |
| Cart.TotalPriceNonNegative | src/context/CartContext.tsx:160-162 | lines of non-negative price and quantity sum to a non-negative subtotal |
| Cart.SameLinesSameTotals | src/context/CartContext.tsx:155-162 | total quantity and subtotal do not depend on the discounted prices |
| Cart.TotalQuantityAppend | src/context/CartContext.tsx:117 | appending a line adds its quantity to the total |
| Cart.RecalculatePrices | src/context/CartContext.tsx:78-96 | keeps every line and both totals, and prices every line by the tier of the current total; without a tier every discounted price is cleared |
| Cart.RecalculateFixesPriced | src/context/CartContext.tsx:78-96 | recomputing the prices of a cart already priced by its tier changes nothing |
| Cart.InCart | src/context/CartContext.tsx:189-191 | true iff some line has the course id |
| Cart.AddedItems | src/context/CartContext.tsx:99-122 | an id already present: only that line's quantity rises by 1, the number and order of lines are kept; a new id: appended at the end with quantity 1, earlier lines kept; all prices follow the new tier |
| Cart.Without | src/context/CartContext.tsx:127 | no line of the id is left, and only lines of the input remain |
| Cart.WithoutAbsent | src/context/CartContext.tsx:127 | filtering out an id no line has keeps the list |
| Cart.WithoutUnique | src/context/CartContext.tsx:127 | with unique ids, filtering out line k's id removes exactly line k and keeps the rest in order |
| Cart.RemovedItems | src/context/CartContext.tsx:125-130 | no line of the id is left, and prices follow the new tier |
| Cart.UpdatedItems | src/context/CartContext.tsx:133-147 | for quantity ≥ 1 the same lines in the same order, with only that line's quantity replaced; prices follow the new tier |
| Cart.AddKeepsWellFormed | src/context/CartContext.tsx:99-122 | adding keeps ids unique, quantities ≥ 1 and prices tiered, and raises the total quantity by exactly 1 |
| Cart.AddExistingKeepsWellFormed | src/context/CartContext.tsx:102-114 | the same for a course already in the cart, whose line is incremented |
| Cart.AddNewKeepsWellFormed | src/context/CartContext.tsx:117-121 | the same for a new course, appended with quantity 1 |
| Cart.IncrementedTotal | src/context/CartContext.tsx:106-110 | incrementing an existing line raises the total quantity by 1 |
| Cart.SameLinesKeepShape | src/context/CartContext.tsx:78-96 | recomputing prices keeps ids unique and quantities positive |
| Cart.WithoutKeepsShape | src/context/CartContext.tsx:127 | filtering keeps ids unique and quantities positive |
| Cart.DropKeepsShape | src/context/CartContext.tsx:127 | dropping one line keeps ids unique and quantities positive |
| Cart.RemoveKeepsWellFormed | src/context/CartContext.tsx:125-130 | removal keeps the cart invariant |
| Cart.UpdateKeepsWellFormed | src/context/CartContext.tsx:133-147 | an update, including one that removes, keeps the cart invariant |
| Cart.RemoveKeepsOrder | src/context/CartContext.tsx:125-130 | removing line k's course leaves the other lines in their order |
| Cart.AbsentIdChangesNothing | src/context/CartContext.tsx:125-147 | removing or updating an id no line has leaves a well-formed cart unchanged |
| Cart.UpdateToZeroIsRemove | src/context/CartContext.tsx:134-137 | an update to a quantity ≤ 0 is a removal |
| Cart.TotalQuantityAtLeastLines | src/context/CartContext.tsx:155-157 | with positive quantities the total is at least the number of lines |
| Cart.ThirdCourseRepricesEarlierLines | src/context/CartContext.tsx:113-120 | adding a third course moves the two earlier lines from the 5% price to the 10% price |
| Cart.CartStore.constructor | src/context/CartContext.tsx:53 | an empty, well-formed cart |
| Cart.CartStore.AddItem | src/context/CartContext.tsx:99-122 | the items become `AddedItems` of the old items; the invariant is kept and the total rises by 1 |
| Cart.CartStore.RemoveItem | src/context/CartContext.tsx:125-130 | the items become `RemovedItems` of the old items; the invariant is kept |
| Cart.CartStore.UpdateQuantity | src/context/CartContext.tsx:133-147 | delegates to removal for quantity ≤ 0; the items become `UpdatedItems`; the invariant is kept |
| Cart.CartStore.ClearCart | src/context/CartContext.tsx:150-152 | the cart is empty and well-formed |
| Cart.CartStore.GetTotalItems | src/context/CartContext.tsx:155-157 | at least one per line, and 0 iff the cart is empty |
| Cart.CartStore.GetTotalPrice | src/context/CartContext.tsx:160-162 | 0 for an empty cart, never negative for lines of non-negative price and quantity |
| Cart.CartStore.GetApplicableDiscount | src/context/CartContext.tsx:165-171 | none iff the course count is below the first threshold; otherwise a listed tier the count reaches, of largest threshold among those |
| Cart.CartStore.GetDiscountAmount | src/context/CartContext.tsx:174-181 | 0 without a tier; otherwise the rounded percentage of the subtotal, never more than the subtotal |
| Cart.CartStore.IsInCart | src/context/CartContext.tsx:189-191 | true iff some line has the course id |
| Cart.CartStore.GetFinalPrice | src/context/CartContext.tsx:184-186 | final price plus discount is the subtotal; between 0 and the subtotal; the subtotal itself without a tier |
| Checkout.UnitAmount | src/app/api/create-checkout-session/route.ts:75-77 | 100 × the discounted price when it is set and not 0, else 100 × the list price |
| Checkout.CartLineItems | src/app/api/create-checkout-session/route.ts:66-80 | one provider line per cart line, in cart order |
| Checkout.CourseIds | src/app/api/create-checkout-session/route.ts:83 | the cart's course ids, in cart order |
| Checkout.BuildSessionParams | src/app/api/create-checkout-session/route.ts:15-119 | rejected iff there is no cart and the course id, name or price is falsy; a non-empty cart wins; the multi-item path has one line per cart line, the joined ids, the bundle label and discount keys iff the posted total selects a tier; the single path has one line at 100 × price with quantity defaulting to 1; reference id defaults to `guest`; email attached iff truthy; card payment mode; success and cancel urls under the base url (all gathered in `Checkout.BuiltFrom`) |
| Checkout.Post | src/app/api/create-checkout-session/route.ts:13-132 | unreadable body or provider failure: 500; missing parameters: 400 and nothing sent; what reaches the provider meets `Checkout.BuiltFrom` for the posted body; otherwise the provider's session id and url |
| Checkout.BuiltFromUnique | src/app/api/create-checkout-session/route.ts:35-119 | the route's promise pins the parameters down: one body and base url admit exactly one parameter record |
| Checkout.CartTakesPrecedence | src/app/api/create-checkout-session/route.ts:27 | a non-empty cart is never rejected, whatever single-course fields accompany it |
| Checkout.SingleCourseExample | src/app/api/create-checkout-session/route.ts:91-114 | a course at 3000 is one line of 300000 minor units with no discount keys |
| Users.HasCourse | src/context/UserContext.tsx:213 | true iff some purchase is for the course |
| Users.HasOrder | src/context/UserContext.tsx:192 | true iff some purchase has the order id |
| Users.FindOrder | src/context/UserContext.tsx:229 | none iff no purchase has the order id; otherwise the first one that has it |
| Users.WishlistHas | src/context/UserContext.tsx:237 | true iff some wishlist entry is for the course |
| Users.WithoutWish | src/context/UserContext.tsx:256 | no entry of the course is left and the list does not grow |
| Users.WithoutWishMembers | src/context/UserContext.tsx:256 | every entry of the course goes and every other entry stays |
| Users.WithoutWishAppend | src/context/UserContext.tsx:256 | the filter keeps the order of the remaining entries |
| Users.WithoutWishAbsent | src/context/UserContext.tsx:256 | filtering a course that is not listed keeps the wishlist |
| Users.RemoveWishUnique | src/context/UserContext.tsx:251-261 | with unique ids, removal takes out exactly the one entry |
| Users.ConsNewestFirst | src/context/UserContext.tsx:221-223 | a purchase no older than the head can go in front |
| Users.InsertByDate | src/context/UserContext.tsx:221-223 | insertion into a newest-first list keeps it newest-first and adds exactly that purchase |
| Users.NewestFirst | src/context/UserContext.tsx:221-223 | the sort on a copy is newest-first and a permutation of the purchases |
| Users.LoginHistoryExample | src/context/UserContext.tsx:58-77 | the demonstration history lists the 2-days-old order before the 7-days-old one |
| Users.UserStore.constructor | src/context/UserContext.tsx:95-96 | no user, loading |
| Users.UserStore.LoadSession | src/context/UserContext.tsx:99-112 | a readable saved session becomes the user; loading ends either way |
| Users.UserStore.Login | src/context/UserContext.tsx:118-147 | succeeds iff the email is non-empty, with the demonstration purchases and wishlist; failure keeps the user |
| Users.UserStore.Register | src/context/UserContext.tsx:150-179 | succeeds iff email and password are non-empty, with empty purchases and wishlist |
| Users.UserStore.Logout | src/context/UserContext.tsx:182-185 | no user; only `user` may change |
| Users.UserStore.AddPurchase | src/context/UserContext.tsx:188-203 | appends iff signed in and the order id is new; unique order ids stay unique; only `user` may change |
| Users.UserStore.AddToWishlist | src/context/UserContext.tsx:233-248 | appends iff signed in and the course is not listed; unique ids stay unique; only `user` may change |
| Users.UserStore.RemoveFromWishlist | src/context/UserContext.tsx:251-261 | the course is no longer in the wishlist, and the rest is filtered in order; only `user` may change |
| Users.UserStore.GetPurchases | src/context/UserContext.tsx:206-208 | empty without a user; exactly what `HasPurchased` searches |
| Users.UserStore.HasPurchased | src/context/UserContext.tsx:211-214 | true iff signed in and some purchase is for the course |
| Users.UserStore.GetOrderHistory | src/context/UserContext.tsx:217-224 | empty without a user; otherwise a newest-first permutation of the purchases |
| Users.UserStore.GetOrderDetails | src/context/UserContext.tsx:227-230 | none without a user or matching order; otherwise a purchase of the user with that order id |
| Users.UserStore.GetWishlist | src/context/UserContext.tsx:264-266 | empty without a user; exactly what `IsInWishlist` searches |
| Users.UserStore.IsInWishlist | src/context/UserContext.tsx:269-272 | true iff signed in and some entry is for the course |
| Webhook.AmountOrZero | src/app/api/webhooks/stripe/route.ts:116 | `amount_total \|\| 0` |
| Webhook.NameOrAbsent | src/app/api/webhooks/stripe/route.ts:113 | `customerName \|\| undefined`: present iff non-empty |
| Webhook.Confirmation | src/app/api/webhooks/stripe/route.ts:77-147 | a comma in the course id sends one bundle confirmation (email may be empty, title falls back to `Набор курсов`); otherwise a confirmation only with a truthy email, titled by the line description, then the course name, then `Unknown course`, with id defaulting to `unknown`; amount defaults to 0, currency to `rub` |
| Webhook.HandleWebhook | src/app/api/webhooks/stripe/route.ts:15-72 | a missing signature or secret: 400, nothing sent; failed verification: 400; a verified event answers 200 or 500; a verified completed checkout is handed to `Confirmation` and only such an event is; other verified events: 200 with nothing sent; 500 iff the confirmation's send fails, with the processing error; 200 iff acknowledged |
| Webhook.NoVerificationWithoutSignature | src/app/api/webhooks/stripe/route.ts:21-28 | without a signature or secret the answer is the same whatever the verifier does |
| Webhook.OtherEventsAcknowledged | src/app/api/webhooks/stripe/route.ts:48-64 | payment-intent and unknown event types are acknowledged with nothing sent |
| Catalog.LowerChar | src/app/courses/page.tsx:161 | a Latin or Cyrillic capital becomes the small letter 32 code points above it, `Ё` becomes `ё`, every other character is kept |
| Catalog.ToLower | src/app/courses/page.tsx:161-165 | same length, character by character |
| Catalog.ToLowerIdempotent | src/app/courses/page.tsx:161-165 | lower-casing a lower-cased string changes nothing |
| Catalog.SearchIgnoresCase | src/app/courses/page.tsx:159-167 | a query and its lower-cased form select the same courses |
| Catalog.FilterBy | src/app/courses/page.tsx:162-187 | keeps exactly the elements that pass, and no more copies than the input has |
| Catalog.KeySortedIsOrdered | src/app/courses/page.tsx:191-204 | sorted by the comparator's key means: prices non-decreasing, prices non-increasing, ratings non-increasing, or every featured course before every other one |
| Catalog.InsertInto | src/app/courses/page.tsx:191-204 | one insertion step extends the sorted prefix by one and permutes the array |
| Catalog.SortInPlace | src/app/courses/page.tsx:191-204 | the array ends sorted by the key and is a permutation of what it held |
| Catalog.DistinctNoRepeats | src/app/courses/page.tsx:157 | a list of pairwise different courses holds each course at most once |
| Catalog.CoursesDataNoRepeats | src/app/courses/page.tsx:27-106 | the six listed courses are pairwise different |
| Catalog.FilterAndSort | src/app/courses/page.tsx:156-208 | on any list: a course is kept iff it is in the list and passes every filter, none more often than in the list, and the order is the one the sort id promises |
| Catalog.Narrow | src/app/courses/page.tsx:157-188 | exactly the courses that pass every active filter remain, each at most as often as before |
| Catalog.ApplyFilters | src/app/courses/page.tsx:156-208 | a course is shown iff it passes every filter; none is shown twice; the order is the one the sort id promises, unknown ids falling back to featured first |
| Catalog.ProductOf | src/app/courses/page.tsx:212-217 | the cart product carries the course's id, title, price and image unchanged |
| Catalog.HandleAddToCart | src/app/courses/page.tsx:211-218 | the cart becomes `AddedItems` of the course's product and then contains the course |
| CartPage.QuantityChanged | src/app/cart/page.tsx:61-65 | below 1 the cart is unchanged; the lines and their ids are always kept and only that line's quantity changes |
| CartPage.HandleQuantityChange | src/app/cart/page.tsx:61-65 | the cart becomes `QuantityChanged` of its items and stays well-formed |
| CartPage.CheckoutPayload | src/app/cart/page.tsx:37-42 | the full cart and its total quantity and no single-course fields; the user's id when signed in with a non-empty id, `guest` otherwise; the user's email when signed in, no email otherwise |
| CartPage.CheckoutView.constructor | src/app/cart/page.tsx:16-17 | not loading, no error |
| CartPage.CheckoutView.HandleCheckout | src/app/cart/page.tsx:20-58 | empty cart: the empty-cart error and nothing sent; otherwise the payload is sent; a truthy url redirects, anything else sets the checkout error; never left loading |
| CartPage.LineTotal | src/app/cart/page.tsx:155-158 | the discounted unit price when set and non-zero, otherwise the list price, times the quantity |
| CartPage.ChargedLineIsShownLine | src/app/cart/page.tsx:155-158 | what checkout charges for a line is 100 × the line total shown |
| CartPage.UndiscountedLinesSumToSubtotal | src/app/cart/page.tsx:155-158 | with no discounted prices the line totals add up to the subtotal |
| CartPage.NoTierLinesSumToFinal | src/app/cart/page.tsx:155-209 | below the first tier the line totals add up to the final price shown |
| CartPage.TierActive | src/app/cart/page.tsx:227-228 | a tier is marked iff the total item count reaches its threshold |
| CartPage.ActiveTiersAgreeWithDiscount | src/app/cart/page.tsx:199-204 | the discount row is shown iff some tier is marked; the applied tier and all lower ones are marked; from 5 items all three are marked |
| OrderFlow.ChargedIsShownLineTotals | src/app/api/create-checkout-session/route.ts:66-80 | the amount charged for a cart is 100 × the sum of its shown line totals |
| OrderFlow.PayloadReferenceAndEmail | src/app/cart/page.tsx:37-42 | the session built from the cart page's request is referenced to the user's id or `guest`, and carries the user's email exactly when it is non-empty |
| OrderFlow.CartRequestTakesMultiItemPath | src/app/cart/page.tsx:37-42 | a non-empty well-formed cart is never rejected; the route's discount keys follow the cart's own tier; the charge is the sum of the shown line totals |
| OrderFlow.CartCheckoutWebhookBranch | src/app/api/webhooks/stripe/route.ts:108-141 | comma-free ids: the bundle branch iff at least two lines, with the bundle label as title and ids that split back into the cart's ids; a single line takes the single-course branch and never gets a title from the metadata |
| OrderFlow.SingleCheckoutWebhookBranch | src/app/api/webhooks/stripe/route.ts:121-141 | a single-course checkout reaches the single-course branch, whose title cannot come from the metadata |
| OrderFlow.CatalogIdsHaveNoComma | src/app/courses/page.tsx:27-106 | no catalogue id contains a comma |
| OrderFlow.ChargeCanExceedShownFinalPrice | src/context/CartContext.tsx:93 | two 10-rouble courses: line totals 20, final price 19, charge 2000 minor units |
| Language.ParseLang | src/context/LanguageContext.tsx:334 | a stored value is adopted iff it is `ru`, `en` or `ar` |
| Language.ParseCode | src/context/LanguageContext.tsx:381-386 | a stored code reads back as its language |
| Language.DirOf | src/context/LanguageContext.tsx:390 | right to left iff Arabic |
| Language.PrimarySubtag | src/context/LanguageContext.tsx:349 | the prefix before the first `-` |
| Language.ResolveLanguage | src/context/LanguageContext.tsx:330-367 | a recognised cookie wins, then local storage, setting the language only; then the browser's primary subtag, else Russian, with the direction; any language other than Russian comes from one of the three sources |
| Language.RegionIgnored | src/context/LanguageContext.tsx:349 | `xx-YY` resolves like `xx` |
| Language.PrimaryOfTagged | src/context/LanguageContext.tsx:349 | the primary subtag of `tag-region` is `tag` |
| Language.PrimaryOfPlain | src/context/LanguageContext.tsx:349 | a tag without `-` is its own primary subtag |
| Language.Translate | src/context/LanguageContext.tsx:399-401 | the entry when present and non-empty, else the key |
| Language.FallbackOnlyForMissing | src/context/LanguageContext.tsx:49-319 | in tables shaped like the site's, only the two marathon keys looked up in Arabic fall back to the key |
| Language.LanguageState.constructor | src/context/LanguageContext.tsx:324-326 | Russian, no change in progress |
| Language.LanguageState.LoadLanguage | src/context/LanguageContext.tsx:329-370 | language and document `lang` from `ResolveLanguage`; the direction only in the browser branch |
| Language.LanguageState.BeginChange | src/context/LanguageContext.tsx:374 | the change flag goes up, nothing else changes |
| Language.LanguageState.ApplyChange | src/context/LanguageContext.tsx:377-391 | language set, the same code in the cookie and local storage, document `lang` and direction set |
| Language.LanguageState.FinishChange | src/context/LanguageContext.tsx:392-394 | the change flag is cleared, nothing else changes |
| Language.LanguageState.SetLanguage | src/context/LanguageContext.tsx:373-396 | after both phases the language is saved in both stores and the next load resolves to it whatever the browser says |
| Language.LanguageState.T | src/context/LanguageContext.tsx:399-401 | the current language's entry, or the key |
| Language.SavedChoiceRoundTrip | src/context/LanguageContext.tsx:332-346 | a choice saved by `setLanguage` is loaded back unchanged, without touching the direction |
| Language.BrowserDetectionExamples | src/context/LanguageContext.tsx:349-366 | `ar-EG` gives Arabic right to left; `de-DE` with an unrecognised stored `de` gives Russian left to right |
| RegisterPage.ValidationError | src/app/register/page.tsx:25-33 | the required-fields error iff a field is empty; the mismatch error only when all fields are filled; no error iff filled and matching |
| RegisterPage.RegisterForm.constructor | src/app/register/page.tsx:18 | no error |
| RegisterPage.RegisterForm.HandleRegister | src/app/register/page.tsx:20-41 | a failed check sets its error without calling the store; otherwise the store registers the user, its loading flag ends clear, and the page goes to `/dashboard`; a failed check leaves the store's user and loading flag as they were |

## Left out

- Cookie, local-storage and JSON persistence are not modelled: the cart's load and save, the user
  session cookie, and the cookie options. The language cookie and local storage appear as plain
  fields, written by `setLanguage`.
- `Users.UserStore.LoadSession` takes an already parsed session, or none when the cookie is absent
  or unreadable.
- The payment provider's calls are function parameters: session creation (`Checkout.Post`) and
  signature verification (`Webhook.HandleWebhook`).
- The mailer's behaviour is reduced to whether it throws. The e-mail formatting and template are
  not modelled.
- The webhook's console logging and its `purchaseData` record are not modelled: they are only
  logged.
- The payment-intent events are not modelled beyond being acknowledged.
- Floating-point arithmetic is not modelled. Prices are whole roubles and the half-up integer
  rounding of `Cart.RoundHundredth` stands for `Math.round`; non-integer prices and NaN are not
  covered.
- Timers are not modelled. `setLanguage`'s two timeouts are the phases `BeginChange`,
  `ApplyChange` and `FinishChange`, and the login and registration delays are dropped.
- `Checkout.CheckoutBody`: a JSON `null` and fields of the wrong type are not modelled. An absent
  field stands for both. The route applies its defaults only to absent fields, so a `null` cart
  makes `items.length` throw and the route answers 500, a path the model does not have.
- The random user id is a parameter (`newId`).
- Dates are integer timestamps. The clock is a parameter: `loadedAt`, and the webhook's `today`
  string.
- The browser is not modelled. The `fetch` and the JSON answer are one function parameter of
  `CartPage.CheckoutView.HandleCheckout`, and the redirect is recorded in a field.
- The base url comes from the environment and is a parameter.
- Presentation is not modelled: rendering, star ratings, the filter panel toggle, and the
  `toLocaleString` formatting.
- The translation texts are not transcribed. Only which keys each table has is modelled
  (`Language.ShapedLikeSite`).
- `Catalog.LowerChar`: `toLowerCase` is modelled only for Latin A-Z, Cyrillic А-Я and Ё. Other
  cased scripts are kept as they are.
- `Catalog.SortInPlace` promises a sorted permutation. It does not also promise that courses
  with equal keys keep their page order, which JavaScript's stable sort guarantees.
- `Users.InsertByDate` and `Users.NewestFirst` leave stability out of their contracts, for the
  same reason.
- `Cart.Product` has no `discountedPrice` field. `addItem`'s argument may carry one, but the
  recalculation overwrites it before anyone reads it.
- `RegisterPage.RegisterForm.HandleRegister`: the source's registration-failure message is not
  modelled as reachable. The checks imply the store's condition, so that branch is proved dead
  rather than modelled.
- The bundle title is `Пакет из N курсов`, where N is the number of cart lines, as the checkout
  route writes it.
