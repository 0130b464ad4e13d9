# Storefront client state, modelled in Dafny

This project models the logic that sits between the views and the REST backend of a
Next.js storefront client (karanverma2912/ecommerce-frontend). The modelled parts are:

- the cart provider: lines, in-flight product ids, loading flags and derived totals;
- the wishlist provider: liked ids kept beside the fetched product records, with an
  optimistic toggle and rollback;
- the session provider: user, error and the browser storage holding the token and user;
- the sign-in / sign-up dialog: form and code steps, a countdown, a digit filter;
- the admin sales chart's stacking and y-axis arithmetic;
- the profile page's records, dirty check, avatar URL and error messages;
- the search box and product grid's URL-parameter rules;
- the notification badge count.

Every network call is an input of type `Outcome<T>`. It is either `Threw(cause)` or
`Resolved(ok, body)`. `fetch` resolves on HTTP error statuses and rejects only on transport
failure. A body field that the code dereferences without a check is `None` when it is
missing. The resulting `TypeError` then takes the same path as a throw. Objects whose
fields the code updates in place are classes: `CartStore`, `WishlistStore`, `Session`,
`Modal`, `ProfilePage`, `Grid` and `SearchParams`. Their methods state the whole new
state. Pure rules are functions with lemmas.

Modules: `Types` (shared records, from `app/types/index.ts`), `Text` (join, padStart,
decimal `toString`), `Cart`, `Wishlist`, `Auth`, `AuthModal`, `SalesChart`, `Profile`,
`UrlSearchParams` (WHATWG URL Standard, section 6.2), `SearchBar`, `ProductGrid` and
`Notifications`.

Some facts about the code that the model keeps as they are:

- `removeFromCart` re-fetches only when the DELETE resolves. A thrown DELETE jumps past the
  re-fetch.
- `updateQuantity` skips the re-fetch as well as the PATCH when no line matches.
- `clearCart` empties the lines only when the DELETE resolves. A throw leaves them.
- The wishlist ids are a list, not a set, so a product can be liked twice.
- Prices are taken to be integers; see "Left out" below.

Some behaviour is as written but easy to miss. A failed like removes every occurrence of
the id, so a product that was already liked ends up not liked
(`Wishlist.FailedLikeForgetsEarlierLike`). An empty `errors` array from register is
truthy, so the message is the empty string.

## Model

| member | source | states |
|---|---|---|
| Text.JoinLength | app/context/AuthContext.tsx:101 | a joined message is as long as its parts plus one ", " between neighbours |
| Text.NatToStringRoundTrip | app/profile/page.tsx:275 | the decimal form of an id reads back as the id |
| Text.PadStart | app/profile/page.tsx:275 | padding keeps the string as a suffix, fills with the pad character, and reaches the width |
| Cart.ToCartItems | app/context/CartContext.tsx:62-65 | server lines map to cart lines of the same length and order, each quantity being the line's quantity |
| Cart.FindLine | app/context/CartContext.tsx:148 | None exactly when no line has the product; otherwise the first line whose product id matches |
| Cart.ReduceIsSum | app/context/CartContext.tsx:192-196 | the left fold from an accumulator equals the accumulator plus the sum |
| Cart.TotalItems | app/context/CartContext.tsx:192 | the unit count is the sum of `cart_quantity` over the lines |
| Cart.TotalPrice | app/context/CartContext.tsx:193-196 | the total is the sum over lines of the discounted-or-list unit price times the quantity |
| Cart.TotalsAppend | app/context/CartContext.tsx:192-196 | both totals split over any cut of the line list |
| Cart.TotalItemsAtLeastLines | app/context/CartContext.tsx:192 | with every quantity at least 1 there are at least as many units as lines |
| Cart.FetchedTotalItems | app/context/CartContext.tsx:60-66 | after a fetch the unit count is the sum of the server's line quantities |
| Cart.TotalsExample | app/context/CartContext.tsx:193-196 | a set discount price replaces the price; a zero discount price falls back to the price |
| Cart.CartStore.constructor | app/context/CartContext.tsx:37-42 | empty lines, no ids in flight, not loading, first fetch pending |
| Cart.CartStore.ChangeUser | app/context/CartContext.tsx:76-78 | a new user triggers a fetch; signing out empties the lines |
| Cart.CartStore.FetchCart | app/context/CartContext.tsx:44-74 | no user: lines emptied and nothing else touched. An ok reply with `cart_items` replaces the lines; a throw or error status keeps them. Loading is raised only on the first fetch, and both flags end false |
| Cart.CartStore.AddToCart | app/context/CartContext.tsx:80-107 | no-op without a user; re-fetches only on an ok POST; the product id leaves the in-flight set and no other id changes |
| Cart.CartStore.RemoveFromCart | app/context/CartContext.tsx:109-132 | no-op without a user; re-fetches exactly when the DELETE resolves; the id leaves the in-flight set |
| Cart.CartStore.UpdateQuantity | app/context/CartContext.tsx:134-170 | quantity at most 0 acts as a removal. Otherwise the PATCH goes to the matching line's server id. PATCH and re-fetch happen only when a line matches, and the id leaves the in-flight set |
| Cart.CartStore.ClearCart | app/context/CartContext.tsx:172-190 | no-op without a user; lines emptied exactly when the DELETE resolves; loading ends false |
| Wishlist.IdsOf | app/context/WishlistContext.tsx:46 | one id per record, `ids[i]` is `items[i].id` |
| Wishlist.Includes | app/context/WishlistContext.tsx:63 | true exactly when the id occurs in the list |
| Wishlist.WithoutId | app/context/WishlistContext.tsx:74 | exactly the ids other than the removed one remain |
| Wishlist.WithoutProduct | app/context/WishlistContext.tsx:75 | exactly the records with another id remain |
| Wishlist.WithoutIdAppend | app/context/WishlistContext.tsx:74 | the filter works piecewise, so the remaining ids keep their relative order |
| Wishlist.WithoutAbsentId | app/context/WishlistContext.tsx:74 | removing an absent id changes nothing |
| Wishlist.UnlikeKeepsLockStep | app/context/WishlistContext.tsx:73-76 | dropping a product's records and dropping its id agree, so ids stay the ids of the records |
| Wishlist.FailedLikeForgetsEarlierLike | app/context/WishlistContext.tsx:102-103 | rolling back a like removes the id entirely, including an earlier like |
| Wishlist.WishlistStore.constructor | app/context/WishlistContext.tsx:21-23 | empty lists in lock-step, not loading |
| Wishlist.WishlistStore.ChangeUser | app/context/WishlistContext.tsx:58-60 | a user change re-fetches; signing out empties both lists |
| Wishlist.WishlistStore.FetchWishlist | app/context/WishlistContext.tsx:26-56 | no user: both lists empty. An ok reply sets ids and records in lock-step, in server order; otherwise both are unchanged. Loading ends false |
| Wishlist.WishlistStore.IsInWishlist | app/context/WishlistContext.tsx:62-64 | true exactly when the id is in `wishlistIds` |
| Wishlist.WishlistStore.ApplyOptimistic | app/context/WishlistContext.tsx:69-76 | a like appends the id (duplicates allowed) and leaves the records; an unlike removes the id and its records and keeps lock-step |
| Wishlist.WishlistStore.Settle | app/context/WishlistContext.tsx:99-108 | nothing unless the call threw. A failed like drops the id; a failed unlike appends it and re-fetches |
| Wishlist.WishlistStore.SyncWishlist | app/context/WishlistContext.tsx:66-109 | no-op without a user; the optimistic step followed by rollback only on a throw, case by case; `loading` changes only through the re-fetch after a failed unlike |
| Auth.PayloadOf | app/context/AuthContext.tsx:79-87 | the register body wraps the fields under `user`, with the confirmation from `confirmPassword` |
| Auth.PayloadOfInjective | app/context/AuthContext.tsx:79-87 | no form field is lost in the payload |
| Auth.RegisterFailureMessage | app/context/AuthContext.tsx:100-102 | no `errors`: "Registration failed"; an array: its items joined by ", ", so one error is that error, an empty array gives "", and the length is the parts plus the separators |
| Auth.Session.constructor | app/context/AuthContext.tsx:27-29 | no user, no error, loading, over the given storage |
| Auth.Session.Restore | app/context/AuthContext.tsx:31-46 | the user is restored only when both keys are truthy and the user parses; a parse failure removes both keys; loading ends false |
| Auth.Session.SignIn | app/context/AuthContext.tsx:59-73 | an ok reply stores token and user and signs in; otherwise it rethrows, records the message and changes neither user nor storage |
| Auth.Session.Login | app/context/AuthContext.tsx:48-74 | as SignIn, with the default message "Login failed"; the error is reset first |
| Auth.Session.Register | app/context/AuthContext.tsx:75-110 | sends the wrapped payload and never signs in. Failures carry the transport's throw or the joined `errors` |
| Auth.Session.VerifyOtp | app/context/AuthContext.tsx:112-136 | success is exactly a login success; the default failure is "Verification failed" |
| Auth.Session.ResendOtp | app/context/AuthContext.tsx:138-156 | never changes the user or the storage; a failure's default is "Resend failed" |
| Auth.Session.Logout | app/context/AuthContext.tsx:158-162 | removes exactly the "token" and "user" keys and signs out |
| Auth.LoginThenReload | app/context/AuthContext.tsx:31-74 | a login survives a reload when the user's serialisation parses back |
| Auth.LogoutThenReload | app/context/AuthContext.tsx:158-162 | after a logout a reload restores nobody |
| AuthModal.DigitsOnly | app/components/AuthModal.tsx:204 | keeps only digits drawn from the input, never lengthens, keeps the length exactly when all are digits, and maps one character to itself if a digit and to "" otherwise |
| AuthModal.DigitsOnlyAppend | app/components/AuthModal.tsx:204 | the digit filter works piecewise, so with the one-character case it is `replace(/[^0-9]/g, '')` |
| AuthModal.OtpInput | app/components/AuthModal.tsx:199-204 | the code field holds at most six digits, six typed digits are kept, and it is full exactly when the first six characters typed are digits |
| AuthModal.Modal.constructor | app/components/AuthModal.tsx:14-30 | sign-in form step, empty code, countdown 30, no error, empty fields |
| AuthModal.Modal.Open | app/components/AuthModal.tsx:33-46 | opening resets step, tab, code, countdown, error and all form fields |
| AuthModal.Modal.Tick | app/components/AuthModal.tsx:49-57 | the countdown drops by one only on the code step above zero, so it never goes negative |
| AuthModal.Modal.SetIsLogin | app/components/AuthModal.tsx:160-172 | the tab switch sets the mode |
| AuthModal.Modal.ChangeOtp | app/components/AuthModal.tsx:204 | the code becomes the filtered input and stays six digits at most |
| AuthModal.Modal.VerifyEnabled | app/components/AuthModal.tsx:211 | verify is enabled iff the code has six characters and nothing is loading; then the code is six digits |
| AuthModal.TypeCodeThenVerify | app/components/AuthModal.tsx:199-211 | after typing into an idle dialog, verify is enabled exactly when the first six characters typed are digits |
| AuthModal.Modal.HandleSubmit | app/components/AuthModal.tsx:59-86 | sign-in success closes, keeps the step and stores the token and user. Mismatched passwords fail with "Passwords do not match" without calling register. Register success moves to the code step with countdown 30. The session's error is the thrown message; the typed fields and the session's loading flag are unchanged; loading ends false |
| AuthModal.Modal.HandleVerifyOtp | app/components/AuthModal.tsx:88-101 | closes exactly on a verified code, which stores the token and user; a failure leaves the storage and shows the message or "Verification failed"; the typed fields are unchanged; loading ends false |
| AuthModal.Modal.HandleResendOtp | app/components/AuthModal.tsx:103-113 | no-op while the countdown runs; otherwise it restarts at 30 and falls back to 0 on failure, with the session's error set to the message; user, storage, tab and typed fields never change |
| SalesChart.Split | app/components/admin/SalesChart.tsx:96-100 | the four segments sum to max(profit, expense). The bottoms sum to the min. At most one top is non-zero, and it belongs to the larger series. All are non-negative for non-negative inputs |
| SalesChart.ProcessedData | app/components/admin/SalesChart.tsx:78-102 | one bar per month, same order, carrying the month unchanged |
| SalesChart.MaxVal | app/components/admin/SalesChart.tsx:105 | the largest bar height, attained by some month; None (for -Infinity) exactly on no months |
| SalesChart.Step | app/components/admin/SalesChart.tsx:108 | the step is 1000 or 2000, and 2000 exactly above ten thousand |
| SalesChart.StepRule | app/components/admin/SalesChart.tsx:105-108 | on any data, the step is 2000 exactly when some bar is taller than 10000 |
| SalesChart.CeilDiv | app/components/admin/SalesChart.tsx:111 | the ceiling of the quotient: the least q with q·d ≥ a |
| SalesChart.YMaxBounds | app/components/admin/SalesChart.tsx:111 | yMax ≥ 10000, ≥ every bar, a multiple of the step, and one step less would fall short |
| SalesChart.Ticks | app/components/admin/SalesChart.tsx:112 | `yMax/step + 1` ticks with `ticks[i] = i·step` |
| SalesChart.TicksCoverAxis | app/components/admin/SalesChart.tsx:112 | ticks start at 0, end at yMax, strictly increase, and reach every bar |
| SalesChart.RawDataAxis | app/components/admin/SalesChart.tsx:105-112 | on the chart's data: max 9800, step 1000, yMax 10000, 11 ticks |
| SalesChart.SeriesOf | app/components/admin/SalesChart.tsx:32-34 | the two profit segments map to profit, the two expense segments to expense, anything else to none |
| SalesChart.Tooltip | app/components/admin/SalesChart.tsx:29-69 | a tooltip shows exactly when active with a payload, a mapped segment and a data item. It reports the month's full value of that series |
| SalesChart.HoverReportsMonthValue | app/components/admin/SalesChart.tsx:38-42 | hovering any segment of a processed month reports the month's own profit or expense |
| Profile.Normalize | app/profile/page.tsx:63-74 | each text field is the server value, or "" when missing or empty; the avatar passes through |
| Profile.SetField | app/profile/page.tsx:89-92 | only the named field changes |
| Profile.Merge | app/profile/page.tsx:176 | keys present in the reply override the record; absent keys keep it |
| Profile.TextFieldsDecide | app/profile/page.tsx:200 | records with the avatar blanked are equal iff every text field agrees |
| Profile.IsModified | app/profile/page.tsx:200 | false with no saved copy; otherwise true iff some text field differs, ignoring the avatar |
| Profile.GetAvatarUrl | app/profile/page.tsx:202-208 | missing or empty gives none, "http…" is unchanged, else the origin is prefixed; a result always starts with "http" |
| Profile.UploadErrorMessage | app/profile/page.tsx:134 | an `errors` array joined by ", ", else "Failed to upload avatar" |
| Profile.SaveErrorMessage | app/profile/page.tsx:182 | an array joined by ", ", a truthy non-array verbatim, else "Failed to update profile" |
| Profile.ErrorMessagesAgreeOnArrays | app/profile/page.tsx:182 | both handlers agree on arrays, and a single message is shown as it is |
| Profile.DisplayId | app/profile/page.tsx:275 | the id's decimal form left-padded with '0' to width 8, or "UNKNOWN" without an id |
| Profile.DisplayIdRoundTrip | app/profile/page.tsx:275 | an id below 10^8 shows as exactly eight digits that read back as the id |
| Profile.RequestOf | app/profile/page.tsx:162-171 | the save body carries the eight editable fields, neither email nor avatar |
| Profile.CacheBusted | app/profile/page.tsx:121 | the new avatar URL starts with the returned URL |
| Profile.AvatarIgnored | app/profile/page.tsx:123-129 | changing the avatar on both records leaves the dirty check unchanged |
| Profile.ProfilePage.constructor | app/profile/page.tsx:29-43 | blank profile, no saved copy, loading, not saving |
| Profile.ProfilePage.Load | app/profile/page.tsx:47-87 | no user: redirect, nothing changes. An ok reply sets both records to the normalised data, leaving nothing modified. A throw shows the load toast. Loading ends false |
| Profile.ProfilePage.HandleInputChange | app/profile/page.tsx:89-92 | only the named field changes; a value differing from the saved copy makes the page modified |
| Profile.ProfilePage.SaveEnabled | app/profile/page.tsx:397 | save is enabled iff not saving and modified |
| Profile.SetFieldModifies | app/profile/page.tsx:89-92 | editing a freshly loaded record marks it modified exactly when the value differs |
| Profile.EditThenSave | app/profile/page.tsx:47-200 | save is disabled after a load, enabled by an edit exactly when the value differs, and disabled again after a successful save |
| Profile.ProfilePage.HandleFileChange | app/profile/page.tsx:98-147 | with a file and an ok reply, only the avatar changes in both records. Failures keep the records and toast the reason. Saving ends false, and the dirty check is never affected |
| Profile.ProfilePage.HandleSubmit | app/profile/page.tsx:149-191 | sends the editable fields. Success makes the merged record both current and saved, so nothing is modified. Failures keep the records and toast the reason. Saving ends false |
| Profile.ProfilePage.AvatarLoadFailed | app/profile/page.tsx:240 | a broken image drops the avatar URL and leaves the dirty check unchanged |
| Profile.ProfilePage.HandleLogout | app/profile/page.tsx:193-197 | signs out of the session, removing both keys and leaving its error and loading flag; toasts and returns the target "/" |
| UrlSearchParams.Get | app/components/SearchBar.tsx:19 | none exactly when no pair has the name; otherwise the value of the first such pair |
| UrlSearchParams.Delete | app/components/SearchBar.tsx:26-28 | exactly the pairs with other names remain; a single pair is kept or dropped by its name |
| UrlSearchParams.DeleteAppend | app/components/SearchBar.tsx:26-28 | the delete works pair by pair, so kept pairs stay in order, each once |
| UrlSearchParams.SetInPlace | app/components/SearchBar.tsx:24 | `set` overwrites the first pair with the name in place, drops later ones and keeps earlier pairs |
| UrlSearchParams.DeleteIdempotent | app/components/SearchBar.tsx:26-28 | deleting twice is deleting once |
| UrlSearchParams.DeleteCommutes | app/components/SearchBar.tsx:26-28 | deletes of two names commute |
| UrlSearchParams.GetAfterDeleteOther | app/components/SearchBar.tsx:26-28 | deleting one name does not change what another reads |
| UrlSearchParams.DeleteSpec | app/components/SearchBar.tsx:26-28 | after a delete the name is absent |
| UrlSearchParams.SetGet | app/components/SearchBar.tsx:24 | after `set` the name reads the new value |
| UrlSearchParams.SetCount | app/components/SearchBar.tsx:24 | after `set` the name occurs exactly once |
| UrlSearchParams.SetKeepsOthers | app/components/SearchBar.tsx:24 | `set` keeps every pair with another name, in order |
| UrlSearchParams.SetAppendsWhenAbsent | app/components/SearchBar.tsx:24 | with no such pair, `set` appends at the end |
| UrlSearchParams.SerializeSnoc | app/components/SearchBar.tsx:29 | appending a pair appends "&name=value" to the serialisation |
| UrlSearchParams.SearchParams.constructor | app/components/SearchBar.tsx:22 | the copy holds the same pairs |
| UrlSearchParams.SearchParams.SetParam | app/components/SearchBar.tsx:24 | the list becomes the `set` result: the new value reads back, other names unchanged |
| UrlSearchParams.SearchParams.DeleteParam | app/components/SearchBar.tsx:26-28 | the list loses every pair with the name |
| SearchBar.TermOf | app/components/SearchBar.tsx:19 | the `q` value, or "" when absent |
| SearchBar.HandleSearch | app/components/SearchBar.tsx:17-32 | no navigation exactly when the term equals the current one. Otherwise the copy is `q` set (in place) or deleted, then `page` deleted: `page` is gone, other pairs keep their order, the target is "/?" plus the serialised copy, and the new URL's term is the term |
| ProductGrid.QueryOf | app/components/ProductGrid.tsx:28 | `q`, or "" when absent or empty |
| ProductGrid.PageOf | app/components/ProductGrid.tsx:29 | `page`, or "1" when absent or empty |
| ProductGrid.Endpoint | app/components/ProductGrid.tsx:36-40 | the search endpoint iff the query is non-empty; both end with the page |
| ProductGrid.PaginationStaysInRange | app/components/ProductGrid.tsx:114-127 | an enabled arrow leads to a page within range, and with several pages one arrow is enabled |
| ProductGrid.Grid.constructor | app/components/ProductGrid.tsx:22-25 | no products, no metadata, loading, no error |
| ProductGrid.Grid.FetchProducts | app/components/ProductGrid.tsx:31-62 | requests the chosen endpoint. An ok reply takes products (default none) and metadata (default null). A non-ok reply or a throw sets the message and keeps the data. Loading ends false |
| ProductGrid.Grid.Render | app/components/ProductGrid.tsx:70-111 | spinner iff loading, then the stored error message, then the empty notice with "Clear search" iff a query, then the grid with pagination iff meta and more than one page |
| ProductGrid.HandlePageChange | app/components/ProductGrid.tsx:64-68 | the copy is `set("page", n)` of the parameters (in place, by SetInPlace): `page` reads the new number, every other name reads as before, target "/?" plus the serialised copy |
| ProductGrid.FailureShowsError | app/components/ProductGrid.tsx:44-84 | a failed fetch after a good one renders the error, not stale products |
| Notifications.Unread | app/data/notifications.ts:33 | exactly the unread entries |
| Notifications.UnreadCount | app/data/notifications.ts:33 | the count never exceeds the number of notifications |
| Notifications.UnreadCountAppend | app/data/notifications.ts:33 | the count splits over any cut of the list |
| Notifications.UnreadCountExtremes | app/data/notifications.ts:33 | zero iff all read; the full length iff none read |
| Notifications.SeedFacts | app/data/notifications.ts:9-33 | the seed list has two unread entries and distinct ids |

## Left out

- Network, storage, navigation and toasts are not performed. Each `fetch` is an
  `Outcome` parameter. `localStorage` is a `map<string, string>`. Navigation targets and
  toast messages are return values. `console.error` is dropped.
- Library functions are abstract parameters: `JSON.stringify` and `JSON.parse` of a user
  (`encode`, `decode`), `encodeURIComponent`, and the form-urlencoded serializer.
  `new URLSearchParams(params.toString())` is modelled as a copy of the list, so parsing
  back what was serialised is assumed to give the same pairs.
- Timers and the clock. The countdown's `setInterval` is one `Tick` per second, and the
  search box's 300 ms debounce is left to the caller of `HandleSearch`. `Date.now()` is
  the parameter `now`, and the notification timestamps are not part of this model.
- Concurrency. Interleaved cart or wishlist calls and React's state batching are not
  modelled. Each handler runs to completion, and a functional state update applies to the
  state as the previous step left it.
- Numbers. Prices are integers in minor units, so `Number(...)` coercion of string
  prices, floating point and locale formatting are not modelled. Integers are unbounded.
- JSON values of an unexpected type are not modelled: a number where a string is
  expected, a non-array `errors` on register, extra keys merged into the profile. A
  non-Error throw shows the fixed fallback, and the message it would store is None.
- Presentation is not modelled: markup, animation, Recharts and image rendering, the
  password visibility toggles, `isCartOpen`, the dialog's plain field setters, and the
  profile initials and name line (these use Unicode `toUpperCase`). The "Clear search"
  navigation and the hover handlers are not modelled either. The hovered segment is the
  tooltip's `activeBar` parameter.
- The wishlist's debounced caller is left out: no shown component calls `syncWishlist`.
- UrlSearchParams.Set: its promises are the lemmas SetGet, SetCount, SetKeepsOthers and
  SetAppendsWhenAbsent, not an `ensures` of its own.
- Profile.Merge: a reply key present with the value null is read as absent, so the model keeps
  the old field where `{ ...profile, ...data }` copies the null into both records and the next
  save sends it. The record's text fields are strings here and cannot hold null.
- SalesChart.MaxVal: `Math.max` of no arguments is -Infinity. It is None here, and
  `Step` and `YMax` treat None as the code treats -Infinity.
