# Shopping app core, modelled in Dafny

This project models the state and logic behind a small React Native
shopping app. That core has seven parts:

- **The store** (`store/useStore.ts`). It holds the cart lines, the favourites,
  the product and category catalogue and the light/dark theme preference. Its
  actions add to, remove from and re-quantify the cart, clear it, add and
  remove favourites, replace the catalogue and set or toggle the theme. Its
  reads give the cart total and item count, the favourite check, products by
  category and the case-insensitive search.
- **The notification drawer** (`components/NotificationDrawer.tsx`). It holds
  the notification list and whether the drawer is open. It can mark one
  notification read, mark all read, clear all, and show the unread badge count.
- **A notification row** (`components/NotificationItem.tsx`). It picks an icon
  by type and writes the relative-time label ("Just now", "5m ago", "3h ago",
  "2d ago", or the date).
- **The login form** (`app/login.tsx`). It validates the email against its
  regular expression and the password against its minimum length, and it
  clears a field's error when the field is edited.
- **The filter sheet** (`components/FilterModal.tsx`). It edits sort order,
  price range and minimum rating, and supports reset and apply. It also decides
  which rows and stars are highlighted.
- **The product detail screen** (`app/product-detail.tsx`). It looks up the
  product by its route id and keeps a quantity selector that never goes below
  1. It adds the chosen quantity to the cart one unit at a time, toggles the
  favourite and shows a total price.
- **The colour scheme hook** (`hooks/useColorScheme.ts`). It uses the store's
  theme, then the system scheme, then light. Before hydration it is always
  light.

How each part is written:

- There is one Dafny module per source file. `Seqs` and `Text` are shared
  helpers: a filter over sequences, first-match search, membership and
  subsequence facts, ASCII lower-casing, substring search, and decimal
  rendering of naturals.
- Objects whose fields the source updates in place are Dafny classes:
  - the store is `Store.ShoppingStore`;
  - the drawer is `NotificationDrawer.Drawer`;
  - the login form is `Login.LoginForm`;
  - the filter sheet is `FilterModal.FilterSheet`;
  - the detail screen is `ProductDetail.ProductDetailScreen`.
- Each method states its new state through a function of the old state, and
  the properties are proved as lemmas about those functions.
- The store's actions are total, as in the source. They need no
  precondition. Each one keeps the invariant `Valid()` when it held before.
  `Valid()` means one cart line per product id, every quantity at least 1,
  and no two favourites with the same id.
- Prices are whole numbers of the smallest currency unit.
- Time is a difference in milliseconds passed in as a parameter. The
  locale-formatted date is also a parameter.

Two behaviours of the source are stated as lemmas rather than treated as
defects:

- A cart line keeps the product as it was first added. Adding a product whose
  id is already in the cart raises that line's quantity, and the line's stored
  price stays. So the detail screen's "Total Price" is guaranteed to equal
  what the cart total grows by only when the cart had no line for that
  product. Otherwise the growth uses the line's stored price, which differs
  from the shown one only if the listed price changed since the line was
  created. `ProductDetail.ShownTotalMatchesCart` states both cases.
- The store's theme is never empty. So once hydrated, the colour scheme hook
  always follows the store, and the system scheme never decides.
  `ColorScheme.StoreThemeDecides` states this.

## Model

| member | source | states |
|---|---|---|
| Text.Lower | store/useStore.ts:153 | lower-casing keeps the length and lowers every character independently |
| Text.LowerIdempotent | store/useStore.ts:153 | lower-casing an already lower-cased string changes nothing |
| Text.LowerOccursAt | store/useStore.ts:153-157 | lower-casing both strings keeps an occurrence at the same offset |
| Text.LowerContains | store/useStore.ts:153-157 | if a field contains the query as written, its lower-cased form contains the lower-cased query |
| Text.Decimal | components/NotificationItem.tsx:73-75 | a natural renders as a non-empty run of decimal digits with no leading zero unless it is 0 |
| Text.DecimalRoundTrip | components/NotificationItem.tsx:73-75 | reading the rendered digits back gives the number |
| Text.DecimalInjective | components/NotificationItem.tsx:73-75 | different counts render as different labels |
| Store.AddedToCart | store/useStore.ts:70-87 | afterwards the cart has a line for the product; if it had one, the length and each line's product stay and only matching lines gain 1; otherwise a line of quantity 1 is appended |
| Store.AddedToCartAt | store/useStore.ts:74-81 | in a well-formed cart, adding a product that has line k raises exactly line k's quantity by 1 |
| Store.AddedToCartPreservesWellFormed | store/useStore.ts:70-87 | adding keeps one line per id with positive quantities |
| Store.AddedToCartExistingTotals | store/useStore.ts:74-81 | adding a product already in the cart raises the item count by 1 and the total by the line's stored price |
| Store.AddedToCartNewTotals | store/useStore.ts:82-86 | adding a product not in the cart raises the item count by 1 and the total by its price |
| Store.AddedTimesExisting | store/useStore.ts:74-81 | n additions of a product already in the cart raise its line's quantity by n and change nothing else |
| Store.RaisedLineWellFormed | store/useStore.ts:74-81 | raising one line's quantity keeps the cart well formed |
| Store.AddedTimesNew | store/useStore.ts:82-86 | n >= 1 additions of a product not in the cart append one line with quantity n |
| Store.AddedTimesFromEmpty | store/useStore.ts:70-87 | from an empty cart, n >= 1 additions leave exactly one line with quantity n |
| Store.RemovedFromCart | store/useStore.ts:89-93 | afterwards no line has the id; exactly the lines with other ids are kept, in their order; removing an absent id changes nothing |
| Store.RemovedFromCartAt | store/useStore.ts:89-93 | in a well-formed cart, removing the id of line k drops exactly that line |
| Store.RemovedFromCartPreservesWellFormed | store/useStore.ts:89-93 | removal keeps one line per id with positive quantities |
| Store.RemovedFromCartTotals | store/useStore.ts:89-93 | removal lowers the total by the line's price times quantity and the count by its quantity |
| Store.UpdatedQuantity | store/useStore.ts:95-106 | a quantity of 0 or less removes the line; a positive one replaces the quantity of matching lines only; an absent id changes nothing |
| Store.UpdatedQuantityAt | store/useStore.ts:101-105 | in a well-formed cart, a positive quantity replaces exactly line k's quantity, and the count changes by the difference |
| Store.UpdatedQuantityPreservesWellFormed | store/useStore.ts:95-106 | updating keeps one line per id with positive quantities |
| Store.RemovedFromCartIdempotent | store/useStore.ts:89-93 | removing the same id twice is removing it once |
| Store.CartTotal | store/useStore.ts:112-114 | the total of an empty cart is 0, and it is never negative when no price or quantity is |
| Store.CartItemCount | store/useStore.ts:116-118 | the count of an empty cart is 0, and with every quantity at least 1 it is at least the number of lines |
| Store.CartTotalsLeftToRight | store/useStore.ts:112-118 | the totals as the reduce computes them, first line to last: the last line adds price times quantity to the total of the lines before it, and its quantity to their count |
| Store.SumLast | store/useStore.ts:112-118 | the fold from the front equals the fold with the last line added at the end |
| Store.Sum | store/useStore.ts:112-118 | the fold over lines is non-negative when every line's contribution is |
| Store.SumAppend | store/useStore.ts:112-118 | the fold over two carts joined is the sum of the folds |
| Store.SumUpdate | store/useStore.ts:112-118 | replacing one line changes the fold by the difference of the two lines' contributions |
| Store.SumRemove | store/useStore.ts:112-118 | dropping one line lowers the fold by that line's contribution |
| Store.ItemCountAtLeastLines | store/useStore.ts:116-118 | in a well-formed cart the item count is at least the number of lines |
| Store.DifferentLines | store/useStore.ts:70-87 | in a well-formed cart two different lines have different product ids |
| Store.AddTwiceThenUpdateScenario | store/useStore.ts:70-114 | from an empty cart, adding a product twice and then setting its quantity to 5 leaves one line of 5 and a total of 5 times its price |
| Store.AddedToFavorites | store/useStore.ts:121-126 | afterwards the product is a favourite; a present id leaves the list unchanged, an absent one is appended; no other id's status changes |
| Store.IsFavorite | store/useStore.ts:134-136 | `some` on the favourites holds exactly when the `find` that addToFavorites tests finds a favourite with the id |
| Store.AddedToFavoritesKeepsDistinct | store/useStore.ts:121-126 | adding keeps favourite ids distinct |
| Store.AddedToFavoritesIdempotent | store/useStore.ts:121-126 | adding the same product twice is adding it once |
| Store.RemovedFromFavorites | store/useStore.ts:128-132 | afterwards the id is not a favourite; exactly the favourites with other ids are kept, in order; no other id's status changes; removing an id that is not a favourite changes nothing |
| Store.RemovedFromFavoritesIdempotent | store/useStore.ts:128-132 | removing the same favourite id twice is removing it once |
| Store.ProductsByCategory | store/useStore.ts:147-149 | the result is exactly the products of that category, in catalogue order, each with as many copies as the catalogue holds |
| Store.SearchProducts | store/useStore.ts:151-159 | the result is exactly the products whose lower-cased name, description or category contains the lower-cased query, in catalogue order, each with as many copies as the catalogue holds |
| Store.SearchEmptyQuery | store/useStore.ts:151-159 | the empty query returns the whole catalogue |
| Store.SearchIgnoresQueryCase | store/useStore.ts:153 | lower-casing the query first does not change the result |
| Store.Matches | store/useStore.ts:154-158 | the empty query matches every product, and a matching query is no longer than one of the three fields |
| Store.SearchFindsContaining | store/useStore.ts:151-159 | every product whose name, description or category contains the query as written is found, in any catalogue |
| Store.Toggled | store/useStore.ts:163 | toggling always changes the theme |
| Store.ToggledTwice | store/useStore.ts:163 | toggling twice restores the theme |
| Store.ShoppingStore.constructor | store/useStore.ts:62-67 | empty cart, favourites and catalogue, light theme, invariant established |
| Store.ShoppingStore.Partialize | store/useStore.ts:169-173 | the persisted snapshot holds exactly the cart, the favourites and the theme, and satisfies the cart and favourites invariants whenever the store does |
| Store.ShoppingStore.AddToCart | store/useStore.ts:70-87 | the cart becomes AddedToCart of the old cart, the other fields stay, the invariant is kept and the item count grows by 1 |
| Store.ShoppingStore.RemoveFromCart | store/useStore.ts:89-93 | the cart becomes RemovedFromCart of the old cart, the other fields stay, the invariant is kept |
| Store.ShoppingStore.UpdateQuantity | store/useStore.ts:95-106 | the cart becomes UpdatedQuantity of the old cart (removal at 0 or less), the other fields stay, the invariant is kept |
| Store.ShoppingStore.ClearCart | store/useStore.ts:108-110 | the cart is empty with total and count 0, the other fields stay |
| Store.ShoppingStore.AddToFavorites | store/useStore.ts:121-126 | the favourites become AddedToFavorites of the old list and the product is a favourite, the other fields stay |
| Store.ShoppingStore.RemoveFromFavorites | store/useStore.ts:128-132 | the favourites become RemovedFromFavorites of the old list and the id is not a favourite, the other fields stay |
| Store.ShoppingStore.SetProducts | store/useStore.ts:139-141 | the catalogue is replaced, nothing else changes, and the persisted snapshot is unchanged |
| Store.ShoppingStore.SetCategories | store/useStore.ts:143-145 | the categories are replaced, nothing else changes, and the persisted snapshot is unchanged |
| Store.ShoppingStore.SetTheme | store/useStore.ts:162 | the theme is replaced, nothing else changes |
| Store.ShoppingStore.ToggleTheme | store/useStore.ts:163 | the theme becomes the other one, nothing else changes |
| NotificationItem.Icon | components/NotificationItem.tsx:35-48 | each type has its own symbol: cart for orders, checkmark for success, triangle for warnings, cross for errors, and the fallback bell exactly for the informational type |
| NotificationItem.IconInjective | components/NotificationItem.tsx:35-48 | different types get different icons |
| NotificationItem.HoursFromMinutes | components/NotificationItem.tsx:68-69 | the floored minutes floored by 60 equal the floored hours |
| NotificationItem.DaysFromHours | components/NotificationItem.tsx:68-70 | the floored hours floored by 24 equal the floored days |
| NotificationItem.FormatTimestamp | components/NotificationItem.tsx:65-77 | under a minute, including the future, gives "Just now"; then minutes 1-59, hours 1-23 and days 1-6, each the floor of the millisecond difference; a week or more gives the date |
| NotificationDrawer.UnreadCount | components/NotificationDrawer.tsx:110 | the badge never exceeds the number of notifications |
| NotificationDrawer.UnreadCountZero | components/NotificationDrawer.tsx:110 | the badge is 0 exactly when every notification is read |
| NotificationDrawer.MarkedRead | components/NotificationDrawer.tsx:92-98 | the notifications with the id become read; every other field and notification, the length and the order stay |
| NotificationDrawer.MarkedReadIdempotent | components/NotificationDrawer.tsx:92-98 | marking the same id twice is marking it once |
| NotificationDrawer.MarkedReadUnreadCount | components/NotificationDrawer.tsx:92-110 | marking an id lowers the badge by exactly the number of unread notifications with that id, never raising it |
| NotificationDrawer.AllMarkedRead | components/NotificationDrawer.tsx:100-104 | every notification becomes read and nothing else changes |
| NotificationDrawer.AllMarkedReadUnreadCount | components/NotificationDrawer.tsx:100-110 | after marking all read the badge is 0 |
| NotificationDrawer.Drawer.constructor | components/NotificationDrawer.tsx:76-77 | the drawer starts closed with the initial notifications |
| NotificationDrawer.Drawer.OpenDrawer | components/NotificationDrawer.tsx:80 | the drawer is open and the notifications stay |
| NotificationDrawer.Drawer.CloseDrawer | components/NotificationDrawer.tsx:81 | the drawer is closed and the notifications stay |
| NotificationDrawer.Drawer.MarkAsRead | components/NotificationDrawer.tsx:92-98 | the list becomes MarkedRead of the old list and the badge drops by the unread matches |
| NotificationDrawer.Drawer.MarkAllAsRead | components/NotificationDrawer.tsx:100-104 | the list becomes AllMarkedRead of the old list and the badge is 0 |
| NotificationDrawer.Drawer.ClearAllNotifications | components/NotificationDrawer.tsx:106-108 | the list is empty and the badge is 0 |
| NotificationDrawer.Drawer.HandleNotificationPress | components/NotificationDrawer.tsx:84-90 | tapping an unread notification marks its id read; tapping a read one changes nothing |
| Login.MatchesEmailPattern | app/login.tsx:75 | an email the regular expression accepts has at least 5 characters, an '@' and a '.', and no white space |
| Login.EmailShapeMatchesPattern | app/login.tsx:75 | the clause-by-clause email check accepts exactly the language of the email regular expression |
| Login.EmailError | app/login.tsx:73-77 | "required" exactly for the empty email, no error exactly for a non-empty match, "invalid" exactly for a non-empty mismatch |
| Login.PasswordError | app/login.tsx:80-84 | "required" exactly for the empty password, no error exactly from 6 characters on, "too short" exactly for 1 to 5 |
| Login.LoginForm.constructor | app/login.tsx:40-45 | both fields empty, no errors |
| Login.LoginForm.ValidateForm | app/login.tsx:69-88 | the errors are recomputed from the current fields only, and it succeeds exactly when the email matches and the password has at least 6 characters |
| Login.LoginForm.UpdateFormData | app/login.tsx:121-127 | the edited field takes the value and loses its error; the other field and its error stay |
| FilterModal.IsSortSelected | components/FilterModal.tsx:111 | when a sort row is highlighted, no other listed option's row is |
| FilterModal.IsPriceRangeSelected | components/FilterModal.tsx:186-188 | comparing both bounds highlights a row exactly when the chosen range is that row's range |
| FilterModal.IsStarHighlighted | components/FilterModal.tsx:267 | the lit stars are always the lowest ones: a lit star has every lower star lit, an unlit one every higher star unlit |
| FilterModal.HighlightedStars | components/FilterModal.tsx:266-267 | at most five stars are lit |
| FilterModal.ExactlyOneSortSelected | components/FilterModal.tsx:110-111 | exactly one sort row is highlighted |
| FilterModal.AtMostOnePriceRangeSelected | components/FilterModal.tsx:185-188 | at most one price row is highlighted |
| FilterModal.HighlightedStarsCount | components/FilterModal.tsx:266-267 | with a minimum rating from 0 to 5, exactly that many stars are lit; below 0 none, above 5 all five |
| FilterModal.TappedRating | components/FilterModal.tsx:290-295 | tapping gives 0 or the tapped rating, and 0 exactly when the tapped rating was the minimum (or is 0) |
| FilterModal.TappedRatingInRange | components/FilterModal.tsx:290-295 | from a minimum in 0..5, tapping any star keeps it in 0..5 |
| FilterModal.TappedRatingTwice | components/FilterModal.tsx:290-295 | tapping the same star twice from no minimum returns to no minimum |
| FilterModal.FilterSheet.constructor | components/FilterModal.tsx:79 | the sheet starts from the currently applied filters |
| FilterModal.FilterSheet.HandleApply | components/FilterModal.tsx:83-86 | the edited options are handed over unchanged |
| FilterModal.FilterSheet.HandleReset | components/FilterModal.tsx:88-95 | the options become popular, 0 to unbounded and no minimum rating, so no star is lit |
| FilterModal.FilterSheet.SelectSort | components/FilterModal.tsx:127-132 | only the sort order changes |
| FilterModal.FilterSheet.SelectPriceRange | components/FilterModal.tsx:204-209 | only the price range changes, to the tapped row, which is then highlighted |
| FilterModal.FilterSheet.TapRating | components/FilterModal.tsx:290-295 | only the minimum rating changes, as TappedRating says |
| ProductDetail.LookedUp | app/product-detail.tsx:39-44 | with an id and a non-empty catalogue the product becomes the first with that id, or none when there is none; otherwise the previous product stays |
| ProductDetail.RaisedLineTotal | app/product-detail.tsx:87-91 | n more units on a line add n times that line's stored price to its amount |
| ProductDetail.RaisedLineTotals | app/product-detail.tsx:87-91 | raising one line's quantity by n raises the count by n and the total by n times that line's price |
| ProductDetail.AppendedLineTotals | app/product-detail.tsx:87-91 | appending a line of n units raises the count by n and the total by n times its price |
| ProductDetail.AddedTimesExistingTotals | app/product-detail.tsx:87-91 | n units of a product already in the cart keep it well formed and add n to the count and n times the stored price to the total |
| ProductDetail.AddedTimesNewTotals | app/product-detail.tsx:87-91 | n units of a product not in the cart keep it well formed and add n to the count and n times its price to the total |
| ProductDetail.AddedTimesTotals | app/product-detail.tsx:87-91 | n units keep the cart well formed and add n to the count and n times the charged price to the total |
| ProductDetail.TotalPrice | app/product-detail.tsx:257 | the shown total is what a cart holding only that many units of the product would total |
| ProductDetail.ShownTotalMatchesCart | app/product-detail.tsx:257 | the cart total is guaranteed to grow by exactly the shown total when the cart had no line for the product; otherwise it grows by the quantity times the stored line's price |
| ProductDetail.ProductDetailScreen.constructor | app/product-detail.tsx:35-37 | no product shown yet, quantity 1 |
| ProductDetail.ProductDetailScreen.LookUp | app/product-detail.tsx:39-44 | the shown product becomes LookedUp of the old one, and the quantity stays |
| ProductDetail.ProductDetailScreen.Decrement | app/product-detail.tsx:224 | one less, never below 1 |
| ProductDetail.ProductDetailScreen.Increment | app/product-detail.tsx:235 | one more, keeping the quantity at least 1 |
| ProductDetail.ProductDetailScreen.HandleAddToCart | app/product-detail.tsx:87-91 | the cart becomes n additions of the product (n the quantity), nothing else in the store changes, the store invariant is kept, the count grows by n and the total by n times the charged price |
| ProductDetail.ProductDetailScreen.HandleToggleFavorite | app/product-detail.tsx:63-85 | a favourite is removed as RemovedFromFavorites says and a non-favourite added as AddedToFavorites says, so the product's status flips, no other product's status changes, and the rest of the store stays |
| ColorScheme.EffectiveScheme | hooks/useColorScheme.ts:6-18 | light before hydration; after it the store theme if set, else the system scheme if known, else light |
| ColorScheme.StoreThemeDecides | hooks/useColorScheme.ts:16-17 | with the store's always-set theme, the hydrated hook returns that theme whatever the system scheme |
| ColorScheme.ToggleFlipsScheme | hooks/useColorScheme.ts:16-17 | after toggleTheme the hydrated hook returns the other scheme |

## Left out

- Persistence is not modelled. The store is saved with zustand's `persist`
  middleware and AsyncStorage, rehydrated on start, and partialized. The model
  states only which fields the persisted snapshot holds
  (`ShoppingStore.Partialize`).
- Prices, totals and quantities are integers. So are a product's `rating`,
  `reviews`, `originalPrice` and `discount`. The source types all of them as
  floating-point `number` values (ratings such as 4.5) and renders totals
  with `toFixed(2)`, so fractions and rounding are not modelled. No modelled
  operation reads the four product fields.
- Text.Lower: lowers only A-Z. JavaScript's `toLowerCase` also lowers
  non-ASCII letters.
- String length: the source counts UTF-16 code units. The model counts
  characters.
- The clock is not modelled. `new Date()` becomes the millisecond difference
  passed to `FormatTimestamp`, and `toLocaleDateString()` becomes a string
  parameter.
- The system colour scheme is a parameter of `EffectiveScheme`. React's
  effect scheduling is reduced to the `hydrated` flag.
- The mock notifications, products and categories are not part of this
  model. They are sample data.
- The login's simulated two-second request, its alerts, the social-login and
  forgot-password alerts, and the loading flag are not modelled. They are
  timers and UI messages.
- The product detail screen's toasts are not modelled.
- The `console.log` in the drawer's notification-press handler is not
  modelled. It is a debugging side effect with no effect on state.
- `handleBuyNow` is not modelled. It is the modelled `handleAddToCart`
  followed by navigation.
- Routing is not modelled. The route parameter is taken as a single string,
  where the empty string stands for a missing one.
- Presentation is not modelled. That covers colours (including
  `getNotificationColor`), animations, scrolling, styles and the image
  carousel.
- The product detail lookup uses `products.find` on the store's catalogue.
  That catalogue is passed in as a sequence, so the store's subscription
  mechanism is not modelled.
