# DSicario storefront core, in Dafny

This project models the logic under the DSicario storefront app, a React Native
shop whose catalog comes from a spreadsheet API. It covers:

- the product catalog of `utils/api.js`: record normalisation, search,
  category and flag filters, the multi-key sort, the distinct category lists,
  product validation and discount pricing;
- the pure cart reducer of `utils/cart.js`, which matches entries by the string
  form of their id and applies no discounts;
- the live cart store and the product store of `contexts/AppContext.js`. The
  cart store is a class whose `cart` field is updated in place. It merges by
  `===` on add and update, but by `String(id)` on removal. Its totals apply
  discounts;
- the Levenshtein distance and the closest-name scan of `utils/stringUtils.js`;
- the search hook `hooks/useSearch.js`, as a class whose debounce timer is a
  pending event that fires or is cancelled;
- the logic of the four screens (product list, cart, checkout, product
  detail);
- the badge list of `components/ProductBadges.js` and the column clamp of
  `hooks/useResponsive.js`.

## Modules and files

| file | module | models |
|---|---|---|
| `options.dfy` | `Options` | `Option` |
| `text.dfy` | `Text` | ASCII `toLowerCase`, `trim`, `includes`, code-point comparison, `String(n)` |
| `sequences.dfy` | `Sequences` | `filter`, subsequences, counting, `new Set`, `slice` bounds, stable sort |
| `catalog.dfy` | `Catalog` | `utils/api.js` |
| `cart_utils.dfy` | `CartUtils` | `utils/cart.js` |
| `app_context.dfy` | `AppContext` | `contexts/AppContext.js` |
| `string_matcher.dfy` | `StringMatcher` | `utils/stringUtils.js` |
| `search.dfy` | `SearchHook` | `hooks/useSearch.js` |
| `product_list.dfy` | `ProductList` | `screens/ProductListScreen.js` |
| `cart_screen.dfy` | `CartScreen` | `screens/CartScreen.js` |
| `checkout.dfy` | `Checkout` | `screens/CheckoutScreen.js` |
| `product_detail.dfy` | `ProductDetail` | `screens/ProductDetailScreen.js` |
| `badges.dfy` | `Badges` | `components/ProductBadges.js` |
| `responsive.dfy` | `Responsive` | `hooks/useResponsive.js` |

### Modelling choices

- Ids are `NumId(n)` or `StrId(s)`. Datatype equality is `===`, so `NumId(7)`
  and `StrId("7")` differ. `IdString` is `String(id)`, under which they are the
  same key.
- Prices and discounts are exact reals. Ratings and quantities are
  unbounded integers.
- A fetched record's absent or unparsable fields are `None`. The `|| default`
  rules of `mapProductData` are applied to them.
- `sort` is stable (ECMAScript 2019). The model sorts by a stable insertion
  sort under the sign of each comparator.
- `localeCompare` and the default `sort()` of strings are modelled as
  lexicographic order on code points. A Dafny `string` is a sequence of
  Unicode scalar values. `toLowerCase` lowers ASCII letters only.
- The constants are those of `constants/index.js`:
  - `DEBOUNCE_DELAY` is 300;
  - `MIN_PRODUCT_WIDTH` is 150;
  - `MIN_COLUMNS` is 1 and `MAX_COLUMNS` is 3.
- State updates by React setters are modelled as taking effect immediately, in
  program order. A confirmation dialog is a boolean argument: the user's
  answer.
- Timers are discrete events:
  - the search debounce is `Search.TimerFires`;
  - the two-second payment delay is `CheckoutState.FinishPayment`.

## Model

| member | source | states |
|---|---|---|
| StringMatcher.Min3 | utils/stringUtils.js:18-22 | `Math.min` of three distances is one of them and below each |
| StringMatcher.Levenshtein | utils/stringUtils.js:2-27 | the early returns and the table fill give exactly the unit-cost edit distance of `a` and `b`. The loop invariant: every filled cell `matrix[i][j]` is the distance between `b[..i]` and `a[..j]` |
| StringMatcher.DistSymmetric | utils/stringUtils.js:13-26 | the table recurrence gives the same value with the two strings swapped |
| StringMatcher.MismatchSymmetric | utils/stringUtils.js:18-22 | the substitution/insertion/deletion step commutes with swapping the strings |
| StringMatcher.EditDistanceSymmetric | utils/stringUtils.js:2-27 | `levenshtein(a, b) == levenshtein(b, a)` |
| StringMatcher.DistSelf | utils/stringUtils.js:15-16 | a prefix is at distance 0 from itself |
| StringMatcher.EditDistanceBaseCases | utils/stringUtils.js:3-5 | distance 0 from itself; the empty string is at distance equal to the other string's length |
| StringMatcher.DistLowerBound | utils/stringUtils.js:13-26 | every table entry is at least the difference of the prefix lengths |
| StringMatcher.DistUpperBound | utils/stringUtils.js:13-26 | every table entry is at most the longer prefix length |
| StringMatcher.EditDistanceBounds | utils/stringUtils.js:2-27 | the result lies between the length difference and the larger length |
| StringMatcher.FindClosestProduct | utils/stringUtils.js:30-44 | null exactly for an empty term or an empty list. Otherwise some product at minimal distance from the lowered term to its lowered name, and the earliest such (strict `<`) |
| Catalog.TextOr | utils/api.js:29-35 | `field \|\| fallback` never yields an empty text when the fallback is non-empty: the mapped product always has a name and a category |
| Catalog.Description | utils/api.js:30-32 | `"categoria - subcategoria"` when `subcategoria` is truthy; else `categoria`, else `'Sin descripción'` |
| Catalog.MappedId | utils/api.js:28 | the API id when truthy, else the random fallback; never falsy |
| Catalog.MapProductData | utils/api.js:26-56 | id and name are never empty; `disponible == !agotado`; an unparsable price becomes 0; the description rule |
| Catalog.NormalizeProducts | utils/api.js:85-87 | the map-then-filter keeps every record, in order, each mapped |
| Catalog.ValidateProduct | utils/api.js:297-310 | accepts every product that `fetchProducts` keeps; an accepted product has a non-empty string id |
| Catalog.NormalizedProductsValidate | utils/api.js:297-310 | every normalised product passes `validateProduct` |
| Catalog.SearchProducts | utils/api.js:105-118 | a blank term returns the input; otherwise the in-order subsequence of products where one of the four lowered fields contains the trimmed, lowered term; a product kept occurs exactly as often as in the input |
| Catalog.FilterProductsByCategory | utils/api.js:126-134 | identity for `''` and `'all'`; otherwise the in-order subsequence with case-insensitively equal `categoria`; a product kept occurs exactly as often as in the input |
| Catalog.FilterProductsBySubcategory | utils/api.js:142-150 | identity for `''` and `'all'`; otherwise the in-order subsequence with case-insensitively equal `subcategoria`; a product kept occurs exactly as often as in the input |
| Catalog.ApplyAdvancedFilter | utils/api.js:155-164 | each `advancedFilters` entry gives the in-order subsequence passing its test; a product kept occurs exactly as often as in the input |
| Catalog.ParseSortKey | utils/api.js:175-219 | exactly the seven `case` labels are known keys |
| Catalog.CompareAntisymmetric | utils/api.js:201-216 | every comparator changes sign when its arguments are swapped |
| Catalog.CompareTransitive | utils/api.js:201-216 | every comparator's "not after" is transitive |
| Catalog.NotAfterIsTotalPreorder | utils/api.js:172-216 | each comparator induces a total preorder, so sorting by it is well defined |
| Catalog.SortProducts | utils/api.js:172-221 | the result is a permutation of the input (a sorted copy); an unknown key returns the original order |
| Catalog.SortProductsSorted | utils/api.js:172-216 | under a known key, no later product sorts strictly before an earlier one |
| Catalog.SortProductsByNumericKeys | utils/api.js:181-199 | `price-asc` gives non-decreasing price; `price-desc` and `rating` give non-increasing values |
| Catalog.SortProductsPopular | utils/api.js:201-208 | `popular`: best sellers first, then recommended, then higher rating, then name ascending |
| Catalog.SortProductsOffers | utils/api.js:210-216 | `offers`: on offer first, then higher discount, then lower price |
| Catalog.NonBlankTrimmed | utils/api.js:229-232 | keeps exactly the trimmed values of the non-blank entries |
| Catalog.UniqueSorted | utils/api.js:229-234 | trimming, dropping blanks, `new Set` and `sort()` give a strictly ascending list, so without duplicates, holding exactly the trimmed non-blank values |
| Catalog.UniqueSortedFacts | utils/api.js:234 | sorting distinct values gives a strictly ascending list with the same members |
| Catalog.GetCategories | utils/api.js:228-235 | strictly ascending, and holding exactly the trimmed non-blank categories |
| Catalog.ProductsInCategory | utils/api.js:244-250 | all products without a category; otherwise those whose category matches case-insensitively |
| Catalog.SubcategoryMembers | utils/api.js:252-257 | the distinct sorted list holds exactly the trimmed non-blank subcategories of the chosen products |
| Catalog.GetSubcategories | utils/api.js:243-258 | strictly ascending, and holding exactly the trimmed non-blank subcategories of the products in the requested category |
| Catalog.CalculateDiscountedPrice | utils/api.js:329-336 | the price when the discount is ≤ 0, else `price × (1 − d/100)`; within `[0, price]` for `0 ≤ d ≤ 100` |
| CartUtils.FindWhere | utils/cart.js:47-49 | `find`: absent exactly when nothing matches; otherwise the first match |
| CartUtils.FindCartItem | utils/cart.js:42-50 | null for a falsy id; otherwise the first entry whose string id equals the id's, present exactly when one matches |
| CartUtils.AddQuantityWhere | utils/cart.js:69-73 | matching entries gain `q`; the others and the length are unchanged |
| CartUtils.SetQuantityWhere | utils/cart.js:114-118 | matching entries get quantity `q`; the others and the length are unchanged |
| CartUtils.WithoutKey | utils/cart.js:91-93 | the in-order subsequence of entries whose string id differs, each as often as in the cart; unchanged when none matches |
| CartUtils.AddToCart | utils/cart.js:59-78 | a missing or id-less product leaves the cart; a present id (as strings) gains `quantity` in place; a new id is appended once at the end |
| CartUtils.AddToCartCount | utils/cart.js:59-78 | with string-unique ids, adding raises the item count by exactly `quantity` and keeps ids unique |
| CartUtils.RemoveFromCart | utils/cart.js:86-94 | a falsy id is a no-op; otherwise exactly the entries with that string id go, the rest stay in order |
| CartUtils.RemoveFromCartRemovesKey | utils/cart.js:86-94 | after removal no entry has the id, and ids stay unique |
| CartUtils.UpdateCartItemQuantity | utils/cart.js:103-119 | a falsy id is a no-op; a quantity ≤ 0 is `removeFromCart`; otherwise matching entries get exactly that quantity |
| CartUtils.UpdateCartItemQuantityKeepsKeys | utils/cart.js:103-119 | ids stay unique, and a positive quantity keeps the length |
| CartUtils.ClearCart | utils/cart.js:125-127 | the empty cart |
| CartUtils.CalculateCartTotal | utils/cart.js:8-18 | the sum of `precio × quantity`; never negative when every entry passes `validateCartItem` |
| CartUtils.CalculateCartItemCount | utils/cart.js:25-34 | the sum of the quantities; at least one per entry when every entry passes `validateCartItem` |
| CartUtils.ValidateCartItem | utils/cart.js:134-157 | a valid entry adds at least one item and a non-negative amount, and has a non-empty string id |
| CartUtils.TotalsAppend | utils/cart.js:8-34 | item count and total are additive over concatenation |
| CartUtils.AddQuantityCount | utils/cart.js:25-34 | adding `q` to the matching entries adds `q` per match to the item count |
| CartUtils.GetCartSummary | utils/cart.js:163-177 | keeps exactly the valid items, in order, each as often as in the cart. `isEmpty` iff no item is valid; `isValid` iff every item is; the totals are those of the valid items, so `totalItems ≥ uniqueProducts` and `totalCost ≥ 0` |
| AppContext.LineCost | contexts/AppContext.js:196-201 | a valid entry discounted by at most 100% costs between 0 and `precio × quantity` |
| AppContext.TotalCost | contexts/AppContext.js:195-202 | for valid entries discounted by at most 100%, the discounted total lies between 0 and the undiscounted total |
| AppContext.LineSavings | contexts/AppContext.js:209-216 | a valid entry never saves a negative amount |
| AppContext.TotalSavings | contexts/AppContext.js:208-218 | a cart of valid entries saves a non-negative amount |
| AppContext.LineCostPlusSavings | contexts/AppContext.js:195-218 | per line, discounted cost plus savings is price × quantity |
| AppContext.CostPlusSavings | contexts/AppContext.js:195-228 | `getTotalCost() + getTotalSavings() == originalTotal` in exact arithmetic |
| AppContext.NoDiscountNoSavings | contexts/AppContext.js:208-218 | without a positive discount nothing is saved and the cost is the original total |
| AppContext.CostSavingsExample | contexts/AppContext.js:195-228 | price 100, discount 20, quantity 2 gives 160, 40 and 200 |
| AppContext.QuantityOf | contexts/AppContext.js:248-251 | the quantity of the first `===` match, or 0 |
| AppContext.QuantityOfUnique | contexts/AppContext.js:248-251 | with unique ids, that is the quantity of the only entry with the id |
| AppContext.SameProductsSameIds | contexts/AppContext.js:154-158 | an update that keeps each entry's product keeps id uniqueness and membership |
| AppContext.AddToExistingEntry | contexts/AppContext.js:151-158 | growing a present id keeps ids unique, and adds the amount to its quantity and to the item count |
| AppContext.AppendNewEntry | contexts/AppContext.js:159-161 | appending an absent id keeps ids unique, makes it present with that quantity, and adds it to the item count |
| AppContext.CartStore.constructor | contexts/AppContext.js:146-147 | an empty cart paying cash |
| AppContext.CartStore.IsInCart | contexts/AppContext.js:243-245 | true exactly when some entry has a `===` id |
| AppContext.CartStore.GetProductQuantity | contexts/AppContext.js:248-251 | the matching entry's quantity, or 0 |
| AppContext.CartStore.GetCartSummary | contexts/AppContext.js:221-240 | `uniqueProducts` is the length; `isEmpty` iff empty; `hasDiscounts` iff savings > 0; cost + savings = original total |
| AppContext.CartStore.AddToCart | contexts/AppContext.js:149-163 | a present id grows by `quantity \|\| 1` in place; a new one is appended; ids stay unique and the item count grows by that amount |
| AppContext.CartStore.RemoveFromCart | contexts/AppContext.js:165-174 | drops exactly the entries with that `String(id)`, keeps the rest in order; the id is then absent |
| AppContext.CartStore.UpdateCartItemQuantity | contexts/AppContext.js:176-189 | ≤ 0 removes as `removeFromCart`; otherwise `===` matches get exactly that quantity and nothing else changes |
| AppContext.CartStore.ClearCart | contexts/AppContext.js:191-193 | the cart is empty and the payment type unchanged |
| AppContext.CartStore.SetPaymentType | contexts/AppContext.js:147 | sets the payment type and leaves the cart |
| AppContext.ProductsProvider.constructor | contexts/AppContext.js:12-15 | no products, loading, no error |
| AppContext.ProductsProvider.FetchProductsData | contexts/AppContext.js:17-38 | success stores the data; failure empties the list and keeps the message; loading ends either way |
| AppContext.GetFeaturedProducts | contexts/AppContext.js:61-65 | in-order subsequence of recommended, best-selling or house products, each as often as in the list |
| AppContext.GetOffersProducts | contexts/AppContext.js:68-72 | in-order subsequence of products on offer or with a positive discount, each as often as in the list |
| AppContext.GetAvailableProducts | contexts/AppContext.js:75-77 | in-order subsequence of available products, each as often as in the list |
| AppContext.CategorySet | contexts/AppContext.js:116 | the set of truthy categories, no larger than the list |
| AppContext.CategorySetMembers | contexts/AppContext.js:116 | a category is in the set exactly when it is truthy and some product has it |
| AppContext.StockCountsBalance | contexts/AppContext.js:101-102 | when `disponible == !agotado` for every product, available + out of stock = total |
| AppContext.GetProductStats | contexts/AppContext.js:99-118 | every count is at most `total`; `categories` is the number of distinct truthy categories |
| AppContext.NormalizedStatsBalance | contexts/AppContext.js:99-102 | for normalised products, available + out of stock = total |
| AppContext.CategoryCount | contexts/AppContext.js:85 | the number of products of a category, at most the list length |
| AppContext.WithCategoryCount | contexts/AppContext.js:84 | the number of products with a truthy category |
| AppContext.AvailableInCategory | contexts/AppContext.js:92-94 | the available products of a category, at most its count |
| AppContext.TallySkip | contexts/AppContext.js:82-87 | a product without a category leaves the map's invariant intact |
| AppContext.TallyBump | contexts/AppContext.js:82-87 | a seen category's count grows by one and the invariant holds |
| AppContext.TallyNew | contexts/AppContext.js:82-87 | a new category enters with count 1, after the existing keys, and the invariant holds |
| AppContext.FirstSeen | contexts/AppContext.js:82-87 | the truthy categories, each once, exactly those of the category set, in the order of their first occurrence |
| AppContext.FirstSeenPrefix | contexts/AppContext.js:82-87 | scanning more products only appends keys: the keys of a prefix come first, in the same order |
| AppContext.ScanNewCategory | contexts/AppContext.js:83-86 | a product of an unseen category adds it to the set and to the end of the key order |
| AppContext.ScanKnownCategory | contexts/AppContext.js:83-86 | a product without a category, or of a seen one, changes neither the set nor the key order |
| AppContext.TallyCategories | contexts/AppContext.js:81-87 | the `forEach` leaves each truthy category once, in first-seen order, counted exactly; the counts sum to the products with a category |
| AppContext.Rows | contexts/AppContext.js:89-95 | one row per key, in key order, with its count and available count |
| AppContext.RowsOfTallyCounts | contexts/AppContext.js:89-95 | each row's count is that category's product count, and the counts sum to the products with a category |
| AppContext.RowsOfTallyNames | contexts/AppContext.js:89-95 | row names are distinct and are exactly the truthy categories |
| AppContext.GetCategoriesWithCounts | contexts/AppContext.js:80-96 | one row per distinct truthy category, in first-seen order, with its exact count and available count; the counts sum to the products with a category |
| SearchHook.FilteredData | hooks/useSearch.js:30-35 | a blank debounced term gives `data`; otherwise exactly the matching products |
| SearchHook.FilteredDataIsSearch | hooks/useSearch.js:30-35 | `filteredData` is `searchProducts(data, debouncedSearchTerm)` in both branches |
| SearchHook.ResultCount | hooks/useSearch.js:54 | at most the data length, and equal to it without an active search |
| SearchHook.HasActiveSearch | hooks/useSearch.js:44 | a search is active exactly when the debounced term has a character other than white space |
| SearchHook.ActiveSearchFilters | hooks/useSearch.js:44 | `hasActiveSearch` decides between the unfiltered data and the matching products |
| SearchHook.Search.constructor | hooks/useSearch.js:11-27 | mounting: both terms `''`, the given delay, searching, a timer pending for `''` |
| SearchHook.Search.RunEffect | hooks/useSearch.js:17-27 | the effect raises `isSearching` and (re)starts the timer for the current term |
| SearchHook.Search.SetSearchTerm | hooks/useSearch.js:12-27 | a changed term replaces the raw term and cancels the old timer for a new one; the debounced term waits |
| SearchHook.Search.SetDebounceDelay | hooks/useSearch.js:11-27 | a changed delay restarts the timer for the current term |
| SearchHook.Search.TimerFires | hooks/useSearch.js:19-22 | a pending timer commits the raw term and clears `isSearching`; the last write wins |
| SearchHook.Search.ClearSearch | hooks/useSearch.js:38-41 | both terms become `''`, so no search is active |
| SearchHook.Search.Unmount | hooks/useSearch.js:24-26 | the cleanup cancels the pending timer; both terms, `isSearching` and the delay are unchanged |
| ProductList.MoveToFront | screens/ProductListScreen.js:70-71 | the term first, once, then the newest of the other entries of `prev.filter(s => s !== t)`, in their order, as many as fit in 5 |
| ProductList.MoveToFrontDropsOldest | screens/ProductListScreen.js:70-71 | a new term on a full list of five keeps the four newest searches after it and drops the oldest |
| ProductList.RecentSearchesAfter | screens/ProductListScreen.js:67-80 | unchanged unless the trimmed term is non-blank and there are results; then the trimmed term moves to the front of the list as `MoveToFront` gives it, with the newest other searches after it |
| ProductList.RecentSearchesStayDistinct | screens/ProductListScreen.js:68-71 | the list never holds a repetition, and a recorded term appears exactly once |
| ProductList.MoveToFrontDistinct | screens/ProductListScreen.js:70-71 | moving to the front keeps the list free of repetitions |
| ProductList.ProductListState.constructor | screens/ProductListScreen.js:40-41 | filter `'all'`, sort `'popular'`, no recent searches |
| ProductList.ProductListState.RecordRecentSearch | screens/ProductListScreen.js:67-80 | the effect's update, keeping at most 5 distinct entries |
| ProductList.ProductListState.SetSelectedFilter | screens/ProductListScreen.js:40 | sets the filter only |
| ProductList.ProductListState.SetSelectedSort | screens/ProductListScreen.js:41 | sets the sort only |
| ProductList.ClosestProduct | screens/ProductListScreen.js:83-85 | the suggestion is always null, because its guard requires an empty result list with no active search |
| ProductList.ListFilter | screens/ProductListScreen.js:92-114 | each filter key keeps exactly the products passing its test, in order, each as often as in the results; an unknown key keeps all |
| ProductList.FilterStep | screens/ProductListScreen.js:89-114 | the `switch` over `result` computes `ListFilter` |
| ProductList.ProcessProducts | screens/ProductListScreen.js:88-120 | `sortProducts(filter(searchResults), selectedSort)`: a permutation of the results that pass the filter, each as often as in the results |
| CartScreen.PaymentTypeForSegment | screens/CartScreen.js:40-43 | segment 0 is cash, every other segment is card |
| CartScreen.HandlePaymentTypeChange | screens/CartScreen.js:40-43 | sets the store's payment type for the segment, cart unchanged |
| CartScreen.IncrementQuantity | screens/CartScreen.js:46-48 | a cart entry ends with exactly one more; no other entry changes |
| CartScreen.DecrementQuantity | screens/CartScreen.js:51-57 | above 1 it sets one less; at 1 it never sets 0 but goes to the confirmed removal |
| CartScreen.HandleRemoveItem | screens/CartScreen.js:60-77 | removes the product's entries only on confirmation; declining changes nothing |
| CartScreen.HandleClearCart | screens/CartScreen.js:80-86 | empties the cart only on confirmation |
| CartScreen.HandleCheckout | screens/CartScreen.js:89-100 | no navigation exactly for an empty cart; otherwise the snapshot of cart, discounted total and payment type |
| Checkout.OrderLines | screens/CheckoutScreen.js:87 | each summary line is `precio × quantity`, undiscounted |
| Checkout.OrderLinesSum | screens/CheckoutScreen.js:87 | the lines add up to the original total, which exceeds the shown total by the savings |
| Checkout.CheckoutState.CurrentPhase | screens/CheckoutScreen.js:119-134 | the spinner while processing, then the success view, else the review |
| Checkout.CheckoutState.constructor | screens/CheckoutScreen.js:36-40 | the route snapshot, neither processing nor completed |
| Checkout.CheckoutState.HandleConfirmPurchase | screens/CheckoutScreen.js:57-63 | confirming starts processing; declining changes nothing |
| Checkout.CheckoutState.FinishPayment | screens/CheckoutScreen.js:47-53 | completed and not processing, the live cart is cleared, and the snapshot is unchanged |
| ProductDetail.ProductDetailState.constructor | screens/ProductDetailScreen.js:26-33 | quantity 1, and the subtotal is the price |
| ProductDetail.ProductDetailState.UpdateSubtotal | screens/ProductDetailScreen.js:30-33 | subtotal is `precio × quantity`, undiscounted |
| ProductDetail.ProductDetailState.IncrementQuantity | screens/ProductDetailScreen.js:36-38 | one more, the subtotal following it |
| ProductDetail.ProductDetailState.DecrementQuantity | screens/ProductDetailScreen.js:41-43 | one less but never below 1 |
| ProductDetail.ProductDetailState.HandleAddToCart | screens/ProductDetailScreen.js:46-53 | an entry with the product's id grows by the selected quantity in place, otherwise the product is appended with it; the other entries and the payment type are unchanged; the item count and the product's quantity rise by exactly that many |
| Badges.ByPriorityIsTotalPreorder | components/ProductBadges.js:103 | the priority comparator is a total preorder |
| Badges.PushStep | components/ProductBadges.js:24-99 | each guarded `push` extends the earned badges up to its priority, in ascending order |
| Badges.EarnedInOrder | components/ProductBadges.js:21-104 | the earned badges in ascending priority, each once |
| Badges.AscendingUnique | components/ProductBadges.js:102-103 | two strictly ascending badge lists with the same members are equal |
| Badges.EarnedInOrderUnique | components/ProductBadges.js:21-103 | any strictly ascending list of exactly the earned badges is `EarnedInOrder` |
| Badges.SortingKeepsEarnedOrder | components/ProductBadges.js:102-103 | sorting the earned badges by priority leaves them in ascending order, unchanged |
| Badges.ShownPrefix | components/ProductBadges.js:103-104 | a prefix of the ascending earned badges is earned, distinct and ascending; all of them when nothing is cut; `[agotado]` when out of stock |
| Badges.CollectBadges | components/ProductBadges.js:21-99 | a badge is pushed exactly when earned; out of stock earns only `agotado`; no repetitions |
| Badges.ShownFacts | components/ProductBadges.js:102-104 | the sorted, sliced badges are earned, distinct, strictly ascending, all kept when nothing is cut, and `[agotado]` when out of stock |
| Badges.BuildBadges | components/ProductBadges.js:19-106 | null for a missing product; otherwise exactly the first `n` of the earned badges in ascending priority, with `n` all of them under `showAll` and at most `maxBadges` otherwise, and null exactly when `n` is 0; only `agotado` when out of stock |
| Responsive.NumColumns | hooks/useResponsive.js:14-21 | always in `[1, 3]`, and `floor(width / 150)` whenever that is in range |
| Responsive.NumColumnsBands | hooks/useResponsive.js:15-19 | 1 column below 300, 2 below 450, 3 from 450 |
| Responsive.IsSmallDevice | hooks/useResponsive.js:24 | a small device shows at most two columns |
| Responsive.IsTablet | hooks/useResponsive.js:25 | a tablet shows the maximum of three columns |
| Responsive.IsLandscape | hooks/useResponsive.js:26 | in landscape the width never gives fewer columns than the height would |
| Responsive.IsCompact | hooks/useResponsive.js:30 | a compact width shows at most two columns |
| Responsive.DeviceClasses | hooks/useResponsive.js:24-30 | a small device is never a tablet and is always compact |

## Left out

- Network I/O: `fetchWithTimeout`, `fetchProducts` and the `fetch` inside `fetchProductsData`. The fetch's outcome is the `FetchOutcome` argument of `ProductsProvider.FetchProductsData`. `lastFetch` (an ISO timestamp) is not modelled.
- Real time: the debounce timeout and the 2000 ms payment delay are the events `Search.TimerFires` and `CheckoutState.FinishPayment`.
- Randomness and clocks:
  - the `Math.random` id fallback is the `randomId` argument of `MapProductData`;
  - `generateOrderNumber`, the checkout order number from `Date.now` and `formatCartForCheckout` are not modelled.
- Floating point: prices, discounts and totals are exact reals. Rounding, `toFixed`, `formatPrice` and the `NaN` of an empty average are not modelled.
- Averages: the `avgRating`/`avgPrice` of `getProductStats` in `utils/api.js` are not modelled.
- Catalog.Compare: the flags `agotado`, `masVendido`, `delaCasa`, `enOferta` and `recomendado` are modelled by their truthiness. `mapProductData` keeps the raw truthy value (`apiProduct.masVendidos || false`), and the `popular` and `offers` comparators compare flags with `!==` and subtract them. So a non-boolean truthy flag can sort differently from the model:
  - `1` against `true`: JavaScript returns `1 - 1 = 0` and stops there, while the model sees equal flags and goes on to the next key;
  - `"x"` against `false`: JavaScript gets `NaN`, which `sort` treats as equal, while the model puts the `"x"` product first.
- Coercion: `parseFloat`/`parseInt` coercion of numeric fields is not modelled. Non-array arguments to the reducer of `utils/cart.js` are not modelled either. Fields are already numeric, and a field that would parse to `NaN` is `None` in a raw record.
- Locale and Unicode: `localeCompare` and the default string `sort()` are lexicographic order on code points. `toLowerCase` lowers ASCII letters only. `trim` removes ECMAScript's WhiteSpace and LineTerminator code points as of Unicode 15; a space separator added to category Zs by a later Unicode version is not white space here.
- UTF-16: JavaScript strings are sequences of UTF-16 code units, and the model's strings are sequences of Unicode scalar values. The two agree within the Basic Multilingual Plane. A character beyond it is one element here and two code units in JavaScript. So string lengths, the Levenshtein distances and similarities of `utils/stringUtils.js`, and the order between such a character and one in U+E000–U+FFFF can differ from the source.
- AppContext.GetCategoriesWithCounts: rows come out in first-seen order. `Object.entries` lists integer-like keys such as `"2"` first, in numeric order, and inherited prototype keys are not considered.
- Catalog.SortProducts: sort stability is taken from the engine rather than stated in its contract, which gives the permutation and the per-key order.
- Persistence: the `localStorage` read and write of recent searches is not modelled. The list starts empty.
- Dialogs and alerts are booleans or `None` results. `showConfirm`, `showAlert` and their texts are not modelled.
- Presentation: badge texts, icons and colours, `itemWidth`, and `getBadgeSize` are not modelled. So is the initial `numColumns` of 2 before the effect first runs.
- ProductDetail.ProductDetailState.HandleAddToCart: the `subtotal` field spread into the cart entry is not kept. No operation of the core reads it back.
- `getProductsByCategory`/`getProductsBySubcategory` of `ProductsProvider` are the same tests as `Catalog.FilterProductsByCategory`/`Catalog.FilterProductsBySubcategory` for any product whose category is a string. They are not modelled separately.
- Catalog.Interpolate: a JSON `null` category is `None`, which prints as `undefined`; JavaScript would print `null` for it.
- CartUtils.AddToCart: the `quantity = 1` default parameter of `addToCart` is not modelled. Every call passes the quantity, and a call without one is the call with 1.
- The storage stubs of `utils/cart.js` are not modelled. Neither is the `selectedProductId` state of the cart screen, which nothing reads.
