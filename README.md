# ShopHub storefront core, modelled in Dafny

ShopHub is a React storefront. Its products, orders, cart and comparison list are held in browser storage or mock in-memory arrays. This project models the logic those screens depend on:

- the **comparison list**: a persisted list of at most three product snapshots, with one `{success, message, items}` result per operation;
- the **cart service** and its in-memory mirror in the page layout: add-or-increment, merge-or-append, remove-by-Id, clear, and the badge count;
- the **catalog filter** of the product grid, with its "any filter active" flag, its reset to defaults and the URL parameters;
- the **comparison page**: the sorted union of specification keys, the `'-'` cell rule, the empty-slot count and local removal;
- the **mock product and order repositories**: lookups, max+1 ids, shallow-merge updates, first-match deletes and brand facets;
- the **money rules**: subtotal, shipping (free above ₹1000, otherwise ₹100) and total, on the cart page, the cart drawer, checkout and the order confirmation;
- the **form validators** of checkout and sign-in;
- the **toggle lists** of the category and brand filters;
- the two-state **authentication slice** and its write-through to storage.

Each file is one module:

- `wrappers.dfy`, `storage.dfy`, `js_number.dfy`, `seqs.dfy`, `text.dfy` and `numerals.dfy` hold the JavaScript building blocks the code relies on:
  - `localStorage` with `JSON` seen as a slot that may be missing, stored or unreadable;
  - numbers that may be `NaN`;
  - `findIndex`, `filter`, `Set`, `sort`, `trim`, `toLowerCase`, `toUpperCase`, `parseInt`, `padStart`.
- `entities.dfy` holds the records: product, cart line, order, delivery information and user.
- The remaining files follow the source files one to one.

Components whose state changes are classes whose fields the methods reassign:

- `CompareStore`, `CartStore`, `Shop` (the layout), `FilterState`, `ComparePageState`, `ProductCatalog`, `OrderBook`, `CheckoutForm`, `LoginForm` and `AuthStore`.

Each of these methods is specified against a pure function of the old state, and the lemmas state the properties of those functions. Expressions in the source, such as the totals, the labels and the filter predicate, are functions.

Two conditions of the browser are parameters of the stores:

- the storage slot's content at start-up;
- a `writesFail` flag, standing for `setItem` throwing (for example a full quota).

## Model

| member | source | states |
|---|---|---|
| Comparison.CompareStore.Items | src/services/api/comparisonService.js:8-16 | The list read is the stored list; a missing key or an unreadable value gives the empty list and no error. |
| Comparison.AddResult | src/services/api/comparisonService.js:23-60 | An add is rejected for a duplicate Id first, then for a full list (3 or more), then for a failing write; it succeeds iff none of these holds, and returns old list ++ [product] with "Product added to comparison". |
| Comparison.AddKeepsBound | src/services/api/comparisonService.js:37-52 | From a list of at most 3 distinct Ids, a successful add grows it by exactly one entry, keeps it at most 3 long and keeps the Ids distinct. |
| Comparison.FourthIsRejected | src/services/api/comparisonService.js:2 | A fourth distinct product is rejected with "Maximum 3 products can be compared". |
| Comparison.SecondAddIsDuplicate | src/services/api/comparisonService.js:27-34 | Adding the same product twice: the first add succeeds; the second reports "Product already in comparison". |
| Comparison.RemoveResult | src/services/api/comparisonService.js:67-84 | Remove succeeds iff the write works; it drops every entry with the Id, keeps every other entry as often as it occurred and in order, leaves the list as it was when the Id is absent, and otherwise reports the failure message. |
| Comparison.CompareStore.AddToCompare | src/services/api/comparisonService.js:23-60 | Returns the AddResult of the stored list; on success the slot holds the new list and the product is in the comparison; on failure the slot is unchanged. |
| Comparison.CompareStore.RemoveFromCompare | src/services/api/comparisonService.js:67-84 | Returns the RemoveResult of the stored list; on success the slot holds the filtered list and the Id is no longer in the comparison. |
| Comparison.CompareStore.ClearCompare | src/services/api/comparisonService.js:90-98 | Clearing succeeds, deletes the key and leaves an empty list to read. |
| Comparison.CompareStore.IsInCompare | src/services/api/comparisonService.js:105-108 | True iff some stored item carries the Id. |
| Cart.CartStore.Items | src/services/api/cartService.js:7-15 | A missing key or an unreadable value gives the empty cart. |
| Cart.CartStore.Save | src/services/api/cartService.js:17-23 | A working write stores the list; a failing write is swallowed and leaves the slot as it was. |
| Cart.CartStore.AddToCart | src/services/api/cartService.js:30-43 | Returns the increment-or-append of the stored cart and writes it through. |
| Cart.IncrementExisting | src/services/api/cartService.js:33-37 | When the product's Id is present, its first entry's quantity grows by 1; the length and every other entry are unchanged. |
| Cart.IncrementNew | src/services/api/cartService.js:35-39 | When the Id is absent, the product is appended with quantity 1. |
| Cart.IncrementKeepsIdsUnique | src/services/api/cartService.js:33-39 | If the cart's Ids were unique before an add, they are unique after it. |
| Cart.AddTwice | src/services/api/cartService.js:33-39 | Adding an absent product twice appends a single entry of quantity 2. |
| Cart.IncrementCount | src/services/api/cartService.js:30-43 | An add raises the sum of quantities by exactly 1. |
| Cart.CartStore.UpdateCartItem | src/services/api/cartService.js:45-59 | Returns the merge-or-append of the stored cart and writes it through. |
| Cart.UpsertShape | src/services/api/cartService.js:48-56 | On an existing Id, the patch is merged into the first matching index only; on a missing Id, the patch itself is appended. |
| Cart.UpsertMissingQuantityOnly | src/services/api/cartService.js:52-55 | A quantity-only patch for a missing Id appends a line with no product, only that quantity. |
| Cart.Removed | src/services/api/cartService.js:61-67 | The result has no entry with the Id, is an ordered subsequence of the cart, and contains every other entry exactly as often as before. |
| Cart.CartStore.RemoveFromCart | src/services/api/cartService.js:61-67 | Returns the filtered cart and writes it through. |
| Cart.CartStore.ClearCart | src/services/api/cartService.js:69-73 | Deletes the key and returns the empty list; the cart then reads as empty. |
| Cart.ItemCountAppend | src/services/api/cartService.js:75-79 | The count is a sum of quantities: appending a line adds that line's quantity. |
| Cart.ItemCountUpdate | src/services/api/cartService.js:75-79 | Changing one entry's quantity changes the count by the difference. |
| Layout.Shop.constructor | src/components/organisms/Layout.jsx:14-35 | The layout starts with the cart and comparison lists read from their stores. |
| Layout.Shop.HandleUpdateQuantity | src/components/organisms/Layout.jsx:37-53 | A quantity of exactly 0 removes the Id in memory and in storage, as HandleRemoveItem does. Any other quantity, negative ones included, sets the matching in-memory entries and merges `{quantity}` into storage. |
| Layout.QuantityUpdateOnlyMatching | src/components/organisms/Layout.jsx:43-49 | A non-zero update keeps the length and changes only the quantity of entries with that Id. |
| Layout.UpdateOfUnstoredIdDiverges | src/components/organisms/Layout.jsx:43-49 | When the Id is not in storage, the stored cart gains a quantity-only line while the in-memory list keeps its length. |
| Layout.Shop.HandleRemoveItem | src/components/organisms/Layout.jsx:55-62 | Removes every entry with the Id from both the in-memory list and storage, keeping order. |
| Layout.Shop.HandleAddToCart | src/components/organisms/Layout.jsx:64-77 | A present Id is updated to its quantity + 1; an absent one is appended with quantity 1, in memory and in storage. |
| Layout.AddAgreesWithService | src/components/organisms/Layout.jsx:64-77 | With unique Ids and no stored quantity of -1, the in-memory and stored results of an add both equal the service's add-or-increment. |
| Layout.WithQuantityAtUnique | src/components/organisms/Layout.jsx:45-49 | With unique Ids, the map over the list changes exactly the one matching index. |
| Layout.Shop.HandleAddToCompare | src/components/organisms/Layout.jsx:79-85 | Returns the service result unchanged and replaces the in-memory list only when it succeeded. |
| Layout.Shop.HandleRemoveFromCompare | src/components/organisms/Layout.jsx:87-93 | Returns the service result unchanged and replaces the in-memory list only when it succeeded. |
| CartPage.LabelMatchesBadgeForSingleUnits | src/components/organisms/Layout.jsx:95 | The badge count is the sum of quantities; it equals the number of entries when every quantity is 1. |
| ProductGrid.FilterProducts | src/components/organisms/ProductGrid.jsx:65-79 | The result is an ordered subsequence of the products. A product is kept, with its multiplicity, iff the category, price, search, brand, rating and availability tests all hold. |
| ProductGrid.FilterIdempotent | src/components/organisms/ProductGrid.jsx:65-79 | Filtering twice with the same criteria equals filtering once. |
| ProductGrid.InvertedRangeKeepsNothing | src/components/organisms/ProductGrid.jsx:67 | The price test is inclusive at both ends, so a minimum above the maximum keeps nothing. |
| ProductGrid.SearchIgnoresCase | src/components/organisms/ProductGrid.jsx:68-70 | Lower-casing the query does not change which products match the search. |
| ProductGrid.UnratedExcluded | src/components/organisms/ProductGrid.jsx:72 | With a positive minimum rating, a product with a missing or zero rating is never shown. |
| ProductGrid.DefaultsKeepCatalog | src/components/organisms/ProductGrid.jsx:25-30 | For prices within 0..100000, the default criteria keep the whole catalog in order. |
| ProductGrid.InactiveIffDefaults | src/components/organisms/ProductGrid.jsx:93 | For a price range inside the control's range, no filter is active iff the criteria equal the defaults. |
| ProductGrid.FilterState.constructor | src/components/organisms/ProductGrid.jsx:25-30 | The state starts at the defaults, with the search taken from the URL's `search` parameter or "". |
| ProductGrid.FilterState.ApplySearchParams | src/components/organisms/ProductGrid.jsx:36-44 | A non-empty `category` parameter selects exactly that category; the search is always replaced by the `search` parameter or ""; nothing else changes. |
| ProductGrid.FilterState.ClearFilters | src/components/organisms/ProductGrid.jsx:81-88 | Clear restores every default except the search query. |
| ProductGrid.FilterState.ClearFiltersAndGoHome | src/components/organisms/ProductGrid.jsx:81-88 | Clear followed by the URL change to "/" leaves exactly the defaults, with no active filter. |
| ProductGrid.FilterState.Shown | src/components/organisms/ProductGrid.jsx:65-79 | The shown products are the catalog products matching the current criteria, each as often as in the catalog, in catalog order. |
| Selection.ToggleShape | src/components/molecules/CategoryFilter.jsx:4-10 | Toggling a selected name removes every occurrence of it; toggling an unselected name appends it. |
| Selection.ToggleFlipsMembership | src/components/molecules/CategoryFilter.jsx:20 | After a toggle, the checkbox state of that name is flipped and every other name's state is unchanged. |
| Selection.ToggleKeepsOthers | src/components/molecules/BrandFilter.jsx:4-10 | Apart from the toggled brand, the list keeps the same entries in the same order. |
| Selection.ToggleTwiceRestores | src/components/molecules/BrandFilter.jsx:4-10 | Toggling an absent name twice restores the original list. |
| Selection.NotInWithoutSelf | src/components/molecules/CategoryFilter.jsx:6 | Filtering a name out removes it and keeps every other name. |
| ComparePage.AllSpecKeys | src/components/pages/CompareProducts.jsx:53-61 | The keys are sorted and duplicate-free, and a key is listed iff some product's specifications contain it. |
| ComparePage.NoSpecsAddNothing | src/components/pages/CompareProducts.jsx:56 | A product without specifications contributes no keys. |
| ComparePage.SpecCell | src/components/pages/CompareProducts.jsx:309-313 | A cell never shows nothing: it shows the value when present and non-empty, otherwise '-'. |
| ComparePage.EmptySlotCount | src/components/pages/CompareProducts.jsx:221 | The placeholder count is 3 minus the number of products; more than 3 products is the array-length error. |
| ComparePage.Render | src/components/pages/CompareProducts.jsx:67-82 | An empty list shows the empty state. Otherwise the grid carries the spec keys, one cell per key and product, and the placeholder count. |
| ComparePage.ComparePageState.constructor | src/components/pages/CompareProducts.jsx:24-28 | The page's list is the stored comparison list. |
| ComparePage.ComparePageState.HandleRemove | src/components/pages/CompareProducts.jsx:37-41 | The page's list drops exactly the entries with the Id, keeping order, and the layout's removal is carried out as well. |
| Products.ProductCatalog.Brands | src/services/api/productService.js:12-16 | The facets are sorted and distinct, and a name is listed iff some product has it as a non-empty brand. |
| Products.BrandNames | src/services/api/productService.js:14 | A brand is listed iff some product carries it as a truthy (present, non-empty) brand. |
| Products.ProductCatalog.ProductById | src/services/api/productService.js:18-22 | Returns the first product with the Id, or None iff there is none. |
| Products.ProductCatalog.ProductsByCategory | src/services/api/productService.js:35-38 | Keeps exactly the products whose category equals the name, each as often as in the catalog, in catalog order. |
| Products.SearchIn | src/services/api/productService.js:40-49 | Keeps exactly the products whose lower-cased name, description, category or brand contains the term, each as often as in the catalog, in order. The search fails iff some product reaches the brand test without a brand. |
| Products.ProductCatalog.SearchProducts | src/services/api/productService.js:40-49 | The query is lower-cased before matching; a failure means some product has no brand. |
| Products.NameMatchFound | src/services/api/productService.js:44 | A product whose name contains the query, ignoring case, is in every successful result. |
| Products.BrandedCatalogSearchSucceeds | src/services/api/productService.js:47 | When every product has a brand, the search cannot fail. |
| Products.ProductCatalog.CreateProduct | src/services/api/productService.js:51-63 | Appends one product. Unless the input carries an Id, its Id is above every existing Id. The rating is forced to 0, the review count to 0 and inStock to true. |
| Products.ProductCatalog.UpdateProduct | src/services/api/productService.js:65-72 | An absent Id gives None and no change. Otherwise the patch is merged into the first matching index only, and the merged product is returned. |
| Products.ProductCatalog.DeleteProduct | src/services/api/productService.js:74-80 | Returns true iff the Id is present and then removes only the first match; with unique Ids, that equals filtering the Id out. |
| Seqs.RemoveAt | src/services/api/productService.js:79 | The splice keeps everything before the index and shifts everything after it down by one. |
| Seqs.RemoveFirstIsWithoutKey | src/services/api/orderService.js:44 | With unique keys, splicing out the first match equals filtering the key out. |
| Orders.OrderBook.OrderById | src/services/api/orderService.js:11-15 | Returns the first order with the Id, or None iff there is none. |
| Orders.OrderBook.CreateOrder | src/services/api/orderService.js:17-28 | Appends one order whose Id exceeds every existing Id and 0; the first order gets Id 1; unique Ids stay unique. |
| Seqs.NextId | src/services/api/orderService.js:19 | max(ids, 0) + 1 is at least 1, above every id, and 1 for no ids. |
| Seqs.NextIdStaysDistinct | src/services/api/orderService.js:19-26 | Appending the next id keeps a distinct id list distinct. |
| Orders.OrderBook.UpdateOrder | src/services/api/orderService.js:30-37 | An absent Id gives None and no change; otherwise the order at the first match is merged and returned. |
| Orders.OrderBook.DeleteOrder | src/services/api/orderService.js:39-46 | Returns true iff the Id is present and then removes the first match; otherwise the list is unchanged. |
| Orders.OrderBook.OrdersByStatus | src/services/api/orderService.js:48-51 | Keeps exactly the orders with that status, each as often as stored, in stored order. |
| Money.Subtotal | src/components/pages/Checkout.jsx:29 | The sum of price times quantity; it is NaN iff some line has no product (no price). |
| Money.Shipping | src/components/pages/Checkout.jsx:30 | Shipping is 0 iff the subtotal exceeds 1000, and otherwise 100. |
| Money.Total | src/components/pages/Checkout.jsx:31 | The total is subtotal plus shipping, and NaN when the subtotal is. |
| Money.SubtotalAppend | src/components/pages/Cart.jsx:12 | Appending a line adds its line total. |
| Money.SubtotalUpdate | src/components/pages/Cart.jsx:12 | Replacing one line changes the subtotal by the difference of the line totals. |
| Money.AddToCartRaisesSubtotal | src/components/organisms/CartDrawer.jsx:11 | An add raises the subtotal by exactly the product's price. |
| Money.OneMoreUnit | src/components/pages/Cart.jsx:84 | One more unit of a line raises the subtotal by its unit price. |
| Money.ThresholdLowersTotal | src/components/pages/Cart.jsx:13-14 | At the threshold the total drops: a subtotal of 1001 costs less than one of 1000. |
| Checkout.FieldErrorIffOk | src/components/pages/Checkout.jsx:36-45 | Each field gets at most one message and has none iff it passes its rule. |
| Checkout.RequiredBeforeFormat | src/components/pages/Checkout.jsx:37-45 | The "required" message is chosen iff the trimmed value is empty, so the format check runs only on a non-blank value. |
| Checkout.PhoneRule | src/components/pages/Checkout.jsx:39-40 | A phone is accepted iff exactly 10 digits remain after all non-digits are deleted. |
| Validation.PhoneIgnoresSeparator | src/components/pages/Checkout.jsx:40 | Inserting a non-digit anywhere does not change whether a phone number is valid. |
| Validation.PincodePaddingRejected | src/components/pages/Checkout.jsx:45 | A pincode with a leading or trailing space is rejected, since it must be exactly six digits untrimmed. |
| Validation.EmailShapedInContext | src/components/pages/Checkout.jsx:38 | The shape is searched as a substring, so text around a matching address keeps it matching. |
| Validation.EmailShapedExamples | src/components/pages/Login.jsx:26 | "user@shop.in" has the address shape and "user@shop" does not. |
| Checkout.NoErrorsIffValid | src/components/pages/Checkout.jsx:47-48 | A message map built for a form is empty iff every field passes. |
| Checkout.CheckoutForm.ValidateForm | src/components/pages/Checkout.jsx:33-49 | Records one message per failing field and returns true iff no message is recorded, which is iff every field passes. |
| Checkout.CheckoutForm.InputChange | src/components/pages/Checkout.jsx:51-56 | Only the named field changes, and its message is blanked only if one was set. |
| Checkout.WithField | src/components/pages/Checkout.jsx:52 | Setting a field changes that field and no other. |
| Checkout.OrderItems | src/components/pages/Checkout.jsx:74-79 | Each cart line maps, in order, to its product Id, quantity, price and name. |
| Checkout.CheckoutForm.PlaceOrder | src/components/pages/Checkout.jsx:58-94 | The cart is refused as empty iff it is empty, before validation. A non-empty cart with an invalid form is refused with its messages. In every other case one confirmed order is appended and its confirmation path returned. |
| CartPage.HintIsLeastSufficient | src/components/pages/Cart.jsx:139-143 | The corrected hint amount is the least extra spend that makes shipping free. |
| CartPage.FreeShippingHint | src/components/pages/Cart.jsx:139-143 | The hint is shown iff shipping is charged and then names at least ₹1. |
| CartPage.HintAsWrittenNeverSuffices | src/components/pages/Cart.jsx:141 | Adding the amount the page names never makes shipping free. |
| CartPage.HintAsWrittenAtThreshold | src/components/pages/Cart.jsx:139-141 | At a subtotal of exactly 1000, the page asks for ₹0 more while still charging ₹100. |
| CartPage.DecrementRequest | src/components/pages/Cart.jsx:77 | The decrement requests q - 1 but never less than 0. |
| CartPage.StepsUndoEachOther | src/components/pages/Cart.jsx:77-84 | For a positive quantity, decrement and increment (q + 1) undo each other. |
| CartPage.DecrementFromOneRemoves | src/components/organisms/CartDrawer.jsx:82 | Decrementing quantity 1 requests 0, which the layout treats as removal. |
| CartPage.LabelDiffersFromBadge | src/components/pages/Cart.jsx:124 | The "(n items)" label counts entries, not units: one line of two units reads 1 while the badge shows 2. |
| CartDrawer.CheckoutAction | src/components/organisms/CartDrawer.jsx:15-22 | An empty cart is refused with "Your cart is empty"; otherwise the drawer closes and goes to /checkout. |
| Confirmation.ReconstructionAsWritten | src/components/pages/OrderConfirmation.jsx:142-146 | The subtotal shown matches the checkout subtotal s iff s ≤ 900 or s > 1000. "Free" is shown iff s > 900, while shipping was free iff s > 1000. |
| Confirmation.ReconstructionCounterexample | src/components/pages/OrderConfirmation.jsx:142-146 | A subtotal of 950 paid ₹100 shipping but is shown as 1050 with free shipping. |
| Confirmation.ItemsSubtotalMatchesCart | src/components/pages/Checkout.jsx:74-80 | The line totals stored in an order add up to the checkout subtotal of the cart. |
| Confirmation.SummaryMatchesCheckout | src/components/pages/OrderConfirmation.jsx:139-150 | The corrected summary of a placed order shows exactly the subtotal, shipping and total computed at checkout. |
| Confirmation.ShippingLabel | src/components/pages/OrderConfirmation.jsx:146 | The corrected label reads "Free" iff no shipping was charged. |
| Confirmation.OrderNumber | src/components/pages/OrderConfirmation.jsx:70 | The Id's decimal numeral is shown, preceded by '0's up to 8 characters (longer numerals unchanged). A non-negative Id reads back as the same number. |
| Numerals.PaddedIdRoundTrip | src/components/pages/OrderConfirmation.jsx:70 | Padding a decimal numeral with leading zeros does not change the number parseInt reads. |
| Numerals.IntToStringRoundTrip | src/components/pages/OrderConfirmation.jsx:27 | parseInt reads back every integer's decimal numeral. |
| Numerals.ParseInt | src/components/pages/OrderConfirmation.jsx:27 | parseInt skips leading white space and one sign, and is NaN iff no digit follows. |
| Numerals.PadStart | src/components/pages/OrderConfirmation.jsx:70 | padStart keeps the string as its suffix and fills up to the width with '0'. |
| Confirmation.PaymentLabel | src/components/pages/OrderConfirmation.jsx:83 | "Cash on Delivery" is shown iff the method is "cod"; otherwise each character of the method is upper-cased, and nothing else changes. |
| Confirmation.View | src/components/pages/OrderConfirmation.jsx:23-42 | The page fails with "Order not found" iff the URL Id does not parse or names no stored order. |
| Confirmation.PlacedOrderIsShown | src/components/pages/OrderConfirmation.jsx:23-42 | The order just placed, looked up by its Id, is shown with its (corrected) summary. |
| Login.EmailError | src/components/pages/Login.jsx:24-28 | The untrimmed e-mail is "required" iff empty, and has no message iff it has the address shape. |
| Login.PasswordError | src/components/pages/Login.jsx:30-34 | The password is "required" iff empty, and has no message iff it has at least 6 characters. |
| Login.LoginForm.ValidateForm | src/components/pages/Login.jsx:21-38 | Records the e-mail and password messages; the form is valid iff none is recorded, which is iff both checks pass. |
| Login.UserName | src/components/pages/Login.jsx:54-57 | The name is the longest prefix of the e-mail without '@', so what follows it is '@' or the end. |
| Login.UserNameOfAddress | src/components/pages/Login.jsx:56 | For an address name@domain whose name part has no '@', the user name is exactly that name part. |
| Login.RedirectPath | src/components/pages/Login.jsx:62 | The redirect is the query parameter when present and non-empty, otherwise "/". |
| Login.LoginForm.Submit | src/components/pages/Login.jsx:40-66 | Records exactly the messages of the failing checks. An invalid form (some message recorded) changes no authentication state. A valid one signs the user in and moves to the redirect path. |
| Auth.LoadAuth | src/store/authSlice.js:3-13 | The initial state is the stored one, or signed out when the key is missing or unreadable. |
| Auth.AuthStore.constructor | src/store/authSlice.js:23 | The slice starts from the state loaded from storage. |
| Auth.AuthStore.Save | src/store/authSlice.js:15-21 | A working write stores the state; a failing write is swallowed and leaves storage as it was. |
| Auth.AuthStore.Login | src/store/authSlice.js:29-33 | The user becomes signed in with the given record, the same pair is written, and with working writes a reload gives the same state. |
| Auth.AuthStore.Logout | src/store/authSlice.js:34-38 | The user becomes signed out, the same pair is written, and with working writes a reload gives the same state. |
| Text.SortStrings | src/services/api/productService.js:14 | `sort()` returns a sorted permutation of its input, and keeps a distinct list distinct. |
| Text.SortedDistinctUnique | src/components/pages/CompareProducts.jsx:60 | Two sorted, duplicate-free lists with the same elements are equal, so the key list is determined by its key set. |
| Text.Trim | src/components/pages/Checkout.jsx:36 | `trim()` is empty iff the value is blank. |
| Text.DigitsOnly | src/components/pages/Checkout.jsx:40 | Deleting non-digits keeps exactly the digits, in order. |
| Seqs.WithoutKey | src/services/api/cartService.js:64 | Filtering out a key keeps every other element exactly as often, in order, and leaves an absent key's list as is. |
| Seqs.IndexOfKey | src/services/api/cartService.js:48 | findIndex gives the first match, or none iff no element matches. |

## Left out

- Asynchronous delays (`setTimeout`), the loading flags and React's scheduling are not modelled. Handlers run to completion one after another. This also leaves out the stale `cartItems` closure in the layout's add handler when it is called several times in a row (src/components/pages/ProductDetail.jsx:45-47).
- Rendering, toasts and navigation are not modelled. Where a handler's outcome is a navigation, the target path is returned as a value (`CartDrawer.CheckoutAction`, `Checkout.CheckoutForm.PlaceOrder`, `Login.LoginForm.Submit`).
- Dates in orders, `orderDate` and `estimatedDelivery`, are clock values and are not part of `Entities.Order`.
- Prices are integer rupees. Floating-point display (`toLocaleString`, discount percentages, star rounding) is not modelled. Ratings are a real number compared with the integer minimum.
- Text is modelled as a sequence of Unicode characters:
  - Upper- and lower-casing is ASCII only.
  - Sorting is by character code, where JavaScript sorts by UTF-16 units; the two differ only for characters outside the Basic Multilingual Plane.
  - String length is the number of characters, not of UTF-16 units.
- The checkout and login regular expressions are stated as string predicates. `\s` and `trim` use the ECMAScript white-space and line-terminator set, with the Unicode space separators listed explicitly.
- `Numerals.ParseInt`: does not model parseInt's hexadecimal `0x` prefix, or numerals too large to be exact in a double.
- `Comparison.CompareStore.ClearCompare`: treats `removeItem` as never failing, so the `{success: false}` branch of `clearCompare` is not modelled.
- `Confirmation.View`: shows the corrected summary of the first Findings row (subtotal and shipping line recomputed from the order's lines); the as-written values the page renders are `Confirmation.DisplayedSubtotalAsWritten` and `Confirmation.ShippingLabelAsWritten`, compared with the corrected ones by `Confirmation.ReconstructionAsWritten`.
- `Confirmation.View`: covers only "Order not found". The "Failed to load order details" branch needs `getOrderById` to throw, which it cannot do on the in-memory array.
- `Cart.CartStore.GetCartItemCount`: has no contract of its own beyond the count function. The sum-of-quantities property is stated by `Cart.ItemCountAppend`, `Cart.ItemCountUpdate`, `Cart.IncrementCount` and `CartPage.LabelMatchesBadgeForSingleUnits`.
- `Layout.Shop.CompareCount` is the length of the in-memory list and needs no lemma. The page header reads the count under a different prop name (`compareItemsCount` in src/components/organisms/Header.jsx:10), so the header never shows it. That wiring is not modelled.
- The product grid does not pass `onAddToCompare` to its cards (src/components/organisms/ProductGrid.jsx:187-191). That wiring is not modelled.
- Product and category loading is not modelled: `getProducts`, `getCategories`, `getCategoryById`, `getOrders`, `getCartItems` and the grid's `loadData` (copies of the mock arrays).
  - The mock JSON contents are not part of this model; catalogs and order books are parameters.
  - Lookups return the record itself, because copying an immutable value is the identity.
- `Products.SearchIn`: calling `toLowerCase` on a missing brand throws a TypeError in the source. The model returns `None` instead of an exception, and the caller sees no partial result either way.
- A product keeps only the fields the core or its pages read: Id, name, description, category, brand, price, originalPrice, rating, reviewCount, inStock, images and specifications. The input of `createProduct` carries the same fields except rating, reviewCount and inStock, which it forces; its Id is optional and, when present, wins over max + 1.
- The payment method selector is not modelled; the form keeps its initial `"cod"` value.
- `Auth.LoadAuth`: a stored literal `null` parses to `null` and would become the state. The model treats every stored value as a state record.
- The option lists of the rating, availability and price controls only fix the domains used by the filter criteria.

## Findings

| source | as written | input that shows it | evidently intended | confidence | as-written member | corrected member |
|---|---|---|---|---|---|---|
| src/components/pages/OrderConfirmation.jsx:142-146 | subtotal and shipping are reconstructed from the total: shown subtotal = total − (total > 1000 ? 0 : 100), and shipping reads "Free" iff total > 1000 | an order with a checkout subtotal of 950: it paid ₹100 shipping (total 1050), but the page shows subtotal ₹1050 and free shipping | show the order's own subtotal (the sum of its line totals) and the shipping actually charged | high, not executed | Confirmation.ReconstructionCounterexample | Confirmation.SummaryMatchesCheckout |
| src/services/api/productService.js:53-55 | the new Id is `Math.max(...ids) + 1` with no floor | an empty catalog: `Math.max()` is −Infinity, so the new product's Id is −Infinity; the corrected rule also differs on a catalog whose ids are all negative, where the written rule gives at most 0 and the corrected one 1 | max(ids, 0) + 1, as the order repository does, so the first product gets Id 1 | medium, not executed | Products.EmptyCatalogIdAsWritten | Products.ProductCatalog.CreateProduct |
| src/components/pages/Cart.jsx:139-143 | the hint reads "Add ₹(1000 − subtotal) more for free shipping" | a subtotal of 1000: the hint says "Add ₹0 more" while shipping is ₹100; for any charged subtotal, spending the named amount reaches exactly 1000, which is still charged | 1001 − subtotal, the least extra spend after which the subtotal exceeds 1000 | high, not executed | CartPage.HintAsWrittenNeverSuffices | CartPage.HintIsLeastSufficient |
