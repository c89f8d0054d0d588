# Home-decor storefront: catalogue, cart, checkout and product page logic

This project models, in Dafny, the computation inside the storefront's four page
components. The rest of the storefront is layout and animation.

- **Shop** (`src/pages/shop/page.tsx`):
  - The active product list is the backend list once it is non-empty, otherwise the mock list.
  - `filteredProducts` keeps a product when it matches the applied category, the inclusive
    price range and the applied materials. Missing fields are normalised first.
  - `finalProducts` is a copy of that list sorted in place by the sort option.
  - The filter panel holds *selected* and *applied* criteria.
- **Cart** (`src/pages/cart/page.tsx`):
  - The line items are component state, changed by `updateQuantity` and `removeItem`.
  - The order summary has a subtotal, a flat shipping fee of 15 waived strictly above 200,
    8 % tax and a total.
  - The page also shows a navbar badge and a free-shipping hint.
- **Checkout** (`src/pages/checkout/page.tsx`):
  - A fixed two-item order with the same subtotal and tax formula. Shipping is always free.
  - A payment-method radio.
- **Product page** (`src/pages/product/page.tsx`):
  - The route id lookup falls back to the first product.
  - `productWithDefaults` replaces falsy fields with defaults.
  - The page has a five-image gallery, a quantity stepper floored at 1, a one-section
    accordion and the mini-cart line price.

The model's form follows the source:
- Expressions (`.filter`, `.find`, `reduce`, `||` defaulting) are functions with lemmas.
- The in-place `sort` is a stable insertion sort over an `array`.
- Component state updated by handlers is a class whose methods reassign its fields:
  `ShopPanel.FilterPanel`, `CartPage.Cart`, `Checkout.PaymentSelection` and
  `ProductDetail.ProductView`.
- Money is an exact `real`, so `subtotal * 0.08` is not rounded.

Files:
- `options.dfy`: `Option`.
- `products.dfy`: the shared product record, JavaScript truthiness of its optional fields,
  and the backend-or-mock choice.
- `pricing.dfy`: the left-fold sum and the order figures.
- `shop_filter.dfy`, `shop_sort.dfy`, `shop_panel.dfy`: the shop page.
- `cart.dfy`, `checkout.dfy`, `product_detail.dfy`: the other three pages.

Properties proved beyond single-call contracts:
- Filtering keeps input order (`FilterConcat`) and multiplicities (`FilterCount`), and is
  idempotent.
- An inverted price range lists nothing.
- A stable sort has exactly one possible result (`StableSortUnique`). So the insertion sort
  gives the same list as whatever stable algorithm the browser's `Array.prototype.sort` uses
  (section 23.1.3.30 of ECMA-262, 2023 edition).
- Every shop handler writes the selected and the applied field together, so `Valid()`
  (selected equals applied) is an invariant. As a result, Apply Filters never changes which
  products are listed.
- The cart's total is *not* monotone in its contents (`TotalCanDrop`). A 199 cart totals
  229.92. Adding a 2 item makes it 217.08, because the 15 fee is waived above 200.

Behaviour a reader might expect of a storefront that this code does not have (the model
follows the code):
- Adding a line can lower the cart total (`TotalCanDrop`).
- The shop page has no free-text search criterion.
- The sort select offers `featured`, `low-high`, `high-low` and `newest`; only the last three
  reorder the list.
- The shipping threshold, fee and tax rate are constants, not configuration: 200, 15 and
  0.08 in the cart, and shipping 0 in checkout.
- Negative prices or quantities are not rejected. The cart only ignores quantities below 1
  in `updateQuantity`.

## Model

| member | source | states |
|---|---|---|
| `Products.ActiveList` | src/pages/shop/page.tsx:34-35 | the page works on the backend list exactly when it is non-empty, otherwise on the mock list (the product page repeats this at lines 26-27 of its file) |
| `ShopFilter.FilterProducts` | src/pages/shop/page.tsx:37-48 | the `.filter` itself, as a specification function without a contract of its own; what it keeps is stated by `FilterExact`, `FilterConcat` and `FilterCount` |
| `ShopFilter.FilterExact` | src/pages/shop/page.tsx:37-48 | for the filter function: soundness: every kept product matches the applied category (or 'All'), lies in [min, max] inclusive, and has its material in the applied list when that list is non-empty; completeness: a product is kept exactly when it is in the input and matches; never longer than the input |
| `ShopFilter.FilterConcat` | src/pages/shop/page.tsx:37-48 | filtering commutes with concatenation, so kept products keep their relative input order |
| `ShopFilter.FilterCount` | src/pages/shop/page.tsx:37-48 | a matching product occurs in the result exactly as often as in the input; a non-matching one never |
| `ShopFilter.FilterKeepsMatching` | src/pages/shop/page.tsx:37-48 | a list whose every product matches passes through unchanged |
| `ShopFilter.FilterIdempotent` | src/pages/shop/page.tsx:37-48 | filtering the filtered list again with the same criteria changes nothing |
| `ShopFilter.InvertedRangeIsEmpty` | src/pages/shop/page.tsx:44 | with min above max both inclusive comparisons cannot hold, so nothing is listed |
| `ShopFilter.MissingPriceMatchesZero` | src/pages/shop/page.tsx:41-44 | a product without a price is priced 0, so it passes the price test exactly when 0 is in range |
| `ShopFilter.UncategorisedMatchesOnlyAll` | src/pages/shop/page.tsx:39-43 | a missing or empty category becomes 'All', so the product passes the category test only under the 'All' filter |
| `ShopFilter.MissingMaterialExcluded` | src/pages/shop/page.tsx:40-45 | a missing material becomes '', so a non-empty material list without '' excludes the product |
| `ShopSort.OrderOf` | src/pages/shop/page.tsx:54-64 | 'low-high', 'high-low' and 'newest' select their sorts; every other value (including 'featured') leaves the order alone |
| `ShopSort.StableSortUnique` | src/pages/shop/page.tsx:52-64 | two lists sorted by the same key that agree on the order within every key are equal: the stable sort's result is unique |
| `ShopSort.InsertAt` | src/pages/shop/page.tsx:54-64 | one insertion step extends the sorted prefix by one, keeping the multiset and the order within every key, and leaves the unsorted suffix untouched |
| `ShopSort.SortInPlace` | src/pages/shop/page.tsx:54-64 | the array ends sorted by the key, a permutation of its old contents, with equal-key products in their old order |
| `ShopSort.ArrangeProducts` | src/pages/shop/page.tsx:52-64 | the sorted copy has the filtered list's length and multiset; 'low-high' gives non-decreasing price, 'high-low' non-increasing price, 'newest' non-increasing id; ties keep filter order; any other option returns the filtered list unchanged; a list already sorted by the option comes back unchanged |
| `ShopPanel.Without` | src/pages/shop/page.tsx:295 | unchecking removes every occurrence of the material and keeps every other one |
| `ShopPanel.WithoutAbsent` | src/pages/shop/page.tsx:295 | removing a material that is not selected changes nothing |
| `ShopPanel.FilterPanel.constructor` | src/pages/shop/page.tsx:11-20 | initial state: category 'All', no materials, range [0, 1000], 'featured', panel closed, selected equal to applied |
| `ShopPanel.FilterPanel.ChooseCategory` | src/pages/shop/page.tsx:142-145 | a category button selects and applies the category; nothing else changes |
| `ShopPanel.FilterPanel.SetMinPrice` | src/pages/shop/page.tsx:237-241 | the minimum input replaces the lower bound, keeps the upper, and applies the range at once |
| `ShopPanel.FilterPanel.SetMaxPrice` | src/pages/shop/page.tsx:251-255 | the maximum input (and the slider at 265-269) replaces the upper bound, keeps the lower, and applies at once |
| `ShopPanel.FilterPanel.ToggleMaterial` | src/pages/shop/page.tsx:290-300 | checking appends the material to both selected and applied lists; unchecking removes every occurrence from both; category and price are untouched |
| `ShopPanel.FilterPanel.ApplyFilters` | src/pages/shop/page.tsx:315-319 | copies selected materials and range into the applied ones and closes the panel; the applied criteria are unchanged because they already agree |
| `ShopPanel.FilterPanel.ChooseSortOption` | src/pages/shop/page.tsx:162-164 | the select sets the sort option and nothing else |
| `ShopPanel.FilterPanel.ToggleFilterPanel` | src/pages/shop/page.tsx:129 | the Filters button flips the panel's visibility only |
| `ShopPanel.FilterPanel.CloseFilterPanel` | src/pages/shop/page.tsx:192 | the close button hides the panel only |
| `ShopPanel.FilterPanel.Listing` | src/pages/shop/page.tsx:34-64 | the rendered grid holds exactly the active products that match the applied criteria, with their multiplicities, sorted by the option with equal-key products in filter order; the "N Products" count equals the grid's length |
| `ShopPanel.PipelineIdempotent` | src/pages/shop/page.tsx:37-64 | for any grid of matching products sorted by an option, any stable sort of the re-filtered grid by the same option is the grid itself: filter-then-sort is idempotent |
| `ShopPanel.FilterPanel.Relisting` | src/pages/shop/page.tsx:37-64 | re-running the page's filter and sort over the rendered grid gives a stable sort of the re-filtered grid by the option, and that is the grid again |
| `Pricing.Sum` | src/pages/cart/page.tsx:35 | the `reduce` sum as a left fold, a specification function without a contract of its own; stated by `SumConcat` and `SumNonNegative` |
| `Pricing.SumConcat` | src/pages/cart/page.tsx:35 | the `reduce` sum of a concatenation is the sum of the parts |
| `Pricing.SumNonNegative` | src/pages/cart/page.tsx:35 | non-negative line amounts give a non-negative subtotal |
| `Pricing.Totals` | src/pages/cart/page.tsx:37-38 | tax is 8 % of the subtotal and total = subtotal + shipping + tax = 1.08 × subtotal + shipping; with non-negative subtotal and shipping, total ≥ subtotal |
| `CartPage.Subtotal` | src/pages/cart/page.tsx:35 | the subtotal as the sum of the line amounts, without a contract of its own; stated by `TotalAtLeastSubtotal` and `SubtotalGrows` |
| `CartPage.Shipping` | src/pages/cart/page.tsx:36 | shipping is 0 exactly when the subtotal is strictly above 200, and 15 otherwise (a subtotal of exactly 200 pays 15) |
| `CartPage.CartTotals` | src/pages/cart/page.tsx:35-38 | subtotal is the sum of price × quantity over the lines; shipping by the threshold; tax is 8 % of the subtotal; total = subtotal + shipping + tax = 1.08 × subtotal + shipping |
| `CartPage.FreeShippingHint` | src/pages/cart/page.tsx:261-263 | the hint appears exactly when the cart is non-empty and shipping is charged; its amount is ≥ 0 and brings the subtotal to 200 |
| `CartPage.WithQuantity` | src/pages/cart/page.tsx:27 | same length; lines with the id take the new quantity, every other line is unchanged |
| `CartPage.WithoutItem` | src/pages/cart/page.tsx:32 | a line remains exactly when it was present and has a different id |
| `CartPage.WithoutItemConcat` | src/pages/cart/page.tsx:32 | removal commutes with concatenation, so remaining lines keep their order |
| `CartPage.WithoutAbsentId` | src/pages/cart/page.tsx:31-33 | removing an id no line has leaves the cart unchanged |
| `CartPage.BadgeCount` | src/pages/cart/page.tsx:42 | the navbar badge as the sum of the quantities, without a contract of its own; stated by `BadgeAtLeastLines` |
| `CartPage.BadgeAtLeastLines` | src/pages/cart/page.tsx:42 | with every quantity ≥ 1, the badge (sum of quantities) is at least the heading's line count |
| `CartPage.TotalAtLeastSubtotal` | src/pages/cart/page.tsx:35-38 | with non-negative prices the subtotal is non-negative and the total is at least the subtotal |
| `CartPage.EmptyCartTotals` | src/pages/cart/page.tsx:35-38 | an empty cart has subtotal 0 and tax 0, and is charged the 15 fee |
| `CartPage.SubtotalGrows` | src/pages/cart/page.tsx:35 | adding a line with a non-negative amount never lowers the subtotal |
| `CartPage.TotalCanDrop` | src/pages/cart/page.tsx:36-38 | a 199 cart totals 229.92, and adding a 2 line makes it 217.08: the total is not monotone |
| `CartPage.Cart.constructor` | src/pages/cart/page.tsx:17-20 | the initial cart is the first two catalogue products, 2 × 'Gold' and 1 × 'Silver'; every quantity ≥ 1 |
| `CartPage.Cart.UpdateQuantity` | src/pages/cart/page.tsx:24-29 | a quantity below 1 leaves the cart unchanged; otherwise every line with the id takes it and nothing else changes; quantities stay ≥ 1 |
| `CartPage.Cart.RemoveItem` | src/pages/cart/page.tsx:31-33 | drops exactly the lines with the id, keeping the rest in order; quantities stay ≥ 1 |
| `Checkout.LineAmounts` | src/pages/checkout/page.tsx:415 | one displayed amount per order item, each price × quantity |
| `Checkout.CheckoutTotals` | src/pages/checkout/page.tsx:35-38 | subtotal is the sum of the displayed line amounts; shipping is 0 whatever the subtotal; tax is 8 % of it; total = 1.08 × subtotal |
| `Checkout.FixedOrderTotals` | src/pages/checkout/page.tsx:30-38 | for 189 × 2 and 329 × 1: subtotal 707, shipping 0, tax 56.56, total 763.56 |
| `Checkout.PaymentSelection.constructor` | src/pages/checkout/page.tsx:23 | the payment method starts as 'card' |
| `Checkout.PaymentSelection.Choose` | src/pages/checkout/page.tsx:247-259 | a radio sets the method to its value, so the method is always one of 'card', 'paypal', 'apple' |
| `ProductDetail.WantedId` | src/pages/product/page.tsx:29 | the id looked for is 1 when the route has none, the parsed number otherwise, and nothing when it does not parse |
| `ProductDetail.FirstWithId` | src/pages/product/page.tsx:29 | `find` yields the index of the first product with the wanted id, or none when no product has it |
| `ProductDetail.SelectProduct` | src/pages/product/page.tsx:26-29 | the shown product is the first one with the wanted id when there is one, else the first product; none exactly when the active list is empty |
| `ProductDetail.WithDefaults` | src/pages/product/page.tsx:32-40 | falsy category, material, badge, rating and image become 'Home Décor', 'Mixed', 'Handcrafted', 5 and the placeholder (a rating of 0 becomes 5); truthy ones, id, name and originalPrice are kept; the displayed text fields and the rating are never empty or 0 |
| `ProductDetail.Gallery` | src/pages/product/page.tsx:42-44 | the gallery is five copies of the shown image |
| `ProductDetail.ProductView.constructor` | src/pages/product/page.tsx:12-17 | first image, quantity 1, 'Gold', mini-cart hidden, 'description' open |
| `ProductDetail.ProductView.SelectImage` | src/pages/product/page.tsx:127-132 | a thumbnail sets the selected index, which stays within the five gallery images; nothing else changes |
| `ProductDetail.ProductView.Decrement` | src/pages/product/page.tsx:214 | the minus button lowers the quantity by one but not below 1; nothing else changes |
| `ProductDetail.ProductView.Increment` | src/pages/product/page.tsx:225 | the plus button raises the quantity by one; nothing else changes |
| `ProductDetail.ProductView.SelectVariant` | src/pages/product/page.tsx:186-191 | a variant button selects that variant; nothing else changes |
| `ProductDetail.ProductView.ToggleSection` | src/pages/product/page.tsx:267-271 | clicking the open section closes it; clicking another opens only that one, so at most one section is open; nothing else changes |
| `ProductDetail.ProductView.AddToCart` | src/pages/product/page.tsx:48-49 | Add to Cart shows the mini-cart and changes nothing else |
| `ProductDetail.ProductView.CloseMiniCart` | src/pages/product/page.tsx:350 | the mini-cart's close button hides it and changes nothing else |
| `ProductDetail.ProductView.MiniCartLinePrice` | src/pages/product/page.tsx:364 | the mini-cart line (shown price × quantity) is at least the unit price for a non-negative price, because the quantity is ≥ 1 |

## Left out

- Network I/O is not modelled. This covers the product fetches (shop lines 22-27, product
  lines 19-24) and the wishlist POST (shop lines 66-79). The fetched lists are parameters.
- The mock product list `src/mocks/products` is not part of this model. It is a parameter,
  and so are the cart's two initial products.
- The mini-cart's five-second auto-close (product line 50) is a timer and is not modelled;
  its effect is that of `CloseMiniCart`.
- `toFixed` display formatting and IEEE-754 rounding are not modelled. Amounts are exact reals.
- JavaScript coercion of untyped backend values is not modelled. This covers `Number(...)`,
  `parseInt`, `.toString()`, and string ids compared with `===`. Backend fields are typed
  optional values, and the route parameter is already parsed into `ProductDetail.RouteParam`.
- ShopSort.ArrangeProducts sorts a product without a price as if priced 0. The page's
  comparator reads `Number(a.price)`, which is NaN for a missing price. That makes the
  comparator inconsistent, and the order is then implementation-defined.
- ShopSort.SortInPlace is an insertion sort. The browser's algorithm is not visible.
  `StableSortUnique` shows that every stable sort gives the same list.
- ShopPanel.FilterPanel models the radio handlers at shop lines 211-214 through
  `ChooseCategory`, since they are the same two assignments as lines 142-145.
- The cart's promo code is stored but never applied (cart lines 21, 212-225), so it is not
  modelled. Neither is the promo box's expand toggle.
- Form state is not modelled: the checkout form fields and focus highlight, and the profile,
  contact and register pages. This is input plumbing with no computation.
- Checkout.PaymentSelection.ShowsCardFields is a plain predicate (card fields only for
  'card', checkout line 288) and carries no contract.
- The checkout's "Free" shipping label (line 428) is literal text. The model states
  shipping is 0.
- Pure presentation is not modelled: the lightbox, animations, Navbar, Footer, the home and
  about pages, the route table and the Tailwind configuration.
