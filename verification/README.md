# Agri-Ecommerce: orders, carts and listings in Dafny

A verified model of the core of an agricultural e-commerce shop built on
Express, MongoDB and React. It covers the following parts.

- **The order lifecycle.** `createOrder` checks the shipping fields and takes
  the items from the request or from the caller's cart. It prices the order
  with the flat shipping fee below the free-shipping threshold, then takes
  each item out of stock one product at a time, and finally writes the order
  as `pending`. The customer can cancel an order while it is pending. The
  administrator can set any order status. The order listing and the order
  statistics share one filter.
- **The server cart.** There is one cart per user: an ordered list of lines
  (product, quantity, unit price when added). Adding merges into an existing
  line or appends one. Updating sets a quantity, and a quantity ≤ 0 removes
  the line. Removing filters a product out, and clearing deletes the cart.
- **The listing helpers** that the product, user and order listings share:
  - `parseInt(x) || default` for `page` and `limit`;
  - the `-field` sort rule, which removes the first dash wherever it is;
  - the comma-separated category filter;
  - the `skip`/`limit` window, including what the store does with negative
    values;
  - `totalPages = Math.ceil(total / limit)`.
- **Catalogue and user administration.**
  - Products: the create, update and delete guards, and lookup by slug.
  - Users: registration's checks, the role whitelist, the rule against
    changing or deleting one's own account, and the cascade that deletes a
    user's cart and orders.
- **The storefront.** The page selector of the `Pagination` component, and
  the Redux cart slice (the `fetchCart` payload, the thunk outcomes and the
  reducers).

The MongoDB collections are fields of one `Database` class (`store.dfy`). Its
invariant `Valid` says:
- product, user and order ids are unique, and all of them were issued by
  the id counter;
- product slugs and user e-mails are unique;
- every order has a line;
- a cart holds at most one line per product.

Every endpoint that writes is a method on that database. It is proved to
keep `Valid`, and it states its whole effect and response. For `createOrder`
the effect is an equality with the pure specification `PlaceOrder`, whose
properties are lemmas. Its stock loop is a `while` loop proved against the
left fold `Reserve`. `getPageNumbers` is a method whose loops follow the component's `for` loops, proved
equal to the case analysis `PageNumbers`. The cart slice is a class whose
methods are its reducers.

Error responses are `ApiError(status, message)` with the source's own
messages. Absent request fields are `None` or `""`, and the model follows
JavaScript truthiness wherever the code tests a value with `!x` or `||`.

## Model

| member | source | states |
|---|---|---|
| Common.IndexOf | server/controllers/cart.controller.js:52-54 | the index of the first element with the key, or -1 exactly when no element has it |
| Common.RemoveAt | server/controllers/cart.controller.js:91 | `splice(i, 1)`: one shorter, elements before `i` kept, elements after it shifted down by one |
| Store.ParseStatus | server/models/Order.js:22-26 | a status string is accepted iff it is one of the four enum values, and it names the status it parses to |
| Store.StatusNameRoundTrip | server/models/Order.js:22-26 | every status parses back from its stored name |
| Store.ParseRole | server/controllers/user.controller.js:341 | a role string is accepted iff it is customer, admin or seller, and it names the role it parses to |
| Store.SubtotalAppend | server/controllers/cart.controller.js:19-21 | the sum of price × quantity over two runs of lines is the sum of their sums |
| Store.Database.constructor | server/models/Product.js:3-16 | the empty database satisfies the invariant |
| Listing.PageParam | server/controllers/product.controller.js:29-30 | a non-zero parsed number is used as is; absent, unparsable or 0 gives the default, so page and limit are never 0 |
| Listing.RemoveFirst | server/controllers/product.controller.js:47 | `replace("-", "")` is the identity without a dash and removes exactly one character otherwise |
| Listing.RemoveFirstIsFirst | server/controllers/product.controller.js:47 | the character removed is the one at the first dash's position; everything before and after it is kept |
| Listing.RemoveFirstAfter | server/controllers/product.controller.js:47 | text before the first dash passes through unchanged |
| Listing.ParseSort | server/controllers/product.controller.js:45-50 | no sort means `createdAt` descending; otherwise the direction is -1 iff the string starts with `-`, and it is always ±1 |
| Listing.SortParamRoundTrip | server/controllers/product.controller.js:44-50 | parsing `key` or `-key` gives back the key and direction for any key without a dash |
| Listing.SortDashInsideKey | server/controllers/product.controller.js:47 | a dash inside the string is removed too: `price-x` sorts ascending on `pricex` |
| Listing.JoinSplit | server/controllers/product.controller.js:37 | joining the pieces of `split(",")` back with commas gives the original string |
| Listing.SplitJoin | server/controllers/product.controller.js:37 | splitting pieces joined by commas, none containing a comma, gives the pieces back |
| Listing.SplitPartsHaveNoSeparator | server/controllers/product.controller.js:37 | no piece of `split(",")` contains a comma |
| Listing.CategoryFilter | server/controllers/product.controller.js:35-40 | no filter iff the category parameter is empty; otherwise a non-empty list of comma-free names that join back to the parameter |
| Listing.TotalPages | server/controllers/product.controller.js:64 | `Math.ceil(total / limit)`: the least n with total ≤ n·limit for a positive limit, and the matching bound for a negative one |
| Listing.Window | server/controllers/product.controller.js:53-56 | fails with a 500 iff the skip `(page-1)·limit` is negative; otherwise at most abs(limit) records, the j-th being record skip+j |
| Listing.WindowFindsEveryRecord | server/controllers/product.controller.js:53-56 | with a positive limit, record i is at position i mod limit of page i / limit + 1, a page within `totalPages` |
| Listing.PastLastPageIsEmpty | server/controllers/product.controller.js:53-64 | a page after `totalPages` is empty |
| Listing.Paginate | server/controllers/product.controller.js:52-66 | the response fails iff the skip is negative; otherwise its metadata is (matched count, page, limit, ceil) and its data is the window of the sorted matches |
| Listing.PaginateListsArranged | server/controllers/product.controller.js:53-56 | every record on a page is one of the sorted records |
| Listing.PaginateListsMatches | server/controllers/product.controller.js:52-56 | when the sort only rearranges the matches, every record on a page is a match |
| Listing.DefaultPageIsFirstTen | server/controllers/product.controller.js:29-30 | with no page or limit, page 1 of 10 lists the first ten sorted records |
| CartController.GetCart | server/controllers/cart.controller.js:5-27 | no cart gives no items and subtotal 0; otherwise the lines and the sum of price × quantity |
| CartController.Without | server/controllers/cart.controller.js:110-112 | the filter leaves no line for the product and never adds lines |
| CartController.WithoutAbsent | server/controllers/cart.controller.js:110-112 | removing a product that has no line changes nothing |
| CartController.WithoutIdempotent | server/controllers/cart.controller.js:110-112 | removing twice is removing once |
| CartController.SpliceIsWithout | server/controllers/cart.controller.js:91 | with one line per product, splicing out the product's index equals filtering the product out |
| CartController.SubtotalSplitsOnProduct | server/controllers/cart.controller.js:19-21 | the subtotal is one product's line amount plus the subtotal of the other lines |
| CartController.SubtotalUpdate | server/controllers/cart.controller.js:57 | changing one line changes the subtotal by exactly that line's change in amount |
| CartController.AddLineKeepsDistinct | server/controllers/cart.controller.js:52-60 | adding keeps at most one line per product |
| CartController.AddLine | server/controllers/cart.controller.js:44-60 | an existing product's line stays in place and the cart keeps its length; a new product adds one line; the lines of other products are untouched |
| CartController.SetLine | server/controllers/cart.controller.js:90-94 | quantity ≤ 0 drops the line at the index and shifts the later lines down; > 0 sets that line's quantity, keeping its product and price, and every other line |
| CartController.AddLineEffect | server/controllers/cart.controller.js:52-60 | adding raises the product's quantity by the amount added. An existing line keeps its position and price snapshot; a new line goes at the end at the catalogue price. Every other line stays as it was |
| CartController.AddLineSubtotal | server/controllers/cart.controller.js:52-60 | adding raises the subtotal by quantity × the line's snapshot price |
| CartController.SetLineKeepsDistinct | server/controllers/cart.controller.js:90-94 | setting a quantity keeps at most one line per product |
| CartController.SetLineEffect | server/controllers/cart.controller.js:90-94 | quantity ≤ 0 removes exactly that product's line; > 0 sets its quantity, with its position and price kept; every other line is kept in order |
| CartController.WithoutKeepsDistinct | server/controllers/cart.controller.js:110-112 | filtering keeps at most one line per product and only lines that were there |
| CartController.AddToCart | server/controllers/cart.controller.js:29-66 | 400 for a missing or falsy product or quantity, 404 for an unknown product; it succeeds exactly when neither applies, and then the caller's cart becomes `AddLine` of it at the catalogue price; a failure changes no cart |
| CartController.UpdateCartItem | server/controllers/cart.controller.js:68-99 | 400 for a missing product or null quantity, 404 without a cart or a line; it succeeds exactly when the product has a line in the caller's cart, and then applies `SetLine` at the product's index; failures change nothing |
| CartController.RemoveCartItem | server/controllers/cart.controller.js:101-116 | 404 without a cart; otherwise the product is filtered out, and an absent product is a successful no-op |
| CartController.ClearCart | server/controllers/cart.controller.js:118-121 | the cart is deleted, so `getCart` then gives no items and subtotal 0 |
| OrderController.ShippingFee | server/controllers/order.controller.js:49-53 | the fee is `SHIPPING_FEE` iff the subtotal is defined and below `FREE_SHIP_THRESHOLD`, else 0 |
| OrderController.PaymentOf | server/controllers/order.controller.js:85 | an absent method and `cod` both give `cod`, `banking` gives `banking`; anything else fails the schema enum |
| OrderController.ReserveItem | server/controllers/order.controller.js:60-76 | one iteration succeeds iff the product exists with stock ≥ the quantity; a failure (400 or 404) saves nothing; the catalogue keeps its length |
| OrderController.Reserve | server/controllers/order.controller.js:58-77 | the loop keeps the catalogue's length, and it can only stop with a 400 or a 404 |
| OrderController.ReserveItemKeepsLedger | server/controllers/order.controller.js:67-76 | one step of the stock loop keeps every product's `stock + sold` and non-negative stock |
| OrderController.ReserveKeepsLedger | server/controllers/order.controller.js:58-77 | the whole loop, however it ends, keeps `stock + sold` per product and never drives a stock negative |
| OrderController.ReserveStops | server/controllers/order.controller.js:60-72 | after the first missing or short product, later items change nothing |
| OrderController.ReserveTakesDemand | server/controllers/order.controller.js:74-75 | a completed loop lowers each product's stock, and raises its `sold`, by the total quantity the items ask of it |
| OrderController.ReserveStock | server/controllers/order.controller.js:58-77 | the loop over the database equals the specification `Reserve`, keeps the invariant and touches only products |
| OrderController.Take | server/controllers/order.controller.js:74-75 | the saved update keeps `stock + sold`, the id and the slug |
| OrderController.CompleteOrder | server/controllers/order.controller.js:49-94 | the stock is taken in every outcome and the carts are untouched; the order is written iff the loop completes, the subtotal is defined and the payment method is in the enum; then the order, with the given items, is appended and the id counter advances, and otherwise no order is written |
| OrderController.PlaceOrder | server/controllers/order.controller.js:12-95 | the catalogue keeps its length; a failure is a 400, 404 or 500; a placed order belongs to the caller, is `pending` and takes the next id |
| OrderController.CompleteOrderIn | server/controllers/order.controller.js:49-94 | pricing, the stock loop and the order write equal the specification `CompleteOrder`, keep the invariant and leave users alone |
| OrderController.CreateOrder | server/controllers/order.controller.js:12-95 | the products, carts, orders, id counter and response are those of `PlaceOrder`; users are untouched; the invariant holds |
| OrderController.PlaceOrderRejectsMissingShipping | server/controllers/order.controller.js:21-25 | a missing address, recipient name or mobile gives 400 with nothing changed |
| OrderController.PlaceOrderRejectsEmptyCart | server/controllers/order.controller.js:31-37 | without items, a missing or empty cart gives 400 "Cart is empty" with nothing changed |
| OrderController.PlaceOrderKeepsLedger | server/controllers/order.controller.js:58-77 | every outcome of order creation keeps `stock + sold` per product and stock non-negative |
| OrderController.PlaceOrderSuccess | server/controllers/order.controller.js:27-94 | a placed order is appended with the next id, the caller, the items, status `pending` and `cod` by default. Its subtotal is the cart sum or the caller's `total_price`, its total is subtotal + fee, and each stock has dropped by the demand |
| OrderController.CartDeletedEvenOnFailure | server/controllers/order.controller.js:46 | the cart is gone once it has been read, even when the stock loop or the write then fails |
| OrderController.ExplicitItemsKeepCart | server/controllers/order.controller.js:27-31 | explicit items leave the cart alone |
| OrderController.FailedOrderWritesNothing | server/controllers/order.controller.js:58-86 | a failed creation writes no order and issues no id |
| OrderController.CartOrderExample | server/controllers/order.controller.js:40-55 | a cart of 2 × 10000 gives subtotal 20000, fee 30000 and total 50000, and takes 2 from stock |
| OrderController.FreeShippingBoundary | server/controllers/order.controller.js:8-9 | a subtotal equal to the threshold ships free; one below pays the fee |
| OrderController.SecondOrderRefusedWhenStockRunsOut | server/controllers/order.controller.js:67-76 | two orders of 2 against a stock of 3: the second is refused and 1 unit remains |
| OrderController.NoRollbackOnShortStock | server/controllers/order.controller.js:58-77 | when a later product is short, the earlier product's stock stays taken and no order is written |
| OrderController.ExplicitTotalIsTrusted | server/controllers/order.controller.js:27-28 | with explicit items the caller's `total_price` is the subtotal even when it disagrees with the lines |
| OrderController.MissingTotalLosesStock | server/controllers/order.controller.js:50-86 | explicit items without `total_price` take stock and then fail the order write |
| OrderController.CancelOrder | server/controllers/order.controller.js:261-280 | 404 unless the order is the caller's, 400 unless it is pending, otherwise only its status becomes cancelled; products never change |
| OrderController.UpdateOrderStatus | server/controllers/order.controller.js:168-189 | 400 for a status outside the enum, 404 for an unknown order, otherwise that order takes the new status from any current status |
| OrderController.OrdersOf | server/controllers/order.controller.js:99 | exactly the caller's orders are listed |
| OrderController.OrdersOfAppend | server/controllers/order.controller.js:79-86 | a new order joins the end of its owner's list and no one else's |
| OrderController.MatchingOrders | server/controllers/order.controller.js:117-134 | an order is listed iff it has the requested status and its owner matches the search |
| OrderController.ListOrders | server/controllers/order.controller.js:108-165 | the total is the number of matching orders; when the store's sort only rearranges them, every listed order is a stored order matching the status and the search |
| OrderController.Tally | server/controllers/order.controller.js:220-239 | the pass counts every order once |
| OrderController.OrderStatsFor | server/controllers/order.controller.js:191-258 | over the matching orders, `totalOrders` is their number, each status count is the number with that status, and the revenue is the sum of `total_price` over the completed ones (all zero when nothing matches) |
| OrderController.TallyCountsAddUp | server/controllers/order.controller.js:220-239 | `pending + shipping + completed + cancelled = totalOrders`, the number of orders counted |
| OrderController.TallyAppend | server/controllers/order.controller.js:220-239 | the tally of two runs of orders is the sum of their tallies |
| OrderController.TallyIsPerStatusCount | server/controllers/order.controller.js:220-239 | each status count is the number of orders with that status, and revenue is the sum of `total_price` over completed orders |
| OrderController.TallyAfterStatusChange | server/controllers/order.controller.js:178-182 | a status change moves one order's contribution from its old status to its new one |
| OrderController.CancellationMovesOneOrder | server/controllers/order.controller.js:276-277 | a cancellation lowers `pending` by one and raises `cancelled` by one; nothing else changes |
| OrderController.StatsAgreeWithListing | server/controllers/order.controller.js:191-252 | the statistics are the tally of the orders the listing matches (zeros when none), and their total equals the listing's total |
| OrderController.StatusFilterCountsOneStatus | server/controllers/order.controller.js:196-198 | with a status filter, every counted order falls under that status |
| ProductController.MatchingProducts | server/controllers/product.controller.js:33-41 | a product is listed iff its category is in the filter and its name matches the search |
| ProductController.ListProducts | server/controllers/product.controller.js:25-68 | the total is the number of matching products; when the store's sort only rearranges them, every listed product is a stored product in the category filter that matches the search |
| ProductController.CategoryFilterOfJoin | server/controllers/product.controller.js:35-40 | a category query written as `a,b,c` filters on exactly the list a, b, c |
| ProductController.CategoryQueryIsMembership | server/controllers/product.controller.js:35-39 | with a category query, a product is selected iff its category is one of the comma-separated names |
| ProductController.MatchingAll | server/controllers/product.controller.js:33-41 | with no category and no search every product is selected, in stored order |
| ProductController.UnfilteredListingCountsAll | server/controllers/product.controller.js:52 | with no filter the total counts every product |
| ProductController.ProductBySlug | server/controllers/product.controller.js:70-78 | 404 iff no product has the slug; otherwise a product with that slug |
| ProductController.CreateProduct | server/controllers/product.controller.js:5-23 | 400 for a missing name, price or category, 400 for an existing slug, 500 for an empty slug, each with nothing inserted; it succeeds exactly when none applies, and then the product is appended with the next id and `stock`/`sold` defaulting to 0, and is found by its slug |
| ProductController.Patched | server/controllers/product.controller.js:81 | an update keeps the id; each of name, slug, category, price, stock and sold takes the body's value when given and keeps the stored one otherwise |
| ProductController.EmptyPatchChangesNothing | server/controllers/product.controller.js:81 | an empty body changes nothing |
| ProductController.PatchIdempotent | server/controllers/product.controller.js:81 | applying the same body twice is applying it once |
| ProductController.UpdateProduct | server/controllers/product.controller.js:80-90 | 404 for an unknown id, 500 when another product already has the new slug, each with nothing changed; it succeeds exactly when neither applies, and then only that record changes, to `Patched` |
| ProductController.DeleteProduct | server/controllers/product.controller.js:92-100 | 404 for an unknown id; otherwise exactly that record goes and the others keep their order |
| UserController.Register | server/controllers/user.controller.js:136-162 | 400 for any missing input, 400 for an e-mail already registered, with no user created; otherwise a `customer` is appended and is found by its e-mail |
| UserController.MatchingUsers | server/controllers/user.controller.js:293-308 | a user is listed iff the role matches and the name or e-mail matches the search |
| UserController.PublicAll | server/controllers/user.controller.js:318 | the listed records are the users without their password hash, one for one |
| UserController.ListUsers | server/controllers/user.controller.js:288-334 | the total is the number of matching users; when the store's sort only rearranges them, every listed entry is the public view of a stored user, with the requested role and a name or e-mail matching the search |
| UserController.ListedUsersMatch | server/controllers/user.controller.js:318-326 | under a sort that only rearranges the matches, each listed entry is a stored user's public view that meets the role and search filters |
| UserController.UnknownRoleSelectsNobody | server/controllers/user.controller.js:297-299 | a role filter outside the enum lists nobody |
| UserController.RoleFilterSelectsRole | server/controllers/user.controller.js:297-299 | a role filter lists exactly the users holding that role |
| UserController.UpdateUserRole | server/controllers/user.controller.js:337-374 | 400 for a role outside the enum, 403 for the caller's own account, 404 for an unknown id, each with nothing changed; otherwise only that user's role changes |
| UserController.OrdersNotOf | server/controllers/user.controller.js:397 | deleting a user's orders leaves exactly the other users' orders |
| UserController.OrdersNotOfIdempotent | server/controllers/user.controller.js:397 | deleting the same user's orders again deletes nothing more |
| UserController.CascadeSparesOthers | server/controllers/user.controller.js:396-397 | every other user's orders are exactly as before the cascade |
| UserController.OrdersNotOfKeepsDistinct | server/controllers/user.controller.js:397 | the cascade keeps order ids unique |
| UserController.DeleteUserData | server/controllers/user.controller.js:396-397 | the user's cart and every order they placed are deleted, and nothing else changes |
| UserController.DeleteUser | server/controllers/user.controller.js:377-400 | 403 for the caller's own account, 404 for an unknown id, each with nothing changed; it succeeds exactly when neither applies. Then the user, their cart and all their orders are deleted, and no user with that id remains |
| Pagination.Range | client/src/components/Pagination.jsx:10-12 | the buttons for pages lo to hi in order |
| Pagination.PageNumbers | client/src/components/Pagination.jsx:5-33 | never more than 7 entries; with at least one page, the first entry is page 1 and the last is the last page |
| Pagination.GetPageNumbers | client/src/components/Pagination.jsx:5-33 | the list built by the loops is `PageNumbers` |
| Pagination.SmallTotalListsEveryPage | client/src/components/Pagination.jsx:9-12 | up to 7 pages, exactly pages 1 to total with no ellipsis |
| Pagination.LargeTotalShape | client/src/components/Pagination.jsx:13-31 | above 7 pages, 6 or 7 entries. The list starts at 1 and ends at the last page, its numbers increase, neighbouring buttons are consecutive, and each ellipsis hides a page |
| Pagination.SmallTotalShape | client/src/components/Pagination.jsx:9-12 | for 1 to 7 pages the list has the same shape |
| Pagination.ButtonsAreRealPages | client/src/components/Pagination.jsx:5-33 | every button names a page between 1 and the total |
| Pagination.CurrentPageIsShown | client/src/components/Pagination.jsx:5-33 | a current page between 1 and the total always has its own button |
| Pagination.Pager | client/src/components/Pagination.jsx:36-79 | nothing is rendered iff there is at most one page; previous is disabled iff on page 1, next iff on the last page |
| Pagination.NavigationStaysInRange | client/src/components/Pagination.jsx:43-74 | from a real page, an enabled previous or next button leads to a real page |
| CartSlice.AddLineCount | client/src/store/cart/cartSlice.js:22-25 | adding a quantity to the server cart raises the fetched count by exactly that quantity |
| CartSlice.RemoveLineCount | client/src/store/cart/cartSlice.js:22-25 | removing a product lowers the fetched count by that product's quantity |
| CartSlice.FetchCartThunk | client/src/store/cart/cartSlice.js:11-28 | a failed response rejects with its message; missing data becomes an empty cart; the payload's count is the sum of its quantities |
| CartSlice.OrElse | client/src/store/cart/cartSlice.js:126 | `value \|\| fallback`: a missing or empty value gives the fallback |
| CartSlice.MutationThunk | client/src/store/cart/cartSlice.js:31-87 | a thunk rejects iff the response failed, with the response message or the thunk's fallback, never empty |
| CartSlice.FetchedCountMatchesServer | client/src/store/cart/cartSlice.js:20-26 | the fetched items are the server cart and the count is the sum of its quantities, 0 with no cart |
| CartSlice.CartState.constructor | client/src/store/cart/cartSlice.js:89-95 | the initial state is empty, not loading, with no error |
| CartSlice.CartState.ClearCartState | client/src/store/cart/cartSlice.js:102-107 | items, count, subtotal and error are cleared; `isLoading` is unchanged |
| CartSlice.CartState.FetchCartPending | client/src/store/cart/cartSlice.js:112-115 | loading with no error; the cart data is kept |
| CartSlice.CartState.FetchCartFulfilled | client/src/store/cart/cartSlice.js:116-121 | not loading; items, count and subtotal come from the payload, so the count agrees with the items |
| CartSlice.CartState.FetchCartRejected | client/src/store/cart/cartSlice.js:122-127 | not loading; the error is the reason or "Could not fetch cart"; the cart data is kept |
| CartSlice.CartState.AddToCartRejected | client/src/store/cart/cartSlice.js:137-141 | only the error changes, to the reason or "Could not add item to cart" |
| CartSlice.CartState.UpdateCartItemRejected | client/src/store/cart/cartSlice.js:145-147 | only the error changes, to the reason or "Could not update item" |
| CartSlice.CartState.RemoveCartItemRejected | client/src/store/cart/cartSlice.js:152-154 | only the error changes, to the reason or "Could not remove item" |
| CartSlice.CartState.ClearCartPending | client/src/store/cart/cartSlice.js:156-158 | loading; nothing else changes |
| CartSlice.CartState.ClearCartRejected | client/src/store/cart/cartSlice.js:159-162 | not loading; the error is the reason or "Could not clear cart"; the cart data is kept |

## Left out

- I/O, timing and identity. The `createdAt` clock is a parameter. Database ids come from one counter.
- Sorting and search patterns are abstract:
  - The store's sort on the parsed option is an abstract function (`arrange`). Only the parsing of the sort parameter is modelled.
  - The case-insensitive `$regex` search is an abstract predicate (`matches`).
- Foreign functions are parameters:
  - `slugify` and the schema's `lowercase` setter on e-mails (`lower`) are abstract functions.
  - The salted bcrypt hash is a given string.
- The shipping constants are their defaults. The environment overrides of `SHIPPING_FEE` and `FREE_SHIP_THRESHOLD` are not modelled.
- Value coercions are not modelled: JSON numbers sent as strings (a string quantity that `+=` would concatenate), floating-point prices, and the schema's `trim` on names. Every quantity and price is an integer.
- Error messages:
  - The messages of errors raised by the store are placeholders: "Order validation failed", "Product validation failed", the duplicate-key error and "skip value must be non-negative".
  - Their status is 500. The error-handling middleware that writes those responses is not part of this model.
- Concurrency is not modelled. Every request is one sequential step with no interleaving.
- Authentication is not modelled. The caller is a given user id, and the admin-only routes are assumed to be reached by an administrator.
- `getOrderStats` is modelled, but no route in `server/routes/order.route.js` exposes it.
- Several client handlers are not modelled:
  - the `addToCart.pending`/`fulfilled`, `updateCartItem.pending` and `removeCartItem.pending` reducers, which change nothing;
  - the selectors;
  - the `fetchCart` that each successful mutation thunk dispatches. Its effect is `FetchCartThunk` followed by the `fetchCart` reducers.
- Deleting a product leaves cart and order lines that name it. The model keeps them too.
- OrderController.OrdersOf: lists the caller's orders in stored order; the newest-first sort of `getMyOrders` is left to the store, like every other sort.
- ProductController.UpdateProduct: models the unique slug index as a 500 refusal. It does not model the `lowercase` setter on an updated slug.
- ProductController.ListProducts, UserController.ListUsers and OrderController.ListOrders state the page contents only for a sort that rearranges the matches. The store's sort is abstract, so nothing more can be said about what it returns.
