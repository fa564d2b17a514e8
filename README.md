# Gym store: carts, orders and catalog rules in Dafny

This project models the server side of a small gym equipment store built on
Django. It covers:

- the cart views: add, view, update, remove, clear and count;
- the order views: checkout, payment, cancellation, staff status updates and
  the order listings;
- the catalog views: the customer product list with its filters and sort,
  related products, product, category and brand forms, and the
  primary-image flags;
- the catalog model properties `is_in_stock` and `primary_image`;
- registration, and the statistics of the staff dashboard and reports page.

The store is one abstract state held in four classes:

- `ProductViews.Catalog`: categories, brands, products and images;
- `CartViews.CartStore`: one optional cart per user, and the cart lines;
- `OrderViews.OrderBook`: orders with their frozen lines;
- `AccountViews.UserDirectory`: the users.

Each view is a method on these classes. A method takes the signed-in user's
id and superuser flag, the HTTP verb and the form fields as parameters. It
answers `Result` (`Ok` or `Err` with an error kind), and its contract states
the whole new state, counters included. The queries and the statistics
are pure functions over the tables.

Representation choices:

- Tables are sequences in primary-key order. Ids come from per-table counters,
  so ids increase along a table. An unordered `.first()` is therefore the
  first row. Creation times are parameters that the model does not
  constrain, and it takes id order to be creation order: "newest first"
  (`-created_at`, `-added_at`) for orders and cart lines is the table
  reversed. Products keep their creation time, and the catalog sorts by it.
- Prices are integers in cents, because a price column holds two decimals.
  Order amounts are in hundredths of a cent, so the 8% tax is exact:
  - the subtotal is `100 * c`;
  - the tax is `8 * c`;
  - the stored total is their sum.
- The search filter `name__icontains` folds ASCII letters only, as the
  `LIKE` of an SQLite database does; other characters must match exactly.
  White space for `strip()` is the full set Python's `str.isspace` accepts.
- A user's cart is an entry of the map `carts`. A cart line knows its cart,
  its product and its quantity.

The invariants each class keeps are in its `Valid()` predicate:

- at most one line per product in a cart, and every quantity positive;
- unique category, brand and user names and emails;
- at most one primary image per product;
- prices within the column;
- increasing ids and unique order numbers;
- every order priced from its own lines: subtotal, free shipping, 8% tax,
  and total = subtotal + tax.

Where the code and the design description disagree, the model follows the
code:

- `clear_cart` answers not-found when the user has no cart, rather than
  doing nothing.
- The staff status update applies any listed status with no transition
  check. Cancelled and delivered orders can therefore be moved anywhere.
- Paying a cancelled order makes it paid and processing, because the
  payment view never looks at the status.
- The stored `total_amount` is `subtotal + tax`, with no shipping term.
- The tax is not rounded; it is kept exactly.
- The best-seller revenue is `Sum('price')`: the sum of the unit prices
  of the lines, not price times quantity (`TopRevenueIgnoresQuantity`).
- A category's `total_orders` is `Count('order')`, which counts its order
  lines.

## Model

| member | source | states |
|---|---|---|
| ProductModels.ImagesOf | product/models.py:59 | the images of a product are exactly the image rows that refer to it; none exactly when no row does |
| ProductModels.FirstPrimary | product/models.py:52 | the position found holds a primary image and no earlier image is primary; none found means no image is primary |
| ProductModels.PrimaryImage | product/models.py:49-56 | no image exactly when the product has none; a primary image whenever one is flagged; otherwise the product's first image; always one of the product's own images |
| ProductModels.FindProduct | cart/views.py:11 | the product found carries the id asked for; none found means no row has that id |
| ProductModels.FindCategory | product/views.py:116 | the category found carries the id asked for; none found means no row has that id |
| ProductModels.FindBrand | product/views.py:117 | the brand found carries the id asked for; none found means no row has that id |
| ProductModels.IndexOfProduct | product/views.py:165 | the position found holds the product with that id; none found means no row has it |
| ProductModels.IndexOfImage | product/views.py:330 | the position found holds the image with that id; none found means no row has it |
| ProductModels.FirstImageOf | product/views.py:310-312 | the position found is the product's first image in table order; none found means it has no image |
| Text.Strip | product/views.py:48 | the stripped string is a slice of the input with only white space before and after it; it has no white space at either end, and is empty exactly when the input is all white space |
| ProductViews.FilterProducts | product/views.py:27-55 | a product is listed exactly when it is active and passes the category, brand, search and both inclusive price filters; listed products keep their multiplicity |
| ProductViews.ProductOrderIsPreorder | product/views.py:58-65 | each of the four sort orders compares every two products, transitively |
| ProductViews.CustomerProductList | product/views.py:25-65 | the list holds exactly the filtered products, as a permutation of the filtered rows, sorted by the order the `sort` parameter names |
| ProductViews.CustomerListOrder | product/views.py:58-65 | `price_low` lists prices ascending, `price_high` descending, `name` by name, and any other value newest first |
| ProductViews.RelatedCandidates | product/views.py:85-88 | exactly the active products of the same category other than the product itself |
| ProductViews.NewestRelated | product/views.py:85-88 | at most four products, all active, of the same category and not the product itself, newest first, each candidate at most as often as it occurs |
| ProductViews.NewestRelatedAreNewest | product/views.py:85-88 | a related product left out is no newer than any shown, and then four are shown |
| ProductViews.RelatedProducts | product/views.py:82-88 | not-found exactly when the product is missing or inactive; otherwise at most four of its related products, newest first, none repeated beyond the candidates |
| ProductViews.FormStockShown | product/views.py:125 | a product saved from the form is in stock (`is_in_stock`) exactly when the form gave a positive stock; a blank stock field saves 0 |
| ProductViews.CheckProductForm | product/views.py:114-146 | a form is accepted exactly when the required fields are present, the category and brand exist and the row fits the table; a missing field is reported first, then an unknown reference |
| ProductViews.NewImages | product/views.py:134-139 | `count` new rows of the product with consecutive ids, only the first possibly primary |
| ProductViews.UploadKeepsOnePrimary | product/views.py:187-196 | uploading keeps at most one primary image per product when the first upload is flagged only for a product without one, and then the product has one |
| ProductViews.UploadKeepsImageTable | product/views.py:295-302 | uploaded rows get fresh increasing ids and refer to an existing product |
| ProductViews.AutoFixKeepsOnePrimary | product/views.py:309-314 | the repair keeps at most one primary per product and leaves a product with images holding a primary one |
| ProductViews.AutoFixKeepsShownImage | product/views.py:309-314 | the repair leaves other products' images as they were and does not change which image the product shows |
| ProductViews.ImagesOfFirst | product/models.py:56 | a product's first image heads its image list |
| ProductViews.FirstPrimaryIsFirst | product/models.py:52-54 | once a product's first image is primary, it is the image shown |
| ProductViews.DeleteKeepsImageTable | product/views.py:334 | deleting one image row keeps ids fresh and increasing, owners valid and at most one primary per product |
| ProductViews.FlagsCleared | product/views.py:350 | every image of the product loses its flag and every other row stays as it was |
| ProductViews.ReflagFacts | product/views.py:349-354 | after clearing and flagging, the chosen image is the product's only primary image and the one shown; ids and owners are kept |
| ProductViews.Catalog.AddCategory | product/views.py:233-254 | staff only, POST only, a name is required and must be unused; then exactly one category is appended under the next id |
| ProductViews.Catalog.AddBrand | product/views.py:256-277 | staff only, POST only, a name is required and must be unused; then exactly one brand is appended under the next id |
| ProductViews.Catalog.UploadImages | product/views.py:295-302 | appends exactly the new image rows and keeps the catalog invariant |
| ProductViews.Catalog.AddProduct | product/views.py:97-146 | staff only, POST only; a refused form changes nothing; an accepted one appends the product and its images, the first of them primary |
| ProductViews.Catalog.EditProduct | product/views.py:158-203 | staff only, not-found for a missing product, POST only; an accepted form replaces the row (same id and creation time) and appends images, the first primary only when none was |
| ProductViews.Catalog.ManageImages | product/views.py:279-321 | staff only, not-found for a missing product, and a staff call on an existing product succeeds; a POST uploads (first primary only when none was); any other call applies the repair; other tables unchanged |
| ProductViews.Catalog.RepairPrimary | product/views.py:309-314 | the image table becomes the repaired one and the invariant holds |
| ProductViews.Catalog.DeleteImage | product/views.py:323-338 | staff only, not-found for a missing image, POST only, and a staff POST on an existing image succeeds; then exactly that row is removed and its product's id answered |
| ProductViews.Catalog.SetPrimaryImage | product/views.py:340-357 | staff only, not-found for a missing image, and a staff call on an existing image succeeds; then among its product's images exactly the chosen one is primary, it is the product's primary image, and no other row changes |
| ProductViews.Catalog.MakePrimary | product/views.py:349-354 | the chosen image becomes its product's only primary image; all other rows unchanged |
| ProductViews.Catalog.ClearPrimaryFlags | product/views.py:350 | every image of the product is unflagged and nothing else changes |
| Sorting.SortBy | product/views.py:58-65 | the result is ordered by the key and is a permutation of the input |
| Sorting.Take | product/views.py:88 | a slice `[:n]` is a prefix of length at most `n`, so it repeats no element more often than the input |
| Sorting.TakeKeepsTop | product/views.py:88 | an element of a sorted sequence left out of its first `n` sorts no earlier than any element kept |
| CartViews.ItemsOfCart | cart/views.py:48 | exactly the lines of the cart; empty exactly when no line belongs to it |
| CartViews.ItemsOfCartKeepsOrder | cart/views.py:48 | a cart's lines keep the table's order: when line ids increase along the table, they increase along the cart's lines |
| CartViews.AddLineKeepsOrder | cart/views.py:17-23 | a new line gets an id above every existing one, so the lines stay in the order they were added |
| CartViews.WithoutCartKeepsOrder | cart/views.py:89 | clearing a cart keeps the other lines in the order they were added |
| CartViews.AddLineKeepsValid | cart/views.py:17-26 | adding to an existing cart keeps positive quantities, one line per product and increasing line ids |
| CartViews.DeleteKeepsValid | cart/views.py:80 | deleting a line keeps the line-table invariant |
| CartViews.SetQuantityKeepsValid | cart/views.py:69-70 | setting a positive quantity keeps the line-table invariant |
| CartViews.TotalItemsAtLeastLines | cart/views.py:99 | with positive quantities, the item count is at least the number of lines |
| CartViews.FindLine | cart/views.py:17-21 | the first line of the cart for the product; none exactly when the cart has no such line |
| CartViews.AddLineCounts | cart/views.py:17-26 | adding once leaves exactly one line for the product with one more unit, and every other (cart, product) pair as it was |
| CartViews.RepeatedAdds | cart/views.py:17-26 | `n` adds of a product the cart lacks give one line of quantity `n` |
| CartViews.CountsReplace | cart/views.py:69-70 | replacing one line changes the counts by that line only |
| CartViews.CountsDelete | cart/views.py:66 | deleting one line removes exactly its count |
| CartViews.WithoutCart | cart/views.py:89 | exactly the lines of other carts remain |
| CartViews.WithoutCartFacts | cart/views.py:89 | clearing empties the cart, keeps every other cart's lines in order, and adds no line |
| CartViews.WithoutCartKeepsOthers | cart/views.py:89 | clearing one cart keeps another cart's lines in order |
| CartViews.WithoutCartLines | cart/views.py:89 | clearing never raises a (cart, product) line count |
| CartViews.WithoutCartNoLines | cart/views.py:89 | clearing a cart without lines changes nothing |
| CartViews.WithoutCartIdempotent | cart/views.py:89 | clearing twice is clearing once |
| CartViews.OwnedIndex | cart/views.py:60 | the position of the line with that id in the user's cart; none when the user has no cart or no such line |
| CartViews.CartStore.GetOrCreateCart | cart/views.py:14 | the user keeps one cart; a missing one is created empty under the next id |
| CartViews.CartStore.AddToCart | cart/views.py:8-38 | not-found, with nothing changed, exactly when the product is missing or inactive; otherwise the cart exists, gains one unit of the product, and the answer is its item count and total |
| CartViews.CartStore.AddOne | cart/views.py:17-26 | the line table becomes the one-unit addition and the invariant holds |
| CartViews.CartStore.ViewCart | cart/views.py:44-55 | the user's lines, newest first: line ids strictly decrease along the list; a missing cart is created empty |
| CartViews.CartStore.UpdateCartItem | cart/views.py:57-73 | not-found for a line outside the user's cart; non-POST changes nothing; quantity zero or less deletes the line, otherwise sets that quantity; no other line changes |
| CartViews.CartStore.RemoveFromCart | cart/views.py:75-83 | not-found exactly when the line is not in the user's cart; otherwise exactly that line is deleted |
| CartViews.CartStore.DeleteLine | cart/views.py:80 | exactly line `k` is removed and the invariant holds |
| CartViews.CartStore.DeleteLinesOf | cart/views.py:89 | the lines of the cart are deleted, the others kept in order |
| CartViews.CartStore.ClearCart | cart/views.py:85-92 | not-found, with nothing changed, exactly when the user has no cart; otherwise the cart is left empty |
| CartViews.CartStore.CartCount | cart/views.py:94-103 | 0 without a cart; otherwise the summed quantities, never fewer than the lines |
| OrderViews.ParseStatus | orders/views.py:182 | a code parses exactly when it is one of the five status codes, to the status with that code |
| OrderViews.ParsePayment | orders/views.py:190 | a code parses exactly when it is one of the four payment codes, to the status with that code |
| OrderViews.CodesRoundTrip | orders/views.py:182-190 | every status code parses back to its status |
| OrderViews.CheckoutTotals | orders/views.py:36-39 | shown shipping is zero, tax is exactly 8% of the subtotal, and the total is the sum of the three |
| OrderViews.StoredTotals | orders/views.py:59-64 | stored shipping is zero, tax is 8% of the subtotal, and the total is subtotal plus tax |
| OrderViews.StoredTotalsAreShown | orders/views.py:61-64 | with free shipping, the stored figures equal the shown ones |
| OrderViews.CheckoutScenario | orders/views.py:36-39 | two at 10.00 and one at 5.00 give a 25.00 subtotal, 2.00 tax and a 27.00 total |
| OrderViews.FrozenTotal | orders/views.py:73-79 | frozen order lines are worth what the cart lines were worth |
| OrderViews.OrderAt | orders/views.py:89 | the position of the order with that id and owner; none exactly when no such order exists |
| OrderViews.Select | orders/views.py:148-158 | exactly the orders the filter keeps; empty exactly when it keeps none |
| OrderViews.SelectKeepsOrder | orders/views.py:148-158 | filtering keeps the table order |
| OrderViews.NewestFirst | orders/views.py:102 | increasing ids in table order become decreasing ids once reversed |
| OrderViews.NewestFirstIfValid | orders/views.py:102 | a filtered listing, reversed, has decreasing ids: newest first |
| OrderViews.OrderBook.Checkout | orders/views.py:10-84 | no cart or an empty cart is refused; a non-POST shows the cart's figures; a taken number fails with nothing changed; otherwise one order, pending and unpaid, with one frozen line per cart line and the stored totals, is appended and the cart is emptied |
| OrderViews.OrderBook.AppendOrder | orders/views.py:59-70 | the order is appended under the next id and the invariant holds |
| OrderViews.OrderBook.OrderDetail | orders/views.py:86-97 | the order when it is the user's; not-found exactly when the user has no order with that id |
| OrderViews.OrderBook.OrderHistory | orders/views.py:99-108 | exactly the user's orders, newest first |
| OrderViews.OrderBook.AdminOrders | orders/views.py:141-158 | staff only; exactly the orders passing the status and payment filters (an absent or empty filter keeps all), newest first |
| OrderViews.UnknownStatusListsNothing | orders/views.py:151-153 | a status filter naming no status lists no order |
| OrderViews.NoFilterListsAll | orders/views.py:148 | without filters the staff list holds every order |
| OrderViews.OrderBook.ProcessPayment | orders/views.py:110-128 | not-found for another user's order; already-paid changes nothing; otherwise exactly that order becomes paid and processing with its payment time set, whatever its status was |
| OrderViews.OrderBook.UpdateOrderStatus | orders/views.py:170-198 | staff only, not-found for a missing order; a valid status is set first and returns; otherwise a valid payment status is set; anything else is refused with nothing changed |
| OrderViews.OrderBook.CancelOrder | orders/views.py:201-230 | POST only, the owner's order only; shipped or delivered is refused, already cancelled is refused distinctly; otherwise only the status becomes cancelled |
| OrderViews.OrderBook.SetOrder | orders/views.py:122 | order `k` is saved with changed status fields and the invariant holds |
| OrderViews.FreezeLines | orders/views.py:72-79 | one order line per cart line with the same product and quantity at the current price; the lines are worth the cart's total |
| AccountViews.RegistrationError | accounts/views.py:52-80 | registration goes ahead exactly when the caller is signed out, the form is posted, the passwords match and email and username are unused; otherwise the first failing check in the view's order names the refusal: signed in, not posted, passwords differ, email taken, username taken |
| AccountViews.FindByUsername | accounts/views.py:78 | the user found carries the username; none exactly when the username is unused |
| AccountViews.NormalizeEmailAt | accounts/views.py:82-85 | `NormalizeEmail`, which models what `create_user` does to the address: it stores a trimmed address with its last `@` at `k` with the part after position `k` lower-cased and the rest kept |
| AccountViews.NormalizeJoined | accounts/views.py:82-85 | an address joined from a local part and a domain without `@` keeps its local part and has its domain lower-cased |
| AccountViews.DomainCaseInsensitive | accounts/models.py:5 | two addresses whose domains differ only in letter case are stored the same, so the unique column refuses the second |
| AccountViews.NormalizeEmailIdempotent | accounts/views.py:82-85 | normalising a normalised address changes nothing |
| AccountViews.AppendKeepsNormalized | accounts/views.py:82-92 | appending a user with a normalised address keeps every stored address normalised |
| AccountViews.UserDirectory.Register | accounts/views.py:52-92 | a refusal by the view's checks changes nothing; an empty username is refused (`MissingFields`) with nothing changed; a normalised address already stored is refused by the unique column (`IntegrityError`) with nothing changed; otherwise exactly one ordinary user, carrying the submitted username and profile fields and the normalised address, is appended, and it is the one found by its username |
| AccountViews.UserDirectory.Admit | accounts/views.py:82-92 | for an unused normalised address and username, exactly one user is appended under the next id, the table stays valid and normalised, and the new user is the one found by its username |
| AccountViews.NewUserIsFound | accounts/views.py:78-92 | a user added under a fresh username is the one found by it |
| AccountReports.CountWithStatus | accounts/views.py:148-151 | a per-status count never exceeds the number of orders |
| AccountReports.CountWithPayment | accounts/views.py:152-153 | a per-payment count never exceeds the number of orders |
| AccountReports.CountIsListedOrders | accounts/views.py:162-168 | each count is the number of orders with exactly that status or payment status |
| AccountReports.StatusCountsCoverOrders | accounts/views.py:162-168 | the five status counts add up to the number of orders |
| AccountReports.PaymentCountsCoverOrders | accounts/views.py:244-249 | the four payment counts add up to the number of orders |
| AccountReports.StatusBreakdown | accounts/views.py:162-168 | the map holds each status code with its count, and only status codes |
| AccountReports.PaymentBreakdown | accounts/views.py:244-249 | the map holds each payment code with its count, and only payment codes |
| AccountReports.Revenue | accounts/views.py:156 | 0 when no order is paid; never negative when no amount is |
| AccountReports.SelectedRevenueAtMost | accounts/views.py:232 | revenue over a selection of orders is at most the whole revenue |
| AccountReports.RecentRevenueAtMostTotal | accounts/views.py:229-232 | `RecentRevenue`, the paid revenue of the orders placed at or after the cutoff (`PlacedSince`), lies between zero and total revenue |
| AccountReports.AverageOrderValue | accounts/views.py:273-276 | 0 when no order is paid |
| AccountReports.AverageTimesCount | accounts/views.py:274-276 | with paid orders, the average times their number is the paid revenue |
| AccountReports.AverageOf | accounts/views.py:275 | the quotient times the count is the total |
| AccountReports.Keys | accounts/views.py:252 | the distinct grouping keys, each once |
| AccountReports.Aggregate | accounts/views.py:252-255 | one group per distinct key and no other, each with its line count, summed quantity and summed unit price |
| AccountReports.Top | accounts/views.py:255 | at most `n` groups, in order, each at most as often as in the input, and a group left out ranks no higher than any shown |
| AccountReports.DistinctKeysOccurOnce | accounts/views.py:252-255 | in groups with distinct keys each group occurs at most once |
| AccountReports.SubmultisetKeepsKeysDistinct | accounts/views.py:255 | a selection of groups with distinct keys has distinct keys |
| AccountReports.ProductGroups | accounts/views.py:252-254 | one group per (product name, category name) key of the sold lines, with distinct keys; two products of one name in one category share a group, as `values('product__name', 'product__category__name')` does |
| AccountReports.CategoryGroups | accounts/views.py:268-270 | one group per category sold, with distinct keys |
| AccountReports.TopProducts | accounts/views.py:251-255 | at most ten product groups by summed quantity, highest first; a group left out sold no more than any shown |
| AccountReports.CategoryStats | accounts/views.py:267-271 | at most five category groups by summed unit price, highest first; a group left out earned no more than any shown |
| AccountReports.TopProductsDistinct | accounts/views.py:251-255 | the best sellers are drawn from the product groups and no product is listed twice |
| AccountReports.CategoryStatsDistinct | accounts/views.py:267-271 | the category statistics are drawn from the category groups and no category is listed twice |
| AccountReports.SampleSoldLines | accounts/views.py:252 | one paid order of two kettlebells yields one sold line |
| AccountReports.SampleAggregate | accounts/views.py:252-255 | that line forms one group with one line, quantity 2 and revenue 10.00 |
| AccountReports.TopRevenueIgnoresQuantity | accounts/views.py:254 | the reported revenue of that best seller is 10.00 although its line is worth 20.00 |

## Left out

- Rendering, flash messages, redirects and the JSON bodies. A view's answer
  is modelled as success or an error kind, plus the state change.
- Authentication, sessions and `login_required`. The signed-in user's id
  and superuser flag are parameters. `login_view`, `logout_view`,
  `profile_view`, `home_view` and `payment_success_view` only read or
  render, and are not modelled.
- Image files and upload handling. An image is an id, a product and a
  primary flag, and an upload is a count of files.
- The clock. Creation times are parameters. `paid_at` is a flag saying
  whether it is set. The 30-day window of recent revenue is a creation-time
  cutoff passed in. The six monthly buckets of the reports page are not
  modelled.
- `Cart.total_price`, `Cart.total_items`, the order-number generator and the
  default status fields of an order. The files holding them are not part of
  this model. The totals are taken as the sums of price times quantity and of
  quantities. The order number is a parameter, and a number already taken
  fails the checkout, as a unique column would.
- OrderViews.OrderBook.Checkout: when the order cannot be created, the view re-renders
  the checkout page with an error message; the model answers `CheckoutFailed`
  and does not repeat the figures.
- OrderViews.OrderBook.Checkout: an exception raised after the order row
  exists, which would leave a partial order, is not modelled; the only failure
  is a taken order number, which changes nothing. Transactions and concurrent
  checkouts are left out too.
- The decimal quantisation a database applies on save; amounts are exact.
- CartViews.CartStore.UpdateCartItem: a quantity that is not a number, which
  makes the view raise, is not modelled; quantities arrive as integers.
- Password hashing, which lives in the framework.
- AccountViews.UserDirectory.Register: the NFKC normalisation `create_user`
  applies to the username is not modelled; the username is stored as
  given. The lower-casing of an address's domain folds ASCII letters only,
  where Python's `str.lower` folds every cased character.
- AccountViews.UserDirectory.Register: the `IntegrityError` of a second
  address that differs from a stored one only in domain case is an
  uncaught exception in the view; the model answers it as an error with
  nothing changed.
- AccountViews.UserDirectory.Register: the form's fields arrive as strings,
  as a browser submitting the sign-up form sends every field. A field
  missing from the request reads as `None`, which is not modelled: a
  `None` profile field fails the save on its NOT NULL column, and a `None`
  address passes the view's email check and is stored empty.
- AccountViews.UserDirectory.Register: the `ValueError` that `create_user`
  raises for an empty username is uncaught in the view too; the model
  answers it as `MissingFields` with nothing changed, and checks it before
  the address, as `create_user` does.
- OrderViews.OrderBook.CancelOrder: the `Http404` of a missing or foreign
  order is caught by the view's `except Exception` and answered as a JSON
  failure; the model calls that refusal `NotFound`. It changes nothing
  either way.
- ProductViews.FilterProducts: `min_price`, `max_price`, `category` and
  `brand` arrive as typed values. A non-numeric query string, which makes
  the queryset raise, is not modelled.
- ProductViews.CustomerProductList: the same typed filter values; the
  view's exception for a non-numeric filter is not modelled.
- ProductViews.CheckProductForm: the price, stock, category and brand
  fields arrive as typed values. A non-numeric string, which makes the
  category or brand lookup or the save raise outside the view's `except`,
  is not modelled; an absent or blank field is.
- `delete_product_view` and `product_list_view`. The deletion cascades
  through tables whose definitions are not part of this model, and the staff
  list only renders.
- The user, product, category and image counts and the "recent" lists of the
  dashboard. These are plain counts and slices with nothing to prove.
- AccountReports.TopProducts and AccountReports.CategoryStats: order lines
  whose product or category is missing from the catalog are skipped. The
  foreign keys rule such lines out.
- A refused product form or update is modelled as changing nothing. The
  in-memory object the view had already modified is not modelled.
- AccountReports.AverageOrderValue: the result is exact rational arithmetic,
  not `Avg` on decimals.
