# Ateliê storefront: catalogue, cart and admin logic in Dafny

This project models the state of a small storefront front-end. At its core
is one in-memory store, `useProductStore`. The store holds an ordered list of
products, an ordered list of cart lines and a fixed list of categories. It
has nine operations:

- three product operations: add, update, delete;
- four cart operations: add to cart, remove from cart, set a line's
  quantity, clear the cart;
- two derived totals: total price and total number of items.

Two pages add some pure logic on top of the store. The catalogue page shows
a listing: filtered by category, then by a case-insensitive search, then
sorted. The admin panel has its own search filter and a product form. The
form validates its fields, normalises the discount, and then calls either
`addProduct` or `updateProduct`.

Modules:

- `Wrappers` (wrappers.dfy): the `Option` datatype.
- `ProductService` (product_service.dfy):
  - the `Category`, `Product`, `CartItem`, `ProductData` and `Patch` types;
  - the effective-price rule;
  - each operation's new value as a function (append, map, filter, sum);
  - the lemmas about those functions;
  - the `Store` class. Its fields are `products` and `cart`, both `seq`.
    Its methods replace those fields, and its `Valid()` invariant says no
    two cart lines share a product id.
- `SampleData` (sample_data.dfy): the six sample products the store starts
  with, the facts about them, and the store built from them.
- `Search` (search.dfy): the search predicate both pages share. It applies
  lowercasing, a substring test and a filter that keeps order.
- `Products` (products_page.dfy): the catalogue listing: category filter,
  search filter and a stable insertion sort for each sort option.
- `Admin` (admin_page.dfy): the admin search, the form defaults and the edit
  prefill, and the submit decision. `HandleSubmit` runs that decision
  against a `Store`.

How values are represented:

- Money is integer cents.
- `createdAt` is an integer timestamp.
- A random UUID becomes a fresh id supplied by the caller.
  `Store.AddProduct` requires that id not to be in use already.
- A page's mutable React state (form contents, the product being edited,
  the search term and sort option) becomes function parameters.

Some of the store's behaviour is looser than, or differs from, what the rest
of the program assumes. The model follows the code:

- **Effective price.** The code uses `discountPrice || price`: any discount
  that is present and non-zero wins, even a negative one or one at or above
  the price. The store's rule is looser than the one the admin form
  enforces, which keeps a discount only when `0 < discount < price`.
  `EffectivePriceAgreesWithValidDiscount` states exactly when the two rules agree.
  `Admin.SubmittedProductWellFormed` shows that every product written
  through the admin form falls in the agreeing case.
- **Cart lines hold copies.** A cart line keeps the product value it was
  added with, not a live reference. `updateProduct` builds new objects, so
  the totals use the snapshot. `TotalsAfterAdd` states that adding to an
  existing line prices the added quantity at the snapshot's effective price.
- **No cascade on delete.** `deleteProduct` leaves cart lines for the
  deleted product in place. `Store.DeleteProduct` says the cart is
  unchanged.
- **Partial updates.** `updateProduct` accepts any subset of product fields,
  `id` and `createdAt` included. The identity lemmas therefore assume
  neither is supplied. The admin form never supplies them, as
  `Admin.SubmitDispatch` states.

## Model

| member | source | states |
|---|---|---|
| `ProductService.EffectivePriceAgreesWithValidDiscount` | src/services/productService.tsx:191-196 | The `discountPrice \|\| price` rule equals the admin form's `0 < d < price` rule exactly when the discount is absent, zero, valid or equal to the price. A valid discount gives an effective price strictly between 0 and the price. |
| `ProductService.FindLine` | src/services/productService.tsx:146-148 | `find` returns a line of the cart that has the given product id. It returns nothing exactly when no line has that id. |
| `ProductService.FindLineAt` | src/services/productService.tsx:146-150 | When cart ids are distinct, `find` returns the one line that has the id. |
| `ProductService.AddQuantityAt` | src/services/productService.tsx:150-157 | When cart ids are distinct, the map in `addToCart` adds the quantity to the matching line only. Length and every other line stay as they were. |
| `ProductService.AddToCartShape` | src/services/productService.tsx:144-161 | For an id already in the cart, `addToCart` adds `quantity` to that line only and keeps length and order. Otherwise it appends exactly one line `{product, quantity}` at the end. |
| `ProductService.UniqueAfterAdd` | src/services/productService.tsx:144-161 | `addToCart` keeps "no two lines share a product id". |
| `ProductService.WithoutProduct` | src/services/productService.tsx:166-169 | The `removeFromCart` filter keeps exactly the lines of other products and is never longer than the cart. |
| `ProductService.UniqueAfterRemove` | src/services/productService.tsx:166-169 | `removeFromCart` keeps "no two lines share a product id". |
| `ProductService.RemoveAbsent` | src/services/productService.tsx:166-169 | `removeFromCart` of an id with no line is a no-op. |
| `ProductService.RemoveAppend` | src/services/productService.tsx:166-169 | The `removeFromCart` filter distributes over concatenation, so the remaining lines keep their relative order. |
| `ProductService.RemoveLineAt` | src/services/productService.tsx:166-169 | When cart ids are distinct, removing the k-th line's product leaves exactly the lines before and after it, in order. |
| `ProductService.UniqueAfterSetQuantity` | src/services/productService.tsx:179-183 | `updateCartQuantity` with a positive quantity keeps "no two lines share a product id". |
| `ProductService.TotalsAppend` | src/services/productService.tsx:191-200 | Both totals are additive over concatenated carts: the price total is the sum of effective price times quantity, the item total the sum of quantities. |
| `ProductService.TotalsPointUpdate` | src/services/productService.tsx:191-200 | Changing one line changes each total by exactly that line's difference. |
| `ProductService.TotalsAfterAdd` | src/services/productService.tsx:144-196 | When cart ids are distinct, `addToCart(p, q)` raises the item total by exactly `q`. It raises the price total by `q` times the effective price of the line's stored snapshot, or of `p` for a new line. |
| `ProductService.TotalsAfterRemove` | src/services/productService.tsx:166-200 | When cart ids are distinct, `removeFromCart` lowers each total by exactly the removed line's contribution, and by 0 for an absent id. |
| `ProductService.TotalsAfterSetQuantity` | src/services/productService.tsx:173-200 | When cart ids are distinct, setting a line's quantity to `q` changes the item total by `q` minus the old quantity and the price total by that line's new contribution minus its old one. An absent id changes nothing. |
| `ProductService.RepeatedAdds` | src/services/productService.tsx:144-161 | A series of `addToCart` calls for one product not yet in the cart ends with exactly one new line, at the end. Its quantity is the sum of the quantities passed. |
| `ProductService.TotalsExample` | src/services/productService.tsx:191-200 | A cart of (price 100, qty 2) and (price 50, discount 40, qty 3) totals 320 in price and 5 in items. |
| `ProductService.PatchOnlySuppliedFields` | src/services/productService.tsx:128-133 | The spread merge changes only supplied fields. An empty patch is the identity, a price-only patch changes only the price, and a supplied `discountPrice: undefined` clears the discount. |
| `ProductService.UpdateProductSpec` | src/services/productService.tsx:128-135 | `updateProduct` keeps the length and leaves products with other ids unchanged. Each product with the id becomes its patched value. It is a no-op for an unknown id. Without a supplied id and createdAt, identities and timestamps are kept, and so is their distinctness. |
| `ProductService.DeleteAbsent` | src/services/productService.tsx:137-142 | `deleteProduct` of an unknown id is a no-op. |
| `ProductService.DeleteAppend` | src/services/productService.tsx:137-142 | The `deleteProduct` filter distributes over concatenation, so the other products keep their order. |
| `ProductService.DeleteAt` | src/services/productService.tsx:137-142 | When ids are distinct, `deleteProduct` removes exactly the one product with that id and keeps the rest in order. |
| `ProductService.AddProductKeepsIdsUnique` | src/services/productService.tsx:116-124 | Appending a product with a fresh id keeps ids distinct and makes the new id present. |
| `ProductService.Store.constructor` | src/services/productService.tsx:111-114 | The store starts from the given product list with an empty cart. The category list is "todos" followed by the five real categories. |
| `ProductService.Store.AddProduct` | src/services/productService.tsx:116-126 | The new product list is the old one plus exactly one product at the end. That product carries the given fields, the fresh id and the timestamp. The cart is unchanged. |
| `ProductService.Store.UpdateProduct` | src/services/productService.tsx:128-135 | The product list becomes the `updateProduct` map of the old list. The cart is unchanged. |
| `ProductService.Store.DeleteProduct` | src/services/productService.tsx:137-142 | The product list becomes the filtered old list. The cart, including any line for the deleted product, is unchanged. |
| `ProductService.Store.AddToCart` | src/services/productService.tsx:144-164 | The cart becomes the `addToCart` value of the old cart. Products are unchanged and ids stay unique. |
| `ProductService.Store.RemoveFromCart` | src/services/productService.tsx:166-171 | The cart becomes the filtered old cart. Products are unchanged and ids stay unique. |
| `ProductService.Store.UpdateCartQuantity` | src/services/productService.tsx:173-184 | A quantity of 0 or less acts exactly as `removeFromCart`. A positive quantity sets each matching line's quantity to exactly that value and keeps length, order and snapshots. An absent id is a no-op. |
| `ProductService.Store.ClearCart` | src/services/productService.tsx:186-200 | The cart is empty, `getTotalPrice()` and `getTotalItems()` both return 0, and products are unchanged. |
| `SampleData.SampleProductsWellFormed` | src/services/productService.tsx:41-109 | The six sample products have distinct ids and positive prices. Each discount is absent or valid, so the store's `discountPrice \|\| price` agrees with the admin form's `0 < d < price` rule on every one of them. |
| `SampleData.InitialStore` | src/services/productService.tsx:111-114 | The store the program creates holds exactly the sample products, with distinct ids, and an empty cart. |
| `Search.LowerProperties` | src/pages/Products.tsx:29-34 | Lowercasing keeps the length and leaves no ASCII capital. It changes no other character and is idempotent. |
| `Search.IncludesIff` | src/pages/Products.tsx:32-34 | The left-to-right `includes` holds exactly when the term occurs at some index. |
| `Search.SearchFilter` | src/pages/Products.tsx:28-36 | The search filter keeps exactly the products whose lowercased name, description or category contains the lowercased term. It takes no product more often than the input holds it. |
| `Search.SearchFilterAppend` | src/pages/Admin.tsx:47-55 | The search filter keeps relative order: it distributes over concatenation. |
| `Search.SearchFilterEmptyTerm` | src/pages/Products.tsx:28-36 | Filtering by the empty term returns the list unchanged, so skipping the filter for an empty term changes nothing. |
| `Search.SearchFilterIgnoresTermCase` | src/pages/Products.tsx:29-35 | Searching for a term and for its lowercased form gives the same result. |
| `Products.Insert` | src/pages/Products.tsx:39-58 | The insertion step of the sort returns its input plus the inserted product, as a multiset. |
| `Products.SortProducts` | src/pages/Products.tsx:39-58 | The sort is a permutation of its input. |
| `Products.InsertSorted` | src/pages/Products.tsx:39-58 | Inserting into a list sorted by a key gives a list sorted by that key. |
| `Products.SortProductsSorted` | src/pages/Products.tsx:39-58 | For each sort option, the result is sorted by that option's key and is a permutation of the input. |
| `Products.FilterCategory` | src/pages/Products.tsx:23-25 | The category filter keeps exactly the products whose category string equals the route's category. It takes no product more often than the input holds it. |
| `Products.FilterCategoryAppend` | src/pages/Products.tsx:23-25 | The category filter keeps relative order: it distributes over concatenation. |
| `Products.ListingMembers` | src/pages/Products.tsx:19-64 | A product is listed exactly when it is a store product that passes the category test and, for a non-empty term, the search test. The listing is a permutation of the filtered list, and no product is duplicated or invented. |
| `Products.Filters` | src/pages/Products.tsx:20-36 | With a category other than "todos", every listed product has that category. With a non-empty term, every listed product matches it. With "todos" and an empty term, the filtered list is the store's list. |
| `Products.FilteredAppend` | src/pages/Products.tsx:20-36 | The filtered list keeps the store's insertion order: it distributes over concatenation. |
| `Products.ListingOrder` | src/pages/Products.tsx:39-61 | "newest" is non-increasing by createdAt. "price-low-high" is non-decreasing and "price-high-low" non-increasing by `discountPrice \|\| price`. Any other option keeps the filtered order. |
| `Admin.SubmitDispatch` | src/pages/Admin.tsx:110-136 | A submit makes no store call exactly when name, description or image is empty or the price is at most 0. Otherwise it makes `updateProduct(editing.id, …)` when editing and `addProduct(…)` when not. The update patch supplies neither id nor createdAt. |
| `Admin.SubmittedProductWellFormed` | src/pages/Admin.tsx:113-133 | A product written by an accepted submit carries the form's fields and a positive price. Its name, description and image are non-empty. Its discount is either valid or absent, so the store's effective price follows the "valid discount" rule. The form's discount is kept exactly when `0 < d < price`. |
| `Admin.AddDefaultsRejected` | src/pages/Admin.tsx:65-77 | The untouched add form, with an empty name and price 0, fails validation, so the submit makes no call. |
| `Admin.EditResubmit` | src/pages/Admin.tsx:80-91 | The edit prefill's `discountPrice \|\| 0` normalises to the product's discount if it is valid, and to none otherwise. Re-submitting an unchanged edit writes the product back with only its discount normalised, and unchanged if the discount was well formed. |
| `Admin.CategoryOptionsExcludeTodos` | src/pages/Admin.tsx:364 | `categories.slice(1)` on the store's list offers every category except "todos", including the form's default. |
| `Admin.AdminSearchSpec` | src/pages/Admin.tsx:44-58 | With an empty term the table shows all products in store order. Otherwise it shows exactly the matching products, in store order, none duplicated. |
| `Admin.HandleSubmit` | src/pages/Admin.tsx:110-136 | A submit against the store makes the one call `SubmitCall` decides, or none. The cart is untouched. Every product new to the list has a valid discount or none. |

## Left out

- JSX rendering, routing, navigation and the React hook plumbing: not modelled. The pages' computations take their state as parameters.
- Toast notifications and the observer/re-render mechanism: fire-and-forget UI side effects that no caller can observe.
- `crypto.randomUUID()` and `new Date()`: replaced by a fresh-id parameter (with a precondition that it is unused) and a timestamp parameter.
- Floating-point money, `parseFloat(value) || 0` on the form's number inputs, and `toLocaleString` currency formatting: prices are integer cents. `NaN` is therefore not modelled as a falsy discount.
- Unicode case folding: `Search.Lower` lowers ASCII letters only. Every category name is already lower case.
- The admin login gate (`src/pages/AdminLogin.tsx`, `localStorage`), and the presentational components `Navbar`, `Footer`, `SocialLinks`, `Layout` and `Index`: browser I/O and markup with no logic of their own.
- `Cart.tsx`, `ProductCard.tsx` and `ProductDetail.tsx`: thin UI over the store. Their effective-price display, ±1 quantity buttons and `Math.max(1, value)` clamp only repeat the store's rules.
- `new Date()` in the sample products: every sample product gets the one timestamp `now` passed to `SampleData.SampleProducts`.
- `Products.SortProducts`: the model's insertion sort is stable, as `Array.prototype.sort` is, but stability itself is not proved. Only order by key and permutation are.
- `setIsModalOpen(false)` and the other modal state transitions of the admin page: UI state, not modelled.
- `ProductService.UpdateProductSpec`: keeps distinct ids only for patches that do not supply an `id`. The store itself accepts a patch that renames a product onto an existing id.
