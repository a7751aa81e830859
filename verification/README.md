# Storefront cart and checkout, modelled in Dafny

This project models the state-changing core of the storefront server in
`server.js`. That core is the session cart (add, update, remove, read), the
checkout that turns the cart into one purchase and its purchase items, startup
seeding of the product table, and the admin product routes (add, delete,
toggle featured).

Layout:

- `wrappers.dfy`: module `Wrappers`, the `Option` type returned by table lookups.
- `catalog.dfy`: module `Catalog`, which holds the product record and the four
  seed products. It gives the product table's value after seeding, admin add,
  delete and toggle. It also gives the invariant these keep: unique ids, and a
  featured flag of 0 or 1.
- `cart.dfy`: module `Cart`, which holds the cart line (a snapshot of product
  id, name, price and image, plus a quantity) and `CartTotal`. It gives the
  cart's value after `mergeCartItem`, update and remove, and it holds the cart
  invariant: one line per product and every quantity at least 1.
- `orders.dfy`: module `Orders`, which holds the purchase and purchase-item
  records and the rule for the next purchase id (the largest id, or 0, plus 1).
  It also gives the items recorded for a cart and the tables' invariant: ids
  are positive and increase, and every item points at a recorded purchase.
- `server.dfy`: module `Server`, class `Store`. It holds the product table,
  both purchase tables and one session's cart as sequence fields. Each handler
  is a method that reassigns those fields, keeps `Valid()` and states its new
  state in terms of the functions above. A handler's JSON answer is the
  `Reply` datatype:
  - `CartView(items, total)`
  - `Receipt(message, purchaseId, total)`
  - `NotFound(message)`
  - `BadRequest(message)`

  The receipt and the errors carry the source's messages. The checkout loop
  that pushes one purchase item per cart line is the `while` loop of
  `Store.PushItems`, with its invariants. Two
  client methods, `UpdateRemoveScenario` and `CheckoutScenario`, derive
  concrete outcomes from the handlers' contracts alone. For example, a cart of
  two units at 189 checks out as purchase 1 with total 378.

Prices, quantities and ids are integers. A request's missing quantity is
`None`. A missing contact field is the empty string: in the source, both are
falsy.

Behaviour worth knowing:

- An admin add with an id that is already taken is silently ignored; no
  error is returned.
- Remove filters out every line with the product id.
- A repeated add raises the existing line and keeps its snapshot price. The
  add handler first raises the requested quantity to at least 1.

## Model

| member | source | states |
|---|---|---|
| `Catalog.IndexOf` | server.js:144 | Finds the first product with the id: when found, the index holds that id and no earlier product does. When absent, no product has the id. |
| `Catalog.SeedWellFormed` | server.js:49-83 | The four seed products have distinct ids, flags of 0 or 1 and non-negative prices. |
| `Catalog.Seeded` | server.js:45-86 | Startup leaves a non-empty table: a table that already has products is kept as it is, and an empty one receives exactly the four demo products. |
| `Catalog.SeededWellFormed` | server.js:45-86 | Startup seeds only an empty table and leaves a well-formed, non-empty table. A table that is not empty is unchanged, and a second startup changes nothing. |
| `Catalog.WithProduct` | server.js:142-158 | Admin add leaves existing rows and their order untouched, and the id is present afterwards. A duplicate id leaves the table unchanged. Otherwise exactly the new record is appended. |
| `Catalog.WithProductWellFormed` | server.js:144-156 | Admin add with a 0/1 flag keeps ids unique and flags 0 or 1. |
| `Catalog.WithProductIdempotent` | server.js:144-156 | Adding the same record twice gives the same table as adding it once. |
| `Catalog.Without` | server.js:160-163 | Delete never grows the table, and no product with the deleted id is left. |
| `Catalog.WithoutMembers` | server.js:161 | A product survives delete exactly when it was in the table and has another id. |
| `Catalog.WithoutAbsent` | server.js:161 | Deleting an id that is not in the table changes nothing. |
| `Catalog.WithoutAppend` | server.js:161 | Delete decides each product on its own: deleting from two tables joined is joining the two deleted tables, so the kept products stay in their order in every table. |
| `Catalog.WithoutIdempotent` | server.js:161 | Deleting twice is deleting once. |
| `Catalog.WithoutSingle` | server.js:161 | When exactly one product has the id, delete removes that one and keeps the rest in order. |
| `Catalog.WithoutWellFormed` | server.js:160-163 | Delete keeps ids unique and flags 0 or 1. |
| `Catalog.Flipped` | server.js:170 | A truthy flag becomes 0 and a falsy one becomes 1, so the result is always 0 or 1. |
| `Catalog.Toggled` | server.js:165-174 | Toggle flips the flag of the first product with the id and leaves every other product and the length alone. An unknown id changes nothing. |
| `Catalog.ToggledWellFormed` | server.js:165-174 | Toggle keeps every id and keeps the table well formed. |
| `Catalog.ToggledTwice` | server.js:165-174 | On a well-formed table, toggling twice restores the table. |
| `Cart.FindLine` | server.js:89 | Finds the first line for the product: when found, that line has the id and no earlier line does. When absent, no line has the id. |
| `Cart.CartTotal` | server.js:103-105 | An empty cart totals 0, and a one-line cart totals that line's price times quantity. With `Cart.CartTotalAppend` this fixes the total of every cart. |
| `Cart.CartTotalAppend` | server.js:103-105 | The total of two carts joined is the sum of their totals. |
| `Cart.CartTotalNonNegative` | server.js:103-105 | A cart with non-negative prices and quantities has a non-negative total. |
| `Cart.CartTotalReplace` | server.js:103-105 | Replacing one line changes the total by the difference of the two lines' price times quantity. |
| `Cart.RequestedQty` | server.js:195 | The requested quantity is always at least 1. A quantity of at least 1 is kept, and a missing, zero or negative one becomes 1. |
| `Cart.Snapshot` | server.js:93-99 | A new line is keyed by the product's id and holds the requested quantity. Its name, price and image are copies of the product's at the moment of adding. |
| `Cart.Merged` | server.js:88-101 | An existing line has its quantity raised by `qty`, while the length and every other line stay the same. Otherwise one snapshot line of the product with `qty` is appended after the unchanged earlier lines. |
| `Cart.MergedExistingTotal` | server.js:88-92 | Raising an existing line adds `qty` times that line's snapshot price to the total. |
| `Cart.MergedNewTotal` | server.js:93-100 | Appending a new line adds `qty` times the product's price to the total. |
| `Cart.MergedWellFormed` | server.js:88-101 | Merging a quantity of at least 1 keeps one line per product with every quantity at least 1, so a product never gets two lines. |
| `Cart.MergedTwice` | server.js:88-92 | Adding a product with `a` and then with `b` gives the same cart as adding it once with `a + b` (2 then 3 gives 5). |
| `Cart.Updated` | server.js:204-212 | The result is absent exactly when no line has the product. Otherwise only the first matching line gets the new quantity, and length and order are preserved. |
| `Cart.UpdatedWellFormed` | server.js:206-211 | Setting a quantity of at least 1 keeps the cart well formed. |
| `Cart.UpdatedTotal` | server.js:211-212 | The total changes by the line's price times the change in its quantity. |
| `Cart.Removed` | server.js:215-219 | Remove never grows the cart, and no line for the product is left. |
| `Cart.RemovedMembers` | server.js:217 | A line survives remove exactly when it was in the cart and is for another product. |
| `Cart.RemovedAbsent` | server.js:217 | Removing a product without a line is a no-op. |
| `Cart.RemovedAppend` | server.js:217 | Remove decides each line on its own: removing from two carts joined is joining the two filtered carts, so the kept lines stay in their order in every cart. |
| `Cart.RemovedIdempotent` | server.js:217 | Removing twice is removing once. |
| `Cart.RemovedSingle` | server.js:217 | When exactly one line has the product, remove deletes that line and keeps the rest in their original order. |
| `Cart.RemovedWellFormed` | server.js:215-219 | Remove keeps the cart well formed. |
| `Cart.RemovedTotal` | server.js:217-218 | In a well-formed cart, remove takes the removed line's price times quantity off the total, and takes nothing off when the product is absent. |
| `Orders.LargestId` | server.js:231 | The largest id of a non-empty purchase table belongs to some purchase and is at least every id. |
| `Orders.NextPurchaseId` | server.js:231-232 | The new id is strictly greater than every existing id. It is 1 for an empty table, and otherwise one more than an existing id. |
| `Orders.ItemOf` | server.js:246-254 | The item recorded for a line carries the purchase's id and the line's product id, name, price, quantity and image. |
| `Orders.ItemsFor` | server.js:244-256 | There is exactly one item per cart line, in line order. Each item carries the new purchase id and the line's product id, name, price, quantity and image. |
| `Orders.ItemsForTotal` | server.js:230-256 | The recorded items add up to the cart total that is recorded as the purchase's total. |
| `Orders.NextIdUnused` | server.js:231-248 | No item recorded earlier points at the id the checkout allocates, so the new purchase's items are exactly those of this checkout. |
| `Orders.RecordedWellFormed` | server.js:231-256 | Recording the purchase under the next id, with its items, keeps ids positive and increasing and every item pointing at a recorded purchase. |
| `Server.Store.constructor` | server.js:46 | Empty product and purchase tables and an empty session cart satisfy the invariant. |
| `Server.Store.InitDb` | server.js:45-86 | Only the product table changes, and it becomes the seed exactly when it was empty. |
| `Server.Store.MergeCartItem` | server.js:88-101 | Updates the cart in place to the merged cart, and nothing else changes. |
| `Server.Store.ViewCart` | server.js:189-191 | Returns the cart's lines and their total, and changes nothing. |
| `Server.Store.AddToCart` | server.js:193-202 | An unknown product returns "Product not found" and leaves the cart as it was. Otherwise the clamped quantity of the catalog product is merged, the reply is the new cart with its total, and the invariant is kept. |
| `Server.Store.UpdateCart` | server.js:204-213 | With no matching line, returns "Item not found" and changes nothing. Otherwise the matching line's quantity is set to the clamped quantity, the reply is the new cart and total, and the invariant is kept. |
| `Server.Store.RemoveFromCart` | server.js:215-219 | The cart becomes the filtered cart, the reply is that cart and its total, and the invariant is kept. |
| `Server.Store.Checkout` | server.js:221-260 | A missing name, email or address, and then an empty cart, return a bad request and write nothing. Otherwise: one purchase under the next id with the cart total, one item per line under that id, an emptied cart, a "Purchase complete" receipt with id and total, and the invariant kept. |
| `Server.Store.PushItems` | server.js:244-256 | The loop over the cart appends exactly the items for the lines, in line order, under the purchase's id, after the items already recorded; nothing else changes. |
| `Server.Store.AddProduct` | server.js:142-158 | The table becomes the admin-add result for the record with a 0/1 flag, and the invariant is kept. |
| `Server.Store.DeleteProduct` | server.js:160-163 | The table becomes the delete result, and the invariant is kept. |
| `Server.Store.ToggleFeatured` | server.js:165-174 | The table becomes the toggle result, and the invariant is kept. |

## Left out

- Express routing, session middleware, static files, EJS page rendering and the error middleware are not modelled. Only the logic inside the handlers is.
- A single session is modelled. The per-browser session store, and the guarantee that sessions never see each other's carts, are not modelled.
- lowdb's `.write()` persistence is not modelled. Each handler runs to completion, so a partial write after a storage failure, and the lack of rollback, are not represented.
- Concurrency between requests is not modelled, including a retried checkout on the same session. The server handles each request to completion.
- The purchase `created_at` timestamp is omitted because it comes from the clock.
- The purchase item's own id (`Date.now()` plus a random number) is omitted because it depends on time and randomness.
- JavaScript number semantics are not modelled. Prices, quantities and ids are unbounded integers, so NaN, fractional quantities, float rounding and string coercion by `Number(...)` do not arise.
- The request body is modelled as already decoded.
- The `cartCount` and `formatCurrency` values computed by the middleware (server.js:40-41) are display helpers and are not modelled.
- The read-only pages and routes are not modelled beyond the lookup `Catalog.IndexOf`, because they change no state: the product lists, the product pages, `GET /api/products/:id` and `GET /api/purchases/:id`.
- `/api/chat` (a scripted reply) and `/api/location` (a static object) are not modelled. They hold no state.
- The client script `scripts/main.js` is DOM and animation code that only calls this API, and is not part of this model.
- The payment and chat proxy `scripts/index.js` is a wrapper over external HTTP services, and is not part of this model.
- Cart.Removed: its own contract states only that the cart does not grow and that no line for the product is left. That the kept lines are exactly the other lines, in their order, is stated by the lemmas `Cart.RemovedMembers`, `Cart.RemovedAppend` and `Cart.RemovedSingle`.
- Catalog.Without: likewise, its own contract states only shrinking and absence. Membership and order are stated by `Catalog.WithoutMembers`, `Catalog.WithoutAppend` and `Catalog.WithoutSingle`.
