# Shopping cart and cart API of CommerceRack, in Dafny

This project models the in-memory shopping cart of the CommerceRack Rust back
end and the HTTP handlers that serve it.

- **Cart** (`commercerack-rust/crates/cart/src/lib.rs`). A cart is an id plus
  an ordered list of line items. Each line has a SKU, a product name, a
  quantity and a unit price.
  - Adding a SKU that is already in the cart merges into its line. Adding a
    new SKU appends a line.
  - Removing a SKU, or setting its quantity, reports whether the SKU was
    found. A quantity of zero or less removes the line.
  - The subtotal is the sum of unit price × quantity over the lines. The item
    count is the sum of the quantities.
- **Cart store** (same file). A map from cart id to cart.
- **Cart routes** (`commercerack-rust/crates/api/src/routes/cart.rs`). Each
  handler is a pure function from the store and the request to the new store
  and the reply. A cart handler replies with a cart response (status 200) or
  an error status, 400 or 404. Deleting a cart replies 204 on success and
  404 otherwise.
- **Dispatcher.** `CartApi.Handle` routes a request as the router table in
  `commercerack-rust/crates/api/src/lib.rs` does.

Modelling choices:

- Money is an exact decimal in the source (`rust_decimal::Decimal`). Here it
  is Dafny's `real`: exact rationals add and multiply without rounding, and
  decimal equality is numeric equality.
- Rust methods that mutate a cart and return a flag become functions. They
  return the new cart together with the flag (`Change`).
- A handler borrows the cart mutably by the id in the URL path and changes it
  in place. That is modelled as writing the changed cart back under the path
  id (`ReplaceCart`).
- `get_cart` is a plain map lookup (`CartStores.GetCart`). A line's
  `subtotal` is `ShoppingCart.ItemSubtotal`.
- `Cart::default` is `Cart::new`, a fresh-id empty cart, so it is `WithId`
  applied to the generated id. `CartStore::default` and `CartStore::new` are
  `EmptyStore`.
- Cart ids come from a random UUID generator. Here the generated id is a
  parameter (`freshId`).
- The price text is parsed by the decimal library. Here the parser is a
  parameter of type `string -> Option<Decimal>`.

Files: `options.dfy` (Option, Result), `cart.dfy` (module `ShoppingCart`),
`cart_properties.dfy` (module `CartProperties`), `cart_store.dfy` (module
`CartStores`), `cart_routes.dfy` (module `CartRoutes`), `cart_api.dfy`
(module `CartApi`).

## Model

| member | source | states |
|---|---|---|
| ShoppingCart.Position | commercerack-rust/crates/cart/src/lib.rs:64-66 | The scan finds nothing exactly when no line carries the SKU; otherwise it returns an index whose line carries the SKU, and no earlier line does. |
| ShoppingCart.WithId | commercerack-rust/crates/cart/src/lib.rs:47-52 | A cart made from an id keeps that id, is empty, and has subtotal 0 and item count 0. |
| ShoppingCart.AddItem | commercerack-rust/crates/cart/src/lib.rs:55-61 | Keeps the cart id. The line count stays the same exactly when the SKU was present. A new SKU appends exactly one line with the given fields after the unchanged old lines. The SKU is present afterwards. |
| ShoppingCart.RemoveItem | commercerack-rust/crates/cart/src/lib.rs:64-71 | Reports true exactly when the SKU was present. On false the cart is unchanged. On true exactly one line is gone and the id is kept. |
| ShoppingCart.UpdateQuantity | commercerack-rust/crates/cart/src/lib.rs:74-85 | Reports true exactly when the SKU was present. On false the cart is unchanged. The id is kept. A positive quantity keeps the number of lines. |
| ShoppingCart.GetItem | commercerack-rust/crates/cart/src/lib.rs:88-90 | Finds a line exactly when the SKU is present; the line found carries that SKU and is one of the cart's lines. |
| ShoppingCart.Clear | commercerack-rust/crates/cart/src/lib.rs:103-105 | Keeps the id. Afterwards the cart is empty, no SKU is found, and both totals are 0. |
| CartProperties.TotalsAppend | commercerack-rust/crates/cart/src/lib.rs:93-100 | The subtotal and the item count of two lists joined are the sums of their separate totals. |
| CartProperties.AddItemTotals | commercerack-rust/crates/cart/src/lib.rs:55-61 | Adding raises the item count by exactly the quantity. The subtotal rises by that quantity priced at the SKU's existing unit price, or at the given price for a new SKU. A merge ignores the new price. |
| CartProperties.RemoveItemTotals | commercerack-rust/crates/cart/src/lib.rs:64-71 | Removing a present SKU lowers the item count by that line's quantity and the subtotal by that line's subtotal. |
| CartProperties.UpdateQuantityTotals | commercerack-rust/crates/cart/src/lib.rs:79-84 | Setting a present SKU to a positive q replaces the line's quantity by q in the item count. In the subtotal, the line's old subtotal is replaced by q units at the line's own unit price. |
| CartProperties.AddItemMerges | commercerack-rust/crates/cart/src/lib.rs:55-58 | Adding a SKU whose first line is i keeps the number of lines. Line i gets quantity old + added, with the same SKU, name and price. Every other line is untouched. |
| CartProperties.RemoveItemFilters | commercerack-rust/crates/cart/src/lib.rs:64-71 | With distinct SKUs, removal equals filtering the SKU out of the lines in order, so the remaining lines keep their relative order. Afterwards looking the SKU up finds nothing. |
| CartProperties.UpdateQuantitySets | commercerack-rust/crates/cart/src/lib.rs:79-84 | For any lines, repeated SKUs included, when line i is the first to carry the SKU and q > 0: the call reports true and the new cart is the old one with exactly line i's quantity set to q. Its name and price stay, every other line is untouched, and a lookup then returns that line. |
| CartProperties.UpdateNonPositiveRemoves | commercerack-rust/crates/cart/src/lib.rs:75-77 | A quantity of zero or less gives exactly the result and flag of removing the SKU. With distinct SKUs the SKU is then gone. |
| CartProperties.RemoveItemDropsFirst | commercerack-rust/crates/cart/src/lib.rs:64-71 | For any lines, repeated SKUs included, removing a SKU whose first line is i reports true and drops exactly line i. The lines before and after it keep their order. |
| CartProperties.GetItemIsFirst | commercerack-rust/crates/cart/src/lib.rs:88-90 | For any lines, repeated SKUs included, looking up a SKU whose first line is i returns line i. |
| CartProperties.GetItemFindsTheLine | commercerack-rust/crates/cart/src/lib.rs:88-90 | With distinct SKUs, a lookup returns a given line exactly when that line is in the cart and carries the SKU. |
| CartProperties.IsEmptyIffNoSku | commercerack-rust/crates/cart/src/lib.rs:108-110 | A cart is empty exactly when no SKU can be found in it. |
| CartProperties.AddItemKeepsDistinct | commercerack-rust/crates/cart/src/lib.rs:55-61 | Adding keeps SKUs pairwise distinct. |
| CartProperties.RemoveItemKeepsDistinct | commercerack-rust/crates/cart/src/lib.rs:64-71 | Removing keeps SKUs pairwise distinct. |
| CartProperties.UpdateQuantityKeepsDistinct | commercerack-rust/crates/cart/src/lib.rs:74-85 | Setting a quantity, including removal by a non-positive quantity, keeps SKUs pairwise distinct. |
| CartProperties.ReachableCartsHaveDistinctSkus | commercerack-rust/crates/cart/src/lib.rs:55-105 | Any sequence of add, remove, set-quantity and clear calls keeps distinct SKUs and keeps the cart id. |
| CartProperties.FreshCartsHaveDistinctSkus | commercerack-rust/crates/cart/src/lib.rs:47-52 | Every cart reached from a cart made by id has distinct SKUs and that id. |
| CartProperties.CartOperationsExample | commercerack-rust/crates/cart/src/lib.rs:166-204 | 2 × 19.99 gives one line, count 2 and subtotal 39.98. Merging 3 more gives one line, count 5 and 99.95. A second SKU at 29.99 gives two lines, count 6 and 129.94. |
| CartProperties.UpdateAndRemoveExample | commercerack-rust/crates/cart/src/lib.rs:206-226 | Setting SKU001 to 10 is found and sticks. Setting it to 0 removes it and leaves one line. Removing SKU002 then empties the cart, with subtotal 0. |
| CartStores.EmptyStore | commercerack-rust/crates/cart/src/lib.rs:126-130 | A new store holds no cart under any id. |
| CartStores.CreateCart | commercerack-rust/crates/cart/src/lib.rs:132-137 | Returns the generated id, which now maps to an empty cart with that id. Every other id is unchanged. Store validity is preserved. |
| CartStores.SaveCart | commercerack-rust/crates/cart/src/lib.rs:147-149 | Afterwards looking up the cart's own id gives exactly that cart. Every other id is unchanged. The store stays well-keyed. |
| CartStores.ReplaceCart | commercerack-rust/crates/cart/src/lib.rs:143-145 | Writing back through a borrowed cart makes the key give the new cart and leaves every other key alone. Writing back an unchanged cart leaves the store unchanged. |
| CartStores.DeleteCart | commercerack-rust/crates/cart/src/lib.rs:151-153 | Reports true exactly when the id was present. Afterwards the id is absent and every other id is unchanged. On false the store is unchanged. |
| CartStores.ReplaceIsSave | commercerack-rust/crates/cart/src/lib.rs:143-149 | In a well-keyed store, writing back through the path id equals saving the cart under its own id, provided the id is kept. |
| CartStores.CartStoreExample | commercerack-rust/crates/cart/src/lib.rs:228-249 | A created cart takes one line of quantity 2. Deleting it reports true, and it is then gone. |
| CartRoutes.ResponseFrom | commercerack-rust/crates/api/src/routes/cart.rs:32-41 | A response carries the cart's id and lines unchanged. Its subtotal and item count equal the sums over the lines it carries. |
| CartRoutes.CreateCartHandler | commercerack-rust/crates/api/src/routes/cart.rs:44-53 | Never fails. Replies with the generated id, no lines, subtotal 0 and item count 0, which are that cart's totals. That cart is in the store, and other carts are unchanged. |
| CartRoutes.GetCartHandler | commercerack-rust/crates/api/src/routes/cart.rs:56-63 | Leaves the store unchanged. Succeeds exactly when the id is present and otherwise replies 404. A success describes the stored cart, and its subtotal and item count are that cart's totals. |
| CartRoutes.AddItemHandler | commercerack-rust/crates/api/src/routes/cart.rs:66-84 | Unparsable price text gives 400 with the store untouched, even for an unknown cart. A parsed price on an unknown cart gives 404 with the store untouched. Otherwise it succeeds with the cart after adding, which is now stored, and other carts are unchanged. The reply's subtotal and item count are the totals of the cart it carries. |
| CartRoutes.UpdateQuantityHandler | commercerack-rust/crates/api/src/routes/cart.rs:87-102 | Succeeds exactly when the cart exists and holds the SKU; for an existing cart, that is exactly when the cart operation reports true. Any failure is 404 with the store unchanged. A success replies with and stores the updated cart, with that cart's subtotal and item count. |
| CartRoutes.RemoveItemHandler | commercerack-rust/crates/api/src/routes/cart.rs:105-119 | Succeeds exactly when the cart exists and holds the SKU. Any failure is 404 with the store unchanged. A success replies with and stores the cart after removal, with that cart's subtotal and item count. |
| CartRoutes.ClearCartHandler | commercerack-rust/crates/api/src/routes/cart.rs:122-133 | Succeeds exactly when the cart exists; otherwise 404 with the store unchanged. A success replies with that cart's id, no lines and zero totals, and stores it. |
| CartRoutes.DeleteCartHandler | commercerack-rust/crates/api/src/routes/cart.rs:136-147 | Replies 204 exactly when the cart existed and 404 otherwise. Afterwards the cart is absent and other carts are unchanged. A 404 leaves the store unchanged. |
| CartApi.Handle | commercerack-rust/crates/api/src/lib.rs:44-50 | Over all cart routes: a request that fails with 400 or 404 leaves the store unchanged, and creating a cart always succeeds. The only statuses are 200, 204, 400 and 404, never 500. |
| CartApi.HandleKeepsValid | commercerack-rust/crates/api/src/lib.rs:44-50 | Every cart request keeps each cart filed under its own id and keeps SKUs distinct within each cart. |
| CartApi.RunKeepsValid | commercerack-rust/crates/api/src/lib.rs:26-53 | Any sequence of cart requests served from a valid store leaves a valid store. |
| CartApi.ServedStoresAreValid | commercerack-rust/crates/api/src/lib.rs:27-28 | Starting from the empty store the server creates, every reachable store is valid. |
| CartApi.RepliesMatchTheStore | commercerack-rust/crates/api/src/routes/cart.rs:76-133 | In a valid store, a successful add, update, remove or clear replies with the requested cart id. Reading the cart back then gives the same reply. |
| CartApi.AddItemHandlerCount | commercerack-rust/crates/api/src/routes/cart.rs:81-83 | A successful add replies with an item count exactly the requested quantity above the cart's previous count. |
| CartApi.RemoveItemHandlerRemoves | commercerack-rust/crates/api/src/routes/cart.rs:114-118 | In a valid store, after a successful removal the replied cart no longer has the SKU. |
| CartApi.UpdateQuantityHandlerSets | commercerack-rust/crates/api/src/routes/cart.rs:97-101 | In any store, after a successful positive update the replied cart has the SKU with exactly the requested quantity. |

## Left out

- Cart ids come from random UUIDs in `Cart::new` and `CartStore::create_cart`. Here the id is a parameter. `Cart::new` is `WithId` applied to that id. As in the source, nothing checks that the id is new: an existing cart under the same id is replaced.
- The `Mutex` around the store and its poisoning error (500) are not modelled. Each handler runs on its own as one atomic step.
- HTTP extraction, JSON encoding and the rest of the axum plumbing are not modelled.
- Parsing of the price text by the decimal library is not modelled. The parser is a parameter.
- ShoppingCart.AddItem: quantities are unbounded integers, so the 32-bit `+=` overflow of the source is not modelled. As in the source, a zero or negative quantity is accepted and can leave a line with a quantity of zero or less.
- ShoppingCart.ItemCount: the 32-bit sum of quantities is an unbounded sum, so overflow is not modelled.
- ShoppingCart.ItemSubtotal: prices are exact rationals. The 28-digit limit and the scale of the decimal type are not modelled; only its numeric value is.
- The customer, product and order crates, their routes, JWT authentication and the agent scripts are not part of this model. They delegate to a database or to foreign libraries.
