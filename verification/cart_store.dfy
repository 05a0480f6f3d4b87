/** The in-memory cart store: a map from cart id to cart. */
module CartStores {
  import opened Options
  import opened ShoppingCart
  import opened CartProperties

  datatype CartStore = CartStore(carts: map<string, Cart>)

  /** A new store holds no carts. */
  function EmptyStore(): (s: CartStore)
    ensures forall id :: GetCart(s, id).None?
  {
    CartStore(map[])
  }

  function GetCart(s: CartStore, cartId: string): Option<Cart>
  {
    if cartId in s.carts then Some(s.carts[cartId]) else None
  }

  /** Every cart is filed under its own id. */
  ghost predicate WellKeyed(s: CartStore)
  {
    forall id :: id in s.carts ==> s.carts[id].cartId == id
  }

  /** Every cart is filed under its own id and has distinct SKUs. */
  ghost predicate Valid(s: CartStore)
  {
    && WellKeyed(s)
    && forall id :: id in s.carts ==> DistinctSkus(s.carts[id].items)
  }

  /** The result of creating a cart: the new store and the new cart's id. */
  datatype Created = Created(store: CartStore, cartId: string)

  /** Files an empty cart under `freshId`, the id the caller generated for
      it; an existing cart under that id is replaced. */
  function CreateCart(s: CartStore, freshId: string): (r: Created)
    ensures r.cartId == freshId
    ensures GetCart(r.store, freshId) == Some(WithId(freshId))
    ensures forall id :: id != freshId ==> GetCart(r.store, id) == GetCart(s, id)
    ensures Valid(s) ==> Valid(r.store)
  {
    var cart := WithId(freshId);
    Created(CartStore(s.carts[cart.cartId := cart]), cart.cartId)
  }

  /** Files `c` under its own id, replacing any cart already there. */
  function SaveCart(s: CartStore, c: Cart): (r: CartStore)
    ensures GetCart(r, c.cartId) == Some(c)
    ensures forall id :: id != c.cartId ==> GetCart(r, id) == GetCart(s, id)
    ensures WellKeyed(s) ==> WellKeyed(r)
  {
    CartStore(s.carts[c.cartId := c])
  }

  /** Writes `c` back under the key `cartId` it was looked up by, as an
      in-place change to a cart borrowed from the store does. */
  function ReplaceCart(s: CartStore, cartId: string, c: Cart): (r: CartStore)
    ensures GetCart(r, cartId) == Some(c)
    ensures forall id :: id != cartId ==> GetCart(r, id) == GetCart(s, id)
    ensures GetCart(s, cartId) == Some(c) ==> r == s
  {
    CartStore(s.carts[cartId := c])
  }

  /** The result of deleting a cart: the new store and whether it was there. */
  datatype Deleted = Deleted(store: CartStore, found: bool)

  /** Removes the cart filed under `cartId`; reports whether there was one. */
  function DeleteCart(s: CartStore, cartId: string): (r: Deleted)
    ensures r.found <==> GetCart(s, cartId).Some?
    ensures GetCart(r.store, cartId).None?
    ensures forall id :: id != cartId ==> GetCart(r.store, id) == GetCart(s, id)
    ensures !r.found ==> r.store == s
    ensures Valid(s) ==> Valid(r.store)
  {
    Deleted(CartStore(s.carts - {cartId}), cartId in s.carts)
  }

  /** In a well-keyed store, writing a changed cart back under the key it was
      found by is saving it, provided the change kept its id. */
  lemma ReplaceIsSave(s: CartStore, cartId: string, c: Cart)
    requires WellKeyed(s) && c.cartId == cartId
    ensures ReplaceCart(s, cartId, c) == SaveCart(s, c)
    ensures WellKeyed(ReplaceCart(s, cartId, c))
  {
  }

  /** The store's own test: a created cart is found, takes an added line,
      and is gone once deleted. */
  lemma CartStoreExample(freshId: string)
    ensures var created := CreateCart(EmptyStore(), freshId);
            var c := AddItem(GetCart(created.store, created.cartId).value, "SKU001", "Widget", 2, 19.99);
            var s := ReplaceCart(created.store, created.cartId, c);
            && |GetCart(s, freshId).value.items| == 1
            && ItemCount(GetCart(s, freshId).value) == 2
            && DeleteCart(s, freshId).found
            && GetCart(DeleteCart(s, freshId).store, freshId).None?
  {
    var created := CreateCart(EmptyStore(), freshId);
    assert GetCart(created.store, freshId) == Some(WithId(freshId));
    var line := CartItem("SKU001", "Widget", 2, 19.99);
    var c := AddItem(WithId(freshId), "SKU001", "Widget", 2, 19.99);
    AddToEmpty(WithId(freshId), "SKU001", "Widget", 2, 19.99);
    SingleLineTotals(line);
    var s := ReplaceCart(created.store, freshId, c);
    assert GetCart(s, freshId) == Some(c);
  }
}
