/** The cart HTTP handlers, each a pure function from the store and the
    request to the new store and the reply: a cart response (status 200) or
    an error status. */
module CartRoutes {
  import opened Options
  import opened ShoppingCart
  import opened CartStores

  datatype StatusCode = Ok | NoContent | BadRequest | NotFound | InternalServerError

  /** The numeric HTTP status. */
  function Code(status: StatusCode): nat
  {
    match status
    case Ok => 200
    case NoContent => 204
    case BadRequest => 400
    case NotFound => 404
    case InternalServerError => 500
  }

  /** Body of a request adding a line; the price arrives as decimal text. */
  datatype AddItemRequest = AddItemRequest(sku: string, productName: string, quantity: int, unitPrice: string)

  datatype UpdateQuantityRequest = UpdateQuantityRequest(quantity: int)

  /** A cart as sent back to the client, with its two totals. Every
      handler's reply carries the totals of the very cart it describes. */
  datatype CartResponse = CartResponse(cartId: string, items: seq<CartItem>, subtotal: Decimal, itemCount: int)

  /** The decimal parser applied to the price text: a value, or none when the
      text is not a decimal number. */
  type PriceParser = string -> Option<Decimal>

  /** The store a handler leaves behind, and what it replied. */
  datatype Reply = Reply(store: CartStore, result: Result<CartResponse, StatusCode>)

  /** The store after a handler that replies with a bare status, and that
      status. */
  datatype StatusReply = StatusReply(store: CartStore, result: Result<StatusCode, StatusCode>)

  /** The cart a response describes. */
  function CartOf(r: CartResponse): Cart
  {
    Cart(r.cartId, r.items)
  }

  /** A response carries its cart unchanged, and its totals are the sums a
      client would compute from the lines it received. */
  function ResponseFrom(c: Cart): (r: CartResponse)
    ensures CartOf(r) == c
    ensures r.subtotal == SumSubtotals(r.items) && r.itemCount == SumQuantities(r.items)
  {
    CartResponse(c.cartId, c.items, Subtotal(c), ItemCount(c))
  }

  /** POST /api/carts: a new empty cart under the generated id `freshId`. */
  function CreateCartHandler(s: CartStore, freshId: string): (r: Reply)
    ensures r.result.Success?
    ensures r.result.value.cartId == freshId && r.result.value.items == []
    ensures r.result.value.subtotal == 0.0 && r.result.value.itemCount == 0
    ensures GetCart(r.store, freshId) == Some(CartOf(r.result.value))
    ensures forall id :: id != freshId ==> GetCart(r.store, id) == GetCart(s, id)
    ensures r.result.Success? ==>
              r.result.value.subtotal == Subtotal(CartOf(r.result.value)) && r.result.value.itemCount == ItemCount(CartOf(r.result.value))
  {
    var created := CreateCart(s, freshId);
    match GetCart(created.store, created.cartId)
    case None => Reply(created.store, Failure(InternalServerError))
    case Some(c) => Reply(created.store, Success(ResponseFrom(c)))
  }

  /** GET /api/carts/{cartId}. */
  function GetCartHandler(s: CartStore, cartId: string): (r: Reply)
    ensures r.store == s
    ensures r.result.Success? <==> cartId in s.carts
    ensures r.result.Failure? ==> r.result.error == NotFound
    ensures r.result.Success? ==> CartOf(r.result.value) == s.carts[cartId]
    ensures r.result.Success? ==>
              r.result.value.subtotal == Subtotal(CartOf(r.result.value)) && r.result.value.itemCount == ItemCount(CartOf(r.result.value))
  {
    match GetCart(s, cartId)
    case None => Reply(s, Failure(NotFound))
    case Some(c) => Reply(s, Success(ResponseFrom(c)))
  }

  /** POST /api/carts/{cartId}/items. The price is parsed before the store is
      looked at, so bad price text is reported even for an unknown cart. */
  function AddItemHandler(s: CartStore, parse: PriceParser, cartId: string, req: AddItemRequest): (r: Reply)
    ensures parse(req.unitPrice).None? ==> r == Reply(s, Failure(BadRequest))
    ensures parse(req.unitPrice).Some? && cartId !in s.carts ==> r == Reply(s, Failure(NotFound))
    ensures r.result.Success? <==> parse(req.unitPrice).Some? && cartId in s.carts
    ensures r.result.Success? ==>
              CartOf(r.result.value) == AddItem(s.carts[cartId], req.sku, req.productName, req.quantity, parse(req.unitPrice).value)
    ensures r.result.Success? ==> GetCart(r.store, cartId) == Some(CartOf(r.result.value))
    ensures forall id :: id != cartId ==> GetCart(r.store, id) == GetCart(s, id)
    ensures r.result.Success? ==>
              r.result.value.subtotal == Subtotal(CartOf(r.result.value)) && r.result.value.itemCount == ItemCount(CartOf(r.result.value))
  {
    match parse(req.unitPrice)
    case None => Reply(s, Failure(BadRequest))
    case Some(unitPrice) =>
      match GetCart(s, cartId)
      case None => Reply(s, Failure(NotFound))
      case Some(c) =>
        var updated := AddItem(c, req.sku, req.productName, req.quantity, unitPrice);
        Reply(ReplaceCart(s, cartId, updated), Success(ResponseFrom(updated)))
  }

  /** PUT /api/carts/{cartId}/items/{sku}. Not found when the cart is unknown
      or when the cart reports the SKU missing, including a quantity of zero
      or less for a SKU the cart does not hold. */
  function UpdateQuantityHandler(s: CartStore, cartId: string, sku: string, req: UpdateQuantityRequest): (r: Reply)
    ensures r.result.Success? <==> cartId in s.carts && HasSku(s.carts[cartId].items, sku)
    ensures cartId in s.carts ==> (r.result.Success? <==> UpdateQuantity(s.carts[cartId], sku, req.quantity).found)
    ensures r.result.Failure? ==> r.result.error == NotFound && r.store == s
    ensures r.result.Success? ==> CartOf(r.result.value) == UpdateQuantity(s.carts[cartId], sku, req.quantity).cart
    ensures r.result.Success? ==> GetCart(r.store, cartId) == Some(CartOf(r.result.value))
    ensures forall id :: id != cartId ==> GetCart(r.store, id) == GetCart(s, id)
    ensures r.result.Success? ==>
              r.result.value.subtotal == Subtotal(CartOf(r.result.value)) && r.result.value.itemCount == ItemCount(CartOf(r.result.value))
  {
    match GetCart(s, cartId)
    case None => Reply(s, Failure(NotFound))
    case Some(c) =>
      var change := UpdateQuantity(c, sku, req.quantity);
      var s' := ReplaceCart(s, cartId, change.cart);
      if !change.found then Reply(s', Failure(NotFound))
      else Reply(s', Success(ResponseFrom(change.cart)))
  }

  /** DELETE /api/carts/{cartId}/items/{sku}. */
  function RemoveItemHandler(s: CartStore, cartId: string, sku: string): (r: Reply)
    ensures r.result.Success? <==> cartId in s.carts && HasSku(s.carts[cartId].items, sku)
    ensures r.result.Failure? ==> r.result.error == NotFound && r.store == s
    ensures r.result.Success? ==> CartOf(r.result.value) == RemoveItem(s.carts[cartId], sku).cart
    ensures r.result.Success? ==> GetCart(r.store, cartId) == Some(CartOf(r.result.value))
    ensures forall id :: id != cartId ==> GetCart(r.store, id) == GetCart(s, id)
    ensures r.result.Success? ==>
              r.result.value.subtotal == Subtotal(CartOf(r.result.value)) && r.result.value.itemCount == ItemCount(CartOf(r.result.value))
  {
    match GetCart(s, cartId)
    case None => Reply(s, Failure(NotFound))
    case Some(c) =>
      var change := RemoveItem(c, sku);
      var s' := ReplaceCart(s, cartId, change.cart);
      if !change.found then Reply(s', Failure(NotFound))
      else Reply(s', Success(ResponseFrom(change.cart)))
  }

  /** POST /api/carts/{cartId}/clear. */
  function ClearCartHandler(s: CartStore, cartId: string): (r: Reply)
    ensures r.result.Success? <==> cartId in s.carts
    ensures r.result.Failure? ==> r.result.error == NotFound && r.store == s
    ensures r.result.Success? ==>
              && r.result.value.cartId == s.carts[cartId].cartId
              && r.result.value.items == []
              && r.result.value.subtotal == 0.0 && r.result.value.itemCount == 0
    ensures r.result.Success? ==> GetCart(r.store, cartId) == Some(CartOf(r.result.value))
    ensures forall id :: id != cartId ==> GetCart(r.store, id) == GetCart(s, id)
    ensures r.result.Success? ==>
              r.result.value.subtotal == Subtotal(CartOf(r.result.value)) && r.result.value.itemCount == ItemCount(CartOf(r.result.value))
  {
    match GetCart(s, cartId)
    case None => Reply(s, Failure(NotFound))
    case Some(c) =>
      var cleared := Clear(c);
      Reply(ReplaceCart(s, cartId, cleared), Success(ResponseFrom(cleared)))
  }

  /** DELETE /api/carts/{cartId}: no content when the cart was there, not
      found otherwise; either way it is gone afterwards. */
  function DeleteCartHandler(s: CartStore, cartId: string): (r: StatusReply)
    ensures r.result.Success? <==> cartId in s.carts
    ensures r.result == Success(NoContent) || r.result == Failure(NotFound)
    ensures GetCart(r.store, cartId).None?
    ensures forall id :: id != cartId ==> GetCart(r.store, id) == GetCart(s, id)
    ensures r.result.Failure? ==> r.store == s
  {
    var deleted := DeleteCart(s, cartId);
    if deleted.found then StatusReply(deleted.store, Success(NoContent))
    else StatusReply(deleted.store, Failure(NotFound))
  }
}
