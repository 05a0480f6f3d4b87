/** The cart routes of the API router taken together: any request a client
    can send, and the properties every handler shares. */
module CartApi {
  import opened Options
  import opened ShoppingCart
  import opened CartProperties
  import opened CartStores
  import opened CartRoutes

  /** One request to a cart route. `freshId` is the id the server generates
      for a new cart. */
  datatype Request =
    | PostCarts(freshId: string)
    | GetCartById(cartId: string)
    | PostCartItem(cartId: string, body: AddItemRequest)
    | PutCartItem(cartId: string, sku: string, update: UpdateQuantityRequest)
    | DeleteCartItem(cartId: string, sku: string)
    | PostCartClear(cartId: string)
    | DeleteCartById(cartId: string)

  /** The store after a request and the status the client sees; a cart
      response is status 200. */
  datatype Handled = Handled(store: CartStore, status: StatusCode)

  predicate IsError(status: StatusCode)
  {
    status == BadRequest || status == NotFound || status == InternalServerError
  }

  function StatusOf(result: Result<CartResponse, StatusCode>): StatusCode
  {
    match result
    case Success(_) => Ok
    case Failure(e) => e
  }

  /** Routes a request to its handler. A request that fails leaves the store
      as it was, a new cart is never refused, and the only statuses the cart
      routes answer with are 200, 204, 400 and 404. */
  function Handle(s: CartStore, parse: PriceParser, req: Request): (r: Handled)
    ensures IsError(r.status) ==> r.store == s
    ensures req.PostCarts? ==> r.status == Ok
    ensures Code(r.status) == 200 || Code(r.status) == 204 || Code(r.status) == 400 || Code(r.status) == 404
  {
    match req
    case PostCarts(freshId) =>
      var reply := CreateCartHandler(s, freshId);
      Handled(reply.store, StatusOf(reply.result))
    case GetCartById(cartId) =>
      var reply := GetCartHandler(s, cartId);
      Handled(reply.store, StatusOf(reply.result))
    case PostCartItem(cartId, body) =>
      var reply := AddItemHandler(s, parse, cartId, body);
      Handled(reply.store, StatusOf(reply.result))
    case PutCartItem(cartId, sku, update) =>
      var reply := UpdateQuantityHandler(s, cartId, sku, update);
      Handled(reply.store, StatusOf(reply.result))
    case DeleteCartItem(cartId, sku) =>
      var reply := RemoveItemHandler(s, cartId, sku);
      Handled(reply.store, StatusOf(reply.result))
    case PostCartClear(cartId) =>
      var reply := ClearCartHandler(s, cartId);
      Handled(reply.store, StatusOf(reply.result))
    case DeleteCartById(cartId) =>
      var reply := DeleteCartHandler(s, cartId);
      Handled(reply.store, match reply.result case Success(code) => code case Failure(code) => code)
  }

  /** The store after a sequence of requests, served one at a time. */
  function Run(s: CartStore, parse: PriceParser, reqs: seq<Request>): CartStore
    decreases |reqs|
  {
    if |reqs| == 0 then s else Run(Handle(s, parse, reqs[0]).store, parse, reqs[1..])
  }

  /** Writing back a cart changed by one of the cart operations keeps the
      store valid. */
  lemma ReplaceKeepsValid(s: CartStore, cartId: string, c: Cart)
    requires Valid(s) && c.cartId == cartId && DistinctSkus(c.items)
    ensures Valid(ReplaceCart(s, cartId, c))
  {
  }

  /** Every handler keeps every cart filed under its own id and keeps SKUs
      distinct within each cart. */
  lemma HandleKeepsValid(s: CartStore, parse: PriceParser, req: Request)
    requires Valid(s)
    ensures Valid(Handle(s, parse, req).store)
  {
    match req
    case PostCartItem(cartId, body) =>
      if parse(body.unitPrice).Some? && cartId in s.carts {
        var c := s.carts[cartId];
        var price := parse(body.unitPrice).value;
        AddItemKeepsDistinct(c, body.sku, body.productName, body.quantity, price);
        ReplaceKeepsValid(s, cartId, AddItem(c, body.sku, body.productName, body.quantity, price));
      }
    case PutCartItem(cartId, sku, update) =>
      if cartId in s.carts {
        var c := s.carts[cartId];
        UpdateQuantityKeepsDistinct(c, sku, update.quantity);
        ReplaceKeepsValid(s, cartId, UpdateQuantity(c, sku, update.quantity).cart);
      }
    case DeleteCartItem(cartId, sku) =>
      if cartId in s.carts {
        var c := s.carts[cartId];
        RemoveItemKeepsDistinct(c, sku);
        ReplaceKeepsValid(s, cartId, RemoveItem(c, sku).cart);
      }
    case PostCartClear(cartId) =>
      if cartId in s.carts {
        ReplaceKeepsValid(s, cartId, Clear(s.carts[cartId]));
      }
    case _ =>
  }

  /** Every store a server reaches, starting from a valid one (the empty
      store at start-up in particular), is valid. */
  lemma {:induction false} RunKeepsValid(s: CartStore, parse: PriceParser, reqs: seq<Request>)
    requires Valid(s)
    ensures Valid(Run(s, parse, reqs))
    decreases |reqs|
  {
    if |reqs| > 0 {
      HandleKeepsValid(s, parse, reqs[0]);
      RunKeepsValid(Handle(s, parse, reqs[0]).store, parse, reqs[1..]);
    }
  }

  lemma ServedStoresAreValid(parse: PriceParser, reqs: seq<Request>)
    ensures Valid(Run(EmptyStore(), parse, reqs))
  {
    RunKeepsValid(EmptyStore(), parse, reqs);
  }

  /** In a valid store, a cart a handler replies with carries the id the
      client asked for, and reading that cart straight back gives the same
      reply. */
  lemma RepliesMatchTheStore(s: CartStore, parse: PriceParser, cartId: string, sku: string, body: AddItemRequest, q: int)
    requires Valid(s)
    ensures var r := AddItemHandler(s, parse, cartId, body);
            r.result.Success? ==> r.result.value.cartId == cartId && GetCartHandler(r.store, cartId).result == r.result
    ensures var r := UpdateQuantityHandler(s, cartId, sku, UpdateQuantityRequest(q));
            r.result.Success? ==> r.result.value.cartId == cartId && GetCartHandler(r.store, cartId).result == r.result
    ensures var r := RemoveItemHandler(s, cartId, sku);
            r.result.Success? ==> r.result.value.cartId == cartId && GetCartHandler(r.store, cartId).result == r.result
    ensures var r := ClearCartHandler(s, cartId);
            r.result.Success? ==> r.result.value.cartId == cartId && GetCartHandler(r.store, cartId).result == r.result
  {
  }

  /** Adding through the API raises the cart's item count by exactly the
      requested quantity. */
  lemma AddItemHandlerCount(s: CartStore, parse: PriceParser, cartId: string, body: AddItemRequest)
    ensures var r := AddItemHandler(s, parse, cartId, body);
            r.result.Success? ==> r.result.value.itemCount == ItemCount(s.carts[cartId]) + body.quantity
  {
    var r := AddItemHandler(s, parse, cartId, body);
    if r.result.Success? {
      AddItemTotals(s.carts[cartId], body.sku, body.productName, body.quantity, parse(body.unitPrice).value);
    }
  }

  /** In a valid store, a successful removal through the API leaves a cart in
      which the SKU can no longer be found. */
  lemma RemoveItemHandlerRemoves(s: CartStore, cartId: string, sku: string)
    requires Valid(s)
    ensures var r := RemoveItemHandler(s, cartId, sku);
            r.result.Success? ==> GetItem(CartOf(r.result.value), sku).None?
  {
  }

  /** A successful positive quantity update through the API leaves the SKU's
      line holding exactly that quantity. */
  lemma UpdateQuantityHandlerSets(s: CartStore, cartId: string, sku: string, q: int)
    requires q > 0
    ensures var r := UpdateQuantityHandler(s, cartId, sku, UpdateQuantityRequest(q));
            r.result.Success? ==>
              GetItem(CartOf(r.result.value), sku).Some? && GetItem(CartOf(r.result.value), sku).value.quantity == q
  {
    if cartId in s.carts && HasSku(s.carts[cartId].items, sku) {
      var c := s.carts[cartId];
      var i := Position(c.items, sku).value;
      UpdateQuantitySets(c, sku, q, i);
    }
  }
}
