/** The in-memory shopping cart: an ordered list of line items, each keyed by
    a SKU, with the merge-on-add, remove and set-quantity rules of the cart
    crate and its two totals. */
module ShoppingCart {
  import opened Options

  /** Money. The cart crate uses an exact base-10 decimal; exact rationals
      hold every such value and compute its sums and products without
      rounding. */
  type Decimal = real

  datatype CartItem = CartItem(sku: string, productName: string, quantity: int, unitPrice: Decimal)

  datatype Cart = Cart(cartId: string, items: seq<CartItem>)

  /** The cart after a call that reports whether the SKU it named was found. */
  datatype Change = Change(cart: Cart, found: bool)

  /** Price of one line: its unit price times its quantity. */
  function ItemSubtotal(item: CartItem): Decimal
  {
    item.unitPrice * item.quantity as real
  }

  /** Some line carries `sku`. */
  predicate HasSku(items: seq<CartItem>, sku: string)
  {
    exists i :: 0 <= i < |items| && items[i].sku == sku
  }

  /** No SKU appears on two lines. */
  predicate DistinctSkus(items: seq<CartItem>)
  {
    forall i, j :: 0 <= i < j < |items| ==> items[i].sku != items[j].sku
  }

  /** Index of the first line carrying `sku`, found by a front-to-back scan. */
  function Position(items: seq<CartItem>, sku: string): (r: Option<nat>)
    ensures r.None? <==> !HasSku(items, sku)
    ensures r.Some? ==> r.value < |items| && items[r.value].sku == sku
    ensures r.Some? ==> forall j :: 0 <= j < r.value ==> items[j].sku != sku
  {
    if |items| == 0 then None
    else if items[0].sku == sku then Some(0)
    else
      match Position(items[1..], sku)
      case None =>
        assert forall i :: 1 <= i < |items| ==> items[i] == items[1..][i - 1];
        None
      case Some(k) => Some(k + 1)
  }

  /** An empty cart carrying the given id. A fresh cart is this with a
      newly generated id. */
  function WithId(cartId: string): (c: Cart)
    ensures c.cartId == cartId && IsEmpty(c)
    ensures Subtotal(c) == 0.0 && ItemCount(c) == 0
  {
    Cart(cartId, [])
  }

  /** Adds `quantity` to the line carrying `sku`, keeping that line's name and
      price, or appends a new line when no line carries it. */
  function AddItem(c: Cart, sku: string, productName: string, quantity: int, unitPrice: Decimal): (r: Cart)
    ensures r.cartId == c.cartId
    ensures HasSku(c.items, sku) <==> |r.items| == |c.items|
    ensures !HasSku(c.items, sku) ==> r.items == c.items + [CartItem(sku, productName, quantity, unitPrice)]
    ensures HasSku(r.items, sku)
  {
    match Position(c.items, sku)
    case Some(i) =>
      var items := c.items[i := c.items[i].(quantity := c.items[i].quantity + quantity)];
      assert items[i].sku == sku;
      c.(items := items)
    case None =>
      var items := c.items + [CartItem(sku, productName, quantity, unitPrice)];
      assert items[|c.items|].sku == sku;
      c.(items := items)
  }

  /** Removes the first line carrying `sku`; reports whether there was one. */
  function RemoveItem(c: Cart, sku: string): (r: Change)
    ensures r.found <==> HasSku(c.items, sku)
    ensures !r.found ==> r.cart == c
    ensures r.cart.cartId == c.cartId
    ensures r.found ==> |r.cart.items| == |c.items| - 1
  {
    match Position(c.items, sku)
    case None => Change(c, false)
    case Some(i) => Change(c.(items := c.items[..i] + c.items[i + 1..]), true)
  }

  /** Sets the quantity of the line carrying `sku`; a quantity of zero or
      less removes the line instead. Reports whether the SKU was found. */
  function UpdateQuantity(c: Cart, sku: string, newQuantity: int): (r: Change)
    ensures r.found <==> HasSku(c.items, sku)
    ensures !r.found ==> r.cart == c
    ensures r.cart.cartId == c.cartId
    ensures newQuantity > 0 ==> |r.cart.items| == |c.items|
  {
    if newQuantity <= 0 then
      RemoveItem(c, sku)
    else
      match Position(c.items, sku)
      case None => Change(c, false)
      case Some(i) => Change(c.(items := c.items[i := c.items[i].(quantity := newQuantity)]), true)
  }

  /** The first line carrying `sku`, if any. */
  function GetItem(c: Cart, sku: string): (r: Option<CartItem>)
    ensures r.Some? <==> HasSku(c.items, sku)
    ensures r.Some? ==> r.value.sku == sku && r.value in c.items
  {
    match Position(c.items, sku)
    case None => None
    case Some(i) => Some(c.items[i])
  }

  /** Sum of the line subtotals, added up front to back from zero. */
  function SumSubtotals(items: seq<CartItem>): Decimal
  {
    if |items| == 0 then 0.0
    else SumSubtotals(items[..|items| - 1]) + ItemSubtotal(items[|items| - 1])
  }

  /** Sum of the line quantities, added up front to back from zero. */
  function SumQuantities(items: seq<CartItem>): int
  {
    if |items| == 0 then 0
    else SumQuantities(items[..|items| - 1]) + items[|items| - 1].quantity
  }

  function Subtotal(c: Cart): Decimal
  {
    SumSubtotals(c.items)
  }

  function ItemCount(c: Cart): int
  {
    SumQuantities(c.items)
  }

  /** Drops every line and keeps the id. */
  function Clear(c: Cart): (r: Cart)
    ensures r.cartId == c.cartId && IsEmpty(r)
    ensures Subtotal(r) == 0.0 && ItemCount(r) == 0
    ensures forall sku :: !HasSku(r.items, sku)
  {
    c.(items := [])
  }

  predicate IsEmpty(c: Cart)
  {
    |c.items| == 0
  }
}
