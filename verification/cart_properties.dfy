/** Properties of the cart operations: how each one changes the lines and
    the two totals, that SKUs stay distinct, and the behaviour the crate's
    unit tests pin down. */
module CartProperties {
  import opened Options
  import opened ShoppingCart

  /* ---------- Totals ---------- */

  /** Both totals of a list are the totals of its first `k` lines plus the
      totals of the rest. */
  lemma {:induction false} TotalsSplit(items: seq<CartItem>, k: nat)
    requires k <= |items|
    ensures SumSubtotals(items) == SumSubtotals(items[..k]) + SumSubtotals(items[k..])
    ensures SumQuantities(items) == SumQuantities(items[..k]) + SumQuantities(items[k..])
    decreases |items|
  {
    if k == |items| {
      assert items[..k] == items;
      assert items[k..] == [];
    } else {
      var n := |items|;
      var front := items[..n - 1];
      TotalsSplit(front, k);
      assert front[..k] == items[..k];
      var tail := items[k..];
      assert tail[..|tail| - 1] == front[k..];
      assert tail[|tail| - 1] == items[n - 1];
    }
  }

  /** Both totals are additive over concatenation. */
  lemma TotalsAppend(a: seq<CartItem>, b: seq<CartItem>)
    ensures SumSubtotals(a + b) == SumSubtotals(a) + SumSubtotals(b)
    ensures SumQuantities(a + b) == SumQuantities(a) + SumQuantities(b)
  {
    TotalsSplit(a + b, |a|);
    assert (a + b)[..|a|] == a;
    assert (a + b)[|a|..] == b;
  }

  /** A one-line list totals to that line's subtotal and quantity. */
  lemma SingleLineTotals(line: CartItem)
    ensures SumSubtotals([line]) == ItemSubtotal(line)
    ensures SumQuantities([line]) == line.quantity
  {
  }

  /** Both totals split around line `i`. */
  lemma TotalsAround(items: seq<CartItem>, i: nat)
    requires i < |items|
    ensures SumSubtotals(items) == SumSubtotals(items[..i]) + ItemSubtotal(items[i]) + SumSubtotals(items[i + 1..])
    ensures SumQuantities(items) == SumQuantities(items[..i]) + items[i].quantity + SumQuantities(items[i + 1..])
  {
    TotalsSplit(items, i);
    var rest := items[i..];
    TotalsSplit(rest, 1);
    assert rest[..1] == [items[i]];
    assert rest[1..] == items[i + 1..];
    SingleLineTotals(items[i]);
  }

  /** Replacing line `i` by `x` changes each total by the difference of the
      two lines' contributions. */
  lemma TotalsUpdate(items: seq<CartItem>, i: nat, x: CartItem)
    requires i < |items|
    ensures SumSubtotals(items[i := x]) == SumSubtotals(items) - ItemSubtotal(items[i]) + ItemSubtotal(x)
    ensures SumQuantities(items[i := x]) == SumQuantities(items) - items[i].quantity + x.quantity
  {
    var updated := items[i := x];
    TotalsAround(items, i);
    TotalsAround(updated, i);
    assert updated[..i] == items[..i];
    assert updated[i + 1..] == items[i + 1..];
  }

  /** Dropping line `i` takes its contribution out of each total. */
  lemma TotalsRemoveAt(items: seq<CartItem>, i: nat)
    requires i < |items|
    ensures SumSubtotals(items[..i] + items[i + 1..]) == SumSubtotals(items) - ItemSubtotal(items[i])
    ensures SumQuantities(items[..i] + items[i + 1..]) == SumQuantities(items) - items[i].quantity
  {
    TotalsAround(items, i);
    TotalsAppend(items[..i], items[i + 1..]);
  }

  /** Adding `quantity` raises the item count by exactly `quantity` and the
      subtotal by `quantity` units at the price the SKU's line carries: the
      existing line's price when the SKU was present (the price passed in is
      then ignored), the new price otherwise. */
  lemma AddItemTotals(c: Cart, sku: string, productName: string, quantity: int, unitPrice: Decimal)
    ensures ItemCount(AddItem(c, sku, productName, quantity, unitPrice)) == ItemCount(c) + quantity
    ensures Subtotal(AddItem(c, sku, productName, quantity, unitPrice))
         == Subtotal(c) + GetItem(c, sku).GetOr(CartItem(sku, productName, 0, unitPrice)).unitPrice * quantity as real
  {
    if HasSku(c.items, sku) {
      AddExistingTotals(c, sku, productName, quantity, unitPrice);
    } else {
      AddNewTotals(c, sku, productName, quantity, unitPrice);
    }
  }

  lemma AddExistingTotals(c: Cart, sku: string, productName: string, quantity: int, unitPrice: Decimal)
    requires HasSku(c.items, sku)
    ensures ItemCount(AddItem(c, sku, productName, quantity, unitPrice)) == ItemCount(c) + quantity
    ensures Subtotal(AddItem(c, sku, productName, quantity, unitPrice))
         == Subtotal(c) + GetItem(c, sku).value.unitPrice * quantity as real
  {
    var i := Position(c.items, sku).value;
    var line := c.items[i];
    assert AddItem(c, sku, productName, quantity, unitPrice).items == c.items[i := line.(quantity := line.quantity + quantity)];
    MergeTotals(c.items, i, quantity);
  }

  lemma AddNewTotals(c: Cart, sku: string, productName: string, quantity: int, unitPrice: Decimal)
    requires !HasSku(c.items, sku)
    ensures ItemCount(AddItem(c, sku, productName, quantity, unitPrice)) == ItemCount(c) + quantity
    ensures Subtotal(AddItem(c, sku, productName, quantity, unitPrice)) == Subtotal(c) + unitPrice * quantity as real
  {
  }

  /** Merging `quantity` more units into line `i` adds that many units at the
      line's own price. */
  lemma MergeTotals(items: seq<CartItem>, i: nat, quantity: int)
    requires i < |items|
    ensures SumQuantities(items[i := items[i].(quantity := items[i].quantity + quantity)]) == SumQuantities(items) + quantity
    ensures SumSubtotals(items[i := items[i].(quantity := items[i].quantity + quantity)])
         == SumSubtotals(items) + items[i].unitPrice * quantity as real
  {
    var line := items[i];
    var merged := line.(quantity := line.quantity + quantity);
    TotalsUpdate(items, i, merged);
    Distribute(line.unitPrice, line.quantity, quantity);
  }

  /** Pricing `a + b` units is pricing `a` units and then `b` more. */
  lemma Distribute(price: Decimal, a: int, b: int)
    ensures price * (a + b) as real == price * a as real + price * b as real
  {
  }

  /** Removing a present SKU takes exactly that line's quantity and subtotal
      out of the totals. */
  lemma RemoveItemTotals(c: Cart, sku: string)
    requires HasSku(c.items, sku)
    ensures ItemCount(RemoveItem(c, sku).cart) == ItemCount(c) - GetItem(c, sku).value.quantity
    ensures Subtotal(RemoveItem(c, sku).cart) == Subtotal(c) - ItemSubtotal(GetItem(c, sku).value)
  {
    TotalsRemoveAt(c.items, Position(c.items, sku).value);
  }

  /** Setting a present SKU's quantity to a positive `q` moves the item count
      from the old quantity to `q`, and replaces the line's subtotal by its
      subtotal at `q` units of its own price. */
  lemma UpdateQuantityTotals(c: Cart, sku: string, q: int)
    requires HasSku(c.items, sku) && q > 0
    ensures ItemCount(UpdateQuantity(c, sku, q).cart) == ItemCount(c) - GetItem(c, sku).value.quantity + q
    ensures Subtotal(UpdateQuantity(c, sku, q).cart)
         == Subtotal(c) - ItemSubtotal(GetItem(c, sku).value) + ItemSubtotal(GetItem(c, sku).value.(quantity := q))
  {
    var i := Position(c.items, sku).value;
    assert UpdateQuantity(c, sku, q).cart.items == c.items[i := c.items[i].(quantity := q)];
    TotalsUpdate(c.items, i, c.items[i].(quantity := q));
  }

  /* ---------- How each operation changes the lines ---------- */

  /** When line `i` is the first to carry `sku`, adding merges into it: its
      quantity grows by `quantity`, its name and price stay, and every other
      line is untouched. */
  lemma AddItemMerges(c: Cart, sku: string, productName: string, quantity: int, unitPrice: Decimal, i: nat)
    requires i < |c.items| && c.items[i].sku == sku
    requires forall j :: 0 <= j < i ==> c.items[j].sku != sku
    ensures |AddItem(c, sku, productName, quantity, unitPrice).items| == |c.items|
    ensures AddItem(c, sku, productName, quantity, unitPrice).items[i]
         == CartItem(sku, c.items[i].productName, c.items[i].quantity + quantity, c.items[i].unitPrice)
    ensures forall j :: 0 <= j < |c.items| && j != i ==> AddItem(c, sku, productName, quantity, unitPrice).items[j] == c.items[j]
  {
  }

  /** The cart's lines with every line carrying `sku` dropped, in their
      original order. */
  function Without(items: seq<CartItem>, sku: string): (r: seq<CartItem>)
    ensures forall k :: 0 <= k < |r| ==> r[k] in items
    ensures !HasSku(r, sku)
    ensures |r| <= |items|
  {
    if |items| == 0 then []
    else (if items[0].sku == sku then [] else [items[0]]) + Without(items[1..], sku)
  }

  lemma {:induction false} WithoutAppend(a: seq<CartItem>, b: seq<CartItem>, sku: string)
    ensures Without(a + b, sku) == Without(a, sku) + Without(b, sku)
    decreases |a|
  {
    if |a| == 0 {
      assert a + b == b;
    } else {
      assert (a + b)[1..] == a[1..] + b;
      WithoutAppend(a[1..], b, sku);
    }
  }

  lemma {:induction false} WithoutAbsent(items: seq<CartItem>, sku: string)
    requires !HasSku(items, sku)
    ensures Without(items, sku) == items
    decreases |items|
  {
    if |items| > 0 {
      assert items[0].sku != sku;
      assert !HasSku(items[1..], sku) by {
        forall k | 0 <= k < |items[1..]| ensures items[1..][k].sku != sku {
          assert items[1..][k] == items[k + 1];
        }
      }
      WithoutAbsent(items[1..], sku);
      assert items == [items[0]] + items[1..];
    }
  }

  /** Filtering a SKU out of lines where it occurs exactly once, at `x`,
      leaves the lines before and after `x`. */
  lemma WithoutSingle(before: seq<CartItem>, x: CartItem, after: seq<CartItem>, sku: string)
    requires !HasSku(before, sku) && !HasSku(after, sku) && x.sku == sku
    ensures Without(before + [x] + after, sku) == before + after
  {
    var w := Without([x], sku);
    assert w == [] by { assert [x][1..] == []; }
    WithoutAppend(before + [x], after, sku);
    WithoutAppend(before, [x], sku);
    WithoutAbsent(before, sku);
    WithoutAbsent(after, sku);
    assert Without(before + [x], sku) == before + w;
    assert before + w == before;
  }

  /** With distinct SKUs, removing a SKU is filtering it out: the remaining
      lines keep their relative order and the SKU is no longer found. */
  lemma RemoveItemFilters(c: Cart, sku: string)
    requires DistinctSkus(c.items)
    ensures RemoveItem(c, sku).cart.items == Without(c.items, sku)
    ensures GetItem(RemoveItem(c, sku).cart, sku).None?
  {
    match Position(c.items, sku)
    case None =>
      WithoutAbsent(c.items, sku);
    case Some(i) =>
      var before, after := c.items[..i], c.items[i + 1..];
      assert !HasSku(before, sku);
      assert !HasSku(after, sku) by {
        forall k | 0 <= k < |after| ensures after[k].sku != sku {
          assert after[k] == c.items[i + 1 + k];
        }
      }
      assert c.items == before + [c.items[i]] + after;
      WithoutSingle(before, c.items[i], after, sku);
  }

  /** When line `i` is the first to carry `sku` and `q` is positive, the line
      now holds quantity `q` with its name and price unchanged, and every
      other line is untouched. */
  lemma UpdateQuantitySets(c: Cart, sku: string, q: int, i: nat)
    requires q > 0
    requires i < |c.items| && c.items[i].sku == sku
    requires forall j :: 0 <= j < i ==> c.items[j].sku != sku
    ensures UpdateQuantity(c, sku, q) == Change(c.(items := c.items[i := c.items[i].(quantity := q)]), true)
    ensures GetItem(UpdateQuantity(c, sku, q).cart, sku) == Some(c.items[i].(quantity := q))
    ensures forall j :: 0 <= j < |c.items| && j != i ==> UpdateQuantity(c, sku, q).cart.items[j] == c.items[j]
  {
    var p := Position(c.items, sku);
    assert p.Some? && p.value == i;
    var items := c.items[i := c.items[i].(quantity := q)];
    assert items[i].sku == sku;
    assert forall j :: 0 <= j < i ==> items[j].sku != sku;
    var p' := Position(items, sku);
    assert p'.Some? && p'.value == i;
  }

  /** A quantity of zero or less is a removal: same cart, same answer, and
      with distinct SKUs the SKU is gone afterwards. */
  lemma UpdateNonPositiveRemoves(c: Cart, sku: string, q: int)
    requires q <= 0
    ensures UpdateQuantity(c, sku, q) == RemoveItem(c, sku)
    ensures DistinctSkus(c.items) ==> GetItem(UpdateQuantity(c, sku, q).cart, sku).None?
  {
  }

  /** Whatever the lines hold, removing a SKU whose first line is `i` drops
      exactly that line and keeps the others in order, later lines with the
      same SKU included. */
  lemma RemoveItemDropsFirst(c: Cart, sku: string, i: nat)
    requires i < |c.items| && c.items[i].sku == sku
    requires forall j :: 0 <= j < i ==> c.items[j].sku != sku
    ensures RemoveItem(c, sku).found
    ensures RemoveItem(c, sku).cart == c.(items := c.items[..i] + c.items[i + 1..])
  {
  }

  /** Whatever the lines hold, looking up a SKU whose first line is `i`
      returns that line. */
  lemma GetItemIsFirst(c: Cart, sku: string, i: nat)
    requires i < |c.items| && c.items[i].sku == sku
    requires forall j :: 0 <= j < i ==> c.items[j].sku != sku
    ensures GetItem(c, sku) == Some(c.items[i])
  {
  }

  /** With distinct SKUs, looking a SKU up finds exactly the line carrying it. */
  lemma GetItemFindsTheLine(c: Cart, sku: string, x: CartItem)
    requires DistinctSkus(c.items)
    ensures GetItem(c, sku) == Some(x) <==> x in c.items && x.sku == sku
  {
  }

  /** A cart is empty exactly when no SKU can be found in it. */
  lemma IsEmptyIffNoSku(c: Cart)
    ensures IsEmpty(c) <==> forall sku :: !HasSku(c.items, sku)
  {
    if !IsEmpty(c) {
      assert HasSku(c.items, c.items[0].sku);
    }
  }

  /* ---------- SKU uniqueness ---------- */

  lemma AddItemKeepsDistinct(c: Cart, sku: string, productName: string, quantity: int, unitPrice: Decimal)
    requires DistinctSkus(c.items)
    ensures DistinctSkus(AddItem(c, sku, productName, quantity, unitPrice).items)
  {
  }

  lemma RemoveItemKeepsDistinct(c: Cart, sku: string)
    requires DistinctSkus(c.items)
    ensures DistinctSkus(RemoveItem(c, sku).cart.items)
  {
  }

  lemma UpdateQuantityKeepsDistinct(c: Cart, sku: string, q: int)
    requires DistinctSkus(c.items)
    ensures DistinctSkus(UpdateQuantity(c, sku, q).cart.items)
  {
  }

  /** One call a caller can make on a cart. */
  datatype CartOp =
    | Add(sku: string, productName: string, quantity: int, unitPrice: Decimal)
    | Remove(sku: string)
    | SetQuantity(sku: string, quantity: int)
    | ClearAll

  function ApplyOp(c: Cart, op: CartOp): Cart
  {
    match op
    case Add(sku, name, q, p) => AddItem(c, sku, name, q, p)
    case Remove(sku) => RemoveItem(c, sku).cart
    case SetQuantity(sku, q) => UpdateQuantity(c, sku, q).cart
    case ClearAll => Clear(c)
  }

  function ApplyOps(c: Cart, ops: seq<CartOp>): Cart
    decreases |ops|
  {
    if |ops| == 0 then c else ApplyOps(ApplyOp(c, ops[0]), ops[1..])
  }

  /** Every cart reachable from an empty cart by any sequence of calls keeps
      its id and has distinct SKUs. */
  lemma {:induction false} ReachableCartsHaveDistinctSkus(c: Cart, ops: seq<CartOp>)
    requires DistinctSkus(c.items)
    ensures DistinctSkus(ApplyOps(c, ops).items)
    ensures ApplyOps(c, ops).cartId == c.cartId
    decreases |ops|
  {
    if |ops| > 0 {
      match ops[0] {
        case Add(sku, name, q, p) => AddItemKeepsDistinct(c, sku, name, q, p);
        case Remove(sku) => RemoveItemKeepsDistinct(c, sku);
        case SetQuantity(sku, q) => UpdateQuantityKeepsDistinct(c, sku, q);
        case ClearAll =>
      }
      ReachableCartsHaveDistinctSkus(ApplyOp(c, ops[0]), ops[1..]);
    }
  }

  lemma FreshCartsHaveDistinctSkus(cartId: string, ops: seq<CartOp>)
    ensures DistinctSkus(ApplyOps(WithId(cartId), ops).items)
    ensures ApplyOps(WithId(cartId), ops).cartId == cartId
  {
    ReachableCartsHaveDistinctSkus(WithId(cartId), ops);
  }

  /* ---------- The crate's unit tests ---------- */

  /** Adding to an empty cart gives exactly one line with the given fields. */
  lemma AddToEmpty(c: Cart, sku: string, productName: string, quantity: int, unitPrice: Decimal)
    requires IsEmpty(c)
    ensures AddItem(c, sku, productName, quantity, unitPrice) == c.(items := [CartItem(sku, productName, quantity, unitPrice)])
  {
    assert !HasSku(c.items, sku);
  }

  /** Adding a SKU that is not in the cart appends one line after the old
      ones. */
  lemma AddAbsent(c: Cart, sku: string, productName: string, quantity: int, unitPrice: Decimal)
    requires forall k :: 0 <= k < |c.items| ==> c.items[k].sku != sku
    ensures AddItem(c, sku, productName, quantity, unitPrice) == c.(items := c.items + [CartItem(sku, productName, quantity, unitPrice)])
  {
    assert !HasSku(c.items, sku);
  }

  /** Adding the SKU of a one-line cart merges into that line. */
  lemma AddToSingle(c: Cart, quantity: int, productName: string, unitPrice: Decimal)
    requires |c.items| == 1
    ensures AddItem(c, c.items[0].sku, productName, quantity, unitPrice)
         == c.(items := [c.items[0].(quantity := c.items[0].quantity + quantity)])
  {
    var r := AddItem(c, c.items[0].sku, productName, quantity, unitPrice);
    AddItemMerges(c, c.items[0].sku, productName, quantity, unitPrice, 0);
    assert r.items == [c.items[0].(quantity := c.items[0].quantity + quantity)];
  }

  /** Two units at 19.99 cost 39.98; adding three more of the same SKU merges
      into one line of five costing 99.95; a second SKU at 29.99 makes two
      lines, six items and 129.94. */
  lemma CartOperationsExample(id: string)
    ensures var c1 := AddItem(WithId(id), "SKU001", "Widget", 2, 19.99);
            |c1.items| == 1 && ItemCount(c1) == 2 && Subtotal(c1) == 39.98
    ensures var c2 := AddItem(AddItem(WithId(id), "SKU001", "Widget", 2, 19.99), "SKU001", "Widget", 3, 19.99);
            |c2.items| == 1 && ItemCount(c2) == 5 && Subtotal(c2) == 99.95
    ensures var c3 := AddItem(AddItem(AddItem(WithId(id), "SKU001", "Widget", 2, 19.99), "SKU001", "Widget", 3, 19.99),
                              "SKU002", "Gadget", 1, 29.99);
            |c3.items| == 2 && ItemCount(c3) == 6 && Subtotal(c3) == 129.94
  {
    var widgets := CartItem("SKU001", "Widget", 5, 19.99);
    var gadget := CartItem("SKU002", "Gadget", 1, 29.99);
    var c1 := AddItem(WithId(id), "SKU001", "Widget", 2, 19.99);
    AddToEmpty(WithId(id), "SKU001", "Widget", 2, 19.99);
    SingleLineTotals(c1.items[0]);
    var c2 := AddItem(c1, "SKU001", "Widget", 3, 19.99);
    AddToSingle(c1, 3, "Widget", 19.99);
    assert c2.items == [widgets];
    SingleLineTotals(widgets);
    var c3 := AddItem(c2, "SKU002", "Gadget", 1, 29.99);
    AddAbsent(c2, "SKU002", "Gadget", 1, 29.99);
    TotalsAppend([widgets], [gadget]);
    SingleLineTotals(gadget);
  }

  /** In a two-line cart with different SKUs, a positive update of the first
      line's SKU sets that line's quantity. */
  lemma UpdateFirstOfTwo(c: Cart, q: int)
    requires |c.items| == 2 && c.items[0].sku != c.items[1].sku && q > 0
    ensures UpdateQuantity(c, c.items[0].sku, q) == Change(c.(items := [c.items[0].(quantity := q), c.items[1]]), true)
  {
    var r := UpdateQuantity(c, c.items[0].sku, q);
    UpdateQuantitySets(c, c.items[0].sku, q, 0);
    assert r.cart.items[0] == c.items[0].(quantity := q) by {
      GetItemIsFirst(r.cart, c.items[0].sku, 0);
    }
    assert r.cart.items == [c.items[0].(quantity := q), c.items[1]];
  }

  /** Removing the SKU of a cart's first line leaves the lines after it. */
  lemma RemoveFirst(c: Cart)
    requires |c.items| > 0
    ensures RemoveItem(c, c.items[0].sku) == Change(c.(items := c.items[1..]), true)
  {
    RemoveItemDropsFirst(c, c.items[0].sku, 0);
    assert c.items[..0] + c.items[1..] == c.items[1..];
  }

  /** In a two-line cart with different SKUs: a positive update of the first
      SKU is found and sticks; setting it to zero removes it and leaves one
      line; removing the second SKU then empties the cart. */
  lemma UpdateThenRemoveBoth(c: Cart, q: int)
    requires |c.items| == 2 && c.items[0].sku != c.items[1].sku && q > 0
    ensures var x, y := c.items[0].sku, c.items[1].sku;
            var u1 := UpdateQuantity(c, x, q);
            var u2 := UpdateQuantity(u1.cart, x, 0);
            var r := RemoveItem(u2.cart, y);
            && u1.found && GetItem(u1.cart, x).Some? && GetItem(u1.cart, x).value.quantity == q
            && u2.found && |u2.cart.items| == 1 && GetItem(u2.cart, x).None?
            && r.found && IsEmpty(r.cart) && Subtotal(r.cart) == 0.0
  {
    var x := c.items[0].sku;
    var u1 := UpdateQuantity(c, x, q);
    UpdateFirstOfTwo(c, q);
    GetItemIsFirst(u1.cart, x, 0);
    var u2 := UpdateQuantity(u1.cart, x, 0);
    UpdateNonPositiveRemoves(u1.cart, x, 0);
    RemoveFirst(u1.cart);
    assert u2.cart.items == [c.items[1]];
    assert !HasSku(u2.cart.items, x);
    RemoveFirst(u2.cart);
  }

  /** Starting from five of SKU001 at 10.00 and three of SKU002 at 20.00:
      setting SKU001 to ten is found and sticks; setting it to zero removes
      it and leaves one line; removing SKU002 then empties the cart and its
      subtotal is zero. */
  lemma UpdateAndRemoveExample(id: string)
    ensures var c := AddItem(AddItem(WithId(id), "SKU001", "Widget", 5, 10.00), "SKU002", "Gadget", 3, 20.00);
            var u1 := UpdateQuantity(c, "SKU001", 10);
            var u2 := UpdateQuantity(u1.cart, "SKU001", 0);
            var r := RemoveItem(u2.cart, "SKU002");
            && u1.found && GetItem(u1.cart, "SKU001").Some? && GetItem(u1.cart, "SKU001").value.quantity == 10
            && u2.found && |u2.cart.items| == 1 && GetItem(u2.cart, "SKU001").None?
            && r.found && IsEmpty(r.cart) && Subtotal(r.cart) == 0.0
  {
    var widgets := CartItem("SKU001", "Widget", 5, 10.00);
    var gadgets := CartItem("SKU002", "Gadget", 3, 20.00);
    assert widgets.sku != gadgets.sku by { assert widgets.sku[5] != gadgets.sku[5]; }
    var c0 := AddItem(WithId(id), "SKU001", "Widget", 5, 10.00);
    AddToEmpty(WithId(id), "SKU001", "Widget", 5, 10.00);
    var c := AddItem(c0, "SKU002", "Gadget", 3, 20.00);
    AddAbsent(c0, "SKU002", "Gadget", 3, 20.00);
    assert c.items == [widgets, gadgets];
    UpdateThenRemoveBoth(c, 10);
  }
}
