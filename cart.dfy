/**
 * The cart's line operations as functions on the line sequence, the invariant
 * they keep (one line per product, every quantity at least 1) and a
 * per-product quantity view that describes them independently of positions.
 */
module Cart {
  import opened Wrappers
  import opened Catalog
  import opened Pricing

  /** Product ids in the cart are unique and every quantity is at least 1. */
  predicate WellFormedCart(items: seq<LineItem>) {
    (forall i, j :: 0 <= i < j < |items| ==> items[i].productId != items[j].productId) &&
    (forall i :: 0 <= i < |items| ==> items[i].quantity >= 1)
  }

  /** `items.find(item => item.productId === id)`, as the index of the first such line. */
  function LineIndex(items: seq<LineItem>, id: ProductId): (r: Option<nat>)
    ensures r.None? <==> !InCart(items, id)
    ensures r.Some? ==> r.value < |items| && items[r.value].productId == id &&
                        forall j :: 0 <= j < r.value ==> items[j].productId != id
    decreases |items|
  {
    if |items| == 0 then None
    else match LineIndex(items[..|items| - 1], id)
      case Some(k) => Some(k)
      case None => if items[|items| - 1].productId == id then Some(|items| - 1) else None
  }

  /** `addProductToSale` after the catalog lookup succeeded. */
  function AddItem(items: seq<LineItem>, product: Product): seq<LineItem> {
    match LineIndex(items, product.id)
    case Some(k) => items[k := items[k].(quantity := items[k].quantity + 1)]
    case None => items + [LineItem(product.id, product.name, product.price, 1, 0.0)]
  }

  /** `items.filter(i => i.productId !== id)`. */
  function WithoutLine(items: seq<LineItem>, id: ProductId): seq<LineItem>
    decreases |items|
  {
    if |items| == 0 then []
    else
      var last := items[|items| - 1];
      WithoutLine(items[..|items| - 1], id) + (if last.productId == id then [] else [last])
  }

  /** The filter keeps exactly the lines of other products. */
  lemma {:induction false} WithoutLineMembers(items: seq<LineItem>, id: ProductId)
    ensures forall x :: x in WithoutLine(items, id) <==> x in items && x.productId != id
    ensures !InCart(WithoutLine(items, id), id)
    decreases |items|
  {
    if |items| > 0 {
      var init, last := items[..|items| - 1], items[|items| - 1];
      WithoutLineMembers(init, id);
      assert items == init + [last];
      var r := WithoutLine(items, id);
      forall i | 0 <= i < |r| ensures r[i].productId != id {
        assert r[i] in r;
      }
    }
  }

  /** `updateProductQuantity` after the line was found. */
  function AdjustItems(items: seq<LineItem>, id: ProductId, change: int): seq<LineItem> {
    match LineIndex(items, id)
    case None => items
    case Some(k) =>
      var updated := items[k := items[k].(quantity := items[k].quantity + change)];
      if updated[k].quantity <= 0 then WithoutLine(updated, id) else updated
  }

  /** How many units of product `id` the cart holds, over all its lines. */
  function QuantityOf(items: seq<LineItem>, id: ProductId): int
    decreases |items|
  {
    if |items| == 0 then 0
    else QuantityOf(items[..|items| - 1], id) + (if items[|items| - 1].productId == id then items[|items| - 1].quantity else 0)
  }

  // ---------------------------------------------------------------------
  // Helper facts about the quantity view

  lemma SnocPrefix(items: seq<LineItem>, x: LineItem)
    ensures (items + [x])[..|items|] == items && (items + [x])[|items|] == x
  {
  }

  lemma {:induction false} QuantityOfAbsent(items: seq<LineItem>, id: ProductId)
    requires !InCart(items, id)
    ensures QuantityOf(items, id) == 0
    decreases |items|
  {
    if |items| > 0 {
      var init := items[..|items| - 1];
      assert forall i :: 0 <= i < |init| ==> init[i] == items[i];
      QuantityOfAbsent(init, id);
    }
  }

  /** With one line per product, a product's quantity is that of its line. */
  lemma {:induction false} QuantityOfUniqueLine(items: seq<LineItem>, k: nat)
    requires WellFormedCart(items) && k < |items|
    ensures QuantityOf(items, items[k].productId) == items[k].quantity
    decreases |items|
  {
    var init := items[..|items| - 1];
    assert WellFormedCart(init);
    if k == |items| - 1 {
      assert !InCart(init, items[k].productId);
      QuantityOfAbsent(init, items[k].productId);
    } else {
      QuantityOfUniqueLine(init, k);
    }
  }

  /** Changing one line's quantity (not its product) shifts that product's total by the difference. */
  lemma {:induction false} QuantityOfUpdate(items: seq<LineItem>, k: nat, q: int, id: ProductId)
    requires k < |items|
    ensures QuantityOf(items[k := items[k].(quantity := q)], id) ==
            QuantityOf(items, id) + (if items[k].productId == id then q - items[k].quantity else 0)
    decreases |items|
  {
    var updated := items[k := items[k].(quantity := q)];
    var init := items[..|items| - 1];
    if k == |items| - 1 {
      assert updated[..|updated| - 1] == init;
    } else {
      assert updated[..|updated| - 1] == init[k := init[k].(quantity := q)];
      QuantityOfUpdate(init, k, q, id);
    }
  }

  lemma {:induction false} QuantityOfWithoutLine(items: seq<LineItem>, id: ProductId, other: ProductId)
    ensures QuantityOf(WithoutLine(items, id), other) == if other == id then 0 else QuantityOf(items, other)
    decreases |items|
  {
    if other == id {
      WithoutLineMembers(items, id);
      QuantityOfAbsent(WithoutLine(items, id), id);
    } else if |items| > 0 {
      var init := items[..|items| - 1];
      var last := items[|items| - 1];
      QuantityOfWithoutLine(init, id, other);
      if last.productId != id {
        assert WithoutLine(items, id) == WithoutLine(init, id) + [last];
        SnocPrefix(WithoutLine(init, id), last);
      } else {
        assert WithoutLine(init, id) + [] == WithoutLine(init, id);
        assert WithoutLine(items, id) == WithoutLine(init, id);
      }
    }
  }

  lemma {:induction false} WellFormedWithoutLine(items: seq<LineItem>, id: ProductId)
    requires WellFormedCart(items)
    ensures WellFormedCart(WithoutLine(items, id))
    decreases |items|
  {
    if |items| > 0 {
      var init := items[..|items| - 1];
      var last := items[|items| - 1];
      assert WellFormedCart(init);
      WellFormedWithoutLine(init, id);
      WithoutLineMembers(init, id);
      var rest := WithoutLine(init, id);
      if last.productId != id {
        var r := rest + [last];
        forall i, j | 0 <= i < j < |r| ensures r[i].productId != r[j].productId {
          if j == |r| - 1 {
            assert r[i] in rest;
            assert r[i] in init;
            var m :| 0 <= m < |init| && init[m] == r[i];
            assert items[m] == r[i];
          } else {
            assert r[i] == rest[i] && r[j] == rest[j];
          }
        }
        forall i | 0 <= i < |r| ensures r[i].quantity >= 1 {
          if i < |rest| {
            assert r[i] in rest;
            assert r[i] in init;
          }
        }
      }
    }
  }

  // ---------------------------------------------------------------------
  // The operations

  /**
   * Adding a catalog product increments its line when the cart already has
   * one (every other line unchanged) and otherwise appends one line of
   * quantity 1 with the product's name and price as snapshot. Seen as
   * quantities, the product gains exactly one unit; the cart stays well formed.
   */
  lemma AddItemEffect(items: seq<LineItem>, product: Product)
    ensures var r := AddItem(items, product);
      (InCart(items, product.id) ==>
         (|r| == |items| && forall j :: 0 <= j < |items| && items[j].productId != product.id ==> r[j] == items[j])) &&
      (LineIndex(items, product.id).Some? ==>
         var k := LineIndex(items, product.id).value;
         r == items[k := items[k].(quantity := items[k].quantity + 1)]) &&
      (!InCart(items, product.id) ==>
         r == items + [LineItem(product.id, product.name, product.price, 1, 0.0)])
    ensures forall id :: QuantityOf(AddItem(items, product), id) == QuantityOf(items, id) + (if id == product.id then 1 else 0)
    ensures WellFormedCart(items) ==> WellFormedCart(AddItem(items, product))
  {
    AddItemShape(items, product);
    AddItemQuantities(items, product);
    if WellFormedCart(items) {
      AddItemWellFormed(items, product);
    }
  }

  lemma AddItemShape(items: seq<LineItem>, product: Product)
    ensures var r := AddItem(items, product);
      (InCart(items, product.id) ==>
         (|r| == |items| && forall j :: 0 <= j < |items| && items[j].productId != product.id ==> r[j] == items[j])) &&
      (LineIndex(items, product.id).Some? ==>
         var k := LineIndex(items, product.id).value;
         r == items[k := items[k].(quantity := items[k].quantity + 1)]) &&
      (!InCart(items, product.id) ==>
         r == items + [LineItem(product.id, product.name, product.price, 1, 0.0)])
  {
    match LineIndex(items, product.id)
    case Some(k) =>
    case None =>
  }

  lemma AddItemQuantities(items: seq<LineItem>, product: Product)
    ensures forall id :: QuantityOf(AddItem(items, product), id) == QuantityOf(items, id) + (if id == product.id then 1 else 0)
  {
    var r := AddItem(items, product);
    match LineIndex(items, product.id)
    case Some(k) =>
      forall id ensures QuantityOf(r, id) == QuantityOf(items, id) + (if id == product.id then 1 else 0) {
        QuantityOfUpdate(items, k, items[k].quantity + 1, id);
      }
    case None =>
      var x := LineItem(product.id, product.name, product.price, 1, 0.0);
      SnocPrefix(items, x);
      assert r[..|items|] == items && r[|items|] == x;
  }

  lemma AddItemWellFormed(items: seq<LineItem>, product: Product)
    requires WellFormedCart(items)
    ensures WellFormedCart(AddItem(items, product))
  {
    var r := AddItem(items, product);
    match LineIndex(items, product.id)
    case Some(k) =>
      assert forall j :: 0 <= j < |r| ==> r[j].productId == items[j].productId;
    case None =>
      var x := LineItem(product.id, product.name, product.price, 1, 0.0);
      assert forall j :: 0 <= j < |items| ==> r[j] == items[j];
      assert forall j :: 0 <= j < |items| ==> items[j].productId != product.id;
      assert r[|items|] == x;
  }

  /**
   * Adjusting a product absent from the cart changes nothing. Otherwise the
   * product's quantity moves by `change`, and when that leaves it at 0 or
   * below its line is removed (the remaining lines in their old order);
   * every other product keeps its quantity and the cart stays well formed.
   */
  lemma AdjustItemsEffect(items: seq<LineItem>, id: ProductId, change: int)
    requires WellFormedCart(items)
    ensures WellFormedCart(AdjustItems(items, id, change))
    ensures !InCart(items, id) ==> AdjustItems(items, id, change) == items
    ensures InCart(items, id) && QuantityOf(items, id) + change <= 0 ==>
      AdjustItems(items, id, change) == WithoutLine(items, id) && !InCart(AdjustItems(items, id, change), id)
    ensures InCart(items, id) && QuantityOf(items, id) + change > 0 ==>
      |AdjustItems(items, id, change)| == |items|
    ensures InCart(items, id) ==>
      (QuantityOf(AdjustItems(items, id, change), id) ==
       if QuantityOf(items, id) + change <= 0 then 0 else QuantityOf(items, id) + change)
    ensures forall other :: other != id ==> QuantityOf(AdjustItems(items, id, change), other) == QuantityOf(items, other)
  {
    match LineIndex(items, id)
    case None =>
      QuantityOfAbsent(items, id);
    case Some(k) =>
      QuantityOfUniqueLine(items, k);
      if items[k].quantity + change <= 0 {
        AdjustRemovesLine(items, k, id, change);
        WithoutLineMembers(items, id);
        WellFormedWithoutLine(items, id);
        forall other ensures QuantityOf(WithoutLine(items, id), other) == if other == id then 0 else QuantityOf(items, other) {
          QuantityOfWithoutLine(items, id, other);
        }
      } else {
        AdjustKeepsLine(items, k, id, change);
      }
  }

  lemma AdjustRemovesLine(items: seq<LineItem>, k: nat, id: ProductId, change: int)
    requires LineIndex(items, id) == Some(k)
    requires items[k].quantity + change <= 0
    ensures AdjustItems(items, id, change) == WithoutLine(items, id)
  {
    AdjustFiltersUpdated(items, k, id, change);
    RemovedLineQuantityIrrelevant(items, k, id, change);
  }

  /** At 0 or below, the script filters the cart AFTER writing the new quantity into the line. */
  lemma AdjustFiltersUpdated(items: seq<LineItem>, k: nat, id: ProductId, change: int)
    requires LineIndex(items, id) == Some(k)
    requires items[k].quantity + change <= 0
    ensures AdjustItems(items, id, change) == WithoutLine(items[k := items[k].(quantity := items[k].quantity + change)], id)
  {
  }

  /** ... which gives the same cart as filtering before the write. */
  lemma RemovedLineQuantityIrrelevant(items: seq<LineItem>, k: nat, id: ProductId, change: int)
    requires LineIndex(items, id) == Some(k)
    ensures WithoutLine(items[k := items[k].(quantity := items[k].quantity + change)], id) == WithoutLine(items, id)
  {
    WithoutLineIgnoresOwnLine(items, k, id, items[k].quantity + change);
  }

  lemma AdjustKeepsLine(items: seq<LineItem>, k: nat, id: ProductId, change: int)
    requires WellFormedCart(items) && LineIndex(items, id) == Some(k) && items[k].quantity + change > 0
    ensures AdjustItems(items, id, change) == items[k := items[k].(quantity := items[k].quantity + change)]
    ensures WellFormedCart(items[k := items[k].(quantity := items[k].quantity + change)])
    ensures forall other :: (QuantityOf(items[k := items[k].(quantity := items[k].quantity + change)], other) ==
      QuantityOf(items, other) + (if other == id then change else 0))
  {
    forall other ensures QuantityOf(items[k := items[k].(quantity := items[k].quantity + change)], other) ==
      QuantityOf(items, other) + (if other == id then change else 0) {
      QuantityOfUpdate(items, k, items[k].quantity + change, other);
    }
  }

  /** Filtering out a product does not look at that product's lines' quantities. */
  lemma {:induction false} WithoutLineIgnoresOwnLine(items: seq<LineItem>, k: nat, id: ProductId, q: int)
    requires k < |items| && items[k].productId == id
    ensures WithoutLine(items[k := items[k].(quantity := q)], id) == WithoutLine(items, id)
    decreases |items|
  {
    var updated := items[k := items[k].(quantity := q)];
    var n := |items| - 1;
    if k < n {
      assert updated[..n] == items[..n][k := items[k].(quantity := q)];
      WithoutLineIgnoresOwnLine(items[..n], k, id, q);
      assert updated[n] == items[n];
    } else {
      assert updated[..n] == items[..n];
      assert updated[n].productId == id;
    }
  }

  /** The quantity view reads only product ids and quantities. */
  lemma {:induction false} SameLinesSameQuantities(a: seq<LineItem>, b: seq<LineItem>, id: ProductId)
    requires SameLines(a, b)
    ensures QuantityOf(a, id) == QuantityOf(b, id)
    decreases |a|
  {
    if |a| > 0 {
      SameLinesSameQuantities(a[..|a| - 1], b[..|b| - 1], id);
    }
  }

  /** Pricing keeps the cart's ids and quantities, hence its well-formedness. */
  lemma PricingKeepsWellFormed(items: seq<LineItem>, products: seq<Product>, rules: seq<DiscountRule>)
    requires BundleSizesNonZero(rules) && WellFormedCart(items)
    ensures WellFormedCart(PriceLines(items, products, rules, items))
  {
    var lines := PriceLines(items, products, rules, items);
    assert forall i :: 0 <= i < |lines| ==> lines[i].productId == items[i].productId && lines[i].quantity == items[i].quantity;
  }

  /** Pricing keeps every product's quantity. */
  lemma PricingKeepsQuantities(sale: Sale, products: seq<Product>, rules: seq<DiscountRule>)
    requires BundleSizesNonZero(rules)
    ensures forall id :: QuantityOf(Priced(sale, products, rules).items, id) == QuantityOf(sale.items, id)
  {
    PricedTotalsAreConsistent(sale, products, rules);
    forall id ensures QuantityOf(Priced(sale, products, rules).items, id) == QuantityOf(sale.items, id) {
      SameLinesSameQuantities(Priced(sale, products, rules).items, sale.items, id);
    }
  }

  /** After an adjustment and a pricing pass, the adjusted product's quantity has moved by `change` (to 0 when the line went) and nothing else has. */
  lemma AdjustedSaleQuantities(sale: Sale, id: ProductId, change: int, products: seq<Product>, rules: seq<DiscountRule>)
    requires BundleSizesNonZero(rules) && WellFormedCart(sale.items) && InCart(sale.items, id)
    ensures var after := Priced(sale.(items := AdjustItems(sale.items, id, change)), products, rules).items;
      var q := QuantityOf(sale.items, id) + change;
      QuantityOf(after, id) == (if q <= 0 then 0 else q) &&
      forall other :: other != id ==> QuantityOf(after, other) == QuantityOf(sale.items, other)
  {
    AdjustItemsEffect(sale.items, id, change);
    PricingKeepsQuantities(sale.(items := AdjustItems(sale.items, id, change)), products, rules);
  }
}
