/**
 * The pricing pass: how one cart is priced against the catalog.
 * Every sum is a left fold (the order `forEach` accumulates in), so each
 * function below is defined from the last element back.
 */
module Pricing {
  import opened Wrappers
  import opened Catalog

  /** One cart row; `price` and `name` are snapshots taken when the line was created. */
  datatype LineItem = LineItem(productId: ProductId, name: string, price: real, quantity: int, discountApplied: real)

  datatype PaymentMethod = Cash | Card | Venmo

  /** The sale in progress. */
  datatype Sale = Sale(items: seq<LineItem>, paymentMethod: PaymentMethod, subtotal: real, discount: real, total: real)

  /** The fresh sale `clearCurrentSale` installs. */
  const ClearedSale := Sale([], Cash, 0.0, 0.0, 0.0)

  /** `items.some(i => i.productId === id)`. */
  predicate InCart(items: seq<LineItem>, id: ProductId) {
    exists i :: 0 <= i < |items| && items[i].productId == id
  }

  /** `Math.floor(a / b)` on integers. */
  function FloorDiv(a: int, b: int): (q: int)
    requires b != 0
    ensures b > 0 ==> q * b <= a < q * b + b
    ensures b < 0 ==> q * b + b < a <= q * b
  {
    if b > 0 then a / b else (-a) / (-b)
  }

  /** What one rule takes off a line of `qty` units at unit price `price`. */
  function RuleAmount(kind: DiscountKind, price: real, qty: int, cart: seq<LineItem>): (r: real)
    requires kind.Bundle? ==> kind.quantity != 0
    ensures qty == 0 ==> r == 0.0
    ensures kind.Fixed? && kind.withProduct.Some? && !InCart(cart, kind.withProduct.value) ==> r == 0.0
  {
    match kind
    case Bundle(size, bundlePrice) =>
      var count := FloorDiv(qty, size);
      if count > 0 then (price * size as real - bundlePrice) * count as real else 0.0
    case Percentage(pct) =>
      if qty >= 1 then (price * qty as real) * (pct as real / 100.0) else 0.0
    case Fixed(amount, withProduct) =>
      if qty >= 1 && (withProduct.None? || InCart(cart, withProduct.value)) then amount * qty as real else 0.0
  }

  /** The sum, in catalog order, of every rule that targets `product`. */
  function LineDiscount(rules: seq<DiscountRule>, product: Product, qty: int, cart: seq<LineItem>): (r: real)
    requires BundleSizesNonZero(rules)
    ensures qty == 0 ==> r == 0.0
    decreases |rules|
  {
    if |rules| == 0 then 0.0
    else
      var last := rules[|rules| - 1];
      assert last in rules;
      LineDiscount(rules[..|rules| - 1], product, qty, cart) +
        (if last.productId == product.id then RuleAmount(last.kind, product.price, qty, cart) else 0.0)
  }

  /** The discount a line ends with; 0 when its product is no longer in the catalog. */
  function ItemDiscount(item: LineItem, products: seq<Product>, rules: seq<DiscountRule>, cart: seq<LineItem>): real
    requires BundleSizesNonZero(rules)
  {
    match FindProduct(products, item.productId)
    case None => 0.0
    case Some(p) => LineDiscount(rules, p, item.quantity, cart)
  }

  /** What a line adds to the subtotal: the LIVE catalog price times its quantity. */
  function LineSubtotal(item: LineItem, products: seq<Product>): real {
    match FindProduct(products, item.productId)
    case None => 0.0
    case Some(p) => p.price * item.quantity as real
  }

  function PricedLine(item: LineItem, products: seq<Product>, rules: seq<DiscountRule>, cart: seq<LineItem>): LineItem
    requires BundleSizesNonZero(rules)
  {
    item.(discountApplied := ItemDiscount(item, products, rules, cart))
  }

  /** Every line of `items` priced, with `cart` as the cart the companion tests look at. */
  function PriceLines(items: seq<LineItem>, products: seq<Product>, rules: seq<DiscountRule>, cart: seq<LineItem>): seq<LineItem>
    requires BundleSizesNonZero(rules)
  {
    seq(|items|, i requires 0 <= i < |items| => PricedLine(items[i], products, rules, cart))
  }

  function Subtotal(items: seq<LineItem>, products: seq<Product>): real
    decreases |items|
  {
    if |items| == 0 then 0.0
    else Subtotal(items[..|items| - 1], products) + LineSubtotal(items[|items| - 1], products)
  }

  function TotalDiscount(items: seq<LineItem>, products: seq<Product>, rules: seq<DiscountRule>, cart: seq<LineItem>): real
    requires BundleSizesNonZero(rules)
    decreases |items|
  {
    if |items| == 0 then 0.0
    else TotalDiscount(items[..|items| - 1], products, rules, cart) + ItemDiscount(items[|items| - 1], products, rules, cart)
  }

  /** The sum of the lines' own `discountApplied` fields. */
  function SumApplied(items: seq<LineItem>): real
    decreases |items|
  {
    if |items| == 0 then 0.0 else SumApplied(items[..|items| - 1]) + items[|items| - 1].discountApplied
  }

  /** The sale after a pricing pass over its own lines. */
  function Priced(sale: Sale, products: seq<Product>, rules: seq<DiscountRule>): (s: Sale)
    requires BundleSizesNonZero(rules)
  {
    var subtotal := Subtotal(sale.items, products);
    var discount := TotalDiscount(sale.items, products, rules, sale.items);
    sale.(items := PriceLines(sale.items, products, rules, sale.items),
          subtotal := subtotal, discount := discount, total := subtotal - discount)
  }

  /**
   * The inner loop of the pricing pass: every rule aimed at `product`, in
   * catalog order, added to the line's discount and to the running total.
   * A combo rule is added first and taken back out when its companion is
   * not a line of `cart`.
   */
  method ApplyDiscounts(rules: seq<DiscountRule>, product: Product, qty: int, cart: seq<LineItem>, discountSoFar: real)
    returns (applied: real, totalDiscount: real)
    requires BundleSizesNonZero(rules)
    ensures applied == LineDiscount(rules, product, qty, cart)
    ensures totalDiscount == discountSoFar + applied
  {
    applied, totalDiscount := 0.0, discountSoFar;
    var j := 0;
    while j < |rules|
      invariant 0 <= j <= |rules|
      invariant applied == LineDiscount(rules[..j], product, qty, cart)
      invariant totalDiscount == discountSoFar + applied
    {
      var d := rules[j];
      assert d in rules;
      assert rules[..j + 1][..j] == rules[..j];
      if d.productId == product.id {
        match d.kind {
          case Bundle(size, bundlePrice) =>
            var count := FloorDiv(qty, size);
            if count > 0 {
              var amount := (product.price * size as real - bundlePrice) * count as real;
              applied := applied + amount;
              totalDiscount := totalDiscount + amount;
            }
          case Percentage(pct) =>
            if qty >= 1 {
              var amount := (product.price * qty as real) * (pct as real / 100.0);
              applied := applied + amount;
              totalDiscount := totalDiscount + amount;
            }
          case Fixed(perUnit, withProduct) =>
            if qty >= 1 {
              var amount := perUnit * qty as real;
              applied := applied + amount;
              totalDiscount := totalDiscount + amount;
              if withProduct.Some? && !InCart(cart, withProduct.value) {
                totalDiscount := totalDiscount - amount;
                applied := applied - amount;
              }
            }
        }
      }
      j := j + 1;
    }
    assert rules[..|rules|] == rules;
  }

  /**
   * The outer loop of the pricing pass over the cart `items`: each line's
   * discount is reset, then, when its product is still in the catalog, the
   * line adds live price times quantity to the subtotal and gets the rules'
   * discount. The companion tests look at the cart as it is being rewritten,
   * which has the same products and quantities throughout.
   */
  method PriceCart(items: seq<LineItem>, products: seq<Product>, rules: seq<DiscountRule>)
    returns (lines: seq<LineItem>, subtotal: real, totalDiscount: real)
    requires BundleSizesNonZero(rules)
    ensures lines == PriceLines(items, products, rules, items)
    ensures subtotal == Subtotal(items, products)
    ensures totalDiscount == TotalDiscount(items, products, rules, items)
  {
    lines, subtotal, totalDiscount := items, 0.0, 0.0;
    var i := 0;
    while i < |lines|
      invariant 0 <= i <= |lines| && SameLines(lines, items)
      invariant forall k :: 0 <= k < i ==> lines[k] == PricedLine(items[k], products, rules, items)
      invariant forall k :: i <= k < |lines| ==> lines[k] == items[k]
      invariant subtotal == Subtotal(items[..i], products)
      invariant totalDiscount == TotalDiscount(items[..i], products, rules, items)
    {
      var item := lines[i].(discountApplied := 0.0);
      lines := lines[i := item];
      PrefixStep(items, products, rules, items, i);
      var product := FindProduct(products, item.productId);
      if product.Some? {
        var p := product.value;
        subtotal := subtotal + p.price * item.quantity as real;
        var applied;
        applied, totalDiscount := ApplyDiscounts(rules, p, item.quantity, lines, totalDiscount);
        LineDiscountCartIndependent(rules, p, item.quantity, lines, items);
        lines := lines[i := item.(discountApplied := applied)];
      }
      i := i + 1;
    }
    assert items[..|items|] == items;
  }

  /** Two carts with the same product ids and quantities, line by line. */
  predicate SameLines(a: seq<LineItem>, b: seq<LineItem>) {
    |a| == |b| &&
    forall i :: 0 <= i < |a| ==> a[i].productId == b[i].productId && a[i].quantity == b[i].quantity
  }

  // ---------------------------------------------------------------------
  // Totals of a priced sale

  lemma {:induction false} SumAppliedOfPriceLines(items: seq<LineItem>, products: seq<Product>, rules: seq<DiscountRule>, cart: seq<LineItem>)
    requires BundleSizesNonZero(rules)
    ensures SumApplied(PriceLines(items, products, rules, cart)) == TotalDiscount(items, products, rules, cart)
    decreases |items|
  {
    if |items| > 0 {
      var init := items[..|items| - 1];
      SumAppliedOfPriceLines(init, products, rules, cart);
      var lines := PriceLines(items, products, rules, cart);
      assert lines[..|lines| - 1] == PriceLines(init, products, rules, cart);
    }
  }

  /**
   * After a pricing pass the sale's discount is the sum of its lines'
   * discounts and its total is subtotal minus discount (neither clamped).
   */
  lemma PricedTotalsAreConsistent(sale: Sale, products: seq<Product>, rules: seq<DiscountRule>)
    requires BundleSizesNonZero(rules)
    ensures var s := Priced(sale, products, rules);
      s.discount == SumApplied(s.items) && s.total == s.subtotal - s.discount &&
      SameLines(s.items, sale.items) && s.paymentMethod == sale.paymentMethod
  {
    SumAppliedOfPriceLines(sale.items, products, rules, sale.items);
  }

  // ---------------------------------------------------------------------
  // Pricing looks only at product ids and quantities

  lemma SameLinesSameInCart(a: seq<LineItem>, b: seq<LineItem>, id: ProductId)
    requires SameLines(a, b)
    ensures InCart(a, id) <==> InCart(b, id)
  {
    if InCart(a, id) {
      var i :| 0 <= i < |a| && a[i].productId == id;
      assert b[i].productId == id;
    }
    if InCart(b, id) {
      var i :| 0 <= i < |b| && b[i].productId == id;
      assert a[i].productId == id;
    }
  }

  lemma {:induction false} LineDiscountCartIndependent(rules: seq<DiscountRule>, product: Product, qty: int, c1: seq<LineItem>, c2: seq<LineItem>)
    requires BundleSizesNonZero(rules)
    requires SameLines(c1, c2)
    ensures LineDiscount(rules, product, qty, c1) == LineDiscount(rules, product, qty, c2)
    decreases |rules|
  {
    if |rules| > 0 {
      LineDiscountCartIndependent(rules[..|rules| - 1], product, qty, c1, c2);
      var last := rules[|rules| - 1];
      if last.kind.Fixed? && last.kind.withProduct.Some? {
        SameLinesSameInCart(c1, c2, last.kind.withProduct.value);
      }
    }
  }

  lemma {:induction false} TotalsDependOnlyOnLines(a: seq<LineItem>, b: seq<LineItem>, products: seq<Product>, rules: seq<DiscountRule>, c1: seq<LineItem>, c2: seq<LineItem>)
    requires BundleSizesNonZero(rules)
    requires SameLines(a, b) && SameLines(c1, c2)
    ensures Subtotal(a, products) == Subtotal(b, products)
    ensures TotalDiscount(a, products, rules, c1) == TotalDiscount(b, products, rules, c2)
    ensures forall i :: 0 <= i < |a| ==> ItemDiscount(a[i], products, rules, c1) == ItemDiscount(b[i], products, rules, c2)
    decreases |a|
  {
    forall i | 0 <= i < |a| ensures ItemDiscount(a[i], products, rules, c1) == ItemDiscount(b[i], products, rules, c2) {
      match FindProduct(products, a[i].productId)
      case None =>
      case Some(p) => LineDiscountCartIndependent(rules, p, a[i].quantity, c1, c2);
    }
    if |a| > 0 {
      TotalsDependOnlyOnLines(a[..|a| - 1], b[..|b| - 1], products, rules, c1, c2);
    }
  }

  /**
   * The snapshot price and name stored on a line, and any discount left on it
   * by an earlier pass, do not influence pricing: two carts with the same
   * product ids and quantities price identically.
   */
  lemma PricingDependsOnlyOnIdsAndQuantities(s1: Sale, s2: Sale, products: seq<Product>, rules: seq<DiscountRule>)
    requires BundleSizesNonZero(rules)
    requires SameLines(s1.items, s2.items)
    ensures Priced(s1, products, rules).subtotal == Priced(s2, products, rules).subtotal
    ensures Priced(s1, products, rules).discount == Priced(s2, products, rules).discount
    ensures Priced(s1, products, rules).total == Priced(s2, products, rules).total
    ensures forall i :: 0 <= i < |s1.items| ==>
      Priced(s1, products, rules).items[i].discountApplied == Priced(s2, products, rules).items[i].discountApplied
  {
    TotalsDependOnlyOnLines(s1.items, s2.items, products, rules, s1.items, s2.items);
  }

  /** Pricing twice gives the sale pricing once gives. */
  lemma PricingIsIdempotent(sale: Sale, products: seq<Product>, rules: seq<DiscountRule>)
    requires BundleSizesNonZero(rules)
    ensures Priced(Priced(sale, products, rules), products, rules) == Priced(sale, products, rules)
  {
    var once := Priced(sale, products, rules);
    assert SameLines(once.items, sale.items);
    TotalsDependOnlyOnLines(once.items, sale.items, products, rules, once.items, sale.items);
    var twice := Priced(once, products, rules);
    assert twice.items == once.items;
  }

  // ---------------------------------------------------------------------
  // Dangling lines

  /** One more line of the pass: both running totals grow by that line's share. */
  lemma PrefixStep(items: seq<LineItem>, products: seq<Product>, rules: seq<DiscountRule>, cart: seq<LineItem>, i: nat)
    requires BundleSizesNonZero(rules) && i < |items|
    ensures Subtotal(items[..i + 1], products) == Subtotal(items[..i], products) + LineSubtotal(items[i], products)
    ensures TotalDiscount(items[..i + 1], products, rules, cart) ==
            TotalDiscount(items[..i], products, rules, cart) + ItemDiscount(items[i], products, rules, cart)
  {
    assert items[..i + 1][..i] == items[..i];
  }

  lemma {:induction false} SubtotalAppend(a: seq<LineItem>, b: seq<LineItem>, products: seq<Product>)
    ensures Subtotal(a + b, products) == Subtotal(a, products) + Subtotal(b, products)
    decreases |b|
  {
    if |b| == 0 {
      assert a + b == a;
    } else {
      SubtotalAppend(a, b[..|b| - 1], products);
      assert (a + b)[..|a + b| - 1] == a + b[..|b| - 1];
    }
  }

  lemma {:induction false} TotalDiscountAppend(a: seq<LineItem>, b: seq<LineItem>, products: seq<Product>, rules: seq<DiscountRule>, cart: seq<LineItem>)
    requires BundleSizesNonZero(rules)
    ensures TotalDiscount(a + b, products, rules, cart) == TotalDiscount(a, products, rules, cart) + TotalDiscount(b, products, rules, cart)
    decreases |b|
  {
    if |b| == 0 {
      assert a + b == a;
    } else {
      TotalDiscountAppend(a, b[..|b| - 1], products, rules, cart);
      assert (a + b)[..|a + b| - 1] == a + b[..|b| - 1];
    }
  }

  /**
   * A line whose product is no longer in the catalog ends with no discount and
   * adds nothing: the subtotal and discount are those of the cart without it
   * (companion tests still see it as a line of the cart).
   */
  lemma DanglingLineContributesNothing(items: seq<LineItem>, k: nat, products: seq<Product>, rules: seq<DiscountRule>)
    requires BundleSizesNonZero(rules)
    requires k < |items| && FindProduct(products, items[k].productId).None?
    ensures PriceLines(items, products, rules, items)[k].discountApplied == 0.0
    ensures Subtotal(items, products) == Subtotal(items[..k] + items[k + 1..], products)
    ensures TotalDiscount(items, products, rules, items) == TotalDiscount(items[..k] + items[k + 1..], products, rules, items)
  {
    var before, line, after := items[..k], [items[k]], items[k + 1..];
    assert items == before + line + after;
    SubtotalAppend(before + line, after, products);
    SubtotalAppend(before, line, products);
    SubtotalAppend(before, after, products);
    assert line[..0] == [];
    TotalDiscountAppend(before + line, after, products, rules, items);
    TotalDiscountAppend(before, line, products, rules, items);
    TotalDiscountAppend(before, after, products, rules, items);
  }

  // ---------------------------------------------------------------------
  // The rules

  /** Rules on one product add up: pricing with `r1 + r2` takes off both amounts. */
  lemma {:induction false} LineDiscountAppend(r1: seq<DiscountRule>, r2: seq<DiscountRule>, product: Product, qty: int, cart: seq<LineItem>)
    requires BundleSizesNonZero(r1) && BundleSizesNonZero(r2)
    ensures BundleSizesNonZero(r1 + r2)
    ensures LineDiscount(r1 + r2, product, qty, cart) == LineDiscount(r1, product, qty, cart) + LineDiscount(r2, product, qty, cart)
    decreases |r2|
  {
    if |r2| == 0 {
      assert r1 + r2 == r1;
    } else {
      LineDiscountAppend(r1, r2[..|r2| - 1], product, qty, cart);
      assert (r1 + r2)[..|r1 + r2| - 1] == r1 + r2[..|r2| - 1];
    }
  }

  /** Rules aimed at other products take nothing off this line. */
  lemma {:induction false} OtherProductsRulesIgnored(rules: seq<DiscountRule>, product: Product, qty: int, cart: seq<LineItem>)
    requires BundleSizesNonZero(rules)
    requires forall r :: r in rules ==> r.productId != product.id
    ensures LineDiscount(rules, product, qty, cart) == 0.0
    decreases |rules|
  {
    if |rules| > 0 {
      var init := rules[..|rules| - 1];
      assert forall r :: r in init ==> r in rules;
      OtherProductsRulesIgnored(init, product, qty, cart);
    }
  }

  /**
   * A bundle of `size` units at `bundlePrice` takes (price*size - bundlePrice)
   * off per complete bundle, nothing when fewer than `size` units are bought,
   * and is not clamped: a bundle price above the nominal price ADDS to the line.
   */
  lemma BundleAmount(size: int, bundlePrice: real, price: real, qty: int, cart: seq<LineItem>)
    requires size > 0 && qty >= 0
    ensures RuleAmount(Bundle(size, bundlePrice), price, qty, cart) == (price * size as real - bundlePrice) * (qty / size) as real
    ensures qty < size ==> RuleAmount(Bundle(size, bundlePrice), price, qty, cart) == 0.0
    ensures qty >= size && bundlePrice > price * size as real ==> RuleAmount(Bundle(size, bundlePrice), price, qty, cart) < 0.0
  {
    var count := qty / size;
    WholeBundles(qty, size);
    assert FloorDiv(qty, size) == count;
    if count == 0 {
      assert RuleAmount(Bundle(size, bundlePrice), price, qty, cart) == 0.0;
    } else {
      assert RuleAmount(Bundle(size, bundlePrice), price, qty, cart) == (price * size as real - bundlePrice) * count as real;
      if bundlePrice > price * size as real {
        NegativeTimesCount(price * size as real - bundlePrice, count);
      }
    }
  }

  /** Fewer units than a bundle make no bundle; at least that many make one or more. */
  lemma WholeBundles(qty: int, size: int)
    requires size > 0 && qty >= 0
    ensures qty / size >= 0
    ensures qty < size ==> qty / size == 0
    ensures qty >= size ==> qty / size >= 1
  {
    var q, r := qty / size, qty % size;
    assert qty == size * q + r && 0 <= r < size;
    if q >= 1 {
      assert size * q >= size;
    }
  }

  lemma NegativeTimesCount(x: real, n: int)
    requires x < 0.0 && n >= 1
    ensures x * n as real < 0.0
  {
  }

  /** One more rule at the end of the catalog adds its own amount, when it targets this product. */
  lemma RuleAppendAdds(rules: seq<DiscountRule>, rule: DiscountRule, product: Product, qty: int, cart: seq<LineItem>)
    requires BundleSizesNonZero(rules) && (rule.kind.Bundle? ==> rule.kind.quantity != 0)
    ensures BundleSizesNonZero(rules + [rule])
    ensures LineDiscount(rules + [rule], product, qty, cart) ==
      LineDiscount(rules, product, qty, cart) +
      (if rule.productId == product.id then RuleAmount(rule.kind, product.price, qty, cart) else 0.0)
  {
    var all := rules + [rule];
    assert forall r :: r in all ==> r in rules || r == rule;
    assert all[..|rules|] == rules && all[|rules|] == rule;
  }

  /**
   * Adding a bundle rule for the product to any catalog raises the line's
   * discount by (price*size - bundlePrice) per complete bundle.
   */
  lemma BundleRuleAdds(rules: seq<DiscountRule>, rule: DiscountRule, product: Product, qty: int, cart: seq<LineItem>)
    requires BundleSizesNonZero(rules) && rule.productId == product.id
    requires rule.kind.Bundle? && rule.kind.quantity > 0 && qty >= 0
    ensures BundleSizesNonZero(rules + [rule])
    ensures LineDiscount(rules + [rule], product, qty, cart) ==
      LineDiscount(rules, product, qty, cart) +
      (product.price * rule.kind.quantity as real - rule.kind.price) * (qty / rule.kind.quantity) as real
  {
    RuleAppendAdds(rules, rule, product, qty, cart);
    BundleAmount(rule.kind.quantity, rule.kind.price, product.price, qty, cart);
  }

  /**
   * Adding a percentage rule for the product to any catalog raises the
   * line's discount by pct/100 of the line's live-price value.
   */
  lemma PercentageRuleAdds(rules: seq<DiscountRule>, rule: DiscountRule, product: Product, qty: int, cart: seq<LineItem>)
    requires BundleSizesNonZero(rules) && rule.productId == product.id
    requires rule.kind.Percentage? && qty >= 1
    ensures BundleSizesNonZero(rules + [rule])
    ensures LineDiscount(rules + [rule], product, qty, cart) * 100.0 ==
      LineDiscount(rules, product, qty, cart) * 100.0 + product.price * qty as real * rule.kind.percentage as real
  {
    RuleAppendAdds(rules, rule, product, qty, cart);
  }

  /**
   * Adding a fixed rule for the product to any catalog raises the line's
   * discount by amount*qty when the rule has no companion or the companion
   * is a line of the cart, and leaves it unchanged otherwise.
   */
  lemma FixedRuleAdds(rules: seq<DiscountRule>, rule: DiscountRule, product: Product, qty: int, cart: seq<LineItem>)
    requires BundleSizesNonZero(rules) && rule.productId == product.id
    requires rule.kind.Fixed? && qty >= 1
    ensures BundleSizesNonZero(rules + [rule])
    ensures rule.kind.withProduct.None? || InCart(cart, rule.kind.withProduct.value) ==>
      LineDiscount(rules + [rule], product, qty, cart) == LineDiscount(rules, product, qty, cart) + rule.kind.amount * qty as real
    ensures rule.kind.withProduct.Some? && !InCart(cart, rule.kind.withProduct.value) ==>
      LineDiscount(rules + [rule], product, qty, cart) == LineDiscount(rules, product, qty, cart)
  {
    RuleAppendAdds(rules, rule, product, qty, cart);
  }
}
