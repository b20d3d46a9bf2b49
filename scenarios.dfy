/**
 * Worked pricing cases for the three rule kinds, and misconfigured rules
 * that drive the discount below zero and the total below zero.
 */
module Scenarios {
  import opened Wrappers
  import opened Catalog
  import opened Pricing

  const Honey := Product(1, "Honey", 3.5, 2.0, "Pantry")
  const Jam := Product(2, "Jam", 5.0, 3.0, "Pantry")
  const Bread := Product(3, "Bread", 4.0, 1.0, "Bakery")
  const Cheese := Product(4, "Cheese", 6.0, 4.0, "Dairy")

  function Line(p: Product, qty: int): LineItem {
    LineItem(p.id, p.name, p.price, qty, 0.0)
  }

  function CartOf(items: seq<LineItem>): Sale {
    Sale(items, Cash, 0.0, 0.0, 0.0)
  }

  /** Pricing a one-line cart comes down to that line's subtotal and discount. */
  lemma OneLineCart(item: LineItem, products: seq<Product>, rules: seq<DiscountRule>)
    requires BundleSizesNonZero(rules)
    ensures var s := Priced(CartOf([item]), products, rules);
      s.subtotal == LineSubtotal(item, products) &&
      s.discount == ItemDiscount(item, products, rules, [item]) &&
      s.total == s.subtotal - s.discount
  {
    var cart := [item];
    assert cart[..0] == [] && cart[0] == item;
    assert Subtotal(cart, products) == Subtotal([], products) + LineSubtotal(item, products);
    assert TotalDiscount(cart, products, rules, cart) ==
      TotalDiscount([], products, rules, cart) + ItemDiscount(item, products, rules, cart);
  }

  lemma OneRule(rule: DiscountRule, product: Product, qty: int, cart: seq<LineItem>)
    requires BundleSizesNonZero([rule])
    ensures LineDiscount([rule], product, qty, cart) ==
      if rule.productId == product.id then RuleAmount(rule.kind, product.price, qty, cart) else 0.0
  {
    assert [rule][..0] == [];
    assert rule in [rule];
  }

  /** Three honey for 9.00, seven bought: two bundles, 3.00 off, 21.50 to pay. */
  lemma BundleCase()
    ensures var s := Priced(CartOf([Line(Honey, 7)]), [Honey], [DiscountRule(1, "3 for 9", 1, Bundle(3, 9.0))]);
      s.subtotal == 24.5 && s.discount == 3.0 && s.total == 21.5
  {
    var rule := DiscountRule(1, "3 for 9", 1, Bundle(3, 9.0));
    var item := Line(Honey, 7);
    OneLineCart(item, [Honey], [rule]);
    OneRule(rule, Honey, 7, [item]);
    assert FindProduct([Honey], 1) == Some(Honey);
    assert FloorDiv(7, 3) == 2;
  }

  /** Twenty percent off three jars at 5.00: 3.00 off, 12.00 to pay. */
  lemma PercentageCase()
    ensures var s := Priced(CartOf([Line(Jam, 3)]), [Jam], [DiscountRule(1, "20% off", 2, Percentage(20))]);
      s.subtotal == 15.0 && s.discount == 3.0 && s.total == 12.0
  {
    var rule := DiscountRule(1, "20% off", 2, Percentage(20));
    var item := Line(Jam, 3);
    OneLineCart(item, [Jam], [rule]);
    OneRule(rule, Jam, 3, [item]);
    assert FindProduct([Jam], 2) == Some(Jam);
  }

  const Combo := DiscountRule(2, "Bread & Cheese", 3, Fixed(2.0, Some(4)))

  /** The combo rule without cheese in the cart nets to nothing. */
  lemma ComboWithoutCompanion()
    ensures var s := Priced(CartOf([Line(Bread, 2)]), [Bread, Cheese], [Combo]);
      s.subtotal == 8.0 && s.discount == 0.0 && s.total == 8.0
  {
    var item := Line(Bread, 2);
    OneLineCart(item, [Bread, Cheese], [Combo]);
    OneRule(Combo, Bread, 2, [item]);
    assert FindProduct([Bread, Cheese], 3) == Some(Bread);
    assert !InCart([item], 4);
  }

  /** With cheese in the cart the combo takes 2.00 off each of the two loaves. */
  lemma ComboWithCompanion()
    ensures var s := Priced(CartOf([Line(Bread, 2), Line(Cheese, 1)]), [Bread, Cheese], [Combo]);
      s.subtotal == 14.0 && s.discount == 4.0 && s.total == 10.0
  {
    var cart := [Line(Bread, 2), Line(Cheese, 1)];
    var products := [Bread, Cheese];
    assert InCart(cart, 4) by { assert cart[1].productId == 4; }
    assert FindProduct(products, 3) == Some(Bread);
    assert FindProduct(products, 4) == Some(Cheese) by {
      assert products[1..] == [Cheese];
    }
    OneRule(Combo, Bread, 2, cart);
    OneRule(Combo, Cheese, 1, cart);
    assert cart[..1] == [Line(Bread, 2)];
    assert cart[..1][..0] == [];
    assert LineSubtotal(cart[0], products) == 8.0;
    assert LineSubtotal(cart[1], products) == 6.0;
    assert Subtotal(cart[..1], products) == Subtotal([], products) + LineSubtotal(cart[0], products);
    assert Subtotal(cart, products) == Subtotal(cart[..1], products) + LineSubtotal(cart[1], products);
    assert ItemDiscount(cart[0], products, [Combo], cart) == 4.0;
    assert ItemDiscount(cart[1], products, [Combo], cart) == 0.0;
    assert TotalDiscount(cart[..1], products, [Combo], cart) ==
      TotalDiscount([], products, [Combo], cart) + ItemDiscount(cart[0], products, [Combo], cart);
    assert TotalDiscount(cart, products, [Combo], cart) ==
      TotalDiscount(cart[..1], products, [Combo], cart) + ItemDiscount(cart[1], products, [Combo], cart);
  }

  /** Discounts are not clamped: 5.00 off a 4.00 loaf leaves a total of -1.00. */
  lemma NegativeTotalCase()
    ensures var s := Priced(CartOf([Line(Bread, 1)]), [Bread], [DiscountRule(3, "Giveaway", 3, Fixed(5.0, None))]);
      s.total == -1.0
  {
    var rule := DiscountRule(3, "Giveaway", 3, Fixed(5.0, None));
    var item := Line(Bread, 1);
    OneLineCart(item, [Bread], [rule]);
    OneRule(rule, Bread, 1, [item]);
    assert FindProduct([Bread], 3) == Some(Bread);
  }

  /** A bundle priced above its nominal price adds to the bill. */
  lemma OverpricedBundleCase()
    ensures var s := Priced(CartOf([Line(Honey, 3)]), [Honey], [DiscountRule(4, "3 for 12", 1, Bundle(3, 12.0))]);
      s.discount == -1.5 && s.total == 12.0
  {
    var rule := DiscountRule(4, "3 for 12", 1, Bundle(3, 12.0));
    var item := Line(Honey, 3);
    OneLineCart(item, [Honey], [rule]);
    OneRule(rule, Honey, 3, [item]);
    assert FindProduct([Honey], 1) == Some(Honey);
    assert FloorDiv(3, 3) == 1;
  }
}
