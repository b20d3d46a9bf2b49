/**
 * The catalog the cart is priced against: products and discount rules,
 * looked up by id, and the two deletion filters.
 */
module Catalog {
  import opened Wrappers

  type ProductId = int

  datatype Product = Product(id: ProductId, name: string, price: real, cost: real, category: string)

  /** The three discount rule variants and their parameters. */
  datatype DiscountKind =
    | Bundle(quantity: int, price: real)
      // every `quantity` units together cost `price`
    | Percentage(percentage: int)
      // `percentage` percent off the whole line
    | Fixed(amount: real, withProduct: Option<ProductId>)
      // `amount` off per unit, only with the companion product when one is set

  datatype DiscountRule = DiscountRule(id: int, name: string, productId: ProductId, kind: DiscountKind)

  /** A bundle of size 0 would divide by zero; every other rule can be evaluated. */
  predicate BundleSizesNonZero(rules: seq<DiscountRule>) {
    forall r :: r in rules && r.kind.Bundle? ==> r.kind.quantity != 0
  }

  /** `products.find(p => p.id === id)`: the first product with that id, if any. */
  function FindProduct(products: seq<Product>, id: ProductId): (r: Option<Product>)
    ensures r.None? <==> forall i :: 0 <= i < |products| ==> products[i].id != id
    ensures r.Some? ==> exists k :: 0 <= k < |products| && products[k] == r.value &&
                          r.value.id == id && forall j :: 0 <= j < k ==> products[j].id != id
  {
    if |products| == 0 then None
    else if products[0].id == id then Some(products[0])
    else
      var r := FindProduct(products[1..], id);
      assert r.Some? ==> exists k :: 0 <= k < |products[1..]| && products[1..][k] == r.value &&
                          r.value.id == id && forall j :: 0 <= j < k ==> products[1..][j].id != id;
      r
  }

  /** `products.filter(p => p.id !== id)`. */
  function WithoutProduct(products: seq<Product>, id: ProductId): (r: seq<Product>)
    ensures forall p :: p in r <==> p in products && p.id != id
    ensures |r| <= |products|
  {
    if |products| == 0 then []
    else (if products[0].id == id then [] else [products[0]]) + WithoutProduct(products[1..], id)
  }

  /** `discounts.filter(d => d.id !== id)`. */
  function WithoutDiscount(rules: seq<DiscountRule>, id: int): (r: seq<DiscountRule>)
    ensures forall d :: d in r <==> d in rules && d.id != id
    ensures |r| <= |rules|
  {
    if |rules| == 0 then []
    else (if rules[0].id == id then [] else [rules[0]]) + WithoutDiscount(rules[1..], id)
  }

  /**
   * The product filter works element by element and keeps order: filtering
   * a concatenation filters each part. With the single-element case below,
   * this fixes the result, duplicates included.
   */
  lemma {:induction false} WithoutProductAppend(a: seq<Product>, b: seq<Product>, id: ProductId)
    ensures WithoutProduct(a + b, id) == WithoutProduct(a, id) + WithoutProduct(b, id)
    decreases |a|
  {
    if |a| == 0 {
      assert a + b == b;
    } else {
      var ab := a + b;
      assert ab[0] == a[0];
      assert ab[1..] == a[1..] + b;
      WithoutProductAppend(a[1..], b, id);
    }
  }

  /** The filter of a single element keeps it exactly when its id differs. */
  lemma WithoutProductOfOne(p: Product, id: ProductId)
    ensures WithoutProduct([p], id) == if p.id == id then [] else [p]
  {
    assert [p][1..] == [];
  }

  /** The rule filter, likewise, filters each part of a concatenation. */
  lemma {:induction false} WithoutDiscountAppend(a: seq<DiscountRule>, b: seq<DiscountRule>, id: int)
    ensures WithoutDiscount(a + b, id) == WithoutDiscount(a, id) + WithoutDiscount(b, id)
    decreases |a|
  {
    if |a| == 0 {
      assert a + b == b;
    } else {
      var ab := a + b;
      assert ab[0] == a[0];
      assert ab[1..] == a[1..] + b;
      WithoutDiscountAppend(a[1..], b, id);
    }
  }

  /** The filter of a single element keeps it exactly when its id differs. */
  lemma WithoutDiscountOfOne(d: DiscountRule, id: int)
    ensures WithoutDiscount([d], id) == if d.id == id then [] else [d]
  {
    assert [d][1..] == [];
  }

  /** After deleting a product, no lookup of its id succeeds. */
  lemma DeletedProductIsGone(products: seq<Product>, id: ProductId)
    ensures FindProduct(WithoutProduct(products, id), id).None?
  {
    var r := WithoutProduct(products, id);
    forall i | 0 <= i < |r| ensures r[i].id != id {
      assert r[i] in r;
    }
  }

  /** Deleting a product leaves every other product's lookup unchanged. */
  lemma {:induction false} DeleteKeepsOtherProducts(products: seq<Product>, id: ProductId, other: ProductId)
    requires other != id
    ensures FindProduct(WithoutProduct(products, id), other) == FindProduct(products, other)
  {
    if |products| > 0 {
      var head, tail := products[0], products[1..];
      DeleteKeepsOtherProducts(tail, id, other);
      var rest := WithoutProduct(tail, id);
      if head.id == id {
        assert WithoutProduct(products, id) == rest;
        assert FindProduct(products, other) == FindProduct(tail, other);
      } else {
        var w := [head] + rest;
        assert WithoutProduct(products, id) == w;
        assert w[0] == head && w[1..] == rest;
        if head.id == other {
          assert FindProduct(w, other) == Some(head);
        } else {
          assert FindProduct(w, other) == FindProduct(rest, other);
          assert FindProduct(products, other) == FindProduct(tail, other);
        }
      }
    }
  }

  /** Deleting a rule keeps every bundle size non-zero. */
  lemma DeleteDiscountKeepsBundleSizes(rules: seq<DiscountRule>, id: int)
    requires BundleSizesNonZero(rules)
    ensures BundleSizesNonZero(WithoutDiscount(rules, id))
  {
  }
}
