/**
 * The application state (the script's `state` object) and the operations
 * that change it in place: the pricing pass, the cart operations, checkout,
 * and the two catalog deletions.
 */
module Market {
  import opened Wrappers
  import opened Catalog
  import opened Pricing
  import opened Cart
  import opened Ledger

  /** The one way checkout can be refused. */
  datatype SaleError = EmptyCartError

  /** `state.currentEvent?.id`. */
  function EventIdOf(event: Option<MarketEvent>): Option<int> {
    match event
    case None => None
    case Some(e) => Some(e.id)
  }

  class AppState {
    var products: seq<Product>
    var discounts: seq<DiscountRule>
    var currentSale: Sale
    var salesHistory: seq<SaleRecord>  // most recent first
    var currentEvent: Option<MarketEvent>

    /** Every rule can be evaluated, and the cart has one line per product, each of quantity at least 1. */
    ghost predicate Valid()
      reads this
    {
      BundleSizesNonZero(discounts) && WellFormedCart(currentSale.items)
    }

    /** The state after loading: the stored catalog, history and event, and an empty cart. */
    constructor (products: seq<Product>, discounts: seq<DiscountRule>, salesHistory: seq<SaleRecord>, currentEvent: Option<MarketEvent>)
      requires BundleSizesNonZero(discounts)
      ensures Valid()
      ensures this.products == products && this.discounts == discounts
      ensures this.salesHistory == salesHistory && this.currentEvent == currentEvent
      ensures currentSale == ClearedSale
    {
      this.products := products;
      this.discounts := discounts;
      this.salesHistory := salesHistory;
      this.currentEvent := currentEvent;
      currentSale := ClearedSale;
    }

    /** `calculateSaleTotals`: reprices every line of the current sale from scratch. */
    method CalculateSaleTotals()
      requires Valid()
      modifies this
      ensures Valid()
      ensures currentSale == Priced(old(currentSale), products, discounts)
      ensures products == old(products) && discounts == old(discounts)
      ensures salesHistory == old(salesHistory) && currentEvent == old(currentEvent)
    {
      var lines, subtotal, totalDiscount := PriceCart(currentSale.items, products, discounts);
      PricingKeepsWellFormed(currentSale.items, products, discounts);
      currentSale := currentSale.(items := lines, subtotal := subtotal, discount := totalDiscount,
                                  total := subtotal - totalDiscount);
    }

    /** `addProductToSale`: an unknown product is ignored; otherwise one more unit, then a pricing pass. */
    method AddProductToSale(productId: ProductId)
      requires Valid()
      modifies this
      ensures Valid()
      ensures products == old(products) && discounts == old(discounts)
      ensures salesHistory == old(salesHistory) && currentEvent == old(currentEvent)
      ensures FindProduct(products, productId).None? ==> currentSale == old(currentSale)
      ensures FindProduct(products, productId).Some? ==>
        currentSale == Priced(old(currentSale).(items := AddItem(old(currentSale.items), FindProduct(products, productId).value)),
                              products, discounts)
      ensures forall id :: (QuantityOf(currentSale.items, id) ==
        QuantityOf(old(currentSale.items), id) + (if id == productId && FindProduct(products, productId).Some? then 1 else 0))
    {
      var product := FindProduct(products, productId);
      if product.None? {
        return;
      }
      var p := product.value;
      AddItemEffect(currentSale.items, p);
      var existing := LineIndex(currentSale.items, productId);
      if existing.Some? {
        var k := existing.value;
        var item := currentSale.items[k];
        currentSale := currentSale.(items := currentSale.items[k := item.(quantity := item.quantity + 1)]);
      } else {
        currentSale := currentSale.(items := currentSale.items + [LineItem(productId, p.name, p.price, 1, 0.0)]);
      }
      ghost var added := currentSale.items;
      assert added == AddItem(old(currentSale.items), p);
      CalculateSaleTotals();
      PricingKeepsQuantities(old(currentSale).(items := added), products, discounts);
    }

    /** `updateProductQuantity`: an absent product is ignored; otherwise adjust, drop the line at 0 or below, reprice. */
    method UpdateProductQuantity(productId: ProductId, change: int)
      requires Valid()
      modifies this
      ensures Valid()
      ensures products == old(products) && discounts == old(discounts)
      ensures salesHistory == old(salesHistory) && currentEvent == old(currentEvent)
      ensures !InCart(old(currentSale.items), productId) ==> currentSale == old(currentSale)
      ensures InCart(old(currentSale.items), productId) ==>
        currentSale == Priced(old(currentSale).(items := AdjustItems(old(currentSale.items), productId, change)),
                              products, discounts)
      ensures InCart(old(currentSale.items), productId) ==>
        var q := QuantityOf(old(currentSale.items), productId) + change;
        QuantityOf(currentSale.items, productId) == (if q <= 0 then 0 else q) &&
        forall other :: other != productId ==> QuantityOf(currentSale.items, other) == QuantityOf(old(currentSale.items), other)
    {
      var found := LineIndex(currentSale.items, productId);
      if found.None? {
        return;
      }
      ghost var before := currentSale.items;
      var k := found.value;
      var item := currentSale.items[k];
      currentSale := currentSale.(items := currentSale.items[k := item.(quantity := item.quantity + change)]);
      if item.quantity + change <= 0 {
        AdjustFiltersUpdated(before, k, productId, change);
        currentSale := currentSale.(items := WithoutLine(currentSale.items, productId));
      } else {
        AdjustKeepsLine(before, k, productId, change);
      }
      assert currentSale.items == AdjustItems(before, productId, change);
      AdjustItemsEffect(before, productId, change);
      CalculateSaleTotals();
      AdjustedSaleQuantities(old(currentSale), productId, change, products, discounts);
    }

    /** `clearCurrentSale`: a fresh, empty cash sale. */
    method ClearCurrentSale()
      modifies this
      ensures currentSale == ClearedSale
      ensures products == old(products) && discounts == old(discounts)
      ensures salesHistory == old(salesHistory) && currentEvent == old(currentEvent)
    {
      currentSale := ClearedSale;
    }

    /** The payment-method buttons: a field write, no pricing pass. */
    method SetPaymentMethod(method_: PaymentMethod)
      modifies this
      ensures currentSale == old(currentSale).(paymentMethod := method_)
      ensures products == old(products) && discounts == old(discounts)
      ensures salesHistory == old(salesHistory) && currentEvent == old(currentEvent)
    {
      currentSale := currentSale.(paymentMethod := method_);
    }

    /**
     * `completeSale`: an empty cart is refused and nothing changes; otherwise
     * the sale is recorded at the head of the history (with the cart's lines,
     * total and payment method as they stand) and the cart is cleared.
     * `saleId` and `timestamp` are the clock readings the script takes.
     */
    method CompleteSale(saleId: int, timestamp: Timestamp) returns (result: Result<SaleRecord, SaleError>)
      requires Valid()
      modifies this
      ensures Valid()
      ensures products == old(products) && discounts == old(discounts) && currentEvent == old(currentEvent)
      ensures old(currentSale.items) == [] ==>
        result == Err(EmptyCartError) && currentSale == old(currentSale) && salesHistory == old(salesHistory)
      ensures old(currentSale.items) != [] ==>
        result == Ok(SaleRecord(saleId, timestamp, old(currentSale.items), old(currentSale.paymentMethod),
                                old(currentSale.total), EventIdOf(old(currentEvent)))) &&
        salesHistory == [result.value] + old(salesHistory) &&
        |salesHistory| == |old(salesHistory)| + 1 &&
        SalesTotal(salesHistory) == SalesTotal(old(salesHistory)) + old(currentSale.total) &&
        currentSale == ClearedSale
    {
      if |currentSale.items| == 0 {
        return Err(EmptyCartError);
      }
      var record := SaleRecord(saleId, timestamp, currentSale.items, currentSale.paymentMethod,
                               currentSale.total, EventIdOf(currentEvent));
      SalesTotalPrepend(record, salesHistory);
      salesHistory := [record] + salesHistory;
      // the event profit is computed here and not shown
      var _ := CalculateEventProfit(currentSale, currentEvent, products);
      ClearCurrentSale();
      result := Ok(record);
    }

    /** `deleteProduct` (once confirmed): the cart is NOT repriced, so its lines may now dangle. */
    method DeleteProduct(productId: ProductId)
      requires Valid()
      modifies this
      ensures Valid()
      ensures products == WithoutProduct(old(products), productId)
      ensures FindProduct(products, productId).None?
      ensures currentSale == old(currentSale) && discounts == old(discounts)
      ensures salesHistory == old(salesHistory) && currentEvent == old(currentEvent)
    {
      products := WithoutProduct(products, productId);
      DeletedProductIsGone(old(products), productId);
    }

    /** `deleteDiscount` (once confirmed). */
    method DeleteDiscount(discountId: int)
      requires Valid()
      modifies this
      ensures Valid()
      ensures discounts == WithoutDiscount(old(discounts), discountId)
      ensures currentSale == old(currentSale) && products == old(products)
      ensures salesHistory == old(salesHistory) && currentEvent == old(currentEvent)
    {
      DeleteDiscountKeepsBundleSizes(discounts, discountId);
      discounts := WithoutDiscount(discounts, discountId);
    }
  }
}
