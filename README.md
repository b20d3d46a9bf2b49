# MarketMaster cart and pricing core, in Dafny

MarketMaster is a point-of-sale tool for market vendors. Its logic lives in
`script.js`. This project models the part of it with real rules:

- the pricing pass over the current sale (`calculateSaleTotals`), with its three
  rule kinds: bundle, percentage, and a fixed amount off that may need a
  companion product;
- the cart operations: add a product, change a quantity, clear the sale, set the
  payment method;
- checkout (`completeSale`) and the event-adjusted profit it computes;
- the two catalog deletions (`deleteProduct`, `deleteDiscount`);
- the reports: the running sales total, today's sales, per-sale profit, and the
  24 hourly buckets.

Modules, one per file:

- `Wrappers` (wrappers.dfy): `Option` and `Result`.
- `Catalog` (catalog.dfy): products, discount rules, lookup by id, and the
  deletion filters.
- `Pricing` (pricing.dfy): line items, the sale, and what one pricing pass
  computes. This is a set of specification functions, plus the two pricing
  loops (`PriceCart`, `ApplyDiscounts`) as methods proved against them.
- `Cart` (cart.dfy): the cart operations as functions on the line sequence,
  and the cart invariant (one line per product, each quantity at least 1).
- `Ledger` (ledger.dfy): sale records and the report computations.
- `Market` (market.dfy): the script's `state` object. This is a class
  `AppState` whose methods update its fields in place, as the script's handlers
  do. Every method states its whole new state in terms of the functions above.
- `Scenarios` (scenarios.dfy): worked examples of one pricing pass on literal
  carts.

Money is modelled as exact `real`. Quantities and percentages are
`int`. Clock readings and generated ids are parameters.

Behaviour the model keeps from the code:

- A line's subtotal uses the product's CURRENT catalog price. The price
  stored in the line is only a snapshot, used by profit reports.
- The discount steps are:
  - The discount is reset before the product lookup. A line whose product was
    deleted therefore ends with discount 0 and adds nothing.
  - A bundle's price is taken as given. A bundle priced above its nominal price
    raises the total, and the total can go below zero.
  - The companion test of a fixed rule asks only whether some line has the
    companion's id. Under the cart invariant every line's quantity is at least
    1, so this agrees with "at least one unit in the cart".
  - Any integer percentage and any non-zero bundle size is evaluated; nothing
    checks that they are in range.
- Deleting a product or a rule, or setting the payment method, does not reprice
  the cart.
- Profit reports use the snapshot sale price minus the product's CURRENT cost.

## Model

| member | source | states |
|---|---|---|
| Catalog.FindProduct | script.js:738 | `products.find` by id: None exactly when no product has the id; otherwise the first product with it |
| Catalog.WithoutProduct | script.js:780 | The product filter keeps exactly the products with another id, and never grows the list |
| Catalog.WithoutDiscount | script.js:829 | The rule filter keeps exactly the rules with another id, and never grows the list |
| Catalog.WithoutProductAppend | script.js:780 | The product filter of a concatenation is the concatenation of the filters: it goes product by product and keeps order |
| Catalog.WithoutProductOfOne | script.js:780 | One product is kept exactly when its id differs; with the append law this fixes the result, repeated entries included |
| Catalog.WithoutDiscountAppend | script.js:829 | The rule filter of a concatenation is the concatenation of the filters |
| Catalog.WithoutDiscountOfOne | script.js:829 | One rule is kept exactly when its id differs; with the append law this fixes the result, repeated entries included |
| Catalog.DeletedProductIsGone | script.js:778-785 | After a product is deleted, no lookup of its id succeeds |
| Catalog.DeleteKeepsOtherProducts | script.js:780 | Deleting one product leaves the lookup of every other id unchanged |
| Catalog.DeleteDiscountKeepsBundleSizes | script.js:827-833 | Deleting a rule keeps every bundle size non-zero, so pricing stays defined |
| Pricing.RuleAmount | script.js:929-958 | What one rule takes off a line: nothing from a line of 0 units, and a fixed rule whose companion has no line nets to 0 |
| Pricing.LineDiscount | script.js:927-959 | The line's discount is the sum, in catalog order, of the amounts of the rules aimed at its product; a line of 0 units gets none |
| Pricing.ItemDiscount | script.js:919-959 | Definition: the discount a line ends with, 0 when its product is gone, else its rule discount; its properties are stated by `Pricing.DanglingLineContributesNothing` and `Pricing.TotalsDependOnlyOnLines` |
| Pricing.LineSubtotal | script.js:921-924 | Definition: the current catalog price times the quantity, 0 when the product is gone; its properties are stated by `Pricing.DanglingLineContributesNothing` and `Pricing.PricingDependsOnlyOnIdsAndQuantities` |
| Pricing.Priced | script.js:913-965 | Definition: the sale after one pricing pass; its properties are stated by `Pricing.PricedTotalsAreConsistent`, `Pricing.PricingIsIdempotent` and `Pricing.PricingDependsOnlyOnIdsAndQuantities` |
| Pricing.FloorDiv | script.js:930 | `Math.floor(q / n)` for a non-zero divisor of either sign: the greatest integer whose multiple does not exceed q |
| Pricing.ApplyDiscounts | script.js:927-959 | The inner rule loop, including add-then-revert for a missing companion, takes off exactly the line's rule discount and adds it to the running total |
| Pricing.PriceCart | script.js:913-960 | The outer loop resets each line, prices lines whose product exists, and returns the priced lines, the live-price subtotal and the summed discount |
| Pricing.PricedTotalsAreConsistent | script.js:962-964 | After a pass, the sale discount is the sum of the lines' discounts and total = subtotal − discount (not clamped); ids, quantities and payment method are kept |
| Pricing.PricingDependsOnlyOnIdsAndQuantities | script.js:918-960 | Two sales with the same product ids and quantities, line by line, price identically; stale discounts and snapshot prices are ignored |
| Pricing.PricingIsIdempotent | script.js:919 | Because every line is reset first, a second pass changes nothing |
| Pricing.TotalsDependOnlyOnLines | script.js:918-960 | Subtotal, total discount and every line discount depend only on ids and quantities, both of the lines and of the cart the companion tests read |
| Pricing.LineDiscountCartIndependent | script.js:951 | The companion test gives the same answer on any cart with the same product ids and quantities |
| Pricing.DanglingLineContributesNothing | script.js:919-922 | A line whose product is gone from the catalog ends with discount 0, and subtotal and discount equal those of the cart without it |
| Pricing.LineDiscountAppend | script.js:927-928 | Rules on one product add up: the discount under two rule lists concatenated is the sum of the two discounts |
| Pricing.OtherProductsRulesIgnored | script.js:927 | Rules aimed at other products take nothing off a line |
| Pricing.BundleAmount | script.js:929-936 | A bundle takes (price × size − bundle price) off per complete bundle; nothing below size units; a negative amount (a surcharge) when the bundle price exceeds the nominal price |
| Pricing.RuleAppendAdds | script.js:927-958 | Adding one rule at the end of the rule list raises a line's discount by that rule's amount when it targets the line's product, and by nothing otherwise |
| Pricing.BundleRuleAdds | script.js:929-936 | Adding a bundle rule for the product raises the line's discount by (price × size − bundle price) × ⌊quantity / size⌋ |
| Pricing.PercentageRuleAdds | script.js:937-942 | Adding a percentage rule for the product raises the line's discount by pct/100 of price × quantity |
| Pricing.FixedRuleAdds | script.js:943-956 | Adding a fixed rule for the product raises the line's discount by amount × quantity when it has no companion or the companion has a line, and leaves it unchanged otherwise |
| Cart.LineIndex | script.js:742 | `items.find` by product id: None exactly when no line has the id; otherwise the first such line |
| Cart.AddItem | script.js:742-752 | Definition: increment the first line of the product, else append a line of quantity 1 with the product's name and price; its properties are stated by `Cart.AddItemEffect` |
| Cart.AdjustItems | script.js:898-906 | Definition: no line, no change; else write the new quantity into the line, and filter the product out when it is 0 or below; its properties are stated by `Cart.AdjustItemsEffect` |
| Cart.WithoutLine | script.js:905 | Definition: the lines of other products, in order; its properties are stated by `Cart.WithoutLineMembers`, `Cart.QuantityOfWithoutLine` and `Cart.WellFormedWithoutLine` |
| Cart.WithoutLineMembers | script.js:905 | The line filter keeps exactly the lines of other products |
| Cart.QuantityOfUniqueLine | script.js:742 | With one line per product, a product's quantity in the cart is the quantity of its line |
| Cart.QuantityOfUpdate | script.js:744 | Changing one line's quantity shifts only that product's total, by the difference |
| Cart.QuantityOfWithoutLine | script.js:905 | Filtering out a product zeroes its quantity and keeps every other product's |
| Cart.WellFormedWithoutLine | script.js:905 | Filtering keeps the cart invariant |
| Cart.AddItemEffect | script.js:742-752 | Adding increments the existing line, which keeps its name, snapshot price and discount (other lines unchanged), or appends one line of quantity 1 with the product's name and price; that product gains exactly one unit, the others none; the cart invariant is kept |
| Cart.AddItemQuantities | script.js:742-752 | Adding a product raises its quantity by one and no other product's |
| Cart.AddItemWellFormed | script.js:742-752 | Adding a product keeps one line per product, each of quantity at least 1 |
| Cart.AdjustItemsEffect | script.js:897-907 | Covers every case of a quantity change. An absent product: nothing changes. A new quantity ≤ 0: the line is removed and the other lines keep their order. Otherwise the product's quantity moves by the change. Other products are untouched, and the cart invariant is kept |
| Cart.AdjustRemovesLine | script.js:902-906 | Writing the new quantity and then filtering gives the cart filtered before the write |
| Cart.RemovedLineQuantityIrrelevant | script.js:905 | The filtered cart does not depend on the removed line's quantity |
| Cart.AdjustKeepsLine | script.js:902 | A positive new quantity updates that line in place, keeps the invariant, and moves only that product's quantity |
| Cart.WithoutLineIgnoresOwnLine | script.js:905 | Filtering out a product does not look at the quantity of that product's line |
| Cart.SameLinesSameQuantities | script.js:918-960 | Two carts with the same ids and quantities, line by line, have the same quantity for every product |
| Cart.PricingKeepsWellFormed | script.js:918-960 | A pricing pass keeps the cart invariant |
| Cart.PricingKeepsQuantities | script.js:918-960 | A pricing pass keeps every product's quantity |
| Cart.AdjustedSaleQuantities | script.js:897-910 | After an adjustment and a pass, the product's quantity is old + change, or 0 once the line is removed; every other product's is unchanged |
| Ledger.SalesTotal | script.js:1188 | Definition: the sum of the records' totals, in history order; its properties are stated by `Ledger.SalesTotalAppend` and `Ledger.SalesTotalPrepend` |
| Ledger.SalesTotalAppend | script.js:1188 | The sales total of two histories joined is the sum of their totals |
| Ledger.SalesTotalPrepend | script.js:1003 | Recording a sale at the head of the history raises the sales total by exactly that sale's total |
| Ledger.TodaySales | script.js:1094-1101 | Today's sales are exactly the history's records on today's day, month and year, and there are no more of them than records |
| Ledger.TodaySalesAppend | script.js:1094-1101 | The today filter of a concatenation is the concatenation of the filters: it goes record by record and keeps history order |
| Ledger.TodaySalesOfOne | script.js:1098-1100 | One record is kept exactly when its day, month and year are today's |
| Ledger.TodaySalesCount | script.js:1094-1101 | Each record of today appears among today's sales exactly as often as in the history, and a record of another day not at all |
| Ledger.LineProfit | script.js:1107-1111 | A line contributes no profit when its product is gone or its quantity is 0 |
| Ledger.SaleProfit | script.js:1105-1113 | Definition: the sum of the line profits; its properties are stated by `Ledger.SaleProfitIsRevenueMinusCost` |
| Ledger.SaleProfitIsRevenueMinusCost | script.js:1105-1113 | A sale's profit is the snapshot revenue minus the current cost of goods, over the lines whose product still exists |
| Ledger.CalculateEventProfit | script.js:1021-1033 | Event profit is the sale total minus the current cost of goods minus the event's cost (0 without an event) |
| Ledger.EventProfit | script.js:1021-1033 | Definition: the sale total minus the current cost of goods of the lines whose product exists, minus the event's cost (0 without one); `Ledger.CalculateEventProfit` is proved against it |
| Ledger.EventProfitAgreesWithSaleProfit | script.js:1021-1033 | For a sale taken at snapshot prices without discount, event profit without an event equals the report's sale profit; an event lowers it by its cost |
| Ledger.SumRealsBump | script.js:1135 | Adding an amount to one bucket adds that amount to the buckets' sum |
| Ledger.BucketsSumToTotal | script.js:1123-1137 | The 24 hourly buckets of a measure add up to the measure over all the sales |
| Ledger.RevenueIsSalesTotal | script.js:1115 | The revenue measure is the sales total |
| Ledger.HourlyBuckets | script.js:1123-1137 | 24 buckets, bucket h holding the totals and profits of the sales made in hour h; the buckets sum to the sales total and to the total profit |
| Ledger.TodaysSaleReport | script.js:1094-1137 | Total sales, total profit and transaction count of today's sales, and hourly series that match today's sales hour by hour and sum to those totals |
| Market.AppState.constructor | script.js:2-16 | The loaded catalog, history and event, with an empty cash sale |
| Market.AppState.CalculateSaleTotals | script.js:913-965 | The current sale becomes exactly the priced sale, and nothing else changes |
| Market.AppState.AddProductToSale | script.js:737-757 | An unknown id changes nothing. Otherwise the sale is the priced cart with the product added, that product gains one unit, and other products are unchanged |
| Market.AppState.UpdateProductQuantity | script.js:897-911 | A product not in the cart changes nothing. Otherwise the sale is the priced adjusted cart, the product's quantity is old + change (0 once removed), and other products are unchanged |
| Market.AppState.ClearCurrentSale | script.js:968-976 | The sale becomes empty, paid in cash, with all totals 0 |
| Market.AppState.SetPaymentMethod | script.js:356-360 | Only the payment method changes; the totals are not recomputed |
| Market.AppState.CompleteSale | script.js:987-1018 | An empty cart gives EmptyCartError and changes nothing. Otherwise the record holds the cart's lines, payment method, total and event id; it goes at the head of the history, which grows by one, and the sales total rises by the sale's total; the cart is cleared |
| Market.AppState.DeleteProduct | script.js:778-785 | The product list is the filtered list; the id no longer resolves; the cart and everything else are unchanged (no repricing) |
| Market.AppState.DeleteDiscount | script.js:827-833 | The rule list is the filtered list; the cart and everything else are unchanged (no repricing) |
| Scenarios.BundleCase | script.js:929-936 | Three for 9.00 at 3.50 with seven units: subtotal 24.50, discount 3.00, total 21.50 |
| Scenarios.PercentageCase | script.js:937-942 | 20% off three at 5.00: subtotal 15.00, discount 3.00, total 12.00 |
| Scenarios.ComboWithoutCompanion | script.js:943-956 | 2.00 per unit off with a companion, but no companion in the cart: the discount nets to 0 |
| Scenarios.ComboWithCompanion | script.js:943-956 | The same rule with the companion in the cart: 4.00 off two units |
| Scenarios.NegativeTotalCase | script.js:962-964 | A fixed amount larger than the price drives the total below zero; it is not clamped |
| Scenarios.OverpricedBundleCase | script.js:929-936 | A bundle priced above its nominal price gives a negative discount and raises the total |

## Left out

- Rendering, the DOM, modals, `alert`/`confirm` and Chart.js are not modelled. The deletions are modelled as they behave once the user confirms.
- Translations and the language switcher are outside the pricing and sale logic.
- Persistence (`saveToLocalStorage`, `loadFromLocalStorage`, script.js:294-317) is not modelled. The loaded values are the constructor's parameters; a missing key maps to an empty list or no event, as the loader does.
- The form handlers (`handleProductSubmit`, `handleDiscountSubmit`, `handleEventSubmit`, the edit functions and `parseFloat`/`parseInt`) are not modelled. The catalog, the rules and the current event come in through the constructor.
- The model does not capture `Date.now()`, `new Date()`, ISO timestamps or local time zones. The sale id and the local calendar fields of the timestamp and of "today" are parameters.
- IEEE double rounding and `toFixed(2)` display are not modelled; money is exact.
- `Catalog.BundleSizesNonZero`: only a bundle size of 0 is excluded. In the script, dividing by zero gives a bundle count of +Infinity for a positive quantity, and the line's discount becomes +Infinity or −Infinity, or NaN when the bundle price equals the nominal price (a quantity of 0 or less gives no bundle). Sizes that are negative or 1 are evaluated as the code does.
- Market.AppState.SetPaymentMethod: the method is one of cash, card or Venmo. The script stores whatever string the button carries.
- Market.AppState.CompleteSale: the copy of the items is a value copy. The script copies the array but shares the line objects. The sharing can never be observed: after the record is put at the head of the history, the checkout only reads the sale and then calls `clearCurrentSale`, which installs a fresh sale object with an empty items array (script.js:1003-1018, 969-975), so no later cart operation reaches those line objects. The event profit computed during checkout is discarded, as in the script, which never displays it.
- Pricing.PriceCart: the lines are rewritten in a local sequence, and the companion test reads that sequence mid-pass. The script mutates the line objects of the live cart. Both have the same ids and quantities throughout, so the results agree.
- Market.AppState.DeleteProduct: a deleted product's lines stay in the cart, with their old discounts, until the next pricing pass, as in the script.
- `renderReceipt` and `renderSalesHistory` are not modelled; they only display values the model computes.
