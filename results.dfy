/** What a marketplace calculator returns: the exact cost components behind a
    price, the rounded breakdown reported for them, and the per-marketplace result
    record with its possibly empty analysis and suggestion. */
module Results {
  import opened Wrappers
  import opened Helpers

  /** The exact (unrounded) cost components at a price, and the total the
      calculator computed from them. */
  datatype Costs = Costs(
    price: real,
    fixedFee: real,
    tax: real,
    ads: real,
    commission: real,
    shipping: real,
    productCost: real,
    packagingCost: real,
    totalCosts: real)
  {
    function Profit(): real {
      price - totalCosts
    }

    /** The total is the sum of the components. */
    predicate Consistent() {
      totalCosts == fixedFee + tax + ads + commission + shipping + productCost + packagingCost
    }
  }

  /** The reported breakdown (the "analysis" dict, or the body of the "suggestion"
      dict). Amounts are rounded to cents; `shipping` is reported by Mercado Livre
      only. */
  datatype Breakdown = Breakdown(
    price: real,
    fixedFee: real,
    tax: real,
    taxPct: real,
    ads: real,
    adsPct: real,
    commission: real,
    commissionPct: real,
    shipping: Option<real>,
    productCost: real,
    packagingCost: real,
    totalCosts: real,
    profit: real,
    profitPct: real)

  /** A suggested price: the target margin (percentage points) and the breakdown
      at the solved price. */
  datatype Suggestion = Suggestion(targetMarginPercent: real, breakdown: Breakdown)

  /** One marketplace's answer. `None` stands for the empty dict `{}`. */
  datatype MarketplaceResult =
    | MercadoLivreResult(logisticsType: string, listingType: string,
                         analysis: Option<Breakdown>, suggestion: Option<Suggestion>)
    | ShopeeResult(sellerType: string, analysis: Option<Breakdown>, suggestion: Option<Suggestion>)
    | SheinResult(sellerType: string, analysis: Option<Breakdown>, suggestion: Option<Suggestion>)

  /** The breakdown reported for exact costs `c`: every amount rounded to cents,
      total and profit rounded from their exact values, percentages of `c.price`.
      `shownPrice` is the price as reported, `commissionPct` the commission
      percentage as the marketplace computes it. */
  ghost function Report(c: Costs, shownPrice: real, taxPct: real, adsPct: real, commissionPct: real,
                  withShipping: bool): (b: Breakdown)
    ensures -0.005 <= b.profit - c.Profit() <= 0.005
    ensures -0.005 <= b.totalCosts - c.totalCosts <= 0.005
    ensures c.price != 0.0 ==> -0.005 <= b.profitPct - c.Profit() / c.price * 100.0 <= 0.005
    ensures b.shipping.Some? == withShipping
    ensures withShipping ==> WithinHalfCent(b.shipping.value, c.shipping)
    ensures b.price == shownPrice && b.taxPct == taxPct && b.adsPct == adsPct &&
            b.commissionPct == commissionPct
    ensures WithinHalfCent(b.fixedFee, c.fixedFee) && WithinHalfCent(b.tax, c.tax) &&
            WithinHalfCent(b.ads, c.ads) && WithinHalfCent(b.commission, c.commission)
    ensures WithinHalfCent(b.productCost, c.productCost) &&
            WithinHalfCent(b.packagingCost, c.packagingCost)
  {
    Breakdown(
      price := shownPrice,
      fixedFee := Round2(c.fixedFee),
      tax := Round2(c.tax),
      taxPct := taxPct,
      ads := Round2(c.ads),
      adsPct := adsPct,
      commission := Round2(c.commission),
      commissionPct := commissionPct,
      shipping := if withShipping then Some(Round2(c.shipping)) else None,
      productCost := Round2(c.productCost),
      packagingCost := Round2(c.packagingCost),
      totalCosts := Round2(c.totalCosts),
      profit := Round2(c.Profit()),
      profitPct := PercentFromTotal(c.Profit(), c.price))
  }
}
