/** The pricing request: an immutable record of the fields the HTTP layer accepts. */
module Request {
  import opened Wrappers

  /** `PricingRequest`. Percent fields are percentage points (20.0 means 20%);
      `currentSalePrice` and `desiredMargin` are optional, and 0 or absent means
      "skip the analysis" and "skip the suggestion". */
  datatype PricingRequest = PricingRequest(
    productCost: real,
    packagingCost: real,
    currentSalePrice: Option<real>,
    desiredMargin: Option<real>,
    taxPercent: real,
    adsInvestmentPercent: real,
    listingType: string,
    logisticsType: string,
    weightKg: real,
    isCpf: bool,
    ordersLast90Days: int,
    useFreeShipping: bool,
    sheinDaysSinceRegistration: int)
  {
    /** The analysis is requested: a sale price is given and strictly positive. */
    predicate WantsAnalysis() {
      currentSalePrice.Some? && currentSalePrice.value > 0.0
    }

    /** The suggestion is requested: a margin is given and strictly positive. */
    predicate WantsSuggestion() {
      desiredMargin.Some? && desiredMargin.value > 0.0
    }
  }

  /** A request carrying only the two mandatory costs; every other field takes the
      default the request schema declares. */
  function DefaultRequest(productCost: real, packagingCost: real): (r: PricingRequest)
    ensures r.productCost == productCost && r.packagingCost == packagingCost
    ensures !r.WantsAnalysis() && !r.WantsSuggestion()
    ensures r.currentSalePrice == Some(0.0) && r.desiredMargin == Some(0.0)
    ensures r.taxPercent == 0.0 && r.adsInvestmentPercent == 0.0 && r.ordersLast90Days == 0
    ensures r.listingType == "premium" && r.logisticsType == "padrao" && r.weightKg == 0.5
    ensures !r.isCpf && r.useFreeShipping && r.sheinDaysSinceRegistration == 999
  {
    PricingRequest(productCost, packagingCost, Some(0.0), Some(0.0), 0.0, 0.0,
                   "premium", "padrao", 0.5, false, 0, true, 999)
  }
}
