/** `calculate_ml`: the Mercado Livre analysis (cost breakdown at the current sale
    price) and suggestion (closed-form price for a target margin, with fee and
    shipping looked up once at a first estimate). */
module MercadoLivre {
  import opened Wrappers
  import opened Helpers
  import opened Request
  import opened Rules
  import opened FeeTable
  import opened Resolvers
  import opened Results

  /** The fee table of the logistics mode can be scanned without a missing-key
      failure (the only requirement the calculator places on its rule file). */
  predicate FeeTableOk(rules: MLRules, logisticsType: string) {
    WellFormedTable(MLLogisticsFor(rules, logisticsType).feeTable)
  }

  /** The "bite": the fraction of the sale price lost to commission, tax and ads. */
  function BitePercentage(commission: real, req: PricingRequest): real {
    commission + req.taxPercent / 100.0 + req.adsInvestmentPercent / 100.0
  }

  /** The fixed fee of the table of `logisticsType` at `price`. */
  function FeeAt(rules: MLRules, logisticsType: string, price: real): real
    requires FeeTableOk(rules, logisticsType)
  {
    FixedFee(price, MLLogisticsFor(rules, logisticsType).feeTable)
  }

  /** The seller's shipping cost at `price`. */
  function ShippingAt(req: PricingRequest, rules: MLRules, logisticsType: string, price: real): real {
    SellerShipping(price, FreeShippingLimit(MLLogisticsFor(rules, logisticsType)), req.weightKg,
                   rules.estimatedSellerShipping)
  }

  /** The exact costs at sale price `price`: the bite, the fixed fee, the seller's
      shipping and the two product costs. */
  function AnalysisCosts(req: PricingRequest, rules: MLRules, logisticsType: string, listingType: string,
                         price: real): Costs
    requires FeeTableOk(rules, logisticsType)
  {
    var commission := MLCommission(rules, listingType);
    var fixedFee := FeeAt(rules, logisticsType, price);
    var shippingCost := ShippingAt(req, rules, logisticsType, price);
    var biteValue := price * BitePercentage(commission, req);
    var totalCosts := biteValue + fixedFee + shippingCost + req.productCost + req.packagingCost;
    Costs(price, fixedFee, PercentageDivision(req.taxPercent) * price,
          PercentageDivision(req.adsInvestmentPercent) * price, commission * price,
          shippingCost, req.productCost, req.packagingCost, totalCosts)
  }

  /** The analysis: `{}` unless a positive sale price is given, otherwise the
      rounded breakdown at that price. */
  ghost function Analysis(req: PricingRequest, rules: MLRules, logisticsType: string, listingType: string)
    : (r: Option<Breakdown>)
    requires FeeTableOk(rules, logisticsType)
    ensures r.Some? <==> req.WantsAnalysis()
    ensures r.Some? ==> r.value.price == req.currentSalePrice.value && r.value.shipping.Some?
  {
    if req.WantsAnalysis() then
      var price := req.currentSalePrice.value;
      var c := AnalysisCosts(req, rules, logisticsType, listingType, price);
      Some(Report(c, price, req.taxPercent, req.adsInvestmentPercent,
                  PercentageMultiplication(MLCommission(rules, listingType)), true))
    else None
  }

  /** The total charged in the analysis is the sum of the components it reports,
      so the profit is the price minus fee, shipping, commission, tax, ads and the
      product costs. */
  lemma AnalysisCostsConsistent(req: PricingRequest, rules: MLRules, logisticsType: string,
                                listingType: string, price: real)
    requires FeeTableOk(rules, logisticsType)
    ensures AnalysisCosts(req, rules, logisticsType, listingType, price).Consistent()
  {
    var commission := MLCommission(rules, listingType);
    calc {
      price * BitePercentage(commission, req);
      commission * price + (req.taxPercent / 100.0) * price + (req.adsInvestmentPercent / 100.0) * price;
    }
  }

  /** A blocked price does not surface as an error: the error set for the sentinel
      is overwritten by the numeric breakdown, which reports the rounded sentinel
      (-1.00) as a negative fixed fee, and the sentinel is added into the total,
      which is therefore 1.00 below the real costs. */
  lemma BlockedPriceStillNumeric(req: PricingRequest, rules: MLRules, logisticsType: string, listingType: string)
    requires FeeTableOk(rules, logisticsType) && req.WantsAnalysis()
    requires FeeAt(rules, logisticsType, req.currentSalePrice.value) == Blocked
    ensures var r := Analysis(req, rules, logisticsType, listingType);
            r.Some? && r.value.fixedFee == Round2(Blocked) && r.value.fixedFee < 0.0
    ensures var c := AnalysisCosts(req, rules, logisticsType, listingType, req.currentSalePrice.value);
            var r := Analysis(req, rules, logisticsType, listingType);
            r.Some? && r.value.totalCosts == Round2(c.totalCosts) &&
            c.totalCosts == c.commission + c.tax + c.ads + c.shipping + c.productCost + c.packagingCost - 1.0
  {
    var p := req.currentSalePrice.value;
    var c := AnalysisCosts(req, rules, logisticsType, listingType, p);
    AnalysisCostsConsistent(req, rules, logisticsType, listingType, p);
    assert c.fixedFee == Blocked;
    assert Analysis(req, rules, logisticsType, listingType).value.fixedFee == Round2(c.fixedFee);
    assert WithinHalfCent(Round2(Blocked), Blocked);
  }

  /** Below the free-shipping limit the analysis charges the seller no shipping. */
  lemma AnalysisShippingBelowLimit(req: PricingRequest, rules: MLRules, logisticsType: string, listingType: string)
    requires FeeTableOk(rules, logisticsType) && req.WantsAnalysis()
    requires req.currentSalePrice.value < FreeShippingLimit(MLLogisticsFor(rules, logisticsType))
    ensures AnalysisCosts(req, rules, logisticsType, listingType, req.currentSalePrice.value).shipping == 0.0
    ensures Analysis(req, rules, logisticsType, listingType).value.shipping == Some(Round2(0.0))
  {
  }

  /** `1 - bite - margin`: the share of the price left once commission, tax, ads
      and the target margin are taken. */
  function Divisor(req: PricingRequest, rules: MLRules, listingType: string, margin: real): real {
    1.0 - BitePercentage(MLCommission(rules, listingType), req) - PercentageDivision(margin)
  }

  /** The solve's intermediate values: the first estimate, the fee and shipping
      looked up at it, the costs that do not scale with the price, and the final
      price. */
  datatype Solve = Solve(estimatedPrice: real, realFee: real, shippingCost: real, baseCost: real, finalPrice: real)

  function SolvePrice(req: PricingRequest, rules: MLRules, logisticsType: string, listingType: string,
                      margin: real): (s: Solve)
    requires FeeTableOk(rules, logisticsType)
    requires Divisor(req, rules, listingType, margin) > 0.0
    ensures s.finalPrice * Divisor(req, rules, listingType, margin) == s.baseCost
    ensures s.baseCost == req.productCost + req.packagingCost + s.realFee + s.shippingCost
    ensures s.realFee == FeeAt(rules, logisticsType, s.estimatedPrice)
    ensures s.shippingCost == ShippingAt(req, rules, logisticsType, s.estimatedPrice)
    ensures s.estimatedPrice * Divisor(req, rules, listingType, margin) == req.productCost + req.packagingCost
  {
    var divisor := Divisor(req, rules, listingType, margin);
    var estimatedPrice := (req.productCost + req.packagingCost) / divisor;
    var realFee := FeeAt(rules, logisticsType, estimatedPrice);
    var shippingCost := ShippingAt(req, rules, logisticsType, estimatedPrice);
    var baseCost := req.productCost + req.packagingCost + realFee + shippingCost;
    Solve(estimatedPrice, realFee, shippingCost, baseCost, baseCost / divisor)
  }

  /** The suggestion's exact costs at the final price (before the source rounds
      tax, ads and commission). */
  function SuggestionCosts(req: PricingRequest, rules: MLRules, listingType: string, s: Solve): Costs {
    var price := s.finalPrice;
    Costs(price, s.realFee, PercentageDivision(req.taxPercent) * price,
          PercentageDivision(req.adsInvestmentPercent) * price, MLCommission(rules, listingType) * price,
          s.shippingCost, req.productCost, req.packagingCost,
          s.baseCost + PercentageDivision(req.adsInvestmentPercent) * price +
          PercentageDivision(req.taxPercent) * price + MLCommission(rules, listingType) * price)
  }

  /** The reported suggestion for the exact costs `c` at the final price: tax, ads
      and commission are rounded first and the total is the rounded sum of them and
      the base cost (fee, shipping and the product costs). */
  ghost function SuggestionReport(req: PricingRequest, rules: MLRules, listingType: string, margin: real, c: Costs)
    : (r: Suggestion)
    ensures r.targetMarginPercent == margin && r.breakdown.price == Round2(c.price)
    ensures r.breakdown.taxPct == req.taxPercent && r.breakdown.adsPct == req.adsInvestmentPercent &&
            r.breakdown.commissionPct == PercentageMultiplication(MLCommission(rules, listingType))
    ensures WithinHalfCent(r.breakdown.fixedFee, c.fixedFee) && WithinHalfCent(r.breakdown.tax, c.tax) &&
            WithinHalfCent(r.breakdown.ads, c.ads) && WithinHalfCent(r.breakdown.commission, c.commission)
    ensures r.breakdown.shipping.Some? && WithinHalfCent(r.breakdown.shipping.value, c.shipping)
    ensures WithinHalfCent(r.breakdown.productCost, c.productCost) &&
            WithinHalfCent(r.breakdown.packagingCost, c.packagingCost)
    ensures -0.025 <= r.breakdown.totalCosts - (c.productCost + c.packagingCost + c.fixedFee + c.shipping +
                                                 c.ads + c.tax + c.commission) <= 0.025
  {
    var baseCost := c.productCost + c.packagingCost + c.fixedFee + c.shipping;
    var ads := Round2(c.ads);
    var tax := Round2(c.tax);
    var commission := Round2(c.commission);
    var totalCosts := Round2(baseCost + ads + tax + commission);
    Suggestion(margin, Breakdown(
      price := Round2(c.price),
      fixedFee := Round2(c.fixedFee),
      tax := tax,
      taxPct := req.taxPercent,
      ads := ads,
      adsPct := req.adsInvestmentPercent,
      commission := commission,
      commissionPct := PercentageMultiplication(MLCommission(rules, listingType)),
      shipping := Some(Round2(c.shipping)),
      productCost := Round2(c.productCost),
      packagingCost := Round2(c.packagingCost),
      totalCosts := Round2(totalCosts),
      profit := Round2(c.price - totalCosts),
      profitPct := PercentFromTotal(c.price - totalCosts, c.price)))
  }

  /** The suggestion: `{}` unless a positive margin is given and it is reachable
      (the divisor is positive). */
  ghost function PriceSuggestion(req: PricingRequest, rules: MLRules, logisticsType: string, listingType: string)
    : (r: Option<Suggestion>)
    requires FeeTableOk(rules, logisticsType)
    ensures r.Some? <==> req.WantsSuggestion() && Divisor(req, rules, listingType, req.desiredMargin.value) > 0.0
    ensures r.Some? ==> r.value.targetMarginPercent == req.desiredMargin.value
  {
    if req.WantsSuggestion() && Divisor(req, rules, listingType, req.desiredMargin.value) > 0.0 then
      var margin := req.desiredMargin.value;
      var s := SolvePrice(req, rules, logisticsType, listingType, margin);
      Some(SuggestionReport(req, rules, listingType, margin, SuggestionCosts(req, rules, listingType, s)))
    else None
  }

  /** Any price that solves `price * divisor == base cost` (in particular the final
      price of `SolvePrice`) earns exactly the target margin on its own costs: price
      minus (fee, shipping, product costs, commission, tax and ads at that price) is
      margin times price. */
  lemma SolveHitsMargin(req: PricingRequest, rules: MLRules, listingType: string, margin: real, s: Solve)
    requires s.finalPrice * Divisor(req, rules, listingType, margin) == s.baseCost
    requires s.baseCost == req.productCost + req.packagingCost + s.realFee + s.shippingCost
    ensures var c := SuggestionCosts(req, rules, listingType, s);
            c.Consistent() && c.Profit() == PercentageDivision(margin) * s.finalPrice
  {
    var p := s.finalPrice;
    var commission := MLCommission(rules, listingType);
    calc {
      p * Divisor(req, rules, listingType, margin);
      p - commission * p - (req.taxPercent / 100.0) * p - (req.adsInvestmentPercent / 100.0) * p
        - (margin / 100.0) * p;
    }
  }

  /** The reported profit of a solve is within 2.5 cents of its exact profit:
      four roundings go into the reported total and one into the profit. */
  lemma SuggestionRoundingError(req: PricingRequest, rules: MLRules, listingType: string, margin: real, s: Solve)
    requires s.baseCost == req.productCost + req.packagingCost + s.realFee + s.shippingCost
    ensures var c := SuggestionCosts(req, rules, listingType, s);
            var b := SuggestionReport(req, rules, listingType, margin, c).breakdown;
            -0.025 <= b.profit - c.Profit() <= 0.025
  {
    var c := SuggestionCosts(req, rules, listingType, s);
    var total := Round2(s.baseCost + Round2(c.ads) + Round2(c.tax) + Round2(c.commission));
    assert -0.02 <= total - (s.baseCost + c.ads + c.tax + c.commission) <= 0.02;
  }

  /** With the source's rounding, the reported profit of a solve (in particular of
      `SolvePrice`, whose postconditions are these requirements) is within 2.5 cents
      of the target margin times the unrounded final price. */
  lemma ReportedProfitNearMargin(req: PricingRequest, rules: MLRules, listingType: string, margin: real, s: Solve)
    requires s.finalPrice * Divisor(req, rules, listingType, margin) == s.baseCost
    requires s.baseCost == req.productCost + req.packagingCost + s.realFee + s.shippingCost
    ensures var b := SuggestionReport(req, rules, listingType, margin, SuggestionCosts(req, rules, listingType, s)).breakdown;
            -0.025 <= b.profit - PercentageDivision(margin) * s.finalPrice <= 0.025
  {
    var c := SuggestionCosts(req, rules, listingType, s);
    var b := SuggestionReport(req, rules, listingType, margin, c).breakdown;
    assert c.Profit() == PercentageDivision(margin) * s.finalPrice by {
      SolveHitsMargin(req, rules, listingType, margin, s);
    }
    assert -0.025 <= b.profit - c.Profit() <= 0.025 by {
      SuggestionRoundingError(req, rules, listingType, margin, s);
    }
  }

  /** The suggestion never checks for the blocked sentinel: a blocked tier at the
      first estimate subtracts 1.00 from the base cost. */
  lemma BlockedFeeEntersSuggestion(req: PricingRequest, rules: MLRules, logisticsType: string,
                                   listingType: string, margin: real)
    requires FeeTableOk(rules, logisticsType)
    requires Divisor(req, rules, listingType, margin) > 0.0
    requires var d := Divisor(req, rules, listingType, margin);
             FeeAt(rules, logisticsType, (req.productCost + req.packagingCost) / d) == Blocked
    ensures var s := SolvePrice(req, rules, logisticsType, listingType, margin);
            s.baseCost == req.productCost + req.packagingCost - 1.0 + s.shippingCost
  {
  }

  /** `calculate_ml(data, logistics_type, listing_type)`. */
  ghost function CalculateML(req: PricingRequest, rules: MLRules, logisticsType: string, listingType: string)
    : (r: MarketplaceResult)
    requires FeeTableOk(rules, logisticsType)
    ensures r.MercadoLivreResult? && r.logisticsType == logisticsType && r.listingType == listingType
    ensures r.analysis.Some? <==> req.WantsAnalysis()
    ensures r.suggestion.Some? <==>
              req.WantsSuggestion() && Divisor(req, rules, listingType, req.desiredMargin.value) > 0.0
  {
    MercadoLivreResult(logisticsType, listingType,
                       Analysis(req, rules, logisticsType, listingType),
                       PriceSuggestion(req, rules, logisticsType, listingType))
  }

  /** A worked example: costs 10 + 2, sale price 50, no tax or ads, premium listing,
      no rule file. The commission is round(0.17 * 50, 2) = round(8.5, 2), reported
      as 17%. */
  lemma PremiumCommissionExample()
    ensures var req := DefaultRequest(10.0, 2.0).(currentSalePrice := Some(50.0));
            var b := Analysis(req, NoMLRules, "padrao", "premium").value;
            b.commission == Round2(8.5) && b.commissionPct == 17.0
  {
    assert MLCommission(NoMLRules, "premium") == 0.17;
  }
}
