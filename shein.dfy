/** `calculate_shein`: a flat commission rate (zero for new sellers), no fixed
    fee, and a suggestion solved in closed form. */
module Shein {
  import opened Wrappers
  import opened Helpers
  import opened Request
  import opened Rules
  import opened Results

  /** Shein charges no fixed fee. */
  const FixedFee: real := 0.0

  /** The seller registered no more than the new-seller limit of days ago. */
  predicate IsNewSeller(req: PricingRequest, rules: SheinRules) {
    req.sheinDaysSinceRegistration <= NewSellerDaysLimit(rules)
  }

  /** The commission rate: the new-seller rate inside the new-seller window, the
      standard rate after it. */
  function CommissionRate(req: PricingRequest, rules: SheinRules): (rate: real)
    ensures IsNewSeller(req, rules) ==> rate == NewSellerCommission(rules)
    ensures !IsNewSeller(req, rules) ==> rate == StandardCommission(rules)
  {
    if req.sheinDaysSinceRegistration <= NewSellerDaysLimit(rules) then NewSellerCommission(rules)
    else StandardCommission(rules)
  }

  /** The seller-tier label. */
  function SellerType(req: PricingRequest, rules: SheinRules): (tier: string)
    ensures tier == "New Seller (0% Comm)" <==> IsNewSeller(req, rules)
    ensures tier == "Standard (16%)" <==> !IsNewSeller(req, rules)
  {
    if IsNewSeller(req, rules) then "New Seller (0% Comm)" else "Standard (16%)"
  }

  /** The exact costs at `price`. */
  function CostsAt(req: PricingRequest, rules: SheinRules, price: real): (c: Costs)
    ensures c.Consistent() && c.price == price && c.fixedFee == 0.0 && c.shipping == 0.0
    ensures c.commission == price * CommissionRate(req, rules)
  {
    var commission := price * CommissionRate(req, rules);
    var tax := PercentageDivision(req.taxPercent) * price;
    var ads := PercentageDivision(req.adsInvestmentPercent) * price;
    Costs(price, FixedFee, tax, ads, commission, 0.0, req.productCost, req.packagingCost,
          commission + FixedFee + tax + ads + req.productCost + req.packagingCost)
  }

  /** The reported breakdown at `price`, showing `shownPrice` as the price. */
  ghost function ReportAt(req: PricingRequest, rules: SheinRules, price: real, shownPrice: real): (b: Breakdown)
    ensures b.price == shownPrice && b.shipping.None?
  {
    var c := CostsAt(req, rules, price);
    Report(c, shownPrice, req.taxPercent, req.adsInvestmentPercent, PercentFromTotal(c.commission, price), false)
  }

  /** The analysis: `{}` unless a positive sale price is given. */
  ghost function Analysis(req: PricingRequest, rules: SheinRules): (r: Option<Breakdown>)
    ensures r.Some? <==> req.WantsAnalysis()
    ensures r.Some? ==> r.value.price == req.currentSalePrice.value
  {
    if req.WantsAnalysis() then
      var price := req.currentSalePrice.value;
      Some(ReportAt(req, rules, price, price))
    else None
  }

  /** `1 - tax - ads - margin - rate`: the share of the price left for the product
      costs. */
  function Denominator(req: PricingRequest, rules: SheinRules, margin: real): real {
    1.0 - PercentageDivision(req.taxPercent) - PercentageDivision(req.adsInvestmentPercent) -
    PercentageDivision(margin) - CommissionRate(req, rules)
  }

  /** The suggested price: the product costs (and the zero fixed fee) over the
      denominator. */
  function SuggestedPrice(req: PricingRequest, rules: SheinRules, margin: real): (price: real)
    requires Denominator(req, rules, margin) > 0.0
    ensures price * Denominator(req, rules, margin) == req.productCost + req.packagingCost + FixedFee
  {
    (req.productCost + req.packagingCost + FixedFee) / Denominator(req, rules, margin)
  }

  /** The suggestion: `{}` unless a positive margin is given and the denominator is
      positive. */
  ghost function PriceSuggestion(req: PricingRequest, rules: SheinRules): (r: Option<Suggestion>)
    ensures r.Some? <==> req.WantsSuggestion() && Denominator(req, rules, req.desiredMargin.value) > 0.0
    ensures r.Some? ==> r.value.targetMarginPercent == req.desiredMargin.value
  {
    if req.WantsSuggestion() && Denominator(req, rules, req.desiredMargin.value) > 0.0 then
      var margin := req.desiredMargin.value;
      var price := SuggestedPrice(req, rules, margin);
      Some(Suggestion(margin, ReportAt(req, rules, price, Round2(price))))
    else None
  }

  /** The suggested price earns exactly the target margin. */
  lemma SuggestionHitsMargin(req: PricingRequest, rules: SheinRules, margin: real)
    requires Denominator(req, rules, margin) > 0.0
    ensures CostsAt(req, rules, SuggestedPrice(req, rules, margin)).Profit() ==
            PercentageDivision(margin) * SuggestedPrice(req, rules, margin)
  {
    var p := SuggestedPrice(req, rules, margin);
    var c := CostsAt(req, rules, p);
    assert p * Denominator(req, rules, margin) == req.productCost + req.packagingCost;
    calc {
      c.Profit();
      p - (p * CommissionRate(req, rules) + (req.taxPercent / 100.0) * p
           + (req.adsInvestmentPercent / 100.0) * p + req.productCost + req.packagingCost);
      p - p * CommissionRate(req, rules) - (req.taxPercent / 100.0) * p
        - (req.adsInvestmentPercent / 100.0) * p - p * Denominator(req, rules, margin);
      (margin / 100.0) * p;
    }
  }

  /** The suggested price is positive when the product costs are. */
  lemma SuggestedPricePositive(req: PricingRequest, rules: SheinRules, margin: real)
    requires Denominator(req, rules, margin) > 0.0 && req.productCost + req.packagingCost > 0.0
    ensures SuggestedPrice(req, rules, margin) > 0.0
  {
    var d := Denominator(req, rules, margin);
    var p := SuggestedPrice(req, rules, margin);
    assert p * d > 0.0;
  }

  /** The reported profit percentage of a suggestion is the target margin to within
      the rounding, unless the product costs sum to 0: the price is then 0 and the
      percentage of a zero total is reported as 0. */
  lemma ReportedProfitNearMargin(req: PricingRequest, rules: SheinRules)
    requires req.WantsSuggestion() && Denominator(req, rules, req.desiredMargin.value) > 0.0
    requires req.productCost + req.packagingCost != 0.0
    ensures -0.005 <= PriceSuggestion(req, rules).value.breakdown.profitPct - req.desiredMargin.value <= 0.005
  {
    var m := req.desiredMargin.value;
    var p := SuggestedPrice(req, rules, m);
    var c := CostsAt(req, rules, p);
    SuggestionHitsMargin(req, rules, m);
    assert p != 0.0 by {
      assert p * Denominator(req, rules, m) == req.productCost + req.packagingCost + FixedFee;
    }
    assert c.Profit() / p * 100.0 == m;
  }

  /** Inside the new-seller window with the default rules no commission is charged. */
  lemma NewSellerPaysNoCommission(req: PricingRequest, price: real)
    requires req.sheinDaysSinceRegistration <= 30
    ensures CostsAt(req, NoSheinRules, price).commission == 0.0
    ensures SellerType(req, NoSheinRules) == "New Seller (0% Comm)"
  {
  }

  /** A standard seller with product cost 10 and packaging 2, no tax or ads, asking
      for a 20% margin: the denominator is 0.64 and the suggested price 18.75. */
  lemma StandardSellerExample()
    ensures var req := DefaultRequest(10.0, 2.0).(desiredMargin := Some(20.0));
            Denominator(req, NoSheinRules, 20.0) == 0.64 &&
            SuggestedPrice(req, NoSheinRules, 20.0) == 18.75 &&
            PriceSuggestion(req, NoSheinRules).value.breakdown.price == Round2(18.75)
  {
  }

  /** `calculate_shein(data)`. */
  ghost function CalculateShein(req: PricingRequest, rules: SheinRules): (r: MarketplaceResult)
    ensures r.SheinResult?
    ensures r.sellerType == "New Seller (0% Comm)" <==> IsNewSeller(req, rules)
    ensures r.analysis.Some? <==> req.WantsAnalysis()
    ensures r.suggestion.Some? <==> req.WantsSuggestion() && Denominator(req, rules, req.desiredMargin.value) > 0.0
  {
    SheinResult(SellerType(req, rules), Analysis(req, rules), PriceSuggestion(req, rules))
  }
}
