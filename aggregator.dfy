/** `calculate_price`: one request priced on every marketplace, in a fixed order. */
module Aggregator {
  import opened Wrappers
  import opened Helpers
  import opened Request
  import opened Rules
  import opened Results
  import MercadoLivre
  import Shopee
  import Shein

  /** The results for Mercado Livre premium and classic listings (both with
      standard logistics), Shopee and Shein, in that order. */
  ghost function CalculatePrice(req: PricingRequest, ml: MLRules, shopee: ShopeeRules, shein: SheinRules)
    : (results: seq<MarketplaceResult>)
    requires MercadoLivre.FeeTableOk(ml, "padrao")
    ensures |results| == 4
    ensures results[0].MercadoLivreResult? && results[0].listingType == "premium"
    ensures results[1].MercadoLivreResult? && results[1].listingType == "classico"
    ensures results[0].logisticsType == "padrao" && results[1].logisticsType == "padrao"
    ensures results[2].ShopeeResult? && results[3].SheinResult?
    ensures forall i | 0 <= i < 4 :: results[i].analysis.Some? <==> req.WantsAnalysis()
    ensures results[2].suggestion.Some? <==> req.WantsSuggestion()
  {
    [MercadoLivre.CalculateML(req, ml, "padrao", "premium"),
     MercadoLivre.CalculateML(req, ml, "padrao", "classico"),
     Shopee.CalculateShopee(req, shopee),
     Shein.CalculateShein(req, shein)]
  }

  /** Two requests that differ at most in their listing and logistics types. */
  predicate SameButTypes(a: PricingRequest, b: PricingRequest) {
    a.productCost == b.productCost && a.packagingCost == b.packagingCost &&
    a.currentSalePrice == b.currentSalePrice && a.desiredMargin == b.desiredMargin &&
    a.taxPercent == b.taxPercent && a.adsInvestmentPercent == b.adsInvestmentPercent &&
    a.weightKg == b.weightKg && a.isCpf == b.isCpf && a.ordersLast90Days == b.ordersLast90Days &&
    a.useFreeShipping == b.useFreeShipping && a.sheinDaysSinceRegistration == b.sheinDaysSinceRegistration
  }

  /** The Mercado Livre analysis reads neither of the request's type fields. */
  lemma MercadoLivreAnalysisIgnoresTypes(a: PricingRequest, b: PricingRequest, ml: MLRules, listing: string)
    requires MercadoLivre.FeeTableOk(ml, "padrao") && SameButTypes(a, b)
    ensures MercadoLivre.Analysis(a, ml, "padrao", listing) == MercadoLivre.Analysis(b, ml, "padrao", listing)
  {
    if a.WantsAnalysis() {
      MercadoLivreCostsIgnoreTypes(a, b, ml, listing, a.currentSalePrice.value);
    }
  }

  /** The Mercado Livre costs at a price read neither of them. */
  lemma MercadoLivreCostsIgnoreTypes(a: PricingRequest, b: PricingRequest, ml: MLRules, listing: string, p: real)
    requires MercadoLivre.FeeTableOk(ml, "padrao") && SameButTypes(a, b)
    ensures MercadoLivre.AnalysisCosts(a, ml, "padrao", listing, p) ==
            MercadoLivre.AnalysisCosts(b, ml, "padrao", listing, p)
  {
    var commission := MLCommission(ml, listing);
    assert MercadoLivre.BitePercentage(commission, a) == MercadoLivre.BitePercentage(commission, b);
    assert MercadoLivre.ShippingAt(a, ml, "padrao", p) == MercadoLivre.ShippingAt(b, ml, "padrao", p);
  }

  /** Nor does the Mercado Livre suggestion. */
  lemma MercadoLivreSuggestionIgnoresTypes(a: PricingRequest, b: PricingRequest, ml: MLRules, listing: string)
    requires MercadoLivre.FeeTableOk(ml, "padrao") && SameButTypes(a, b)
    ensures MercadoLivre.PriceSuggestion(a, ml, "padrao", listing) ==
            MercadoLivre.PriceSuggestion(b, ml, "padrao", listing)
  {
    var m := a.desiredMargin.GetOr(0.0);
    assert MercadoLivre.Divisor(a, ml, listing, m) == MercadoLivre.Divisor(b, ml, listing, m) by {
      assert MercadoLivre.BitePercentage(MLCommission(ml, listing), a) ==
             MercadoLivre.BitePercentage(MLCommission(ml, listing), b);
    }
    if a.WantsSuggestion() && MercadoLivre.Divisor(a, ml, listing, m) > 0.0 {
      MercadoLivreSolveIgnoresTypes(a, b, ml, listing, m);
      var s := MercadoLivre.SolvePrice(a, ml, "padrao", listing, m);
      MercadoLivreSuggestionCostsIgnoreTypes(a, b, ml, listing, s);
    }
  }

  /** The Mercado Livre solve reads neither of them. */
  lemma MercadoLivreSolveIgnoresTypes(a: PricingRequest, b: PricingRequest, ml: MLRules, listing: string, m: real)
    requires MercadoLivre.FeeTableOk(ml, "padrao") && SameButTypes(a, b)
    requires MercadoLivre.Divisor(a, ml, listing, m) == MercadoLivre.Divisor(b, ml, listing, m) > 0.0
    ensures MercadoLivre.SolvePrice(a, ml, "padrao", listing, m) == MercadoLivre.SolvePrice(b, ml, "padrao", listing, m)
  {
    var est := (a.productCost + a.packagingCost) / MercadoLivre.Divisor(a, ml, listing, m);
    assert MercadoLivre.ShippingAt(a, ml, "padrao", est) == MercadoLivre.ShippingAt(b, ml, "padrao", est);
  }

  /** The Mercado Livre suggestion costs of a solve read neither of them. */
  lemma MercadoLivreSuggestionCostsIgnoreTypes(a: PricingRequest, b: PricingRequest, ml: MLRules, listing: string,
                                               s: MercadoLivre.Solve)
    requires SameButTypes(a, b)
    ensures MercadoLivre.SuggestionCosts(a, ml, listing, s) == MercadoLivre.SuggestionCosts(b, ml, listing, s)
  {
  }

  /** The Shopee iteration reads neither of them, round after round. */
  lemma {:induction false} ShopeeIterateIgnoresTypes(a: PricingRequest, b: PricingRequest, shopee: ShopeeRules,
                                                     margin: real, guess: real, rounds: nat)
    requires SameButTypes(a, b)
    ensures Shopee.Iterate(a, shopee, margin, guess, rounds) == Shopee.Iterate(b, shopee, margin, guess, rounds)
    decreases rounds
  {
    ShopeeStepIgnoresTypes(a, b, shopee, margin, guess);
    if rounds > 0 {
      if Shopee.Divisor(a, margin) <= 0.0 {
        ShopeeIterateIgnoresTypes(a, b, shopee, margin, guess, rounds - 1);
      } else {
        ShopeeIterateIgnoresTypes(a, b, shopee, margin, Shopee.Step(a, shopee, margin, guess), rounds - 1);
      }
    }
  }

  /** One Shopee round and its divisor read neither of them. */
  lemma ShopeeStepIgnoresTypes(a: PricingRequest, b: PricingRequest, shopee: ShopeeRules, margin: real, guess: real)
    requires SameButTypes(a, b)
    ensures Shopee.Divisor(a, margin) == Shopee.Divisor(b, margin)
    ensures Shopee.Divisor(a, margin) > 0.0 ==>
              Shopee.Step(a, shopee, margin, guess) == Shopee.Step(b, shopee, margin, guess)
  {
    assert Shopee.FeeAt(a, shopee, guess) == Shopee.FeeAt(b, shopee, guess);
    assert Shopee.CommissionAt(a, shopee, guess) == Shopee.CommissionAt(b, shopee, guess);
  }

  /** The Shopee breakdown at a price reads neither of them. */
  lemma ShopeeReportIgnoresTypes(a: PricingRequest, b: PricingRequest, shopee: ShopeeRules, price: real, shown: real)
    requires SameButTypes(a, b)
    ensures Shopee.ReportAt(a, shopee, price, shown) == Shopee.ReportAt(b, shopee, price, shown)
  {
    ShopeeCostsIgnoreTypes(a, b, shopee, price);
  }

  /** The Shopee costs at a price read neither of them. */
  lemma ShopeeCostsIgnoreTypes(a: PricingRequest, b: PricingRequest, shopee: ShopeeRules, price: real)
    requires SameButTypes(a, b)
    ensures Shopee.CommissionAt(a, shopee, price) == Shopee.CommissionAt(b, shopee, price)
    ensures Shopee.CostsAt(a, shopee, price) == Shopee.CostsAt(b, shopee, price)
  {
    assert Shopee.CommissionRate(a, shopee) == Shopee.CommissionRate(b, shopee);
    assert Shopee.FeeAt(a, shopee, price) == Shopee.FeeAt(b, shopee, price);
  }

  /** Hence the whole Shopee result reads neither of them. */
  lemma ShopeeIgnoresTypes(a: PricingRequest, b: PricingRequest, shopee: ShopeeRules)
    requires SameButTypes(a, b)
    ensures Shopee.CalculateShopee(a, shopee) == Shopee.CalculateShopee(b, shopee)
  {
    if a.WantsAnalysis() {
      var p := a.currentSalePrice.value;
      ShopeeReportIgnoresTypes(a, b, shopee, p, p);
    }
    if a.WantsSuggestion() {
      var m := a.desiredMargin.value;
      ShopeeIterateIgnoresTypes(a, b, shopee, m, Shopee.StartGuess(a), Shopee.MaxRounds);
      var g := Shopee.SuggestedPrice(a, shopee, m);
      assert g == Shopee.SuggestedPrice(b, shopee, m);
      ShopeeReportIgnoresTypes(a, b, shopee, g, Round2(g));
    }
  }

  /** The Shein analysis reads neither of them. */
  lemma SheinAnalysisIgnoresTypes(a: PricingRequest, b: PricingRequest, shein: SheinRules)
    requires SameButTypes(a, b)
    ensures Shein.Analysis(a, shein) == Shein.Analysis(b, shein)
  {
    if a.WantsAnalysis() {
      var p := a.currentSalePrice.value;
      assert Shein.CostsAt(a, shein, p) == Shein.CostsAt(b, shein, p);
    }
  }

  /** Nor does the Shein suggestion. */
  lemma SheinSuggestionIgnoresTypes(a: PricingRequest, b: PricingRequest, shein: SheinRules)
    requires SameButTypes(a, b)
    ensures Shein.PriceSuggestion(a, shein) == Shein.PriceSuggestion(b, shein)
  {
    var m := a.desiredMargin.GetOr(0.0);
    assert Shein.Denominator(a, shein, m) == Shein.Denominator(b, shein, m);
    if a.WantsSuggestion() && Shein.Denominator(a, shein, m) > 0.0 {
      var p := Shein.SuggestedPrice(a, shein, m);
      assert p == Shein.SuggestedPrice(b, shein, m);
      assert Shein.CostsAt(a, shein, p) == Shein.CostsAt(b, shein, p);
    }
  }

  /** The request's own listing and logistics types do not affect the answer: the
      two Mercado Livre listings are always priced with standard logistics. */
  lemma ListingAndLogisticsIgnored(req: PricingRequest, listingType: string, logisticsType: string,
                                   ml: MLRules, shopee: ShopeeRules, shein: SheinRules)
    requires MercadoLivre.FeeTableOk(ml, "padrao")
    ensures CalculatePrice(req.(listingType := listingType, logisticsType := logisticsType), ml, shopee, shein)
            == CalculatePrice(req, ml, shopee, shein)
  {
    var other := req.(listingType := listingType, logisticsType := logisticsType);
    MercadoLivreAnalysisIgnoresTypes(other, req, ml, "premium");
    MercadoLivreAnalysisIgnoresTypes(other, req, ml, "classico");
    MercadoLivreSuggestionIgnoresTypes(other, req, ml, "premium");
    MercadoLivreSuggestionIgnoresTypes(other, req, ml, "classico");
    ShopeeIgnoresTypes(other, req, shopee);
    SheinAnalysisIgnoresTypes(other, req, shein);
    SheinSuggestionIgnoresTypes(other, req, shein);
  }
}
