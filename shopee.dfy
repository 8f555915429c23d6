/** `calculate_shopee`: commission with a cap, a fixed fee that depends on the
    seller tier and the price, and a suggestion found by a bounded fixed-point
    iteration. */
module Shopee {
  import opened Wrappers
  import opened Helpers
  import opened Request
  import opened Rules
  import opened Resolvers
  import opened Results

  /** Successive estimates closer than this end the iteration. */
  const Tolerance: real := 0.05
  /** The iteration runs at most this many rounds. */
  const MaxRounds: nat := 10

  /** The seller is an individual (CPF) with more orders in the last 90 days than
      the high-volume threshold. */
  predicate IsHighVolume(req: PricingRequest, rules: ShopeeRules) {
    req.isCpf && req.ordersLast90Days > CpfHighVolumeThreshold(rules)
  }

  /** The commission rate: the base rate, plus the free-shipping program surcharge
      when the seller takes part in it. */
  function CommissionRate(req: PricingRequest, rules: ShopeeRules): (rate: real)
    ensures req.useFreeShipping ==> rate == BaseCommission(rules) + FreeShippingProgram(rules)
    ensures !req.useFreeShipping ==> rate == BaseCommission(rules)
  {
    var rate := BaseCommission(rules);
    if req.useFreeShipping then rate + FreeShippingProgram(rules) else rate
  }

  /** The base fixed fee: the standard fee, plus the CPF surcharge exactly for a
      high-volume individual seller. */
  function BaseFixed(req: PricingRequest, rules: ShopeeRules): (fee: real)
    ensures IsHighVolume(req, rules) ==> fee == StandardFee(rules) + CpfExtra(rules)
    ensures !IsHighVolume(req, rules) ==> fee == StandardFee(rules)
  {
    var fee := StandardFee(rules);
    if req.isCpf && req.ordersLast90Days > CpfHighVolumeThreshold(rules) then fee + CpfExtra(rules) else fee
  }

  /** The seller-tier label. */
  function SellerType(req: PricingRequest, rules: ShopeeRules): (tier: string)
    ensures tier == "High Volume CPF" <==> IsHighVolume(req, rules)
  {
    if IsHighVolume(req, rules) then "High Volume CPF" else "Standard"
  }

  /** The fixed fee at `price`. */
  function FeeAt(req: PricingRequest, rules: ShopeeRules, price: real): real {
    ShopeeFixedFee(price, BaseFixed(req, rules), RegressiveThreshold(rules), LowValueThreshold(rules))
  }

  /** The commission at `price`: the rate applied to the price, capped. */
  function CommissionAt(req: PricingRequest, rules: ShopeeRules, price: real): (c: real)
    ensures c <= CommissionCap(rules) && c <= price * CommissionRate(req, rules)
    ensures c == CommissionCap(rules) || c == price * CommissionRate(req, rules)
  {
    Min(price * CommissionRate(req, rules), CommissionCap(rules))
  }

  /** The exact costs at `price` (no shipping is charged on Shopee). */
  function CostsAt(req: PricingRequest, rules: ShopeeRules, price: real): (c: Costs)
    ensures c.Consistent() && c.price == price && c.shipping == 0.0
  {
    var commission := CommissionAt(req, rules, price);
    var fixedFee := FeeAt(req, rules, price);
    var tax := PercentageDivision(req.taxPercent) * price;
    var ads := PercentageDivision(req.adsInvestmentPercent) * price;
    Costs(price, fixedFee, tax, ads, commission, 0.0, req.productCost, req.packagingCost,
          commission + fixedFee + tax + ads + req.productCost + req.packagingCost)
  }

  /** The reported breakdown at `price`, showing `shownPrice` as the price. */
  ghost function ReportAt(req: PricingRequest, rules: ShopeeRules, price: real, shownPrice: real): (b: Breakdown)
    ensures b.price == shownPrice && b.shipping.None?
  {
    Report(CostsAt(req, rules, price), shownPrice, req.taxPercent, req.adsInvestmentPercent,
           PercentFromTotal(CommissionAt(req, rules, price), price), false)
  }

  /** The analysis: `{}` unless a positive sale price is given. The reported
      commission never exceeds the cap by more than the rounding. */
  ghost function Analysis(req: PricingRequest, rules: ShopeeRules): (r: Option<Breakdown>)
    ensures r.Some? <==> req.WantsAnalysis()
    ensures r.Some? ==> r.value.price == req.currentSalePrice.value
    ensures r.Some? ==> r.value.commission <= CommissionCap(rules) + 0.005
  {
    if req.WantsAnalysis() then
      var price := req.currentSalePrice.value;
      Some(ReportAt(req, rules, price, price))
    else None
  }

  /** `1 - tax - ads - margin`: the share of the price left for the fee, the
      commission and the product costs. */
  function Divisor(req: PricingRequest, margin: real): real {
    1.0 - PercentageDivision(req.taxPercent) - PercentageDivision(req.adsInvestmentPercent) -
    PercentageDivision(margin)
  }

  /** One round of the iteration: the price that covers the costs at `guess`. */
  function Step(req: PricingRequest, rules: ShopeeRules, margin: real, guess: real): real
    requires Divisor(req, margin) > 0.0
  {
    (req.productCost + req.packagingCost + FeeAt(req, rules, guess) + CommissionAt(req, rules, guess)) /
    Divisor(req, margin)
  }

  /** The estimate after at most `rounds` more rounds from `guess`: a round with a
      non-positive divisor changes nothing; a round whose new estimate is within
      the tolerance of the old one ends the iteration with the new estimate. */
  function Iterate(req: PricingRequest, rules: ShopeeRules, margin: real, guess: real, rounds: nat): real
    decreases rounds
  {
    if rounds == 0 then guess
    else if Divisor(req, margin) <= 0.0 then Iterate(req, rules, margin, guess, rounds - 1)
    else
      var next := Step(req, rules, margin, guess);
      if Abs(next - guess) < Tolerance then next
      else Iterate(req, rules, margin, next, rounds - 1)
  }

  /** The first estimate: twice the product cost. */
  function StartGuess(req: PricingRequest): real {
    req.productCost * 2.0
  }

  /** The suggested price the iteration settles on. */
  function SuggestedPrice(req: PricingRequest, rules: ShopeeRules, margin: real): real {
    Iterate(req, rules, margin, StartGuess(req), MaxRounds)
  }

  /** The suggestion loop of `calculate_shopee` (at most ten rounds, leaving early
      once an estimate is within the tolerance of the previous one). */
  method SolveSuggestedPrice(req: PricingRequest, rules: ShopeeRules, margin: real) returns (priceGuess: real)
    ensures priceGuess == SuggestedPrice(req, rules, margin)
  {
    priceGuess := req.productCost * 2.0;
    var round := 0;
    while round < MaxRounds
      invariant 0 <= round <= MaxRounds
      invariant Iterate(req, rules, margin, priceGuess, MaxRounds - round) == SuggestedPrice(req, rules, margin)
    {
      var currFixed := FeeAt(req, rules, priceGuess);
      var currComm := CommissionAt(req, rules, priceGuess);
      var baseCashNeeded := req.productCost + req.packagingCost + currFixed + currComm;
      var divisor := 1.0 - PercentageDivision(req.taxPercent) - PercentageDivision(req.adsInvestmentPercent) -
                     PercentageDivision(margin);
      if divisor > 0.0 {
        var newPrice := baseCashNeeded / divisor;
        if Abs(newPrice - priceGuess) < Tolerance {
          priceGuess := newPrice;
          break;
        }
        priceGuess := newPrice;
      }
      round := round + 1;
    }
  }

  /** The suggestion: whenever a positive margin is given there is one, even when
      the margin is unreachable. */
  ghost function PriceSuggestion(req: PricingRequest, rules: ShopeeRules): (r: Option<Suggestion>)
    ensures r.Some? <==> req.WantsSuggestion()
    ensures r.Some? ==> r.value.targetMarginPercent == req.desiredMargin.value
  {
    if req.WantsSuggestion() then
      var margin := req.desiredMargin.value;
      var priceGuess := SuggestedPrice(req, rules, margin);
      Some(Suggestion(margin, ReportAt(req, rules, priceGuess, Round2(priceGuess))))
    else None
  }

  /** With a non-positive divisor no round changes the estimate. */
  lemma {:induction false} IterateStuck(req: PricingRequest, rules: ShopeeRules, margin: real, guess: real,
                                        rounds: nat)
    requires Divisor(req, margin) <= 0.0
    ensures Iterate(req, rules, margin, guess, rounds) == guess
  {
    if rounds > 0 {
      IterateStuck(req, rules, margin, guess, rounds - 1);
    }
  }

  /** An unreachable margin is not omitted: the suggestion is reported at the first
      estimate, twice the product cost. */
  lemma UnreachableMarginKeepsStart(req: PricingRequest, rules: ShopeeRules)
    requires req.WantsSuggestion() && Divisor(req, req.desiredMargin.value) <= 0.0
    ensures SuggestedPrice(req, rules, req.desiredMargin.value) == 2.0 * req.productCost
    ensures PriceSuggestion(req, rules).Some?
    ensures PriceSuggestion(req, rules).value.breakdown.price == Round2(2.0 * req.productCost)
  {
    IterateStuck(req, rules, req.desiredMargin.value, StartGuess(req), MaxRounds);
  }

  /** The estimate after `k` unconditional rounds. */
  function Orbit(req: PricingRequest, rules: ShopeeRules, margin: real, guess: real, k: nat): real
    requires Divisor(req, margin) > 0.0
    decreases k
  {
    if k == 0 then guess else Orbit(req, rules, margin, Step(req, rules, margin, guess), k - 1)
  }

  /** Round `k` (1-based) brought the estimate within the tolerance of the one
      before. */
  predicate Converged(req: PricingRequest, rules: ShopeeRules, margin: real, guess: real, k: nat)
    requires Divisor(req, margin) > 0.0 && k >= 1
  {
    Abs(Orbit(req, rules, margin, guess, k) - Orbit(req, rules, margin, guess, k - 1)) < Tolerance
  }

  /** With a positive divisor, `rounds` rounds from `guess` stop at the first round
      `k` that converges, or after the last round if none does. */
  lemma {:induction false} IterateStopsAtFirstConvergence(req: PricingRequest, rules: ShopeeRules, margin: real,
                                                          guess: real, rounds: nat)
    requires Divisor(req, margin) > 0.0 && rounds >= 1
    ensures exists k: nat | 1 <= k <= rounds ::
              Iterate(req, rules, margin, guess, rounds) == Orbit(req, rules, margin, guess, k) &&
              (k < rounds ==> Converged(req, rules, margin, guess, k)) &&
              forall j: nat | 1 <= j < k :: !Converged(req, rules, margin, guess, j)
    decreases rounds
  {
    var next := Step(req, rules, margin, guess);
    assert Orbit(req, rules, margin, guess, 1) == next;
    if Abs(next - guess) < Tolerance || rounds == 1 {
      assert Iterate(req, rules, margin, guess, rounds) == Orbit(req, rules, margin, guess, 1);
    } else {
      IterateStopsAtFirstConvergence(req, rules, margin, next, rounds - 1);
      var k: nat :| 1 <= k <= rounds - 1 &&
              Iterate(req, rules, margin, next, rounds - 1) == Orbit(req, rules, margin, next, k) &&
              (k < rounds - 1 ==> Converged(req, rules, margin, next, k)) &&
              forall j: nat | 1 <= j < k :: !Converged(req, rules, margin, next, j);
      assert Orbit(req, rules, margin, guess, k + 1) == Orbit(req, rules, margin, next, k);
      forall j: nat | 1 <= j < k + 1 ensures !Converged(req, rules, margin, guess, j) {
        if j > 1 {
          assert Orbit(req, rules, margin, guess, j) == Orbit(req, rules, margin, next, j - 1);
          assert Orbit(req, rules, margin, guess, j - 1) == Orbit(req, rules, margin, next, j - 2);
          assert !Converged(req, rules, margin, next, j - 1);
        }
      }
      if k + 1 < rounds {
        assert Orbit(req, rules, margin, guess, k) == Orbit(req, rules, margin, next, k - 1);
      }
    }
  }

  /** The suggested price is the estimate of the first of the ten rounds that
      converges, or of the tenth round if none does (the last estimate is returned,
      not an error). */
  lemma SuggestionStopsAtFirstConvergence(req: PricingRequest, rules: ShopeeRules, margin: real)
    requires Divisor(req, margin) > 0.0
    ensures exists k: nat | 1 <= k <= MaxRounds ::
              SuggestedPrice(req, rules, margin) == Orbit(req, rules, margin, StartGuess(req), k) &&
              (k < MaxRounds ==> Converged(req, rules, margin, StartGuess(req), k)) &&
              forall j: nat | 1 <= j < k :: !Converged(req, rules, margin, StartGuess(req), j)
  {
    IterateStopsAtFirstConvergence(req, rules, margin, StartGuess(req), MaxRounds);
  }

  /** At a fixed point of the iteration the price earns exactly the target margin
      on the costs at that price. */
  lemma FixedPointHitsMargin(req: PricingRequest, rules: ShopeeRules, margin: real, price: real)
    requires Divisor(req, margin) > 0.0 && Step(req, rules, margin, price) == price
    ensures CostsAt(req, rules, price).Profit() == PercentageDivision(margin) * price
  {
    var d := Divisor(req, margin);
    var c := CostsAt(req, rules, price);
    assert price * d == req.productCost + req.packagingCost + c.fixedFee + c.commission;
    calc {
      price * d;
      price - (req.taxPercent / 100.0) * price - (req.adsInvestmentPercent / 100.0) * price
        - (margin / 100.0) * price;
    }
  }

  /** `calculate_shopee(data)`. */
  ghost function CalculateShopee(req: PricingRequest, rules: ShopeeRules): (r: MarketplaceResult)
    ensures r.ShopeeResult?
    ensures r.sellerType == "High Volume CPF" <==> IsHighVolume(req, rules)
    ensures r.analysis.Some? <==> req.WantsAnalysis()
    ensures r.suggestion.Some? <==> req.WantsSuggestion()
  {
    ShopeeResult(SellerType(req, rules), Analysis(req, rules), PriceSuggestion(req, rules))
  }
}
