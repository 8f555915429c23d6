/** The per-marketplace rule files, as records. A key that is missing from the JSON
    is `None` (or absent from a map), and each accessor below applies the default
    the engine writes inline at its `.get(..., default)` call. A rule file that
    cannot be read or parsed is the all-absent record (`NoMLRules`, `NoShopeeRules`,
    `NoSheinRules`). */
module Rules {
  import opened Wrappers

  /** One entry of a Mercado Livre fee table. `operator` is ">" or "<=" for rules
      that can match (anything else, including a missing key, never matches);
      `feeType` "fixo" means a fixed fee of `value`, anything else a blocked price. */
  datatype FeeRule = FeeRule(operator: string, opValue: Option<real>, feeType: string, value: Option<real>)
  {
    /** The sort key: `opValue`, missing counting as 0. */
    function Key(): real {
      opValue.GetOr(0.0)
    }

    /** The rule has an operator the scan compares against. */
    predicate Compares() {
      operator == ">" || operator == "<="
    }

    /** The rule can be evaluated without a missing-key failure: a comparing rule
        has a threshold, and a comparing fixed-fee rule has an amount. */
    predicate WellFormed() {
      Compares() ==> opValue.Some? && (feeType == "fixo" ==> value.Some?)
    }
  }

  predicate WellFormedTable(table: seq<FeeRule>) {
    forall r | r in table :: r.WellFormed()
  }

  /** `logistics_rules[mode]`: a fee table and the free-shipping price limit. */
  datatype MLLogistics = MLLogistics(feeTable: seq<FeeRule>, freeShippingLimit: Option<real>)

  /** `ml_rules` of the Mercado Livre rule file. */
  datatype MLRules = MLRules(
    commissions: map<string, real>,
    logisticsRules: map<string, MLLogistics>,
    estimatedSellerShipping: map<string, real>)

  const NoLogistics := MLLogistics([], None)
  const NoMLRules := MLRules(map[], map[], map[])

  function MLCommission(rules: MLRules, listingType: string): real {
    Lookup(rules.commissions, listingType, 0.17)
  }

  function MLLogisticsFor(rules: MLRules, logisticsType: string): MLLogistics {
    Lookup(rules.logisticsRules, logisticsType, NoLogistics)
  }

  function FreeShippingLimit(logistics: MLLogistics): real {
    logistics.freeShippingLimit.GetOr(79.0)
  }

  /** `shopee_rules`, its `percentages`, `fixed_fees` and `limits` objects flattened. */
  datatype ShopeeRules = ShopeeRules(
    baseCommission: Option<real>,
    freeShippingProgram: Option<real>,
    standardFee: Option<real>,
    cpfExtra: Option<real>,
    cpfHighVolumeThresholdOrders: Option<int>,
    commissionCap: Option<real>,
    regressiveThresholdPrice: Option<real>,
    standardLowValueThreshold: Option<real>)

  const NoShopeeRules := ShopeeRules(None, None, None, None, None, None, None, None)

  function BaseCommission(r: ShopeeRules): real { r.baseCommission.GetOr(0.14) }
  function FreeShippingProgram(r: ShopeeRules): real { r.freeShippingProgram.GetOr(0.06) }
  function StandardFee(r: ShopeeRules): real { r.standardFee.GetOr(4.0) }
  function CpfExtra(r: ShopeeRules): real { r.cpfExtra.GetOr(3.0) }
  function CpfHighVolumeThreshold(r: ShopeeRules): int { r.cpfHighVolumeThresholdOrders.GetOr(450) }
  function CommissionCap(r: ShopeeRules): real { r.commissionCap.GetOr(100.0) }
  function RegressiveThreshold(r: ShopeeRules): real { r.regressiveThresholdPrice.GetOr(12.0) }
  function LowValueThreshold(r: ShopeeRules): real { r.standardLowValueThreshold.GetOr(8.0) }

  /** `shein_rules`, its `percentages` and `limits` objects flattened. */
  datatype SheinRules = SheinRules(
    standardCommission: Option<real>,
    newSellerCommission: Option<real>,
    newSellerDaysLimit: Option<int>)

  const NoSheinRules := SheinRules(None, None, None)

  function StandardCommission(r: SheinRules): real { r.standardCommission.GetOr(0.16) }
  function NewSellerCommission(r: SheinRules): real { r.newSellerCommission.GetOr(0.0) }
  function NewSellerDaysLimit(r: SheinRules): int { r.newSellerDaysLimit.GetOr(30) }

  /** A rule file that could not be loaded makes every lookup fall back to the
      engine's inline defaults. */
  lemma MissingRulesFallBackToDefaults(listingType: string, logisticsType: string)
    ensures MLCommission(NoMLRules, listingType) == 0.17
    ensures MLLogisticsFor(NoMLRules, logisticsType).feeTable == []
    ensures FreeShippingLimit(MLLogisticsFor(NoMLRules, logisticsType)) == 79.0
    ensures BaseCommission(NoShopeeRules) == 0.14 && FreeShippingProgram(NoShopeeRules) == 0.06
    ensures StandardFee(NoShopeeRules) == 4.0 && CpfExtra(NoShopeeRules) == 3.0
    ensures CpfHighVolumeThreshold(NoShopeeRules) == 450 && CommissionCap(NoShopeeRules) == 100.0
    ensures RegressiveThreshold(NoShopeeRules) == 12.0 && LowValueThreshold(NoShopeeRules) == 8.0
    ensures StandardCommission(NoSheinRules) == 0.16 && NewSellerCommission(NoSheinRules) == 0.0
    ensures NewSellerDaysLimit(NoSheinRules) == 30
  {
  }
}
