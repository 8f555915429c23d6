/** The two straight-line fee resolvers: the seller's share of shipping on Mercado
    Livre, and Shopee's fixed fee per item. */
module Resolvers {
  import opened Wrappers

  /** Shipping cost charged when a bracket is missing from the table. */
  const FallbackShipping: real := 18.0

  /** The weight bracket key: the smallest of 0.5, 1.0 and 2.0 kg that holds the
      weight, and "5.0" for anything heavier than 2.0 kg (also above 5.0 kg). */
  function WeightKey(weight: real): (key: string)
    ensures weight <= 0.5 ==> key == "0.5"
    ensures 0.5 < weight <= 1.0 ==> key == "1.0"
    ensures 1.0 < weight <= 2.0 ==> key == "2.0"
    ensures 2.0 < weight ==> key == "5.0"
  {
    var key := "0.5";
    var key := if weight > 0.5 then "1.0" else key;
    var key := if weight > 1.0 then "2.0" else key;
    if weight > 2.0 then "5.0" else key
  }

  /** `_calculate_seller_shipping`: below the free-shipping limit the buyer pays and
      the seller's cost is 0; at or above it the seller pays the table's cost for
      the weight bracket, 18.00 if that bracket is missing. */
  function SellerShipping(price: real, freeLimit: real, weight: real, table: map<string, real>): (cost: real)
    ensures price < freeLimit ==> cost == 0.0
    ensures price >= freeLimit && WeightKey(weight) in table ==> cost == table[WeightKey(weight)]
    ensures price >= freeLimit && WeightKey(weight) !in table ==> cost == FallbackShipping
  {
    if price >= freeLimit then Lookup(table, WeightKey(weight), FallbackShipping) else 0.0
  }

  /** With an empty shipping table every price at or above the limit costs the
      seller 18.00, whatever the weight. */
  lemma EmptyShippingTableCharges18(price: real, freeLimit: real, weight: real)
    requires price >= freeLimit
    ensures SellerShipping(price, freeLimit, weight, map[]) == 18.0
  {
  }

  /** `_get_shopee_fixed_fee`. A base fee of 7.00 or more, below the regressive
      threshold, is discounted by a quarter of the distance to 12.00 (a constant,
      not the configured threshold) and never goes below 0; a base fee under 7.00,
      below the low-value threshold, is replaced by half the price; otherwise the
      base fee is charged unchanged. */
  function ShopeeFixedFee(price: real, baseFee: real, regressiveThreshold: real, lowValueThreshold: real): (fee: real)
    ensures baseFee >= 7.0 && price < regressiveThreshold ==>
              fee == Max(baseFee - (12.0 - price) * 0.25, 0.0) && fee >= 0.0
    ensures baseFee >= 7.0 && price < regressiveThreshold && price <= 12.0 ==> fee <= baseFee
    ensures baseFee < 7.0 && price < lowValueThreshold ==> fee + fee == price
    ensures (baseFee >= 7.0 ==> price >= regressiveThreshold) &&
            (baseFee < 7.0 ==> price >= lowValueThreshold) ==>
              fee == baseFee
  {
    if baseFee >= 7.0 && price < regressiveThreshold then
      var diff := 12.0 - price;
      var discount := diff * 0.25;
      Max(baseFee - discount, 0.0)
    else if baseFee < 7.0 && price < lowValueThreshold then
      price * 0.5
    else
      baseFee
  }

  /** For a non-negative price and base fee the Shopee fee is never negative. */
  lemma ShopeeFeeNonNegative(price: real, baseFee: real, regressiveThreshold: real, lowValueThreshold: real)
    requires price >= 0.0 && baseFee >= 0.0
    ensures ShopeeFixedFee(price, baseFee, regressiveThreshold, lowValueThreshold) >= 0.0
  {
  }

  /** Because the discount is measured from the constant 12.00, a regressive
      threshold configured above 12.00 turns the discount into a surcharge for
      prices between 12.00 and that threshold. */
  lemma ShopeeFeeSurchargeAboveTwelve(price: real, baseFee: real, regressiveThreshold: real, lowValueThreshold: real)
    requires baseFee >= 7.0 && 12.0 < price < regressiveThreshold
    ensures ShopeeFixedFee(price, baseFee, regressiveThreshold, lowValueThreshold) > baseFee
  {
  }
}
