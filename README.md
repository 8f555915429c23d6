# Marketplace pricing calculator — Dafny model

This project models the pricing engine of a marketplace price calculator. A
pricing request (product and packaging cost, an optional current sale price, an
optional target margin, tax and ads percentages, weight and seller attributes)
is priced on four listings:

- Mercado Livre premium
- Mercado Livre classic ("classico")
- Shopee
- Shein

Each listing yields a result with two parts:

- an *analysis*: the cost breakdown and profit at the current sale price;
- a *suggestion*: the price that earns the target margin.

Either part is the empty dict `{}` (`None` here) when its trigger is not positive.
The Mercado Livre and Shein suggestions are also `{}` when the divisor of the
price formula is not positive (`pricing_service.py` lines 77 and 238).

The model is made of these modules:

- `Helpers`: the four percentage conversions. `round(x, 2)` is kept abstract as
  `Round2`, and only its half-cent bound is known.
- `Request`: the request record and its defaults.
- `Rules`: the rule files as records of optional fields. Each accessor applies
  the default the source writes inline at its `.get(..., default)` call.
- `FeeTable`: the Mercado Livre fixed-fee resolver. The in-place sort of the fee
  table is an insertion sort on an `array`, proved against a functional
  `SortByKey`. The first-match scan is a loop proved against `FirstMatchFee`.
- `Resolvers`: the seller-shipping lookup and the Shopee regressive fixed fee.
- `Results`: exact cost components (`Costs`) and the rounded breakdown
  (`Breakdown`) reported for them.
- `MercadoLivre`, `Shopee`, `Shein`: the three calculators. Shopee's suggestion
  loop is a `while` loop proved equal to a recursive specification `Iterate`.
- `Aggregator`: `calculate_price`.

Python floats are modelled as exact `real`s. The algebraic identities, such as
"profit = margin × price" for a solved price, hold exactly over the reals. The
reported figures are stated to within the rounding.

The model follows the code as written, including these behaviours:

- A blocked Mercado Livre price (fee sentinel -1) does not yield the error dict.
  The dict set at line 40 of `pricing_service.py` is overwritten at line 50. The
  analysis is therefore numeric, with a fixed fee of -1 included in the total.
- On Shopee, an unreachable margin (divisor ≤ 0) does not omit the suggestion. The
  guess is never updated, and the suggestion is reported at 2 × product cost.
- The shipping bracket "5.0" is used for every weight above 2.0 kg, including
  weights above 5.0 kg.
- The regressive Shopee discount always uses 12.00, whatever the configured
  regressive threshold.
- The Shein "Standard (16%)" label is fixed text, whatever the configured
  standard commission.
- `calculate_price` ignores the request's own `listing_type` and
  `logistics_type`. Both Mercado Livre results use standard logistics.

## Model

| member | source | states |
|---|---|---|
| Helpers.PercentageOf | helpers.py:1-5 | a zero total gives 0; otherwise the result is `percent`/100 of the total |
| Helpers.PercentFromTotal | helpers.py:7-11 | a zero total gives 0; otherwise the result is within the rounding (±0.005) of value/total × 100 |
| Helpers.PercentageDivision | helpers.py:13-15 | the fraction times 100 is the percentage |
| Helpers.PercentageMultiplication | helpers.py:17-19 | the percentage over 100 is the fraction |
| Helpers.ConversionsRoundTrip | helpers.py:13-19 | the two conversions are inverse in both directions |
| Helpers.PercentRoundTrip | helpers.py:1-11 | for a non-zero total, the percentage of `percentage_of(p, total)` in that total is p up to the rounding |
| Request.DefaultRequest | pricing_controller.py:9-22 | a request given only the two costs takes the declared defaults (sale price and margin 0, tax and ads 0 %, no orders in 90 days, premium, standard logistics, 0.5 kg, not CPF, free shipping on, 999 days) |
| Rules.MissingRulesFallBackToDefaults | pricing_service.py:26-31 | with an empty rule file every rate, fee, limit and threshold takes its inline default (0.17 commission, empty fee table, 79.00 free-shipping limit; the Shopee and Shein defaults of lines 122-138 and 205-209) |
| FeeTable.SortByKeySortedPermutation | pricing_service.py:286 | sorting by `opValue` (missing counts as 0) gives an ascending table that is a permutation of the input |
| FeeTable.SortByKeyOfSorted | pricing_service.py:286 | sorting an already sorted table leaves it unchanged (the stable sort), so the second lookup on the same table sorts nothing |
| FeeTable.FirstMatchFeeSpec | pricing_service.py:287-292 | with no matching rule the fee is 0; otherwise the first rule that matches (`>`: price above the threshold; `<=`: at or below) decides: its value if its type is "fixo", else -1 |
| FeeTable.FixedFee | pricing_service.py:284-292 | a non-positive price gives 0; any result is 0, the sentinel -1, or the value of a "fixo" rule of the table |
| FeeTable.FixedFeeFirstMatch | pricing_service.py:284-292 | at a positive price the fee is that of the first rule of the sorted table that matches the price |
| FeeTable.FixedFeeAfterSort | pricing_service.py:286-292 | a table left sorted by an earlier lookup stays well formed and gives the same fee as the table as loaded |
| FeeTable.SortInPlace | pricing_service.py:286 | the array afterwards holds `SortByKey` of its old contents |
| FeeTable.GetFixedFee | pricing_service.py:284-292 | returns `FixedFee` of the table as passed in; the table is left unchanged for a non-positive price and otherwise sorted in place |
| Resolvers.WeightKey | pricing_service.py:296-299 | weight ≤ 0.5 selects "0.5", ≤ 1.0 "1.0", ≤ 2.0 "2.0", anything heavier "5.0" |
| Resolvers.SellerShipping | pricing_service.py:294-301 | below the free-shipping limit the cost is 0; otherwise it is the table entry for the weight's bracket, or 18.00 when the entry is missing |
| Resolvers.EmptyShippingTableCharges18 | pricing_service.py:300 | at or above the limit an empty shipping table charges 18.00 |
| Resolvers.ShopeeFixedFee | pricing_service.py:274-282 | regressive branch (base ≥ 7, price below the threshold) is max(base − (12 − price) × 0.25, 0), never negative and at most base at prices up to 12; low-value branch (base < 7, price below its threshold) is half the price; otherwise base |
| Resolvers.ShopeeFeeNonNegative | pricing_service.py:274-282 | the fee is never negative when the base fee and the price are not |
| Resolvers.ShopeeFeeSurchargeAboveTwelve | pricing_service.py:275-278 | because 12.00 is hard-coded, a threshold above 12 makes prices between 12 and the threshold pay more than the base fee |
| Results.Report | pricing_service.py:50-70 | price and the three percentages are reported as given; fixed fee, tax, ads, commission, product and packaging cost, shipping (when shown), total and profit are each within half a cent of the exact values, the profit percentage within 0.005 of profit/price × 100, and shipping is shown exactly when asked for |
| MercadoLivre.Analysis | pricing_service.py:35-70 | the analysis exists exactly when the sale price is positive; it reports that price and a shipping line |
| MercadoLivre.AnalysisCostsConsistent | pricing_service.py:33-48 | the total (bite × price + fee + shipping + product + packaging) is the sum of the reported components, so profit = price − all of them |
| MercadoLivre.BlockedPriceStillNumeric | pricing_service.py:37-50 | a blocked price yields a numeric analysis whose fixed fee is the rounded -1 and whose total is 1.00 below the sum of the real costs |
| MercadoLivre.AnalysisShippingBelowLimit | pricing_service.py:42-44 | below the free-shipping limit the analysis charges no shipping |
| MercadoLivre.SolvePrice | pricing_service.py:75-84 | fee and shipping are looked up once at the estimate, estimate × divisor = product + packaging, and final price × divisor = product + packaging + fee + shipping |
| MercadoLivre.SuggestionReport | pricing_service.py:86-106 | the suggestion reports the target margin, the rounded final price and the tax, ads and commission percentages; fee, tax, ads, commission, shipping, product and packaging cost are each within half a cent of the exact values, and the twice-rounded total within 2.5 cents of the exact sum |
| MercadoLivre.PriceSuggestion | pricing_service.py:73-106 | a suggestion exists exactly when the margin is positive and 1 − bite − margin > 0; it carries the target margin |
| MercadoLivre.SolveHitsMargin | pricing_service.py:75-89 | any solve whose final price × divisor is the base cost (as `SolvePrice` ensures) earns exactly margin × final price over its own costs: the suggested price hits the target margin |
| MercadoLivre.SuggestionRoundingError | pricing_service.py:86-103 | the reported profit is within 2.5 cents of the exact profit (four roundings into the total, one into the profit) |
| MercadoLivre.ReportedProfitNearMargin | pricing_service.py:75-103 | for such a solve the reported profit is within 2.5 cents of margin × final price |
| MercadoLivre.BlockedFeeEntersSuggestion | pricing_service.py:79-84 | a blocked tier at the first estimate is not checked: -1 is added into the base cost |
| MercadoLivre.CalculateML | pricing_service.py:22-113 | the result carries the given logistics and listing labels, an analysis exactly when the sale price is positive and a suggestion exactly when the margin is positive and reachable |
| MercadoLivre.PremiumCommissionExample | pricing_service.py:58-59 | costs 10 + 2 sold at 50 on a premium listing with no rule file: commission round(0.17 × 50, 2), shown as 17% |
| Shopee.CommissionRate | pricing_service.py:122-124 | the free-shipping program surcharge is added to the base rate exactly when the seller uses free shipping |
| Shopee.BaseFixed | pricing_service.py:126-132 | the CPF extra is added to the standard fee exactly for a CPF seller with strictly more orders than the threshold |
| Shopee.SellerType | pricing_service.py:194 | the seller is labelled "High Volume CPF" exactly when CPF and over the order threshold |
| Shopee.CommissionAt | pricing_service.py:137-138 | the commission is min(price × rate, cap): never above either, and equal to one of them |
| Shopee.CostsAt | pricing_service.py:136-141 | the total is the sum of commission, fixed fee, tax, ads and the two costs; no shipping |
| Shopee.ReportAt | pricing_service.py:144-153 | the breakdown shows the given price and no shipping line |
| Shopee.Analysis | pricing_service.py:134-154 | the analysis exists exactly when the sale price is positive, reports that price, and its commission never exceeds the cap by more than the rounding |
| Shopee.SolveSuggestedPrice | pricing_service.py:157-170 | the loop (at most ten rounds, leaving early once successive estimates differ by less than 0.05, skipping rounds whose divisor is not positive) returns `SuggestedPrice` |
| Shopee.PriceSuggestion | pricing_service.py:156-189 | a suggestion exists exactly when the margin is positive (even when it is unreachable) and carries the target margin |
| Shopee.IterateStuck | pricing_service.py:164-170 | with a non-positive divisor no round changes the estimate |
| Shopee.UnreachableMarginKeepsStart | pricing_service.py:157-189 | an unreachable margin still yields a suggestion, at 2 × product cost |
| Shopee.IterateStopsAtFirstConvergence | pricing_service.py:159-170 | the iteration returns the estimate of the first round within the tolerance of its predecessor, or of the last round when none is |
| Shopee.SuggestionStopsAtFirstConvergence | pricing_service.py:157-170 | starting from 2 × product cost, the suggested price is the estimate of the first converging round among the ten, or of the tenth |
| Shopee.FixedPointHitsMargin | pricing_service.py:163-166 | a price that the round maps to itself earns exactly the target margin on its costs |
| Shopee.CalculateShopee | pricing_service.py:115-197 | the result has the tier label, an analysis exactly when the sale price is positive, and a suggestion exactly when the margin is positive |
| Shein.CommissionRate | pricing_service.py:205-210 | the new-seller rate applies exactly when the registration age is within the day limit, the standard rate otherwise |
| Shein.SellerType | pricing_service.py:261 | "New Seller (0% Comm)" exactly for a new seller, "Standard (16%)" otherwise |
| Shein.CostsAt | pricing_service.py:212-218 | no fixed fee and no shipping; the commission is price × rate and the total the sum of the components |
| Shein.ReportAt | pricing_service.py:221-231 | the breakdown shows the given price and no shipping line |
| Shein.Analysis | pricing_service.py:213-231 | the analysis exists exactly when the sale price is positive and reports that price |
| Shein.SuggestedPrice | pricing_service.py:235-239 | price × denominator = product + packaging (+ the zero fixed fee) |
| Shein.PriceSuggestion | pricing_service.py:233-256 | a suggestion exists exactly when the margin is positive and the denominator is positive |
| Shein.SuggestionHitsMargin | pricing_service.py:235-243 | the suggested price earns exactly margin × price |
| Shein.SuggestedPricePositive | pricing_service.py:238-239 | positive costs and a positive denominator give a positive price |
| Shein.ReportedProfitNearMargin | pricing_service.py:233-256 | when product plus packaging cost is not 0, the reported profit percentage is within 0.005 of the target margin (with zero costs the price is 0 and the percentage is reported as 0) |
| Shein.NewSellerPaysNoCommission | pricing_service.py:207-210 | within 30 days and with no rule file the commission is 0 and the label is the new-seller one |
| Shein.StandardSellerExample | pricing_service.py:235-239 | costs 10 + 2, margin 20%, standard 16%: denominator 0.64, suggested price 18.75 |
| Shein.CalculateShein | pricing_service.py:199-264 | the result has the tier label, an analysis exactly when the sale price is positive, and a suggestion exactly when the margin and the denominator are positive |
| Aggregator.CalculatePrice | pricing_service.py:9-20 | four results in the order ML premium, ML classico (both standard logistics), Shopee, Shein; each has an analysis exactly when the sale price is positive |
| Aggregator.ListingAndLogisticsIgnored | pricing_service.py:9-13 | changing the request's listing and logistics types does not change any of the four results |

## Left out

- `_load_rules` (pricing_service.py:266-272) reads JSON files. The rule files are
  inputs to the model instead. A failed load is the rule record with every field
  absent (`NoMLRules`, `NoShopeeRules`, `NoSheinRules`).
- The FastAPI route, pydantic validation and the response envelope
  (pricing_controller.py:24-28) are transport. Only the request record and its
  defaults are modelled.
- Binary floating point is not modelled. Values are exact reals.
- `round(x, 2)` is abstract. Only its half-cent bound is used, so reported figures
  are stated to within the rounding and never as exact cents.
- `hasattr`/`getattr` on the request always finds the field: the request record
  always has every field.
- JSON `null` values in a rule file, and rule values of the wrong type, are not
  modelled.
- FeeTable.FixedFee and FeeTable.GetFixedFee require a well-formed table. A `>`
  or `<=` rule must have an `opValue`, and a "fixo" one a `value`. The source
  raises a `TypeError` comparing with a missing `opValue`. It returns `None` for
  a missing `value`, which then fails in the arithmetic. The model requires the
  whole table to be well formed, even when the malformed rule lies beyond the
  first match, where the source would never reach it.
- MercadoLivre.CalculateML is modelled on values. `_get_fixed_fee` sorts the fee
  table in place: in the analysis, then again in the suggestion. This model
  resolves the fee with the function `FixedFee` on the table as loaded.
  `FixedFeeAfterSort` and `SortByKeyOfSorted` show that the earlier sort does not
  change the later result. `GetFixedFee` models the in-place sort itself.
- The "marketplace" and "listing_type" strings of the Shopee and Shein results
  are not modelled.
- Most `*_pct` fields of the breakdowns are not modelled: the fixed-fee,
  shipping, product-cost, packaging-cost and total-cost percentages. The
  commission, tax, ads and profit percentages are modelled.
