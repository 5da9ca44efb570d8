/**
 * The cost and revenue formulas. Amounts are exact rationals; the source applies no
 * rounding and does not validate negative prices or weights, and neither does the model.
 */
module CostCalculator {
  import opened Business

  const ServiceFeeRate: real := 0.12
  const AffiliateCommissionRate: real := 0.08
  const ShippingBaseRate: real := 25.0
  const ShippingPerKg: real := 8.0
  const CustomsThreshold: real := 50.0
  const CustomsRate: real := 0.20
  /** Default for `actualShippingCost` in `calculateRevenueBreakdown`. */
  const DefaultActualShippingCost: real := 15.0

  function Max(a: real, b: real): real { if a >= b then a else b }

  /** `calculateShippingCost`: 25 USD base plus 8 USD per kg. */
  function CalculateShippingCost(weightKg: real): (cost: real)
    ensures cost == 25.0 + 8.0 * weightKg
    ensures weightKg >= 0.0 ==> cost >= ShippingBaseRate
  {
    ShippingBaseRate + (weightKg * ShippingPerKg)
  }

  /**
   * `calculateCustomsFees`: 20% of the part of the price above 50 USD, so nothing at or
   * below the threshold and never a negative amount.
   */
  function CalculateCustomsFees(productPrice: real): (fees: real)
    ensures fees == CustomsRate * Max(0.0, productPrice - CustomsThreshold)
    ensures productPrice <= CustomsThreshold ==> fees == 0.0
    ensures fees >= 0.0
  {
    if productPrice <= CustomsThreshold then 0.0
    else (productPrice - CustomsThreshold) * CustomsRate
  }

  /** Customs never decreases as the price rises. */
  lemma CustomsMonotone(p: real, q: real)
    requires p <= q
    ensures CalculateCustomsFees(p) <= CalculateCustomsFees(q)
  {
  }

  /**
   * `calculateCostBreakdown` (weight defaults to 1 kg): the price is echoed, the fee and
   * commission are 12% and 8% of it, and the customer total adds fee, shipping and customs
   * to the price but not the affiliate commission.
   */
  function CalculateCostBreakdown(productPrice: real, weightKg: real := 1.0): (b: CostBreakdown)
    ensures b.productPrice == productPrice
    ensures b.serviceFee == 0.12 * productPrice
    ensures b.affiliateCommission == 0.08 * productPrice
    ensures b.shippingCost == CalculateShippingCost(weightKg)
    ensures b.customsFees == CalculateCustomsFees(productPrice)
    ensures b.total == b.productPrice + b.serviceFee + b.shippingCost + b.customsFees
  {
    var serviceFee := productPrice * ServiceFeeRate;
    var shippingCost := CalculateShippingCost(weightKg);
    var customsFees := CalculateCustomsFees(productPrice);
    var affiliateCommission := productPrice * AffiliateCommissionRate;
    var total := productPrice + serviceFee + shippingCost + customsFees;
    CostBreakdown(productPrice, serviceFee, shippingCost, customsFees, affiliateCommission, total)
  }

  /** In closed form the customer pays 1.12·p + 25 + 8·w, plus 20% of whatever exceeds 50. */
  lemma CostTotalClosedForm(p: real, w: real)
    ensures p <= 50.0 ==> CalculateCostBreakdown(p, w).total == 1.12 * p + 25.0 + 8.0 * w
    ensures p > 50.0 ==> CalculateCostBreakdown(p, w).total == 1.32 * p + 15.0 + 8.0 * w
  {
  }

  /** The worked examples: a 100 USD item and a free item at the default weight. */
  lemma CostExamples()
    ensures CalculateCostBreakdown(100.0) ==
            CostBreakdown(100.0, 12.0, 33.0, 10.0, 8.0, 155.0)
    ensures CalculateCostBreakdown(0.0).total == 33.0
    ensures CalculateCostBreakdown(29.99, 0.5).total == 62.5888
  {
  }

  /**
   * `calculateRevenueBreakdown` (actual shipping cost defaults to 15 USD): commission and
   * fee are copied, the margin is what the customer pays for shipping minus what it
   * costs, and the profit is the sum of the three.
   */
  function CalculateRevenueBreakdown(costBreakdown: CostBreakdown,
                                     actualShippingCost: real := DefaultActualShippingCost): (r: RevenueBreakdown)
    ensures r.affiliateCommission == costBreakdown.affiliateCommission
    ensures r.serviceFee == costBreakdown.serviceFee
    ensures r.shippingMargin == costBreakdown.shippingCost - actualShippingCost
    ensures r.totalProfit == r.affiliateCommission + r.serviceFee + r.shippingMargin
  {
    var affiliateCommission := costBreakdown.affiliateCommission;
    var serviceFee := costBreakdown.serviceFee;
    var shippingMargin := costBreakdown.shippingCost - actualShippingCost;
    var totalProfit := affiliateCommission + serviceFee + shippingMargin;
    RevenueBreakdown(affiliateCommission, serviceFee, shippingMargin, totalProfit)
  }

  /**
   * For a breakdown computed from price `p` and weight `w`, the profit is 20% of the price
   * plus the shipping margin 25 + 8·w − actual; at the defaults, 0.2·p + 18.
   */
  lemma ProfitClosedForm(p: real, w: real, actual: real)
    ensures CalculateRevenueBreakdown(CalculateCostBreakdown(p, w), actual).totalProfit ==
            0.2 * p + 25.0 + 8.0 * w - actual
    ensures CalculateRevenueBreakdown(CalculateCostBreakdown(p)).totalProfit == 0.2 * p + 18.0
  {
  }
}
