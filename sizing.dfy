/**
 * The last two steps of every order-size calculation: truncate the raw size
 * to the market's number of decimals, then replace it by 0 when it is below
 * the market's minimum amount.
 */
module Sizing {
  import opened Wrappers
  import opened Decimal
  import opened Gateway

  /** `int(math.sqrt((int(math.log10(precision)) + 1) ** 2)) + 1` for the market. */
  function MarketDigits(info: MarketInfo): (d: nat)
    ensures d >= 1
  {
    PrecisionDigits(info.precisionExponent)
  }

  /**
   * `size = truncate(size, digits)`, then `0` if `size < minimum`: the result is
   * the sentinel 0 or at least the minimum, lies on the market's decimal grid,
   * and keeps the sign of `raw` without growing in magnitude.
   */
  function LimitSize(raw: real, info: MarketInfo): (r: real)
    ensures r == 0.0 || r >= info.minAmount
    ensures r != 0.0 ==> r == TruncateTo(raw, MarketDigits(info))
    ensures TruncateTo(raw, MarketDigits(info)) >= info.minAmount ==> r == TruncateTo(raw, MarketDigits(info))
    ensures OnGrid(r, MarketDigits(info))
    ensures 0.0 <= raw ==> 0.0 <= r <= raw
    ensures raw <= 0.0 ==> raw <= r <= 0.0
  {
    var digits := MarketDigits(info);
    var t := Truncate(raw, IntPlaces(digits)).value;
    ScaledZero(digits);
    if t < info.minAmount then 0.0 else t
  }

  /** A size already limited for a market is left alone by a second pass. */
  lemma LimitSizeIdempotent(raw: real, info: MarketInfo)
    ensures LimitSize(LimitSize(raw, info), info) == LimitSize(raw, info)
  {
    var r := LimitSize(raw, info);
    if r != 0.0 {
      TruncateToIdempotent(raw, MarketDigits(info));
    }
  }

  /**
   * Of all non-negative sizes on the market's grid that meet the minimum and
   * do not exceed `raw`, the limited size is the largest.
   */
  lemma LimitSizeIsLargest(raw: real, info: MarketInfo, g: real)
    requires OnGrid(g, MarketDigits(info))
    requires 0.0 <= g && info.minAmount <= g <= raw
    ensures g <= LimitSize(raw, info)
  {
    TruncateToIsTightest(raw, MarketDigits(info), g);
  }

  /** For a precision of 10^-k the result has at most k decimals. */
  lemma LimitSizeForStepPrecision(raw: real, info: MarketInfo, k: nat)
    requires k >= 1 && IsTruncLog10(1.0 / Pow10(k), info.precisionExponent)
    ensures OnGrid(LimitSize(raw, info), k)
  {
    DecimalStepDigits(k, info.precisionExponent);
  }
}
