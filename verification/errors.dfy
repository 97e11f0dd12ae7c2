/** The exceptions the moving-average path can raise, one constructor per distinct cause. */
module Errors {

  datatype Error =
    /** `requests.get` / `raise_for_status` / JSON decoding failed for the klines call. */
    | FetchFailed
    /** `candle[4]` on a kline row with fewer than five fields (an IndexError); `row` is its position. */
    | MissingClose(row: nat)
    /** `float(candle[4])` rejected the close field of kline row `row`: a ValueError for an unparsable string, a TypeError for null, a list or an object. */
    | BadClose(row: nat)
    /** `get_ma(period)` received only `got` closes: "Not enough data for MA{period}. Got {got} candles." */
    | NotEnoughData(period: int, got: nat)
    /** `get_ma_both` received only `got` closes: "Not enough data. Got {got} candles, need 200." */
    | NotEnoughDataForBoth(got: nat)
    /** `sum(...) / period` with `period == 0` (a ZeroDivisionError). */
    | ZeroPeriod
    /** `MaSource(period)` with a period other than 50 or 200: "Unsupported MA period: {period}. Use 50 or 200." */
    | UnsupportedPeriod(period: int)
}
