/**
 * The moving-average arithmetic of the Binance provider: the klines query
 * with its defaults, the projection of close prices out of kline rows, the
 * single-period moving average and the batch MA50/MA200 computation.
 *
 * The HTTP call itself is not modelled: the klines endpoint is a function
 * `Upstream` from the query to the rows it answers with, or `None` when the
 * request, the status check or the JSON decoding fails. Prices are `real`.
 */
module Binance {
  import opened Wrappers
  import opened Errors

  /** Class constants of the provider. */
  const DefaultSymbol: string := "BTCUSDT"
  const DefaultInterval: string := "1d"
  /** The provider's `name` property. */
  const Name: string := "binance"
  /** Position of the close price in a kline row `[open_time, open, high, low, close, ...]`. */
  const CloseField: nat := 4

  /**
   * One field of a kline row as `float(...)` sees it: `Numeric(v)` when the
   * conversion succeeds and yields `v`, `NonNumeric` when it raises (a
   * ValueError for an unparsable string, a TypeError for null, a list or an object).
   */
  datatype Cell = Numeric(value: real) | NonNumeric

  /** One kline (candlestick) row. */
  type Kline = seq<Cell>

  /** The query parameters of a klines request. */
  datatype KlineParams = KlineParams(symbol: string, interval: string, limit: int)

  /** The klines endpoint: the rows (oldest first) it returns for a query, or `None` when the call fails. */
  type Upstream = KlineParams -> Option<seq<Kline>>

  /** The pair of averages `get_ma_both` returns (its dict keys "ma50" and "ma200"). */
  datatype MovingAverages = MovingAverages(ma50: real, ma200: real)

  /** Python's `given or default` on an optional string: both `None` and `""` are falsy. */
  function OrDefault(given: Option<string>, default: string): string
  {
    if given.Some? && given.value != "" then given.value else default
  }

  /** The parameters `get_klines` sends: symbol and interval fall back to the defaults, `limit` is passed through. */
  function KlinesQuery(symbol: Option<string>, interval: Option<string>, limit: int): (q: KlineParams)
    ensures q.limit == limit
    ensures symbol.Some? && symbol.value != "" ==> q.symbol == symbol.value
    ensures symbol.None? || symbol == Some("") ==> q.symbol == DefaultSymbol
    ensures interval.Some? && interval.value != "" ==> q.interval == interval.value
    ensures interval.None? || interval == Some("") ==> q.interval == DefaultInterval
  {
    KlineParams(OrDefault(symbol, DefaultSymbol), OrDefault(interval, DefaultInterval), limit)
  }

  /** `get_klines`: one request with the defaulted parameters; a failed call surfaces as `FetchFailed`. */
  function GetKlines(up: Upstream, symbol: Option<string>, interval: Option<string>, limit: int): (r: Result<seq<Kline>, Error>)
    ensures r.Err? <==> up(KlinesQuery(symbol, interval, limit)).None?
    ensures r.Err? ==> r.error == FetchFailed
    ensures r.Ok? ==> r.value == up(KlinesQuery(symbol, interval, limit)).value
  {
    match up(KlinesQuery(symbol, interval, limit))
    case None => Err(FetchFailed)
    case Some(rows) => Ok(rows)
  }

  /** Row `k` has a close field that `float` accepts. */
  predicate HasClose(k: Kline)
  {
    |k| > CloseField && k[CloseField].Numeric?
  }

  function CloseOf(k: Kline): real
    requires HasClose(k)
  {
    k[CloseField].value
  }

  /** The exception `float(candle[4])` raises on a row without a usable close. */
  function RowError(k: Kline, row: nat): Error
    requires !HasClose(k)
  {
    if |k| <= CloseField then MissingClose(row) else BadClose(row)
  }

  /** `e` is the exception for the first row of `klines` that has no usable close. */
  predicate ReportsFirstBadRow(klines: seq<Kline>, e: Error)
  {
    && (e.MissingClose? || e.BadClose?)
    && e.row < |klines|
    && (forall j | 0 <= j < e.row :: HasClose(klines[j]))
    && !HasClose(klines[e.row])
    && e == RowError(klines[e.row], e.row)
  }

  /**
   * The list comprehension of `_get_closing_prices`: one close per row, in
   * the same order; the first row without a usable close raises.
   */
  function ClosingPrices(klines: seq<Kline>): (r: Result<seq<real>, Error>)
    decreases |klines|
    ensures r.Ok? <==> forall i | 0 <= i < |klines| :: HasClose(klines[i])
    ensures r.Ok? ==> |r.value| == |klines|
    ensures r.Ok? ==> forall i | 0 <= i < |klines| :: r.value[i] == CloseOf(klines[i])
    ensures r.Err? ==> ReportsFirstBadRow(klines, r.error)
  {
    if |klines| == 0 then Ok([])
    else
      var last := |klines| - 1;
      var earlier :- ClosingPrices(klines[..last]);
      if HasClose(klines[last]) then Ok(earlier + [CloseOf(klines[last])])
      else Err(RowError(klines[last], last))
  }

  /** `_get_closing_prices(limit)`: the closes of the rows the default-symbol, daily query returns. */
  function GetClosingPrices(up: Upstream, limit: int): (r: Result<seq<real>, Error>)
    ensures var q := KlineParams(DefaultSymbol, DefaultInterval, limit);
      && (up(q).None? ==> r == Err(FetchFailed))
      && (up(q).Some? ==> r == ClosingPrices(up(q).value))
  {
    var rows :- GetKlines(up, None, None, limit);
    ClosingPrices(rows)
  }

  /** Python's built-in `sum`: 0 plus each element, from left to right. */
  function Sum(xs: seq<real>): real
  {
    if xs == [] then 0.0 else Sum(xs[..|xs| - 1]) + xs[|xs| - 1]
  }

  /** The guard and division of `get_ma` applied to the closes it received. */
  function MovingAverage(closes: seq<real>, period: int): (r: Result<real, Error>)
    ensures r == Err(NotEnoughData(period, |closes|)) <==> |closes| < period
    ensures r == Err(ZeroPeriod) <==> period == 0
    ensures r.Ok? <==> period != 0 && period <= |closes|
    ensures r.Ok? ==> r.value * (period as real) == Sum(closes)
  {
    if |closes| < period then Err(NotEnoughData(period, |closes|))
    else if period == 0 then Err(ZeroPeriod)
    else Ok(Sum(closes) / (period as real))
  }

  /** `get_ma(period)`: fetch `period` daily candles and average their closes. */
  function GetMa(up: Upstream, period: int): (r: Result<real, Error>)
    ensures var c := GetClosingPrices(up, period);
      && (c.Err? ==> r == Err(c.error))
      && (c.Ok? ==> (r == Err(NotEnoughData(period, |c.value|)) <==> |c.value| < period))
      && (c.Ok? ==> (r.Ok? <==> period != 0 && period <= |c.value|))
      && (c.Ok? && period == 0 ==> r == Err(ZeroPeriod))
      && (r.Ok? ==> r.value * (period as real) == Sum(c.value))
  {
    var closes :- GetClosingPrices(up, period);
    MovingAverage(closes, period)
  }

  /** `get_ma50`: fetch errors propagate; given the closes, fails exactly when fewer than 50 arrived, otherwise gives their sum over 50. */
  function GetMa50(up: Upstream): (r: Result<real, Error>)
    ensures var c := GetClosingPrices(up, 50);
      && (c.Err? ==> r == Err(c.error))
      && (c.Ok? && |c.value| < 50 ==> r == Err(NotEnoughData(50, |c.value|)))
      && (c.Ok? && |c.value| >= 50 ==> r == Ok(Sum(c.value) / 50.0))
  {
    GetMa(up, 50)
  }

  /** `get_ma200`: fetch errors propagate; given the closes, fails exactly when fewer than 200 arrived, otherwise gives their sum over 200. */
  function GetMa200(up: Upstream): (r: Result<real, Error>)
    ensures var c := GetClosingPrices(up, 200);
      && (c.Err? ==> r == Err(c.error))
      && (c.Ok? && |c.value| < 200 ==> r == Err(NotEnoughData(200, |c.value|)))
      && (c.Ok? && |c.value| >= 200 ==> r == Ok(Sum(c.value) / 200.0))
  {
    GetMa(up, 200)
  }

  /** `get_ma_both`: one 200-candle fetch; MA200 over all of it, MA50 over its last 50 closes. */
  function GetMaBoth(up: Upstream): (r: Result<MovingAverages, Error>)
    ensures var c := GetClosingPrices(up, 200);
      && (c.Err? ==> r == Err(c.error))
      && (c.Ok? && |c.value| < 200 ==> r == Err(NotEnoughDataForBoth(|c.value|)))
      && (c.Ok? && |c.value| >= 200 ==> r.Ok?)
      && (r.Ok? ==> r.value.ma200 * 200.0 == Sum(c.value))
      && (r.Ok? ==> r.value.ma50 * 50.0 == Sum(c.value[|c.value| - 50..]))
  {
    var closes :- GetClosingPrices(up, 200);
    if |closes| < 200 then Err(NotEnoughDataForBoth(|closes|))
    else Ok(MovingAverages(ma50 := Sum(closes[|closes| - 50..]) / 50.0, ma200 := Sum(closes) / 200.0))
  }

  // ---------------------------------------------------------------------
  // Properties of the sum and the average

  /** Summing a concatenation is summing the parts. */
  lemma {:induction false} SumAppend(a: seq<real>, b: seq<real>)
    ensures Sum(a + b) == Sum(a) + Sum(b)
    decreases |b|
  {
    if b == [] {
      assert a + b == a;
    } else {
      var b' := b[..|b| - 1];
      assert (a + b)[..|a + b| - 1] == a + b';
      SumAppend(a, b');
    }
  }

  /** A sequence whose every element is `c` sums to `|xs| * c`. */
  lemma {:induction false} SumConstant(xs: seq<real>, c: real)
    requires forall i | 0 <= i < |xs| :: xs[i] == c
    ensures Sum(xs) == (|xs| as real) * c
  {
    if xs != [] {
      SumConstant(xs[..|xs| - 1], c);
    }
  }

  /** Elements within `[lo, hi]` give a sum within `[|xs| * lo, |xs| * hi]`. */
  lemma {:induction false} SumBounds(xs: seq<real>, lo: real, hi: real)
    requires forall i | 0 <= i < |xs| :: lo <= xs[i] <= hi
    ensures (|xs| as real) * lo <= Sum(xs) <= (|xs| as real) * hi
  {
    if xs != [] {
      SumBounds(xs[..|xs| - 1], lo, hi);
    }
  }

  /** With exactly `period` closes that all equal `c`, the moving average is `c`. */
  lemma MeanOfConstant(closes: seq<real>, period: int, c: real)
    requires period > 0 && |closes| == period
    requires forall i | 0 <= i < |closes| :: closes[i] == c
    ensures MovingAverage(closes, period) == Ok(c)
  {
    SumConstant(closes, c);
    var n := period as real;
    assert Sum(closes) / n == (n * c) / n == c;
  }

  /** With exactly `period` closes, the moving average lies between their lowest and highest value. */
  lemma MeanWithinRange(closes: seq<real>, period: int, lo: real, hi: real)
    requires period > 0 && |closes| == period
    requires forall i | 0 <= i < |closes| :: lo <= closes[i] <= hi
    ensures MovingAverage(closes, period).Ok?
    ensures lo <= MovingAverage(closes, period).value <= hi
  {
    SumBounds(closes, lo, hi);
    var n := period as real;
    var m := MovingAverage(closes, period).value;
    assert m * n == Sum(closes);
    assert n * lo <= m * n <= n * hi;
  }

  // ---------------------------------------------------------------------
  // The batch path against the single-period path

  /**
   * `get_ma_both` and `get_ma(200)` send the same query, so they succeed on
   * the same answers with the same MA200 and report the same shortfall; the
   * batch MA50 is `get_ma(50)`'s arithmetic on the last 50 of those closes.
   */
  lemma BothAgreesWithSingle(up: Upstream)
    ensures GetMaBoth(up).Ok? <==> GetMa200(up).Ok?
    ensures GetMaBoth(up).Ok? ==> GetMaBoth(up).value.ma200 == GetMa200(up).value
    ensures GetMaBoth(up).Ok? ==>
      var c := GetClosingPrices(up, 200).value;
      MovingAverage(c[|c| - 50..], 50) == Ok(GetMaBoth(up).value.ma50)
    ensures forall n: nat :: GetMaBoth(up) == Err(NotEnoughDataForBoth(n)) <==> GetMa200(up) == Err(NotEnoughData(200, n))
    ensures GetClosingPrices(up, 200).Err? ==> GetMaBoth(up).Err? && GetMaBoth(up).error == GetMa200(up).error
  {
  }

  /**
   * MA200 is the average of the older 150 closes' sum and the 50 closes
   * behind MA50: `200 * ma200 == sum(older) + 50 * ma50`.
   */
  lemma {:induction false} Ma200SplitsAtMa50(up: Upstream)
    requires GetMaBoth(up).Ok?
    ensures var c := GetClosingPrices(up, 200).value;
      GetMaBoth(up).value.ma200 * 200.0 == Sum(c[..|c| - 50]) + GetMaBoth(up).value.ma50 * 50.0
  {
    var c := GetClosingPrices(up, 200).value;
    assert c == c[..|c| - 50] + c[|c| - 50..];
    SumAppend(c[..|c| - 50], c[|c| - 50..]);
  }

  /** Projecting closes commutes with dropping the oldest rows. */
  lemma ClosingPricesSuffix(klines: seq<Kline>, k: nat)
    requires k <= |klines|
    requires ClosingPrices(klines).Ok?
    ensures ClosingPrices(klines[k..]) == Ok(ClosingPrices(klines).value[k..])
  {
    var all := ClosingPrices(klines).value;
    var newer := klines[k..];
    forall i | 0 <= i < |newer|
      ensures HasClose(newer[i]) && CloseOf(newer[i]) == all[k + i]
    {
      assert newer[i] == klines[k + i];
    }
    var tail := ClosingPrices(newer);
    assert tail.Ok?;
    forall i | 0 <= i < |newer|
      ensures tail.value[i] == all[k..][i]
    {
    }
    assert tail.value == all[k..];
  }

  /** The endpoint answers a 50-candle query with the newest 50 rows of its 200-candle answer. */
  predicate SnapshotConsistent(up: Upstream)
  {
    var short := up(KlineParams(DefaultSymbol, DefaultInterval, 50));
    var long := up(KlineParams(DefaultSymbol, DefaultInterval, 200));
    && short.Some? && long.Some?
    && |long.value| >= 50
    && short.value == long.value[|long.value| - 50..]
  }

  /**
   * When the endpoint's 50- and 200-candle answers come from one snapshot,
   * the batch MA50 equals what a separate `get_ma50` call returns.
   */
  lemma {:induction false} BatchMa50MatchesSeparateCall(up: Upstream)
    requires SnapshotConsistent(up)
    requires GetMaBoth(up).Ok?
    ensures GetMa50(up) == Ok(GetMaBoth(up).value.ma50)
  {
    var rows := up(KlineParams(DefaultSymbol, DefaultInterval, 200)).value;
    ClosingPricesSuffix(rows, |rows| - 50);
  }
}
