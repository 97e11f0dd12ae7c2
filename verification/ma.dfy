/**
 * The moving-average source: a period fixed at construction (50 or 200) and
 * a fetch that asks the Binance provider for that average and wraps it in a
 * `DataResult`. The provider holds no state, so the source keeps only its
 * period; the klines endpoint the provider would call is passed to `Fetch`.
 */
module Ma {
  import opened Wrappers
  import opened Errors
  import opened DataTypes
  import Binance

  /** A constructed source; immutable, so its period never changes after construction. */
  datatype MaSource = MaSource(period: int) {

    /** What construction guarantees of every source that exists. */
    predicate Valid()
    {
      period == 50 || period == 200
    }
  }

  /** `MaSource(period)`: accepts exactly the periods 50 and 200 and raises for any other. */
  function New(period: int): (r: Result<MaSource, Error>)
    ensures r.Ok? <==> period == 50 || period == 200
    ensures r.Ok? ==> r.value.Valid() && r.value.period == period
    ensures r.Err? ==> r.error == UnsupportedPeriod(period)
  {
    if period != 50 && period != 200 then Err(UnsupportedPeriod(period))
    else Ok(MaSource(period))
  }

  /** The envelope `fetch` builds around a value. */
  function Envelope(dataType: DataType, value: real, period: int): DataResult
  {
    DataResult(dataType, value, Binance.Name, map[
      "period" := IntMeta(period),
      "symbol" := TextMeta(Binance.DefaultSymbol),
      "interval" := TextMeta(Binance.DefaultInterval)])
  }

  /**
   * `fetch`: period 50 reads `get_ma50` and reports MA50, any other period
   * reads `get_ma200` and reports MA200; a provider failure propagates as is.
   */
  function Fetch(src: MaSource, up: Binance.Upstream): (r: Result<DataResult, Error>)
    ensures var v := if src.period == 50 then Binance.GetMa50(up) else Binance.GetMa200(up);
      && (v.Err? ==> r == Err(v.error))
      && (v.Ok? ==> r.Ok? && r.value.value == v.value)
    ensures r.Ok? ==> r.value.dataType == (if src.period == 50 then Ma50 else Ma200)
    ensures r.Ok? ==> r.value.provider == "binance"
    ensures r.Ok? ==> r.value.metadata == map[
      "period" := IntMeta(src.period), "symbol" := TextMeta("BTCUSDT"), "interval" := TextMeta("1d")]
  {
    if src.period == 50 then
      var value :- Binance.GetMa50(up);
      Ok(Envelope(Ma50, value, src.period))
    else
      var value :- Binance.GetMa200(up);
      Ok(Envelope(Ma200, value, src.period))
  }

  /** The query the provider sends for `period` daily candles of the default pair. */
  function WindowQuery(period: int): Binance.KlineParams
  {
    Binance.KlineParams(Binance.DefaultSymbol, Binance.DefaultInterval, period)
  }

  /**
   * A source built from `period` reports the metric named after that period,
   * "ma50" or "ma200", and records the period in its metadata.
   */
  lemma FetchReportsItsPeriod(period: int, up: Binance.Upstream)
    requires New(period).Ok? && Fetch(New(period).value, up).Ok?
    ensures var d := Fetch(New(period).value, up).value;
      && d.dataType.Wire() == (if period == 50 then "ma50" else "ma200")
      && d.metadata["period"] == IntMeta(period)
  {
  }

  /**
   * When the endpoint answers with exactly `period` well-formed rows, `fetch`
   * succeeds and its value is the arithmetic mean of their closes: it lies
   * between the lowest and the highest close, and equals `c` when every
   * close is `c`.
   */
  lemma {:induction false} FetchOfFullWindow(src: MaSource, up: Binance.Upstream, lo: real, hi: real)
    requires src.Valid()
    requires up(WindowQuery(src.period)).Some?
    requires |up(WindowQuery(src.period)).value| == src.period
    requires forall k | k in up(WindowQuery(src.period)).value ::
      Binance.HasClose(k) && lo <= Binance.CloseOf(k) <= hi
    ensures Fetch(src, up).Ok?
    ensures lo <= Fetch(src, up).value.value <= hi
    ensures lo == hi ==> Fetch(src, up).value.value == lo
  {
    var rows := up(WindowQuery(src.period)).value;
    var closes := Binance.ClosingPrices(rows);
    assert forall i | 0 <= i < |rows| :: rows[i] in rows;
    assert closes.Ok?;
    Binance.MeanWithinRange(closes.value, src.period, lo, hi);
  }

  /**
   * When the endpoint answers with fewer than `period` well-formed rows,
   * `fetch` produces no result and raises the provider's shortfall error.
   */
  lemma FetchOfShortWindow(src: MaSource, up: Binance.Upstream)
    requires src.Valid()
    requires up(WindowQuery(src.period)).Some?
    requires |up(WindowQuery(src.period)).value| < src.period
    requires forall k | k in up(WindowQuery(src.period)).value :: Binance.HasClose(k)
    ensures Fetch(src, up) == Err(NotEnoughData(src.period, |up(WindowQuery(src.period)).value|))
  {
  }
}
