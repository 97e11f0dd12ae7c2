/**
 * The metric identifiers and the result envelope every source returns.
 * The backend's own type module is not part of this model; the shapes below
 * follow how the moving-average source builds a result and the frontend's
 * `DataResult` interface and label table.
 */
module DataTypes {
  import opened Wrappers

  /** The closed set of metrics the backend serves. */
  datatype DataType = BtcPrice | TotalMarketCap | StablecoinMarketCap | Ma50 | Ma200 {

    /** The string value of the enumeration member, used in URLs and JSON. */
    function Wire(): string
    {
      match this
      case BtcPrice => "btc_price"
      case TotalMarketCap => "total_market_cap"
      case StablecoinMarketCap => "stablecoin_market_cap"
      case Ma50 => "ma50"
      case Ma200 => "ma200"
    }
  }

  /** `DataType(s)`: the member whose value is `s`, or `None` where Python raises ValueError. */
  function FromWire(s: string): (r: Option<DataType>)
    ensures r.Some? ==> r.value.Wire() == s
    ensures r.None? ==> forall t: DataType :: t.Wire() != s
  {
    if s == "btc_price" then Some(BtcPrice)
    else if s == "total_market_cap" then Some(TotalMarketCap)
    else if s == "stablecoin_market_cap" then Some(StablecoinMarketCap)
    else if s == "ma50" then Some(Ma50)
    else if s == "ma200" then Some(Ma200)
    else None
  }

  /** Distinct members have distinct string values, so parsing a value gives back its member. */
  lemma WireRoundTrip(t: DataType)
    ensures FromWire(t.Wire()) == Some(t)
  {
  }

  /** A metadata value: the moving-average source stores an int period and two strings. */
  datatype MetaValue = IntMeta(i: int) | TextMeta(s: string)

  /** The result envelope: metric, numeric value, provider name and free-form metadata. */
  datatype DataResult = DataResult(dataType: DataType, value: real, provider: string, metadata: map<string, MetaValue>)
}
