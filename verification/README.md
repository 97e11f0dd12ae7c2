# BullBear dashboard: moving-average core

This project models the moving-average path of the BullBear dashboard backend in Dafny.
The Binance provider turns daily klines (candlesticks) into closing prices.
It averages them for a single period (`get_ma`, `get_ma50`, `get_ma200`) or for MA50 and MA200 together from one 200-candle window (`get_ma_both`).
The moving-average source (`MaSource`) accepts only the periods 50 and 200.
It wraps the provider's value in a `DataResult` envelope: metric type, value, provider name `"binance"`, and metadata `period`, `symbol` (`BTCUSDT`) and `interval` (`1d`).

Modules:

- `Wrappers` (wrappers.dfy): `Option` and a failure-compatible `Result`.
- `Errors` (errors.dfy): one constructor per exception the path can raise.
- `Binance` (binance.dfy): the klines query with its defaults, close projection, `Sum`, the single and batch averages, and their lemmas.
- `DataTypes` (types.dfy): the `DataType` enumeration with its string values, `MetaValue` and `DataResult`.
- `Ma` (ma.dfy): `MaSource`, its validating constructor `New`, `Fetch`, and end-to-end lemmas.

How the model treats the system:

- The HTTP call is a parameter `up: Upstream`. It is a function from the query (`symbol`, `interval`, `limit`) to the rows returned oldest first, or `None` when the request, the status check or JSON decoding fails (`FetchFailed`).
- Because `up` is a function, two calls with the same query see the same rows. `get_ma(200)` and `get_ma_both` send the same query, so `BothAgreesWithSingle` relates them on every endpoint.
- `get_ma50` and `get_ma_both` send different queries. Their MA50 values are related only for an endpoint whose 50-row answer is the newest 50 rows of its 200-row answer (`SnapshotConsistent`).
- A kline field is `Numeric(v)` when `float()` accepts it with value `v`, and `NonNumeric` when it raises. Prices are `real`. `sum` is a left-to-right sum starting at 0.
- Python's `symbol or DEFAULT_SYMBOL` also falls back for the empty string. The model does the same.
- `get_ma` checks only `len < period` and then divides the sum of ALL returned closes by `period`. The mean lemmas therefore assume the endpoint returned exactly `period` rows, as Binance does for `limit`. `get_ma(0)` divides by zero and is modelled as `ZeroPeriod`.
- The code raises `ValueError` for a shortfall, with different messages in `get_ma` and `get_ma_both`. It does not raise a dedicated insufficient-data error. The model keeps the two messages apart as `NotEnoughData(period, got)` and `NotEnoughDataForBoth(got)`.
- The source's constructor stores a fresh `BinanceProvider()`, which has no state. `MaSource` keeps only the period, and `Fetch` receives the endpoint. The datatype is immutable, so the period cannot change after construction.
- `fetch` tests `period == 50` and otherwise takes the MA200 branch. `Fetch` keeps that branch as written. Its contract is stated for every period, and `New` only produces 50 or 200.

## Model

| member | source | states |
|---|---|---|
| Binance.KlinesQuery | backend/bullbear_backend/data/providers/binance.py:52-56 | the limit is passed through unchanged; symbol and interval are the given ones unless absent or empty, in which case they are BTCUSDT and 1d |
| Binance.GetKlines | backend/bullbear_backend/data/providers/binance.py:51-61 | the rows are exactly the endpoint's answer to the defaulted query; a failed call yields FetchFailed and nothing else |
| Binance.ClosingPrices | backend/bullbear_backend/data/providers/binance.py:72-74 | succeeds iff every row has a numeric field 4; then one close per row, same order, each the row's field 4; otherwise the error names the first bad row (IndexError for a short row; ValueError or TypeError for a close `float` rejects) |
| Binance.GetClosingPrices | backend/bullbear_backend/data/providers/binance.py:63-74 | queries BTCUSDT, 1d with the given limit; a failed call gives FetchFailed, otherwise the closes of the returned rows |
| Binance.MovingAverage | backend/bullbear_backend/data/providers/binance.py:88-91 | fails with the shortfall error iff fewer than period closes; fails with division by zero iff period is 0; otherwise succeeds and result times period equals the sum of the closes |
| Binance.GetMa | backend/bullbear_backend/data/providers/binance.py:76-91 | fetch errors propagate unchanged; given the closes, raises the shortfall error iff fewer than period arrived, raises division by zero (ZeroPeriod) when period is 0, and otherwise succeeds with result times period equal to their sum |
| Binance.GetMa50 | backend/bullbear_backend/data/providers/binance.py:93-95 | fetch errors propagate; fewer than 50 closes raises NotEnoughData(50, n); otherwise the value is their sum over 50 |
| Binance.GetMa200 | backend/bullbear_backend/data/providers/binance.py:97-99 | fetch errors propagate; fewer than 200 closes raises NotEnoughData(200, n); otherwise the value is their sum over 200 |
| Binance.GetMaBoth | backend/bullbear_backend/data/providers/binance.py:101-118 | one 200-candle query; fewer than 200 closes raises the batch shortfall error; otherwise ma200 is the sum of all closes over 200 and ma50 the sum of the last 50 over 50 |
| Binance.SumAppend | backend/bullbear_backend/data/providers/binance.py:115-116 | the sum of a concatenation is the sum of its parts |
| Binance.SumConstant | backend/bullbear_backend/data/providers/binance.py:91 | n copies of c sum to n times c |
| Binance.SumBounds | backend/bullbear_backend/data/providers/binance.py:91 | elements within [lo, hi] sum to within [n lo, n hi] |
| Binance.MeanOfConstant | backend/bullbear_backend/data/providers/binance.py:86-91 | with exactly period closes all equal to c, the moving average is c |
| Binance.MeanWithinRange | backend/bullbear_backend/data/providers/binance.py:86-91 | with exactly period closes, the moving average succeeds and lies between the lowest and highest close |
| Binance.BothAgreesWithSingle | backend/bullbear_backend/data/providers/binance.py:86-118 | get_ma_both succeeds iff get_ma200 does, with the same MA200; its MA50 is get_ma's arithmetic on the last 50 closes; the shortfall counts coincide and other errors are identical |
| Binance.Ma200SplitsAtMa50 | backend/bullbear_backend/data/providers/binance.py:115-116 | 200 times ma200 is the sum of the older closes plus 50 times ma50, both from one snapshot |
| Binance.ClosingPricesSuffix | backend/bullbear_backend/data/providers/binance.py:74 | projecting the closes of the newest rows equals taking the newest closes of the whole projection |
| Binance.BatchMa50MatchesSeparateCall | backend/bullbear_backend/data/providers/binance.py:93-95 | for an endpoint answering the 50-row query with the newest 50 rows of the 200-row answer, get_ma50 equals the batch MA50 |
| DataTypes.FromWire | backend/bullbear_backend/main.py:46-48 | a recognised string parses to the member with exactly that value; an unrecognised one is the value of no member |
| DataTypes.WireRoundTrip | frontend/src/types.ts:14-20 | parsing a member's string value gives that member back |
| Ma.New | backend/bullbear_backend/data/sources/ma.py:17-27 | construction succeeds iff the period is 50 or 200, storing that period; any other period raises UnsupportedPeriod |
| Ma.Fetch | backend/bullbear_backend/data/sources/ma.py:29-47 | period 50 reports MA50 with get_ma50's value, else MA200 with get_ma200's value; provider errors propagate unchanged; provider is binance; metadata is period, BTCUSDT, 1d |
| Ma.FetchReportsItsPeriod | backend/bullbear_backend/data/sources/ma.py:31-46 | a source built from a period reports ma50 or ma200 accordingly and records that period in the metadata |
| Ma.FetchOfFullWindow | backend/bullbear_backend/data/sources/ma.py:29-36 | with exactly period well-formed rows, fetch succeeds with a value between the lowest and highest close, equal to c when all closes are c |
| Ma.FetchOfShortWindow | backend/bullbear_backend/data/sources/ma.py:31-36 | with fewer than period well-formed rows, fetch yields no result and raises NotEnoughData(period, n) |

## Left out

- Network I/O is not modelled: `requests.get`, `raise_for_status`, JSON decoding and the 10-second timeout. Their combined outcome is the `Upstream` parameter. A failure is `FetchFailed`.
- `get_btc_price` is not modelled because it is only a ticker request and a `float` parse.
- The `BINANCE_BASE_URL` environment override and the request URL are not modelled because they are process configuration.
- `get_klines`'s default `limit` of 200 is not modelled because every modelled caller passes a limit.
- IEEE-754 behaviour is not modelled: prices are exact reals, so float rounding and overflow are absent. The string parsing inside `float(candle[4])` is abstracted into `Cell`.
- Non-list JSON bodies and rows that are not lists are not modelled beyond `FetchFailed`.
- `BadClose` does not distinguish the ValueError `float` raises for an unparsable string from the TypeError it raises for null, a list or an object; both are one error, so the different HTTP error wording the two get is not modelled.
- The `DataFetcher`, the other sources and their providers (CoinMarketCap, Taapi) are not part of this model, and neither are the FastAPI routes and CORS setup in main.py. Only the `DataType` string parse from main.py is modelled.
- `DataResult.to_dict` and the optional `timestamp` field are not modelled because the module that defines them is not part of this model.
