# Portfolio series backend — a Dafny model

The backend serves `/api/portfolio-series`. It downloads daily close prices for the
tickers of a set of model portfolios, starting at `START_DATE` (2026-02-02). It drops
tickers that returned nothing, sorts the rows by date and forward-fills gaps. It then
turns prices into daily returns with the first day forced to 0. Each portfolio's daily
return is the weighted sum of its holdings' returns, and its NAV compounds from a
starting capital of 100. For each portfolio the backend reports:

- the NAV path (rounded to six decimals);
- statistics: total return, CAGR, volatility, Sharpe ratio, maximum drawdown, and the
  start and end values;
- a holdings table.

Before it is sent, the payload goes through `sanitize_for_json`, which turns NaN and
infinities into null. Both this endpoint and `/api/outlook` sit behind a time-based
cache that falls back to the last good payload when a recomputation fails. A separate
audit script, `verify_quant.py`, has a clamp normaliser that it checks against a
known-answer table. It records checks as errors or warnings and exits with failure
exactly when there is an error.

The model, one module per concern:

| module | file | models |
|---|---|---|
| `Wrappers` | wrappers.dfy | `Option` and `Result` |
| `RealArith` | arith.dfy | `min`, `max` and the sign of a product |
| `Tickers` | tickers.dfy | `yahoo_ticker`: `str.strip`, the CASH test and `.` → `-` |
| `JsonSanitize` | json.dfy | `_is_bad_number`, `sanitize_for_json` over a JSON datatype whose floats carry IEEE tags |
| `StableSort` | sorting.dfy | a stable sort by a real key (backs `sort_index` and `items.sort`) |
| `Alignment` | alignment.dfy | the close matrix, `dropna(how="all")`, `sort_index`, `ffill` |
| `NavSim` | navsim.dfy | returns with row 0 forced to 0, the weighted-sum loop, the NAV `cumprod` |
| `Stats` | stats.dfy | `_max_drawdown`, the sample variance and `_compute_stats` |
| `Holdings` | holdings.dfy | the holdings table |
| `Pipeline` | pipeline.dfy | `compute_payload` after the download, rounding, the payload's JSON form |
| `Scenarios` | scenarios.dfy | worked examples |
| `TtlCache` | cache.dfy | the `{ts, payload, last_error}` caches of the two endpoints |
| `QuantAudit` | quantaudit.dfy | `normalize`, `check`, the final summary's exit decision |

Floats are modelled as exact `real`s. The only IEEE values are the explicit `NaN`,
`PosInf` and `NegInf` tags of the JSON datatype. `np.sqrt` and the fractional power
`** (1 / years)` are passed in as function parameters. The square root is constrained
only by `Stats.IsSqrt`: it is non-negative on non-negative inputs and zero exactly at
zero. The download is an input. It gives the dates of its rows as day numbers, in
arrival order, and one close column (`seq<Option<real>>`, `None` for NaN) per
returned ticker. `strftime` is a formatting parameter of `Pipeline.ToJson`. The
clock reading and the outcome of the recomputation are inputs of each cache request.

Some consequences of the code as written:

- Weights are not renormalised over the available tickers. A ticker with no data keeps
  its weight and earns 0, like cash (`Scenarios.MissingTickerIsCash`).
- The invested return is the plain weighted sum; nothing scales it by the invested
  share. A portfolio of 20% CASH and 80% of a ticker that gains 10% earns 8% that day
  (`Scenarios.CashDoesNotDilute`).
- The volatility uses pandas' sample standard deviation (ddof = 1), the default of
  `Series.std`.
- A portfolio of CASH only is not dropped. It gets a flat series at 100
  (`NavSim.UninvestedEarnsNothing`, `NavSim.FlatNav`).
- The only failure once prices are in is "Close prices empty after filtering". The
  `cum.empty` check can never fire after that (`Pipeline.AlignedHasPortfoliosAndDates`).

## Model

| member | source | states |
|---|---|---|
| Tickers.StripSpec | backend/app.py:253 | `strip` returns the part of the input between a run of leading and a run of trailing whitespace, and the result has no whitespace at either end |
| Tickers.ReplaceDots | backend/app.py:256 | the result has the input's length; every `.` becomes `-` and every other character is kept |
| Tickers.YahooTickerSpec | backend/app.py:249-256 | the result has the stripped ticker's length; a ticker that is CASH in any case is returned stripped and otherwise unchanged; any other ticker has each `.` replaced by `-`; no result contains a `.` |
| Tickers.YahooTickerIdempotent | backend/app.py:249-256 | mapping an already mapped ticker changes nothing |
| Tickers.YahooTickerClassShare | backend/app.py:251-255 | `BRK.B` maps to `BRK-B` |
| Tickers.YahooTickerPaddedCash | backend/app.py:251-255 | ` CASH ` maps to `CASH` |
| JsonSanitize.Sanitize | backend/app.py:171-188 | the result contains no NaN or infinity anywhere |
| JsonSanitize.SanitizeShape | backend/app.py:171-188 | same shape as the input: a float becomes null exactly when it is NaN or infinite; null, ints, strings and bools are unchanged; lists keep their length; dicts keep their keys in order |
| JsonSanitize.SanitizeClean | backend/app.py:178-188 | a value with no NaN or infinity is returned unchanged |
| JsonSanitize.SanitizeIdempotent | backend/app.py:171-188 | sanitising twice equals sanitising once |
| StableSort.SortBySpec | backend/app.py:364 | the result is a permutation of the input, in non-decreasing key order, and the elements with any one key keep their input order (stability) |
| Alignment.CloseColumns | backend/app.py:286-290 | the close matrix holds exactly the requested tickers that the download returned, each with its downloaded column |
| Alignment.DropEmpty | backend/app.py:299 | a column survives exactly when it holds at least one price, and it survives unchanged |
| Alignment.DateOrder | backend/app.py:303 | `sort_index` reads the rows along a permutation of the row numbers, and the dates never decrease along it |
| Alignment.FFillAt | backend/app.py:303 | after `ffill`, a slot is null exactly when no price was seen at or before it; otherwise it holds the latest price at or before it; a slot that had a price keeps it |
| Alignment.FFillStaysFilled | backend/app.py:303 | once a forward-filled column has a value, every later slot has one |
| Alignment.AlignFails | backend/app.py:299-301 | alignment fails, the "Close prices empty" error, exactly when no column holds a price |
| Alignment.AlignRows | backend/app.py:303 | on success the date axis is the downloaded dates in that order, non-decreasing; every column is read in the same order and forward-filled |
| Alignment.AlignColumns | backend/app.py:299-303 | on success the surviving columns are exactly those with a price; each has one slot per date and still holds a price |
| Alignment.SortedDatesPermute | backend/app.py:303 | the sorted date axis is a rearrangement of the downloaded dates: none is lost or duplicated |
| NavSim.ReturnsOf | backend/app.py:306-309 | the returns matrix has one column per surviving ticker |
| NavSim.ReturnsSpec | backend/app.py:306-309 | row 0 is 0; a return reproduces its price from the previous one (`cur == prev * (1 + r)`); a gap, a zero previous price or an unchanged forward-filled price gives 0 |
| NavSim.PortfolioDaily | backend/app.py:325-338 | the loop's `contrib` is the weighted return of every non-CASH, nonzero-weight holding present in the returns, summed in dict order; `missing_weight` is the weight of the absent ones |
| NavSim.NavSpec | backend/app.py:344 | NAV[0] is 100·(1 + daily[0]), and each later NAV is the previous one times (1 + daily[i]) |
| NavSim.DailyAtFirstRow | backend/app.py:308 | when every return on row 0 is 0, every portfolio's first daily return is 0 |
| NavSim.DailyAtLowerBound | backend/app.py:335 | with non-negative weights and no return below -100%, a daily return is never below minus the total weight |
| NavSim.NavNonNegative | backend/app.py:344 | a NAV whose daily returns never fall below -100% never goes negative |
| NavSim.NavPositive | backend/app.py:344 | a NAV whose daily returns all stay above -100% stays positive |
| NavSim.UninvestedEarnsNothing | backend/app.py:322-331 | a portfolio of only CASH and zero-weight entries earns 0 every day |
| NavSim.FlatNav | backend/app.py:344 | with a zero return every day the NAV stays at 100 |
| Stats.Peak | backend/app.py:198 | the running peak is at least every value so far and equals one of them |
| Stats.MaxDrawdownIsMin | backend/app.py:197-200 | the maximum drawdown is the smallest daily drawdown against the running peak, and some day attains it |
| Stats.MaxDrawdownNonPositive | backend/app.py:197-200 | for a series starting positive, the maximum drawdown is at most 0 |
| Stats.MaxDrawdownAboveMinusOne | backend/app.py:197-200 | for a series of positive values, the maximum drawdown is above -1 |
| Stats.MaxDrawdownNonDecreasing | backend/app.py:197-200 | a series that never falls has a maximum drawdown of exactly 0 |
| Stats.VarianceZeroIffConstant | backend/app.py:226 | the sample variance of two or more returns is 0 exactly when all of them are equal |
| Stats.StatForSkips | backend/app.py:209-211 | a series is skipped exactly when it has fewer than two points |
| Stats.StatForValues | backend/app.py:232-240 | start and end values are the first and last NAV, and the drawdown is that of the whole series |
| Stats.TotalReturnRoundTrip | backend/app.py:215 | growing the start value by the total return gives the end value |
| Stats.StatForCagr | backend/app.py:217-223 | the CAGR is null exactly when no positive number of days separates the endpoints or an endpoint is not positive |
| Stats.StatForVolatility | backend/app.py:225-231 | vol and Sharpe are null together, exactly when there are fewer than two daily returns or all of them are equal (std = 0) |
| Stats.KeptAll | backend/app.py:207-241 | when no column is skipped, the dict has one entry per column, in column order |
| Stats.KeptNone | backend/app.py:207-211 | when every column is skipped, the dict is empty |
| Stats.StatsOfEntries | backend/app.py:203-243 | with fewer than two dates no portfolio gets stats; otherwise every portfolio gets its entry, in column order |
| Stats.ComputeStats | backend/app.py:203-243 | the loop builds exactly `StatsOf`: with fewer than two dates no portfolio gets stats, otherwise every portfolio gets its entry, in column order |
| Holdings.BuildHoldings | backend/app.py:354-365 | one row per spec entry, CASH included (a permutation of the spec rows); `weight_pct` = 100·weight and `dollars` = weight·100; non-increasing weight; rows of equal weight in spec order |
| Pipeline.RequestedTickersSpec | backend/app.py:261-265 | every non-CASH key of every portfolio is requested under its Yahoo form, nothing else is requested, no requested ticker contains a `.`, and no portfolios means no tickers |
| Pipeline.Round6Spec | backend/app.py:350 | rounding moves a value by at most half a millionth and lands on a whole number of millionths |
| Pipeline.Round6Exact | backend/app.py:350 | a whole number of millionths is left unchanged |
| Pipeline.Round6Idempotent | backend/app.py:350 | rounding twice equals rounding once |
| Pipeline.NavsStartAtCapital | backend/app.py:305-344 | every portfolio's NAV has one value per date and starts at exactly `INITIAL_CAPITAL` |
| Pipeline.NavPaths | backend/app.py:315-345 | the loop adds one NAV column per portfolio, in order, each `Nav` of that portfolio's daily returns |
| Pipeline.HoldingsTables | backend/app.py:354-368 | one holdings table per portfolio, in order, each meeting `IsHoldingsTable` |
| Pipeline.Assemble | backend/app.py:311-373 | on an aligned matrix the payload is built unless there are no portfolios or no dates (the `cum.empty` error); when built, labels, series, stats, holdings and start date are exactly as `IsPayload` describes |
| Pipeline.AlignedHasPortfoliosAndDates | backend/app.py:346-347 | once the close matrix is non-empty there is a portfolio and a date, so `cum.empty` never holds |
| Pipeline.ComputePayload | backend/app.py:299-373 | fails exactly when none of the requested tickers came back with a price, and then with the "Close prices empty" error; otherwise it returns the payload of the aligned matrix |
| Pipeline.PayloadStats | backend/app.py:351 | the payload's stats: none with fewer than two dates, otherwise one entry per portfolio, in order, the `StatFor` of its unrounded NAV path |
| Pipeline.PayloadLabels | backend/app.py:349 | the labels are the downloaded dates, rearranged into non-decreasing order |
| Pipeline.PayloadSeriesStart | backend/app.py:350 | every series has one value per label and starts at exactly 100 |
| Pipeline.StatJson | backend/app.py:232-240 | a stats entry is free of NaN and infinity and has the seven keys in the source's order |
| Pipeline.RowJson | backend/app.py:358-363 | a holdings row is free of NaN and infinity and has the keys ticker, weight, weight_pct, dollars |
| Pipeline.ToJson | backend/app.py:367-373 | the payload is free of NaN and infinity and has the keys labels, series, stats, holdings, start_date |
| Pipeline.SanitizedPayloadUnchanged | backend/app.py:375 | the final `sanitize_for_json` returns the payload unchanged |
| Scenarios.SingleAsset | backend/app.py:306-344 | prices 100, 110, 99 at weight 1 give NAV 100, 110, 99, total return -0.01 and maximum drawdown -0.1 |
| Scenarios.CashDoesNotDilute | backend/app.py:319-343 | 20% CASH with 80% in a ticker gaining 10% gives daily returns 0 then 0.08 |
| Scenarios.MissingTickerIsCash | backend/app.py:333-338 | half in a ticker gaining 10% and half in a missing ticker gives 0 then 0.05, with missing weight 0.5 |
| Scenarios.ForwardFilledGap | backend/app.py:303-309 | a price missing on day 2 yields returns 0, 0 and then 0.1 from the carried price |
| TtlCache.FreshHit | backend/app.py:419-420 | a cached payload younger than the lifetime is served, the record is untouched and the recomputation is not consulted |
| TtlCache.SuccessStores | backend/app.py:422-427 | a successful recomputation is stored with the request time, clears the last error and is served, also when it returned `None` |
| TtlCache.FailureFallsBack | backend/app.py:428-432 | a failure records its message, keeps the payload and its time, and serves the stale payload if there is one; otherwise it raises |
| TtlCache.PayloadKept | backend/app.py:397-413 | while a payload is cached, a request whose recomputation does not return `None` keeps a payload cached and answers with one |
| TtlCache.NullLoadEmpties | backend/app.py:397-413 | when `load_outlook` returns `None` (an `outlook.json` holding `null`), the stale cache is emptied, the `null` is answered and the next failed load raises |
| TtlCache.SuccessThenHit | backend/app.py:419-427 | after a success, a request less than the lifetime later is a hit on that payload |
| TtlCache.NeverRaisesOnceCached | backend/app.py:416-432 | over any sequence of requests from a state with a payload, none of whose recomputations returns `None` (`compute_payload` always returns a dict), the payload stays and every reply is a payload |
| TtlCache.Cache.constructor | backend/app.py:148 | the record starts as ts 0, no payload, no error |
| TtlCache.Cache.Serve | backend/app.py:416-432 | the fields and the reply after a request are those of `Step` |
| TtlCache.NewCaches | backend/app.py:148-157 | the series cache lives 15 seconds and the outlook cache 300, both starting empty |
| QuantAudit.Normalize | backend/verify_quant.py:51-52 | the division fails exactly when hi == lo |
| QuantAudit.NormalizeRange | backend/verify_quant.py:51-52 | the score lies in [0, 100], and equals the unclamped percentage whenever that is in range |
| QuantAudit.NormalizeEnds | backend/verify_quant.py:54-63 | for hi > lo, lo scores 0, hi scores 100 and the midpoint 50 |
| QuantAudit.NormalizeClamps | backend/verify_quant.py:51-59 | values at or above hi score 100, values at or below lo score 0 |
| QuantAudit.NormalizeMonotone | backend/verify_quant.py:51-52 | for hi > lo a larger value never scores lower |
| QuantAudit.KnownAnswers | backend/verify_quant.py:54-69 | every row of the table and the SPY spot check (1.03 → 53) come out exactly |
| QuantAudit.Tag | backend/verify_quant.py:25-26 | PASS exactly when the condition holds; otherwise WARN exactly at level WARN, FAIL otherwise |
| QuantAudit.Audit.constructor | backend/verify_quant.py:22-23 | both lists start empty |
| QuantAudit.Audit.Check | backend/verify_quant.py:25-29 | a passing check changes neither list; a failing one appends exactly `label: msg` to warnings at level WARN and to errors otherwise |
| QuantAudit.ExitDecision | backend/verify_quant.py:328-339 | the exit status is non-zero exactly when there is an error; warnings alone never fail; the summary counts the list it reports |
| QuantAudit.Audit.Exit | backend/verify_quant.py:328-339 | the exit status the lists produce is non-zero exactly when errors is non-empty |
| QuantAudit.NormalizeChecks | backend/verify_quant.py:66-73 | running the spot check and the table adds nothing to either list |

## Left out

- The yfinance download, its threaded and unthreaded retry, the "no data" and "unexpected
  columns" errors and the single-ticker column shape (backend/app.py:267-297). They are
  network I/O and a foreign library; the downloaded close columns are an input of
  `Pipeline.ComputePayload`.
- The sorted order of `yahoo_tickers` (backend/app.py:261-265). It only feeds the download,
  so the requested tickers are a set.
- FastAPI, CORS, the route decorators and `/api/health`. They are framework wiring with
  no logic of their own. `time.time()` is the `now` input of a cache request.
- `load_outlook` (backend/app.py:378-383). It is file I/O and `json.load`; its outcome,
  which may be `None` when the file holds `null`, is an input of the outlook cache.
- Concurrent requests. FastAPI runs the two synchronous endpoints on a thread pool, so the
  writes to a cache record (backend/app.py:403-413 and 422-432) of two requests can
  interleave. The model takes one request at a time: `TtlCache.Step`, `TtlCache.Run` and
  `TtlCache.Cache.Serve` apply each request to the record left by the previous one.
- The `jsonable_encoder` fallback and numpy scalars in `sanitize_for_json`
  (backend/app.py:175-176, 190-194). They are a foreign call and foreign types; the
  JSON datatype has no other kinds of value.
- IEEE arithmetic. NaN and infinities from `pct_change` on a zero price are modelled
  by the case they fall into after `replace`, `fillna` and `dropna`. `np.sqrt`
  and the fractional power are function parameters.
- Stats.StatFor: requires the first NAV to be positive, so the drawdown never divides
  by a zero peak. Every NAV the pipeline builds starts at 100
  (`Pipeline.NavsStartAtCapital`).
- Stats.ComputeStats: assumes every NAV value is finite, so `replace(inf).dropna()` on
  the NAV column removes nothing.
- Pipeline.Round6: rounds exact reals half to even. It does not model the binary
  floating-point rounding of numpy's `round(6)`.
- Alignment.DateOrder: duplicate dates keep their download order (a stable sort). The
  model does not decide what pandas' default sort does with duplicate index values.
- Tickers.IsCash: `str.upper()` is modelled for ASCII letters and U+017F (ſ, whose upper
  case is S). Other Unicode characters whose upper case is C, A, S or H are not
  handled.
- `strftime` date formatting (backend/app.py:349). It is a parameter of `Pipeline.ToJson`.
- Everything else in verify_quant.py:
  - the OLS known-answer checks (backend/verify_quant.py:36-47);
  - the excess-return and annualised-alpha arithmetic checks (lines 75-87);
  - everything that reads `portfolio.db`, runs statsmodels OLS or numpy `lstsq`, or
    prints tables (lines 88-321).
  These are foreign numeric libraries and database I/O, and the constant checks need
  nothing beyond `Audit.Check`. The norm table at lines 305-321 only calls `check` with
  a constant `True`.
- Print formatting throughout, including the lines `check` prints; `Audit.Check`
  returns the tag instead.
