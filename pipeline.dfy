/** `compute_payload` (backend/app.py): from the downloaded close prices to the JSON payload
    served at `/api/portfolio-series`. The download itself is an input: the dates of its rows
    (as day numbers, in the order the rows arrived) and the close column of each ticker. */
module Pipeline {
  import opened Wrappers
  import opened Tickers
  import Alignment
  import NavSim
  import Stats
  import Holdings
  import opened JsonSanitize

  /** `START_DATE`, echoed in the payload. */
  const StartDate: string := "2026-02-02"

  /** The `PORTFOLIOS` dict: portfolio name to its weights, in insertion order. */
  type Portfolios = seq<(string, NavSim.Weights)>

  /** The two ways `compute_payload` fails once the prices are in. */
  datatype Error = CloseEmpty | NoPortfolios

  /** The text of the `RuntimeError` raised for each failure. */
  function Message(e: Error): string {
    match e
    case CloseEmpty => "Close prices empty after filtering (all tickers failed)."
    case NoPortfolios => "No portfolios computed (missing tickers or data)."
  }

  /** The Yahoo tickers to download: the mapped form of every non-CASH key of every portfolio. */
  function RequestedTickers(ps: Portfolios): set<string> {
    set k, m | 0 <= k < |ps| && 0 <= m < |ps[k].1| && !IsCash(ps[k].1[m].0) :: YahooTicker(ps[k].1[m].0)
  }

  /** Every non-CASH holding is requested under its Yahoo form, nothing else is requested,
      and no requested ticker contains a dot. */
  lemma RequestedTickersSpec(ps: Portfolios)
    ensures forall k, m :: 0 <= k < |ps| && 0 <= m < |ps[k].1| && !IsCash(ps[k].1[m].0) ==>
      YahooTicker(ps[k].1[m].0) in RequestedTickers(ps)
    ensures forall yt :: yt in RequestedTickers(ps) ==>
      exists k, m :: 0 <= k < |ps| && 0 <= m < |ps[k].1| && !IsCash(ps[k].1[m].0) && yt == YahooTicker(ps[k].1[m].0)
    ensures forall yt :: yt in RequestedTickers(ps) ==> forall i :: 0 <= i < |yt| ==> yt[i] != '.'
    ensures ps == [] ==> RequestedTickers(ps) == {}
  {
    forall yt | yt in RequestedTickers(ps) ensures forall i :: 0 <= i < |yt| ==> yt[i] != '.' {
      var k, m :| 0 <= k < |ps| && 0 <= m < |ps[k].1| && !IsCash(ps[k].1[m].0) && yt == YahooTicker(ps[k].1[m].0);
      YahooTickerSpec(ps[k].1[m].0);
    }
  }

  // ---------------------------------------------------------------------------------------
  // Rounding of the series
  // ---------------------------------------------------------------------------------------

  /** `10 ** 6`: the series are rounded to six decimals. */
  const Scale: real := 1000000.0

  /** The real number `n` millionths. */
  function Micro(n: int): real {
    n as real / Scale
  }

  /** `round(6)`: to the nearest multiple of one millionth, a tie going to the even
      multiple (numpy's rule), on exact reals. */
  function Round6(x: real): real {
    var s := x * Scale;
    var f := s.Floor;
    var frac := s - f as real;
    var n := if frac > 0.5 then f + 1 else if frac < 0.5 then f else if f % 2 == 0 then f else f + 1;
    Micro(n)
  }

  /** Rounding moves a value by at most half a millionth and lands on a multiple of one
      millionth. */
  lemma Round6Spec(x: real)
    ensures -0.5 / Scale <= Round6(x) - x <= 0.5 / Scale
    ensures exists n: int :: Round6(x) == Micro(n)
  {
    var s := x * Scale;
    var f := s.Floor;
    var n := if s - f as real > 0.5 then f + 1 else if s - f as real < 0.5 then f
      else if f % 2 == 0 then f else f + 1;
    assert Round6(x) == Micro(n);
    assert -0.5 <= n as real - s <= 0.5;
    ScaleDistance(n as real, s);
  }

  /** Dividing a distance of at most one half by the scale. */
  lemma ScaleDistance(a: real, s: real)
    requires -0.5 <= a - s <= 0.5
    ensures -0.5 / Scale <= a / Scale - s / Scale <= 0.5 / Scale
  {
  }

  /** A value that already has at most six decimals is left as it is; rounding twice is
      rounding once. */
  lemma Round6Exact(n: int)
    ensures Round6(Micro(n)) == Micro(n)
  {
    var x := n as real / Scale;
    assert x * Scale == n as real;
    assert (x * Scale).Floor == n;
  }

  lemma Round6Idempotent(x: real)
    ensures Round6(Round6(x)) == Round6(x)
  {
    Round6Spec(x);
    var n: int :| Round6(x) == Micro(n);
    Round6Exact(n);
  }

  /** `cum[col].round(6).tolist()`. */
  function RoundAll(s: seq<real>): (r: seq<real>)
    ensures |r| == |s| && forall i :: 0 <= i < |s| ==> r[i] == Round6(s[i])
  {
    seq(|s|, i requires 0 <= i < |s| => Round6(s[i]))
  }

  // ---------------------------------------------------------------------------------------
  // The payload
  // ---------------------------------------------------------------------------------------

  /** The payload dict before serialisation; `labels` are day numbers (the date formatting
      is a parameter of `ToJson`). */
  datatype Payload = Payload(
    labels: seq<int>,
    series: seq<(string, seq<real>)>,
    stats: seq<(string, Stats.Stat)>,
    holdings: seq<(string, seq<Holdings.HoldingRow>)>,
    startDate: string)

  /** The `cum` frame: one NAV path per portfolio, in the dict's order. */
  function Navs(ps: Portfolios, rets: NavSim.ReturnsTable, n: nat): (cum: seq<(string, seq<real>)>)
    requires NavSim.IsTable(rets, n)
    ensures |cum| == |ps|
  {
    seq(|ps|, k requires 0 <= k < |ps| => (ps[k].0, NavSim.Nav(NavSim.Daily(ps[k].1, rets, n))))
  }

  /** The returns of an aligned matrix form a table with a zero first row. */
  lemma ReturnsOfAligned(cols: map<string, Alignment.Column>, n: nat)
    requires Alignment.Rectangular(n, cols)
    ensures NavSim.IsTable(NavSim.ReturnsOf(cols), n)
    ensures 0 < n ==> forall t :: t in NavSim.ReturnsOf(cols) ==> NavSim.ReturnsOf(cols)[t][0] == 0.0
  {
  }

  /** Every NAV path has one value per date and starts at exactly `INITIAL_CAPITAL`, whatever
      the weights and the prices: the first row of returns is forced to 0. */
  lemma NavsStartAtCapital(ps: Portfolios, cols: map<string, Alignment.Column>, n: nat)
    requires Alignment.Rectangular(n, cols)
    ensures NavSim.IsTable(NavSim.ReturnsOf(cols), n)
    ensures var cum := Navs(ps, NavSim.ReturnsOf(cols), n);
      forall k :: 0 <= k < |ps| ==> |cum[k].1| == n && (0 < n ==> cum[k].1[0] == NavSim.InitialCapital)
  {
    var rets := NavSim.ReturnsOf(cols);
    ReturnsOfAligned(cols, n);
    forall k | 0 <= k < |ps|
      ensures 0 < n ==> Navs(ps, rets, n)[k].1[0] == NavSim.InitialCapital
    {
      if 0 < n {
        var d := NavSim.Daily(ps[k].1, rets, n);
        NavSim.DailyAtFirstRow(ps[k].1, rets, n);
        NavSim.NavSpec(d, 0);
      }
    }
  }

  /** What a successful `compute_payload` returns for the aligned matrix `a`: the sorted
      dates, each portfolio's rounded NAV path, the stats of the unrounded paths, each
      portfolio's holdings table and the start date. */
  ghost predicate IsPayload(p: Payload, ps: Portfolios, a: Alignment.Aligned,
                            sqrt: real -> real, pow: (real, real) -> real)
    requires Alignment.Rectangular(|a.dates|, a.cols)
    requires Stats.IsSqrt(sqrt)
  {
    NavsStartAtCapital(ps, a.cols, |a.dates|);
    var cum := Navs(ps, NavSim.ReturnsOf(a.cols), |a.dates|);
    assert Stats.NavTable(cum, a.dates);
    && p.labels == a.dates
    && |p.series| == |ps|
    && (forall k :: 0 <= k < |ps| ==> p.series[k] == (ps[k].0, RoundAll(cum[k].1)))
    && p.stats == Stats.StatsOf(cum, a.dates, sqrt, pow)
    && |p.holdings| == |ps|
    && (forall k :: 0 <= k < |ps| ==>
          p.holdings[k].0 == ps[k].0 && Holdings.IsHoldingsTable(ps[k].1, p.holdings[k].1))
    && p.startDate == StartDate
  }

  /** Lines 311-345: the loop over the portfolios that adds one NAV column per portfolio. */
  method NavPaths(ps: Portfolios, rets: NavSim.ReturnsTable, n: nat) returns (cum: seq<(string, seq<real>)>)
    requires NavSim.IsTable(rets, n)
    ensures cum == Navs(ps, rets, n)
  {
    cum := [];
    for k := 0 to |ps|
      invariant cum == Navs(ps[..k], rets, n)
    {
      var (pname, weights) := ps[k];
      var contrib, missing := NavSim.PortfolioDaily(weights, rets, n);
      cum := cum + [(pname, NavSim.Nav(contrib))];
    }
    assert ps[..|ps|] == ps;
  }

  /** Lines 355-368: the loop over the portfolios that builds each holdings table. */
  method HoldingsTables(ps: Portfolios) returns (holdings: seq<(string, seq<Holdings.HoldingRow>)>)
    ensures |holdings| == |ps|
    ensures forall k :: 0 <= k < |ps| ==>
      holdings[k].0 == ps[k].0 && Holdings.IsHoldingsTable(ps[k].1, holdings[k].1)
  {
    holdings := [];
    for k := 0 to |ps|
      invariant |holdings| == k
      invariant forall j :: 0 <= j < k ==>
        holdings[j].0 == ps[j].0 && Holdings.IsHoldingsTable(ps[j].1, holdings[j].1)
    {
      var items := Holdings.BuildHoldings(ps[k].1);
      holdings := holdings + [(ps[k].0, items)];
    }
  }

  /** Lines 311-373 on an aligned matrix: returns, the NAV path of every portfolio, the
      `cum.empty` check, the rounded series, stats and holdings. */
  method Assemble(ps: Portfolios, a: Alignment.Aligned, sqrt: real -> real, pow: (real, real) -> real)
    returns (r: Result<Payload, Error>)
    requires Alignment.Rectangular(|a.dates|, a.cols)
    requires Stats.IsSqrt(sqrt)
    ensures r.Err? <==> ps == [] || a.dates == []
    ensures r.Err? ==> r.error == NoPortfolios
    ensures r.Ok? ==> IsPayload(r.value, ps, a, sqrt, pow)
  {
    var n := |a.dates|;
    var rets := NavSim.ReturnsOf(a.cols);
    ReturnsOfAligned(a.cols, n);
    var cum := NavPaths(ps, rets, n);
    if cum == [] || n == 0 {
      return Err(NoPortfolios);
    }
    NavsStartAtCapital(ps, a.cols, n);
    var series := seq(|cum|, k requires 0 <= k < |cum| => (cum[k].0, RoundAll(cum[k].1)));
    var stats := Stats.ComputeStats(cum, a.dates, sqrt, pow);
    var holdings := HoldingsTables(ps);
    r := Ok(Payload(a.dates, series, stats, holdings, StartDate));
  }

  /** The stats of a payload: with fewer than two dates there are none; otherwise every
      portfolio has its entry, in order, computed from its unrounded NAV path. */
  lemma PayloadStats(p: Payload, ps: Portfolios, a: Alignment.Aligned, sqrt: real -> real, pow: (real, real) -> real)
    requires Alignment.Rectangular(|a.dates|, a.cols) && Stats.IsSqrt(sqrt)
    requires IsPayload(p, ps, a, sqrt, pow)
    ensures NavSim.IsTable(NavSim.ReturnsOf(a.cols), |a.dates|)
    ensures Stats.NavTable(Navs(ps, NavSim.ReturnsOf(a.cols), |a.dates|), a.dates)
    ensures var cum := Navs(ps, NavSim.ReturnsOf(a.cols), |a.dates|);
      && (|a.dates| < 2 ==> p.stats == [])
      && (|a.dates| >= 2 ==> |p.stats| == |ps| && forall k :: 0 <= k < |ps| ==>
            p.stats[k].0 == ps[k].0 && Stats.StatFor(cum[k].1, a.dates, sqrt, pow) == Some(p.stats[k].1))
  {
    NavsStartAtCapital(ps, a.cols, |a.dates|);
    var cum := Navs(ps, NavSim.ReturnsOf(a.cols), |a.dates|);
    Stats.StatsOfEntries(cum, a.dates, sqrt, pow);
    if |a.dates| >= 2 {
      forall k | 0 <= k < |ps|
        ensures p.stats[k].0 == ps[k].0 && Stats.StatFor(cum[k].1, a.dates, sqrt, pow) == Some(p.stats[k].1)
      {
        Stats.StatForSkips(cum[k].1, a.dates, sqrt, pow);
      }
    }
  }

  /** If any requested price survives the download, some portfolio asked for it, and there
      are dates: `cum.empty` never holds once the close matrix is non-empty. */
  lemma AlignedHasPortfoliosAndDates(ps: Portfolios, dates: seq<int>, raw: map<string, Alignment.Column>)
    requires Alignment.Rectangular(|dates|, raw)
    requires Alignment.Align(dates, Alignment.CloseColumns(raw, RequestedTickers(ps))).Some?
    ensures ps != []
    ensures Alignment.Align(dates, Alignment.CloseColumns(raw, RequestedTickers(ps))).value.dates != []
  {
    var close := Alignment.CloseColumns(raw, RequestedTickers(ps));
    Alignment.AlignFails(dates, close);
    Alignment.AlignRows(dates, close);
    var t :| t in close && Alignment.HasObservation(close[t]);
    RequestedTickersSpec(ps);
  }

  /** `compute_payload` after the download: build the close matrix of the requested tickers,
      align it, and assemble the payload. It fails exactly when none of the requested tickers
      came back with a price; the `cum.empty` error cannot then be raised. */
  method ComputePayload(ps: Portfolios, dates: seq<int>, raw: map<string, Alignment.Column>,
                        sqrt: real -> real, pow: (real, real) -> real)
    returns (r: Result<Payload, Error>)
    requires Alignment.Rectangular(|dates|, raw)
    requires Stats.IsSqrt(sqrt)
    ensures r.Err? <==> forall t :: t in raw && t in RequestedTickers(ps) ==> !Alignment.HasObservation(raw[t])
    ensures r.Err? ==> r.error == CloseEmpty
    ensures r.Ok? ==>
      var a := Alignment.Align(dates, Alignment.CloseColumns(raw, RequestedTickers(ps)));
      a.Some? && IsPayload(r.value, ps, a.value, sqrt, pow)
  {
    var requested := RequestedTickers(ps);
    var close := Alignment.CloseColumns(raw, requested);
    Alignment.AlignFails(dates, close);
    var aligned := Alignment.Align(dates, close);
    if aligned.None? {
      return Err(CloseEmpty);
    }
    Alignment.AlignColumns(dates, close);
    Alignment.AlignRows(dates, close);
    AlignedHasPortfoliosAndDates(ps, dates, raw);
    r := Assemble(ps, aligned.value, sqrt, pow);
  }

  /** On success the labels are the downloaded dates, rearranged into non-decreasing order. */
  lemma PayloadLabels(ps: Portfolios, dates: seq<int>, raw: map<string, Alignment.Column>,
                      sqrt: real -> real, pow: (real, real) -> real, p: Payload)
    requires Alignment.Rectangular(|dates|, raw) && Stats.IsSqrt(sqrt)
    requires Alignment.Align(dates, Alignment.CloseColumns(raw, RequestedTickers(ps))).Some?
    requires IsPayload(p, ps, Alignment.Align(dates, Alignment.CloseColumns(raw, RequestedTickers(ps))).value, sqrt, pow)
    ensures |p.labels| == |dates| && multiset(p.labels) == multiset(dates)
    ensures forall i, j :: 0 <= i < j < |p.labels| ==> p.labels[i] <= p.labels[j]
  {
    var close := Alignment.CloseColumns(raw, RequestedTickers(ps));
    Alignment.AlignRows(dates, close);
    Alignment.SortedDatesPermute(dates);
  }

  /** On success every series has one value per date and starts at exactly 100. */
  lemma PayloadSeriesStart(ps: Portfolios, a: Alignment.Aligned,
                           sqrt: real -> real, pow: (real, real) -> real, p: Payload)
    requires Alignment.Rectangular(|a.dates|, a.cols) && Stats.IsSqrt(sqrt)
    requires a.dates != []
    requires IsPayload(p, ps, a, sqrt, pow)
    ensures |p.series| == |ps| && forall k :: 0 <= k < |ps| ==>
      p.series[k].0 == ps[k].0 && |p.series[k].1| == |a.dates| && p.series[k].1[0] == NavSim.InitialCapital
  {
    NavsStartAtCapital(ps, a.cols, |a.dates|);
    Round6Exact(100000000);
    assert NavSim.InitialCapital == Micro(100000000);
  }

  // ---------------------------------------------------------------------------------------
  // Serialisation
  // ---------------------------------------------------------------------------------------

  /** A finite float. */
  function Num(x: real): Json {
    JFloat(Finite(x))
  }

  /** A float or `None`. */
  function OptNum(o: Option<real>): Json {
    match o
    case None => JNull
    case Some(x) => Num(x)
  }

  /** One entry of the `stats` dict, with the keys of lines 232-240. */
  function StatJson(st: Stats.Stat): (j: Json)
    ensures Clean(j)
    ensures j.JDict? && Keys(j.entries) ==
      ["total_return", "cagr", "vol", "max_drawdown", "sharpe", "start_value", "end_value"]
  {
    JDict([("total_return", Num(st.totalReturn)), ("cagr", OptNum(st.cagr)), ("vol", OptNum(st.vol)),
           ("max_drawdown", Num(st.maxDrawdown)), ("sharpe", OptNum(st.sharpe)),
           ("start_value", Num(st.startValue)), ("end_value", Num(st.endValue))])
  }

  /** One holdings row, with the keys of lines 358-363. */
  function RowJson(h: Holdings.HoldingRow): (j: Json)
    ensures Clean(j)
    ensures j.JDict? && Keys(j.entries) == ["ticker", "weight", "weight_pct", "dollars"]
  {
    JDict([("ticker", JStr(h.ticker)), ("weight", Num(h.weight)),
           ("weight_pct", Num(h.weightPct)), ("dollars", Num(h.dollars))])
  }

  /** A list of floats. */
  function NumList(xs: seq<real>): (j: Json)
    ensures Clean(j) && j.JList? && |j.items| == |xs|
  {
    JList(seq(|xs|, i requires 0 <= i < |xs| => Num(xs[i])))
  }

  /** A list of holdings rows. */
  function RowList(rows: seq<Holdings.HoldingRow>): (j: Json)
    ensures Clean(j) && j.JList? && |j.items| == |rows|
  {
    JList(seq(|rows|, i requires 0 <= i < |rows| => RowJson(rows[i])))
  }

  /** The payload dict of lines 367-373; `fmt` is the `strftime("%Y-%m-%d")` of a date. */
  function ToJson(p: Payload, fmt: int -> string): (j: Json)
    ensures Clean(j)
    ensures j.JDict? && Keys(j.entries) == ["labels", "series", "stats", "holdings", "start_date"]
  {
    var labels := JList(seq(|p.labels|, i requires 0 <= i < |p.labels| => JStr(fmt(p.labels[i]))));
    var series := JDict(seq(|p.series|, k requires 0 <= k < |p.series| => (p.series[k].0, NumList(p.series[k].1))));
    var stats := JDict(seq(|p.stats|, k requires 0 <= k < |p.stats| => (p.stats[k].0, StatJson(p.stats[k].1))));
    var holdings := JDict(seq(|p.holdings|, k requires 0 <= k < |p.holdings| => (p.holdings[k].0, RowList(p.holdings[k].1))));
    JDict([("labels", labels), ("series", series), ("stats", stats), ("holdings", holdings),
           ("start_date", JStr(p.startDate))])
  }

  /** The final `sanitize_for_json(payload)` changes nothing: every float the pipeline
      produces is finite, so the payload is served exactly as built. */
  lemma SanitizedPayloadUnchanged(p: Payload, fmt: int -> string)
    ensures Sanitize(ToJson(p, fmt)) == ToJson(p, fmt)
  {
    SanitizeClean(ToJson(p, fmt));
  }
}
