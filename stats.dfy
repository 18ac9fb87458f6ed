/** Summary statistics of the NAV paths (`_compute_stats`, `_max_drawdown`). */
module Stats {
  import opened Wrappers
  import opened RealArith

  /** `TRADING_DAYS`, the annualisation factor. */
  const TradingDays: real := 252.0

  /** The properties of `np.sqrt` the statistics depend on: it is non-negative on
      non-negative arguments and zero only at zero. Its values are otherwise left open. */
  ghost predicate IsSqrt(sqrt: real -> real) {
    forall x :: 0.0 <= x ==> 0.0 <= sqrt(x) && (sqrt(x) == 0.0 <==> x == 0.0)
  }

  /** One portfolio's entry in the `stats` dict; `None` is serialised as null. */
  datatype Stat = Stat(
    totalReturn: real,
    cagr: Option<real>,
    vol: Option<real>,
    maxDrawdown: real,
    sharpe: Option<real>,
    startValue: real,
    endValue: real)

  /** The largest value of a non-empty series (`cummax()` at its last row). */
  function Peak(s: seq<real>): (p: real)
    requires s != []
    ensures forall i :: 0 <= i < |s| ==> s[i] <= p
    ensures exists i :: 0 <= i < |s| && s[i] == p
  {
    if |s| == 1 then s[0]
    else
      var q := Peak(s[..|s| - 1]);
      assert forall i :: 0 <= i < |s| - 1 ==> s[..|s| - 1][i] == s[i];
      Max(q, s[|s| - 1])
  }

  /** The drawdown on day `i`: the value against the running peak, minus 1. */
  function DrawdownAt(s: seq<real>, i: nat): real
    requires i < |s| && s[0] > 0.0
  {
    var p := Peak(s[..i + 1]);
    assert s[..i + 1][0] == s[0];
    s[i] / p - 1.0
  }

  /** `_max_drawdown`: the smallest drawdown over the series, for a series whose first value
      is positive, so that the running peak is never zero. */
  function MaxDrawdown(s: seq<real>): real
    requires s != [] && s[0] > 0.0
  {
    if |s| == 1 then DrawdownAt(s, 0)
    else
      assert s[..|s| - 1][0] == s[0];
      Min(MaxDrawdown(s[..|s| - 1]), DrawdownAt(s, |s| - 1))
  }

  lemma DrawdownOfPrefix(s: seq<real>, m: nat, i: nat)
    requires i < m <= |s| && s[0] > 0.0
    ensures DrawdownAt(s[..m], i) == DrawdownAt(s, i)
  {
    assert s[..m][..i + 1] == s[..i + 1];
  }

  /** The maximum drawdown is the least of the daily drawdowns: no day is below it and
      some day attains it. */
  lemma {:induction false} MaxDrawdownIsMin(s: seq<real>) returns (w: nat)
    requires s != [] && s[0] > 0.0
    ensures forall i :: 0 <= i < |s| ==> MaxDrawdown(s) <= DrawdownAt(s, i)
    ensures w < |s| && MaxDrawdown(s) == DrawdownAt(s, w)
  {
    if |s| == 1 {
      w := 0;
    } else {
      var init := s[..|s| - 1];
      var v := MaxDrawdownIsMin(init);
      forall i | 0 <= i < |s| - 1 ensures DrawdownAt(init, i) == DrawdownAt(s, i) {
        DrawdownOfPrefix(s, |s| - 1, i);
      }
      w := if MaxDrawdown(init) <= DrawdownAt(s, |s| - 1) then v else |s| - 1;
    }
  }

  lemma DivSelf(a: real)
    requires a != 0.0
    ensures a / a == 1.0
  {
  }

  lemma MulDiv(a: real, b: real)
    requires a != 0.0
    ensures a * (b / a) == b
  {
  }

  lemma DivPositive(a: real, b: real)
    requires a > 0.0 && b > 0.0
    ensures a / b > 0.0
  {
  }

  /** The running peak is positive and at least the current value. */
  lemma PeakAt(s: seq<real>, i: nat)
    requires i < |s| && s[0] > 0.0
    ensures Peak(s[..i + 1]) >= s[0] && Peak(s[..i + 1]) >= s[i]
  {
    assert s[..i + 1][0] == s[0] && s[..i + 1][i] == s[i];
  }

  lemma DrawdownFirstDay(s: seq<real>)
    requires s != [] && s[0] > 0.0
    ensures DrawdownAt(s, 0) == 0.0
  {
    assert s[..1] == [s[0]];
    var p := Peak(s[..1]);
    assert p == s[0];
    assert s[0] / p == 1.0;
  }

  /** Day 0 has no drawdown, so the maximum drawdown is never positive. */
  lemma MaxDrawdownNonPositive(s: seq<real>)
    requires s != [] && s[0] > 0.0
    ensures MaxDrawdown(s) <= 0.0
  {
    var _ := MaxDrawdownIsMin(s);
    DrawdownFirstDay(s);
  }

  /** A series of positive values never loses all of its peak: the maximum drawdown is above -1. */
  lemma MaxDrawdownAboveMinusOne(s: seq<real>)
    requires s != [] && s[0] > 0.0
    requires forall i :: 0 <= i < |s| ==> s[i] > 0.0
    ensures MaxDrawdown(s) > -1.0
  {
    var i := MaxDrawdownIsMin(s);
    PeakAt(s, i);
    DivPositive(s[i], Peak(s[..i + 1]));
  }

  /** In a series that never falls, the running peak is the current value. */
  lemma PeakOfNonDecreasing(s: seq<real>, i: nat)
    requires i < |s| && s[0] > 0.0
    requires forall i, j :: 0 <= i <= j < |s| ==> s[i] <= s[j]
    ensures DrawdownAt(s, i) == 0.0
  {
    var p := Peak(s[..i + 1]);
    PeakAt(s, i);
    var j :| 0 <= j < i + 1 && s[..i + 1][j] == p;
    assert s[..i + 1][j] == s[j];
    assert p == s[i];
    DivSelf(p);
  }

  /** A series that never falls has no drawdown. */
  lemma MaxDrawdownNonDecreasing(s: seq<real>)
    requires s != [] && s[0] > 0.0
    requires forall i, j :: 0 <= i <= j < |s| ==> s[i] <= s[j]
    ensures MaxDrawdown(s) == 0.0
  {
    var i := MaxDrawdownIsMin(s);
    PeakOfNonDecreasing(s, i);
  }

  function Sum(xs: seq<real>): real {
    if xs == [] then 0.0 else Sum(xs[..|xs| - 1]) + xs[|xs| - 1]
  }

  /** `dr.mean()`. */
  function Mean(xs: seq<real>): real
    requires xs != []
  {
    Sum(xs) / |xs| as real
  }

  /** A square is non-negative, and zero only at zero. */
  function Square(e: real): (q: real)
    ensures q >= 0.0 && (q == 0.0 <==> e == 0.0)
  {
    if e >= 0.0 then MulNonNegative(e, e); e * e
    else MulNonNegative(-e, -e); e * e
  }

  /** The sum of squared deviations from `m`. */
  function SquaredDeviations(xs: seq<real>, m: real): (q: real)
    ensures q >= 0.0
  {
    if xs == [] then 0.0
    else SquaredDeviations(xs[..|xs| - 1], m) + Square(xs[|xs| - 1] - m)
  }

  /** pandas' `var()`: the sample variance, with `ddof=1`. */
  function SampleVariance(xs: seq<real>): (v: real)
    requires |xs| >= 2
    ensures v >= 0.0
  {
    SquaredDeviations(xs, Mean(xs)) / (|xs| - 1) as real
  }

  lemma {:induction false} SquaredDeviationsZero(xs: seq<real>, m: real)
    ensures SquaredDeviations(xs, m) == 0.0 <==> forall i :: 0 <= i < |xs| ==> xs[i] == m
  {
    if xs != [] {
      var init := xs[..|xs| - 1];
      SquaredDeviationsZero(init, m);
      assert forall i :: 0 <= i < |xs| - 1 ==> init[i] == xs[i];
    }
  }

  lemma {:induction false} SumConstant(xs: seq<real>, c: real)
    requires forall i :: 0 <= i < |xs| ==> xs[i] == c
    ensures Sum(xs) == |xs| as real * c
  {
    if xs != [] {
      SumConstant(xs[..|xs| - 1], c);
    }
  }

  /** The sample variance is zero exactly when all the returns are equal. */
  lemma VarianceZeroIffConstant(xs: seq<real>)
    requires |xs| >= 2
    ensures SampleVariance(xs) == 0.0 <==> forall i, j :: 0 <= i < |xs| && 0 <= j < |xs| ==> xs[i] == xs[j]
  {
    var m := Mean(xs);
    SquaredDeviationsZero(xs, m);
    if forall i, j :: 0 <= i < |xs| && 0 <= j < |xs| ==> xs[i] == xs[j] {
      SumConstant(xs, xs[0]);
      assert m == xs[0];
    }
  }

  /** The daily returns of a NAV path with NaN and infinities dropped: `pct_change()` for
      every day whose previous value is nonzero (a zero previous value gives NaN or an
      infinity, which `replace` and `dropna` remove). */
  function DailyReturns(nav: seq<real>): seq<real> {
    if |nav| < 2 then []
    else
      var prev := nav[|nav| - 2];
      DailyReturns(nav[..|nav| - 1]) +
        (if prev != 0.0 then [nav[|nav| - 1] / prev - 1.0] else [])
  }

  /** `(eq.index[-1] - eq.index[0]).days / 365.25`, or 0 when that is not positive. */
  function Years(dates: seq<int>): real
    requires dates != []
  {
    var days := dates[|dates| - 1] - dates[0];
    if days > 0 then days as real / 365.25 else 0.0
  }

  /** The CAGR rule of lines 218-223: `(end / start) ** (1 / years) - 1` when the span in
      years and both endpoints are positive, null otherwise. */
  function Cagr(nav: seq<real>, dates: seq<int>, pow: (real, real) -> real): Option<real>
    requires |dates| == |nav| && nav != [] && nav[0] > 0.0
  {
    var start, end, years := nav[0], nav[|nav| - 1], Years(dates);
    if years > 0.0 && start > 0.0 && end > 0.0 then Some(pow(end / start, 1.0 / years) - 1.0) else None
  }

  /** The volatility and Sharpe rules of lines 225-231, over the daily returns `dr`. */
  function VolSharpe(dr: seq<real>, sqrt: real -> real): (Option<real>, Option<real>)
    requires IsSqrt(sqrt)
  {
    if |dr| >= 2 then
      var std := sqrt(SampleVariance(dr));
      if std > 0.0 then
        assert sqrt(TradingDays) > 0.0;
        (Some(std * sqrt(TradingDays)), Some((Mean(dr) * TradingDays) / (std * sqrt(TradingDays))))
      else (None, None)
    else (None, None)
  }

  /** `end / start - 1`. */
  function TotalReturn(start: real, end: real): real
    requires start != 0.0
  {
    end / start - 1.0
  }

  /** One iteration of the loop of `_compute_stats`: `None` when the series is skipped. */
  function StatFor(nav: seq<real>, dates: seq<int>, sqrt: real -> real, pow: (real, real) -> real): Option<Stat>
    requires |dates| == |nav| && (nav != [] ==> nav[0] > 0.0)
    requires IsSqrt(sqrt)
  {
    if |nav| < 2 then None
    else
      var start, end := nav[0], nav[|nav| - 1];
      var vs := VolSharpe(DailyReturns(nav), sqrt);
      Some(Stat(TotalReturn(start, end), Cagr(nav, dates, pow), vs.0, MaxDrawdown(nav), vs.1, start, end))
  }

  /** A series is skipped exactly when it has fewer than two points. */
  lemma StatForSkips(nav: seq<real>, dates: seq<int>, sqrt: real -> real, pow: (real, real) -> real)
    requires |dates| == |nav| && (nav != [] ==> nav[0] > 0.0)
    requires IsSqrt(sqrt)
    ensures StatFor(nav, dates, sqrt, pow).None? <==> |nav| < 2
  {
  }

  /** The start and end values are the first and last NAV, and the drawdown is that of
      the whole path. */
  lemma StatForValues(nav: seq<real>, dates: seq<int>, sqrt: real -> real, pow: (real, real) -> real)
    requires |dates| == |nav| && |nav| >= 2 && nav[0] > 0.0
    requires IsSqrt(sqrt)
    ensures var st := StatFor(nav, dates, sqrt, pow).value;
      && st.startValue == nav[0] && st.endValue == nav[|nav| - 1]
      && st.maxDrawdown == MaxDrawdown(nav)
      && st.totalReturn == TotalReturn(nav[0], nav[|nav| - 1])
  {
    var start, end := nav[0], nav[|nav| - 1];
    var vs := VolSharpe(DailyReturns(nav), sqrt);
    assert StatFor(nav, dates, sqrt, pow) ==
      Some(Stat(TotalReturn(start, end), Cagr(nav, dates, pow), vs.0, MaxDrawdown(nav), vs.1, start, end));
  }

  /** The total return takes the start value to the end value. */
  lemma TotalReturnRoundTrip(start: real, end: real)
    requires start != 0.0
    ensures start * (1.0 + TotalReturn(start, end)) == end
  {
    assert 1.0 + TotalReturn(start, end) == end / start;
    MulDiv(start, end);
  }

  /** The CAGR is null unless a positive number of days separates the endpoints and both
      endpoint values are positive. */
  lemma StatForCagr(nav: seq<real>, dates: seq<int>, sqrt: real -> real, pow: (real, real) -> real)
    requires |dates| == |nav| && |nav| >= 2 && nav[0] > 0.0
    requires IsSqrt(sqrt)
    ensures var st := StatFor(nav, dates, sqrt, pow).value;
      st.cagr.None? <==> !(dates[|dates| - 1] - dates[0] > 0 && nav[0] > 0.0 && nav[|nav| - 1] > 0.0)
  {
    var days := dates[|dates| - 1] - dates[0];
    if days > 0 {
      DivPositive(days as real, 365.25);
    }
  }

  /** Volatility and Sharpe ratio are null together, exactly when there are fewer than two
      daily returns or they are all equal (zero sample standard deviation). */
  lemma StatForVolatility(nav: seq<real>, dates: seq<int>, sqrt: real -> real, pow: (real, real) -> real)
    requires |dates| == |nav| && |nav| >= 2 && nav[0] > 0.0
    requires IsSqrt(sqrt)
    ensures var st := StatFor(nav, dates, sqrt, pow).value; var dr := DailyReturns(nav);
      && (st.vol.None? <==> st.sharpe.None?)
      && (st.vol.None? <==> (|dr| < 2 || forall i, j :: 0 <= i < |dr| && 0 <= j < |dr| ==> dr[i] == dr[j]))
  {
    var dr := DailyReturns(nav);
    if |dr| >= 2 {
      VarianceZeroIffConstant(dr);
    }
  }

  /** Every NAV path has one value per date and starts positive. */
  predicate NavTable(cum: seq<(string, seq<real>)>, dates: seq<int>) {
    forall k :: 0 <= k < |cum| ==> |cum[k].1| == |dates| && (dates != [] ==> cum[k].1[0] > 0.0)
  }

  /** The entries of a dict built from `(name, result)` pairs in order, skipping the
      pairs whose result is `None`. */
  function Kept<S>(cols: seq<(string, Option<S>)>): seq<(string, S)> {
    if cols == [] then []
    else
      var last := cols[|cols| - 1];
      Kept(cols[..|cols| - 1]) + (if last.1.Some? then [(last.0, last.1.value)] else [])
  }

  /** When no result is `None`, every pair gets its entry, in order. */
  lemma {:induction false} KeptAll<S>(cols: seq<(string, Option<S>)>)
    requires forall k :: 0 <= k < |cols| ==> cols[k].1.Some?
    ensures |Kept(cols)| == |cols|
    ensures forall k :: 0 <= k < |cols| ==> Kept(cols)[k] == (cols[k].0, cols[k].1.value)
  {
    if cols != [] {
      var init := cols[..|cols| - 1];
      assert forall k :: 0 <= k < |init| ==> init[k] == cols[k];
      KeptAll(init);
    }
  }

  /** When every result is `None`, the dict is empty. */
  lemma {:induction false} KeptNone<S>(cols: seq<(string, Option<S>)>)
    requires forall k :: 0 <= k < |cols| ==> cols[k].1.None?
    ensures Kept(cols) == []
  {
    if cols != [] {
      var init := cols[..|cols| - 1];
      assert forall k :: 0 <= k < |init| ==> init[k] == cols[k];
      KeptNone(init);
    }
  }

  /** Every column's name with the outcome of one iteration of the loop on it. */
  function Results(cum: seq<(string, seq<real>)>, dates: seq<int>, sqrt: real -> real, pow: (real, real) -> real): (r: seq<(string, Option<Stat>)>)
    requires NavTable(cum, dates)
    requires IsSqrt(sqrt)
    ensures |r| == |cum|
  {
    seq(|cum|, k requires 0 <= k < |cum| => (cum[k].0, StatFor(cum[k].1, dates, sqrt, pow)))
  }

  /** The `stats` dict that `_compute_stats` builds from the columns `cum`. */
  function StatsOf(cum: seq<(string, seq<real>)>, dates: seq<int>, sqrt: real -> real, pow: (real, real) -> real): seq<(string, Stat)>
    requires NavTable(cum, dates)
    requires IsSqrt(sqrt)
  {
    Kept(Results(cum, dates, sqrt, pow))
  }

  /** All columns share the date axis, so either every column is skipped (fewer than two
      dates) or each gets its entry, in column order. */
  lemma StatsOfEntries(cum: seq<(string, seq<real>)>, dates: seq<int>, sqrt: real -> real, pow: (real, real) -> real)
    requires NavTable(cum, dates)
    requires IsSqrt(sqrt)
    ensures |dates| < 2 ==> StatsOf(cum, dates, sqrt, pow) == []
    ensures |dates| >= 2 ==> |StatsOf(cum, dates, sqrt, pow)| == |cum| && forall k :: 0 <= k < |cum| ==>
      StatsOf(cum, dates, sqrt, pow)[k] == (cum[k].0, StatFor(cum[k].1, dates, sqrt, pow).value)
  {
    var res := Results(cum, dates, sqrt, pow);
    forall k | 0 <= k < |cum| ensures res[k].1.None? <==> |dates| < 2 {
      StatForSkips(cum[k].1, dates, sqrt, pow);
    }
    if |dates| < 2 {
      KeptNone(res);
    } else {
      KeptAll(res);
    }
  }

  /** `_compute_stats`: the loop over the NAV columns that fills the `stats` dict. */
  method ComputeStats(cum: seq<(string, seq<real>)>, dates: seq<int>, sqrt: real -> real, pow: (real, real) -> real)
    returns (stats: seq<(string, Stat)>)
    requires NavTable(cum, dates)
    requires IsSqrt(sqrt)
    ensures stats == StatsOf(cum, dates, sqrt, pow)
    ensures |dates| < 2 ==> stats == []
    ensures |dates| >= 2 ==> |stats| == |cum| && forall k :: 0 <= k < |cum| ==>
      stats[k] == (cum[k].0, StatFor(cum[k].1, dates, sqrt, pow).value)
  {
    ghost var res := Results(cum, dates, sqrt, pow);
    stats := [];
    for k := 0 to |cum|
      invariant stats == Kept(res[..k])
    {
      var name, eq := cum[k].0, cum[k].1;
      assert res[..k + 1][..k] == res[..k];
      StatForSkips(eq, dates, sqrt, pow);
      if |eq| < 2 {
        continue;
      }
      stats := stats + [(name, StatFor(eq, dates, sqrt, pow).value)];
    }
    assert res[..|cum|] == res;
    StatsOfEntries(cum, dates, sqrt, pow);
  }
}
