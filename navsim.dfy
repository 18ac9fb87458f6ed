/** Daily returns of the aligned prices, each portfolio's weighted daily return, and the
    compounded NAV path (`compute_payload`, lines 305-344 of the backend). */
module NavSim {
  import opened Wrappers
  import opened RealArith
  import opened Tickers
  import Alignment

  /** `INITIAL_CAPITAL`: every NAV path starts from $100. */
  const InitialCapital: real := 100.0

  /** A portfolio as configured: ticker to weight, in the dict's insertion order. */
  type Weights = seq<(string, real)>

  /** Daily returns per ticker, one per date. */
  type ReturnsTable = map<string, seq<real>>

  /** Every column of the table has `n` entries. */
  predicate IsTable(rets: ReturnsTable, n: nat) {
    forall t :: t in rets ==> |rets[t]| == n
  }

  /** One slot of `pct_change()` followed by `replace([inf, -inf], nan)` and `fillna(0)`:
      a price missing on either day, or a zero price the day before, gives 0. */
  function PctChange(prev: Option<real>, cur: Option<real>): real {
    if prev.Some? && cur.Some? && prev.value != 0.0 then cur.value / prev.value - 1.0 else 0.0
  }

  /** One ticker's daily returns, with the first row forced to 0. */
  function Returns(c: Alignment.Column): (r: seq<real>)
    ensures |r| == |c|
  {
    seq(|c|, i requires 0 <= i < |c| => if i == 0 then 0.0 else PctChange(c[i - 1], c[i]))
  }

  /** The returns matrix: one column of returns per surviving ticker. */
  function ReturnsOf(cols: map<string, Alignment.Column>): (rets: ReturnsTable)
    ensures rets.Keys == cols.Keys
  {
    map t | t in cols :: Returns(cols[t])
  }

  /** A return reproduces the price it was computed from; row 0, a gap, a zero previous price
      and a forward-filled (unchanged) price all give 0. */
  lemma ReturnsSpec(c: Alignment.Column, i: nat)
    requires i < |c|
    ensures i == 0 ==> Returns(c)[i] == 0.0
    ensures 0 < i && c[i - 1].Some? && c[i].Some? && c[i - 1].value != 0.0 ==>
      c[i].value == c[i - 1].value * (1.0 + Returns(c)[i])
    ensures 0 < i && (c[i - 1].None? || c[i].None? || c[i - 1].value == 0.0) ==> Returns(c)[i] == 0.0
    ensures 0 < i && c[i] == c[i - 1] ==> Returns(c)[i] == 0.0
  {
    if 0 < i && c[i - 1].Some? && c[i].Some? && c[i - 1].value != 0.0 {
      var p, q := c[i - 1].value, c[i].value;
      calc {
        p * (1.0 + Returns(c)[i]);
        p * (q / p);
        q;
      }
    }
  }

  /** What one holding adds to the portfolio's return on day `i`: nothing for a CASH entry,
      a zero weight or a ticker with no returns column; otherwise weight times return. */
  function Term(entry: (string, real), rets: ReturnsTable, n: nat, i: nat): real
    requires IsTable(rets, n) && i < n
  {
    var (t, w) := entry;
    if IsCash(t) || w == 0.0 || YahooTicker(t) !in rets then 0.0
    else w * rets[YahooTicker(t)][i]
  }

  /** The portfolio's return on day `i`: the sum of the terms, in the dict's order. */
  function DailyAt(ws: Weights, rets: ReturnsTable, n: nat, i: nat): real
    requires IsTable(rets, n) && i < n
  {
    if ws == [] then 0.0 else DailyAt(ws[..|ws| - 1], rets, n, i) + Term(ws[|ws| - 1], rets, n, i)
  }

  /** The portfolio's return series `daily`. */
  function Daily(ws: Weights, rets: ReturnsTable, n: nat): (d: seq<real>)
    requires IsTable(rets, n)
    ensures |d| == n
  {
    seq(n, i requires 0 <= i < n => DailyAt(ws, rets, n, i))
  }

  /** The weight of the non-CASH, nonzero holdings that have no returns column
      (`missing_weight`, lines 326-338), left uninvested rather than renormalised. */
  function MissingWeight(ws: Weights, rets: ReturnsTable): real {
    if ws == [] then 0.0
    else
      var (t, w) := ws[|ws| - 1];
      MissingWeight(ws[..|ws| - 1], rets) +
        (if !IsCash(t) && w != 0.0 && YahooTicker(t) !in rets then w else 0.0)
  }

  /** The loop of lines 325-338: add `wt * returns[yt]` for each present holding, count the
      weight of the missing ones. */
  method PortfolioDaily(ws: Weights, rets: ReturnsTable, n: nat) returns (contrib: seq<real>, missing: real)
    requires IsTable(rets, n)
    ensures contrib == Daily(ws, rets, n)
    ensures missing == MissingWeight(ws, rets)
  {
    contrib := seq(n, i => 0.0);
    missing := 0.0;
    for k := 0 to |ws|
      invariant |contrib| == n
      invariant forall i :: 0 <= i < n ==> contrib[i] == DailyAt(ws[..k], rets, n, i)
      invariant missing == MissingWeight(ws[..k], rets)
    {
      DailyAtStep(ws, k, rets, n);
      MissingWeightStep(ws, k, rets);
      var (t, wt) := ws[k];
      if IsCash(t) || wt == 0.0 {
        continue;
      }
      var yt := YahooTicker(t);
      if yt in rets {
        contrib := seq(n, i requires 0 <= i < n => contrib[i] + wt * rets[yt][i]);
      } else {
        missing := missing + wt;
      }
    }
    assert ws[..|ws|] == ws;
  }

  /** Adding the entry at `k` to the first `k` entries adds its term to every day. */
  lemma DailyAtStep(ws: Weights, k: nat, rets: ReturnsTable, n: nat)
    requires IsTable(rets, n) && k < |ws|
    ensures forall i :: 0 <= i < n ==>
      DailyAt(ws[..k + 1], rets, n, i) == DailyAt(ws[..k], rets, n, i) + Term(ws[k], rets, n, i)
  {
    assert ws[..k + 1][..k] == ws[..k];
  }

  /** Adding the entry at `k` adds its weight to the missing weight when it is missing. */
  lemma MissingWeightStep(ws: Weights, k: nat, rets: ReturnsTable)
    requires k < |ws|
    ensures MissingWeight(ws[..k + 1], rets) == MissingWeight(ws[..k], rets) +
      (if !IsCash(ws[k].0) && ws[k].1 != 0.0 && YahooTicker(ws[k].0) !in rets then ws[k].1 else 0.0)
  {
    assert ws[..k + 1][..k] == ws[..k];
  }

  /** The product `(1 + d[0]) * ... * (1 + d[|d|-1])`. */
  function Growth(d: seq<real>): real {
    if d == [] then 1.0 else Growth(d[..|d| - 1]) * (1.0 + d[|d| - 1])
  }

  /** `INITIAL_CAPITAL * (1 + daily).cumprod()`. */
  function Nav(d: seq<real>): (nav: seq<real>)
    ensures |nav| == |d|
  {
    seq(|d|, i requires 0 <= i < |d| => InitialCapital * Growth(d[..i + 1]))
  }

  /** The NAV path starts from the initial capital grown by the first day's return and
      compounds each later day's return onto the previous value. */
  lemma NavSpec(d: seq<real>, i: nat)
    requires i < |d|
    ensures i == 0 ==> Nav(d)[0] == InitialCapital * (1.0 + d[0])
    ensures 0 < i ==> Nav(d)[i] == Nav(d)[i - 1] * (1.0 + d[i])
  {
    assert d[..i + 1][..i] == d[..i];
    assert Growth(d[..i + 1]) == Growth(d[..i]) * (1.0 + d[i]);
    if i == 0 {
      assert d[..0] == [];
      assert Growth(d[..0]) == 1.0;
    }
  }

  /** On row 0 every return is 0, so every portfolio's first daily return is 0. */
  lemma {:induction false} DailyAtFirstRow(ws: Weights, rets: ReturnsTable, n: nat)
    requires IsTable(rets, n) && 0 < n
    requires forall t :: t in rets ==> rets[t][0] == 0.0
    ensures DailyAt(ws, rets, n, 0) == 0.0
  {
    if ws != [] {
      DailyAtFirstRow(ws[..|ws| - 1], rets, n);
    }
  }

  /** With non-negative weights and no single return below -100%, a day's portfolio return
      is no lower than minus the total configured weight. */
  lemma {:induction false} DailyAtLowerBound(ws: Weights, rets: ReturnsTable, n: nat, i: nat)
    requires IsTable(rets, n) && i < n
    requires forall k :: 0 <= k < |ws| ==> ws[k].1 >= 0.0
    requires forall t :: t in rets ==> rets[t][i] >= -1.0
    ensures DailyAt(ws, rets, n, i) >= -TotalWeight(ws)
  {
    if ws != [] {
      var init := ws[..|ws| - 1];
      assert forall k :: 0 <= k < |init| ==> init[k] == ws[k];
      DailyAtLowerBound(init, rets, n, i);
      TermLowerBound(ws[|ws| - 1], rets, n, i);
    }
  }

  /** One holding with a non-negative weight loses at most its weight. */
  lemma TermLowerBound(entry: (string, real), rets: ReturnsTable, n: nat, i: nat)
    requires IsTable(rets, n) && i < n
    requires entry.1 >= 0.0
    requires forall t :: t in rets ==> rets[t][i] >= -1.0
    ensures Term(entry, rets, n, i) >= -entry.1
  {
    var (t, w) := entry;
    if !(IsCash(t) || w == 0.0 || YahooTicker(t) !in rets) {
      ScaledLoss(w, rets[YahooTicker(t)][i]);
    }
  }

  lemma ScaledLoss(w: real, r: real)
    requires w >= 0.0 && r >= -1.0
    ensures w * r >= -w
  {
    assert w * (r + 1.0) >= 0.0;
  }


  /** The sum of all configured weights, CASH included. */
  function TotalWeight(ws: Weights): real {
    if ws == [] then 0.0 else TotalWeight(ws[..|ws| - 1]) + ws[|ws| - 1].1
  }

  /** A NAV path whose daily returns never fall below -100% never goes negative. */
  lemma {:induction false} NavNonNegative(d: seq<real>, i: nat)
    requires i < |d|
    requires forall k :: 0 <= k < |d| ==> d[k] >= -1.0
    ensures Nav(d)[i] >= 0.0
  {
    NavSpec(d, i);
    if 0 < i {
      NavNonNegative(d, i - 1);
      MulNonNegative(Nav(d)[i - 1], 1.0 + d[i]);
    }
  }

  /** A NAV path whose daily returns all stay above -100% stays positive. */
  lemma {:induction false} NavPositive(d: seq<real>, i: nat)
    requires i < |d|
    requires forall k :: 0 <= k < |d| ==> d[k] > -1.0
    ensures Nav(d)[i] > 0.0
  {
    NavSpec(d, i);
    if 0 < i {
      NavPositive(d, i - 1);
      MulPositive(Nav(d)[i - 1], 1.0 + d[i]);
    }
  }

  /** A portfolio with nothing invested (only CASH entries and zero weights) earns 0 on
      every day; it still gets its series. */
  lemma {:induction false} UninvestedEarnsNothing(ws: Weights, rets: ReturnsTable, n: nat, i: nat)
    requires IsTable(rets, n) && i < n
    requires forall m :: 0 <= m < |ws| ==> IsCash(ws[m].0) || ws[m].1 == 0.0
    ensures DailyAt(ws, rets, n, i) == 0.0
  {
    if ws != [] {
      UninvestedEarnsNothing(ws[..|ws| - 1], rets, n, i);
    }
  }

  /** With a zero return every day the NAV stays at the initial capital. */
  lemma {:induction false} FlatNav(d: seq<real>, i: nat)
    requires i < |d|
    requires forall k :: 0 <= k < |d| ==> d[k] == 0.0
    ensures Nav(d)[i] == InitialCapital
  {
    NavSpec(d, i);
    if 0 < i {
      FlatNav(d, i - 1);
    }
  }
}
