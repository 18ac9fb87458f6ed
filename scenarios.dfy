/** Worked examples of the pipeline on small inputs. */
module Scenarios {
  import opened Wrappers
  import opened Tickers
  import Alignment
  import NavSim
  import Stats

  /** One ticker at 100, 110, 99 held at weight 1: the NAV follows the price. */
  lemma SingleAssetNav()
    ensures var rets := NavSim.ReturnsOf(map["X" := [Some(100.0), Some(110.0), Some(99.0)]]);
      NavSim.IsTable(rets, 3) &&
      NavSim.Nav(NavSim.Daily([("X", 1.0)], rets, 3)) == [100.0, 110.0, 99.0]
  {
    var col: Alignment.Column := [Some(100.0), Some(110.0), Some(99.0)];
    var rets := NavSim.ReturnsOf(map["X" := col]);
    assert rets["X"] == [0.0, 0.1, -0.1];
    StripTrimmed("X");
    assert YahooTicker("X") == "X";
    var ws: NavSim.Weights := [("X", 1.0)];
    assert |ws[..0]| == 0;
    var d := NavSim.Daily(ws, rets, 3);
    assert "X" in rets;
    assert NavSim.Term(ws[0], rets, 3, 2) == -0.1;
    assert NavSim.DailyAt(ws, rets, 3, 2) == NavSim.DailyAt(ws[..0], rets, 3, 2) + NavSim.Term(ws[0], rets, 3, 2);
    assert d[0] == 0.0 && d[1] == 0.1 && d[2] == -0.1;
    NavSim.NavSpec(d, 0);
    NavSim.NavSpec(d, 1);
    NavSim.NavSpec(d, 2);
  }

  /** On the NAV 100, 110, 99 the total return is -1% and the worst drawdown is
      99/110 - 1 = -10%. */
  lemma SingleAssetStats(sqrt: real -> real, pow: (real, real) -> real)
    requires Stats.IsSqrt(sqrt)
    ensures var nav := [100.0, 110.0, 99.0];
      && Stats.StatFor(nav, [0, 1, 2], sqrt, pow).Some?
      && Stats.StatFor(nav, [0, 1, 2], sqrt, pow).value.totalReturn == -0.01
      && Stats.StatFor(nav, [0, 1, 2], sqrt, pow).value.maxDrawdown == -0.1
  {
    var nav := [100.0, 110.0, 99.0];
    Stats.StatForValues(nav, [0, 1, 2], sqrt, pow);
    SingleAssetDrawdown();
    assert Stats.TotalReturn(100.0, 99.0) == -0.01;
  }

  /** The worst drawdown on the NAV 100, 110, 99 is 99/110 - 1 = -10%. */
  lemma SingleAssetDrawdown()
    ensures Stats.MaxDrawdown([100.0, 110.0, 99.0]) == -0.1
  {
    var nav := [100.0, 110.0, 99.0];
    assert nav[..1] == [100.0] && nav[..2] == [100.0, 110.0] && nav[..3] == nav;
    assert [100.0, 110.0][..1] == [100.0];
    assert Stats.Peak([100.0, 110.0]) == 110.0;
    assert Stats.DrawdownAt(nav, 0) == 0.0;
    assert Stats.DrawdownAt(nav, 1) == 0.0;
    assert Stats.DrawdownAt(nav, 2) == -0.1;
    assert Stats.MaxDrawdown(nav[..2]) == 0.0 by {
      assert Stats.DrawdownAt(nav[..2], 1) == 0.0;
      assert Stats.DrawdownAt(nav[..2][..1], 0) == 0.0;
    }
  }

  /** The two halves together: one ticker at 100, 110, 99 held at weight 1 returns -1% with
      a worst drawdown of -10%. */
  lemma SingleAsset(sqrt: real -> real, pow: (real, real) -> real)
    requires Stats.IsSqrt(sqrt)
    ensures var rets := NavSim.ReturnsOf(map["X" := [Some(100.0), Some(110.0), Some(99.0)]]);
      NavSim.IsTable(rets, 3) &&
      var nav := NavSim.Nav(NavSim.Daily([("X", 1.0)], rets, 3));
      nav == [100.0, 110.0, 99.0]
      && Stats.StatFor(nav, [0, 1, 2], sqrt, pow).Some?
      && Stats.StatFor(nav, [0, 1, 2], sqrt, pow).value.totalReturn == -0.01
      && Stats.StatFor(nav, [0, 1, 2], sqrt, pow).value.maxDrawdown == -0.1
  {
    SingleAssetNav();
    SingleAssetStats(sqrt, pow);
  }

  /** 20% CASH and 80% in a ticker that gains 10%: the day's return is 0.8 * 10% = 8%;
      the CASH weight only contributes nothing, it does not dilute the invested part. */
  lemma CashDoesNotDilute()
    ensures var rets := NavSim.ReturnsOf(map["X" := [Some(100.0), Some(110.0)]]);
      NavSim.IsTable(rets, 2) &&
      NavSim.Daily([("CASH", 0.2), ("X", 0.8)], rets, 2) == [0.0, 0.08]
  {
    var rets := NavSim.ReturnsOf(map["X" := [Some(100.0), Some(110.0)]]);
    assert rets["X"] == [0.0, 0.1];
    StripTrimmed("X");
    assert YahooTicker("X") == "X";
    assert IsCash("CASH");
    var ws: NavSim.Weights := [("CASH", 0.2), ("X", 0.8)];
    assert ws[..1] == [("CASH", 0.2)] && |ws[..1][..0]| == 0;
    var d := NavSim.Daily(ws, rets, 2);
    assert NavSim.Term(ws[0], rets, 2, 0) == 0.0 && NavSim.Term(ws[1], rets, 2, 0) == 0.0;
    assert NavSim.Term(ws[0], rets, 2, 1) + NavSim.Term(ws[1], rets, 2, 1) == 0.08;
    assert NavSim.DailyAt(ws[..1], rets, 2, 0) == NavSim.Term(ws[0], rets, 2, 0);
    assert NavSim.DailyAt(ws[..1], rets, 2, 1) == NavSim.Term(ws[0], rets, 2, 1);
    assert d[0] == 0.0 && d[1] == 0.08;
  }

  /** Half in a ticker that gains 10%, half in one that never downloaded: the missing half
      earns 0, so the day's return is 5%, and 0.5 is reported as missing weight. */
  lemma MissingTickerIsCash()
    ensures var rets := NavSim.ReturnsOf(map["A" := [Some(100.0), Some(110.0)]]);
      && NavSim.IsTable(rets, 2)
      && NavSim.Daily([("A", 0.5), ("B", 0.5)], rets, 2) == [0.0, 0.05]
      && NavSim.MissingWeight([("A", 0.5), ("B", 0.5)], rets) == 0.5
  {
    var rets := NavSim.ReturnsOf(map["A" := [Some(100.0), Some(110.0)]]);
    assert rets["A"] == [0.0, 0.1];
    StripTrimmed("A");
    StripTrimmed("B");
    assert YahooTicker("A") == "A";
    assert YahooTicker("B") == "B";
    var ws: NavSim.Weights := [("A", 0.5), ("B", 0.5)];
    assert ws[..1] == [("A", 0.5)] && |ws[..1][..0]| == 0;
    var d := NavSim.Daily(ws, rets, 2);
    assert NavSim.Term(ws[0], rets, 2, 0) == 0.0 && NavSim.Term(ws[1], rets, 2, 0) == 0.0;
    assert NavSim.Term(ws[0], rets, 2, 1) + NavSim.Term(ws[1], rets, 2, 1) == 0.05;
    assert NavSim.DailyAt(ws[..1], rets, 2, 0) == NavSim.Term(ws[0], rets, 2, 0);
    assert NavSim.DailyAt(ws[..1], rets, 2, 1) == NavSim.Term(ws[0], rets, 2, 1);
    assert d[0] == 0.0 && d[1] == 0.05;
  }

  /** A ticker with no price on the second day is forward-filled from the first, so its
      second-day return is 0 and the third day is measured from the carried price. */
  lemma ForwardFilledGap()
    ensures NavSim.Returns(Alignment.FFill([Some(50.0), None, Some(55.0)])) == [0.0, 0.0, 0.1]
  {
    var c: Alignment.Column := [Some(50.0), None, Some(55.0)];
    Alignment.FFillAt(c, 0);
    Alignment.FFillAt(c, 1);
    Alignment.FFillAt(c, 2);
    var f := Alignment.FFill(c);
    assert f[0] == Some(50.0);
    assert f[1] == Some(50.0);
    assert f[2] == Some(55.0);
  }
}
