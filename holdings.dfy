/** The holdings table of each portfolio (`compute_payload`, lines 353-365 of the backend). */
module Holdings {
  import StableSort
  import NavSim

  /** One row of the table: the configured weight, as a percentage and in dollars of the
      initial capital. */
  datatype HoldingRow = HoldingRow(ticker: string, weight: real, weightPct: real, dollars: real)

  /** The row of one spec entry. */
  function RowOf(entry: (string, real)): HoldingRow {
    HoldingRow(entry.0, entry.1, entry.1 * 100.0, entry.1 * NavSim.InitialCapital)
  }

  /** The sort key of `sort(key=weight, reverse=True)`: a stable ascending sort on the
      negated weight orders the rows as the stable descending sort does. */
  function ByWeightDesc(row: HoldingRow): real {
    -row.weight
  }

  /** The rows carrying weight `w`, in table order. */
  function RowsWithWeight(rows: seq<HoldingRow>, w: real): seq<HoldingRow> {
    StableSort.WithKey(rows, ByWeightDesc, -w)
  }

  /** The rows of the spec entries, in spec order. */
  function SpecRows(ws: NavSim.Weights): (rows: seq<HoldingRow>)
    ensures |rows| == |ws| && forall k :: 0 <= k < |ws| ==> rows[k] == RowOf(ws[k])
  {
    seq(|ws|, k requires 0 <= k < |ws| => RowOf(ws[k]))
  }

  /** `items` is the holdings table of `ws`: exactly one row per spec entry, CASH included,
      with the percentage and dollar fields derived from the weight, sorted by weight,
      largest first, and rows of equal weight in spec order. */
  ghost predicate IsHoldingsTable(ws: NavSim.Weights, items: seq<HoldingRow>) {
    && |items| == |ws|
    && multiset(items) == multiset(SpecRows(ws))
    && (forall i, j :: 0 <= i < j < |items| ==> items[i].weight >= items[j].weight)
    && (forall w :: RowsWithWeight(items, w) == RowsWithWeight(SpecRows(ws), w))
    && (forall i :: 0 <= i < |items| ==>
          items[i].weightPct == 100.0 * items[i].weight && items[i].dollars == items[i].weight * 100.0)
  }

  /** The loop of lines 356-364: append one row per spec entry, then sort by weight. */
  method BuildHoldings(ws: NavSim.Weights) returns (items: seq<HoldingRow>)
    ensures IsHoldingsTable(ws, items)
  {
    items := [];
    for k := 0 to |ws|
      invariant items == SpecRows(ws[..k])
    {
      assert ws[..k + 1][..k] == ws[..k];
      items := items + [RowOf(ws[k])];
    }
    assert ws[..|ws|] == ws;
    var rows := items;
    StableSort.SortBySpec(rows, ByWeightDesc);
    items := StableSort.SortBy(rows, ByWeightDesc);
    forall i, j | 0 <= i < j < |items| ensures items[i].weight >= items[j].weight {
      assert ByWeightDesc(items[i]) <= ByWeightDesc(items[j]);
    }
    forall i | 0 <= i < |items|
      ensures items[i].weightPct == 100.0 * items[i].weight && items[i].dollars == items[i].weight * 100.0
    {
      assert items[i] in multiset(rows);
    }
  }
}
