/** Calendar alignment of the close-price matrix (`compute_payload`): keep the columns that
    have any price, sort the rows by date, forward-fill, and turn prices into daily returns. */
module Alignment {
  import opened Wrappers
  import StableSort

  /** One ticker's close prices, one slot per row of the matrix, `None` where pandas holds NaN. */
  type Column = seq<Option<real>>

  /** Every column has one slot per date: the matrix is a DataFrame. */
  predicate Rectangular(n: nat, cols: map<string, Column>) {
    forall t :: t in cols ==> |cols[t]| == n
  }

  /** The column holds at least one price. */
  predicate HasObservation(c: Column) {
    exists i :: 0 <= i < |c| && c[i].Some?
  }

  /** The close matrix built from the download: the `Close` column of every requested
      ticker that the download returned. */
  function CloseColumns(raw: map<string, Column>, requested: set<string>): (close: map<string, Column>)
    ensures close.Keys == raw.Keys * requested
    ensures forall t :: t in close ==> close[t] == raw[t]
  {
    map t | t in raw && t in requested :: raw[t]
  }

  /** `close.dropna(axis=1, how="all")`: exactly the columns that hold some price survive. */
  function DropEmpty(cols: map<string, Column>): (kept: map<string, Column>)
    ensures forall t :: t in kept <==> t in cols && HasObservation(cols[t])
    ensures forall t :: t in kept ==> kept[t] == cols[t]
  {
    map t | t in cols && HasObservation(cols[t]) :: cols[t]
  }

  /** The row numbers `0 .. n-1`. */
  function Rows(n: nat): (rs: seq<nat>)
    ensures |rs| == n && forall k :: 0 <= k < n ==> rs[k] == k
  {
    seq(n, k => k)
  }

  /** The date of a row, as a sort key. */
  function DateKey(dates: seq<int>): nat -> real {
    (row: nat) => if row < |dates| then dates[row] as real else 0.0
  }

  /** `sort_index()`: the order in which the rows are read once sorted by date. It is a
      permutation of the row numbers along which the dates never decrease. */
  function DateOrder(dates: seq<int>): (order: seq<nat>)
    ensures |order| == |dates|
    ensures multiset(order) == multiset(Rows(|dates|))
    ensures forall k :: 0 <= k < |order| ==> order[k] < |dates|
    ensures forall i, j :: 0 <= i < j < |order| ==> dates[order[i]] <= dates[order[j]]
  {
    var order := StableSort.SortBy<nat>(Rows(|dates|), DateKey(dates));
    StableSort.SortBySpec<nat>(Rows(|dates|), DateKey(dates));
    assert forall k :: 0 <= k < |order| ==> order[k] < |dates| by {
      forall k | 0 <= k < |order| ensures order[k] < |dates| {
        assert order[k] in multiset(Rows(|dates|));
        var m :| 0 <= m < |dates| && Rows(|dates|)[m] == order[k];
      }
    }
    forall i, j | 0 <= i < j < |order| ensures dates[order[i]] <= dates[order[j]] {
      assert DateKey(dates)(order[i]) <= DateKey(dates)(order[j]);
    }
    order
  }

  /** A column read in the order `order`. */
  function Permute(c: Column, order: seq<nat>): (p: Column)
    requires forall k :: 0 <= k < |order| ==> order[k] < |c|
    ensures |p| == |order| && forall k :: 0 <= k < |order| ==> p[k] == c[order[k]]
  {
    seq(|order|, k requires 0 <= k < |order| => c[order[k]])
  }

  /** `ffill()`: each empty slot takes the latest price above it. */
  function FFill(c: Column): (f: Column)
    ensures |f| == |c|
  {
    if c == [] then []
    else
      var p := FFill(c[..|c| - 1]);
      p + [if c[|c| - 1].Some? then c[|c| - 1] else if p == [] then None else p[|p| - 1]]
  }

  /** A forward-filled slot is empty exactly when no price was seen at or above it;
      otherwise it is the latest price at or above it, and an observed slot keeps its price. */
  lemma {:induction false} FFillAt(c: Column, i: nat)
    requires i < |c|
    ensures FFill(c)[i].None? <==> forall j :: 0 <= j <= i ==> c[j].None?
    ensures FFill(c)[i].Some? ==>
      exists j :: 0 <= j <= i && c[j] == FFill(c)[i] && forall m :: j < m <= i ==> c[m].None?
    ensures c[i].Some? ==> FFill(c)[i] == c[i]
  {
    var init := c[..|c| - 1];
    if i < |c| - 1 {
      FFillAt(init, i);
      FFillPrefix(c, i);
      if FFill(c)[i].Some? {
        var j :| 0 <= j <= i && init[j] == FFill(init)[i] && forall m :: j < m <= i ==> init[m].None?;
        assert c[j] == FFill(c)[i];
      }
    } else if c[i].None? && i > 0 {
      FFillAt(init, i - 1);
      FFillPrefix(c, i - 1);
      FFillCarry(c);
      if FFill(c)[i].Some? {
        var j :| 0 <= j <= i - 1 && init[j] == FFill(init)[i - 1]
          && forall m :: j < m <= i - 1 ==> init[m].None?;
        assert c[j] == FFill(c)[i];
      }
    }
  }

  /** Forward-filling a column does not change the slots of its prefix. */
  lemma FFillPrefix(c: Column, i: nat)
    requires i < |c| - 1
    ensures FFill(c)[i] == FFill(c[..|c| - 1])[i]
    ensures forall j :: 0 <= j <= i ==> c[..|c| - 1][j] == c[j]
  {
    assert FFill(c)[..|c| - 1] == FFill(c[..|c| - 1]);
  }

  /** An empty last slot takes the slot above it. */
  lemma FFillCarry(c: Column)
    requires |c| >= 2 && c[|c| - 1].None?
    ensures FFill(c)[|c| - 1] == FFill(c)[|c| - 2]
  {
    assert FFill(c)[..|c| - 1] == FFill(c[..|c| - 1]);
  }

  /** Forward-filling never brings an empty slot back below a filled one. */
  lemma FFillStaysFilled(c: Column, i: nat, k: nat)
    requires i <= k < |c| && FFill(c)[i].Some?
    ensures FFill(c)[k].Some?
  {
    FFillAt(c, i);
    FFillAt(c, k);
  }

  /** The matrix after alignment: the sorted date axis and the forward-filled columns. */
  datatype Aligned = Aligned(dates: seq<int>, cols: map<string, Column>)

  /** Lines 299-303 of the backend: drop the empty columns (no column left is an error,
      `None` here), sort the rows by date and forward-fill. */
  function Align(dates: seq<int>, close: map<string, Column>): Option<Aligned>
    requires Rectangular(|dates|, close)
  {
    var kept := DropEmpty(close);
    if kept == map[] then None
    else
      var order := DateOrder(dates);
      Some(Aligned(seq(|order|, k requires 0 <= k < |order| => dates[order[k]]),
                   map t | t in kept :: FFill(Permute(kept[t], order))))
  }

  /** Alignment fails exactly when no column holds a price. */
  lemma AlignFails(dates: seq<int>, close: map<string, Column>)
    requires Rectangular(|dates|, close)
    ensures Align(dates, close).None? <==> forall t :: t in close ==> !HasObservation(close[t])
  {
    var kept := DropEmpty(close);
    if kept == map[] {
      forall t | t in close ensures !HasObservation(close[t]) {
        assert t !in kept;
      }
    } else {
      var t0 :| t0 in kept;
    }
  }

  /** On success all rows are kept and sorted by date, and every surviving column is read
      in that same row order and then forward-filled. */
  lemma AlignRows(dates: seq<int>, close: map<string, Column>)
    requires Rectangular(|dates|, close) && Align(dates, close).Some?
    ensures var a := Align(dates, close).value; var order := DateOrder(dates);
      && |a.dates| == |dates|
      && (forall k :: 0 <= k < |dates| ==> a.dates[k] == dates[order[k]])
      && (forall i, j :: 0 <= i < j < |a.dates| ==> a.dates[i] <= a.dates[j])
      && (forall t :: t in a.cols ==> a.cols[t] == FFill(Permute(close[t], order)))
  {
  }

  /** On success the surviving columns are exactly those with a price, each still has one
      slot per date and still holds a price. */
  lemma AlignColumns(dates: seq<int>, close: map<string, Column>)
    requires Rectangular(|dates|, close) && Align(dates, close).Some?
    ensures var a := Align(dates, close).value;
      && (forall t :: t in a.cols <==> t in close && HasObservation(close[t]))
      && Rectangular(|dates|, a.cols)
      && (forall t :: t in a.cols ==> HasObservation(a.cols[t]))
  {
    var a := Align(dates, close).value;
    var order := DateOrder(dates);
    forall t | t in a.cols ensures HasObservation(a.cols[t]) {
      var c := Permute(close[t], order);
      var i :| 0 <= i < |close[t]| && close[t][i].Some?;
      var k := PositionOf(order, i);
      FFillAt(c, k);
    }
  }

  /** Where row `i` sits in a permutation of the row numbers. */
  lemma PositionOf(order: seq<nat>, i: nat) returns (k: nat)
    requires multiset(order) == multiset(Rows(|order|)) && i < |order|
    ensures k < |order| && order[k] == i
  {
    assert Rows(|order|)[i] == i;
    assert i in multiset(order);
    k :| 0 <= k < |order| && order[k] == i;
  }

  /** `s` read along the row numbers `a`. */
  function Pick(s: seq<int>, a: seq<nat>): (r: seq<int>)
    ensures |r| == |a|
  {
    seq(|a|, k requires 0 <= k < |a| => if a[k] < |s| then s[a[k]] else 0)
  }

  lemma PickAppend(s: seq<int>, u: seq<nat>, v: seq<nat>)
    ensures Pick(s, u + v) == Pick(s, u) + Pick(s, v)
  {
  }

  /** `b` without its element at `j`. */
  function RemoveAt(b: seq<nat>, j: nat): (r: seq<nat>)
    requires j < |b|
    ensures multiset(r) == multiset(b) - multiset{b[j]}
  {
    assert b == b[..j] + [b[j]] + b[j + 1..];
    b[..j] + b[j + 1..]
  }

  /** Taking one row number out of `b` takes its value out of what is read. */
  lemma PickRemoveAt(s: seq<int>, b: seq<nat>, j: nat)
    requires j < |b|
    ensures multiset(Pick(s, b)) == multiset(Pick(s, RemoveAt(b, j))) + multiset(Pick(s, [b[j]]))
  {
    var u, v := b[..j], b[j + 1..];
    assert b == (u + [b[j]]) + v;
    PickAppend(s, u + [b[j]], v);
    PickAppend(s, u, [b[j]]);
    PickAppend(s, u, v);
  }

  /** Reading along two rearrangements of the same row numbers gives two rearrangements of
      the same values. */
  lemma {:induction false} PickPermutation(s: seq<int>, a: seq<nat>, b: seq<nat>)
    requires multiset(a) == multiset(b)
    ensures multiset(Pick(s, a)) == multiset(Pick(s, b))
    decreases |a|
  {
    if a == [] {
      assert |b| == |multiset(b)| == 0;
    } else {
      var x, tail := a[0], a[1..];
      assert a == [x] + tail;
      assert x in multiset(b);
      var j :| 0 <= j < |b| && b[j] == x;
      var rest := RemoveAt(b, j);
      assert multiset(tail) == multiset(rest);
      PickPermutation(s, tail, rest);
      PickRemoveAt(s, b, j);
      PickAppend(s, [x], tail);
    }
  }

  /** Sorting the rows rearranges the dates and loses none. */
  lemma SortedDatesPermute(dates: seq<int>)
    ensures var order := DateOrder(dates);
      multiset(seq(|order|, k requires 0 <= k < |order| => dates[order[k]])) == multiset(dates)
  {
    var order := DateOrder(dates);
    var rows := Rows(|dates|);
    PickPermutation(dates, order, rows);
    assert Pick(dates, rows) == dates;
    assert Pick(dates, order) == seq(|order|, k requires 0 <= k < |order| => dates[order[k]]);
  }
}
