/**
 * The "performance by bowling type" table (src/components/BowlerTypeTable.js):
 * one row per bowling type of the batter's statistics, and the colour rule
 * that marks the best two and worst two distinct values of each column.
 */
module BowlerTypeTable {
  import opened Wrappers
  import opened JsNumbers
  import opened JsText
  import opened JsObjects

  /** The `detailed_stats` entry of one bowling type; a missing entry is `{}`, all fields None. */
  datatype Detailed = Detailed(
    strikeRate: Option<real>, runs: Option<real>, balls: Option<real>,
    average: Option<real>, boundaryPct: Option<real>, dotPct: Option<real>)

  const NoDetail: Detailed := Detailed(None, None, None, None, None, None)

  /** The component's `data` prop; a None field is a missing (or null) property. */
  datatype BowlingData = BowlingData(
    bowlingStats: Option<Object<string, Option<real>>>,
    overallAverages: Option<Object<string, Option<real>>>,
    detailedStats: Option<Object<string, Detailed>>)

  datatype Row = Row(
    bowlingType: string, strikeRate: real, runs: real, balls: real,
    average: real, boundaryPct: real, dotPct: real, overallAvg: real)

  /** The `detailedStats[bowlingType] || {}` lookup. */
  function DetailOf(data: BowlingData, key: string): Detailed {
    if data.detailedStats.None? then NoDetail
    else match Get(data.detailedStats.value, key)
      case None => NoDetail
      case Some(d) => d
  }

  /** `data.overall_averages[bowlingType] || 0`. */
  function OverallOf(averages: Object<string, Option<real>>, key: string): real {
    match Get(averages, key)
    case None => 0.0
    case Some(v) => OrDefault(v, 0.0)
  }

  function MakeRow(key: string, summary: Option<real>, overall: real, d: Detailed): (r: Row)
    ensures r.bowlingType == FormatLabel(key)
    ensures d.strikeRate.Some? && d.strikeRate.value != 0.0 ==> r.strikeRate == d.strikeRate.value
    ensures (d.strikeRate.None? || d.strikeRate.value == 0.0) ==> r.strikeRate == OrDefault(summary, 0.0)
    ensures r.runs == OrDefault(d.runs, 0.0) && r.balls == OrDefault(d.balls, 0.0)
    ensures r.average == OrDefault(d.average, 0.0) && r.boundaryPct == OrDefault(d.boundaryPct, 0.0)
    ensures r.dotPct == OrDefault(d.dotPct, 0.0) && r.overallAvg == overall
  {
    Row(FormatLabel(key), OrDefault(d.strikeRate, OrDefault(summary, 0.0)),
        OrDefault(d.runs, 0.0), OrDefault(d.balls, 0.0), OrDefault(d.average, 0.0),
        OrDefault(d.boundaryPct, 0.0), OrDefault(d.dotPct, 0.0), overall)
  }

  /**
   * The table: None is the "No bowling statistics available" placeholder;
   * otherwise one row per key of `bowling_stats`, in key order.
   */
  function TableData(data: Option<BowlingData>): (r: Option<seq<Row>>)
    ensures r.None? <==> data.None? || data.value.bowlingStats.None? || data.value.overallAverages.None?
    ensures r.Some? ==> var bs := data.value.bowlingStats.value;
      && |r.value| == |bs|
      && forall i :: 0 <= i < |bs| ==>
           r.value[i] == MakeRow(bs[i].0, bs[i].1, OverallOf(data.value.overallAverages.value, bs[i].0),
                                 DetailOf(data.value, bs[i].0))
  {
    if data.None? || data.value.bowlingStats.None? || data.value.overallAverages.None? then None
    else
      var d := data.value;
      var bs := d.bowlingStats.value;
      Some(seq(|bs|, i requires 0 <= i < |bs| =>
        MakeRow(bs[i].0, bs[i].1, OverallOf(d.overallAverages.value, bs[i].0), DetailOf(d, bs[i].0))))
  }

  // ---------------------------------------------------------------- colours

  datatype Color = Green | Yellow | Red

  predicate StrictlyIncreasing(s: seq<real>) {
    forall i, j :: 0 <= i < j < |s| ==> s[i] < s[j]
  }

  /** Inserting a value into a strictly increasing list, dropping it when already present. */
  function Insert(x: real, s: seq<real>): (r: seq<real>)
    requires StrictlyIncreasing(s)
    ensures StrictlyIncreasing(r)
    ensures forall y :: y in r <==> y == x || y in s
  {
    if s == [] then [x]
    else if x < s[0] then [x] + s
    else if x == s[0] then s
    else
      assert StrictlyIncreasing(s[1..]) by {
        forall i, j | 0 <= i < j < |s| - 1 ensures s[1..][i] < s[1..][j] {
          assert s[1..][i] == s[i + 1] && s[1..][j] == s[j + 1];
        }
      }
      var t := Insert(x, s[1..]);
      assert forall y :: y in t ==> s[0] < y by {
        forall y | y in t ensures s[0] < y {
          if y != x {
            var k :| 1 <= k < |s| && s[k] == y;
            assert s[0] < s[k];
          }
        }
      }
      var r := [s[0]] + t;
      assert StrictlyIncreasing(r) by {
        forall i, j | 0 <= i < j < |r| ensures r[i] < r[j] {
          assert r[j] == t[j - 1] && t[j - 1] in t;
          if i > 0 {
            assert r[i] == t[i - 1];
          }
        }
      }
      r
  }

  /** `[...new Set([...values].sort((a, b) => a - b))]`: the distinct values in increasing order. */
  function UniqueSorted(vs: seq<real>): (u: seq<real>)
    ensures StrictlyIncreasing(u)
    ensures forall x :: x in u <==> x in vs
  {
    if vs == [] then [] else Insert(vs[0], UniqueSorted(vs[1..]))
  }

  /** `getDynamicColor(value, values, isLowerBetter)`. */
  function DynamicColor(v: real, vs: seq<real>, lowerIsBetter: bool): Color {
    var u := UniqueSorted(vs);
    var n := |u|;
    if n <= 2 then
      if lowerIsBetter then (if n > 0 && v <= u[0] then Green else Red)
      else (if n > 0 && v >= u[n - 1] then Green else Red)
    else if lowerIsBetter then
      (if v <= u[1] then Green else if v >= u[n - 2] then Red else Yellow)
    else
      (if v >= u[n - 2] then Green else if v <= u[1] then Red else Yellow)
  }

  /** How many entries of `s` are above `v`; on distinct values, how many distinct values beat `v`. */
  function CountAbove(v: real, s: seq<real>): nat {
    if s == [] then 0 else CountAbove(v, s[..|s| - 1]) + (if s[|s| - 1] > v then 1 else 0)
  }

  function CountBelow(v: real, s: seq<real>): nat {
    if s == [] then 0 else (if s[0] < v then 1 else 0) + CountBelow(v, s[1..])
  }

  lemma {:induction false} NoneAbove(v: real, s: seq<real>)
    requires forall i :: 0 <= i < |s| ==> s[i] <= v
    ensures CountAbove(v, s) == 0
  {
    if s != [] {
      NoneAbove(v, s[..|s| - 1]);
    }
  }

  lemma {:induction false} NoneBelow(v: real, s: seq<real>)
    requires forall i :: 0 <= i < |s| ==> v <= s[i]
    ensures CountBelow(v, s) == 0
  {
    if s != [] {
      NoneBelow(v, s[1..]);
    }
  }

  /** At most `k` distinct values exceed `v` exactly when `v` reaches the `k+1`-th largest. */
  lemma {:induction false} CountAboveRank(v: real, u: seq<real>, k: nat)
    requires StrictlyIncreasing(u) && k < |u|
    ensures CountAbove(v, u) <= k <==> v >= u[|u| - 1 - k]
  {
    var n := |u|;
    var p := u[..n - 1];
    if u[n - 1] <= v {
      NoneAbove(v, u);
    } else if k > 0 {
      CountAboveRank(v, p, k - 1);
      assert p[|p| - 1 - (k - 1)] == u[n - 1 - k];
    }
  }

  /** At most `k` distinct values are below `v` exactly when `v` is at most the `k+1`-th smallest. */
  lemma {:induction false} CountBelowRank(v: real, u: seq<real>, k: nat)
    requires StrictlyIncreasing(u) && k < |u|
    ensures CountBelow(v, u) <= k <==> v <= u[k]
  {
    var t := u[1..];
    if v <= u[0] {
      NoneBelow(v, u);
    } else if k > 0 {
      CountBelowRank(v, t, k - 1);
      assert t[k - 1] == u[k];
    }
  }

  /**
   * Higher is better: with three or more distinct values, green means fewer than
   * two distinct values beat `v`, red means two beat it and at most one is
   * below it, yellow is the rest; with one or two, only the top value is green.
   */
  lemma HigherIsBetterRanks(v: real, vs: seq<real>)
    ensures var u := UniqueSorted(vs); var c := DynamicColor(v, vs, false);
      && (|u| <= 2 ==> (c == Green <==> u != [] && CountAbove(v, u) == 0) && c != Yellow)
      && (|u| > 2 ==>
            (c == Green <==> CountAbove(v, u) <= 1)
            && (c == Red <==> CountAbove(v, u) >= 2 && CountBelow(v, u) <= 1))
  {
    var u := UniqueSorted(vs);
    if |u| > 2 {
      CountAboveRank(v, u, 1);
      CountBelowRank(v, u, 1);
    } else if |u| > 0 {
      CountAboveRank(v, u, 0);
    }
  }

  /** Lower is better: the same ranking with the order reversed. */
  lemma LowerIsBetterRanks(v: real, vs: seq<real>)
    ensures var u := UniqueSorted(vs); var c := DynamicColor(v, vs, true);
      && (|u| <= 2 ==> (c == Green <==> u != [] && CountBelow(v, u) == 0) && c != Yellow)
      && (|u| > 2 ==>
            (c == Green <==> CountBelow(v, u) <= 1)
            && (c == Red <==> CountBelow(v, u) >= 2 && CountAbove(v, u) <= 1))
  {
    var u := UniqueSorted(vs);
    if |u| > 2 {
      CountAboveRank(v, u, 1);
      CountBelowRank(v, u, 1);
    } else if |u| > 0 {
      CountBelowRank(v, u, 0);
    }
  }

  /** A column's top value is green; its bottom value is red once there are two distinct values. */
  lemma ExtremesOfHigherIsBetter(v: real, vs: seq<real>)
    requires v in vs
    ensures (forall x :: x in vs ==> x <= v) ==> DynamicColor(v, vs, false) == Green
    ensures (forall x :: x in vs ==> v <= x) && |UniqueSorted(vs)| >= 2 ==> DynamicColor(v, vs, false) == Red
  {
    var u := UniqueSorted(vs);
    HigherIsBetterRanks(v, vs);
    if forall x :: x in vs ==> x <= v {
      assert forall i :: 0 <= i < |u| ==> u[i] in vs;
      NoneAbove(v, u);
    }
    if (forall x :: x in vs ==> v <= x) && |u| >= 2 {
      assert u[0] in vs && v in u;
      assert v == u[0];
    }
  }

  /** A lower-is-better column's lowest value is green. */
  lemma LowestOfLowerIsBetter(v: real, vs: seq<real>)
    requires v in vs && forall x :: x in vs ==> v <= x
    ensures DynamicColor(v, vs, true) == Green
  {
    var u := UniqueSorted(vs);
    LowerIsBetterRanks(v, vs);
    assert forall i :: 0 <= i < |u| ==> u[i] in vs;
    NoneBelow(v, u);
  }

  /** Yellow is strictly between the second-lowest and the second-highest distinct value. */
  lemma YellowIsBetween(v: real, vs: seq<real>, lowerIsBetter: bool)
    requires DynamicColor(v, vs, lowerIsBetter) == Yellow
    ensures var u := UniqueSorted(vs); |u| > 2 && u[1] < v < u[|u| - 2]
  {
  }

  /** A value of a strictly increasing list strictly between its second and its second-to-last entries leaves room for two on each side. */
  lemma InnerNeedsFive(v: real, u: seq<real>)
    requires StrictlyIncreasing(u) && v in u && |u| > 2 && u[1] < v < u[|u| - 2]
    ensures |u| >= 5
  {
    var n := |u|;
    var i :| 0 <= i < n && u[i] == v;
    assert u[0] < u[1];
  }

  /** A value of the column can only be yellow when the column has at least five distinct values. */
  lemma YellowNeedsFiveDistinct(v: real, vs: seq<real>, lowerIsBetter: bool)
    requires v in vs && DynamicColor(v, vs, lowerIsBetter) == Yellow
    ensures |UniqueSorted(vs)| >= 5
  {
    YellowIsBetween(v, vs, lowerIsBetter);
    InnerNeedsFive(v, UniqueSorted(vs));
  }

  /** A better value never gets a worse colour. */
  lemma HigherIsBetterMonotone(v: real, w: real, vs: seq<real>)
    requires v <= w
    ensures DynamicColor(v, vs, false) == Green ==> DynamicColor(w, vs, false) == Green
    ensures DynamicColor(w, vs, false) == Red ==> DynamicColor(v, vs, false) == Red
  {
  }

  // ---------------------------------------------------------------- mirror image

  /** Negating every value and reading the list backwards. */
  function NegRev(s: seq<real>): (r: seq<real>)
    ensures |r| == |s|
    ensures forall i :: 0 <= i < |s| ==> r[i] == -s[|s| - 1 - i]
  {
    seq(|s|, i requires 0 <= i < |s| => -s[|s| - 1 - i])
  }

  function Negate(s: seq<real>): (r: seq<real>)
    ensures |r| == |s| && forall i :: 0 <= i < |s| ==> r[i] == -s[i]
  {
    seq(|s|, i requires 0 <= i < |s| => -s[i])
  }

  /** A strictly increasing list is determined by its set of values. */
  lemma {:induction false} StrictlyIncreasingUnique(a: seq<real>, b: seq<real>)
    requires StrictlyIncreasing(a) && StrictlyIncreasing(b)
    requires forall x :: x in a <==> x in b
    ensures a == b
  {
    if a == [] {
      assert forall i :: 0 <= i < |b| ==> b[i] in a;
    } else {
      assert b != [] by { assert a[0] in a; }
      assert a[0] in b && b[0] in a;
      assert a[0] == b[0];
      forall x ensures x in a[1..] <==> x in b[1..] {
        assert x in a[1..] <==> x in a && x != a[0];
        assert x in b[1..] <==> x in b && x != b[0];
      }
      StrictlyIncreasingUnique(a[1..], b[1..]);
      assert a == [a[0]] + a[1..] && b == [b[0]] + b[1..];
    }
  }

  lemma InNegRev(x: real, u: seq<real>)
    ensures x in NegRev(u) <==> -x in u
  {
    var w := NegRev(u);
    if x in w {
      var i :| 0 <= i < |w| && w[i] == x;
      assert u[|u| - 1 - i] == -x;
    }
    if -x in u {
      var i :| 0 <= i < |u| && u[i] == -x;
      assert w[|u| - 1 - i] == x;
    }
  }

  lemma InNegate(x: real, vs: seq<real>)
    ensures x in Negate(vs) <==> -x in vs
  {
    var w := Negate(vs);
    if x in w {
      var i :| 0 <= i < |w| && w[i] == x;
      assert vs[i] == -x;
    }
    if -x in vs {
      var i :| 0 <= i < |vs| && vs[i] == -x;
      assert w[i] == x;
    }
  }

  lemma UniqueSortedOfNegated(vs: seq<real>)
    ensures UniqueSorted(Negate(vs)) == NegRev(UniqueSorted(vs))
  {
    var u := UniqueSorted(vs);
    var w := NegRev(u);
    forall x ensures x in w <==> x in UniqueSorted(Negate(vs)) {
      InNegRev(x, u);
      InNegate(x, vs);
    }
    StrictlyIncreasingUnique(UniqueSorted(Negate(vs)), w);
  }

  /** Lower-is-better colouring is higher-is-better colouring of the negated column. */
  lemma LowerIsBetterMirrors(v: real, vs: seq<real>)
    ensures DynamicColor(v, vs, true) == DynamicColor(-v, Negate(vs), false)
  {
    UniqueSortedOfNegated(vs);
  }

  // ---------------------------------------------------------------- cells

  function StrikeRates(rows: seq<Row>): (r: seq<real>)
    ensures |r| == |rows| && forall i :: 0 <= i < |rows| ==> r[i] == rows[i].strikeRate
  {
    seq(|rows|, i requires 0 <= i < |rows| => rows[i].strikeRate)
  }

  function Averages(rows: seq<Row>): (r: seq<real>)
    ensures |r| == |rows| && forall i :: 0 <= i < |rows| ==> r[i] == rows[i].average
  {
    seq(|rows|, i requires 0 <= i < |rows| => rows[i].average)
  }

  function DotPcts(rows: seq<Row>): (r: seq<real>)
    ensures |r| == |rows| && forall i :: 0 <= i < |rows| ==> r[i] == rows[i].dotPct
  {
    seq(|rows|, i requires 0 <= i < |rows| => rows[i].dotPct)
  }

  function BoundaryPcts(rows: seq<Row>): (r: seq<real>)
    ensures |r| == |rows| && forall i :: 0 <= i < |rows| ==> r[i] == rows[i].boundaryPct
  {
    seq(|rows|, i requires 0 <= i < |rows| => rows[i].boundaryPct)
  }

  /** The colours of one row: strike rate, average and boundary % higher-is-better, dot % lower-is-better. */
  datatype CellColors = CellColors(strikeRate: Color, average: Color, dotPct: Color, boundaryPct: Color)

  function RowColors(rows: seq<Row>, i: nat): CellColors
    requires i < |rows|
  {
    CellColors(
      DynamicColor(rows[i].strikeRate, StrikeRates(rows), false),
      DynamicColor(rows[i].average, Averages(rows), false),
      DynamicColor(rows[i].dotPct, DotPcts(rows), true),
      DynamicColor(rows[i].boundaryPct, BoundaryPcts(rows), false))
  }

  /** A non-empty column has a green cell: its best value. */
  lemma ColumnHasGreen(col: seq<real>, lowerIsBetter: bool)
    requires col != []
    ensures exists i :: 0 <= i < |col| && DynamicColor(col[i], col, lowerIsBetter) == Green
  {
    if lowerIsBetter {
      var i :| 0 <= i < |col| && col[i] == Min(col);
      forall x | x in col ensures col[i] <= x {
        var j :| 0 <= j < |col| && col[j] == x;
        assert Min(col) <= col[j];
      }
      LowestOfLowerIsBetter(col[i], col);
    } else {
      var i :| 0 <= i < |col| && col[i] == Max(col);
      forall x | x in col ensures x <= col[i] {
        var j :| 0 <= j < |col| && col[j] == x;
        assert col[j] <= Max(col);
      }
      ExtremesOfHigherIsBetter(col[i], col);
    }
  }

  /** In a non-empty table every column has a green cell. */
  lemma EveryColumnHasGreen(rows: seq<Row>)
    requires rows != []
    ensures exists i :: 0 <= i < |rows| && RowColors(rows, i).strikeRate == Green
    ensures exists i :: 0 <= i < |rows| && RowColors(rows, i).average == Green
    ensures exists i :: 0 <= i < |rows| && RowColors(rows, i).dotPct == Green
    ensures exists i :: 0 <= i < |rows| && RowColors(rows, i).boundaryPct == Green
  {
    ColumnHasGreen(StrikeRates(rows), false);
    var a :| 0 <= a < |rows| && DynamicColor(StrikeRates(rows)[a], StrikeRates(rows), false) == Green;
    assert RowColors(rows, a).strikeRate == Green;
    ColumnHasGreen(Averages(rows), false);
    var b :| 0 <= b < |rows| && DynamicColor(Averages(rows)[b], Averages(rows), false) == Green;
    assert RowColors(rows, b).average == Green;
    ColumnHasGreen(DotPcts(rows), true);
    var c :| 0 <= c < |rows| && DynamicColor(DotPcts(rows)[c], DotPcts(rows), true) == Green;
    assert RowColors(rows, c).dotPct == Green;
    ColumnHasGreen(BoundaryPcts(rows), false);
    var d :| 0 <= d < |rows| && DynamicColor(BoundaryPcts(rows)[d], BoundaryPcts(rows), false) == Green;
    assert RowColors(rows, d).boundaryPct == Green;
  }
}
