/**
 * The first- versus second-innings scatter plot (src/components/ScatterPlot.js):
 * one point per item for the chosen metric, with the selected player or team
 * flagged; the means of both coordinates; and the fixed axis table.
 */
module ScatterPlot {
  import opened Wrappers
  import opened JsNumbers

  /** The metric toggle; it starts as `Average`. */
  datatype Metric = Average | StrikeRate

  /** One item of the `data` prop; a None coordinate is a missing property. */
  datatype Item = Item(name: string,
    firstInningsAvg: Option<real>, secondInningsAvg: Option<real>,
    firstInningsSr: Option<real>, secondInningsSr: Option<real>)

  datatype Point = Point(name: string, x: Option<real>, y: Option<real>, isSelected: bool)

  /** One point; `kind` is the `type` prop, and only `"player"` compares with the selected player. */
  function PointOf(item: Item, metric: Metric, kind: string, selectedPlayer: string, selectedTeam: string): (p: Point)
    ensures p.name == item.name
    ensures metric == Average ==> p.x == item.firstInningsAvg && p.y == item.secondInningsAvg
    ensures metric == StrikeRate ==> p.x == item.firstInningsSr && p.y == item.secondInningsSr
    ensures p.isSelected <==> if kind == "player" then item.name == selectedPlayer else item.name == selectedTeam
  {
    Point(item.name,
      if metric == Average then item.firstInningsAvg else item.firstInningsSr,
      if metric == Average then item.secondInningsAvg else item.secondInningsSr,
      if kind == "player" then item.name == selectedPlayer else item.name == selectedTeam)
  }

  /** `getDataForMetric`: no data gives no points; otherwise one point per item, in order. */
  function PlotData(data: Option<seq<Item>>, metric: Metric, kind: string, selectedPlayer: string, selectedTeam: string)
    : (ps: seq<Point>)
    ensures data.None? ==> ps == []
    ensures data.Some? ==> |ps| == |data.value|
    ensures data.Some? ==> forall i :: 0 <= i < |data.value| ==>
      ps[i] == PointOf(data.value[i], metric, kind, selectedPlayer, selectedTeam)
  {
    if data.None? || |data.value| == 0 then []
    else
      var items := data.value;
      seq(|items|, i requires 0 <= i < |items| => PointOf(items[i], metric, kind, selectedPlayer, selectedTeam))
  }

  /** At most one selected point when the item names are pairwise distinct. */
  lemma AtMostOneSelected(data: seq<Item>, metric: Metric, kind: string, selectedPlayer: string, selectedTeam: string)
    requires forall i, j :: 0 <= i < j < |data| ==> data[i].name != data[j].name
    ensures var ps := PlotData(Some(data), metric, kind, selectedPlayer, selectedTeam);
      forall i, j :: 0 <= i < j < |ps| && ps[i].isSelected ==> !ps[j].isSelected
  {
  }

  // ---------------------------------------------------------------- means

  /** The `item.x || 0` values the reduce adds up. */
  function Xs(ps: seq<Point>): (xs: seq<real>)
    ensures |xs| == |ps| && forall i :: 0 <= i < |ps| ==> xs[i] == OrDefault(ps[i].x, 0.0)
  {
    seq(|ps|, i requires 0 <= i < |ps| => OrDefault(ps[i].x, 0.0))
  }

  function Ys(ps: seq<Point>): (ys: seq<real>)
    ensures |ys| == |ps| && forall i :: 0 <= i < |ps| ==> ys[i] == OrDefault(ps[i].y, 0.0)
  {
    seq(|ps|, i requires 0 <= i < |ps| => OrDefault(ps[i].y, 0.0))
  }

  /** `sum / plotData.length`: NaN for no points, otherwise a number that times the count gives the sum. */
  function Mean(xs: seq<real>): (m: JsNum)
    ensures xs == [] <==> m.NaN?
    ensures xs != [] ==> m.Finite? && m.value * |xs| as real == Sum(xs)
  {
    Div(Sum(xs), |xs| as real)
  }

  function MeanX(ps: seq<Point>): JsNum {
    Mean(Xs(ps))
  }

  function MeanY(ps: seq<Point>): JsNum {
    Mean(Ys(ps))
  }

  /** The mean of values between `lo` and `hi` lies between them too. */
  lemma MeanBounds(xs: seq<real>, lo: real, hi: real)
    requires xs != []
    requires forall i :: 0 <= i < |xs| ==> lo <= xs[i] <= hi
    ensures lo <= Mean(xs).value <= hi
  {
    SumBounds(xs, lo, hi);
    var n := |xs| as real;
    var m := Mean(xs).value;
    assert m * n == Sum(xs);
    if m < lo {
      ScaleStrict(n, m, lo);
    }
    if m > hi {
      ScaleStrict(n, hi, m);
    }
  }

  lemma ScaleStrict(k: real, a: real, b: real)
    requires k > 0.0 && a < b
    ensures a * k < b * k
  {
  }

  // ---------------------------------------------------------------- axes

  datatype AxisConfig = AxisConfig(
    xDomain: (real, real), yDomain: (real, real),
    xTicks: seq<real>, yTicks: seq<real>,
    refX: JsNum, refY: JsNum)

  /** `count` ticks from `start`, `step` apart: every tick list of the table is of this form. */
  function Ticks(start: real, step: real, count: nat): (ts: seq<real>)
    ensures |ts| == count && forall i :: 0 <= i < count ==> ts[i] == start + step * i as real
  {
    seq(count, i requires 0 <= i < count => start + step * i as real)
  }

  /**
   * `getAxisConfig`: fixed reference lines for teams, the computed means for
   * anything else. The tick lists are [155, 160, .., 175] and [145, 150, .., 165]
   * for team averages, [130, 135, .., 155] and [130, 135, .., 170] for team
   * strike rates, [20, 30, .., 60] and [15, 25, .., 85] for player averages,
   * and [100, 120, .., 200] on both axes for player strike rates.
   */
  function AxisConfigOf(kind: string, metric: Metric, meanX: JsNum, meanY: JsNum): (c: AxisConfig)
    ensures kind == "team" ==> c.refX.Finite? && c.refY.Finite?
    ensures kind != "team" ==> c.refX == meanX && c.refY == meanY
  {
    if kind == "team" then
      if metric == Average then
        AxisConfig((155.0, 175.0), (145.0, 165.0), Ticks(155.0, 5.0, 5), Ticks(145.0, 5.0, 5),
          Finite(167.42), Finite(155.18))
      else
        AxisConfig((130.0, 156.0), (130.0, 170.0), Ticks(130.0, 5.0, 6), Ticks(130.0, 5.0, 9),
          Finite(140.0), Finite(138.0))
    else if metric == Average then
      AxisConfig((20.0, 60.0), (15.0, 85.0), Ticks(20.0, 10.0, 5), Ticks(15.0, 10.0, 8), meanX, meanY)
    else
      AxisConfig((100.0, 200.0), (100.0, 200.0), Ticks(100.0, 20.0, 6), Ticks(100.0, 20.0, 6), meanX, meanY)
  }

  /** Each tick lies above the one before it. */
  predicate Increasing(ts: seq<real>) {
    forall i :: 0 < i < |ts| ==> ts[i - 1] < ts[i]
  }

  predicate Within(ts: seq<real>, d: (real, real)) {
    forall i :: 0 <= i < |ts| ==> d.0 <= ts[i] <= d.1
  }

  /** Ticks with a positive step rise, and stay between the first and the last one. */
  lemma TicksFit(start: real, step: real, count: nat, d: (real, real))
    requires step > 0.0 && count > 0
    requires d.0 == start && start + step * ((count - 1) as real) <= d.1
    ensures Increasing(Ticks(start, step, count)) && Within(Ticks(start, step, count), d)
  {
    var ts := Ticks(start, step, count);
    forall i | 0 <= i < count ensures d.0 <= ts[i] <= d.1 {
      TickBetween(start, step, count, i);
    }
    forall i | 0 < i < count ensures ts[i - 1] < ts[i] {
      TickRises(start, step, count, i);
    }
  }

  lemma TickBetween(start: real, step: real, count: nat, i: nat)
    requires step > 0.0 && i < count
    ensures start <= Ticks(start, step, count)[i] <= start + step * ((count - 1) as real)
  {
    var x, y := i as real, (count - 1) as real;
    AddScaled(start, step, x, y);
    assert Ticks(start, step, count)[i] == start + step * x;
  }

  /** Adding a larger non-negative multiple of a positive step gives a larger value. */
  lemma AddScaled(c: real, k: real, x: real, y: real)
    requires k > 0.0 && 0.0 <= x <= y
    ensures c <= c + k * x <= c + k * y
  {
    ScaleMono(k, 0.0, x);
    ScaleMono(k, x, y);
  }

  lemma TickRises(start: real, step: real, count: nat, i: nat)
    requires step > 0.0 && 0 < i < count
    ensures Ticks(start, step, count)[i - 1] < Ticks(start, step, count)[i]
  {
    var x := (i - 1) as real;
    assert Ticks(start, step, count)[i - 1] == start + step * x;
    assert Ticks(start, step, count)[i] == start + step * (x + 1.0);
    assert step * (x + 1.0) == step * x + step;
  }

  lemma ScaleMono(k: real, a: real, b: real)
    requires k > 0.0 && a <= b
    ensures k * a <= k * b
  {
  }

  /**
   * Every configuration has increasing ticks inside its domain, starting at
   * the domain's lower end; the team reference lines lie inside the domains.
   */
  lemma AxisTicksFitDomains(kind: string, metric: Metric, meanX: JsNum, meanY: JsNum)
    ensures var c := AxisConfigOf(kind, metric, meanX, meanY);
      && Increasing(c.xTicks) && Increasing(c.yTicks)
      && Within(c.xTicks, c.xDomain) && Within(c.yTicks, c.yDomain)
      && c.xTicks[0] == c.xDomain.0 && c.yTicks[0] == c.yDomain.0
    ensures kind == "team" ==> var c := AxisConfigOf(kind, metric, meanX, meanY);
      && c.xDomain.0 <= c.refX.value <= c.xDomain.1
      && c.yDomain.0 <= c.refY.value <= c.yDomain.1
  {
    if kind == "team" {
      if metric == Average {
        TicksFit(155.0, 5.0, 5, (155.0, 175.0));
        TicksFit(145.0, 5.0, 5, (145.0, 165.0));
      } else {
        TicksFit(130.0, 5.0, 6, (130.0, 156.0));
        TicksFit(130.0, 5.0, 9, (130.0, 170.0));
      }
    } else if metric == Average {
      TicksFit(20.0, 10.0, 5, (20.0, 60.0));
      TicksFit(15.0, 10.0, 8, (15.0, 85.0));
    } else {
      TicksFit(100.0, 20.0, 6, (100.0, 200.0));
    }
  }

  /** The tick lists are exactly the literals of the table. */
  lemma TickLiterals()
    ensures Ticks(155.0, 5.0, 5) == [155.0, 160.0, 165.0, 170.0, 175.0]
    ensures Ticks(145.0, 5.0, 5) == [145.0, 150.0, 155.0, 160.0, 165.0]
    ensures Ticks(130.0, 5.0, 9) == [130.0, 135.0, 140.0, 145.0, 150.0, 155.0, 160.0, 165.0, 170.0]
    ensures Ticks(20.0, 10.0, 5) == [20.0, 30.0, 40.0, 50.0, 60.0]
    ensures Ticks(130.0, 5.0, 6) == [130.0, 135.0, 140.0, 145.0, 150.0, 155.0]
    ensures Ticks(100.0, 20.0, 6) == [100.0, 120.0, 140.0, 160.0, 180.0, 200.0]
    ensures Ticks(15.0, 10.0, 8) == [15.0, 25.0, 35.0, 45.0, 55.0, 65.0, 75.0, 85.0]
  {
  }

  /** The player reference lines are the means of the plotted points: NaN when there are none. */
  lemma PlayerLinesAreMeans(data: Option<seq<Item>>, metric: Metric, kind: string, selectedPlayer: string, selectedTeam: string)
    requires kind != "team"
    ensures var ps := PlotData(data, metric, kind, selectedPlayer, selectedTeam);
      var c := AxisConfigOf(kind, metric, MeanX(ps), MeanY(ps));
      && (ps == [] ==> c.refX.NaN? && c.refY.NaN?)
      && (ps != [] ==> c.refX.value * |ps| as real == Sum(Xs(ps)) && c.refY.value * |ps| as real == Sum(Ys(ps)))
  {
    var ps := PlotData(data, metric, kind, selectedPlayer, selectedTeam);
    var xs, ys := Xs(ps), Ys(ps);
    var c := AxisConfigOf(kind, metric, Mean(xs), Mean(ys));
    assert c.refX == Mean(xs) && c.refY == Mean(ys);
    assert xs == [] <==> ps == [];
    assert ys == [] <==> ps == [];
  }
}
