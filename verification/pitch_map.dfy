/**
 * The dismissal pitch map (src/components/PitchMap.js): where each dismissal
 * is drawn, how large and in which colour, scaled by the busiest location.
 */
module PitchMap {
  import opened Wrappers
  import opened JsNumbers
  import opened JsText
  import opened JsObjects

  /** A coordinate of the 400 x 400 view box. */
  type Coord = c: int | 0 <= c <= 400

  /** A point of the drawing; its type keeps it inside the view box. */
  datatype Point = Point(x: Coord, y: Coord)

  /**
   * `fieldingPositions`: the sixty named fielding positions and their
   * coordinates, each name listed once. That every entry is a `Point` is the
   * statement that every tabulated position lies inside the view box.
   */
  const FieldingPositions: Object<string, Point> := [
    ("wicket-keeper", Point(200, 290)),
    ("slip", Point(230, 310)),
    ("first slip", Point(230, 310)),
    ("second slip", Point(250, 320)),
    ("third slip", Point(270, 330)),
    ("gully", Point(280, 300)),
    ("leg slip", Point(170, 310)),
    ("leg gully", Point(120, 300)),
    ("fly slip", Point(240, 280)),
    ("point", Point(120, 200)),
    ("cover point", Point(140, 180)),
    ("cover", Point(160, 160)),
    ("short cover", Point(180, 180)),
    ("extra cover", Point(140, 140)),
    ("deep cover", Point(100, 120)),
    ("deep cover point", Point(80, 140)),
    ("deep point", Point(60, 180)),
    ("deep extra cover", Point(120, 80)),
    ("backward point", Point(100, 220)),
    ("deep backward point", Point(60, 240)),
    ("forward point", Point(140, 160)),
    ("third man", Point(320, 280)),
    ("deep third man", Point(350, 320)),
    ("fine third man", Point(300, 260)),
    ("short third man", Point(280, 240)),
    ("square third man", Point(320, 200)),
    ("mid-off", Point(160, 120)),
    ("short mid-off", Point(180, 140)),
    ("silly mid-off", Point(190, 160)),
    ("deep mid-off", Point(140, 60)),
    ("long-off", Point(160, 40)),
    ("straight long off", Point(200, 30)),
    ("wide long off", Point(120, 50)),
    ("mid-on", Point(240, 120)),
    ("short mid-on", Point(220, 140)),
    ("silly mid-on", Point(210, 160)),
    ("deep mid-on", Point(260, 60)),
    ("long-on", Point(240, 40)),
    ("straight long on", Point(200, 30)),
    ("wide long on", Point(280, 50)),
    ("straight hit", Point(200, 50)),
    ("square leg", Point(280, 200)),
    ("short square leg", Point(260, 180)),
    ("forward square leg", Point(260, 160)),
    ("deep square leg", Point(320, 160)),
    ("deep backward square leg", Point(340, 220)),
    ("backward square leg", Point(300, 220)),
    ("mid-wicket", Point(260, 160)),
    ("short mid-wicket", Point(240, 180)),
    ("deep mid-wicket", Point(300, 120)),
    ("deep forward mid-wicket", Point(320, 140)),
    ("fine leg", Point(160, 280)),
    ("short fine leg", Point(180, 260)),
    ("square fine leg", Point(200, 240)),
    ("deep fine leg", Point(120, 320)),
    ("deep backward fine leg", Point(100, 340)),
    ("straight fine leg", Point(160, 300)),
    ("silly point", Point(140, 180)),
    ("non-striker's end", Point(200, 120)),
    ("striker's end", Point(200, 280))
  ]

  /**
   * `fieldingPositions[dismissal.position.toLowerCase()]` in a position table;
   * None is a name the table does not know, drawn at a random spot.
   */
  function PositionOf(table: Object<string, Point>, name: string): (r: Option<Point>)
    ensures r.None? <==> ToLower(name) !in Keys(table)
    ensures r.Some? ==> exists i :: 0 <= i < |table| && table[i] == (ToLower(name), r.value)
  {
    Get(table, ToLower(name))
  }

  /** The lookup ignores letter case: a name and its lower-case form find the same position. */
  lemma PositionLookupIgnoresCase(table: Object<string, Point>, name: string)
    ensures PositionOf(table, name) == PositionOf(table, ToLower(name))
  {
    LowerIdempotent(name);
  }

  datatype Dismissal = Dismissal(position: string, count: int)

  function Counts(ds: seq<Dismissal>): (c: seq<real>)
    ensures |c| == |ds| && forall i :: 0 <= i < |ds| ==> c[i] == ds[i].count as real
  {
    seq(|ds|, i requires 0 <= i < |ds| => ds[i].count as real)
  }

  /** `getDotSize(count)`: `4 + (count / maxCount) * 12`. */
  function DotSize(count: int, maxCount: real): JsNum {
    AffinePos(4.0, 12.0, Div(count as real, maxCount))
  }

  /** Between no dismissals and the maximum the dot grows from 4 to 16, never shrinking with the count. */
  lemma DotSizeRange(count: int, other: int, maxCount: real)
    requires maxCount > 0.0 && 0.0 <= count as real <= maxCount
    ensures DotSize(count, maxCount).Finite?
    ensures 4.0 <= DotSize(count, maxCount).value <= 16.0
    ensures count as real == maxCount ==> DotSize(count, maxCount).value == 16.0
    ensures count <= other ==> DotSize(count, maxCount).value <= DotSize(other, maxCount).value
  {
    var r := count as real / maxCount;
    assert count as real == r * maxCount;
    assert 0.0 <= r <= 1.0;
    if count <= other {
      var s := other as real / maxCount;
      assert other as real == s * maxCount;
      assert r <= s;
    }
  }

  datatype DotColor = Red | Orange | Yellow | Green | Cyan

  /** `getDotColor(count)`: bands of `count / maxCount`, highest first. */
  function DotColorOf(count: int, maxCount: real): DotColor {
    var intensity := Div(count as real, maxCount);
    if Ge(intensity, 0.8) then Red
    else if Ge(intensity, 0.6) then Orange
    else if Ge(intensity, 0.4) then Yellow
    else if Ge(intensity, 0.2) then Green
    else Cyan
  }

  function Heat(c: DotColor): nat {
    match c
    case Cyan => 0
    case Green => 1
    case Yellow => 2
    case Orange => 3
    case Red => 4
  }

  lemma RatioAtLeast(x: real, d: real, c: real)
    requires d > 0.0
    ensures x / d >= c <==> x >= c * d
  {
    var r := x / d;
    assert x == r * d;
    if r >= c {
      assert r * d >= c * d;
    } else {
      assert r * d < c * d;
    }
  }

  /** With a positive maximum the busiest location is red, and more dismissals never give a cooler colour. */
  lemma DotColorBands(count: int, other: int, maxCount: real)
    requires maxCount > 0.0
    ensures count as real == maxCount ==> DotColorOf(count, maxCount) == Red
    ensures DotColorOf(count, maxCount) == Red <==> count as real >= 0.8 * maxCount
    ensures count <= other ==> Heat(DotColorOf(count, maxCount)) <= Heat(DotColorOf(other, maxCount))
  {
    RatioAtLeast(count as real, maxCount, 0.8);
    RatioAtLeast(count as real, maxCount, 0.6);
    RatioAtLeast(count as real, maxCount, 0.4);
    RatioAtLeast(count as real, maxCount, 0.2);
    RatioAtLeast(other as real, maxCount, 0.8);
    RatioAtLeast(other as real, maxCount, 0.6);
    RatioAtLeast(other as real, maxCount, 0.4);
    RatioAtLeast(other as real, maxCount, 0.2);
  }

  /** One drawn dismissal: its tabulated position (None: random), size and colour. */
  datatype Dot = Dot(position: Option<Point>, size: JsNum, color: DotColor)

  /**
   * The map's dots, one per dismissal in order, scaled by the largest count;
   * None is the "No dismissal data available" placeholder.
   */
  function Dots(ds: Option<seq<Dismissal>>, table: Object<string, Point>): (r: Option<seq<Dot>>)
    ensures r.None? <==> ds.None? || ds.value == []
    ensures r.Some? ==> |r.value| == |ds.value| && forall i :: 0 <= i < |ds.value| ==>
      && r.value[i].position == PositionOf(table, ds.value[i].position)
      && r.value[i].size == DotSize(ds.value[i].count, Max(Counts(ds.value)))
      && r.value[i].color == DotColorOf(ds.value[i].count, Max(Counts(ds.value)))
  {
    if ds.None? || ds.value == [] then None
    else
      var d := ds.value;
      var m := Max(Counts(d));
      Some(seq(|d|, i requires 0 <= i < |d| =>
        Dot(PositionOf(table, d[i].position), DotSize(d[i].count, m), DotColorOf(d[i].count, m))))
  }

  /** With positive counts, the most frequent dismissal location is drawn largest (16) and red. */
  lemma BusiestLocationDot(ds: seq<Dismissal>, table: Object<string, Point>, i: nat)
    requires i < |ds| && ds[i].count > 0 && ds[i].count as real == Max(Counts(ds))
    ensures Dots(Some(ds), table).Some?
    ensures Dots(Some(ds), table).value[i].size == Finite(16.0)
    ensures Dots(Some(ds), table).value[i].color == Red
  {
    var m := Max(Counts(ds));
    DotSizeRange(ds[i].count, ds[i].count, m);
    DotColorBands(ds[i].count, ds[i].count, m);
  }
}
