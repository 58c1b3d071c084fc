/**
 * The wagon wheel (src/components/WagonWheel.js): one line per boundary,
 * spread over a 20-degree arc around its zone's angle and coloured by the
 * zone's share of the busiest zone, plus the "top zones" list.
 */
module WagonWheel {
  import opened Wrappers
  import opened JsNumbers
  import opened JsObjects

  datatype Zone = Zone(fieldZone: string, nBoundaries: int)

  /** `zoneAngles`: the direction of each named zone, in degrees. */
  const ZoneAngles: Object<string, real> := [
    ("Straight (off-side) / long-off", 0.0), ("Extra cover", 30.0), ("Cover", 45.0),
    ("Point", 60.0), ("Backward point", 75.0), ("Third man", 90.0), ("Short third man", 100.0),
    ("Fine leg", 270.0), ("Short fine leg", 260.0), ("Backward square leg", 240.0),
    ("Square leg", 225.0), ("Midwicket", 210.0), ("Long-on", 180.0), ("Straight (leg-side)", 180.0)]

  /** `shortNames` of `getShortZoneName`. */
  const ShortNames: Object<string, string> := [
    ("Straight (off-side) / long-off", "Long Off"), ("Extra cover", "Extra Cover"), ("Cover", "Cover"),
    ("Point", "Point"), ("Backward point", "Bwd Point"), ("Third man", "Third Man"),
    ("Short third man", "Short 3rd"), ("Fine leg", "Fine Leg"), ("Short fine leg", "Short Fine"),
    ("Backward square leg", "Bwd Sq Leg"), ("Square leg", "Square Leg"), ("Midwicket", "Mid-wicket"),
    ("Long-on", "Long On"), ("Straight (leg-side)", "Straight")]

  /** The base angle of a zone in an angle table; 0 for a name the table does not list. */
  function BaseAngle(angles: Object<string, real>, name: string): (a: real)
    ensures name !in Keys(angles) ==> a == 0.0
    ensures name in Keys(angles) ==> a == Get(angles, name).value
  {
    match Get(angles, name)
    case None => 0.0
    case Some(v) => v
  }

  /** `shortNames[zoneName] || zoneName`. */
  function ShortZoneName(name: string): (r: string)
    ensures Get(ShortNames, name).Some? ==> r == Get(ShortNames, name).value
    ensures name !in Keys(ShortNames) ==> r == name
    ensures r != [] || name == []
  {
    match Get(ShortNames, name)
    case None => name
    case Some(s) => if s != [] then s else name
  }

  /** Both tables list the same fourteen zones, each once, and every short name is non-empty. */
  lemma TablesAgree()
    ensures Keys(ZoneAngles) == Keys(ShortNames) && |ZoneAngles| == 14
    ensures DistinctKeys(ZoneAngles) && DistinctKeys(ShortNames)
    ensures forall i :: 0 <= i < |ShortNames| ==> ShortNames[i].1 != []
  {
    var ks := Keys(ZoneAngles);
    assert ks == Keys(ShortNames);
    ZoneNamesDistinct();
    forall i, j | 0 <= i < j < |ShortNames| ensures ShortNames[i].0 != ShortNames[j].0 {
      assert ShortNames[i].0 == ks[i] && ShortNames[j].0 == ks[j];
    }
  }

  lemma ZoneNamesDistinct()
    ensures DistinctKeys(ZoneAngles)
  {
  }

  // ---------------------------------------------------------------- colours

  datatype WheelColor = Green | Orange | Red

  /** `getColor(boundaries)` with `ratio = boundaries / maxBoundaries`. */
  function GetColor(n: int, maxB: real): WheelColor {
    var ratio := Div(n as real, maxB);
    if Gt(ratio, 0.7) then Green else if Gt(ratio, 0.4) then Orange else Red
  }

  /** With a positive maximum the colour bands are read off the ratio directly, and a busier zone is never worse. */
  lemma ColorBands(n: int, m: int, maxB: real)
    requires maxB > 0.0
    ensures GetColor(n, maxB) == Green <==> n as real > 0.7 * maxB
    ensures GetColor(n, maxB) == Orange <==> 0.4 * maxB < n as real <= 0.7 * maxB
    ensures n <= m && GetColor(n, maxB) == Green ==> GetColor(m, maxB) == Green
    ensures n <= m && GetColor(m, maxB) == Red ==> GetColor(n, maxB) == Red
  {
    RatioAbove(n as real, maxB, 0.7);
    RatioAbove(n as real, maxB, 0.4);
    RatioAbove(m as real, maxB, 0.7);
    RatioAbove(m as real, maxB, 0.4);
  }

  lemma RatioAbove(x: real, d: real, c: real)
    requires d > 0.0
    ensures x / d > c <==> x > c * d
  {
    var r := x / d;
    assert x == r * d;
    if r > c {
      assert r * d > c * d;
    } else {
      assert r * d <= c * d;
    }
  }

  /** The zone counts as numbers, for `Math.max(...)`. */
  function Counts(zones: seq<Zone>): (c: seq<real>)
    ensures |c| == |zones| && forall i :: 0 <= i < |zones| ==> c[i] == zones[i].nBoundaries as real
  {
    seq(|zones|, i requires 0 <= i < |zones| => zones[i].nBoundaries as real)
  }

  /** The busiest zone is green as soon as it has a boundary (with no boundaries anywhere the ratio is NaN: red). */
  lemma BusiestZoneIsGreen(zones: seq<Zone>, i: nat)
    requires i < |zones| && zones[i].nBoundaries as real == Max(Counts(zones))
    ensures zones[i].nBoundaries > 0 ==> GetColor(zones[i].nBoundaries, Max(Counts(zones))) == Green
    ensures zones[i].nBoundaries == 0 ==> GetColor(zones[i].nBoundaries, Max(Counts(zones))) == Red
  {
  }

  // ---------------------------------------------------------------- boundary lines

  datatype Line = Line(zone: string, angle: real, radius: real, color: WheelColor)

  const MaxRadius: real := 200.0

  /** `(i - n / 2) * (20 / Math.max(n, 1))`: the spread of line `i` around the zone's angle. */
  function AngleOffset(i: nat, n: int): real
    requires n >= 1
  {
    (i as real - n as real / 2.0) * (20.0 / n as real)
  }

  /** Offsets stay within a 20-degree arc, `[-10, 10)`, and strictly increase along the zone. */
  lemma AngleOffsetSpread(i: nat, j: nat, n: int)
    requires n >= 1 && i < j < n
    ensures -10.0 <= AngleOffset(i, n) < 10.0 && -10.0 <= AngleOffset(j, n) < 10.0
    ensures AngleOffset(i, n) < AngleOffset(j, n)
  {
    var k := 20.0 / n as real;
    assert k * n as real == 20.0;
    assert AngleOffset(i, n) == i as real * k - 10.0;
    assert AngleOffset(j, n) == j as real * k - 10.0;
    assert i as real * k < j as real * k;
    assert j as real * k < n as real * k;
  }

  function MakeLine(z: Zone, i: nat, base: real, color: WheelColor): Line
    requires i < z.nBoundaries
  {
    Line(z.fieldZone, base + AngleOffset(i, z.nBoundaries), MaxRadius, color)
  }

  /** The lines of one zone: one per boundary, none for a count of zero or less. */
  function ZoneLines(z: Zone, angles: Object<string, real>, maxB: real): (ls: seq<Line>)
    ensures |ls| == if z.nBoundaries > 0 then z.nBoundaries else 0
    ensures forall i :: 0 <= i < |ls| ==>
      && ls[i].zone == z.fieldZone && ls[i].radius == MaxRadius
      && ls[i].color == GetColor(z.nBoundaries, maxB)
      && ls[i].angle == BaseAngle(angles, z.fieldZone) + AngleOffset(i, z.nBoundaries)
  {
    var n := if z.nBoundaries > 0 then z.nBoundaries else 0;
    seq(n, i requires 0 <= i < n => MakeLine(z, i, BaseAngle(angles, z.fieldZone), GetColor(z.nBoundaries, maxB)))
  }

  lemma ZoneLinesStep(z: Zone, angles: Object<string, real>, maxB: real, i: nat)
    requires i < z.nBoundaries
    ensures ZoneLines(z, angles, maxB)[..i + 1]
         == ZoneLines(z, angles, maxB)[..i] + [MakeLine(z, i, BaseAngle(angles, z.fieldZone), GetColor(z.nBoundaries, maxB))]
  {
    assert ZoneLines(z, angles, maxB)[i] == MakeLine(z, i, BaseAngle(angles, z.fieldZone), GetColor(z.nBoundaries, maxB));
  }

  /** The lines of all zones, zone by zone in input order. */
  function AllLines(zones: seq<Zone>, angles: Object<string, real>, maxB: real): seq<Line> {
    if zones == [] then []
    else AllLines(zones[..|zones| - 1], angles, maxB) + ZoneLines(zones[|zones| - 1], angles, maxB)
  }

  lemma AllLinesStep(zones: seq<Zone>, z: nat, angles: Object<string, real>, maxB: real)
    requires z < |zones|
    ensures AllLines(zones[..z + 1], angles, maxB) == AllLines(zones[..z], angles, maxB) + ZoneLines(zones[z], angles, maxB)
  {
    assert zones[..z + 1][..z] == zones[..z];
  }

  /** How many boundaries the zones hold, negative counts counting as none. */
  function TotalBoundaries(zones: seq<Zone>): nat {
    if zones == [] then 0
    else TotalBoundaries(zones[..|zones| - 1])
         + (var n := zones[|zones| - 1].nBoundaries; if n > 0 then n else 0)
  }

  /** There is one line per boundary across all zones. */
  lemma {:induction false} LineCount(zones: seq<Zone>, angles: Object<string, real>, maxB: real)
    ensures |AllLines(zones, angles, maxB)| == TotalBoundaries(zones)
  {
    if zones != [] {
      LineCount(zones[..|zones| - 1], angles, maxB);
    }
  }

  /**
   * The `boundaryLines` array built by the `forEach` and its inner `for` loop;
   * the component passes `ZoneAngles` as `angles`.
   */
  method BoundaryLines(zones: seq<Zone>, angles: Object<string, real>) returns (lines: seq<Line>)
    requires zones != []
    ensures lines == AllLines(zones, angles, Max(Counts(zones)))
    ensures |lines| == TotalBoundaries(zones)
  {
    var maxB := Max(Counts(zones));
    lines := [];
    var z := 0;
    while z < |zones|
      invariant 0 <= z <= |zones|
      invariant lines == AllLines(zones[..z], angles, maxB)
    {
      var zone := zones[z];
      var base := BaseAngle(angles, zone.fieldZone);
      var color := GetColor(zone.nBoundaries, maxB);
      var done := lines;
      var i := 0;
      while i < zone.nBoundaries
        invariant 0 <= i && (zone.nBoundaries >= 0 ==> i <= zone.nBoundaries)
        invariant zone.nBoundaries < 0 ==> i == 0
        invariant lines == done + ZoneLines(zone, angles, maxB)[..i]
      {
        ZoneLinesStep(zone, angles, maxB, i);
        lines := lines + [MakeLine(zone, i, base, color)];
        i := i + 1;
      }
      assert ZoneLines(zone, angles, maxB)[..i] == ZoneLines(zone, angles, maxB);
      AllLinesStep(zones, z, angles, maxB);
      z := z + 1;
    }
    assert zones[..z] == zones;
    LineCount(zones, angles, maxB);
  }

  // ---------------------------------------------------------------- top zones

  /** Zone `a` comes before zone `b` in the descending stable order. */
  predicate Before(zones: seq<Zone>, a: nat, b: nat)
    requires a < |zones| && b < |zones|
  {
    zones[a].nBoundaries > zones[b].nBoundaries || (zones[a].nBoundaries == zones[b].nBoundaries && a < b)
  }

  predicate SortedIndices(zones: seq<Zone>, s: seq<nat>)
    requires forall k :: 0 <= k < |s| ==> s[k] < |zones|
  {
    forall p, q :: 0 <= p < q < |s| ==> Before(zones, s[p], s[q])
  }

  /** Inserting index `i` behind every zone with at least as many boundaries. */
  function InsertIndex(zones: seq<Zone>, i: nat, s: seq<nat>): (r: seq<nat>)
    requires i < |zones| && forall k :: 0 <= k < |s| ==> s[k] < i
    requires SortedIndices(zones, s)
    ensures |r| == |s| + 1
    ensures forall k :: 0 <= k < |r| ==> r[k] < |zones|
    ensures forall x :: x in r <==> x == i || x in s
    ensures SortedIndices(zones, r)
  {
    if s == [] then [i]
    else if zones[s[0]].nBoundaries < zones[i].nBoundaries then [i] + s
    else
      var t := InsertIndex(zones, i, s[1..]);
      forall k | 0 <= k < |t| ensures Before(zones, s[0], t[k]) {
        assert t[k] in t;
      }
      [s[0]] + t
  }

  /** `[...zones].sort((a, b) => b.n_boundaries - a.n_boundaries)` as positions into the original list (the sort is stable). */
  function SortIndices(zones: seq<Zone>, k: nat): (r: seq<nat>)
    requires k <= |zones|
    ensures |r| == k
    ensures forall j :: 0 <= j < |r| ==> r[j] < k
    ensures forall x: nat :: x in r <==> x < k
    ensures SortedIndices(zones, r)
  {
    if k == 0 then []
    else
      var s := SortIndices(zones, k - 1);
      var r := InsertIndex(zones, k - 1, s);
      assert forall j :: 0 <= j < |r| ==> r[j] in r;
      r
  }

  /** `.slice(0, 5)` of the sorted copy. */
  function TopZones(zones: seq<Zone>): (top: seq<Zone>)
    ensures |top| == if |zones| < 5 then |zones| else 5
  {
    var idx := SortIndices(zones, |zones|);
    var n := if |zones| < 5 then |zones| else 5;
    seq(n, k requires 0 <= k < n => zones[idx[k]])
  }

  /**
   * The top zones are the busiest ones in descending order: each comes from a
   * distinct position of the input, counts do not increase down the list, and
   * equal counts keep their input order.
   */
  lemma TopZonesOrder(zones: seq<Zone>)
    ensures var top := TopZones(zones); var idx := SortIndices(zones, |zones|);
      && (forall k :: 0 <= k < |top| ==> top[k] == zones[idx[k]])
      && (forall p, q :: 0 <= p < q < |top| ==> idx[p] != idx[q])
      && (forall p, q :: 0 <= p < q < |top| ==> top[p].nBoundaries >= top[q].nBoundaries)
      && (forall p, q :: 0 <= p < q < |top| && top[p].nBoundaries == top[q].nBoundaries ==> idx[p] < idx[q])
  {
    var top := TopZones(zones);
    var idx := SortIndices(zones, |zones|);
    forall p, q | 0 <= p < q < |top| ensures idx[p] != idx[q] && top[p].nBoundaries >= top[q].nBoundaries {
      assert Before(zones, idx[p], idx[q]);
    }
  }

  /** No zone left out of the top list is busier than one listed. */
  lemma TopZonesBusiest(zones: seq<Zone>)
    ensures var top := TopZones(zones); var idx := SortIndices(zones, |zones|);
      forall j :: 0 <= j < |zones| && j !in idx[..|top|] ==>
        forall k :: 0 <= k < |top| ==> zones[j].nBoundaries <= top[k].nBoundaries
  {
    var top := TopZones(zones);
    var idx := SortIndices(zones, |zones|);
    forall j | 0 <= j < |zones| && j !in idx[..|top|]
      ensures forall k :: 0 <= k < |top| ==> zones[j].nBoundaries <= top[k].nBoundaries
    {
      assert j in idx;
      var q :| 0 <= q < |idx| && idx[q] == j;
      forall k | 0 <= k < |top| ensures zones[j].nBoundaries <= top[k].nBoundaries {
        if q <= k {
          assert false;
        } else {
          assert Before(zones, idx[k], idx[q]);
        }
      }
    }
  }

  /** The wheel's data: None is the "No wagon wheel data available" placeholder. */
  function WheelLines(zones: Option<seq<Zone>>): (r: Option<seq<Line>>)
    ensures r.None? <==> zones.None? || zones.value == []
    ensures r.Some? ==> |r.value| == TotalBoundaries(zones.value)
  {
    if zones.None? || zones.value == [] then None
    else
      LineCount(zones.value, ZoneAngles, Max(Counts(zones.value)));
      Some(AllLines(zones.value, ZoneAngles, Max(Counts(zones.value))))
  }
}
