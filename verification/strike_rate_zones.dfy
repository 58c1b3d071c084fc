/**
 * The strike-rate heatmap (src/components/StrikeRateZones.js): the rounded
 * strike rate of each line/length cell and its colour by descending rank
 * among the positive rates (top six green, next six yellow, rest red).
 */
module StrikeRateZones {
  import opened Wrappers
  import opened JsNumbers

  datatype Zone = Zone(lineBin: string, lengthBin: string, sr: real)

  /** `data.zones`; None stands for missing data or a missing `zones` list. */
  type ZoneData = Option<seq<Zone>>

  /** `zones.find(...)`: the first zone with both bins. */
  function FindZone(zones: seq<Zone>, line: string, length: string): (r: Option<nat>)
    ensures r.Some? ==> r.value < |zones| && zones[r.value].lineBin == line && zones[r.value].lengthBin == length
    ensures r.Some? ==> forall j :: 0 <= j < r.value ==> !(zones[j].lineBin == line && zones[j].lengthBin == length)
    ensures r.None? ==> forall j :: 0 <= j < |zones| ==> !(zones[j].lineBin == line && zones[j].lengthBin == length)
  {
    if zones == [] then None
    else if zones[0].lineBin == line && zones[0].lengthBin == length then Some(0)
    else match FindZone(zones[1..], line, length)
      case None => None
      case Some(i) => Some(i + 1)
  }

  /** `getStrikeRate(line, length)`: the rounded rate of the first matching zone, 0 when there is none. */
  function GetStrikeRate(data: ZoneData, line: string, length: string): (r: int)
    ensures data.None? ==> r == 0
    ensures data.Some? && FindZone(data.value, line, length).None? ==> r == 0
    ensures data.Some? && FindZone(data.value, line, length).Some? ==>
      var z := data.value[FindZone(data.value, line, length).value];
      z.sr - 0.5 < r as real <= z.sr + 0.5
  {
    if data.None? then 0
    else match FindZone(data.value, line, length)
      case None => 0
      case Some(i) => Round(data.value[i].sr)
  }

  /** `getAllStrikeRates()`: every zone's rounded rate, in zone order. */
  function AllStrikeRates(data: ZoneData): (r: seq<int>)
    ensures data.None? ==> r == []
    ensures data.Some? ==> |r| == |data.value| && forall i :: 0 <= i < |r| ==> r[i] == Round(data.value[i].sr)
  {
    if data.None? then [] else seq(|data.value|, i requires 0 <= i < |data.value| => Round(data.value[i].sr))
  }

  /** The positive rates, in order (`filter(rate => rate > 0)`). */
  function Positives(s: seq<int>): (r: seq<int>)
    ensures forall x :: x in r <==> x in s && x > 0
    ensures forall x :: x > 0 ==> multiset(r)[x] == multiset(s)[x]
    ensures forall x :: x <= 0 ==> multiset(r)[x] == 0
  {
    if s == [] then []
    else
      var r := (if s[0] > 0 then [s[0]] else []) + Positives(s[1..]);
      assert s == [s[0]] + s[1..];
      r
  }

  /** Filtering a concatenation filters each part, so repeated rates keep their places. */
  lemma {:induction false} PositivesAppend(a: seq<int>, b: seq<int>)
    ensures Positives(a + b) == Positives(a) + Positives(b)
  {
    if a == [] {
      assert a + b == b;
    } else {
      assert (a + b)[0] == a[0] && (a + b)[1..] == a[1..] + b;
      PositivesAppend(a[1..], b);
    }
  }

  /** Every positive entry above a rate is counted: filtering out the zeros leaves the rank unchanged. */
  lemma {:induction false} PositivesKeepCountGreater(x: int, s: seq<int>)
    requires x >= 0
    ensures CountGreater(x, Positives(s)) == CountGreater(x, s)
  {
    if s != [] {
      PositivesKeepCountGreater(x, s[1..]);
      var h: seq<int> := if s[0] > 0 then [s[0]] else [];
      CountGreaterAppend(x, h, Positives(s[1..]));
    }
  }

  lemma {:induction false} CountGreaterAppend(x: int, a: seq<int>, b: seq<int>)
    ensures CountGreater(x, a + b) == CountGreater(x, a) + CountGreater(x, b)
  {
    if a == [] {
      assert a + b == b;
    } else {
      assert (a + b)[1..] == a[1..] + b;
      CountGreaterAppend(x, a[1..], b);
    }
  }

  predicate Descending(s: seq<int>) {
    forall i, j :: 0 <= i < j < |s| ==> s[i] >= s[j]
  }

  function InsertDesc(x: int, s: seq<int>): (r: seq<int>)
    requires Descending(s)
    ensures Descending(r)
    ensures forall y :: y in r <==> y == x || y in s
  {
    if s == [] || x >= s[0] then [x] + s
    else
      var t := InsertDesc(x, s[1..]);
      forall j | 0 <= j < |t| ensures t[j] <= s[0] {
        assert t[j] in t;
      }
      [s[0]] + t
  }

  /** `sort((a, b) => b - a)`: the same values, largest first. */
  function SortDesc(s: seq<int>): (r: seq<int>)
    ensures Descending(r)
    ensures forall x :: x in r <==> x in s
  {
    if s == [] then [] else InsertDesc(s[0], SortDesc(s[1..]))
  }

  /** `indexOf`: the first position of `x`, or -1. */
  function IndexOf(s: seq<int>, x: int): (r: int)
    ensures -1 <= r < |s|
    ensures r == -1 <==> x !in s
    ensures r >= 0 ==> s[r] == x && forall j :: 0 <= j < r ==> s[j] != x
  {
    if s == [] then -1
    else if s[0] == x then 0
    else var k := IndexOf(s[1..], x); if k == -1 then -1 else k + 1
  }

  datatype ZoneColor = Gray | Green | Yellow | Red

  /** `getZoneColor(strikeRate, allStrikeRates)`. */
  function ZoneColorOf(rate: int, all: seq<int>): ZoneColor {
    if rate == 0 then Gray
    else
      var rank := IndexOf(SortDesc(Positives(all)), rate);
      if rank < 6 then Green else if rank < 12 then Yellow else Red
  }

  /** How many entries of `s` are strictly greater than `x`. */
  function CountGreater(x: int, s: seq<int>): nat {
    if s == [] then 0 else (if s[0] > x then 1 else 0) + CountGreater(x, s[1..])
  }

  lemma {:induction false} CountGreaterInsert(x: int, y: int, s: seq<int>)
    requires Descending(s)
    ensures CountGreater(x, InsertDesc(y, s)) == CountGreater(x, s) + (if y > x then 1 else 0)
  {
    if s != [] && y < s[0] {
      CountGreaterInsert(x, y, s[1..]);
      assert InsertDesc(y, s)[1..] == InsertDesc(y, s[1..]);
    }
  }

  /** Sorting does not change how many rates beat `x`. */
  lemma {:induction false} CountGreaterSort(x: int, s: seq<int>)
    ensures CountGreater(x, SortDesc(s)) == CountGreater(x, s)
  {
    if s != [] {
      CountGreaterSort(x, s[1..]);
      CountGreaterInsert(x, s[0], SortDesc(s[1..]));
    }
  }

  lemma {:induction false} NoneGreater(x: int, s: seq<int>)
    requires forall i :: 0 <= i < |s| ==> s[i] <= x
    ensures CountGreater(x, s) == 0
  {
    if s != [] {
      NoneGreater(x, s[1..]);
    }
  }

  /** In a descending list, the first position of `x` is the number of entries above it. */
  lemma {:induction false} IndexInDescending(s: seq<int>, x: int)
    requires Descending(s) && x in s
    ensures IndexOf(s, x) == CountGreater(x, s)
  {
    if s[0] == x {
      NoneGreater(x, s);
    } else {
      assert x in s[1..];
      var j :| 0 <= j < |s| && s[j] == x;
      assert s[0] > x;
      IndexInDescending(s[1..], x);
    }
  }

  /** The rank of a positive rate in the list is the number of positive rates strictly greater than it. */
  lemma RankIsCountGreater(rate: int, all: seq<int>)
    requires rate > 0 && rate in all
    ensures IndexOf(SortDesc(Positives(all)), rate) == CountGreater(rate, Positives(all))
  {
    IndexInDescending(SortDesc(Positives(all)), rate);
    CountGreaterSort(rate, Positives(all));
  }

  /** Colour by rank: green below six rates above, yellow below twelve, red otherwise; 0 is gray. */
  lemma ZoneColorByRank(rate: int, all: seq<int>)
    ensures rate == 0 ==> ZoneColorOf(rate, all) == Gray
    ensures rate > 0 && rate in all ==>
      var above := CountGreater(rate, Positives(all));
      && (ZoneColorOf(rate, all) == Green <==> above < 6)
      && (ZoneColorOf(rate, all) == Yellow <==> 6 <= above < 12)
      && (ZoneColorOf(rate, all) == Red <==> above >= 12)
  {
    if rate > 0 && rate in all {
      RankIsCountGreater(rate, all);
    }
  }

  /** A non-zero rate that is not among the positive rates (say a negative one) has rank -1 and is green. */
  lemma AbsentRateIsGreen(rate: int, all: seq<int>)
    requires rate != 0 && !(rate > 0 && rate in all)
    ensures ZoneColorOf(rate, all) == Green
  {
    assert rate !in SortDesc(Positives(all));
  }

  lemma {:induction false} CountGreaterAntitone(x: int, y: int, s: seq<int>)
    requires x <= y
    ensures CountGreater(y, s) <= CountGreater(x, s)
  {
    if s != [] {
      CountGreaterAntitone(x, y, s[1..]);
    }
  }

  function Goodness(c: ZoneColor): int {
    match c
    case Gray => 0
    case Red => 1
    case Yellow => 2
    case Green => 3
  }

  /** Between positive rates of the list, a higher rate never gets a worse colour. */
  lemma ZoneColorMonotone(r1: int, r2: int, all: seq<int>)
    requires 0 < r1 <= r2 && r1 in all && r2 in all
    ensures Goodness(ZoneColorOf(r1, all)) <= Goodness(ZoneColorOf(r2, all))
  {
    ZoneColorByRank(r1, all);
    ZoneColorByRank(r2, all);
    CountGreaterAntitone(r1, r2, Positives(all));
  }

  // ---------------------------------------------------------------- the grid

  const Lengths: seq<string> := ["bouncer", "short", "back of length", "length", "full", "yorker"]
  const Lines: seq<string> := ["off", "line", "leg"]

  datatype Cell = Cell(length: string, line: string, rate: int, color: ZoneColor)

  /** The heatmap: one row per length, one cell per line within it, in the fixed order. */
  function Grid(data: ZoneData): (g: seq<seq<Cell>>)
    ensures |g| == 6 && forall r :: 0 <= r < 6 ==> |g[r]| == 3
    ensures forall r, c :: 0 <= r < 6 && 0 <= c < 3 ==>
      && g[r][c].length == Lengths[r] && g[r][c].line == Lines[c]
      && g[r][c].rate == GetStrikeRate(data, Lines[c], Lengths[r])
      && g[r][c].color == ZoneColorOf(g[r][c].rate, AllStrikeRates(data))
  {
    var all := AllStrikeRates(data);
    seq(6, r requires 0 <= r < 6 =>
      seq(3, c requires 0 <= c < 3 =>
        var rate := GetStrikeRate(data, Lines[c], Lengths[r]);
        Cell(Lengths[r], Lines[c], rate, ZoneColorOf(rate, all))))
  }

  /** Without data every one of the eighteen cells is gray. */
  lemma GridWithoutData(data: ZoneData)
    ensures data.None? ==> forall r, c :: 0 <= r < 6 && 0 <= c < 3 ==> Grid(data)[r][c].color == Gray
  {
  }
}
