/**
 * The bowling-type radar chart (src/components/RadarChart.js): one spoke per
 * bowling type of the overall averages, except the right-arm pace types, with
 * the player's or team's strike rate against the overall average.
 */
module RadarChart {
  import opened Wrappers
  import opened JsNumbers
  import opened JsText
  import opened JsObjects

  /** The `data` prop; a None field is a missing (or null) property, a None value a missing number. */
  datatype RadarInput = RadarInput(
    bowlingStats: Option<Object<string, Option<real>>>,
    overallAverages: Option<Object<string, Option<real>>>)

  datatype RadarRow = RadarRow(bowlingType: string, playerTeamSR: real, overallAvg: real)

  const ExcludedType: string := "right arm pace"

  /** `bowlingType.toLowerCase().includes('right arm pace')`. */
  predicate IsExcluded(k: string) {
    Contains(ToLower(k), ExcludedType)
  }

  /** The `filter` over the keys: the excluded types are dropped, the rest keep their order. */
  function ShownKeys(ks: seq<string>): (r: seq<string>)
    ensures |r| <= |ks|
    ensures forall k :: k in r <==> k in ks && !IsExcluded(k)
  {
    if ks == [] then []
    else (if IsExcluded(ks[0]) then [] else [ks[0]]) + ShownKeys(ks[1..])
  }

  /** Filtering a concatenation filters each part: the kept keys stay in key order. */
  lemma {:induction false} ShownKeysAppend(a: seq<string>, b: seq<string>)
    ensures ShownKeys(a + b) == ShownKeys(a) + ShownKeys(b)
  {
    if a == [] {
      assert a + b == b;
    } else {
      assert (a + b)[0] == a[0] && (a + b)[1..] == a[1..] + b;
      ShownKeysAppend(a[1..], b);
    }
  }

  /** Keys none of which is excluded are all kept, unchanged. */
  lemma {:induction false} ShownKeysNoneExcluded(ks: seq<string>)
    requires forall i :: 0 <= i < |ks| ==> !IsExcluded(ks[i])
    ensures ShownKeys(ks) == ks
  {
    if ks != [] {
      ShownKeysNoneExcluded(ks[1..]);
    }
  }

  /** `o[k] || 0`. */
  function ValueOrZero(o: Object<string, Option<real>>, k: string): (v: real)
    ensures k !in Keys(o) ==> v == 0.0
  {
    match Get(o, k)
    case None => 0.0
    case Some(x) => OrDefault(x, 0.0)
  }

  /** `radarData`: None is the "No bowling statistics available" placeholder. */
  function RadarData(data: Option<RadarInput>): (r: Option<seq<RadarRow>>)
    ensures r.None? <==> data.None? || data.value.bowlingStats.None? || data.value.overallAverages.None?
    ensures r.Some? ==>
      var avgs := data.value.overallAverages.value;
      var ks := ShownKeys(Keys(avgs));
      && |r.value| == |ks| <= |avgs|
      && forall i :: 0 <= i < |ks| ==>
           r.value[i] == RadarRow(FormatLabel(ks[i]), ValueOrZero(data.value.bowlingStats.value, ks[i]), ValueOrZero(avgs, ks[i]))
  {
    if data.None? || data.value.bowlingStats.None? || data.value.overallAverages.None? then None
    else
      var stats := data.value.bowlingStats.value;
      var avgs := data.value.overallAverages.value;
      var ks := ShownKeys(Keys(avgs));
      Some(seq(|ks|, i requires 0 <= i < |ks| => RadarRow(FormatLabel(ks[i]), ValueOrZero(stats, ks[i]), ValueOrZero(avgs, ks[i]))))
  }

  /** Every spoke comes from a key of the overall averages that is not a right-arm pace type. */
  lemma SpokesAreShownTypes(data: RadarInput, i: nat)
    requires data.bowlingStats.Some? && data.overallAverages.Some?
    requires i < |RadarData(Some(data)).value|
    ensures var ks := ShownKeys(Keys(data.overallAverages.value));
      && ks[i] in Keys(data.overallAverages.value) && !IsExcluded(ks[i])
      && RadarData(Some(data)).value[i].bowlingType == FormatLabel(ks[i])
  {
    var ks := ShownKeys(Keys(data.overallAverages.value));
    assert ks[i] in ks;
  }
}
