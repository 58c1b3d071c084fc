/**
 * The two toss tables of the venue slide (src/components/VenueSlide.js):
 * per toss situation, the win percentage over decided games; per toss
 * outcome, the batted-first and bowled-first counts coloured by which is larger.
 */
module VenueTables {
  import opened Wrappers
  import opened JsNumbers

  /** One entry of `situation_details`; a None count is a missing property. */
  datatype SituationDetail = SituationDetail(situation: string, wins: Option<real>, losses: Option<real>, noResult: Option<real>)

  /** One entry of `toss_decisions`. */
  datatype TossDecision = TossDecision(toss: string, battedFirst: real, bowledFirst: real)

  /** The three responses of the venue requests; a None list is a missing property. */
  datatype VenueResponse = VenueResponse(
    insights: Option<seq<string>>,
    tossDecisions: Option<seq<TossDecision>>,
    situationDetails: Option<seq<SituationDetail>>)

  /** The state the fetch leaves: the insights as sent, and both tables defaulting to empty. */
  datatype VenueData = VenueData(insights: Option<seq<string>>, tossDecisions: seq<TossDecision>, situationDetails: seq<SituationDetail>)

  /** `setTossDecisions(res.toss_decisions || [])` and its two siblings; an array, even an empty one, is truthy. */
  function Loaded(r: VenueResponse): (d: VenueData)
    ensures d.insights == r.insights
    ensures r.tossDecisions.None? ==> d.tossDecisions == []
    ensures r.tossDecisions.Some? ==> d.tossDecisions == r.tossDecisions.value
    ensures r.situationDetails.None? ==> d.situationDetails == []
    ensures r.situationDetails.Some? ==> d.situationDetails == r.situationDetails.value
  {
    VenueData(r.insights, r.tossDecisions.GetOr([]), r.situationDetails.GetOr([]))
  }

  // ---------------------------------------------------------------- situation table

  /** `wins / (wins + losses) * 100` over decided games, or 0 when there are none; no-results do not count. */
  function WinPercentage(d: SituationDetail): (p: real)
    ensures var w := OrDefault(d.wins, 0.0); var l := OrDefault(d.losses, 0.0);
      && (w + l > 0.0 ==> p * (w + l) == 100.0 * w)
      && (w + l <= 0.0 ==> p == 0.0)
  {
    var wins := OrDefault(d.wins, 0.0);
    var losses := OrDefault(d.losses, 0.0);
    var total := wins + losses;
    if total > 0.0 then wins / total * 100.0 else 0.0
  }

  /** One row of the situation table. */
  datatype SituationRow = SituationRow(situation: string, wins: real, losses: real, noResult: Option<real>, percentage: real)

  function SituationRowOf(d: SituationDetail): (r: SituationRow)
    ensures r.situation == d.situation && r.noResult == d.noResult
    ensures r.wins == OrDefault(d.wins, 0.0) && r.losses == OrDefault(d.losses, 0.0)
    ensures r.percentage == WinPercentage(d)
  {
    SituationRow(d.situation, OrDefault(d.wins, 0.0), OrDefault(d.losses, 0.0), d.noResult, WinPercentage(d))
  }

  /** The table: one row per entry, in order (none at all shows the "No situation details" message). */
  function SituationTable(details: seq<SituationDetail>): (rows: seq<SituationRow>)
    ensures |rows| == |details|
    ensures forall i :: 0 <= i < |details| ==> rows[i] == SituationRowOf(details[i])
  {
    seq(|details|, i requires 0 <= i < |details| => SituationRowOf(details[i]))
  }

  /** The no-result count never changes the percentage. */
  lemma NoResultIgnored(d: SituationDetail, n: Option<real>)
    ensures WinPercentage(d.(noResult := n)) == WinPercentage(d)
  {
  }

  /** With non-negative counts the percentage lies between 0 and 100: 100 with no losses, 0 with no wins. */
  lemma PercentageInRange(d: SituationDetail)
    requires d.wins.Some? ==> d.wins.value >= 0.0
    requires d.losses.Some? ==> d.losses.value >= 0.0
    ensures 0.0 <= WinPercentage(d) <= 100.0
    ensures OrDefault(d.wins, 0.0) > 0.0 && OrDefault(d.losses, 0.0) == 0.0 ==> WinPercentage(d) == 100.0
    ensures OrDefault(d.wins, 0.0) == 0.0 ==> WinPercentage(d) == 0.0
  {
    var w := OrDefault(d.wins, 0.0);
    var l := OrDefault(d.losses, 0.0);
    var p := WinPercentage(d);
    if w + l > 0.0 {
      assert p * (w + l) == 100.0 * w;
      if p < 0.0 {
        MulPos(-p, w + l);
      }
      if p > 100.0 {
        MulPos(p - 100.0, w + l);
      }
    }
  }

  lemma MulPos(a: real, b: real)
    requires a > 0.0 && b > 0.0
    ensures a * b > 0.0
  {
  }

  /** A missing count and a count of zero give the same row. */
  lemma MissingCountsAsZero(d: SituationDetail)
    ensures SituationRowOf(d.(wins := None)) == SituationRowOf(d.(wins := Some(0.0)))
    ensures SituationRowOf(d.(losses := None)) == SituationRowOf(d.(losses := Some(0.0)))
  {
  }

  // ---------------------------------------------------------------- toss table

  datatype Shade = Green | Red | Gray

  /** The colour of a count compared with the other column's count. */
  function Shading(mine: real, other: real): Shade {
    if mine > other then Green else if mine < other then Red else Gray
  }

  /** The colours of the batted-first and bowled-first cells of one row. */
  function TossColors(d: TossDecision): (c: (Shade, Shade)) {
    (Shading(d.battedFirst, d.bowledFirst), Shading(d.bowledFirst, d.battedFirst))
  }

  /** Batted is green exactly when it is larger, red exactly when it is smaller, gray exactly when equal; bowled mirrors it. */
  lemma TossColorRules(d: TossDecision)
    ensures TossColors(d).0 == Green <==> d.battedFirst > d.bowledFirst
    ensures TossColors(d).0 == Red <==> d.battedFirst < d.bowledFirst
    ensures TossColors(d).0 == Gray <==> d.battedFirst == d.bowledFirst
    ensures TossColors(d).1 == TossColors(d.(battedFirst := d.bowledFirst, bowledFirst := d.battedFirst)).0
  {
  }

  /** Unequal counts colour one cell green and the other red; equal counts colour both gray. */
  lemma OneGreenOneRed(d: TossDecision)
    ensures d.battedFirst != d.bowledFirst ==>
      (TossColors(d) == (Green, Red) || TossColors(d) == (Red, Green))
    ensures d.battedFirst == d.bowledFirst ==> TossColors(d) == (Gray, Gray)
  {
  }

  /** One row of the toss table. */
  datatype TossRow = TossRow(toss: string, battedFirst: real, bowledFirst: real, battedColor: Shade, bowledColor: Shade)

  /** The table: one row per entry, in order. */
  function TossTable(decisions: seq<TossDecision>): (rows: seq<TossRow>)
    ensures |rows| == |decisions|
    ensures forall i :: 0 <= i < |decisions| ==>
      var d := decisions[i];
      rows[i] == TossRow(d.toss, d.battedFirst, d.bowledFirst, TossColors(d).0, TossColors(d).1)
  {
    seq(|decisions|, i requires 0 <= i < |decisions| =>
      TossRow(decisions[i].toss, decisions[i].battedFirst, decisions[i].bowledFirst,
        TossColors(decisions[i]).0, TossColors(decisions[i]).1))
  }
}
