/**
 * The rule engines of the NBA matchup slide (src/components/NBASlide.js,
 * `generateTeamInsights` and `generatePlayerInsights`): threshold rules push
 * notes, strengths and weaknesses, and a fallback naming a quarter is pushed
 * when no strength (or no weakness) rule fired. Each entry is modelled by the
 * rule that produced it; the sentence around the numbers is not modelled.
 */
module NbaInsights {
  import opened Wrappers

  datatype Quarter = Q1 | Q2 | Q3 | Q4

  /** Four per-quarter values (differentials or points per game). */
  datatype Quarters = Quarters(q1: real, q2: real, q3: real, q4: real)

  function Of(qs: Quarters, q: Quarter): real {
    match q
    case Q1 => qs.q1
    case Q2 => qs.q2
    case Q3 => qs.q3
    case Q4 => qs.q4
  }

  /** The position of a quarter in the tie-break order Q1, Q2, Q3, Q4. */
  function Position(q: Quarter): nat {
    match q
    case Q1 => 0
    case Q2 => 1
    case Q3 => 2
    case Q4 => 3
  }

  /** `Math.max` of the four values: one of them, and no smaller than any. */
  function Best(qs: Quarters): (m: real)
    ensures m >= qs.q1 && m >= qs.q2 && m >= qs.q3 && m >= qs.q4
    ensures m == qs.q1 || m == qs.q2 || m == qs.q3 || m == qs.q4
  {
    var a := if qs.q1 >= qs.q2 then qs.q1 else qs.q2;
    var b := if qs.q3 >= qs.q4 then qs.q3 else qs.q4;
    if a >= b then a else b
  }

  /** `Math.min` of the four values: one of them, and no larger than any. */
  function Worst(qs: Quarters): (m: real)
    ensures m <= qs.q1 && m <= qs.q2 && m <= qs.q3 && m <= qs.q4
    ensures m == qs.q1 || m == qs.q2 || m == qs.q3 || m == qs.q4
  {
    var a := if qs.q1 <= qs.q2 then qs.q1 else qs.q2;
    var b := if qs.q3 <= qs.q4 then qs.q3 else qs.q4;
    if a <= b then a else b
  }

  /** The `===` chain of a fallback: the first quarter, in order, whose value is `v`. */
  function FirstWith(qs: Quarters, v: real): Quarter {
    if v == qs.q1 then Q1 else if v == qs.q2 then Q2 else if v == qs.q3 then Q3 else Q4
  }

  /**
   * A fallback names a quarter holding the extreme value, and every quarter
   * before it in the order Q1..Q4 holds a different value: ties go to the
   * earliest quarter.
   */
  lemma FirstWithExtreme(qs: Quarters, v: real)
    requires v == qs.q1 || v == qs.q2 || v == qs.q3 || v == qs.q4
    ensures Of(qs, FirstWith(qs, v)) == v
    ensures forall q :: Position(q) < Position(FirstWith(qs, v)) ==> Of(qs, q) != v
  {
  }

  /** The `===` chain naming the quarter with the best value: the earliest of those holding it. */
  method BestQuarter(qs: Quarters) returns (q: Quarter)
    ensures Of(qs, q) == Best(qs)
    ensures forall p :: Position(p) < Position(q) ==> Of(qs, p) < Best(qs)
    ensures q == FirstWith(qs, Best(qs))
  {
    var best := Best(qs);
    if best == qs.q1 {
      q := Q1;
    } else if best == qs.q2 {
      q := Q2;
    } else if best == qs.q3 {
      q := Q3;
    } else {
      q := Q4;
    }
  }

  /** The `===` chain naming the quarter with the worst value: the earliest of those holding it. */
  method WorstQuarter(qs: Quarters) returns (q: Quarter)
    ensures Of(qs, q) == Worst(qs)
    ensures forall p :: Position(p) < Position(q) ==> Of(qs, p) > Worst(qs)
    ensures q == FirstWith(qs, Worst(qs))
  {
    var worst := Worst(qs);
    if worst == qs.q1 {
      q := Q1;
    } else if worst == qs.q2 {
      q := Q2;
    } else if worst == qs.q3 {
      q := Q3;
    } else {
      q := Q4;
    }
  }

  /** The three lists of a generator's result. */
  datatype Insights<N, S, W> = Insights(ai: seq<N>, strengths: seq<S>, weaknesses: seq<W>)

  /** What a rule that pushes `x` when `fires` holds contributes. */
  function When<T>(fires: bool, x: T): (r: seq<T>)
    ensures |r| <= 1 && (r == [] <==> !fires)
  {
    if fires then [x] else []
  }

  // ---------------------------------------------------------------- team insights

  datatype TeamStats = TeamStats(
    avgPtsH1: real, avgPtsH2: real, gamesPlayed: real, diffs: Quarters,
    avgWinMargin: real, avgLossMargin: real,
    winsLeadingQ1: real, winsTrailingQ1: real, avgPtsConcededH1: real)

  datatype TeamNote = Halves | Q1Differential(positive: bool) | Margins
  datatype TeamStrength = FastStarts | DominantThirdQuarter | ProtectsLeads | BetterSecondHalf | CompetitiveQuarter(q: Quarter)
  datatype TeamWeakness = FourthQuarterStruggles | FirstHalfDefence | SlowStartRecovery | LargerLossMargins | ImproveQuarter(q: Quarter)

  type TeamInsights = Insights<TeamNote, TeamStrength, TeamWeakness>

  function Abs(x: real): real {
    if x < 0.0 then -x else x
  }

  /** The strength rules, in the order they are tried. */
  function TeamStrengthRules(s: TeamStats): seq<TeamStrength> {
    When(s.diffs.q1 > 2.0, FastStarts)
    + When(s.diffs.q3 > 2.0, DominantThirdQuarter)
    + When(s.winsLeadingQ1 > s.winsTrailingQ1 * 1.5, ProtectsLeads)
    + When(s.avgPtsH2 > s.avgPtsH1, BetterSecondHalf)
  }

  /** The weakness rules, in the order they are tried. */
  function TeamWeaknessRules(s: TeamStats): seq<TeamWeakness> {
    When(s.diffs.q4 < -1.0, FourthQuarterStruggles)
    + When(s.avgPtsConcededH1 > s.avgPtsH1, FirstHalfDefence)
    + When(s.winsTrailingQ1 < s.winsLeadingQ1 * 0.3, SlowStartRecovery)
    + When(Abs(s.avgLossMargin) > s.avgWinMargin * 1.2, LargerLossMargins)
  }

  /** The strengths: those whose rule fires, else the best quarter. */
  function TeamStrengths(s: TeamStats): seq<TeamStrength> {
    var fired := TeamStrengthRules(s);
    if fired == [] then [CompetitiveQuarter(FirstWith(s.diffs, Best(s.diffs)))] else fired
  }

  /** The weaknesses: those whose rule fires, else the worst quarter. */
  function TeamWeaknesses(s: TeamStats): seq<TeamWeakness> {
    var fired := TeamWeaknessRules(s);
    if fired == [] then [ImproveQuarter(FirstWith(s.diffs, Worst(s.diffs)))] else fired
  }

  /** What `generateTeamInsights` returns for present statistics. */
  function TeamInsightsOf(s: TeamStats): TeamInsights {
    Insights([Halves, Q1Differential(s.diffs.q1 > 0.0), Margins], TeamStrengths(s), TeamWeaknesses(s))
  }

  /** The strength half of `generateTeamInsights`: rule by rule, then the fallback. */
  method CollectTeamStrengths(s: TeamStats) returns (strengths: seq<TeamStrength>)
    ensures strengths == TeamStrengths(s)
  {
    strengths := [];
    if s.diffs.q1 > 2.0 {
      strengths := strengths + [FastStarts];
    }
    assert strengths == When(s.diffs.q1 > 2.0, FastStarts);
    if s.diffs.q3 > 2.0 {
      strengths := strengths + [DominantThirdQuarter];
    }
    assert strengths == When(s.diffs.q1 > 2.0, FastStarts) + When(s.diffs.q3 > 2.0, DominantThirdQuarter);
    if s.winsLeadingQ1 > s.winsTrailingQ1 * 1.5 {
      strengths := strengths + [ProtectsLeads];
    }
    if s.avgPtsH2 > s.avgPtsH1 {
      strengths := strengths + [BetterSecondHalf];
    }
    assert strengths == TeamStrengthRules(s);
    if |strengths| == 0 {
      var q := BestQuarter(s.diffs);
      strengths := strengths + [CompetitiveQuarter(q)];
    }
  }

  /** The weakness half of `generateTeamInsights`: rule by rule, then the fallback. */
  method CollectTeamWeaknesses(s: TeamStats) returns (weaknesses: seq<TeamWeakness>)
    ensures weaknesses == TeamWeaknesses(s)
  {
    weaknesses := [];
    if s.diffs.q4 < -1.0 {
      weaknesses := weaknesses + [FourthQuarterStruggles];
    }
    assert weaknesses == When(s.diffs.q4 < -1.0, FourthQuarterStruggles);
    if s.avgPtsConcededH1 > s.avgPtsH1 {
      weaknesses := weaknesses + [FirstHalfDefence];
    }
    assert weaknesses == When(s.diffs.q4 < -1.0, FourthQuarterStruggles) + When(s.avgPtsConcededH1 > s.avgPtsH1, FirstHalfDefence);
    if s.winsTrailingQ1 < s.winsLeadingQ1 * 0.3 {
      weaknesses := weaknesses + [SlowStartRecovery];
    }
    if Abs(s.avgLossMargin) > s.avgWinMargin * 1.2 {
      weaknesses := weaknesses + [LargerLossMargins];
    }
    assert weaknesses == TeamWeaknessRules(s);
    if |weaknesses| == 0 {
      var q := WorstQuarter(s.diffs);
      weaknesses := weaknesses + [ImproveQuarter(q)];
    }
  }

  /** `generateTeamInsights(teamName, stats)`, pushing entry by entry. */
  method GenerateTeamInsights(stats: Option<TeamStats>) returns (ins: TeamInsights)
    ensures stats.None? ==> ins == Insights([], [], [])
    ensures stats.Some? ==> ins == TeamInsightsOf(stats.value)
  {
    if stats.None? {
      return Insights([], [], []);
    }
    var s := stats.value;
    var ai: seq<TeamNote> := [Halves];
    if s.diffs.q1 > 0.0 {
      ai := ai + [Q1Differential(true)];
    } else {
      ai := ai + [Q1Differential(false)];
    }
    ai := ai + [Margins];
    var strengths := CollectTeamStrengths(s);
    var weaknesses := CollectTeamWeaknesses(s);
    ins := Insights(ai, strengths, weaknesses);
  }

  /** Always three notes, and between one and four strengths and weaknesses. */
  lemma TeamInsightCounts(s: TeamStats)
    ensures |TeamInsightsOf(s).ai| == 3
    ensures 1 <= |TeamInsightsOf(s).strengths| <= 4
    ensures 1 <= |TeamInsightsOf(s).weaknesses| <= 4
  {
  }

  /** The best-quarter fallback appears exactly when no strength rule fires, and it names the first best quarter. */
  lemma TeamStrengthFallback(s: TeamStats)
    ensures (exists q :: CompetitiveQuarter(q) in TeamStrengths(s)) <==>
      !(s.diffs.q1 > 2.0 || s.diffs.q3 > 2.0 || s.winsLeadingQ1 > s.winsTrailingQ1 * 1.5 || s.avgPtsH2 > s.avgPtsH1)
    ensures forall q :: CompetitiveQuarter(q) in TeamStrengths(s) ==>
      TeamStrengths(s) == [CompetitiveQuarter(q)]
      && Of(s.diffs, q) == Best(s.diffs)
      && forall p :: Position(p) < Position(q) ==> Of(s.diffs, p) < Best(s.diffs)
  {
    FirstWithExtreme(s.diffs, Best(s.diffs));
    var q := FirstWith(s.diffs, Best(s.diffs));
    if TeamStrengthRules(s) == [] {
      assert CompetitiveQuarter(q) in TeamStrengths(s);
    }
  }

  /** The worst-quarter fallback appears exactly when no weakness rule fires, and it names the first worst quarter. */
  lemma TeamWeaknessFallback(s: TeamStats)
    ensures (exists q :: ImproveQuarter(q) in TeamWeaknesses(s)) <==>
      !(s.diffs.q4 < -1.0 || s.avgPtsConcededH1 > s.avgPtsH1 || s.winsTrailingQ1 < s.winsLeadingQ1 * 0.3
        || Abs(s.avgLossMargin) > s.avgWinMargin * 1.2)
    ensures forall q :: ImproveQuarter(q) in TeamWeaknesses(s) ==>
      TeamWeaknesses(s) == [ImproveQuarter(q)]
      && Of(s.diffs, q) == Worst(s.diffs)
      && forall p :: Position(p) < Position(q) ==> Of(s.diffs, p) > Worst(s.diffs)
  {
    FirstWithExtreme(s.diffs, Worst(s.diffs));
    var q := FirstWith(s.diffs, Worst(s.diffs));
    if TeamWeaknessRules(s) == [] {
      assert ImproveQuarter(q) in TeamWeaknesses(s);
    }
  }

  // ---------------------------------------------------------------- player insights

  datatype PlayerStats = PlayerStats(
    pointsH1: real, pointsH2: real, quarters: Quarters,
    ppgLast5: real, ppgLast10: real, rpgLast5: real, apgLast5: real, threesLast5: real,
    gamesPlayed: real)

  datatype PlayerNote = PlayerHalves | RecentForm | GamesPlayed | QuarterScoring
  datatype PlayerStrength =
    | FirstQuarterScorer | ClutchFourthQuarter | ImprovingForm | Playmaker | ThreePointShooter
    | ConsistentQuarter(q: Quarter)
  datatype PlayerWeakness =
    | LowSecondQuarter | ScoringDecline | LimitedRebounding | SecondHalfDropOff
    | WeakQuarter(q: Quarter)

  type PlayerInsights = Insights<PlayerNote, PlayerStrength, PlayerWeakness>

  /** The Q1 scorer rule. */
  predicate Q1Scorer(s: PlayerStats) {
    s.quarters.q1 == Best(s.quarters) && Best(s.quarters) > 3.0
  }

  /** The Q4 scorer rule, tried only when the Q1 rule does not fire. */
  predicate Q4Scorer(s: PlayerStats) {
    !Q1Scorer(s) && s.quarters.q4 == Best(s.quarters) && Best(s.quarters) > 3.0
  }

  /** The strength rules, in the order they are tried. */
  function PlayerStrengthRules(s: PlayerStats): seq<PlayerStrength> {
    When(Q1Scorer(s), FirstQuarterScorer)
    + When(Q4Scorer(s), ClutchFourthQuarter)
    + When(s.ppgLast5 > s.ppgLast10, ImprovingForm)
    + When(s.apgLast5 > 3.0, Playmaker)
    + When(s.threesLast5 > 2.0, ThreePointShooter)
  }

  /** The weakness rules, in the order they are tried. */
  function PlayerWeaknessRules(s: PlayerStats): seq<PlayerWeakness> {
    When(s.quarters.q2 == Worst(s.quarters) && Worst(s.quarters) < 2.0, LowSecondQuarter)
    + When(s.ppgLast5 < s.ppgLast10 * 0.8, ScoringDecline)
    + When(s.rpgLast5 < 2.0, LimitedRebounding)
    + When(s.pointsH2 < s.pointsH1 * 0.7, SecondHalfDropOff)
  }

  function PlayerStrengths(s: PlayerStats): seq<PlayerStrength> {
    var fired := PlayerStrengthRules(s);
    if fired == [] then [ConsistentQuarter(FirstWith(s.quarters, Best(s.quarters)))] else fired
  }

  function PlayerWeaknesses(s: PlayerStats): seq<PlayerWeakness> {
    var fired := PlayerWeaknessRules(s);
    if fired == [] then [WeakQuarter(FirstWith(s.quarters, Worst(s.quarters)))] else fired
  }

  /** What `generatePlayerInsights` returns for present statistics. */
  function PlayerInsightsOf(s: PlayerStats): PlayerInsights {
    Insights([PlayerHalves, if s.ppgLast5 > 0.0 then RecentForm else GamesPlayed, QuarterScoring],
      PlayerStrengths(s), PlayerWeaknesses(s))
  }

  /** The strength half of `generatePlayerInsights`: rule by rule, then the fallback. */
  method CollectPlayerStrengths(s: PlayerStats) returns (strengths: seq<PlayerStrength>)
    ensures strengths == PlayerStrengths(s)
  {
    strengths := [];
    var maxQuarter := Best(s.quarters);
    if s.quarters.q1 == maxQuarter && maxQuarter > 3.0 {
      strengths := strengths + [FirstQuarterScorer];
    } else if s.quarters.q4 == maxQuarter && maxQuarter > 3.0 {
      strengths := strengths + [ClutchFourthQuarter];
    }
    assert strengths == When(Q1Scorer(s), FirstQuarterScorer) + When(Q4Scorer(s), ClutchFourthQuarter);
    if s.ppgLast5 > s.ppgLast10 {
      strengths := strengths + [ImprovingForm];
    }
    assert strengths == When(Q1Scorer(s), FirstQuarterScorer) + When(Q4Scorer(s), ClutchFourthQuarter)
      + When(s.ppgLast5 > s.ppgLast10, ImprovingForm);
    if s.apgLast5 > 3.0 {
      strengths := strengths + [Playmaker];
    }
    if s.threesLast5 > 2.0 {
      strengths := strengths + [ThreePointShooter];
    }
    assert strengths == PlayerStrengthRules(s);
    if |strengths| == 0 {
      var q := BestQuarter(s.quarters);
      strengths := strengths + [ConsistentQuarter(q)];
    }
  }

  /** The weakness half of `generatePlayerInsights`: rule by rule, then the fallback. */
  method CollectPlayerWeaknesses(s: PlayerStats) returns (weaknesses: seq<PlayerWeakness>)
    ensures weaknesses == PlayerWeaknesses(s)
  {
    weaknesses := [];
    var minQuarter := Worst(s.quarters);
    if s.quarters.q2 == minQuarter && minQuarter < 2.0 {
      weaknesses := weaknesses + [LowSecondQuarter];
    }
    if s.ppgLast5 < s.ppgLast10 * 0.8 {
      weaknesses := weaknesses + [ScoringDecline];
    }
    assert weaknesses == When(s.quarters.q2 == minQuarter && minQuarter < 2.0, LowSecondQuarter)
      + When(s.ppgLast5 < s.ppgLast10 * 0.8, ScoringDecline);
    if s.rpgLast5 < 2.0 {
      weaknesses := weaknesses + [LimitedRebounding];
    }
    if s.pointsH2 < s.pointsH1 * 0.7 {
      weaknesses := weaknesses + [SecondHalfDropOff];
    }
    assert weaknesses == PlayerWeaknessRules(s);
    if |weaknesses| == 0 {
      var q := WorstQuarter(s.quarters);
      weaknesses := weaknesses + [WeakQuarter(q)];
    }
  }

  /** `generatePlayerInsights(playerName, stats)`, pushing entry by entry. */
  method GeneratePlayerInsights(stats: Option<PlayerStats>) returns (ins: PlayerInsights)
    ensures stats.None? ==> ins == Insights([], [], [])
    ensures stats.Some? ==> ins == PlayerInsightsOf(stats.value)
  {
    if stats.None? {
      return Insights([], [], []);
    }
    var s := stats.value;
    var ai: seq<PlayerNote> := [PlayerHalves];
    if s.ppgLast5 > 0.0 {
      ai := ai + [RecentForm];
    } else {
      ai := ai + [GamesPlayed];
    }
    ai := ai + [QuarterScoring];


    var strengths := CollectPlayerStrengths(s);
    var weaknesses := CollectPlayerWeaknesses(s);
    ins := Insights(ai, strengths, weaknesses);
  }

  /**
   * Always three notes, the second being the recent-form note exactly when the
   * last-five scoring is positive; between one and four strengths (the two
   * scorer rules never both fire) and between one and four weaknesses.
   */
  lemma PlayerInsightCounts(s: PlayerStats)
    ensures |PlayerInsightsOf(s).ai| == 3
    ensures PlayerInsightsOf(s).ai[1] == RecentForm <==> s.ppgLast5 > 0.0
    ensures 1 <= |PlayerInsightsOf(s).strengths| <= 4
    ensures 1 <= |PlayerInsightsOf(s).weaknesses| <= 4
  {
  }

  /**
   * At most one scorer strength: the Q1 one when Q1 holds the best average
   * above 3, else the Q4 one when Q4 does; both need the best quarter above 3.
   */
  lemma ScorerStrengths(s: PlayerStats)
    ensures !(FirstQuarterScorer in PlayerStrengths(s) && ClutchFourthQuarter in PlayerStrengths(s))
    ensures FirstQuarterScorer in PlayerStrengths(s) <==> s.quarters.q1 == Best(s.quarters) && Best(s.quarters) > 3.0
    ensures ClutchFourthQuarter in PlayerStrengths(s) <==>
      s.quarters.q1 != Best(s.quarters) && s.quarters.q4 == Best(s.quarters) && Best(s.quarters) > 3.0
  {
    ScorerRulesFire(s);
  }

  lemma ScorerRulesFire(s: PlayerStats)
    ensures FirstQuarterScorer in PlayerStrengths(s) <==> Q1Scorer(s)
    ensures ClutchFourthQuarter in PlayerStrengths(s) <==> Q4Scorer(s)
  {
    var c1, c2 := Q1Scorer(s), Q4Scorer(s);
    var c3, c4, c5 := s.ppgLast5 > s.ppgLast10, s.apgLast5 > 3.0, s.threesLast5 > 2.0;
    assert PlayerStrengthRules(s) == When(c1, FirstQuarterScorer) + When(c2, ClutchFourthQuarter)
      + When(c3, ImprovingForm) + When(c4, Playmaker) + When(c5, ThreePointShooter);
    ScorerMembership(c1, c2, c3, c4, c5);
  }

  /** Each scorer strength is listed exactly when its own rule fires. */
  lemma ScorerMembership(c1: bool, c2: bool, c3: bool, c4: bool, c5: bool)
    ensures var r := When(c1, FirstQuarterScorer) + When(c2, ClutchFourthQuarter)
      + When(c3, ImprovingForm) + When(c4, Playmaker) + When(c5, ThreePointShooter);
      && (FirstQuarterScorer in r <==> c1)
      && (ClutchFourthQuarter in r <==> c2)
  {
  }

  /** The best-quarter fallback appears exactly when no strength rule fires, and it names the first best quarter. */
  lemma PlayerStrengthFallback(s: PlayerStats)
    ensures (exists q :: ConsistentQuarter(q) in PlayerStrengths(s)) <==>
      !(Q1Scorer(s) || Q4Scorer(s) || s.ppgLast5 > s.ppgLast10 || s.apgLast5 > 3.0 || s.threesLast5 > 2.0)
    ensures forall q :: ConsistentQuarter(q) in PlayerStrengths(s) ==>
      PlayerStrengths(s) == [ConsistentQuarter(q)]
      && Of(s.quarters, q) == Best(s.quarters)
      && forall p :: Position(p) < Position(q) ==> Of(s.quarters, p) < Best(s.quarters)
  {
    FirstWithExtreme(s.quarters, Best(s.quarters));
    var q := FirstWith(s.quarters, Best(s.quarters));
    if PlayerStrengthRules(s) == [] {
      assert ConsistentQuarter(q) in PlayerStrengths(s);
    }
  }

  /** The worst-quarter fallback appears exactly when no weakness rule fires, and it names the first worst quarter. */
  lemma PlayerWeaknessFallback(s: PlayerStats)
    ensures (exists q :: WeakQuarter(q) in PlayerWeaknesses(s)) <==>
      !((s.quarters.q2 == Worst(s.quarters) && Worst(s.quarters) < 2.0) || s.ppgLast5 < s.ppgLast10 * 0.8
        || s.rpgLast5 < 2.0 || s.pointsH2 < s.pointsH1 * 0.7)
    ensures forall q :: WeakQuarter(q) in PlayerWeaknesses(s) ==>
      PlayerWeaknesses(s) == [WeakQuarter(q)]
      && Of(s.quarters, q) == Worst(s.quarters)
      && forall p :: Position(p) < Position(q) ==> Of(s.quarters, p) > Worst(s.quarters)
  {
    FirstWithExtreme(s.quarters, Worst(s.quarters));
    var q := FirstWith(s.quarters, Worst(s.quarters));
    if PlayerWeaknessRules(s) == [] {
      assert WeakQuarter(q) in PlayerWeaknesses(s);
    }
  }
}
