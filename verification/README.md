# IPL opposition-planning dashboard: a verified model of its rules

This project models the deterministic rules of a React dashboard. The dashboard is used for
cricket (IPL) opposition planning and ends with one basketball (NBA) slide. The analyst picks
an opposition team, some of its players and a venue. The dashboard then builds a deck of
slides, one per selected player, plus opposition, over-by-over, venue and matchup slides.
The analyst can step through the deck, export it to PowerPoint and write a comment per slide.

Each slide draws charts from backend data. Behind every chart is a small rule:
- a colour by rank or by ratio;
- a row per key with `|| 0` defaults;
- a stable top-5;
- a spread of one line per boundary;
- a threshold rule engine that always yields three notes and at least one strength and one weakness.

Each source file becomes one Dafny module:
- Modules that only compute are datatypes, functions and lemmas.
- State the source updates in place is a `class`: the application state, the slide container, the comment box and the export modal.
- Loops the source writes (`forEach` with `push`, `for` over the slides, nested `Set` filling) are methods with loop invariants. They are proved equal to a specification function.

Four helper modules fix the JavaScript semantics the rules rely on:
- `Wrappers` defines `Option`.
- `JsNumbers` covers number semantics:
  - NaN and the infinities from division;
  - the truncating `%`;
  - `Math.round`;
  - the `x || d` default.
- `JsText` covers text handling:
  - the JavaScript white-space set;
  - ASCII case mapping;
  - `trim`;
  - the `\s+` replacement;
  - the shared bowling-type label format;
  - decimal rendering of counters.
- `JsObjects` models objects as ordered key/value lists.

Numbers the source only compares or divides are `real`. Counts are `int`. A missing property
is `None`. Network responses, screenshot captures, the file write, `localStorage` and the page's
host name are parameters of the operations.

`handleTeamSelect` clears both player lists (src/App.js:53-58) and nothing fills them from a
preset, so the model has no roster.

## Model

| member | source | states |
|---|---|---|
| AppState.Remove | src/App.js:62-63 | the filter keeps exactly the players other than the one removed, never lengthening the list |
| AppState.ToggleMembership | src/App.js:60-68 | after a toggle, the toggled player is selected iff they were not before; every other player's membership is unchanged |
| AppState.ToggleKeepsOthers | src/App.js:60-68 | apart from the toggled player, the selection holds the same players in the same relative order |
| AppState.RemoveKeepsDistinct | src/App.js:62-63 | removing from a list without repeats leaves a list without repeats |
| AppState.ToggleKeepsDistinct | src/App.js:60-68 | a selection without duplicates stays without duplicates |
| AppState.ToggleTwiceRestores | src/App.js:60-68 | toggling an unselected player twice restores the original selection |
| AppState.App.constructor | src/App.js:8-16 | the initial state: empty lists and strings, loading, slides hidden, status `checking` |
| AppState.App.FetchInitialData | src/App.js:18-37 | status goes from checking to connected with the fetched teams and venues, or to error with the lists unchanged; loading ends false on both paths; nothing else changes |
| AppState.App.FetchTeamPlayers | src/App.js:39-46 | the team players become the response's list, or stay unchanged when the request fails |
| AppState.App.HandleTeamSelect | src/App.js:53-58 | opposition set, slides shown, both player lists emptied, venue and the rest unchanged |
| AppState.App.HandlePlayerSelect | src/App.js:60-68 | the selection becomes the toggle of the old one and stays duplicate-free; nothing else changes |
| AppState.App.HandleVenueSelect | src/App.js:70-72 | only the venue changes |
| AppState.App.HandleGenerateInsights | src/App.js:74-76 | only `showSlides` changes, to true |
| SlideDeck.PlayerSlides | src/components/SlideContainer.js:34-41 | one player slide per selected player, in order, slide `i` carrying index `i+1` |
| SlideDeck.BuildSlides | src/components/SlideContainer.js:31-80 | the successive pushes build exactly the deck the selection calls for |
| SlideDeck.DeckCount | src/components/SlideContainer.js:31-82 | the deck has one slide per player, two for an opposition, one for a venue and the matchup slide, so at least one |
| SlideDeck.DeckIndexes | src/components/SlideContainer.js:34-80 | every slide's index is its position plus one; only the last slide is the matchup slide |
| SlideDeck.DeckOrder | src/components/SlideContainer.js:31-80 | player slides first in selection order, then team and over-by-over for a non-empty opposition, then venue, then the matchup |
| SlideDeck.DeckHasNoDuplicates | src/components/SlideContainer.js:34-80 | with distinct players no two slides share a `(type, data)` pair |
| SlideDeck.NoDataBranchUnreachable | src/components/SlideContainer.js:154-161 | the deck is never empty, so the "No Data Selected" branch is dead |
| SlideDeck.ScenarioDeck | src/components/SlideContainer.js:31-80 | players P1 and P2, team A and venue X give six slides in the documented order |
| SlideDeck.NavigationInRange | src/components/SlideContainer.js:84-90 | from an in-range index next and previous stay in range, wrapping from the last slide to the first and back |
| SlideDeck.NextPrevInverse | src/components/SlideContainer.js:84-90 | previous undoes next and next undoes previous |
| SlideDeck.ClampIndex | src/components/SlideContainer.js:16 | the corrected index lies in the deck, equals an in-range index and is the last slide for an index past the end |
| SlideDeck.SlideAt | src/components/SlideContainer.js:163 | a slide is shown iff the index lies inside the deck |
| SlideDeck.StaleIndexAfterShrink | src/components/SlideContainer.js:163 | index 3 is valid for a four-slide deck and invalid once the player is deselected |
| SlideDeck.ClampedIndexShowsSlide | src/components/SlideContainer.js:163 | with the index clamped, every deck shows a slide |
| SlideDeck.ToRequest | src/components/SlideContainer.js:101-107 | player name only for player slides, team name only for team and over-by-over slides, venue name only for venue slides; opposition copied |
| SlideDeck.SlidesData | src/components/SlideContainer.js:101-107 | one request entry per slide, same length and order |
| SlideDeck.RequestCarriesSelectedPlayers | src/components/SlideContainer.js:101-107 | the request's player names are exactly the selected players, in selection order |
| SlideDeck.DownloadFilenameShape | src/components/SlideContainer.js:131-134 | with an opposition the name embeds a non-empty, white-space-free form of it (the opposition itself when it has no white space); without one it names only the date |
| SlideDeck.SlideContainer.constructor | src/components/SlideContainer.js:10-17 | the deck is built from the props, on slide 0, not generating, and a slide is shown |
| SlideDeck.SlideContainer.NextSlide | src/components/SlideContainer.js:84-86 | the index becomes the wrap-around successor and stays in range |
| SlideDeck.SlideContainer.PrevSlide | src/components/SlideContainer.js:88-90 | the index becomes the wrap-around predecessor and stays in range |
| SlideDeck.SlideContainer.GoToSlide | src/components/SlideContainer.js:92-94 | the index is set with no bound check |
| SlideDeck.SlideContainer.Rerender | src/components/SlideContainer.js:10-80 | as written: new props rebuild the deck and `currentSlide` is kept as it was |
| SlideDeck.SlideContainer.RerenderClamped | src/components/SlideContainer.js:163 | corrected: the index is clamped into the new deck, so a slide is always shown |
| SlideDeck.SlideContainer.DownloadPptx | src/components/SlideContainer.js:96-152 | the request is the deck mapped to request entries and carries the selected players; the file is named by the filename rule when the backend answers; generating ends false |
| BowlerTypeTable.MakeRow | src/components/BowlerTypeTable.js:17-31 | the label is formatted; strike rate is the detailed one if truthy, else the summary value, else 0; the other fields default to 0 |
| BowlerTypeTable.TableData | src/components/BowlerTypeTable.js:4-32 | no table iff data or either statistics object is missing; otherwise one row per `bowling_stats` key, in key order |
| BowlerTypeTable.Insert | src/components/BowlerTypeTable.js:37-38 | inserting into a strictly increasing list keeps it strictly increasing, adding exactly that value |
| BowlerTypeTable.UniqueSorted | src/components/BowlerTypeTable.js:37-38 | the distinct values, strictly increasing |
| BowlerTypeTable.CountAboveRank | src/components/BowlerTypeTable.js:60-61 | at most `k` distinct values exceed `v` iff `v` reaches the `(k+1)`-th largest |
| BowlerTypeTable.CountBelowRank | src/components/BowlerTypeTable.js:62 | at most `k` distinct values are below `v` iff `v` is at most the `(k+1)`-th smallest |
| BowlerTypeTable.HigherIsBetterRanks | src/components/BowlerTypeTable.js:40-67 | at most 2 distinct values: green iff nothing beats the value, never yellow; otherwise green iff at most one distinct value beats it, red iff two or more beat it and at most one is below |
| BowlerTypeTable.LowerIsBetterRanks | src/components/BowlerTypeTable.js:40-57 | the same ranking with the order reversed |
| BowlerTypeTable.ExtremesOfHigherIsBetter | src/components/BowlerTypeTable.js:35-68 | a column's maximum is green; its minimum is red once there are two distinct values |
| BowlerTypeTable.LowestOfLowerIsBetter | src/components/BowlerTypeTable.js:42-52 | a lower-is-better column's minimum is green |
| BowlerTypeTable.YellowIsBetween | src/components/BowlerTypeTable.js:49-67 | yellow only with more than 2 distinct values, strictly between the second-smallest and the second-largest |
| BowlerTypeTable.YellowNeedsFiveDistinct | src/components/BowlerTypeTable.js:49-67 | a column value can be yellow only when the column has at least five distinct values |
| BowlerTypeTable.HigherIsBetterMonotone | src/components/BowlerTypeTable.js:58-67 | a larger value never gets a worse colour |
| BowlerTypeTable.UniqueSortedOfNegated | src/components/BowlerTypeTable.js:37-38 | the distinct sorted values of the negated column are the negated, reversed distinct values |
| BowlerTypeTable.LowerIsBetterMirrors | src/components/BowlerTypeTable.js:40-67 | lower-is-better colour of `v` equals higher-is-better colour of `-v` in the negated column |
| BowlerTypeTable.ColumnHasGreen | src/components/BowlerTypeTable.js:35-68 | a non-empty column has a green value: its best one |
| BowlerTypeTable.EveryColumnHasGreen | src/components/BowlerTypeTable.js:70-74 | in a non-empty table every coloured column has a green cell |
| StrikeRateZones.FindZone | src/components/StrikeRateZones.js:34 | the first zone matching both bins, or none when no zone matches |
| StrikeRateZones.GetStrikeRate | src/components/StrikeRateZones.js:32-36 | 0 without data or without a matching zone, else the rounded rate of the first match |
| StrikeRateZones.AllStrikeRates | src/components/StrikeRateZones.js:57-60 | no rates without data, else every zone's rounded rate in zone order |
| StrikeRateZones.Positives | src/components/StrikeRateZones.js:43 | exactly the positive rates, each positive rate as often as in the input and no other value |
| StrikeRateZones.PositivesAppend | src/components/StrikeRateZones.js:43 | the filter of a concatenation is the concatenation of the filters, so the kept rates stay in input order |
| StrikeRateZones.PositivesKeepCountGreater | src/components/StrikeRateZones.js:43-44 | dropping the zero rates leaves the number of rates above any non-negative rate unchanged, so repeated rates still push a zone's rank down |
| StrikeRateZones.SortDesc | src/components/StrikeRateZones.js:43 | the same values, in descending order |
| StrikeRateZones.IndexOf | src/components/StrikeRateZones.js:44 | the first position of the value, or -1 iff absent |
| StrikeRateZones.IndexInDescending | src/components/StrikeRateZones.js:43-44 | in a descending list the first position of a value is the number of entries above it |
| StrikeRateZones.CountGreaterSort | src/components/StrikeRateZones.js:43 | sorting does not change how many rates beat a value |
| StrikeRateZones.RankIsCountGreater | src/components/StrikeRateZones.js:43-44 | the rank of a positive listed rate is the number of positive rates strictly greater |
| StrikeRateZones.ZoneColorByRank | src/components/StrikeRateZones.js:39-49 | 0 is gray; a positive listed rate is green iff its rank is below 6, yellow iff 6 to 11, red otherwise |
| StrikeRateZones.AbsentRateIsGreen | src/components/StrikeRateZones.js:43-46 | a non-zero rate not among the positive rates has index -1 and is green |
| StrikeRateZones.ZoneColorMonotone | src/components/StrikeRateZones.js:43-48 | between positive listed rates a higher rate never gets a worse colour |
| StrikeRateZones.Grid | src/components/StrikeRateZones.js:105-115 | 6 rows (bouncer to yorker) of 3 cells (off, line, leg) in that order, each with its bins' rate and its colour |
| StrikeRateZones.GridWithoutData | src/components/StrikeRateZones.js:33-40 | without data all eighteen cells are gray |
| WagonWheel.BaseAngle | src/components/WagonWheel.js:54-56 | a listed zone's angle, 0 for an unlisted name |
| WagonWheel.ShortZoneName | src/components/WagonWheel.js:101-119 | the listed short name, or the name itself when unlisted |
| WagonWheel.TablesAgree | src/components/WagonWheel.js:14-117 | both tables list the same fourteen zones, each once, and no short name is empty |
| WagonWheel.ColorBands | src/components/WagonWheel.js:43-48 | green iff the count exceeds 0.7 of the maximum, orange iff above 0.4 up to 0.7; more boundaries never give a worse colour |
| WagonWheel.BusiestZoneIsGreen | src/components/WagonWheel.js:32-48 | the zone with the most boundaries is green when it has any (red when every count is 0) |
| WagonWheel.AngleOffsetSpread | src/components/WagonWheel.js:61-65 | offsets lie in `[-10, 10)` and strictly increase along the zone |
| WagonWheel.ZoneLines | src/components/WagonWheel.js:54-76 | a zone gets `max(n, 0)` lines, line `i` at base plus offset `i`, radius 200, the zone's colour |
| WagonWheel.LineCount | src/components/WagonWheel.js:52-77 | there is one line per boundary, summed over zones |
| WagonWheel.BoundaryLines | src/components/WagonWheel.js:52-77 | the nested loop produces the zones' lines zone by zone in input order, one per boundary |
| WagonWheel.InsertIndex | src/components/WagonWheel.js:221-222 | inserting a later zone behind every zone with at least as many boundaries keeps the stable descending order |
| WagonWheel.SortIndices | src/components/WagonWheel.js:221-222 | the stable descending sort of the copy, as a permutation of positions |
| WagonWheel.TopZones | src/components/WagonWheel.js:221-223 | the top list has the smaller of 5 and the number of zones as its length, with entries taken from the sorted copy; the input is not changed |
| WagonWheel.TopZonesOrder | src/components/WagonWheel.js:221-223 | the top list holds distinct zones, non-increasing in boundaries, equal counts kept in input order |
| WagonWheel.TopZonesBusiest | src/components/WagonWheel.js:221-223 | no zone left out is busier than a listed one |
| WagonWheel.WheelLines | src/components/WagonWheel.js:4-77 | placeholder iff data is missing or empty, else one line per boundary |
| PitchMap.PositionOf | src/components/PitchMap.js:150 | found iff the lower-cased name is a table key, and then the tabulated point |
| PitchMap.PositionLookupIgnoresCase | src/components/PitchMap.js:150 | a name and its lower-case form find the same position |
| PitchMap.DotSizeRange | src/components/PitchMap.js:98-105 | for counts up to a positive maximum the size lies in `[4, 16]`, is 16 at the maximum and grows with the count |
| PitchMap.DotColorBands | src/components/PitchMap.js:108-115 | red iff at least 0.8 of the maximum, the maximum is red, and more dismissals never give a cooler colour |
| PitchMap.Dots | src/components/PitchMap.js:4-159 | placeholder iff data is missing or empty; otherwise one dot per dismissal with its looked-up position, size and colour |
| PitchMap.BusiestLocationDot | src/components/PitchMap.js:98-115 | the most frequent positive-count location is drawn at size 16 and red |
| OverByOver.FirstSeenMembers | src/components/OverByOverSlide.js:91-99 | the `Set` holds exactly the values added |
| OverByOver.FirstSeenOrder | src/components/OverByOverSlide.js:91-99 | no value repeats, and values come in order of first appearance |
| OverByOver.AddSpell | src/components/OverByOverSlide.js:64-65 | one assignment keeps the `total` key present |
| OverByOver.RowAfterKeys | src/components/OverByOverSlide.js:57-66 | a row's keys are its initial keys, then each bowler name where it first appears |
| OverByOver.RowAfterWellFormed | src/components/OverByOverSlide.js:63-66 | the listed keys stay exactly the keys with a value, each listed once |
| OverByOver.RowAfterTotal | src/components/OverByOverSlide.js:63-66 | `total` ends as its start plus every spell's overs |
| OverByOver.RowAfterOther | src/components/OverByOverSlide.js:63-66 | any other key holds the last value assigned to it, or its starting value |
| OverByOver.OverRowKeys | src/components/OverByOverSlide.js:57-66 | keys are `over`, `total`, then the bowlers in order of first appearance |
| OverByOver.OverRowTotal | src/components/OverByOverSlide.js:57-66 | `total` sums every spell of the over, repeated names included |
| OverByOver.OverRowBowlers | src/components/OverByOverSlide.js:57-66 | `over` is copied; a repeated bowler name keeps its last value; no other key exists |
| OverByOver.TransformOver | src/components/OverByOverSlide.js:56-69 | the `forEach` builds the row whose keys and total are stated above |
| OverByOver.RowAfterNextSpell | src/components/OverByOverSlide.js:62-66 | handling one more bowler adds exactly that bowler's spell to the row built so far |
| OverByOver.TransformOvers | src/components/OverByOverSlide.js:56-69 | one row per over, in input order |
| OverByOver.AllBowlers | src/components/OverByOverSlide.js:90-100 | every key except `over` and `total`, once each, in order of first appearance across rows |
| OverByOver.BowlerColors | src/components/OverByOverSlide.js:14-35 | colours repeat every 20 bowlers and the first 20 bowlers get distinct colours |
| OverByOver.PacerSpinnerRows | src/components/OverByOverSlide.js:72-77 | one row per over, in order, copying over, pacer, spinner and total |
| OverByOver.OverWord | src/components/OverByOverSlide.js:157-161 | plural iff the value exceeds 1 |
| OverByOver.ActiveBowlers | src/components/OverByOverSlide.js:105 | exactly the payload entries with a positive value, never more entries than the payload |
| OverByOver.ActiveBowlersAppend | src/components/OverByOverSlide.js:105 | the filter of a concatenation is the concatenation of the filters, so the tooltip keeps the payload order |
| OverByOver.ActiveBowlersCounts | src/components/OverByOverSlide.js:105 | an entry with a positive value appears as often as in the payload; any other entry never |
| OverByOver.ActiveBowlersAllPositive | src/components/OverByOverSlide.js:105 | a payload of positive values is listed whole and in order |
| OverByOver.TooltipTotal | src/components/OverByOverSlide.js:149-150 | a total is shown iff the tooltip is active with a non-empty payload, and it is the sum of the values |
| OverByOver.TooltipTotalBounds | src/components/OverByOverSlide.js:150 | the total lies between the count times the smallest and the count times the largest value |
| OverByOver.TooltipTotalOfPair | src/components/OverByOverSlide.js:150 | with a pacer and a spinner entry the total is their sum |
| NbaInsights.Best | src/components/NBASlide.js:201-206 | `Math.max` of the four quarters: one of them and no smaller than any |
| NbaInsights.Worst | src/components/NBASlide.js:240-245 | `Math.min` of the four quarters: one of them and no larger than any |
| NbaInsights.FirstWithExtreme | src/components/NBASlide.js:130-138 | the `===` chain picks a quarter with the value, none earlier having it |
| NbaInsights.BestQuarter | src/components/NBASlide.js:129-138 | the fallback names the first quarter, in Q1 to Q4 order, with the best value |
| NbaInsights.WorstQuarter | src/components/NBASlide.js:156-167 | the fallback names the first quarter, in Q1 to Q4 order, with the worst value |
| NbaInsights.CollectTeamStrengths | src/components/NBASlide.js:113-139 | the pushes produce the strengths whose rule fires, in rule order, else the best quarter |
| NbaInsights.CollectTeamWeaknesses | src/components/NBASlide.js:141-167 | the pushes produce the weaknesses whose rule fires, in rule order, else the worst quarter |
| NbaInsights.GenerateTeamInsights | src/components/NBASlide.js:85-170 | null stats give three empty lists; otherwise the insights the rules call for |
| NbaInsights.TeamInsightCounts | src/components/NBASlide.js:95-167 | exactly 3 notes, 1 to 4 strengths and 1 to 4 weaknesses |
| NbaInsights.TeamStrengthFallback | src/components/NBASlide.js:113-139 | the quarter strength appears iff no strength rule fired, and it names the first best quarter |
| NbaInsights.TeamWeaknessFallback | src/components/NBASlide.js:141-167 | the quarter weakness appears iff no weakness rule fired, and it names the first worst quarter |
| NbaInsights.CollectPlayerStrengths | src/components/NBASlide.js:200-237 | the pushes produce the strengths whose rule fires, in rule order, else the best quarter |
| NbaInsights.CollectPlayerWeaknesses | src/components/NBASlide.js:239-274 | the pushes produce the weaknesses whose rule fires, in rule order, else the worst quarter |
| NbaInsights.GeneratePlayerInsights | src/components/NBASlide.js:172-277 | null stats give three empty lists; otherwise the insights the rules call for |
| NbaInsights.PlayerInsightCounts | src/components/NBASlide.js:182-274 | exactly 3 notes, the second being recent form iff last-5 points are positive; 1 to 4 strengths and 1 to 4 weaknesses |
| NbaInsights.ScorerStrengths | src/components/NBASlide.js:201-212 | at most one scorer strength; Q1 iff Q1 holds the maximum and it exceeds 3; Q4 iff Q4 does and Q1 does not |
| NbaInsights.ScorerRulesFire | src/components/NBASlide.js:208-212 | each scorer strength is listed exactly when its own branch fires |
| NbaInsights.PlayerStrengthFallback | src/components/NBASlide.js:200-237 | the quarter strength appears iff no strength rule fired, and it names the first best quarter |
| NbaInsights.PlayerWeaknessFallback | src/components/NBASlide.js:239-274 | the quarter weakness appears iff no weakness rule fired, and it names the first worst quarter |
| VenueTables.Loaded | src/components/VenueSlide.js:20-22 | a missing toss or situation list defaults to empty, a present one is kept |
| VenueTables.WinPercentage | src/components/VenueSlide.js:76-80 | with decided games, percentage times decided games is 100 times wins; otherwise 0; missing counts are 0 |
| VenueTables.SituationRowOf | src/components/VenueSlide.js:76-80 | a row copies the situation and no-result count, defaults missing wins and losses to 0 and carries the percentage |
| VenueTables.SituationTable | src/components/VenueSlide.js:76-80 | one row per situation, in order, with defaults and its percentage |
| VenueTables.NoResultIgnored | src/components/VenueSlide.js:78-80 | the no-result count never changes the percentage |
| VenueTables.PercentageInRange | src/components/VenueSlide.js:79-80 | with non-negative counts the percentage lies in `[0, 100]`: 100 without losses, 0 without wins |
| VenueTables.MissingCountsAsZero | src/components/VenueSlide.js:77-78 | a missing count and a zero count give the same row |
| VenueTables.TossColorRules | src/components/VenueSlide.js:114-118 | batted green iff larger, red iff smaller, gray iff equal; bowled is the mirror |
| VenueTables.OneGreenOneRed | src/components/VenueSlide.js:114-118 | unequal counts colour one cell green and the other red; equal counts make both gray |
| VenueTables.TossTable | src/components/VenueSlide.js:114-118 | one row per toss entry, in order, with both colours |
| ScatterPlot.PointOf | src/components/ScatterPlot.js:10-15 | averages or strike rates by metric; selected iff the name matches the selected player (player type) or team (otherwise) |
| ScatterPlot.PlotData | src/components/ScatterPlot.js:7-16 | no data gives no points; otherwise one point per item, in order |
| ScatterPlot.AtMostOneSelected | src/components/ScatterPlot.js:14 | with distinct names at most one point is selected |
| ScatterPlot.Mean | src/components/ScatterPlot.js:21-22 | NaN iff there are no points; otherwise the mean times the count is the sum |
| ScatterPlot.MeanBounds | src/components/ScatterPlot.js:21-22 | the mean of values between two bounds lies between them |
| ScatterPlot.AxisConfigOf | src/components/ScatterPlot.js:25-68 | team configs have fixed reference lines, player configs use the means |
| ScatterPlot.TicksFit | src/components/ScatterPlot.js:31-62 | ticks with a positive step rise and stay within the domain |
| ScatterPlot.AxisTicksFitDomains | src/components/ScatterPlot.js:25-68 | every table entry's ticks rise and lie within its domain |
| ScatterPlot.TickLiterals | src/components/ScatterPlot.js:31-62 | the tick lists are exactly the table's literals |
| ScatterPlot.PlayerLinesAreMeans | src/components/ScatterPlot.js:21-64 | player reference lines are the means of the plotted coordinates, missing ones counting as 0, and NaN without points |
| RadarChart.ShownKeys | src/components/RadarChart.js:14-15 | exactly the keys whose lower-case form does not contain "right arm pace", never more than the keys |
| RadarChart.ShownKeysNoneExcluded | src/components/RadarChart.js:14-15 | with no excluded type every key is kept, unchanged |
| RadarChart.ValueOrZero | src/components/RadarChart.js:18-19 | a missing key gives 0 |
| RadarChart.RadarData | src/components/RadarChart.js:5-20 | placeholder iff data or either object is missing; otherwise one row per shown key, in order, with the formatted label and missing or zero values read as 0 |
| RadarChart.SpokesAreShownTypes | src/components/RadarChart.js:14-17 | every spoke comes from a non-excluded key of the overall averages, with its formatted label |
| ScreenshotExport.RenderSlide | src/components/ScreenshotModal.js:49-67 | player, team, over-by-over and venue slides mount their component on the slide's data; the matchup slide gets the unknown placeholder |
| ScreenshotExport.DeckSlideOf | src/components/ScreenshotModal.js:140-194 | the image with label `i+1 / n` after a capture, an error slide naming the title after a failure |
| ScreenshotExport.DeckOf | src/components/ScreenshotModal.js:104-195 | one deck slide per input slide, in input order |
| ScreenshotExport.FailuresStayLocal | src/components/ScreenshotModal.js:104-195 | exactly the failed captures become error slides; the others keep their images |
| ScreenshotExport.LabelsDistinct | src/components/ScreenshotModal.js:157 | two slides' corner labels differ |
| ScreenshotExport.ProgressBefore | src/components/ScreenshotModal.js:106 | progress before a slide lies in `[0, 80)` |
| ScreenshotExport.ProgressRises | src/components/ScreenshotModal.js:106 | progress rises from slide to slide |
| ScreenshotExport.Schedule | src/components/ScreenshotModal.js:106 | the progress values of the first `k` slides, in order |
| ScreenshotExport.Steps | src/components/ScreenshotModal.js:105 | the step texts of the first `k` slides, in order |
| ScreenshotExport.ProgressTraceRises | src/components/ScreenshotModal.js:77-226 | the progress shown never decreases until the final reset to 0 |
| ScreenshotExport.ExportFilename | src/components/ScreenshotModal.js:206-207 | with an opposition, the same name as the container's download; without one, an empty opposition part between two underscores |
| ScreenshotExport.Exporter.constructor | src/components/ScreenshotModal.js:18-20 | not generating, progress 0, empty step |
| ScreenshotExport.Exporter.CaptureSlides | src/components/ScreenshotModal.js:104-195 | the loop builds the deck of the captures and shows each slide's step and progress, in order |
| ScreenshotExport.Exporter.Finish | src/components/ScreenshotModal.js:202-228 | 90, then 100 on a successful write; the success or failure alert; the `finally` reset |
| ScreenshotExport.Exporter.Run | src/components/ScreenshotModal.js:76-228 | a non-empty batch: deck, saved name, alert and the full progress and step traces |
| ScreenshotExport.Exporter.Generate | src/components/ScreenshotModal.js:70-228 | no or empty slides: only the alert, state unchanged; otherwise the titled deck with one slide per input, saved when the write succeeds, state reset |
| AnalystComments.StorageKey | src/components/AnalystComments.js:9-19 | the key is the prefix followed by the slide id |
| AnalystComments.StorageKeyInjective | src/components/AnalystComments.js:9-19 | distinct slide ids give distinct keys |
| AnalystComments.Loaded | src/components/AnalystComments.js:8-13 | a non-empty saved value replaces the text; otherwise the text stays as it was |
| AnalystComments.SavedCommentReloads | src/components/AnalystComments.js:8-20 | a saved non-empty comment comes back when its slide loads, and other slides are unaffected |
| AnalystComments.CommentBox.constructor | src/components/AnalystComments.js:5-13 | mounting starts empty and loads the slide's saved comment |
| AnalystComments.CommentBox.SlideIdChanged | src/components/AnalystComments.js:8-13 | on a new slide id, saved comments replace the text, otherwise the previous slide's text stays |
| AnalystComments.CommentBox.HandleCommentsChange | src/components/AnalystComments.js:16-20 | the text is shown and stored under this slide's key; every other key is unchanged |
| ApiConfig.Environment | src/config/api.js:4 | the environment setting, defaulting to `development` |
| ApiConfig.ApiBaseUrl | src/config/api.js:2-24 | never empty; a non-empty explicit URL always wins; the result is one of the four candidates |
| ApiConfig.BaseUrlIsFirstApplicableRule | src/config/api.js:6-23 | the URL is that of the first applicable rule: explicit, Railway in production, local host, fallback |
| ApiConfig.RailwayOnlyInProduction | src/config/api.js:12-14 | the Railway URL is chosen iff no explicit URL is set and it is set in production |
| ApiConfig.MakeConfig | src/config/api.js:29-35 | the base URL is the resolved one and the timeout is 30000 ms |
| JsText.FormatLabelShape | src/components/BowlerTypeTable.js:23 | the label is the upper-cased first character followed by the lower-cased, trimmed rest |
| JsText.CapitalReplaceAfterLowerIsNoOp | src/components/BowlerTypeTable.js:23 | the capital-letter replace after lower-casing changes nothing |
| JsText.FormatLabelIdempotent | src/components/RadarChart.js:17 | formatting a formatted label changes nothing |
| JsText.ReplaceSpaceRuns | src/components/SlideContainer.js:133 | the white-space-run replacement leaves no white space |
| JsNumbers.Round | src/components/StrikeRateZones.js:35 | `Math.round` is within one half of its argument |
| JsNumbers.Rem | src/components/SlideContainer.js:85-89 | the JavaScript remainder: the dividend is the truncated quotient times the divisor plus the remainder, which takes the sign of the dividend and is smaller than the divisor |
| JsNumbers.Div | src/components/PitchMap.js:104-109 | division by zero gives NaN for 0 and an infinity otherwise; a finite quotient times the divisor is the dividend |
| JsNumbers.OrDefault | src/components/BowlerTypeTable.js:18-29 | `x` or its default: a missing or zero value gives the default |
| JsNumbers.Max | src/components/WagonWheel.js:32 | `Math.max` over a non-empty list is a member that no entry exceeds |

## Left out

- Network I/O: every `axios` and `fetch` call, the loading and error flags of the slides, and `checkApiHealth` (src/config/api.js:38-46). Fetch results are parameters.
- Rendering: JSX layout, styles and chart components. The player, team, sidebar and wrapper components, `ExportSlide` and `index.js` are not part of this model, because they hold no rules of their own.
- The capture and deck libraries (html2canvas, pptxgenjs, ReactDOM rendering into a hidden container) and their fixed delays. Each capture is an outcome given to `Generate`.
- SlideDeck.SlideContainer.DownloadPptx: the success and error `alert`s (src/components/SlideContainer.js:142-147), including the error message built from the response status, are not part of the state; only the file name on success and the cleared generating flag are.
- The success alert's one-second `setTimeout` and the `onClose` call in the export modal. The alert is recorded at once.
- `ScreenshotExport.ExportFilename`: `selectedOpposition` is a string. The `?.` case of a null opposition, which would print `undefined`, is not modelled.
- The wagon-wheel trigonometric projection and every `toFixed` rendering. Angles and values are modelled, not screen coordinates or formatted strings.
- The random position for an unknown pitch-map fielding position. `PitchMap.Dots` leaves such a dot without a position.
- The hard-coded venue statistics and the Gemini key default. They are constants, not rules.
- The wording of the NBA insight sentences. Each insight is a datatype constructor naming the rule that produced it.
- Case mapping is ASCII only: `toLowerCase` and `toUpperCase` of other characters are left unchanged.
- Object keys that are integer-like, which JavaScript lists first, and inherited prototype keys (`constructor`, `toString`) are not modelled. Keys keep insertion order.
- NaN or non-numeric property values, beyond the NaN that division produces.
- Console logging in every component.

## Findings

| source | as written | input that shows it | evidently intended | confidence | as-written member | corrected member |
|---|---|---|---|---|---|---|
| src/components/SlideContainer.js:163 | `currentSlide` (line 16) keeps its value when the props shrink the deck, so `slides[currentSlide]` is undefined and reading its `title` fails | Render SlideContainer with one player and opposition "T" (four slides) and move to the last slide (index 3). Then give it new props with no player: the deck has three slides and index 3 has no slide. In the shipped app the props come from App.js, and the sidebar cannot deliver this change: Sidebar.js:11-14 reads `onTeamChange`, `onOppositionChange`, `onVenueChange` and `onPlayerSelection`, but App.js:115-117 passes `onTeamSelect`, `onPlayerSelect` and `onVenueSelect` | the index is kept inside the new deck | not executed | SlideDeck.StaleIndexAfterShrink, SlideDeck.SlideContainer.Rerender | SlideDeck.ClampedIndexShowsSlide, SlideDeck.SlideContainer.RerenderClamped |
