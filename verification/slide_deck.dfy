/**
 * The slide deck of the dashboard (src/components/SlideContainer.js): the
 * ordered list of slide descriptors built from the selection, wrap-around
 * navigation over it, the request sent to the backend for a deck export,
 * and the name of the downloaded file.
 */
module SlideDeck {
  import opened Wrappers
  import opened JsNumbers
  import opened JsText

  datatype SlideType = Player | Team | OverByOver | Venue | Nba

  /** A slide descriptor `{type, data, title, index}`. */
  datatype Slide = Slide(kind: SlideType, data: string, title: string, index: int)

  /** The fixed basketball matchup that always closes the deck. */
  const NbaMatchup: string := "Lakers vs Mavericks"

  function PlayerSlide(player: string, index: int): Slide {
    Slide(Player, player, "Player Analysis: " + player, index)
  }

  function TeamSlide(team: string, index: int): Slide {
    Slide(Team, team, "Opposition Analysis: " + team, index)
  }

  function OverByOverSlide(team: string, index: int): Slide {
    Slide(OverByOver, team, "Over-by-Over Analysis: " + team, index)
  }

  function VenueSlide(venue: string, index: int): Slide {
    Slide(Venue, venue, "Venue Analysis: " + venue, index)
  }

  function NbaSlide(index: int): Slide {
    Slide(Nba, NbaMatchup, "NBA Matchup: Lakers vs Mavericks", index)
  }

  function PlayerSlides(players: seq<string>): (r: seq<Slide>)
    ensures |r| == |players|
    ensures forall i :: 0 <= i < |players| ==> r[i] == PlayerSlide(players[i], i + 1)
  {
    seq(|players|, i requires 0 <= i < |players| => PlayerSlide(players[i], i + 1))
  }

  function OppositionSlides(opposition: string, before: nat): seq<Slide> {
    if opposition != "" then [TeamSlide(opposition, before + 1), OverByOverSlide(opposition, before + 2)] else []
  }

  function VenueSlides(venue: string, before: nat): seq<Slide> {
    if venue != "" then [VenueSlide(venue, before + 1)] else []
  }

  /**
   * The deck a selection calls for: the players in selection order, the
   * opposition's team and over-by-over slides, the venue slide, and the
   * matchup slide last; an empty string counts as "not selected".
   */
  function Deck(players: seq<string>, opposition: string, venue: string): seq<Slide> {
    var ps := PlayerSlides(players);
    var os := OppositionSlides(opposition, |ps|);
    var vs := VenueSlides(venue, |ps| + |os|);
    ps + os + vs + [NbaSlide(|ps| + |os| + |vs| + 1)]
  }

  /** The successive `slides.push` calls of the component body. */
  method BuildSlides(players: seq<string>, opposition: string, venue: string) returns (slides: seq<Slide>)
    ensures slides == Deck(players, opposition, venue)
  {
    slides := [];
    var i := 0;
    while i < |players|
      invariant 0 <= i <= |players|
      invariant slides == PlayerSlides(players[..i])
    {
      slides := slides + [PlayerSlide(players[i], i + 1)];
      i := i + 1;
    }
    assert players[..i] == players;
    if opposition != "" {
      slides := slides + [TeamSlide(opposition, |slides| + 1)];
    }
    if opposition != "" {
      slides := slides + [OverByOverSlide(opposition, |slides| + 1)];
    }
    if venue != "" {
      slides := slides + [VenueSlide(venue, |slides| + 1)];
    }
    slides := slides + [NbaSlide(|slides| + 1)];
  }

  /** The deck has one slide per player, two for an opposition, one for a venue and the matchup slide. */
  lemma DeckCount(players: seq<string>, opposition: string, venue: string)
    ensures |Deck(players, opposition, venue)|
         == |players| + (if opposition != "" then 2 else 0) + (if venue != "" then 1 else 0) + 1
    ensures |Deck(players, opposition, venue)| >= 1
  {
  }

  /** Every slide's `index` is its position plus one, and the matchup slide is last. */
  lemma DeckIndexes(players: seq<string>, opposition: string, venue: string)
    ensures var d := Deck(players, opposition, venue);
      && (forall i :: 0 <= i < |d| ==> d[i].index == i + 1)
      && d[|d| - 1].kind == Nba
      && (forall i :: 0 <= i < |d| - 1 ==> d[i].kind != Nba)
  {
    var d := Deck(players, opposition, venue);
    var ps := PlayerSlides(players);
    var os := OppositionSlides(opposition, |ps|);
    var vs := VenueSlides(venue, |ps| + |os|);
    forall i | 0 <= i < |d| ensures d[i].index == i + 1 && (i < |d| - 1 ==> d[i].kind != Nba) {
      if i < |ps| {
        assert d[i] == ps[i];
      } else if i < |ps| + |os| {
        assert d[i] == os[i - |ps|];
      } else if i < |ps| + |os| + |vs| {
        assert d[i] == vs[i - |ps| - |os|];
      }
    }
  }

  /** Selected players come first, in selection order; then the opposition and venue slides. */
  lemma DeckOrder(players: seq<string>, opposition: string, venue: string)
    ensures var d := Deck(players, opposition, venue);
      && (forall i :: 0 <= i < |players| ==> d[i].kind == Player && d[i].data == players[i])
      && (opposition != "" ==>
            d[|players|].kind == Team && d[|players|].data == opposition
            && d[|players| + 1].kind == OverByOver && d[|players| + 1].data == opposition)
      && (venue != "" ==> var v := |players| + (if opposition != "" then 2 else 0);
                          d[v].kind == Venue && d[v].data == venue)
      && (forall i :: 0 <= i < |d| ==> (d[i].kind == Player <==> i < |players|))
  {
    var d := Deck(players, opposition, venue);
    var ps := PlayerSlides(players);
    var os := OppositionSlides(opposition, |ps|);
    var vs := VenueSlides(venue, |ps| + |os|);
    forall i | 0 <= i < |d| ensures d[i].kind == Player <==> i < |players| {
      if i < |ps| {
        assert d[i] == ps[i];
      } else if i < |ps| + |os| {
        assert d[i] == os[i - |ps|];
      } else if i < |ps| + |os| + |vs| {
        assert d[i] == vs[i - |ps| - |os|];
      }
    }
    if venue != "" {
      assert d[|ps| + |os|] == vs[0];
    }
  }

  predicate Distinct<T(==)>(s: seq<T>) {
    forall i, j :: 0 <= i < j < |s| ==> s[i] != s[j]
  }

  /** With pairwise distinct players, no two slides share a `(type, data)` pair. */
  lemma DeckHasNoDuplicates(players: seq<string>, opposition: string, venue: string)
    requires Distinct(players)
    ensures var d := Deck(players, opposition, venue);
      forall i, j :: 0 <= i < j < |d| ==> (d[i].kind, d[i].data) != (d[j].kind, d[j].data)
  {
    var d := Deck(players, opposition, venue);
    var ps := PlayerSlides(players);
    var os := OppositionSlides(opposition, |ps|);
    var vs := VenueSlides(venue, |ps| + |os|);
    DeckIndexes(players, opposition, venue);
    DeckOrder(players, opposition, venue);
    forall i, j | 0 <= i < j < |d| ensures (d[i].kind, d[i].data) != (d[j].kind, d[j].data) {
      if j < |ps| {
        assert d[i].data == players[i] && d[j].data == players[j];
      } else if i >= |ps| && j < |ps| + |os| {
        assert d[i] == os[i - |ps|] && d[j] == os[j - |ps|];
      } else if i >= |ps| + |os| && j < |ps| + |os| + |vs| {
        assert false;
      } else if i >= |ps| && i < |ps| + |os| && j < |ps| + |os| + |vs| {
        assert d[i] == os[i - |ps|] && d[j] == vs[j - |ps| - |os|];
      }
    }
  }

  /** The component's "No Data Selected" branch can never be taken: the deck is never empty. */
  lemma NoDataBranchUnreachable(players: seq<string>, opposition: string, venue: string)
    ensures Deck(players, opposition, venue) != []
  {
    DeckCount(players, opposition, venue);
  }

  /** Selection `{P1, P2}`, opposition `Team A`, venue `Venue X` gives six slides in the documented order. */
  lemma ScenarioDeck()
    ensures var d := Deck(["P1", "P2"], "Team A", "Venue X");
      && |d| == 6
      && (d[0].kind, d[0].data) == (Player, "P1")
      && (d[1].kind, d[1].data) == (Player, "P2")
      && (d[2].kind, d[2].data) == (Team, "Team A")
      && (d[3].kind, d[3].data) == (OverByOver, "Team A")
      && (d[4].kind, d[4].data) == (Venue, "Venue X")
      && (d[5].kind, d[5].data) == (Nba, NbaMatchup)
  {
  }

  // ---------------------------------------------------------------- navigation

  /** The `nextSlide` updater: `(prev + 1) % totalSlides`. */
  function NextIndex(prev: int, total: int): int
    requires total > 0
  {
    Rem(prev + 1, total)
  }

  /** The `prevSlide` updater: `(prev - 1 + totalSlides) % totalSlides`. */
  function PrevIndex(prev: int, total: int): int
    requires total > 0
  {
    Rem(prev - 1 + total, total)
  }

  /** From a position inside the deck both buttons stay inside it, wrapping at the ends. */
  lemma NavigationInRange(prev: int, total: int)
    requires 0 <= prev < total
    ensures 0 <= NextIndex(prev, total) < total
    ensures 0 <= PrevIndex(prev, total) < total
    ensures NextIndex(prev, total) == if prev == total - 1 then 0 else prev + 1
    ensures PrevIndex(prev, total) == if prev == 0 then total - 1 else prev - 1
  {
    if prev == total - 1 {
      ModSelf(total);
    } else {
      ModBelow(prev + 1, total);
    }
    if prev == 0 {
      ModBelow(total - 1, total);
    } else {
      ModAbove(prev - 1 + total, total);
    }
  }

  lemma ModBelow(a: int, m: int)
    requires 0 <= a < m
    ensures a % m == a
  {
  }

  lemma ModSelf(m: int)
    requires m > 0
    ensures m % m == 0
  {
  }

  lemma ModAbove(a: int, m: int)
    requires 0 < m <= a < m + m
    ensures a % m == a - m
  {
    var q, r := a / m, a % m;
    assert a == q * m + r && 0 <= r < m;
  }

  /** Previous undoes Next and Next undoes Previous. */
  lemma NextPrevInverse(prev: int, total: int)
    requires 0 <= prev < total
    ensures PrevIndex(NextIndex(prev, total), total) == prev
    ensures NextIndex(PrevIndex(prev, total), total) == prev
  {
    NavigationInRange(prev, total);
    NavigationInRange(NextIndex(prev, total), total);
    NavigationInRange(PrevIndex(prev, total), total);
  }

  /** Keeping an index inside a deck of `total` slides (used by the corrected re-render). */
  function ClampIndex(i: int, total: int): (r: int)
    requires total > 0
    ensures 0 <= r < total
    ensures 0 <= i < total ==> r == i
    ensures i >= total ==> r == total - 1
  {
    if i < 0 then 0 else if i >= total then total - 1 else i
  }

  /** The slide the view shows at `current`; None where `slides[currentSlide]` is undefined. */
  function SlideAt(slides: seq<Slide>, current: int): (r: Option<Slide>)
    ensures r.Some? <==> 0 <= current < |slides|
  {
    if 0 <= current < |slides| then Some(slides[current]) else None
  }

  /**
   * As written, a re-render after the deck shrinks keeps `currentSlide`: on
   * the matchup slide of a four-slide deck, deselecting the one player leaves
   * the index past the end and `currentSlideData.title` reads `undefined`.
   */
  lemma StaleIndexAfterShrink()
    ensures |Deck(["P1"], "T", "")| == 4 && SlideAt(Deck(["P1"], "T", ""), 3).Some?
    ensures SlideAt(Deck([], "T", ""), 3).None?
  {
  }

  /** With the index clamped, every deck has a slide to show. */
  lemma ClampedIndexShowsSlide(players: seq<string>, opposition: string, venue: string, current: int)
    ensures var d := Deck(players, opposition, venue);
      |d| > 0 && SlideAt(d, ClampIndex(current, |d|)).Some?
  {
    NoDataBranchUnreachable(players, opposition, venue);
  }

  // ---------------------------------------------------------------- export request

  /** One entry of `slidesData` for the screenshot endpoint; None is JSON `null`. */
  datatype SlideRequest = SlideRequest(
    kind: SlideType,
    playerName: Option<string>,
    teamName: Option<string>,
    venueName: Option<string>,
    opposition: string)

  function ToRequest(s: Slide, opposition: string): (r: SlideRequest)
    ensures r.kind == s.kind && r.opposition == opposition
    ensures r.playerName.Some? <==> s.kind == Player
    ensures r.teamName.Some? <==> s.kind == Team || s.kind == OverByOver
    ensures r.venueName.Some? <==> s.kind == Venue
    ensures r.playerName.Some? ==> r.playerName.value == s.data
    ensures r.teamName.Some? ==> r.teamName.value == s.data
    ensures r.venueName.Some? ==> r.venueName.value == s.data
  {
    SlideRequest(
      s.kind,
      if s.kind == Player then Some(s.data) else None,
      if s.kind == Team || s.kind == OverByOver then Some(s.data) else None,
      if s.kind == Venue then Some(s.data) else None,
      opposition)
  }

  /** `slides.map(...)`: one request entry per slide, in deck order. */
  function SlidesData(slides: seq<Slide>, opposition: string): (r: seq<SlideRequest>)
    ensures |r| == |slides|
    ensures forall i :: 0 <= i < |slides| ==> r[i] == ToRequest(slides[i], opposition)
  {
    seq(|slides|, i requires 0 <= i < |slides| => ToRequest(slides[i], opposition))
  }

  /** The player names a request carries, in order. */
  function RequestedPlayers(r: seq<SlideRequest>): seq<string> {
    if r == [] then []
    else (if r[0].playerName.Some? then [r[0].playerName.value] else []) + RequestedPlayers(r[1..])
  }

  lemma {:induction false} RequestedPlayersAppend(a: seq<SlideRequest>, b: seq<SlideRequest>)
    ensures RequestedPlayers(a + b) == RequestedPlayers(a) + RequestedPlayers(b)
  {
    if a == [] {
      assert a + b == b;
    } else {
      assert (a + b)[1..] == a[1..] + b;
      RequestedPlayersAppend(a[1..], b);
    }
  }

  lemma {:induction false} RequestedPlayersOfPlayerSlides(players: seq<string>, opposition: string)
    ensures RequestedPlayers(SlidesData(PlayerSlides(players), opposition)) == players
  {
    if players != [] {
      var r := SlidesData(PlayerSlides(players), opposition);
      var n := |players| - 1;
      assert r == SlidesData(PlayerSlides(players[..n]), opposition) + [r[n]];
      RequestedPlayersAppend(SlidesData(PlayerSlides(players[..n]), opposition), [r[n]]);
      RequestedPlayersOfPlayerSlides(players[..n], opposition);
      assert players == players[..n] + [players[n]];
    }
  }

  lemma {:induction false} NoRequestedPlayers(r: seq<SlideRequest>)
    requires forall i :: 0 <= i < |r| ==> r[i].playerName.None?
    ensures RequestedPlayers(r) == []
  {
    if r != [] {
      NoRequestedPlayers(r[1..]);
    }
  }

  /** The backend is asked for exactly the selected players, in selection order. */
  lemma RequestCarriesSelectedPlayers(players: seq<string>, opposition: string, venue: string)
    ensures RequestedPlayers(SlidesData(Deck(players, opposition, venue), opposition)) == players
  {
    var ps := PlayerSlides(players);
    var os := OppositionSlides(opposition, |ps|);
    var vs := VenueSlides(venue, |ps| + |os|);
    var last := [NbaSlide(|ps| + |os| + |vs| + 1)];
    var rest := os + vs + last;
    assert Deck(players, opposition, venue) == ps + os + vs + last;
    Assoc(ps, os, vs);
    Assoc(ps, os + vs, last);
    SlidesDataAppend(ps, rest, opposition);
    RequestedPlayersAppend(SlidesData(ps, opposition), SlidesData(rest, opposition));
    RequestedPlayersOfPlayerSlides(players, opposition);
    var rd := SlidesData(rest, opposition);
    forall i | 0 <= i < |rd| ensures rd[i].playerName.None? {
      assert rest[i].kind != Player;
    }
    NoRequestedPlayers(rd);
  }

  lemma SlidesDataAppend(a: seq<Slide>, b: seq<Slide>, opposition: string)
    ensures SlidesData(a + b, opposition) == SlidesData(a, opposition) + SlidesData(b, opposition)
  {
  }

  // ---------------------------------------------------------------- file name

  const FilePrefix: string := "IPL_Opposition_Analysis_"

  /** The name of the downloaded deck; the opposition's white-space runs become `_`. */
  function DownloadFilename(opposition: string, date: string): string {
    if opposition != "" then FilePrefix + ReplaceSpaceRuns(opposition, "_") + "_" + date + ".pptx"
    else FilePrefix + date + ".pptx"
  }

  lemma {:induction false} ReplaceSpaceRunsNonEmpty(s: string, rep: string)
    requires NoSpace(rep) && rep != []
    ensures s != [] ==> ReplaceSpaceRuns(s, rep) != []
  {
  }

  /** With an opposition the name embeds a non-empty, white-space-free form of it; without one it names only the date. */
  lemma DownloadFilenameShape(opposition: string, date: string)
    ensures opposition == "" ==> DownloadFilename(opposition, date) == FilePrefix + date + ".pptx"
    ensures opposition != "" ==>
      exists mid :: mid != "" && NoSpace(mid) && DownloadFilename(opposition, date) == FilePrefix + mid + "_" + date + ".pptx"
    ensures opposition != "" && NoSpace(opposition) ==>
      DownloadFilename(opposition, date) == FilePrefix + opposition + "_" + date + ".pptx"
  {
    if opposition != "" {
      ReplaceSpaceRunsNonEmpty(opposition, "_");
      var mid := ReplaceSpaceRuns(opposition, "_");
      assert DownloadFilename(opposition, date) == FilePrefix + mid + "_" + date + ".pptx";
      if NoSpace(opposition) {
        ReplaceSpaceRunsNoSpace(opposition, "_");
      }
    }
  }

  // ---------------------------------------------------------------- component state

  /** The component's state: its props, the deck derived from them, `currentSlide` and `isGenerating`. */
  class SlideContainer {
    var players: seq<string>
    var opposition: string
    var venue: string
    var slides: seq<Slide>
    var currentSlide: int
    var isGenerating: bool

    ghost predicate Valid()
      reads this
    {
      slides == Deck(players, opposition, venue)
    }

    /** The slide on screen, None when the index is outside the deck. */
    function CurrentSlideData(): Option<Slide>
      reads this
    {
      SlideAt(slides, currentSlide)
    }

    constructor (players: seq<string>, opposition: string, venue: string)
      ensures Valid()
      ensures this.players == players && this.opposition == opposition && this.venue == venue
      ensures currentSlide == 0 && !isGenerating
      ensures CurrentSlideData().Some?
    {
      this.players, this.opposition, this.venue := players, opposition, venue;
      var deck := BuildSlides(players, opposition, venue);
      NoDataBranchUnreachable(players, opposition, venue);
      slides := deck;
      currentSlide := 0;
      isGenerating := false;
    }

    method NextSlide()
      requires Valid()
      modifies this`currentSlide
      ensures Valid()
      ensures currentSlide == NextIndex(old(currentSlide), |slides|)
      ensures 0 <= old(currentSlide) < |slides| ==> 0 <= currentSlide < |slides|
    {
      NoDataBranchUnreachable(players, opposition, venue);
      if 0 <= currentSlide < |slides| {
        NavigationInRange(currentSlide, |slides|);
      }
      currentSlide := NextIndex(currentSlide, |slides|);
    }

    method PrevSlide()
      requires Valid()
      modifies this`currentSlide
      ensures Valid()
      ensures currentSlide == PrevIndex(old(currentSlide), |slides|)
      ensures 0 <= old(currentSlide) < |slides| ==> 0 <= currentSlide < |slides|
    {
      NoDataBranchUnreachable(players, opposition, venue);
      if 0 <= currentSlide < |slides| {
        NavigationInRange(currentSlide, |slides|);
      }
      currentSlide := PrevIndex(currentSlide, |slides|);
    }

    /** `goToSlide(index)` sets the index with no bound check. */
    method GoToSlide(index: int)
      modifies this`currentSlide
      ensures currentSlide == index
    {
      currentSlide := index;
    }

    /** A re-render with new props, as written: the deck is rebuilt and `currentSlide` is kept. */
    method Rerender(players: seq<string>, opposition: string, venue: string)
      modifies this
      ensures Valid()
      ensures this.players == players && this.opposition == opposition && this.venue == venue
      ensures currentSlide == old(currentSlide) && isGenerating == old(isGenerating)
    {
      this.players, this.opposition, this.venue := players, opposition, venue;
      slides := BuildSlides(players, opposition, venue);
    }

    /** The corrected re-render: the index is clamped into the new deck, so a slide is always shown. */
    method RerenderClamped(players: seq<string>, opposition: string, venue: string)
      modifies this
      ensures Valid()
      ensures this.players == players && this.opposition == opposition && this.venue == venue
      ensures currentSlide == ClampIndex(old(currentSlide), |slides|)
      ensures isGenerating == old(isGenerating)
      ensures CurrentSlideData().Some?
    {
      this.players, this.opposition, this.venue := players, opposition, venue;
      slides := BuildSlides(players, opposition, venue);
      NoDataBranchUnreachable(players, opposition, venue);
      currentSlide := ClampIndex(currentSlide, |slides|);
    }

    /**
     * `downloadPPTX`: the request sent to the backend, and the file name when
     * the backend call succeeds (`backendOk`); `isGenerating` ends false either way.
     */
    method DownloadPptx(date: string, backendOk: bool) returns (request: seq<SlideRequest>, filename: Option<string>)
      requires Valid()
      modifies this`isGenerating
      ensures Valid() && !isGenerating
      ensures request == SlidesData(slides, opposition)
      ensures RequestedPlayers(request) == players
      ensures filename == if backendOk then Some(DownloadFilename(opposition, date)) else None
    {
      isGenerating := true;
      request := SlidesData(slides, opposition);
      RequestCarriesSelectedPlayers(players, opposition, venue);
      if backendOk {
        filename := Some(DownloadFilename(opposition, date));
      } else {
        filename := None;
      }
      isGenerating := false;
    }
  }
}
