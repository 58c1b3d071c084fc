/**
 * The application state (src/App.js): the team and venue lists loaded at
 * start-up, the analyst's selection (players, opposition, venue), whether the
 * slides are shown, and the API status. Each request is an outcome given to
 * the handler: `Some` for a response, `None` for a failed request.
 */
module AppState {
  import opened Wrappers

  datatype ApiStatus = Checking | Connected | Error

  /** `prev.filter(p => p !== player)`. */
  function Remove(prev: seq<string>, player: string): (r: seq<string>)
    ensures |r| <= |prev|
    ensures forall x :: x in r <==> x in prev && x != player
  {
    if prev == [] then []
    else (if prev[0] != player then [prev[0]] else []) + Remove(prev[1..], player)
  }

  /** The updater of `handlePlayerSelect`: a selected player is removed, another is appended. */
  function TogglePlayer(prev: seq<string>, player: string): seq<string> {
    if player in prev then Remove(prev, player) else prev + [player]
  }

  predicate Distinct(s: seq<string>) {
    forall i, j :: 0 <= i < j < |s| ==> s[i] != s[j]
  }

  /** Toggling flips whether the player is selected and leaves every other player's membership alone. */
  lemma ToggleMembership(prev: seq<string>, player: string, x: string)
    ensures x in TogglePlayer(prev, player) <==> if x == player then player !in prev else x in prev
  {
  }

  /** Apart from the toggled player, the selection keeps the same players in the same order. */
  lemma {:induction false} ToggleKeepsOthers(prev: seq<string>, player: string)
    ensures Remove(TogglePlayer(prev, player), player) == Remove(prev, player)
  {
    if player in prev {
      RemoveTwice(prev, player);
    } else {
      RemoveAppend(prev, [player], player);
      assert Remove([player], player) == [] by {
        assert [player][1..] == [];
      }
      assert Remove(prev, player) + [] == Remove(prev, player);
    }
  }

  lemma {:induction false} RemoveTwice(s: seq<string>, p: string)
    ensures Remove(Remove(s, p), p) == Remove(s, p)
  {
    if s != [] {
      RemoveTwice(s[1..], p);
      if s[0] != p {
        assert ([s[0]] + Remove(s[1..], p))[1..] == Remove(s[1..], p);
      } else {
        assert [] + Remove(s[1..], p) == Remove(s[1..], p);
      }
    }
  }

  lemma {:induction false} RemoveAppend(a: seq<string>, b: seq<string>, p: string)
    ensures Remove(a + b, p) == Remove(a, p) + Remove(b, p)
  {
    if a == [] {
      assert a + b == b;
    } else {
      assert (a + b)[0] == a[0] && (a + b)[1..] == a[1..] + b;
      RemoveAppend(a[1..], b, p);
    }
  }

  /** Removing a player from a list without repeats leaves a list without repeats. */
  lemma {:induction false} RemoveKeepsDistinct(s: seq<string>, p: string)
    requires Distinct(s)
    ensures Distinct(Remove(s, p))
  {
    if s != [] {
      RemoveKeepsDistinct(s[1..], p);
      var t := Remove(s[1..], p);
      assert s[0] !in s[1..];
      assert s[0] !in t;
      var r := (if s[0] != p then [s[0]] else []) + t;
      forall i, j | 0 <= i < j < |r| ensures r[i] != r[j] {
        if s[0] != p && i == 0 {
          assert r[j] == t[j - 1] && t[j - 1] in t;
        }
      }
    }
  }

  /** A selection without repeats stays without repeats. */
  lemma ToggleKeepsDistinct(prev: seq<string>, player: string)
    requires Distinct(prev)
    ensures Distinct(TogglePlayer(prev, player))
  {
    if player in prev {
      RemoveKeepsDistinct(prev, player);
    }
  }

  lemma {:induction false} RemoveAbsent(s: seq<string>, p: string)
    requires p !in s
    ensures Remove(s, p) == s
  {
    if s != [] {
      RemoveAbsent(s[1..], p);
      assert s == [s[0]] + s[1..];
    }
  }

  /** Toggling a player who is not selected twice gives back the original selection. */
  lemma ToggleTwiceRestores(prev: seq<string>, player: string)
    requires player !in prev
    ensures TogglePlayer(TogglePlayer(prev, player), player) == prev
  {
    RemoveAppend(prev, [player], player);
    RemoveAbsent(prev, player);
    assert [player][1..] == [];
    assert prev + [] == prev;
  }

  class App {
    var teams: seq<string>
    var venues: seq<string>
    var selectedPlayers: seq<string>
    var selectedOpposition: string
    var selectedVenue: string
    var teamPlayers: seq<string>
    var loading: bool
    var showSlides: bool
    var apiStatus: ApiStatus

    /** The initial state of every `useState`. */
    constructor ()
      ensures teams == [] && venues == [] && selectedPlayers == [] && teamPlayers == []
      ensures selectedOpposition == "" && selectedVenue == ""
      ensures loading && !showSlides && apiStatus == Checking
    {
      teams, venues, selectedPlayers, teamPlayers := [], [], [], [];
      selectedOpposition, selectedVenue := "", "";
      loading, showSlides, apiStatus := true, false, Checking;
    }

    /**
     * `fetchInitialData`: loading and checking, then the lists and `connected`
     * on a response, or `error` with the lists kept on a failure; loading ends
     * false either way, and the selection is untouched.
     */
    method FetchInitialData(outcome: Option<(seq<string>, seq<string>)>)
      modifies this`teams, this`venues, this`loading, this`apiStatus
      ensures !loading
      ensures outcome.Some? ==> apiStatus == Connected && teams == outcome.value.0 && venues == outcome.value.1
      ensures outcome.None? ==> apiStatus == Error && teams == old(teams) && venues == old(venues)
    {
      loading := true;
      apiStatus := Checking;
      match outcome {
        case Some(lists) =>
          teams := lists.0;
          venues := lists.1;
          apiStatus := Connected;
          loading := false;
        case None =>
          apiStatus := Error;
          loading := false;
      }
    }

    /** `fetchTeamPlayers`: the response's players, or no change when the request fails. */
    method FetchTeamPlayers(outcome: Option<seq<string>>)
      modifies this`teamPlayers
      ensures teamPlayers == if outcome.Some? then outcome.value else old(teamPlayers)
    {
      if outcome.Some? {
        teamPlayers := outcome.value;
      }
    }

    /** `handleTeamSelect`: a new opposition shows the slides and clears both player lists; the venue stays. */
    method HandleTeamSelect(team: string)
      modifies this`selectedOpposition, this`showSlides, this`teamPlayers, this`selectedPlayers
      ensures selectedOpposition == team && showSlides
      ensures teamPlayers == [] && selectedPlayers == []
    {
      selectedOpposition := team;
      showSlides := true;
      teamPlayers := [];
      selectedPlayers := [];
    }

    /** `handlePlayerSelect`: toggles the player; a selection without repeats keeps none. */
    method HandlePlayerSelect(player: string)
      modifies this`selectedPlayers
      ensures selectedPlayers == TogglePlayer(old(selectedPlayers), player)
      ensures Distinct(old(selectedPlayers)) ==> Distinct(selectedPlayers)
    {
      if Distinct(selectedPlayers) {
        ToggleKeepsDistinct(selectedPlayers, player);
      }
      selectedPlayers := TogglePlayer(selectedPlayers, player);
    }

    /** `handleVenueSelect`: only the venue changes. */
    method HandleVenueSelect(venue: string)
      modifies this`selectedVenue
      ensures selectedVenue == venue
    {
      selectedVenue := venue;
    }

    /** `handleGenerateInsights`: only `showSlides` changes, to true. */
    method HandleGenerateInsights()
      modifies this`showSlides
      ensures showSlides
    {
      showSlides := true;
    }
  }
}
