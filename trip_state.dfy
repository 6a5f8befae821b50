/** The planner's state (the `App` component's state hooks) and one method per user action
    or effect that changes it. A handler's method also runs the effects its state updates
    trigger: the waypoint effect when the saved places or the origin index change, and the
    leaderboard effect when the score changes. */
module Trip {
  import opened Types
  import opened Places
  import opened Routing
  import opened Scores
  import opened Search

  /** Points gained by saving the rewarded result, and lost by any removal. */
  const RewardAmount: int := 100

  /** The origin index is -1 ("no origin") or a non-negative index, and no two saved places
      share an address. */
  predicate PlacesWellFormed(places: seq<Location>, origin: int)
  {
    -1 <= origin && UniqueAddresses(places)
  }

  /** While an origin is set, the waypoints are the ones derived from the saved places. */
  predicate WaypointsFollow(places: seq<Location>, origin: int, waypoints: seq<Waypoint>)
  {
    origin != -1 ==> waypoints == Waypoints(places, origin)
  }

  /** The drawn reward index lies within a non-empty result list. */
  predicate RewardInRange(cards: seq<Location>, rewardIndex: int)
  {
    0 <= rewardIndex && (cards != [] ==> rewardIndex < |cards|)
  }

  /** The board is sorted and shows the live score on the user's row. */
  predicate BoardShowsScore(board: seq<ScoreEntry>, score: int)
  {
    && SortedDesc(board)
    && forall i :: 0 <= i < |board| && board[i].name == You ==> board[i].score == score
  }

  class TripState {
    var searchQuery: string
    var resultCards: seq<Location>
    var isLoading: bool
    var rewardIndex: int
    var savedPlaces: seq<Location>
    /** An index into `savedPlaces`, or -1 for "no origin". */
    var originIndex: int
    var originLocation: LatLng
    var wayPoints: seq<Waypoint>
    var directions: Option<DirectionsResult>
    /** Miles, as the component computes them (metres / 1600). */
    var totalDistance: real
    /** Seconds. */
    var totalTime: nat
    var isDriving: bool
    var totalScore: int
    var leaderBoard: seq<ScoreEntry>

    /** What every handler keeps: the origin index is -1 or a non-negative index, saved
        addresses are distinct and the waypoints follow the saved places while an origin is
        set; the drawn reward index lies within a non-empty result list; the distance is
        non-negative; the board is sorted and shows the live score on the user's row. */
    ghost predicate Valid()
      reads this
    {
      && PlacesWellFormed(savedPlaces, originIndex)
      && WaypointsFollow(savedPlaces, originIndex, wayPoints)
      && RewardInRange(resultCards, rewardIndex)
      && totalDistance >= 0.0
      && BoardShowsScore(leaderBoard, totalScore)
    }

    /** The initial state, after the effects that run on mount: the leaderboard effect sorts
        the declared board (to `MountedBoard`, as `MountSortsBoard` shows) and the waypoint
        effect finds no origin. */
    constructor ()
      ensures Valid()
      ensures searchQuery == "" && resultCards == [] && !isLoading && rewardIndex == 0
      ensures savedPlaces == [] && originIndex == -1 && originLocation == LatLng(0.0, 0.0)
      ensures wayPoints == [] && directions == None
      ensures totalDistance == 0.0 && totalTime == 0 && !isDriving && totalScore == 0
      ensures leaderBoard == RefreshedBoard(InitialBoard, 0)
    {
      searchQuery := "";
      resultCards := [];
      isLoading := false;
      rewardIndex := 0;
      savedPlaces := [];
      originIndex := -1;
      originLocation := LatLng(0.0, 0.0);
      wayPoints := [];
      directions := None;
      totalDistance := 0.0;
      totalTime := 0;
      isDriving := false;
      totalScore := 0;
      leaderBoard := InitialBoard;
      new;
      RefreshLeaderBoard();
    }

    /** The effect on `[savedPlaces, originIndex]`: the route is dropped, and unless there is
        no origin the waypoints are recomputed from the saved places. */
    method DeriveWaypoints()
      modifies this`directions, this`wayPoints
      ensures directions == None
      ensures wayPoints == if originIndex == -1 then old(wayPoints) else Waypoints(savedPlaces, originIndex)
    {
      directions := None;
      if originIndex == -1 {
        return;
      }
      wayPoints := Waypoints(savedPlaces, originIndex);
    }

    /** The effect on `[totalScore]`: the user's row takes the score and the board is
        re-sorted; no other row changes. */
    method RefreshLeaderBoard()
      modifies this`leaderBoard
      ensures leaderBoard == RefreshedBoard(old(leaderBoard), totalScore)
      ensures BoardShowsScore(leaderBoard, totalScore)
    {
      RefreshShowsScore(leaderBoard, totalScore);
      leaderBoard := RefreshedBoard(leaderBoard, totalScore);
    }

    /** `setTotalScore(totalScore + delta)` and the leaderboard effect the new score triggers. */
    method AddToScore(delta: int)
      modifies this`totalScore, this`leaderBoard
      ensures totalScore == old(totalScore) + delta
      ensures leaderBoard == RefreshedBoard(old(leaderBoard), totalScore)
      ensures BoardShowsScore(leaderBoard, totalScore)
    {
      totalScore := totalScore + delta;
      RefreshLeaderBoard();
    }

    /** Typing in the search box; the effect on `[searchQuery]` clears the results when the
        query becomes empty. */
    method SetQuery(q: string)
      requires Valid()
      modifies this`searchQuery, this`resultCards
      ensures Valid()
      ensures searchQuery == q
      ensures resultCards == if q == "" && old(searchQuery) != "" then [] else old(resultCards)
    {
      var changed := q != searchQuery;
      searchQuery := q;
      if changed && q == "" {
        resultCards := [];
      }
    }

    /** The guard of `handleSearch`: a search is issued only for a query with a character
        other than whitespace and only when no search is pending; issuing one marks it pending. */
    method StartSearch() returns (issued: bool)
      requires Valid()
      modifies this`isLoading
      ensures Valid()
      ensures issued <==> !old(isLoading) && HasContent(searchQuery)
      ensures isLoading == (old(isLoading) || issued)
    {
      BlankQueryIsAllWhitespace(searchQuery);
      if Trim(searchQuery) == [] || isLoading {
        return false;
      }
      isLoading := true;
      issued := true;
    }

    /** The rest of `handleSearch`, once the place search answers with `places`: a non-empty
        answer replaces the result cards and `draw` (the value of `Math.floor(Math.random() * n)`)
        becomes the reward index; an empty answer changes neither. */
    method FinishSearch(places: seq<PlaceResult>, draw: nat)
      requires Valid() && isLoading
      requires |places| > 0 ==> draw < |places|
      modifies this`resultCards, this`rewardIndex, this`isLoading
      ensures Valid()
      ensures !isLoading
      ensures |places| > 0 ==> resultCards == ToCards(places) && rewardIndex == draw
      ensures |places| == 0 ==> resultCards == old(resultCards) && rewardIndex == old(rewardIndex)
      ensures resultCards != [] ==> rewardIndex < |resultCards|
    {
      var cards := ToCards(places);
      if |cards| > 0 {
        resultCards := cards;
        rewardIndex := draw;
      }
      isLoading := false;
    }

    /** The add button of result card `index`: a result whose address is already saved changes
        nothing; otherwise it is appended, the score rises by the reward exactly when the result
        is reward-eligible, the waypoints are re-derived and the route dropped. */
    method Save(index: nat, haversine: Haversine)
      requires Valid()
      requires searchQuery != "" && index < |resultCards|
      modifies this`savedPlaces, this`totalScore, this`leaderBoard, this`directions, this`wayPoints
      ensures Valid()
      ensures HasAddress(old(savedPlaces), resultCards[index].address) ==>
        && savedPlaces == old(savedPlaces) && totalScore == old(totalScore)
        && leaderBoard == old(leaderBoard) && directions == old(directions) && wayPoints == old(wayPoints)
      ensures !HasAddress(old(savedPlaces), resultCards[index].address) ==>
        && savedPlaces == old(savedPlaces) + [resultCards[index]]
        && totalScore == old(totalScore) + (if RewardEligible(index, rewardIndex, resultCards[index], haversine) then RewardAmount else 0)
        && directions == None
        && wayPoints == (if originIndex == -1 then old(wayPoints) else Waypoints(savedPlaces, originIndex))
      ensures totalScore != old(totalScore) ==> leaderBoard == RefreshedBoard(old(leaderBoard), totalScore)
      ensures totalScore == old(totalScore) ==> leaderBoard == old(leaderBoard)
    {
      var item := resultCards[index];
      if HasAddress(savedPlaces, item.address) {
        return;
      }
      if RewardEligible(index, rewardIndex, item, haversine) {
        AddToScore(RewardAmount);
      }
      AppendPlace(item);
      assert Valid();
    }

    /** The place-list half of a save: the new place is appended and the waypoint effect runs. */
    method AppendPlace(item: Location)
      requires PlacesWellFormed(savedPlaces, originIndex)
      requires !HasAddress(savedPlaces, item.address)
      modifies this`savedPlaces, this`directions, this`wayPoints
      ensures PlacesWellFormed(savedPlaces, originIndex)
      ensures WaypointsFollow(savedPlaces, originIndex, wayPoints)
      ensures savedPlaces == old(savedPlaces) + [item]
      ensures directions == None
      ensures wayPoints == if originIndex == -1 then old(wayPoints) else Waypoints(savedPlaces, originIndex)
    {
      savedPlaces := AddPlace(savedPlaces, item);
      DeriveWaypoints();
    }

    /** The remove button of saved card `index`: the place is filtered out, the origin and the
        trip metrics are reset when it was the origin, and the score always drops by the reward. */
    method Remove(index: nat)
      requires Valid()
      requires searchQuery == "" && index < |savedPlaces|
      modifies this`savedPlaces, this`originIndex, this`totalDistance, this`totalTime
      modifies this`totalScore, this`leaderBoard, this`directions, this`wayPoints
      ensures Valid()
      ensures savedPlaces == WithoutIndex(old(savedPlaces), index)
      ensures totalScore == old(totalScore) - RewardAmount
      ensures old(originIndex) == index ==> originIndex == -1 && totalDistance == 0.0 && totalTime == 0
      ensures old(originIndex) != index ==>
        originIndex == old(originIndex) && totalDistance == old(totalDistance) && totalTime == old(totalTime)
      ensures directions == None
      ensures wayPoints == if originIndex == -1 then old(wayPoints) else Waypoints(savedPlaces, originIndex)
      ensures leaderBoard == RefreshedBoard(old(leaderBoard), totalScore)
    {
      DropPlace(index);
      assert PlacesWellFormed(savedPlaces, originIndex) && WaypointsFollow(savedPlaces, originIndex, wayPoints);
      assert RewardInRange(resultCards, rewardIndex) && totalDistance >= 0.0;
      AddToScore(-RewardAmount);
      assert Valid();
    }

    /** The place-list half of a removal: the place is filtered out, the origin and the trip
        metrics are reset when it was the origin, and the waypoint effect runs. */
    method DropPlace(index: nat)
      requires PlacesWellFormed(savedPlaces, originIndex) && index < |savedPlaces|
      modifies this`savedPlaces, this`originIndex, this`totalDistance, this`totalTime
      modifies this`directions, this`wayPoints
      ensures PlacesWellFormed(savedPlaces, originIndex)
      ensures WaypointsFollow(savedPlaces, originIndex, wayPoints)
      ensures savedPlaces == WithoutIndex(old(savedPlaces), index)
      ensures old(originIndex) == index ==> originIndex == -1 && totalDistance == 0.0 && totalTime == 0
      ensures old(originIndex) != index ==>
        originIndex == old(originIndex) && totalDistance == old(totalDistance) && totalTime == old(totalTime)
      ensures directions == None
      ensures wayPoints == if originIndex == -1 then old(wayPoints) else Waypoints(savedPlaces, originIndex)
    {
      savedPlaces := WithoutIndex(savedPlaces, index);
      if originIndex == index {
        originIndex := -1;
        totalDistance := 0.0;
        totalTime := 0;
      }
      DeriveWaypoints();
      WithoutIndexKeepsUnique(old(savedPlaces), index);
    }

    /** The set-origin button of saved card `index`. The waypoint effect runs only when the
        index actually changes. */
    method SetOrigin(index: nat)
      requires Valid()
      requires searchQuery == "" && index < |savedPlaces|
      modifies this`originIndex, this`originLocation, this`directions, this`wayPoints
      ensures Valid()
      ensures originIndex == index
      ensures originLocation == LatLng(savedPlaces[index].lat, savedPlaces[index].lng)
      ensures old(originIndex) != index ==> directions == None && wayPoints == Waypoints(savedPlaces, index)
      ensures old(originIndex) == index ==> directions == old(directions) && wayPoints == old(wayPoints)
    {
      var changed := originIndex != index;
      originIndex := index;
      originLocation := LatLng(savedPlaces[index].lat, savedPlaces[index].lng);
      if changed {
        DeriveWaypoints();
      }
    }

    /** The driving checkbox: sets the travel mode and drops the route so that a new one is
        requested in that mode. */
    method SetDriving(checked: bool)
      requires Valid()
      modifies this`isDriving, this`directions
      ensures Valid()
      ensures isDriving == checked && directions == None
    {
      isDriving := checked;
      directions := None;
    }

    /** `handleDirectionsCallback`: on an OK status with a response, the route is kept and the
        metrics become the sums over the first route's legs (a missing value counts as 0), the
        distance in miles; on any other outcome nothing changes. */
    method HandleDirections(response: Option<DirectionsResult>, status: DirectionsStatus)
      requires Valid()
      requires status == Ok && response.Some? ==> |response.value.routes| > 0
      modifies this`directions, this`totalDistance, this`totalTime
      ensures Valid()
      ensures status == Ok && response.Some? ==>
        && directions == response
        && totalDistance == Miles(TotalMetres(response.value.routes[0].legs))
        && totalTime == TotalSeconds(response.value.routes[0].legs)
      ensures !(status == Ok && response.Some?) ==>
        directions == old(directions) && totalDistance == old(totalDistance) && totalTime == old(totalTime)
    {
      if status == Ok && response.Some? {
        directions := response;
        var distance, travelTime := SumLegs(response.value.routes[0].legs);
        totalDistance := Miles(distance);
        totalTime := travelTime;
      }
    }

    /** The routing request the map issues: only while no route is held and an origin is set,
        a closed loop from the origin back to it through the derived waypoints, in the chosen
        travel mode, with the collaborator free to reorder the stops. */
    function PendingRequest(): (req: Option<RouteRequest>)
      reads this
      requires Valid()
      ensures req.Some? <==> directions == None && originIndex != -1
      ensures req.Some? ==> req.value.origin == originLocation && req.value.destination == originLocation
      ensures req.Some? ==> req.value.waypoints == Waypoints(savedPlaces, originIndex)
      ensures req.Some? ==> req.value.optimizeWaypoints && (req.value.travelMode == Driving <==> isDriving)
    {
      if directions == None && originIndex != -1 then
        Some(RouteRequest(originLocation, originLocation, wayPoints, if isDriving then Driving else Walking, true))
      else
        None
    }
  }
}
