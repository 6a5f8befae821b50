# ZotTripper trip state, in Dafny

ZotTripper is a single-page trip planner for the UC Irvine campus. The user searches for places, saves
search results to a trip, picks one saved place as the origin and gets a round-trip route through the
others, with the distance and time shown. A small game sits on top. One random result of each search
is the "reward" result. Saving it while it lies within 5 km of campus earns 100 points, and removing
any saved place costs 100 points. The score is shown on a leaderboard against four fixed opponents.

All of this lives in the `App` component of `src/App.tsx`. This project models that component's
state machine:

- `types.dfy` (module `Types`): the records the component handles. These are the saved-place card
  (`Location`), the place-search and directions responses, the waypoint and route request, and the
  leaderboard row.
- `places.dfy` (module `Places`): the list computations over saved places.
  - the address test that de-duplicates saves;
  - the index filter used both by removal and by the waypoint effect;
  - the waypoint list itself.
- `routing.dfy` (module `Routing`): the leg sums of the directions callback, including its
  accumulation loop, and the metres-to-miles division.
- `scores.dfy` (module `Scores`): the leaderboard effect. The user's row is rescored and the board
  is re-sorted by a stable descending sort. The module also covers the board on mount and after a
  reward and a penalty.
- `search.dfy` (module `Search`): the blank-query guard (JavaScript `trim`), the conversion of the
  search response into cards, and the reward gate.
- `trip_state.dfy` (module `Trip`): the class `TripState`.
  - Its fields are the component's state hooks.
  - It has one method per handler: type a query, search, save a result, remove a saved place, set
    the origin, toggle driving, and receive a route.
  - It has one method per effect: re-derive the waypoints, and refresh the leaderboard.
  - `PendingRequest` is the routing request the map issues.
  - `Valid()` is the invariant every handler keeps:
    - the origin index is -1 or non-negative;
    - saved addresses are distinct;
    - while an origin is set, the waypoints are exactly the saved places other than the origin,
      each as a stopover;
    - the reward index lies within a non-empty result list;
    - the distance is non-negative;
    - the board is sorted and its "You" row shows the live score.

React effects run after a render, whenever one of their dependencies changed. The model runs each
effect explicitly, at the end of the handler whose updates change that dependency. Setting the origin
to the index it already has therefore does not re-run the waypoint effect.

Two behaviours of the code are kept as written:

- Removing a saved place listed before the origin does not shift the origin index, so the index then
  names the next place. `Places.RemoveBeforeOriginLeavesStaleIndex` states what the waypoints become.
  The origin and the trip metrics are reset only when the origin itself is removed (lines 438-442).
- The score penalty of a removal applies whether or not the removed place earned a reward, so the
  score can become negative.

`Trip.TripState.Remove` states the filtered list as `WithoutIndex(savedPlaces, index)`.
`Places.WithoutIndexSplice` shows that this equals `savedPlaces[..index] + savedPlaces[index+1..]`.

## Model

| member | source | states |
|---|---|---|
| Places.HasAddress | src/App.tsx:404-408 | the `some` test: some saved place has the given address (a predicate; `AddPlace` and `Trip.TripState.Save` are stated with it) |
| Places.UniqueAddresses | src/App.tsx:403-419 | the de-duplication invariant the save guard keeps: each place's address is absent from the places before it (a predicate; `UniqueAddressesPairwise` gives its meaning) |
| Places.AddPlace | src/App.tsx:403-419 | a new address appends exactly the item after the old list, and a known address leaves the list as it is; the result contains the address and keeps addresses distinct |
| Places.UniqueAddressesPairwise | src/App.tsx:403-409 | the save-time de-duplication invariant (each address absent from the places before it) is equivalent to "no two positions share an address" |
| Places.WithoutIndex | src/App.tsx:433-436 | filtering out one index removes exactly one element when the index is in range and none otherwise |
| Places.WithoutIndexSplice | src/App.tsx:432-437 | the index filter equals `s[..i] + s[i+1..]` for an index in range, and is the identity otherwise |
| Places.WithoutIndexKeepsUnique | src/App.tsx:432-437 | removing a saved place keeps the remaining addresses distinct |
| Places.Waypoints | src/App.tsx:185-195 | the waypoint list has one entry fewer than the saved places when the origin is in range, and one per place otherwise |
| Places.Stopovers | src/App.tsx:187-195 | the map produces one waypoint per place |
| Places.StopoversAt | src/App.tsx:187-195 | waypoint `j` is place `j` at its own coordinates with `stopover` true |
| Places.WaypointsSkipOrigin | src/App.tsx:185-195 | with the origin in range, the waypoints are the places before the origin and then those after it, in save order, each a stopover at its coordinates |
| Places.WaypointsKeepAllOutOfRange | src/App.tsx:185-195 | an origin index outside the list filters nothing, and every saved place becomes a waypoint |
| Places.RemoveBeforeOriginLeavesStaleIndex | src/App.tsx:430-442 | after removing a place before the origin, the unchanged index leaves the old origin among the waypoints (at position origin - 1), and there is one waypoint fewer than places whenever a place follows the old origin |
| Routing.TotalMetres | src/App.tsx:207-212 | the sum of the legs' distances, a missing value counting as 0 (a definition; `SumLegs` is proved equal to it) |
| Routing.TotalSeconds | src/App.tsx:207-212 | the sum of the legs' durations, a missing value counting as 0 (a definition; `SumLegs` is proved equal to it) |
| Routing.TotalsAppend | src/App.tsx:209-212 | the distance and duration totals add up over any split of the legs |
| Routing.LegBoundedByTotal | src/App.tsx:209-212 | no single leg exceeds the route's total distance or time |
| Routing.SumLegs | src/App.tsx:207-212 | the accumulation loop ends with the total metres and total seconds of all legs |
| Routing.Miles | src/App.tsx:223 | the displayed distance is non-negative and equals the metres divided by 1600 |
| Scores.RefreshedBoard | src/App.tsx:233-243 | the board the leaderboard effect computes: the rescored board, sorted (a definition; `RefreshOnlyYouChanges` states its properties) |
| Scores.WithUserScore | src/App.tsx:233-243 | the map keeps the board's length |
| Scores.WithUserScoreAt | src/App.tsx:233-242 | row `i` of the mapped board is row `i` rescored: "You" takes the live score and every other row is kept |
| Scores.WithUserScoreOnlyYou | src/App.tsx:233-242 | every row not named "You" occurs as often as before, and every "You" row carries the live score |
| Scores.WithUserScoreKeepsNames | src/App.tsx:233-242 | the map keeps the names in order |
| Scores.SortedDescPairwise | src/App.tsx:243 | adjacent non-increasing scores are equivalent to non-increasing scores between any two rows |
| Scores.Insert | src/App.tsx:243 | an insertion adds one row, and the new head is the inserted row or the old head |
| Scores.InsertPermutes | src/App.tsx:243 | an insertion adds exactly the inserted row to the multiset of rows |
| Scores.InsertKeepsSorted | src/App.tsx:243 | inserting into a sorted board keeps it sorted |
| Scores.InsertKeepsNames | src/App.tsx:243 | an insertion adds exactly one occurrence of the row's name |
| Scores.InsertWithScore | src/App.tsx:243 | an insertion keeps the order of the rows of each score, placing the new row before the equal-score rows |
| Scores.SortByScore | src/App.tsx:243 | the sort keeps the length and yields a board sorted by descending score |
| Scores.SortPermutes | src/App.tsx:243 | the sort is a permutation of the rows |
| Scores.SortKeepsNames | src/App.tsx:243 | the sort keeps the multiset of names |
| Scores.SortIsStable | src/App.tsx:243 | for every score, the rows carrying it keep their relative order, as `Array.prototype.sort` guarantees |
| Scores.SortKeepsSorted | src/App.tsx:243 | a board that is already sorted is left unchanged |
| Scores.RefreshShowsScore | src/App.tsx:232-245 | after the refresh, every row named "You" shows the live score |
| Scores.RefreshOnlyYouChanges | src/App.tsx:232-245 | the refresh keeps the length and the multiset of names, keeps every other row, gives "You" the live score, sorts by descending score, and keeps equal-score rows in order |
| Scores.SortFive | src/App.tsx:60-81 | sorting five rows whose scores are ordered like the declared board (third above second, the rest descending) swaps the second and third rows and keeps the others in place |
| Scores.MountSortsBoard | src/App.tsx:60-81 | the leaderboard effect on mount turns the declared board into Jongming, Mihir, Kyle, Yumeng, You |
| Scores.RewardTieKeepsYouBelowYumeng | src/App.tsx:232-245 | after a first reward the user ties with Yumeng at 100, and the stable sort keeps the user below Yumeng |
| Scores.PenaltyRestoresMountedBoard | src/App.tsx:443-445 | a removal that takes the score from 100 back to 0 restores the board as it was after mount |
| Search.Trim | src/App.tsx:111 | `String.prototype.trim`: leading and then trailing whitespace dropped (a definition; the two lemmas below state what it strips) |
| Search.TrimStartStripsWhitespace | src/App.tsx:111 | `trim`'s front part drops exactly a whitespace prefix and stops at the first other character |
| Search.TrimEndStripsWhitespace | src/App.tsx:111 | `trim`'s back part drops exactly a whitespace suffix and stops at the last other character |
| Search.BlankQueryIsAllWhitespace | src/App.tsx:111 | a query trims to "" exactly when it has no character other than JavaScript whitespace |
| Search.ToCard | src/App.tsx:133-142 | a card takes its place's name, address, first photo and coordinates; a missing name or address becomes "", no photo gives image "", and a missing location gives (0, 0) |
| Search.ToCards | src/App.tsx:131-146 | one card per place in response order, each the place's card: a missing name or address becomes "", no photo gives image "", and a missing location gives (0, 0) |
| Search.MissingAddressesCollide | src/App.tsx:135 | two results without an address both get the address "", so once one is saved, saving the other leaves the saved list unchanged |
| Search.RewardEligible | src/App.tsx:410 | the reward gate: the card is the drawn one and the haversine distance to campus is under 5 km (a predicate; `Trip.TripState.Save` is stated with it) |
| Trip.TripState.constructor | src/App.tsx:50-104 | the initial state after the mount effects: empty lists, no origin, zero metrics and score, and the board sorted by the leaderboard effect; the invariant holds |
| Trip.TripState.DeriveWaypoints | src/App.tsx:179-198 | the waypoint effect always drops the route; with no origin it keeps the waypoints, and otherwise it recomputes them from the saved places |
| Trip.TripState.RefreshLeaderBoard | src/App.tsx:232-245 | the leaderboard effect sets the board to the rescored, re-sorted board, which is sorted and shows the live score |
| Trip.TripState.AddToScore | src/App.tsx:411-413 | the score changes by the delta, and the leaderboard effect then runs on the new score |
| Trip.TripState.SetQuery | src/App.tsx:173-177 | the query takes the new text (typed at line 368, or "" from the clear button at lines 374-376), and the effect clears the results exactly when the query changes to "" |
| Trip.TripState.StartSearch | src/App.tsx:110-112 | a search is issued exactly when none is pending and the query has a non-whitespace character, and issuing marks it pending |
| Trip.TripState.FinishSearch | src/App.tsx:129-158 | a non-empty response replaces the cards and sets the reward index to the draw; an empty response changes neither; the search stops pending, and the reward index stays within the cards |
| Trip.TripState.Save | src/App.tsx:401-421 | a duplicate address changes nothing; a new item is appended, the score rises by 100 exactly when the item is the drawn, near-campus one, the route is dropped, the waypoints are re-derived and the board is refreshed on a score change |
| Trip.TripState.AppendPlace | src/App.tsx:416-419 | the item is appended, addresses stay distinct, the route is dropped and the waypoints follow the new list |
| Trip.TripState.Remove | src/App.tsx:430-447 | the place is filtered out and the score drops by 100; removing the origin resets it and the metrics, and removing another place keeps them; the route is dropped, the waypoints re-derived and the board refreshed |
| Trip.TripState.DropPlace | src/App.tsx:432-442 | the place is filtered out, the origin and metrics are reset exactly when the origin was removed, addresses stay distinct, and the waypoints follow the new list |
| Trip.TripState.SetOrigin | src/App.tsx:448-455 | the origin index and location become the chosen place's; the waypoints are re-derived and the route dropped only when the index changes |
| Trip.TripState.SetDriving | src/App.tsx:328-333 | the travel mode becomes the checkbox value and the route is dropped |
| Trip.TripState.HandleDirections | src/App.tsx:200-230 | on OK with a response, the route is kept and the metrics become the first route's total miles and seconds; on any other outcome nothing changes |
| Trip.TripState.PendingRequest | src/App.tsx:292-305 | a request exists exactly when no route is held and an origin is set; it is a loop from the origin to itself through the derived waypoints, in the chosen mode, with reordering allowed |

## Left out

- `haversineDistance` is a floating-point formula. It is a function parameter (`Haversine`) of `Save`,
  and only the campus coordinates and the `< 5` km test are modelled.
- `Math.random` is not modelled. The drawn index is the `draw` parameter of `FinishSearch`, required
  to lie within a non-empty response.
- The Google Maps calls (`Place.searchByText`, `DirectionsService`, `DirectionsRenderer`, `panTo`) are
  foreign code. Their responses are method parameters, and the request the map would issue is
  `PendingRequest`.
- The `await` inside `handleSearch` splits it into `StartSearch` and `FinishSearch`. Interleaving with
  other handlers, and handlers reading stale state from an older render, are not modelled.
- The copy of `overview_path` into `computedWaypoints` (lines 214-222) is not modelled. It copies
  coordinates and nothing reads them.
- The map-centre state and its `panTo` effect (lines 53-54, 167-171, 394-395) are not modelled. They
  only move the map view.
- Toasts, `console` output, JSX rendering, marker labels and the `toFixed` and `/ 60` display
  formatting are presentation, and are not modelled.
- Numbers are modelled as reals and naturals, not IEEE doubles. Leg values are naturals in metres and
  seconds, and the distance is an exact real quotient.
- The `filter` after the card `map` (line 146) removes nothing, because every card is a non-null
  object. `ToCards` therefore has no filter step.
- Trip.TripState.HandleDirections: assumes that an OK response from the routing service carries at
  least one route. On an OK response with no routes, the code has already queued
  `setDirections(response)` (line 206) when `response.routes[0]` throws (line 209), and the metrics
  stay as they were. The model does not cover that input.
