/** Values the trip planner passes around: place cards, route legs, leaderboard entries. */
module Types {

  datatype Option<+T> = None | Some(value: T)

  /** A coordinate in degrees; JavaScript numbers are modelled as reals. */
  datatype LatLng = LatLng(lat: real, lng: real)

  /** A place card (`Location`): a search result, or a copy of one in the saved list.
      The address is the identity key for de-duplication. */
  datatype Location = Location(name: string, address: string, imgUrl: string, lat: real, lng: real)

  /** What the place-search collaborator returns for one place; absent fields are `None`,
      and a place without photos has an empty `photoUris`. */
  datatype PlaceResult = PlaceResult(
    displayName: Option<string>,
    formattedAddress: Option<string>,
    photoUris: seq<string>,
    location: Option<LatLng>)

  /** A routing waypoint (`google.maps.DirectionsWaypoint`). */
  datatype Waypoint = Waypoint(location: LatLng, stopover: bool)

  /** One leg of a route: distance in metres and duration in seconds, either possibly missing. */
  datatype Leg = Leg(distance: Option<nat>, duration: Option<nat>)

  datatype Route = Route(legs: seq<Leg>, overviewPath: seq<LatLng>)

  /** The routing collaborator's response (`google.maps.DirectionsResult`). */
  datatype DirectionsResult = DirectionsResult(routes: seq<Route>)

  /** `google.maps.DirectionsStatus`. */
  datatype DirectionsStatus =
    | Ok
    | NotFound
    | ZeroResults
    | MaxWaypointsExceeded
    | MaxRouteLengthExceeded
    | InvalidRequest
    | OverQueryLimit
    | RequestDenied
    | UnknownError

  datatype TravelMode = Driving | Walking

  /** The options handed to the routing collaborator. */
  datatype RouteRequest = RouteRequest(
    origin: LatLng,
    destination: LatLng,
    waypoints: seq<Waypoint>,
    travelMode: TravelMode,
    optimizeWaypoints: bool)

  /** A leaderboard row (`LeaderBoardObj`). */
  datatype ScoreEntry = ScoreEntry(name: string, score: int)
}
