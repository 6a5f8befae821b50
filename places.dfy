/** The list computations over saved places: the address test used to de-duplicate saves,
    the index filter used both to remove a place and to leave the origin out of the
    waypoints, and the waypoint list itself. */
module Places {
  import opened Types

  /** Some saved place already has this address (`savedPlaces.some(...)`). */
  predicate HasAddress(places: seq<Location>, address: string)
  {
    exists i :: 0 <= i < |places| && places[i].address == address
  }

  /** No two saved places share an address: each place's address is absent from the places
      saved before it. */
  predicate UniqueAddresses(places: seq<Location>)
  {
    places == []
    || (&& UniqueAddresses(places[..|places| - 1])
        && !HasAddress(places[..|places| - 1], places[|places| - 1].address))
  }

  /** The recursive definition says exactly that no two positions share an address. */
  lemma {:induction false} UniqueAddressesPairwise(places: seq<Location>)
    ensures UniqueAddresses(places) <==>
      forall i, j :: 0 <= i < j < |places| ==> places[i].address != places[j].address
  {
    if places != [] {
      var n := |places| - 1;
      var front := places[..n];
      UniqueAddressesPairwise(front);
      if UniqueAddresses(places) {
        forall i, j | 0 <= i < j < |places|
          ensures places[i].address != places[j].address
        {
          if j == n {
            assert front[i] == places[i];
          } else {
            assert front[i] == places[i] && front[j] == places[j];
          }
        }
      } else if UniqueAddresses(front) {
        var i :| 0 <= i < n && front[i].address == places[n].address;
        assert places[i].address == places[n].address;
      } else {
        var i, j :| 0 <= i < j < n && front[i].address == front[j].address;
        assert places[i].address == places[j].address;
      }
    }
  }

  /** The saved list after a save: `item` is appended unless its address is already present. */
  function AddPlace(places: seq<Location>, item: Location): (r: seq<Location>)
    ensures places <= r
    ensures HasAddress(r, item.address)
    ensures |r| == if HasAddress(places, item.address) then |places| else |places| + 1
    ensures !HasAddress(places, item.address) ==> r == places + [item]
    ensures UniqueAddresses(places) ==> UniqueAddresses(r)
  {
    if HasAddress(places, item.address) then places
    else
      assert (places + [item])[|places|] == item;
      assert (places + [item])[..|places|] == places;
      places + [item]
  }

  /** `s.filter((_, j) => j !== i)`: every element whose position is not `i`, in order. */
  function WithoutIndex<T>(s: seq<T>, i: int): (r: seq<T>)
    ensures |r| == if 0 <= i < |s| then |s| - 1 else |s|
  {
    if s == [] then []
    else WithoutIndex(s[..|s| - 1], i) + (if i == |s| - 1 then [] else [s[|s| - 1]])
  }

  /** The filter removes exactly position `i` when it is in range, and nothing otherwise. */
  lemma {:induction false} WithoutIndexSplice<T>(s: seq<T>, i: int)
    ensures WithoutIndex(s, i) == if 0 <= i < |s| then s[..i] + s[i + 1..] else s
  {
    if s != [] {
      var n := |s| - 1;
      var front := s[..n];
      WithoutIndexSplice(front, i);
      if i == n {
        assert s[i + 1..] == [];
        assert s[..i] == front;
      } else if 0 <= i < n {
        assert front[..i] == s[..i];
        assert front[i + 1..] + [s[n]] == s[i + 1..];
      } else {
        assert front + [s[n]] == s;
      }
    }
  }

  /** Removing a saved place keeps the others distinct. */
  lemma WithoutIndexKeepsUnique(places: seq<Location>, i: int)
    requires UniqueAddresses(places)
    ensures UniqueAddresses(WithoutIndex(places, i))
  {
    WithoutIndexSplice(places, i);
    var r := WithoutIndex(places, i);
    UniqueAddressesPairwise(places);
    UniqueAddressesPairwise(r);
    if 0 <= i < |places| {
      forall a, b | 0 <= a < b < |r|
        ensures r[a].address != r[b].address
      {
        if a < i { assert r[a] == places[..i][a] == places[a]; } else { assert r[a] == places[i + 1..][a - i] == places[a + 1]; }
        if b < i { assert r[b] == places[..i][b] == places[b]; } else { assert r[b] == places[i + 1..][b - i] == places[b + 1]; }
      }
    }
  }

  /** A saved place as a must-stop waypoint. */
  function ToWaypoint(p: Location): Waypoint
  {
    Waypoint(LatLng(p.lat, p.lng), true)
  }

  /** Each place as a stopover at its own coordinates, in order. */
  function Stopovers(places: seq<Location>): (w: seq<Waypoint>)
    ensures |w| == |places|
  {
    if places == [] then [] else Stopovers(places[..|places| - 1]) + [ToWaypoint(places[|places| - 1])]
  }

  lemma {:induction false} StopoversAt(places: seq<Location>, j: nat)
    requires j < |places|
    ensures Stopovers(places)[j] == ToWaypoint(places[j])
  {
    if j < |places| - 1 {
      StopoversAt(places[..|places| - 1], j);
    }
  }

  /** The waypoint list derived from the saved places and the origin index:
      every saved place except the one at `origin`, in save order, each a stopover. */
  function Waypoints(places: seq<Location>, origin: int): (w: seq<Waypoint>)
    ensures |w| == if 0 <= origin < |places| then |places| - 1 else |places|
  {
    Stopovers(WithoutIndex(places, origin))
  }

  /** With the origin in range, the waypoints are the places before it and the places after it,
      each turned into a stopover at its own coordinates. */
  lemma WaypointsSkipOrigin(places: seq<Location>, origin: int)
    requires 0 <= origin < |places|
    ensures |Waypoints(places, origin)| == |places| - 1
    ensures forall j :: 0 <= j < origin ==>
      Waypoints(places, origin)[j] == Waypoint(LatLng(places[j].lat, places[j].lng), true)
    ensures forall j :: origin <= j < |places| - 1 ==>
      Waypoints(places, origin)[j] == Waypoint(LatLng(places[j + 1].lat, places[j + 1].lng), true)
  {
    WithoutIndexSplice(places, origin);
    forall j | 0 <= j < |places| - 1
      ensures Waypoints(places, origin)[j] == ToWaypoint(WithoutIndex(places, origin)[j])
    {
      StopoversAt(WithoutIndex(places, origin), j);
    }
  }

  /** An origin index outside the list (which a removal before the origin can leave behind)
      filters nothing: every saved place becomes a waypoint. */
  lemma WaypointsKeepAllOutOfRange(places: seq<Location>, origin: int)
    requires !(0 <= origin < |places|)
    ensures |Waypoints(places, origin)| == |places|
    ensures forall j :: 0 <= j < |places| ==>
      Waypoints(places, origin)[j] == Waypoint(LatLng(places[j].lat, places[j].lng), true)
  {
    WithoutIndexSplice(places, origin);
    forall j | 0 <= j < |places|
      ensures Waypoints(places, origin)[j] == ToWaypoint(places[j])
    {
      StopoversAt(places, j);
    }
  }

  /** Removing a place listed before the origin does not move the origin index: the index
      then names the place after the old origin (or nothing, when the origin was last). The
      old origin itself becomes a waypoint, and one place fewer than expected is left in the
      waypoints when another place follows it. */
  lemma RemoveBeforeOriginLeavesStaleIndex(places: seq<Location>, i: int, origin: int)
    requires 0 <= i < origin < |places|
    ensures var w := Waypoints(WithoutIndex(places, i), origin);
      && |w| == (if origin + 1 < |places| then |places| - 2 else |places| - 1)
      && w[origin - 1] == ToWaypoint(places[origin])
  {
    var rest := WithoutIndex(places, i);
    WithoutIndexSplice(places, i);
    assert rest[origin - 1] == places[origin];
    if origin < |rest| {
      WaypointsSkipOrigin(rest, origin);
    } else {
      WaypointsKeepAllOutOfRange(rest, origin);
    }
  }
}
