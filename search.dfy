/** Search-side logic: the blank-query guard (`searchQuery.trim()`), the conversion of the
    place-search response into cards, and the reward gate that pairs the drawn index with the
    proximity test against campus. */
module Search {
  import opened Types
  import opened Places

  /** The characters `String.prototype.trim` strips: ECMAScript WhiteSpace and LineTerminator. */
  predicate IsJsWhitespace(c: char)
  {
    c == '\t' || c == '\n' || c == '\U{000B}' || c == '\U{000C}' || c == '\r' || c == ' '
    || c == '\U{00A0}' || c == '\U{1680}' || ('\U{2000}' <= c <= '\U{200A}')
    || c == '\U{2028}' || c == '\U{2029}' || c == '\U{202F}' || c == '\U{205F}'
    || c == '\U{3000}' || c == '\U{FEFF}'
  }

  /** Drops leading whitespace. */
  function TrimStart(s: string): string
  {
    if s != [] && IsJsWhitespace(s[0]) then TrimStart(s[1..]) else s
  }

  /** Drops trailing whitespace. */
  function TrimEnd(s: string): string
  {
    if s != [] && IsJsWhitespace(s[|s| - 1]) then TrimEnd(s[..|s| - 1]) else s
  }

  /** `s.trim()` */
  function Trim(s: string): string
  {
    TrimEnd(TrimStart(s))
  }

  /** `TrimStart` removes a prefix made only of whitespace and stops at the first other
      character. */
  lemma {:induction false} TrimStartStripsWhitespace(s: string)
    ensures |TrimStart(s)| <= |s| && TrimStart(s) == s[|s| - |TrimStart(s)|..]
    ensures forall i :: 0 <= i < |s| - |TrimStart(s)| ==> IsJsWhitespace(s[i])
    ensures TrimStart(s) != [] ==> !IsJsWhitespace(TrimStart(s)[0])
  {
    if s != [] && IsJsWhitespace(s[0]) {
      TrimStartStripsWhitespace(s[1..]);
      forall i | 1 <= i < |s| - |TrimStart(s)|
        ensures IsJsWhitespace(s[i])
      {
        assert s[i] == s[1..][i - 1];
      }
    }
  }

  /** `TrimEnd` removes a suffix made only of whitespace and stops at the last other
      character. */
  lemma {:induction false} TrimEndStripsWhitespace(s: string)
    ensures |TrimEnd(s)| <= |s| && TrimEnd(s) == s[..|TrimEnd(s)|]
    ensures forall i :: |TrimEnd(s)| <= i < |s| ==> IsJsWhitespace(s[i])
    ensures TrimEnd(s) != [] ==> !IsJsWhitespace(TrimEnd(s)[|TrimEnd(s)| - 1])
  {
    if s != [] && IsJsWhitespace(s[|s| - 1]) {
      var front := s[..|s| - 1];
      TrimEndStripsWhitespace(front);
      forall i | |TrimEnd(s)| <= i < |s| - 1
        ensures IsJsWhitespace(s[i])
      {
        assert s[i] == front[i];
      }
      assert TrimEnd(s) == front[..|TrimEnd(s)|];
    }
  }

  /** The query has a character other than whitespace. */
  predicate HasContent(s: string)
  {
    exists i :: 0 <= i < |s| && !IsJsWhitespace(s[i])
  }

  /** `!searchQuery.trim()` holds exactly when every character of the query is whitespace
      (the empty query included). */
  lemma BlankQueryIsAllWhitespace(s: string)
    ensures Trim(s) == [] <==> !HasContent(s)
  {
    var t := TrimStart(s);
    TrimStartStripsWhitespace(s);
    TrimEndStripsWhitespace(t);
    if HasContent(s) {
      var k :| 0 <= k < |s| && !IsJsWhitespace(s[k]);
      assert t != [];
      assert t[0] == s[|s| - |t|];
    }
  }

  /** `o ?? ""` */
  function OrEmpty(o: Option<string>): string
  {
    match o
    case Some(v) => v
    case None => ""
  }

  /** One search response entry as a card: missing name or address become "", a place without
      photos has the image "", and a missing location becomes (0, 0). */
  function ToCard(p: PlaceResult): (c: Location)
    ensures c.name == if p.displayName.Some? then p.displayName.value else ""
    ensures c.address == if p.formattedAddress.Some? then p.formattedAddress.value else ""
    ensures c.imgUrl == if |p.photoUris| > 0 then p.photoUris[0] else ""
    ensures p.location.Some? ==> c.lat == p.location.value.lat && c.lng == p.location.value.lng
    ensures p.location.None? ==> c.lat == 0.0 && c.lng == 0.0
  {
    Location(
      OrEmpty(p.displayName),
      OrEmpty(p.formattedAddress),
      if |p.photoUris| > 0 then p.photoUris[0] else "",
      if p.location.Some? then p.location.value.lat else 0.0,
      if p.location.Some? then p.location.value.lng else 0.0)
  }

  /** The cards of a search response, one per place, in response order; each card carries its
      place's fields, with "" for a missing name, address or photo and (0, 0) for a missing
      location. */
  function ToCards(places: seq<PlaceResult>): (cards: seq<Location>)
    ensures |cards| == |places|
    ensures forall i :: 0 <= i < |places| ==> cards[i] == ToCard(places[i])
    ensures forall i :: 0 <= i < |places| && places[i].displayName.None? ==> cards[i].name == ""
    ensures forall i :: 0 <= i < |places| && places[i].formattedAddress.None? ==> cards[i].address == ""
    ensures forall i :: 0 <= i < |places| && places[i].photoUris == [] ==> cards[i].imgUrl == ""
    ensures forall i :: 0 <= i < |places| && places[i].location.None? ==> cards[i].lat == 0.0 && cards[i].lng == 0.0
  {
    seq(|places|, i requires 0 <= i < |places| => ToCard(places[i]))
  }

  /** The map centre used as the search bias and as the reward reference point. */
  const CampusLat: real := 33.645933
  const CampusLng: real := -117.842795
  /** A reward needs the result to lie less than this many kilometres from campus. */
  const RewardRadiusKm: real := 5.0

  /** The great-circle distance in kilometres between two coordinates given as
      (lat1, lng1, lat2, lng2); the floating-point haversine formula is not modelled. */
  type Haversine = (real, real, real, real) -> real

  /** The result at `index` earns the reward: it is the drawn one and it lies near campus. */
  predicate RewardEligible(index: int, rewardIndex: int, item: Location, haversine: Haversine)
  {
    index == rewardIndex && haversine(item.lat, item.lng, CampusLat, CampusLng) < RewardRadiusKm
  }

  /** Two results without an address both become cards with the address "", so once one of
      them is saved, saving the other leaves the saved list as it is. */
  lemma MissingAddressesCollide(results: seq<PlaceResult>, i: nat, j: nat, saved: seq<Location>)
    requires i < |results| && j < |results|
    requires results[i].formattedAddress.None? && results[j].formattedAddress.None?
    ensures AddPlace(AddPlace(saved, ToCards(results)[i]), ToCards(results)[j]) == AddPlace(saved, ToCards(results)[i])
  {
    var cards := ToCards(results);
    assert cards[i].address == cards[j].address == "";
    assert HasAddress(AddPlace(saved, cards[i]), cards[j].address);
  }
}
