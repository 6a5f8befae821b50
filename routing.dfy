/** Trip metrics from a routing response: the sum of the legs' distances and durations,
    a missing value counting as zero, and the metre-to-mile conversion. */
module Routing {
  import opened Types

  /** The metres-per-mile divisor `App.tsx` uses. */
  const MetresPerMile: real := 1600.0

  /** `leg.distance?.value ?? 0` */
  function LegMetres(leg: Leg): nat
  {
    match leg.distance
    case Some(m) => m
    case None => 0
  }

  /** `leg.duration?.value ?? 0` */
  function LegSeconds(leg: Leg): nat
  {
    match leg.duration
    case Some(s) => s
    case None => 0
  }

  /** Total length of the legs in metres. */
  function TotalMetres(legs: seq<Leg>): nat
  {
    if legs == [] then 0 else TotalMetres(legs[..|legs| - 1]) + LegMetres(legs[|legs| - 1])
  }

  /** Total duration of the legs in seconds. */
  function TotalSeconds(legs: seq<Leg>): nat
  {
    if legs == [] then 0 else TotalSeconds(legs[..|legs| - 1]) + LegSeconds(legs[|legs| - 1])
  }

  /** The totals split over any division of the route into two parts. */
  lemma {:induction false} TotalsAppend(a: seq<Leg>, b: seq<Leg>)
    ensures TotalMetres(a + b) == TotalMetres(a) + TotalMetres(b)
    ensures TotalSeconds(a + b) == TotalSeconds(a) + TotalSeconds(b)
  {
    if b != [] {
      var n := |b| - 1;
      assert (a + b)[..|a + b| - 1] == a + b[..n];
      assert (a + b)[|a + b| - 1] == b[n];
      TotalsAppend(a, b[..n]);
    } else {
      assert a + b == a;
    }
  }

  /** No single leg is longer or slower than the whole route. */
  lemma {:induction false} LegBoundedByTotal(legs: seq<Leg>, k: nat)
    requires k < |legs|
    ensures LegMetres(legs[k]) <= TotalMetres(legs)
    ensures LegSeconds(legs[k]) <= TotalSeconds(legs)
  {
    if k < |legs| - 1 {
      LegBoundedByTotal(legs[..|legs| - 1], k);
    }
  }

  /** The accumulation loop of the directions callback: `distance += ...; travel_time += ...`
      for each leg, in order. */
  method SumLegs(legs: seq<Leg>) returns (distance: nat, travelTime: nat)
    ensures distance == TotalMetres(legs)
    ensures travelTime == TotalSeconds(legs)
  {
    distance, travelTime := 0, 0;
    var i := 0;
    while i < |legs|
      invariant 0 <= i <= |legs|
      invariant distance == TotalMetres(legs[..i])
      invariant travelTime == TotalSeconds(legs[..i])
    {
      assert legs[..i + 1][..i] == legs[..i];
      distance := distance + LegMetres(legs[i]);
      travelTime := travelTime + LegSeconds(legs[i]);
      i := i + 1;
    }
    assert legs[..i] == legs;
  }

  /** `distance / 1600`: the displayed distance in the component's miles. */
  function Miles(metres: nat): (m: real)
    ensures m >= 0.0
    ensures m * MetresPerMile == metres as real
  {
    metres as real / MetresPerMile
  }
}
