/** The fare estimate computed when a booking is created. */
module Fare {

  const BaseFare: real := 50.0
  const PerKmRate: real := 15.0
  /** The distance used when the form carries none. */
  const DefaultDistanceKm: real := 5.0

  function Estimate(distanceKm: real): (fare: real)
    ensures fare >= BaseFare <==> distanceKm >= 0.0
    ensures fare == BaseFare <==> distanceKm == 0.0
  {
    BaseFare + distanceKm * PerKmRate
  }

  /** The distance a given estimate was computed from. */
  function DistanceFor(fare: real): (distanceKm: real)
    ensures Estimate(distanceKm) == fare
  {
    (fare - BaseFare) / PerKmRate
  }

  lemma EstimateDeterminesDistance(distanceKm: real)
    ensures DistanceFor(Estimate(distanceKm)) == distanceKm
  {
  }

  lemma EstimateMonotone(d1: real, d2: real)
    requires d1 <= d2
    ensures Estimate(d1) <= Estimate(d2)
    ensures Estimate(d2) - Estimate(d1) == (d2 - d1) * PerKmRate
  {
  }
}
