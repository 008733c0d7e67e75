/** The properties a consistent store keeps: references resolve, a fare is
    final exactly for completed bookings, a booking's driver and cab
    references follow its status, and a driver or cab is on a trip exactly
    when one active booking holds it. */
module Invariants {
  import opened Domain
  import opened Fare

  /** Drivers and cabs are treated alike by the exclusivity rule. */
  datatype Kind = OfDriver | OfCab

  function RefOf(b: Booking, kind: Kind): Option<int> {
    match kind
    case OfDriver => b.driverId
    case OfCab => b.cabId
  }

  /** Booking `b` currently holds unit `u` of the given kind. */
  predicate Engages(b: Booking, kind: Kind, u: int) {
    Active(b) && RefOf(b, kind) == Some(u)
  }

  ghost predicate Busy(bs: map<int, Booking>, kind: Kind, u: int) {
    exists k :: k in bs && Engages(bs[k], kind, u)
  }

  /** At most one active booking holds a unit, and a unit is `OnTrip`
      exactly when one does. */
  ghost predicate Exclusive(bs: map<int, Booking>, units: map<int, UnitStatus>, kind: Kind) {
    && (forall k1, k2, u :: k1 in bs && k2 in bs && Engages(bs[k1], kind, u) && Engages(bs[k2], kind, u) ==> k1 == k2)
    && (forall u :: u in units ==> (units[u] == OnTrip <==> Busy(bs, kind, u)))
  }

  function DriverStatuses(ds: map<int, Driver>): map<int, UnitStatus> {
    map d | d in ds :: ds[d].status
  }

  function CabStatuses(cs: map<int, Cab>): map<int, UnitStatus> {
    map c | c in cs :: cs[c].status
  }

  /** The driver and cab a booking names are rows of the store. */
  predicate Resolves(s: Store, b: Booking) {
    && (b.driverId.Some? ==> b.driverId.value in s.drivers)
    && (b.cabId.Some? ==> b.cabId.value in s.cabs)
  }

  /** What every handler, as written, keeps: autoincrement keys start at 1
      (so a present id is never the falsy 0) and bookings reference
      existing drivers and cabs. */
  ghost predicate WellFormed(s: Store) {
    && (forall k :: k in s.users ==> k >= 1)
    && (forall k :: k in s.drivers ==> k >= 1)
    && (forall k :: k in s.cabs ==> k >= 1)
    && (forall k :: k in s.bookings ==> k >= 1)
    && (forall k :: k in s.bookings ==> Resolves(s, s.bookings[k]))
  }

  /** The per-booking invariants: the estimate is priced from the distance;
      `fareFinal` and `completedAt` are set exactly for completed bookings,
      and the final fare is the estimate; a pending booking has no driver or
      cab, an assigned, en-route or completed one has both, and a cancelled
      one has both or neither. */
  ghost predicate Consistent(b: Booking) {
    && b.fareEstimate == Estimate(b.distanceKm)
    && (b.fareFinal.Some? <==> b.status == Completed)
    && (b.completedAt.Some? <==> b.status == Completed)
    && (b.fareFinal.Some? ==> b.fareFinal.value == b.fareEstimate)
    && (b.status == Pending ==> b.driverId.None? && b.cabId.None?)
    && (b.status in {Assigned, EnRoute, Completed} ==> b.driverId.Some? && b.cabId.Some?)
    && (b.driverId.Some? <==> b.cabId.Some?)
  }

  ghost predicate Valid(s: Store) {
    && WellFormed(s)
    && (forall k :: k in s.bookings ==> Consistent(s.bookings[k]))
    && Exclusive(s.bookings, DriverStatuses(s.drivers), OfDriver)
    && Exclusive(s.bookings, CabStatuses(s.cabs), OfCab)
  }

  /** The trips a driver's "assigned trips" page lists. */
  function ActiveTrips(bs: map<int, Booking>, d: int): set<int> {
    set k | k in bs && Engages(bs[k], OfDriver, d)
  }

  /** The exclusivity rule in its counting form: an on-trip driver has
      exactly one active booking, an available one none. */
  lemma {:induction false} ExactlyOneTrip(s: Store, d: int)
    requires Valid(s) && d in s.drivers
    ensures |ActiveTrips(s.bookings, d)| == if s.drivers[d].status == OnTrip then 1 else 0
  {
    var units := DriverStatuses(s.drivers);
    assert units[d] == s.drivers[d].status;
    var trips := ActiveTrips(s.bookings, d);
    if s.drivers[d].status == OnTrip {
      assert Busy(s.bookings, OfDriver, d);
      var k :| k in s.bookings && Engages(s.bookings[k], OfDriver, d);
      forall j | j in trips ensures j == k {
        assert Engages(s.bookings[j], OfDriver, d);
      }
      assert trips == {k};
    } else {
      assert !Busy(s.bookings, OfDriver, d);
      forall j ensures j !in trips {
        assert j in s.bookings ==> !Engages(s.bookings[j], OfDriver, d);
      }
      assert trips == {};
    }
  }
}
