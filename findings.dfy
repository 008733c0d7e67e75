/** Concrete stores on which the handlers as written break the store's
    invariants, and on which the added status guards refuse the call. */
module Findings {
  import opened Domain
  import opened Fare
  import opened Invariants
  import opened Transitions
  import opened Reports

  const Admin: Caller := Caller(1, AdminRole)
  /** The user behind driver 1. */
  const DriverUser: Caller := Caller(2, DriverRole)

  function Ride(): Booking {
    NewBooking(7, "A St", "B Ave", 10.0, 0)
  }

  function Fleet(status: UnitStatus): (map<int, Driver>, map<int, Cab>) {
    (map[1 := Driver(DriverUser.userId, "DL001", status)], map[1 := Cab("KA-01-AB-1234", None, status)])
  }

  /** Booking 1 holds driver 1 and cab 1; booking 2 is pending. */
  function OneAssigned(): Store {
    var (ds, cs) := Fleet(OnTrip);
    Store(map[], ds, cs, map[1 := Ride().(driverId := Some(1), cabId := Some(1), status := Assigned), 2 := Ride()])
  }

  /** Assignment as written hands a driver and cab that are already on a
      trip to a second booking: two active bookings then hold driver 1. */
  lemma DoubleAssignment()
    ensures Valid(OneAssigned())
    ensures AssignCheck(OneAssigned(), Admin, 2, Some(1), Some(1)) == Ok
    ensures !Valid(Assign(OneAssigned(), 2, 1, 1))
    ensures |ActiveTrips(Assign(OneAssigned(), 2, 1, 1).bookings, 1)| == 2
    ensures !AssignReady(OneAssigned(), 2, 1, 1)
  {
    OneAssignedValid();
    var bs' := Assign(OneAssigned(), 2, 1, 1).bookings;
    assert Engages(bs'[1], OfDriver, 1) && Engages(bs'[2], OfDriver, 1);
    assert ActiveTrips(bs', 1) == {1, 2};
  }

  lemma OneAssignedValid()
    ensures Valid(OneAssigned())
  {
    var s := OneAssigned();
    var bs := s.bookings;
    forall kind: Kind ensures Busy(bs, kind, 1) {
      assert Engages(bs[1], kind, 1);
    }
    forall k, kind: Kind, u | k in bs && Engages(bs[k], kind, u) ensures k == 1 && u == 1 {
    }
    assert DriverStatuses(s.drivers) == map[1 := OnTrip];
    assert CabStatuses(s.cabs) == map[1 := OnTrip];
  }

  /** Booking 1 was completed by driver 1; driver and cab are free. */
  function OneCompleted(): Store {
    var (ds, cs) := Fleet(Available);
    var r := Ride();
    Store(map[], ds, cs, map[1 := r.(driverId := Some(1), cabId := Some(1), status := Completed,
                                      fareFinal := Some(r.fareEstimate), completedAt := Some(5))])
  }

  /** Starting as written reopens a completed trip: it goes en route while
      keeping its final fare, and the report then counts its fare as revenue
      from no completed trip. */
  lemma RestartCompletedTrip()
    ensures Valid(OneCompleted())
    ensures TripCheck(OneCompleted(), DriverUser, 1) == Ok
    ensures var after := Start(OneCompleted(), 1);
            && !Valid(after)
            && after.bookings[1].status == EnRoute && after.bookings[1].fareFinal == Some(200.0)
            && Summarize(after.bookings) == Summary(200.0, 0, 0.0)
    ensures !StartReady(OneCompleted(), 1)
  {
    OneCompletedValid();
    var s := OneCompleted();
    assert s.drivers.Keys == {1} && s.drivers[1].userId == DriverUser.userId;
    assert DriverOfUser(s.drivers, DriverUser.userId) == Some(1);
    var after := Start(s, 1);
    assert !Consistent(after.bookings[1]);
    RevenueWithout(after.bookings, 1);
    assert (after.bookings - {1}).Keys == {};
    assert CompletedIds(after.bookings) == {};
  }

  lemma OneCompletedValid()
    ensures Valid(OneCompleted())
  {
    var s := OneCompleted();
    var bs := s.bookings;
    forall kind: Kind, u ensures !Busy(bs, kind, u) {
      assert !Active(bs[1]);
    }
    assert DriverStatuses(s.drivers) == map[1 := Available];
    assert CabStatuses(s.cabs) == map[1 := Available];
  }

  /** Booking 1 was assigned to driver 1 and cancelled; booking 2 then took
      driver 1 and cab 1. */
  function CancelledThenReassigned(): Store {
    var (ds, cs) := Fleet(OnTrip);
    var held := Ride().(driverId := Some(1), cabId := Some(1));
    Store(map[], ds, cs, map[1 := held.(status := Cancelled), 2 := held.(status := Assigned)])
  }

  /** Completing as written a cancelled trip turns it into paid revenue and
      frees driver 1 and cab 1 while booking 2 still holds them. */
  lemma CompleteCancelledTrip()
    ensures Valid(CancelledThenReassigned())
    ensures TripCheck(CancelledThenReassigned(), DriverUser, 1) == Ok
    ensures var after := Complete(CancelledThenReassigned(), 1, 9);
            && !Valid(after)
            && after.drivers[1].status == Available && Active(after.bookings[2])
            && after.bookings[1].fareFinal == Some(200.0)
    ensures !CompleteReady(CancelledThenReassigned(), 1)
  {
    CancelledThenReassignedValid();
    var s := CancelledThenReassigned();
    assert s.drivers.Keys == {1} && s.drivers[1].userId == DriverUser.userId;
    assert DriverOfUser(s.drivers, DriverUser.userId) == Some(1);
    var after := Complete(s, 1, 9);
    assert DriverStatuses(after.drivers)[1] == Available;
    assert Engages(after.bookings[2], OfDriver, 1);
  }

  lemma CancelledThenReassignedValid()
    ensures Valid(CancelledThenReassigned())
  {
    var s := CancelledThenReassigned();
    var bs := s.bookings;
    forall kind: Kind ensures Busy(bs, kind, 1) {
      assert Engages(bs[2], kind, 1);
    }
    forall k, kind: Kind, u | k in bs && Engages(bs[k], kind, u) ensures k == 2 && u == 1 {
    }
    assert DriverStatuses(s.drivers) == map[1 := OnTrip];
    assert CabStatuses(s.cabs) == map[1 := OnTrip];
  }
}
