/** The dispatch store and its handlers. Each handler is one atomic method:
    it either commits all of its writes and returns `Ok`, or returns the
    failure and leaves every table as it was. The caller's session is an
    explicit `Caller`; clock readings are parameters. */
module Dispatch {
  import opened Domain
  import opened Fare
  import opened Keys
  import opened Invariants
  import opened Transitions
  import opened Lemmas
  import opened Reports

  class Dispatcher {
    var users: map<int, User>
    var drivers: map<int, Driver>
    var cabs: map<int, Cab>
    var bookings: map<int, Booking>

    function State(): Store
      reads this
    {
      Store(users, drivers, cabs, bookings)
    }

    /** Opens an existing database. */
    constructor Load(s: Store)
      requires WellFormed(s)
      ensures State() == s
    {
      users, drivers, cabs, bookings := s.users, s.drivers, s.cabs, s.bookings;
    }

    // ------------------------------------------------------------ customer

    method CreateBooking(caller: Caller, pickup: Option<string>, dropoff: Option<string>,
                         distanceKm: Option<real>, now: int)
      returns (r: Outcome, id: int)
      requires WellFormed(State())
      modifies this
      ensures WellFormed(State()) && (old(Valid(State())) ==> Valid(State()))
      ensures r == CreateCheck(caller, pickup, dropoff)
      ensures r == Ok ==> id == NextId(old(bookings).Keys) && id !in old(bookings)
      ensures r == Ok ==> State() == Create(old(State()), NewBooking(caller.userId, pickup.value, dropoff.value,
                                                                     DistanceOrDefault(distanceKm), now))
      ensures r == Ok ==> && bookings[id].status == Pending
                          && bookings[id].customerId == caller.userId
                          && bookings[id].fareEstimate == BaseFare + DistanceOrDefault(distanceKm) * PerKmRate
                          && bookings[id].driverId.None? && bookings[id].cabId.None?
                          && bookings[id].fareFinal.None? && bookings[id].completedAt.None?
      ensures r != Ok ==> State() == old(State())
    {
      ghost var s0 := State();
      id := 0;
      if caller.role != CustomerRole {
        return Forbidden, id;
      }
      if pickup.None? || dropoff.None? {
        // NOT NULL columns: the insert fails at commit
        return Rejected, id;
      }
      var distance := DistanceOrDefault(distanceKm);
      var fare := Estimate(distance);
      id := NextId(bookings.Keys);
      bookings := bookings[id := Booking(caller.userId, None, None, pickup.value, dropoff.value,
                                         distance, fare, None, Pending, now, None)];
      r := Ok;
      if Valid(s0) {
        CreateKeepsValid(s0, caller.userId, pickup.value, dropoff.value, distance, now);
      }
    }

    method CancelBooking(caller: Caller, bid: int) returns (r: Outcome)
      requires WellFormed(State())
      modifies this
      ensures WellFormed(State()) && (old(Valid(State())) ==> Valid(State()))
      ensures r == CancelCheck(old(State()), caller, bid)
      ensures r == Ok ==> State() == Cancel(old(State()), bid)
      ensures r == Ok ==> bookings[bid] == old(bookings)[bid].(status := Cancelled)
      ensures r == Ok && old(bookings)[bid].driverId.None? ==> drivers == old(drivers)
      ensures r == Ok && old(bookings)[bid].cabId.None? ==> cabs == old(cabs)
      ensures r != Ok ==> State() == old(State())
    {
      ghost var s0 := State();
      if caller.role != CustomerRole {
        return Forbidden;
      }
      if bid !in bookings {
        return NotFound;
      }
      var booking := bookings[bid];
      if booking.customerId != caller.userId || booking.status !in {Pending, Assigned} {
        return Forbidden;
      }
      bookings := bookings[bid := booking.(status := Cancelled)];
      if booking.driverId.Some? {
        var d := booking.driverId.value;
        drivers := drivers[d := drivers[d].(status := Available)];
      }
      if booking.cabId.Some? {
        var c := booking.cabId.value;
        cabs := cabs[c := cabs[c].(status := Available)];
      }
      r := Ok;
      if Valid(s0) {
        CancelKeepsValid(s0, bid);
      }
    }

    // --------------------------------------------------------------- admin

    /** The handler as written: no check of the booking's status or of the
        driver's and cab's availability. */
    method AssignBookingAsWritten(caller: Caller, bid: int, driverId: Option<int>, cabId: Option<int>)
      returns (r: Outcome)
      requires WellFormed(State())
      modifies this
      ensures WellFormed(State())
      ensures r == AssignCheck(old(State()), caller, bid, driverId, cabId)
      ensures r == Ok ==> State() == Assign(old(State()), bid, driverId.value, cabId.value)
      ensures r != Ok ==> State() == old(State())
    {
      if caller.role != AdminRole {
        return Forbidden;
      }
      if bid !in bookings {
        return NotFound;
      }
      if driverId.None? || cabId.None? {
        return Rejected;
      }
      var d, c := driverId.value, cabId.value;
      if d !in drivers || c !in cabs {
        // the status write on a missing row fails before the commit
        return NotFound;
      }
      var booking := bookings[bid];
      bookings := bookings[bid := booking.(driverId := Some(d), cabId := Some(c), status := Assigned)];
      drivers := drivers[d := drivers[d].(status := OnTrip)];
      cabs := cabs[c := cabs[c].(status := OnTrip)];
      r := Ok;
    }

    /** The handler with the added guard: an assignment that would succeed
        as written is rejected unless the booking is pending and the driver
        and cab are available. */
    method AssignBooking(caller: Caller, bid: int, driverId: Option<int>, cabId: Option<int>)
      returns (r: Outcome)
      requires WellFormed(State())
      modifies this
      ensures WellFormed(State()) && (old(Valid(State())) ==> Valid(State()))
      ensures var check := AssignCheck(old(State()), caller, bid, driverId, cabId);
              r == if check == Ok && !AssignReady(old(State()), bid, driverId.value, cabId.value)
                   then Rejected else check
      ensures r == Ok ==> State() == Assign(old(State()), bid, driverId.value, cabId.value)
      ensures r != Ok ==> State() == old(State())
    {
      ghost var s0 := State();
      if AssignCheck(State(), caller, bid, driverId, cabId) == Ok
         && !AssignReady(State(), bid, driverId.value, cabId.value) {
        return Rejected;
      }
      r := AssignBookingAsWritten(caller, bid, driverId, cabId);
      if r == Ok && Valid(s0) {
        AssignKeepsValid(s0, bid, driverId.value, cabId.value);
      }
    }

    method Reports(caller: Caller) returns (r: Outcome, summary: Summary)
      ensures r == if caller.role == AdminRole then Ok else Forbidden
      ensures r == Ok ==> summary == Summarize(bookings)
    {
      if caller.role != AdminRole {
        return Forbidden, Summary(0.0, 0, 0.0);
      }
      r := Ok;
      summary := Summarize(bookings);
    }

    method AddDriver(caller: Caller, username: string, email: string, licenseNo: string)
      returns (r: Outcome, driverId: int)
      requires WellFormed(State())
      modifies this
      ensures WellFormed(State()) && (old(Valid(State())) ==> Valid(State()))
      ensures r == AddDriverCheck(old(State()), caller, username, email, licenseNo)
      ensures r == Ok ==> driverId == NextId(old(drivers).Keys) && driverId !in old(drivers)
      ensures r == Ok ==> State() == InsertDriver(old(State()), username, email, licenseNo)
      ensures r != Ok ==> State() == old(State())
    {
      ghost var s0 := State();
      driverId := 0;
      if caller.role != AdminRole {
        return Forbidden, driverId;
      }
      if UsernameTaken(users, username) {
        return Rejected, driverId;
      }
      if EmailTaken(users, email) || LicenseTaken(drivers, licenseNo) {
        // UNIQUE columns: the insert fails and is rolled back
        return Rejected, driverId;
      }
      var uid := NextId(users.Keys);
      users := users[uid := User(username, email, DriverRole)];
      driverId := NextId(drivers.Keys);
      drivers := drivers[driverId := Driver(uid, licenseNo, Available)];
      r := Ok;
      if Valid(s0) {
        AddDriverKeepsValid(s0, username, email, licenseNo);
      }
    }

    method AddCab(caller: Caller, registrationNo: string, driverId: Option<int>)
      returns (r: Outcome, cabId: int)
      requires WellFormed(State())
      modifies this
      ensures WellFormed(State()) && (old(Valid(State())) ==> Valid(State()))
      ensures r == AddCabCheck(old(State()), caller, registrationNo)
      ensures r == Ok ==> cabId == NextId(old(cabs).Keys) && cabId !in old(cabs)
      ensures r == Ok ==> State() == InsertCab(old(State()), registrationNo, driverId)
      ensures r != Ok ==> State() == old(State())
    {
      ghost var s0 := State();
      cabId := 0;
      if caller.role != AdminRole {
        return Forbidden, cabId;
      }
      if RegistrationTaken(cabs, registrationNo) {
        return Rejected, cabId;
      }
      cabId := NextId(cabs.Keys);
      cabs := cabs[cabId := Cab(registrationNo, driverId, Available)];
      r := Ok;
      if Valid(s0) {
        AddCabKeepsValid(s0, registrationNo, driverId);
      }
    }

    // -------------------------------------------------------------- driver

    /** The handler as written: only ownership is checked, not the status. */
    method StartTripAsWritten(caller: Caller, bid: int) returns (r: Outcome)
      requires WellFormed(State())
      modifies this
      ensures WellFormed(State())
      ensures r == TripCheck(old(State()), caller, bid)
      ensures r == Ok ==> State() == Start(old(State()), bid)
      ensures r != Ok ==> State() == old(State())
    {
      if caller.role != DriverRole {
        return Forbidden;
      }
      if bid !in bookings {
        return NotFound;
      }
      var me := DriverOfUser(drivers, caller.userId);
      if me.None? {
        // no driver profile: reading its id fails before anything is written
        return NotFound;
      }
      var booking := bookings[bid];
      if booking.driverId != me {
        return Forbidden;
      }
      var d := me.value;
      bookings := bookings[bid := booking.(status := EnRoute)];
      drivers := drivers[d := drivers[d].(status := OnTrip)];
      if booking.cabId.Some? {
        var c := booking.cabId.value;
        cabs := cabs[c := cabs[c].(status := OnTrip)];
      }
      r := Ok;
    }

    /** The handler with the added guard: only an assigned booking starts. */
    method StartTrip(caller: Caller, bid: int) returns (r: Outcome)
      requires WellFormed(State())
      modifies this
      ensures WellFormed(State()) && (old(Valid(State())) ==> Valid(State()))
      ensures var check := TripCheck(old(State()), caller, bid);
              r == if check == Ok && !StartReady(old(State()), bid) then Rejected else check
      ensures r == Ok ==> State() == Start(old(State()), bid)
      ensures r != Ok ==> State() == old(State())
    {
      ghost var s0 := State();
      if TripCheck(State(), caller, bid) == Ok && !StartReady(State(), bid) {
        return Rejected;
      }
      r := StartTripAsWritten(caller, bid);
      if r == Ok && Valid(s0) {
        StartKeepsValid(s0, bid);
      }
    }

    /** The handler as written: only ownership is checked, not the status.
        `fare` is the final fare the response carries. */
    method CompleteTripAsWritten(caller: Caller, bid: int, now: int) returns (r: Outcome, fare: real)
      requires WellFormed(State())
      modifies this
      ensures WellFormed(State())
      ensures r == TripCheck(old(State()), caller, bid)
      ensures r == Ok ==> State() == Complete(old(State()), bid, now)
      ensures r == Ok ==> fare == old(bookings)[bid].fareEstimate && bookings[bid].fareFinal == Some(fare)
      ensures r != Ok ==> State() == old(State())
    {
      fare := 0.0;
      if caller.role != DriverRole {
        return Forbidden, fare;
      }
      if bid !in bookings {
        return NotFound, fare;
      }
      var me := DriverOfUser(drivers, caller.userId);
      if me.None? {
        return NotFound, fare;
      }
      var booking := bookings[bid];
      if booking.driverId != me {
        return Forbidden, fare;
      }
      var d := me.value;
      fare := booking.fareEstimate;
      bookings := bookings[bid := booking.(status := Completed, completedAt := Some(now), fareFinal := Some(fare))];
      drivers := drivers[d := drivers[d].(status := Available)];
      if booking.cabId.Some? {
        var c := booking.cabId.value;
        cabs := cabs[c := cabs[c].(status := Available)];
      }
      r := Ok;
    }

    /** The handler with the added guard: only an en-route booking
        completes. */
    method CompleteTrip(caller: Caller, bid: int, now: int) returns (r: Outcome, fare: real)
      requires WellFormed(State())
      modifies this
      ensures WellFormed(State()) && (old(Valid(State())) ==> Valid(State()))
      ensures var check := TripCheck(old(State()), caller, bid);
              r == if check == Ok && !CompleteReady(old(State()), bid) then Rejected else check
      ensures r == Ok ==> State() == Complete(old(State()), bid, now)
      ensures r == Ok ==> fare == old(bookings)[bid].fareEstimate && bookings[bid].fareFinal == Some(fare)
      ensures r != Ok ==> State() == old(State())
    {
      ghost var s0 := State();
      if TripCheck(State(), caller, bid) == Ok && !CompleteReady(State(), bid) {
        return Rejected, 0.0;
      }
      r, fare := CompleteTripAsWritten(caller, bid, now);
      if r == Ok && Valid(s0) {
        CompleteKeepsValid(s0, bid, now);
      }
    }
  }
}
