/** The handlers' guard chains and the writes a successful handler commits,
    as functions of the store. The guard chains are those of the source; the
    three `...Ready` predicates are the status guards the source does not
    have, added by this model. */
module Transitions {
  import opened Domain
  import opened Fare
  import opened Keys
  import opened Invariants

  // ---------------------------------------------------------------- lookups

  /** The caller's driver profile: the first driver row (least id) whose
      user is the caller, if any. */
  function DriverOfUser(ds: map<int, Driver>, userId: int): (r: Option<int>)
    ensures r.None? <==> forall d :: d in ds ==> ds[d].userId != userId
    ensures r.Some? ==> r.value in ds && ds[r.value].userId == userId
    ensures r.Some? ==> forall d :: d in ds && ds[d].userId == userId ==> r.value <= d
  {
    var mine := set d | d in ds && ds[d].userId == userId;
    assert forall d :: d in ds && ds[d].userId == userId ==> d in mine;
    if mine == {} then None else Some(Least(mine))
  }

  function UsernameTaken(users: map<int, User>, username: string): bool {
    exists u :: u in users && users[u].username == username
  }

  function EmailTaken(users: map<int, User>, email: string): bool {
    exists u :: u in users && users[u].email == email
  }

  function LicenseTaken(ds: map<int, Driver>, licenseNo: string): bool {
    exists d :: d in ds && ds[d].licenseNo == licenseNo
  }

  function RegistrationTaken(cs: map<int, Cab>, registrationNo: string): bool {
    exists c :: c in cs && cs[c].registrationNo == registrationNo
  }

  // ---------------------------------------------------------- guard chains

  /** Booking creation: customers only; a missing pickup or dropoff
      violates a NOT NULL column and the insert is rolled back. */
  function CreateCheck(caller: Caller, pickup: Option<string>, dropoff: Option<string>): (r: Outcome)
    ensures r == Ok <==> caller.role == CustomerRole && pickup.Some? && dropoff.Some?
    ensures r != Ok ==> r == Forbidden || r == Rejected
  {
    if caller.role != CustomerRole then Forbidden
    else if pickup.None? || dropoff.None? then Rejected
    else Ok
  }

  /** The distance the form gives, or the default. */
  function DistanceOrDefault(distanceKm: Option<real>): real {
    if distanceKm.Some? then distanceKm.value else DefaultDistanceKm
  }

  /** A new booking: pending, priced, owned by its customer, with no driver,
      cab, final fare or completion time. */
  function NewBooking(customerId: int, pickup: string, dropoff: string, distanceKm: real, now: int): Booking {
    Booking(customerId, None, None, pickup, dropoff, distanceKm, Estimate(distanceKm), None, Pending, now, None)
  }

  /** Assignment as written: admins only; the booking must exist; both ids
      must be given; a driver or cab id with no row makes the handler fail
      before it commits. Nothing about statuses is checked. */
  function AssignCheck(s: Store, caller: Caller, bid: int, d: Option<int>, c: Option<int>): (r: Outcome)
    ensures r == Ok <==> caller.role == AdminRole && bid in s.bookings && d.Some? && c.Some?
                         && d.value in s.drivers && c.value in s.cabs
    ensures caller.role == AdminRole && bid in s.bookings && (d.None? || c.None?) ==> r == Rejected
  {
    if caller.role != AdminRole then Forbidden
    else if bid !in s.bookings then NotFound
    else if d.None? || c.None? then Rejected
    else if d.value !in s.drivers || c.value !in s.cabs then NotFound
    else Ok
  }

  /** Added guard: the booking is pending and the driver and cab are free. */
  predicate AssignReady(s: Store, bid: int, d: int, c: int)
    requires bid in s.bookings && d in s.drivers && c in s.cabs
  {
    s.bookings[bid].status == Pending && s.drivers[d].status == Available && s.cabs[c].status == Available
  }

  /** Cancellation: customers only; the booking must exist; the caller must
      own it and it must be pending or assigned (one 403 for both). */
  function CancelCheck(s: Store, caller: Caller, bid: int): (r: Outcome)
    ensures r == Ok <==> caller.role == CustomerRole && bid in s.bookings
                         && s.bookings[bid].customerId == caller.userId
                         && s.bookings[bid].status in {Pending, Assigned}
    ensures r != Ok ==> r in {Forbidden, NotFound}
  {
    if caller.role != CustomerRole then Forbidden
    else if bid !in s.bookings then NotFound
    else if s.bookings[bid].customerId != caller.userId || s.bookings[bid].status !in {Pending, Assigned} then Forbidden
    else Ok
  }

  /** Start and complete share one guard chain: drivers only; the booking
      must exist; the caller must have a driver profile; that driver must be
      the booking's driver. Nothing about the status is checked. */
  function TripCheck(s: Store, caller: Caller, bid: int): (r: Outcome)
    ensures r == Ok <==> caller.role == DriverRole && bid in s.bookings
                         && DriverOfUser(s.drivers, caller.userId).Some?
                         && s.bookings[bid].driverId == DriverOfUser(s.drivers, caller.userId)
    ensures r == Ok ==> s.bookings[bid].driverId.Some? && s.bookings[bid].driverId.value in s.drivers
  {
    if caller.role != DriverRole then Forbidden
    else if bid !in s.bookings then NotFound
    else
      var me := DriverOfUser(s.drivers, caller.userId);
      if me.None? then NotFound
      else if s.bookings[bid].driverId != me then Forbidden
      else Ok
  }

  /** Added guard: only an assigned trip can start. */
  predicate StartReady(s: Store, bid: int)
    requires bid in s.bookings
  {
    s.bookings[bid].status == Assigned
  }

  /** Added guard: only a trip under way can complete. */
  predicate CompleteReady(s: Store, bid: int)
    requires bid in s.bookings
  {
    s.bookings[bid].status == EnRoute
  }

  /** Driver creation: admins only; a taken username is refused by the
      handler; a taken email or license number violates a UNIQUE column and
      the insert is rolled back. */
  function AddDriverCheck(s: Store, caller: Caller, username: string, email: string, licenseNo: string): (r: Outcome)
    ensures r == Ok <==> caller.role == AdminRole && !UsernameTaken(s.users, username)
                         && !EmailTaken(s.users, email) && !LicenseTaken(s.drivers, licenseNo)
    ensures caller.role == AdminRole && UsernameTaken(s.users, username) ==> r == Rejected
  {
    if caller.role != AdminRole then Forbidden
    else if UsernameTaken(s.users, username) then Rejected
    else if EmailTaken(s.users, email) || LicenseTaken(s.drivers, licenseNo) then Rejected
    else Ok
  }

  /** Cab creation: admins only; a taken registration number is refused. */
  function AddCabCheck(s: Store, caller: Caller, registrationNo: string): (r: Outcome)
    ensures r == Ok <==> caller.role == AdminRole && !RegistrationTaken(s.cabs, registrationNo)
  {
    if caller.role != AdminRole then Forbidden
    else if RegistrationTaken(s.cabs, registrationNo) then Rejected
    else Ok
  }

  // ---------------------------------------------------------------- effects

  function WithDriverStatus(ds: map<int, Driver>, d: Option<int>, st: UnitStatus): map<int, Driver>
    requires d.Some? ==> d.value in ds
  {
    if d.Some? then ds[d.value := ds[d.value].(status := st)] else ds
  }

  function WithCabStatus(cs: map<int, Cab>, c: Option<int>, st: UnitStatus): map<int, Cab>
    requires c.Some? ==> c.value in cs
  {
    if c.Some? then cs[c.value := cs[c.value].(status := st)] else cs
  }

  function Create(s: Store, b: Booking): Store {
    s.(bookings := s.bookings[NextId(s.bookings.Keys) := b])
  }

  /** The booking takes the driver and cab and becomes assigned; the driver
      and cab go on trip. */
  function Assign(s: Store, bid: int, d: int, c: int): Store
    requires bid in s.bookings && d in s.drivers && c in s.cabs
  {
    s.(bookings := s.bookings[bid := s.bookings[bid].(driverId := Some(d), cabId := Some(c), status := Assigned)],
       drivers := s.drivers[d := s.drivers[d].(status := OnTrip)],
       cabs := s.cabs[c := s.cabs[c].(status := OnTrip)])
  }

  /** The booking is cancelled, keeping its references; the driver and cab
      it names, if any, become available. */
  function Cancel(s: Store, bid: int): Store
    requires bid in s.bookings && Resolves(s, s.bookings[bid])
  {
    var b := s.bookings[bid];
    s.(bookings := s.bookings[bid := b.(status := Cancelled)],
       drivers := WithDriverStatus(s.drivers, b.driverId, Available),
       cabs := WithCabStatus(s.cabs, b.cabId, Available))
  }

  /** The booking goes en route; its driver and its cab, if any, go on trip. */
  function Start(s: Store, bid: int): Store
    requires bid in s.bookings && Resolves(s, s.bookings[bid])
  {
    var b := s.bookings[bid];
    s.(bookings := s.bookings[bid := b.(status := EnRoute)],
       drivers := WithDriverStatus(s.drivers, b.driverId, OnTrip),
       cabs := WithCabStatus(s.cabs, b.cabId, OnTrip))
  }

  /** The booking completes at `now` with the estimate as its final fare; its
      driver and its cab, if any, become available. */
  function Complete(s: Store, bid: int, now: int): Store
    requires bid in s.bookings && Resolves(s, s.bookings[bid])
  {
    var b := s.bookings[bid];
    s.(bookings := s.bookings[bid := b.(status := Completed, completedAt := Some(now), fareFinal := Some(b.fareEstimate))],
       drivers := WithDriverStatus(s.drivers, b.driverId, Available),
       cabs := WithCabStatus(s.cabs, b.cabId, Available))
  }

  /** A driver user and its available driver profile. */
  function InsertDriver(s: Store, username: string, email: string, licenseNo: string): Store {
    var uid := NextId(s.users.Keys);
    s.(users := s.users[uid := User(username, email, DriverRole)],
       drivers := s.drivers[NextId(s.drivers.Keys) := Driver(uid, licenseNo, Available)])
  }

  /** An available cab with an optional staffing link. */
  function InsertCab(s: Store, registrationNo: string, driverId: Option<int>): Store {
    s.(cabs := s.cabs[NextId(s.cabs.Keys) := Cab(registrationNo, driverId, Available)])
  }
}
