/** The records of the dispatch store, reduced to the fields the booking
    logic reads or writes, and the caller context and outcomes of the
    handlers. */
module Domain {

  datatype Option<+T> = None | Some(value: T)

  /** The role carried by the caller's session. */
  datatype Role = CustomerRole | DriverRole | AdminRole

  /** The authenticated caller: the session's user id and role. */
  datatype Caller = Caller(userId: int, role: Role)

  /** The status column shared by drivers and cabs. */
  datatype UnitStatus = Available | OnTrip

  datatype BookingStatus = Pending | Assigned | EnRoute | Completed | Cancelled

  datatype User = User(username: string, email: string, role: Role)

  datatype Driver = Driver(userId: int, licenseNo: string, status: UnitStatus)

  /** `driverId` is the staffing link set when the cab is added; it is
      distinct from the per-booking pairing. */
  datatype Cab = Cab(registrationNo: string, driverId: Option<int>, status: UnitStatus)

  /** Timestamps are abstract clock values supplied by the caller. */
  datatype Booking = Booking(
    customerId: int,
    driverId: Option<int>,
    cabId: Option<int>,
    pickup: string,
    dropoff: string,
    distanceKm: real,
    fareEstimate: real,
    fareFinal: Option<real>,
    status: BookingStatus,
    createdAt: int,
    completedAt: Option<int>)

  /** The four tables, keyed by primary key. */
  datatype Store = Store(
    users: map<int, User>,
    drivers: map<int, Driver>,
    cabs: map<int, Cab>,
    bookings: map<int, Booking>)

  /** What a handler reports back. A handler that fails changes nothing. */
  datatype Outcome = Ok | Forbidden | NotFound | Rejected

  /** A booking that currently holds its driver and cab. */
  predicate Active(b: Booking) {
    b.status == Assigned || b.status == EnRoute
  }
}
