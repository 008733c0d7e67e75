# Cab dispatch: a verified model of the booking core

The system takes ride requests ("bookings") from customers. Admins assign each
booking a driver and a cab. The assigned driver starts and completes the trip, and
the owning customer may cancel it. Admins also register drivers and cabs and view a
revenue report. This project models that core of `app.py` in Dafny: the four tables
(users, drivers, cabs, bookings), the seven request handlers that change them, the
fare formula and the report.

Layout:

- `domain.dfy` (`Domain`): the entities as datatypes, the caller (user id and role)
  and the handler outcome `Ok | Forbidden | NotFound | Rejected`.
- `keys.dfy` (`Keys`): the least element of a key set, and the next autoincrement
  id (one more than the largest key, 1 for an empty table).
- `fare.dfy` (`Fare`): the estimate `50 + 15 * distance`.
- `invariants.dfy` (`Invariants`): what a consistent store keeps. There are three
  invariants:
  - I1: a final fare and a completion time are set exactly for completed bookings.
  - I2: a driver or cab is on a trip exactly when one active (assigned or en-route)
    booking holds it.
  - I3: a booking's driver and cab references follow its status.
- `transitions.dfy` (`Transitions`): each handler's guard chain as a function, and
  the writes a successful handler commits as a function of the store.
- `lemmas.dfy` (`Lemmas`): each handler's writes preserve the invariants, and a full
  trip (create, assign, start, complete) ends consistent.
- `reports.dfy` (`Reports`): revenue, completed-trip count and average fare.
- `dispatch.dfy` (`Dispatch`): the class `Dispatcher`, holding the four tables as
  maps, with one method per handler. It is proved against the functions above.
- `findings.dfy` (`Findings`): concrete stores on which the handlers as written
  break the invariants.

Each handler is one atomic method. Either it commits all its writes and returns
`Ok`, or it returns a failure and leaves every table unchanged. Some failures the
source does not handle itself; the model maps them as follows:

- A record that is missing and then dereferenced (an attribute read on `None`): the
  request fails before commit, giving `NotFound`.
- A database constraint violation (a NOT NULL address, a UNIQUE email or license
  number): the commit is rolled back, giving `Rejected`.

The source checks no booking status when it assigns, starts or completes a trip.
The model therefore has two versions of each of these three handlers:

- `...AsWritten` follows the source. It keeps only well-formedness: ids are at least
  1, and a booking's driver and cab exist.
- The version without the suffix first checks an added status guard
  (`AssignReady`, `StartReady`, `CompleteReady`), then runs the as-written handler.
  It preserves all the invariants.

The lifecycle table in the system's design says an event not allowed in the
current status is rejected. So the added guards implement the design, and the
three discrepancies are listed under "## Findings". The design also lets an admin
cancel a booking. The code accepts only the owning customer, and the model follows
the code.

## Model

| member | source | states |
|---|---|---|
| Fare.Estimate | app.py:201 | the estimate is at least the base fare exactly when the distance is non-negative, and equals it exactly at distance 0 |
| Fare.DistanceFor | app.py:201 | every amount is the estimate of some distance: the formula can be inverted |
| Fare.EstimateDeterminesDistance | app.py:201 | the estimate determines the distance it was priced from |
| Fare.EstimateMonotone | app.py:201 | a longer trip is never cheaper |
| Keys.Least | app.py:283 | the least element of a non-empty id set is in the set and no larger than any member, which is the row `.first()` returns |
| Keys.NextId | app.py:68 | a new primary key is at least 1, not yet used, larger than every existing key, and either 1 or one more than an existing key |
| Transitions.DriverOfUser | app.py:283 | the caller's driver profile is absent exactly when no driver row has the caller's user id; otherwise it is the least such row |
| Transitions.CreateCheck | app.py:195-208 | booking creation succeeds exactly for a customer who gives both addresses; otherwise the result is Forbidden (role) or Rejected (NOT NULL address columns, app.py:72-73) |
| Transitions.AssignCheck | app.py:401-418 | assignment as written succeeds exactly for an admin, an existing booking and a given, existing driver and cab; a missing id is Rejected; status is never consulted |
| Transitions.CancelCheck | app.py:233-237 | cancellation succeeds exactly for a customer who owns an existing booking that is pending or assigned; every other failure is Forbidden or NotFound |
| Transitions.TripCheck | app.py:280-285 | start and complete succeed exactly for a driver whose profile (the first row with the caller's user id) is the booking's driver; that driver then exists |
| Transitions.AddDriverCheck | app.py:338-358 | driver creation succeeds exactly for an admin when the username, email and license number are all unused; a used username is Rejected |
| Transitions.AddCabCheck | app.py:373-385 | cab creation succeeds exactly for an admin with an unused registration number |
| Invariants.ExactlyOneTrip | app.py:266-267 | in a consistent store, an on-trip driver has exactly one assigned-or-en-route booking in its trip list, and an available driver none |
| Lemmas.EngageKeepsExclusive | app.py:414-418 | a free unit taken by a booking that was not active keeps the one-active-booking-per-unit rule |
| Lemmas.ReleaseKeepsExclusive | app.py:238-244 | an active booking that releases its unit and stops being active keeps the rule |
| Lemmas.StayKeepsExclusive | app.py:286-289 | an active booking that stays active on the same units keeps the rule |
| Lemmas.IdleKeepsExclusive | app.py:203-206 | a booking that neither was nor becomes active keeps the rule |
| Lemmas.NewUnitKeepsExclusive | app.py:356 | a new available driver or cab keeps the rule |
| Lemmas.CreateKeepsValid | app.py:198-208 | inserting a new pending, priced booking keeps every invariant |
| Lemmas.AssignKeepsValid | app.py:407-420 | assigning a free driver and free cab to a pending booking keeps every invariant |
| Lemmas.CancelKeepsValid | app.py:236-245 | cancelling a pending or assigned booking keeps every invariant, releasing its driver and cab if it had them |
| Lemmas.StartKeepsValid | app.py:284-290 | starting an assigned trip keeps every invariant |
| Lemmas.CompleteKeepsValid | app.py:299-307 | completing an en-route trip keeps every invariant, with the estimate as final fare |
| Lemmas.AddDriverKeepsValid | app.py:350-358 | adding a driver user with an available profile keeps every invariant |
| Lemmas.AddCabKeepsValid | app.py:382-385 | adding an available cab keeps every invariant |
| Lemmas.TripRoundTrip | app.py:196-308 | create, assign, start and complete leave a consistent store in which the booking is completed, its final fare is the estimate of its distance, its driver and cab are kept, and both are available again |
| Reports.Revenue | app.py:430 | the revenue is 0 when no booking has a final fare, and non-negative when no final fare is negative |
| Reports.Summarize | app.py:430-432 | the report's trips are the completed bookings, its revenue is the sum of final fares, and the average times the trips is the revenue (0 with no trips) |
| Reports.RevenueWithout | app.py:430 | the sum does not depend on row order: any row can be taken out first |
| Reports.RevenueAfterUpdate | app.py:430 | replacing one row changes the revenue by the difference of the two final fares |
| Reports.SummaryUnchanged | app.py:430-432 | an update keeping a row's final fare and completedness leaves the report unchanged |
| Reports.CompletionAddsFare | app.py:430-431 | completing a booking with no final fare adds its estimate to the revenue and one to the trips |
| Reports.NoTripsNoRevenue | app.py:430-432 | in a consistent store with no completed trip the report is all zeros |
| Reports.ThreeTripsExample | app.py:430-432 | completed trips with fares 200, 300 and 400 report 900, 3 and 300 |
| Dispatch.Dispatcher.CreateBooking | app.py:196-210 | returns CreateCheck; on success inserts, under the next id, a pending booking owned by the caller, with no driver, cab or final fare, priced by the formula from the given distance or 5 km; keeps every invariant; otherwise changes nothing |
| Dispatch.Dispatcher.CancelBooking | app.py:232-246 | returns CancelCheck; on success the booking alone becomes cancelled, keeping its references, and the driver and cab it names become available; tables it names nothing in are unchanged; keeps every invariant |
| Dispatch.Dispatcher.AssignBookingAsWritten | app.py:400-423 | returns AssignCheck; on success the booking takes the driver and cab and becomes assigned, and both go on trip; keeps well-formedness only |
| Dispatch.Dispatcher.AssignBooking | app.py:400-423 | as written, but a booking that is not pending or a unit that is not available is Rejected; keeps every invariant |
| Dispatch.Dispatcher.Reports | app.py:427-433 | admins only; returns the report of the current bookings and changes nothing |
| Dispatch.Dispatcher.AddDriver | app.py:337-361 | returns AddDriverCheck; on success inserts a driver-role user and an available profile under fresh ids; keeps every invariant |
| Dispatch.Dispatcher.AddCab | app.py:372-387 | returns AddCabCheck; on success inserts an available cab, with its optional driver link, under a fresh id; keeps every invariant |
| Dispatch.Dispatcher.StartTripAsWritten | app.py:279-291 | returns TripCheck; on success the booking goes en route and its driver and cab go on trip; keeps well-formedness only |
| Dispatch.Dispatcher.StartTrip | app.py:279-291 | as written, but a booking that is not assigned is Rejected; keeps every invariant |
| Dispatch.Dispatcher.CompleteTripAsWritten | app.py:294-308 | returns TripCheck; on success the booking completes at the given time with the estimate as final fare, which is also returned, and its driver and cab become available; keeps well-formedness only |
| Dispatch.Dispatcher.CompleteTrip | app.py:294-308 | as written, but a booking that is not en route is Rejected; keeps every invariant |
| Findings.DoubleAssignment | app.py:407-418 | from a consistent store, an admin assignment as written of an on-trip driver and cab succeeds and leaves the driver with two active bookings; the added guard refuses it |
| Findings.RestartCompletedTrip | app.py:284-289 | from a consistent store, a start as written of a completed trip succeeds and leaves an en-route booking with a final fare, reported as revenue 200 from 0 trips; the added guard refuses it |
| Findings.CompleteCancelledTrip | app.py:299-306 | from a consistent store, a completion as written of a cancelled trip succeeds and frees a driver another active booking still holds; the added guard refuses it |

## Left out

- HTTP routing, sessions, flash messages, redirects, templates and JSON bodies. The caller is an explicit `Caller`, and a response is an `Outcome`.
- Login, registration, logout and password hashing. These are authentication plumbing over a library, and the model does not verify credentials.
- Concurrency between requests. Each handler is modelled as one atomic step, so races between an availability check and its write are not modelled.
- Floating point. Distances and fares are exact reals, and the average is exact division.
- Clock readings. The creation and completion times are integer parameters.
- Columns the core never reads: driver rating, cab model and capacity, scheduled time, and user names and phone. The `is_active` flag is not modelled either.
- Form input that is not a number (the `float` and `int` conversions raising). The distance is already parsed, and a missing one is the 5 km default.
- Dashboards, list pages and booking details (app.py:170-192, 215-229, 250-276, 312-334, 364-369, 390-397). They are read-only views. Only the driver's active-trip list is modelled, as `Invariants.ActiveTrips`.
- Seeding of the initial database (app.py:436-459), and the browser script `static/js/scripts.js`.
- Missing form fields when adding a driver or a cab. A missing password, cab model, username or email makes the source fail before it commits. The model takes these fields as given strings, and it does not model the password or the cab model.
- Foreign keys on a new cab's driver link and on a booking's customer. The SQLite database the source configures does not enforce them by default, and the model does not require them to resolve.
- Dispatch.Dispatcher.AssignBookingAsWritten, StartTripAsWritten and CompleteTripAsWritten: these promise well-formedness only, not the invariants, because the source's guards let inconsistent states through (see Findings).

## Findings

| source | as written | input that shows it | evidently intended | confidence | as-written member | corrected member |
|---|---|---|---|---|---|---|
| app.py:407-418 | assignment checks neither the booking's status nor the availability of the driver and cab | booking 1 assigned to driver 1 and cab 1 (both on trip); an admin assigns pending booking 2 to driver 1 and cab 1 | only a pending booking, and only an available driver and cab, can be assigned | high (proved on a concrete store, not executed) | Findings.DoubleAssignment | Dispatch.Dispatcher.AssignBooking |
| app.py:284-289 | start checks only that the caller is the booking's driver | booking 1 completed by driver 1; driver 1 starts booking 1 again | only an assigned booking can start | high (proved on a concrete store, not executed) | Findings.RestartCompletedTrip | Dispatch.Dispatcher.StartTrip |
| app.py:299-306 | complete checks only that the caller is the booking's driver | booking 1 cancelled after assignment to driver 1, booking 2 then assigned to driver 1; driver 1 completes booking 1 | only an en-route booking can complete | high (proved on a concrete store, not executed) | Findings.CompleteCancelledTrip | Dispatch.Dispatcher.CompleteTrip |
