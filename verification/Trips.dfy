/**
 The driver trip protocol: routes, the ordered stops that link a route to its bookings, and the
 bookings, with the seven requests that move them. One request is one atomic step on the tables;
 a refused request leaves them as they were.
 */
module Trips {
  import opened Common

  datatype RouteStatus = Planned | VendorAssigned | DriverAssigned | Underway | Closed | RouteCancelled

  datatype BookingStatus = Requested | Scheduled | Ongoing | Completed | Cancelled | NoShow | Expired

  // What looking up the booking's shift row yields: no row, a row whose pickup type is not nodal, or a nodal one.
  datatype ShiftKind = NoShift | DoorShift | NodalShift

  datatype Route = Route(tenant: string, driver: Option<int>, vehicle: Option<int>, escort: Option<int>,
                         escortOtp: Option<int>, escortBoarded: bool, status: RouteStatus)

  // (route, booking) is unique in the link table, so it serves as the key of a stop.
  datatype Key = Key(route: int, booking: int)

  // Times are minutes of the day.
  datatype Stop = Stop(order: int, pickedUp: Option<nat>, dropped: Option<nat>)

  datatype Booking = Booking(tenant: string, employee: int, shift: ShiftKind, date: int,
                             boardingOtp: Option<int>, deboardingOtp: Option<int>, status: BookingStatus)

  datatype Db = Db(routes: map<int, Route>, stops: map<Key, Stop>, bookings: map<int, Booking>)

  datatype Error =
    | RouteNotFound | InvalidRouteState | DriverHasOngoingRoute | RouteNotOngoing
    | NoEscortAssigned | EscortOtpNotGenerated | InvalidEscortOtp | EscortNotBoarded
    | BookingNotInRoute | BookingNotFound | PreviousBookingsPending | DriverTooFar | DarkHourNoEscort
    | BookingNotBoardable | InvalidOtp | InvalidBookingState | PendingBookingsExist
    | VehicleNotFound | NotNodalShift

  // `Already` is the success reply that changes nothing.
  datatype Reply = Done | Already | Refused(error: Error)

  datatype Op =
    | StartDuty(tenant: string, driver: int, route: int)
    | BoardEscort(tenant: string, driver: int, route: int, escortOtp: int)
    | StartTrip(tenant: string, driver: int, key: Key, otp: Option<string>, near: bool, darkHourOk: bool, now: nat)
    | MarkNoShow(tenant: string, driver: int, key: Key, now: nat)
    | Drop(tenant: string, driver: int, key: Key, otp: Option<string>, near: bool, now: nat)
    | EndDuty(tenant: string, driver: int, route: int)
    // `key` names the rows that the scan's two unordered "first" queries return.
    | NodalScan(tenant: string, employee: int, vehicle: Option<int>, key: Key, today: int, now: nat)

  // ---------- Queries ----------

  /** The stops of a route whose booking row exists: what the source's joins range over. */
  function StopsOf(s: Db, route: int): set<Key> {
    set k | k in s.stops && k.route == route && k.booking in s.bookings
  }

  function StatusAt(s: Db, k: Key): BookingStatus
    requires k.booking in s.bookings
  {
    s.bookings[k.booking].status
  }

  /** The statuses that let later stops proceed. */
  predicate Passed(b: BookingStatus) {
    b == NoShow || b == Ongoing || b == Completed
  }

  /** The statuses that let a duty end. */
  predicate Final(b: BookingStatus) {
    b == Completed || b == NoShow || b == Cancelled
  }

  /** check_previous_bookings_completed: every stop of strictly lower order has been passed. */
  predicate GateOpen(s: Db, route: int, order: int) {
    forall k :: k in StopsOf(s, route) && s.stops[k].order < order ==> Passed(StatusAt(s, k))
  }

  predicate AllFinal(s: Db, route: int) {
    forall k :: k in StopsOf(s, route) ==> Final(StatusAt(s, k))
  }

  /** validate_route_for_driver without a required status. */
  predicate AssignedTo(s: Db, tenant: string, driver: int, route: int) {
    route in s.routes && s.routes[route].tenant == tenant && s.routes[route].driver == Some(driver)
  }

  predicate OtherRouteUnderway(s: Db, tenant: string, driver: int, route: int) {
    exists r :: r in s.routes && r != route && AssignedTo(s, tenant, driver, r) && s.routes[r].status == Underway
  }

  predicate EscortAboard(r: Route) {
    Truthy(r.escort) ==> r.escortBoarded
  }

  /** validate_booking_in_route. */
  function StopError(s: Db, tenant: string, k: Key): Option<Error> {
    if k !in s.stops then Some(BookingNotInRoute)
    else if k.booking !in s.bookings || s.bookings[k.booking].tenant != tenant then Some(BookingNotFound)
    else None
  }

  /** verify_otp: a missing or zero code asks for nothing; a missing answer reads "None". */
  predicate OtpAccepted(code: Option<int>, answer: Option<string>) {
    Truthy(code) ==> Decimal(code.value) == (if answer.Some? then answer.value else "None")
  }

  // ---------- Row updates ----------

  function WithRouteStatus(s: Db, route: int, st: RouteStatus): Db
    requires route in s.routes
  {
    s.(routes := s.routes[route := s.routes[route].(status := st)])
  }

  function WithStatus(s: Db, booking: int, st: BookingStatus): Db
    requires booking in s.bookings
  {
    s.(bookings := s.bookings[booking := s.bookings[booking].(status := st)])
  }

  function WithPickUp(s: Db, k: Key, now: nat): Db
    requires k in s.stops
  {
    s.(stops := s.stops[k := s.stops[k].(pickedUp := Some(now))])
  }

  function WithDrop(s: Db, k: Key, now: nat): Db
    requires k in s.stops
  {
    s.(stops := s.stops[k := s.stops[k].(dropped := Some(now))])
  }

  // ---------- Requests ----------

  function StartDutyStep(s: Db, tenant: string, driver: int, route: int): (Db, Reply) {
    if !AssignedTo(s, tenant, driver, route) then (s, Refused(RouteNotFound))
    else if s.routes[route].status == Underway then (s, Already)
    else if s.routes[route].status != DriverAssigned then (s, Refused(InvalidRouteState))
    else if OtherRouteUnderway(s, tenant, driver, route) then (s, Refused(DriverHasOngoingRoute))
    else (WithRouteStatus(s, route, Underway), Done)
  }

  function BoardEscortStep(s: Db, tenant: string, driver: int, route: int, otp: int): (Db, Reply) {
    if !AssignedTo(s, tenant, driver, route) then (s, Refused(RouteNotFound)) else
      var r := s.routes[route];
      if r.status != Underway then (s, Refused(RouteNotOngoing))
      else if !Truthy(r.escort) then (s, Refused(NoEscortAssigned))
      else if r.escortBoarded then (s, Already)
      else if !Truthy(r.escortOtp) then (s, Refused(EscortOtpNotGenerated))
      else if r.escortOtp.value != otp then (s, Refused(InvalidEscortOtp))
      else (s.(routes := s.routes[route := r.(escortBoarded := true)]), Done)
  }

  /** The checks of start_trip, in the source's order. */
  function StartTripError(s: Db, tenant: string, driver: int, k: Key, otp: Option<string>,
                          near: bool, darkHourOk: bool): Option<Error>
  {
    if !AssignedTo(s, tenant, driver, k.route) then Some(RouteNotFound)
    else if s.routes[k.route].status != Underway then Some(RouteNotOngoing)
    else if !EscortAboard(s.routes[k.route]) then Some(EscortNotBoarded)
    else if StopError(s, tenant, k).Some? then StopError(s, tenant, k) else
      var b := s.bookings[k.booking];
      if b.shift != NodalShift && !GateOpen(s, k.route, s.stops[k].order) then Some(PreviousBookingsPending)
      else if !near then Some(DriverTooFar)
      else if !darkHourOk then Some(DarkHourNoEscort)
      else if b.shift == NodalShift && b.status != Scheduled && b.status != Ongoing then Some(BookingNotBoardable)
      else if b.shift != NodalShift && !OtpAccepted(b.boardingOtp, otp) then Some(InvalidOtp)
      else None
  }

  function StartTripStep(s: Db, tenant: string, driver: int, k: Key, otp: Option<string>,
                         near: bool, darkHourOk: bool, now: nat): (Db, Reply)
  {
    var e := StartTripError(s, tenant, driver, k, otp, near, darkHourOk);
    if e.Some? then (s, Refused(e.value)) else
      var boarded := WithStatus(s, k.booking, Ongoing);
      (if s.stops[k].pickedUp.Some? then boarded else WithPickUp(boarded, k, now), Done)
  }

  function MarkNoShowStep(s: Db, tenant: string, driver: int, k: Key, now: nat): (Db, Reply) {
    if !AssignedTo(s, tenant, driver, k.route) then (s, Refused(RouteNotFound))
    else if StopError(s, tenant, k).Some? then (s, Refused(StopError(s, tenant, k).value))
    else if StatusAt(s, k) == Ongoing || StatusAt(s, k) == Completed then (s, Refused(InvalidBookingState))
    else if !GateOpen(s, k.route, s.stops[k].order) then (s, Refused(PreviousBookingsPending))
    else (WithPickUp(WithStatus(s, k.booking, NoShow), k, now), Done)
  }

  function DropStep(s: Db, tenant: string, driver: int, k: Key, otp: Option<string>, near: bool, now: nat)
    : (Db, Reply)
  {
    if !AssignedTo(s, tenant, driver, k.route) || s.routes[k.route].status != Underway
    then (s, Refused(RouteNotFound))
    else if StopError(s, tenant, k).Some? then (s, Refused(StopError(s, tenant, k).value))
    else if !near then (s, Refused(DriverTooFar))
    else if !OtpAccepted(s.bookings[k.booking].deboardingOtp, otp) then (s, Refused(InvalidOtp))
    else if StatusAt(s, k) == Completed then (s, Already)
    else (WithDrop(WithStatus(s, k.booking, Completed), k, now), Done)
  }

  function EndDutyStep(s: Db, tenant: string, driver: int, route: int): (Db, Reply) {
    if !AssignedTo(s, tenant, driver, route) then (s, Refused(RouteNotFound))
    else if s.routes[route].status == Closed then (s, Already)
    else if s.routes[route].status != Underway then (s, Refused(InvalidRouteState))
    else if !AllFinal(s, route) then (s, Refused(PendingBookingsExist))
    else (WithRouteStatus(s, route, Closed), Done)
  }

  function NodalScanStep(s: Db, tenant: string, employee: int, vehicle: Option<int>, k: Key, today: int, now: nat)
    : (Db, Reply)
  {
    if vehicle.None? then (s, Refused(VehicleNotFound))
    else if k.route !in s.routes || s.routes[k.route].vehicle != vehicle || s.routes[k.route].tenant != tenant
            || (s.routes[k.route].status != DriverAssigned && s.routes[k.route].status != Underway)
    then (s, Refused(RouteNotFound))
    else if k !in s.stops || k.booking !in s.bookings || s.bookings[k.booking].employee != employee
            || s.bookings[k.booking].date != today || s.bookings[k.booking].status != Scheduled
    then (s, Refused(BookingNotFound))
    else if s.bookings[k.booking].shift == DoorShift then (s, Refused(NotNodalShift))
    else (WithPickUp(WithStatus(s, k.booking, Ongoing), k, now), Done)
  }

  function Apply(s: Db, op: Op): (Db, Reply) {
    match op
    case StartDuty(t, d, r) => StartDutyStep(s, t, d, r)
    case BoardEscort(t, d, r, otp) => BoardEscortStep(s, t, d, r, otp)
    case StartTrip(t, d, k, otp, near, dark, now) => StartTripStep(s, t, d, k, otp, near, dark, now)
    case MarkNoShow(t, d, k, now) => MarkNoShowStep(s, t, d, k, now)
    case Drop(t, d, k, otp, near, now) => DropStep(s, t, d, k, otp, near, now)
    case EndDuty(t, d, r) => EndDutyStep(s, t, d, r)
    case NodalScan(t, e, v, k, today, now) => NodalScanStep(s, t, e, v, k, today, now)
  }

  function Next(s: Db, op: Op): Db {
    Apply(s, op).0
  }

  function Run(s: Db, ops: seq<Op>): Db
    decreases |ops|
  {
    if ops == [] then s else Run(Next(s, ops[0]), ops[1..])
  }

  lemma {:induction false} RunAppend(s: Db, a: seq<Op>, b: seq<Op>)
    ensures Run(s, a + b) == Run(Run(s, a), b)
    decreases |a|
  {
    if a == [] {
      assert a + b == b;
    } else {
      assert (a + b)[0] == a[0] && (a + b)[1..] == a[1..] + b;
      RunAppend(Next(s, a[0]), a[1..], b);
    }
  }
}
