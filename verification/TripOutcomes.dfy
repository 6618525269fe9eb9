/**
 What each trip request does, told by the columns of the tables alone: exactly when it is accepted, what it then
 writes, and that a refusal names a reason that holds.
 */
module TripOutcomes {
  import opened Common
  import opened Trips
  import opened TripSafety

  /** The route is there, the tenant's, and given to the driver. */
  predicate Driven(s: Db, tenant: string, driver: int, route: int) {
    route in s.routes && s.routes[route].tenant == tenant && s.routes[route].driver == Some(driver)
  }

  /** The stop is on the route and its booking is the tenant's. */
  predicate Booked(s: Db, tenant: string, k: Key) {
    k in s.stops && k.booking in s.bookings && s.bookings[k.booking].tenant == tenant
  }

  /** An earlier stop of the route, of an existing booking, that is neither aboard, nor completed, nor a no-show. */
  predicate Waiting(s: Db, k: Key, earlier: Key)
    requires k in s.stops
  {
    && earlier in s.stops && earlier.route == k.route && s.stops[earlier].order < s.stops[k].order
    && earlier.booking in s.bookings
    && s.bookings[earlier.booking].status !in {Ongoing, Completed, NoShow}
  }

  /** The tables with one booking's status and one stop rewritten. */
  function Rewritten(s: Db, k: Key, st: BookingStatus, pickedUp: Option<nat>, dropped: Option<nat>): Db
    requires k in s.stops && k.booking in s.bookings
  {
    Db(s.routes, s.stops[k := Stop(s.stops[k].order, pickedUp, dropped)],
       s.bookings[k.booking := s.bookings[k.booking].(status := st)])
  }

  predicate Unset(x: Option<int>) {
    x == None || x == Some(0)
  }

  /** A code column that is set, and not to zero, must be answered by its decimal text. */
  predicate Answered(code: Option<int>, answer: Option<string>) {
    Unset(code) || answer == Some(Decimal(code.value))
  }

  lemma AnsweredIsAccepted(code: Option<int>, answer: Option<string>)
    ensures OtpAccepted(code, answer) <==> Answered(code, answer)
  {
    OtpIsExact(code, answer);
  }

  lemma GateMeans(s: Db, k: Key)
    requires k in s.stops
    ensures GateOpen(s, k.route, s.stops[k].order) <==> forall l :: !Waiting(s, k, l)
  {
    if forall l :: !Waiting(s, k, l) {
      forall l | l in StopsOf(s, k.route) && s.stops[l].order < s.stops[k].order ensures Passed(StatusAt(s, l)) {
        assert !Waiting(s, k, l);
      }
    }
    if GateOpen(s, k.route, s.stops[k].order) {
      forall l ensures !Waiting(s, k, l) {
        assert l in StopsOf(s, k.route) ==> l in s.stops;
      }
    }
  }

  // ---------- Accepted exactly when, and then exactly so ----------

  lemma StartDutyOutcome(s: Db, op: Op)
    requires op.StartDuty?
    ensures Apply(s, op).1 == Done <==>
              && Driven(s, op.tenant, op.driver, op.route) && s.routes[op.route].status == DriverAssigned
              && forall r :: r in s.routes && r != op.route && Driven(s, op.tenant, op.driver, r)
                             ==> s.routes[r].status != Underway
    ensures Apply(s, op).1 == Already <==>
              Driven(s, op.tenant, op.driver, op.route) && s.routes[op.route].status == Underway
    ensures Apply(s, op).1 == Done ==>
              Next(s, op) == s.(routes := s.routes[op.route := s.routes[op.route].(status := Underway)])
    ensures Apply(s, op).1 != Done ==> Next(s, op) == s
  {
  }

  lemma BoardEscortOutcome(s: Db, op: Op)
    requires op.BoardEscort?
    ensures Apply(s, op).1 == Done <==>
              && Driven(s, op.tenant, op.driver, op.route)
              && var r := s.routes[op.route];
                 && r.status == Underway && !Unset(r.escort) && !r.escortBoarded
                 && op.escortOtp != 0 && r.escortOtp == Some(op.escortOtp)
    ensures Apply(s, op).1 == Already <==>
              && Driven(s, op.tenant, op.driver, op.route)
              && var r := s.routes[op.route];
                 r.status == Underway && !Unset(r.escort) && r.escortBoarded
    ensures Apply(s, op).1 == Done ==>
              Next(s, op) == s.(routes := s.routes[op.route := s.routes[op.route].(escortBoarded := true)])
    ensures Apply(s, op).1 != Done ==> Next(s, op) == s
  {
  }

  lemma StartTripOutcome(s: Db, op: Op)
    requires op.StartTrip?
    ensures Apply(s, op).1 == Done <==>
              && Driven(s, op.tenant, op.driver, op.key.route) && Booked(s, op.tenant, op.key)
              && op.near && op.darkHourOk
              && var r, b := s.routes[op.key.route], s.bookings[op.key.booking];
                 && r.status == Underway && (Unset(r.escort) || r.escortBoarded)
                 && if b.shift == NodalShift then b.status in {Scheduled, Ongoing}
                    else Answered(b.boardingOtp, op.otp) && forall l :: !Waiting(s, op.key, l)
    ensures Apply(s, op).1 != Already
    ensures Apply(s, op).1 == Done ==>
              var was := s.stops[op.key];
              Next(s, op) == Rewritten(s, op.key, Ongoing,
                                       if was.pickedUp.Some? then was.pickedUp else Some(op.now), was.dropped)
    ensures Apply(s, op).1 != Done ==> Next(s, op) == s
  {
    if op.key in s.stops { GateMeans(s, op.key); }
    if op.key.booking in s.bookings { AnsweredIsAccepted(s.bookings[op.key.booking].boardingOtp, op.otp); }
    if Apply(s, op).1 == Done { assert s.stops[op.key := s.stops[op.key]] == s.stops; }
  }

  lemma MarkNoShowOutcome(s: Db, op: Op)
    requires op.MarkNoShow?
    ensures Apply(s, op).1 == Done <==>
              && Driven(s, op.tenant, op.driver, op.key.route) && Booked(s, op.tenant, op.key)
              && s.bookings[op.key.booking].status !in {Ongoing, Completed} && forall l :: !Waiting(s, op.key, l)
    ensures Apply(s, op).1 != Already
    ensures Apply(s, op).1 == Done ==>
              Next(s, op) == Rewritten(s, op.key, NoShow, Some(op.now), s.stops[op.key].dropped)
    ensures Apply(s, op).1 != Done ==> Next(s, op) == s
  {
    if op.key in s.stops { GateMeans(s, op.key); }
  }

  lemma DropOutcome(s: Db, op: Op)
    requires op.Drop?
    ensures Apply(s, op).1 == Done <==> DropReached(s, op) && s.bookings[op.key.booking].status != Completed
    ensures Apply(s, op).1 == Already <==> DropReached(s, op) && s.bookings[op.key.booking].status == Completed
    ensures Apply(s, op).1 == Done ==>
              Next(s, op) == Rewritten(s, op.key, Completed, s.stops[op.key].pickedUp, Some(op.now))
    ensures Apply(s, op).1 != Done ==> Next(s, op) == s
  {
    if op.key.booking in s.bookings { AnsweredIsAccepted(s.bookings[op.key.booking].deboardingOtp, op.otp); }
  }

  predicate DropReached(s: Db, op: Op)
    requires op.Drop?
  {
    && Driven(s, op.tenant, op.driver, op.key.route) && s.routes[op.key.route].status == Underway
    && Booked(s, op.tenant, op.key) && op.near && Answered(s.bookings[op.key.booking].deboardingOtp, op.otp)
  }

  lemma EndDutyOutcome(s: Db, op: Op)
    requires op.EndDuty?
    ensures Apply(s, op).1 == Done <==>
              && Driven(s, op.tenant, op.driver, op.route) && s.routes[op.route].status == Underway
              && forall k :: k in s.stops && k.route == op.route && k.booking in s.bookings
                             ==> s.bookings[k.booking].status in {Completed, NoShow, Cancelled}
    ensures Apply(s, op).1 == Already <==>
              Driven(s, op.tenant, op.driver, op.route) && s.routes[op.route].status == Closed
    ensures Apply(s, op).1 == Done ==>
              Next(s, op) == s.(routes := s.routes[op.route := s.routes[op.route].(status := Closed)])
    ensures Apply(s, op).1 != Done ==> Next(s, op) == s
  {
    assert forall k :: k in StopsOf(s, op.route) <==> k in s.stops && k.route == op.route && k.booking in s.bookings;
  }

  lemma NodalScanOutcome(s: Db, op: Op)
    requires op.NodalScan?
    ensures Apply(s, op).1 == Done <==>
              && op.vehicle.Some? && op.key.route in s.routes && op.key in s.stops && op.key.booking in s.bookings
              && var r, b := s.routes[op.key.route], s.bookings[op.key.booking];
                 && r.vehicle == op.vehicle && r.tenant == op.tenant && r.status in {DriverAssigned, Underway}
                 && b.employee == op.employee && b.date == op.today && b.status == Scheduled
                 && b.shift in {NodalShift, NoShift}
    ensures Apply(s, op).1 != Already
    ensures Apply(s, op).1 == Done ==>
              Next(s, op) == Rewritten(s, op.key, Ongoing, Some(op.now), s.stops[op.key].dropped)
    ensures Apply(s, op).1 != Done ==> Next(s, op) == s
  {
  }

  // ---------- Refusals ----------

  function RouteOf(op: Op): int {
    match op
    case StartDuty(_, _, r) => r
    case BoardEscort(_, _, r, _) => r
    case EndDuty(_, _, r) => r
    case _ => op.key.route
  }

  /** The reason that an error code gives, as a fact about the tables. */
  ghost predicate ReasonHolds(s: Db, op: Op, e: Error) {
    var r := RouteOf(op);
    match e
    case RouteNotFound =>
      if op.NodalScan? then
        !(r in s.routes && s.routes[r].vehicle == op.vehicle && s.routes[r].tenant == op.tenant
          && s.routes[r].status in {DriverAssigned, Underway})
      else !Driven(s, op.tenant, op.driver, r) || (op.Drop? && s.routes[r].status != Underway)
    case InvalidRouteState =>
      r in s.routes && ((op.StartDuty? && s.routes[r].status !in {DriverAssigned, Underway})
                        || (op.EndDuty? && s.routes[r].status !in {Underway, Closed}))
    case DriverHasOngoingRoute =>
      op.StartDuty? && exists q :: q in s.routes && q != r && Driven(s, op.tenant, op.driver, q)
                                   && s.routes[q].status == Underway
    case RouteNotOngoing => r in s.routes && s.routes[r].status != Underway
    case NoEscortAssigned => r in s.routes && Unset(s.routes[r].escort)
    case EscortOtpNotGenerated => r in s.routes && Unset(s.routes[r].escortOtp)
    case InvalidEscortOtp => op.BoardEscort? && r in s.routes && s.routes[r].escortOtp != Some(op.escortOtp)
    case EscortNotBoarded => r in s.routes && !Unset(s.routes[r].escort) && !s.routes[r].escortBoarded
    case BookingNotInRoute => HasKey(op) && op.key !in s.stops
    case BookingNotFound =>
      HasKey(op) && if op.NodalScan? then
        !(op.key in s.stops && op.key.booking in s.bookings && s.bookings[op.key.booking].employee == op.employee
          && s.bookings[op.key.booking].date == op.today && s.bookings[op.key.booking].status == Scheduled)
      else !(op.key.booking in s.bookings && s.bookings[op.key.booking].tenant == op.tenant)
    case PreviousBookingsPending => HasKey(op) && op.key in s.stops && exists l :: Waiting(s, op.key, l)
    case DriverTooFar => (op.StartTrip? || op.Drop?) && !op.near
    case DarkHourNoEscort => op.StartTrip? && !op.darkHourOk
    case BookingNotBoardable =>
      HasKey(op) && op.key.booking in s.bookings && s.bookings[op.key.booking].shift == NodalShift
      && s.bookings[op.key.booking].status !in {Scheduled, Ongoing}
    case InvalidOtp =>
      (op.StartTrip? || op.Drop?) && op.key.booking in s.bookings
      && !Answered(if op.StartTrip? then s.bookings[op.key.booking].boardingOtp
                   else s.bookings[op.key.booking].deboardingOtp, op.otp)
    case InvalidBookingState =>
      HasKey(op) && op.key.booking in s.bookings && s.bookings[op.key.booking].status in {Ongoing, Completed}
    case PendingBookingsExist =>
      op.EndDuty? && exists k :: k in s.stops && k.route == r && k.booking in s.bookings
                                 && s.bookings[k.booking].status !in {Completed, NoShow, Cancelled}
    case VehicleNotFound => op.NodalScan? && op.vehicle == None
    case NotNodalShift =>
      op.NodalScan? && op.key.booking in s.bookings && s.bookings[op.key.booking].shift == DoorShift
  }

  predicate HasKey(op: Op) {
    op.StartTrip? || op.MarkNoShow? || op.Drop? || op.NodalScan?
  }

  lemma RouteRefusalIsTrue(s: Db, op: Op)
    requires Apply(s, op).1.Refused? && !HasKey(op)
    ensures ReasonHolds(s, op, Apply(s, op).1.error)
  {
    if op.EndDuty? && Apply(s, op).1.error == PendingBookingsExist {
      var k :| k in StopsOf(s, op.route) && !Final(StatusAt(s, k));
    }
  }

  lemma NoShowRefusalIsTrue(s: Db, op: Op)
    requires Apply(s, op).1.Refused? && op.MarkNoShow?
    ensures ReasonHolds(s, op, Apply(s, op).1.error)
  {
    if op.key in s.stops { GateMeans(s, op.key); }
  }

  lemma DropRefusalIsTrue(s: Db, op: Op)
    requires Apply(s, op).1.Refused? && op.Drop?
    ensures ReasonHolds(s, op, Apply(s, op).1.error)
  {
    if op.key.booking in s.bookings {
      AnsweredIsAccepted(s.bookings[op.key.booking].deboardingOtp, op.otp);
    }
  }

  lemma ScanRefusalIsTrue(s: Db, op: Op)
    requires Apply(s, op).1.Refused? && op.NodalScan?
    ensures ReasonHolds(s, op, Apply(s, op).1.error)
  {
  }

  lemma PickUpRefusalIsTrue(s: Db, op: Op)
    requires Apply(s, op).1.Refused? && op.StartTrip?
    ensures ReasonHolds(s, op, Apply(s, op).1.error)
  {
    if op.key in s.stops { GateMeans(s, op.key); }
    if op.key.booking in s.bookings {
      AnsweredIsAccepted(s.bookings[op.key.booking].boardingOtp, op.otp);
    }
  }

  /** A refused request names a reason that holds. */
  lemma RefusalIsTrue(s: Db, op: Op)
    requires Apply(s, op).1.Refused?
    ensures ReasonHolds(s, op, Apply(s, op).1.error)
  {
    match op
    case StartTrip(_, _, _, _, _, _, _) => PickUpRefusalIsTrue(s, op);
    case MarkNoShow(_, _, _, _) => NoShowRefusalIsTrue(s, op);
    case Drop(_, _, _, _, _, _) => DropRefusalIsTrue(s, op);
    case NodalScan(_, _, _, _, _, _) => ScanRefusalIsTrue(s, op);
    case _ => RouteRefusalIsTrue(s, op);
  }
}
