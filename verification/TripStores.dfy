/** The requests in the form the program gives them: handlers that update rows of a shared store in place. */
module TripStores {
  import opened Common
  import opened Trips
  import opened TripSafety
  import opened TripNextStop

  lemma StepKeepsInv(s: Db, op: Op, t: Db)
    requires t == Next(s, op)
    ensures Inv(s) ==> Inv(t)
  {
    if Inv(s) { NextKeepsInv(s, op); }
  }

  /** Each request as its checks and updates in place, then as what it keeps. */
  class TripStore {
    var routes: map<int, Route>
    var stops: map<Key, Stop>
    var bookings: map<int, Booking>

    function State(): Db
      reads this
    {
      Db(routes, stops, bookings)
    }

    method StartDutyInPlace(tenant: string, driver: int, route: int) returns (reply: Reply)
      modifies this
      ensures (State(), reply) == StartDutyStep(old(State()), tenant, driver, route)
    {
      if !AssignedTo(State(), tenant, driver, route) {
        return Refused(RouteNotFound);
      }
      var row := routes[route];
      if row.status == Underway {
        return Already;
      }
      if row.status != DriverAssigned {
        return Refused(InvalidRouteState);
      }
      if OtherRouteUnderway(State(), tenant, driver, route) {
        return Refused(DriverHasOngoingRoute);
      }
      routes := routes[route := row.(status := Underway)];
      reply := Done;
    }

    method StartDuty(tenant: string, driver: int, route: int) returns (reply: Reply)
      modifies this
      ensures (State(), reply) == StartDutyStep(old(State()), tenant, driver, route)
      ensures Inv(old(State())) ==> Inv(State())
    {
      ghost var before := State();
      reply := StartDutyInPlace(tenant, driver, route);
      StepKeepsInv(before, Op.StartDuty(tenant, driver, route), State());
    }

    method BoardEscortInPlace(tenant: string, driver: int, route: int, otp: int) returns (reply: Reply)
      modifies this
      ensures (State(), reply) == BoardEscortStep(old(State()), tenant, driver, route, otp)
    {
      if !AssignedTo(State(), tenant, driver, route) {
        return Refused(RouteNotFound);
      }
      var row := routes[route];
      if row.status != Underway {
        return Refused(RouteNotOngoing);
      }
      if !Truthy(row.escort) {
        return Refused(NoEscortAssigned);
      }
      if row.escortBoarded {
        return Already;
      }
      if !Truthy(row.escortOtp) {
        return Refused(EscortOtpNotGenerated);
      }
      if row.escortOtp != Some(otp) {
        return Refused(InvalidEscortOtp);
      }
      routes := routes[route := row.(escortBoarded := true)];
      reply := Done;
    }

    method BoardEscort(tenant: string, driver: int, route: int, otp: int) returns (reply: Reply)
      modifies this
      ensures (State(), reply) == BoardEscortStep(old(State()), tenant, driver, route, otp)
      ensures Inv(old(State())) ==> Inv(State())
    {
      ghost var before := State();
      reply := BoardEscortInPlace(tenant, driver, route, otp);
      StepKeepsInv(before, Op.BoardEscort(tenant, driver, route, otp), State());
    }

    method StartTripInPlace(tenant: string, driver: int, k: Key, otp: Option<string>, near: bool, darkHourOk: bool,
                            now: nat)
      returns (reply: Reply, next: Option<Key>)
      modifies this
      ensures (State(), reply) == StartTripStep(old(State()), tenant, driver, k, otp, near, darkHourOk, now)
      ensures reply == Done ==> k in stops && k.booking in bookings
      ensures reply == Done ==> IsNextStop(State(), k.route, stops[k].order, bookings[k.booking].shift == NodalShift, next)
    {
      next := None;
      if !AssignedTo(State(), tenant, driver, k.route) {
        return Refused(RouteNotFound), None;
      }
      if routes[k.route].status != Underway {
        return Refused(RouteNotOngoing), None;
      }
      if !EscortAboard(routes[k.route]) {
        return Refused(EscortNotBoarded), None;
      }
      var missing := StopError(State(), tenant, k);
      if missing.Some? {
        return Refused(missing.value), None;
      }
      var nodal := bookings[k.booking].shift == NodalShift;
      if !nodal && !GateOpen(State(), k.route, stops[k].order) {
        return Refused(PreviousBookingsPending), None;
      }
      if !near {
        return Refused(DriverTooFar), None;
      }
      if !darkHourOk {
        return Refused(DarkHourNoEscort), None;
      }
      var booking := bookings[k.booking];
      if nodal {
        if booking.status != Scheduled && booking.status != Ongoing {
          return Refused(BookingNotBoardable), None;
        }
        if booking.status == Scheduled {
          bookings := bookings[k.booking := booking.(status := Ongoing)];
        }
      } else {
        if !OtpAccepted(booking.boardingOtp, otp) {
          return Refused(InvalidOtp), None;
        }
        bookings := bookings[k.booking := booking.(status := Ongoing)];
      }
      assert bookings == old(bookings)[k.booking := booking.(status := Ongoing)];
      if stops[k].pickedUp.None? {
        stops := stops[k := stops[k].(pickedUp := Some(now))];
      }
      reply := Done;
      next := GetNextStop(State(), k.route, stops[k].order, nodal);
    }

    method StartTrip(tenant: string, driver: int, k: Key, otp: Option<string>, near: bool, darkHourOk: bool, now: nat)
      returns (reply: Reply, next: Option<Key>)
      modifies this
      ensures (State(), reply) == StartTripStep(old(State()), tenant, driver, k, otp, near, darkHourOk, now)
      ensures reply == Done ==> k in stops && k.booking in bookings
      ensures reply == Done ==> IsNextStop(State(), k.route, stops[k].order, bookings[k.booking].shift == NodalShift, next)
      ensures Inv(old(State())) ==> Inv(State())
    {
      ghost var before := State();
      reply, next := StartTripInPlace(tenant, driver, k, otp, near, darkHourOk, now);
      StepKeepsInv(before, Op.StartTrip(tenant, driver, k, otp, near, darkHourOk, now), State());
    }

    method MarkNoShowInPlace(tenant: string, driver: int, k: Key, now: nat) returns (reply: Reply, next: Option<Key>)
      modifies this
      ensures (State(), reply) == MarkNoShowStep(old(State()), tenant, driver, k, now)
      ensures reply == Done ==> k in stops && IsNextStop(State(), k.route, stops[k].order, false, next)
    {
      if !AssignedTo(State(), tenant, driver, k.route) {
        return Refused(RouteNotFound), None;
      }
      var missing := StopError(State(), tenant, k);
      if missing.Some? {
        return Refused(missing.value), None;
      }
      var booking := bookings[k.booking];
      if booking.status == Ongoing || booking.status == Completed {
        return Refused(InvalidBookingState), None;
      }
      if !GateOpen(State(), k.route, stops[k].order) {
        return Refused(PreviousBookingsPending), None;
      }
      bookings := bookings[k.booking := booking.(status := NoShow)];
      stops := stops[k := stops[k].(pickedUp := Some(now))];
      reply := Done;
      next := GetNextStop(State(), k.route, stops[k].order, false);
    }

    method MarkNoShow(tenant: string, driver: int, k: Key, now: nat) returns (reply: Reply, next: Option<Key>)
      modifies this
      ensures (State(), reply) == MarkNoShowStep(old(State()), tenant, driver, k, now)
      ensures reply == Done ==> k in stops && IsNextStop(State(), k.route, stops[k].order, false, next)
      ensures Inv(old(State())) ==> Inv(State())
    {
      ghost var before := State();
      reply, next := MarkNoShowInPlace(tenant, driver, k, now);
      StepKeepsInv(before, Op.MarkNoShow(tenant, driver, k, now), State());
    }

    method DropInPlace(tenant: string, driver: int, k: Key, otp: Option<string>, near: bool, now: nat)
      returns (reply: Reply)
      modifies this
      ensures (State(), reply) == DropStep(old(State()), tenant, driver, k, otp, near, now)
    {
      if !AssignedTo(State(), tenant, driver, k.route) || routes[k.route].status != Underway {
        return Refused(RouteNotFound);
      }
      var missing := StopError(State(), tenant, k);
      if missing.Some? {
        return Refused(missing.value);
      }
      var booking := bookings[k.booking];
      if !near {
        return Refused(DriverTooFar);
      }
      if !OtpAccepted(booking.deboardingOtp, otp) {
        return Refused(InvalidOtp);
      }
      if booking.status == Completed {
        return Already;
      }
      bookings := bookings[k.booking := booking.(status := Completed)];
      stops := stops[k := stops[k].(dropped := Some(now))];
      reply := Done;
    }

    method Drop(tenant: string, driver: int, k: Key, otp: Option<string>, near: bool, now: nat)
      returns (reply: Reply)
      modifies this
      ensures (State(), reply) == DropStep(old(State()), tenant, driver, k, otp, near, now)
      ensures Inv(old(State())) ==> Inv(State())
    {
      ghost var before := State();
      reply := DropInPlace(tenant, driver, k, otp, near, now);
      StepKeepsInv(before, Op.Drop(tenant, driver, k, otp, near, now), State());
    }

    method EndDutyInPlace(tenant: string, driver: int, route: int) returns (reply: Reply)
      modifies this
      ensures (State(), reply) == EndDutyStep(old(State()), tenant, driver, route)
    {
      if !AssignedTo(State(), tenant, driver, route) {
        return Refused(RouteNotFound);
      }
      var row := routes[route];
      if row.status != Underway {
        if row.status == Closed {
          return Already;
        }
        return Refused(InvalidRouteState);
      }
      if !AllFinal(State(), route) {
        return Refused(PendingBookingsExist);
      }
      routes := routes[route := row.(status := Closed)];
      reply := Done;
    }

    method EndDuty(tenant: string, driver: int, route: int) returns (reply: Reply)
      modifies this
      ensures (State(), reply) == EndDutyStep(old(State()), tenant, driver, route)
      ensures Inv(old(State())) ==> Inv(State())
    {
      ghost var before := State();
      reply := EndDutyInPlace(tenant, driver, route);
      StepKeepsInv(before, Op.EndDuty(tenant, driver, route), State());
    }

    method NodalScanInPlace(tenant: string, employee: int, vehicle: Option<int>, k: Key, today: int, now: nat)
      returns (reply: Reply)
      modifies this
      ensures (State(), reply) == NodalScanStep(old(State()), tenant, employee, vehicle, k, today, now)
    {
      if vehicle.None? {
        return Refused(VehicleNotFound);
      }
      if k.route !in routes || routes[k.route].vehicle != vehicle || routes[k.route].tenant != tenant
         || (routes[k.route].status != DriverAssigned && routes[k.route].status != Underway) {
        return Refused(RouteNotFound);
      }
      if k !in stops || k.booking !in bookings || bookings[k.booking].employee != employee
         || bookings[k.booking].date != today || bookings[k.booking].status != Scheduled {
        return Refused(BookingNotFound);
      }
      var booking := bookings[k.booking];
      if booking.shift == DoorShift {
        return Refused(NotNodalShift);
      }
      bookings := bookings[k.booking := booking.(status := Ongoing)];
      stops := stops[k := stops[k].(pickedUp := Some(now))];
      reply := Done;
    }

    method NodalScan(tenant: string, employee: int, vehicle: Option<int>, k: Key, today: int, now: nat)
      returns (reply: Reply)
      modifies this
      ensures (State(), reply) == NodalScanStep(old(State()), tenant, employee, vehicle, k, today, now)
      ensures Inv(old(State())) ==> Inv(State())
    {
      ghost var before := State();
      reply := NodalScanInPlace(tenant, employee, vehicle, k, today, now);
      StepKeepsInv(before, Op.NodalScan(tenant, employee, vehicle, k, today, now), State());
    }
  }
}
