/** What every request keeps, and what therefore holds in every state a run can reach. */
module TripSafety {
  import opened Common
  import opened Trips

  // ---------- The invariant ----------

  /** Each booking hangs on at most one route. */
  ghost predicate OneRoute(s: Db) {
    forall k, l :: k in s.stops && l in s.stops && k.booking == l.booking ==> k.route == l.route
  }

  /** At most one route is underway for a tenant's driver. */
  ghost predicate OneDuty(s: Db) {
    forall q, r :: q in s.routes && r in s.routes && s.routes[q].status == Underway && s.routes[r].status == Underway
                   && s.routes[q].tenant == s.routes[r].tenant && s.routes[q].driver == s.routes[r].driver
                   && s.routes[q].driver.Some?
                   ==> q == r
  }

  /** Every booking of a closed route is completed, a no-show or cancelled. */
  ghost predicate ClosedIsFinal(s: Db) {
    forall r :: r in s.routes && s.routes[r].status == Closed ==> AllFinal(s, r)
  }

  /** A rider picked up at the door is aboard only a route that is underway with its escort, if any, aboard. */
  ghost predicate DoorRidesEscorted(s: Db) {
    forall k :: k in s.stops && k.booking in s.bookings && s.bookings[k.booking].shift == DoorShift
                && StatusAt(s, k) == Ongoing
                ==> k.route in s.routes && s.routes[k.route].status == Underway && EscortAboard(s.routes[k.route])
  }

  ghost predicate EscortHadOtp(s: Db) {
    forall r :: r in s.routes && s.routes[r].escortBoarded ==> Truthy(s.routes[r].escortOtp)
  }

  /** A door stop that has a pick-up time has had all its predecessors passed. */
  ghost predicate InOrder(s: Db) {
    forall k :: k in s.stops && k.booking in s.bookings && s.bookings[k.booking].shift == DoorShift
                && s.stops[k].pickedUp.Some?
                ==> GateOpen(s, k.route, s.stops[k].order)
  }

  ghost predicate Inv(s: Db) {
    OneRoute(s) && OneDuty(s) && ClosedIsFinal(s) && DoorRidesEscorted(s) && EscortHadOtp(s) && InOrder(s)
  }

  /** The tables as dispatch leaves them: nothing underway or closed, nobody aboard, no pick-up times. */
  ghost predicate Dispatched(s: Db) {
    OneRoute(s) && Undriven(s)
  }

  ghost predicate Undriven(s: Db) {
    && (forall r :: r in s.routes ==> s.routes[r].status != Underway && s.routes[r].status != Closed
                                      && !s.routes[r].escortBoarded)
    && (forall b :: b in s.bookings ==> s.bookings[b].status != Ongoing)
    && (forall k :: k in s.stops ==> s.stops[k].pickedUp.None?)
  }

  ghost predicate Reachable(s: Db) {
    exists s0, ops :: Dispatched(s0) && s == Run(s0, ops)
  }

  // ---------- One request ----------

  /** What no request ever touches: which rows exist, and every column outside the protocol. */
  ghost predicate SameFrame(s: Db, t: Db) {
    && s.routes.Keys == t.routes.Keys && s.stops.Keys == t.stops.Keys && s.bookings.Keys == t.bookings.Keys
    && (forall r :: r in s.routes ==> t.routes[r] == s.routes[r].(status := t.routes[r].status,
                                                                  escortBoarded := t.routes[r].escortBoarded))
    && (forall k :: k in s.stops ==> t.stops[k].order == s.stops[k].order)
    && (forall b :: b in s.bookings ==> t.bookings[b] == s.bookings[b].(status := t.bookings[b].status))
  }

  /** What only ever moves forward: passed bookings, closed routes, boarded escorts, recorded pick-ups. */
  ghost predicate Forward(s: Db, t: Db) {
    && SameFrame(s, t)
    && (forall b :: b in s.bookings && Passed(s.bookings[b].status) ==> Passed(t.bookings[b].status))
    && (forall r :: r in s.routes && s.routes[r].status == Closed ==> t.routes[r].status == Closed)
    && (forall r :: r in s.routes && s.routes[r].escortBoarded ==> t.routes[r].escortBoarded)
    && (forall k :: k in s.stops && s.stops[k].pickedUp.Some? ==> t.stops[k].pickedUp.Some?)
  }

  // ---------- What an accepted request certifies ----------

  datatype Change = Nothing | RouteRow(route: int, row: Route) | StopRow(key: Key, status: BookingStatus, stop: Stop)

  function Write(s: Db, c: Change): Db
    requires c.StopRow? ==> c.key.booking in s.bookings
  {
    match c
    case Nothing => s
    case RouteRow(r, row) => s.(routes := s.routes[r := row])
    case StopRow(k, st, row) => WithStatus(s, k.booking, st).(stops := s.stops[k := row])
  }

  /** The only three things that may happen to a route, and what must have been true before each. */
  ghost predicate RouteLicensed(s: Db, op: Op, r: int, row: Route) {
    r in s.routes && var was := s.routes[r];
    || (&& op.StartDuty? && AssignedTo(s, op.tenant, op.driver, r) && was.status == DriverAssigned
        && !OtherRouteUnderway(s, op.tenant, op.driver, r) && row == was.(status := Underway))
    || (&& op.BoardEscort? && AssignedTo(s, op.tenant, op.driver, r) && was.status == Underway && Truthy(was.escort)
        && Truthy(was.escortOtp) && was.escortOtp == Some(op.escortOtp) && row == was.(escortBoarded := true))
    || (&& op.EndDuty? && AssignedTo(s, op.tenant, op.driver, r) && was.status == Underway
        && AllFinal(s, r) && row == was.(status := Closed))
  }

  /** A rider gets aboard through the driver, gated and with the code, or through a nodal scan. */
  ghost predicate BoardingLicensed(s: Db, op: Op, k: Key)
    requires k in StopsOf(s, k.route) && k.route in s.routes
  {
    var b, r := s.bookings[k.booking], s.routes[k.route];
    || (&& op.StartTrip? && AssignedTo(s, op.tenant, op.driver, k.route) && b.tenant == op.tenant
        && r.status == Underway && EscortAboard(r) && op.near && op.darkHourOk
        && if b.shift == NodalShift then b.status == Scheduled || b.status == Ongoing
           else GateOpen(s, k.route, s.stops[k].order) && OtpAccepted(b.boardingOtp, op.otp))
    || (&& op.NodalScan? && op.vehicle.Some? && r.vehicle == op.vehicle && r.tenant == op.tenant
        && (r.status == DriverAssigned || r.status == Underway) && b.employee == op.employee && b.date == op.today
        && b.status == Scheduled && b.shift != DoorShift)
  }

  ghost predicate StopLicensed(s: Db, op: Op, k: Key, st: BookingStatus, row: Stop) {
    && k in StopsOf(s, k.route) && k.route in s.routes
    && var b, was := s.bookings[k.booking], s.stops[k];
      || (&& st == Ongoing && BoardingLicensed(s, op, k) && row == was.(pickedUp := row.pickedUp) && row.pickedUp.Some?
          && (op.StartTrip? && was.pickedUp.Some? ==> row == was))
      || (&& st == NoShow && op.MarkNoShow? && AssignedTo(s, op.tenant, op.driver, k.route) && b.tenant == op.tenant
          && b.status != Ongoing && b.status != Completed && GateOpen(s, k.route, was.order)
          && row == was.(pickedUp := Some(op.now)))
      || (&& st == Completed && op.Drop? && AssignedTo(s, op.tenant, op.driver, k.route) && b.tenant == op.tenant
          && s.routes[k.route].status == Underway && op.near && OtpAccepted(b.deboardingOtp, op.otp)
          && b.status != Completed && row == was.(dropped := Some(op.now)))
  }

  ghost predicate Licensed(s: Db, op: Op, c: Change) {
    match c
    case Nothing => true
    case RouteRow(r, row) => RouteLicensed(s, op, r, row)
    case StopRow(k, st, row) => StopLicensed(s, op, k, st, row)
  }

  /**
   Audit of every request: it writes at most one route row, or one booking's status together with its
   stop, and only with the licence above; it writes exactly when the reply is `Done`.
   */
  lemma NextIsLicensed(s: Db, op: Op) returns (c: Change)
    ensures Licensed(s, op, c)
    ensures Next(s, op) == Write(s, c)
    ensures c == Nothing <==> Apply(s, op).1 != Done
  {
    if Apply(s, op).1 != Done {
      c := Nothing;
    } else if op.StartDuty? || op.BoardEscort? || op.EndDuty? {
      c := RouteWrites(s, op);
    } else {
      c := StopWrites(s, op);
    }
  }

  lemma RouteWrites(s: Db, op: Op) returns (c: Change)
    requires Apply(s, op).1 == Done && (op.StartDuty? || op.BoardEscort? || op.EndDuty?)
    ensures c.RouteRow? && Licensed(s, op, c) && Next(s, op) == Write(s, c)
  {
    c := RouteRow(op.route, Next(s, op).routes[op.route]);
  }

  lemma StopWrites(s: Db, op: Op) returns (c: Change)
    requires Apply(s, op).1 == Done && (op.StartTrip? || op.MarkNoShow? || op.Drop? || op.NodalScan?)
    ensures c.StopRow? && Licensed(s, op, c) && Next(s, op) == Write(s, c)
  {
    var t, k := Next(s, op), op.key;
    c := StopRow(k, StatusAt(t, k), t.stops[k]);
    assert s.stops[k := s.stops[k]] == s.stops;
  }

  lemma RouteForward(s: Db, op: Op, r: int, row: Route)
    requires RouteLicensed(s, op, r, row)
    ensures Forward(s, Write(s, RouteRow(r, row)))
  {
  }

  lemma StopForward(s: Db, op: Op, k: Key, st: BookingStatus, row: Stop)
    requires StopLicensed(s, op, k, st, row)
    ensures Forward(s, Write(s, StopRow(k, st, row)))
  {
  }

  lemma WriteForward(s: Db, op: Op, c: Change)
    requires Licensed(s, op, c)
    ensures Forward(s, Write(s, c))
  {
    match c
    case Nothing =>
    case RouteRow(r, row) => RouteForward(s, op, r, row);
    case StopRow(k, st, row) => StopForward(s, op, k, st, row);
  }

  lemma ForwardGate(s: Db, t: Db, route: int, order: int)
    requires Forward(s, t) && GateOpen(s, route, order)
    ensures GateOpen(t, route, order)
  {
    forall k | k in StopsOf(t, route) && t.stops[k].order < order
      ensures Passed(StatusAt(t, k))
    {
      assert k in StopsOf(s, route) && Passed(StatusAt(s, k));
    }
  }

  lemma WriteOneDuty(s: Db, op: Op, c: Change)
    requires OneDuty(s) && Licensed(s, op, c)
    ensures OneDuty(Write(s, c))
  {
  }

  lemma WriteClosedIsFinal(s: Db, op: Op, c: Change)
    requires OneRoute(s) && ClosedIsFinal(s) && Licensed(s, op, c)
    ensures ClosedIsFinal(Write(s, c))
  {
    var t := Write(s, c);
    forall r, k | r in t.routes && t.routes[r].status == Closed && k in StopsOf(t, r)
      ensures Final(StatusAt(t, k))
    {
      assert k in StopsOf(s, r);
    }
  }

  lemma WriteDoorRidesEscorted(s: Db, op: Op, c: Change)
    requires OneRoute(s) && DoorRidesEscorted(s) && Licensed(s, op, c)
    ensures DoorRidesEscorted(Write(s, c))
  {
    var t := Write(s, c);
    forall k | k in t.stops && k.booking in t.bookings && t.bookings[k.booking].shift == DoorShift
               && StatusAt(t, k) == Ongoing
      ensures k.route in t.routes && t.routes[k.route].status == Underway && EscortAboard(t.routes[k.route])
    {
      assert k in StopsOf(s, k.route);
    }
  }

  lemma WriteInOrder(s: Db, op: Op, c: Change)
    requires InOrder(s) && Licensed(s, op, c)
    ensures InOrder(Write(s, c))
  {
    var t := Write(s, c);
    WriteForward(s, op, c);
    forall k | k in t.stops && k.booking in t.bookings && t.bookings[k.booking].shift == DoorShift
               && t.stops[k].pickedUp.Some?
      ensures GateOpen(t, k.route, t.stops[k].order)
    {
      assert GateOpen(s, k.route, s.stops[k].order);
      ForwardGate(s, t, k.route, s.stops[k].order);
    }
  }

  /** Every request, accepted or refused, keeps the whole invariant. */
  lemma NextKeepsInv(s: Db, op: Op)
    requires Inv(s)
    ensures Inv(Next(s, op)) && Forward(s, Next(s, op))
  {
    var c := NextIsLicensed(s, op);
    WriteForward(s, op, c);
    WriteOneDuty(s, op, c);
    WriteClosedIsFinal(s, op, c);
    WriteDoorRidesEscorted(s, op, c);
    WriteInOrder(s, op, c);
  }

  /** A nonzero code is opened by its own decimal text and by nothing else; leaving the answer out never opens it. */
  lemma OtpIsExact(code: Option<int>, answer: Option<string>)
    ensures OtpAccepted(code, answer) <==> !Truthy(code) || answer == Some(Decimal(code.value))
    ensures forall n :: Truthy(code) && answer == Some(Decimal(n)) ==> (OtpAccepted(code, answer) <==> n == code.value)
  {
    if Truthy(code) {
      DecimalSign(code.value);
      assert Decimal(code.value)[0] != 'N' by {
        if code.value >= 0 { assert Digits(code.value)[0] in Digits(code.value); }
      }
      assert "None"[0] == 'N';
      forall n | Decimal(n) == Decimal(code.value) ensures n == code.value {
        DecimalInjective(n, code.value);
      }
    }
  }

  // ---------- Runs ----------

  lemma {:induction false} RunKeepsInv(s: Db, ops: seq<Op>)
    requires Inv(s)
    ensures Inv(Run(s, ops)) && Forward(s, Run(s, ops))
    decreases |ops|
  {
    if ops != [] {
      NextKeepsInv(s, ops[0]);
      RunKeepsInv(Next(s, ops[0]), ops[1..]);
    }
  }

  lemma DispatchedInv(s: Db)
    requires Dispatched(s)
    ensures Inv(s)
  {
  }

  lemma ReachableInv(s: Db)
    requires Reachable(s)
    ensures Inv(s)
  {
    var s0, ops :| Dispatched(s0) && s == Run(s0, ops);
    DispatchedInv(s0);
    RunKeepsInv(s0, ops);
  }

  /**
   Once a route is closed it stays closed, and whatever requests follow, every booking on it stays
   completed, a no-show or cancelled.
   */
  lemma ClosedForGood(s: Db, route: int, ops: seq<Op>)
    requires Reachable(s) && route in s.routes && s.routes[route].status == Closed
    ensures var t := Run(s, ops);
            && route in t.routes && t.routes[route].status == Closed
            && StopsOf(t, route) == StopsOf(s, route)
            && forall k :: k in StopsOf(t, route) ==> Final(StatusAt(t, k))
  {
    ReachableInv(s);
    RunKeepsInv(s, ops);
    var t := Run(s, ops);
    assert AllFinal(t, route);
    assert forall k :: k in StopsOf(t, route) <==> k in StopsOf(s, route);
  }

  /**
   Each booking on one route is needed: with a booking on two routes of one driver, a run of his own requests closes
   the first route and then gets its rider aboard again.
   */
  lemma SharedBookingReopens() returns (s0: Db, ops: seq<Op>, route: int, k: Key)
    ensures Undriven(s0)
    ensures var t := Run(s0, ops);
            && route in t.routes && t.routes[route].status == Closed
            && k in StopsOf(t, route) && StatusAt(t, k) == Ongoing
  {
    var l: Key;
    route, k, l := 1, Key(1, 10), Key(2, 10);
    s0 := Db(map[1 := SharedRoute(DriverAssigned), 2 := SharedRoute(DriverAssigned)],
             map[k := Stop(1, None, None), l := Stop(1, None, None)], map[10 := SharedRider(Scheduled)]);
    ops := [StartDuty("t", 1, 1), MarkNoShow("t", 1, k, 0), EndDuty("t", 1, 1), StartDuty("t", 1, 2),
            StartTrip("t", 1, l, None, true, true, 480)];
    SharedRun(s0, ops);
    OnlyStop(Run(s0, ops), 1);
  }

  lemma SharedRun(s: Db, ops: seq<Op>)
    requires Shared(s, DriverAssigned, DriverAssigned, Scheduled) && |ops| == 5
    requires ops[0] == StartDuty("t", 1, 1) && ops[1] == MarkNoShow("t", 1, Key(1, 10), 0) && ops[2] == EndDuty("t", 1, 1)
    requires ops[3] == StartDuty("t", 1, 2) && ops[4] == StartTrip("t", 1, Key(2, 10), None, true, true, 480)
    ensures Shared(Run(s, ops), Closed, Underway, Ongoing)
  {
    RunFive(s, ops);
    var s1 := SharedStart(s, 1, DriverAssigned, DriverAssigned, Scheduled);
    var s2 := SharedNoShow(s1);
    var s3 := SharedEnd(s2);
    var s4 := SharedStart(s3, 2, Closed, DriverAssigned, NoShow);
    var s5 := SharedPickUp(s4);
  }

  function SharedRoute(st: RouteStatus): Route {
    Route("t", Some(1), None, None, None, false, st)
  }

  function SharedRider(st: BookingStatus): Booking {
    Booking("t", 7, DoorShift, 0, None, None, st)
  }

  /** Two routes of one driver that share their only booking. */
  ghost predicate Shared(s: Db, first: RouteStatus, second: RouteStatus, rider: BookingStatus) {
    && s.routes == map[1 := SharedRoute(first), 2 := SharedRoute(second)]
    && s.bookings == map[10 := SharedRider(rider)]
    && s.stops.Keys == {Key(1, 10), Key(2, 10)} && forall k :: k in s.stops ==> s.stops[k].order == 1
  }

  lemma OnlyStop(s: Db, route: int)
    requires s.stops.Keys == {Key(1, 10), Key(2, 10)} && (route == 1 || route == 2) && s.bookings.Keys == {10}
    ensures StopsOf(s, route) == {Key(route, 10)}
  {
  }

  lemma SharedStart(s: Db, r: int, first: RouteStatus, second: RouteStatus, rider: BookingStatus) returns (t: Db)
    requires Shared(s, first, second, rider) && first != Underway && second != Underway
    requires (r == 1 && first == DriverAssigned) || (r == 2 && second == DriverAssigned)
    ensures t == Next(s, StartDuty("t", 1, r))
    ensures Shared(t, if r == 1 then Underway else first, if r == 2 then Underway else second, rider)
  {
    t := Next(s, StartDuty("t", 1, r));
  }

  lemma SharedNoShow(s: Db) returns (t: Db)
    requires Shared(s, Underway, DriverAssigned, Scheduled)
    ensures t == Next(s, MarkNoShow("t", 1, Key(1, 10), 0)) && Shared(t, Underway, DriverAssigned, NoShow)
  {
    OnlyStop(s, 1);
    t := Next(s, MarkNoShow("t", 1, Key(1, 10), 0));
  }

  lemma SharedEnd(s: Db) returns (t: Db)
    requires Shared(s, Underway, DriverAssigned, NoShow)
    ensures t == Next(s, EndDuty("t", 1, 1)) && Shared(t, Closed, DriverAssigned, NoShow)
  {
    OnlyStop(s, 1);
    t := Next(s, EndDuty("t", 1, 1));
  }

  lemma SharedPickUp(s: Db) returns (t: Db)
    requires Shared(s, Closed, Underway, NoShow)
    ensures t == Next(s, StartTrip("t", 1, Key(2, 10), None, true, true, 480)) && Shared(t, Closed, Underway, Ongoing)
  {
    OnlyStop(s, 2);
    t := Next(s, StartTrip("t", 1, Key(2, 10), None, true, true, 480));
  }

  lemma RunFive(s: Db, ops: seq<Op>)
    requires |ops| == 5
    ensures Run(s, ops) == Next(Next(Next(Next(Next(s, ops[0]), ops[1]), ops[2]), ops[3]), ops[4])
  {
    var s1 := Next(s, ops[0]);
    var s2 := Next(s1, ops[1]);
    var s3 := Next(s2, ops[2]);
    var s4 := Next(s3, ops[3]);
    assert Run(s, ops) == Run(s1, ops[1..]) == Run(s2, ops[1..][1..]) == Run(s3, ops[1..][1..][1..]);
    assert Run(s3, ops[1..][1..][1..]) == Run(s4, ops[1..][1..][1..][1..]) == Run(Next(s4, ops[4]), []);
  }

  // ---------- The escort's own view ----------

  datatype EscortView = PendingDispatch | AwaitingBoarding | EscortIsBoarded

  function ComputeEscortStatus(r: Route): EscortView {
    if r.escortOtp.None? then PendingDispatch
    else if !r.escortBoarded then AwaitingBoarding
    else EscortIsBoarded
  }

  /** In every reachable state the escort's app says "boarded" exactly when the driver has confirmed it. */
  lemma EscortViewIsExact(s: Db, route: int)
    requires Reachable(s) && route in s.routes
    ensures ComputeEscortStatus(s.routes[route]) == EscortIsBoarded <==> s.routes[route].escortBoarded
    ensures ComputeEscortStatus(s.routes[route]) == PendingDispatch <==> s.routes[route].escortOtp == None
  {
    ReachableInv(s);
  }
}
