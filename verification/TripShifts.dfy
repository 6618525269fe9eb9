/**
 Bookings whose shift row is missing. A driver's pick-up treats them as door riders, the scan takes them like
 nodal ones. So what holds of door riders holds of them only where the scan cannot reach them: here is exactly when.
 */
module TripShifts {
  import opened Common
  import opened Trips
  import opened TripSafety

  predicate NotNodal(s: Db, k: Key) {
    k in StopsOf(s, k.route) && s.bookings[k.booking].shift != NodalShift
  }

  /** A stop without a shift row that a scan could take, now or once its route is reached. */
  predicate Scannable(s: Db, k: Key) {
    && k in StopsOf(s, k.route) && k.route in s.routes && s.bookings[k.booking].shift == NoShift
    && StatusAt(s, k) == Scheduled && s.routes[k.route].vehicle.Some?
    && (s.routes[k.route].status == DriverAssigned || s.routes[k.route].status == Underway)
  }

  /** Such a stop with an earlier stop still waiting. */
  predicate SkipsGate(s: Db, k: Key) {
    Scannable(s, k) && !GateOpen(s, k.route, s.stops[k].order)
  }

  /** Every stop but a nodal one that has a pick-up time has had all its predecessors passed. */
  ghost predicate AllInOrder(s: Db) {
    forall k :: NotNodal(s, k) && s.stops[k].pickedUp.Some? ==> GateOpen(s, k.route, s.stops[k].order)
  }

  /** Every rider but a nodal one is aboard only a route that is underway with its escort, if any, aboard. */
  ghost predicate AllRideEscorted(s: Db) {
    forall k :: NotNodal(s, k) && StatusAt(s, k) == Ongoing
                ==> k.route in s.routes && s.routes[k.route].status == Underway && EscortAboard(s.routes[k.route])
  }

  /** No request makes a stop scannable, or closes a gate. */
  lemma SkipsGateBefore(s: Db, op: Op, k: Key)
    ensures Scannable(Next(s, op), k) ==> Scannable(s, k)
    ensures SkipsGate(Next(s, op), k) ==> SkipsGate(s, k)
  {
    var c := NextIsLicensed(s, op);
    WriteForward(s, op, c);
    if Scannable(Next(s, op), k) && GateOpen(s, k.route, s.stops[k].order) {
      ForwardGate(s, Next(s, op), k.route, s.stops[k].order);
    }
  }

  /** What the scan does to a scannable stop, with the right vehicle, employee and day. */
  function ScanOf(s: Db, k: Key): Op
    requires Scannable(s, k)
  {
    var r, b := s.routes[k.route], s.bookings[k.booking];
    NodalScan(r.tenant, b.employee, r.vehicle, k, b.date, 0)
  }

  lemma ScanTakes(s: Db, k: Key)
    requires Scannable(s, k)
    ensures var t := Run(s, [ScanOf(s, k)]);
            && NotNodal(t, k) && t.stops[k].pickedUp.Some? && StatusAt(t, k) == Ongoing
            && t.routes == s.routes && t.stops[k].order == s.stops[k].order
            && (GateOpen(t, k.route, t.stops[k].order) <==> GateOpen(s, k.route, s.stops[k].order))
  {
    var op := ScanOf(s, k);
    var t := Next(s, op);
    assert Run(s, [op]) == Run(t, []) == t;
    assert StopsOf(t, k.route) == StopsOf(s, k.route);
    assert forall l :: l in StopsOf(s, k.route) && l != k ==> StatusAt(t, l) == StatusAt(s, l);
  }

  /** The scan picks the stop up although an earlier one, `l`, waits. */
  lemma ScanSkipsGateWithoutShift(s: Db, k: Key) returns (l: Key)
    requires SkipsGate(s, k)
    ensures var t := Run(s, [ScanOf(s, k)]);
            && NotNodal(t, k) && t.stops[k].pickedUp.Some?
            && l in StopsOf(t, k.route) && t.stops[l].order < t.stops[k].order && !Passed(StatusAt(t, l))
  {
    ScanTakes(s, k);
    var t := Run(s, [ScanOf(s, k)]);
    l :| l in StopsOf(t, k.route) && t.stops[l].order < t.stops[k].order && !Passed(StatusAt(t, l));
  }

  /** Dispatched tables can hold such a stop. */
  lemma SkippableIsDispatched() returns (s: Db, k: Key)
    ensures Dispatched(s) && SkipsGate(s, k)
  {
    var waiting := Booking("t", 7, NoShift, 0, None, None, Scheduled);
    var l := Key(1, 10);
    k := Key(1, 20);
    s := Db(map[1 := Route("t", Some(1), Some(5), None, None, false, DriverAssigned)],
            map[l := Stop(1, None, None), k := Stop(2, None, None)], map[10 := waiting, 20 := waiting]);
    assert l in StopsOf(s, 1) && s.stops[l].order < s.stops[k].order;
  }

  // ---------- Order ----------

  lemma NextKeepsOrder(s: Db, op: Op)
    requires AllInOrder(s) && forall k :: !SkipsGate(s, k)
    ensures AllInOrder(Next(s, op)) && forall k :: !SkipsGate(Next(s, op), k)
  {
    var t := Next(s, op);
    var c := NextIsLicensed(s, op);
    WriteForward(s, op, c);
    forall k | NotNodal(t, k) && t.stops[k].pickedUp.Some? ensures GateOpen(t, k.route, t.stops[k].order) {
      assert NotNodal(s, k) && !SkipsGate(s, k);
      assert GateOpen(s, k.route, s.stops[k].order);
      ForwardGate(s, t, k.route, s.stops[k].order);
    }
    forall k ensures !SkipsGate(t, k) {
      SkipsGateBefore(s, op, k);
    }
  }

  lemma {:induction false} RunKeepsOrder(s: Db, ops: seq<Op>)
    requires AllInOrder(s) && forall k :: !SkipsGate(s, k)
    ensures AllInOrder(Run(s, ops))
    decreases |ops|
  {
    if ops != [] {
      NextKeepsOrder(s, ops[0]);
      RunKeepsOrder(Next(s, ops[0]), ops[1..]);
    }
  }

  /**
   From dispatched tables, stops are picked up in order in every run exactly when no scannable stop without a
   shift row has an earlier stop still waiting.
   */
  lemma OrderHoldsIff(s: Db)
    requires Dispatched(s)
    ensures (forall ops :: AllInOrder(Run(s, ops))) <==> (forall k :: !SkipsGate(s, k))
  {
    if k :| SkipsGate(s, k) {
      ScanTakes(s, k);
      assert !AllInOrder(Run(s, [ScanOf(s, k)]));
    } else {
      forall ops ensures AllInOrder(Run(s, ops)) {
        RunKeepsOrder(s, ops);
      }
    }
  }

  /**
   Once a stop has a pick-up time, in every later state its predecessors are no-shows, aboard or completed: always
   for door stops, and for stops without a shift row under the condition of OrderHoldsIff.
   */
  lemma PredecessorsStayPassed(s0: Db, before: seq<Op>, after: seq<Op>, k: Key, l: Key)
    requires Dispatched(s0) && NotNodal(Run(s0, before), k) && Run(s0, before).stops[k].pickedUp.Some?
    requires Run(s0, before).bookings[k.booking].shift == DoorShift || forall m :: !SkipsGate(s0, m)
    requires l in StopsOf(Run(s0, before), k.route)
    requires Run(s0, before).stops[l].order < Run(s0, before).stops[k].order
    ensures var t := Run(Run(s0, before), after); l in StopsOf(t, k.route) && Passed(StatusAt(t, l))
  {
    var s := Run(s0, before);
    DispatchedInv(s0);
    RunKeepsInv(s0, before);
    RunKeepsInv(s, after);
    if forall m :: !SkipsGate(s0, m) {
      RunKeepsOrder(s0, before);
    }
    assert GateOpen(s, k.route, s.stops[k].order);
    assert Passed(StatusAt(s, l));
  }

  // ---------- Escorted rides ----------

  lemma NextKeepsEscort(s: Db, op: Op)
    requires OneRoute(s) && AllRideEscorted(s) && forall k :: !Scannable(s, k)
    ensures OneRoute(Next(s, op)) && AllRideEscorted(Next(s, op)) && forall k :: !Scannable(Next(s, op), k)
  {
    var t := Next(s, op);
    var c := NextIsLicensed(s, op);
    WriteForward(s, op, c);
    WriteKeepsEscort(s, op, c);
    forall k ensures !Scannable(t, k) {
      SkipsGateBefore(s, op, k);
    }
  }

  lemma WriteKeepsEscort(s: Db, op: Op, c: Change)
    requires OneRoute(s) && AllRideEscorted(s) && Licensed(s, op, c) && forall k :: !Scannable(s, k)
    ensures AllRideEscorted(Write(s, c))
  {
    var t := Write(s, c);
    forall k | NotNodal(t, k) && StatusAt(t, k) == Ongoing
      ensures k.route in t.routes && t.routes[k.route].status == Underway && EscortAboard(t.routes[k.route])
    {
      assert NotNodal(s, k) && !Scannable(s, k);
    }
  }

  lemma {:induction false} RunKeepsEscort(s: Db, ops: seq<Op>)
    requires OneRoute(s) && AllRideEscorted(s) && forall k :: !Scannable(s, k)
    ensures AllRideEscorted(Run(s, ops))
    decreases |ops|
  {
    if ops != [] {
      NextKeepsEscort(s, ops[0]);
      RunKeepsEscort(Next(s, ops[0]), ops[1..]);
    }
  }

  /**
   From dispatched tables, riders who are not nodal are aboard only routes underway with their escort aboard, in
   every run, exactly when no stop without a shift row can be scanned: a scan needs neither duty nor escort.
   */
  lemma EscortHoldsIff(s: Db)
    requires Dispatched(s)
    ensures (forall ops :: AllRideEscorted(Run(s, ops))) <==> (forall k :: !Scannable(s, k))
  {
    if k :| Scannable(s, k) {
      ScanTakes(s, k);
      assert !AllRideEscorted(Run(s, [ScanOf(s, k)]));
    } else {
      forall ops ensures AllRideEscorted(Run(s, ops)) {
        RunKeepsEscort(s, ops);
      }
    }
  }
}
