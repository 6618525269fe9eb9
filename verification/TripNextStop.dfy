/** The "next stop" that start_trip and no-show report, and its agreement with the ordering gate. */
module TripNextStop {
  import opened Common
  import opened Trips
  import TripProgress

  predicate Candidate(s: Db, route: int, after: int, skipOngoing: bool, k: Key) {
    && k in StopsOf(s, route) && s.stops[k].order > after
    && StatusAt(s, k) != NoShow && StatusAt(s, k) != Completed
    && (skipOngoing ==> StatusAt(s, k) != Ongoing)
  }

  /** get_next_stop: some candidate of least order, or none when there is no candidate. */
  ghost predicate IsNextStop(s: Db, route: int, after: int, skipOngoing: bool, next: Option<Key>) {
    if next.None? then forall k :: !Candidate(s, route, after, skipOngoing, k)
    else
      && Candidate(s, route, after, skipOngoing, next.value)
      && forall k :: Candidate(s, route, after, skipOngoing, k) ==> s.stops[next.value].order <= s.stops[k].order
  }

  /** A stop of the route behind the order, with its booking. */
  predicate Later(s: Db, route: int, order: int, k: Key) {
    k in s.stops && k.booking in s.bookings && k.route == route && s.stops[k].order > order
  }

  function Excluded(skipOngoing: bool): set<BookingStatus> {
    if skipOngoing then {NoShow, Completed, Ongoing} else {NoShow, Completed}
  }

  method GetNextStop(s: Db, route: int, after: int, skipOngoing: bool) returns (next: Option<Key>)
    ensures IsNextStop(s, route, after, skipOngoing, next)
    ensures next.Some? <==> exists k :: Later(s, route, after, k) && s.bookings[k.booking].status !in Excluded(skipOngoing)
    ensures next.Some? ==> Later(s, route, after, next.value)
                           && s.bookings[next.value.booking].status !in Excluded(skipOngoing)
    ensures next.Some? ==> forall k :: Later(s, route, after, k) && s.bookings[k.booking].status !in Excluded(skipOngoing)
                                       ==> s.stops[next.value].order <= s.stops[k].order
  {
    forall k ensures Candidate(s, route, after, skipOngoing, k)
                     <==> Later(s, route, after, k) && s.bookings[k.booking].status !in Excluded(skipOngoing)
    {
    }
    var rows := set k | k in StopsOf(s, route) && Candidate(s, route, after, skipOngoing, k);
    if rows == {} {
      next := None;
      assert forall k :: Candidate(s, route, after, skipOngoing, k) ==> k in rows;
    } else {
      ghost var first := TripProgress.ExistsFirst(s, rows);
      var k :| k in rows && forall l :: l in rows ==> s.stops[k].order <= s.stops[l].order;
      next := Some(k);
    }
  }

  /** Every stop of the route that shares the given order has been passed. */
  ghost predicate TiesPassed(s: Db, route: int, order: int) {
    forall k :: k in StopsOf(s, route) && s.stops[k].order == order ==> Passed(StatusAt(s, k))
  }

  ghost predicate DistinctOrders(s: Db, route: int) {
    forall k, l :: k in StopsOf(s, route) && l in StopsOf(s, route) && s.stops[k].order == s.stops[l].order ==> k == l
  }

  /**
   Where the gate is open at a stop, the reported next stop passes the gate exactly when no unpassed stop
   ties with the current one.
   */
  lemma NextStopPassesGateIff(s: Db, route: int, order: int, next: Key)
    requires GateOpen(s, route, order) && IsNextStop(s, route, order, false, Some(next))
    ensures GateOpen(s, route, s.stops[next].order) <==> TiesPassed(s, route, order)
  {
    if TiesPassed(s, route, order) {
      forall k | k in StopsOf(s, route) && s.stops[k].order < s.stops[next].order
        ensures Passed(StatusAt(s, k))
      {
        if s.stops[k].order > order {
          assert !Candidate(s, route, order, false, k);
        }
      }
    }
  }

  /** The requests that report a next stop after going through the gate. */
  predicate Gated(s: Db, op: Op) {
    op.MarkNoShow? || (op.StartTrip? && op.key.booking in s.bookings && s.bookings[op.key.booking].shift != NodalShift)
  }

  lemma GateOpenAfter(s: Db, op: Op)
    requires Gated(s, op) && Apply(s, op).1 == Done
    ensures var t := Next(s, op);
            && op.key in StopsOf(t, op.key.route) && Passed(StatusAt(t, op.key))
            && GateOpen(t, op.key.route, t.stops[op.key].order)
            && StopsOf(t, op.key.route) == StopsOf(s, op.key.route)
            && forall k :: k in s.stops ==> k in t.stops && t.stops[k].order == s.stops[k].order
  {
    var t, r := Next(s, op), op.key.route;
    assert StopsOf(t, r) == StopsOf(s, r);
    assert GateOpen(s, r, s.stops[op.key].order);
    forall k | k in StopsOf(t, r) && t.stops[k].order < t.stops[op.key].order
      ensures Passed(StatusAt(t, k))
    {
      assert Passed(StatusAt(s, k));
    }
  }

  /**
   With distinct orders on the route, after an accepted no-show or non-nodal pick-up the reported stop is a
   first later stop still open and the gate lets it through; no stop reported means every later one is over.
   */
  lemma NextStopAgreesWithGate(s: Db, op: Op, next: Option<Key>)
    requires Gated(s, op) && Apply(s, op).1 == Done && DistinctOrders(s, op.key.route)
    requires var t := Next(s, op);
             op.key in t.stops && IsNextStop(t, op.key.route, t.stops[op.key].order, false, next)
    ensures var t, r := Next(s, op), op.key.route;
            if next.Some? then GateOpen(t, r, t.stops[next.value].order)
            else forall k :: k in StopsOf(t, r) && t.stops[k].order > t.stops[op.key].order
                             ==> StatusAt(t, k) == NoShow || StatusAt(t, k) == Completed
  {
    GateOpenAfter(s, op);
    var t, r := Next(s, op), op.key.route;
    if next.Some? {
      NextStopPassesGateIff(t, r, t.stops[op.key].order, next.value);
    } else {
      forall k | k in StopsOf(t, r) && t.stops[k].order > t.stops[op.key].order
        ensures StatusAt(t, k) == NoShow || StatusAt(t, k) == Completed
      {
        assert !Candidate(t, r, t.stops[op.key].order, false, k);
      }
    }
  }
}
