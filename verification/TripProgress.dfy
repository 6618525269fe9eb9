/** A duty can always be finished: the ordering gates never trap a driver. */
module TripProgress {
  import opened Common
  import opened Trips

  function Unpassed(s: Db, route: int): set<Key> {
    set k | k in StopsOf(s, route) && !Passed(StatusAt(s, k))
  }

  function Aboard(s: Db, route: int): set<Key> {
    set k | k in StopsOf(s, route) && StatusAt(s, k) == Ongoing
  }

  /** The route's driver is on duty, and the route's bookings are its tenant's own. */
  ghost predicate OnDuty(s: Db, tenant: string, driver: int, route: int) {
    && AssignedTo(s, tenant, driver, route) && s.routes[route].status == Underway
    && (forall k :: k in StopsOf(s, route) ==> s.bookings[k.booking].tenant == tenant)
  }

  /** One of the driver's three requests that finish a duty, on this route. */
  predicate Finishing(op: Op, tenant: string, driver: int, route: int) {
    match op
    case MarkNoShow(t, d, k, _) => t == tenant && d == driver && k.route == route
    case Drop(t, d, k, _, _, _) => t == tenant && d == driver && k.route == route
    case EndDuty(t, d, r) => t == tenant && d == driver && r == route
    case _ => false
  }

  predicate AllFinishing(ops: seq<Op>, tenant: string, driver: int, route: int) {
    forall i :: 0 <= i < |ops| ==> Finishing(ops[i], tenant, driver, route)
  }

  lemma ExistsFirst(s: Db, ks: set<Key>) returns (k: Key)
    requires ks != {} && ks <= s.stops.Keys
    ensures k in ks && forall l :: l in ks ==> s.stops[k].order <= s.stops[l].order
    decreases |ks|
  {
    k :| k in ks;
    if ks != {k} {
      var l := ExistsFirst(s, ks - {k});
      if s.stops[l].order < s.stops[k].order {
        k := l;
      }
    }
  }

  /** Marking a first unpassed stop as a no-show is always accepted and passes just that stop. */
  lemma NoShowFirst(s: Db, tenant: string, driver: int, route: int, k: Key)
    requires OnDuty(s, tenant, driver, route)
    requires k in Unpassed(s, route) && forall l :: l in Unpassed(s, route) ==> s.stops[k].order <= s.stops[l].order
    ensures var op := MarkNoShow(tenant, driver, k, 0);
            var t := Next(s, op);
            && Apply(s, op).1 == Done && OnDuty(t, tenant, driver, route)
            && StopsOf(t, route) == StopsOf(s, route)
            && Unpassed(t, route) == Unpassed(s, route) - {k} && Aboard(t, route) == Aboard(s, route)
  {
    forall l | l in StopsOf(s, route) && s.stops[l].order < s.stops[k].order
      ensures Passed(StatusAt(s, l))
    {
      assert l !in Unpassed(s, route);
    }
    var t := Next(s, MarkNoShow(tenant, driver, k, 0));
    assert StopsOf(t, route) == StopsOf(s, route);
    assert forall l :: l in StopsOf(s, route) ==> StatusAt(t, l) == if l == k then NoShow else StatusAt(s, l);
  }

  lemma {:induction false} NoShowRest(s: Db, tenant: string, driver: int, route: int) returns (ops: seq<Op>)
    requires OnDuty(s, tenant, driver, route)
    ensures AllFinishing(ops, tenant, driver, route)
    ensures var t := Run(s, ops);
            && |ops| == |Unpassed(s, route)| && OnDuty(t, tenant, driver, route)
            && StopsOf(t, route) == StopsOf(s, route)
            && Unpassed(t, route) == {} && Aboard(t, route) == Aboard(s, route)
    decreases |Unpassed(s, route)|
  {
    if Unpassed(s, route) == {} {
      ops := [];
    } else {
      var k := ExistsFirst(s, Unpassed(s, route));
      NoShowFirst(s, tenant, driver, route, k);
      var op := MarkNoShow(tenant, driver, k, 0);
      var rest := NoShowRest(Next(s, op), tenant, driver, route);
      ops := [op] + rest;
    }
  }

  /** The answer that opens a stop's deboarding code. */
  function RightOtp(s: Db, k: Key): Option<string>
    requires k.booking in s.bookings
  {
    var code := s.bookings[k.booking].deboardingOtp;
    if code.Some? then Some(Decimal(code.value)) else None
  }

  lemma DropOne(s: Db, tenant: string, driver: int, route: int, k: Key)
    requires OnDuty(s, tenant, driver, route) && Unpassed(s, route) == {} && k in Aboard(s, route)
    ensures var op := Drop(tenant, driver, k, RightOtp(s, k), true, 0);
            var t := Next(s, op);
            && Apply(s, op).1 == Done && OnDuty(t, tenant, driver, route)
            && StopsOf(t, route) == StopsOf(s, route)
            && Unpassed(t, route) == {} && Aboard(t, route) == Aboard(s, route) - {k}
  {
    var t := Next(s, Drop(tenant, driver, k, RightOtp(s, k), true, 0));
    assert StopsOf(t, route) == StopsOf(s, route);
    forall l | l in StopsOf(s, route)
      ensures StatusAt(t, l) == if l == k then Completed else StatusAt(s, l)
      ensures Passed(StatusAt(t, l))
    {
      assert l !in Unpassed(s, route);
    }
  }

  lemma {:induction false} DropRest(s: Db, tenant: string, driver: int, route: int) returns (ops: seq<Op>)
    requires OnDuty(s, tenant, driver, route) && Unpassed(s, route) == {}
    ensures AllFinishing(ops, tenant, driver, route)
    ensures var t := Run(s, ops);
            && |ops| == |Aboard(s, route)| && OnDuty(t, tenant, driver, route)
            && Unpassed(t, route) == {} && Aboard(t, route) == {}
    decreases |Aboard(s, route)|
  {
    if Aboard(s, route) == {} {
      ops := [];
    } else {
      var k :| k in Aboard(s, route);
      DropOne(s, tenant, driver, route, k);
      var op := Drop(tenant, driver, k, RightOtp(s, k), true, 0);
      var rest := DropRest(Next(s, op), tenant, driver, route);
      ops := [op] + rest;
    }
  }

  lemma EndIsAccepted(s: Db, tenant: string, driver: int, route: int)
    requires OnDuty(s, tenant, driver, route) && Unpassed(s, route) == {} && Aboard(s, route) == {}
    ensures var t := Run(s, [EndDuty(tenant, driver, route)]);
            route in t.routes && t.routes[route].status == Closed
  {
    forall k | k in StopsOf(s, route) ensures Final(StatusAt(s, k)) {
      assert k !in Unpassed(s, route) && k !in Aboard(s, route);
    }
    var end := EndDuty(tenant, driver, route);
    assert Run(s, [end]) == Run(Next(s, end), []);
  }

  lemma UnpassedAndAboardFit(s: Db, route: int)
    ensures |Unpassed(s, route)| + |Aboard(s, route)| <= |StopsOf(s, route)|
  {
    var u, a, all := Unpassed(s, route), Aboard(s, route), StopsOf(s, route);
    assert u !! a && all == u + a + (all - u - a);
  }

  /**
   Progress: a route underway with n stops can be closed by its own driver in at most n + 1 requests.
   No-shows in ascending order clear what the gates wait for, the riders aboard are dropped, and the duty ends.
   */
  lemma DutyCanBeFinished(s: Db, tenant: string, driver: int, route: int) returns (ops: seq<Op>)
    requires OnDuty(s, tenant, driver, route)
    ensures |ops| <= |StopsOf(s, route)| + 1 && AllFinishing(ops, tenant, driver, route)
    ensures var t := Run(s, ops); route in t.routes && t.routes[route].status == Closed
  {
    var clear := NoShowRest(s, tenant, driver, route);
    var drops := DropRest(Run(s, clear), tenant, driver, route);
    var end := [EndDuty(tenant, driver, route)];
    EndIsAccepted(Run(Run(s, clear), drops), tenant, driver, route);
    RunAppend(s, clear + drops, end);
    RunAppend(s, clear, drops);
    UnpassedAndAboardFit(s, route);
    ops := clear + drops + end;
  }
}
