/**
 The life of an alert: trigger, acknowledge, close, escalate and delete as requests on the alert tables, the
 metrics over them, and an alert's timeline.
 */
module Alerts {
  import opened Common
  import opened Counting
  import opened AlertLookup

  datatype Status = Triggered | Acknowledged | InProgress | Resolved | Closed | FalseAlarm

  datatype Severity = Critical | High | Medium | Low

  // Times are seconds.
  datatype Alert = Alert(tenant: string, employee: int, kind: AlertType, severity: Severity, status: Status,
                         triggeredAt: int, acknowledgedAt: Option<int>, closedAt: Option<int>,
                         responseTime: Option<int>, resolutionTime: Option<int>, isFalseAlarm: bool)

  datatype Escalation = Escalation(alert: int, level: int, at: int)

  datatype Db = Db(alerts: map<int, Alert>, escalations: seq<Escalation>, nextId: int)

  datatype Error = InvalidToken | BookingRefused | DuplicateAlert | AccessForbidden | AlertNotFound | InvalidAlertStatus
                 | TriggerFailed

  datatype Reply = Done | Refused(error: Error)

  // `tenant` and `employee` come from the caller's token; `allowed` is the answer of check_user_permission.
  datatype Op =
    | Trigger(tenant: Option<string>, employee: Option<int>, bookingOk: bool, kind: Option<AlertType>,
              severity: Option<Severity>, now: int)
    | Acknowledge(tenant: Option<string>, id: int, allowed: bool, now: int)
    | Close(tenant: Option<string>, id: int, allowed: bool, isFalse: bool, now: int)
    | Escalate(tenant: Option<string>, id: int, allowed: bool, level: int, now: int)
    | Delete(tenant: Option<string>, id: int, admin: bool, now: int)

  predicate Filtered(tenant: Option<string>, a: Alert) {
    tenant.Some? && tenant.value != "" ==> a.tenant == tenant.value
  }

  /** get_alert_by_id: without a tenant, any alert. */
  predicate Found(s: Db, tenant: Option<string>, id: int) {
    id in s.alerts && Filtered(tenant, s.alerts[id])
  }

  predicate Over(a: Alert) {
    a.status == Closed || a.status == FalseAlarm
  }

  predicate HasActive(s: Db, tenant: Option<string>, employee: int) {
    exists id :: id in s.alerts && Filtered(tenant, s.alerts[id]) && s.alerts[id].employee == employee
                 && s.alerts[id].status == Triggered
  }

  function NewAlert(op: Op): Alert
    requires op.Trigger? && op.tenant.Some? && op.employee.Some?
  {
    Alert(op.tenant.value, op.employee.value, if op.kind.Some? then op.kind.value else Sos,
          if op.severity.Some? then op.severity.value else Critical, Triggered, op.now, None, None, None, None, false)
  }

  function TriggerStep(s: Db, op: Op): (Db, Reply)
    requires op.Trigger?
  {
    if !Truthy(op.employee) then (s, Refused(InvalidToken))
    else if !op.bookingOk then (s, Refused(BookingRefused))
    else if HasActive(s, op.tenant, op.employee.value) then (s, Refused(DuplicateAlert))
    else if op.tenant.None? then (s, Refused(TriggerFailed))
    else (s.(alerts := s.alerts[s.nextId := NewAlert(op)], nextId := s.nextId + 1), Done)
  }

  function Acknowledging(a: Alert, now: int): Alert {
    a.(status := if a.status == Triggered then Acknowledged else a.status, acknowledgedAt := Some(now),
       responseTime := Some(now - a.triggeredAt))
  }

  function Closing(a: Alert, isFalse: bool, now: int): Alert {
    a.(status := if isFalse then FalseAlarm else Closed, closedAt := Some(now), isFalseAlarm := isFalse,
       resolutionTime := Some(now - a.triggeredAt))
  }

  function AcknowledgeStep(s: Db, op: Op): (Db, Reply)
    requires op.Acknowledge?
  {
    if !op.allowed then (s, Refused(AccessForbidden))
    else if !Found(s, op.tenant, op.id) then (s, Refused(AlertNotFound))
    else (s.(alerts := s.alerts[op.id := Acknowledging(s.alerts[op.id], op.now)]), Done)
  }

  function CloseStep(s: Db, op: Op): (Db, Reply)
    requires op.Close?
  {
    if !op.allowed then (s, Refused(AccessForbidden))
    else if !Found(s, op.tenant, op.id) then (s, Refused(AlertNotFound))
    else (s.(alerts := s.alerts[op.id := Closing(s.alerts[op.id], op.isFalse, op.now)]), Done)
  }

  function EscalateStep(s: Db, op: Op): (Db, Reply)
    requires op.Escalate?
  {
    if !op.allowed then (s, Refused(AccessForbidden))
    else if !Found(s, op.tenant, op.id) then (s, Refused(AlertNotFound))
    else if Over(s.alerts[op.id]) then (s, Refused(InvalidAlertStatus))
    else (s.(escalations := s.escalations + [Escalation(op.id, op.level, op.now)]), Done)
  }

  function Without(es: seq<Escalation>, id: int): seq<Escalation> {
    if es == [] then [] else Without(es[..|es| - 1], id) + if es[|es| - 1].alert == id then [] else [es[|es| - 1]]
  }

  function DeleteStep(s: Db, op: Op): (Db, Reply)
    requires op.Delete?
  {
    var tenant := if op.admin then None else op.tenant;
    if !Found(s, tenant, op.id) then (s, Refused(AlertNotFound))
    else if !op.admin && Some(s.alerts[op.id].tenant) != tenant then (s, Refused(AccessForbidden))
    else (s.(alerts := s.alerts - {op.id}, escalations := Without(s.escalations, op.id)), Done)
  }

  function Apply(s: Db, op: Op): (Db, Reply) {
    match op
    case Trigger(_, _, _, _, _, _) => TriggerStep(s, op)
    case Acknowledge(_, _, _, _) => AcknowledgeStep(s, op)
    case Close(_, _, _, _, _) => CloseStep(s, op)
    case Escalate(_, _, _, _, _) => EscalateStep(s, op)
    case Delete(_, _, _, _) => DeleteStep(s, op)
  }

  function Next(s: Db, op: Op): Db {
    Apply(s, op).0
  }

  function Run(s: Db, ops: seq<Op>): Db
    decreases |ops|
  {
    if ops == [] then s else Run(Next(s, ops[0]), ops[1..])
  }

  /** The clock never goes back, starting at `from`. */
  predicate Timely(from: int, ops: seq<Op>)
    decreases |ops|
  {
    ops == [] || (from <= ops[0].now && Timely(ops[0].now, ops[1..]))
  }

  function LastTime(from: int, ops: seq<Op>): int {
    if ops == [] then from else ops[|ops| - 1].now
  }

  const Empty := Db(map[], [], 1)

  // ---------- The requests as updates in place ----------

  class AlertStore {
    var alerts: map<int, Alert>
    var escalations: seq<Escalation>
    var nextId: int

    function State(): Db
      reads this
    {
      Db(alerts, escalations, nextId)
    }

    method TriggerAlert(op: Op) returns (reply: Reply)
      requires op.Trigger?
      modifies this
      ensures (State(), reply) == TriggerStep(old(State()), op)
      ensures Inv(old(State()), op.now) ==> Inv(State(), op.now)
      ensures reply == Done ==> old(nextId) in alerts && alerts[old(nextId)] == NewAlert(op)
      ensures reply == Done && old(nextId) !in old(alerts) ==>
                forall id :: id in alerts && alerts[id].status == Triggered && id != old(nextId)
                             ==> alerts[id].employee != op.employee.value || !Filtered(op.tenant, alerts[id])
    {
      if Inv(State(), op.now) { NextKeepsInv(State(), op, op.now); }
      if !Truthy(op.employee) {
        return Refused(InvalidToken);
      }
      if !op.bookingOk {
        return Refused(BookingRefused);
      }
      if HasActive(State(), op.tenant, op.employee.value) {
        return Refused(DuplicateAlert);
      }
      if op.tenant.None? {
        return Refused(TriggerFailed);
      }
      alerts := alerts[nextId := NewAlert(op)];
      nextId := nextId + 1;
      reply := Done;
    }

    method AcknowledgeAlert(op: Op) returns (reply: Reply)
      requires op.Acknowledge?
      modifies this
      ensures (State(), reply) == AcknowledgeStep(old(State()), op)
      ensures Inv(old(State()), op.now) ==> Inv(State(), op.now)
      ensures escalations == old(escalations) && alerts.Keys == old(alerts.Keys)
      ensures reply == Done ==>
                && alerts[op.id].acknowledgedAt == Some(op.now) && alerts[op.id].status != Triggered
                && (Over(alerts[op.id]) <==> Over(old(alerts)[op.id]))
                && op.now == alerts[op.id].triggeredAt + alerts[op.id].responseTime.value
    {
      if Inv(State(), op.now) { NextKeepsInv(State(), op, op.now); }
      if !op.allowed {
        return Refused(AccessForbidden);
      }
      if !Found(State(), op.tenant, op.id) {
        return Refused(AlertNotFound);
      }
      var a := alerts[op.id];
      if a.status == Triggered {
        a := a.(status := Acknowledged);
      }
      a := a.(acknowledgedAt := Some(op.now));
      a := a.(responseTime := Some(op.now - a.triggeredAt));
      alerts := alerts[op.id := a];
      reply := Done;
    }

    method CloseAlert(op: Op) returns (reply: Reply)
      requires op.Close?
      modifies this
      ensures (State(), reply) == CloseStep(old(State()), op)
      ensures reply == Done <==>
                && op.allowed && op.id in old(alerts)
                && (op.tenant == None || op.tenant == Some("") || op.tenant == Some(old(alerts)[op.id].tenant))
      ensures reply == Done ==>
                var a := old(alerts)[op.id];
                var after := Alert(a.tenant, a.employee, a.kind, a.severity, if op.isFalse then FalseAlarm else Closed,
                                   a.triggeredAt, a.acknowledgedAt, Some(op.now), a.responseTime,
                                   Some(op.now - a.triggeredAt), op.isFalse);
                alerts == old(alerts)[op.id := after]
      ensures reply != Done ==> alerts == old(alerts)
      ensures Inv(old(State()), op.now) ==> Inv(State(), op.now)
      ensures escalations == old(escalations) && alerts.Keys == old(alerts.Keys)
      ensures reply == Done ==>
                && Over(alerts[op.id]) && alerts[op.id].isFalseAlarm == op.isFalse
                && (alerts[op.id].status == FalseAlarm <==> op.isFalse) && alerts[op.id].closedAt == Some(op.now)
                && op.now == alerts[op.id].triggeredAt + alerts[op.id].resolutionTime.value
    {
      if Inv(State(), op.now) { NextKeepsInv(State(), op, op.now); }
      if !op.allowed {
        return Refused(AccessForbidden);
      }
      if !Found(State(), op.tenant, op.id) {
        return Refused(AlertNotFound);
      }
      var a := alerts[op.id];
      a := a.(status := if op.isFalse then FalseAlarm else Closed);
      a := a.(closedAt := Some(op.now));
      a := a.(isFalseAlarm := op.isFalse);
      a := a.(resolutionTime := Some(op.now - a.triggeredAt));
      alerts := alerts[op.id := a];
      reply := Done;
    }

    method EscalateAlert(op: Op) returns (reply: Reply)
      requires op.Escalate?
      modifies this
      ensures (State(), reply) == EscalateStep(old(State()), op)
      ensures Inv(old(State()), op.now) ==> Inv(State(), op.now)
      ensures alerts == old(alerts) && (op.id in alerts && Over(alerts[op.id]) ==> escalations == old(escalations))
      ensures reply == Done ==> EscalationEvents(escalations, op.id) ==
                                EscalationEvents(old(escalations), op.id) + [Event(op.now, WasEscalated(op.level))]
    {
      if Inv(State(), op.now) { NextKeepsInv(State(), op, op.now); }
      if !op.allowed {
        return Refused(AccessForbidden);
      }
      if !Found(State(), op.tenant, op.id) {
        return Refused(AlertNotFound);
      }
      if Over(alerts[op.id]) {
        return Refused(InvalidAlertStatus);
      }
      escalations := escalations + [Escalation(op.id, op.level, op.now)];
      assert escalations[..|escalations| - 1] == old(escalations);
      reply := Done;
    }

    method DeleteAlert(op: Op) returns (reply: Reply)
      requires op.Delete?
      modifies this
      ensures (State(), reply) == DeleteStep(old(State()), op)
      ensures Inv(old(State()), op.now) ==> Inv(State(), op.now)
      ensures reply == Done ==> forall e :: e in escalations <==> e in old(escalations) && e.alert != op.id
      ensures reply == Done ==> forall tenant :: !Found(State(), tenant, op.id)
    {
      if Inv(State(), op.now) { NextKeepsInv(State(), op, op.now); }
      var tenant := if op.admin then None else op.tenant;
      if !Found(State(), tenant, op.id) {
        return Refused(AlertNotFound);
      }
      if !op.admin && Some(alerts[op.id].tenant) != tenant {
        return Refused(AccessForbidden);
      }
      alerts := alerts - {op.id};
      WithoutMeans(escalations, op.id);
      escalations := Without(escalations, op.id);
      reply := Done;
    }
  }

  // ---------- Invariants ----------

  /** At most one alert waiting for a response a tenant and employee. */
  ghost predicate OneActive(s: Db) {
    forall i, j :: i in s.alerts && j in s.alerts && i != j
                   && s.alerts[i].tenant == s.alerts[j].tenant && s.alerts[i].employee == s.alerts[j].employee
                   && s.alerts[i].status == Triggered
                   ==> s.alerts[j].status != Triggered
  }

  /** The row's fields tell one story, none of it later than `now`. */
  predicate Consistent(a: Alert, now: int) {
    && a.status != InProgress && a.status != Resolved
    && (a.closedAt.Some? <==> Over(a))
    && (a.isFalseAlarm <==> a.status == FalseAlarm)
    && (a.status == Triggered ==> a.acknowledgedAt.None?)
    && (a.status == Acknowledged ==> a.acknowledgedAt.Some?)
    && a.triggeredAt <= now
    && (a.acknowledgedAt.Some? ==> a.triggeredAt <= a.acknowledgedAt.value <= now)
    && (a.closedAt.Some? ==> a.triggeredAt <= a.closedAt.value <= now)
    && a.responseTime == (if a.acknowledgedAt.Some? then Some(a.acknowledgedAt.value - a.triggeredAt) else None)
    && a.resolutionTime == (if a.closedAt.Some? then Some(a.closedAt.value - a.triggeredAt) else None)
  }

  /** An escalation falls between its alert's trigger and its close. */
  ghost predicate Placed(s: Db, e: Escalation, now: int) {
    && e.alert in s.alerts && s.alerts[e.alert].triggeredAt <= e.at <= now
    && (s.alerts[e.alert].closedAt.Some? ==> e.at <= s.alerts[e.alert].closedAt.value)
  }

  ghost predicate Inv(s: Db, now: int) {
    OneActive(s) && RowsOk(s, now) && AllPlaced(s, now)
  }

  /** Ids below the next one, and consistent rows. */
  ghost predicate RowsOk(s: Db, now: int) {
    forall id :: id in s.alerts ==> id < s.nextId && Consistent(s.alerts[id], now)
  }

  ghost predicate AllPlaced(s: Db, now: int) {
    forall e :: e in s.escalations ==> Placed(s, e, now)
  }

  lemma {:induction false} WithoutMeans(es: seq<Escalation>, id: int)
    ensures forall e :: e in Without(es, id) <==> e in es && e.alert != id
  {
    if es != [] {
      WithoutMeans(es[..|es| - 1], id);
      assert es == es[..|es| - 1] + [es[|es| - 1]];
    }
  }

  lemma TriggerKeepsOneActive(s: Db, op: Op)
    requires OneActive(s) && op.Trigger? && TriggerStep(s, op).1 == Done
    ensures OneActive(Next(s, op))
  {
    var t := Next(s, op);
    forall i | i in s.alerts && s.alerts[i].tenant == op.tenant.value && s.alerts[i].employee == op.employee.value
      ensures s.alerts[i].status != Triggered
    {
      assert Filtered(op.tenant, s.alerts[i]);
    }
  }

  lemma TriggerKeepsPlaced(s: Db, op: Op, now: int)
    requires RowsOk(s, now) && AllPlaced(s, now) && op.Trigger? && TriggerStep(s, op).1 == Done
    ensures AllPlaced(Next(s, op), now)
  {
    forall e | e in s.escalations ensures Placed(Next(s, op), e, now) {
      assert Placed(s, e, now);
    }
  }

  lemma TriggerKeepsInv(s: Db, op: Op, now: int)
    requires Inv(s, now) && op.Trigger? && now <= op.now
    ensures Inv(Next(s, op), op.now)
  {
    LaterInv(s, now, op.now);
    if TriggerStep(s, op).1 == Done {
      TriggerKeepsOneActive(s, op);
      TriggerKeepsPlaced(s, op, op.now);
    }
  }

  /** What acknowledging and closing have in common: the row stays consistent and does not become active. */
  ghost predicate Settles(a: Alert, b: Alert, now: int) {
    && Consistent(b, now) && b.tenant == a.tenant && b.employee == a.employee && b.triggeredAt == a.triggeredAt
    && b.status != Triggered
    && (b.closedAt == a.closedAt || b.closedAt == Some(now))
  }

  lemma UpdateSettles(a: Alert, isFalse: bool, now: int, later: int)
    requires Consistent(a, now) && now <= later
    ensures Settles(a, Acknowledging(a, later), later) && Settles(a, Closing(a, isFalse, later), later)
  {
  }

  lemma SettlingKeepsInv(s: Db, id: int, b: Alert, now: int, later: int)
    requires Inv(s, now) && now <= later && id in s.alerts && Settles(s.alerts[id], b, later)
    ensures Inv(s.(alerts := s.alerts[id := b]), later)
  {
    var t := s.(alerts := s.alerts[id := b]);
    forall e | e in t.escalations ensures Placed(t, e, later) {
      assert Placed(s, e, now);
    }
  }

  lemma LaterInv(s: Db, now: int, later: int)
    requires Inv(s, now) && now <= later
    ensures Inv(s, later)
  {
    forall e | e in s.escalations ensures Placed(s, e, later) {
      assert Placed(s, e, now);
    }
  }

  lemma UpdateKeepsInv(s: Db, op: Op, now: int)
    requires Inv(s, now) && (op.Acknowledge? || op.Close?) && now <= op.now
    ensures Inv(Next(s, op), op.now)
  {
    LaterInv(s, now, op.now);
    if op.id in s.alerts {
      var a, isFalse := s.alerts[op.id], op.Close? && op.isFalse;
      UpdateSettles(a, isFalse, now, op.now);
      var b := if op.Close? then Closing(a, isFalse, op.now) else Acknowledging(a, op.now);
      SettlingKeepsInv(s, op.id, b, now, op.now);
    }
  }

  lemma EscalateKeepsInv(s: Db, op: Op, now: int)
    requires Inv(s, now) && op.Escalate? && now <= op.now
    ensures Inv(Next(s, op), op.now)
  {
    LaterInv(s, now, op.now);
    var t := Next(s, op);
    if EscalateStep(s, op).1 == Done {
      forall e | e in t.escalations ensures Placed(t, e, op.now) {
        assert e in s.escalations ==> Placed(s, e, op.now);
      }
    }
  }

  lemma DeleteKeepsInv(s: Db, op: Op, now: int)
    requires Inv(s, now) && op.Delete? && now <= op.now
    ensures Inv(Next(s, op), op.now)
  {
    LaterInv(s, now, op.now);
    WithoutMeans(s.escalations, op.id);
    var t := Next(s, op);
    forall e | e in t.escalations ensures Placed(t, e, op.now) {
      assert Placed(s, e, op.now);
    }
  }

  lemma NextKeepsInv(s: Db, op: Op, now: int)
    requires Inv(s, now) && now <= op.now
    ensures Inv(Next(s, op), op.now)
  {
    match op
    case Trigger(_, _, _, _, _, _) => TriggerKeepsInv(s, op, now);
    case Escalate(_, _, _, _, _) => EscalateKeepsInv(s, op, now);
    case Delete(_, _, _, _) => DeleteKeepsInv(s, op, now);
    case _ => UpdateKeepsInv(s, op, now);
  }

  lemma {:induction false} RunKeepsInv(s: Db, ops: seq<Op>, now: int)
    requires Inv(s, now) && Timely(now, ops)
    ensures Inv(Run(s, ops), LastTime(now, ops))
    decreases |ops|
  {
    if ops != [] {
      NextKeepsInv(s, ops[0], now);
      RunKeepsInv(Next(s, ops[0]), ops[1..], ops[0].now);
    }
  }

  /** The invariant of every reachable state, from an empty table. */
  lemma ReachableInv(ops: seq<Op>, start: int)
    requires Timely(start, ops)
    ensures Inv(Run(Empty, ops), LastTime(start, ops))
  {
    RunKeepsInv(Empty, ops, start);
  }

  /** A closed alert is never open again, and its id never names another alert. */
  lemma {:induction false} ClosedForGood(s: Db, ops: seq<Op>, id: int)
    requires id < s.nextId && (id in s.alerts ==> Over(s.alerts[id]))
    ensures id in Run(s, ops).alerts ==> id in s.alerts && Over(Run(s, ops).alerts[id])
    decreases |ops|
  {
    if ops != [] {
      ClosedForGood(Next(s, ops[0]), ops[1..], id);
    }
  }

  // ---------- Timeline ----------

  datatype EventKind = WasTriggered | WasAcknowledged | WasEscalated(level: int) | WasClosed

  datatype Event = Event(at: int, kind: EventKind)

  function Insert(e: Event, xs: seq<Event>): seq<Event> {
    if xs == [] || e.at < xs[0].at then [e] + xs else [xs[0]] + Insert(e, xs[1..])
  }

  /** Python's stable sort by timestamp. */
  function Sorted(xs: seq<Event>): seq<Event> {
    if xs == [] then [] else Insert(xs[|xs| - 1], Sorted(xs[..|xs| - 1]))
  }

  predicate Chronological(xs: seq<Event>) {
    forall i, j :: 0 <= i < j < |xs| ==> xs[i].at <= xs[j].at
  }

  function At(xs: seq<Event>, t: int): seq<Event> {
    if xs == [] then [] else (if xs[0].at == t then [xs[0]] else []) + At(xs[1..], t)
  }

  lemma {:induction false} InsertSorts(e: Event, xs: seq<Event>)
    requires Chronological(xs)
    ensures Chronological(Insert(e, xs)) && multiset(Insert(e, xs)) == multiset(xs) + multiset{e}
  {
    var k := LastGoesAfter(e, xs);
    assert xs == xs[..k] + xs[k..];
    InsertedInOrder(e, xs, k);
  }

  lemma InsertedInOrder(e: Event, xs: seq<Event>, k: nat)
    requires Chronological(xs) && k <= |xs|
    requires (forall i :: 0 <= i < k ==> xs[i].at <= e.at) && (forall i :: k <= i < |xs| ==> e.at < xs[i].at)
    ensures Chronological(xs[..k] + [e] + xs[k..])
  {
  }

  /** Where a stable sort puts the last of the list: after everything that is not later. */
  lemma {:induction false} LastGoesAfter(e: Event, xs: seq<Event>) returns (k: nat)
    requires Chronological(xs)
    ensures k <= |xs| && Insert(e, xs) == xs[..k] + [e] + xs[k..]
    ensures (forall i :: 0 <= i < k ==> xs[i].at <= e.at) && (forall i :: k <= i < |xs| ==> e.at < xs[i].at)
  {
    if xs == [] || e.at < xs[0].at {
      k := 0;
    } else {
      k := LastGoesAfter(e, xs[1..]);
      assert xs[..k + 1] == [xs[0]] + xs[1..][..k];
      k := k + 1;
    }
  }

  lemma {:induction false} AtNone(xs: seq<Event>, t: int)
    requires forall i :: 0 <= i < |xs| ==> t < xs[i].at
    ensures At(xs, t) == []
  {
    if xs != [] { AtNone(xs[1..], t); }
  }

  lemma {:induction false} InsertIsStable(e: Event, xs: seq<Event>, t: int)
    requires Chronological(xs)
    ensures At(Insert(e, xs), t) == At(xs, t) + if e.at == t then [e] else []
  {
    if xs == [] || e.at < xs[0].at {
      assert ([e] + xs)[1..] == xs;
      if e.at == t { AtNone(xs, t); }
    } else {
      InsertIsStable(e, xs[1..], t);
      assert ([xs[0]] + Insert(e, xs[1..]))[1..] == Insert(e, xs[1..]);
    }
  }

  lemma {:induction false} AtSnoc(xs: seq<Event>, e: Event, t: int)
    ensures At(xs + [e], t) == At(xs, t) + if e.at == t then [e] else []
  {
    if xs == [] {
      assert [e][1..] == [];
    } else {
      AtSnoc(xs[1..], e, t);
      assert (xs + [e])[1..] == xs[1..] + [e];
    }
  }

  lemma {:induction false} SortedKeepsEvents(xs: seq<Event>)
    ensures Chronological(Sorted(xs)) && multiset(Sorted(xs)) == multiset(xs)
  {
    if xs != [] {
      var init, last := xs[..|xs| - 1], xs[|xs| - 1];
      SortedKeepsEvents(init);
      InsertSorts(last, Sorted(init));
      assert xs == init + [last];
    }
  }

  lemma {:induction false} SortedKeepsTies(xs: seq<Event>, t: int)
    ensures At(Sorted(xs), t) == At(xs, t)
  {
    if xs != [] {
      var init, last := xs[..|xs| - 1], xs[|xs| - 1];
      SortedKeepsTies(init, t);
      LastKeepsTies(init, last, t);
      assert xs == init + [last];
    }
  }

  lemma LastKeepsTies(init: seq<Event>, last: Event, t: int)
    requires At(Sorted(init), t) == At(init, t)
    ensures At(Insert(last, Sorted(init)), t) == At(init + [last], t)
  {
    SortedKeepsEvents(init);
    InsertIsStable(last, Sorted(init), t);
    AtSnoc(init, last, t);
  }

  /** Sorting keeps the events, puts them in order, and leaves those of one instant in the order they had. */
  lemma SortedIsStable(xs: seq<Event>, t: int)
    ensures Chronological(Sorted(xs)) && multiset(Sorted(xs)) == multiset(xs) && At(Sorted(xs), t) == At(xs, t)
  {
    SortedKeepsEvents(xs);
    SortedKeepsTies(xs, t);
  }

  function EscalationEvents(es: seq<Escalation>, id: int): seq<Event> {
    if es == [] then [] else
      var e := es[|es| - 1];
      EscalationEvents(es[..|es| - 1], id) + if e.alert == id then [Event(e.at, WasEscalated(e.level))] else []
  }

  /** The recorded events, in the order the timeline collects them. */
  function Recorded(s: Db, id: int): seq<Event>
    requires id in s.alerts
  {
    var a := s.alerts[id];
    [Event(a.triggeredAt, WasTriggered)]
    + (if a.acknowledgedAt.Some? then [Event(a.acknowledgedAt.value, WasAcknowledged)] else [])
    + Sorted(EscalationEvents(s.escalations, id))
    + if a.closedAt.Some? then [Event(a.closedAt.value, WasClosed)] else []
  }

  method GetTimeline(s: Db, tenant: Option<string>, id: int) returns (events: Option<seq<Event>>)
    ensures events == if Found(s, tenant, id) then Some(Sorted(Recorded(s, id))) else None
  {
    if !Found(s, tenant, id) {
      return None;
    }
    var a := s.alerts[id];
    var list := [Event(a.triggeredAt, WasTriggered)];
    if a.acknowledgedAt.Some? {
      list := list + [Event(a.acknowledgedAt.value, WasAcknowledged)];
    }
    var rows := Sorted(EscalationEvents(s.escalations, id));
    ghost var before := list;
    for i := 0 to |rows|
      invariant list == before + rows[..i]
    {
      list := list + [rows[i]];
    }
    if a.closedAt.Some? {
      list := list + [Event(a.closedAt.value, WasClosed)];
    }
    assert list == Recorded(s, id);
    events := Some(Sorted(list));
  }

  lemma {:induction false} EscalationsAreBetween(es: seq<Escalation>, s: Db, id: int, now: int)
    requires id in s.alerts && forall e :: e in es ==> Placed(s, e, now)
    ensures forall x :: x in EscalationEvents(es, id) ==>
                          && x.kind.WasEscalated? && s.alerts[id].triggeredAt <= x.at
                          && (s.alerts[id].closedAt.Some? ==> x.at <= s.alerts[id].closedAt.value)
  {
    if es != [] {
      EscalationsAreBetween(es[..|es| - 1], s, id, now);
      assert es[|es| - 1] in es && Placed(s, es[|es| - 1], now);
    }
  }

  lemma SortedHasSame(xs: seq<Event>)
    ensures Chronological(Sorted(xs)) && forall x :: x in Sorted(xs) <==> x in xs
  {
    SortedKeepsEvents(xs);
    forall x ensures x in Sorted(xs) <==> x in xs {
      assert x in multiset(Sorted(xs)) <==> x in multiset(xs);
    }
  }

  lemma {:induction false} FirstStaysFirst(xs: seq<Event>)
    requires xs != [] && forall i :: 0 <= i < |xs| ==> xs[0].at <= xs[i].at
    ensures Sorted(xs) != [] && Sorted(xs)[0] == xs[0]
  {
    if |xs| == 1 {
      assert xs[..0] == [];
    } else {
      FirstStaysFirst(xs[..|xs| - 1]);
    }
  }

  lemma RecordedIsRight(s: Db, id: int, now: int)
    requires Inv(s, now) && id in s.alerts
    ensures var a, xs := s.alerts[id], Recorded(s, id);
            && xs[0] == Event(a.triggeredAt, WasTriggered)
            && (forall x :: x in xs ==> a.triggeredAt <= x.at)
            && (forall x :: x in xs && (x.kind.WasTriggered? || x.kind.WasEscalated?) && a.closedAt.Some?
                            ==> x.at <= a.closedAt.value)
  {
    EscalationsAreBetween(s.escalations, s, id, now);
    SortedHasSame(EscalationEvents(s.escalations, id));
  }

  /** The events before the close is added hold no other close. */
  lemma OneClose(s: Db, id: int, now: int)
    requires Inv(s, now) && id in s.alerts
    ensures var xs := Recorded(s, id);
            forall x :: x in xs && x.kind == WasClosed ==> x == xs[|xs| - 1] && s.alerts[id].closedAt == Some(x.at)
    ensures var xs := Recorded(s, id);
            s.alerts[id].closedAt.Some? ==>
              && |xs| > 1 && xs[|xs| - 1] == Event(s.alerts[id].closedAt.value, WasClosed)
              && forall x :: x in xs[..|xs| - 1] ==> x.kind != WasClosed
  {
    var a, xs := s.alerts[id], Recorded(s, id);
    EscalationsAreBetween(s.escalations, s, id, now);
    SortedHasSame(EscalationEvents(s.escalations, id));
    if a.closedAt.Some? {
      var init := [Event(a.triggeredAt, WasTriggered)]
                  + (if a.acknowledgedAt.Some? then [Event(a.acknowledgedAt.value, WasAcknowledged)] else [])
                  + Sorted(EscalationEvents(s.escalations, id));
      assert xs == init + [Event(a.closedAt.value, WasClosed)];
      assert xs[..|xs| - 1] == init;
    }
  }

  /** Sorted after an early-closing list: what follows the close is later than it. */
  lemma AfterTheClose(xs: seq<Event>, i: nat, j: nat)
    requires xs != [] && xs[|xs| - 1].kind == WasClosed && forall x :: x in xs[..|xs| - 1] ==> x.kind != WasClosed
    requires i < j < |Sorted(xs)| && Sorted(xs)[i].kind == WasClosed
    ensures Sorted(xs)[j] in xs && xs[|xs| - 1].at < Sorted(xs)[j].at && Sorted(xs)[j].kind != WasClosed
  {
    var init, close := xs[..|xs| - 1], xs[|xs| - 1];
    SortedHasSame(init);
    var k := LastGoesAfter(close, Sorted(init));
    AroundTheClose(Sorted(init), close, k, i, j);
  }

  lemma AroundTheClose(before: seq<Event>, close: Event, k: nat, i: nat, j: nat)
    requires k <= |before| && close.kind == WasClosed && forall x :: x in before ==> x.kind != WasClosed
    requires forall m :: k <= m < |before| ==> close.at < before[m].at
    requires i < j <= |before| && (before[..k] + [close] + before[k..])[i].kind == WasClosed
    ensures var all := before[..k] + [close] + before[k..]; all[j] in before && close.at < all[j].at
  {
    forall m | 0 <= m < |before| ensures before[m].kind != WasClosed {
      assert before[m] in before;
    }
    assert (before[..k] + [close] + before[k..])[j] == before[j - 1];
  }

  /** A timeline starts with the trigger, and nothing but an acknowledgement stands after the close. */
  lemma TimelineReadsRight(s: Db, id: int, now: int)
    requires Inv(s, now) && id in s.alerts
    ensures var t := Sorted(Recorded(s, id));
            && Chronological(t) && t != [] && t[0] == Event(s.alerts[id].triggeredAt, WasTriggered)
            && forall i, j :: 0 <= i < j < |t| && t[i].kind == WasClosed ==> t[j].kind == WasAcknowledged
  {
    var xs := Recorded(s, id);
    RecordedIsRight(s, id, now);
    OneClose(s, id, now);
    FirstStaysFirst(xs);
    SortedHasSame(xs);
    var t := Sorted(xs);
    forall i, j | 0 <= i < j < |t| && t[i].kind == WasClosed ensures t[j].kind == WasAcknowledged {
      assert t[i] in xs;
      AfterTheClose(xs, i, j);
    }
  }

  /** A closed alert can still be acknowledged, and its timeline then ends with that. */
  lemma AcknowledgedAfterClose(s: Db, id: int, now: int, later: int)
    requires Inv(s, now) && id in s.alerts && Over(s.alerts[id]) && s.alerts[id].closedAt.value < later && now <= later
    ensures var t := Next(s, Acknowledge(None, id, true, later));
            Over(t.alerts[id]) && t.alerts[id].acknowledgedAt.value > t.alerts[id].closedAt.value
  {
  }

  // ---------- Metrics ----------

  function CountOver(rows: seq<Alert>): nat {
    if rows == [] then 0 else CountOver(rows[1..]) + if Over(rows[0]) then 1 else 0
  }

  function CountFalse(rows: seq<Alert>): nat {
    if rows == [] then 0 else CountFalse(rows[1..]) + if rows[0].isFalseAlarm then 1 else 0
  }

  function Statuses(rows: seq<Alert>): seq<Status> {
    seq(|rows|, i requires 0 <= i < |rows| => rows[i].status)
  }

  function Severities(rows: seq<Alert>): seq<Severity> {
    seq(|rows|, i requires 0 <= i < |rows| => rows[i].severity)
  }

  function Types(rows: seq<Alert>): seq<AlertType> {
    seq(|rows|, i requires 0 <= i < |rows| => rows[i].kind)
  }

  lemma {:induction false} OverAndFalse(rows: seq<Alert>)
    requires forall i :: 0 <= i < |rows| ==> (rows[i].isFalseAlarm <==> rows[i].status == FalseAlarm)
    ensures CountOver(rows) == multiset(Statuses(rows))[Closed] + multiset(Statuses(rows))[FalseAlarm] <= |rows|
    ensures CountFalse(rows) == multiset(Statuses(rows))[FalseAlarm]
  {
    if rows != [] {
      OverAndFalse(rows[1..]);
      assert Statuses(rows) == [rows[0].status] + Statuses(rows[1..]);
    }
  }

  // A tally: its keys, oldest first, and their counts.
  datatype Tallies<K> = Tallies(order: seq<K>, counts: map<K, nat>)

  function Of<K>(c: Tallies<K>, k: K): nat {
    if k in c.counts then c.counts[k] else 0
  }

  datatype Metrics = Metrics(total: nat, active: nat, falseAlarms: nat, byStatus: Tallies<Status>,
                             bySeverity: Tallies<Severity>, byType: Tallies<AlertType>)

  /** The counts of get_alert_metrics over the rows that its query returned. */
  method GetMetrics(rows: seq<Alert>) returns (m: Metrics)
    ensures m.total == |rows|
    ensures Tallied(Statuses(rows), m.byStatus.order, m.byStatus.counts)
    ensures Tallied(Severities(rows), m.bySeverity.order, m.bySeverity.counts)
    ensures Tallied(Types(rows), m.byType.order, m.byType.counts)
    ensures (forall a :: a in rows ==> (a.isFalseAlarm <==> a.status == FalseAlarm)) ==>
              && m.active + Of(m.byStatus, Closed) + Of(m.byStatus, FalseAlarm) == m.total
              && m.falseAlarms == Of(m.byStatus, FalseAlarm)
  {
    var os, cs := Tally(Statuses(rows));
    var ov, cv := Tally(Severities(rows));
    var ot, ct := Tally(Types(rows));
    var active, falseAlarms := CountFlags(rows);
    m := Metrics(|rows|, active, falseAlarms, Tallies(os, cs), Tallies(ov, cv), Tallies(ot, ct));
    if forall a :: a in rows ==> (a.isFalseAlarm <==> a.status == FalseAlarm) {
      MetricsAgree(rows, m.byStatus);
    }
  }

  lemma MetricsAgree(rows: seq<Alert>, byStatus: Tallies<Status>)
    requires Tallied(Statuses(rows), byStatus.order, byStatus.counts)
    requires forall a :: a in rows ==> (a.isFalseAlarm <==> a.status == FalseAlarm)
    ensures CountOver(rows) == Of(byStatus, Closed) + Of(byStatus, FalseAlarm) <= |rows|
    ensures CountFalse(rows) == Of(byStatus, FalseAlarm)
  {
    OverAndFalse(rows);
    TalliedOf(Statuses(rows), byStatus, Closed);
    TalliedOf(Statuses(rows), byStatus, FalseAlarm);
  }

  lemma TalliedOf(xs: seq<Status>, c: Tallies<Status>, k: Status)
    requires Tallied(xs, c.order, c.counts)
    ensures Of(c, k) == multiset(xs)[k]
  {
    assert k !in c.counts ==> k !in multiset(xs);
  }

  /** The two comprehensions over the alerts' status and flag. */
  method CountFlags(rows: seq<Alert>) returns (active: nat, falseAlarms: nat)
    ensures active == |rows| - CountOver(rows) && falseAlarms == CountFalse(rows)
  {
    active, falseAlarms := 0, 0;
    for i := 0 to |rows|
      invariant active == i - CountOver(rows) + CountOver(rows[i..])
      invariant falseAlarms + CountFalse(rows[i..]) == CountFalse(rows)
    {
      assert rows[i..][1..] == rows[i + 1..];
      if !Over(rows[i]) {
        active := active + 1;
      }
      if rows[i].isFalseAlarm {
        falseAlarms := falseAlarms + 1;
      }
    }
  }
}
