/**
 What each alert request does, told by the columns of the tables alone: exactly when it is accepted and what it
 then writes. And what a timeline holds.
 */
module AlertOutcomes {
  import opened Common
  import opened AlertLookup
  import opened Alerts

  /** The alert exists, and the caller's tenant, if the token names one, is the alert's. */
  predicate Visible(s: Db, tenant: Option<string>, id: int) {
    id in s.alerts && (tenant == None || tenant == Some("") || tenant == Some(s.alerts[id].tenant))
  }

  lemma TriggerOutcome(s: Db, op: Op)
    requires op.Trigger?
    ensures Apply(s, op).1 == Done <==>
              && op.employee.Some? && op.employee.value != 0 && op.bookingOk && op.tenant.Some?
              && forall id :: !IsActive(s, op.tenant, op.employee.value, id)
    ensures Apply(s, op).1 == Done ==>
              Next(s, op) == Db(s.alerts[s.nextId := Alert(op.tenant.value, op.employee.value,
                                                           if op.kind == None then Sos else op.kind.value,
                                                           if op.severity == None then Critical else op.severity.value,
                                                           Triggered, op.now, None, None, None, None, false)],
                                s.escalations, s.nextId + 1)
    ensures Apply(s, op).1 != Done ==> Next(s, op) == s
  {
    if op.employee.Some? { ActiveMeans(s, op.tenant, op.employee.value); }
  }

  /** A visible alert of the employee that nobody has reacted to. */
  predicate IsActive(s: Db, tenant: Option<string>, employee: int, id: int) {
    Visible(s, tenant, id) && s.alerts[id].employee == employee && s.alerts[id].status == Triggered
  }

  lemma ActiveMeans(s: Db, tenant: Option<string>, employee: int)
    ensures HasActive(s, tenant, employee) <==> exists id :: IsActive(s, tenant, employee, id)
  {
    if id :| id in s.alerts && Filtered(tenant, s.alerts[id]) && s.alerts[id].employee == employee
             && s.alerts[id].status == Triggered {
      assert IsActive(s, tenant, employee, id);
    }
    if id :| IsActive(s, tenant, employee, id) {
      assert Filtered(tenant, s.alerts[id]);
    }
  }

  lemma AcknowledgeOutcome(s: Db, op: Op)
    requires op.Acknowledge?
    ensures Apply(s, op).1 == Done <==> op.allowed && Visible(s, op.tenant, op.id)
    ensures Apply(s, op).1 == Done ==>
              var a := s.alerts[op.id];
              var after := Alert(a.tenant, a.employee, a.kind, a.severity,
                                 if a.status == Triggered then Acknowledged else a.status,
                                 a.triggeredAt, Some(op.now), a.closedAt, Some(op.now - a.triggeredAt),
                                 a.resolutionTime, a.isFalseAlarm);
              Next(s, op) == Db(s.alerts[op.id := after], s.escalations, s.nextId)
    ensures Apply(s, op).1 != Done ==> Next(s, op) == s
  {
  }

  lemma CloseOutcome(s: Db, op: Op)
    requires op.Close?
    ensures Apply(s, op).1 == Done <==> op.allowed && Visible(s, op.tenant, op.id)
    ensures Apply(s, op).1 == Done ==>
              var a := s.alerts[op.id];
              var after := Alert(a.tenant, a.employee, a.kind, a.severity, if op.isFalse then FalseAlarm else Closed,
                                 a.triggeredAt, a.acknowledgedAt, Some(op.now), a.responseTime,
                                 Some(op.now - a.triggeredAt), op.isFalse);
              Next(s, op) == Db(s.alerts[op.id := after], s.escalations, s.nextId)
    ensures Apply(s, op).1 != Done ==> Next(s, op) == s
  {
  }

  lemma EscalateOutcome(s: Db, op: Op)
    requires op.Escalate?
    ensures Apply(s, op).1 == Done <==>
              op.allowed && Visible(s, op.tenant, op.id) && s.alerts[op.id].status !in {Closed, FalseAlarm}
    ensures Apply(s, op).1 == Done ==>
              Next(s, op) == Db(s.alerts, s.escalations + [Escalation(op.id, op.level, op.now)], s.nextId)
    ensures Apply(s, op).1 != Done ==> Next(s, op) == s
  {
  }

  /** The alert goes with its escalations; every other alert keeps its row and its escalations in their order. */
  lemma DeleteOutcome(s: Db, op: Op)
    requires op.Delete?
    ensures Apply(s, op).1 == Done <==> op.id in s.alerts && (op.admin || op.tenant == Some(s.alerts[op.id].tenant))
    ensures Apply(s, op).1 == Done ==>
              var t := Next(s, op);
              && t.alerts == s.alerts - {op.id} && t.nextId == s.nextId
              && (forall e :: e in t.escalations ==> e.alert != op.id)
              && forall id :: id != op.id ==> EscalationEvents(t.escalations, id) == EscalationEvents(s.escalations, id)
    ensures Apply(s, op).1 != Done ==> Next(s, op) == s
  {
    WithoutMeans(s.escalations, op.id);
    forall id | id != op.id
      ensures EscalationEvents(Without(s.escalations, op.id), id) == EscalationEvents(s.escalations, id)
    {
      OthersStay(s.escalations, op.id, id);
    }
  }

  lemma EventsMore(es: seq<Escalation>, e: Escalation, id: int)
    ensures EscalationEvents(es + [e], id) ==
            EscalationEvents(es, id) + if e.alert == id then [Event(e.at, WasEscalated(e.level))] else []
  {
    assert (es + [e])[..|es|] == es;
  }

  lemma {:induction false} OthersStay(es: seq<Escalation>, gone: int, id: int)
    requires id != gone
    ensures EscalationEvents(Without(es, gone), id) == EscalationEvents(es, id)
  {
    if es != [] {
      var init, e := es[..|es| - 1], es[|es| - 1];
      OthersStay(init, gone, id);
      EventsMore(init, e, id);
      assert es == init + [e];
      if e.alert == gone {
        assert Without(es, gone) == Without(init, gone) + [] == Without(init, gone);
      } else {
        assert Without(es, gone) == Without(init, gone) + [e];
        EventsMore(Without(init, gone), e, id);
      }
    }
  }

  // ---------- Refusals ----------

  ghost predicate ReasonHolds(s: Db, op: Op, e: Error) {
    match e
    case InvalidToken => op.Trigger? && op.employee in {None, Some(0)}
    case BookingRefused => op.Trigger? && !op.bookingOk
    case DuplicateAlert =>
      op.Trigger? && op.employee.Some? && exists id :: IsActive(s, op.tenant, op.employee.value, id)
    case TriggerFailed => op.Trigger? && op.tenant == None
    case AccessForbidden =>
      if op.Delete? then !op.admin && op.id in s.alerts && op.tenant != Some(s.alerts[op.id].tenant)
      else !op.Trigger? && !op.allowed
    case AlertNotFound =>
      !op.Trigger? && if op.Delete? && op.admin then op.id !in s.alerts else !Visible(s, op.tenant, op.id)
    case InvalidAlertStatus => op.Escalate? && op.id in s.alerts && s.alerts[op.id].status in {Closed, FalseAlarm}
  }

  /** A refused request names a reason that holds. */
  lemma RefusalIsTrue(s: Db, op: Op)
    requires Apply(s, op).1.Refused?
    ensures ReasonHolds(s, op, Apply(s, op).1.error)
  {
    if op.Trigger? && op.employee.Some? {
      ActiveMeans(s, op.tenant, op.employee.value);
    }
  }

  // ---------- Timeline ----------

  lemma {:induction false} EventsOfEscalations(es: seq<Escalation>, id: int)
    ensures forall x :: x in EscalationEvents(es, id)
                        <==> exists e :: e in es && e.alert == id && x == Event(e.at, WasEscalated(e.level))
  {
    if es != [] {
      EventsOfEscalations(es[..|es| - 1], id);
      assert es == es[..|es| - 1] + [es[|es| - 1]];
    }
  }

  /** A timeline holds the trigger, the acknowledgement and the close if there are, every escalation, and nothing else. */
  lemma TimelineHoldsExactly(s: Db, id: int, x: Event)
    requires id in s.alerts
    ensures var a := s.alerts[id];
            x in Sorted(Recorded(s, id))
            <==> || x == Event(a.triggeredAt, WasTriggered)
                 || (a.acknowledgedAt.Some? && x == Event(a.acknowledgedAt.value, WasAcknowledged))
                 || (exists e :: e in s.escalations && e.alert == id && x == Event(e.at, WasEscalated(e.level)))
                 || (a.closedAt.Some? && x == Event(a.closedAt.value, WasClosed))
    ensures var a := s.alerts[id];
            |Sorted(Recorded(s, id))| == 1 + (if a.acknowledgedAt.Some? then 1 else 0)
                                         + |EscalationEvents(s.escalations, id)| + if a.closedAt.Some? then 1 else 0
  {
    EventsOfEscalations(s.escalations, id);
    SortedHasSame(Recorded(s, id));
    RecordedHolds(s, id, x);
    SortedLength(Recorded(s, id));
    SortedLength(EscalationEvents(s.escalations, id));
  }

  lemma RecordedHolds(s: Db, id: int, x: Event)
    requires id in s.alerts
    ensures var a := s.alerts[id];
            x in Recorded(s, id)
            <==> || x == Event(a.triggeredAt, WasTriggered)
                 || (a.acknowledgedAt.Some? && x == Event(a.acknowledgedAt.value, WasAcknowledged))
                 || x in EscalationEvents(s.escalations, id)
                 || (a.closedAt.Some? && x == Event(a.closedAt.value, WasClosed))
  {
    SortedHasSame(EscalationEvents(s.escalations, id));
  }

  lemma SortedLength(xs: seq<Event>)
    ensures |Sorted(xs)| == |xs|
  {
    SortedKeepsEvents(xs);
    assert |Sorted(xs)| == |multiset(Sorted(xs))| == |multiset(xs)| == |xs|;
  }
}
