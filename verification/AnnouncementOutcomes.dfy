/**
 What each announcement request does, told by the columns of the tables alone: exactly when it is accepted and
 what it then writes.
 */
module AnnouncementOutcomes {
  import opened Common
  import opened Announcements

  /** The tenant's own, and not deleted. */
  predicate Live(s: Db, tenant: string, id: int) {
    id in s.announcements && s.announcements[id].tenant == tenant && s.announcements[id].active
  }

  lemma CreateOutcome(s: Db, op: Op)
    requires op.Create?
    ensures var t := Next(s, op);
            && t.rows == s.rows && t.nextId == s.nextId + 1
            && var channels := if InApp in op.channels then op.channels else op.channels + [InApp];
               t.announcements == s.announcements[s.nextId := Announcement(op.tenant, op.target, op.ids, Some(channels),
                                                                           Draft, true, 0, 0, 0, 0, None)]
  {
  }

  /** A sent field is set, to nothing too; every other column stays. */
  lemma UpdateOutcome(s: Db, op: Op)
    requires op.Update?
    ensures Apply(s, op).1 == Done <==> Live(s, op.tenant, op.id) && s.announcements[op.id].status == Draft
    ensures Apply(s, op).1 == NotFound <==> !Live(s, op.tenant, op.id)
    ensures Apply(s, op).1 == Done ==>
              var a, e := s.announcements[op.id], op.edit;
              var after := Announcement(a.tenant, if e.target == None then a.target else e.target.value,
                                        if e.ids == None then a.ids else e.ids.value,
                                        if e.channels == None then a.channels else e.channels.value,
                                        Draft, true, a.total, a.success, a.failure, a.noDevice, a.publishedAt);
              Next(s, op) == Db(s.announcements[op.id := after], s.rows, s.nextId)
    ensures Apply(s, op).1 != Done ==> Next(s, op) == s
  {
  }

  lemma DeleteOutcome(s: Db, op: Op)
    requires op.Delete?
    ensures Apply(s, op).1 == Done <==> Live(s, op.tenant, op.id)
    ensures Apply(s, op).1 == NotFound <==> !Live(s, op.tenant, op.id)
    ensures Apply(s, op).1 == Done ==>
              var a := s.announcements[op.id];
              var after := Announcement(a.tenant, a.target, a.ids, a.channels,
                                        if a.status == Draft then Cancelled else a.status, false, a.total, a.success,
                                        a.failure, a.noDevice, a.publishedAt);
              Next(s, op) == Db(s.announcements[op.id := after], s.rows, s.nextId)
    ensures Apply(s, op).1 != Done ==> Next(s, op) == s
  {
  }

  predicate IsRowOf(row: Row, id: int, person: Person) {
    row.announcement == id && row.person == person
  }

  /** The first of the person's rows becomes read if it is not; there is none exactly if the reply says so. */
  lemma MarkReadOutcome(s: Db, op: Op) returns (i: nat)
    requires op.MarkRead?
    ensures Apply(s, op).1 == Done <==> exists j :: 0 <= j < |s.rows| && IsRowOf(s.rows[j], op.id, op.person)
    ensures Apply(s, op).1 == NotFound <==> !exists j :: 0 <= j < |s.rows| && IsRowOf(s.rows[j], op.id, op.person)
    ensures Apply(s, op).1 == Done ==>
              && i < |s.rows| && IsRowOf(s.rows[i], op.id, op.person)
              && (forall j :: 0 <= j < i ==> !IsRowOf(s.rows[j], op.id, op.person))
              && var row := s.rows[i];
                 var after := if row.readAt.Some? then row else Row(op.id, op.person, Read, row.pushedAt, Some(op.now));
                 Next(s, op) == Db(s.announcements, s.rows[i := after], s.nextId)
    ensures Apply(s, op).1 != Done ==> Next(s, op) == s
  {
    i := FindRow(s.rows, op.id, op.person);
    if i < |s.rows| {
      assert IsRowOf(s.rows[i], op.id, op.person);
      assert s.rows[i := s.rows[i]] == s.rows;
    }
  }

  // ---------- Publishing ----------

  /** Push is a wanted channel; no channels at all, or an empty list, want it too. */
  predicate Pushes(a: Announcement) {
    a.channels == None || a.channels == Some([]) || Push in a.channels.value
  }

  /** The staff rows that the announcement's targeting rule means. */
  predicate Targeted(a: Announcement, p: Staff) {
    && p.tenant == a.tenant && p.active
    && (p.person.kind == Employee <==> a.target in {AllEmployees, SpecificEmployees, Teams})
    && (a.target in {SpecificEmployees, SpecificDrivers} ==> a.ids.Some? && p.person.id in a.ids.value)
    && (a.target in {Teams, VendorDrivers} ==> a.ids.Some? && p.group.Some? && p.group.value in a.ids.value)
  }

  lemma WantedIsTargeted(a: Announcement, p: Staff)
    ensures Wanted(p, a.tenant, a.target, a.ids) <==> Targeted(a, p)
  {
  }

  /** The audience: everyone targeted, each once, in the order in which they are first targeted. */
  lemma AudienceExactly(op: Op, a: Announcement)
    requires op.Publish?
    ensures Distinct(AudienceOf(a, op))
    ensures forall x :: x in AudienceOf(a, op) <==> exists p :: p in op.staff && p.person == x && Targeted(a, p)
    ensures forall i, j :: 0 <= i < j < |AudienceOf(a, op)| ==>
                             FirstTarget(op.staff, a, AudienceOf(a, op)[i])
                             < FirstTarget(op.staff, a, AudienceOf(a, op)[j])
  {
    var people := Selected(op.staff, a.tenant, a.target, a.ids);
    UniqueMeans(people);
    SelectedMeans(op.staff, a.tenant, a.target, a.ids);
    forall p {:trigger Targeted(a, p)} ensures Wanted(p, a.tenant, a.target, a.ids) <==> Targeted(a, p) {
      WantedIsTargeted(a, p);
    }
    AudienceInOrder(op.staff, a);
  }

  /** The place of the first row that targets the person, or the number of rows. */
  function FirstTarget(staff: seq<Staff>, a: Announcement, x: Person): nat {
    if staff == [] then 0
    else if staff[0].person == x && Targeted(a, staff[0]) then 0 else 1 + FirstTarget(staff[1..], a, x)
  }

  lemma {:induction false} FirstTargetSnoc(staff: seq<Staff>, p: Staff, a: Announcement, x: Person)
    ensures FirstTarget(staff + [p], a, x) ==
            if FirstTarget(staff, a, x) < |staff| then FirstTarget(staff, a, x)
            else if p.person == x && Targeted(a, p) then |staff| else |staff| + 1
    ensures FirstTarget(staff, a, x) <= |staff|
  {
    if staff == [] {
      assert [p][1..] == [];
    } else {
      FirstTargetSnoc(staff[1..], p, a, x);
      assert (staff + [p])[1..] == staff[1..] + [p];
    }
  }

  /** The persons that some row targets, in the order of the first such rows. */
  ghost predicate InTargetOrder(xs: seq<Person>, staff: seq<Staff>, a: Announcement) {
    && (forall x :: x in xs <==> FirstTarget(staff, a, x) < |staff|)
    && forall i, j :: 0 <= i < j < |xs| ==> FirstTarget(staff, a, xs[i]) < FirstTarget(staff, a, xs[j])
  }

  lemma OneMoreRow(xs: seq<Person>, staff: seq<Staff>, p: Staff, a: Announcement)
    requires InTargetOrder(xs, staff, a)
    ensures InTargetOrder(if Targeted(a, p) && p.person !in xs then xs + [p.person] else xs, staff + [p], a)
  {
    forall x ensures FirstTarget(staff + [p], a, x) ==
                     if x in xs then FirstTarget(staff, a, x)
                     else if p.person == x && Targeted(a, p) then |staff| else |staff| + 1
    {
      FirstTargetSnoc(staff, p, a, x);
    }
    forall i | 0 <= i < |xs| ensures FirstTarget(staff, a, xs[i]) < |staff| {
      assert xs[i] in xs;
    }
  }

  lemma {:induction false} AudienceInOrder(staff: seq<Staff>, a: Announcement)
    ensures InTargetOrder(Audience(staff, a.tenant, a.target, a.ids), staff, a)
  {
    if staff != [] {
      var init, p := staff[..|staff| - 1], staff[|staff| - 1];
      AudienceInOrder(init, a);
      AudienceStep(init, p, a);
      assert init + [p] == staff;
    }
  }

  lemma AudienceStep(staff: seq<Staff>, p: Staff, a: Announcement)
    requires InTargetOrder(Audience(staff, a.tenant, a.target, a.ids), staff, a)
    ensures InTargetOrder(Audience(staff + [p], a.tenant, a.target, a.ids), staff + [p], a)
  {
    AudienceMore(staff, p, a);
    OneMoreRow(Audience(staff, a.tenant, a.target, a.ids), staff, p, a);
  }

  lemma UniqueMore(xs: seq<Person>, x: Person)
    ensures Unique(xs + [x]) == if x in Unique(xs) then Unique(xs) else Unique(xs) + [x]
  {
    assert (xs + [x])[..|xs|] == xs;
  }

  lemma AudienceMore(staff: seq<Staff>, p: Staff, a: Announcement)
    ensures var before := Audience(staff, a.tenant, a.target, a.ids);
            Audience(staff + [p], a.tenant, a.target, a.ids) ==
            if Targeted(a, p) && p.person !in before then before + [p.person] else before
  {
    WantedIsTargeted(a, p);
    assert (staff + [p])[..|staff|] == staff;
    var people := Selected(staff, a.tenant, a.target, a.ids);
    if Targeted(a, p) {
      UniqueMore(people, p.person);
    } else {
      assert people + [] == people;
    }
  }

  /** The delivery of the i-th of the rows that a publish writes. */
  function DeliveryAt(push: bool, i: nat, r: Report): Delivery {
    if push && i >= r.success then (if i < r.success + r.noDevice then NoDevice else Failed) else Delivered
  }

  /** The header after a publish: the audience's size, and with push to somebody the counts of the push service. */
  function Header(a: Announcement, people: seq<Person>, r: Report, now: int): Announcement {
    if people == [] then
      Announcement(a.tenant, a.target, a.ids, a.channels, Published, true, 0, a.success, a.failure, a.noDevice, Some(now))
    else if Pushes(a) then
      Announcement(a.tenant, a.target, a.ids, a.channels, Published, true, |people|, r.success, r.failure, r.noDevice,
                   Some(now))
    else
      Announcement(a.tenant, a.target, a.ids, a.channels, Published, true, |people|, 0, 0, 0, Some(now))
  }

  lemma PushesMeans(a: Announcement)
    ensures WantsPush(a) <==> Pushes(a)
  {
  }

  lemma PublishedHeader(s: Db, op: Op)
    requires op.Publish? && Live(s, op.tenant, op.id) && s.announcements[op.id].status == Draft
    ensures var a := s.announcements[op.id];
            Next(s, op).announcements == s.announcements[op.id := Header(a, AudienceOf(a, op), op.report, op.now)]
  {
    PushesMeans(s.announcements[op.id]);
  }

  /** The row of a publish's i-th person. */
  function RowAt(a: Announcement, id: int, person: Person, i: nat, r: Report, now: int): Row {
    Row(id, person, DeliveryAt(Pushes(a), i, r), if Pushes(a) && i < r.success then Some(now) else None, None)
  }

  lemma PublishedRows(s: Db, op: Op)
    requires Sound(s) && op.Publish? && Live(s, op.tenant, op.id) && s.announcements[op.id].status == Draft
    ensures var a, rows := s.announcements[op.id], Next(s, op).rows;
            var people := AudienceOf(a, op);
            && |rows| == |s.rows| + (if Pushes(a) && !op.report.kept then 0 else |people|)
            && rows[..|s.rows|] == s.rows
            && forall i :: 0 <= i < |rows| - |s.rows| ==>
                             rows[|s.rows| + i] == RowAt(a, op.id, people[i], i, op.report, op.now)
  {
    var a := s.announcements[op.id];
    PublishAppends(s, op);
    LandedRows(a, op);
    JoinedRows(s.rows, FilledRows(op.id, Landed(a, op), WantsPush(a), ReportOf(a, op), op.now));
  }

  lemma JoinedRows(rows: seq<Row>, more: seq<Row>)
    ensures (rows + more)[..|rows|] == rows
    ensures forall i :: 0 <= i < |more| ==> (rows + more)[|rows| + i] == more[i]
  {
  }

  lemma LandedRows(a: Announcement, op: Op)
    requires op.Publish?
    ensures var filled := FilledRows(op.id, Landed(a, op), WantsPush(a), ReportOf(a, op), op.now);
            var people := AudienceOf(a, op);
            && |filled| == (if Pushes(a) && !op.report.kept then 0 else |people|)
            && forall i :: 0 <= i < |filled| ==> filled[i] == RowAt(a, op.id, people[i], i, op.report, op.now)
  {
    PushesMeans(a);
  }

  /**
   A publish goes through exactly for a live draft. It writes the header, and appends a row a person of the audience in
   order, unless the push service took the rows back.
   */
  lemma PublishOutcome(s: Db, op: Op)
    requires Sound(s) && op.Publish?
    ensures Apply(s, op).1 == Done <==> Live(s, op.tenant, op.id) && s.announcements[op.id].status == Draft
    ensures Apply(s, op).1 == NotFound <==> !Live(s, op.tenant, op.id)
    ensures Apply(s, op).1 != Done ==> Next(s, op) == s
    ensures Apply(s, op).1 == Done ==>
              var a, t := s.announcements[op.id], Next(s, op);
              var people := AudienceOf(a, op);
              && t.nextId == s.nextId
              && t.announcements == s.announcements[op.id := Header(a, people, op.report, op.now)]
              && |t.rows| == |s.rows| + (if Pushes(a) && !op.report.kept then 0 else |people|)
              && t.rows[..|s.rows|] == s.rows
              && forall i :: 0 <= i < |t.rows| - |s.rows| ==>
                               t.rows[|s.rows| + i] == RowAt(a, op.id, people[i], i, op.report, op.now)
  {
    if Apply(s, op).1 == Done {
      PublishedHeader(s, op);
      PublishedRows(s, op);
    }
  }
}
