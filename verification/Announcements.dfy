/**
 Announcements: resolving an audience, publishing once, back-filling the delivery of every recipient row, and
 marking rows read. What the push, SMS and e-mail services report back is a parameter.
 */
module Announcements {
  import opened Common

  datatype PersonKind = Employee | Driver

  datatype Person = Person(kind: PersonKind, id: int)

  // A row of the employee or driver table; `group` is the employee's team or the driver's vendor.
  datatype Staff = Staff(person: Person, tenant: string, group: Option<int>, active: bool)

  datatype Target = AllEmployees | SpecificEmployees | Teams | AllDrivers | VendorDrivers | SpecificDrivers

  datatype Channel = Push | Sms | Email | InApp

  datatype Status = Draft | Published | Cancelled

  datatype Delivery = Pending | Delivered | Failed | NoDevice | Read

  datatype Announcement = Announcement(tenant: string, target: Target, ids: Option<seq<int>>, channels: Option<seq<Channel>>,
                                       status: Status, active: bool, total: nat, success: nat, failure: nat,
                                       noDevice: nat, publishedAt: Option<int>)

  datatype Row = Row(announcement: int, person: Person, delivery: Delivery, pushedAt: Option<int>, readAt: Option<int>)

  // `rows` is the recipient table in the order of its key.
  datatype Db = Db(announcements: map<int, Announcement>, rows: seq<Row>, nextId: int)

  datatype Reply = Done | NotFound | NotDraft

  // What the push service returns, and does: it works in the caller's own transaction and may commit it or roll it back.
  // `kept` is false when the first it does is a roll-back, which takes the recipient rows written so far with it.
  datatype Report = Report(success: nat, failure: nat, noDevice: nat, kept: bool)

  datatype Edit = Edit(target: Option<Target>, ids: Option<Option<seq<int>>>, channels: Option<Option<seq<Channel>>>)

  datatype Op =
    | Create(tenant: string, target: Target, ids: Option<seq<int>>, channels: seq<Channel>)
    | Update(tenant: string, id: int, edit: Edit)
    | Publish(tenant: string, id: int, staff: seq<Staff>, report: Report, now: int)
    | Delete(tenant: string, id: int)
    | MarkRead(id: int, person: Person, now: int)

  // ---------- Audience ----------

  predicate Listed(ids: Option<seq<int>>, id: int) {
    ids.Some? && id in ids.value
  }

  predicate Wanted(p: Staff, tenant: string, target: Target, ids: Option<seq<int>>) {
    && p.tenant == tenant && p.active
    && match target
       case AllEmployees => p.person.kind == Employee
       case SpecificEmployees => p.person.kind == Employee && Listed(ids, p.person.id)
       case Teams => p.person.kind == Employee && p.group.Some? && Listed(ids, p.group.value)
       case AllDrivers => p.person.kind == Driver
       case VendorDrivers => p.person.kind == Driver && p.group.Some? && Listed(ids, p.group.value)
       case SpecificDrivers => p.person.kind == Driver && Listed(ids, p.person.id)
  }

  function Selected(staff: seq<Staff>, tenant: string, target: Target, ids: Option<seq<int>>): seq<Person> {
    if staff == [] then [] else
      var last := staff[|staff| - 1];
      Selected(staff[..|staff| - 1], tenant, target, ids) + if Wanted(last, tenant, target, ids) then [last.person] else []
  }

  function Audience(staff: seq<Staff>, tenant: string, target: Target, ids: Option<seq<int>>): seq<Person> {
    Unique(Selected(staff, tenant, target, ids))
  }

  lemma {:induction false} SelectedMeans(staff: seq<Staff>, tenant: string, target: Target, ids: Option<seq<int>>)
    ensures forall x :: x in Selected(staff, tenant, target, ids)
                        <==> exists p :: p in staff && p.person == x && Wanted(p, tenant, target, ids)
  {
    if staff != [] {
      SelectedMeans(staff[..|staff| - 1], tenant, target, ids);
      assert staff == staff[..|staff| - 1] + [staff[|staff| - 1]];
    }
  }

  method ResolveRecipients(staff: seq<Staff>, tenant: string, target: Target, ids: Option<seq<int>>)
    returns (unique: seq<Person>)
    ensures unique == Audience(staff, tenant, target, ids) && Distinct(unique)
    ensures forall x :: x in unique <==> exists p :: p in staff && p.person == x && Wanted(p, tenant, target, ids)
  {
    SelectedMeans(staff, tenant, target, ids);
    var results := Selected(staff, tenant, target, ids);
    UniqueMeans(results);
    unique := [];
    var seen: set<Person> := {};
    for i := 0 to |results|
      invariant unique == Unique(results[..i]) && seen == set x | x in unique
    {
      assert results[..i + 1][..i] == results[..i];
      if results[i] !in seen {
        seen := seen + {results[i]};
        unique := unique + [results[i]];
      }
    }
    assert results[..|results|] == results;
  }

  // ---------- Back-fill ----------

  function CountRows(rows: seq<Row>, id: int): nat {
    if rows == [] then 0 else
      CountRows(rows[..|rows| - 1], id) + if rows[|rows| - 1].announcement == id then 1 else 0
  }

  /** The delivery of the announcement's p-th recipient row. */
  function Outcome(push: bool, p: nat, success: nat, noDevice: nat): Delivery {
    if !push || p < success then Delivered else if p < success + noDevice then NoDevice else Failed
  }

  function FillRow(row: Row, id: int, push: bool, p: nat, r: Report, now: int): Row {
    if row.announcement != id then row
    else row.(delivery := Outcome(push, p, r.success, r.noDevice),
              pushedAt := if push && p < r.success then Some(now) else row.pushedAt)
  }

  function Fill(rows: seq<Row>, id: int, push: bool, r: Report, now: int): seq<Row> {
    seq(|rows|, i requires 0 <= i < |rows| => FillRow(rows[i], id, push, CountRows(rows[..i], id), r, now))
  }

  function Min(a: nat, b: nat): nat {
    if a < b then a else b
  }

  /** The back-fill's two counters after p rows. */
  predicate Counters(p: nat, delivered: nat, noDevice: nat, r: Report) {
    delivered == Min(p, r.success) && noDevice == Min(p - delivered, r.noDevice)
  }

  /** One turn of the back-fill loop. */
  method FillOne(row: Row, push: bool, delivered: nat, noDevice: nat, r: Report, now: int, ghost p: nat)
    returns (filled: Row, delivered': nat, noDevice': nat)
    requires push ==> Counters(p, delivered, noDevice, r)
    ensures filled == FillRow(row, row.announcement, push, p, r, now)
    ensures push ==> Counters(p + 1, delivered', noDevice', r)
  {
    filled, delivered', noDevice' := row, delivered, noDevice;
    if push {
      if delivered < r.success {
        filled := row.(delivery := Delivered, pushedAt := Some(now));
        delivered' := delivered + 1;
      } else if noDevice < r.noDevice {
        filled := row.(delivery := NoDevice);
        noDevice' := noDevice + 1;
      } else {
        filled := row.(delivery := Failed);
      }
    } else {
      filled := row.(delivery := Delivered);
    }
  }

  /** What the loop keeps after i rows, p of them the announcement's. */
  ghost predicate FilledSoFar(filled: seq<Row>, rows: seq<Row>, i: nat, p: nat, id: int, push: bool, r: Report,
                              now: int)
  {
    && i <= |rows| && |filled| == i && p == CountRows(rows[..i], id)
    && forall j :: 0 <= j < i ==> filled[j] == FillRow(rows[j], id, push, CountRows(rows[..j], id), r, now)
  }

  lemma FilledOneMore(filled: seq<Row>, rows: seq<Row>, i: nat, p: nat, id: int, push: bool, r: Report, now: int)
    requires FilledSoFar(filled, rows, i, p, id, push, r, now) && i < |rows|
    ensures FilledSoFar(filled + [FillRow(rows[i], id, push, p, r, now)], rows, i + 1,
                        if rows[i].announcement == id then p + 1 else p, id, push, r, now)
  {
    assert rows[..i + 1][..i] == rows[..i];
  }

  /** The back-fill loop with its two counters. */
  method BackFill(rows: seq<Row>, id: int, push: bool, r: Report, now: int) returns (filled: seq<Row>)
    ensures filled == Fill(rows, id, push, r, now)
  {
    filled := [];
    var delivered, noDevice: nat := 0, 0;
    ghost var p: nat := 0;
    for i := 0 to |rows|
      invariant FilledSoFar(filled, rows, i, p, id, push, r, now)
      invariant push ==> Counters(p, delivered, noDevice, r)
    {
      FilledOneMore(filled, rows, i, p, id, push, r, now);
      var row := rows[i];
      if row.announcement == id {
        row, delivered, noDevice := FillOne(row, push, delivered, noDevice, r, now, p);
        p := p + 1;
      }
      filled := filled + [row];
    }
  }

  // ---------- The requests ----------

  /** get_announcement: active and the tenant's own. */
  predicate Found(s: Db, tenant: string, id: int) {
    id in s.announcements && s.announcements[id].tenant == tenant && s.announcements[id].active
  }

  /** No channels, or an empty list, means push and in-app. */
  predicate WantsPush(a: Announcement) {
    a.channels.Some? && a.channels.value != [] ==> Push in a.channels.value
  }

  function CreateStep(s: Db, op: Op): (Db, Reply)
    requires op.Create?
  {
    var channels := if InApp in op.channels then op.channels else op.channels + [InApp];
    (s.(announcements := s.announcements[s.nextId := Announcement(op.tenant, op.target, op.ids, Some(channels), Draft, true,
                                                                  0, 0, 0, 0, None)],
        nextId := s.nextId + 1), Done)
  }

  function Edited(a: Announcement, e: Edit): Announcement {
    a.(target := if e.target.Some? then e.target.value else a.target, ids := if e.ids.Some? then e.ids.value else a.ids,
       channels := if e.channels.Some? then e.channels.value else a.channels)
  }

  function UpdateStep(s: Db, op: Op): (Db, Reply)
    requires op.Update?
  {
    if !Found(s, op.tenant, op.id) then (s, NotFound)
    else if s.announcements[op.id].status != Draft then (s, NotDraft)
    else (s.(announcements := s.announcements[op.id := Edited(s.announcements[op.id], op.edit)]), Done)
  }

  function AudienceOf(a: Announcement, op: Op): seq<Person>
    requires op.Publish?
  {
    Audience(op.staff, a.tenant, a.target, a.ids)
  }

  function ReportOf(a: Announcement, op: Op): Report
    requires op.Publish?
  {
    if WantsPush(a) then op.report else Report(0, 0, 0, true)
  }

  function NewRows(id: int, people: seq<Person>): seq<Row> {
    seq(|people|, i requires 0 <= i < |people| => Row(id, people[i], Pending, None, None))
  }

  function PublishStep(s: Db, op: Op): (Db, Reply)
    requires op.Publish?
  {
    if !Found(s, op.tenant, op.id) then (s, NotFound)
    else if s.announcements[op.id].status != Draft then (s, NotDraft)
    else
      var a := s.announcements[op.id];
      var people := AudienceOf(a, op);
      var done := a.(status := Published, total := |people|, publishedAt := Some(op.now));
      if people == [] then (s.(announcements := s.announcements[op.id := done]), Done)
      else
        var r := ReportOf(a, op);
        var counted := done.(success := r.success, failure := r.failure, noDevice := r.noDevice);
        var written := if r.kept then s.rows + NewRows(op.id, people) else s.rows;
        var filled := Fill(written, op.id, WantsPush(a), r, op.now);
        (s.(announcements := s.announcements[op.id := counted], rows := filled), Done)
  }

  function DeleteStep(s: Db, op: Op): (Db, Reply)
    requires op.Delete?
  {
    if !Found(s, op.tenant, op.id) then (s, NotFound)
    else
      var a := s.announcements[op.id];
      var off := a.(active := false, status := if a.status == Draft then Cancelled else a.status);
      (s.(announcements := s.announcements[op.id := off]), Done)
  }

  /** The first matching recipient row, or the number of rows. */
  function FindRow(rows: seq<Row>, id: int, person: Person): (i: nat)
    ensures i <= |rows| && (i < |rows| ==> rows[i].announcement == id && rows[i].person == person)
    ensures forall j :: 0 <= j < i ==> rows[j].announcement != id || rows[j].person != person
  {
    if rows == [] || (rows[0].announcement == id && rows[0].person == person) then 0
    else 1 + FindRow(rows[1..], id, person)
  }

  function MarkReadStep(s: Db, op: Op): (Db, Reply)
    requires op.MarkRead?
  {
    var i := FindRow(s.rows, op.id, op.person);
    if i == |s.rows| then (s, NotFound)
    else if s.rows[i].readAt.Some? then (s, Done)
    else (s.(rows := s.rows[i := s.rows[i].(readAt := Some(op.now), delivery := Read)]), Done)
  }

  function Apply(s: Db, op: Op): (Db, Reply) {
    match op
    case Create(_, _, _, _) => CreateStep(s, op)
    case Update(_, _, _) => UpdateStep(s, op)
    case Publish(_, _, _, _, _) => PublishStep(s, op)
    case Delete(_, _) => DeleteStep(s, op)
    case MarkRead(_, _, _) => MarkReadStep(s, op)
  }

  function Next(s: Db, op: Op): Db {
    Apply(s, op).0
  }

  function Run(s: Db, ops: seq<Op>): Db
    decreases |ops|
  {
    if ops == [] then s else Run(Next(s, ops[0]), ops[1..])
  }

  const Empty := Db(map[], [], 1)

  class AnnouncementStore {
    var announcements: map<int, Announcement>
    var rows: seq<Row>
    var nextId: int

    function State(): Db
      reads this
    {
      Db(announcements, rows, nextId)
    }

    method Create(op: Op)
      requires op.Create?
      modifies this
      ensures State() == CreateStep(old(State()), op).0
      ensures Inv(old(State())) ==> Inv(State())
      ensures var a := announcements[old(nextId)]; a.status == Draft && a.channels.Some? && InApp in a.channels.value
      ensures Found(State(), op.tenant, old(nextId)) && rows == old(rows)
    {
      if Inv(State()) { NextKeepsInvIff(State(), op); }
      var channels := op.channels;
      if InApp !in channels {
        channels := channels + [InApp];
      }
      announcements := announcements[nextId := Announcement(op.tenant, op.target, op.ids, Some(channels), Draft, true,
                                                            0, 0, 0, 0, None)];
      nextId := nextId + 1;
    }

    method Update(op: Op) returns (reply: Reply)
      requires op.Update?
      modifies this
      ensures (State(), reply) == UpdateStep(old(State()), op)
      ensures Inv(old(State())) ==> Inv(State())
      ensures rows == old(rows) && (reply == Done ==> announcements[op.id].status == Draft)
      ensures reply == Done ==> UpdateStep(State(), op) == (State(), Done)
    {
      if Inv(State()) { NextKeepsInvIff(State(), op); }
      if !Found(State(), op.tenant, op.id) {
        return NotFound;
      }
      var a := announcements[op.id];
      if a.status != Draft {
        return NotDraft;
      }
      if op.edit.target.Some? {
        a := a.(target := op.edit.target.value);
      }
      if op.edit.ids.Some? {
        a := a.(ids := op.edit.ids.value);
      }
      if op.edit.channels.Some? {
        a := a.(channels := op.edit.channels.value);
      }
      announcements := announcements[op.id := a];
      assert Edited(a, op.edit) == a && announcements[op.id := a] == announcements;
      reply := Done;
    }

    method Publish(op: Op) returns (reply: Reply)
      requires op.Publish?
      modifies this
      ensures (State(), reply) == PublishStep(old(State()), op)
      ensures Sound(old(State())) ==> Sound(State())
      ensures Inv(old(State())) ==> (Inv(State()) <==> !LosesRows(old(State()), op))
      ensures reply == Done ==> PublishStep(State(), op) == (State(), NotDraft)
    {
      if Sound(State()) { NextKeepsSound(State(), op); }
      if Inv(State()) { NextKeepsInvIff(State(), op); }
      if !Found(State(), op.tenant, op.id) {
        return NotFound;
      }
      var a := announcements[op.id];
      if a.status != Draft {
        return NotDraft;
      }
      var push := WantsPush(a);
      var people := ResolveRecipients(op.staff, a.tenant, a.target, a.ids);
      if people == [] {
        announcements := announcements[op.id := a.(status := Published, total := 0, publishedAt := Some(op.now))];
        return Done;
      }
      var undone := rows;
      rows := rows + NewRows(op.id, people);
      var r := if push then op.report else Report(0, 0, 0, true);
      if !r.kept {
        rows := undone;
      }
      rows := BackFill(rows, op.id, push, r, op.now);
      a := a.(status := Published, total := |people|, success := r.success, failure := r.failure, noDevice := r.noDevice,
              publishedAt := Some(op.now));
      announcements := announcements[op.id := a];
      reply := Done;
    }

    method Delete(op: Op) returns (reply: Reply)
      requires op.Delete?
      modifies this
      ensures (State(), reply) == DeleteStep(old(State()), op)
      ensures Inv(old(State())) ==> Inv(State())
      ensures rows == old(rows) && !Found(State(), op.tenant, op.id)
      ensures reply == Done ==> announcements[op.id].status != Draft
    {
      if Inv(State()) { NextKeepsInvIff(State(), op); }
      if !Found(State(), op.tenant, op.id) {
        return NotFound;
      }
      var a := announcements[op.id].(active := false);
      if a.status == Draft {
        a := a.(status := Cancelled);
      }
      announcements := announcements[op.id := a];
      reply := Done;
    }

    method MarkRead(op: Op) returns (reply: Reply)
      requires op.MarkRead?
      modifies this
      ensures (State(), reply) == MarkReadStep(old(State()), op)
      ensures Inv(old(State())) ==> Inv(State())
      ensures announcements == old(announcements) && RowsKept(old(rows), rows)
      ensures reply == Done <==> exists i :: 0 <= i < |rows| && rows[i].announcement == op.id && rows[i].person == op.person
      ensures var i := FindRow(old(rows), op.id, op.person); reply == Done ==> rows[i].readAt.Some?
    {
      if Inv(State()) { NextKeepsInvIff(State(), op); }
      var i := FindRow(rows, op.id, op.person);
      if i == |rows| {
        return NotFound;
      }
      if rows[i].readAt.None? {
        rows := rows[i := rows[i].(readAt := Some(op.now), delivery := Read)];
      }
      reply := Done;
    }
  }

  // ---------- What a publish writes ----------

  lemma {:induction false} NoRows(rows: seq<Row>, id: int)
    requires forall i :: 0 <= i < |rows| ==> rows[i].announcement != id
    ensures CountRows(rows, id) == 0
  {
    if rows != [] { NoRows(rows[..|rows| - 1], id); }
  }

  lemma {:induction false} CountAfter(rows: seq<Row>, more: seq<Row>, id: int)
    requires forall i :: 0 <= i < |more| ==> more[i].announcement == id
    ensures CountRows(rows + more, id) == CountRows(rows, id) + |more|
  {
    if more == [] {
      assert rows + more == rows;
    } else {
      var n := |more| - 1;
      CountAfter(rows, more[..n], id);
      assert (rows + more)[..|rows + more| - 1] == rows + more[..n];
    }
  }

  function FilledRow(id: int, person: Person, push: bool, p: nat, r: Report, now: int): Row {
    FillRow(Row(id, person, Pending, None, None), id, push, p, r, now)
  }

  function FilledRows(id: int, people: seq<Person>, push: bool, r: Report, now: int): seq<Row> {
    seq(|people|, i requires 0 <= i < |people| => FilledRow(id, people[i], push, i, r, now))
  }

  /** On a first publish the back-fill leaves every older row alone. */
  lemma FillsOnlyNew(rows: seq<Row>, id: int, people: seq<Person>, push: bool, r: Report, now: int)
    requires forall i :: 0 <= i < |rows| ==> rows[i].announcement != id
    ensures Fill(rows + NewRows(id, people), id, push, r, now) == rows + FilledRows(id, people, push, r, now)
  {
    var added := NewRows(id, people);
    var all, filled := rows + added, rows + FilledRows(id, people, push, r, now);
    forall i | 0 <= i < |all| ensures CountRows(all[..i], id) == if i < |rows| then 0 else i - |rows| {
      CountBefore(rows, added, id, i);
    }
    assert |Fill(all, id, push, r, now)| == |filled|;
    forall i | 0 <= i < |all| ensures Fill(all, id, push, r, now)[i] == filled[i] {}
  }

  lemma CountBefore(rows: seq<Row>, added: seq<Row>, id: int, i: nat)
    requires forall j :: 0 <= j < |rows| ==> rows[j].announcement != id
    requires (forall j :: 0 <= j < |added| ==> added[j].announcement == id) && i <= |rows + added|
    ensures CountRows((rows + added)[..i], id) == if i < |rows| then 0 else i - |rows|
  {
    if i < |rows| {
      assert (rows + added)[..i] == rows[..i];
      NoRows(rows[..i], id);
    } else {
      assert (rows + added)[..i] == rows + added[..i - |rows|];
      NoRows(rows, id);
      CountAfter(rows, added[..i - |rows|], id);
    }
  }

  function CountDelivery(rows: seq<Row>, id: int, d: Delivery): nat {
    if rows == [] then 0 else
      var last := rows[|rows| - 1];
      CountDelivery(rows[..|rows| - 1], id, d) + if last.announcement == id && last.delivery == d then 1 else 0
  }

  lemma {:induction false} CountDeliveryNone(rows: seq<Row>, id: int, d: Delivery)
    requires forall i :: 0 <= i < |rows| ==> rows[i].announcement != id
    ensures CountDelivery(rows, id, d) == 0
  {
    if rows != [] { CountDeliveryNone(rows[..|rows| - 1], id, d); }
  }

  lemma {:induction false} CountDeliveryConcat(a: seq<Row>, b: seq<Row>, id: int, d: Delivery)
    ensures CountDelivery(a + b, id, d) == CountDelivery(a, id, d) + CountDelivery(b, id, d)
  {
    if b == [] {
      assert a + b == a;
    } else {
      CountDeliveryConcat(a, b[..|b| - 1], id, d);
      assert (a + b)[..|a + b| - 1] == a + b[..|b| - 1];
    }
  }

  lemma {:induction false} FilledCounts(id: int, people: seq<Person>, push: bool, r: Report, now: int)
    ensures var rows, n := FilledRows(id, people, push, r, now), |people|;
            var delivered := if push then Min(n, r.success) else n;
            var noDevice := if push then Min(n - delivered, r.noDevice) else 0;
            && CountDelivery(rows, id, Delivered) == delivered
            && CountDelivery(rows, id, NoDevice) == noDevice
            && CountDelivery(rows, id, Failed) == n - delivered - noDevice
  {
    if people != [] {
      var k := |people| - 1;
      FilledCounts(id, people[..k], push, r, now);
      assert FilledRows(id, people, push, r, now)[..k] == FilledRows(id, people[..k], push, r, now);
    }
  }

  // ---------- Invariants ----------

  ghost predicate RowOk(s: Db, row: Row) {
    && row.announcement in s.announcements && s.announcements[row.announcement].status == Published
    && row.delivery != Pending && (row.delivery == Read <==> row.readAt.Some?)
  }

  /** No person twice among an announcement's recipients. */
  ghost predicate OnePerPerson(rows: seq<Row>) {
    forall i, j :: 0 <= i < j < |rows| && rows[i].announcement == rows[j].announcement ==> rows[i].person != rows[j].person
  }

  predicate HeaderOk(a: Announcement) {
    && (a.status == Draft ==> a.active) && (a.status == Cancelled ==> !a.active)
    && (a.publishedAt.Some? <==> a.status == Published)
  }

  ghost predicate Sound(s: Db) {
    && OnePerPerson(s.rows)
    && (forall i :: 0 <= i < |s.rows| ==> RowOk(s, s.rows[i]))
    && (forall id :: id in s.announcements ==> id < s.nextId && HeaderOk(s.announcements[id]))
  }

  /** total_recipients is the number of recipient rows. */
  ghost predicate Counted(s: Db) {
    forall id :: id in s.announcements ==> s.announcements[id].total == CountRows(s.rows, id)
  }

  ghost predicate Inv(s: Db) {
    Sound(s) && Counted(s)
  }

  lemma {:induction false} CountOthers(rows: seq<Row>, more: seq<Row>, id: int)
    requires forall i :: 0 <= i < |more| ==> more[i].announcement != id
    ensures CountRows(rows + more, id) == CountRows(rows, id)
  {
    if more == [] {
      assert rows + more == rows;
    } else {
      CountOthers(rows, more[..|more| - 1], id);
      assert (rows + more)[..|rows + more| - 1] == rows + more[..|more| - 1];
    }
  }

  lemma {:induction false} CountSame(a: seq<Row>, b: seq<Row>, id: int)
    requires |a| == |b| && forall i :: 0 <= i < |a| ==> a[i].announcement == b[i].announcement
    ensures CountRows(a, id) == CountRows(b, id)
  {
    if a != [] { CountSame(a[..|a| - 1], b[..|b| - 1], id); }
  }

  lemma CreateKeeps(s: Db, op: Op)
    requires Sound(s) && op.Create?
    ensures Sound(Next(s, op)) && (Counted(s) ==> Counted(Next(s, op)))
  {
    var t := Next(s, op);
    forall i | 0 <= i < |t.rows| ensures RowOk(t, t.rows[i]) && t.rows[i].announcement != s.nextId {
      assert RowOk(s, s.rows[i]);
    }
    NoRows(s.rows, s.nextId);
  }

  lemma HeaderKeeps(s: Db, op: Op)
    requires Sound(s) && (op.Update? || op.Delete?)
    ensures Sound(Next(s, op)) && (Counted(s) ==> Counted(Next(s, op)))
  {
    var t := Next(s, op);
    forall i | 0 <= i < |t.rows| ensures RowOk(t, t.rows[i]) {
      assert RowOk(s, s.rows[i]);
    }
  }

  lemma MarkReadKeeps(s: Db, op: Op)
    requires Sound(s) && op.MarkRead?
    ensures Sound(Next(s, op)) && (Counted(s) ==> Counted(Next(s, op)))
    ensures forall id :: CountRows(Next(s, op).rows, id) == CountRows(s.rows, id)
  {
    var t := Next(s, op);
    forall i | 0 <= i < |t.rows| ensures RowOk(t, t.rows[i]) {
      assert RowOk(s, s.rows[i]);
    }
    forall id ensures CountRows(t.rows, id) == CountRows(s.rows, id) {
      CountSame(t.rows, s.rows, id);
    }
  }

  /** Whom a publish ends up with a recipient row for. */
  function Landed(a: Announcement, op: Op): seq<Person>
    requires op.Publish?
  {
    if ReportOf(a, op).kept then AudienceOf(a, op) else []
  }

  /** A publish that goes through while the push service throws its recipient rows away. */
  predicate LosesRows(s: Db, op: Op) {
    op.Publish? && PublishStep(s, op).1 == Done
    && var a := s.announcements[op.id]; !ReportOf(a, op).kept && AudienceOf(a, op) != []
  }

  /** A publish that goes through appends one row a person it lands with, and touches no other row. */
  lemma PublishAppends(s: Db, op: Op)
    requires Sound(s) && op.Publish? && PublishStep(s, op).1 == Done
    ensures var a := s.announcements[op.id];
            && (forall i :: 0 <= i < |s.rows| ==> s.rows[i].announcement != op.id)
            && Next(s, op).rows == s.rows + FilledRows(op.id, Landed(a, op), WantsPush(a), ReportOf(a, op), op.now)
  {
    var a := s.announcements[op.id];
    forall i | 0 <= i < |s.rows| ensures s.rows[i].announcement != op.id {
      assert RowOk(s, s.rows[i]);
    }
    var people := Landed(a, op);
    FillsOnlyNew(s.rows, op.id, people, WantsPush(a), ReportOf(a, op), op.now);
    assert people == [] ==> s.rows + NewRows(op.id, people) == s.rows;
    assert people == [] ==> s.rows + FilledRows(op.id, people, WantsPush(a), ReportOf(a, op), op.now) == s.rows;
  }

  /** Recipient rows as a publish writes them: of one announcement, each person once, sent but not read. */
  ghost predicate Sent(rows: seq<Row>, id: int) {
    && OnePerPerson(rows)
    && forall i :: 0 <= i < |rows| ==> rows[i].announcement == id && rows[i].delivery != Pending && rows[i].delivery != Read
                                       && rows[i].readAt.None?
  }

  lemma AppendedOnePerPerson(rows: seq<Row>, more: seq<Row>, id: int)
    requires OnePerPerson(rows) && Sent(more, id) && forall i :: 0 <= i < |rows| ==> rows[i].announcement != id
    ensures OnePerPerson(rows + more)
  {
  }

  lemma AppendKeepsSound(s: Db, id: int, a: Announcement, more: seq<Row>)
    requires Sound(s) && id in s.announcements && forall i :: 0 <= i < |s.rows| ==> s.rows[i].announcement != id
    requires a.status == Published && a.publishedAt.Some? && Sent(more, id)
    ensures Sound(s.(announcements := s.announcements[id := a], rows := s.rows + more))
  {
    var t := s.(announcements := s.announcements[id := a], rows := s.rows + more);
    AppendedOnePerPerson(s.rows, more, id);
    forall i | 0 <= i < |t.rows| ensures RowOk(t, t.rows[i]) {
      if i < |s.rows| { assert RowOk(s, s.rows[i]); }
    }
  }

  lemma AppendCounts(rows: seq<Row>, more: seq<Row>, id: int)
    requires (forall i :: 0 <= i < |rows| ==> rows[i].announcement != id) && Sent(more, id)
    ensures CountRows(rows + more, id) == |more|
    ensures forall j :: j != id ==> CountRows(rows + more, j) == CountRows(rows, j)
  {
    NoRows(rows, id);
    CountAfter(rows, more, id);
    forall j | j != id ensures CountRows(rows + more, j) == CountRows(rows, j) {
      CountOthers(rows, more, j);
    }
  }

  lemma FilledAreSent(id: int, people: seq<Person>, push: bool, r: Report, now: int)
    requires Distinct(people)
    ensures Sent(FilledRows(id, people, push, r, now), id)
  {
  }

  lemma PublishKeeps(s: Db, op: Op)
    requires Sound(s) && op.Publish? && PublishStep(s, op).1 == Done
    ensures Sound(Next(s, op)) && (Counted(s) ==> (Counted(Next(s, op)) <==> !LosesRows(s, op)))
    ensures CountRows(Next(s, op).rows, op.id) == |Landed(s.announcements[op.id], op)|
    ensures forall id :: id != op.id ==> CountRows(Next(s, op).rows, id) == CountRows(s.rows, id)
  {
    var a, t := s.announcements[op.id], Next(s, op);
    var people := Landed(a, op);
    var filled := FilledRows(op.id, people, WantsPush(a), ReportOf(a, op), op.now);
    PublishAppends(s, op);
    UniqueMeans(Selected(op.staff, a.tenant, a.target, a.ids));
    FilledAreSent(op.id, people, WantsPush(a), ReportOf(a, op), op.now);
    AppendKeepsSound(s, op.id, t.announcements[op.id], filled);
    AppendCounts(s.rows, filled, op.id);
    assert t == s.(announcements := s.announcements[op.id := t.announcements[op.id]], rows := s.rows + filled);
  }

  /** Every request keeps all of the invariant but the number of rows. */
  lemma NextKeepsSound(s: Db, op: Op)
    requires Sound(s)
    ensures Sound(Next(s, op))
  {
    match op
    case Create(_, _, _, _) => CreateKeeps(s, op);
    case Publish(_, _, _, _, _) => if PublishStep(s, op).1 == Done { PublishKeeps(s, op); }
    case MarkRead(_, _, _) => MarkReadKeeps(s, op);
    case _ => HeaderKeeps(s, op);
  }

  /** And the number of rows too, exactly unless it is a publish that loses its rows. */
  lemma NextKeepsInvIff(s: Db, op: Op)
    requires Inv(s)
    ensures Inv(Next(s, op)) <==> !LosesRows(s, op)
  {
    match op
    case Create(_, _, _, _) => CreateKeeps(s, op);
    case Publish(_, _, _, _, _) => if PublishStep(s, op).1 == Done { PublishKeeps(s, op); }
    case MarkRead(_, _, _) => MarkReadKeeps(s, op);
    case _ => HeaderKeeps(s, op);
  }

  lemma {:induction false} RunKeepsSound(s: Db, ops: seq<Op>)
    requires Sound(s)
    ensures Sound(Run(s, ops))
    decreases |ops|
  {
    if ops != [] {
      NextKeepsSound(s, ops[0]);
      RunKeepsSound(Next(s, ops[0]), ops[1..]);
    }
  }

  /** No publish of the run loses its rows. */
  predicate NoLoss(s: Db, ops: seq<Op>)
    decreases |ops|
  {
    ops == [] || (!LosesRows(s, ops[0]) && NoLoss(Next(s, ops[0]), ops[1..]))
  }

  /** A published announcement that counts recipients and has no row. */
  predicate Lost(s: Db, id: int) {
    id in s.announcements && s.announcements[id].status == Published && s.announcements[id].total > 0
    && CountRows(s.rows, id) == 0
  }

  lemma LostStaysLost(s: Db, op: Op, id: int)
    requires Sound(s) && Lost(s, id)
    ensures Lost(Next(s, op), id)
  {
    if op.MarkRead? {
      MarkReadKeeps(s, op);
    } else if op.Publish? && PublishStep(s, op).1 == Done {
      PublishKeeps(s, op);
    }
  }

  lemma {:induction false} LostForGood(s: Db, ops: seq<Op>, id: int)
    requires Sound(s) && Lost(s, id)
    ensures Lost(Run(s, ops), id)
    decreases |ops|
  {
    if ops != [] {
      LostStaysLost(s, ops[0], id);
      NextKeepsSound(s, ops[0]);
      LostForGood(Next(s, ops[0]), ops[1..], id);
    }
  }

  /** A run ends with the whole invariant exactly when none of its publishes lost its rows: nothing mends a loss. */
  lemma {:induction false} RunKeepsInvIff(s: Db, ops: seq<Op>)
    requires Inv(s)
    ensures Inv(Run(s, ops)) <==> NoLoss(s, ops)
    decreases |ops|
  {
    if ops != [] {
      var t := Next(s, ops[0]);
      NextKeepsInvIff(s, ops[0]);
      if LosesRows(s, ops[0]) {
        PublishKeeps(s, ops[0]);
        LostForGood(t, ops[1..], ops[0].id);
      } else {
        RunKeepsInvIff(t, ops[1..]);
      }
    }
  }

  /** From empty tables: all but the number of rows always holds, and that too iff no publish lost its rows. */
  lemma ReachableInv(ops: seq<Op>)
    ensures Sound(Run(Empty, ops))
    ensures Inv(Run(Empty, ops)) <==> NoLoss(Empty, ops)
  {
    RunKeepsSound(Empty, ops);
    RunKeepsInvIff(Empty, ops);
  }

  /** The announcement has n rows: successes first, then missing devices, then failures; without push all delivered. */
  ghost predicate Delivers(rows: seq<Row>, id: int, n: nat, push: bool, r: Report) {
    var delivered := if push then Min(n, r.success) else n;
    var noDevice := if push then Min(n - delivered, r.noDevice) else 0;
    && CountRows(rows, id) == n
    && CountDelivery(rows, id, Delivered) == delivered
    && CountDelivery(rows, id, NoDevice) == noDevice
    && CountDelivery(rows, id, Failed) == n - delivered - noDevice
  }

  /** How a publish leaves the deliveries, of as many rows as it counts recipients, or of none if it loses them. */
  lemma PublishDelivers(s: Db, op: Op)
    requires Sound(s) && op.Publish? && PublishStep(s, op).1 == Done
    ensures var a, t := s.announcements[op.id], Next(s, op);
            Delivers(t.rows, op.id, if LosesRows(s, op) then 0 else t.announcements[op.id].total, WantsPush(a), op.report)
  {
    PublishAppends(s, op);
    var a := s.announcements[op.id];
    AppendedCounts(s.rows, op.id, Landed(a, op), WantsPush(a), ReportOf(a, op), op.now);
    LandedCount(s, op);
  }

  lemma LandedCount(s: Db, op: Op)
    requires op.Publish? && PublishStep(s, op).1 == Done
    ensures |Landed(s.announcements[op.id], op)| == if LosesRows(s, op) then 0 else Next(s, op).announcements[op.id].total
  {
  }

  lemma AppendedCounts(rows: seq<Row>, id: int, people: seq<Person>, push: bool, r: Report, now: int)
    requires forall i :: 0 <= i < |rows| ==> rows[i].announcement != id
    ensures Delivers(rows + FilledRows(id, people, push, r, now), id, |people|, push, r)
  {
    var filled := FilledRows(id, people, push, r, now);
    FilledCounts(id, people, push, r, now);
    NoRows(rows, id);
    CountAfter(rows, filled, id);
    CountDeliveryAppended(rows, filled, id, Delivered);
    CountDeliveryAppended(rows, filled, id, NoDevice);
    CountDeliveryAppended(rows, filled, id, Failed);
  }

  lemma CountDeliveryAppended(rows: seq<Row>, more: seq<Row>, id: int, d: Delivery)
    requires forall i :: 0 <= i < |rows| ==> rows[i].announcement != id
    ensures CountDelivery(rows + more, id, d) == CountDelivery(more, id, d)
  {
    CountDeliveryConcat(rows, more, id, d);
    CountDeliveryNone(rows, id, d);
  }

  // ---------- Runs ----------

  /** How often the announcement is published in a run. */
  function Publishes(s: Db, ops: seq<Op>, id: int): nat
    decreases |ops|
  {
    if ops == [] then 0 else
      (if ops[0].Publish? && ops[0].id == id && Apply(s, ops[0]).1 == Done then 1 else 0)
      + Publishes(Next(s, ops[0]), ops[1..], id)
  }

  /** How often an id can still be published: once while it is a draft or not yet given out, and then never. */
  function PublishesLeft(s: Db, id: int): nat {
    if id in s.announcements then (if s.announcements[id].status == Draft then 1 else 0)
    else if id < s.nextId then 0 else 1
  }

  predicate IdsGivenOut(s: Db) {
    forall id :: id in s.announcements ==> id < s.nextId
  }

  lemma {:induction false} PublishedOnce(s: Db, ops: seq<Op>, id: int)
    requires IdsGivenOut(s)
    ensures Publishes(s, ops, id) <= PublishesLeft(s, id)
    decreases |ops|
  {
    if ops != [] {
      NextPublishes(s, ops[0], id);
      PublishedOnce(Next(s, ops[0]), ops[1..], id);
    }
  }

  lemma NextPublishes(s: Db, op: Op, id: int)
    requires IdsGivenOut(s)
    ensures IdsGivenOut(Next(s, op))
    ensures PublishesLeft(Next(s, op), id) + (if op.Publish? && op.id == id && Apply(s, op).1 == Done then 1 else 0)
            <= PublishesLeft(s, id)
  {
  }

  /** In any run from empty tables, every announcement is published at most once. */
  lemma NeverPublishedTwice(ops: seq<Op>, id: int)
    ensures Publishes(Empty, ops, id) <= 1
  {
    PublishedOnce(Empty, ops, id);
  }

  /** A recipient row can only become read, once, and then stays as it is. */
  predicate OnlyRead(before: Row, after: Row) {
    || after == before
    || (before.readAt.None? && after.readAt.Some? && after == before.(readAt := after.readAt, delivery := Read))
  }

  ghost predicate RowsKept(before: seq<Row>, after: seq<Row>) {
    |before| <= |after| && forall i :: 0 <= i < |before| ==> OnlyRead(before[i], after[i])
  }

  lemma NextKeepsRows(s: Db, op: Op)
    requires Sound(s)
    ensures RowsKept(s.rows, Next(s, op).rows)
  {
    if op.Publish? && PublishStep(s, op).1 == Done {
      PublishAppends(s, op);
    }
  }

  lemma RowsKeptTwice(a: seq<Row>, b: seq<Row>, c: seq<Row>)
    requires RowsKept(a, b) && RowsKept(b, c)
    ensures RowsKept(a, c)
  {
    forall i | 0 <= i < |a| ensures OnlyRead(a[i], c[i]) {
      assert OnlyRead(a[i], b[i]) && OnlyRead(b[i], c[i]);
    }
  }

  /** Over any run, a recipient row keeps its person and delivery until it is read, and is read once. */
  lemma {:induction false} RunKeepsRows(s: Db, ops: seq<Op>)
    requires Sound(s)
    ensures RowsKept(s.rows, Run(s, ops).rows)
    decreases |ops|
  {
    if ops != [] {
      NextKeepsSound(s, ops[0]);
      NextKeepsRows(s, ops[0]);
      RunKeepsRows(Next(s, ops[0]), ops[1..]);
      RowsKeptTwice(s.rows, Next(s, ops[0]).rows, Run(s, ops).rows);
    }
  }

  /** Reading again changes nothing. */
  lemma ReadTwiceIsOnce(s: Db, id: int, person: Person, now: int, later: int)
    ensures var once := Next(s, MarkRead(id, person, now)); Next(once, MarkRead(id, person, later)) == once
  {
    var once := Next(s, MarkRead(id, person, now));
    var i, j := FindRow(s.rows, id, person), FindRow(once.rows, id, person);
    assert |once.rows| == |s.rows|;
    if i < |s.rows| {
      assert j <= i by { assert once.rows[i].announcement == id && once.rows[i].person == person; }
      assert forall k :: 0 <= k < i ==> once.rows[k] == s.rows[k];
      assert j == i;
    }
  }
}
