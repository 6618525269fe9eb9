/**
 Resolving a user's permissions: an order-sensitive fold over roles, policies and permissions, where "*"
 overwrites what its module had, behind an optional package gate. The employee resolver keeps a dictionary by
 module; the driver, vendor-user, admin and tenant resolvers scan a list.
 */
module Permissions {
  import opened Common

  datatype Permission = Permission(id: int, area: string, action: string)
  datatype Policy = Policy(permissions: seq<Permission>)
  datatype Role = Role(name: string, active: bool, tenant: string, system: bool, policies: seq<Policy>)

  // One entry of the token's permission list; `area` is its "module".
  datatype Entry = Entry(area: string, actions: seq<string>)

  // None: the tenant has no package, so nothing is filtered.
  type Gate = Option<set<int>>

  const STAR := "*"
  const WILD: seq<string> := ["create", "read", "update", "delete", "*"]

  // ---------- The fold ----------

  function Merge(actions: seq<string>, action: string): seq<string> {
    if action == STAR then WILD else if action in actions then actions else actions + [action]
  }

  /** The first entry of an area, or the length when there is none. */
  function Index(entries: seq<Entry>, area: string): (i: nat)
    ensures i <= |entries| && (i < |entries| ==> entries[i].area == area)
    ensures forall j :: 0 <= j < i ==> entries[j].area != area
  {
    if entries == [] || entries[0].area == area then 0 else 1 + Index(entries[1..], area)
  }

  function Add(entries: seq<Entry>, p: Permission): seq<Entry> {
    var i := Index(entries, p.area);
    if i < |entries| then entries[i := Entry(p.area, Merge(entries[i].actions, p.action))]
    else entries + [Entry(p.area, if p.action == STAR then WILD else [p.action])]
  }

  function Fold(ps: seq<Permission>): seq<Entry> {
    if ps == [] then [] else Add(Fold(ps[..|ps| - 1]), ps[|ps| - 1])
  }

  predicate Allowed(gate: Gate, p: Permission) {
    gate.None? || p.id in gate.value
  }

  function Passing(gate: Gate, ps: seq<Permission>): seq<Permission> {
    if ps == [] then [] else
      Passing(gate, ps[..|ps| - 1]) + if Allowed(gate, ps[|ps| - 1]) then [ps[|ps| - 1]] else []
  }

  /** Which roles count: active ones, and for a scoped user only the tenant's own and system roles. */
  predicate Usable(r: Role, scope: Option<string>) {
    r.active && (scope.None? || r.tenant == scope.value || r.system)
  }

  function InPolicies(policies: seq<Policy>): seq<Permission> {
    if policies == [] then [] else InPolicies(policies[..|policies| - 1]) + policies[|policies| - 1].permissions
  }

  function InRoles(roles: seq<Role>, scope: Option<string>): seq<Permission> {
    if roles == [] then [] else
      InRoles(roles[..|roles| - 1], scope)
      + if Usable(roles[|roles| - 1], scope) then InPolicies(roles[|roles| - 1].policies) else []
  }

  function NamesOf(roles: seq<Role>, scope: Option<string>): seq<string> {
    if roles == [] then [] else
      NamesOf(roles[..|roles| - 1], scope) + if Usable(roles[|roles| - 1], scope) then [roles[|roles| - 1].name] else []
  }

  lemma PassingMore(gate: Gate, ps: seq<Permission>, p: Permission)
    ensures Passing(gate, ps + [p]) == if Allowed(gate, p) then Passing(gate, ps) + [p] else Passing(gate, ps)
    ensures Fold(Passing(gate, ps + [p])) ==
            if Allowed(gate, p) then Add(Fold(Passing(gate, ps)), p) else Fold(Passing(gate, ps))
  {
    assert (ps + [p])[..|ps|] == ps;
    var kept := Passing(gate, ps);
    assert Passing(gate, ps + [p]) == kept + if Allowed(gate, p) then [p] else [];
    if Allowed(gate, p) {
      assert (kept + [p])[..|kept|] == kept;
    } else {
      assert kept + [] == kept;
    }
  }

  // ---------- The two resolvers ----------

  lemma MorePolicies(policies: seq<Policy>, before: seq<Permission>, j: nat)
    requires j < |policies|
    ensures before + InPolicies(policies[..j + 1]) == before + InPolicies(policies[..j]) + policies[j].permissions
  {
    assert policies[..j + 1][..j] == policies[..j];
  }

  lemma MoreRoles(roles: seq<Role>, scope: Option<string>, i: nat)
    requires i < |roles|
    ensures InRoles(roles[..i + 1], scope) ==
            if Usable(roles[i], scope) then InRoles(roles[..i], scope) + InPolicies(roles[i].policies)
            else InRoles(roles[..i], scope)
    ensures NamesOf(roles[..i + 1], scope) ==
            if Usable(roles[i], scope) then NamesOf(roles[..i], scope) + [roles[i].name] else NamesOf(roles[..i], scope)
  {
    assert roles[..i + 1][..i] == roles[..i];
  }

  /** What the loops keep: `entries` is the fold of what the gate lets through of `seen`. */
  ghost predicate Resolved(entries: seq<Entry>, gate: Gate, seen: seq<Permission>) {
    entries == Fold(Passing(gate, seen))
  }

  lemma ResolvedMore(entries: seq<Entry>, gate: Gate, seen: seq<Permission>, p: Permission)
    requires Resolved(entries, gate, seen)
    ensures Resolved(if Allowed(gate, p) then Add(entries, p) else entries, gate, seen + [p])
  {
    PassingMore(gate, seen, p);
  }

  lemma OneMore(before: seq<Permission>, ps: seq<Permission>, k: nat)
    requires k < |ps|
    ensures before + ps[..k] + [ps[k]] == before + ps[..k + 1]
  {
  }

  /** One turn of the list-scan resolvers' innermost loop. */
  method AddEntry(start: seq<Entry>, p: Permission) returns (entries: seq<Entry>)
    ensures entries == Add(start, p)
    ensures Tidy(start) ==> Tidy(entries) && forall area, action ::
                              Granted(entries, area, action) == AfterOne(Granted(start, area, action), p, area, action)
  {
    if Tidy(start) {
      AddIsTidy(start, p);
      forall area, action
        ensures Granted(Add(start, p), area, action) == AfterOne(Granted(start, area, action), p, area, action)
      {
        AddGrants(start, p, area, action);
      }
    }
    entries := start;
    var at := Index(entries, p.area);
    if at < |entries| {
      if p.action == STAR {
        entries := entries[at := Entry(p.area, WILD)];
      } else if p.action !in entries[at].actions {
        entries := entries[at := Entry(p.area, entries[at].actions + [p.action])];
      }
    } else {
      entries := entries + [Entry(p.area, if p.action == STAR then WILD else [p.action])];
    }
  }

  method ScanPolicy(start: seq<Entry>, policy: Policy, gate: Gate, ghost before: seq<Permission>)
    returns (entries: seq<Entry>)
    requires Resolved(start, gate, before)
    ensures Resolved(entries, gate, before + policy.permissions)
  {
    entries := start;
    ghost var seen := before;
    for k := 0 to |policy.permissions|
      invariant seen == before + policy.permissions[..k] && Resolved(entries, gate, seen)
    {
      ResolvedMore(entries, gate, seen, policy.permissions[k]);
      OneMore(before, policy.permissions, k);
      seen := seen + [policy.permissions[k]];
      if Allowed(gate, policy.permissions[k]) {
        entries := AddEntry(entries, policy.permissions[k]);
      }
    }
    assert seen == before + policy.permissions;
  }

  method ScanRole(start: seq<Entry>, role: Role, gate: Gate, ghost before: seq<Permission>)
    returns (entries: seq<Entry>)
    requires Resolved(start, gate, before)
    ensures Resolved(entries, gate, before + InPolicies(role.policies))
  {
    entries := start;
    ghost var seen := before;
    for j := 0 to |role.policies|
      invariant seen == before + InPolicies(role.policies[..j]) && Resolved(entries, gate, seen)
    {
      entries := ScanPolicy(entries, role.policies[j], gate, seen);
      MorePolicies(role.policies, before, j);
      seen := seen + role.policies[j].permissions;
    }
    assert role.policies[..|role.policies|] == role.policies;
  }

  /** The list-scan resolvers. An unscoped, ungated call is the admin's or tenant's. */
  method ResolveByScan(roles: seq<Role>, scope: Option<string>, gate: Gate)
    returns (names: seq<string>, entries: seq<Entry>)
    ensures names == NamesOf(roles, scope)
    ensures entries == Fold(Passing(gate, InRoles(roles, scope)))
  {
    names, entries := [], [];
    for i := 0 to |roles|
      invariant names == NamesOf(roles[..i], scope)
      invariant Resolved(entries, gate, InRoles(roles[..i], scope))
    {
      MoreRoles(roles, scope, i);
      if Usable(roles[i], scope) {
        names := names + [roles[i].name];
        entries := ScanRole(entries, roles[i], gate, InRoles(roles[..i], scope));
      }
    }
    assert roles[..|roles|] == roles;
  }

  // A dictionary from area to actions, with its keys in the order they came.
  datatype Dict = Dict(order: seq<string>, actions: map<string, seq<string>>)

  ghost predicate DictOk(d: Dict) {
    && (forall i :: 0 <= i < |d.order| ==> d.order[i] in d.actions)
    && (forall i, j :: 0 <= i < j < |d.order| ==> d.order[i] != d.order[j])
    && (forall a :: a in d.actions ==> a in d.order)
  }

  ghost predicate Lists(d: Dict, entries: seq<Entry>) {
    && DictOk(d) && |entries| == |d.order|
    && forall i :: 0 <= i < |entries| ==> entries[i] == Entry(d.order[i], d.actions[d.order[i]])
  }

  function Put(d: Dict, p: Permission): Dict {
    if p.area in d.actions then d.(actions := d.actions[p.area := Merge(d.actions[p.area], p.action)])
    else Dict(d.order + [p.area], d.actions[p.area := if p.action == STAR then WILD else [p.action]])
  }

  lemma PutLists(d: Dict, entries: seq<Entry>, p: Permission)
    requires Lists(d, entries)
    ensures Lists(Put(d, p), Add(entries, p))
  {
    if p.area in d.actions { PutOld(d, entries, p); } else { PutNew(d, entries, p); }
  }

  lemma PutOld(d: Dict, entries: seq<Entry>, p: Permission)
    requires Lists(d, entries) && p.area in d.actions
    ensures Lists(Put(d, p), Add(entries, p))
  {
    var i :| 0 <= i < |d.order| && d.order[i] == p.area;
    assert entries[i].area == p.area;
    var at := Index(entries, p.area);
    assert at < |entries| && d.order[at] == p.area;
  }

  lemma PutNew(d: Dict, entries: seq<Entry>, p: Permission)
    requires Lists(d, entries) && p.area !in d.actions
    ensures Lists(Put(d, p), Add(entries, p))
  {
    assert forall i :: 0 <= i < |d.order| ==> d.order[i] != p.area;
    assert Index(entries, p.area) == |entries|;
  }

  ghost predicate Shows(d: Dict, gate: Gate, seen: seq<Permission>) {
    Lists(d, Fold(Passing(gate, seen)))
  }

  lemma ShowsMore(d: Dict, gate: Gate, seen: seq<Permission>, p: Permission)
    requires Shows(d, gate, seen)
    ensures Shows(if Allowed(gate, p) then Put(d, p) else d, gate, seen + [p])
  {
    PassingMore(gate, seen, p);
    PutLists(d, Fold(Passing(gate, seen)), p);
  }

  /** One turn of the dictionary resolver's innermost loop. */
  method PutEntry(start: Dict, p: Permission) returns (d: Dict)
    ensures d == Put(start, p)
  {
    d := start;
    if p.area in d.actions {
      if p.action == STAR {
        d := d.(actions := d.actions[p.area := WILD]);
      } else if p.action !in d.actions[p.area] {
        d := d.(actions := d.actions[p.area := d.actions[p.area] + [p.action]]);
      }
    } else {
      d := Dict(d.order + [p.area], d.actions[p.area := if p.action == STAR then WILD else [p.action]]);
    }
  }

  method PutAllowed(start: Dict, p: Permission, gate: Gate, ghost seen: seq<Permission>) returns (d: Dict)
    requires Shows(start, gate, seen)
    ensures Shows(d, gate, seen + [p])
  {
    ShowsMore(start, gate, seen, p);
    d := start;
    if Allowed(gate, p) {
      d := PutEntry(start, p);
    }
  }

  method DictPolicy(start: Dict, policy: Policy, gate: Gate, ghost before: seq<Permission>) returns (d: Dict)
    requires Shows(start, gate, before)
    ensures Shows(d, gate, before + policy.permissions)
  {
    d := start;
    ghost var seen := before;
    for k := 0 to |policy.permissions|
      invariant seen == before + policy.permissions[..k] && Shows(d, gate, seen)
    {
      OneMore(before, policy.permissions, k);
      d := PutAllowed(d, policy.permissions[k], gate, seen);
      seen := seen + [policy.permissions[k]];
    }
    assert seen == before + policy.permissions;
  }

  method DictRole(start: Dict, role: Role, gate: Gate, ghost before: seq<Permission>) returns (d: Dict)
    requires Shows(start, gate, before)
    ensures Shows(d, gate, before + InPolicies(role.policies))
  {
    d := start;
    ghost var seen := before;
    for j := 0 to |role.policies|
      invariant seen == before + InPolicies(role.policies[..j]) && Shows(d, gate, seen)
    {
      d := DictPolicy(d, role.policies[j], gate, seen);
      MorePolicies(role.policies, before, j);
      seen := seen + role.policies[j].permissions;
    }
    assert role.policies[..|role.policies|] == role.policies;
  }

  /** The dictionary resolver: the same list, in the same order. */
  method ResolveByDict(roles: seq<Role>, scope: Option<string>, gate: Gate)
    returns (names: seq<string>, entries: seq<Entry>)
    ensures names == NamesOf(roles, scope)
    ensures entries == Fold(Passing(gate, InRoles(roles, scope)))
  {
    names := [];
    var d := Dict([], map[]);
    for i := 0 to |roles|
      invariant names == NamesOf(roles[..i], scope)
      invariant Shows(d, gate, InRoles(roles[..i], scope))
    {
      MoreRoles(roles, scope, i);
      if Usable(roles[i], scope) {
        names := names + [roles[i].name];
        d := DictRole(d, roles[i], gate, InRoles(roles[..i], scope));
      }
    }
    assert roles[..|roles|] == roles;
    entries := ValuesOf(d);
    ListingIsOne(d, entries, Fold(Passing(gate, InRoles(roles, scope))));
  }

  /** list(d.values()). */
  method ValuesOf(d: Dict) returns (entries: seq<Entry>)
    requires DictOk(d)
    ensures Lists(d, entries)
  {
    entries := [];
    for i := 0 to |d.order|
      invariant |entries| == i
      invariant forall j :: 0 <= j < i ==> entries[j] == Entry(d.order[j], d.actions[d.order[j]])
    {
      entries := entries + [Entry(d.order[i], d.actions[d.order[i]])];
    }
  }

  lemma ListingIsOne(d: Dict, es: seq<Entry>, fs: seq<Entry>)
    requires Lists(d, es) && Lists(d, fs)
    ensures es == fs
  {
    forall i | 0 <= i < |es| ensures es[i] == fs[i] {}
  }

  // ---------- What the fold means ----------

  predicate Granted(entries: seq<Entry>, area: string, action: string) {
    exists i :: 0 <= i < |entries| && entries[i].area == area && action in entries[i].actions
  }

  /** The actions asked for in one area, in order. */
  function Asked(ps: seq<Permission>, area: string): seq<string> {
    if ps == [] then [] else
      Asked(ps[..|ps| - 1], area) + if ps[|ps| - 1].area == area then [ps[|ps| - 1].action] else []
  }

  function MergeAll(actions: seq<string>): seq<string> {
    if actions == [] then [] else Merge(MergeAll(actions[..|actions| - 1]), actions[|actions| - 1])
  }

  function Areas(ps: seq<Permission>): seq<string> {
    if ps == [] then [] else Areas(ps[..|ps| - 1]) + [ps[|ps| - 1].area]
  }

  /** The entries by area: one an area in order of first occurrence, each merging only its own area's actions. */
  ghost predicate ByArea(entries: seq<Entry>, ps: seq<Permission>) {
    Tabulates(entries, Unique(Areas(ps)), ps)
  }

  lemma {:induction false} NotAsked(ps: seq<Permission>, area: string)
    ensures area !in Areas(ps) ==> Asked(ps, area) == []
  {
    if ps != [] {
      NotAsked(ps[..|ps| - 1], area);
      assert ps[|ps| - 1].area == Areas(ps)[|Areas(ps)| - 1];
    }
  }

  /** The fold works area by area. */
  lemma {:induction false} FoldIsByArea(ps: seq<Permission>)
    ensures ByArea(Fold(ps), ps)
  {
    if ps != [] {
      var init, p := ps[..|ps| - 1], ps[|ps| - 1];
      assert ps == init + [p];
      FoldIsByArea(init);
      AddByArea(init, p);
      assert Fold(ps) == Add(Fold(init), p);
    }
  }

  lemma AskedMore(ps: seq<Permission>, p: Permission, area: string)
    ensures MergeAll(Asked(ps + [p], area)) ==
            if area == p.area then Merge(MergeAll(Asked(ps, area)), p.action) else MergeAll(Asked(ps, area))
  {
    assert (ps + [p])[..|ps|] == ps;
    var before := Asked(ps, area);
    if area == p.area {
      assert (before + [p.action])[..|before|] == before;
    } else {
      assert before + [] == before;
    }
  }

  lemma AreasMore(ps: seq<Permission>, p: Permission)
    ensures var before := Unique(Areas(ps));
            Unique(Areas(ps + [p])) == if p.area in before then before else before + [p.area]
  {
    assert (ps + [p])[..|ps|] == ps;
    assert (Areas(ps) + [p.area])[..|Areas(ps)|] == Areas(ps);
  }

  lemma AddByArea(ps: seq<Permission>, p: Permission)
    requires ByArea(Fold(ps), ps)
    ensures ByArea(Add(Fold(ps), p), ps + [p])
  {
    UniqueMeans(Areas(ps));
    AreasMore(ps, p);
    if p.area in Unique(Areas(ps)) {
      AddKnownArea(Fold(ps), Unique(Areas(ps)), ps, p);
    } else {
      NotAsked(ps, p.area);
      AddNewArea(Fold(ps), Unique(Areas(ps)), ps, p);
    }
  }

  ghost predicate Tabulates(es: seq<Entry>, order: seq<string>, ps: seq<Permission>) {
    |es| == |order| && forall i :: 0 <= i < |es| ==> es[i] == Entry(order[i], MergeAll(Asked(ps, es[i].area)))
  }

  lemma AddKnownArea(es: seq<Entry>, order: seq<string>, ps: seq<Permission>, p: Permission)
    requires Tabulates(es, order, ps) && Distinct(order) && p.area in order
    ensures Tabulates(Add(es, p), order, ps + [p])
  {
    var i :| 0 <= i < |order| && order[i] == p.area;
    assert es[i].area == p.area;
    var at := Index(es, p.area);
    assert at == i;
    var r := Add(es, p);
    forall j | 0 <= j < |r| ensures r[j] == Entry(order[j], MergeAll(Asked(ps + [p], r[j].area))) {
      AskedMore(ps, p, order[j]);
    }
  }

  lemma AddNewArea(es: seq<Entry>, order: seq<string>, ps: seq<Permission>, p: Permission)
    requires Tabulates(es, order, ps) && p.area !in order && Asked(ps, p.area) == []
    ensures Tabulates(Add(es, p), order + [p.area], ps + [p])
  {
    assert forall i :: 0 <= i < |es| ==> es[i].area == order[i] != p.area;
    assert Index(es, p.area) == |es|;
    var r := Add(es, p);
    forall j | 0 <= j < |r| ensures r[j] == Entry((order + [p.area])[j], MergeAll(Asked(ps + [p], r[j].area))) {
      AskedMore(ps, p, r[j].area);
    }
  }

  /** One entry an area, and no action twice in an entry. */
  ghost predicate Tidy(entries: seq<Entry>) {
    && (forall i, j :: 0 <= i < j < |entries| ==> entries[i].area != entries[j].area)
    && (forall i :: 0 <= i < |entries| ==> Distinct(entries[i].actions))
  }

  lemma {:induction false} FoldIsTidy(ps: seq<Permission>)
    ensures Tidy(Fold(ps))
  {
    if ps != [] {
      FoldIsTidy(ps[..|ps| - 1]);
      AddIsTidy(Fold(ps[..|ps| - 1]), ps[|ps| - 1]);
    }
  }

  lemma AddIsTidy(es: seq<Entry>, p: Permission)
    requires Tidy(es)
    ensures Tidy(Add(es, p))
  {
    var at := Index(es, p.area);
    if at < |es| {
      assert Distinct(es[at].actions);
      assert Distinct(Merge(es[at].actions, p.action));
    }
  }

  /**
   The order-aware reading of a permission list: a base action is granted by itself or by "*", wherever they
   stand; a custom action only when it stands after every "*" of its area.
   */
  predicate Grants(ps: seq<Permission>, area: string, action: string) {
    exists i :: 0 <= i < |ps| && ps[i].area == area
                && if action in WILD then ps[i].action == action || ps[i].action == STAR
                   else ps[i].action == action && forall j :: i < j < |ps| ==> !IsStar(ps[j], area)
  }

  predicate IsStar(p: Permission, area: string) {
    p.area == area && p.action == STAR
  }

  function AfterOne(granted: bool, p: Permission, area: string, action: string): bool {
    if p.area != area then granted
    else if p.action == STAR then action in WILD
    else granted || p.action == action
  }

  lemma AddGrants(es: seq<Entry>, p: Permission, area: string, action: string)
    requires Tidy(es)
    ensures Granted(Add(es, p), area, action) == AfterOne(Granted(es, area, action), p, area, action)
  {
    var at, r := Index(es, p.area), Add(es, p);
    if at < |es| {
      assert forall i :: 0 <= i < |es| && i != at ==> es[i].area != p.area;
      assert forall i :: 0 <= i < |es| && i != at ==> r[i] == es[i];
      assert r[at].area == p.area && (action in r[at].actions) == AfterOne(action in es[at].actions, p, p.area, action);
    } else {
      assert forall i :: 0 <= i < |es| ==> r[i] == es[i];
      assert r[at].area == p.area;
      assert area == p.area ==> !Granted(es, area, action);
    }
  }

  lemma GrantsMore(ps: seq<Permission>, p: Permission, area: string, action: string)
    ensures Grants(ps + [p], area, action) == AfterOne(Grants(ps, area, action), p, area, action)
  {
    var all := ps + [p];
    assert forall i :: 0 <= i < |ps| ==> all[i] == ps[i];
    if Grants(ps, area, action) {
      var i :| 0 <= i < |ps| && ps[i].area == area
               && if action in WILD then ps[i].action == action || ps[i].action == STAR
                  else ps[i].action == action && forall j :: i < j < |ps| ==> !IsStar(ps[j], area);
      assert all[i] == ps[i];
    }
    if p.area == area {
      assert all[|ps|] == p;
    }
  }

  lemma {:induction false} FoldMeans(ps: seq<Permission>, area: string, action: string)
    ensures Granted(Fold(ps), area, action) == Grants(ps, area, action)
  {
    if ps != [] {
      var init, p := ps[..|ps| - 1], ps[|ps| - 1];
      FoldMeans(init, area, action);
      FoldIsTidy(init);
      AddGrants(Fold(init), p, area, action);
      GrantsMore(init, p, area, action);
      assert ps == init + [p];
    }
  }

  /** The order, and repetition, of permissions does not matter to base actions. */
  lemma BaseGrantsIgnoreOrder(ps: seq<Permission>, qs: seq<Permission>, area: string, action: string)
    requires action in WILD && forall p :: p in ps <==> p in qs
    ensures Granted(Fold(ps), area, action) == Granted(Fold(qs), area, action)
  {
    FoldMeans(ps, area, action);
    FoldMeans(qs, area, action);
    BaseSubset(ps, qs, area, action);
    BaseSubset(qs, ps, area, action);
  }

  lemma BaseSubset(ps: seq<Permission>, qs: seq<Permission>, area: string, action: string)
    requires action in WILD && forall p :: p in ps ==> p in qs
    ensures Grants(ps, area, action) ==> Grants(qs, area, action)
  {
    if Grants(ps, area, action) {
      var i :| 0 <= i < |ps| && ps[i].area == area && (ps[i].action == action || ps[i].action == STAR);
      assert ps[i] in qs;
    }
  }

  lemma {:induction false} PassingMeans(gate: Gate, ps: seq<Permission>)
    ensures forall p :: p in Passing(gate, ps) <==> p in ps && Allowed(gate, p)
  {
    if ps != [] {
      PassingMeans(gate, ps[..|ps| - 1]);
      assert ps == ps[..|ps| - 1] + [ps[|ps| - 1]];
    }
  }

  /** The gate can only take base actions away. */
  lemma GateShrinksBase(gate: Gate, ps: seq<Permission>, area: string, action: string)
    requires action in WILD
    ensures Granted(Fold(Passing(gate, ps)), area, action) ==> Granted(Fold(ps), area, action)
  {
    FoldMeans(ps, area, action);
    FoldMeans(Passing(gate, ps), area, action);
    PassingMeans(gate, ps);
    BaseSubset(Passing(gate, ps), ps, area, action);
  }

  /** The gate cannot add what the ungated permissions do not grant. */
  ghost predicate OnlyShrinks(gate: Gate, ps: seq<Permission>) {
    forall area, action :: Granted(Fold(Passing(gate, ps)), area, action) ==> Granted(Fold(ps), area, action)
  }

  /** The gate stops a "*" but lets a custom action of the same area through. */
  predicate Splits(gate: Gate, star: Permission, custom: Permission) {
    star.action == STAR && custom.action !in WILD && star.area == custom.area
    && !Allowed(gate, star) && Allowed(gate, custom)
  }

  lemma SplitGateGrants(gate: Gate, star: Permission, custom: Permission)
    requires Splits(gate, star, custom)
    ensures !OnlyShrinks(gate, [custom, star])
  {
    var ps := [custom, star];
    assert ps[..1] == [custom] && [custom][..0] == [];
    assert Passing(gate, ps) == Passing(gate, [custom]) + [] == [custom];
    var area, action := custom.area, custom.action;
    FoldMeans(ps, area, action);
    FoldMeans([custom], area, action);
    assert [custom][0].action == action;
    assert IsStar(ps[1], area);
    assert Granted(Fold(Passing(gate, ps)), area, action);
  }

  lemma GrantedCustom(gate: Gate, ps: seq<Permission>, area: string, action: string) returns (q: Permission)
    requires action !in WILD && Grants(Passing(gate, ps), area, action)
    ensures q in ps && Allowed(gate, q) && q.area == area && q.action == action
  {
    PassingMeans(gate, ps);
    var kept := Passing(gate, ps);
    var i :| 0 <= i < |kept| && kept[i].area == area && kept[i].action == action;
    q := kept[i];
    assert q in kept;
  }

  ghost predicate Unsplit(gate: Gate, ps: seq<Permission>) {
    forall p, q :: p in ps && q in ps ==> !Splits(gate, p, q)
  }

  lemma UnsplitStep(gate: Gate, init: seq<Permission>, p: Permission, area: string, action: string)
    requires action !in WILD && (IsStar(p, area) ==> Allowed(gate, p))
    requires Grants(Passing(gate, init), area, action) ==> Grants(init, area, action)
    ensures Grants(Passing(gate, init + [p]), area, action) ==> Grants(init + [p], area, action)
  {
    PassingMore(gate, init, p);
    GrantsMore(init, p, area, action);
    if Allowed(gate, p) {
      GrantsMore(Passing(gate, init), p, area, action);
    }
  }

  lemma {:induction false} UnsplitPassing(gate: Gate, ps: seq<Permission>, area: string, action: string)
    requires action !in WILD && forall p :: p in ps && IsStar(p, area) ==> Allowed(gate, p)
    ensures Grants(Passing(gate, ps), area, action) ==> Grants(ps, area, action)
  {
    if ps != [] {
      var init, p := ps[..|ps| - 1], ps[|ps| - 1];
      UnsplitPassing(gate, init, area, action);
      UnsplitStep(gate, init, p, area, action);
      assert ps == init + [p];
    }
  }

  /**
   When the package gate is a ceiling: for permissions drawn from a catalogue the gate never adds a grant
   exactly when it stops no "*" while letting a custom action of the same area through.
   */
  lemma GateIsCeilingIff(gate: Gate, catalogue: set<Permission>)
    ensures (forall ps: seq<Permission> :: (forall p :: p in ps ==> p in catalogue) ==> OnlyShrinks(gate, ps))
            <==> (forall p, q :: p in catalogue && q in catalogue ==> !Splits(gate, p, q))
  {
    if p, q :| p in catalogue && q in catalogue && Splits(gate, p, q) {
      SplitGateGrants(gate, p, q);
      assert forall x :: x in [q, p] ==> x in catalogue;
    } else {
      forall ps: seq<Permission> | forall p :: p in ps ==> p in catalogue
        ensures OnlyShrinks(gate, ps)
      {
        assert Unsplit(gate, ps);
        UnsplitShrinks(gate, ps);
      }
    }
  }

  lemma UnsplitShrinks(gate: Gate, ps: seq<Permission>)
    requires Unsplit(gate, ps)
    ensures OnlyShrinks(gate, ps)
  {
    forall area, action | Granted(Fold(Passing(gate, ps)), area, action) ensures Granted(Fold(ps), area, action) {
      if action in WILD {
        GateShrinksBase(gate, ps, area, action);
      } else {
        FoldMeans(ps, area, action);
        FoldMeans(Passing(gate, ps), area, action);
        var q := GrantedCustom(gate, ps, area, action);
        assert forall p :: p in ps ==> !Splits(gate, p, q);
        UnsplitPassing(gate, ps, area, action);
      }
    }
  }

  // ---------- check_user_permission ----------

  const ADMIN := "admin"

  /** The scan over the token's entries, with its early returns. */
  method CheckUserPermission(entries: seq<Entry>, area: string, action: Option<string>) returns (yes: bool)
    ensures yes == exists i :: 0 <= i < |entries| && Answers(entries[i], area, action)
  {
    for i := 0 to |entries|
      invariant forall j :: 0 <= j < i ==> !Answers(entries[j], area, action)
    {
      if entries[i].area == ADMIN {
        return true;
      }
      if entries[i].area == area {
        if action.None? {
          return true;
        }
        if action.value in entries[i].actions {
          return true;
        }
      }
    }
    return false;
  }

  predicate HasArea(entries: seq<Entry>, area: string) {
    exists i :: 0 <= i < |entries| && entries[i].area == area
  }

  predicate Answers(e: Entry, area: string, action: Option<string>) {
    e.area == ADMIN || (e.area == area && (action.None? || action.value in e.actions))
  }

  /** Over a resolved list: yes iff some "admin" permission was seen, or the reading grants what is asked. */
  lemma CheckMeans(ps: seq<Permission>, area: string, action: Option<string>)
    ensures (exists i :: 0 <= i < |Fold(ps)| && Answers(Fold(ps)[i], area, action))
            <==> (exists p :: p in ps && p.area == ADMIN)
                 || (if action.None? then exists p :: p in ps && p.area == area else Grants(ps, area, action.value))
  {
    HasEntry(ps, ADMIN);
    HasEntry(ps, area);
    if action.Some? {
      FoldMeans(ps, area, action.value);
    }
    var es := Fold(ps);
    if i :| 0 <= i < |es| && es[i].area == ADMIN {
      assert Answers(es[i], area, action);
    }
    if i :| 0 <= i < |es| && es[i].area == area && (action.None? || action.value in es[i].actions) {
      assert Answers(es[i], area, action);
    }
    assert action.Some? ==> (Granted(es, area, action.value)
                             <==> exists i :: 0 <= i < |es| && es[i].area == area && action.value in es[i].actions);
  }

  lemma AddLists(es: seq<Entry>, p: Permission, area: string)
    ensures HasArea(Add(es, p), area) <==> HasArea(es, area) || p.area == area
  {
    var at, r := Index(es, p.area), Add(es, p);
    assert r[at].area == p.area && forall i :: 0 <= i < |es| ==> r[i].area == es[i].area;
  }

  lemma {:induction false} HasEntry(ps: seq<Permission>, area: string)
    ensures HasArea(Fold(ps), area) <==> exists p :: p in ps && p.area == area
  {
    if ps != [] {
      var init, last := ps[..|ps| - 1], ps[|ps| - 1];
      HasEntry(init, area);
      AddLists(Fold(init), last, area);
      assert ps == init + [last];
      assert last.area == area ==> last in ps;
    }
  }
}
