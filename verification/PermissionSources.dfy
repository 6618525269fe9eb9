/**
 Where a resolver's permissions come from: told by the roles, policies and package as they are given, which
 permissions are collected, in which order, and what is granted in the end.
 */
module PermissionSources {
  import opened Common
  import opened Permissions

  // A permission's place: the role, the policy in it and the permission in that.
  datatype Place = Place(role: nat, policy: nat, index: nat)

  // A place and the permission that stands there.
  datatype Spot = Spot(place: Place, permission: Permission)

  predicate Before(p: Place, q: Place) {
    p.role < q.role || (p.role == q.role && (p.policy < q.policy || (p.policy == q.policy && p.index < q.index)))
  }

  /** An active role that is the scope's own or a system role; without a scope any active role. */
  predicate RoleCounts(r: Role, scope: Option<string>) {
    r.active && (scope == None || scope == Some(r.tenant) || r.system)
  }

  predicate Stands(roles: seq<Role>, p: Place) {
    p.role < |roles| && p.policy < |roles[p.role].policies| && p.index < |roles[p.role].policies[p.policy].permissions|
  }

  /** The permission stands in a role that counts, and the package, if there is one, has it. */
  predicate Counts(roles: seq<Role>, scope: Option<string>, gate: Gate, s: Spot) {
    && Stands(roles, s.place)
    && s.permission == roles[s.place.role].policies[s.place.policy].permissions[s.place.index]
    && RoleCounts(roles[s.place.role], scope) && (gate == None || s.permission.id in gate.value)
  }

  // ---------- The places in order ----------

  function PolicySpots(gate: Gate, i: nat, j: nat, ps: seq<Permission>): seq<Spot> {
    if ps == [] then [] else
      var n := |ps| - 1;
      PolicySpots(gate, i, j, ps[..n]) + if Allowed(gate, ps[n]) then [Spot(Place(i, j, n), ps[n])] else []
  }

  function RoleSpots(gate: Gate, i: nat, policies: seq<Policy>): seq<Spot> {
    if policies == [] then [] else
      var n := |policies| - 1;
      RoleSpots(gate, i, policies[..n]) + PolicySpots(gate, i, n, policies[n].permissions)
  }

  function Spots(roles: seq<Role>, scope: Option<string>, gate: Gate): seq<Spot> {
    if roles == [] then [] else
      var n := |roles| - 1;
      Spots(roles[..n], scope, gate) + if Usable(roles[n], scope) then RoleSpots(gate, n, roles[n].policies) else []
  }

  function Listed(spots: seq<Spot>): seq<Permission> {
    seq(|spots|, i requires 0 <= i < |spots| => spots[i].permission)
  }

  predicate InOrder(spots: seq<Spot>) {
    forall a, b :: 0 <= a < b < |spots| ==> Before(spots[a].place, spots[b].place)
  }

  lemma ListedJoined(a: seq<Spot>, b: seq<Spot>)
    ensures Listed(a + b) == Listed(a) + Listed(b)
  {
  }

  lemma InOrderJoined(a: seq<Spot>, b: seq<Spot>)
    requires InOrder(a) && InOrder(b) && forall s, t :: s in a && t in b ==> Before(s.place, t.place)
    ensures InOrder(a + b)
  {
    var all := a + b;
    forall i, j | 0 <= i < j < |all| ensures Before(all[i].place, all[j].place) {
      if i < |a| <= j {
        assert all[i] in a && all[j] in b;
      }
    }
  }

  lemma {:induction false} PassingJoined(gate: Gate, a: seq<Permission>, b: seq<Permission>)
    ensures Passing(gate, a + b) == Passing(gate, a) + Passing(gate, b)
  {
    if b == [] {
      assert a + b == a;
    } else {
      var init, last := b[..|b| - 1], b[|b| - 1];
      PassingJoined(gate, a, init);
      PassingLast(gate, a, init, last);
      LastRegrouped(a, b);
    }
  }

  lemma LastRegrouped(a: seq<Permission>, b: seq<Permission>)
    requires b != []
    ensures a + b[..|b| - 1] + [b[|b| - 1]] == a + b && b[..|b| - 1] + [b[|b| - 1]] == b
  {
  }

  lemma PassingLast(gate: Gate, a: seq<Permission>, b: seq<Permission>, p: Permission)
    requires Passing(gate, a + b) == Passing(gate, a) + Passing(gate, b)
    ensures Passing(gate, a + b + [p]) == Passing(gate, a) + Passing(gate, b + [p])
  {
    PassingMore(gate, a + b, p);
    PassingMore(gate, b, p);
    if Allowed(gate, p) {
      Regroup(Passing(gate, a), Passing(gate, b), p);
    }
  }

  lemma Regroup(a: seq<Permission>, b: seq<Permission>, p: Permission)
    ensures a + b + [p] == a + (b + [p])
  {
  }

  lemma {:induction false} PolicySpotsAre(gate: Gate, i: nat, j: nat, ps: seq<Permission>)
    ensures var spots := PolicySpots(gate, i, j, ps);
            && Listed(spots) == Passing(gate, ps) && InOrder(spots)
            && forall s :: s in spots <==>
                             && s.place.role == i && s.place.policy == j && s.place.index < |ps|
                             && s.permission == ps[s.place.index] && Allowed(gate, s.permission)
  {
    if ps != [] {
      var n := |ps| - 1;
      PolicySpotsAre(gate, i, j, ps[..n]);
      var last := if Allowed(gate, ps[n]) then [Spot(Place(i, j, n), ps[n])] else [];
      ListedJoined(PolicySpots(gate, i, j, ps[..n]), last);
      InOrderJoined(PolicySpots(gate, i, j, ps[..n]), last);
    }
  }

  lemma {:induction false} RoleSpotsAre(gate: Gate, i: nat, policies: seq<Policy>)
    ensures var spots := RoleSpots(gate, i, policies);
            && Listed(spots) == Passing(gate, InPolicies(policies)) && InOrder(spots)
            && forall s :: s in spots <==>
                             && s.place.role == i && s.place.policy < |policies|
                             && s.place.index < |policies[s.place.policy].permissions|
                             && s.permission == policies[s.place.policy].permissions[s.place.index]
                             && Allowed(gate, s.permission)
  {
    if policies != [] {
      var n := |policies| - 1;
      var a, b := RoleSpots(gate, i, policies[..n]), PolicySpots(gate, i, n, policies[n].permissions);
      RoleSpotsAre(gate, i, policies[..n]);
      PolicySpotsAre(gate, i, n, policies[n].permissions);
      PassingJoined(gate, InPolicies(policies[..n]), policies[n].permissions);
      ListedJoined(a, b);
      InOrderJoined(a, b);
    }
  }

  /** The collected permissions are those that count, in the order of role, policy and permission. */
  lemma {:induction false} CollectedExactly(roles: seq<Role>, scope: Option<string>, gate: Gate)
    ensures var spots := Spots(roles, scope, gate);
            && Passing(gate, InRoles(roles, scope)) == Listed(spots) && InOrder(spots)
            && forall s :: s in spots <==> Counts(roles, scope, gate, s)
  {
    if roles != [] {
      var n := |roles| - 1;
      CollectedExactly(roles[..n], scope, gate);
      RoleSpotsAre(gate, n, roles[n].policies);
      var a := Spots(roles[..n], scope, gate);
      var b := if Usable(roles[n], scope) then RoleSpots(gate, n, roles[n].policies) else [];
      var added := if Usable(roles[n], scope) then InPolicies(roles[n].policies) else [];
      PassingJoined(gate, InRoles(roles[..n], scope), added);
      ListedJoined(a, b);
      InOrderJoined(a, b);
      forall s ensures s in a + b <==> Counts(roles, scope, gate, s) {
        CountsInLast(roles, scope, gate, s);
      }
    }
  }

  lemma CountsInLast(roles: seq<Role>, scope: Option<string>, gate: Gate, s: Spot)
    requires roles != []
    ensures var n := |roles| - 1;
            Counts(roles, scope, gate, s) <==>
              if s.place.role == n then
                && Stands(roles, s.place) && Usable(roles[n], scope) && Allowed(gate, s.permission)
                && s.permission == roles[n].policies[s.place.policy].permissions[s.place.index]
              else Counts(roles[..n], scope, gate, s)
  {
  }

  // ---------- What is granted ----------

  predicate IsBase(action: string) {
    action in ["create", "read", "update", "delete", "*"]
  }

  /** A spot that grants the action: by itself, for a base action also by "*", and for another with no later "*". */
  ghost predicate Grantor(roles: seq<Role>, scope: Option<string>, gate: Gate, area: string, action: string, s: Spot) {
    && Counts(roles, scope, gate, s) && s.permission.area == area
    && if IsBase(action) then s.permission.action == action || s.permission.action == "*"
       else s.permission.action == action
            && forall t :: Counts(roles, scope, gate, t) && Before(s.place, t.place) && t.permission.area == area
                           ==> t.permission.action != "*"
  }

  /** Over the roles as given: a resolver grants an action exactly if some permission that counts grants it. */
  lemma ResolverGrantsIff(roles: seq<Role>, scope: Option<string>, gate: Gate, area: string, action: string)
    ensures Granted(Fold(Passing(gate, InRoles(roles, scope))), area, action)
            <==> exists s :: Grantor(roles, scope, gate, area, action, s)
  {
    CollectedExactly(roles, scope, gate);
    var spots := Spots(roles, scope, gate);
    var ps := Listed(spots);
    FoldMeans(ps, area, action);
    if Grants(ps, area, action) {
      var i :| 0 <= i < |ps| && ps[i].area == area
               && if action in WILD then ps[i].action == action || ps[i].action == STAR
                  else ps[i].action == action && forall j :: i < j < |ps| ==> !IsStar(ps[j], area);
      GrantorFound(roles, scope, gate, area, action, spots, i);
    }
    if s :| Grantor(roles, scope, gate, area, action, s) {
      var i :| 0 <= i < |spots| && spots[i] == s;
      GrantorCounts(roles, scope, gate, area, action, spots, i);
    }
  }

  predicate GrantsAt(ps: seq<Permission>, area: string, action: string, i: nat)
    requires i < |ps|
  {
    && ps[i].area == area
    && if action in WILD then ps[i].action == action || ps[i].action == STAR
       else ps[i].action == action && forall j :: i < j < |ps| ==> !IsStar(ps[j], area)
  }

  lemma OrderReflects(spots: seq<Spot>, i: nat, j: nat)
    requires InOrder(spots) && i < |spots| && j < |spots| && Before(spots[i].place, spots[j].place)
    ensures i < j
  {
  }

  lemma GrantorFound(roles: seq<Role>, scope: Option<string>, gate: Gate, area: string, action: string,
                     spots: seq<Spot>, i: nat)
    requires InOrder(spots) && forall s :: s in spots <==> Counts(roles, scope, gate, s)
    requires i < |spots| && GrantsAt(Listed(spots), area, action, i)
    ensures Grantor(roles, scope, gate, area, action, spots[i])
  {
    assert spots[i] in spots;
    forall t | Counts(roles, scope, gate, t) && Before(spots[i].place, t.place) && t.permission.area == area
               && !IsBase(action)
      ensures t.permission.action != "*"
    {
      var j :| 0 <= j < |spots| && spots[j] == t;
      OrderReflects(spots, i, j);
      assert !IsStar(Listed(spots)[j], area);
    }
  }

  lemma GrantorCounts(roles: seq<Role>, scope: Option<string>, gate: Gate, area: string, action: string,
                      spots: seq<Spot>, i: nat)
    requires InOrder(spots) && forall s :: s in spots <==> Counts(roles, scope, gate, s)
    requires i < |spots| && Grantor(roles, scope, gate, area, action, spots[i])
    ensures Grants(Listed(spots), area, action)
  {
    var ps := Listed(spots);
    forall j | i < j < |ps| && !IsBase(action) ensures !IsStar(ps[j], area) {
      assert spots[j] in spots && Before(spots[i].place, spots[j].place);
    }
    assert GrantsAt(ps, area, action, i);
    assert ps[i].area == area;
  }

  // ---------- Names ----------

  /** The names are those of the roles that count, in their order. */
  lemma {:induction false} NamesExactly(roles: seq<Role>, scope: Option<string>) returns (at: seq<nat>)
    ensures |at| == |NamesOf(roles, scope)| && forall n, m :: 0 <= n < m < |at| ==> at[n] < at[m]
    ensures forall n :: 0 <= n < |at| ==> at[n] < |roles| && NamesOf(roles, scope)[n] == roles[at[n]].name
    ensures forall i :: i in at <==> 0 <= i < |roles| && RoleCounts(roles[i], scope)
  {
    if roles == [] {
      at := [];
    } else {
      var n := |roles| - 1;
      at := NamesExactly(roles[..n], scope);
      if Usable(roles[n], scope) {
        at := at + [n];
      }
    }
  }

  // ---------- The check over a resolver's list ----------

  /** The check on a resolved list, over the roles as given. */
  lemma CheckedIff(roles: seq<Role>, scope: Option<string>, gate: Gate, area: string, action: Option<string>)
    ensures (exists i :: 0 <= i < |Fold(Passing(gate, InRoles(roles, scope)))|
                         && Answers(Fold(Passing(gate, InRoles(roles, scope)))[i], area, action))
            <==> || (exists s :: Counts(roles, scope, gate, s) && s.permission.area == "admin")
                 || if action == None then exists s :: Counts(roles, scope, gate, s) && s.permission.area == area
                    else exists s :: Grantor(roles, scope, gate, area, action.value, s)
  {
    var ps := Passing(gate, InRoles(roles, scope));
    CheckMeans(ps, area, action);
    CollectedExactly(roles, scope, gate);
    AreaCounts(roles, scope, gate, "admin");
    AreaCounts(roles, scope, gate, area);
    if action.Some? {
      ResolverGrantsIff(roles, scope, gate, area, action.value);
      FoldMeans(ps, area, action.value);
    }
  }

  lemma AreaCounts(roles: seq<Role>, scope: Option<string>, gate: Gate, area: string)
    ensures (exists p :: p in Passing(gate, InRoles(roles, scope)) && p.area == area)
            <==> exists s :: Counts(roles, scope, gate, s) && s.permission.area == area
  {
    CollectedExactly(roles, scope, gate);
    var spots := Spots(roles, scope, gate);
    if p :| p in Listed(spots) && p.area == area {
      var i :| 0 <= i < |spots| && Listed(spots)[i] == p;
      assert spots[i] in spots;
    }
    if s :| s in spots && s.permission.area == area {
      var i :| 0 <= i < |spots| && spots[i] == s;
      assert Listed(spots)[i] == s.permission;
    }
  }

  /** The entries stand in the order in which their modules are first collected. */
  lemma EntriesInOrder(ps: seq<Permission>, i: nat, j: nat)
    requires i < j < |Fold(ps)|
    ensures FirstAt(Areas(ps), Fold(ps)[i].area) < FirstAt(Areas(ps), Fold(ps)[j].area) < |ps|
  {
    FoldIsByArea(ps);
    UniqueKeepsOrder(Areas(ps));
    UniqueMeans(Areas(ps));
    AreasLength(ps);
    assert Unique(Areas(ps))[j] in Unique(Areas(ps));
  }

  lemma {:induction false} AreasLength(ps: seq<Permission>)
    ensures |Areas(ps)| == |ps| && forall i :: 0 <= i < |ps| ==> Areas(ps)[i] == ps[i].area
  {
    if ps != [] { AreasLength(ps[..|ps| - 1]); }
  }
}
