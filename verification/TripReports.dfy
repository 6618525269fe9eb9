/** Read-only views of the trip tables: the history report's summary and the hub groups of a nodal route. */
module TripReports {
  import opened Common
  import opened Trips
  import opened TripSafety

  // ---------- History report ----------

  /** The joined rows the report lists: stops of the driver's closed routes, booked in the date range. */
  function ReportRows(s: Db, tenant: string, driver: int, first: int, last: int): set<Key> {
    set k | k in s.stops && k.booking in s.bookings && AssignedTo(s, tenant, driver, k.route)
            && s.routes[k.route].status == Closed && first <= s.bookings[k.booking].date <= last
  }

  function CountStatus(s: Db, rows: set<Key>, st: BookingStatus): nat
    requires forall k :: k in rows ==> k.booking in s.bookings
  {
    |set k | k in rows && StatusAt(s, k) == st|
  }

  lemma RowIsFinal(s: Db, tenant: string, driver: int, first: int, last: int, k: Key)
    requires Inv(s) && k in ReportRows(s, tenant, driver, first, last)
    ensures StatusAt(s, k) in {Completed, NoShow, Cancelled}
  {
    assert k in StopsOf(s, k.route);
  }

  lemma ThreeKindsAddUp(s: Db, rows: set<Key>)
    requires forall k :: k in rows ==> k.booking in s.bookings && StatusAt(s, k) in {Completed, NoShow, Cancelled}
    ensures CountStatus(s, rows, Completed) + CountStatus(s, rows, NoShow) + CountStatus(s, rows, Cancelled) == |rows|
  {
    var done := set k | k in rows && StatusAt(s, k) == Completed;
    var missed := set k | k in rows && StatusAt(s, k) == NoShow;
    var off := set k | k in rows && StatusAt(s, k) == Cancelled;
    assert rows == done + missed + off;
    assert |done + missed| == |done| + |missed|;
    assert |done + missed + off| == |done + missed| + |off|;
  }

  /** In every reachable state the report's three counts add up to its number of bookings. */
  lemma SummaryAddsUp(s: Db, tenant: string, driver: int, first: int, last: int)
    requires Reachable(s)
    ensures var rows := ReportRows(s, tenant, driver, first, last);
            CountStatus(s, rows, Completed) + CountStatus(s, rows, NoShow) + CountStatus(s, rows, Cancelled) == |rows|
  {
    ReachableInv(s);
    forall k | k in ReportRows(s, tenant, driver, first, last)
      ensures StatusAt(s, k) in {Completed, NoShow, Cancelled}
    {
      RowIsFinal(s, tenant, driver, first, last, k);
    }
    ThreeKindsAddUp(s, ReportRows(s, tenant, driver, first, last));
  }

  // ---------- Hub groups ----------

  datatype Rider = Rider(booking: int, hub: Option<int>, order: int, status: BookingStatus)

  datatype Hub = Hub(id: int) | Unassigned

  /** A missing or zero nodal point goes to the "unassigned" group. */
  function HubOf(r: Rider): Hub {
    if Truthy(r.hub) then Hub(r.hub.value) else Unassigned
  }

  const UNASSIGNED_RANK := 9999999

  function Rank(h: Hub): int {
    if h.Hub? then h.id else UNASSIGNED_RANK
  }

  function At(riders: seq<Rider>, h: Hub): seq<Rider> {
    if riders == [] then [] else
      var init, last := riders[..|riders| - 1], riders[|riders| - 1];
      At(init, h) + if HubOf(last) == h then [last] else []
  }

  /** The dictionary of lists `f`: a list for every hub that has one, and the keys as first seen. */
  ghost predicate Maps(f: Hub -> seq<Rider>, keys: seq<Hub>, grouped: map<Hub, seq<Rider>>) {
    && Distinct(keys) && grouped.Keys == (set h | h in keys)
    && (forall h :: h in grouped ==> grouped[h] == f(h) && f(h) != [])
    && (forall h :: h !in grouped ==> f(h) == [])
  }

  ghost predicate Grouped(riders: seq<Rider>, keys: seq<Hub>, grouped: map<Hub, seq<Rider>>) {
    Maps(h => At(riders, h), keys, grouped)
  }

  lemma MapsKnown(f: Hub -> seq<Rider>, g: Hub -> seq<Rider>, keys: seq<Hub>, grouped: map<Hub, seq<Rider>>,
                  hub: Hub, r: Rider)
    requires Maps(f, keys, grouped) && hub in grouped
    requires g(hub) == f(hub) + [r] && forall h :: h != hub ==> g(h) == f(h)
    ensures Maps(g, keys, grouped[hub := grouped[hub] + [r]])
  {
  }

  lemma MapsNew(f: Hub -> seq<Rider>, g: Hub -> seq<Rider>, keys: seq<Hub>, grouped: map<Hub, seq<Rider>>,
                hub: Hub, r: Rider)
    requires Maps(f, keys, grouped) && hub !in grouped
    requires g(hub) == [r] && forall h :: h != hub ==> g(h) == f(h)
    ensures Maps(g, keys + [hub], grouped[hub := [r]])
  {
  }

  lemma GroupedMore(riders: seq<Rider>, keys: seq<Hub>, grouped: map<Hub, seq<Rider>>, r: Rider)
    requires Grouped(riders, keys, grouped)
    ensures HubOf(r) in grouped ==> Grouped(riders + [r], keys, grouped[HubOf(r) := grouped[HubOf(r)] + [r]])
    ensures HubOf(r) !in grouped ==> Grouped(riders + [r], keys + [HubOf(r)], grouped[HubOf(r) := [r]])
  {
    var f, g := (h: Hub) => At(riders, h), (h: Hub) => At(riders + [r], h);
    forall h ensures g(h) == if h == HubOf(r) then f(h) + [r] else f(h) {
      AtAppend(riders, r, h);
    }
    if HubOf(r) in grouped {
      MapsKnown(f, g, keys, grouped, HubOf(r), r);
    } else {
      assert f(HubOf(r)) + [r] == [r];
      MapsNew(f, g, keys, grouped, HubOf(r), r);
    }
  }

  lemma GroupedMeans(riders: seq<Rider>, keys: seq<Hub>, grouped: map<Hub, seq<Rider>>)
    requires Grouped(riders, keys, grouped)
    ensures Distinct(keys) && grouped.Keys == set h | h in keys
    ensures forall h :: h in grouped ==> grouped[h] == At(riders, h) && grouped[h] != []
    ensures forall r :: r in riders ==> HubOf(r) in keys
  {
    var f := (h: Hub) => At(riders, h);
    assert Maps(f, keys, grouped);
    forall h ensures h in grouped ==> grouped[h] == At(riders, h) {
      assert f(h) == At(riders, h);
    }
    forall r | r in riders ensures HubOf(r) in keys {
      AtHub(riders, HubOf(r));
      assert f(HubOf(r)) == At(riders, HubOf(r)) && r in f(HubOf(r));
    }
  }

  /** The grouping loop: a dictionary of lists, and its keys in first-seen order. */
  method GroupByHub(riders: seq<Rider>) returns (keys: seq<Hub>, grouped: map<Hub, seq<Rider>>)
    ensures Distinct(keys) && grouped.Keys == set h | h in keys
    ensures forall h :: h in grouped ==> grouped[h] == At(riders, h) && grouped[h] != []
    ensures forall r :: r in riders ==> HubOf(r) in keys
  {
    keys, grouped := [], map[];
    for i := 0 to |riders|
      invariant Grouped(riders[..i], keys, grouped)
    {
      var r := riders[i];
      assert riders[..i + 1] == riders[..i] + [r];
      GroupedMore(riders[..i], keys, grouped, r);
      if HubOf(r) in grouped {
        grouped := grouped[HubOf(r) := grouped[HubOf(r)] + [r]];
      } else {
        keys, grouped := keys + [HubOf(r)], grouped[HubOf(r) := [r]];
      }
    }
    assert riders[..|riders|] == riders;
    GroupedMeans(riders, keys, grouped);
  }

  function InsertByRank(h: Hub, hs: seq<Hub>): seq<Hub> {
    if hs == [] || Rank(h) < Rank(hs[0]) then [h] + hs else [hs[0]] + InsertByRank(h, hs[1..])
  }

  /** A stable ascending sort by rank. */
  function SortByRank(hs: seq<Hub>): seq<Hub> {
    if hs == [] then [] else InsertByRank(hs[|hs| - 1], SortByRank(hs[..|hs| - 1]))
  }

  predicate Ascending(hs: seq<Hub>) {
    forall i, j :: 0 <= i < j < |hs| ==> Rank(hs[i]) <= Rank(hs[j])
  }

  lemma FrontInOrder(h: Hub, hs: seq<Hub>)
    requires Ascending(hs) && Distinct(hs) && forall x :: x in hs ==> x != h && Rank(h) <= Rank(x)
    ensures Ascending([h] + hs) && Distinct([h] + hs)
  {
    forall i | 0 <= i < |hs| ensures hs[i] != h && Rank(h) <= Rank(hs[i]) {
      assert hs[i] in hs;
    }
  }

  lemma TailInOrder(hs: seq<Hub>)
    requires hs != [] && Ascending(hs) && Distinct(hs)
    ensures Ascending(hs[1..]) && Distinct(hs[1..])
    ensures hs[0] !in hs[1..] && forall x :: x in hs ==> Rank(hs[0]) <= Rank(x)
  {
  }

  lemma {:induction false} InsertByRankSorts(h: Hub, hs: seq<Hub>)
    requires Ascending(hs) && Distinct(hs) && h !in hs
    ensures var r := InsertByRank(h, hs); Ascending(r) && Distinct(r) && forall x :: x in r <==> x == h || x in hs
  {
    if hs != [] {
      TailInOrder(hs);
      if Rank(h) < Rank(hs[0]) {
        FrontInOrder(h, hs);
      } else {
        InsertByRankSorts(h, hs[1..]);
        assert hs == [hs[0]] + hs[1..];
        FrontInOrder(hs[0], InsertByRank(h, hs[1..]));
      }
    }
  }

  lemma {:induction false} SortByRankSorts(hs: seq<Hub>)
    requires Distinct(hs)
    ensures var r := SortByRank(hs); Ascending(r) && Distinct(r) && forall x :: x in r <==> x in hs
  {
    if hs != [] {
      SortByRankSorts(hs[..|hs| - 1]);
      InsertByRankSorts(hs[|hs| - 1], SortByRank(hs[..|hs| - 1]));
      assert hs == hs[..|hs| - 1] + [hs[|hs| - 1]];
    }
  }

  datatype HubGroup = HubGroup(hub: Hub, passengers: nat, boarded: nat, pending: nat, riders: seq<Rider>)

  function CountBoarded(riders: seq<Rider>): nat {
    if riders == [] then 0
    else (if riders[0].status == Ongoing then 1 else 0) + CountBoarded(riders[1..])
  }

  function CountPending(riders: seq<Rider>): nat {
    if riders == [] then 0
    else (if riders[0].status != Ongoing then 1 else 0) + CountPending(riders[1..])
  }

  lemma {:induction false} BoardedPlusPending(riders: seq<Rider>)
    ensures CountBoarded(riders) + CountPending(riders) == |riders|
  {
    if riders != [] { BoardedPlusPending(riders[1..]); }
  }

  function Flatten(groups: seq<HubGroup>): seq<Rider> {
    if groups == [] then [] else Flatten(groups[..|groups| - 1]) + groups[|groups| - 1].riders
  }

  function MakeGroup(h: Hub, list: seq<Rider>): (g: HubGroup)
    ensures g.boarded + g.pending == g.passengers == |g.riders|
  {
    BoardedPlusPending(list);
    HubGroup(h, |list|, CountBoarded(list), CountPending(list), list)
  }

  /** Each group holds its hub's riders in route order, is not empty, and counts those aboard and those not. */
  ghost predicate Counted(riders: seq<Rider>, groups: seq<HubGroup>) {
    forall i :: 0 <= i < |groups| ==>
                  && groups[i].riders == At(riders, groups[i].hub) && groups[i].riders != []
                  && groups[i].boarded == CountBoarded(groups[i].riders)
                  && groups[i].boarded + groups[i].pending == groups[i].passengers == |groups[i].riders|
  }

  /** One group a hub, by ascending rank. */
  ghost predicate Ranked(groups: seq<HubGroup>) {
    forall i, j :: 0 <= i < j < |groups| ==>
                     groups[i].hub != groups[j].hub && Rank(groups[i].hub) <= Rank(groups[j].hub)
  }

  ghost predicate IdsBelowUnassigned(riders: seq<Rider>) {
    forall r :: r in riders && HubOf(r).Hub? ==> HubOf(r).id < UNASSIGNED_RANK
  }

  method HubGroups(riders: seq<Rider>) returns (groups: seq<HubGroup>)
    ensures Counted(riders, groups) && Ranked(groups)
    ensures multiset(Flatten(groups)) == multiset(riders)
    ensures IdsBelowUnassigned(riders) ==> forall i :: 0 <= i < |groups| - 1 ==> groups[i].hub != Unassigned
    ensures forall i, j :: 0 <= i < j < |groups| && groups[i].hub.Hub? && groups[j].hub.Hub?
                           ==> groups[i].hub.id < groups[j].hub.id
    ensures (forall r :: r in riders && r.hub.Some? ==> r.hub.value < 9999999) ==>
              forall i :: 0 <= i < |groups| - 1 ==> groups[i].hub != Unassigned
  {
    var keys, grouped := GroupByHub(riders);
    var sorted := SortByRank(keys);
    SortByRankSorts(keys);
    groups := BuildGroups(sorted, grouped);
    forall j | 0 <= j < |sorted| ensures groups[j] == MakeGroup(sorted[j], At(riders, sorted[j])) {
      assert sorted[j] in sorted;
    }
    GroupsAreRight(riders, sorted, groups);
  }

  /** The loop over the sorted keys. */
  method BuildGroups(sorted: seq<Hub>, grouped: map<Hub, seq<Rider>>) returns (groups: seq<HubGroup>)
    requires forall h :: h in sorted ==> h in grouped
    ensures |groups| == |sorted|
    ensures forall j :: 0 <= j < |sorted| ==> groups[j] == MakeGroup(sorted[j], grouped[sorted[j]])
  {
    groups := [];
    for i := 0 to |sorted|
      invariant |groups| == i
      invariant forall j :: 0 <= j < i ==> groups[j] == MakeGroup(sorted[j], grouped[sorted[j]])
    {
      groups := groups + [MakeGroup(sorted[i], grouped[sorted[i]])];
    }
  }

  lemma GroupsAreRight(riders: seq<Rider>, hubs: seq<Hub>, groups: seq<HubGroup>)
    requires Ascending(hubs) && Distinct(hubs) && forall h :: h in hubs ==> At(riders, h) != []
    requires forall r :: r in riders ==> HubOf(r) in hubs
    requires |groups| == |hubs| && forall j :: 0 <= j < |hubs| ==> groups[j] == MakeGroup(hubs[j], At(riders, hubs[j]))
    ensures Counted(riders, groups) && Ranked(groups)
    ensures multiset(Flatten(groups)) == multiset(riders)
    ensures IdsBelowUnassigned(riders) ==> forall i :: 0 <= i < |groups| - 1 ==> groups[i].hub != Unassigned
  {
    FlattenGroups(riders, hubs, groups);
    JoinIsPartition(riders, hubs);
    UnassignedLast(riders, hubs);
    GroupsAreRanked(riders, hubs, groups);
  }

  lemma GroupsAreRanked(riders: seq<Rider>, hubs: seq<Hub>, groups: seq<HubGroup>)
    requires Ascending(hubs) && Distinct(hubs) && forall h :: h in hubs ==> At(riders, h) != []
    requires |groups| == |hubs| && forall j :: 0 <= j < |hubs| ==> groups[j] == MakeGroup(hubs[j], At(riders, hubs[j]))
    ensures Counted(riders, groups) && Ranked(groups)
  {
    forall j | 0 <= j < |hubs| ensures At(riders, hubs[j]) != [] {
      assert hubs[j] in hubs;
    }
  }

  lemma {:induction false} FlattenGroups(riders: seq<Rider>, hubs: seq<Hub>, groups: seq<HubGroup>)
    requires |groups| == |hubs|
    requires forall j :: 0 <= j < |hubs| ==> groups[j].riders == At(riders, hubs[j])
    ensures Flatten(groups) == JoinAt(riders, hubs)
  {
    if hubs != [] { FlattenGroups(riders, hubs[..|hubs| - 1], groups[..|groups| - 1]); }
  }

  lemma {:induction false} AtHub(riders: seq<Rider>, h: Hub)
    ensures forall r :: r in At(riders, h) ==> r in riders && HubOf(r) == h
    ensures forall r :: r in riders && HubOf(r) == h ==> r in At(riders, h)
  {
    if riders != [] {
      AtHub(riders[..|riders| - 1], h);
      assert riders == riders[..|riders| - 1] + [riders[|riders| - 1]];
    }
  }

  lemma UnassignedLast(riders: seq<Rider>, hubs: seq<Hub>)
    requires Ascending(hubs) && Distinct(hubs) && forall h :: h in hubs ==> At(riders, h) != []
    ensures IdsBelowUnassigned(riders) ==> forall i :: 0 <= i < |hubs| - 1 ==> hubs[i] != Unassigned
  {
    if IdsBelowUnassigned(riders) {
      forall h | h in hubs && h.Hub? ensures Rank(h) < UNASSIGNED_RANK {
        AtHub(riders, h);
        assert At(riders, h)[0] in riders;
      }
      forall i | 0 <= i < |hubs| - 1 ensures hubs[i] != Unassigned {
        assert hubs[i + 1] in hubs && Rank(hubs[i]) <= Rank(hubs[i + 1]);
      }
    }
  }

  function JoinAt(riders: seq<Rider>, hubs: seq<Hub>): seq<Rider> {
    if hubs == [] then [] else JoinAt(riders, hubs[..|hubs| - 1]) + At(riders, hubs[|hubs| - 1])
  }

  lemma AtAppend(riders: seq<Rider>, r: Rider, h: Hub)
    ensures At(riders + [r], h) == At(riders, h) + if HubOf(r) == h then [r] else []
  {
    assert (riders + [r])[..|riders|] == riders;
  }

  function OneIf(c: bool, r: Rider): multiset<Rider> {
    if c then multiset{r} else multiset{}
  }

  lemma LastHub(hubs: seq<Hub>, h: Hub)
    requires hubs != [] && Distinct(hubs)
    ensures var init, last := hubs[..|hubs| - 1], hubs[|hubs| - 1];
            (h in hubs <==> h in init || h == last) && !(h in init && h == last)
  {
    assert hubs == hubs[..|hubs| - 1] + [hubs[|hubs| - 1]];
  }

  lemma JoinedMore(before: seq<Rider>, grown: seq<Rider>, lastBefore: seq<Rider>, lastGrown: seq<Rider>,
                   a: bool, b: bool, r: Rider)
    requires multiset(grown) == multiset(before) + OneIf(a, r)
    requires multiset(lastGrown) == multiset(lastBefore) + OneIf(b, r) && !(a && b)
    ensures multiset(grown + lastGrown) == multiset(before + lastBefore) + OneIf(a || b, r)
  {
  }

  lemma {:induction false} JoinAppend(riders: seq<Rider>, r: Rider, hubs: seq<Hub>)
    requires Distinct(hubs)
    ensures multiset(JoinAt(riders + [r], hubs)) == multiset(JoinAt(riders, hubs)) + OneIf(HubOf(r) in hubs, r)
  {
    if hubs != [] {
      var init, last := hubs[..|hubs| - 1], hubs[|hubs| - 1];
      var before, grown := JoinAt(riders, init), JoinAt(riders + [r], init);
      var lastBefore, lastGrown := At(riders, last), At(riders + [r], last);
      JoinAppend(riders, r, init);
      AtAppend(riders, r, last);
      LastHub(hubs, HubOf(r));
      assert multiset(lastGrown) == multiset(lastBefore) + OneIf(HubOf(r) == last, r);
      JoinedMore(before, grown, lastBefore, lastGrown, HubOf(r) in init, HubOf(r) == last, r);
    }
  }

  lemma {:induction false} JoinNothing(hubs: seq<Hub>)
    ensures JoinAt([], hubs) == []
  {
    if hubs != [] { JoinNothing(hubs[..|hubs| - 1]); }
  }

  /** Over distinct hubs that cover the riders, the groups hold every rider exactly as often as the route does. */
  lemma {:induction false} JoinIsPartition(riders: seq<Rider>, hubs: seq<Hub>)
    requires Distinct(hubs) && forall r :: r in riders ==> HubOf(r) in hubs
    ensures multiset(JoinAt(riders, hubs)) == multiset(riders)
  {
    if riders == [] {
      JoinNothing(hubs);
    } else {
      var init, last := riders[..|riders| - 1], riders[|riders| - 1];
      assert riders == init + [last];
      JoinIsPartition(init, hubs);
      JoinAppend(init, last, hubs);
    }
  }

  // ---------- The columns behind the groups and the report ----------

  /** A rider's hub is its nodal point, or none for a missing or zero one. */
  lemma HubIsNodalPoint(r: Rider)
    ensures HubOf(r) == if r.hub == None || r.hub == Some(0) then Unassigned else Hub(r.hub.value)
  {
  }

  function StatusesOf(riders: seq<Rider>): seq<BookingStatus> {
    seq(|riders|, i requires 0 <= i < |riders| => riders[i].status)
  }

  /** A group's boarded count is the number of its riders aboard. */
  lemma {:induction false} BoardedIsOngoing(riders: seq<Rider>)
    ensures CountBoarded(riders) == multiset(StatusesOf(riders))[Ongoing]
  {
    if riders != [] {
      BoardedIsOngoing(riders[1..]);
      assert StatusesOf(riders) == [riders[0].status] + StatusesOf(riders[1..]);
    }
  }

  /** The report's rows: the booked stops of the driver's completed routes, within the dates. */
  lemma ReportRowsAre(s: Db, tenant: string, driver: int, first: int, last: int, k: Key)
    ensures k in ReportRows(s, tenant, driver, first, last)
            <==> && k in s.stops && k.booking in s.bookings && k.route in s.routes
                 && s.routes[k.route].tenant == tenant && s.routes[k.route].driver == Some(driver)
                 && s.routes[k.route].status == Closed
                 && first <= s.bookings[k.booking].date && s.bookings[k.booking].date <= last
  {
  }
}
