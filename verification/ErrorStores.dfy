/**
 The error tracker's store: a Redis sorted set that is added to and trimmed one error at a time, against the
 set that keeps everything.
 */
module ErrorStores {
  import opened Common
  import opened Counting

  const MAX_ERRORS := 1000

  // A sorted-set element. `member` stands for the JSON text, by its place in byte order.
  datatype Item = Item(score: real, member: int)

  /** Sorted-set order: by score, then by member. */
  predicate Before(a: Item, b: Item) {
    a.score < b.score || (a.score == b.score && a.member < b.member)
  }

  predicate Ascending(z: seq<Item>) {
    forall i, j :: 0 <= i < j < |z| ==> Before(z[i], z[j])
  }

  predicate OneScoreEach(z: seq<Item>) {
    forall i, j :: 0 <= i < j < |z| ==> z[i].member != z[j].member
  }

  predicate SortedSet(z: seq<Item>) {
    Ascending(z) && OneScoreEach(z)
  }

  function Place(z: seq<Item>, x: Item): seq<Item> {
    if z == [] || Before(x, z[0]) then [x] + z else [z[0]] + Place(z[1..], x)
  }

  function Without(z: seq<Item>, member: int): seq<Item> {
    if z == [] then [] else if z[0].member == member then z[1..] else [z[0]] + Without(z[1..], member)
  }

  /** ZADD of one element: a member that is there already moves to its new score. */
  function ZAdd(z: seq<Item>, x: Item): seq<Item> {
    Place(Without(z, x.member), x)
  }

  /** A rank as Redis reads it: negative ranks count from the top. */
  function Rank(i: int, n: nat): int {
    if i < 0 then n + i else i
  }

  /** ZREMRANGEBYRANK. */
  function ZRemRangeByRank(z: seq<Item>, start: int, stop: int): seq<Item> {
    var from := if Rank(start, |z|) < 0 then 0 else Rank(start, |z|);
    var to := if Rank(stop, |z|) >= |z| then |z| - 1 else Rank(stop, |z|);
    if from > to || from >= |z| then z else z[..from] + z[to + 1..]
  }

  function Reversed(z: seq<Item>): seq<Item> {
    seq(|z|, i requires 0 <= i < |z| => z[|z| - 1 - i])
  }

  /** ZREVRANGE. */
  function ZRevRange(z: seq<Item>, start: int, stop: int): seq<Item> {
    var from := if Rank(start, |z|) < 0 then 0 else Rank(start, |z|);
    var to := if Rank(stop, |z|) >= |z| then |z| - 1 else Rank(stop, |z|);
    if from > to || from >= |z| then [] else Reversed(z)[from..to + 1]
  }

  // How far one write gets before Redis fails, if it fails.
  datatype Fate = Whole | NotTrimmed | NotAdded

  datatype Write = Write(item: Item, fate: Fate)

  function LogStep(z: seq<Item>, w: Write): seq<Item> {
    match w.fate
    case NotAdded => z
    case NotTrimmed => ZAdd(z, w.item)
    case Whole => ZRemRangeByRank(ZAdd(z, w.item), 0, -(MAX_ERRORS + 1))
  }

  function Store(ws: seq<Write>): seq<Item> {
    if ws == [] then [] else LogStep(Store(ws[..|ws| - 1]), ws[|ws| - 1])
  }

  /** The same writes into a set that is never trimmed. */
  function Everything(ws: seq<Write>): seq<Item> {
    if ws == [] then [] else
      var all, w := Everything(ws[..|ws| - 1]), ws[|ws| - 1];
      if w.fate == NotAdded then all else ZAdd(all, w.item)
  }

  // ---------- Sorted sets ----------

  lemma {:induction false} PlaceAt(z: seq<Item>, x: Item) returns (k: nat)
    requires SortedSet(z) && forall i :: 0 <= i < |z| ==> z[i].member != x.member
    ensures k <= |z| && Place(z, x) == z[..k] + [x] + z[k..] && SortedSet(Place(z, x))
    ensures (forall i :: 0 <= i < k ==> Before(z[i], x)) && (forall i :: k <= i < |z| ==> Before(x, z[i]))
  {
    if z == [] || Before(x, z[0]) {
      k := 0;
    } else {
      k := PlaceAt(z[1..], x);
      PlacedFurther(z, x, k);
      k := k + 1;
    }
    PlacedInOrder(z, x, k);
  }

  lemma PlacedFurther(z: seq<Item>, x: Item, k: nat)
    requires k < |z|
    ensures [z[0]] + (z[1..][..k] + [x] + z[1..][k..]) == z[..k + 1] + [x] + z[k + 1..]
  {
  }

  lemma PlacedInOrder(z: seq<Item>, x: Item, k: nat)
    requires SortedSet(z) && k <= |z| && forall i :: 0 <= i < |z| ==> z[i].member != x.member
    requires (forall i :: 0 <= i < k ==> Before(z[i], x)) && (forall i :: k <= i < |z| ==> Before(x, z[i]))
    ensures SortedSet(z[..k] + [x] + z[k..])
  {
  }

  lemma {:induction false} NoSuchMember(z: seq<Item>, member: int)
    requires forall i :: 0 <= i < |z| ==> z[i].member != member
    ensures Without(z, member) == z
  {
    if z != [] { NoSuchMember(z[1..], member); }
  }

  lemma {:induction false} WithoutFirst(z: seq<Item>, member: int, p: nat)
    requires p < |z| && z[p].member == member && forall i :: 0 <= i < p ==> z[i].member != member
    ensures Without(z, member) == z[..p] + z[p + 1..]
  {
    if p == 0 {
      assert z[..0] + z[1..] == z[1..];
    } else {
      WithoutFirst(z[1..], member, p - 1);
      RemovedFurther(z, p - 1);
    }
  }

  lemma RemovedFurther(z: seq<Item>, p: nat)
    requires p + 1 < |z|
    ensures [z[0]] + (z[1..][..p] + z[1..][p + 1..]) == z[..p + 1] + z[p + 2..]
  {
  }

  /** Where the member is, and what is left without it. */
  lemma WithoutAt(z: seq<Item>, member: int) returns (p: nat)
    requires SortedSet(z)
    ensures p <= |z| && (p < |z| ==> z[p].member == member && Without(z, member) == z[..p] + z[p + 1..])
    ensures p == |z| ==> Without(z, member) == z && forall i :: 0 <= i < |z| ==> z[i].member != member
  {
    if i :| 0 <= i < |z| && z[i].member == member {
      p := i;
      WithoutFirst(z, member, p);
    } else {
      p := |z|;
      NoSuchMember(z, member);
    }
  }

  lemma WithoutIsSorted(z: seq<Item>, member: int)
    requires SortedSet(z)
    ensures SortedSet(Without(z, member))
    ensures forall i :: 0 <= i < |Without(z, member)| ==> Without(z, member)[i].member != member
    ensures forall x :: x in Without(z, member) <==> x in z && x.member != member
  {
    var p := WithoutAt(z, member);
    if p < |z| {
      OneRemoved(z, p);
      OthersStay(z, p);
    }
  }

  lemma OneRemoved(z: seq<Item>, p: nat)
    requires SortedSet(z) && p < |z|
    ensures SortedSet(z[..p] + z[p + 1..])
    ensures forall x :: x in z[..p] + z[p + 1..] ==> x in z && x.member != z[p].member
  {
    var r := z[..p] + z[p + 1..];
    forall i | 0 <= i < |r| ensures r[i] == z[if i < p then i else i + 1] {}
  }

  lemma OthersStay(z: seq<Item>, p: nat)
    requires p < |z|
    ensures forall x :: x in z && x.member != z[p].member ==> x in z[..p] + z[p + 1..]
  {
    assert z == z[..p] + [z[p]] + z[p + 1..];
  }

  lemma ZAddIsSorted(z: seq<Item>, x: Item)
    requires SortedSet(z)
    ensures SortedSet(ZAdd(z, x)) && forall y :: y in ZAdd(z, x) <==> y == x || (y in z && y.member != x.member)
  {
    WithoutIsSorted(z, x.member);
    var rest := Without(z, x.member);
    var k := PlaceAt(rest, x);
    assert rest == rest[..k] + rest[k..];
  }

  lemma SuffixIsSorted(z: seq<Item>, n: nat)
    requires SortedSet(z)
    ensures SortedSet(LastN(z, n)) && forall x :: x in LastN(z, n) ==> x in z
  {
  }

  // ---------- Trimming commutes with adding ----------

  /** Dropping the lowest of more than n elements first does not change the n highest after an addition. */
  lemma DropLowest(z: seq<Item>, x: Item, n: nat)
    requires SortedSet(z) && |z| > n
    ensures LastN(Place(z, x), n) == LastN(Place(z[1..], x), n)
  {
    if Before(x, z[0]) {
      assert |z| > 1 ==> Before(z[0], z[1]);
      assert Place(z[1..], x) == [x] + z[1..];
      SameTail([x] + z, n);
      SameTail(z, n);
      TailAfterFront([x], z[1..], n);
      assert ([x] + z)[1..] == z;
    } else {
      PlaceLength(z[1..], x);
      SameTail([z[0]] + Place(z[1..], x), n);
      assert ([z[0]] + Place(z[1..], x))[1..] == Place(z[1..], x);
    }
  }

  lemma TailAfterFront(a: seq<Item>, z: seq<Item>, n: nat)
    requires |z| >= n
    ensures LastN(a + z, n) == LastN(z, n)
  {
  }

  lemma {:induction false} PlaceLength(z: seq<Item>, x: Item)
    ensures |Place(z, x)| == |z| + 1
  {
    if z == [] || Before(x, z[0]) {} else { PlaceLength(z[1..], x); }
  }

  lemma SameTail(z: seq<Item>, n: nat)
    requires |z| > n
    ensures LastN(z[1..], n) == LastN(z, n)
  {
  }

  lemma {:induction false} TrimFirst(z: seq<Item>, x: Item, n: nat)
    requires SortedSet(z)
    ensures LastN(Place(z, x), n) == LastN(Place(LastN(z, n), x), n)
    decreases |z|
  {
    if |z| > n {
      DropLowest(z, x, n);
      TrimFirst(z[1..], x, n);
      SameTail(z, n);
    }
  }

  lemma {:induction false} PlaceAfter(low: seq<Item>, z: seq<Item>, x: Item)
    requires forall i :: 0 <= i < |low| ==> Before(low[i], x)
    ensures Place(low + z, x) == low + Place(z, x)
    decreases |low|
  {
    if low == [] {
      assert low + z == z;
    } else {
      PlaceAfter(low[1..], z, x);
      assert (low + z)[1..] == low[1..] + z;
    }
  }

  /** The write does not lower the score of a member that is in the set. */
  ghost predicate NotLowering(z: seq<Item>, x: Item) {
    forall y :: y in z && y.member == x.member ==> y.score <= x.score
  }

  /** The write moves a member from the n highest to below the highest of the others. */
  ghost predicate Demotes(z: seq<Item>, x: Item, n: nat) {
    n < |z| && Before(x, z[|z| - n - 1]) && exists p :: |z| - n <= p < |z| && z[p].member == x.member
  }

  /** The n highest after a write depend only on the n highest before it, exactly unless the write demotes. */
  lemma TrimCommutes(z: seq<Item>, x: Item, n: nat)
    requires SortedSet(z)
    ensures LastN(ZAdd(z, x), n) == LastN(ZAdd(LastN(z, n), x), n) <==> !Demotes(z, x, n)
  {
    var p := WithoutAt(z, x.member);
    if p == |z| {
      NoSuchMember(LastN(z, n), x.member);
      TrimFirst(z, x, n);
    } else if |z| > n {
      if p < |z| - n {
        TrimmedAway(z, x, n, p);
        assert forall q :: |z| - n <= q < |z| ==> z[q].member != z[p].member;
      } else if Before(x, z[|z| - n - 1]) {
        DemotedMember(z, x, n, p);
      } else {
        KeptMember(z, x, n, p);
      }
    }
  }

  lemma NotLoweringDoesNotDemote(z: seq<Item>, x: Item, n: nat)
    requires SortedSet(z) && NotLowering(z, x)
    ensures !Demotes(z, x, n)
  {
    if n < |z| {
      forall p | |z| - n <= p < |z| && z[p].member == x.member ensures !Before(x, z[|z| - n - 1]) {
        assert z[p] in z && Before(z[|z| - n - 1], z[p]);
      }
    }
  }

  lemma TrimmedAway(z: seq<Item>, x: Item, n: nat, p: nat)
    requires SortedSet(z) && p < |z| - n && z[p].member == x.member && Without(z, x.member) == z[..p] + z[p + 1..]
    ensures LastN(ZAdd(z, x), n) == LastN(ZAdd(LastN(z, n), x), n)
  {
    WithoutIsSorted(z, x.member);
    SameTop(z, n, p);
    NoSuchMember(LastN(z, n), x.member);
    TrimFirst(Without(z, x.member), x, n);
  }

  lemma SameTop(z: seq<Item>, n: nat, p: nat)
    requires SortedSet(z) && p < |z| - n
    ensures LastN(z[..p] + z[p + 1..], n) == LastN(z, n)
    ensures forall i :: 0 <= i < |LastN(z, n)| ==> LastN(z, n)[i].member != z[p].member
  {
  }

  lemma KeptMember(z: seq<Item>, x: Item, n: nat, p: nat)
    requires SortedSet(z) && 0 < |z| - n <= p < |z| && !Before(x, z[|z| - n - 1])
    requires z[p].member == x.member && Without(z, x.member) == z[..p] + z[p + 1..]
    ensures LastN(ZAdd(z, x), n) == LastN(ZAdd(LastN(z, n), x), n)
  {
    KeptUntrimmed(z, x, n, p);
    KeptTrimmed(z, x, n, p);
  }

  /** The n highest but the p-th element. */
  function OthersOfTop(z: seq<Item>, n: nat, p: nat): seq<Item>
    requires n <= |z| && |z| - n <= p < |z|
  {
    z[|z| - n..][..p - (|z| - n)] + z[|z| - n..][p - (|z| - n) + 1..]
  }

  lemma KeptUntrimmed(z: seq<Item>, x: Item, n: nat, p: nat)
    requires SortedSet(z) && 0 < |z| - n <= p < |z| && !Before(x, z[|z| - n - 1])
    requires z[p].member == x.member && Without(z, x.member) == z[..p] + z[p + 1..]
    ensures LastN(ZAdd(z, x), n) == Place(OthersOfTop(z, n, p), x)
  {
    var k, rest := |z| - n, OthersOfTop(z, n, p);
    RestOfTop(z, k, p);
    assert z[k - 1].member != z[p].member;
    LowerStaysLower(z, x, k);
    PlaceAfter(z[..k], rest, x);
    PlaceLength(rest, x);
    TopOfConcat(z[..k], Place(rest, x), n);
  }

  lemma KeptTrimmed(z: seq<Item>, x: Item, n: nat, p: nat)
    requires SortedSet(z) && 0 < |z| - n <= p < |z| && z[p].member == x.member
    ensures LastN(ZAdd(LastN(z, n), x), n) == Place(OthersOfTop(z, n, p), x)
  {
    WithoutInSuffix(z, |z| - n, p);
    assert LastN(z, n) == z[|z| - n..];
    PlaceLength(OthersOfTop(z, n, p), x);
  }

  lemma WithoutInSuffix(z: seq<Item>, k: nat, p: nat)
    requires SortedSet(z) && k <= p < |z|
    ensures Without(z[k..], z[p].member) == z[k..][..p - k] + z[k..][p - k + 1..]
  {
    var top := z[k..];
    assert top[p - k] == z[p];
    assert SortedSet(top);
    var q := WithoutAt(top, z[p].member);
    assert q == p - k;
  }

  lemma LowerStaysLower(z: seq<Item>, x: Item, k: nat)
    requires SortedSet(z) && 0 < k <= |z| && Before(z[k - 1], x)
    ensures forall i :: 0 <= i < k ==> Before(z[..k][i], x)
  {
    forall i | 0 <= i < k ensures Before(z[..k][i], x) {
      assert i < k - 1 ==> Before(z[i], z[k - 1]);
    }
  }

  /** A demoted member is still among the n highest of the trimmed set, which has lost its successor. */
  lemma DemotedMember(z: seq<Item>, x: Item, n: nat, p: nat)
    requires SortedSet(z) && 0 < |z| - n <= p < |z| && Before(x, z[|z| - n - 1])
    requires z[p].member == x.member && Without(z, x.member) == z[..p] + z[p + 1..]
    ensures LastN(ZAdd(z, x), n) != LastN(ZAdd(LastN(z, n), x), n)
  {
    UntrimmedMisses(z, x, n, p);
    TrimmedHolds(z, x, n, p);
  }

  lemma UntrimmedMisses(z: seq<Item>, x: Item, n: nat, p: nat)
    requires SortedSet(z) && 0 < |z| - n <= p < |z| && Before(x, z[|z| - n - 1])
    requires z[p].member == x.member && Without(z, x.member) == z[..p] + z[p + 1..]
    ensures x !in LastN(ZAdd(z, x), n)
  {
    WithoutIsSorted(z, x.member);
    FrontStays(z, p, |z| - n - 1);
    PlacedLow(Without(z, x.member), x, |z| - n - 1);
  }

  lemma FrontStays(z: seq<Item>, p: nat, k: nat)
    requires k < p < |z|
    ensures |z[..p] + z[p + 1..]| == |z| - 1 && (z[..p] + z[p + 1..])[k] == z[k]
  {
  }

  lemma TrimmedHolds(z: seq<Item>, x: Item, n: nat, p: nat)
    requires SortedSet(z) && 0 < |z| - n <= p < |z| && z[p].member == x.member
    ensures x in LastN(ZAdd(LastN(z, n), x), n)
  {
    var k := |z| - n;
    assert LastN(z, n) == z[k..] && SortedSet(z[k..]);
    WithoutInSuffix(z, k, p);
    InTrimmed(z[k..], x, n);
  }

  lemma InTrimmed(top: seq<Item>, x: Item, n: nat)
    requires SortedSet(top) && |top| == n && |Without(top, x.member)| == n - 1
    ensures x in LastN(ZAdd(top, x), n)
  {
    WithoutIsSorted(top, x.member);
    var j := PlaceAt(Without(top, x.member), x);
    assert ZAdd(top, x)[j] == x;
  }

  /** What is placed below the k-th element is not among those from the k-th on. */
  lemma PlacedLow(z: seq<Item>, x: Item, k: nat)
    requires SortedSet(z) && k < |z| && Before(x, z[k]) && forall i :: 0 <= i < |z| ==> z[i].member != x.member
    ensures LastN(Place(z, x), |z| - k) == z[k..] && x !in z[k..]
  {
    var j := PlaceAt(z, x);
    InsertedBelow(z, x, j, k);
    TopOfConcat(z[..j] + [x] + z[j..k], z[k..], |z| - k);
  }

  lemma InsertedBelow(z: seq<Item>, x: Item, j: nat, k: nat)
    requires j <= k <= |z|
    ensures z[..j] + [x] + z[j..] == (z[..j] + [x] + z[j..k]) + z[k..]
  {
  }

  lemma RestOfTop(z: seq<Item>, k: nat, p: nat)
    requires k <= p < |z|
    ensures z[..p] + z[p + 1..] == z[..k] + (z[k..][..p - k] + z[k..][p - k + 1..])
  {
  }

  lemma TopOfConcat(low: seq<Item>, top: seq<Item>, n: nat)
    requires |top| == n
    ensures LastN(low + top, n) == top == LastN(top, n)
  {
  }

  // ---------- The store is the top of everything ----------

  /** No write lowers its member's score: so it is with distinct members, and with a clock that never goes back. */
  ghost predicate NeverLowering(ws: seq<Write>) {
    forall i, j :: 0 <= i < j < |ws| && ws[i].fate != NotAdded && ws[j].fate != NotAdded
                   && ws[i].item.member == ws[j].item.member
                   ==> ws[i].item.score <= ws[j].item.score
  }

  /** `x` is in the untrimmed set: some write set it, and no later write touched its member. */
  ghost predicate Latest(ws: seq<Write>, x: Item) {
    exists i :: 0 <= i < |ws| && ws[i].item == x && ws[i].fate != NotAdded
                && forall j :: i < j < |ws| && ws[j].fate != NotAdded ==> ws[j].item.member != x.member
  }

  /** What the untrimmed set holds: every member written, at its latest score. */
  lemma {:induction false} EverythingIsLatest(ws: seq<Write>)
    ensures SortedSet(Everything(ws)) && forall x :: x in Everything(ws) <==> Latest(ws, x)
  {
    if ws != [] {
      var init, w := ws[..|ws| - 1], ws[|ws| - 1];
      EverythingIsLatest(init);
      ZAddIsSorted(Everything(init), w.item);
      forall x ensures Latest(ws, x) <==> if w.fate == NotAdded then Latest(init, x)
                                          else x == w.item || (Latest(init, x) && x.member != w.item.member)
      {
        LatestMore(init, w, x);
        assert ws == init + [w];
      }
    }
  }

  lemma LatestMore(ws: seq<Write>, w: Write, x: Item)
    ensures Latest(ws + [w], x) <==> if w.fate == NotAdded then Latest(ws, x)
                                     else x == w.item || (Latest(ws, x) && x.member != w.item.member)
  {
    var all := ws + [w];
    assert all[|ws|] == w && forall i :: 0 <= i < |ws| ==> all[i] == ws[i];
    if i :| 0 <= i < |ws| && ws[i].item == x && ws[i].fate != NotAdded
             && forall j :: i < j < |ws| && ws[j].fate != NotAdded ==> ws[j].item.member != x.member {
      assert all[i].item == x;
    }
  }

  /** The set's invariant against the untrimmed one: sorted, drawn from it, and equal to it at the top. */
  ghost predicate TopOf(z: seq<Item>, all: seq<Item>) {
    SortedSet(z) && SortedSet(all) && (forall x :: x in z ==> x in all) && LastN(z, MAX_ERRORS) == LastN(all, MAX_ERRORS)
  }

  lemma TrimIsLastN(z: seq<Item>)
    ensures ZRemRangeByRank(z, 0, -(MAX_ERRORS + 1)) == LastN(z, MAX_ERRORS)
  {
    if |z| > MAX_ERRORS {
      assert z[..0] + z[|z| - MAX_ERRORS..] == z[|z| - MAX_ERRORS..];
    }
  }

  lemma AddKeepsTop(z: seq<Item>, all: seq<Item>, x: Item)
    requires TopOf(z, all) && NotLowering(all, x)
    ensures TopOf(ZAdd(z, x), ZAdd(all, x))
  {
    ZAddIsSorted(z, x);
    ZAddIsSorted(all, x);
    NotLoweringDoesNotDemote(z, x, MAX_ERRORS);
    NotLoweringDoesNotDemote(all, x, MAX_ERRORS);
    TrimCommutes(z, x, MAX_ERRORS);
    TrimCommutes(all, x, MAX_ERRORS);
  }

  lemma TrimKeepsTop(z: seq<Item>, all: seq<Item>)
    requires TopOf(z, all)
    ensures TopOf(LastN(z, MAX_ERRORS), all)
  {
    SuffixIsSorted(z, MAX_ERRORS);
  }

  /**
   Under failures of either Redis call: the highest thousand of the store are the highest thousand of everything
   added, and after a write that was trimmed they are all the store holds.
   */
  lemma {:induction false} StoreIsTop(ws: seq<Write>)
    requires NeverLowering(ws)
    ensures TopOf(Store(ws), Everything(ws))
    ensures ws != [] && ws[|ws| - 1].fate == Whole ==> Store(ws) == LastN(Everything(ws), MAX_ERRORS)
  {
    if ws != [] {
      var init, w := ws[..|ws| - 1], ws[|ws| - 1];
      StoreIsTop(init);
      if w.fate != NotAdded {
        EverythingIsLatest(init);
        forall y | y in Everything(init) && y.member == w.item.member ensures y.score <= w.item.score {
          assert Latest(init, y);
          var i :| 0 <= i < |init| && init[i].item == y && init[i].fate != NotAdded;
          assert ws[i] == init[i];
        }
        AddKeepsTop(Store(init), Everything(init), w.item);
        TrimIsLastN(ZAdd(Store(init), w.item));
        TrimKeepsTop(ZAdd(Store(init), w.item), Everything(ws));
      }
    }
  }

  /** The store is exactly the highest thousand. */
  ghost predicate IsTop(ws: seq<Write>) {
    Store(ws) == LastN(Everything(ws), MAX_ERRORS)
  }

  /** From such a store, one more write that is not cut short keeps it so exactly unless it demotes a member. */
  lemma WriteKeepsTopIff(ws: seq<Write>, w: Write)
    requires IsTop(ws) && w.fate != NotTrimmed
    ensures IsTop(ws + [w]) <==> !(w.fate == Whole && Demotes(Everything(ws), w.item, MAX_ERRORS))
  {
    assert (ws + [w])[..|ws|] == ws;
    EverythingIsLatest(ws);
    TrimCommutes(Everything(ws), w.item, MAX_ERRORS);
    TrimIsLastN(ZAdd(Store(ws), w.item));
  }

  /** No write, along the way, demotes a member of everything written before it. */
  ghost predicate NeverDemoting(ws: seq<Write>) {
    ws == [] ||
    (var init, w := ws[..|ws| - 1], ws[|ws| - 1];
     NeverDemoting(init) && (w.fate == Whole ==> !Demotes(Everything(init), w.item, MAX_ERRORS)))
  }

  /** After every write so far the store was exactly the highest thousand. */
  ghost predicate AlwaysTop(ws: seq<Write>) {
    IsTop(ws) && (ws == [] || AlwaysTop(ws[..|ws| - 1]))
  }

  /**
   When no write is cut short between its two calls, the store is the highest thousand throughout exactly when no
   write demotes.
   */
  lemma {:induction false} AlwaysTopIff(ws: seq<Write>)
    requires forall i :: 0 <= i < |ws| ==> ws[i].fate != NotTrimmed
    ensures AlwaysTop(ws) <==> NeverDemoting(ws)
  {
    if ws != [] {
      var init, w := ws[..|ws| - 1], ws[|ws| - 1];
      AlwaysTopIff(init);
      assert ws == init + [w];
      if AlwaysTop(init) {
        WriteKeepsTopIff(init, w);
      }
    }
  }

  function RampItem(i: int): Item {
    Item(i as real + 2.0, i)
  }

  function Ramp(n: nat): seq<Write> {
    seq(n, i => Write(RampItem(i), Whole))
  }

  function RampItems(n: nat): seq<Item> {
    seq(n, i => RampItem(i))
  }

  lemma {:induction false} RampIsKept(n: nat)
    ensures Everything(Ramp(n)) == RampItems(n)
  {
    if n > 0 {
      RampIsKept(n - 1);
      assert Ramp(n)[..n - 1] == Ramp(n - 1);
      var x := RampItem(n - 1);
      NoSuchMember(RampItems(n - 1), n - 1);
      PlaceAfter(RampItems(n - 1), [], x);
      assert RampItems(n - 1) + [] == RampItems(n - 1);
    }
  }

  /**
   The premise of StoreIsTop matters: after 1001 errors at rising times, writing the newest again with a time before
   all the others leaves the store without the thousand highest.
   */
  lemma LoweringLosesTop() returns (ws: seq<Write>, x: Item)
    ensures x.score > 0.0 && forall w :: w in ws ==> w.item.score > 0.0
    ensures NeverLowering(ws) && IsTop(ws) && !IsTop(ws + [Write(x, Whole)])
  {
    ws, x := Ramp(MAX_ERRORS + 1), Item(1.0, MAX_ERRORS);
    RampIsTop(MAX_ERRORS + 1);
    RampIsKept(MAX_ERRORS + 1);
    RampDemotes(MAX_ERRORS, x);
    WriteKeepsTopIff(ws, Write(x, Whole));
  }

  lemma RampIsTop(n: nat)
    requires n > 0
    ensures NeverLowering(Ramp(n)) && IsTop(Ramp(n)) && forall w :: w in Ramp(n) ==> w.item.score > 0.0
  {
    StoreIsTop(Ramp(n));
  }

  lemma RampDemotes(n: nat, x: Item)
    requires 0 < n && x.score < 2.0 && x.member == n
    ensures Demotes(RampItems(n + 1), x, n)
  {
    var z := RampItems(n + 1);
    assert z[0] == RampItem(0) && Before(x, z[0]);
    assert z[n].member == n;
  }

  // ---------- The tracker ----------

  class ErrorTracker {
    var store: seq<Item>
    ghost var history: seq<Write>

    ghost predicate Valid()
      reads this
    {
      store == Store(history)
    }

    constructor ()
      ensures Valid() && history == []
    {
      store, history := [], [];
    }

    /** log_error: a failing Redis call ends the write and is swallowed. */
    method LogError(w: Write)
      requires Valid()
      modifies this
      ensures Valid() && history == old(history) + [w]
      ensures NeverLowering(history) ==>
                && TopOf(store, Everything(history))
                && (w.fate == Whole ==> store == LastN(Everything(history), 1000))
    {
      history := history + [w];
      assert history[..|history| - 1] == old(history);
      if NeverLowering(history) { StoreIsTop(history); }
      if w.fate == NotAdded {
        return;
      }
      store := ZAdd(store, w.item);
      if w.fate == NotTrimmed {
        return;
      }
      store := ZRemRangeByRank(store, 0, -(MAX_ERRORS + 1));
    }

    function RecentErrors(limit: int): seq<Item>
      reads this
    {
      ZRevRange(store, 0, limit - 1)
    }
  }

  /** A positive limit yields that many of the highest, newest first; a limit of 0 yields everything. */
  lemma RecentAreHighest(z: seq<Item>, limit: nat)
    ensures ZRevRange(z, 0, limit - 1) == Reversed(if limit == 0 then z else LastN(z, limit))
  {
  }

  /** After a whole write, the newest errors are the highest of everything ever added. */
  lemma {:induction false} RecentErrorsAreRight(ws: seq<Write>, limit: nat)
    requires NeverLowering(ws) && ws != [] && ws[|ws| - 1].fate == Whole && 1 <= limit <= MAX_ERRORS
    ensures ZRevRange(Store(ws), 0, limit - 1) == Reversed(LastN(Everything(ws), limit))
  {
    StoreIsTop(ws);
    RecentAreHighest(Store(ws), limit);
    assert LastN(LastN(Everything(ws), MAX_ERRORS), limit) == LastN(Everything(ws), limit);
  }

  // ---------- Statistics ----------

  // What the statistics read of an error's JSON.
  datatype Error = Error(kind: string, path: string)

  datatype Stats = Stats(total: nat, kinds: map<string, nat>, paths: map<string, nat>)

  function Kinds(errors: seq<Error>): seq<string> {
    seq(|errors|, i requires 0 <= i < |errors| => errors[i].kind)
  }

  function Paths(errors: seq<Error>): seq<string> {
    seq(|errors|, i requires 0 <= i < |errors| => errors[i].path)
  }

  /** The counts by type and by path: exact, and each adding up to the number of errors. */
  method GetErrorStats(errors: seq<Error>) returns (stats: Stats, kindOrder: seq<string>, pathOrder: seq<string>)
    ensures stats.total == |errors|
    ensures Tallied(Kinds(errors), kindOrder, stats.kinds) && Tallied(Paths(errors), pathOrder, stats.paths)
  {
    if errors == [] {
      return Stats(0, map[], map[]), [], [];
    }
    var kinds, paths;
    kindOrder, kinds := Tally(Kinds(errors));
    pathOrder, paths := Tally(Paths(errors));
    stats := Stats(|errors|, kinds, paths);
  }

  /** The n highest, by score and then by member, are above all others. */
  lemma TopIsHighest(z: seq<Item>, n: nat, x: Item, y: Item)
    requires SortedSet(z) && x in LastN(z, n) && y in z && y !in LastN(z, n)
    ensures y.score < x.score || (y.score == x.score && y.member < x.member)
    ensures |LastN(z, n)| == if |z| < n then |z| else n
  {
    var k := |z| - n;
    var i :| 0 <= i < |LastN(z, n)| && LastN(z, n)[i] == x;
    var j :| 0 <= j < |z| && z[j] == y;
    assert LastN(z, n)[i] == z[k + i];
    forall m | k <= m < |z| ensures z[m] in LastN(z, n) {
      assert LastN(z, n)[m - k] == z[m];
    }
    assert Before(z[j], z[k + i]);
  }
}
