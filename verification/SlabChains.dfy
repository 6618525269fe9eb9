/** A contract's chain of kilometre ranges, checked with a tolerance after every edit of one slab. */
module SlabChains {
  import opened Common

  // max == None is an open-ended slab.
  datatype Slab = Slab(id: int, min: real, max: Option<real>, rate: real, active: bool)

  datatype ChainError = SlabRequired | MustStartAtZero | BadRange | AfterOpenEnded | NotContiguous

  const TOLERANCE := 0.000001

  function Abs(x: real): real {
    if x < 0.0 then -x else x
  }

  predicate Close(x: real, y: real) {
    Abs(x - y) <= TOLERANCE
  }

  /** What a slab must have to follow its neighbour. */
  predicate Joins(a: Slab, b: Slab) {
    a.max.Some? && Close(a.max.value, b.min)
  }

  predicate RangeOk(s: Slab) {
    s.max.Some? ==> s.max.value > s.min
  }

  /** An acceptable chain: it starts at zero, every range is proper, and neighbours join, within the tolerance. */
  ghost predicate ChainOk(xs: seq<Slab>) {
    && xs != [] && Close(xs[0].min, 0.0)
    && (forall i :: 0 <= i < |xs| ==> RangeOk(xs[i]))
    && (forall i :: 0 < i < |xs| ==> Joins(xs[i - 1], xs[i]))
  }

  /** validate_active_slab_chain on the active slabs in ascending order. */
  method ValidateChain(slabs: seq<Slab>, allowEmpty: bool) returns (error: Option<ChainError>)
    ensures error.None? <==> (slabs == [] && allowEmpty) || ChainOk(slabs)
    ensures error == Some(SlabRequired) <==> slabs == [] && !allowEmpty
    ensures error == Some(MustStartAtZero) <==> slabs != [] && !Close(slabs[0].min, 0.0)
    ensures error == Some(BadRange) ==> exists i :: 0 <= i < |slabs| && !RangeOk(slabs[i])
    ensures error == Some(AfterOpenEnded) ==> exists i :: 0 <= i < |slabs| - 1 && slabs[i].max == None
    ensures error == Some(NotContiguous) ==>
              exists i :: 0 < i < |slabs| && slabs[i - 1].max.Some? && !Close(slabs[i - 1].max.value, slabs[i].min)
  {
    if slabs == [] {
      return if allowEmpty then None else Some(SlabRequired);
    }
    if Abs(slabs[0].min - 0.0) > TOLERANCE {
      return Some(MustStartAtZero);
    }
    for i := 0 to |slabs|
      invariant forall j :: 0 <= j < i ==> RangeOk(slabs[j])
      invariant forall j :: 0 < j < i ==> Joins(slabs[j - 1], slabs[j])
    {
      var slab := slabs[i];
      if slab.max.Some? && slab.max.value <= slab.min {
        return Some(BadRange);
      }
      if i == 0 {
        continue;
      }
      var previous := slabs[i - 1];
      if previous.max.None? {
        return Some(AfterOpenEnded);
      }
      if Abs(previous.max.value - slab.min) > TOLERANCE {
        return Some(NotContiguous);
      }
    }
    return None;
  }

  // ---------- The ordered listing ----------

  ghost predicate Ascending(xs: seq<Slab>) {
    forall i, j :: 0 <= i < j < |xs| ==> xs[i].min < xs[j].min
  }

  /** `xs` lists exactly the slabs of `rows`, by ascending lower bound: what "order by min_km" returns. */
  ghost predicate Lists(xs: seq<Slab>, rows: set<Slab>) {
    Ascending(xs) && forall s :: s in xs <==> s in rows
  }

  lemma ListingTail(xs: seq<Slab>, rows: set<Slab>)
    requires Lists(xs, rows) && xs != []
    ensures xs[0] in rows && (forall s :: s in rows ==> xs[0].min <= s.min) && Lists(xs[1..], rows - {xs[0]})
  {
    assert xs[0] in xs && xs[0] !in xs[1..];
    assert forall s :: s in xs <==> s == xs[0] || s in xs[1..];
  }

  lemma {:induction false} ListingSize(xs: seq<Slab>, rows: set<Slab>)
    requires Lists(xs, rows)
    ensures |xs| == |rows|
    decreases |xs|
  {
    if xs == [] {
      assert rows == {};
    } else {
      ListingTail(xs, rows);
      ListingSize(xs[1..], rows - {xs[0]});
    }
  }

  lemma {:induction false} ListingIsUnique(xs: seq<Slab>, ys: seq<Slab>, rows: set<Slab>)
    requires Lists(xs, rows) && Lists(ys, rows)
    ensures xs == ys
    decreases |xs|
  {
    ListingSize(xs, rows);
    ListingSize(ys, rows);
    if xs != [] {
      ListingTail(xs, rows);
      ListingTail(ys, rows);
      assert ys[0] in xs;
      assert xs[0] == ys[0];
      ListingIsUnique(xs[1..], ys[1..], rows - {xs[0]});
    }
  }

  function InsertByMin(xs: seq<Slab>, s: Slab): seq<Slab> {
    if xs == [] || s.min < xs[0].min then [s] + xs else [xs[0]] + InsertByMin(xs[1..], s)
  }

  /** Inserting splits the listing at one place. */
  lemma {:induction false} InsertByMinAt(xs: seq<Slab>, s: Slab) returns (k: nat)
    requires Ascending(xs) && forall x :: x in xs ==> x.min != s.min
    ensures k <= |xs| && InsertByMin(xs, s) == xs[..k] + [s] + xs[k..]
    ensures (forall i :: 0 <= i < k ==> xs[i].min < s.min) && (forall i :: k <= i < |xs| ==> s.min < xs[i].min)
    ensures Ascending(InsertByMin(xs, s))
  {
    if xs == [] || s.min < xs[0].min {
      k := 0;
      assert xs[..0] + [s] + xs[0..] == [s] + xs;
    } else {
      assert xs[0] in xs;
      k := InsertByMinAt(xs[1..], s);
      InsertedFurther(xs, s, k);
      k := k + 1;
    }
    InsertedAscends(xs, s, k);
  }

  lemma InsertedFurther(xs: seq<Slab>, s: Slab, k: nat)
    requires k < |xs|
    ensures [xs[0]] + (xs[1..][..k] + [s] + xs[1..][k..]) == xs[..k + 1] + [s] + xs[k + 1..]
  {
  }

  lemma InsertedAscends(xs: seq<Slab>, s: Slab, k: nat)
    requires Ascending(xs) && k <= |xs|
    requires (forall i :: 0 <= i < k ==> xs[i].min < s.min) && (forall i :: k <= i < |xs| ==> s.min < xs[i].min)
    ensures Ascending(xs[..k] + [s] + xs[k..])
  {
  }

  lemma InsertLists(xs: seq<Slab>, s: Slab, rows: set<Slab>)
    requires Lists(xs, rows) && forall x :: x in rows ==> x.min != s.min
    ensures Lists(InsertByMin(xs, s), rows + {s})
  {
    var k := InsertByMinAt(xs, s);
    assert xs == xs[..k] + xs[k..];
  }

  // ---------- Which single edits survive ----------

  /** Wider than three tolerances: too wide to be squeezed between two slabs that already join. */
  predicate Wide(s: Slab) {
    s.max.Some? ==> s.max.value - s.min > 3.0 * TOLERANCE
  }

  ghost predicate AllWide(xs: seq<Slab>) {
    forall i :: 0 <= i < |xs| ==> Wide(xs[i])
  }

  /** A slab that could be appended: it starts, within the tolerance, where a bounded last slab ends. */
  ghost predicate Appends(xs: seq<Slab>, s: Slab) {
    if xs == [] then Close(s.min, 0.0) else Joins(xs[|xs| - 1], s)
  }

  lemma ChainIsAscending(xs: seq<Slab>, i: nat, j: nat)
    requires ChainOk(xs) && AllWide(xs) && i < j < |xs|
    ensures xs[i].min + 2.0 * TOLERANCE < xs[j].min
    decreases j
  {
    assert Joins(xs[j - 1], xs[j]);
    if i < j - 1 { ChainIsAscending(xs, i, j - 1); }
  }

  lemma ChainPrefix(xs: seq<Slab>, k: nat)
    requires ChainOk(xs) && 0 < k <= |xs|
    ensures ChainOk(xs[..k])
  {
  }

  lemma ChainAppend(xs: seq<Slab>, s: Slab)
    requires xs == [] || ChainOk(xs)
    requires RangeOk(s) && Appends(xs, s)
    ensures ChainOk(xs + [s])
  {
  }

  /** A wide slab does not fit in front of any slab of an acceptable chain. */
  lemma CannotSqueezeIn(xs: seq<Slab>, s: Slab, k: nat)
    requires ChainOk(xs) && Wide(s) && s.min >= 0.0 && k < |xs|
    ensures !ChainOk(xs[..k] + [s] + xs[k..])
  {
    var ys := xs[..k] + [s] + xs[k..];
    assert ys[k] == s && ys[k + 1] == xs[k];
    if k == 0 {
      assert !Joins(ys[0], ys[1]);
    } else {
      assert Joins(xs[k - 1], xs[k]) && ys[k - 1] == xs[k - 1];
      assert !Joins(ys[k - 1], ys[k]) || !Joins(ys[k], ys[k + 1]);
    }
  }

  /**
   Adding: on an acceptable chain of wide slabs (or none) a wide slab is accepted exactly when it can be
   appended, and then it does end up last.
   */
  lemma AddSucceedsIffAppend(xs: seq<Slab>, s: Slab)
    requires (xs == [] || ChainOk(xs)) && AllWide(xs) && Ascending(xs)
    requires RangeOk(s) && Wide(s) && s.min >= 0.0 && (forall x :: x in xs ==> x.min >= 0.0 && x.min != s.min)
    ensures ChainOk(InsertByMin(xs, s)) <==> Appends(xs, s)
    ensures Appends(xs, s) ==> InsertByMin(xs, s) == xs + [s]
  {
    var k := InsertByMinAt(xs, s);
    var ys := InsertByMin(xs, s);
    if ChainOk(ys) {
      if k < |xs| { CannotSqueezeIn(xs, s, k); }
      assert xs != [] ==> ys[|xs| - 1] == xs[|xs| - 1] && ys[|xs|] == s && Joins(ys[|xs| - 1], ys[|xs|]);
    }
    if Appends(xs, s) {
      if xs != [] {
        var last := xs[|xs| - 1];
        assert Wide(last) && last.min < s.min;
        assert k == |xs|;
      }
      assert ys == xs + [s];
      ChainAppend(xs, s);
    }
  }

  function Without(xs: seq<Slab>, k: nat): seq<Slab>
    requires k < |xs|
  {
    xs[..k] + xs[k + 1..]
  }

  /** Removing: on an acceptable chain of wide slabs only the last one can go; removing the only one leaves none. */
  lemma RemoveSucceedsIffLast(xs: seq<Slab>, k: nat)
    requires ChainOk(xs) && AllWide(xs) && k < |xs| && xs[0].min >= 0.0
    ensures Without(xs, k) == [] || ChainOk(Without(xs, k)) <==> k == |xs| - 1
  {
    var ys := Without(xs, k);
    if k == |xs| - 1 {
      assert ys == xs[..k];
      if k > 0 { ChainPrefix(xs, k); }
    } else {
      assert Joins(xs[k], xs[k + 1]) && ys[k] == xs[k + 1];
      if k == 0 {
        assert !Close(ys[0].min, 0.0);
      } else {
        assert Joins(xs[k - 1], xs[k]) && ys[k - 1] == xs[k - 1];
        assert !Joins(ys[k - 1], ys[k]);
      }
    }
  }

  /**
   Updating: replacing a slab of an acceptable chain of wide slabs by a wide one is accepted exactly when the
   new slab fits in the old one's place, and then it keeps that place.
   */
  lemma UpdateSucceedsIffInPlace(xs: seq<Slab>, k: nat, s: Slab)
    requires ChainOk(xs) && AllWide(xs) && Ascending(xs) && k < |xs|
    requires RangeOk(s) && Wide(s) && s.min >= 0.0
    requires forall x :: x in xs ==> x.min >= 0.0
    requires forall x :: x in Without(xs, k) ==> x.min != s.min
    ensures ChainOk(InsertByMin(Without(xs, k), s)) <==> ChainOk(xs[k := s])
    ensures ChainOk(xs[k := s]) ==> InsertByMin(Without(xs, k), s) == xs[k := s]
  {
    var rest := Without(xs, k);
    forall x | x in rest ensures x in xs {}
    if k == |xs| - 1 {
      assert rest == xs[..k] && xs[k := s] == rest + [s];
      if k > 0 { ChainPrefix(xs, k); }
      UpdateLast(rest, s);
    } else {
      UpdateInsideKeepsPlace(xs, k, s);
    }
  }

  /** Replacing the last slab is adding the new one to the others. */
  lemma UpdateLast(rest: seq<Slab>, s: Slab)
    requires (rest == [] || ChainOk(rest)) && AllWide(rest) && Ascending(rest)
    requires RangeOk(s) && Wide(s) && s.min >= 0.0 && (forall x :: x in rest ==> x.min >= 0.0 && x.min != s.min)
    ensures ChainOk(InsertByMin(rest, s)) <==> ChainOk(rest + [s])
    ensures ChainOk(rest + [s]) ==> InsertByMin(rest, s) == rest + [s]
  {
    AddSucceedsIffAppend(rest, s);
    if ChainOk(rest + [s]) {
      LastAppends(rest, s);
    }
  }

  lemma LastAppends(rest: seq<Slab>, s: Slab)
    requires ChainOk(rest + [s])
    ensures Appends(rest, s)
  {
    var all := rest + [s];
    if rest != [] {
      assert Joins(all[|rest| - 1], all[|rest|]);
    }
  }

  lemma UpdateInsideKeepsPlace(xs: seq<Slab>, k: nat, s: Slab)
    requires ChainOk(xs) && AllWide(xs) && Ascending(xs) && k < |xs| - 1
    requires Wide(s) && s.min >= 0.0 && xs[0].min >= 0.0
    requires forall x :: x in Without(xs, k) ==> x.min != s.min
    ensures ChainOk(InsertByMin(Without(xs, k), s)) <==> ChainOk(xs[k := s])
    ensures ChainOk(xs[k := s]) ==> InsertByMin(Without(xs, k), s) == xs[k := s]
  {
    var rest := Without(xs, k);
    WithoutAscends(xs, k);
    var j := InsertByMinAt(rest, s);
    if j == k {
      FillGap(xs, k, s);
    } else {
      GapStays(xs, k, s, j);
      OnlyPlace(xs, k, s, j);
    }
  }

  lemma WithoutAscends(xs: seq<Slab>, k: nat)
    requires Ascending(xs) && k < |xs|
    ensures Ascending(Without(xs, k))
  {
  }

  lemma FillGap(xs: seq<Slab>, k: nat, s: Slab)
    requires k < |xs|
    ensures var rest := Without(xs, k); rest[..k] + [s] + rest[k..] == xs[k := s]
  {
    var rest := Without(xs, k);
    assert rest[..k] == xs[..k] && rest[k..] == xs[k + 1..];
  }

  /** A slab put anywhere but into the gap leaves the gap open. */
  lemma GapStays(xs: seq<Slab>, k: nat, s: Slab, j: nat)
    requires ChainOk(xs) && AllWide(xs) && k < |xs| - 1 && j < |xs| && j != k
    requires Wide(s) && s.min >= 0.0 && xs[0].min >= 0.0
    ensures var rest := Without(xs, k); !ChainOk(rest[..j] + [s] + rest[j..])
  {
    var rest := Without(xs, k);
    var ys := rest[..j] + [s] + rest[j..];
    assert Joins(xs[k], xs[k + 1]) && rest[k] == xs[k + 1];
    if k == 0 {
      assert ys[0] == rest[0] && !Close(ys[0].min, 0.0);
    } else {
      assert Joins(xs[k - 1], xs[k]) && rest[k - 1] == xs[k - 1];
      var i := if j < k then k + 1 else k;
      assert ys[i - 1] == rest[k - 1] && ys[i] == rest[k] && !Joins(ys[i - 1], ys[i]);
    }
  }

  /** A slab that sorts elsewhere than into the gap does not fit there. */
  lemma OnlyPlace(xs: seq<Slab>, k: nat, s: Slab, j: nat)
    requires ChainOk(xs) && AllWide(xs) && Ascending(xs) && k < |xs| - 1 && Wide(s)
    requires j < |xs| && j != k
    requires var rest := Without(xs, k);
             && (forall i :: 0 <= i < j ==> rest[i].min < s.min)
             && (forall i :: j <= i < |rest| ==> s.min < rest[i].min)
    ensures !ChainOk(xs[k := s])
  {
    var zs, rest := xs[k := s], Without(xs, k);
    if j > k {
      assert rest[k].min < s.min && zs[k] == s && zs[k + 1] == rest[k] == xs[k + 1];
      assert !Joins(zs[k], zs[k + 1]);
    } else {
      assert s.min < rest[k - 1].min && zs[k] == s && zs[k - 1] == rest[k - 1] == xs[k - 1] && Wide(xs[k - 1]);
      assert !Joins(zs[k - 1], zs[k]);
    }
  }

  /** The width bound is sharp: a slab exactly three tolerances wide can be squeezed into the middle of a chain. */
  lemma ThreeTolerancesCanSqueezeIn()
    ensures exists xs: seq<Slab>, s: Slab :: ChainOk(xs) && AllWide(xs) && Ascending(xs) && s.max.Some?
                            && s.max.value - s.min == 3.0 * TOLERANCE
                            && ChainOk(InsertByMin(xs, s)) && InsertByMin(xs, s) != xs + [s]
  {
    var a := Slab(1, 0.0, Some(10.0), 1.0, true);
    var b := Slab(2, 10.0 + TOLERANCE, None, 1.0, true);
    var s := Slab(3, 10.0 - TOLERANCE, Some(10.0 + 2.0 * TOLERANCE), 1.0, true);
    var xs := [a, b];
    assert InsertByMin([b], s) == [s] + [b];
    assert InsertByMin(xs, s) == [a] + InsertByMin(xs[1..], s) && xs[1..] == [b];
    var ys := InsertByMin(xs, s);
    assert ys == [a, s, b];
    assert ChainOk(xs) && AllWide(xs) && Ascending(xs) && ChainOk(ys);
    assert ys[1] != (xs + [s])[1];
  }

  // ---------- What an accepted chain covers ----------

  function TotalWidth(xs: seq<Slab>): real
    requires forall x :: x in xs ==> x.max.Some?
  {
    if xs == [] then 0.0
    else
      var last := xs[|xs| - 1];
      TotalWidth(xs[..|xs| - 1]) + (last.max.value - last.min)
  }

  /** The widths add up to the span of the chain, give or take one tolerance a join. */
  lemma {:induction false} WidthsAddUp(xs: seq<Slab>)
    requires ChainOk(xs) && forall x :: x in xs ==> x.max.Some?
    ensures Abs(TotalWidth(xs) - (xs[|xs| - 1].max.value - xs[0].min)) <= (|xs| - 1) as real * TOLERANCE
  {
    var n := |xs| - 1;
    if n > 0 {
      ChainPrefix(xs, n);
      WidthsAddUp(xs[..n]);
      assert Joins(xs[n - 1], xs[n]);
      assert n as real * TOLERANCE == (n - 1) as real * TOLERANCE + TOLERANCE;
    } else {
      assert TotalWidth(xs[..n]) == 0.0;
    }
  }

  /** A distance is within the tolerance of a slab. */
  predicate Near(s: Slab, d: real) {
    s.min - TOLERANCE <= d && (s.max.Some? ==> d <= s.max.value + TOLERANCE)
  }

  /** Every distance up to the top of an accepted chain is within the tolerance of one of its slabs. */
  lemma {:induction false} EveryDistanceIsNear(xs: seq<Slab>, d: real) returns (i: nat)
    requires ChainOk(xs) && 0.0 <= d
    requires var top := xs[|xs| - 1].max; top.Some? ==> d <= top.value
    ensures i < |xs| && Near(xs[i], d)
    decreases |xs|
  {
    i := |xs| - 1;
    if d < xs[i].min - TOLERANCE {
      if i > 0 {
        assert Joins(xs[i - 1], xs[i]);
        ChainPrefix(xs, i);
        i := EveryDistanceIsNear(xs[..i], d);
      }
    }
  }

  /** Half-open membership: inclusive lower bound, exclusive upper bound. */
  predicate Holds(s: Slab, d: real) {
    s.min <= d && (s.max.Some? ==> d < s.max.value)
  }

  ghost predicate ExactJoins(xs: seq<Slab>) {
    xs != [] && xs[0].min == 0.0 && forall i :: 0 < i < |xs| ==> xs[i - 1].max == Some(xs[i].min)
  }

  lemma {:induction false} ExactChainGrows(xs: seq<Slab>, i: nat, j: nat)
    requires ChainOk(xs) && ExactJoins(xs) && i < j < |xs|
    ensures xs[i].max.Some? && xs[i].max.value <= xs[j].min
    decreases j
  {
    assert xs[j - 1].max == Some(xs[j].min) && RangeOk(xs[j - 1]);
    if i < j - 1 { ExactChainGrows(xs, i, j - 1); }
  }

  /** With exact joins from zero, every distance below the top lies in exactly one half-open slab. */
  lemma {:induction false} ExactlyOneSlab(xs: seq<Slab>, d: real) returns (i: nat)
    requires ChainOk(xs) && ExactJoins(xs) && 0.0 <= d
    requires var top := xs[|xs| - 1].max; top.Some? ==> d < top.value
    ensures i < |xs| && Holds(xs[i], d)
    ensures forall j :: 0 <= j < |xs| && Holds(xs[j], d) ==> j == i
    decreases |xs|
  {
    var n := |xs| - 1;
    if xs[n].min <= d {
      i := n;
    } else {
      ChainPrefix(xs, n);
      assert xs[n - 1].max == Some(xs[n].min);
      i := ExactlyOneSlab(xs[..n], d);
    }
    forall j | 0 <= j < |xs| && Holds(xs[j], d) ensures j == i {
      if j < i { ExactChainGrows(xs, j, i); }
      if i < j { ExactChainGrows(xs, i, j); }
    }
  }
}
