/**
 What the slab edits check and write, told by the columns of the table and by numbers alone.
 */
module SlabOutcomes {
  import opened Common
  import opened SlabChains
  import opened SlabTables

  predicate Near0(x: real) {
    -0.000001 <= x <= 0.000001
  }

  /** An acceptable chain, in numbers: it starts at zero, each upper bound is above its lower and meets the next. */
  predicate Chained(xs: seq<Slab>) {
    && |xs| > 0 && Near0(xs[0].min)
    && (forall i :: 0 <= i < |xs| && xs[i].max.Some? ==> xs[i].min < xs[i].max.value)
    && (forall i :: 0 <= i < |xs| - 1 ==> xs[i].max.Some? && Near0(xs[i].max.value - xs[i + 1].min))
  }

  lemma ChainOkMeans(xs: seq<Slab>)
    ensures ChainOk(xs) <==> Chained(xs)
  {
    if ChainOk(xs) {
      forall i | 0 <= i < |xs| - 1 ensures xs[i].max.Some? && Near0(xs[i].max.value - xs[i + 1].min) {
        assert Joins(xs[i + 1 - 1], xs[i + 1]);
      }
      forall i | 0 <= i < |xs| && xs[i].max.Some? ensures xs[i].min < xs[i].max.value {
        assert RangeOk(xs[i]);
      }
    }
    if Chained(xs) {
      forall i | 0 < i < |xs| ensures Joins(xs[i - 1], xs[i]) {
        assert xs[i - 1].max.Some? && Near0(xs[i - 1].max.value - xs[i - 1 + 1].min);
      }
    }
  }

  /** The rows' own constraints: each under its id, bounds and rate as they must be, lower bounds unique a contract. */
  predicate Constrained(rows: Table) {
    && (forall i :: i in rows ==> rows[i].slab.id == i && rows[i].slab.min >= 0.0 && rows[i].slab.rate > 0.0)
    && (forall i :: i in rows && rows[i].slab.max.Some? ==> rows[i].slab.min < rows[i].slab.max.value)
    && (forall i, j :: i in rows && j in rows && i != j && rows[i].contract == rows[j].contract
                       ==> rows[i].slab.min != rows[j].slab.min)
  }

  lemma TableOkMeans(rows: Table)
    ensures TableOk(rows) <==> Constrained(rows)
  {
  }

  predicate IsActive(rows: Table, contract: int, s: Slab) {
    s.id in rows && rows[s.id] == Row(contract, s) && s.active
  }

  /** The contract's active slabs, by ascending lower bound. */
  ghost predicate InKilometres(xs: seq<Slab>, rows: Table, contract: int) {
    && (forall s :: s in xs <==> IsActive(rows, contract, s))
    && forall i, j :: 0 <= i < j < |xs| ==> xs[i].min < xs[j].min
  }

  lemma ListingIsInKilometres(rows: Table, contract: int, xs: seq<Slab>)
    requires TableOk(rows)
    ensures InKilometres(xs, rows, contract) <==> xs == Listing(rows, contract)
  {
    forall s ensures s in ActiveSlabs(rows, contract) <==> IsActive(rows, contract, s) {}
    if InKilometres(xs, rows, contract) {
      assert Lists(xs, ActiveSlabs(rows, contract));
      ListingIsUnique(xs, Listing(rows, contract), ActiveSlabs(rows, contract));
    }
  }

  /** A table is kept exactly if it meets its constraints and the contract's active slabs form a chain, or may be none. */
  lemma KeptIff(rows: Table, contract: int, allowEmpty: bool)
    ensures Kept(rows, contract, allowEmpty)
            <==> Constrained(rows)
                 && exists xs :: InKilometres(xs, rows, contract) && (Chained(xs) || (allowEmpty && xs == []))
  {
    TableOkMeans(rows);
    if TableOk(rows) {
      var listing := Listing(rows, contract);
      ListingIsInKilometres(rows, contract, listing);
      ChainOkMeans(listing);
      forall xs | InKilometres(xs, rows, contract) ensures xs == listing {
        ListingIsInKilometres(rows, contract, xs);
      }
    }
  }

  /** What each edit would write, column by column. */
  lemma ProposedExactly(rows: Table, e: Edit)
    ensures e.CreateSlab? ==>
              Proposed(rows, e) == if e.slab.id in rows then None else Some(rows[e.slab.id := Row(e.contract, e.slab)])
    ensures e.RemoveSlab? ==>
              Proposed(rows, e) == if e.id in rows && rows[e.id].contract == e.contract then Some(rows - {e.id}) else None
    ensures e.UpdateSlab? ==>
              var p := e.patch;
              if e.id in rows && rows[e.id].contract == e.contract && p.min != Null && p.rate != Null && p.active != Null then
                var s := rows[e.id].slab;
                var after := Slab(s.id, if p.min == Keep then s.min else p.min.value,
                                  if p.max == Keep then s.max else if p.max == Null then None else Some(p.max.value),
                                  if p.rate == Keep then s.rate else p.rate.value,
                                  if p.active == Keep then s.active else p.active.value);
                Proposed(rows, e) == Some(rows[e.id := Row(e.contract, after)])
              else Proposed(rows, e) == None
  {
  }

  /** Behind an open-ended last slab no active slab can be added. */
  lemma OpenEndedTakesNoMore(rows: Table, contract: int, s: Slab)
    requires WideChain(rows, contract) && Listing(rows, contract) != [] && s.id !in rows && s.active && Proper(s)
    requires var xs := Listing(rows, contract); xs[|xs| - 1].max == None
    ensures After(rows, CreateSlab(contract, s)) == rows
  {
    CreateCharacterised(rows, contract, s);
  }

  /** So an update that sends a null upper bound for the last slab, if it is kept, closes the chain to further slabs. */
  lemma NullMaxClosesChain(rows: Table, e: Edit, s: Slab)
    requires WideChain(rows, e.contract) && e.UpdateSlab? && e.patch.max == Null && e.patch.min == Keep
    requires e.patch.active == Keep && e.patch.rate != Null
    requires var xs := Listing(rows, e.contract); xs != [] && e.id == xs[|xs| - 1].id
    requires e.patch.rate.Put? ==> e.patch.rate.value > 0.0
    requires s.active && Proper(s) && s.id !in rows
    ensures var t := After(rows, e);
            && e.id in rows && e.id in t
            && t == rows[e.id := Row(e.contract, rows[e.id].slab.(max := None, rate := t[e.id].slab.rate))]
            && After(t, CreateSlab(e.contract, s)) == t
  {
    var xs := Listing(rows, e.contract);
    var k := |xs| - 1;
    assert xs[k] in xs;
    ListingMembers(rows, e.contract);
    var s0 := Patched(rows[e.id].slab, e.patch);
    OpenedStillJoins(xs, s0);
    UpdateCharacterised(rows, e.contract, k, s0);
    OpenedIsLast(rows, e.contract, rows[e.id := Row(e.contract, s0)], s0);
    OpenEndedTakesNoMore(rows[e.id := Row(e.contract, s0)], e.contract, s);
  }

  lemma OpenedStillJoins(xs: seq<Slab>, s: Slab)
    requires ChainOk(xs) && s.min == xs[|xs| - 1].min && s.max == None
    ensures ChainOk(xs[|xs| - 1 := s])
  {
    var ys := xs[|xs| - 1 := s];
    forall i | 0 < i < |ys| ensures Joins(ys[i - 1], ys[i]) {
      assert Joins(xs[i - 1], xs[i]);
    }
  }

  lemma OpenedIsLast(rows: Table, contract: int, after: Table, s: Slab)
    requires WideChain(rows, contract) && Kept(after, contract, false) && Listing(rows, contract) != []
    requires var xs := Listing(rows, contract); Listing(after, contract) == xs[|xs| - 1 := s]
    requires s.max == None
    ensures WideChain(after, contract)
    ensures var ys := Listing(after, contract); ys != [] && ys[|ys| - 1].max == None
  {
  }
}
