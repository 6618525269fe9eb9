/** The slab table of all contracts, its constraints, and the three edits with their roll-back. */
module SlabTables {
  import opened Common
  import opened SlabChains

  datatype Row = Row(contract: int, slab: Slab)

  type Table = map<int, Row>

  datatype EditError = NotFound | InvalidRange | Chain(error: ChainError) | Database

  datatype SlabPatch = SlabPatch(min: Patch<real>, max: Patch<real>, rate: Patch<real>, active: Patch<bool>)

  /** The table's constraints: proper values, and lower bounds unique within a contract. */
  predicate TableOk(rows: Table) {
    && (forall i :: i in rows ==> var s := rows[i].slab; s.id == i && s.min >= 0.0 && RangeOk(s) && s.rate > 0.0)
    && (forall i, j :: i in rows && j in rows && i != j && rows[i].contract == rows[j].contract
                       ==> rows[i].slab.min != rows[j].slab.min)
  }

  function ActiveSlabs(rows: Table, contract: int): set<Slab> {
    set i | i in rows && rows[i].contract == contract && rows[i].slab.active :: rows[i].slab
  }

  ghost predicate DistinctMins(rows: set<Slab>) {
    forall s, t :: s in rows && t in rows && s != t ==> s.min != t.min
  }

  /** "order by min_km". */
  method OrderByMin(rows: set<Slab>) returns (xs: seq<Slab>)
    requires DistinctMins(rows)
    ensures Lists(xs, rows)
  {
    xs := [];
    var todo := rows;
    while todo != {}
      invariant todo <= rows && Lists(xs, rows - todo)
      decreases todo
    {
      var s :| s in todo;
      InsertLists(xs, s, rows - todo);
      assert rows - (todo - {s}) == rows - todo + {s};
      xs := InsertByMin(xs, s);
      todo := todo - {s};
    }
    assert rows - todo == rows;
  }

  lemma {:induction false} ListingExists(rows: set<Slab>) returns (xs: seq<Slab>)
    requires DistinctMins(rows)
    ensures Lists(xs, rows)
    decreases |rows|
  {
    if rows == {} {
      xs := [];
    } else {
      var s :| s in rows;
      var ys := ListingExists(rows - {s});
      InsertLists(ys, s, rows - {s});
      assert rows == rows - {s} + {s};
      xs := InsertByMin(ys, s);
    }
  }

  /** The contract's active slabs in order. */
  ghost function Listing(rows: Table, contract: int): (xs: seq<Slab>)
    requires TableOk(rows)
    ensures Lists(xs, ActiveSlabs(rows, contract))
  {
    var active := ActiveSlabs(rows, contract);
    assert exists xs :: Lists(xs, active) by {
      var xs := ListingExists(active);
    }
    var xs :| Lists(xs, active);
    xs
  }

  /** The state an edit would leave is kept exactly when the constraints and the chain check allow it. */
  ghost predicate Kept(rows: Table, contract: int, allowEmpty: bool) {
    TableOk(rows) && ((allowEmpty && Listing(rows, contract) == []) || ChainOk(Listing(rows, contract)))
  }

  function Patched(s: Slab, p: SlabPatch): Slab
    requires !p.min.Null? && !p.rate.Null? && !p.active.Null?
  {
    s.(min := if p.min.Put? then p.min.value else s.min,
       max := (match p.max case Keep => s.max case Null => None case Put(v) => Some(v)),
       rate := if p.rate.Put? then p.rate.value else s.rate,
       active := if p.active.Put? then p.active.value else s.active)
  }

  // ---------- The edits ----------

  datatype Edit =
    | CreateSlab(contract: int, slab: Slab)
    | UpdateSlab(contract: int, id: int, patch: SlabPatch)
    | RemoveSlab(contract: int, id: int)

  /** What the edit would leave, if it can be tried at all: a created slab's id is new, another's is the contract's. */
  function Proposed(rows: Table, e: Edit): Option<Table> {
    match e
    case CreateSlab(c, s) => if s.id in rows then None else Some(rows[s.id := Row(c, s)])
    case UpdateSlab(c, id, p) =>
      if id !in rows || rows[id].contract != c || p.min.Null? || p.rate.Null? || p.active.Null? then None
      else Some(rows[id := Row(c, Patched(rows[id].slab, p))])
    case RemoveSlab(c, id) => if id !in rows || rows[id].contract != c then None else Some(rows - {id})
  }

  /** The table after an edit: kept or rolled back. */
  ghost function After(rows: Table, e: Edit): Table {
    var next := Proposed(rows, e);
    if next.Some? && Kept(next.value, e.contract, e.RemoveSlab?) then next.value else rows
  }

  class SlabStore {
    var rows: Table

    /** Flush and check: the constraints first, then the chain. */
    method Check(contract: int, allowEmpty: bool) returns (error: Option<EditError>)
      ensures error.None? <==> Kept(rows, contract, allowEmpty)
      ensures error == Some(Database) <==> !TableOk(rows)
      ensures error.Some? && TableOk(rows) ==> error.value.Chain?
    {
      if !TableOk(rows) {
        return Some(Database);
      }
      var xs := OrderByMin(ActiveSlabs(rows, contract));
      ListingIsUnique(xs, Listing(rows, contract), ActiveSlabs(rows, contract));
      var e := ValidateChain(xs, allowEmpty);
      error := if e.Some? then Some(Chain(e.value)) else None;
    }

    method Create(contract: int, slab: Slab) returns (error: Option<EditError>)
      requires slab.id !in rows
      modifies this
      ensures error.None? <==> Kept(old(rows)[slab.id := Row(contract, slab)], contract, false)
      ensures rows == if error.None? then old(rows)[slab.id := Row(contract, slab)] else old(rows)
      ensures rows == After(old(rows), CreateSlab(contract, slab))
    {
      var before := rows;
      rows := rows[slab.id := Row(contract, slab)];
      error := Check(contract, false);
      if error.Some? {
        rows := before;
      }
    }

    method Update(contract: int, id: int, p: SlabPatch) returns (error: Option<EditError>)
      requires TableOk(rows)
      modifies this
      ensures error.None? ==> id in old(rows) && old(rows)[id].contract == contract
      ensures error.None? ==> !p.min.Null? && !p.rate.Null? && !p.active.Null?
      ensures error.None? ==> rows == old(rows)[id := Row(contract, Patched(old(rows)[id].slab, p))]
      ensures error.None? ==>
                var was, now := old(rows)[id].slab, rows[id].slab;
                && rows.Keys == old(rows.Keys) && (forall i :: i in rows && i != id ==> rows[i] == old(rows)[i])
                && now.id == was.id && rows[id].contract == contract
                && now.min == (if p.min == Keep then was.min else p.min.value)
                && now.max == (if p.max == Keep then was.max else if p.max == Null then None else Some(p.max.value))
                && now.rate == (if p.rate == Keep then was.rate else p.rate.value)
                && now.active == (if p.active == Keep then was.active else p.active.value)
      ensures error.None? ==> Kept(rows, contract, false)
      ensures error.Some? ==> rows == old(rows)
      ensures error == Some(NotFound) <==> !(id in rows && rows[id].contract == contract)
      ensures rows == After(old(rows), UpdateSlab(contract, id, p))
      ensures (id in old(rows) && old(rows)[id].contract == contract && !p.min.Null? && !p.rate.Null? && !p.active.Null?
               && Kept(old(rows)[id := Row(contract, Patched(old(rows)[id].slab, p))], contract, false))
              ==> error.None?
    {
      if id !in rows || rows[id].contract != contract {
        return Some(NotFound);
      }
      // A null for a column that may not be null ends in a database error at the latest.
      if p.min.Null? || p.rate.Null? || p.active.Null? {
        return Some(Database);
      }
      var before := rows;
      var slab := Patched(rows[id].slab, p);
      if slab.max.Some? && slab.max.value <= slab.min {
        assert !RangeOk(rows[id := Row(contract, slab)][id].slab);
        return Some(InvalidRange);
      }
      rows := rows[id := Row(contract, slab)];
      error := Check(contract, false);
      if error.Some? {
        rows := before;
      }
    }

    method Remove(contract: int, id: int) returns (error: Option<EditError>)
      modifies this
      ensures error.None? <==> id in old(rows) && old(rows)[id].contract == contract
                               && Kept(old(rows) - {id}, contract, true)
      ensures rows == if error.None? then old(rows) - {id} else old(rows)
      ensures rows == After(old(rows), RemoveSlab(contract, id))
    {
      if id !in rows || rows[id].contract != contract {
        return Some(NotFound);
      }
      var before := rows;
      rows := rows - {id};
      error := Check(contract, true);
      if error.Some? {
        rows := before;
      }
    }
  }

  // ---------- Which edits of the table succeed ----------

  /** The contract's active slabs are all wide, and form an acceptable chain unless there are none. */
  ghost predicate WideChain(rows: Table, contract: int) {
    TableOk(rows) && var xs := Listing(rows, contract); AllWide(xs) && (xs == [] || ChainOk(xs))
  }

  predicate FreshMin(rows: Table, contract: int, except: int, min: real) {
    forall i :: i in rows && i != except && rows[i].contract == contract ==> rows[i].slab.min != min
  }

  predicate Proper(s: Slab) {
    s.min >= 0.0 && RangeOk(s) && s.rate > 0.0 && Wide(s)
  }

  lemma ListingMembers(rows: Table, contract: int)
    requires TableOk(rows)
    ensures forall s :: s in Listing(rows, contract) ==> s.min >= 0.0 && RangeOk(s) && s.id in rows && rows[s.id].slab == s
  {
  }

  lemma PutKeepsConstraints(rows: Table, contract: int, s: Slab)
    requires TableOk(rows) && s.id !in rows && s.active && Proper(s) && FreshMin(rows, contract, s.id, s.min)
    ensures var after := rows[s.id := Row(contract, s)];
            TableOk(after) && ActiveSlabs(after, contract) == ActiveSlabs(rows, contract) + {s}
  {
    var after := rows[s.id := Row(contract, s)];
    assert after[s.id] == Row(contract, s);
    forall x | x in ActiveSlabs(rows, contract) ensures x in ActiveSlabs(after, contract) {
      assert x.id in rows && after[x.id] == rows[x.id];
    }
  }

  /** Putting an active slab in the table under a new id inserts it in the listing. */
  lemma PutInserts(rows: Table, contract: int, s: Slab)
    requires TableOk(rows) && s.id !in rows && s.active && Proper(s) && FreshMin(rows, contract, s.id, s.min)
    ensures TableOk(rows[s.id := Row(contract, s)])
    ensures forall x :: x in Listing(rows, contract) ==> x.min != s.min
    ensures Listing(rows[s.id := Row(contract, s)], contract) == InsertByMin(Listing(rows, contract), s)
  {
    PutKeepsConstraints(rows, contract, s);
    var active := ActiveSlabs(rows, contract);
    assert forall x :: x in active ==> x.min != s.min;
    InsertLists(Listing(rows, contract), s, active);
    ListingIsUnique(InsertByMin(Listing(rows, contract), s), Listing(rows[s.id := Row(contract, s)], contract), active + {s});
  }

  /** Deleting an active slab takes it out of the listing. */
  lemma DeleteRemoves(rows: Table, contract: int, k: nat)
    requires TableOk(rows) && k < |Listing(rows, contract)|
    ensures var xs := Listing(rows, contract);
            TableOk(rows - {xs[k].id}) && Listing(rows - {xs[k].id}, contract) == Without(xs, k)
  {
    var xs := Listing(rows, contract);
    var s := xs[k];
    assert s in xs;
    ListingMembers(rows, contract);
    var after, ys := rows - {s.id}, Without(xs, k);
    assert forall i :: i in after ==> i in rows && after[i] == rows[i];
    assert ActiveSlabs(after, contract) == ActiveSlabs(rows, contract) - {s};
    WithoutAscends(xs, k);
    assert xs == xs[..k] + [s] + xs[k + 1..];
    assert forall x :: x in ys <==> x in xs && x != s;
    ListingIsUnique(ys, Listing(after, contract), ActiveSlabs(after, contract));
  }

  lemma ClashBreaksTable(rows: Table, contract: int, s: Slab)
    requires TableOk(rows) && !FreshMin(rows, contract, s.id, s.min)
    ensures !TableOk(rows[s.id := Row(contract, s)])
  {
    var i :| i in rows && i != s.id && rows[i].contract == contract && rows[i].slab.min == s.min;
    var after := rows[s.id := Row(contract, s)];
    assert i in after && after[i] == rows[i] && after[s.id].slab.min == after[i].slab.min;
  }

  /** Creating an active wide slab succeeds exactly as an append with a lower bound not yet used by the contract. */
  lemma CreateCharacterised(rows: Table, contract: int, s: Slab)
    requires WideChain(rows, contract) && s.id !in rows && s.active && Proper(s)
    ensures Kept(rows[s.id := Row(contract, s)], contract, false)
            <==> FreshMin(rows, contract, s.id, s.min) && Appends(Listing(rows, contract), s)
  {
    if FreshMin(rows, contract, s.id, s.min) {
      PutInserts(rows, contract, s);
      ListingMembers(rows, contract);
      AddSucceedsIffAppend(Listing(rows, contract), s);
    } else {
      ClashBreaksTable(rows, contract, s);
    }
  }

  /** Removing an active slab succeeds exactly for the last one. */
  lemma RemoveCharacterised(rows: Table, contract: int, k: nat)
    requires WideChain(rows, contract) && k < |Listing(rows, contract)|
    ensures var xs := Listing(rows, contract);
            Kept(rows - {xs[k].id}, contract, true) <==> k == |xs| - 1
  {
    DeleteRemoves(rows, contract, k);
    ListingMembers(rows, contract);
    var xs := Listing(rows, contract);
    assert xs[0] in xs;
    RemoveSucceedsIffLast(xs, k);
  }

  /** Replacing an active slab by an active wide one succeeds exactly when the new one fits in the same place. */
  lemma UpdateCharacterised(rows: Table, contract: int, k: nat, s: Slab)
    requires WideChain(rows, contract) && k < |Listing(rows, contract)|
    requires s.id == Listing(rows, contract)[k].id && s.active && Proper(s)
    ensures var xs := Listing(rows, contract);
            Kept(rows[s.id := Row(contract, s)], contract, false)
            <==> FreshMin(rows, contract, s.id, s.min) && ChainOk(xs[k := s])
    ensures var xs, after := Listing(rows, contract), rows[s.id := Row(contract, s)];
            Kept(after, contract, false) ==> Listing(after, contract) == xs[k := s]
  {
    var xs := Listing(rows, contract);
    assert xs[k] in xs;
    ListingMembers(rows, contract);
    var without := rows - {s.id};
    var after := rows[s.id := Row(contract, s)];
    assert after == without[s.id := Row(contract, s)];
    DeleteRemoves(rows, contract, k);
    if FreshMin(rows, contract, s.id, s.min) {
      PutInserts(without, contract, s);
      UpdateSucceedsIffInPlace(xs, k, s);
    } else {
      ClashBreaksTable(rows, contract, s);
    }
  }

  /** Switching off an active slab succeeds exactly for the last of several: unlike removal it may not leave none. */
  lemma DeactivateCharacterised(rows: Table, contract: int, k: nat)
    requires WideChain(rows, contract) && k < |Listing(rows, contract)|
    ensures var xs := Listing(rows, contract);
            Kept(rows[xs[k].id := Row(contract, xs[k].(active := false))], contract, false)
            <==> 0 < k == |xs| - 1
  {
    var xs := Listing(rows, contract);
    var s := xs[k];
    assert s in xs;
    ListingMembers(rows, contract);
    var after := rows[s.id := Row(contract, s.(active := false))];
    assert TableOk(after) by {
      forall i | i in after ensures after[i].slab.min == rows[i].slab.min && after[i].contract == rows[i].contract {}
    }
    DeleteRemoves(rows, contract, k);
    var ys := Without(xs, k);
    assert ActiveSlabs(after, contract) == ActiveSlabs(rows - {s.id}, contract) by {
      forall i | i in rows && i != s.id ensures after[i] == rows[i] && (rows - {s.id})[i] == rows[i] {}
    }
    ListingIsUnique(ys, Listing(after, contract), ActiveSlabs(after, contract));
    assert xs[0] in xs;
    RemoveSucceedsIffLast(xs, k);
  }

  // ---------- Inactive slabs ----------

  /** No slab under this id, or an inactive one of this contract. */
  predicate NewOrInactive(rows: Table, contract: int, id: int) {
    id in rows ==> rows[id].contract == contract && !rows[id].slab.active
  }

  lemma InactiveLeavesListing(rows: Table, contract: int, s: Slab)
    requires TableOk(rows) && NewOrInactive(rows, contract, s.id) && FreshMin(rows, contract, s.id, s.min)
    requires !s.active && s.min >= 0.0 && RangeOk(s) && s.rate > 0.0
    ensures var after := rows[s.id := Row(contract, s)];
            TableOk(after) && Listing(after, contract) == Listing(rows, contract)
  {
    var after := rows[s.id := Row(contract, s)];
    assert TableOk(after);
    forall x ensures x in ActiveSlabs(after, contract) <==> x in ActiveSlabs(rows, contract) {
      if x in ActiveSlabs(rows, contract) {
        assert x.id in after && after[x.id] == rows[x.id];
      }
    }
    assert ActiveSlabs(after, contract) == ActiveSlabs(rows, contract);
    ListingIsUnique(Listing(after, contract), Listing(rows, contract), ActiveSlabs(rows, contract));
  }

  /**
   Creating an inactive slab, or editing one that stays inactive, succeeds exactly with an unused lower bound and
   beside at least one active slab: it can never be a contract's first.
   */
  lemma InactiveCharacterised(rows: Table, contract: int, s: Slab)
    requires TableOk(rows) && (Listing(rows, contract) == [] || ChainOk(Listing(rows, contract)))
    requires NewOrInactive(rows, contract, s.id) && !s.active && s.min >= 0.0 && RangeOk(s) && s.rate > 0.0
    ensures Kept(rows[s.id := Row(contract, s)], contract, false)
            <==> FreshMin(rows, contract, s.id, s.min) && Listing(rows, contract) != []
  {
    if FreshMin(rows, contract, s.id, s.min) {
      InactiveLeavesListing(rows, contract, s);
    } else {
      ClashBreaksTable(rows, contract, s);
    }
  }

  lemma WithoutInactive(rows: Table, contract: int, id: int)
    requires TableOk(rows) && id in rows && !rows[id].slab.active
    ensures TableOk(rows - {id}) && Listing(rows - {id}, contract) == Listing(rows, contract)
  {
    var less := rows - {id};
    assert forall i :: i in less ==> less[i] == rows[i];
    forall x ensures x in ActiveSlabs(less, contract) <==> x in ActiveSlabs(rows, contract) {
      if x in ActiveSlabs(rows, contract) {
        assert x.id in less && less[x.id] == rows[x.id];
      }
    }
    assert ActiveSlabs(less, contract) == ActiveSlabs(rows, contract);
    ListingIsUnique(Listing(less, contract), Listing(rows, contract), ActiveSlabs(rows, contract));
  }

  /** Switching an inactive slab on, as a wide one, succeeds exactly as creating it would: as an append. */
  lemma ActivateCharacterised(rows: Table, contract: int, s: Slab)
    requires WideChain(rows, contract) && s.id in rows && NewOrInactive(rows, contract, s.id) && s.active && Proper(s)
    ensures Kept(rows[s.id := Row(contract, s)], contract, false)
            <==> FreshMin(rows, contract, s.id, s.min) && Appends(Listing(rows, contract), s)
  {
    var less := rows - {s.id};
    WithoutInactive(rows, contract, s.id);
    assert rows[s.id := Row(contract, s)] == less[s.id := Row(contract, s)];
    CreateCharacterised(less, contract, s);
    assert forall i :: i in rows && i != s.id ==> i in less && less[i] == rows[i];
    assert FreshMin(less, contract, s.id, s.min) <==> FreshMin(rows, contract, s.id, s.min);
  }

  // ---------- Runs of edits ----------

  /** Every contract's active slabs form an acceptable chain, or there are none. */
  ghost predicate AllChained(rows: Table) {
    TableOk(rows) && forall c :: Listing(rows, c) == [] || ChainOk(Listing(rows, c))
  }

  /** An edit does not touch what it is not about. */
  lemma EditKeepsOthers(rows: Table, e: Edit, c: int)
    requires TableOk(rows) && c != e.contract
    ensures TableOk(After(rows, e)) && Listing(After(rows, e), c) == Listing(rows, c)
  {
    var after := After(rows, e);
    assert TableOk(after);
    OthersActive(rows, e, c);
    ListingIsUnique(Listing(after, c), Listing(rows, c), ActiveSlabs(rows, c));
  }

  lemma OthersActive(rows: Table, e: Edit, c: int)
    requires TableOk(rows) && c != e.contract
    ensures ActiveSlabs(After(rows, e), c) == ActiveSlabs(rows, c)
  {
    var after := After(rows, e);
    forall i ensures i in after && after[i].contract == c <==> i in rows && rows[i].contract == c {}
    forall i | i in rows && rows[i].contract == c ensures after[i] == rows[i] {}
    forall x ensures x in ActiveSlabs(after, c) <==> x in ActiveSlabs(rows, c) {}
  }

  lemma EditKeepsChains(rows: Table, e: Edit)
    requires AllChained(rows)
    ensures AllChained(After(rows, e))
  {
    forall c ensures Listing(After(rows, e), c) == [] || ChainOk(Listing(After(rows, e), c)) {
      if c != e.contract { EditKeepsOthers(rows, e, c); }
    }
  }

  ghost function Run(rows: Table, edits: seq<Edit>): Table
    decreases |edits|
  {
    if edits == [] then rows else Run(After(rows, edits[0]), edits[1..])
  }

  /** Whatever edits are tried: in every table they lead to, each contract's active slabs form a chain or are none. */
  lemma {:induction false} RunKeepsChains(rows: Table, edits: seq<Edit>)
    requires AllChained(rows)
    ensures AllChained(Run(rows, edits))
    decreases |edits|
  {
    if edits != [] {
      EditKeepsChains(rows, edits[0]);
      RunKeepsChains(After(rows, edits[0]), edits[1..]);
    }
  }
}
