/**
 Contracts and the vehicles that use them. Every request that writes either table keeps each vehicle's
 contract on the vehicle's own vendor and vehicle type. One request is one atomic step; a refused request is
 rolled back.
 */
module ContractMatching {
  import opened Common

  datatype Contract = Contract(vendor: int, vehicleType: int, active: bool)

  datatype Vehicle = Vehicle(vendor: int, vehicleType: int, contract: Option<int>, active: bool)

  // vehicleTypes maps a vehicle type to its vendor.
  datatype Fleet = Fleet(vehicleTypes: map<int, int>, contracts: map<int, Contract>, vehicles: map<int, Vehicle>)

  datatype Error =
    | InvalidVehicleType | ContractNameConflict | VehicleTypeConflict | ContractNotFound | ContractAssigned
    | ContractInactive | InvalidContractVendor | InvalidContractVehicleType | CurrentContractMismatch | InvalidDriver
    | VehicleNotFound | Forbidden | InvalidForm | Database

  // allowed, nameTaken, driverOk and fieldsOk stand for the caller's access, the name search, the driver checks and the
  // other columns' constraints. A form field of PutVehicle is None when it is not sent; contract 0 clears the contract.
  datatype Op =
    | CreateContract(id: int, vendor: int, vehicleType: int, active: bool, nameTaken: bool)
    | UpdateContract(id: int, newType: Patch<int>, newActive: Patch<bool>, allowed: bool, nameTaken: bool)
    | ToggleContract(id: int, allowed: bool)
    | DeleteContract(id: int, allowed: bool, force: bool)
    | CreateVehicle(id: int, vendor: int, vehicleType: int, contractId: int, driverOk: bool, fieldsOk: bool)
    | PutVehicle(id: int, typeField: Option<int>, contractField: Option<int>, allowed: bool, driverOk: bool,
                 fieldsOk: bool)
    | SetVehicleActive(id: int, active: bool, allowed: bool)

  // ---------- Checks ----------

  predicate TypeOfVendor(f: Fleet, vendor: int, vehicleType: int) {
    vehicleType in f.vehicleTypes && f.vehicleTypes[vehicleType] == vendor
  }

  predicate ContractExists(f: Fleet, vendor: int, vehicleType: int) {
    exists c :: c in f.contracts && f.contracts[c].vendor == vendor && f.contracts[c].vehicleType == vehicleType
  }

  function UsersOf(f: Fleet, contract: int): set<int> {
    set v | v in f.vehicles && f.vehicles[v].contract == Some(contract)
  }

  /** The four checks on a contract that a request names for a vehicle. */
  function ContractError(f: Fleet, vendor: int, vehicleType: int, contract: int): Option<Error> {
    if contract !in f.contracts then Some(ContractNotFound) else
      var c := f.contracts[contract];
      if !c.active then Some(ContractInactive)
      else if c.vendor != vendor then Some(InvalidContractVendor)
      else if vehicleType != c.vehicleType then Some(InvalidContractVehicleType)
      else None
  }

  // ---------- The store ----------

  class FleetStore {
    const vehicleTypes: map<int, int>
    var contracts: map<int, Contract>
    var vehicles: map<int, Vehicle>

    function State(): Fleet
      reads this
    {
      Fleet(vehicleTypes, contracts, vehicles)
    }

    method CreateContract(op: Op) returns (error: Option<Error>)
      requires op.CreateContract?
      modifies this
      ensures (State(), error) == Apply(old(State()), op)
      ensures Inv(old(State())) ==> Inv(State())
      ensures vehicles == old(vehicles) && (error.None? ==> ContractExists(State(), op.vendor, op.vehicleType))
      ensures ContractExists(old(State()), op.vendor, op.vehicleType) ==> error.Some? && contracts == old(contracts)
    {
      if Inv(State()) { StepKeepsInv(State(), op); }
      if !TypeOfVendor(State(), op.vendor, op.vehicleType) {
        return Some(InvalidVehicleType);
      }
      if op.nameTaken {
        return Some(ContractNameConflict);
      }
      if ContractExists(State(), op.vendor, op.vehicleType) {
        return Some(VehicleTypeConflict);
      }
      if op.id in contracts {
        return Some(Database);
      }
      contracts := contracts[op.id := Contract(op.vendor, op.vehicleType, op.active)];
      assert State().contracts[op.id].vendor == op.vendor;
      error := None;
    }

    method UpdateContract(op: Op) returns (error: Option<Error>)
      requires op.UpdateContract?
      modifies this
      ensures (State(), error) == Apply(old(State()), op)
      ensures Inv(old(State())) ==> Inv(State())
      ensures vehicles == old(vehicles) && contracts.Keys == old(contracts.Keys)
      ensures UsersOf(old(State()), op.id) != {} && op.id in contracts ==>
                contracts[op.id].vehicleType == old(contracts)[op.id].vehicleType
    {
      if Inv(State()) { StepKeepsInv(State(), op); }
      if op.id !in contracts {
        return Some(ContractNotFound);
      }
      if !op.allowed {
        return Some(Forbidden);
      }
      var row := contracts[op.id];
      if op.nameTaken {
        return Some(ContractNameConflict);
      }
      if !op.newType.Keep? {
        if op.newType.Null? || !TypeOfVendor(State(), row.vendor, op.newType.value) {
          return Some(InvalidVehicleType);
        }
        if op.newType.value != row.vehicleType && UsersOf(State(), op.id) != {} {
          return Some(ContractAssigned);
        }
        if DuplicateOf(State(), op.id, op.newType.value) {
          return Some(VehicleTypeConflict);
        }
        row := row.(vehicleType := op.newType.value);
      }
      if op.newActive.Null? {
        return Some(Database);
      }
      if op.newActive.Put? {
        row := row.(active := op.newActive.value);
      }
      contracts := contracts[op.id := row];
      error := None;
    }

    method ToggleContract(op: Op) returns (error: Option<Error>)
      requires op.ToggleContract?
      modifies this
      ensures (State(), error) == Apply(old(State()), op)
      ensures Inv(old(State())) ==> Inv(State())
      ensures error.None? ==> Apply(State(), op) == (old(State()), None)
    {
      if Inv(State()) { StepKeepsInv(State(), op); }
      if op.id !in contracts {
        return Some(ContractNotFound);
      }
      if !op.allowed {
        return Some(Forbidden);
      }
      ghost var before := contracts;
      contracts := contracts[op.id := contracts[op.id].(active := !contracts[op.id].active)];
      assert contracts[op.id := before[op.id]] == before;
      error := None;
    }

    method DeleteContract(op: Op) returns (error: Option<Error>)
      requires op.DeleteContract?
      modifies this
      ensures (State(), error) == Apply(old(State()), op)
      ensures Inv(old(State())) ==> Inv(State())
      ensures error.None? ==> UsersOf(State(), op.id) == {} && !contracts[op.id].active
    {
      if Inv(State()) { StepKeepsInv(State(), op); }
      var id := op.id;
      if id !in contracts {
        return Some(ContractNotFound);
      }
      if !op.allowed {
        return Some(Forbidden);
      }
      var users := UsersOf(State(), id);
      if users != {} && !op.force {
        return Some(ContractAssigned);
      }
      if users != {} {
        vehicles := map v | v in vehicles :: if v in users then vehicles[v].(contract := None) else vehicles[v];
      } else {
        forall v | v in vehicles ensures vehicles[v].contract != Some(id) { assert v !in users; }
      }
      assert vehicles == Unassigned(old(State()), id).vehicles;
      contracts := contracts[id := contracts[id].(active := false)];
      error := None;
    }

    method CreateVehicle(op: Op) returns (error: Option<Error>)
      requires op.CreateVehicle?
      modifies this
      ensures (State(), error) == Apply(old(State()), op)
      ensures Inv(old(State())) ==> Inv(State())
      ensures error.None? ==> vehicles[op.id].contract == Some(op.contractId) && contracts[op.contractId].active
    {
      if Inv(State()) { StepKeepsInv(State(), op); }
      if op.contractId <= 0 {
        return Some(InvalidForm);
      }
      if !TypeOfVendor(State(), op.vendor, op.vehicleType) {
        return Some(InvalidVehicleType);
      }
      if !op.driverOk {
        return Some(InvalidDriver);
      }
      error := ContractError(State(), op.vendor, op.vehicleType, op.contractId);
      if error.Some? {
        return;
      }
      if op.id in vehicles || !op.fieldsOk {
        return Some(Database);
      }
      vehicles := vehicles[op.id := Vehicle(op.vendor, op.vehicleType, Some(op.contractId), true)];
    }

    method PutVehicle(op: Op) returns (error: Option<Error>)
      requires op.PutVehicle?
      modifies this
      ensures (State(), error) == Apply(old(State()), op)
      ensures Inv(old(State())) ==> Inv(State())
      ensures contracts == old(contracts) && vehicles.Keys == old(vehicles.Keys)
      ensures forall v :: v in vehicles && v != op.id ==> vehicles[v] == old(vehicles)[v]
      ensures error.None? && op.contractField.None? ==> vehicles[op.id].contract == old(vehicles)[op.id].contract
      ensures error.None? && op.contractField == Some(0) ==> vehicles[op.id].contract == None
      ensures error.None? && Truthy(op.contractField) ==>
                && vehicles[op.id].contract == op.contractField && op.contractField.value in contracts
                && contracts[op.contractField.value].active
    {
      if Inv(State()) { StepKeepsInv(State(), op); }
      if op.id !in vehicles {
        return Some(VehicleNotFound);
      }
      if !op.allowed {
        return Some(Forbidden);
      }
      var row := vehicles[op.id];
      if Truthy(op.typeField) && !TypeOfVendor(State(), row.vendor, op.typeField.value) {
        return Some(InvalidVehicleType);
      }
      if op.contractField.Some? {
        if op.contractField.value != 0 {
          var finalType := if Truthy(op.typeField) then op.typeField.value else row.vehicleType;
          error := ContractError(State(), row.vendor, finalType, op.contractField.value);
          if error.Some? {
            return;
          }
        }
      } else if Truthy(op.typeField) && Truthy(row.contract) {
        if row.contract.value in contracts && contracts[row.contract.value].vehicleType != op.typeField.value {
          return Some(CurrentContractMismatch);
        }
      }
      if !op.driverOk {
        return Some(InvalidDriver);
      }
      if op.typeField.Some? {
        row := row.(vehicleType := op.typeField.value);
      }
      if op.contractField.Some? {
        row := row.(contract := if op.contractField.value == 0 then None else op.contractField);
      }
      if (op.typeField.Some? && op.typeField.value !in vehicleTypes) || !op.fieldsOk {
        return Some(Database);
      }
      vehicles := vehicles[op.id := row];
      error := None;
    }

    method SetVehicleActive(op: Op) returns (error: Option<Error>)
      requires op.SetVehicleActive?
      modifies this
      ensures (State(), error) == Apply(old(State()), op)
      ensures Inv(old(State())) ==> Inv(State())
      ensures contracts == old(contracts) && forall c :: UsersOf(State(), c) == UsersOf(old(State()), c)
    {
      if Inv(State()) { StepKeepsInv(State(), op); }
      if op.id !in vehicles {
        return Some(VehicleNotFound);
      }
      if !op.allowed {
        return Some(Forbidden);
      }
      vehicles := vehicles[op.id := vehicles[op.id].(active := op.active)];
      error := None;
    }
  }

  // ---------- The requests as steps ----------

  /** Another contract of the same vendor already has this vehicle type. */
  predicate DuplicateOf(f: Fleet, id: int, vehicleType: int)
    requires id in f.contracts
  {
    exists c :: c in f.contracts && c != id && f.contracts[c].vendor == f.contracts[id].vendor
                && f.contracts[c].vehicleType == vehicleType
  }

  function Unassigned(f: Fleet, contract: int): Fleet {
    f.(vehicles := map v | v in f.vehicles ::
         if f.vehicles[v].contract == Some(contract) then f.vehicles[v].(contract := None) else f.vehicles[v])
  }

  function UpdateContractError(f: Fleet, op: Op): Option<Error>
    requires op.UpdateContract?
  {
    if op.id !in f.contracts then Some(ContractNotFound)
    else if !op.allowed then Some(Forbidden)
    else if op.nameTaken then Some(ContractNameConflict)
    else if op.newType.Null? then Some(InvalidVehicleType)
    else if op.newType.Put? && !TypeOfVendor(f, f.contracts[op.id].vendor, op.newType.value) then Some(InvalidVehicleType)
    else if op.newType.Put? && op.newType.value != f.contracts[op.id].vehicleType && UsersOf(f, op.id) != {}
    then Some(ContractAssigned)
    else if op.newType.Put? && DuplicateOf(f, op.id, op.newType.value) then Some(VehicleTypeConflict)
    else if op.newActive.Null? then Some(Database)
    else None
  }

  function Or<T>(p: Patch<T>, kept: T): T
    requires !p.Null?
  {
    if p.Put? then p.value else kept
  }

  /** A contract that is sent is checked against the final vehicle type; a kept one only if a vehicle type is sent. */
  function PutContractError(f: Fleet, v: Vehicle, typeField: Option<int>, contractField: Option<int>): Option<Error> {
    if contractField.Some? then
      if contractField.value == 0 then None
      else ContractError(f, v.vendor, if Truthy(typeField) then typeField.value else v.vehicleType, contractField.value)
    else if Truthy(typeField) && Truthy(v.contract) && v.contract.value in f.contracts
            && f.contracts[v.contract.value].vehicleType != typeField.value then Some(CurrentContractMismatch)
    else None
  }

  function PutVehicleError(f: Fleet, op: Op): Option<Error>
    requires op.PutVehicle?
  {
    if op.id !in f.vehicles then Some(VehicleNotFound)
    else if !op.allowed then Some(Forbidden)
    else
      var v := f.vehicles[op.id];
      var e := PutContractError(f, v, op.typeField, op.contractField);
      if Truthy(op.typeField) && !TypeOfVendor(f, v.vendor, op.typeField.value) then Some(InvalidVehicleType)
      else if e.Some? then e
      else if !op.driverOk then Some(InvalidDriver)
      else if (op.typeField.Some? && op.typeField.value !in f.vehicleTypes) || !op.fieldsOk then Some(Database)
      else None
  }

  function PutRow(v: Vehicle, op: Op): Vehicle
    requires op.PutVehicle?
  {
    v.(vehicleType := if op.typeField.Some? then op.typeField.value else v.vehicleType,
       contract := if op.contractField.None? then v.contract
                   else if op.contractField.value == 0 then None else op.contractField)
  }

  function Apply(f: Fleet, op: Op): (Fleet, Option<Error>) {
    match op
    case CreateContract(id, vendor, vt, active, nameTaken) =>
      if !TypeOfVendor(f, vendor, vt) then (f, Some(InvalidVehicleType))
      else if nameTaken then (f, Some(ContractNameConflict))
      else if ContractExists(f, vendor, vt) then (f, Some(VehicleTypeConflict))
      else if id in f.contracts then (f, Some(Database))
      else (f.(contracts := f.contracts[id := Contract(vendor, vt, active)]), None)
    case UpdateContract(id, vt, active, _, _) =>
      var e := UpdateContractError(f, op);
      if e.Some? then (f, e) else
        var c := f.contracts[id];
        (f.(contracts := f.contracts[id := c.(vehicleType := Or(vt, c.vehicleType), active := Or(active, c.active))]), None)
    case ToggleContract(id, allowed) =>
      if id !in f.contracts then (f, Some(ContractNotFound))
      else if !allowed then (f, Some(Forbidden))
      else (f.(contracts := f.contracts[id := f.contracts[id].(active := !f.contracts[id].active)]), None)
    case DeleteContract(id, allowed, force) =>
      if id !in f.contracts then (f, Some(ContractNotFound))
      else if !allowed then (f, Some(Forbidden))
      else if UsersOf(f, id) != {} && !force then (f, Some(ContractAssigned))
      else (Unassigned(f, id).(contracts := f.contracts[id := f.contracts[id].(active := false)]), None)
    case CreateVehicle(id, vendor, vt, contract, driverOk, fieldsOk) =>
      if contract <= 0 then (f, Some(InvalidForm))
      else if !TypeOfVendor(f, vendor, vt) then (f, Some(InvalidVehicleType))
      else if !driverOk then (f, Some(InvalidDriver))
      else
        var e := ContractError(f, vendor, vt, contract);
        if e.Some? then (f, e)
        else if id in f.vehicles || !fieldsOk then (f, Some(Database))
        else (f.(vehicles := f.vehicles[id := Vehicle(vendor, vt, Some(contract), true)]), None)
    case PutVehicle(id, _, _, _, _, _) =>
      var e := PutVehicleError(f, op);
      if e.Some? then (f, e) else (f.(vehicles := f.vehicles[id := PutRow(f.vehicles[id], op)]), None)
    case SetVehicleActive(id, active, allowed) =>
      if id !in f.vehicles then (f, Some(VehicleNotFound))
      else if !allowed then (f, Some(Forbidden))
      else (f.(vehicles := f.vehicles[id := f.vehicles[id].(active := active)]), None)
  }

  function Run(f: Fleet, ops: seq<Op>): Fleet
    decreases |ops|
  {
    if ops == [] then f else Run(Apply(f, ops[0]).0, ops[1..])
  }

  // ---------- What every run keeps ----------

  /** Each vehicle's contract exists and has the vehicle's vendor and vehicle type. */
  ghost predicate Matched(f: Fleet) {
    forall v :: v in f.vehicles && f.vehicles[v].contract.Some? ==>
                  var c := f.vehicles[v].contract.value;
                  && c != 0 && c in f.contracts && f.contracts[c].vendor == f.vehicles[v].vendor
                  && f.contracts[c].vehicleType == f.vehicles[v].vehicleType
  }

  ghost predicate OneContractEach(f: Fleet) {
    forall c, d :: c in f.contracts && d in f.contracts && f.contracts[c].vendor == f.contracts[d].vendor
                   && f.contracts[c].vehicleType == f.contracts[d].vehicleType
                   ==> c == d
  }

  /** A contract's vehicle type belongs to the contract's vendor. */
  ghost predicate TypesOwned(f: Fleet) {
    forall c :: c in f.contracts ==> TypeOfVendor(f, f.contracts[c].vendor, f.contracts[c].vehicleType)
  }

  /** The three properties. The ids of vehicle types are generated from 1. */
  ghost predicate Inv(f: Fleet) {
    Matched(f) && OneContractEach(f) && TypesOwned(f) && 0 !in f.vehicleTypes
  }

  lemma StepMatched(f: Fleet, op: Op)
    requires Matched(f) && 0 !in f.vehicleTypes
    ensures Matched(Apply(f, op).0)
  {
    if op.UpdateContract? && Apply(f, op).1.None? {
      assert forall v :: v in f.vehicles && f.vehicles[v].contract == Some(op.id) ==> v in UsersOf(f, op.id);
    }
  }

  lemma StepContracts(f: Fleet, op: Op)
    requires OneContractEach(f) && TypesOwned(f)
    ensures OneContractEach(Apply(f, op).0) && TypesOwned(Apply(f, op).0)
  {
  }

  lemma StepKeepsInv(f: Fleet, op: Op)
    requires Inv(f)
    ensures Inv(Apply(f, op).0)
  {
    StepMatched(f, op);
    StepContracts(f, op);
  }

  lemma {:induction false} RunKeepsInv(f: Fleet, ops: seq<Op>)
    requires Inv(f)
    ensures Inv(Run(f, ops))
    decreases |ops|
  {
    if ops != [] {
      StepKeepsInv(f, ops[0]);
      RunKeepsInv(Apply(f, ops[0]).0, ops[1..]);
    }
  }

  /** Every vehicle on contract terms has a vehicle type of its own vendor, in every state a run reaches. */
  lemma VehicleTypesAreTheVendors(f: Fleet, ops: seq<Op>, v: int)
    requires Inv(f)
    ensures var g := Run(f, ops);
            v in g.vehicles && g.vehicles[v].contract.Some?
            ==> TypeOfVendor(g, g.vehicles[v].vendor, g.vehicles[v].vehicleType)
  {
    RunKeepsInv(f, ops);
  }

  /** An operation that could make an inactive contract active again. */
  predicate Reactivates(op: Op, contract: int) {
    || (op.ToggleContract? && op.id == contract)
    || (op.UpdateContract? && op.id == contract && op.newActive == Put(true))
  }

  lemma StepKeepsRetired(f: Fleet, op: Op, contract: int)
    requires contract in f.contracts && !f.contracts[contract].active && UsersOf(f, contract) == {}
    requires !Reactivates(op, contract)
    ensures var g := Apply(f, op).0;
            contract in g.contracts && !g.contracts[contract].active && UsersOf(g, contract) == {}
  {
    var g := Apply(f, op).0;
    forall v | v in g.vehicles ensures g.vehicles[v].contract != Some(contract) {
      if v in f.vehicles { assert v !in UsersOf(f, contract); }
    }
  }

  /** A deleted contract has no vehicles, and gets none back until somebody reactivates it. */
  lemma {:induction false} DeletedStaysUnused(f: Fleet, contract: int, force: bool, ops: seq<Op>)
    requires Inv(f) && Apply(f, DeleteContract(contract, true, force)).1.None?
    requires forall op :: op in ops ==> !Reactivates(op, contract)
    ensures UsersOf(Run(f, [DeleteContract(contract, true, force)] + ops), contract) == {}
  {
    var all := [DeleteContract(contract, true, force)] + ops;
    assert all[1..] == ops;
    var g := Apply(f, all[0]).0;
    assert UsersOf(g, contract) == {};
    RetiredRun(g, contract, ops);
  }

  lemma {:induction false} RetiredRun(f: Fleet, contract: int, ops: seq<Op>)
    requires contract in f.contracts && !f.contracts[contract].active && UsersOf(f, contract) == {}
    requires forall op :: op in ops ==> !Reactivates(op, contract)
    ensures UsersOf(Run(f, ops), contract) == {}
    decreases |ops|
  {
    if ops != [] {
      StepKeepsRetired(f, ops[0], contract);
      RetiredRun(Apply(f, ops[0]).0, contract, ops[1..]);
    }
  }

  /** What every accepted edit of a vehicle needs besides its contract. */
  predicate Editable(f: Fleet, op: Op)
    requires op.PutVehicle?
  {
    op.id in f.vehicles && op.allowed && op.driverOk && op.fieldsOk
  }

  /**
   An edit that leaves the contract as it is goes through exactly when it sends no vehicle type, or one of the
   vendor's own that a vehicle on a contract already has. Whether the contract is active does not matter.
   */
  lemma KeepingEditAcceptedIff(f: Fleet, op: Op)
    requires Inv(f) && op.PutVehicle? && op.contractField.None?
    ensures Apply(f, op).1.None?
            <==> && Editable(f, op)
                 && (op.typeField.Some? ==>
                       && TypeOfVendor(f, f.vehicles[op.id].vendor, op.typeField.value)
                       && (f.vehicles[op.id].contract.Some? ==> op.typeField.value == f.vehicles[op.id].vehicleType))
  {
  }

  /** An edit that names a contract goes through exactly when the contract is active and fits the final vehicle type. */
  lemma NamingEditAcceptedIff(f: Fleet, op: Op)
    requires Inv(f) && op.PutVehicle? && Truthy(op.contractField)
    ensures Apply(f, op).1.None?
            <==> && Editable(f, op) && op.contractField.value in f.contracts
                 && var c, v := f.contracts[op.contractField.value], f.vehicles[op.id];
                   c.active && c.vendor == v.vendor
                   && c.vehicleType == if op.typeField.Some? then op.typeField.value else v.vehicleType
  {
    if op.contractField.value in f.contracts {
      assert TypeOfVendor(f, f.contracts[op.contractField.value].vendor, f.contracts[op.contractField.value].vehicleType);
    }
  }
}
