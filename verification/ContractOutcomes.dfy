/**
 What each contract and vehicle request does, told by the columns of the tables alone: exactly when it is
 accepted, what it then writes, and that a refusal names a reason that holds.
 */
module ContractOutcomes {
  import opened Common
  import opened ContractMatching

  /** The vehicle type is one of the vendor's. */
  predicate Owned(f: Fleet, vendor: int, vehicleType: int) {
    vehicleType in f.vehicleTypes && f.vehicleTypes[vehicleType] == vendor
  }

  /** Contract `c` is the vendor's for the vehicle type. */
  predicate Is(f: Fleet, c: int, vendor: int, vehicleType: int) {
    c in f.contracts && f.contracts[c].vendor == vendor && f.contracts[c].vehicleType == vehicleType
  }

  predicate Uses(f: Fleet, v: int, contract: int) {
    v in f.vehicles && f.vehicles[v].contract == Some(contract)
  }

  lemma CreateContractOutcome(f: Fleet, op: Op)
    requires op.CreateContract?
    ensures Apply(f, op).1 == None <==>
              && Owned(f, op.vendor, op.vehicleType) && !op.nameTaken && op.id !in f.contracts
              && forall c :: !Is(f, c, op.vendor, op.vehicleType)
    ensures Apply(f, op).1 == None ==>
              Apply(f, op).0 == f.(contracts := f.contracts[op.id := Contract(op.vendor, op.vehicleType, op.active)])
    ensures Apply(f, op).1 != None ==> Apply(f, op).0 == f
  {
    ExistsMeans(f, op.vendor, op.vehicleType);
  }

  lemma ExistsMeans(f: Fleet, vendor: int, vehicleType: int)
    ensures ContractExists(f, vendor, vehicleType) <==> exists c :: Is(f, c, vendor, vehicleType)
  {
    if c :| c in f.contracts && f.contracts[c].vendor == vendor && f.contracts[c].vehicleType == vehicleType {
      assert Is(f, c, vendor, vehicleType);
    }
  }

  lemma DuplicateMeans(f: Fleet, id: int, vehicleType: int)
    requires id in f.contracts
    ensures DuplicateOf(f, id, vehicleType) <==> exists c :: Is(f, c, f.contracts[id].vendor, vehicleType) && c != id
  {
    if c :| c in f.contracts && c != id && f.contracts[c].vendor == f.contracts[id].vendor
            && f.contracts[c].vehicleType == vehicleType {
      assert Is(f, c, f.contracts[id].vendor, vehicleType);
    }
  }

  lemma UsersMean(f: Fleet, contract: int)
    ensures UsersOf(f, contract) == {} <==> forall v :: !Uses(f, v, contract)
  {
    if v :| Uses(f, v, contract) {
      assert v in UsersOf(f, contract);
    } else {
      forall v ensures v !in UsersOf(f, contract) {
        assert !Uses(f, v, contract);
      }
    }
  }

  lemma UpdateContractOutcome(f: Fleet, op: Op)
    requires op.UpdateContract?
    ensures Apply(f, op).1 == None <==>
              && op.id in f.contracts && op.allowed && !op.nameTaken && op.newType != Null && op.newActive != Null
              && (op.newType.Put? ==>
                    && Owned(f, f.contracts[op.id].vendor, op.newType.value)
                    && (op.newType.value == f.contracts[op.id].vehicleType || forall v :: !Uses(f, v, op.id))
                    && forall c :: Is(f, c, f.contracts[op.id].vendor, op.newType.value) ==> c == op.id)
    ensures Apply(f, op).1 == None ==>
              var c := f.contracts[op.id];
              Apply(f, op).0 ==
              f.(contracts := f.contracts[op.id := Contract(c.vendor,
                                                            if op.newType == Keep then c.vehicleType else op.newType.value,
                                                            if op.newActive == Keep then c.active else op.newActive.value)])
    ensures Apply(f, op).1 != None ==> Apply(f, op).0 == f
  {
    UsersMean(f, op.id);
    if op.id in f.contracts && op.newType.Put? {
      DuplicateMeans(f, op.id, op.newType.value);
    }
  }

  lemma ToggleContractOutcome(f: Fleet, op: Op)
    requires op.ToggleContract?
    ensures Apply(f, op).1 == None <==> op.id in f.contracts && op.allowed
    ensures Apply(f, op).1 == None ==>
              var c := f.contracts[op.id];
              Apply(f, op).0 == f.(contracts := f.contracts[op.id := Contract(c.vendor, c.vehicleType, !c.active)])
    ensures Apply(f, op).1 != None ==> Apply(f, op).0 == f
  {
  }

  lemma DeleteContractOutcome(f: Fleet, op: Op)
    requires op.DeleteContract?
    ensures Apply(f, op).1 == None <==>
              op.id in f.contracts && op.allowed && (op.force || forall v :: !Uses(f, v, op.id))
    ensures Apply(f, op).1 == None ==>
              var c, g := f.contracts[op.id], Apply(f, op).0;
              && g.contracts == f.contracts[op.id := Contract(c.vendor, c.vehicleType, false)]
              && g.vehicleTypes == f.vehicleTypes && g.vehicles.Keys == f.vehicles.Keys
              && forall v :: v in f.vehicles ==>
                               g.vehicles[v] == if Uses(f, v, op.id) then f.vehicles[v].(contract := None) else f.vehicles[v]
    ensures Apply(f, op).1 != None ==> Apply(f, op).0 == f
  {
    UsersMean(f, op.id);
  }

  lemma CreateVehicleOutcome(f: Fleet, op: Op)
    requires op.CreateVehicle?
    ensures Apply(f, op).1 == None <==>
              && op.contractId > 0 && Owned(f, op.vendor, op.vehicleType) && op.driverOk && op.fieldsOk
              && op.id !in f.vehicles && Is(f, op.contractId, op.vendor, op.vehicleType)
              && f.contracts[op.contractId].active
    ensures Apply(f, op).1 == None ==>
              Apply(f, op).0 ==
              f.(vehicles := f.vehicles[op.id := Vehicle(op.vendor, op.vehicleType, Some(op.contractId), true)])
    ensures Apply(f, op).1 != None ==> Apply(f, op).0 == f
  {
  }

  /** With KeepingEditAcceptedIff and NamingEditAcceptedIff beside it: clearing the contract, and what is written. */
  lemma PutVehicleOutcome(f: Fleet, op: Op)
    requires op.PutVehicle?
    ensures op.contractField == Some(0) ==>
              (Apply(f, op).1 == None <==>
                 && op.id in f.vehicles && op.allowed && op.driverOk && op.fieldsOk
                 && (op.typeField.Some? ==> op.typeField.value in f.vehicleTypes)
                 && (op.typeField.Some? && op.typeField.value != 0
                     ==> Owned(f, f.vehicles[op.id].vendor, op.typeField.value)))
    ensures Apply(f, op).1 == None ==>
              && op.id in f.vehicles
              && var v := f.vehicles[op.id];
                 var vehicleType := if op.typeField == None then v.vehicleType else op.typeField.value;
                 var contract := if op.contractField == None then v.contract
                                 else if op.contractField == Some(0) then None else op.contractField;
                 Apply(f, op).0 == f.(vehicles := f.vehicles[op.id := Vehicle(v.vendor, vehicleType, contract, v.active)])
    ensures Apply(f, op).1 != None ==> Apply(f, op).0 == f
  {
  }

  lemma SetVehicleActiveOutcome(f: Fleet, op: Op)
    requires op.SetVehicleActive?
    ensures Apply(f, op).1 == None <==> op.id in f.vehicles && op.allowed
    ensures Apply(f, op).1 == None ==>
              var v := f.vehicles[op.id];
              Apply(f, op).0 ==
              f.(vehicles := f.vehicles[op.id := Vehicle(v.vendor, v.vehicleType, v.contract, op.active)])
    ensures Apply(f, op).1 != None ==> Apply(f, op).0 == f
  {
  }

  // ---------- Refusals ----------

  /** The contract that a vehicle request names. */
  function Named(op: Op): int {
    match op
    case CreateVehicle(_, _, _, c, _, _) => c
    case PutVehicle(_, _, c, _, _, _) => if c.Some? then c.value else 0
    case _ => op.id
  }

  ghost predicate ReasonHolds(f: Fleet, op: Op, e: Error) {
    match e
    case InvalidVehicleType =>
      match op {
        case CreateContract(_, vendor, vt, _, _) => !Owned(f, vendor, vt)
        case CreateVehicle(_, vendor, vt, _, _, _) => !Owned(f, vendor, vt)
        case UpdateContract(id, vt, _, _, _) =>
          id in f.contracts && (vt == Null || (vt.Put? && !Owned(f, f.contracts[id].vendor, vt.value)))
        case PutVehicle(id, vt, _, _, _, _) => id in f.vehicles && vt.Some? && !Owned(f, f.vehicles[id].vendor, vt.value)
        case _ => false
      }
    case ContractNameConflict => (op.CreateContract? || op.UpdateContract?) && op.nameTaken
    case VehicleTypeConflict =>
      || (op.CreateContract? && exists c :: Is(f, c, op.vendor, op.vehicleType))
      || (op.UpdateContract? && op.id in f.contracts && op.newType.Put?
          && exists c :: Is(f, c, f.contracts[op.id].vendor, op.newType.value) && c != op.id)
    case ContractNotFound => Named(op) !in f.contracts
    case ContractAssigned => (op.UpdateContract? || op.DeleteContract?) && exists v :: Uses(f, v, op.id)
    case ContractInactive => Named(op) in f.contracts && !f.contracts[Named(op)].active
    case InvalidContractVendor =>
      Named(op) in f.contracts && ((op.CreateVehicle? && f.contracts[Named(op)].vendor != op.vendor)
                                   || (op.PutVehicle? && op.id in f.vehicles
                                       && f.contracts[Named(op)].vendor != f.vehicles[op.id].vendor))
    case InvalidContractVehicleType =>
      Named(op) in f.contracts
      && ((op.CreateVehicle? && f.contracts[Named(op)].vehicleType != op.vehicleType)
          || (op.PutVehicle? && op.id in f.vehicles
              && f.contracts[Named(op)].vehicleType != (if Truthy(op.typeField) then op.typeField.value
                                                        else f.vehicles[op.id].vehicleType)))
    case CurrentContractMismatch =>
      op.PutVehicle? && op.contractField == None && op.typeField.Some? && op.id in f.vehicles
      && f.vehicles[op.id].contract.Some? && f.vehicles[op.id].contract.value in f.contracts
      && f.contracts[f.vehicles[op.id].contract.value].vehicleType != op.typeField.value
    case InvalidDriver => (op.CreateVehicle? || op.PutVehicle?) && !op.driverOk
    case VehicleNotFound => (op.PutVehicle? || op.SetVehicleActive?) && op.id !in f.vehicles
    case Forbidden => !op.CreateContract? && !op.CreateVehicle? && !op.allowed
    case InvalidForm => op.CreateVehicle? && op.contractId <= 0
    case Database =>
      match op {
        case CreateContract(id, _, _, _, _) => id in f.contracts
        case CreateVehicle(id, _, _, _, _, fieldsOk) => id in f.vehicles || !fieldsOk
        case UpdateContract(_, _, active, _, _) => active == Null
        case PutVehicle(_, vt, _, _, _, fieldsOk) => (vt.Some? && vt.value !in f.vehicleTypes) || !fieldsOk
        case _ => false
      }
  }

  lemma ContractRefusalIsTrue(f: Fleet, op: Op)
    requires Apply(f, op).1.Some? && (op.CreateContract? || op.UpdateContract? || op.ToggleContract? || op.DeleteContract?)
    ensures ReasonHolds(f, op, Apply(f, op).1.value)
  {
    match op
    case CreateContract(_, vendor, vt, _, _) => ExistsMeans(f, vendor, vt);
    case DeleteContract(id, _, _) => UsersMean(f, id);
    case UpdateContract(id, vt, _, _, _) =>
      UsersMean(f, id);
      if id in f.contracts && vt.Put? { DuplicateMeans(f, id, vt.value); }
    case _ =>
  }

  lemma VehicleRefusalIsTrue(f: Fleet, op: Op)
    requires Apply(f, op).1.Some? && (op.CreateVehicle? || op.PutVehicle? || op.SetVehicleActive?)
    ensures ReasonHolds(f, op, Apply(f, op).1.value)
  {
  }

  /** A refused request names a reason that holds. */
  lemma RefusalIsTrue(f: Fleet, op: Op)
    requires Apply(f, op).1.Some?
    ensures ReasonHolds(f, op, Apply(f, op).1.value)
  {
    if op.CreateVehicle? || op.PutVehicle? || op.SetVehicleActive? {
      VehicleRefusalIsTrue(f, op);
    } else {
      ContractRefusalIsTrue(f, op);
    }
  }
}
