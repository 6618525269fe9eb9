# A verified model of the fleet manager's protocols

The fleet manager runs employee transport: drivers carry employees along routes of ordered stops, vendors price
trips by kilometre slabs, permissions come from roles behind a tenant's package, and alerts, announcements, logs and
monitoring surround it. This project models the parts that hold state or decide things, in Dafny, and proves what the
code promises about them over every run.

| files | what they model |
|---|---|
| `Trips`, `TripOutcomes`, `TripSafety`, `TripShifts`, `TripProgress`, `TripNextStop`, `TripStores`, `TripReports` | the driver trip protocol: tables, the seven requests, invariants over all runs, bookings without a shift row, progress, the next stop, the history report and the hub groups |
| `SlabChains`, `SlabTables`, `SlabOutcomes` | a contract's chain of kilometre slabs: what it accepts and covers, and the edits of the slab table |
| `ContractMatching`, `ContractOutcomes` | contracts and the vehicles that use them |
| `LogFanOut`, `LogDelivery` | the live-log handler as interleaved threads, with and without the lock that the base class of log handlers holds around an emit |
| `ErrorStores`, `RequestTracking`, `AlertCooldown` | the bounded trackers and the monitor's cooldown |
| `Permissions`, `PermissionSources` | the permission resolvers and the permission check |
| `AlertLookup`, `Alerts`, `AlertOutcomes` | finding an alert's configuration; the life of an alert, its timeline and metrics |
| `Announcements`, `AnnouncementOutcomes` | publishing an announcement and reading it |
| `Common`, `Counting` | shared values, Python's `str(int)`, and counting with a dictionary |

How it is built. Tables are maps (or sequences where their order matters). A request is one atomic step: a function
from a state to the next state and a reply, and, where the program updates rows in place, a class whose methods make the
same updates and are proved equal to that function. A refused request leaves the state as it was; what a request reads
from outside (a clock, a location check, a delivery report) is a parameter. The lemmas are about the step functions and
the runs made of them. For each step function a lemma in an "Outcomes" module (`LogDelivery` for the log, and
`PermissionSources` for the resolvers) tells from the columns of the input alone exactly when it goes through and what it
then writes, so that the runs are known to be runs of the requests meant.

Where the code differs from what its own text says, the model follows the code and a lemma says exactly how:

- The package is called the ceiling of a tenant's permissions. It is one for create, read, update and delete. For
  other actions it is not: `Permissions.GateIsCeilingIff` gives the exact condition on the package and the catalogue.
- A configuration's `applicable_alert_types` is documented as "null for all". Leaving the field out means all; sending
  an explicit null stores a JSON null and means none (`AlertLookup.ExplicitNullCoversNothing`).
- The drop endpoint's text says it completes the route; it never does (`TripSafety.NextIsLicensed`).
- Boarding by the nodal scan is meant for nodal bookings, but a booking without a shift row is accepted too, past the
  ordering gate and the escort check that a driver's pick-up would apply. `TripShifts.OrderHoldsIff` and
  `TripShifts.EscortHoldsIff` say exactly for which dispatched tables every run still keeps the order and the escort.
- The sorted-set error store keeps "the most recent" errors exactly as long as no write moves a kept error below the
  highest one already trimmed away (`ErrorStores.TrimCommutes`, `ErrorStores.AlwaysTopIff`, `ErrorStores.LoweringLosesTop`).
  A score can go down because it is read before the timestamp in the error's text: two requests can give the same text,
  and the one with the earlier score may write last.
- Publishing counts its recipients, but the push service works in the same transaction: if the first thing it does there
  is a roll-back, the recipient rows are gone and the count stays. `Announcements.ReachableInv` says that the count is
  the number of rows exactly in runs where this does not happen; everything else about the rows holds regardless.
- An edit of a vehicle that leaves its contract as it is goes through even when that contract is inactive; only naming
  a contract requires it to be active (`ContractMatching.KeepingEditAcceptedIff`, `ContractMatching.NamingEditAcceptedIff`).
- `RequestTracker` keeps totals over its whole life, but its statistics report counts the last 10000 requests
  (`RequestTracking.RequestTracker.GetRequestStats`).

## Model

| member | source | states |
|---|---|---|
| `TripStores.TripStore.StartDuty` | app/routes/app_driver_router.py:460-515 | the checks of start_duty in their order; only an assigned route whose driver has no other route underway goes underway; keeps the invariant |
| `TripStores.TripStore.BoardEscort` | app/routes/app_driver_router.py:592-646 | boarding needs a route underway, an escort and its non-empty code; boarding twice changes nothing; keeps the invariant |
| `TripStores.TripStore.StartTrip` | app/routes/app_driver_router.py:1254-1429 | the pick-up: nodal and door branches, gate, location and dark-hour answers, code, the pick-up time kept if set, and a right next stop; keeps the invariant |
| `TripStores.TripStore.MarkNoShow` | app/routes/app_driver_router.py:1477-1529 | no-show on any of the driver's routes, refused for riders aboard or completed and while earlier stops wait; and a right next stop |
| `TripStores.TripStore.Drop` | app/routes/app_driver_router.py:1574-1611 | a drop completes the booking from any other status and leaves the route alone |
| `TripStores.TripStore.EndDuty` | app/routes/app_driver_router.py:1990-2039 | the duty ends only when every booking is completed, a no-show or cancelled; ending twice changes nothing |
| `TripStores.TripStore.NodalScan` | app/routes/app_employee_router.py:273-365 | the scan's lookups and refusals; a scheduled booking goes aboard with its pick-up time |
| `TripOutcomes.StartDutyOutcome` | app/routes/app_driver_router.py:461-515 | accepted iff the route is the driver's, DRIVER_ASSIGNED, and none of his others is underway; then the route is underway and nothing else changes |
| `TripOutcomes.BoardEscortOutcome` | app/routes/app_driver_router.py:592-646 | accepted iff the driver's route is underway with an escort not yet aboard and the answer is its non-zero code; then the escort is aboard and nothing else changes |
| `TripOutcomes.StartTripOutcome` | app/routes/app_driver_router.py:1254-1413 | accepted iff route, escort, booking, location and dark hour allow it and, for a nodal rider, the booking is scheduled or aboard, for others the code is right and no earlier stop waits; then the rider is aboard, with the first pick-up time kept |
| `TripOutcomes.MarkNoShowOutcome` | app/routes/app_driver_router.py:1477-1514 | accepted iff the stop is on the driver's route, its rider neither aboard nor completed, and no earlier stop waits; then a no-show at that time |
| `TripOutcomes.DropOutcome` | app/routes/app_driver_router.py:1574-1611 | accepted, from any status but completed, iff the route is underway, the booking the tenant's, the location near and the code right; then completed with the drop time |
| `TripOutcomes.EndDutyOutcome` | app/routes/app_driver_router.py:1990-2039 | accepted iff the driver's route is underway and each of its bookings is completed, a no-show or cancelled; then the route is completed |
| `TripOutcomes.NodalScanOutcome` | app/routes/app_employee_router.py:273-365 | accepted iff the vehicle is known, the route is the tenant's on it, assigned or underway, the booking is the employee's for the day, scheduled, and its shift nodal or without a row; then aboard with the pick-up time |
| `TripOutcomes.RefusalIsTrue` | app/routes/app_driver_router.py:441-2039 | a refused request names a reason that holds of the tables |
| `TripSafety.NextIsLicensed` | app/routes/app_driver_router.py:441-2039 | audit of all requests: whatever is written was allowed by the conditions listed there, at most one route row or one booking with its stop is written, and only on success |
| `TripSafety.NextKeepsInv` | app/routes/app_driver_router.py:441-2039 | every request keeps the six-part invariant, and nothing passed, closed, boarded or recorded goes back |
| `TripSafety.RunKeepsInv` | app/routes/app_driver_router.py:441-2039 | the same over any run of requests |
| `TripSafety.ReachableInv` | app/routes/app_driver_router.py:463-644 | at most one route underway a driver; a door rider aboard means the route is underway with its escort aboard; a boarded escort had a code |
| `TripSafety.ClosedForGood` | app/routes/app_driver_router.py:1992-2039 | a completed route stays completed and each of its bookings stays completed, a no-show or cancelled, over every run of the seven driver and employee-scan requests |
| `TripShifts.OrderHoldsIff` | app/routes/app_employee_router.py:344-362 | from dispatched tables, stops other than nodal ones are picked up in order in every run if and only if no scannable stop without a shift row has an earlier stop waiting |
| `TripShifts.EscortHoldsIff` | app/routes/app_employee_router.py:344-362 | from dispatched tables, riders other than nodal ones are aboard only routes underway with their escort aboard, in every run, if and only if no stop without a shift row is scannable |
| `TripShifts.PredecessorsStayPassed` | app/routes/app_driver_router.py:247-258 | once a stop has a pick-up time, its predecessors are no-shows, aboard or completed in every later state: always for door stops, and under the condition of OrderHoldsIff for stops without a shift row |
| `TripShifts.ScanSkipsGateWithoutShift` | app/routes/app_employee_router.py:344-362 | wherever that condition fails, one scan picks the stop up while an earlier one waits |
| `TripShifts.SkippableIsDispatched` | app/routes/app_employee_router.py:344-362 | dispatched tables where the condition fails exist |
| `TripSafety.SharedBookingReopens` | app/routes/app_driver_router.py:1403-1410 | from dispatched tables, but with a booking on two routes, a run of five requests completes the first route and then gets its rider aboard again |
| `TripSafety.OtpIsExact` | app/routes/app_driver_router.py:81-99 | a set code is opened by its own decimal text and nothing else, never by a missing answer; a code of zero asks for nothing |
| `TripSafety.EscortViewIsExact` | app/routes/app_escort_router.py:104-116 | in every reachable state the escort reads "boarded" exactly when the driver confirmed it, and "pending dispatch" exactly without a code |
| `TripProgress.NoShowFirst` | app/routes/app_driver_router.py:1490-1514 | marking a first waiting stop a no-show is always accepted and clears exactly that stop, cancelled ones too |
| `TripProgress.DropOne` | app/routes/app_driver_router.py:1590-1611 | with the right code, dropping a rider is always accepted and clears exactly that rider |
| `TripProgress.EndIsAccepted` | app/routes/app_driver_router.py:2006-2039 | once nobody waits or rides, the duty can be ended |
| `TripProgress.DutyCanBeFinished` | app/routes/app_driver_router.py:237-284 | no deadlock: a route underway with n stops is closed by some run of at most n + 1 no-show, drop and end-duty requests of its own driver on that route |
| `TripNextStop.GetNextStop` | app/routes/app_driver_router.py:102-139 | a stop of least order behind the current one whose booking is not a no-show, completed or, where those are skipped, aboard; none exactly when there is none |
| `TripNextStop.NextStopPassesGateIff` | app/routes/app_driver_router.py:111-124 | the reported stop passes the gate if and only if no waiting stop shares the current stop's order |
| `TripNextStop.GateOpenAfter` | app/routes/app_driver_router.py:1311-1313 | after an accepted no-show or gated pick-up the gate is open at that stop |
| `TripNextStop.NextStopAgreesWithGate` | app/routes/app_driver_router.py:1428-1429 | with distinct orders the reported stop passes the gate; no stop reported means every later one is a no-show or completed |
| `TripReports.SummaryAddsUp` | app/routes/app_driver_router.py:1074-1078 | in every reachable state the report's completed, no-show and cancelled counts add up to its bookings |
| `TripReports.ReportRowsAre` | app/routes/app_driver_router.py:1036-1043 | the report's rows are the booked stops of the driver's completed routes within the dates |
| `TripReports.GroupByHub` | app/routes/app_driver_router.py:848-860 | each key holds its hub's riders in route order; every rider is under some key |
| `TripReports.HubGroups` | app/routes/app_driver_router.py:844-882 | the groups partition the stops in their order; boarded plus pending is the passenger count; hubs ascend and the unassigned group is last for ids below 9999999 |
| `TripReports.JoinIsPartition` | app/routes/app_driver_router.py:849-851 | groups over distinct hubs that cover the riders hold each rider exactly as often as the route does |
| `TripReports.UnassignedLast` | app/routes/app_driver_router.py:870 | with every hub id below the sort key 9999999, no group but the last is the unassigned one |
| `TripReports.HubIsNodalPoint` | app/routes/app_driver_router.py:850 | a rider is grouped under the nodal point, or as unassigned for a missing or zero one |
| `TripReports.BoardedIsOngoing` | app/routes/app_driver_router.py:859-880 | a group's boarded count is the number of its riders whose status is ONGOING |
| `SlabChains.ValidateChain` | app/crud/contract.py:272-316 | the check passes if and only if the chain starts at zero, has proper ranges and joins, within 1e-6, or is empty where that is allowed; each error it reports is there |
| `SlabChains.AddSucceedsIffAppend` | app/crud/contract.py:221-232 | on a chain of slabs wider than three tolerances, a further wide slab is accepted if and only if it can be appended |
| `SlabChains.RemoveSucceedsIffLast` | app/crud/contract.py:258-270 | removal is accepted if and only if the slab is the last |
| `SlabChains.UpdateSucceedsIffInPlace` | app/crud/contract.py:234-256 | replacement is accepted if and only if the new slab fits in the old one's place, and then it stays there |
| `SlabChains.ThreeTolerancesCanSqueezeIn` | app/crud/contract.py:282-309 | the width bound is sharp: a slab of exactly three tolerances can be put between two others |
| `SlabChains.ListingIsUnique` | app/crud/contract.py:212-216 | ordering by a unique lower bound has one outcome, whatever order the rows come in |
| `SlabChains.WidthsAddUp` | app/crud/contract.py:309-316 | the widths of a bounded chain sum to its span within one tolerance a join |
| `SlabChains.EveryDistanceIsNear` | app/crud/contract.py:272-316 | every distance from zero to the top is within the tolerance of some slab |
| `SlabChains.ExactlyOneSlab` | app/crud/contract.py:290-316 | with exact joins from zero every distance below the top lies in exactly one half-open slab |
| `SlabTables.OrderByMin` | app/crud/contract.py:212-216 | the rows in ascending order of lower bound |
| `SlabTables.SlabStore.Check` | app/crud/contract.py:272-316 | flush and chain check pass exactly for tables whose constraints and chain are right |
| `SlabTables.SlabStore.Create` | app/routes/contract_router.py:473-521 | success exactly when the resulting table is right; otherwise the table is rolled back |
| `SlabTables.SlabStore.Update` | app/routes/contract_router.py:524-582 | success exactly when the resulting table is right; then each column that was sent is the sent value, a null upper bound opens the slab, and all else stays; otherwise rolled back |
| `SlabTables.SlabStore.Remove` | app/routes/contract_router.py:585-636 | the same for a removal, where no slab left is allowed |
| `SlabTables.CreateCharacterised` | app/crud/contract.py:221-232 | over the table of all contracts: creating an active wide slab succeeds exactly as an append with an unused lower bound |
| `SlabTables.RemoveCharacterised` | app/crud/contract.py:258-270 | over the table: removing an active slab succeeds exactly for the last |
| `SlabTables.UpdateCharacterised` | app/crud/contract.py:234-256 | over the table: replacing an active slab succeeds exactly when the new one fits in its place with an unused lower bound |
| `SlabTables.DeactivateCharacterised` | app/crud/contract.py:251-256 | switching a slab off succeeds exactly for the last of several; unlike removal it cannot leave none |
| `SlabTables.InactiveCharacterised` | app/crud/contract.py:221-256 | creating an inactive slab, or editing one that stays inactive, succeeds exactly with an unused lower bound and beside an active slab |
| `SlabTables.ActivateCharacterised` | app/crud/contract.py:234-256 | switching an inactive slab on succeeds exactly as an append with an unused lower bound |
| `SlabTables.EditKeepsOthers` | app/crud/contract.py:212-270 | an edit leaves the active slabs of every other contract as they are |
| `SlabTables.RunKeepsChains` | app/crud/contract.py:221-316 | over any run of creations, updates and removals each contract's active slabs form an acceptable chain or there are none |
| `SlabOutcomes.ChainOkMeans` | app/crud/contract.py:282-316 | an acceptable chain told in numbers |
| `SlabOutcomes.KeptIff` | app/crud/contract.py:212-316 | a table is kept iff its rows meet the constraints and the contract's active slabs, by ascending lower bound, form a chain or may be none |
| `SlabOutcomes.ProposedExactly` | app/crud/contract.py:221-270 | what each edit would write, column by column |
| `SlabOutcomes.OpenEndedTakesNoMore` | app/crud/contract.py:300-308 | behind an open-ended last slab no active slab can be added |
| `SlabOutcomes.NullMaxClosesChain` | app/crud/contract.py:242-256 | an update that sends a null upper bound for the last slab is kept, opens that slab, and lets no further active slab be added |
| `ContractMatching.FleetStore.CreateContract` | app/crud/contract.py:75-105 | keeps the invariant; afterwards the vendor has a contract for the vehicle type, and where it had one already the request is refused and nothing changes |
| `ContractMatching.FleetStore.UpdateContract` | app/crud/contract.py:107-165 | keeps the invariant, touches no vehicle, and never changes the vehicle type of a contract that vehicles use |
| `ContractMatching.FleetStore.ToggleContract` | app/routes/contract_router.py:385-428 | keeps the invariant; toggling twice restores the tables |
| `ContractMatching.FleetStore.DeleteContract` | app/crud/contract.py:167-191 | keeps the invariant; a successful deletion leaves the contract inactive and no vehicle on it |
| `ContractMatching.FleetStore.CreateVehicle` | app/crud/vehicle.py:52-185 | keeps the invariant; the vehicle is created on the named contract, which is active |
| `ContractMatching.FleetStore.PutVehicle` | app/routes/vehicle_router.py:456-649 | the edit of PUT /vehicles/{id}: keeps the invariant, changes no contract and no other vehicle, and leaves the vehicle's contract kept, cleared, or the named one, which is active |
| `ContractMatching.FleetStore.SetVehicleActive` | app/routes/vehicle_router.py:726-780 | keeps the invariant; no contract gains or loses a vehicle |
| `ContractMatching.StepMatched` | app/routes/vehicle_router.py:509-563 | every request that writes contracts or vehicles keeps each vehicle's contract on the vehicle's vendor and vehicle type |
| `ContractMatching.StepContracts` | app/crud/contract.py:84-91 | every request keeps one contract a vendor and vehicle type |
| `ContractMatching.RunKeepsInv` | app/routes/vehicle_router.py:397-780 | both over any run of the contract and vehicle requests |
| `ContractMatching.VehicleTypesAreTheVendors` | app/routes/vehicle_router.py:509-522 | in every reachable state a vehicle on a contract has one of its own vendor's vehicle types |
| `ContractMatching.DeletedStaysUnused` | app/crud/contract.py:175-191 | over any run, a deleted contract has no vehicles and gets none until someone reactivates it |
| `ContractMatching.KeepingEditAcceptedIff` | app/routes/vehicle_router.py:509-563 | an edit that does not send a contract is accepted if and only if the other checks pass and it sends no vehicle type, or one of the vendor's own that a vehicle on a contract already has; active or not |
| `ContractMatching.NamingEditAcceptedIff` | app/routes/vehicle_router.py:524-553 | an edit that names a contract is accepted if and only if the other checks pass and the contract is active, the vendor's, and of the final vehicle type |
| `ContractOutcomes.CreateContractOutcome` | app/crud/contract.py:75-105 | accepted iff the vehicle type is the vendor's, the name free, and there is no contract for the pair; then the row as sent |
| `ContractOutcomes.UpdateContractOutcome` | app/crud/contract.py:107-165 | accepted iff the name is free and a sent vehicle type is the vendor's, unchanged or the contract unused, and not another contract's; then each column sent is set and the others stay |
| `ContractOutcomes.ToggleContractOutcome` | app/routes/contract_router.py:385-428 | accepted iff the caller may see the contract; then its flag is the opposite and nothing else changes |
| `ContractOutcomes.DeleteContractOutcome` | app/crud/contract.py:167-191 | accepted iff forced or unused; then inactive, its vehicles without a contract, all else as it was |
| `ContractOutcomes.CreateVehicleOutcome` | app/crud/vehicle.py:52-185 | accepted iff the named contract is active and fits vendor and vehicle type, and the other checks pass; then the row, active |
| `ContractOutcomes.PutVehicleOutcome` | app/routes/vehicle_router.py:456-649 | the exact acceptance of an edit that clears the contract, and what any accepted edit writes |
| `ContractOutcomes.SetVehicleActiveOutcome` | app/routes/vehicle_router.py:726-780 | accepted iff the caller may edit the vehicle; then its flag is the one sent and nothing else changes |
| `ContractOutcomes.RefusalIsTrue` | app/crud/contract.py:75-191 | a refused request names a reason that holds of the tables |
| `LogFanOut.LogStreamHandler.Emit` | app/core/logging_config.py:194-202 | the critical section of an emit: buffer appended and bounded, loop and queues read together |
| `LogFanOut.LogStreamHandler.ListQueues` | app/core/logging_config.py:202 | every registered queue once |
| `LogFanOut.LogStreamHandler.Subscribe` | app/core/logging_config.py:213-222 | a new queue is registered, and the loop remembered if one was found |
| `LogFanOut.LogStreamHandler.Unsubscribe` | app/core/logging_config.py:224-227 | the queue is discarded |
| `LogFanOut.LogStreamHandler.GetBuffer` | app/core/logging_config.py:233-236 | the snapshot is the last 1000 appends of the whole history, oldest first |
| `LogFanOut.BufferIsLastAppends` | app/core/logging_config.py:188-200 | under every interleaving the buffer is the last 1000 appends |
| `LogFanOut.NextMoves` | app/core/logging_config.py:194-227 | every step of any thread moves a queue's entries between the places where they can be, and loses none |
| `LogFanOut.RunConserved` | app/core/logging_config.py:194-227 | over every interleaving: taken, waiting, dropped, lost, posted and held entries together are the appends owed |
| `LogFanOut.RunLosesNothing` | app/core/logging_config.py:203-205 | while every subscriber finds a loop and it keeps running, an emit that sees a queue sees a loop |
| `LogFanOut.FanOutConserves` | app/core/logging_config.py:194-222 | while the loop runs: delivered, dropped at 500, posted and held entries are exactly those appended while the queue was registered, each once |
| `LogFanOut.NoLoopLoses` | app/core/logging_config.py:203 | without a found loop an append is lost to a registered queue |
| `LogFanOut.LockedRunIsRun` | app/core/logging_config.py:194-207 | a run in which emits wait for each other is one of the interleavings for which the results above hold |
| `LogFanOut.RunOrdered` | app/core/logging_config.py:194-205 | in such runs, whatever threads log, what a queue has got and what is on its way is in append order |
| `LogFanOut.DeliveredInOrder` | app/core/logging_config.py:194-205 | in such runs a subscriber sees a subsequence of the appends it is owed, in append order |
| `LogDelivery.AppendDoes` | app/core/logging_config.py:198-202 | an append goes to the end of the buffer, the oldest of 1000 making room, and begins an emit for every registered queue once |
| `LogDelivery.LookAtLoopDoes` | app/core/logging_config.py:203 | an emit goes on to post exactly if it saw a loop, the loop runs and there is a queue; otherwise its queues lose the entry |
| `LogDelivery.PostOneDoes` | app/core/logging_config.py:204-205 | it posts the entry for its next queue, or is done |
| `LogDelivery.PostFailsDoes` | app/core/logging_config.py:206-207 | a post fails only while the loop does not run, and the rest of the queues lose the entry |
| `LogDelivery.RunCallbackDoes` | app/core/logging_config.py:205-216 | the oldest post's entry goes to the end of its queue if fewer than 500 wait there, and is dropped otherwise |
| `LogDelivery.TakeDoes` | app/core/logging_config.py:213-222 | a subscriber takes the oldest waiting entry |
| `LogDelivery.RegistrationDoes` | app/core/logging_config.py:213-227 | a subscription starts an empty queue at the present, an unsubscription ends what is owed |
| `LogDelivery.DropsOnlyWhenFull` | app/core/logging_config.py:205-216 | a queue's drops grow in exactly those steps that deliver to it while 500 wait |
| `LogDelivery.NeverFullDropsNothing` | app/core/logging_config.py:205-216 | over any run in which a queue is never full it drops nothing |
| `LogDelivery.EverythingCanArrive` | app/core/logging_config.py:194-222 | from every state a run with a running loop reaches, further steps without an append bring the subscriber everything it is owed but what was dropped so far |
| `ErrorStores.ErrorTracker.LogError` | app/middleware/error_tracking.py:68-76 | the store follows its whole history of writes and failures; while no write lowers a score its highest thousand are those of everything added, and after a whole write they are all it holds |
| `ErrorStores.TrimIsLastN` | app/middleware/error_tracking.py:73 | removing ranks 0 to -1001 keeps the 1000 highest |
| `ErrorStores.TopIsHighest` | app/middleware/error_tracking.py:72-73 | those kept have a higher score than all others, or the same and a greater member |
| `ErrorStores.TrimCommutes` | app/middleware/error_tracking.py:71-73 | the n highest after a write depend only on the n highest before, if and only if the write does not move one of them below the highest of the others |
| `ErrorStores.EverythingIsLatest` | app/middleware/error_tracking.py:71 | the untrimmed set holds every member at its latest score |
| `ErrorStores.StoreIsTop` | app/middleware/error_tracking.py:68-76 | after any writes, with failures, the store's 1000 highest are those of everything added; after a whole write it holds just them |
| `ErrorStores.WriteKeepsTopIff` | app/middleware/error_tracking.py:68-76 | a store that is exactly the highest thousand stays so under one more write if and only if the write does not demote a kept member |
| `ErrorStores.AlwaysTopIff` | app/middleware/error_tracking.py:68-76 | over runs whose writes are not cut short midway, the store is the highest thousand after every write if and only if no write demotes |
| `ErrorStores.LoweringLosesTop` | app/middleware/error_tracking.py:71-73 | a run of 1001 errors with positive times and one lowered time after which the store is not the highest thousand |
| `ErrorStores.RecentAreHighest` | app/middleware/error_tracking.py:89-96 | a limit yields that many of the highest, newest first; a limit of 0 yields everything |
| `ErrorStores.RecentErrorsAreRight` | app/middleware/error_tracking.py:89-96 | the newest errors read are the highest of everything ever added |
| `ErrorStores.GetErrorStats` | app/middleware/error_tracking.py:109-134 | the counts by type and by path are exact and each sum to the number of errors |
| `RequestTracking.RequestTracker.LogRequest` | app/middleware/request_tracking.py:58-67 | the list is the last 10000 requests of the history, the totals count all of it |
| `RequestTracking.RequestTracker.GetRecentRequests` | app/middleware/request_tracking.py:80-82 | the last requests of the history; a limit of 0 or above the window's size yields the whole window, a negative one leaves out its oldest |
| `RequestTracking.RequestTracker.GetMatching` | app/middleware/request_tracking.py:84-97 | the last matching requests of the window, all of them for a limit of 0, without the oldest for a negative one |
| `RequestTracking.RequestTracker.GetRequestStats` | app/middleware/request_tracking.py:99-150 | total and errors of the window, never more than the running totals; the status counts sum to the window |
| `RequestTracking.SliceMeans` | app/middleware/request_tracking.py:82 | what the slice from the end yields for a limit, zero included |
| `RequestTracking.NegativeSliceMeans` | app/middleware/request_tracking.py:82 | a negative limit leaves out that many of the oldest |
| `RequestTracking.WhereJoined` | app/middleware/request_tracking.py:84-97 | filtering goes request by request and keeps the order |
| `AlertCooldown.ProductionMonitor.SendAlert` | scripts/monitor_production.py:119-132 | sent exactly if nothing was sent under the first 50 characters or the last send is at least 300 seconds ago; the time is recorded exactly when sent |
| `AlertCooldown.SendsAreSpaced` | scripts/monitor_production.py:122-130 | consecutive sends of a key are at least 300 seconds apart |
| `AlertCooldown.FewSendsInWindow` | scripts/monitor_production.py:122-130 | k + 1 sends of a key within a window of some length need a length of at least 300 k seconds |
| `AlertCooldown.KeptBackAfterSend` | scripts/monitor_production.py:122-128 | an attempt is kept back only if one that agrees with it in the first 50 characters went out less than 300 seconds before |
| `Permissions.ResolveByDict` | app/crud/employee.py:160-190 | the dictionary resolver computes the fold of the gated permissions of the usable roles, in first-seen order |
| `Permissions.ResolveByScan` | app/crud/driver.py:241-283 | the list-scan resolver computes the same fold |
| `Permissions.ScanPolicy` | app/crud/vendor_user.py:113-132 | its innermost loop, gated entry by entry, is the fold of the filtered permissions |
| `Permissions.AddEntry` | app/crud/admin.py:96-109 | one turn of that loop: a "*" leaves its module with the base actions only, any other action is added to what is granted, no other module changes, and the list stays tidy |
| `Permissions.FoldIsByArea` | app/crud/tenant.py:88-103 | one entry a module in first-seen order, depending only on that module's actions |
| `Permissions.FoldIsTidy` | app/crud/employee.py:182-194 | no module twice, and no action twice in an entry |
| `Permissions.FoldMeans` | app/crud/employee.py:180-194 | a base action is granted iff it or "*" occurs; a custom one iff it occurs after every "*" of its module |
| `Permissions.BaseGrantsIgnoreOrder` | app/crud/employee.py:180-194 | base grants do not depend on order or repetition |
| `Permissions.GateShrinksBase` | app/crud/employee.py:175-179 | a base action granted behind the package is granted without it too |
| `Permissions.GateIsCeilingIff` | app/crud/driver.py:249-262 | the package never adds a grant, over all permission lists from a catalogue, if and only if it stops no "*" while letting a custom action of the same module through |
| `Permissions.CheckUserPermission` | app/routes/alert_router.py:34-67 | the scan answers yes exactly when some entry answers |
| `Permissions.CheckMeans` | app/routes/alert_router.py:34-67 | over a resolved list: yes iff an "admin" permission was seen or the fold grants what is asked |
| `PermissionSources.CollectedExactly` | app/crud/employee.py:160-179 | the collected permissions are those of active roles of the tenant or the system, or of any active role without a scope, that the package has, in the order of role, policy and permission |
| `PermissionSources.NamesExactly` | app/crud/employee.py:160-169 | the names are those of exactly these roles, in order |
| `PermissionSources.ResolverGrantsIff` | app/crud/driver.py:253-283 | over the roles as given: an action is granted iff such a permission grants it, for a custom action with no later "*" of its module among them |
| `PermissionSources.EntriesInOrder` | app/crud/employee.py:180-194 | the entries stand in the order in which their modules are first collected |
| `PermissionSources.CheckedIff` | app/routes/alert_router.py:34-67 | over the roles as given: the check says yes iff a permission of the module "admin" is collected, or one of the module asked for, or the action is granted |
| `AlertLookup.SearchFindsItems` | app/crud/alert.py:556-567 | for names without leading or adjacent underscores the text search finds exactly the lists with a like-named item, never across items |
| `AlertLookup.SearchIsMembership` | app/crud/alert.py:556-567 | over the seven alert types the search is membership, wildcards and all |
| `AlertLookup.LeadingUnderscoreMisleads` | app/crud/alert.py:565 | a name with a leading underscore is found where it is not an item |
| `AlertLookup.SelectedIsCovered` | app/crud/alert.py:563-566 | what the query selects: SQL null covers all, a JSON null nothing, a list its members |
| `AlertLookup.LookupIsBestMatch` | app/crud/alert.py:547-600 | a highest-priority team match if the team has a match, else a highest-priority tenant-wide match, else none |
| `AlertLookup.ExplicitNullCoversNothing` | app/models/alert.py:210 | a configuration stored with an explicit null is never found |
| `Alerts.AlertStore.TriggerAlert` | app/routes/alert_router.py:88-190 | keeps the invariant; the new alert is the one triggered alert of its tenant and employee |
| `Alerts.AlertStore.AcknowledgeAlert` | app/crud/alert.py:173-207 | keeps the invariant; the alert no longer waits, is closed exactly if it was, and the response time accounts for the time since the trigger |
| `Alerts.AlertStore.CloseAlert` | app/crud/alert.py:238-272 | done iff the caller may and finds the alert; then status and flag say what was sent, closed at that time, and every other column and alert stays; keeps the invariant |
| `Alerts.AlertStore.EscalateAlert` | app/routes/alert_router.py:818-852 | keeps the invariant; a closed alert gains nothing, any other exactly one escalation event in its timeline |
| `Alerts.AlertStore.DeleteAlert` | app/routes/alert_router.py:1083-1118 | keeps the invariant; nobody finds the alert any more, its escalations are gone and all others stay |
| `AlertOutcomes.TriggerOutcome` | app/routes/alert_router.py:88-190 | accepted iff the token names an employee and a tenant, the booking is right, and none of the employee's alerts is triggered; then the alert as sent, with the defaults |
| `AlertOutcomes.AcknowledgeOutcome` | app/crud/alert.py:173-207 | accepted iff the caller may and finds the alert; what each column is afterwards |
| `AlertOutcomes.CloseOutcome` | app/crud/alert.py:238-272 | accepted iff the caller may and finds the alert; what each column is afterwards |
| `AlertOutcomes.EscalateOutcome` | app/routes/alert_router.py:818-852 | accepted iff, further, the alert is not closed; then one escalation of the level sent |
| `AlertOutcomes.DeleteOutcome` | app/routes/alert_router.py:1083-1118 | accepted iff the alert exists and the caller is an admin or of its tenant; every other alert keeps its row and its escalations in order |
| `AlertOutcomes.RefusalIsTrue` | app/routes/alert_router.py:88-1118 | a refused request names a reason that holds of the tables |
| `AlertOutcomes.TimelineHoldsExactly` | app/crud/alert.py:722-790 | a timeline holds the trigger, the acknowledgement and the close if there are, every escalation, and nothing else |
| `Alerts.NextKeepsInv` | app/routes/alert_router.py:160-190 | every request keeps: one active alert an employee, closed_at iff closed, the false-alarm flag iff FALSE_ALARM, consistent times and durations, escalations between trigger and close |
| `Alerts.ReachableInv` | app/crud/alert.py:27-63 | the same in every state a run with a clock that does not go back can reach |
| `Alerts.ClosedForGood` | app/crud/alert.py:183-253 | a closed alert is never open again and its id names no other alert |
| `Alerts.SortedIsStable` | app/crud/alert.py:783 | the sort keeps the events, orders them, and leaves simultaneous ones in their order |
| `Alerts.GetTimeline` | app/crud/alert.py:704-790 | the sorted recorded events, or none for an alert the caller cannot see |
| `Alerts.TimelineReadsRight` | app/crud/alert.py:722-783 | a timeline starts with the trigger, and only an acknowledgement can stand after the close |
| `Alerts.AcknowledgedAfterClose` | app/crud/alert.py:183-186 | a closed alert can still be acknowledged, later than its close |
| `Alerts.OverAndFalse` | app/crud/alert.py:684-689 | closed and false-alarm counts agree with the counts by status |
| `Alerts.GetMetrics` | app/crud/alert.py:652-695 | counts by status, severity and type are exact and each sum to the total; active, closed and false alarms sum to the total |
| `Counting.Tally` | app/crud/alert.py:666-679 | counting with a dictionary: every value seen, counted exactly, summing to the number of items |
| `Announcements.ResolveRecipients` | app/crud/announcement.py:49-143 | each wanted active person once, in order of first occurrence, and nobody else |
| `Announcements.BackFill` | app/crud/announcement.py:494-519 | the loop with its two counters gives the p-th row the outcome of its place |
| `Announcements.AnnouncementStore.Create` | app/crud/announcement.py:198-232 | keeps the invariant; the tenant then finds a draft whose channels include the in-app one |
| `Announcements.AnnouncementStore.Update` | app/crud/announcement.py:307-325 | keeps the invariant and every recipient row; only a draft changes, it stays one, and updating twice is updating once |
| `Announcements.AnnouncementStore.Publish` | app/crud/announcement.py:336-531 | resolution, rows, back-fill loop and counters realise the publish step; the invariant survives exactly unless the push service rolls the rows back, and a second publish is refused |
| `Announcements.AnnouncementStore.Delete` | app/crud/announcement.py:328-333 | keeps the invariant and every recipient row; the tenant no longer finds it, and it is not a draft |
| `Announcements.AnnouncementStore.MarkRead` | app/crud/announcement.py:638-662 | keeps the invariant; succeeds exactly for a recipient, whose row is then read, and every row only changes by becoming read |
| `AnnouncementOutcomes.CreateOutcome` | app/crud/announcement.py:198-232 | the draft as sent, with the in-app channel added if it is missing |
| `AnnouncementOutcomes.UpdateOutcome` | app/crud/announcement.py:307-325 | accepted iff a live draft; each field that was sent is set, the others stay |
| `AnnouncementOutcomes.DeleteOutcome` | app/crud/announcement.py:328-333 | accepted iff live; then inactive, and cancelled if it was a draft |
| `AnnouncementOutcomes.MarkReadOutcome` | app/crud/announcement.py:638-662 | done iff the person has a row; the first such becomes read at that time unless it is |
| `AnnouncementOutcomes.AudienceExactly` | app/crud/announcement.py:49-143 | everyone the targeting rule means, active and of the tenant, each once, in the order in which they are first found |
| `AnnouncementOutcomes.PublishOutcome` | app/crud/announcement.py:356-531 | accepted iff a live draft; then the header's counts, and a row for each of the audience in order whose delivery its place decides, none if they were rolled back |
| `Announcements.FillsOnlyNew` | app/crud/announcement.py:494-519 | on a first publish the back-fill touches no older row |
| `Announcements.PublishAppends` | app/crud/announcement.py:400-531 | a publish appends one filled row a person, or none if they were rolled back, and changes no other |
| `Announcements.PublishDelivers` | app/crud/announcement.py:494-513 | with push: DELIVERED = min(n, success), NO_DEVICE = min(n - DELIVERED, no_device), FAILED the rest; without push all DELIVERED; n is total_recipients, or 0 if the rows were rolled back |
| `Announcements.NextKeepsSound` | app/crud/announcement.py:307-662 | every request keeps: rows belong to published announcements, one a person, none pending, READ iff read_at |
| `Announcements.NextKeepsInvIff` | app/crud/announcement.py:400-531 | every request also keeps "total_recipients is the number of rows", if and only if it is not a publish whose rows were rolled back |
| `Announcements.RunKeepsInvIff` | app/services/session_manager.py:361-375 | a run keeps it if and only if none of its publishes lost its rows: nothing later mends a loss |
| `Announcements.ReachableInv` | app/crud/announcement.py:307-662 | from empty tables: the rows are sound in every reachable state, and counted exactly in those reached without such a loss |
| `Announcements.PublishedOnce` | app/crud/announcement.py:356-360 | from any tables whose ids have been given out, a run publishes an id at most once while it is a draft or still to be created, and never otherwise |
| `Announcements.NeverPublishedTwice` | app/crud/announcement.py:356-360 | in any run from empty tables an announcement is published at most once |
| `Announcements.RunKeepsRows` | app/crud/announcement.py:638-662 | over any run a recipient row can only become read, once, and then stays as it is |
| `Announcements.ReadTwiceIsOnce` | app/crud/announcement.py:656-662 | reading again changes nothing |

## Left out

- HTTP, tokens, sessions, logging calls, SQL joins and isolation: a request is one atomic step on the tables.
- Geodesic distance and the dark-hour service: their answers are boolean inputs of the requests.
- Route planning, dispatch, assignment, booking creation and cancellation: they are the initial state of the trip protocol.
- Delay tagging, live location, geofence, ETA and speed checks, trip costs: they do not touch the modelled state.
- Firebase, push, SMS, e-mail, Excel export and chat translation: foreign calls; the push counts an announcement gets back are arbitrary naturals, and the SMS and e-mail counters and timestamps are not modelled.
- TripStores.TripStore.NodalScan: the vehicle is the one its plate resolved to, and the rows that the two unordered "first" queries return are a parameter.
- TripStores.TripStore.BoardEscort: the escort's code is compared as a number, where the program compares stripped texts.
- TripStores.TripStore.StartDuty: reasons, route start and end times, updated-at columns and the pending counts in error details are not modelled.
- TripProgress.DutyCanBeFinished: supposes that the bookings on the route are the route's tenant's own and that the right codes and locations are presented.
- SlabChains.ValidateChain: kilometres are real numbers, so rounding of floats near the tolerance is not modelled.
- TripSafety.ClosedForGood: two other requests write a booking's status and are not among the seven: an employee's edit of a booking (app/routes/booking_router.py:1563-1564) turns a cancelled booking into a requested one, also on a completed route, and may change its shift; cancelling (app/routes/booking_router.py:1696) sets it to cancelled.
- SlabTables.SlabStore.Create: the router's choice of the visible contract is not modelled; the slab's id is new.
- ContractMatching.FleetStore.CreateContract: the case-insensitive name search, the caller's access, the driver checks and the other columns' constraints are boolean inputs; the table of vehicle types is fixed.
- ContractMatching: the functions update_with_vendor and delete_with_vendor of app/crud/vehicle.py (lines 187-290) have no callers, so no run includes them.
- LogFanOut.DeliveredInOrder: the lock around an emit is that of Python's own logging.Handler, which is not part of the repository; an emit that logs again from within itself is not modelled.
- LogFanOut.FanOutConserves: there is one event loop; formatting a record and errors inside formatting are not modelled.
- ErrorStores.StoreIsTop: a member's JSON text is its place in byte order; other writers of the Redis key are not modelled.
- RequestTracking.RequestTracker.LogRequest: response times are reals without rounding; the cache entry, the requests per minute and the top endpoints are not modelled.
- Permissions.ResolveByDict: loading users and roles, the permission cache, and the several ways a user row carries roles.
- AlertLookup.LookupIsBestMatch: ties in priority go to the row that comes first in an order the database chooses, which is a parameter.
- Announcements.AnnouncementStore.Publish: what the push service does to the transaction is one input, whether the rows written before it stay; a failure of the request after the service has committed them is not modelled.
- Alerts.AlertStore.TriggerAlert: the booking checks are one boolean input; their error codes are not told apart.
- Alerts.GetMetrics: averages and rates are not modelled.
- Alerts: the functions update_alert, update_alert_status and check_escalation_needed have no callers, so no run includes them; automatic escalation is therefore absent.
- Listing endpoints with their filters and pages, and the week-off, cutoff and tenant-configuration modules: they hold no state that the modelled requests write.
