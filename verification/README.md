# Verification of the scheduling core and its neighbours

This project models five parts of the system in Dafny and proves what they promise.

* **The constrained multi-resource scheduler.** `Minutes`, `Intervals` and `WorkingTime` are the
  interval algebra, on half-open segments of whole minutes. A segment list stands for the set of
  its minutes, and every promise is made on such sets. `Occupancy` is a resource with its
  windows, unavailability and reservations, `Placement` the search on one combination,
  `Eligibility`, `Schedule` and `Context` the choice between combinations and the reservations
  that follow it, `BatchFlow` and `StreamingFlow` the two drivers, `ScheduleIds` the ids they
  print, `Scheduler` the entry.
  `GreedyRuns`, `Safety`, `BatchPromises`, `StreamPromises` and `TransferBatches` say what whole
  schedules keep, `Determined` that a bundle has only one and how the batch driver ends, and
  `OneMachine`, `Overbooking`, `ClashingIds` and `SkippedPredecessor` where the code falls short.
* **The plan store.** `PlanStore` gives the tables as a value and the effect of each call,
  `PlanRepository` updates them in place, `PlanPromises` proves what every run of calls keeps,
  `PlanHistory` tells every column of it by the calls that were made,
  and `PlanRaces` what is left of it when calls interleave between their locks.
* **The human-gated run.** `RunGraph`, `RunExecutor` and `RunPromises`, in the same way, for the
  planner, worker and reviewer nodes and the human decisions between them. `RunHistory` says what
  one turn and one answer do, and what the trace tells of blocked results. `Gates` says what an
  approval does to the canonical store and the plan store, and `GatePromises` what that makes of
  whole histories.
* **The canonical store.** `Canonical`, `CanonicalPromises` and, row by row, `CanonicalRows`.
* **Organisation and permissions.** `OrgTree` and `Permissions`.

Methods follow the loops and branches of the code and are proved against specifications; the
lemmas then relate several of them, over all inputs, runs and reachable states.

## Where the code falls short of its intention

Each of these is a theorem. Where the code meets the intention on some inputs, the condition is
one on the input, or on the state a call meets, and is proved both ways; a lemma at a concrete
input shows that the other side is reached.

* **Line 84 of the scheduler**, `di = j`, steps past a drop that reaches over the end of one
  segment into the next, and the minutes it drops there come back as free. Every scheduler
  theorem carries a flag `asWritten`: set, the loop is the code as it is; not set, the same loop
  without line 84, which is what the rest of the code relies on. `SubtractExactIff` says when
  the two agree, `FreeAlwaysExactIff` on which calendars a resource is read correctly, and
  `NeverOverbooksIff` on which calendars no schedule runs two orders on one machine at once, and
  `KeepsOutIff` on which none runs one while the machine is unavailable.
  `NeverOverbooked` holds of both loops: without the line on all calendars, with it on safe ones.
* **Setup** works on free minutes, but what is reserved for it are the wall minutes just before
  processing, although `_place_processing` describes it as working minutes held by the machine.
  `SetupAlwaysHeldIff` says when the two agree, `HeldSetupsNeverShare` what follows for whole
  schedules when they do, and `SetupSharesMachine` gives schedules, with or without line 84, in
  which a machine is set up for one order while it works on another.
* **Ids of schedule operations** are looked up as they are printed, and the validators let
  different operations print the same id, with the same line id or with different ones.
  `AllFoundIff` says when every look-up finds the right operation, and `ClashStartsEarly` gives
  bundles in which a batch starts early because one does not.
* **Fractions of a piece** are cut off by `int(total)` in streaming flow (`BatchesConserveIff`,
  `QuantityConservedIff`, `FractionLost`).
* **Streaming passes over predecessors** that are blocked or later in the route
  (`PredecessorWentBeforeIff`, `PredecessorSkipped`).
* **Asking again for a dispatch** is answered with the first row only while the plan is still
  `released` (`ReplayIff`, `ReplayRefused`).
* **A transition** checks the plan under one lock and writes under another, so two of them can
  release a plan twice, or take it back from dispatched (`RacesSoundIff`, `DispatchedGoesBack`).
* **The hash on an idempotency row** is that of the call, not of the plan (`RowHashIff`,
  `RowHashElsewhere`), and the apply gate does not compare the scenario it moves with that of the
  plan (`HeadsHomeIff`, `HeadElsewhere`).
* **Two candidate records of one name** cannot both be read back once published, so approving
  them fails; the failure, like that of an apply gate without a plan version, leaves the run
  waiting with no gate to answer (`CatalogShortIff`, `StrandedIff`, `TwinsStrand`,
  `UnsavedPlanStrands`).
* **Publishing a batch again** makes new versions of everything in it (`PublishCounts`,
  `OrderTwice`).
* **Aligning a worker with a node made by hand** picks the last node of that name, whoever made
  it (`HomeIsManualIff`, `RootTakesHome`).

## Model
| member | source | states |
|---|---|---|
| Minutes.CanonicalUnique | src/yunpai_langgraph/pmc_v2_scheduler.py:55-63 | two sorted, strictly separated lists of non-empty segments with the same minutes are the same list, so an equation on minutes fixes the list the code returns |
| Intervals.Merge | src/yunpai_langgraph/pmc_v2_scheduler.py:55-63 | any list, empty and overlapping segments included, comes back as the canonical list of exactly its minutes |
| Intervals.Subtract | src/yunpai_langgraph/pmc_v2_scheduler.py:66-85 | for any two lists: canonical result; without line 84 exactly the set difference, as written the set difference plus every minute that a drop reaching over a gap forgets |
| Intervals.SubtractExactIff | src/yunpai_langgraph/pmc_v2_scheduler.py:66-85 | the loop as written is set difference if and only if no drop covers an open minute, a later closed one and an open one after that |
| Intervals.SubtractAlwaysExactIff | src/yunpai_langgraph/pmc_v2_scheduler.py:84 | a set of open minutes is subtracted from correctly whatever the drops if and only if it has no gap |
| Intervals.SubtractForgetsDrop | src/yunpai_langgraph/pmc_v2_scheduler.py:84 | (0,10),(20,30) less (5,25) keeps the dropped minutes 20 to 24 |
| Intervals.IntersectPair | src/yunpai_langgraph/pmc_v2_scheduler.py:95-107 | the two-pointer walk ends and returns the canonical list of exactly the common minutes |
| Intervals.IntersectMany | src/yunpai_langgraph/pmc_v2_scheduler.py:88-111 | any number of lists: exact pointwise intersection in canonical form without merging again; no list gives no minute |
| WorkingTime.WorkingEnd | src/yunpai_langgraph/pmc_v2_scheduler.py:114-128 | the least end whose span from the start holds the needed working minutes; None exactly when no end does |
| WorkingTime.WorkingBack | src/yunpai_langgraph/pmc_v2_scheduler.py:131-144 | the greatest start whose span up to the end holds the needed working minutes; None exactly when no start does |
| WorkingTime.BackUndoesEnd | src/yunpai_langgraph/pmc_v2_scheduler.py:114-144 | walking back from the end found lands on the first working minute at or after the start, and on the start itself if and only if that is a working minute |
| WorkingTime.EndUndoesBack | src/yunpai_langgraph/pmc_v2_scheduler.py:114-144 | walking forward from the start found ends no later than the end, with no working minute between, and at the end itself if and only if the minute before it is a working one |
| WorkingTime.EarliestSpan | src/yunpai_langgraph/pmc_v2_scheduler.py:147-159 | the span from the first working minute at or after the bound |
| WorkingTime.EarliestSpanOptimal | src/yunpai_langgraph/pmc_v2_scheduler.py:147-159 | no span from the bound on that holds the need ends earlier, none that opens on a working minute starts earlier, and the span holds exactly the need |
| Occupancy.CollectEvents | src/yunpai_langgraph/pmc_v2_scheduler.py:200-203 | the event map holds the net change of the number of reservations at each boundary |
| Occupancy.SaturatedFromEvents | src/yunpai_langgraph/pmc_v2_scheduler.py:162-175 | the sweep returns the canonical list of exactly the minutes that at least cap reservations cover |
| Occupancy.MergedIsSaturated | src/yunpai_langgraph/pmc_v2_scheduler.py:196-198 | the capacity-one branch drops the same minutes as the sweep with cap 1 |
| Occupancy.Resource.FreeSegments | src/yunpai_langgraph/pmc_v2_scheduler.py:194-205 | on every branch the canonical list of the minutes in the windows, less unavailability, less minutes covered cap times |
| Occupancy.FreeAlwaysExactIff | src/yunpai_langgraph/pmc_v2_scheduler.py:194-205 | with line 84 a resource is read correctly under every list of reservations if and only if its windows less its unavailability are one unbroken stretch |
| Bundle.BySequenceSorts | src/yunpai_langgraph/pmc_v2_scheduler.py:618 | a route is walked in sequence order, with the same operations, those of one number in the order the route gives them |
| Bundle.CapacityIs | src/yunpai_langgraph/pmc_v2_scheduler.py:227-258 | the capacity the scheduler counts with: one for a machine and for a person, and for tooling and stations the quantity or the slots of the first in the snapshot under the code |
| Bundle.CalendarIs | src/yunpai_langgraph/pmc_v2_scheduler.py:214-245 | a resource is open in the stretches given for the calendar of the first in the snapshot under its code, and unavailable in those given for itself |
| Eligibility.CombosAreFitting | src/yunpai_langgraph/pmc_v2_scheduler.py:269-348 | the combinations tried are exactly those of active resources that meet every requirement of the operation: codes, capabilities, skills, qualifications, stations, and the first tooling pool of each code |
| Eligibility.NoCombosIff | src/yunpai_langgraph/pmc_v2_scheduler.py:284-347 | an operation is refused for want of a resource if and only if no combination fits it |
| Eligibility.CombosInOrder | src/yunpai_langgraph/pmc_v2_scheduler.py:707-716 | the combinations are tried machine by machine, then person by person, then station by station |
| Eligibility.KeepAppend | src/yunpai_langgraph/pmc_v2_scheduler.py:269-320 | the candidates of each kind stand in input order |
| Eligibility.ProcessingMinutesAreLeast | src/yunpai_langgraph/pmc_v2_scheduler.py:351-368 | minutes are refused if and only if a yield rate is given that is not in (0, 1]; otherwise they are the least whole number n with n * rate * basis * capacity * efficiency >= quantity * standard minutes * 60 on a machine, and with n * rate * basis >= quantity * standard minutes without one |
| Placement.PlaceOnEquipment | src/yunpai_langgraph/pmc_v2_scheduler.py:420-447 | the loop over common segments returns the placement with the least start at which the setup is done and a working minute has opened, on all of its return paths |
| Placement.Place | src/yunpai_langgraph/pmc_v2_scheduler.py:398-453 | for any free segments of any number of resources: the earliest placement, with equipment or without |
| Placement.PlacementSound | src/yunpai_langgraph/pmc_v2_scheduler.py:398-453 | the span holds exactly the processing minutes common to all resources, the setup minutes fit on the equipment between the anchor and the start, and start minus setup is at or after the anchor |
| Placement.PlacementBest | src/yunpai_langgraph/pmc_v2_scheduler.py:398-453 | no feasible processing start at or after the anchor is earlier, and none ends earlier |
| Placement.PlacementComplete | src/yunpai_langgraph/pmc_v2_scheduler.py:398-453 | a span is returned if and only if there is room for one, for any processing time, none included |
| Placement.PlacementUnique | src/yunpai_langgraph/pmc_v2_scheduler.py:398-453 | the promise leaves one answer |
| Placement.SetupAlwaysHeldIff | src/yunpai_langgraph/pmc_v2_scheduler.py:435-446 | the wall minutes reserved for setup are free on the equipment in every placement, whatever the anchor, the times and the other resources, if and only if the free minutes of the equipment have no gap |
| Placement.SetupHoldsTakenMinutes | src/yunpai_langgraph/pmc_v2_scheduler.py:440-446 | a setup that begins before a break or another reservation and ends after it reserves a minute that is not free, for every such shape |
| Schedule.GreedyIsEarliest | src/yunpai_langgraph/pmc_v2_scheduler.py:718-741 | over every combination that fits the operation no feasible start is earlier than the chosen one |
| Schedule.GreedyTieBreak | src/yunpai_langgraph/pmc_v2_scheduler.py:731-734 | every combination earlier in input order starts strictly later or not at all |
| Schedule.ChosenSound | src/yunpai_langgraph/pmc_v2_scheduler.py:707-741 | the chosen combination fits, and the operation holds exactly its processing minutes on all of it |
| Schedule.SetupForIs | src/yunpai_langgraph/pmc_v2_scheduler.py:371-391 | the setup: what the operation declares without a machine or on one not reserved; else, after the reservation on it that starts last (the newest of equals), none for the same family and product, the entry of the setup matrix under the former family for the new one where two named families differ and there is one, and what the operation declares otherwise |
| GreedyRuns.ReservesExactly | src/yunpai_langgraph/pmc_v2_scheduler.py:766-778 | an operation reserves as much of each resource as its combination takes, a machine from the start of setup, the others from the start of processing, to its end |
| GreedyRuns.ReservedUnder | src/yunpai_langgraph/pmc_v2_scheduler.py:766-778 | each reservation is kept under the id, product and family of its operation |
| Determined.ChosenUnique | src/yunpai_langgraph/pmc_v2_scheduler.py:718-741 | the choice for a job leaves neither its combination nor its times open |
| Context.RunContext.ResourceFor | src/yunpai_langgraph/pmc_v2_scheduler.py:227-258 | the resource of a code, made once with its capacity, one for machines and persons and the quantity or slots of the first under the code otherwise, and its windows and unavailability; None exactly when the snapshot lacks the code |
| Context.RunContext.PlaceProcessing | src/yunpai_langgraph/pmc_v2_scheduler.py:398-453 | placement on the resources of the context as reserved so far, leaving the reservations as they are |
| Context.RunContext.SetupMinutes | src/yunpai_langgraph/pmc_v2_scheduler.py:371-391 | setup after the last reservation on the machine, by the family, product and matrix rules written out |
| Context.RunContext.ChooseCombo | src/yunpai_langgraph/pmc_v2_scheduler.py:707-741 | the loop over combinations returns the best pick of all, or that none is feasible, or that the yield rate is bad, or that nothing fits |
| Context.RunContext.ReserveAll | src/yunpai_langgraph/pmc_v2_scheduler.py:766-778 | equipment is reserved from the start of setup, person, station and tooling from the start of processing, and the context then sees exactly these reservations added |
| Safety.NeverOverbooked | src/yunpai_langgraph/pmc_v2_scheduler.py:600-803 | in every schedule, at every minute, no more operations are at work than one on a machine or a person, than there are tools in the pool or slots at the station; as written, on calendars of one stretch |
| Safety.FreeIff | src/yunpai_langgraph/pmc_v2_scheduler.py:194-205 | on safe calendars a minute of a resource is free if and only if its calendar is open, it is not unavailable, and one more reservation fits its capacity |
| Safety.CommonIff | src/yunpai_langgraph/pmc_v2_scheduler.py:398-415 | a minute counts for a combination if and only if every resource it takes is free |
| Safety.WorkInsideCalendar | src/yunpai_langgraph/pmc_v2_scheduler.py:194-205 | every worked minute is in the calendar window and outside the unavailability of every resource of the operation |
| Safety.WorkIsReserved | src/yunpai_langgraph/pmc_v2_scheduler.py:766-803 | work on a resource at a minute is counted by the reservations on it |
| Safety.EveryOperationSound | src/yunpai_langgraph/pmc_v2_scheduler.py:735-765 | every scheduled operation works for exactly the least minutes that are enough for its quantity, on a fitting combination, with the setup the rules give behind its anchor |
| Safety.HeldOnOneStretch | src/yunpai_langgraph/pmc_v2_scheduler.py:766-769 | a machine whose free minutes have no gap holds the setup of whatever is placed on it |
| Safety.HeldSetupsNeverShare | src/yunpai_langgraph/pmc_v2_scheduler.py:766-769 | where every setup is held, a resource never has more operations at work or setting up at a minute than its capacity |
| Overbooking.SetupSharesMachine | src/yunpai_langgraph/pmc_v2_scheduler.py:758-769 | for every such shop, with line 84 or without it, the one schedule there is reserves the machine for setting up an order in a minute in which it works on another |
| Supply.SupplyReady | src/yunpai_langgraph/pmc_v2_scheduler.py:469-484 | a blocker exactly when an undated shortage concerns the operation; otherwise the latest date of those it waits for |
| BatchFlow.CascadeBlock | src/yunpai_langgraph/pmc_v2_scheduler.py:648-662 | exactly the operation and every later one of its line are added to the blocks, the first with its own reason and the others for their predecessor |
| BatchFlow.ScheduleBatch | src/yunpai_langgraph/pmc_v2_scheduler.py:600-791 | the round-robin driver ends; a schedule is a run of greedy placements by rounds, line after line in each, with the reservations of exactly its operations, each line split into a scheduled prefix and a blocked rest that begins at an operation it cannot pass; each error tells the truth |
| BatchFlow.Turn | src/yunpai_langgraph/pmc_v2_scheduler.py:666-781 | one look at one line places its next operation, blocks its rest, or waits for a predecessor not yet scheduled; all other lines, operations, reservations and blocks stay |
| BatchFlow.WaitingIsIllOrdered | src/yunpai_langgraph/pmc_v2_scheduler.py:670-682 | a line that waits has an operation before one of its predecessors in the route |
| BatchPromises.AfterPredecessors | src/yunpai_langgraph/pmc_v2_scheduler.py:683-687 | every operation begins, setup included, at or after the end of each predecessor, which is scheduled before it |
| BatchPromises.AfterSupply | src/yunpai_langgraph/pmc_v2_scheduler.py:688-700 | every operation begins, setup included, at or after every dated supply that concerns it, and no undated shortage concerns it |
| BatchPromises.BatchReports | src/yunpai_langgraph/pmc_v2_scheduler.py:742-765 | an operation is reported with the whole quantity of its line, the line id and product, its own code, number and family, and the ids of its predecessors in the order the route names them |
| BatchPromises.WaitsForReason | src/yunpai_langgraph/pmc_v2_scheduler.py:683-700 | the minute it may begin at is the epoch, the end of a predecessor, or the date of a supply entry of its line for all operations or for this one |
| BatchPromises.ScheduleNeverOverbooked | src/yunpai_langgraph/pmc_v2_scheduler.py:664-791 | a finished batch schedule never has more at work than one on a machine or a person, than a pool has tools or a station has slots, and keeps every calendar |
| BatchPromises.NoWindowMeansNone | src/yunpai_langgraph/pmc_v2_scheduler.py:735-740 | the error for want of a window is raised only when no fitting combination has room, for any processing time |
| BatchPromises.BlockedHasCause | src/yunpai_langgraph/pmc_v2_scheduler.py:648-662 | behind every block stands an undated shortage of the same order line id |
| BatchPromises.FullSupplySchedulesAll | src/yunpai_langgraph/pmc_v2_scheduler.py:688-700 | with complete or dated supply every operation of every line is scheduled, in route order |
| BatchPromises.IllOrderedNeverScheduled | src/yunpai_langgraph/pmc_v2_scheduler.py:670-682 | an operation placed before one of its predecessors in its route is never scheduled |
| BatchPromises.EndsByRouteOrder | src/yunpai_langgraph/pmc_v2_scheduler.py:782-790 | the stuck error is out of reach when every predecessor is earlier in its own route; with complete or dated supply a schedule is out of reach when some predecessor is not |
| Determined.StuckIff | src/yunpai_langgraph/pmc_v2_scheduler.py:664-790 | if no operation fails for want of a resource, a rate or a window, the driver ends stuck only when the first operation some line cannot pass is one placed before a predecessor; with distinct line ids, if and only if |
| Determined.ScheduledIff | src/yunpai_langgraph/pmc_v2_scheduler.py:664-781 | an operation is scheduled if and only if neither it nor an earlier one of its line misses undated supply or comes before one of its predecessors in the route |
| Determined.BatchDetermined | src/yunpai_langgraph/pmc_v2_scheduler.py:601-606 | a bundle has one finished batch schedule: same operations, order, times and reservations |
| TransferBatches.BatchQtyBounds | src/yunpai_langgraph/pmc_v2_scheduler.py:493-519 | each batch is positive and at most one transfer batch |
| TransferBatches.BatchesConserveIff | src/yunpai_langgraph/pmc_v2_scheduler.py:493-519 | the batches add up to the line quantity if and only if it is whole, or its whole pieces do not fill the last batch, or it is less than one piece |
| TransferBatches.FractionLost | src/yunpai_langgraph/pmc_v2_scheduler.py:513-515 | 2.5 pieces in batches of 2 make one batch of 2 |
| TransferBatches.SplitCostOnMachine | src/yunpai_langgraph/pmc_v2_scheduler.py:351-368 | for whole quantities the rounded-up minutes of all batches lie between the unsplit minutes and those plus one less than the number of batches |
| StreamingFlow.ScheduleStreaming | src/yunpai_langgraph/pmc_v2_scheduler.py:498-593 | the streaming driver: a run of greedy placements, line after line, each line all of whose batches of all operations are scheduled once, in order, or blocked for an undated shortage; each error tells the truth |
| StreamingFlow.StreamTurn | src/yunpai_langgraph/pmc_v2_scheduler.py:520-592 | one operation of one batch is blocked exactly if its supply is missing, and otherwise placed with its own reservations at or after the bounds it reports; all that was placed, reserved and blocked before stays |
| StreamPromises.AfterReported | src/yunpai_langgraph/pmc_v2_scheduler.py:530-542 | a batch operation begins at or after the end of the first operation whose printed id reads like one it reports |
| StreamPromises.StreamReports | src/yunpai_langgraph/pmc_v2_scheduler.py:506-580 | a batch operation is reported with its share of the line (full batches first, what is left in the last), the line id and product, its own code, number, family and batch, and ids only of what it is to wait for |
| StreamPromises.StreamWaitsForReason | src/yunpai_langgraph/pmc_v2_scheduler.py:527-550 | the minute it may begin at is the epoch, the end of the first operation under an id it reports, or the date of a supply entry for it |
| StreamPromises.StreamAfterSupply | src/yunpai_langgraph/pmc_v2_scheduler.py:543-550 | no supply of a batch operation is missing without a date, and it begins at or after every date |
| ScheduleIds.IdReads | src/yunpai_langgraph/pmc_v2_scheduler.py:261-262 | SO-1::CUT#10/B03 and SO-1::CUT#10 are the ids of batch 3 and of the unsplit operation |
| ScheduleIds.SameTextIff | src/yunpai_langgraph/pmc_v2_scheduler.py:567 | two batch ids read the same if and only if what they print before the batch number does and they count the same batch |
| StreamPromises.AllFoundIff | src/yunpai_langgraph/pmc_v2_scheduler.py:531-532 | in every finished schedule each operation is found under its own printed id if and only if no two operations that are scheduled print the same line id, code and sequence number |
| StreamPromises.AfterUpstream | src/yunpai_langgraph/pmc_v2_scheduler.py:522-542 | with ids that do not clash a batch enters an operation at or after the same batch has left each predecessor scheduled before it |
| StreamPromises.BatchesInOrder | src/yunpai_langgraph/pmc_v2_scheduler.py:527-542 | with ids that do not clash the batches of one operation run one after the other, in order |
| ClashingIds.ClashStartsEarly | src/yunpai_langgraph/pmc_v2_scheduler.py:530-535 | for every such bundle, whose line ids differ and whose operation ids clash, the one schedule there is begins a second batch before the first has left the operation |
| StreamPromises.PredecessorWentBeforeIff | src/yunpai_langgraph/pmc_v2_scheduler.py:523-540 | the same batch of another operation of the route is scheduled before an operation if and only if that one is earlier in sequence and not blocked; other predecessors are passed over |
| SkippedPredecessor.PredecessorSkipped | src/yunpai_langgraph/pmc_v2_scheduler.py:523-540 | a bundle that is scheduled, and in every schedule of it an operation runs whose named predecessor is blocked |
| StreamPromises.QuantityConservedIff | src/yunpai_langgraph/pmc_v2_scheduler.py:511-541 | over a whole schedule an operation that is not blocked makes the line quantity if and only if no fraction is cut off the last batch |
| StreamPromises.StreamNeverOverbooked | src/yunpai_langgraph/pmc_v2_scheduler.py:498-593 | a finished streaming schedule keeps every capacity |
| Determined.StreamDetermined | src/yunpai_langgraph/pmc_v2_scheduler.py:498-504 | a bundle has one finished streaming schedule |
| Scheduler.ScheduleOperations | src/yunpai_langgraph/pmc_v2_scheduler.py:600-611 | one streaming route sends the whole bundle to the streaming driver; either way the result is right |
| Scheduler.DriverIs | src/yunpai_langgraph/pmc_v2_scheduler.py:609-611 | a schedule was made by the streaming driver if and only if the route of some line streams |
| Scheduler.NothingOverbooked | src/yunpai_langgraph/pmc_v2_scheduler.py:600-803 | whichever driver ran, no resource is overbooked at any minute |
| Scheduler.OneSchedule | src/yunpai_langgraph/pmc_v2_scheduler.py:601-606 | scheduling is deterministic: all finished schedules of a bundle hold the same operations and reservations |
| Overbooking.AsWrittenOverbooks | src/yunpai_langgraph/pmc_v2_scheduler.py:84 | over any break of any calendar the code as written runs two orders at once, on a machine of capacity one, at the first minute after the break |
| Overbooking.NeverOverbooksIff | src/yunpai_langgraph/pmc_v2_scheduler.py:84 | with line 84, whatever the rest of the bundle and whichever driver runs, no finished schedule overbooks a machine of a given calendar, with any unavailability, if and only if what the code makes of its windows less its unavailability has no gap from the epoch on |
| Overbooking.KeepsOutIff | src/yunpai_langgraph/pmc_v2_scheduler.py:84 | with line 84 no finished schedule has a machine at work while it is unavailable if and only if none of its unavailability lies over a break before a minute of the plan |
| Overbooking.WorksInHole | src/yunpai_langgraph/pmc_v2_scheduler.py:84 | whenever it does, a shop of one order is scheduled to work in that minute of the unavailability |
| PlanStore.ReleaseIsItsSteps | src/yunpai_langgraph/m5_repository.py:538-619 | the apply gate goes through if and only if each of its adjacent transitions, with the status the caller expects, and the head swap would, and does what they do one after the other; otherwise nothing changes |
| PlanRepository.Repository.SavePlan | src/yunpai_langgraph/m5_repository.py:364-417 | refuses protected versions and protected statuses; a first save writes every column, a later one its parent, algorithm, report, schedule, status and update time, and leaves identity, hashes and bundle alone; the first row under an idempotency key stays |
| PlanRepository.Repository.SetHead | src/yunpai_langgraph/m5_repository.py:446-474 | the head swap with its conflict check |
| PlanRepository.Repository.Transition | src/yunpai_langgraph/m5_repository.py:481-529 | all checks in order, then the status and one event; an error leaves every table as it was |
| PlanRepository.Repository.ApplyRelease | src/yunpai_langgraph/m5_repository.py:538-631 | all checks in order, then statuses, events and head together; an error leaves every table as it was |
| PlanRepository.Repository.CreateDispatch | src/yunpai_langgraph/m5_repository.py:655-699 | checks, replay of the row under (plan, key), or a new row |
| PlanRepository.Repository.FindByIdempotency | src/yunpai_langgraph/m5_repository.py:353-362 | in any store that calls have made, the version and hash of the first save that went through under the key, and nothing exactly when none did |
| PlanPromises.KeyTellsFirstSave | src/yunpai_langgraph/m5_repository.py:401-407 | over every run there is a row under a key if and only if some save went through under it, and it is what the first of them wrote |
| PlanHistory.StoredPlanIs | src/yunpai_langgraph/m5_repository.py:364-407 | over every run a version is stored if and only if some save of it went through; its identity and creation time are those of the first such save, its parent, algorithm, report and schedule those of the last |
| PlanHistory.StatusIs | src/yunpai_langgraph/m5_repository.py:364-619 | its status and update time are those of the last save, transition or release of it that went through |
| PlanHistory.ReleaseTimeIs | src/yunpai_langgraph/m5_repository.py:515-517 | its release time is that of its release, and none if it was never released |
| PlanHistory.MoveRefusedIff | src/yunpai_langgraph/m5_repository.py:494-513 | a transition is refused with the error of the first check that fails, of seven in order |
| PlanHistory.ReleaseRefusedIff | src/yunpai_langgraph/m5_repository.py:555-588 | and a release with that of the first of its seven |
| PlanHistory.SaveRefusedIff | src/yunpai_langgraph/m5_repository.py:372-383 | a save is refused exactly for a protected plan or a protected status, a head swap exactly for a revision other than the one expected |
| PlanHistory.IssueRefusedIff | src/yunpai_langgraph/m5_repository.py:660-692 | a dispatch is refused exactly for a plan that is missing or not released, or, new under its plan and key, for an id that is taken |
| PlanHistory.LogIs | src/yunpai_langgraph/m5_repository.py:522-607 | the lifecycle log holds exactly the events of the calls that went through, in order, a release of a draft with its review first |
| PlanHistory.HeadIs | src/yunpai_langgraph/m5_repository.py:455-469 | a head names the plan of the last call that moved it and the tenant of the first |
| PlanHistory.TicketsAre | src/yunpai_langgraph/m5_repository.py:666-692 | the dispatch rows are exactly the tickets issued under a plan and key for which there was none |
| PlanPromises.RunSound | src/yunpai_langgraph/m5_repository.py:481-619 | in every reachable store: a protected plan is a production plan with a passing report and a release time; every event joins adjacent statuses; the log tells the protected statuses of each plan exactly once each and in order; every dispatch row names a protected plan, one row to a plan and key |
| PlanPromises.RunGrows | src/yunpai_langgraph/m5_repository.py:364-407 | whatever is called next, the bundle, hashes, schedule, report and release time of a protected plan stay, its status only moves forward, and no event, dispatch or idempotency row is lost or changed |
| PlanPromises.ReleasedOnce | src/yunpai_langgraph/m5_repository.py:492-587 | no plan is released twice, through either entry |
| PlanPromises.RevisionCounts | src/yunpai_langgraph/m5_repository.py:446-470 | the revision of a head is the number of calls that moved it |
| PlanPromises.SwapIsExclusive | src/yunpai_langgraph/m5_repository.py:455-461 | two calls that expect the same revision cannot both move a head; the later one expected more |
| PlanPromises.SwapSucceedsIff | src/yunpai_langgraph/m5_repository.py:455-461 | a bare head swap goes through if and only if the caller counted every move before it |
| PlanPromises.HeadsAreReleased | src/yunpai_langgraph/m5_repository.py:579-618 | while only releases move heads, every head names a protected plan and no plan is the head of two scenarios |
| PlanPromises.HeadsHomeIff | src/yunpai_langgraph/m5_repository.py:579-618 | while only releases move heads, every head belongs to the scenario of its plan at every point of a run if and only if every release that went through named the scenario of its plan |
| PlanPromises.HeadElsewhere | src/yunpai_langgraph/m5_repository.py:554-618 | a plan of one scenario, released into another, becomes the head there |
| PlanPromises.ReplayIff | src/yunpai_langgraph/m5_repository.py:660-680 | asking again for a dispatch that was made returns the first row if and only if the plan is still released; once it has moved on the request is refused |
| PlanPromises.ReplayRefused | src/yunpai_langgraph/m5_repository.py:660-680 | saved, released, issued and moved to dispatched: the same request is refused |
| PlanPromises.FirstSaveWins | src/yunpai_langgraph/m5_repository.py:401-407 | the row under an idempotency key is the one the first save wrote, for ever |
| PlanPromises.RowHashIff | src/yunpai_langgraph/m5_repository.py:382-407 | the hash on that row is the hash of its plan if and only if that save made the plan or repeated the hash it was first saved with |
| PlanPromises.RowHashElsewhere | src/yunpai_langgraph/m5_repository.py:382-407 | a version saved again with another hash under a fresh key has a row with a hash that is not its own |
| PlanRaces.RacesSoundIff | src/yunpai_langgraph/m5_repository.py:481-680 | transitions and dispatches read the plan under one lock and write under another: over every interleaving, the invariants of the store hold throughout if and only if at each write of a transition its plan stands where it stood, as far as protected statuses go, and still passes if it is to be released; dispatches never break them |
| PlanRaces.DispatchedGoesBack | src/yunpai_langgraph/m5_repository.py:492-529 | two callers release one plan, and the later write takes it from dispatched back to released |
| RunExecutor.Executor.PlannerNode | src/yunpai_langgraph/graph.py:143-197 | an empty plan is filled, then the run fails, completes or runs |
| RunExecutor.Executor.WorkerNode | src/yunpai_langgraph/graph.py:199-315 | a free step that is not exempt and not authorized opens its gate and does not run; any other runs and leaves its result, or fails the run |
| RunExecutor.Executor.ReviewerNode | src/yunpai_langgraph/graph.py:317-350 | a result is passed, held behind a gate, or ends the run; a blocked one is always held behind a data gate |
| RunHistory.TurnReviews | src/yunpai_langgraph/graph.py:199-350 | what one turn makes of a result: a blocked one is held behind a data gate at its step whatever the reviewer says; any other is held behind the gate the reviewer names, ends the run, or moves it one step on, to completion after the last |
| RunHistory.TurnFails | src/yunpai_langgraph/graph.py:270-315 | a step that is refused or breaks off fails the run, and one that leaves nothing is run again |
| RunHistory.TurnAsks | src/yunpai_langgraph/graph.py:205-225 | a step to be authorized that is not opens its gate and nothing else happens |
| RunHistory.TurnStores | src/yunpai_langgraph/graph.py:290-315 | a result is kept under its module and its tool |
| RunHistory.WorkedLeaves | src/yunpai_langgraph/graph.py:199-315 | the worker leaves the plan, the request, the approvals and the authorizations as they were |
| RunHistory.ExaminedLeaves | src/yunpai_langgraph/graph.py:317-350 | and the reviewer these and the outputs |
| RunHistory.PlanningTells | src/yunpai_langgraph/graph.py:143-197 | a run that waits is not driven on; one whose planning fails, or that lacks a tool, fails and does nothing |
| RunExecutor.Executor.Execute | src/yunpai_langgraph/graph.py:413-421 | the loop over worker and reviewer, on every run that keeps its invariants |
| RunExecutor.Executor.ValidateResumeDecision | src/yunpai_langgraph/graph.py:598-618 | every refusal of a human decision, in order |
| RunHistory.RefusedIff | src/yunpai_langgraph/graph.py:598-618 | an answer is refused exactly without an open gate, for an unknown decision, for facts that are no object, and at a data gate for all but a rejection, an override, or facts with a decision other than approval |
| RunExecutor.Executor.PrepareResume | src/yunpai_langgraph/graph.py:669-721 | what a decision does: reject, authorize, send back on the supplied request, or pass the step once its approval is applied; an approval that fails either opens the gate again or leaves the run waiting |
| RunHistory.AnswerTells | src/yunpai_langgraph/graph.py:669-721 | what an answer does: a rejection fails the run; before a step any other authorizes that step; after it facts or a retry send it back on the request with the facts; and what is left moves the run on once its approval is applied |
| RunExecutor.Executor.PublishRecords | src/yunpai_langgraph/m0_catalog.py:13-87 | candidate records are taken in and published at once, and the publication fails when the counts read back fall short, or when the exchange breaks off |
| RunExecutor.Executor.ApplyRelease | src/yunpai_langgraph/graph.py:858-917 | an apply gate releases its plan in the plan store; it passes without doing so in a preview or when the plan was released and still heads its scenario; a refusal opens the gate again, and a missing plan version does not |
| RunExecutor.Executor.ResumeRun | src/yunpai_langgraph/graph.py:723-741 | a decision followed by the run it lets go on |
| RunPromises.History | src/yunpai_langgraph/graph.py:143-741 | after any sequence of calls every step behind the run is passed, every authorization comes from an answered gate, the open gate is at the current step, and the trace tells of every approval in order |
| RunPromises.EveryStepPassed | src/yunpai_langgraph/graph.py:317-350 | every step below the next one, and every step of a completed run, was approved by the reviewer node or passed by a human decision for that very step that did not reject it, and on a data gate overrode it |
| RunHistory.BlockedIsHeld | src/yunpai_langgraph/graph.py:321-342 | over every history a blocked result is reviewed at once and not approved, and while that is the last there is, the run waits at a data gate for that step, which it has not passed |
| RunHistory.ApprovedIsNotBlocked | src/yunpai_langgraph/graph.py:321-350 | what the reviewer approves is the result of the act just before, of that step, and it was not blocked |
| RunHistory.BlockedNeedsOverride | src/yunpai_langgraph/graph.py:598-721 | a step whose last result was blocked is behind the run only with a human answer after it, at its data gate, that overrode it |
| RunPromises.ActedAfterItsGate | src/yunpai_langgraph/graph.py:205-210 | with step ids that differ, the trace tells that a free step that had to be authorized ran only after it tells that its own pre-execution gate was answered with something other than a rejection |
| RunPromises.HistoryLater | src/yunpai_langgraph/graph.py:669-721 | the plan, once set, stays; the next step never goes back; no approval, authorization or trace entry is lost |
| GatePromises.RunsAreHistories | src/yunpai_langgraph/graph.py:669-741 | a run among the stores its gates act on is one of the histories of calls above |
| CanonicalPromises.CatalogShortIff | src/yunpai_langgraph/m0_catalog.py:75-84 | publishing records in one go shows fewer of them than were sent if and only if two of them name the same entity; the ledger has a row for each |
| GatePromises.AskedOutputIs | src/yunpai_langgraph/graph.py:783-784 | an approval is about the output kept under the tool of its gate, or about nothing |
| GatePromises.StrandedIff | src/yunpai_langgraph/graph.py:702-877 | over every history, a run waits with no gate to answer if and only if some plain approval answered a candidate gate whose records, to be catalogued, name one entity twice (or whose exchange broke off), or an apply gate without a plan version outside a preview |
| GatePromises.StrandedForEver | src/yunpai_langgraph/graph.py:413-415 | nothing changes a stranded run |
| GatePromises.OneStepStrands | src/yunpai_langgraph/graph.py:811-877 | for any such records, and for any request that is no preview, a run of one step is stranded by approving it |
| GatePromises.TwinsStrand | src/yunpai_langgraph/m0_catalog.py:75-84 | two records of one product, approved with the service up and the exchange whole, strand the run |
| GatePromises.UnsavedPlanStrands | src/yunpai_langgraph/graph.py:871-877 | an unsaved draft, approved where there is a plan database, strands the run |
| GatePromises.PastApplyGate | src/yunpai_langgraph/graph.py:885-917 | where there is a plan database, a run goes past an apply gate about a plan if and only if that is a draft or approved production plan with a passing report, in step with the head revision asked for (none yet, if none is asked for and there is no head), or was released and still heads its scenario; in the first case it is released now, heads the scenario one revision on, and the last event says by whom; in the second nothing changes; and in every later world it is protected with the same content and release time |
| GatePromises.CandidateTells | src/yunpai_langgraph/graph.py:811-832 | what a plain approval of a candidate gate leaves: nothing without records or service, else one batch of the default tenant with one publication for each record, under whoever answered and with the reason of an override |
| Canonical.M0Store.IngestBatch | src/yunpai_langgraph/m0_backend.py:106-125 | one batch and one candidate for each record, in order |
| Canonical.M0Store.PublishCandidate | src/yunpai_langgraph/m0_backend.py:141-171 | the entity of that name gets its next version, with ledger, outbox and approval rows |
| Canonical.M0Store.PublishBatch | src/yunpai_langgraph/m0_backend.py:133-174 | each candidate of the batch is published, in order; an unknown batch changes nothing |
| CanonicalPromises.RunGood | src/yunpai_langgraph/m0_backend.py:106-174 | after any sequence of ingests and publications each (tenant, type, key) has one entity, its versions are 1 to the current number in order, and version, ledger, outbox and approval rows match one to one and name a candidate of the batch under its own tenant |
| CanonicalPromises.RunLater | src/yunpai_langgraph/m0_backend.py:150-169 | no version, ledger, outbox or approval row is ever changed or lost, older payloads included |
| CanonicalPromises.ReadbackAfterPublish | src/yunpai_langgraph/m0_backend.py:176-195 | reading back a batch just published shows each of its names once, with its last candidate, and as many rows as candidates if and only if no two share a name |
| CanonicalPromises.PublishCounts | src/yunpai_langgraph/m0_backend.py:139-174 | a publication writes one ledger row for each candidate of its batch and none for another, even when the batch was published before |
| CanonicalRows.NameIs | src/yunpai_langgraph/m0_backend.py:37-45 | a candidate names the entity of its tenant and kind under the first of the ten naming fields it fills, and one that fills none is on its own |
| CanonicalRows.CatalogueTells | src/yunpai_langgraph/m0_backend.py:106-174 | records taken in and published at once make one published batch, and for each record, in order, one version with its fields and one ledger, outbox and approval row under the approver; nothing else is written |
| CanonicalPromises.OrderTwice | src/yunpai_langgraph/m0_backend.py:133-174 | one order, published twice, has a second version with the same fields |
| Permissions.Resolve | src/yunpai_langgraph/identity.py:773-794 | the union of the bound roles, each permission with the widest reach any of them gives |
| Permissions.WidestWins | src/yunpai_langgraph/identity.py:777-794 | a permission is held exactly when some bound role gives it, without a scope exactly when one gives it without, and otherwise with the tenant scope, the department scope or its own, the widest there is |
| Permissions.MoreRolesNeverNarrow | src/yunpai_langgraph/identity.py:777-794 | binding more roles takes no permission away and narrows none |
| Permissions.Decide | src/yunpai_langgraph/identity.py:822-840 | the reason of a decision, in order of precedence, and refusal only when none applies |
| Permissions.EffectivePermissions | src/yunpai_langgraph/identity.py:857-870 | the set holds exactly the permissions some reason allows |
| Permissions.DecisionIsMembership | src/yunpai_langgraph/identity.py:808-870 | a permission is allowed if and only if the effective set contains it |
| OrgTree.NormalizeIsIdempotent | src/yunpai_langgraph/identity.py:146-151 | a normal department name is its own normal form |
| OrgTree.NormalIs | src/yunpai_langgraph/identity.py:146-151 | character by character: white space is dropped, and the last character of a department name is taken off the end as often as it stands there, down to one character |
| OrgTree.NormalReads | src/yunpai_langgraph/identity.py:146-151 | a name spelt with a blank and that character twice has its plain form |
| OrgTree.PlanOrg | src/yunpai_langgraph/identity.py:172-243 | for any roster and tree: each department asked for and not there yet is planned once, under its first spelling, and nothing else is; each worker belongs to the first department that has a node |
| OrgTree.PrimaryIs | src/yunpai_langgraph/identity.py:207-236 | the primary department is the node of the first fragment that has a name and a node |
| OrgTree.OrgStore.Upsert | src/yunpai_langgraph/identity.py:386-401 | exactly the node with that id is written over, or a new one added; a parent that is empty or the node itself is cleared |
| OrgTree.ClearedIs | src/yunpai_langgraph/identity.py:386-401 | a node keeps its parent unless that is empty or the node itself, and everything else |
| OrgTree.OrgStore.Derive | src/yunpai_langgraph/identity.py:447-470 | existing nodes stay as they are; the company if missing and the planned departments are added; workers are placed by the tree as it is listed |
| OrgTree.ByIdOrders | src/yunpai_langgraph/identity.py:402-407 | the tree is listed in the order of its ids, with the same nodes |
| OrgTree.CreatedAreNew | src/yunpai_langgraph/identity.py:447-465 | the nodes created have ids that differ from each other and from all there were |
| OrgTree.CreatedAre | src/yunpai_langgraph/identity.py:457-465 | the nodes created are the company, if missing, and the planned departments below it, under ids made of their normal names, none counting as made by hand |
| OrgTree.DerivingAgain | src/yunpai_langgraph/identity.py:447-465 | run again on the same roster, or on part of it, the derivation creates nothing |
| OrgTree.PrimaryIsThere | src/yunpai_langgraph/identity.py:207-236 | the primary department of every worker is a node of the derived tree |
| OrgTree.HomeIsManualIff | src/yunpai_langgraph/identity.py:192-228 | a department that stands under a node made by hand is given that kind of node if and only if the last node to bear the name is one made by hand |
| OrgTree.RootTakesHome | src/yunpai_langgraph/identity.py:192-228 | a department made by hand under the name of the root: its workers are given the root |

## Left out
- ISO times: minutes are integers, and the conversions to and from text are taken as identities.
- Decimal's 28 digits: quantities, rates and products are exact reals, rounded up once as in the code.
- Snapshot validation (`src/yunpai_langgraph/pmc_v2_snapshots.py:170-431`): it is the precondition `ValidBundle`, except that nothing is assumed unique that it does not check; the check that a person's `max_parallel_tasks` is 1 is part of it.
- Error texts and the reference fields of blocks: an error is its kind and place. A schedule id is kept as its parts; wherever the code looks one up, the parts are printed and the text compared.
- Transfer batch size: read as a positive integer.
- Tooling listed twice: the code means to drop repeats but compares a code with a pool, so it takes the pool twice; the model does as the code does.
- BatchPromises.AfterPredecessors: states precedence for batch flow only; what streaming keeps of it is in StreamPromises.
- Safety.NeverOverbooked: says nothing of setup minutes, because the code does not reserve the minutes the setup works in; Safety.HeldSetupsNeverShare is about those.
- Overbooking.NeverOverbooksIff: is about machines, with capacity one; for tooling and stations Occupancy.FreeAlwaysExactIff says on which calendars their free minutes are read correctly.
- Determined.StuckIff: only one way when two lines share a line id, because a blocked operation of the one then unblocks the other.
- PlanRepository.Repository.Transition: reads and writes without a break; what can happen between its two locks is in PlanRaces.
- PlanRepository.Repository.CreateDispatch: reads the plan and writes the row without a break, likewise.
- Status text outside the lifecycle is one datatype case, JSON columns are opaque strings, hashes are opaque values, and time is a parameter.
- Snapshots, messages, execution events and knowledge rows of the plan store: inserts with no state of their own to keep.
- Tools, the rules of the reviewer node for results that are not blocked, exempt free steps, and capability gaps: inputs of the run. Of a tool's output only what an approval acts on is kept: the candidate records, the plan version and the scenario. A run cut off by an exception is a run whose turns end.
- GatePromises.StrandedIff: takes a broken exchange with the canonical service as an input, with or without the records stored; that the service answers with something other than its counts is not modelled.
- One plan database and one canonical service: a request that names another database than the service is set up with is taken to mean the same one. Request values are text, and empty text stands for a value the code reads as false.
- What an approval writes into the outputs kept in the run (approval marks, evidence, the sandbox store of candidates): nothing later in the model reads it.
- RunPromises.EveryStepPassed: says nothing of the status of step records, because an approval that fails has already marked its record completed.
- Role checks of gates, streaming of events, responses and prompts in `src/yunpai_langgraph/graph.py`: no state the properties speak of.
- Normalisation of records before ingest, checksums and document rows of the canonical store; random ids are row numbers, so they never collide.
- Canonical keys: a candidate without one is told apart by its row, so that a named key can never equal it; roles granted by a trusted header have names that are not empty.
- Permission specs are taken as parsed, rosters as split into department fragments; audit rows, tree paths and department listings are not modelled.
- OrgTree.DerivingAgain: is about which nodes are created; the new nodes can change which one bears a name last, and so a primary department.
- SQLite, PostgreSQL, HTTP, prompts, parsing of workbooks and images, password hashing: input, output or foreign code.
