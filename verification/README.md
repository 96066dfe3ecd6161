# A verified model of OCRemote's factory server

OCRemote's server is a single-threaded scheduler. It moves counted items between storages and machines through a
shared inventory, the bus, and talks to computers in the game over byte streams. This project models the maintained Rust
server in Dafny and proves what its parts promise each other. An `await` ends a step; everything that can happen between
two awaits of one task is an event of a state machine, so the theorems about runs hold for every interleaving.

`dafny verify dfyconfig.toml` checks everything.

## How it is built

Code that updates fields is modelled by classes and loops, and proved against functions or relations on values; the
theorems are about those. Code that is spread over awaits is modelled by transition systems (`Step`, `Enabled`, `Run`),
whose invariants are proved event by event and then for all runs.

- `Bus` is the slot allocator of the item bus: specification functions and the class that refines them. `BusSystem` puts it
  into the running factory: process tasks, the background task with its possibly stale listings, clients that carry out
  transfers or fail, the physical contents of the bus, and the end of a cycle. Its invariant needs three things of every
  user of a slot: what is pulled in equals what is pushed out and is at most one stack (`Balanced`), the place it is pulled
  from has it (`SourceHolds`), the place it is pushed to has room (`TargetTakes`). `BusRuns` has what all runs guarantee,
  `Messages` that what the allocator tells the waiters is what then holds: who is granted a slot, and who is refused.
- `JobRuns` has the control flow of the processes: one task per input, what it remembers, the joins, freeing on success and
  handing over on failure. A job sends its events to the bus without looking at the bus; that the bus always allows them is
  the theorem, and with it every run of jobs is a run of `BusSystem`. `BusJobs` has what the releases do, one by one.
  `Returns` says which slots and fluid buses a job frees at once, and which it leaves to the background task.
- `FluidBus` is the allocator of the fluid bus, whose background task differs. `FactoryRuns` puts the jobs on both buses: a
  job asks for its fluid buses in the same step as for its item slots, waits for both, and returns both. Every run of it is
  a run of `JobRuns` and one of `FluidBus`. `FluidTransfers` counts what a job that has ended well has done with its fluids.
- `Lines` and `JobProgress` are about the order in which jobs wait: each has its tickets next to each other in both queues,
  so the job that has begun first waits for nobody. `FactoryProgress` concludes from this that something can always go on,
  `Futures` that a job that waits for nothing can come to its end, `CycleEnds` that the cycle can. All of it holds if no job
  needs more than there is and the fluid bus passes nobody over; `FluidWaits` has what happens otherwise, `Deadlocks` runs
  in which jobs wait for ever.
- `Places` and `Plant` put the jobs beside the real slots of chests and machines. A job starts by reserving what slots offer
  and planning what their shadows take; from this `SourceHolds` and `TargetTakes` follow for every transfer of every run.
  The jobs of a crafting process all start at once for the same grid, and plan their transfers only when their group of
  requests is run; `Crafting` is that group, and what it leaves. `Conservation` shows that transfers only move items. `Backing`
  shows that what `ItemInfo` reserves and what the processes plan are such starts, one after the other, from the reading of the
  chests on.
- `LuaValue` is the wire format: an encoder, a parser with an explicit stack that may be fed any pieces, and the round trip
  for every value; `Wire` says what stands on the wire, byte by byte. `LuaClient` is the client's own decoder, made of
  closures, which is shown to keep step with that parser.
  `Server` has the queues of a connection and the table of logins; `Link` joins a server connection and the client program
  at the two ends of the streams.
- `Items`, `Placement` and `Buffered` are about putting items into an inventory: greedy insertion, the proof by exchange
  that it is complete, and the planning of a buffered process on a shadow inventory. `Scattering` is the even spreading over
  slots, `Slotted` the selection of recipes with fixed slots (one inventory or several).
- `Reservations`, `Catalog`, `Supply` and `Recipe` are the books of the storages: the heap of providers of an item, the table
  with its label and name indices, and how many sets of a recipe can be supplied and reserved. `Listing` is how chests enter
  the books, slot by slot, `Chest` its shadow slots and the storing away of stacks, `Storing` the part of the bus task that uses it.
  `Fluid` and `FluidRecipe` are the tanks and counters of fluid storages and the fluid part of recipes.
- `Jobs` joins them: from a recipe, through reservations and plans, to balanced uses of bus slots, for slotted, buffered,
  scattering, crafting and fluid processes and for stock refills. `Starts` takes what these methods promise and shows that
  their jobs may start in `Plant`, and that the next one of the cycle may start on what they leave. This is the reason why
  the code may give a slot back as empty without looking.

Quantities are unbounded integers, and sizes, multipliers and stack sizes are natural numbers; Rust's division is
`TruncDiv`. Where the program breaks ties by hash or heap order, the model leaves the choice open. Assumed of the world: a
transfer moves at most what is there and what has room, and reports success only if it moved the requested amount or all
that was possible; nobody else touches the bus, the chests and the tanks during a cycle, but that machines use up what lies
in their slots; backups are not negative; no stored item equals the stand-in for slots that plans must not touch. A job asks
for all its slots at once: the processes ask in one piece, and the tasks of a crafting job, which ask when they are first
polled, stand next to each other in the executor's queue.

Findings about the code, each with an input and, but for the last one, the exact condition:

- A fluid storage with several tanks may promise fluid that it cannot deliver. The counters add up all tanks, but fluid is
  drawn from one tank only, the last one without another fluid, which may be an empty one
  (`Fluid.PromisedFluidMayBeOutOfReach`). Every promise is served exactly if no other tank of the storage holds the fluid
  when it is read (`Fluid.PromisesAreServedExactlyWhen`).
- An update drains a fluid bus by its first tank with a fluid only (`Fluid.DrainLeavesARest`). It covers all of that fluid
  exactly if no later tank holds it (`Fluid.DrainCoversExactlyWhen`), and the bus is empty, when it is then given to a
  waiter, exactly if this is so for each of its fluids and the storages had room (`Fluid.DrainedBusIsEmptyExactlyWhen`).
- A recipe that a buffered process rejects after a try leaves that try in the shadow inventory (buffered.rs, lines 149-152).
  It is left there exactly if a set was within the quotas and something of the first input could be inserted
  (`Buffered.TraceExactlyWhen`, `Buffered.BufferedRun.TakeRecipe`); then a later recipe may be refused although the machine
  has room for it (`Buffered.RejectedRecipeLeavesTrace`). It can cost sets, but never makes a plan that does not fit
  (`Buffered.TracesOnlyCostSets`), and without traces the number of sets is the most that the machine takes.
- On the fluid bus a ticket may be passed over. After deposits only the buses that were just drained are offered, and the
  background task goes round again only if a bus was queued. `FluidBus.TicketMayBeForgotten` gives the run and
  `FluidBus.StoredServesExactlyWhen` the condition, which is the only way to it (`FluidBus.WaitersAreServedUnlessForgotten`).
  On the item bus this cannot happen (`BusRuns.NoLostWakeup`).
- A ticket that was passed over may wait for ever. A recipe of two fluids that asks while one of two buses is being drained
  gets that bus for one fluid and waits for the other beside a free bus; it never gives back what it has, so the cycle never
  ends, unless another job asks (`Deadlocks.RecipeMeetsDrain`). With the task at rest, the oldest ticket can still be served
  exactly if some job that has a bus waits for no other; else, and only then, it is never served
  (`FluidWaits.OldestServedExactlyWhen`). A new request, beside a free bus, would serve it (`FluidWaits.NewRequestServes`).
- A process with more inputs than the bus has slots can never load (`JobProgress.OversizedJobNeverLoads`); a recipe of two
  items on a bus of one slot stops everything (`Deadlocks.TooFewSlots`), and so does a recipe of two fluids with one fluid
  bus (`Deadlocks.TooFewBuses`). With no such process, and nobody passed over, nobody waits for ever in a circle: something
  can always go on (`FactoryProgress.NeverStuck`), and the cycle can always end, with nothing failing and nobody asking anew
  (`CycleEnds.CycleCanEnd`).
- A transfer whose failure was reported, because the connection was lost, may still be carried out by the client. This does
  no harm as long as the slot still belongs to its job, or is queued to be emptied, or will be listed anew before anybody gets
  it (`BusSystem.InTime`, `BusSystem.LateInv`); later it puts items into a slot that is given away as empty
  (`BusRuns.TooLateHitsTheNext`).

## Model

| member | source | states |
|---|---|---|
| Bus.GiveAllServes | server/RustImpl/src/factory.rs:626-630 | handing listed free slots to waiters serves the oldest waiters, until slots or waiters run out, and allocates only listed slots |
| Bus.FreeSlots | server/RustImpl/src/factory.rs:616-625 | the free slots of a listing are exactly those that nobody has and that are listed as empty, each once |
| Bus.Allocator.BusAllocate | server/RustImpl/src/factory.rs:293-300 | queues the request and spawns the background task iff none is remembered |
| Bus.Allocator.BusFree | server/RustImpl/src/factory.rs:302-308 | the oldest waiter gets the slot at once and is told its number, else it becomes unallocated and nobody is told anything |
| Bus.Allocator.BusDeposit | server/RustImpl/src/factory.rs:310-323 | with a task the slots are queued, else they become unallocated and a task is spawned iff there are any |
| Bus.Allocator.TakeListing | server/RustImpl/src/factory.rs:614-631 | stores away exactly the unallocated non-empty slots and grants the unallocated empty ones, the last first, one to each of the oldest waiters; exactly these grants are sent, in this order |
| Bus.Allocator.FinishUpdate | server/RustImpl/src/factory.rs:632-640 | all queued slots become unallocated; another update follows iff there were any, or something was stored and somebody waits |
| Bus.Allocator.FailUpdate | server/RustImpl/src/factory.rs:587-598 | every waiter is refused, once and in order, the background task ends, slots queued for emptying stay allocated |
| BusSystem.StepInv | server/RustImpl/src/factory.rs:582-641 | every event of every task, client and cycle end, late transfers in time included, keeps the allocator's invariant |
| BusSystem.LateInv | server/RustImpl/src/factory.rs:617-625 | a transfer that is carried out after it was reported as failed does no harm if it comes in time |
| BusRuns.SlotsArePartitioned | server/RustImpl/src/factory.rs:293-323 | in every run the allocated slots are the disjoint union of slots held by exactly one part and slots queued for emptying |
| BusRuns.NoLostWakeup | server/RustImpl/src/factory.rs:582-641 | in every run, if no background task runs and somebody waits, every slot is held by a part; a background task is remembered iff one runs; everybody who waits is in the queue |
| BusRuns.GrantedSlotsAreEmpty | server/RustImpl/src/factory.rs:612-631 | a slot is physically empty when some part gets it, however old the listing is |
| BusRuns.FreedSlotsAreEmpty | server/RustImpl/src/factory.rs:302-308 | whenever a part may give its slot back, the slot is physically empty, in every run whose transfers find content and room |
| BusRuns.TransfersAreExact | server/RustImpl/src/process/slotted.rs:151-193 | an extraction from a place that has the items moves the full amount; so does a transfer to a place with room, if no transfer of the part failed |
| BusRuns.StoringLeavesAllocatedSlotsAlone | server/RustImpl/src/factory.rs:617-625 | the background task never takes items out of an allocated slot, even one allocated after the listing |
| BusRuns.TaskStopsOnCleanBus | server/RustImpl/src/factory.rs:632-640 | when a successful update ends the background task, every unallocated slot is empty |
| BusRuns.TaskStartsExactlyWhen | server/RustImpl/src/factory.rs:293-323 | asking without a task, and handing slots over without one, start one, nothing else does; a task that runs is left where it is |
| BusRuns.TaskGoesOnExactlyWhen | server/RustImpl/src/factory.rs:632-640 | a successful update is followed by another iff slots were queued for emptying, or it had something to store and somebody waits |
| BusRuns.HandedOverWaits | server/RustImpl/src/factory.rs:310-323 | a slot that was handed over stays allocated and is held by nobody until an update has ended well, failed updates included |
| BusRuns.TooLateHitsTheNext | server/RustImpl/src/factory.rs:616-631 | a run in which a transfer that comes too late leaves five items in a slot that the next part is given as empty |
| Messages.StepTells | server/RustImpl/src/factory.rs:293-308 | whatever happens on the bus, messages as the allocator sends them are true afterwards: whoever is told a slot is the one part that holds it, each newly held slot is told once, to the oldest waiters in order, and whoever is refused waits no more |
| Messages.EachIsToldInTurn | server/RustImpl/src/factory.rs:587-631 | over every run, the tickets that have been told something, in the order of the messages, followed by those that still wait, are those that have asked, in the order of asking; each is told once |
| BusJobs.ReleasedOnce | server/RustImpl/src/process/mod.rs:94-151 | along every run a part is done iff its slot was released, and then exactly once |
| BusJobs.JobFreesAll | server/RustImpl/src/process/slotted.rs:194-197 | freeing a job's emptied slots one after the other is possible, gives each back whoever gets them meanwhile, and touches no other part that is not waiting |
| BusJobs.JobHandsOver | server/RustImpl/src/process/slotted.rs:200-204 | handing a job's slots over is possible once none of their transfers is under way, and touches nothing else |
| JobRuns.CraftingReturns | server/RustImpl/src/process/crafting_grid.rs:146-158 | freeing all slots but the first one from the end, and handing that one over, returns every slot of the job |
| JobRuns.Refines | server/RustImpl/src/process/slotted.rs:138-207 | whatever a job does next, on success or failure, the bus allows: a freed slot is empty and at rest, a slot handed over is at rest, a cycle ends with no slot held; and jobs, tickets and queue stay in agreement |
| JobRuns.RunsRefine | server/RustImpl/src/process/fluid_slotted.rs:339-444 | every run of jobs, of plain, mixed, crafting and output kind, is a run of the bus |
| JobRuns.EndedJobsReleaseOnce | server/RustImpl/src/process/mod.rs:59-151 | when a job has ended, each slot it was granted was freed or handed over exactly once, and none of its transfers is under way |
| JobRuns.CycleReturnsEverySlot | server/RustImpl/src/factory.rs:512-542 | when the tasks of all jobs have ended, no slot is held, nobody waits, and every slot ever granted came back exactly once |
| Returns.DoneJobFrees | server/RustImpl/src/process/slotted.rs:194-197 | a plain or mixed job that goes well frees its slots at once: the first go to the oldest waiters, one each, the others become free; the queue for emptying and the task are as before |
| Returns.OtherJobLeaves | server/RustImpl/src/process/slotted.rs:200-204 | a job that fails, or extracts output, gives no waiter a slot: its slots are queued for the running task, or become free for a task started to look at them |
| Returns.CraftingJobReturns | server/RustImpl/src/process/crafting_grid.rs:146-158 | a crafting job that goes well frees all its slots but the first, from the end, and leaves the first, where the product is, to the task |
| Returns.DoneJobFreesBuses | server/RustImpl/src/process/fluid_slotted.rs:423-432 | so the fluid buses of a job that goes well go to the oldest waiters at once, and the rest become free |
| Returns.OtherJobLeavesBuses | server/RustImpl/src/process/fluid_slotted.rs:434-440 | and those of a job that fails, or drains a machine, are left to the fluid task |
| JobProgress.OneStraddles | server/RustImpl/src/factory.rs:293-308 | at most one job has got some of its slots and not all |
| JobProgress.NoCircularWait | server/RustImpl/src/process/slotted.rs:144-161 | if no job needs more slots than the bus has, then whenever somebody waits and no background task runs, some job holds a slot and waits for no item slot |
| JobProgress.OversizedJobNeverLoads | server/RustImpl/src/process/slotted.rs:144-161 | a job with more inputs than the bus has slots never has all of them loaded |
| Lines.LaterWaits | server/RustImpl/src/factory.rs:293-308 | in a queue where each job's tickets are neighbours, whoever has begun after a job that waits has got nothing yet |
| FactoryRuns.MoveRefines | server/RustImpl/src/process/fluid_slotted.rs:339-443 | whatever a job with items and fluids does next, both buses allow it, and jobs, tickets and both buses stay in agreement |
| FactoryRuns.FactoryRefines | server/RustImpl/src/process/fluid_slotted.rs:339-443 | every run of jobs on both buses is a run of the jobs on the item bus and a run of the fluid bus |
| FactoryRuns.EndedJobsHaveNoBus | server/RustImpl/src/process/fluid_slotted.rs:422-441 | in every run a job that has ended has no fluid bus and waits for none; when the cycle ends, nobody does |
| FluidTransfers.FluidsAreCarriedOut | server/RustImpl/src/process/fluid_slotted.rs:359-432 | in every run, when a job has ended well, each fluid it asked for has been drawn by exactly the extractions and sent on by exactly the transfers it set out with, and none of them has failed |
| FactoryProgress.FirstHasSlots | server/RustImpl/src/process/slotted.rs:144-161 | with the bus task at rest and no job too big, the first job that has not ended waits for no item slot |
| FactoryProgress.FirstHasBuses | server/RustImpl/src/process/fluid_slotted.rs:359-372 | with the fluid task at rest, nobody passed over and no job too big, the first job that has not ended waits for no fluid bus |
| FactoryProgress.JobCanMove | server/RustImpl/src/util.rs:14-49 | a job that waits on neither bus and has not ended can take a step of its own, or has a request that can be answered |
| FactoryProgress.NeverStuck | server/RustImpl/src/factory.rs:573-713 | in every run that has passed nobody over, with no job too big for either bus: as long as a job has not ended, the first one or a background task can go on without a failure |
| Futures.WorkIsDone | server/RustImpl/src/process/fluid_slotted.rs:373-443 | a job that waits on neither bus can come to its last step by its own steps, which leave all other jobs and both buses as they are |
| CycleEnds.CycleCanEnd | server/RustImpl/src/factory.rs:512-542 | from every state of such a run all jobs can come to their end, with nothing failing and nobody asking anew |
| FluidWaits.OldestServedExactlyWhen | server/RustImpl/src/factory.rs:370-400 | in every run, with the fluid task at rest: the oldest ticket can still be served iff some job that has a bus waits for no other; and iff there is none, it is never served and the cycle never ends unless somebody asks anew |
| FluidWaits.StuckForEver | server/RustImpl/src/process/fluid_slotted.rs:359-376 | once every job that has a fluid bus waits for another, the fluid bus stays as it is, whatever else happens but new requests |
| FluidWaits.NewRequestServes | server/RustImpl/src/factory.rs:370-377 | a new request beside a free bus gets the oldest ticket served by the reading that it starts, whatever is read |
| Deadlocks.TooFewBuses | server/RustImpl/src/process/fluid_slotted.rs:359-376 | a run with one fluid bus and a recipe of two fluids, after which nobody is ever served |
| Deadlocks.RecipeMeetsDrain | server/RustImpl/src/factory.rs:700-712 | a run with two fluid buses and a recipe of two fluids that asks while one of them is drained, after which nobody is ever served although a bus is free |
| Deadlocks.TooFewSlots | server/RustImpl/src/process/slotted.rs:144-161 | a run with one bus slot and a recipe of two items, after which no step of the job and none of the tasks is possible |
| Places.DrawAllSound | server/RustImpl/src/factory.rs:47-64 | reservations that the slots' offers cover keep every slot's bracket, and each stays in its slot until it is extracted |
| Places.DropAllSound | server/RustImpl/src/process/slotted.rs:137-191 | transfers that the machine's shadows take keep every slot's bracket, and each is expected in full until it arrives |
| Plant.PlantStep | server/RustImpl/src/process/slotted.rs:138-207 | every step of jobs, clients, chests and machines keeps everything in order, and a transfer tried with what is really there is one that the bus allows |
| Plant.PlantRefines | server/RustImpl/src/process/slotted.rs:138-207 | every run with real chests and machines is a run of the jobs, and so one of the bus |
| Plant.ExtractionsAreExact | server/RustImpl/src/storage/chest.rs:130-160 | in every run a due extraction finds all of its items in the slot they were reserved in, of the kind reserved, and the bus slot has room for them |
| Plant.DeliveriesAreExact | server/RustImpl/src/process/slotted.rs:171-187 | in every run a due transfer of a task without failures finds all its items in the bus slot, and room for all of them in the machine's slot, once it has been planned there |
| Plant.FreedSlotsAreReallyEmpty | server/RustImpl/src/process/slotted.rs:191-197 | in every run each slot that a job frees is physically empty |
| Plant.FinishedGroupLetsGo | server/RustImpl/src/process/crafting_grid.rs:143-147 | when the requests of a job have been answered, none of its tickets plans anything for its machine any more |
| Plant.GridIsNew | server/RustImpl/src/process/crafting_grid.rs:123-137 | a grid whose slots are empty and planned for nobody can be taken as new, in every run |
| Plant.RelistReads | server/RustImpl/src/storage/chest.rs:54-69 | a slot that is read anew offers what lies in it, all or nothing, and nothing is under way there |
| Conservation.ExtractionsOnlyMove | server/RustImpl/src/storage/chest.rs:130-160 | in every run an extraction takes out of its place just what it brings into the bus slot: all of the reservation, or what was moved until it failed; every other slot stays as it is |
| Conservation.DeliveriesOnlyMove | server/RustImpl/src/process/slotted.rs:171-187 | in every run a transfer takes out of the bus slot just what it brings into the machine: all that was planned, if nothing of its task has failed; every other slot stays as it is |
| Backing.ListedBooksAreCovered | server/RustImpl/src/storage/chest.rs:54-69 | books in which each listed slot of each chest has just its own provider are covered by what the slots offer, no slot standing for two items |
| Backing.ReadChests | server/RustImpl/src/factory.rs:548-555 | reading all chests into an empty table makes such books, so they are covered by what the slots offer |
| Backing.ReservationsAreOffered | server/RustImpl/src/factory.rs:47-64 | what a reservation hands out can be drawn from the slots, and what it leaves in the books is still covered |
| Backing.PlansAreAccepted | server/RustImpl/src/process/buffered.rs:139-187 | what a buffered process plans on its shadow is taken in full by the machine, transfer after transfer |
| Backing.SharesAreAccepted | server/RustImpl/src/process/slotted.rs:99-191 | an acceptable number of sets is taken in full by the machine, transfer after transfer |
| Backing.UnitsAreAccepted | server/RustImpl/src/process/scattering.rs:96-134 | what a scattering process spreads is taken in full by the machine |
| Backing.GridAccepts | server/RustImpl/src/process/crafting_grid.rs:122-127 | an empty grid, as the group of a crafting job finds it, takes the sets of the recipe in full |
| Backing.RecipeMayLaunch | server/RustImpl/src/process/slotted.rs:138-161 | with books covered by the chests and a plan that the machine takes, a job may start in the plant; afterwards books and machine are again such, for the next job of the cycle |
| Backing.GroupMayRun | server/RustImpl/src/process/crafting_grid.rs:115-141 | the group of a crafting job may be run on a grid that is seen to be empty |
| Backing.NextGroupMayRun | server/RustImpl/src/process/crafting_grid.rs:84-141 | when the group before has let go of the grid, the group of the next recipe started for it may be run |
| Backing.LoadsAreUses | server/RustImpl/src/process/buffered.rs:183-225 | what a task loads and unloads in the plant is the use of the bus that its process has worked out |
| Starts.JobMayStart | server/RustImpl/src/process/slotted.rs:138-161 | reservations made one after the other and planned transfers that the machine takes are a job that may start, with just the uses of the bus that its process asks for |
| Starts.BufferedMayStart | server/RustImpl/src/process/buffered.rs:125-187 | what StartBuffered takes on may start; the machine's slots will be as the process has noted, and the books as it leaves them |
| Starts.RefillMayStart | server/RustImpl/src/process/buffered.rs:107-123 | so may what StartRefill takes on |
| Starts.SlottedMayStart | server/RustImpl/src/process/slotted.rs:95-191 | so may what StartSlotted and StartMix take on |
| Starts.ScatteredMayStart | server/RustImpl/src/process/scattering.rs:96-134 | so may what StartScattered takes on; the machine's slots will be as the process has noted |
| Starts.CraftingMayStart | server/RustImpl/src/process/crafting_grid.rs:84-115 | so may what StartCrafting takes on, whatever is on the grid and however many recipes are started for it |
| Crafting.BuildGroup | server/RustImpl/src/process/crafting_grid.rs:122-137 | the loops build one group: for each input its loads in order, the tools, the product to the first slot, the tools back |
| Crafting.GroupRestoresGrid | server/RustImpl/src/process/crafting_grid.rs:122-137 | on an empty grid with n sets in the bus slots the group makes n sets, uses up the inputs, leaves the grid empty and the tools in place, and the product in the first slot |
| Crafting.GroupCanRun | server/RustImpl/src/process/crafting_grid.rs:125-141 | and the client can carry each such group out |
| FluidBus.HoldersKeepTheirBus | server/RustImpl/src/factory.rs:370-400 | in every run a holder keeps its fluid bus until it lets go of it; allocated buses are the disjoint union of held and queued ones |
| FluidBus.QuietUpdateServes | server/RustImpl/src/factory.rs:678-698 | an update with nothing to store away stops only if nobody waits or every bus is held |
| FluidBus.FluidTaskGoesOnExactlyWhen | server/RustImpl/src/factory.rs:700-713 | a successful update is followed by another iff buses were queued for emptying, whoever waits |
| FluidBus.HandedOverWaits | server/RustImpl/src/factory.rs:387-400 | so does a fluid bus |
| FluidBus.StoredServesExactlyWhen | server/RustImpl/src/factory.rs:700-712 | after storing, the background task stops without leaving a waiter beside a free bus iff the drained buses suffice or no other bus is free |
| FluidBus.WaitersAreServedUnlessForgotten | server/RustImpl/src/factory.rs:663-713 | in a run without such a step nobody waits beside a free bus while no task runs; after such a step somebody does |
| FluidBus.NextReleaseServes | server/RustImpl/src/factory.rs:377-400 | with at least one bus, a ticket that waits while no task runs waits beside a holder; if a bus is freed, it goes to the oldest ticket, and if one is handed back, the task starts; that either happens is not said |
| FluidBus.TicketMayBeForgotten | server/RustImpl/src/factory.rs:700-712 | a run of the fluid bus that ends with a waiter, a free bus and no background task |
| LuaValue.Reduce | server/RustImpl/src/lua_value.rs:242-274 | completing a value leaves open tables below one state that consumes bytes, so the unreachable branch is never taken |
| LuaValue.Feed1 | server/RustImpl/src/lua_value.rs:276-346 | one byte keeps that shape of the stack, so popping never finds an empty stack |
| LuaValue.ChunksDoNotMatter | server/RustImpl/src/lua_value.rs:276-346 | for arbitrary bytes, pieces and consumers: the same values, then the same error or the same stack, as for the whole |
| LuaValue.FeedExtends | server/RustImpl/src/lua_value.rs:247-251 | a delivered value is never taken back |
| LuaValue.FeedDoc | server/RustImpl/src/lua_value.rs:211-226 | wherever a value may stand, reading its encoding amounts to completing that value |
| LuaValue.RoundTrip | server/RustImpl/src/lua_value.rs:188-346 | values written one after the other, tables in any order, cut into any pieces, are delivered exactly, and the parser ends as it began |
| Wire.WrittenBytes | server/RustImpl/src/lua_value.rs:188-226 | nil is 0x21, true 0x2B, false 0x2D; a number begins with 0x23 and ends with 0x40, a string begins with 0x40 and ends with 0x40 0x7E, a table begins with 0x3D and ends with 0x21 |
| Wire.EscapedBytes | server/RustImpl/src/lua_value.rs:191-196 | inside a string 0x40 is written as 0x40 0x2E, and every other byte as itself |
| Wire.FirstByte | server/RustImpl/src/lua_value.rs:282-297 | what each first byte of a value means, and that every other byte is an error |
| Wire.BytesOfString | server/RustImpl/src/lua_value.rs:318-341 | what each byte means inside a string: 0x40 0x2E is 0x40, 0x40 0x7E its end, 0x40 before anything else an error |
| Wire.BooleanArrives | client/client.lua:15-17 | from the start state the byte that the client writes for a boolean delivers just that boolean |
| LuaValue.PrefixDelivers | server/RustImpl/src/lua_value.rs:276-346 | a partly arrived stream has delivered a prefix of the values and no error |
| LuaValue.EncodingIsUnambiguous | server/RustImpl/src/lua_value.rs:188-226 | equal encodings mean equal values |
| LuaValue.EveryValueHasAWalk | server/RustImpl/src/lua_value.rs:217-224 | every value, nested tables included, can be written |
| LuaValue.SerializeString | server/RustImpl/src/lua_value.rs:188-198 | the loop appends the escaped string |
| LuaValue.Serialize | server/RustImpl/src/lua_value.rs:211-226 | the recursion into one buffer appends the encoding |
| LuaValue.SerializeEntries | server/RustImpl/src/lua_value.rs:219-222 | the loop over a table appends its keys and values in order |
| LuaValue.Parser.constructor | server/RustImpl/src/lua_value.rs:240 | a new parser is in the start state |
| LuaValue.Parser.ReduceValue | server/RustImpl/src/lua_value.rs:242-274 | the loop over closing tables computes Reduce |
| LuaValue.Parser.ShiftNumber | server/RustImpl/src/lua_value.rs:298-317 | the inner loop over a number's text advances like feeding byte by byte |
| LuaValue.Parser.ShiftString | server/RustImpl/src/lua_value.rs:318-341 | the inner loop over a string, escapes included, advances like feeding byte by byte |
| LuaValue.Parser.Shift | server/RustImpl/src/lua_value.rs:276-346 | a call of shift refines feeding its bytes one by one, with the same delivered values and the same error |
| LuaClient.PiecesFollow | client/client.lua:34-125 | as long as the parser has no complaint, the client's closures, fed the same pieces, are in the same state and have delivered the same values, but for members that are nil |
| LuaClient.ClientReadsWhatWasWritten | client/client.lua:34-125 | whatever pieces the stream is cut into, the callback gets exactly the values written, without members that are nil, and the decoder ends as it began |
| LuaClient.GroupIsTakenApart | client/client.lua:186-188 | ipairs finds in a group, as Lua keeps it, the requests that the server put into it, in order |
| Server.GroupRoundTrip | client/client.lua:186-231 | the table of a group, of fewer members than a double can count, read back as a list gives the requests of the group in order |
| Server.GroupIsNumbered | server/RustImpl/src/server.rs:134-139 | the table of a group has its members under 1, 2, .. and nothing else |
| Server.Client.EnqueueRequestGroup | server/RustImpl/src/server.rs:94-104 | queues the group, keeps the counter exact, starts a writer iff none is active |
| Server.Client.NextGroup | server/RustImpl/src/server.rs:124-142 | a writer turn moves the oldest group to the response queue and encodes it, or stops on an empty queue |
| Server.Client.OnPacket | server/RustImpl/src/server.rs:152-172 | the first packet logs in under its string or is refused; every later one answers the oldest open request, or is refused if there is none |
| Server.Client.Drop | server/RustImpl/src/server.rs:62-70 | dropping a connection fails every queued and every open request |
| Server.Client.EstimateLoad | server/RustImpl/src/server.rs:114 | the load is the number of requests that dropping would fail |
| Server.Connections.DisconnectByServer | server/RustImpl/src/server.rs:75-87 | removes the connection and its name; the name table still lists exactly the live logged-in connections |
| Server.Connections.Login | server/RustImpl/src/server.rs:253-260 | a second login evicts the first connection, and the new one stays registered |
| Server.HandlePacket | server/RustImpl/src/server.rs:152-171 | a login puts the connection into the table of logins under the name of the packet |
| Link.RanInOrder | client/client.lua:186-232 | the client has run the requests of the server in the order in which they were sent |
| Link.Expected | server/RustImpl/src/server.rs:152-171 | there are never more packets than the login and the open requests, and the first is the login |
| Link.NameArrives | server/RustImpl/src/server.rs:161-168 | in every run the name under which the connection is logged in is the one the client was started with |
| Link.ServerReadsInv | server/RustImpl/src/server.rs:174-198 | reading any piece keeps the link's invariant and closes the connection only if told to |
| Link.RepliesArePaired | server/RustImpl/src/server.rs:124-171 | through encoder, cut streams, parser and the client's loop, the k-th completed request is the k-th submitted one and gets the reply computed for it |
| Link.CompletedOnce | server/RustImpl/src/server.rs:62-70 | every submitted request is completed at most once, and exactly once when the connection is gone; the counter matches the queue |
| Link.RestMeansAllAnswered | client/client.lua:233-257 | a live connection at rest with empty streams has answered everything |
| Link.ClientDecodes | client/client.lua:34-125 | in every run of the link the client's closures, fed the bytes that have arrived in any pieces, have delivered the groups that the link's decoder delivered |
| Server.Connections.Accept | server/RustImpl/src/server.rs:210-239 | a new connection is listed without a login, and touches no other |
| Placement.InsertIntoInventory | server/RustImpl/src/item.rs:70-100 | the loop in place does what tops up stacks of the item in order and puts the rest into the first empty slot |
| Placement.InsertIsGreedy | server/RustImpl/src/item.rs:70-100 | insertion is a sequence of greedy steps, accounts for every unit, and stops short only when nothing has room |
| Placement.InsertAmount | server/RustImpl/src/item.rs:70-100 | the amount inserted is the least of the amount asked for, a stack, and the room in stacks of the item, with a whole stack more if a slot is empty |
| Placement.ExchangePlan | server/RustImpl/src/item.rs:70-100 | any placement can be rearranged to agree with what insertion has done, with the same counts |
| Placement.GreedyIsComplete | server/RustImpl/src/process/buffered.rs:143-159 | inserting inputs of at most a stack each in turn succeeds iff some placement of all of them exists, and then is one |
| Placement.FewerSetsFit | server/RustImpl/src/process/buffered.rs:142-159 | if n sets can be placed, fewer can |
| Buffered.TryAll | server/RustImpl/src/process/buffered.rs:143-157 | one try over all inputs succeeds iff greedy insertion does, and only ever adds to the shadow |
| Buffered.PlanSets | server/RustImpl/src/process/buffered.rs:139-159 | the retry loop with rollback ends with the largest number of sets for which any placement exists |
| Buffered.PlansFitBelow | server/RustImpl/src/process/buffered.rs:160-164 | plans made on the shadow, carried out on what it dominates, fit there and stay below the shadow |
| Buffered.TraceExactlyWhen | server/RustImpl/src/process/buffered.rs:143-157 | a failed try leaves the inventory as it was iff nothing of the first input could be inserted |
| Buffered.RejectedRecipeLeavesTrace | server/RustImpl/src/process/buffered.rs:149-152 | a recipe of two items that does not fit into one empty slot leaves a trace, after which one of the items alone no longer fits although it did before |
| Buffered.TracesOnlyCostSets | server/RustImpl/src/process/buffered.rs:136-163 | sets that fit beside the traces fit without them |
| Buffered.Scan | server/RustImpl/src/process/buffered.rs:79-106 | the first pass jams slots, and counts what is there and what of it is no stock |
| Buffered.BufferedRun.constructor | server/RustImpl/src/process/buffered.rs:79-106 | a run starts with a shadow that dominates the visible listing |
| Buffered.BufferedRun.Refill | server/RustImpl/src/process/buffered.rs:107-123 | refilling a stock item inserts exactly what is missing, available, at most a stack and has room; it fits and avoids jammed slots |
| Buffered.BufferedRun.TakeRecipe | server/RustImpl/src/process/buffered.rs:127-163 | takes the largest number of sets that both quotas and the shadow allow; plans carry exactly the inputs, fit, avoid jammed slots; when no set is taken, the shadow changes iff one set was within the quotas and something of its first input could be inserted; a shadow without traces stays without them as long as sets are taken |
| Buffered.QuotasExactly | server/RustImpl/src/process/buffered.rs:128-137 | the quotas allow n sets of distinct items iff with them the machine holds no more of the recipe's items than the recipe allows, and gets no more than the process has left |
| Buffered.RecipeSizeCounts | server/RustImpl/src/process/buffered.rs:96-105 | what counts against the quota of the process is every visible stack that no stock filter names |
| Scattering.FindBest | server/RustImpl/src/process/scattering.rs:101-116 | finds a least filled eligible slot, or none iff no slot is eligible |
| Scattering.Scatter | server/RustImpl/src/process/scattering.rs:96-130 | water filling: exact accounting, receivers at most one above any eligible slot and within the limit; inserted is the minimum of the sets and the room; if it is less than the sets, every slot holds another item or has reached the limit |
| Scattering.SpreadOne | server/RustImpl/src/process/scattering.rs:117-129 | a unit put into a least filled slot keeps the level and uses up one unit of room |
| Slotted.SetsThatFit | server/RustImpl/src/process/slotted.rs:104-116 | the quotient is the exact bound of one slot: m sets fit iff m is at most it |
| Slotted.TightenInput | server/RustImpl/src/process/slotted.rs:103-121 | tightening while scanning leaves exactly the numbers of sets that fit all slots of an input |
| Slotted.AcceptableSets | server/RustImpl/src/process/slotted.rs:99-127 | m of the demanded sets are acceptable iff m is at most the result: right items, quota and stack respected, all other input slots empty |
| Slotted.Select | server/RustImpl/src/process/multi_inv_slotted.rs:153-189 | executes the first demand that is acceptable at all, with the most sets; under strict priority only the first demand |
| Slotted.LoadAllExact | server/RustImpl/src/process/multi_inv_slotted.rs:226-247 | the transfers of distinct slots each move their exact share and change nothing else |
| Slotted.ExecutionIsExact | server/RustImpl/src/process/slotted.rs:137-191 | executing an acceptable demand leaves the recipe's ratio in the used slots, within quota and stack, and other input slots empty |
| Slotted.AcceptableExactlyWhen | server/RustImpl/src/process/slotted.rs:99-127 | a number of sets is acceptable iff its execution leaves each used slot with what was there and its exact share, of one item, within quota and stack, and no other slot was filled |
| Slotted.SharesAreExact | server/RustImpl/src/process/slotted.rs:26-31 | the transfers out of an input's bus slot add up to the sets times the input's size |
| Reservations.ItemInfo.Provide | server/RustImpl/src/factory.rs:31-37 | adds a provider and keeps the count equal to the heap's sum; nothing for non-positive amounts |
| Reservations.AvailabilityExactly | server/RustImpl/src/factory.rs:39-45 | so much is available iff it and the extra backup are stored, and the backup too unless that may be used |
| Reservations.ItemInfo.Reserve | server/RustImpl/src/factory.rs:47-64 | within the count, the heap never runs empty; exactly the size is handed out, per provider accounted for, a lower priority only after higher ones are used up |
| Reservations.ReservationIsDetermined | server/RustImpl/src/storage/mod.rs:38-50 | with distinct priorities every provider gives a determined amount, however the heap is arranged |
| Catalog.ItemTable.RegisterStoredItem | server/RustImpl/src/factory.rs:232-242 | an item is entered once, with empty books and in both indices; known items are untouched |
| Catalog.ItemTable.SearchItem | server/RustImpl/src/factory.rs:244-287 | the indexed search is none iff no stored item satisfies the filter, else a matching item of which most is stored |
| Catalog.MatchesExactly | server/RustImpl/src/item.rs:110-118 | what each kind of filter compares |
| Catalog.ItemTable.AddBackup | server/RustImpl/src/factory.rs:566-570 | a configured backup goes to the item that is found for its filter, and to no other; nothing else in the books changes |
| Catalog.ItemTable.ReserveItem | server/RustImpl/src/factory.rs:346-349 | takes the size out of one item's books and nothing else; what it names was drawn from the providers in the books |
| Listing.Update | server/RustImpl/src/storage/chest.rs:54-69 | reading a chest puts into the books, for each listed stack, one provider with the slot it lies in, its size, and its size negated as priority, and nothing else |
| Listing.UpdateAll | server/RustImpl/src/factory.rs:548-555 | so does reading several chests, one after the other; each entry stands for one slot of one chest |
| Supply.AvailabilityBound | server/RustImpl/src/recipe.rs:176-180 | the smallest quotient, in any order of the map, is the exact bound |
| Supply.EnoughLeft | server/RustImpl/src/recipe.rs:157-170 | after the inputs before it, an input of available sets still finds what it takes |
| Recipe.Gather | server/RustImpl/src/recipe.rs:153-175 | looks up each input, sums needs per item with the first input's availability, bounds sets by stack sizes |
| Recipe.ResolveInputs | server/RustImpl/src/recipe.rs:152-187 | m sets are supplied iff m is at most the result, in terms of what is stored and which backups are to be left; none iff an input has no item or not one set is supplied; the priority is the availability bound |
| Recipe.SuppliedIsAffordable | server/RustImpl/src/recipe.rs:157-175 | sets are supplied iff each input is at most a stack and what all inputs of an item take leaves the extra backup named by the first of them, and the backup of the item unless that one may use it |
| Recipe.AlwaysEnough | server/RustImpl/src/recipe.rs:160-181 | up to that number, every later reservation finds enough and is at most one stack |
| Recipe.BackupsRemain | server/RustImpl/src/recipe.rs:163-167 | after all reservations the backups named by the first input of each item are still there |
| Recipe.ReserveAll | server/RustImpl/src/process/slotted.rs:142-147 | reserving input after input hands out exactly the sets times the size, each drawn from the books as the ones before left them, and leaves exact books |
| Chest.ChestStorage.DepositPriority | server/RustImpl/src/storage/chest.rs:74-98 | chooses the fullest stack with room, first among equals, else the last empty slot; none iff nothing takes the item |
| Chest.ChestStorage.Deposit | server/RustImpl/src/storage/chest.rs:100-110 | takes everything into an empty slot, else what is missing to a full stack, and always something |
| Chest.ChestStorage.FinishExtraction | server/RustImpl/src/storage/chest.rs:149-158 | takes the size off the shadow, which becomes empty when nothing is left |
| Chest.Choose | server/RustImpl/src/factory.rs:328-334 | the storage of the highest priority, the first one among equals, so that no other storage has a fuller stack with room; none iff no storage takes the item |
| Chest.DepositItem | server/RustImpl/src/factory.rs:325-344 | terminates; every planned move fits its slot; the whole stack is planned unless in the end all storages are full for it |
| Chest.MovesConserve | server/RustImpl/src/factory.rs:335-338 | planned moves raise the storages' count of the item by exactly what they move, and of no other |
| Chest.StepBracket | server/RustImpl/src/storage/chest.rs:100-160 | each step of reserving, extracting, acknowledging, depositing or arriving, failures included, keeps a slot's bracket |
| Chest.ShadowBracketsContent | server/RustImpl/src/storage/chest.rs:74-161 | in every run the shadow is at least content plus deposits under way, at least all that is promised or offered, at most a full stack, and of one kind |
| Chest.ShadowIsExactAtRest | server/RustImpl/src/storage/chest.rs:100-158 | as long as no transfer fails, the shadow is what lies in the slot and what is under way; of a slot with nothing under way it is just the content |
| Chest.TransfersAreSafe | server/RustImpl/src/storage/chest.rs:149-158 | in every run the unwrap on an acknowledged extraction succeeds, a promised extraction finds its items, a deposit under way has room |
| Storing.StoreListing | server/RustImpl/src/factory.rs:614-625 | the bus task's plan covers every unallocated listed stack unless storages are full, and no allocated slot |
| Fluid.FluidStorage.Update | server/RustImpl/src/factory.rs:754-784 | counts all tanks without another fluid and remembers the last of them; with anything counted there is such a tank |
| Fluid.EachTankCounts | server/RustImpl/src/factory.rs:766-780 | each tank without another fluid adds its content and its capacity to the counters, wherever it stands, and no other tank does |
| Fluid.PromisesAreServedExactlyWhen | server/RustImpl/src/factory.rs:83-111 | promised fluid can always be drawn iff no tank but the one drawn from holds the storage's fluid when it is read |
| Fluid.PromisedFluidMayBeOutOfReach | server/RustImpl/src/factory.rs:754-784 | a full tank followed by an empty one: half of the fluid is promised and none is found |
| Fluid.StepBracket | server/RustImpl/src/factory.rs:83-111 | each step on a fluid storage keeps lower counter plus promises within the tank drawn from, content plus deposits under way within the upper counter, and that within the capacity |
| Fluid.CountersBracketContent | server/RustImpl/src/factory.rs:402-471 | in every run that starts with the fluid in one tank the counters bracket the content, promised extractions find their fluid, no deposit overfills |
| Fluid.CounterIsExactAtRest | server/RustImpl/src/factory.rs:402-471 | as long as no transfer fails, the upper counter is what lies in the tanks and what is under way |
| Fluid.TanksToFluidMap | server/RustImpl/src/factory.rs:745-752 | for each fluid the first tank that holds it and the sum over all tanks, and no other fluid |
| Fluid.DrainCoversExactlyWhen | server/RustImpl/src/factory.rs:402-447 | the transfers that store a bus's fluid away are to move no more than their tank holds iff no later tank holds the same fluid |
| Fluid.DrainLeavesARest | server/RustImpl/src/factory.rs:745-752 | a bus with the same fluid in two tanks: the transfer is to move more than the first holds, and the second is left as it is |
| Fluid.DrainTakesFromFirst | server/RustImpl/src/factory.rs:745-752 | of each fluid the first tank with it loses what is transferred, and no other tank anything |
| Fluid.DrainedBusIsEmptyExactlyWhen | server/RustImpl/src/factory.rs:678-705 | a drained bus is empty when it is given to a waiter iff the drain covered each of its fluids and all of it found room; a bus without anything to drain is empty |
| Fluid.ReserveFluid | server/RustImpl/src/factory.rs:449-471 | within the total, the unwrap succeeds; exactly the quantity is taken, from storages of the fluid only, those with less first, all but the last used up |
| Fluid.FluidDeposit | server/RustImpl/src/factory.rs:402-447 | terminates; the fullest storages of the fluid first, all but the last filled up, none beyond capacity, no other storage; something is left only if all of them are full |
| FluidRecipe.SearchNFluid | server/RustImpl/src/factory.rs:351-360 | the total of the lower counters of a fluid's storages |
| FluidRecipe.FluidSets | server/RustImpl/src/process/fluid_slotted.rs:144-167 | m of the resolved sets are supplied with fluids iff m is at most the result: summed needs available, each input within a bus |
| FluidRecipe.FluidsSuppliedAreAffordable | server/RustImpl/src/process/fluid_slotted.rs:146-166 | the fluids of so many sets are supplied iff each input fits into a bus and what all inputs of a fluid take leaves the extra backup named by the first of them, and the backup of the fluid unless that one may use it |
| FluidRecipe.ReserveFluids | server/RustImpl/src/process/fluid_slotted.rs:358-361 | for supplied sets every fluid reservation finds enough and hands out exactly the sets times the size |
| FluidRecipe.TightenTanks | server/RustImpl/src/process/fluid_slotted.rs:271-290 | m sets are acceptable for the tanks iff m is at most the result: quotas respected, no fluid in a tank that the recipe does not put there |
| FluidRecipe.TanksExactly | server/RustImpl/src/process/fluid_slotted.rs:271-290 | tanks take so many sets iff with them no tank group has more of a fluid than the quota puts there, and every fluid in a tank is one that the recipe puts there |
| Jobs.BalancedSlotsComeBackEmpty | server/RustImpl/src/factory.rs:302-308 | whatever else happens on the bus before and after a balanced use asks for a slot, the slot is empty when it may be given back, if the places of its transfers have content and room |
| Jobs.StartSlotted | server/RustImpl/src/process/slotted.rs:95-191 | takes exactly the largest number of sets that storages and machine allow, none iff an input has no item or no set is sensible; each input's bus slot gets exactly what its transfers take out, at most a stack; exact books |
| Jobs.PlanBuffered | server/RustImpl/src/process/buffered.rs:125-163 | exactly the largest number of sets that storages, quotas and the shadow allow together, none iff an input has no item or no set is possible, with plans that fit |
| Jobs.StartBuffered | server/RustImpl/src/process/buffered.rs:125-187 | takes that number; each input's bus slot gets exactly what its plan takes out, at most a stack; exact books, unchanged when there is nothing to do |
| Jobs.PlanScattered | server/RustImpl/src/process/scattering.rs:96-130 | spreads exactly as many units as are supplied and have room, evenly |
| Jobs.StartScattered | server/RustImpl/src/process/scattering.rs:96-134 | the bus slot gets exactly the units that are dropped into the slots, at most a stack; exact books, unchanged when there is nothing to do |
| Jobs.StartCrafting | server/RustImpl/src/process/crafting_grid.rs:84-115 | takes exactly the most sets that are supplied and allowed; each input's bus slot gets exactly what goes to the grid, at most a stack; a recipe without inputs gets one slot |
| Jobs.StartRefill | server/RustImpl/src/process/buffered.rs:107-123 | refills exactly what is missing, available and has room; the bus slot gets exactly what the plan takes out; exact books |
| Jobs.RefillExactly | server/RustImpl/src/process/buffered.rs:107-118 | a refill takes k units iff so many are missing, may be spared, and have room: at most a stack, and without an empty slot at most what the stacks of the item still take |
| Jobs.ChooseMix | server/RustImpl/src/process/fluid_slotted.rs:144-290 | exactly the largest number of sets that item storages, fluid storages, machine slots and tanks allow together |
| Jobs.StartMix | server/RustImpl/src/process/fluid_slotted.rs:339-372 | takes that number; item uses are balanced, each fluid input gets exactly its quantity and fits a bus; exact books |

## Left out

- Sockets, timers, the user interface, logging, files, redstone, reactors, plastic mixer, flux network, manual processes: input and output, or thin wrappers.
- The timeout of a connection: a request may wait for ever in the model; nothing is claimed about when the timeout is armed.
- BusSystem.StepInv: a transfer that fails is one event with what it moved until then. One that a client carries out after its failure was reported is modelled on the bus, if it comes in time; what it does to the chest or machine at its other end is not.
- CycleEnds.CycleCanEnd: every cycle can end; that it does end under every schedule is not stated, as it depends on clients that answer and on how often stored stacks make the background task go round again.
- FluidWaits.OldestServedExactlyWhen: supposes that no job needs more item slots than there are, since a job stuck for that reason gives back no fluid bus either.
- Plant.PlantStep: the transfers by which the background task stores stacks away are two separate events, one on the bus and one in the chest; and a machine does nothing to the slots it is fed through but use up what lies in them.
- JobRuns.RunsRefine: what the fluid side of a mixed job answers is left open there, and is in `FactoryRuns`. There fluids are counted as extractions and transfers; the amounts in tanks are in `Fluid` only, joined neither to the jobs nor to the fluid bus.
- The kinds of items inside one bus slot: a slot's content is a number, since each use of a slot is for one item.
- Fluids inside a bus, beyond what one drain leaves there (`Fluid.DrainedBusIsEmptyExactlyWhen`).
- Crafting.GroupRestoresGrid: a group of which a request fails may leave things on the grid; `Plant` then runs no further group there until the machine has used them up.
- The C++ server: an older twin; its bus yields once more than the Rust one, so the theorem about wakeups is for the Rust server only.
- Storages other than chests (drawers, ME systems), and output extraction beyond its use of a bus slot.
- Sorting of demands by priority, and output conditions of recipes: floating point; the models take the demands in a given order.
- The text of numbers and lossy decoding of strings: numbers are opaque with a text that contains no at sign and is read back, strings are byte sequences.
- Reading a list from a table with holes (`table_to_vec`), and the parsing and writing of item records.
- The client list as linked records: the live connections are a map, so the pointer updates of disconnecting are not modelled.
- Machine integers: no overflow is modelled, for instance of the quota times the multiplier; sums are unbounded.
- Wrong-kind or oversized stacks put into chests by players: listed and deposited stacks are at most a full stack in `Chest`.
- The order of failed transfers within a group: a transfer fails alone or with others in any order.
