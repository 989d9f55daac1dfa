# A verified model of DRAMSim2 and of McPAT's search, counting and layout logic

This project models two parts of the repository and proves properties of them in Dafny.

**DRAMSim2** (`marss-cpu/DRAMSim2`).  The model follows a transaction from its byte address to
the data that comes back:

* the seven address mapping schemes, as the shift / shift-back / xor code on 64-bit words, and
  their meaning as one mixed-radix decomposition (`MixedRadix`, `Word`, `AddressMapping`);
* the sparse bank storage, linked lists on the heap, and its meaning as a map (`RowStore`,
  `Bank`), and all banks together as one flat memory (`Storage`);
* the two copies of every bank's timing state, the controller's and the rank's, and the protocol
  between them (`BankTiming`, `TimingTable`, `Protocol`, `ActivationWindow`);
* the data path with its read returns, delayed writes and data bus (`DataPath`, `Floors`,
  `ReadReturns`, `WritePath`, `Coherence`, `DataBusSafety`), and concrete runs that fail
  (`Schedules`, `CommandBus`, `BusCollision`);
* the transaction queue, the command queues and the scheduler (`CommandQueues`, `OpenRows`,
  `Controller`, `QueueOrder`, `ClosedPages`, `OpenPages`, `RoundRobin`, `Scheduler`,
  `SchedulerInRun`, `ScheduledRuns`), the refresh register (`Refreshes`), the matching of returned
  reads (`PendingReads`), the way into the controller (`FrontDoor`), and the whole system driven
  cycle by cycle (`Simulator`);
* how long a bank can be busy, and the end of a run (`Deadlines`, `Serving`, `Progress`,
  `Completion`).

A run is a sequence of inputs: what arrives, which command is taken from the queues, which ranks
change their power state (`Controller.FullRun`).  The choice is free within the order that the
queues respect, so theorems about runs hold for every scheduling.  `ScheduledRuns.IsScheduled` picks
out the runs that the simulator can make: each choice is one that `CommandQueue::pop` may make on
the state reached (`Scheduler.Chooses`), which waits only if nothing can be sent, and each power move
one that the controller may make.  `Scheduler.CommandQueue.Pop` and `Simulator.Run` show that the code
makes such runs only.

The results meet in three theorems.  `ArrivalOrder.AnswersInArrivalOrder`: in every run, for every
row, the reads answered so far are the first answers of a memory that serves the transactions one
by one in the order of their arrival, although commands are reordered, delayed and taken from the
middle of queues.  `FlatMemory.SystemIsFlatMemory`: on byte addresses, under every mapping scheme,
that memory is the same flat memory of blocks that `Storage.Run` shows the banks alone to be.
`Completion.EverythingIsAnswered`: once transactions stop, the queues drain within a number of cycles
known in advance, which each refresh requested meanwhile extends by a constant, and every row's
answers are then those of the flat memory, complete.

The error exits of the simulator are settled, for all parameters with `Timing.Sane` (below) and
`tCMD` one.  No rank refuses a command or a power move and no command queue overflows in any run,
under both policies (`ArrivalOrder.NoCommandIsRefused`).  With closed pages this rests on the order
of the queues and not on the timing table alone (`TimingTable.TableIff`, `QueueOrder.ChoiceHeeds`).
No returned read lacks its pending transaction (`PendingReads.EveryReadIsMatched`).  The data bus is
free of collisions if and only if there is one rank or the burst is short enough
(`BusCollision.CollisionIff`).  The command bus needs `tCMD` to be one as soon as a second bank may be
opened right after an access: with two ranks, or with two banks of a rank whose `tRRD` is not longer
than the wait for the first access and one cycle more (`CommandBus.CommandBusIff`).  Both failures
are runs of two transactions in which every choice is the scheduler's.

Two requests can be lost sight of.  A refresh that is requested while another rank waits for one
takes its place (`Refreshes.RefreshesSentIff`), and a transaction that finds room overtakes those
that wait outside the controller (`FrontDoor.InOrderIff`); both results say exactly when.

**McPAT** (`mcpat`).  The design-space search of an array with its clean-up ledger
(`ArraySearch`), the arbiter count of the select logic (`Arbiter`), the positional layout of the
XML description and the instances built from it (`Layout`), the comma-list splitter with its
shared buffer (`ListParsing`), and the totals of a processor (`ChipTotals`).

Code that updates state step by step is modelled by classes and methods with loops (`Bank`,
`Storage`, `AddressMapping.Map`, `Scheduler.CommandQueue`, `Simulator.MemorySystem`,
`FrontDoor.Entrance`, `ArraySearch.ArrayST`, `Arbiter.SelectionLogic`, `Layout.Parse`,
`ListParsing.SplitList`, `ChipTotals.Processor`), each proved against a specification.  The channel is a state machine whose steps are functions, so that
theorems can quantify over all its runs.

Conventions.  Clock cycles are unbounded integers.  Unsigned 32-bit counters that can wrap are
written out where they do (`Countdowns.Dec`, `Layout.U32`,
`Controller.HasRoom`).  `Timing.Sane` collects what the delay macros need to be meaningful: `AL` is
at most `tRCD`, a burst has at least two beats, the write latency is at least one, and the activate
window is not empty; outside it the unsigned macros wrap around.

## Model

| member | source | states |
|---|---|---|
| `Word.XorOfShiftBack` | marss-cpu/DRAMSim2/AddressMapping.cpp:93-96 | On 64-bit words, x xor ((x >> w) << w) has the value x mod 2^w: the idiom of every branch extracts the low w bits |
| `Word.XorOfShiftBackUnsigned` | marss-cpu/DRAMSim2/AddressMapping.cpp:93-96 | Storing that value into a 32-bit unsigned loses nothing when w is at most 32 |
| `Word.ShiftRightValue` | marss-cpu/DRAMSim2/AddressMapping.cpp:58-79 | A right shift of a word divides its value by a power of two |
| `Word.AndOfMask` | marss-cpu/DRAMSim2/AddressMapping.cpp:51-54 | Masking with transactionSize - 1 is zero exactly when the low bits are |
| `Word.ToWordRoundTrip` | marss-cpu/DRAMSim2/AddressMapping.cpp:36-38 | The 64-bit words of the model and the numbers below 2^64 correspond one to one |
| `AddressMapping.TakeField` | marss-cpu/DRAMSim2/AddressMapping.cpp:93-96 | One shift, shift-back, xor step yields exactly the low bits and the remaining quotient |
| `AddressMapping.TakeFields` | marss-cpu/DRAMSim2/AddressMapping.cpp:92-116 | Five such steps are the mixed-radix digits of the address in the branch's field order |
| `AddressMapping.IsMisaligned` | marss-cpu/DRAMSim2/AddressMapping.cpp:51-54 | The warning fires exactly when a bit below the transaction size is set |
| `AddressMapping.MapIndex` | marss-cpu/DRAMSim2/AddressMapping.cpp:89-297 | Each of the seven branches computes the generic mixed-radix decoding of its field order |
| `AddressMapping.Map` | marss-cpu/DRAMSim2/AddressMapping.cpp:36-297 | The whole mapping: discard of low bits, warning and decoding |
| `AddressMapping.DecodeInRange` | marss-cpu/DRAMSim2/AddressMapping.cpp:89-297 | Every field is below two to its width |
| `AddressMapping.Aliasing` | marss-cpu/DRAMSim2/AddressMapping.cpp:58-297 | Two transactions share coordinates if and only if they are congruent modulo the capacity, for every scheme |
| `AddressMapping.EncodeDecode` | marss-cpu/DRAMSim2/AddressMapping.cpp:89-297 | Recombining decoded coordinates gives the transaction modulo the capacity |
| `AddressMapping.DecodeEncode` | marss-cpu/DRAMSim2/AddressMapping.cpp:89-297 | Every in-range coordinate tuple is decoded from its encoding, which is within the capacity |
| `AddressMapping.RecomposeMap` | marss-cpu/DRAMSim2/AddressMapping.cpp:39-297 | Recomposing an in-range address clears its low bits, and changes it exactly when the misalignment warning fires |
| `AddressMapping.UniqueAlignedAddress` | marss-cpu/DRAMSim2/AddressMapping.cpp:58-297 | Every in-range tuple comes from exactly one aligned in-range address |
| `AddressMapping.RemapIsPermutation` | marss-cpu/DRAMSim2/AddressMapping.cpp:89-297 | Decoding with one scheme and encoding with another permutes the in-range transactions, undone by the swapped pair |
| `AddressMapping.Scheme7FollowsScheme5` | marss-cpu/DRAMSim2/AddressMapping.cpp:206-297 | Scheme 7 is Scheme 5 on the transaction with its channel bits taken from the bottom |
| `AddressMapping.Scheme7IsScheme5` | marss-cpu/DRAMSim2/AddressMapping.cpp:206-297 | With one channel the two schemes agree everywhere |
| `AddressMapping.Interleaving` | marss-cpu/DRAMSim2/AddressMapping.cpp:89-297 | Any 2^W consecutive transactions visit each combination of the first k fields exactly once, W their total width |
| `AddressMapping.AlignedWindowLocality` | marss-cpu/DRAMSim2/AddressMapping.cpp:89-297 | In a window aligned to 2^W all later fields are constant |
| `RowStore.PutLookup` | marss-cpu/DRAMSim2/Bank.cpp:105-143 | A write changes what one row reads and nothing else, and keeps rows distinct |
| `RowStore.ReplayHistory` | marss-cpu/DRAMSim2/Bank.cpp:105-143 | Over every run a column holds exactly the rows ever written, latest introduced first, and reads each as its latest write |
| `RowStore.FirstWritesAreTheRows` | marss-cpu/DRAMSim2/Bank.cpp:116-142 | The rows listed are exactly the rows written |
| `Bank.Bank.constructor` | marss-cpu/DRAMSim2/Bank.cpp:42-46 | A new bank has an empty list in every column |
| `Bank.Bank.SearchForRow` | marss-cpu/DRAMSim2/Bank.cpp:66-80 | The pointer walk terminates and finds the row's node exactly when the row is in the list |
| `Bank.Bank.Read` | marss-cpu/DRAMSim2/Bank.cpp:82-102 | The packet becomes a data packet with the row's data or the tracer; the bank is unchanged |
| `Bank.Bank.Write` | marss-cpu/DRAMSim2/Bank.cpp:105-143 | Updates one (column, row) key, all others framed; the old node chain is a suffix of the new one; fails exactly on a column out of bounds |
| `Bank.Bank.InsertAtHead` | marss-cpu/DRAMSim2/Bank.cpp:118-131 | A new row becomes the head of its column; other chains are untouched |
| `Bank.Bank.Overwrite` | marss-cpu/DRAMSim2/Bank.cpp:132-142 | A present row's data is replaced in place |
| `Bank.ColumnsDisjoint` | marss-cpu/DRAMSim2/Bank.h:56-74 | A node occurs in one list only, and once: lists are acyclic and share nothing |
| `Storage.SameCell` | marss-cpu/DRAMSim2/AddressMapping.cpp:58-297 | Two transactions use the same cell of the same bank if and only if they are the same block |
| `Storage.ColumnInBounds` | marss-cpu/DRAMSim2/Bank.cpp:110-114 | Every mapped column passes the bounds check of Bank::write |
| `Storage.ViewAfterPut` | marss-cpu/DRAMSim2/Bank.cpp:105-143 | Through any scheme, a write changes its block's view and no other |
| `Storage.Storage.Read` | marss-cpu/DRAMSim2/Bank.cpp:82-102 | Returns the data of the latest write to the block, or the tracer |
| `Storage.Storage.Write` | marss-cpu/DRAMSim2/Bank.cpp:105-143 | Keeps the heap of banks in agreement with the whole history of accesses |
| `Storage.Run` | marss-cpu/DRAMSim2/Bank.cpp:82-143 | For every scheme and every run of accesses, the reads return what one flat memory of blocks returns |
| `BankTiming.IssuableIsAccepted` | marss-cpu/DRAMSim2/CommandQueue.cpp:625-690 | A command that the queue finds issuable is accepted by the rank's own checks one cycle later |
| `BankTiming.InStepTarget` | marss-cpu/DRAMSim2/MemoryController.cpp:301-472 | Issuing on the controller's side and receiving on the rank's keeps both copies of the bank in step |
| `BankTiming.InStepNeighbour` | marss-cpu/DRAMSim2/Rank.cpp:94-292 | The same for the other banks of the rank |
| `BankTiming.InStepTick` | marss-cpu/DRAMSim2/MemoryController.cpp:158-191 | The controller's countdowns keep the copies in step |
| `Protocol.DeliverSettles` | marss-cpu/DRAMSim2/MemoryController.cpp:194-203 | Delivering the packet on the bus never crashes and brings every rank in step |
| `Protocol.PopKeepsInv` | marss-cpu/DRAMSim2/MemoryController.cpp:284-490 | Issuing any permitted command keeps the invariant |
| `Protocol.PowerKeepsInv` | marss-cpu/DRAMSim2/MemoryController.cpp:575-616 | Power moves never fail and keep it too |
| `Protocol.PowerKeepsActive` | marss-cpu/DRAMSim2/MemoryController.cpp:575-616 | Power moves never touch a bank with an open row |
| `TimingTable.WritesAreHeld` | marss-cpu/DRAMSim2/MemoryController.cpp:363-414 | After a write with automatic precharge the timing table alone holds every access back until the bank counts as closed |
| `TimingTable.SomeReadSlips` | marss-cpu/DRAMSim2/MemoryController.cpp:311-358 | After a read it may not: a second read passes the table while the bank still counts as open |
| `TimingTable.TableIff` | marss-cpu/DRAMSim2/MemoryController.cpp:311-358 | The table alone holds all accesses back if and only if READ_TO_PRE_DELAY is at most one or READ_AUTOPRE_DELAY; otherwise the order of the queues is needed |
| `CommandBus.SomeCommandsMeet` | marss-cpu/DRAMSim2/MemoryController.cpp:481-489 | With tCMD other than one and a second bank that may be opened right after the first access, the scheduler has a run, without refreshes and power moves, in which two commands meet on the bus |
| `CommandBus.CommandBusIff` | marss-cpu/DRAMSim2/MemoryController.cpp:481-489 | With two ranks, or two banks and a tRRD of at most max(1, tRCD - AL) + 1, no run of the simulator has a command bus collision if and only if tCMD is one |
| `ActivationWindow.CountersAreRemaining` | marss-cpu/DRAMSim2/CommandQueue.cpp:171-184 | The counters are exactly the remaining times of the activates younger than tFAW |
| `ActivationWindow.GrantedIff` | marss-cpu/DRAMSim2/CommandQueue.cpp:632-636 | A ready activate goes out if and only if no four activates lie within the last tFAW cycles |
| `ActivationWindow.FourActivateWindow` | marss-cpu/DRAMSim2/CommandQueue.cpp:548-552 | Any five consecutive activates that the counters grant span at least tFAW cycles |
| `ReadReturns.RankUpdateOnTime` | marss-cpu/DRAMSim2/Rank.cpp:299-342 | A packet that takes the rank's line never displaces one still on it, and each returns on time |
| `WritePath.WriteCycle` | marss-cpu/DRAMSim2/MemoryController.cpp:205-260 | A cycle of the write path keeps every outstanding write on its schedule, in order |
| `WritePath.DrainSnoc` | marss-cpu/DRAMSim2/MemoryController.cpp:205-260 | Memory with the outstanding writes applied absorbs one more write as the reference memory does |
| `Coherence.ReadSeesGolden` | marss-cpu/DRAMSim2/Rank.cpp:96-153 | A read that fetches now finds what the reference memory held when it was issued, outstanding writes included |
| `Coherence.SystemCycleKeepsInv` | marss-cpu/DRAMSim2/MemorySystem.cpp:210-239 | One cycle of the memory system keeps the invariant of channel, reads and writes; the only error left is the data bus |
| `Coherence.ServedByNow` | marss-cpu/DRAMSim2/Rank.cpp:299-342 | In a state that keeps the invariant, each rank has returned exactly the reads that were due, with the right data and latency |
| `Coherence.HistoryIsTrace` | marss-cpu/DRAMSim2/MemoryController.cpp:284-293 | The reference memory is determined by the commands sent |
| `DataBusSafety.SafeCycle` | marss-cpu/DRAMSim2/MemoryController.cpp:205-260 | With a safe bus, one cycle keeps writes a burst apart and cannot fail |
| `BusCollision.SomeRunCollides` | marss-cpu/DRAMSim2/MemoryController.cpp:244-252 | With several ranks and a longer burst, the scheduler has a run of two transactions, without refreshes and power moves, whose writes collide on the data bus |
| `BusCollision.CollisionIff` | marss-cpu/DRAMSim2/MemoryController.cpp:244-252 | No run of the simulator fails if and only if there is one rank or the burst is at most one longer than the wait from activate to write |
| `CommandQueues.TakenInOrder` | marss-cpu/DRAMSim2/CommandQueue.cpp:415-460 | Taking a command in order removes, for each row, its first access or nothing |
| `CommandQueues.TakenPaired` | marss-cpu/DRAMSim2/CommandQueue.cpp:441-458 | Every ACTIVATE left in a queue still stands directly before its own column access |
| `CommandQueues.ActStandsAlone` | marss-cpu/DRAMSim2/CommandQueue.cpp:441-458 | The ACTIVATE removed with an access is never another transaction's |
| `OpenRows.CycleOpen` | marss-cpu/DRAMSim2/MemoryController.cpp:153-616 | With closed pages, an activated bank stays open through every cycle until its access is issued |
| `OpenRows.CycleAct` | marss-cpu/DRAMSim2/MemoryController.cpp:417-444 | An ACTIVATE opens a bank that was not open |
| `Controller.FirstWithRoom` | marss-cpu/DRAMSim2/MemoryController.cpp:492-508 | The transaction scheduled is the first whose queue has room |
| `Controller.RunIsSystemRun` | marss-cpu/DRAMSim2/MemoryController.cpp:284-490 | The controller's run is a run of the channel under the decisions it makes |
| `QueueOrder.TakesFirst` | marss-cpu/DRAMSim2/CommandQueue.cpp:266-297 | Under either policy and queueing structure, an access taken is the first of its row in the queue |
| `QueueOrder.TakesOpen` | marss-cpu/DRAMSim2/CommandQueue.cpp:266-297 | With closed pages, an access taken from a queue goes to a bank that was opened for it and not used since |
| `QueueOrder.ChoiceHeeds` | marss-cpu/DRAMSim2/CommandQueue.cpp:266-297 | So no command the queues hand out goes to a bank that is about to precharge by itself, whatever the timing parameters |
| `QueueOrder.TakenOrderly` | marss-cpu/DRAMSim2/CommandQueue.cpp:266-297 | With closed pages, an access without its ACTIVATE is always the first packet of its bank, whose row is open |
| `QueueOrder.PopKeepsQueues` | marss-cpu/DRAMSim2/CommandQueue.cpp:164-555 | A cycle that takes a command keeps the invariant of all queues |
| `QueueOrder.EnqueuesPair` | marss-cpu/DRAMSim2/CommandQueue.cpp:131-160 | After hasRoomFor(2), enqueueing an ACTIVATE and an access never reaches the overflow exit |
| `QueueOrder.PopBalanced` | marss-cpu/DRAMSim2/CommandQueue.cpp:164-555 | For every row, arrived accesses are those issued, then those queued, then those waiting, in this order: taking a command keeps this |
| `QueueOrder.ScheduleBalanced` | marss-cpu/DRAMSim2/MemoryController.cpp:492-570 | Splitting a transaction keeps it too |
| `ArrivalOrder.RunKeepsFull` | marss-cpu/DRAMSim2/MemoryController.cpp:153-570 | In every run no queue overflows and no row's accesses are lost, repeated or reordered |
| `ArrivalOrder.NoCommandIsRefused` | marss-cpu/DRAMSim2/Rank.cpp:82-292 | In every run, under both policies and for all parameters: no rank refuses a command or power move, no command meets another, no queue overflows |
| `ArrivalOrder.ReadsReturnLatestWrite` | marss-cpu/DRAMSim2/Rank.cpp:299-342 | In every run each rank has returned exactly the reads that were due, in issue order, 1 + RL + BL/2 cycles after issue, each with the latest data written before it |
| `ArrivalOrder.IssuedFirst` | marss-cpu/DRAMSim2/CommandQueue.cpp:164-555 | The accesses issued to a row are the first that arrived for it |
| `ArrivalOrder.AnswersPrefix` | marss-cpu/DRAMSim2/MemoryController.cpp:114-136 | A sequential memory never takes an answer back |
| `ArrivalOrder.AnswersInArrivalOrder` | marss-cpu/DRAMSim2/MemorySystem.cpp:197-239 | In every run and for every row, the data returned is a prefix of what a sequential memory answers in arrival order |
| `ArrivalOrder.NoControllerRunFails` | marss-cpu/DRAMSim2/MemoryController.cpp:153-570 | With a safe bus no run of controller and channel fails |
| `FlatMemory.SameCell` | marss-cpu/DRAMSim2/MemoryController.cpp:498-504 | On one channel, two transactions address the same cell if and only if they are in the same block |
| `FlatMemory.AnswersAreFlat` | marss-cpu/DRAMSim2/MemoryController.cpp:498-546 | The sequential memory's answers are those of the flat memory of blocks |
| `FlatMemory.SystemIsFlatMemory` | marss-cpu/DRAMSim2/MemorySystem.cpp:197-239 | The cycle-by-cycle system returns what the flat memory prescribes, for every scheme, policy, queueing and schedule |
| `PendingReads.Match` | marss-cpu/DRAMSim2/MemoryController.cpp:672-674 | The first pending transaction with the address, or none |
| `PendingReads.FrontIsPending` | marss-cpu/DRAMSim2/MemoryController.cpp:661-697 | Whatever a rank has returned and the controller not yet matched is pending |
| `PendingReads.HandleOk` | marss-cpu/DRAMSim2/MemoryController.cpp:661-699 | The match exists, is the same access, and leaves the rest balanced |
| `PendingReads.EveryReadIsMatched` | marss-cpu/DRAMSim2/MemoryController.cpp:692-696 | In every run the abort for a missing pending transaction is never reached |
| `FlatMemory.NoReadIsLost` | marss-cpu/DRAMSim2/MemoryController.cpp:692-696 | The same for transactions on byte addresses, under every mapping scheme |
| `RoundRobin.NextPlace` | marss-cpu/DRAMSim2/CommandQueue.cpp:721-756 | nextRankAndBank goes round all rank and bank pairs in a circle, under both policies |
| `RoundRobin.PlaceUnique` | marss-cpu/DRAMSim2/CommandQueue.cpp:721-756 | Each pair occurs once on the circle |
| `Scheduler.ScanClosed` | marss-cpu/DRAMSim2/CommandQueue.cpp:269-284 | Finds a packet that may be issued in order, if the queue has one |
| `Scheduler.ScanOpen` | marss-cpu/DRAMSim2/CommandQueue.cpp:415-460 | The same with open pages and the dependency check |
| `Scheduler.Depends` | marss-cpu/DRAMSim2/CommandQueue.cpp:421-433 | A dependency is found exactly when an earlier access goes to the same row |
| `Scheduler.LookAtFront` | marss-cpu/DRAMSim2/CommandQueue.cpp:286-297 | Looking at the front alone finds whatever could be issued |
| `Scheduler.FrontDecides` | marss-cpu/DRAMSim2/CommandQueue.cpp:288-296 | If the front of a bank's queue cannot be sent, nothing behind it can |
| `Scheduler.RanksInTurn` | marss-cpu/DRAMSim2/CommandQueue.cpp:254-325 | The round robin over ranks terminates and misses no rank |
| `Scheduler.LanesInTurn` | marss-cpu/DRAMSim2/CommandQueue.cpp:254-325 | The round robin over all banks terminates and misses no queue |
| `Scheduler.ForRefresh` | marss-cpu/DRAMSim2/CommandQueue.cpp:198-249 | A waiting rank is refreshed exactly when all its banks are ready; what is sent instead may be sent; nothing is sent only if nothing can be done about the bank that keeps the refresh waiting |
| `Scheduler.LastAccess` | marss-cpu/DRAMSim2/CommandQueue.cpp:338-373 | An access let through before a refresh is the first of its row, its ACTIVATE already issued |
| `Scheduler.RowsInTurn` | marss-cpu/DRAMSim2/CommandQueue.cpp:487-529 | Finds a row to close exactly if one is open, old enough, and unwanted or used up |
| `Scheduler.Choose` | marss-cpu/DRAMSim2/CommandQueue.cpp:194-531 | The choice passes all tests; it is empty only if nothing may be sent |
| `Scheduler.CommandQueue.Pop` | marss-cpu/DRAMSim2/CommandQueue.cpp:164-555 | The method refines the free choice of the controller: queues in order, bank tests passed, activate window kept, refresh first, the first packet in turn, no row closed that an access waits for, nothing only if nothing can be sent |
| `Scheduler.CommandQueue.HasRoomFor` | marss-cpu/DRAMSim2/CommandQueue.cpp:558-562 | Room for two commands, on unsigned numbers |
| `Scheduler.CommandQueue.Enqueue` | marss-cpu/DRAMSim2/CommandQueue.cpp:131-160 | Appends to the queue of the rank or bank, or takes the overflow exit |
| `Scheduler.CommandQueue.Rotate` | marss-cpu/DRAMSim2/CommandQueue.cpp:534-546 | With posted accesses the turn stays for one more command, otherwise it moves one place |
| `Scheduler.CommandQueue.NeedRefresh` | marss-cpu/DRAMSim2/CommandQueue.cpp:715-719 | Marks the rank that waits |
| `SchedulerInRun.SchedulerCanRun` | marss-cpu/DRAMSim2/CommandQueue.cpp:164-555 | In every reachable state the scheduler's preconditions hold |
| `SchedulerInRun.ChoiceIsAccepted` | marss-cpu/DRAMSim2/MemoryController.cpp:284-490 | What the scheduler chooses, the channel accepts |
| `SchedulerInRun.WaitingBounded` | marss-cpu/DRAMSim2/MemoryController.cpp:762-780 | The transaction queue never exceeds its depth |
| `OpenPages.LooseAwaits` | marss-cpu/DRAMSim2/CommandQueue.cpp:497-508 | An access whose ACTIVATE is gone is the next packet for its row |
| `OpenPages.KeptElsewhere` | marss-cpu/DRAMSim2/CommandQueue.cpp:338-381 | No command, in particular no PRECHARGE for a refresh, takes the row from an access that waits for it |
| `OpenPages.KeptTaken` | marss-cpu/DRAMSim2/CommandQueue.cpp:415-460 | Taking a packet, alone or with its ACTIVATE, leaves every other waiting access its open row |
| `OpenPages.CycleKeepsRows` | marss-cpu/DRAMSim2/CommandQueue.cpp:327-531 | With open pages, a cycle under the scheduler keeps open every row that was opened for an access still queued |
| `OpenPages.NeverStranded` | marss-cpu/DRAMSim2/CommandQueue.cpp:641-669 | Such an access lacks nothing but time: once its bank allows it, it can be issued and taken |
| `ScheduledRuns.WindowStep` | marss-cpu/DRAMSim2/CommandQueue.cpp:171-184 | The counters of the command queue follow the window model, which grants every activate that is sent |
| `ScheduledRuns.WindowSpread` | marss-cpu/DRAMSim2/CommandQueue.cpp:548-552 | So in every run of the simulator any five activates of a rank span at least tFAW cycles |
| `ScheduledRuns.MovesAllowed` | marss-cpu/DRAMSim2/MemoryController.cpp:577-616 | The power moves of the controller are always ones that may be made |
| `ScheduledRuns.ScheduledKeepsRows` | marss-cpu/DRAMSim2/CommandQueue.cpp:327-531 | In every run of the simulator with open pages, every row that an access waits for is open, and no row is hit more often than TOTAL_ROW_ACCESSES |
| `ClosedPages.RunMatched` | marss-cpu/DRAMSim2/CommandQueue.cpp:190-326 | In every run with closed pages, a bank that is open and not about to precharge is open for the row of an access that stands in its queue |
| `Refreshes.LastObeys` | marss-cpu/DRAMSim2/CommandQueue.cpp:242-247 | A REFRESH goes to the rank that waits for it |
| `Refreshes.EveryRequestCounted` | marss-cpu/DRAMSim2/CommandQueue.cpp:715-719 | Every refresh requested is sent, still waits, or has lost its place to a later request |
| `Refreshes.RefreshesSentIff` | marss-cpu/DRAMSim2/CommandQueue.cpp:715-719 | In a run of the simulator, the refreshes requested are those sent and the one that waits, in order, if and only if no request arrives while another rank waits |
| `FrontDoor.Entrance.AddTransaction` | marss-cpu/DRAMSim2/MemorySystem.cpp:179-195 | A transaction goes into the transaction queue if there is room, and waits outside otherwise |
| `FrontDoor.Entrance.Update` | marss-cpu/DRAMSim2/MemorySystem.cpp:221-228 | The first that waits outside comes in if there is room, before the controller takes one |
| `FrontDoor.NoneLost` | marss-cpu/DRAMSim2/MemorySystem.cpp:179-228 | Over every run, each transaction has been accepted or waits outside, once, and those outside stand in order |
| `FrontDoor.InOrderIff` | marss-cpu/DRAMSim2/MemorySystem.cpp:179-228 | Transactions are accepted in the order of the calls if and only if no call finds room while others wait outside |
| `FrontDoor.SomeoneOvertakes` | marss-cpu/DRAMSim2/MemorySystem.cpp:179-228 | With a queue of any depth, some run accepts a later transaction before an earlier one |
| `Deadlines.NeverLonger` | marss-cpu/DRAMSim2/MemoryController.cpp:296-480 | In every run, all times and countdowns of every bank, asleep or not, end within a constant number of cycles, Settle |
| `Deadlines.RankCycle` | marss-cpu/DRAMSim2/MemoryController.cpp:158-616 | While no command is issued and the rank does not fall asleep, these deadlines stand still |
| `Deadlines.PrechargesEnd` | marss-cpu/DRAMSim2/MemoryController.cpp:158-191 | In every run with a positive tRP, a bank that precharges has a running countdown |
| `Serving.OpenServes` | marss-cpu/DRAMSim2/CommandQueue.cpp:405-529 | With open pages, when a rank's times are past and its queue is not empty, a command can be sent or a row closed |
| `Serving.ClosedServes` | marss-cpu/DRAMSim2/CommandQueue.cpp:250-325 | With closed pages, a command can be sent |
| `Serving.RefreshGoes` | marss-cpu/DRAMSim2/CommandQueue.cpp:198-249 | A rank whose times are past does not keep its own refresh waiting |
| `Progress.WaitsForTime` | marss-cpu/DRAMSim2/CommandQueue.cpp:164-555 | In a run of the simulator, the scheduler waits with work to do only for a time that lies ahead |
| `Progress.WorkCycle` | marss-cpu/DRAMSim2/MemoryController.cpp:284-570 | A cycle without arrivals leaves no more work (waiting transactions, queued packets, open banks, a waiting refresh), and less if a command is sent or a transaction split |
| `Progress.EnoughIs` | marss-cpu/DRAMSim2/MemorySystem.cpp:210-239 | The bound of the next result is the work and twice the refreshes requested meanwhile, plus one, times Settle plus one |
| `Progress.EveryRunDrains` | marss-cpu/DRAMSim2/MemorySystem.cpp:210-239 | Once transactions stop, every run of the simulator goes on, unless two writes collide on an unsafe data bus, and after that many cycles all queues are empty |
| `Completion.AnsweredInFull` | marss-cpu/DRAMSim2/MemorySystem.cpp:210-239 | From then on, after one read latency every row has returned all answers of the sequential memory |
| `Completion.EverythingIsAnswered` | marss-cpu/DRAMSim2/MemorySystem.cpp:210-239 | So once transactions stop, every row's answers become those of the flat memory, complete, whatever refreshes are requested meanwhile |
| `Completion.DrainsIff` | marss-cpu/DRAMSim2/CommandQueue.cpp:558-669 | A run to which transactions have arrived drains in this way if and only if a queue has room for two commands and TOTAL_ROW_ACCESSES is positive |
| `Simulator.ScheduleTransaction` | marss-cpu/DRAMSim2/MemoryController.cpp:492-570 | The loop over the transaction queue splits the first transaction whose queue has room |
| `Simulator.MemorySystem.Accept` | marss-cpu/DRAMSim2/MemoryController.cpp:762-780 | As many transactions as the queue has room for, translated by the address mapping |
| `Simulator.MemorySystem.Update` | marss-cpu/DRAMSim2/MemorySystem.cpp:210-239 | One cycle of the whole system keeps all invariants, or ends in a data bus collision |
| `Simulator.Run` | marss-cpu/DRAMSim2/MemorySystem.cpp:197-239 | Every run over any arrivals, refreshes and power moves returns the data of the flat memory in order of acceptance, keeps the activate window, matches every read, strands no access and is a run of the simulator in the sense above; it fails only if the bus is unsafe |
| `Simulator.RunOut` | marss-cpu/DRAMSim2/TraceBasedSim.cpp:577-604 | The memory system that spins on without transactions empties its queues, and then answers every read as the flat memory does; it stops only if the bus is unsafe |
| `ArraySearch.ArrayST.Step` | mcpat/array.cc:132-163 | One pass: flags, candidate list, ledger and deviation after it |
| `ArraySearch.ArrayST.Search` | mcpat/array.cc:130-167 | The loop makes the least number of evaluations, at most eight, after which both flags are clear |
| `ArraySearch.ArrayST.Select` | mcpat/array.cc:198-223 | The first candidate of least energy is held; every candidate that was no improvement is released once |
| `ArraySearch.ArrayST.OptimizeArray` | mcpat/array.cc:83-223 | The whole outcome: evaluations, candidates, held solution, ledger without repetition, warnings |
| `ArraySearch.OutcomeUnique` | mcpat/array.cc:83-223 | The outcome is determined by the evaluator |
| `ArraySearch.HeldReleasedIff` | mcpat/array.cc:130-223 | The held solution was released if and only if no candidate's energy is below the bound and the loop stopped early or kept its last solution |
| `ArraySearch.GoodExits` | mcpat/array.cc:130-223 | With candidates of bounded energy, or none after eight steps, the held solution is the first of least energy, or the last, and alive |
| `ArraySearch.LeakedIff` | mcpat/array.cc:130-223 | Exactly which evaluations are neither held nor released |
| `ArraySearch.AtMostOneCandidate` | mcpat/array.cc:130-167 | For set-associative arrays the list holds at most one solution, the first meeting both limits |
| `ArraySearch.PlainFlags` | mcpat/array.cc:170-177 | For set-associative arrays a flag, and so its warning, stays up exactly when no evaluated configuration met that limit |
| `ArraySearch.SetAssociativeLedger` | mcpat/array.cc:130-223 | For set-associative arrays nothing leaks, and the held solution was released exactly when the limits were met by different configurations or its energy is not below the bound |
| `ArraySearch.ReleasedIff` | mcpat/array.cc:130-223 | In terms of the configurations alone: a released solution is handed out if and only if both limits were met before the eighth step by different configurations only, or the one meeting both has an energy not below the bound |
| `ArraySearch.SplitLimits` | mcpat/array.cc:150-163 | A concrete evaluator for which a released solution is handed out |
| `Arbiter.NestedCeiling` | mcpat/logic.cc:86-92 | Rounding up twice is rounding up once |
| `Arbiter.SelectionLogic.CountArbiters` | mcpat/logic.cc:86-92 | The loop takes d passes, d least with w <= 4^(d+1), and yields 1 plus the sum of w/4^k rounded up |
| `Arbiter.DepthIsLeast` | mcpat/logic.cc:86-92 | That depth is the least one |
| `Arbiter.CountBounds` | mcpat/logic.cc:86-92 | w <= 3A + 1 and 3A <= w + 3d + 2 |
| `Arbiter.CountMonotone` | mcpat/logic.cc:86-92 | A larger window never needs fewer arbiters |
| `Arbiter.CountExists` | mcpat/logic.cc:86-92 | Every window has exactly one count |
| `Arbiter.FullTree` | mcpat/logic.cc:86-92 | For w = 4^k the count is (4^k - 1) / 3 |
| `Layout.ReadCores` | mcpat/XML_Parse.cc:124-139 | Succeeds exactly if the first components, counted on 32 bits, are cores, and reads them in order |
| `Layout.ReadClass` | mcpat/XML_Parse.cc:599-620 | The same for a class of directories or caches after the components read so far |
| `Layout.ReadNoCs` | mcpat/XML_Parse.cc:1110-1125 | A component of another name is passed over without an error, and the rest of the class with it |
| `Layout.Parse` | mcpat/XML_Parse.cc:117-1417 | The whole parse accepts exactly the accepted descriptions and yields exactly their readings |
| `Layout.CountedPossible` | mcpat/XML_Parse.cc:127-130 | The counts of every configuration, zero and negative numbers included, have at least one core and stay below 2^32, as the next results assume |
| `Layout.AcceptsIff` | mcpat/XML_Parse.cc:124-1417 | A description is accepted with all networks read if and only if the components of every class stand in their places |
| `Layout.InOrderIff` | mcpat/XML_Parse.cc:1268-1373 | Every component is read once and in order if and only if no network is passed over and at least two components precede the controllers |
| `Layout.ControllersFollow` | mcpat/XML_Parse.cc:1268-1373 | Past position 0 the four controllers stand at the four positions after the networks |
| `Layout.TablesSuffice` | mcpat/XML_Parse.h:585-590 | The parser's tables of 64 entries suffice for a description if and only if no class that is read has more than 64 components |
| `Layout.InstanceAt` | mcpat/XML_Parse.cc:599-1373 | The i-th instance of a class is read from the number of earlier components plus i |
| `Layout.RefusesMeans` | mcpat/XML_Parse.cc:608-611 | A refused description is not acceptable in any way |
| `Layout.InstancesAreRead` | mcpat/processor.cc:63-103 | For every flag and number, each instance built was read, except networks passed over |
| `Layout.PrivateCachesAreRead` | mcpat/processor.cc:73-77 | With private second-level caches, the cache of every core was read |
| `ListParsing.JoinFields` | mcpat/XML_Parse.cc:168-187 | Cutting at commas loses nothing |
| `ListParsing.FieldsJoin` | mcpat/XML_Parse.cc:168-187 | Cutting a joined text gives its parts back |
| `ListParsing.ListRoundTrip` | mcpat/XML_Parse.cc:168-187 | Numbers written in decimal and joined by commas are read back |
| `ListParsing.Append` | mcpat/XML_Parse.cc:174-177 | Appending a character to the terminated buffer |
| `ListParsing.SplitList` | mcpat/XML_Parse.cc:168-187 | The fields' numbers are stored in order, the rest of the array is untouched, the buffer is empty again |
| `ListParsing.SplitLists` | mcpat/XML_Parse.cc:120-211 | Lists sharing the buffer do not disturb one another |
| `ChipTotals.AddClass` | mcpat/processor.cc:105-133 | A class's total, homogeneous or heterogeneous, and its contribution to the chip |
| `ChipTotals.AddL1Directories` | mcpat/processor.cc:195-222 | Heterogeneous first-level directories enter the chip total unscaled |
| `ChipTotals.AddNetworks` | mcpat/processor.cc:318-402 | Routers, buses and links, each laid out on the area so far, are added alike to class and chip |
| `ChipTotals.Processor.AddControllers` | mcpat/processor.cc:253-316 | The controllers' totals and their contribution to the chip |
| `ChipTotals.Processor.Build` | mcpat/processor.cc:48-402 | All class totals and the chip's, or the exit for unmatched private caches |
| `ChipTotals.AreaConserved` | mcpat/processor.cc:63-402 | The chip's area is the sum of all class areas |
| `ChipTotals.PowerConservedIff` | mcpat/processor.cc:195-402 | The chip's peak power is the sum of all classes if and only if the first-level directories are homogeneous or clock rates leave their total dynamic power unchanged |
| `ChipTotals.PowerNotConserved` | mcpat/processor.cc:216-220 | One heterogeneous directory with a clock rate other than one breaks it |
| `ChipTotals.SameClassTotals` | mcpat/README:130-142 | One representative with aggregated statistics and N listed instances have the same totals |
| `ChipTotals.SameChip` | mcpat/README:130-142 | Either description of cores, caches and second-level directories gives the same chip, networks included |
| `ChipTotals.SameL1Directories` | mcpat/processor.cc:216-220 | Exactly when the same holds of first-level directories |

## Left out

- The exits for an unknown mapping scheme, queueing structure or scheduling policy: the model has only the known ones.
- Overflow of the 64-bit clock, and the callbacks, statistics, energy accounting and printing of DRAMSim2.
- When a rank becomes due for a refresh: this is an input of a run, so the theorems hold for every timing of it.
- The NO_STORAGE build of DRAMSim2, which has no bank contents, and MultiChannelMemorySystem: one channel is modelled, and the transactions given to it are those of its channel.
- A row or next field of a bank's list node is constant in the model, because no code assigns it after construction.
- ArrivalOrder.NoCommandIsRefused: assumes tCMD is one, as do the other results about runs; `CommandBus.CommandBusIff` says where another value fails. A single bank, and one rank whose tRRD is longer than max(1, tRCD - AL) + 1, are not analysed for another tCMD: there the next command may come late enough not to meet the last.
- Progress.EveryRunDrains: assumes a positive tRP, because a bank that precharges with a tRP of zero has no countdown and only a refresh makes it idle again; while transactions keep arriving, no bound on the wait of a single one is stated.
- FrontDoor.InOrderIff: is about one memory system on its own; in `Simulator` the transactions offered in a cycle are accepted in their order, and those for which there is no room are reported back to the caller.
- Deallocation of packets and transactions in DRAMSim2.
- OpenPages.CycleKeepsRows: a bound of zero on row accesses (TOTAL_ROW_ACCESSES) is excluded, because then no access is ever issuable.
- ArraySearch.ArrayST.OptimizeArray: the evaluator is arbitrary, so the positivity assertions on its results, the weights given to it and the valid flag are not modelled; the scaling of the chosen area and power that follows is not either.
- The rest of McPAT's logic: empirical power and area formulas, CACTI, the network and core models, and reading of parameters by name.
- Layout.Parse: what happens to entries beyond the 64 of a table (see `Layout.TablesSuffice`) is undefined in the original and not modelled; components are assumed to have name and id attributes, and the parameters inside a component are not read.
- ListParsing.SplitList: numbers beyond the range of int are not truncated, and texts that overflow the fixed buffers are excluded by a precondition.
- ChipTotals: floating-point rounding; of the power vectors, the components of one operation are modelled, because read, write and search power are added up alike and the leakage variants like leakage.
- Runtime power of controllers and networks in the equality of homogeneous and heterogeneous descriptions is unchanged because those classes are the same in both.
