# Xinu for the BeagleBone Black: models and proofs

Models of the parts of Xinu whose correctness depends on state kept over many
calls, and proofs about every input, every run or every reachable state.

- **Process manager** (`KernelSpec`, `KernelInvariant`, `KernelProofs`, and
  `KernelSemaphores`, `KernelMessages`, `KernelSleep`, `KernelTies`,
  `KernelScheduling`, `KernelTurns`, `KernelZeroDelay`, `KernelCalls`). Scheduling,
  semaphores, messages, delays, the clock tick and process creation, suspension and
  killing form one transition system. A step is one critical section; a call that blocks has a
  second step when its process runs again. A run is any sequence of enabled steps.
  `QueueTable` is the table of doubly linked queues, and `Kernel.System` the
  process and semaphore tables with every call as a method on them, each proved
  to take the step that the transition system describes. `Execute` ties whole
  sequences of calls to runs.
- **Heap** (`HeapSpec`, `HeapMemory`). A free list as the set of addresses it
  covers, and the same calls on list nodes that lie in the memory they describe.
- **Local file system** (`LfsBlocks`, `LfsSpec`, `LfsHistory`, `LfsInvariant`,
  `Lfs`, `LfsCreation`). `LfsSpec` is the store that users see: named byte sequences
  and devices with a cursor. `LfsHistory` tells what each call must return from the
  calls and results before it, without a store. `Lfs.Volume` is the disk with
  directory, index and data blocks, free lists and the caches of every open file;
  ghost fields hold the logical contents. `Ownership` says that every block is on exactly one list.
- **Ports** (`PortSpec`, `PortInvariant`, `PortProofs`, `PortKills`, `PortNodes`,
  `PortTable`, `PortSemaphores`, `PortValues`). Calls that may block between their
  checks and their work, with resets and deletions in between; `PortTable.Table` runs them on the linked
  message nodes. `ptreset` and `ptdelete` are the three parts of a clearing, with
  the port kept or freed.
- **qsort, CRC-32, TFTP, DNS names** (`QSort`, `Crc32`, `Tftp`, `Dns`). In-place
  sorting over any comparison, the table-driven checksum against bit-serial
  division, a file transfer over a network that loses, repeats and reorders, and
  DNS names written and read back.

`Common` and `Lists` hold shared constants and sequence edits. `Common.Unfold` is a
predicate that is always true: definitions guarded by it, or compared with `true`,
stay folded in proofs about whole states until a lemma asserts it. It adds no
assumption.

`dafny verify dfyconfig.toml` checks everything. The numbers of tables (processes,
semaphores, ports, directory entries, devices) are the configured ones.

## Model

| member | source | states |
|---|---|---|
| HeapSpec.AllReturnedRestoresInit | system/freemem.c:53-67 | after any sequence of allowed getmem, getstk and free calls from initialisation, once nothing is held the free list is again exactly the one block of meminit, in whatever order blocks were taken and returned |
| HeapSpec.RunSound | system/getmem.c:22-47 | in every reachable state each heap address belongs to exactly one live block or to the free list, no address outside the heap to either, and the free list is ascending with gaps (maximal runs) |
| HeapSpec.LiveDisjoint | system/getstk.c:23-51 | in a sound state a live block lies inside the heap, overlaps no free block and no other live block |
| HeapSpec.AcceptsExactly | system/freemem.c:28-47 | looking only at the two list neighbours decides exactly whether the returned range is disjoint from every free block (both directions) |
| HeapSpec.ReleaseCovers | system/freemem.c:53-67 | after coalescing an address is free iff it was free or lies in the returned range |
| HeapSpec.ReleaseShape | system/freemem.c:53-67 | coalescing leaves maximal ascending runs, and the free total grows by exactly the returned length |
| HeapSpec.CanonicalUnique | system/freemem.c:53-67 | two lists of maximal ascending runs that cover the same addresses are the same list |
| HeapSpec.RunNodesFit | system/getmem.c:22-47 | in every reachable state every free block is 8-aligned and at least 8 bytes long, so that a list node always fits into it |
| HeapSpec.RoundMbFits | include/memory.h:9-9 | 32-bit rounding gives at least the requested size iff the size is at most 2^32-8; larger requests round to zero |
| HeapSpec.ReleaseInsideIff | system/freemem.c:19-25 | the list of free blocks stays inside the heap iff the accepted range ends inside it |
| HeapMemory.ReturnIff | system/freemem.c:43-67 | the stores of an accepted return, with 32-bit sums: memory then holds a proper free list of the heap, grown by exactly the range, iff the range ends inside the heap, or, where the length rounds to zero, iff a free block ends at the address; with a length of zero no proper list at all is left otherwise |
| HeapMemory.StartLoops | system/freemem.c:51-67 | a length that rounds to zero at the start of a free block passes the tests and leaves that node pointing to itself with length zero, with all nodes before it leading there |
| HeapMemory.StackBack | include/memory.h:16-19 | the arguments that freestk computes name the range that getstk took, pass the tests and restore the list |
| HeapMemory.StackRoundTrip | include/memory.h:16-19 | on the nodes in memory: getstk and then freestk is never refused and leaves the free list as it was |
| HeapMemory.Heap.constructor | system/meminit.c:23-28 | the list head points to one block spanning the heap |
| HeapMemory.Heap.Getmem | system/getmem.c:22-47 | on the linked nodes in memory: takes the low end of the first block that fits, SYSERR iff none fits or the size is zero; writes only to free memory and the list head |
| HeapMemory.Heap.Getstk | system/getstk.c:23-51 | takes the high end of the last block that fits and returns its topmost word; SYSERR iff none fits or the size is zero |
| HeapMemory.Heap.Freemem | system/freemem.c:19-69 | for every address and length: SYSERR exactly by the tests of the code, and then nothing is written; otherwise the memory holds a proper free list grown by exactly the range iff the range fits |
| HeapMemory.Execute | system/freemem.c:19-69 | any sequence of calls on the linked nodes is a run of the abstract allocator, so that the results above hold of the code |
| QSort.Sort | lib/qsort.c:13-23 | for every array and every total preorder: sorted, a permutation, and recursion depth at most 1 + log2 of the length |
| QSort.Qs1 | lib/qsort.c:29-110 | the range is sorted, only rearranged inside itself, and recursing into the smaller part bounds the depth logarithmically |
| QSort.Partition | lib/qsort.c:47-91 | three-way partition around the middle element: smaller, equal, greater; a rearrangement of the range |
| QSort.Exchange | lib/qsort.c:116-134 | the two elements change places and nothing else |
| QSort.Rotate | lib/qsort.c:140-162 | three-element rotation i <- k <- j <- i |
| Crc32.Compute | compile/uboot-tool/crc32.c:155-177 | the table-driven loop, eight bytes at a time, gives the checksum defined by feeding single bits through the polynomial, for every start value and every buffer |
| Crc32.MakePattern | compile/uboot-tool/crc32.c:61-63 | the exclusive-or pattern is the polynomial with the listed exponents |
| Crc32.PolyHex | compile/uboot-tool/crc32.c:61-63 | that pattern is EDB88320 |
| Crc32.ChecksumOf7F | compile/uboot-tool/crc32.c:155-177 | the checksum of the single byte 7F is 12B88320 |
| Crc32.MakeTable | compile/uboot-tool/crc32.c:51-73 | entry n is the remainder of the byte n shifted through the polynomial |
| Crc32.Do1 | compile/uboot-tool/crc32.c:149-149 | one table step is eight single-bit steps |
| Crc32.ChecksumConcat | compile/uboot-tool/crc32.c:155-177 | the parts of a message may be summed one after another |
| Queues.QueueTable.NewQueue | system/newqueue.c:9-30 | a new empty queue on the next pair of entries, SYSERR iff the table is full |
| Queues.QueueTable.Enqueue | system/queue.c:11-30 | appends to the named queue and changes no other; SYSERR for a bad queue or process |
| Queues.QueueTable.Dequeue | system/queue.c:36-52 | removes and returns the first process, EMPTY for an empty queue, SYSERR for a bad one |
| Queues.QueueTable.GetFirst | system/getitem.c:9-22 | removes and returns the first process, EMPTY for an empty queue |
| Queues.QueueTable.GetLast | system/getitem.c:28-41 | removes and returns the last process, EMPTY for an empty queue |
| Queues.QueueTable.GetItem | system/getitem.c:47-58 | unlinks one process from wherever it stands |
| Queues.QueueTable.Insert | system/insert.c:18-35 | stands behind every process with a key at least as large and before the others |
| Queues.QueueTable.InsertD | system/insertd.c:18-41 | stands where the deltas sum up to the delay; the next delta is reduced by the new one |
| Kernel.System.constructor | system/initialize.c:145-222 | the null process runs, every other slot, every semaphore and every queue is free or empty |
| Kernel.System.Resched | system/resched.c:11-49 | the transition of the specification: deferred, no switch, or the head of the ready list runs |
| Kernel.System.ReschedCntl | system/resched.c:55-80 | nested deferral; the outermost stop makes up for a missed switch; SYSERR for a stop without a start |
| Kernel.System.Ready | system/ready.c:11-29 | the process enters the ready list behind its equals and the scheduler is called; SYSERR for a bad process |
| Kernel.System.Wait | system/wait.c:17-38 | the step of the specification, keeping the invariant |
| Kernel.System.Signal | system/signal.c:16-30 | the step of the specification, keeping the invariant |
| Kernel.System.SignalN | system/signaln.c:17-36 | n signals with rescheduling deferred |
| Kernel.System.NewSem | system/semcreate.c:34-50 | finds a free semaphore iff there is one |
| Kernel.System.SemCreate | system/semcreate.c:11-28 | a semaphore with the given count; refused only for a negative count or when all are in use |
| Kernel.System.SemDelete | system/semdelete.c:16-35 | every waiter becomes ready, in order, and the semaphore is free |
| Kernel.System.SemReset | system/semreset.c:19-34 | every waiter becomes ready, in order, and the count is the new one |
| Kernel.System.NewPid | system/create.c:90-107 | finds a free process slot iff there is one |
| Kernel.System.Create | system/create.c:29-84 | a suspended process with the given priority; refused only for a bad priority, without stack memory or when all slots are in use |
| Kernel.System.Kill | system/kill.c:34-55 | in every process state: taken off the queue it is on, the semaphore count or the next delta corrected |
| Kernel.System.Unsleep | system/unsleep.c:22-46 | off the delta list, its delta inherited by the next sleeper; SYSERR iff it is not asleep |
| Kernel.System.Suspend | system/suspend.c:17-40 | the step of the specification, keeping the invariant |
| Kernel.System.Resume | system/resume.c:17-30 | the step of the specification, keeping the invariant |
| Kernel.System.Send | system/send.c:17-40 | refused iff the receiver is bad or still holds a message; a waiting receiver becomes ready |
| Kernel.System.Receive | system/receive.c:15-24 | the message, or blocks without one |
| Kernel.System.RecvTime | system/recvtime.c:17-43 | the message, or waits on the delta list |
| Kernel.System.RecvClr | system/recvclr.c:15-24 | the message, or OK without one |
| Kernel.System.SleepMs | system/sleep.c:26-53 | refused for negative delays, gives up the processor for zero, else sleeps |
| Kernel.System.Yield | system/yield.c:9-17 | the scheduler decides again |
| Kernel.System.WakeUp | system/wakeup.c:9-20 | every sleeper whose delta has run out becomes ready, with rescheduling deferred |
| Kernel.System.ClkHandler | system/clkhandler.c:40-57 | one tick: sleepers whose delay has run out become ready, then the time slice is counted down and its end calls the scheduler |
| Kernel.System.Execute | system/resched.c:11-49 | any sequence of calls made on the tables is a run of the transition system, so that all theorems about steps and runs below hold of the code |
| KernelProofs.NextKeeps | system/kill.c:34-55 | every call, the tick and every resumption of a blocked call keep the invariant |
| KernelProofs.ReachableInv | system/initialize.c:145-222 | in every state of every run from initialisation: each process is on exactly the queue its state calls for, once; semaphore counts match their waiters; the ready list is sorted; the running process is the most urgent; deltas are proper |
| KernelSemaphores.Conservation | system/signal.c:16-30 | over any run: passed waits = initial permits + signals - permits left, also when waiters are killed |
| KernelSemaphores.WaitOnlyWhenExhausted | system/wait.c:17-38 | passed waits never exceed permits plus signals, and somebody waits only when they are equal |
| KernelSemaphores.ServedInOrder | system/wait.c:17-38 | waiters leave a semaphore in the order in which they came, and only by signal or kill |
| KernelSemaphores.TradesPermits | system/signal.c:16-30 | each event trades a permit for a holder or back |
| KernelSemaphores.HoldersAndPermits | system/wait.c:17-38 | holders plus permits are at most one, and exactly one unless a holder was killed |
| KernelSemaphores.MutualExclusion | system/wait.c:17-38 | with count one, and only holders signalling, at most one process is between its wait and its signal after every prefix of every run, also when waiters are killed; and it is free whenever there is none |
| KernelMessages.ExactlyOnce | system/send.c:17-40 | over any run the accepted messages are the messages handed over, in order, followed by the one still held |
| KernelMessages.ReceiveHasMessage | system/receive.c:15-24 | receive returns iff there is a message, and returns that message |
| KernelMessages.TimeoutMeansNone | system/recvtime.c:17-43 | a timeout is reported iff no message is there |
| KernelMessages.WaitingHoldsNone | system/send.c:17-40 | a process that waits for a message holds none |
| KernelCalls.CreateGives | system/create.c:29-84 | the new process is suspended, on no queue, has the priority asked for and no message, and nobody else changes; refused iff the priority is below one or the slot is not free, and then nothing changes |
| KernelCalls.SuspendGives | system/suspend.c:17-40 | a ready process leaves the ready list, the rest keeping its order, and its priority is returned; one that suspends itself loses the processor; all others, and the null process, are refused |
| KernelCalls.ResumeGives | system/resume.c:17-30 | exactly a suspended process becomes ready, or runs at once, and its priority is returned |
| KernelCalls.KillGives | system/kill.c:34-55 | exactly a process in use other than the null process ends: its slot is free and it is on no queue |
| KernelCalls.SendGives | system/send.c:17-40 | refused iff the slot is free or holds a message; otherwise the message is held or handed on, and one who waited for it is ready or runs |
| KernelCalls.RecvClrGives | system/recvclr.c:15-24 | the message that was there, or OK; nothing else changes |
| KernelCalls.SemCreateGives | system/semcreate.c:11-28 | the semaphore has the count asked for and nobody waits on it; refused iff the count is negative or the entry is not free |
| KernelCalls.SemResetGives | system/semreset.c:19-34 | the count is the one asked for, nobody waits, and all who did are ready or run; refused iff the count is negative or the semaphore is not in use |
| KernelCalls.SemDeleteGives | system/semdelete.c:16-35 | the entry is free and all who waited are ready or run; refused iff the semaphore is not in use |
| KernelCalls.ExclusionFromCreate | system/semcreate.c:11-28 | mutual exclusion over every run that starts with the creation of the semaphore with count one |
| KernelTurns.SliceGoesOn | system/clkhandler.c:50-57 | a tick with more than one left of the slice, and no sleeper due, leaves processor and ready list as they are |
| KernelTurns.SliceEnds | system/clkhandler.c:50-57 | on the tick that ends a slice, outside deferrals and with no sleeper due, the ready process of the same priority that waited longest runs, the old one stands behind all of its priority, and a whole slice begins |
| KernelTurns.YieldPasses | system/yield.c:9-17 | the same for yield, and for sleepms of zero |
| KernelTurns.EqualsShare | system/clkhandler.c:40-57 | over any run of ticks without a sleeper due, the i-th process of the runner's priority runs after i slices of QUANTUM ticks, and after one slice each the order is as before |
| KernelSleep.SleepsForDelay | system/insertd.c:18-41 | a sleep gives the caller exactly its delay and changes no other deadline |
| KernelSleep.TakeDeltaLeft | system/unsleep.c:22-46 | an early removal changes no other deadline |
| KernelSleep.EventLeft | system/clkhandler.c:40-57 | only a tick shortens the time a sleeper has left, by one |
| KernelSleep.StillAsleep | system/clkhandler.c:40-57 | before its d-th tick an undisturbed sleeper is still asleep, with the rest left |
| KernelSleep.WakesOnTime | system/wakeup.c:9-20 | an undisturbed sleeper becomes ready on exactly its d-th tick |
| KernelTies.StandsBehind | system/insertd.c:18-41 | a new sleeper stands behind exactly those that wake no later |
| KernelTies.EventOrder | system/unsleep.c:22-46 | no event changes the order of two sleepers short of taking one off |
| KernelTies.TickOrder | system/wakeup.c:9-20 | two sleepers of equal priority due on one tick: afterwards the first runs, or both are ready and it comes first |
| KernelTies.TiesInArrivalOrder | system/wakeup.c:9-20 | over whole runs: of two undisturbed sleepers of equal priority and the same wake time, the one that went to sleep first gets the processor first |
| KernelScheduling.RunsHighest | system/resched.c:23-48 | without deferral no ready process has a higher priority than the running one |
| KernelScheduling.NullEligible | system/resched.c:23-48 | the null process runs or is ready, so that a switch never finds an empty ready list |
| KernelScheduling.EqualsTakeTurns | system/resched.c:23-48 | the running process goes behind all ready processes of its priority and the one that waited longest runs |
| KernelScheduling.NoSwitchWhileDeferred | system/resched.c:16-21 | inside a deferral no call changes who is running |
| KernelScheduling.NoSwitchDuringDeferral | system/resched.c:16-21 | over any run inside a deferral the process that began it keeps the processor |
| KernelScheduling.StopRestoresPriority | system/resched.c:55-80 | after the outermost stop the running process is again the most urgent |
| KernelScheduling.MayBlockIff | system/resched.c:16-46 | a call that has to wait, or ends or suspends the caller, leaves a state with the invariant iff the caller is not the null process and no deferral is active |
| KernelZeroDelay.RecvTimeIff | system/recvtime.c:17-43 | a timed receive that has to wait keeps the invariant iff its delay is at least one |
| KernelZeroDelay.ZeroDelayJams | system/recvtime.c:17-43 | after recvtime(0), in every run without a message to the caller or its kill, the caller stays at the head of the sleep queue, and no sleeper behind it is woken by the clock either |
| KernelZeroDelay.RescueHandsOn | system/unsleep.c:37-45 | a message for the stuck head hands its delta to the next sleeper, which is stuck in turn iff that leaves it nothing |
| LfsCreation.LfsCreate | device/lfs/lfscreate.c:29-80 | the sectors that the code writes, for every argument, also where the loop runs past the end |
| LfsCreation.CreatedIff | device/lfs/lfscreate.c:29-80 | a call that is not refused leaves a proper file system iff at least one i-block is asked for and the disk has three sectors |
| LfsCreation.NoIndexBlocks | device/lfs/lfscreate.c:29-78 | with no i-blocks, sector 1 is both i-block 0 and the first free data block |
| LfsCreation.TwoSectors | device/lfs/lfscreate.c:29-78 | with two sectors the data list starts behind the end and everything there is overwritten |
| Lfs.Volume.constructor | device/lfs/lfsinit.c:11-32 | a newly formatted disk is an empty store with all blocks free |
| Lfs.Volume.LfIbGet | device/lfs/lfibget.c:22-30 | the i-block out of its sector |
| Lfs.Volume.LfIbPut | device/lfs/lfibput.c:23-42 | one i-block of a sector is replaced |
| LfsBlocks.PutIbGet | device/lfs/lfibput.c:23-42 | reading back after a write gives the i-block written, and every other i-block as before |
| Lfs.Volume.LfIbClear | device/lfs/lfibclear.c:16-21 | no data pointers, no successor, the given offset |
| Lfs.Volume.LfIbAlloc | device/lfs/lfiballoc.c:17-32 | the first free i-block, and the directory is written; fails iff there is none |
| Lfs.Volume.LfDbAlloc | device/lfs/lfdballoc.c:21-39 | the first free data block, the buffer filled and the directory written; fails iff there is none |
| Lfs.Volume.LfDbFree | device/lfs/lfdbfree.c:18-24 | the block becomes the first free one and the directory is written |
| Lfs.Volume.LfFlush | device/lfs/lfflush.c:15-41 | directory, data block and i-block are on the disk, nothing else changes; SYSERR iff not open |
| Lfs.Volume.SetupIndex | device/lfs/lfsetup.c:45-72 | an i-block at or before the position is cached, allocated for an empty file |
| Lfs.Volume.SetupWalk | device/lfs/lfsetup.c:78-94 | the i-block that covers the position is cached, the chain extended by one if need be; fails iff that needs a block and none is free |
| Lfs.Volume.SetupData | device/lfs/lfsetup.c:100-119 | the data block of the position is cached, allocated at the end of the file |
| Lfs.Volume.LfSetup | device/lfs/lfsetup.c:26-121 | the byte pointer is set to the position; fails iff a block is needed and there is none |
| Lfs.Volume.LflPutc | device/lfs/lflputc.c:20-63 | on the store of byte sequences: the byte at the cursor is replaced or appended, the cursor advances; panics iff a block is needed and none is left |
| Lfs.Volume.LflGetc | device/lfs/lflgetc.c:20-51 | the byte at the cursor, 0 to 255, and the cursor advances; EOF at the end, SYSERR iff not open |
| Lfs.Volume.LflSeek | device/lfs/lflseek.c:18-40 | moves the cursor; SYSERR beyond the end |
| Lfs.Volume.LflClose | device/lfs/lflclose.c:17-37 | the device is free and the directory on disk is current; the file has an entry on disk iff it had one before or the directory was dirty |
| Lfs.Volume.LfTruncate | device/lfs/lftruncate.c:24-103 | the file is empty; each free list has got exactly the blocks of the file, and no other file changes |
| Lfs.Volume.LflControl | device/lfs/lflcontrol.c:20-46 | truncation, SYSERR for anything else |
| Lfs.Volume.FindDevice | device/lfs/lfsopen.c:48-78 | whether the file is open, and the first free device |
| Lfs.Volume.LfsOpen | device/lfs/lfsopen.c:27-184 | opens at position 0, creating the file if the mode allows; refused for a bad name or mode, an open file, no device, a full directory or the wrong existence |
| Lfs.Volume.Execute | device/lfs/lfsetup.c:26-121 | any sequence of calls on disk, caches, i-blocks and free lists gives the results that plain byte sequences with cursors give, and each of them is what the calls and results before it ask for |
| LfsInvariant.IndexOwner | device/lfs/lfiballoc.c:17-32 | between calls every i-block is free or in exactly one file, once |
| LfsInvariant.DataOwner | device/lfs/lfdballoc.c:21-39 | between calls every data block is free or in exactly one slot of one file |
| LfsInvariant.FreeCounts | device/lfs/lftruncate.c:24-103 | the free lists hold exactly the blocks that the file sizes leave over |
| LfsInvariant.SizeFits | include/lfilesys.h:96-102 | no file is longer than the data area, so that on disks below 4 Gbyte sizes fit 32 bits |
| Lfs.OpenThenClose | device/lfs/lfsopen.c:135-144 | a new file that is opened and closed without having been written is on the disk iff the directory was dirty when it was opened; with a clean directory the disk has no such file |
| LfsInvariant.Durable | device/lfs/lflclose.c:17-37 | the disk alone gives name, size and every byte of a closed file, whatever is done to other files, if it has an entry there; a file that is not empty has one |
| LfsInvariant.Remount | device/lfs/lfsopen.c:80-96 | after the last close, mounting again gives back exactly the files with an entry on disk; the others are empty |
| LfsHistory.ResultsFollow | device/lfs/lflgetc.c:20-51 | the exact result of every call in every run, told from the calls and results before it: a read returns the byte last put at its cursor, or EOF iff the cursor is at the size; a write fails iff it needs a block and none is left; calls on a device without a file, positions behind the end and the refused opens give SYSERR, all others do not |
| LfsSpec.Remembers | device/lfs/lflputc.c:20-63 | a byte of a file is the byte last put there, whatever else was opened, read, written or closed |
| PortProofs.ReachableOK | system/ptrecv.c:19-47 | in every run from initialisation: semaphore counts account for every slot and message, free plus queued nodes are constant, and no null pointer is followed |
| PortProofs.Fifo | system/ptsend.c:20-58 | what was taken is a prefix of what was put, the rest is queued, within the count |
| PortValues.ReceivedAsSent | system/ptrecv.c:28-47 | in every run from initialisation, since a port was created or last cleared: the values that its receives returned, in order, followed by the queue, are the arguments of the sends that succeeded on it, in order; for a sender that had to wait, the argument of its own call |
| PortValues.ClearingCompletes | system/ptclear.c:19-49 | a clearing that nobody disturbs: the queue is empty and its nodes free, every process that waited is released, and the port is usable with its stored maximum, or free |
| PortProofs.CountFits | system/ptcreate.c:18-45 | every run keeps the queue within the stored maximum iff the count is below 65536 |
| PortProofs.NoPanic | system/ptsend.c:36-38 | if the counts of all ports do not exceed the pool, the free list is never empty at a send |
| PortProofs.StaleNeverActs | system/ptclear.c:11-50 | a process that was inside a call when its port was reset or deleted never touches the port afterwards, even if it was created anew: the call fails and changes nothing but its own state |
| PortProofs.KillKeeps | system/kill.c:34-55 | killing a process inside a port call keeps the accounts iff it was not granted a slot or message |
| PortKills.GrantLost | system/kill.c:49-54 | from initialisation a run reaches a process that was granted a slot and has not run yet; killing it breaks the accounts, and with nobody in a call and an empty queue the next send still blocks |
| PortKills.ClearerKilled | system/ptclear.c:19-48 | if the process that resets or deletes a port is killed in between, the port stays in limbo in every run |
| PortTable.Table.PtKill | system/kill.c:45-50 | a waiter leaves its queue and its place counts again |
| PortTable.Table.Execute | system/ptsend.c:20-58 | any sequence of steps on the linked nodes is a run of the specification, so that the results above hold of the nodes |
| PortTable.Table.constructor | system/ptinit.c:13-45 | all ports free and all nodes on the free list |
| PortTable.Table.PtCreate | system/ptcreate.c:18-45 | refused only for a negative count or when all ports are in use |
| PortTable.Table.PtSend | system/ptsend.c:20-58 | on the linked nodes: takes a slot and appends the message, or blocks |
| PortTable.Table.PtSendOn | system/ptsend.c:29-58 | a released sender appends its message, or fails if the port has changed |
| PortTable.Table.PtRecv | system/ptrecv.c:19-47 | on the linked nodes: takes the first message, frees its node and returns the message, or blocks |
| PortTable.Table.PtRecvOn | system/ptrecv.c:28-47 | a released receiver takes and returns the first message, or fails if the port has changed |
| PortTable.Table.PtClear | system/ptclear.c:19-46 | disposes of every queued message in order, gives all nodes back and releases the senders |
| PortTable.Table.PtClearReceivers | system/ptclear.c:40-47 | releases the receivers |
| PortTable.Table.PtClearDone | system/ptclear.c:48-49 | the port is usable again or free |
| PortNodes.Pool.Put | system/ptsend.c:36-55 | moves the first free node to the end of the list of the port; fails iff no node is free |
| PortNodes.Pool.Take | system/ptrecv.c:35-44 | the first message; its node goes to the free list |
| PortNodes.Pool.Clear | system/ptclear.c:24-41 | every message once and in order; the whole list is spliced into the free list |
| PortSemaphores.SignalIsUp | system/signal.c:16-30 | the semaphores that the ports use behave as those of the kernel: signal |
| PortSemaphores.WaitIsDown | system/wait.c:17-38 | the same for wait |
| PortSemaphores.ResetEmpties | system/semreset.c:19-34 | the same for semreset |
| PortSemaphores.DeleteEmpties | system/semdelete.c:16-35 | the same for semdelete |
| PortSemaphores.CreateIsEmpty | system/semcreate.c:11-28 | the same for semcreate |
| PortSemaphores.KillLeaves | system/kill.c:34-55 | the same for kill of a waiter |
| Tftp.Send1 | net/tftp.c:16-91 | returns the next packet of literal bytes 0, 3, b/256, b%256; an error packet, a failure or the third timeout ends it; everything else is skipped |
| Tftp.HeaderBytes | net/tftp.c:83-85 | opcode and block number in network byte order are those literal bytes |
| Tftp.Store | net/tftp.c:243-259 | the bytes follow the stored ones through the buffers; full iff a byte is left over |
| Tftp.TftpGet | net/tftp.c:118-289 | whatever the network loses, repeats, delays or reorders, the bytes stored are a prefix of the file, and a return without error means the whole file or as much as the buffers hold; if every transmission succeeds, the outcome is exact for every network: all stored, SYSERR iff a failure, an error packet or a third timeout comes first, otherwise waiting for what is missing |
| Tftp.ReceiveAll | net/tftp.c:118-289 | for the packets 0, 3, b/256, b%256 with block b of the file, b = 1, 2, ..., the file is stored and its length returned |
| Tftp.ReceiveError | net/tftp.c:66-86 | after the first n blocks a packet that begins 0, 5 gives SYSERR, whatever follows |
| Dns.BuildQuestion | net/dns.c:85-149 | the length-prefixed labels of the name, an end mark, type and class; SYSERR iff the name has 500 characters or more |
| Dns.GetRName | net/dns.c:274-322 | for every name whose pointers come to an end, forward or backward: the dotted name, ended by a null byte, and the length in place |
| Dns.PlainName | net/dns.c:316-319 | labels and an end mark at any place are read as those labels |
| Dns.PointerName | net/dns.c:304-314 | labels and the two bytes 192 + o/256, o%256 are read as those labels followed by the labels at offset o, for every o below 2^14, and the pointer takes two bytes |
| Dns.ReadCompressed | net/dns.c:296-321 | the code reads such a compressed name as the two lists of labels with dots between, and moves on by the labels and the pointer |
| Dns.TerminatesIff | net/dns.c:296-314 | as long as no call reads behind the packet, the recursion ends iff no call starts where an earlier one did, and is then no deeper than the packet is long; otherwise every call makes another |
| Dns.RoundTrip | net/dns.c:274-322 | reading back a question that was built gives the name, for all names with labels of 1 to 63 characters, wherever it stands |
| Dns.QuestionFits | net/dns.c:85-149 | the question fits the data area iff the name has at most 494 characters |

## Findings

Where the code does not do what one would expect, the model keeps the code, and
states when it does.

- `recvtime(0)` puts a sleeper with delta zero at the head of the sleep queue. The
  next tick takes that delta below zero, so that it never equals zero again.
  `RecvTimeIff`: a delay of at least one is exactly what the invariant needs.
  `ZeroDelayJams`: in every run in which nobody sends to the caller or kills it, the
  clock wakes neither the caller nor any sleeper behind it. `RescueHandsOn`: when a
  message frees the caller, its delta, now the ticks that have passed, goes to the
  next sleeper, which is stuck in turn iff its own delta was no larger.
- A call that has to wait, or that ends or suspends its caller, works for every
  caller but the null process, and only outside deferrals (`KernelScheduling.MayBlockIff`, both directions).
- `freemem` checks only where a block starts, and its sums wrap. `ReturnIff`: an
  accepted return leaves a proper free list, grown by the range, iff the range ends
  inside the heap, or, if the length rounds to zero, iff a free block ends at the
  address. `StartLoops`: with such a length at the start of a free block the node
  points to itself.
- `getmem` and `getstk` of more than 2^32-8 bytes round the size to zero and
  "succeed" (`RoundMbFits`).
- `lfscreate` accepts no i-blocks, and two-sector disks. `NoIndexBlocks` and
  `TwoSectors` show what is written then, `CreatedIff` that these are all the cases
  that go wrong.
- `lfsopen` adds a new file to the directory in memory without marking it dirty. A
  file that is closed without having been written is on the disk iff the directory
  was dirty when the file was opened (`OpenThenClose`; `LflClose` for a single
  close); with a clean directory, as after mounting, it is lost.
- `ptcreate` takes a 32-bit count and stores a maximum of 16 bits, but gives the
  semaphore the full count. `CountFits`: the port stays within its stored maximum in
  every run iff the count is below 65536.
- Killing a process that was released from a port semaphore and has not run yet
  loses a slot or a message for good: `PortProofs.KillKeeps` in both directions, and
  `GrantLost` with the run that leads there. Killing the process that clears a port
  leaves the port in limbo for ever (`ClearerKilled`).
- Domain names of 495 to 499 characters are accepted but overflow the data area of
  the packet (`QuestionFits`); a name without labels makes the reader write before
  its buffer (`Dns.GetRName`, result `under`); pointers that lead back to where a
  call has started make it recurse without end (`TerminatesIff`).

## Left out

- HeapMemory.Heap.Freemem: memory is a map from node addresses to nodes, so that nodes do not overlap; where the sum of address and length is exactly 2^32 behind the last block, the code reads address 0, which the model takes as not adjacent.
- Kernel.System.Wait: requires a caller that may block, not the null process and outside deferrals; `MayBlockIff` says that this is exact.
- Kernel.System.Suspend: the same when a process suspends itself.
- Kernel.System.Receive: the same.
- Kernel.System.SleepMs: the same.
- Kernel.System.RecvTime: the same, and a delay other than zero for a caller that has to wait; `KernelZeroDelay` has the delay of zero.
- Kernel.System.Kill: starts at the switch on the process state; the message to the parent, the closing of devices and the release of the stack (system/kill.c:24-32) are not part of this model.
- Kernel.System.Create: the stack image is not modelled, only whether memory for it was found.
- Kernel.System.Ready: requires a process that is on no queue, as its callers ensure.
- Queues.QueueTable.Enqueue: requires a process that is on no queue, as every caller ensures; each process has one entry in the table.
- Queues.QueueTable.Insert: the same, and a key above the least one, which the sentinel of the tail has; priorities are at least 0.
- Queues.QueueTable.InsertD: requires a process that is on no queue.
- PortTable.Table.PtCreate: takes it that two semaphores are available; `ptcreate` does not look at what `semcreate` returned.
- PortTable.Table.PtSendOn: sequence numbers are unbounded, so that a process that sleeps through 2^31 resets of one port is not covered.
- PortTable.Table.PtClear: the disposal function is called with the messages returned in `disposed`; that it might call port functions itself is not modelled.
- Lfs.Volume.LfsOpen: modes are parsed (`lfgetmode`) and device names handled elsewhere; read and write permissions are not modelled.
- Dns.GetRName: requires a name that comes to its end inside the packet; `TerminatesIff` says when the recursion ends, and nothing is said about bytes behind the packet.
- Dns.RoundTrip: labels of 1 to 63 characters, as section 2.3.4 of RFC 1035 requires; longer ones are not readable as labels.
- Tftp.TftpGet: the server is honest, that is, every packet that begins 0, 3 and a block number carries that block of the file; block numbers do not wrap, so files of 65536 blocks or more are not covered.
- Crc32.MakeTable: the 256 constants of the static table (compile/uboot-tool/crc32.c:79-131) are not compared with the computed entries; the proof is about the table that the code computes.
- Counters of type int32 (semaphore counts, delays, the nesting of deferrals, sequence numbers) are unbounded integers.
- Context switches, interrupts, device drivers and all hardware access; a critical section is one step.
- `chprio`, `getprio`, buffer pools, the shell, the Ethernet, ARP, IP, UDP, ICMP and DHCP code, the remote disk and the remote file system, the name space, tty and the libraries other than qsort.
- The mutual exclusion semaphores of the file system: calls on one volume are atomic here.
- `lflread` and `lflwrite`, which repeat `lflgetc` and `lflputc`; copying structures byte by byte (`lfibget`, `lfibput`, `qsexc`, `qstexc`) and comparing names character by character.
- Disk errors: reads and writes of existing sectors succeed.
- `dns_geta`, the matching of replies to queries, and record types other than the question.
- Panic stops the system: nothing is said about the state behind it.
