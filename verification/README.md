# Verified models of the course systems

Dafny models of six programs from the repository and proofs about them. `dafny verify
dfyconfig.toml` checks everything. Each part has its own modules:

- **WeensyOS memory manager** (`pset6`). `Machine` holds the state: page descriptors, 16 process
  descriptors, the registers and physical memory. Memory is 512 frames of 1024 words, so that one
  frame is read both as user data and as a page table. A word is its `PTE_ADDR` half and its
  `PTE_FLAGS` half. `Paging` is the hardware walk and `virtual_memory_map`; `KernelSpec` gives every
  kernel operation as a function of states, with `Panic` where the C code asserts or panics.
  `Kernel` is the kernel in its own form, arrays updated in place by loops, each method proved to
  compute `KernelSpec`'s function. `KernelInvariant`, `KernelFork`, `KernelMemory`, `KernelCounts`,
  `KernelAnchors`, `KernelSteps`, `KernelSharing` and `KernelBoot` prove what one operation keeps;
  `KernelRuns` proves the theorems about whole runs: a successful boot followed by any sequence of
  traps and user stores. `KernelTraps` states what each trap does to the machine in any reachable
  state, `KernelLoading` what a program finds when it starts, `KernelBooting` which programs boot, and
  `KernelIntegrity` that kernel memory stays as it was. `KernelStart` shows that booting does not fail
  for want of page tables, and `KernelWitness` leads runs to the states in which the less obvious
  behaviour shows.
- **Dispatcher and drivers** (`pset5/dispatch`). `Queue` is the circular queue with 32-bit unsigned
  indices. `Dispatch` is a step relation with one mutex, three condition variables and any number
  of drivers; a wait releases the mutex and sleeps in one step, a signal wakes at least one sleeper
  (`pthread_cond_wait`, `pthread_cond_signal` in POSIX.1-2017), and sleepers may wake spuriously.
  `DispatchInvariant` and `DispatchTheorems` prove safety and termination, `DispatchRuns` builds the
  runs in which the queue is read after it was freed, and is not freed at all.
- **Cached file input and output** (`pset3/io61.c`, `pset3/slow-io61.c`). In `Io61` the 12-slot
  reader and the unbuffered one refine one meaning of a file position; in `Io61Writer` the buffered
  writer, with the descriptor's position, is compared with the unbuffered one, and `CopyLoop` has the
  arithmetic of the copy loops. `Stride` and `Scatter` prove when the strided and the scattering
  programs linked with `slow-io61` are undone by their counterparts. The programs that the makefile
  builds by default are linked with `io61`: `StrideCached` and `StrideRestores` prove what is
  different there, and `StridePrograms` has their loops.
- **Ubler** (`pset5/ubler`): `Ubler` is a step relation of drivers with per-customer locks and the
  cyclic request cursors, besides the shuffle and `record_stats` as methods; `UblerInvariant` and
  `UblerTheorems` prove exactly-once service, `UblerLiveness` that exactly the fair schedules end,
  `UblerKinds` which side of a pair the drivers ask for, and `UblerFirst` what the cursors leave out.
- **Debugging allocator** (`pset1/m61.c`), in `M61`: a doubly linked list of metadata objects on a
  32-bit machine, with what the system's `malloc` returns as a parameter.

`Common` holds the types that several programs share.

Where code and comments disagree, the models follow the code:

- A process may ask for a page at any address below 4 MB. Over one of the kernel pages that
  `set_pagetable` looks up, the request stops the machine; `KernelRuns.PanicsExactly` names all
  requests that do.
- `sys_exit` decrements every shared page, so a failed fork gives back its pages but can leave
  reference counts too small; `KernelCounts.FailedForkCounts` gives them exactly, from the free pages
  and the parent's mappings before the call. `KernelWitness.ForkLosesCount` runs into such a state.
- `program_load_segment` copies a segment to the beginning of its first page instead of the address it is
  linked at; `KernelLoading.LinkedExactly` states when the program finds it where it belongs.
- `fork` with no free process slot returns -1 without storing it in `eax`, although the system call
  is to return -1 there; `KernelRuns.ForkFailureReported` states when the caller sees the failure,
  and `KernelWitness.SlotsRunOut` runs into a state where it does not.
- `io61_seek` to the end of the file does not move the cached reader, and can take the data of its
  current slot away (`Io61.Reader.Seek`, `Io61.SeekToEndDiffers`).
- `io61_read` and `io61_write` subtract a running total, so a turn of their loops can copy past the
  end of the request. `CopyLoop.ServedExactly` states for which requests none does; for the others the
  models of both stop with a failure at the turn that would.
- `io61_seek` of a file opened for writing moves the descriptor first and writes the bytes in the
  buffer afterwards, so these land at the new position and the next ones behind them
  (`Io61Writer.Writer.Seek`). `Io61Writer.SeeksDecide`: the file is the one `slow-io61` leaves, whatever
  is written next, exactly if the copy loop serves every write and every seek finds the buffer empty.
- With `slow-io61`, `ostridecat61` does not undo `stridecat61` when the file's end cuts a column that
  is not the last, nor when blocks overlap and the last one copied stops short; `Stride.RoundTrip`
  states exactly when it does. With `io61`, where each block is followed by a seek, it does only if the
  blocks fill whole buffers and the copy loops serve them: `StrideRestores.CachedRoundTrip` names the
  file sizes for which every file comes back. With blocks smaller than a buffer these are the empty
  files; no file comes back whose first byte is not zero (`StrideRestores.SmallBlocks`).
- A wrapped cursor of `receive_request` skips index 0, so a driver can return while the customer there is
  not even picked up (`UblerFirst.FirstIsSkipped`); another one serves it then. And the check that an Ubler
  driver makes without the lock asks for both sides of a pair to be picked up, which never happens
  (`UblerFirst.CheckSendsNobodyBack`).
- `m61_realloc` frees the old block also when there is no new one (`M61.Allocator.Realloc`).
- A driver of the dispatcher may look at the queue (`empty`) after another one freed it; the model
  leaves the freed, empty queue readable and counts the frees. That can happen exactly if there are two
  drivers or more and a request (`DispatchRuns.FreedQueueIsReadExactly`). The queue stays unfreed when
  the last ride is counted before the dispatcher sets `dispatch_done` (`DispatchTheorems.FreedExactly`),
  which for any requests and number of drivers some run comes to (`DispatchRuns.QueueCanLeak`).
- `offset` in `copy_pagetable` is the definition commented out beside it, the 1 MB below
  `PROC_START_ADDR`.

## Model

| member | source | states |
|---|---|---|
| KernelRuns.Isolation | pset6/kernel.c:182-302 | in every run after a successful boot in which no loaded process exits, a physical page that one live process can write from user code is mapped for user code by no other live process, the console aside; a page that a process maps over other kernel memory than set_pagetable looks up, such as its stack, is taken to leave the kernel working |
| KernelTraps.ExitGivesBack | pset6/kernel.c:222-237 | in any run, after an exit trap the process's slot is free, every page it owned is free with count 0, every other process page used more than once has lost one reference, all other descriptors, memory and the other processes' mappings and views are as before, and the first runnable process behind it runs, or none is runnable and the machine idles |
| KernelTraps.ProcessorPassesOn | pset6/kernel.c:366-429 | in any run, a timer interrupt or a yield runs the first runnable process behind the current one, which itself comes last, and changes nothing else but the registers saved |
| KernelTraps.FaultBreaks | pset6/kernel.c:383-411 | a page fault in user code marks the current process broken, changes nothing else but the registers saved, and the next runnable process runs, or none is and the machine idles |
| KernelTraps.GetPidAnswers | pset6/kernel.c:346-348 | getpid puts the process's own number in eax and changes nothing else |
| KernelTraps.PageAllocGives | pset6/kernel.c:354-364 | a page-allocation trap that does not stop the machine gives the process the lowest free page, mapped at the address asked for, with 0 in eax, and leaves every other mapping and all memory but its level-2 table as it was; without a free page it only puts -1 in eax |
| KernelTraps.StoreWrites | pset6/kernel.c:136-175 | a store that the process's own mapping permits changes one word of the page it sees there and of no other frame; any other store changes nothing |
| KernelIntegrity.KernelMemoryStays | pset6/kernel.c:83-113 | in any run, the reserved pages and those of the kernel's image and stack stay reserved or the kernel's and hold what they held at power-on, the console and the kernel's page tables aside; those go on mapping physical memory to itself, below PROC_START_ADDR for the kernel only but for the console |
| KernelIntegrity.ChildLowMemory | pset6/kernel.c:136-175 | fork's child has the mappings below PROC_START_ADDR of a new process, whatever its parent mapped there, and none behind process memory |
| KernelLoading.BootLoads | pset6/k-loader.c:45-99 | after a successful boot, for every program: it is runnable in user mode at its entry point with esp at the end of virtual memory and a writable page below; at every page of every segment it sees the words of the file from the start of the segment's first page on, zeros behind them up to the segment's end and then what RAM held at power-on, writable exactly if the segment is; nothing else of process memory is mapped |
| KernelLoading.SetupLoads | pset6/kernel.c:182-203 | so it is after one successful process_setup, and no page in use before changed its owner, count or contents, nor another process's descriptor |
| KernelLoading.LinkedExactly | pset6/k-loader.c:73-90 | the program finds a segment at the address it is linked at exactly if it begins with a page, or its part in the file repeats itself at that distance |
| KernelLoading.Misplaced | pset6/k-loader.c:77-89 | for one, a segment of one word that does not begin with a page, behind a different word, is not found there |
| KernelBooting.BootsExactly | pset6/kernel.c:83-113 | a machine boots its programs if and only if all their segments lie behind the kernel's image in physical memory and no two overlap |
| KernelBooting.SetupSucceeds | pset6/kernel.c:182-203 | with three pages free below PROC_START_ADDR, process_setup succeeds exactly if the segments lie in free pages and do not overlap, and takes no other page of process memory |
| KernelRuns.StoreInvisible | pset6/kernel.c:182-302 | in such runs a store by the running process changes nothing that another process sees at any user-readable page, the console aside |
| KernelRuns.ForkPreservesMeaning | pset6/kernel.c:254-302 | in such runs, after a fork trap that built a child, the child sees at every page of process memory the contents and W/U permissions the parent saw, the parent runs on, it and all other processes with all their mappings and the contents of all their user pages unchanged, and the registers saved at the trap agree except for eax: 0 in the child, the child's pid in the parent |
| KernelRuns.FailedForkRollsBack | pset6/kernel.c:222-282 | in any run, a fork trap that finds a slot but runs out of pages leaves every page's owner, the set of free pages, the contents of used pages, the live processes and all their mappings as they were, and puts -1 in eax |
| KernelRuns.FailedForkLosesCounts | pset6/kernel.c:227-233 | all it does not roll back: a process page used more than once loses one reference, unless it is read-only in the parent and lies before the page where the loop stopped; that page is a function of the state before the trap |
| KernelRuns.ForkBuildsExactly | pset6/kernel.c:240-294 | in any run, a fork trap builds a child if and only if a process slot is free, two pages below PROC_START_ADDR are free, and the free pages are at least two more than the parent's writable pages in process memory |
| KernelWitness.ForkLosesCount | pset6/kernel.c:222-282 | for every kernel that ends below process memory a state is reachable in which a fork fails and a page that two processes go on mapping is counted once afterwards |
| KernelMemory.StopPageIs | pset6/kernel.c:268-282 | with so many pages free, the copy loop stops at the first writable page of the parent before which that many writable pages lie, and nowhere exactly if there are no more of them |
| KernelMemory.TableFrames | pset6/kernel.c:136-150 | copy_pagetable takes two pages below PROC_START_ADDR, and fails exactly if two are not free |
| KernelCounts.FailedForkCounts | pset6/kernel.c:222-282 | the reference counts after a failed fork, page by page, from the state before it: fewer than two free pages below PROC_START_ADDR stop it before the loop, else the page that StopPageIs names does |
| KernelCounts.ForkCounts | pset6/kernel.c:266-294 | a successful fork adds one reference to each process page the parent maps read-only, none to any other, and takes two pages and one for each writable page of the parent |
| KernelCounts.ForkSucceedsExactly | pset6/kernel.c:240-294 | in states of the invariant, fork builds a child exactly under that condition |
| KernelCounts.LoopCounts | pset6/kernel.c:268-294 | the copy loop fails exactly if it stops at such a page, which the free pages and the parent's mappings determine, having taken a page for each writable page and counted one reference for each read-only page before it |
| KernelRuns.ForkFailureReported | pset6/kernel.c:240-252 | a fork trap never panics; when no child was built, eax is -1 exactly if there was a free process slot |
| KernelWitness.SlotsRunOut | pset6/kernel.c:240-252 | for every kernel that ends below process memory a state is reachable in which no slot is free, and fork leaves the caller's registers as they were |
| KernelRuns.CheckAlwaysHolds | pset6/kernel.c:482-541 | every assertion of virtual_memory_check holds in every reachable state, after any exits and failed forks |
| KernelRuns.CheckMeans | pset6/kernel.c:482-541 | what the check decides in any state, reachable or not: process 0 is free, every page table and the pages its entries name belong to its process with count 1, the kernel's with one more for each process that runs on it, and every page in use belongs to a process in use or to none |
| KernelRuns.RefcountBound | pset6/kernel.c:53-64 | in every reachable state a page is PO_FREE exactly when its refcount is 0, refcounts lie in 0..15, and a process page's count is at most the number of processes in use |
| KernelRuns.PanicsExactly | pset6/kernel.c:316-455 | after a successful boot a trap stops the machine if and only if it is a page allocation with a page free and an address that is unaligned, not below 4 MB, or in a kernel page that set_pagetable looks up, a page fault in the kernel, a panic or an unknown trap; a page mapped over other kernel memory, such as its stack, is taken to leave the kernel working |
| KernelRuns.AllocOverHandlerPanics | pset6/k-hardware.c:333-342 | for one, with a page free, allocating over the interrupt handler's code stops the machine |
| KernelRuns.DisplayAssertionHolds | pset6/kernel.c:578-589 | in every reachable state the assertion that memshow_virtual makes of each mapping of a live process holds |
| KernelAnchors.PagetableOkExactly | pset6/k-hardware.c:333-342 | the assertions of set_pagetable hold for a live process's table exactly if it maps the pages of default_int_handler, virtual_memory_map and the kernel's page table to themselves |
| KernelAnchors.KernelPagetableOk | pset6/kernel.c:320 | they hold for the kernel's own table |
| KernelSteps.ExceptionInv | pset6/kernel.c:316-411 | a trap keeps the invariant and these mappings of every live process, or stops the machine for exactly the requests named |
| KernelRuns.ReachedInv | pset6/kernel.c:83-113 | the kernel invariant holds in every reachable state, and every live process maps the pages set_pagetable looks up |
| KernelFork.ForkOutcome | pset6/kernel.c:240-302 | every fork ends in one of three ways: no slot and nothing changed, out of pages and rolled back, or a child built from its parent; KernelCounts.ForkSucceedsExactly says when which |
| KernelFork.CopyRangeBuilds | pset6/kernel.c:266-294 | the copy loop of fork keeps the invariant, never panics, and stops early only when no physical page is free |
| KernelFork.FailureRollsBack | pset6/kernel.c:222-237 | the exit of a half-built child gives back all its pages and leaves the owners of all others, the contents in use and every other process's view as before the fork |
| KernelSteps.ExitInv | pset6/kernel.c:222-237 | sys_exit of a live process keeps the invariant and every other process's view |
| KernelSteps.CheckHolds | pset6/kernel.c:482-541 | wherever the invariant holds, every assertion of virtual_memory_check does |
| KernelSteps.UserStoreInv | pset6/kernel.c:136-175 | a user store reaches no page table and keeps the invariant |
| KernelSteps.PageAllocInv | pset6/kernel.c:354-364 | the page-allocation call gives the caller a page nobody had, mapped where it asked, or fails without changing memory |
| KernelSteps.StepInv | pset6/kernel.c:316-418 | every trap and every user store keeps the invariant, or is a trap that stops the machine |
| KernelBoot.ProcessSetupInv | pset6/kernel.c:182-203 | a successful process_setup adds one loaded, runnable process and keeps the invariant, the sharing discipline and the mappings set_pagetable looks up |
| KernelBoot.LoadSegmentBuilds | pset6/k-loader.c:73-99 | loading a segment, writable or downgraded to read-only, keeps all page tables valid and the sharing discipline, and changes no process descriptor |
| KernelBoot.InitialInv | pset6/kernel.c:460-475 | the state after pageinfo_init satisfies the invariant, whatever RAM holds |
| KernelStart.SetUpFrames | pset6/kernel.c:103-109 | setting up up to 15 programs one after the other, none fails for want of page tables: it succeeds or an assertion fails |
| KernelSharing.ForkShares | pset6/kernel.c:266-294 | a successful fork keeps the sharing discipline: a page some process can write is mapped for user code by it alone, and a page mapped read-only is an identity mapping of a loaded process's page |
| Paging.MapThenLookup | pset6/k-hardware.c:274-326 | after a successful virtual_memory_map of a range, looking up va+X gives pa+X with the flags masked by the level-1 entry, and lookups outside the range are unchanged, when the level-2 tables are distinct |
| Paging.MapPagesSucceeds | pset6/k-hardware.c:287-305 | the map loop succeeds exactly when every page's level-1 entry admits the permissions |
| KernelCode.Kernel.VirtualMemoryMap | pset6/k-hardware.c:274-306 | the loop over level-2 entries changes memory as MapRange says, and reports failure exactly when an assertion fails |
| KernelCode.Kernel.VirtualMemoryLookup | pset6/k-hardware.c:313-325 | the lookup answers what the two-level walk owes |
| KernelCode.Kernel.FindFreePage | pset6/kernel.c:117-123 | the address of the first free page, or -1 |
| KernelCode.Kernel.FindFreePageTable | pset6/kernel.c:127-133 | the address of the first free page below PROC_START_ADDR, or -1 |
| KernelCode.Kernel.NewPagetable | pset6/kernel.c:136-173 | copy_pagetable's new tables: memory below PROC_START_ADDR for the kernel only, the console open, the rest empty |
| KernelCode.LowMappings | pset6/kernel.c:165-171 | the two virtual_memory_map calls of copy_pagetable and kernel() close low memory to user code, open the console and keep the rest |
| KernelCode.Kernel.VirtualMemoryInit | pset6/k-hardware.c:240-246 | the kernel's page table maps all of physical memory to itself |
| KernelCode.Kernel.CloseLowMemory | pset6/kernel.c:96-101 | kernel()'s two mappings close low memory to user code and open the console in that table |
| KernelCode.Kernel.InitMachine | pset6/kernel.c:83-101 | from power-on to the state in which the first program is set up, whatever memory held |
| KernelCode.Kernel.Boot | pset6/kernel.c:83-113 | the machine runs process 1 in the state in which the histories of these programs begin, exactly if the segments lie behind the kernel's image and do not overlap; otherwise it stops and there are none |
| KernelCode.Kernel.PhysicalPageAlloc | pset6/kernel.c:209-219 | takes the page for its owner exactly when it is aligned, exists and is unreferenced |
| KernelCode.Kernel.SysExit | pset6/kernel.c:222-237 | the loop over pages frees the process's pages and decrements every shared one |
| KernelCode.Kernel.CopyMemory | pset6/kernel.c:266-294 | fork's loop computes the state of CopyRange |
| KernelCode.Kernel.Fork | pset6/kernel.c:240-302 | fork computes the state and result of the specification, which ForkOutcome describes |
| KernelCode.Kernel.SysPageAlloc | pset6/kernel.c:354-364 | the page-allocation call computes the state of the specification |
| KernelCode.Kernel.CheckPagetable | pset6/k-hardware.c:333-342 | the lookups of set_pagetable answer whether its assertions hold |
| KernelCode.Kernel.RunProcess | pset6/kernel.c:438-442 | run makes the process current exactly if these assertions hold |
| KernelCode.Kernel.Schedule | pset6/kernel.c:420-429 | the loop ends in the state of the specification, which KernelTraps.ProcessorPassesOn describes, or finds no process to run |
| KernelSteps.ScheduleOrder | pset6/kernel.c:420-429 | the scan from a process on picks the first runnable one in turn, and finds none only if none of the next k is runnable |
| KernelCode.Kernel.VirtualMemoryCheck | pset6/kernel.c:482-541 | the loops answer whether all assertions hold |
| KernelCode.Kernel.Exception | pset6/kernel.c:316-411 | exception computes the state of the specification; KernelTraps describes it for each trap but fork, KernelRuns for fork |
| KernelCode.Kernel.ProgramLoadSegment | pset6/k-loader.c:73-99 | allocates and maps the segment, fills it and gives up write access if it is read-only; KernelLoading.SetupLoads states what the process then sees |
| KernelCode.Kernel.CopyWords | pset6/k-loader.c:89-90 | the copy loop of memcpy and memset: the words lie one behind the other from the address on, and the rest of memory is as it was |
| KernelCode.Kernel.SetUpProcess | pset6/kernel.c:182-203 | process_setup computes the state of the specification |
| KernelCode.Kernel.PageinfoInit | pset6/kernel.c:460-475 | every page gets owner and refcount by its address |
| CircularQueue.DistanceIs | pset5/dispatch/queue.c:29-33 | the 32-bit unsigned difference modulo 16 is the number of elements, also when the tail has wrapped |
| CircularQueue.Queue.PushBack | pset5/dispatch/queue.c:15-19 | appends to the contents |
| CircularQueue.Queue.PopFront | pset5/dispatch/queue.c:21-27 | removes and returns the oldest element |
| CircularQueue.Drive | pset5/dispatch/queue.c:11-37 | the queue driven through any sequence of operations answers like a bounded FIFO: what was popped followed by what is queued is what was queued first and pushed since, in order |
| DispatchTheorems.Conservation | pset5/dispatch/dispatch.c:107-156 | in every reachable state total_rides = rides_done + queued + held by drivers + (1 between increment and push); requests are popped in dispatch order, none is driven more often than popped, and exit_drivers implies an empty queue and no ride in flight |
| DispatchTheorems.FreedOnce | pset5/dispatch/dispatch.c:147-153 | the queue is freed at most once, and nothing is pushed or popped afterwards |
| DispatchTheorems.FreedExactly | pset5/dispatch/dispatch.c:149-153 | when all threads have returned, the queue was freed if and only if the last ride was counted after dispatch_done was set |
| DispatchRuns.FreedQueueIsReadExactly | pset5/dispatch/dispatch.c:130-150 | a state is reachable in which the queue is freed and a driver is about to look whether it is empty if and only if there are two drivers or more and a request |
| DispatchRuns.SomeoneElseFreed | pset5/dispatch/dispatch.c:146-157 | whenever the queue is freed there was a request, and some driver stands behind the statement that frees it |
| DispatchRuns.QueueCanLeak | pset5/dispatch/dispatch.c:104-153 | for all requests and any number of drivers a run ends with everything driven, all threads returned and the queue not freed |
| DispatchTheorems.NoDeadlock | pset5/dispatch/dispatch.c:93-157 | for any number of drivers from 1 on and any requests, in every reachable state where a thread has not returned, some thread can step |
| DispatchTheorems.EveryScheduleServesAll | pset5/dispatch/dispatch.c:93-160 | every schedule with finitely many spurious wakeups, fair or not, reaches a state where all threads have returned and every request was driven exactly once, popped in order |
| DispatchTheorems.DriverDescends | pset5/dispatch/dispatch.c:126-157 | every driver statement pops, frees, signals, or brings the driver closer to sleep or its next pop |
| DispatchTheorems.NobodyAsleepForever | pset5/dispatch/dispatch.c:96-143 | with every driver asleep or gone and no signal pending, the dispatcher does not sleep, and if it has returned so have the drivers |
| DispatchInvariant.DriverStepInv | pset5/dispatch/dispatch.c:126-157 | every driver statement keeps mutual exclusion, the ledger of requests, the flags, the no-lost-wakeup conditions and who frees the queue |
| DispatchInvariant.DispatcherStepInv | pset5/dispatch/dispatch.c:93-118 | so does every dispatcher statement |
| DispatchInvariant.SpuriousInv | pset5/dispatch/dispatch.c:97-140 | so does a spurious wakeup |
| DispatchInvariant.SignalWakesOne | pset5/dispatch/dispatch.c:113-116 | after the signal for a push some driver is awake |
| Io61.ReadersAgree | pset3/io61.c:196-466 | any sequence of io61_readc, io61_read of up to one buffer (or to the end of the file) and io61_seek before the end of file returns from the cached reader what slow-io61 returns |
| Io61.Reader.Readc | pset3/io61.c:196-223 | returns the byte at the position and moves behind it; EOF, unmoved, at the end, and terminates |
| Io61.Reader.Read | pset3/io61.c:232-299 | for every request the loop serves, fills the buffer with exactly min(sz, bytes left) bytes from the position, touches nothing behind them and moves by that much; for every other it fails where the loop would copy past the end; which blocks are in the cache afterwards; it terminates |
| Io61.Reader.ReadLoop | pset3/io61.c:243-288 | the copy loop copies as many bytes as CopyLoop.Loop says and ends as it does: served, with min(sz, bytes left) bytes, or at the turn that would copy past the end |
| CopyLoop.ServedExactly | pset3/io61.c:250-287 | with `first` bytes in the first buffer and `rest` in the file, the loop serves a request, with min(sz, rest) bytes, if and only if it ends within the buffer after the first, or the file ends in it, or it ends where a buffer ends |
| CopyLoop.Misses | pset3/io61.c:250-287 | from the third turn on, a request that ends inside a buffer is missed and then passed: some turn copies past its end |
| CopyLoop.ThirdTurnOverruns | pset3/io61.c:250-276 | for one, with a whole buffer first and enough file, the third turn of a request of 8292 bytes copies 4096 bytes where 100 are wanted |
| Io61.Reader.Seek | pset3/io61.c:422-466 | before the end of the file the position becomes pos, and the cache gains at most the block from there, unless the position was two behind pos; at the end it stays, and the reader stays usable exactly if it was unused, at the end, or the slot the refill takes is not its current one; past the end it is left with a slot outside the file |
| Io61.SeekToEndDiffers | pset3/io61.c:448-452 | on a non-empty file just opened, seeking to the end and reading gives the first byte, where slow-io61 gives EOF |
| Io61.Reader.GetFreeCache | pset3/io61.c:69-84 | the first inactive slot, which becomes active; otherwise the first of those created earliest |
| Io61.Reader.FillNewCache | pset3/io61.c:101-130 | fails exactly at end of file, marking the evicted slot inactive; else the evicted slot is current and holds the block at the offset, or past the end claims one |
| Io61.Reader.FindCacheOffset | pset3/io61.c:137-151 | the first slot holding the offset becomes current, if there is one |
| Io61.ReadsInOrder | pset3/slow-io61.c:50-78 | reads without seeks deliver the bytes of the file from the position on, none skipped, none twice |
| Io61.OutcomesAppend | pset3/slow-io61.c:50-135 | the meaning of a sequence of operations is the meaning of its steps in order |
| Io61.SlowReader.Read | pset3/slow-io61.c:65-78 | the byte-by-byte loop returns the slice at the position |
| Io61Writer.SeeksDecide | pset3/io61.c:306-465 | for every file and sequence of io61_writec, io61_write of up to 2 GB, io61_flush and io61_seek: closed after any part of it and one more character, the buffered file is the one slow-io61 leaves, for all parts and characters, if and only if the copy loop serves every write and every seek finds the buffer empty, which the sizes of the writes tell |
| Io61Writer.WritersAgree | pset3/io61.c:306-465 | the two writers driven through any such sequence leave the files CachedRun and PlainRun say, the same one if all goes well; the buffered one fails exactly if a write is not served |
| Io61Writer.StepCloses | pset3/io61.c:306-465 | an operation fails exactly if it is a write that the copy loop does not serve; any other but a seek keeps what closing leaves, and where the next byte goes, as with slow-io61, and a seek does if the buffer is empty; a seek that finds bytes in the buffer puts the next byte that many bytes too far |
| Io61Writer.PutCloses | pset3/io61.c:336-389 | bytes written, in the buffer or out of it, follow those written before without gap or loss; how many are left in the buffer |
| Io61Writer.Writer.Seek | pset3/io61.c:422-465 | the bytes in the buffer are written at the new position, and the next ones go behind them |
| Io61Writer.Writer.Write | pset3/io61.c:336-389 | for every request the loop serves, all of buf is collected behind what was written, and every full buffer goes to the file; for every other it fails where the loop would copy past the end of buf, with the bytes before collected; it terminates |
| Io61Writer.Writer.WriteLoop | pset3/io61.c:350-381 | the copy loop copies as many bytes as CopyLoop.Loop says and ends as it does: served, with all of buf, or at the turn that would copy past its end |
| Io61Writer.Writer.Writec | pset3/io61.c:306-328 | collects the character as an unsigned char, behind a full buffer that is written out, and terminates |
| Io61Writer.Writer.Flush | pset3/io61.c:397-415 | the bytes in the buffer are written at the descriptor's position, which moves behind them |
| Io61Writer.SlowWriter.Write | pset3/slow-io61.c:100-111 | the byte-by-byte loop writes the bytes at the descriptor's position, which moves behind them |
| Stride.RoundTrip | pset3/ostridecat61.c:46-64 | with slow-io61, for every stride and block size, ostridecat61 restores stridecat61's file if and only if no column but the last is cut by the file's end or there is one row, or, with blocks longer than the stride, the last block copied reaches the end; otherwise its output is longer than the file, or with such blocks the beginning of it |
| Stride.StrideAndBack | pset3/stridecat61.c:50-69 | the two loops on slow-io61 files run one after the other give back the file in exactly these cases |
| Stride.WideCopy | pset3/ostridecat61.c:47-60 | with slow-io61 and blocks longer than the stride, ostridecat61 restores the file up to the end of the last block copied |
| Stride.RoundTripCases | pset3/stridecat61.c:51-69 | with slow-io61 it restores the file for block size 1, and when the stride divides the file size |
| Stride.EachOffsetOnce | pset3/stridecat61.c:51-69 | the copy order visits every byte offset exactly once |
| Stride.StrideCatPermutes | pset3/stridecat61.c:51-69 | stridecat61, with slow-io61 files, writes the file's bytes along that order, as many as the file has |
| Stride.CutIsLast | pset3/stridecat61.c:62-66 | a block cut by the file's end is the last one copied exactly when the file is aligned |
| Stride.StrideCat | pset3/stridecat61.c:50-69 | the loop on slow-io61 files writes what Strided gives |
| Stride.OStrideCat | pset3/ostridecat61.c:45-64 | the loop on slow-io61 files, seeking behind each block, leaves the file Unstrided gives |
| StrideRestores.CachedRoundTrip | pset3/ostridecat61.c:46-67 | with io61, files of up to 2^31 - 1 bytes, strides below 2^63 and blocks no longer than the stride: on stridecat61's output for all files of n bytes, ostridecat61's reads and writes are all served and the file comes back if and only if n, stride and block size fit the buffers: a single block fills whole buffers; or full blocks do, and the rest fills whole buffers too or ends up in place in one of two special layouts |
| StrideRestores.SmallBlocks | pset3/ostridecat61.c:46-67 | with io61, any stride and blocks smaller than a buffer, no file comes back whose first byte is not zero |
| StrideRestores.HomeExactly | pset3/ostridecat61.c:46-67 | within the same limits, every block is served and every byte lands at the offset it was read from exactly for those sizes |
| StrideRestores.SecondBlockOverruns | pset3/io61.c:350-381 | for one, with files of 20580 bytes, stride 12388 and blocks of 12288 bytes the write of the second block, 8292 bytes, is not served |
| StridePrograms.CachedStrideAndBack | pset3/stridecat61.c:50-72 | the two loops on io61 files, for every stride and block size: the result, if all is served, is CachedBack; it is the file for those sizes, and for blocks smaller than a buffer never one whose first byte is not zero |
| StridePrograms.CachedStrideCat | pset3/stridecat61.c:42-72 | the loop on io61 files, for every stride and block size: if all reads and writes are served it writes what it writes on slow-io61 files; and they are all served for blocks of up to one buffer and for the sizes that fit |
| StridePrograms.TrackServed | pset3/io61.c:101-151 | with such sizes, the block in the cache that holds a place stridecat61 seeks to starts there, as long as its blocks are longer than a buffer, so that the read is served |
| StridePrograms.GridTurn | pset3/io61.c:422-466 | after a read of whole buffers and a seek, the blocks in the cache still start where buffers do, counted from the row |
| StridePrograms.CachedOStrideCat | pset3/ostridecat61.c:40-67 | the loop on io61 files, for every stride and block size, leaves the file CachedUnstrided gives, or fails where it does; no read is longer than the allocated buffer |
| StrideCached.BlockAndSeekIs | pset3/io61.c:336-465 | a block of any size whose write is served, on an empty buffer, and a seek: whole buffers go to the descriptor's position, the rest to the position sought |
| StrideCached.CachedLands | pset3/ostridecat61.c:46-64 | for every stride and block size, the loop fails exactly if some read or write is not served, and otherwise puts each byte of the input where Landing says |
| StrideCached.HomeRestores | pset3/ostridecat61.c:46-67 | for blocks no longer than the stride: if all is served and every byte lands where it came from, every file of the size comes back |
| StrideCached.AwayLoses | pset3/ostridecat61.c:46-67 | if not, some file of the size does not |
| Scatter.RoundTrip | pset3/gather61.c:34-46 | with slow-io61, gathering the scattered files in the same order and block size gives back the input, for every block size and file count from 1 on |
| Scatter.ScatterThenGather | pset3/scatter61.c:35-42 | so do the two loops on slow-io61 files run one after the other |
| Scatter.Scatters | pset3/scatter61.c:35-42 | each file receives its blocks of the input, behind what it held |
| Scatter.Gathers | pset3/gather61.c:34-46 | files that hold their parts of a rest gather to that rest |
| Scatter.GatherTurn | pset3/gather61.c:35-46 | every turn brings gather61's loop closer to its end: fewer bytes and open files, or nearer to the first open file |
| Scatter.GatherFiles | pset3/gather61.c:34-46 | the loop on slow-io61 files terminates with what GatherRun gives |
| Scatter.ScatterFile | pset3/scatter61.c:35-42 | the loop on slow-io61 files leaves the files ScatterRun gives |
| UblerTheorems.ExactlyOnce | pset5/ubler/ubler.c:83-186 | with at least one driver, when all have returned, every customer and its meal have exactly one pick-up between them and both are completed exactly once |
| UblerLiveness.ReturnExactlyIfFair | pset5/ubler/ubler.c:83-186 | in a schedule all drivers return if and only if it never holds up a driver under way forever, and then every pair was picked up once and completed once |
| UblerLiveness.UnfairSchedule | pset5/ubler/ubler.c:83-186 | there is a schedule of two drivers and one pair in which they do not all return: one is held up with the customer in hand, the other is handed the pair again and again |
| UblerLiveness.EveryFairScheduleServes | pset5/ubler/ubler.c:83-186 | every schedule that never holds up a driver under way forever reaches a moment when all drivers have returned and every pair was picked up once and completed once |
| UblerLiveness.IdleStep | pset5/ubler/ubler.c:87-183 | with no driver under way, every statement but a pick-up brings the drivers closer to pick-ups or their return |
| UblerLiveness.CarrierOnward | pset5/ubler/ubler.c:129-136 | with a driver under way, such a schedule comes to another completion or to fewer statements under way |
| UblerTheorems.AtMostOnce | pset5/ubler/ubler.c:125-181 | in every reachable state a pair was picked up at most once, and each side completed at most as often |
| UblerTheorems.NoDeadlock | pset5/ubler/ubler.c:83-186 | until all drivers have returned, one of them can step |
| UblerTheorems.FinalStats | pset5/ubler/ubler_helpers.c:419-464 | the recorded statistics: as many pick-ups as requests, nobody ignored or overserviced, and the drivers' pick-ups and deliveries equal the tracked ones |
| UblerInvariant.StepInv | pset5/ubler/ubler.c:83-186 | every statement of a driver keeps the invariant |
| UblerInvariant.ScanEnds | pset5/ubler/ubler_helpers.c:513-553 | when the scan of one side finds nothing, every pair was picked up or is about to be, index 0 included |
| UblerKinds.CustomersOnly | pset5/ubler/ubler_helpers.c:504-508 | unless meals are delivered too, in every reachable state no driver scans for a meal or has a request for one, and no meal was picked up |
| UblerKinds.BothKindsHappen | pset5/ubler/ubler_helpers.c:504-553 | if they are, for every pairing and number of drivers a run ends with all drivers returned and every customer picked up as a customer, and another with every customer's meal picked up as a meal |
| UblerFirst.ReturnLeavesFirst | pset5/ubler/ubler_helpers.c:513-553 | when a driver has returned, all customers or all meals are completed, the one at index 0 perhaps excepted |
| UblerFirst.FirstIsSkipped | pset5/ubler/ubler_helpers.c:526-530 | the exception is real: for every pairing of two pairs or more and three drivers or more, a run comes to a state in which a driver has returned and customer 0 and its meal are neither picked up nor completed |
| UblerFirst.CheckSendsNobodyBack | pset5/ubler/ubler.c:105-109 | in every reachable state a driver that looks without the lock whether both sides were picked up goes on to the lock |
| UblerInvariant.Exclusion | pset5/ubler/ubler.c:125-139 | no two drivers are inside the same customer's lock, inside receive_request, or under way with the same pair |
| UblerInvariant.StepHandled | pset5/ubler/ubler.c:106-139 | a pair that is seen to stays seen to |
| UblerInvariant.StepPair | pset5/ubler/ubler_helpers.c:120-179 | a pair picked up and not yet completed always has a driver under way with it |
| UblerTheorems.StepStats | pset5/ubler/ubler_helpers.c:211-230 | driver statistics and tracking counters stay in step |
| Ubler.SwapMeals | pset5/ubler/ubler_helpers.c:240-256 | swaps two meals' customers and keeps the two-way pairing |
| Ubler.InitRequests | pset5/ubler/ubler_helpers.c:284-315 | the shuffle produces a valid two-way pairing, whatever the random numbers, and swaps from the last meal down as Shuffled says |
| Ubler.EveryPairingOnce | pset5/ubler/ubler_helpers.c:310-314 | every pairing is made by exactly one outcome of the reduced random numbers |
| Ubler.RecordStats | pset5/ubler/ubler_helpers.c:419-464 | the loops compute the sums and counts |
| M61.Session | pset1/m61.c:127-350 | over any run of mallocs, frees of live pointers and reallocs, the leak report lists exactly the live blocks, nactive and active_size are their number and total size, and heap_min and heap_max are the lowest start and the highest end of all blocks the run handed out, 0 if there was none |
| M61.Allocator.Malloc | pset1/m61.c:127-196 | fails and counts the failure exactly for a rejected size or no memory; else the new aligned block is the newest of the live blocks, the counters follow, and heap_min and heap_max are the lowest start and highest end of all blocks handed out (in Valid) |
| M61.Allocator.Free | pset1/m61.c:198-282 | freeing a live block takes exactly it from the list and the counters and reports nothing; freeing one freed before changes nothing and is reported with the live block the pointer lies in; heap_min and heap_max stay |
| M61.Allocator.Realloc | pset1/m61.c:284-304 | the live blocks, the blocks handed out and all counters after it; the new block starts with the old contents as far as they fit, no other contents change, and the old block is freed in every case |
| M61.Allocator.Unlink | pset1/m61.c:257-274 | the doubly linked list without the block |
| M61.Allocator.PrintLeakReport | pset1/m61.c:343-350 | the report lists exactly the live blocks, newest first, nactive of them |
| M61.Allocator.FindMeta | pset1/m61.c:65-76 | the newest block from the node on that contains the pointer, or NULL |
| M61.FindExact | pset1/m61.c:65-76 | with blocks apart from each other, find_meta finds a block exactly if it contains the pointer |
| M61.RejectedExactly | pset1/m61.c:131-138 | m61_malloc rejects exactly the sizes from 2 GB on, and otherwise the block size does not wrap |
| M61.PadAligns | pset1/m61.c:55-60 | find_pad aligns the payload to 8 bytes exactly for metadata of up to 16 bytes or a multiple of 4 |

## Left out

- KernelRuns.Isolation: states nothing after a process loaded at boot exits, because `sys_exit` then frees pages others still map.
- KernelCode.Kernel.ProgramLoadSegment: segments begin and end with a word, so byte offsets inside a word are not modelled, nor is the parsing of the ELF header.
- KernelCode.Kernel.Schedule: a scheduler with nothing to run is one idle end state instead of an endless loop with `check_keyboard`.
- Io61.Reader.Read: what a turn that copies past the end of the request overwrites, and how the loop goes on from there, is not modelled, the read fails instead; reads from a reader that a seek has broken are excluded.
- Io61Writer.Writer.Write: as for reads; and `buf` is at most 2 GB long.
- StrideRestores.CachedRoundTrip: nothing is said for `io61` and blocks of a buffer or more that are longer than the stride, nor which single files come back when not all of a size do.
- StridePrograms.CachedStrideCat: for other sizes and blocks longer than a buffer it is not stated which of its reads are served, as that depends on what is in the cache.
- StridePrograms.CachedStrideAndBack: files (the strided one too) of 2^31 bytes and more, whose size does not fit the `int` of an `io61_file`, and a stride and block size of 2^63 together.
- DispatchTheorems.EveryScheduleServesAll: infinitely many spurious wakeups are excluded; they could keep a thread busy forever.
- UblerLiveness.EveryFairScheduleServes: requires fairness to drivers under way, which `ReturnExactlyIfFair` shows to be necessary.
- M61.Allocator.Free: only pointers behind which memory holds the metadata of a block, live or freed and not overwritten; other invalid pointers and wild writes depend on raw memory contents.
- The kernel models leave out what else a process breaks by mapping over kernel memory than the lookups of `set_pagetable` (its stack page, the code of `exception`, `processes[]`), the TLB, accessed and dirty bits, interrupts, console, keyboard and `memshow_*`.
- In the kernel models words are stored whole, so a user store to a byte within a word is a store of the resulting word.
- Cached files on pipes, system call errors, `mmap` failure, and more than 2^31 cache fills.
- Increments of shared counters are single steps in the Ubler model; its locks and the invariant leave one writer at a time for each counter.
- `m61_calloc`, the heavy-hitter table and wrap-around of the 64-bit statistics.
- Ubler's mixed-up meals and `fix_mismatch`, which no driver calls; locations and driving times.
- The shell, the bomb lab, uber-pi and the test harnesses.
