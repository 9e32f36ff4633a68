# G-Thread, modelled and proved in Dafny

G-Thread runs the threads of a pthread program as forked processes over one shared heap. Each
process executes the code between two synchronisation points (a create, a join, its exit) as one
atomic segment: it snapshots a table of page versions, lets page faults record the pages it reads
and writes, works on private copies of the pages it writes, and at the end validates its read set
and installs its copies under an inter-process mutex, or throws them away and starts over.

`dafny verify dfyconfig.toml` checks everything here.

## How it is modelled

- `Memory`, `Segments`, `Tracking`: pages, versions, user code (an arbitrary deterministic program
  over a saved context), execution directly on one heap, execution as an attempt with copy-on-write,
  and the maps the fault handler fills.
- `Protocol`: the transition system. Its state holds the shared heap, the version table, the mutex,
  the rollback counter, the reaped pids and every process; its steps are the snapshot, the fault, the
  access, the two waits, lock, validation, the copy of a single cell, the version bump of a single
  page, unlock, abort, fork, join and exit. A schedule is any list of such steps by any processes;
  a step that is not enabled changes nothing. All results about runs hold for every schedule.
- `Serial`: threads whose segments run one at a time and directly on the heap. `Sequential`: the
  program with every create turned into a call.
- `Invariant`, `Reaping`, `Refinement`, `VersionCounts`, `Footprints`, `Termination`, `Deadlock`,
  `Erasure`, `Realization`, `Exactness`: results about the runs of either build, or of the default one.
  `OrderedMode`, `OrderedProgress`, `OrderedLimits`: the build without `NO_ORDER`. `Increment`,
  `IncrementTotal`: the example workload.
- `Runtime`, `BumpAllocator`, `HandleTable`, `Wrapper`: the library's objects as classes that change
  their fields in place. `Conformance` connects the methods of `Runtime`, `Waiting` those of the
  kernel's process table, and `HandleRuns` the handle tables, to the steps of `Protocol`.
- `Division`: facts about quotients.

Modelling decisions:

- A page of the local heap reads through to the shared page until the process first writes it, also
  while another process is copying into the shared page. POSIX leaves this open for private mappings
  (mmap() in the System Interfaces volume of POSIX.1); reading through is the assumption made here.
- A running segment may see a mixture of old and new cells. Only committed segments get guarantees,
  and the hypothesis of the termination theorem bounds the code whatever values its loads return.
- Pids are numbered in fork order. Pid 0 is the process of the wrapped main, which is nobody's
  predecessor and is never joined, so a predecessor of 0 means none, as in the source.
- `waitpid` collects an own child once it has exited; `kill(pid, 0)` keeps finding a foreign process
  until somebody has reaped it. Both are in the wait steps, and `Waiting` derives them from a process
  table.
- The contract of `Shared.Lock` promises nothing about what the mutex guards, since other processes may
  hold it until it is granted; what was found then is kept as history, and the contracts of the methods
  that lock speak of that state.
- `accesses`, `since`, `aborts`, `log`, `order` and `waited` are history: no step reads them.

What the code and its documentation disagree on:

- The README of the repository promises sequential semantics when `NO_ORDER` is not defined. A commit
  waits for the immediate predecessor only, and that stands for everybody who comes first in the elided
  program if and only if no thread but the first has left before its own predecessor
  (`OrderedMode.OrderIsKeptExactly`). A thread that never touches the heap does leave early
  (`OrderedLimits.OvertakingIsNotSequential`).
- The ordered build can also wait for ever (`OrderedLimits.OrderedBuildCanHang`). The only thing that can
  hold up the first live process of the elided order is the loop on `kill(pid, 0)` for an exited process
  that its living parent has not reaped (`OrderedProgress`).
- The shortcut in `memalign` is commented as "already aligned"; it is taken for blocks that lie below
  the alignment. When malloc refuses the second, larger request, the result is null and the first block
  stays allocated (`Wrapper`).

## Model

| member | source | states |
|---|---|---|
| Segments.UndisturbedIsDirect | src/gstm.cc:114-138 | copy-on-write is invisible: an attempt over a heap that does not change reaches the context of direct execution, its view is the directly written heap, and its copies are exactly the pages written |
| Segments.OnlyTouchedPagesMatter | src/gstm.cc:179-195 | why validating the touched pages suffices: two heaps that agree on them give the same attempt |
| Segments.SegmentIsDeterministic | src/gthread.cc:120-127 | re-running a segment from its saved context on the same heap gives the same outcome |
| Invariant.RunKeeps | src/gthread.cc:57-133 | after every schedule: the mutex is held by the one process validating or installing, the version maps record exactly what each attempt touched, a commit in progress has only new contents under new versions, and an attempt whose recorded versions are current equals an undisturbed one |
| Invariant.TrackingIsExact | src/gstm.cc:88-138 | in every reachable state permissions none, read, read-write mean untouched, touched, copied, except for the page of an access that is still faulting |
| Invariant.ValidationIsExact | src/gstm.cc:179-195 | the test that skips pages absent from the global table is true exactly when every recorded version is the current one |
| Invariant.CommitFrame | src/gstm.cc:197-210 | a commit leaves every other attempt either with an outdated read set or as undisturbed as before |
| Invariant.CommittedStateKept | src/gstm.cc:197-219 | copying cells, bumping versions and unlocking change nothing that validation has not already decided |
| Refinement.Serializable | src/gthread.cc:57-127 | one-copy serializability: every schedule of either build, with cell-by-cell commits, matches a feasible serial execution of the committed segments in commit order, with the same contexts, forks, joins, exits and log |
| Refinement.HeapIsSerial | src/gthread.cc:104-115 | whenever the mutex is free the shared heap is the heap of that serial execution |
| VersionCounts.VersionsCountCommits | src/gstm.cc:100-112 | outside a commit the version of a page is the number of commits that wrote it |
| VersionCounts.EqualCountsMeanUnwritten | src/gstm.cc:185-186 | no ABA: equal versions at two times mean that no commit in between wrote the page |
| VersionCounts.FailureHasCulprit | src/gthread.cc:105-114 | a failed validation is due to a commit by another process, after this attempt's snapshot, of a page this attempt touched |
| VersionCounts.RollbackBound | src/gthread.cc:112-114 | rollbacks are at most the writing commits times the number of other processes |
| Footprints.DisjointNeverRollsBack | src/gstm.cc:179-195 | if no process writes a page another touches, the rollback counter stays 0 |
| Footprints.OwnSubheapsNeverRollBack | src/bump_allocator.cc:51-56 | in particular for processes in different slots that keep to the pages of their own subheaps |
| Footprints.OwnBlocksNeverRollBack | src/bump_allocator.cc:65-82 | and so for processes with own slots that access only blocks xxmalloc returned to them, over any interleaving of allocations, forks and rollbacks that overflows no subheap |
| Deadlock.NoDeadlock | src/gthread.cc:34-44 | with `NO_ORDER`, while joins name own children, some process can step in every reachable state with a live process |
| Termination.EveryRunIsFinite | src/gthread.cc:57-133 | no schedule of a bounded program consists of enabled steps for ever |
| Realization.SerialIsRealizable | src/gthread.cc:89-118 | every feasible serial execution of either build whose waits can end, counting who has been reaped, is a run without rollbacks |
| Exactness.RunsWaitInTime | src/gstm.cc:151-177 | conversely every run amounts to a serial execution whose waits can end, although aborted attempts have reaped processes early |
| Exactness.RunsCanBeSerial | src/gthread.cc:89-127 | for every run of either build there is one without rollbacks, one segment at a time, with the same committed heap, versions, commits and threads |
| Reaping.RunKeepsWaiters | src/gthread.cc:32-44 | until the next fork nobody but its parent refers to a process's latest child, and an attempt that has recorded anything began with an access |
| Erasure.DeletionIsLegal | src/gthread.cc:112-127 | deleting from any run of either build the steps of the attempts that fail leaves a run of enabled steps with the same heap, versions, mutex, commits and processes and no rollback |
| Erasure.NothingElseIsDeleted | src/gthread.cc:112-114 | a run in which no validation fails is left as it is |
| Sequential.ReturnsOnce | README.md:61-67 | the sequential program that the ordered build is to match, with creates turned into calls, has at most one result |
| OrderedMode.OrderIsExact | src/gthread.cc:99-100 | in every linked world: waiting for the immediate predecessor amounts to waiting for everybody earlier in the elided order if and only if no thread but the first has left before its predecessor |
| OrderedMode.OrderIsKeptExactly | src/gthread.cc:34-44 | the same equivalence in every reachable state of the runtime, with an order that lists every process once |
| OrderedMode.HeapIsTouchedInOrder | src/gthread.cc:99-105 | in such a state a process past its wait comes after exited processes only |
| OrderedMode.WaitingSuffices | src/gthread.cc:129-133 | a thread that has touched the heap or joined its predecessor since it started or last forked may leave |
| OrderedMode.SequentialResult | src/gthread.cc:23-55 | a complete serial execution of the ordered build in which no thread but the first leaves before its predecessor ends with the heap the elided program returns |
| OrderedMode.OrderedRunsAreSequential | README.md:61-67 | the same for every complete run of the runtime, with all its interleavings and rollbacks |
| OrderedMode.WaitingRunsAreSequential | README.md:61-67 | in particular when each process touches the heap or joins its latest child before it leaves |
| OrderedProgress.FirstStepsUnlessInKillLoop | src/gstm.cc:160-166 | ordered build, mutex free, joins of own children: the first live process of the elided order has an enabled step if and only if it is not in the loop on an exited process that its living parent has not reaped |
| OrderedProgress.OrderedProgress | src/gstm.cc:151-177 | so some process can step in every reachable state with a live process, unless the first live one is in that loop |
| OrderedLimits.OvertakingIsNotSequential | src/gthread.cc:93-97 | a thread that never touches the heap does not wait, and a complete run ends with another heap than the elided program |
| OrderedLimits.OrderedBuildCanHang | src/gstm.cc:160-166 | main storing before it joins two threads, oldest first, can reach a state with live processes and no enabled step |
| Increment.SegmentEffect | example/test.cc:27-48 | run directly, the increment segment adds one to every cell and memset zeroes every cell |
| Increment.NoLostUpdates | example/test.cc:63-79 | in every run of either build, for any numbers of threads, all cells hold N x (M + 1) from the moment main returns from its last join |
| IncrementTotal.TestTerminates | example/test.cc:95-110 | no run of the workload goes on for ever |
| IncrementTotal.TestEndsWithTotal | example/test.cc:95-110 | a run of the `NO_ORDER` build that cannot go on has finished every process and left N x (M + 1) in every cell |
| Runtime.Shared.CopyPage | src/gstm.cc:199-204 | the memcpy replaces exactly one page of the flat heap |
| Runtime.ReplacedIsOverlay | src/gstm.cc:197-204 | installing exactly the copied pages makes the shared heap the committer's own view |
| Runtime.Transaction.HandleReads | src/gstm.cc:88-98 | records the snapshot version, 0 if absent, and grants reading |
| Runtime.Transaction.HandleWrites | src/gstm.cc:100-112 | records one more than the snapshot version and grants writing |
| Runtime.Transaction.SegfaultHandler | src/gstm.cc:114-138 | a first fault on a page is a read, a second a write |
| Runtime.Transaction.Load | src/gstm.cc:134-137 | at most one fault, then the value of the private copy or of the shared page |
| Runtime.Transaction.Store | src/gstm.cc:128-137 | one fault for each missing right, at most two, then a change of the private copy only |
| Runtime.Transaction.AtomicBegin | src/gthread.cc:57-80 | maps cleared, the version table found under the mutex copied entry by entry, all permissions revoked |
| Runtime.Transaction.IsHeapConsistent | src/gstm.cc:179-195 | called with the mutex held, the loop returns the validation predicate |
| Runtime.Transaction.InstallPages | src/gstm.cc:197-210 | for any iteration order, every written page and version is replaced and nothing else changes |
| Runtime.Transaction.CommitHeap | src/gstm.cc:197-219 | with the mutex held: the same, after which the private pages are gone and every page is readable and writable |
| Runtime.Transaction.UpdateHeap | src/gstm.cc:221-231 | private pages dropped, every page readable and writable |
| Runtime.Transaction.ValidateAndCommit | src/gthread.cc:102-118 | one critical section: the outcome is that of validating what was found when the mutex was granted, and what is released is that with exactly the commit, or the rollback, added |
| Runtime.Transaction.AtomicCommit | src/gthread.cc:89-118 | a segment that touched nothing neither waits nor locks; any other waits for the predecessor first; exact heap, versions, counter, private pages and permissions on every way out |
| Runtime.Transaction.Forked | src/gthread.cc:39-44 | a child starts with its parent's state, and with no predecessor when `NO_ORDER` is defined |
| Waiting.Kernel.WaitExited | src/gstm.cc:151-177 | one round of the wait over waitpid and kill: when it returns and whom it reaps |
| Waiting.AwaitPredecessor | src/gthread.cc:99-100 | the wait of a commit returns exactly when its step is enabled, and makes it |
| Waiting.AwaitThread | src/gthread.cc:129-133 | so does the wait of a join |
| Conformance.Begin | src/gthread.cc:57-80 | AtomicBegin makes the snapshot step in whatever state the mutex is granted |
| Conformance.HandleFault | src/gstm.cc:114-138 | the handler makes the fault step |
| Conformance.PerformLoad | src/gstm.cc:134-137 | a load with its fault makes steps of its own process only, changes nothing else and returns the value the program resumes with |
| Conformance.PerformStore | src/gstm.cc:128-137 | a store with its faults makes steps of its own process only and changes nothing else |
| Conformance.Commit | src/gthread.cc:104-117 | in whatever state the mutex is granted, the locked part of AtomicCommit makes the steps of its own process from lock to unlock, or to a failed validation; it commits exactly when the read set is current in that state, appends that commit to the log and leaves every other process alone |
| Conformance.CommitUntouched | src/gthread.cc:93-97 | the early return makes the step of an empty commit |
| Conformance.Create | src/gthread.cc:26-44 | the fork makes the fork step, seen by the parent and by the child |
| Conformance.Restart | src/gthread.cc:120-127 | AtomicAbort makes the abort step |
| BumpAllocator.Allocator.constructor | src/bump_allocator.cc:51-56 | subheap k starts k subheap sizes above the heap base |
| BumpAllocator.RoundUpIsLeast | src/util.hh:10-11 | rounding up gives the least multiple that is not below |
| BumpAllocator.Allocator.Xxmalloc | src/bump_allocator.cc:65-82 | returns the pointer of the pid's slot and advances it by the least multiple of 16 that is enough; the other pointers stay |
| BumpAllocator.Allocate | src/bump_allocator.cc:65-82 | xxmalloc makes the allocation event of the arena, with the block where the returned pointer says |
| BumpAllocator.Split | src/gthread.cc:26-41 | a fork leaves parent and child with equal pointers, as the fork event says |
| BumpAllocator.LinesAreEndToEnd | src/bump_allocator.cc:65-82 | whatever slots are shared, the blocks handed to a process or, before the forks, to those it descends from lie end to end in each slot, from the start of the subheap exactly up to its pointer |
| BumpAllocator.LineIsDisjoint | src/bump_allocator.cc:65-82 | so they lie below its pointers, and those in one slot are pairwise disjoint |
| BumpAllocator.BlocksAreDisjoint | src/bump_allocator.cc:65-82 | over any interleaving of mallocs, forks and rollbacks: with own slots and no overflow all blocks are aligned, disjoint and inside their owner's subheap |
| BumpAllocator.SharedSlotOverlaps | src/bump_allocator.cc:70-72 | whenever two processes share a slot two further mallocs overlap |
| HandleTable.HandlesSurvive | src/libgthread.hh:15-31 | in every run of creates, joins and rollbacks of a process, the handle of each returned create names the process it forked, for good, and handles are distinct |
| HandleTable.TableIsExact | src/libgthread.hh:20-31 | from one handle to the next the table holds only that create's process; it has at most one entry more than creates for each rollback, and without rollbacks it is the list of creates and handles count them |
| HandleTable.RollbackDuplicates | src/libgthread.hh:22-23 | a rollback after a create leaves a duplicate entry |
| HandleTable.Table.Create | src/libgthread.hh:17-25 | the handle is new and names the forked process, and no completed create is disturbed |
| HandleTable.Table.Repeat | src/libgthread.hh:22-23 | a re-executed push appends the process again and completes nothing new |
| HandleTable.Table.Join | src/libgthread.hh:27-31 | joining the handle of the k-th create waits for the process it forked, appends nothing and leaves nothing to append |
| HandleRuns.JoinsFindTheSameProcess | src/libgthread.hh:15-31 | in every run of the protocol, over the fork tree: the tables with duplicates give each join the process that the clean tables give |
| HandleRuns.TablesAreExact | src/libgthread.hh:20-31 | in every run a table repeats entries at most once for each rollback of its process and those it descends from, and is the clean table when they had none |
| Wrapper.CallocChecksExactly | src/wrapper.hh:134-145 | calloc asks malloc for the product exactly when it fits a word |
| Wrapper.CustomCalloc | src/wrapper.hh:134-145 | up to the zeroing: a product with the top bit clear is malloc of it, any other is null with nothing taken |
| Wrapper.AndBits | src/wrapper.hh:181-192 | the mask has exactly the bits set in both |
| Wrapper.TestIsExact | src/wrapper.hh:181 | the test on alignment and alignment - 1 accepts the powers of two and nothing else |
| Wrapper.MaskIsRemainder | src/wrapper.hh:181-192 | masking with a power of two minus one takes the remainder |
| Wrapper.AlignUpIsAligned | src/wrapper.hh:199-200 | the rounded address is a multiple of the alignment, and the next one when nothing wraps |
| Wrapper.CustomMalloc | src/wrapper.hh:126-132 | refuses sizes with the top bit set, otherwise the bump pointer |
| Wrapper.CustomMemalign | src/wrapper.hh:174-202 | for every alignment and size the result and the pointers: null with nothing taken for other alignments than powers of two and for sizes with the top bit set; the first block for the alignment of a double and for blocks below the alignment; otherwise the aligned address in a second block, or null when that one is refused. A result is aligned exactly when the first block does not lie below the alignment, and, when nothing wraps, not null and with all requested bytes inside memory taken from the subheap |

## Left out

- OrderedMode.OrderedRunsAreSequential: one way only; a run that breaks the order may still end with the same heap, because the heap does not tell in which order equal or independent stores were made. What is exact is the order itself (`OrderedMode.OrderIsKeptExactly`).
- Deadlock.NoDeadlock: for the `NO_ORDER` build only, because in the ordered build it is false; `OrderedProgress.OrderedProgress` is what holds there.
- Waiting.Kernel.WaitExited: one round; that a blocked or looping caller is asked again is left to the schedule.
- Increment.NoLostUpdates: counters are unbounded integers, and `verify` is the statement, not a loop over the cells.
- HandleRuns.JoinsFindTheSameProcess: the program of `Protocol` sees the positions of the clean table; one that computes with handle values instead of passing them to join would see other numbers.
- BumpAllocator.Allocator.Xxmalloc: pointers are unbounded, so a subheap pointer never wraps around the word.
- The copy of the version table in AtomicBegin is one step of `Protocol`: only a holder of the mutex writes the table.
- Saving and restoring the stack, ucontext and /proc/self/maps: a rollback restarts the saved context.
- Failures of mmap, msync, mprotect, fork and signal calls, the error branches of WaitExited, and the reuse of pids.
- Faults outside the heap and the third-fault branch, which the handler never reaches.
- The first mapping of the heap, static constructors, and contents left in the backing file by an earlier run.
- Globals, input and output inside segments, thread return values and stack addresses passed to threads, which the repository lists as unsupported.
- The private and shared map allocators: the maps are mathematical maps.
- The zeroing in calloc, posix_memalign and aligned_alloc around memalign, realloc, the other wrappers, logging and libc start-up.
- The password cracker and the plain pthread programs.
