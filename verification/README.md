# Verified models of the xv6 labs

This project models, in Dafny 4.11, the parts of the repository whose correctness is an argument
rather than a reading: the write-ahead log over the buffer cache, the K&R heap, Sv39 page tables over
the page allocator, inode block maps and file contents, sleep and wakeup with what is built on them,
exit and wait, the scheduler of lab3, the virtio disk queue, the FAT32 cluster chains of lab4, the
shell's parser and grep's matcher. Code that works step by step on state is a class with methods, each
proved against a specification function or predicate; code that several processes run at once is a
state machine whose steps interleave freely, with invariants over every run. The kernel files are
modelled from lab2; from lab3 only `kernel/proc.c` is.

How the files go together:

- **Log and cache.** `Blocks`, `LogProtocol` (layout, state and steps: processes, the commit, recovery,
  and a crash at any moment), `LogInvariant`, `LogSteps`, `LogData`, `LogRefinement` (the flat store it
  refines, crash atomicity, durability), `LogEnds` (commits and recoveries end),
  `LogReservation` and `LogOverflow` (when `log_write` can panic, exactly), `LogCommit` (the code of `log.c` as a class, with the trace of all disks it writes),
  `BufferCache` (`bio.c` as a class: the LRU ring, and the map of contents that buffers, pins and disk stand for).
- **Shared.** `Sequences`, `Arith`.
- **Heap.** `HeapList` (the ring on values), `Malloc` (the allocator as a class).
- **Page tables.** `PageTree`, `PageMaps`, `PageTeardown`, `PageFork` on values; `PageTable` has
  the methods. Each page carries a ghost role: free, held, frame of one map, or node of one tree.
- **Files.** `FileBlocks`, `FileMap`, `FileSteps`, `FileData` on values; `FileSystem` has the methods.
- **Processes.** `SleepWakeup`, `SleepRuns` (semaphores), `SleepLocks` (sleeplocks), `PingPong`;
  `ExitWait`, `ExitWaitSteps`, `ExitWaitFamily`, `ExitWaitChildren`, `ExitWaitRuns`,
  `ExitWaitAnswers`, `ExitWaitAlone` (what each call does when nobody is in its way); `Scheduler` (lab3).
- **Disk driver.** `VirtioDriver` (the driver as a class), `VirtioProtocol`, `VirtioSteps`, `VirtioRuns`
  (several processes, the interrupt handler and a device that completes in any order).
- **FAT.** `FatChains` on values, `FatFile` with the methods.
- **User programs.** `ShellLexer`, `ShellGrammar`, `ShellRedirs`, `ShellParser`; `Grep`.

Where the code differs from what is said about it, the code is followed, and the difference is exact:

- `param.h` calls MAXOPBLOCKS the most any operation writes, and `mkfs` lays out nlog = LOGSIZE. With
  operations of 10 blocks `log_write` does panic in some run; with at most 9 it never does
  (`LogOverflow.ShippedLayout`; `LogOverflow.PanicExactly` for every layout).
- `morecore` hands an unsigned 64-bit size to an `int` parameter of `sbrk`. It asks for what it means
  exactly when the request is at most 0x7FFFFFE0 bytes (`Malloc.SbrkExact`); at 0xFFFFFFFF it asks for
  16 (`Malloc.LargestRequest`). `Malloc.Allocator.Malloc` says when the heap is then still in the
  memory of the process: exactly if some free block fits, or sbrk refuses, or the request is that small.
- `fat_file_truncate` leaves the size alone when it frees no cluster: `FatFile.ShortensExactly` says when,
  `FatFile.CutIgnored` is an instance. `fat_file_pwrite` never adds a cluster, so it stops short exactly
  when the bytes end beyond the chain (`FatFile.Volume.Pwrite`); `FatFile.ShortWrite` is an instance.

## Model

| member | source | states |
|---|---|---|
| LogRefinement.StepKeepsInv | lab2/kernel/log.c:68-235 | every step by any process, of the commit, of recovery, and a crash, keeps the invariant between cache, pins, log and disk |
| LogRefinement.RunKeepsInv | lab2/kernel/log.c:68-235 | so does every run |
| LogRefinement.StepRefines | lab2/kernel/bio.c:58-151 | each step of cache and log is one step of a flat store of durable and current contents |
| LogRefinement.RunRefines | lab2/kernel/log.c:126-203 | every interleaving of processes, commits, crashes and recoveries is a run of that store |
| LogRefinement.CrashAtomicity | lab2/kernel/log.c:116-123 | a run that writes no commit record, crashes included, leaves a disk that recovers to the same contents |
| LogRefinement.CommitPoint | lab2/kernel/log.c:193-203 | the one header write moves the whole transaction from lost to durable, when no operation is half done |
| LogRefinement.LastCommitSurvives | lab2/kernel/log.c:68-203 | after any run from power-on, crashes and recoveries included, the disk recovers to exactly what the file system saw at the last commit record, or to what was there at power-on |
| LogRefinement.CommitDurable | lab2/kernel/log.c:145-175 | when the commit that the last end_op sets off is over, all that was written before it is durable and home, however its steps were interleaved |
| LogRefinement.RecoveryRestores | lab2/kernel/log.c:116-123 | recovery, however often it is cut short by crashes, ends with exactly the committed contents at home |
| LogRefinement.DurableMoves | lab2/kernel/log.c:99-114 | durable contents change only at a commit record |
| LogRefinement.QuietView | lab2/kernel/log.c:193-203 | with nothing logged, the cache, the home blocks and the log agree |
| LogRefinement.EndOpNeverPanics | lab2/kernel/log.c:151-155 | the panic "log.committing" is unreachable |
| LogRefinement.NoRecoverTwice | lab2/kernel/log.c:116-123 | after recovery has ended it does not start again without a crash |
| LogRefinement.ReplayCommit | lab2/kernel/log.c:99-114 | what recovery would read after the commit record is exactly what the file system saw in the cache |
| LogRefinement.ReplayErase | lab2/kernel/log.c:198-201 | erasing the record after installing changes nothing that recovery would read |
| LogRefinement.ViewRecycled | lab2/kernel/bio.c:73-88 | giving an unused buffer to another block never changes the contents seen |
| LogEnds.CommitEnds | lab2/kernel/log.c:68-203 | from any state of a commit or recovery some run without a crash ends it, in which other processes only give back the buffers they use; a commit then has everything written before it durable and home, a recovery the committed contents, and begin_op goes on; a commit that has pinned every buffer of the cache is excluded |
| LogEnds.CommitEndsExactly | lab2/kernel/bio.c:73-90 | a commit about to copy its first block can end without a crash if and only if it leaves a buffer of the cache unpinned, as bget has none for the log's block otherwise |
| LogEnds.ShippedEnds | lab2/mkfs/mkfs.c:25 | with a log area of at most NBUF blocks, as mkfs makes it, every commit and recovery can end |
| LogEnds.OpsEnd | lab2/kernel/log.c:145-175 | operations without an unlogged change can all end, and then everything they have written is durable and home |
| LogEnds.AllBack | lab2/kernel/bio.c:109-139 | in the middle of a commit every buffer in use can be given back, with the commit where it was |
| LogEnds.MoveOn | lab2/kernel/log.c:68-203 | with the buffers given back, the commit or recovery can always do its next piece of work, and less is left then |
| LogReservation.PeakBound | lab2/kernel/log.c:126-142 | the list never holds more than MAXOPBLOCKS plus twice the most one operation logs |
| LogReservation.RunReserves | lab2/kernel/log.c:132-138 | begin_op's reservation holds in every run: listed blocks and unused reservations fit in the log |
| LogReservation.NoPanic | lab2/kernel/log.c:220-221 | with room for that many, no run reaches the panic "too big a transaction" |
| LogOverflow.PanicReachable | lab2/kernel/log.c:220-221 | otherwise a concrete run from power-on reaches it, by operations that keep their bound |
| LogOverflow.PanicExactly | lab2/kernel/log.c:126-235 | the panic is reachable if and only if the capacity is at most that peak |
| LogOverflow.ShippedLayout | lab2/mkfs/mkfs.c:25 | with nlog = LOGSIZE it is reachable if and only if an operation may log 10 blocks |
| LogCommit.Log.LogWrite | lab2/kernel/log.c:214-235 | the view gains exactly the block; a block listed already is absorbed, another is appended and pinned |
| LogCommit.Log.WriteLog | lab2/kernel/log.c:178-191 | each listed block is in its slot; every disk on the way recovers to the old contents |
| LogCommit.Log.WriteHead | lab2/kernel/log.c:99-114 | the copying loop and one disk write, after which the header lists exactly the in-memory list |
| LogCommit.Log.InstallTrans | lab2/kernel/log.c:68-83 | home blocks hold the logged contents; every disk on the way recovers to them; pins go exactly when not recovering |
| LogCommit.Log.Commit | lab2/kernel/log.c:193-203 | at every disk write: before the record a crash loses the whole transaction, from it on nothing; at the end home equals the view |
| LogCommit.Log.ReadHead | lab2/kernel/log.c:86-97 | the list in memory is the one in the header |
| LogCommit.Log.RecoverFromLog | lab2/kernel/log.c:116-123 | home equals the committed contents, and every disk on the way recovers to them |
| LogCommit.CommittedReplay | lab2/kernel/log.c:178-203 | slots that hold the pinned contents, with the record written, recover to the view |
| LogCommit.CommitTrace | lab2/kernel/log.c:193-203 | the four stretches of a commit together are all or nothing |
| Blocks.HeadRoundTrip | lab2/kernel/log.c:86-114 | a header written and read back is the same list, and the words behind it stay |
| BufferCache.Bcache.constructor | lab2/kernel/bio.c:36-53 | binit's ring holds every buffer once |
| BufferCache.Bcache.Lookup | lab2/kernel/bio.c:64-71 | the buffer that caches the block, or none if none does |
| BufferCache.Bcache.OldestFree | lab2/kernel/bio.c:73-87 | the unused buffer that was freed longest ago, or none if all are in use |
| BufferCache.Bcache.Bget | lab2/kernel/bio.c:58-89 | one buffer per block: the cached one with one more reference, or the least recently freed one, which is neither locked nor pinned, taken over; no contents change |
| BufferCache.Bcache.Fill | lab2/kernel/bio.c:97-101 | the owner's buffer has the contents of its block, read in only if it was not valid |
| BufferCache.Bcache.Bread | lab2/kernel/bio.c:91-103 | a locked buffer of the block with the block's contents, no other buffer changed; -1 only if the block is not cached and every buffer is in use |
| BufferCache.Bcache.Change | lab2/kernel/log.c:206-213 | an owner's change moves the contents of that block and of no other |
| BufferCache.Bcache.Bwrite | lab2/kernel/bio.c:105-112 | exactly that disk block becomes the buffer's, and no contents change |
| BufferCache.Bcache.Brelse | lab2/kernel/bio.c:114-137 | by an owner whose changes are pinned or written: unlocked, one reference less, at zero at the front of the ring as the most recently freed; no contents change |
| BufferCache.Bcache.MoveToFront | lab2/kernel/bio.c:126-133 | the pointer writes move exactly that buffer |
| BufferCache.Bcache.Bpin | lab2/kernel/bio.c:139-144 | one pin and one reference more, all else the same |
| BufferCache.Bcache.Bunpin | lab2/kernel/bio.c:146-151 | one pin and one reference less, of a buffer that someone still holds and that equals its disk block or stays locked or pinned |
| BufferCache.RecycleViews | lab2/kernel/bio.c:73-88 | giving a clean buffer to another block changes no contents |
| BufferCache.FillViews | lab2/kernel/bio.c:97-101 | reading a block in changes no contents |
| BufferCache.WriteViews | lab2/kernel/bio.c:105-112 | writing a valid buffer out changes no contents |
| BufferCache.ViewUnique | lab2/kernel/bio.c:58-151 | buffers and disk determine the contents of every block |
| BufferCache.UnlinkKeepsOrder | lab2/kernel/bio.c:128-129 | unlinking keeps a doubly linked ring, without that buffer |
| BufferCache.InsertKeepsOrder | lab2/kernel/bio.c:130-133 | inserting at the head keeps one, with the buffer first |
| BufferCache.ToFrontByRecency | lab2/kernel/bio.c:126-133 | the ring stays sorted by when buffers were last freed |
| Malloc.Allocator.Malloc | lab2/user/umalloc.c:63-90 | 0 exactly when no free block fits and sbrk refuses, with nothing but the first call's set-up changed; otherwise a block of the units asked for, disjoint from every live block, whose bytes are untouched; the first fit if one fits; the heap stays in the memory the process owns exactly if one fits, sbrk refuses, or the request is at most 0x7FFFFFE0 |
| Malloc.Allocator.Free | lab2/user/umalloc.c:24-44 | exactly that block leaves the live set and its space is on the list; the others are untouched; the ring stays ordered and coalesced; the next search starts at the free block below it |
| Malloc.Allocator.Morecore | lab2/user/umalloc.c:46-61 | one call of sbrk, with the size as an int; 0 exactly if it refuses, and then nothing changed; otherwise the region gains exactly the units at its result, which the process owns exactly when the int is the size that was meant |
| Malloc.Allocator.Round | lab2/user/umalloc.c:74-89 | one walk around the ring ends, finds a block if and only if one fits, and takes the tail of the first that does from freep's successor on; freep is then the block before that |
| Malloc.Allocator.Search | lab2/user/umalloc.c:74-89 | first fit without a call of sbrk when a block fits; otherwise exactly one call, and failure exactly when it is refused |
| Malloc.Allocator.FindPlace | lab2/user/umalloc.c:30-32 | free's search ends, at the one place where the block belongs, the wrap-around included |
| Malloc.Allocator.TakeAll | lab2/user/umalloc.c:76-77 | the exact fit leaves the list whole |
| Malloc.Allocator.TakeEnd | lab2/user/umalloc.c:78-82 | the tail of a larger block becomes live, the rest stays listed |
| Malloc.Allocator.Store | lab2/user/umalloc.c:63-90 | whatever a user stores in his block, the heap stays in order |
| Malloc.Units | lab2/user/umalloc.c:69 | the least number of units with room for the bytes and a header |
| Malloc.SbrkExact | lab2/user/umalloc.c:46-55 | sbrk gets the intended size if and only if the request is at most 0x7FFFFFE0 |
| Malloc.LargestRequest | lab2/user/umalloc.c:46-58 | for 0xFFFFFFFF bytes sbrk is asked for 16, and the block is entered with more than 4 GB |
| Malloc.Allocator.TakeOver | lab2/user/umalloc.c:57-58 | the new units become a block apart from all others |
| Malloc.FreeWrites | lab2/user/umalloc.c:33-42 | those writes are the list insertion with merges on both sides |
| Malloc.FreeUntouched | lab2/user/umalloc.c:33-42 | they fall outside every block that stays live |
| HeapList.FreeKeeps | lab2/user/umalloc.c:24-44 | freeing keeps the list circular, ordered with one wrap, fully coalesced, and tiling what sbrk gave |
| HeapList.TakeKeeps | lab2/user/umalloc.c:76-77 | so does taking a whole block |
| HeapList.CutKeeps | lab2/user/umalloc.c:78-82 | and cutting one |
| HeapList.GrantKeeps | lab2/user/umalloc.c:46-61 | and memory that sbrk has just granted |
| PageTree.SlotsDistinct | lab2/kernel/riscv.h:347-363 | two page numbers never share a leaf slot |
| PageTree.MappedIsSv39 | lab2/kernel/riscv.h:347-363 | the map of a tree is the one the machine's Sv39 translation finds by bits 30 to 38, 21 to 29 and 12 to 20 of an address |
| PageMaps.UpLeast | lab2/kernel/riscv.h:338 | PGROUNDUP gives the least number of pages with room for a size |
| PageTree.NodeUnique | lab2/kernel/vm.c:85-103 | within one tree a level and a prefix name one page-table page |
| PageTree.WalkDown | lab2/kernel/vm.c:90-93 | a valid entry on the way leads to the node one level down, of the same tree |
| PageTree.WalkEnds | lab2/kernel/vm.c:94-99 | an invalid entry on the way is clear and the page is not mapped |
| PageTree.HangSameMaps | lab2/kernel/vm.c:95-99 | a new page-table page changes no map |
| PageTree.PutMaps | lab2/kernel/vm.c:159 | writing one leaf slot changes one page number of one map, and no other map |
| PageTable.Vm.constructor | lab2/kernel/kalloc.c:26-40 | freerange puts every page on the free list once |
| PageTable.Vm.Kfree | lab2/kernel/kalloc.c:46-63 | exactly that page becomes free |
| PageTable.Vm.Kalloc | lab2/kernel/kalloc.c:68-82 | the head of the free list, which was free, or 0 exactly when the list is empty |
| PageTable.Vm.Walk | lab2/kernel/vm.c:85-103 | the slot of that page number; no map changes whatever is allocated; 0 means unmapped and, if allocating, that fewer than two pages were free |
| PageTable.Vm.Mappages | lab2/kernel/vm.c:142-165 | adds exactly its range; on failure exactly the part before the page it stopped at, when no page is free any more; two pages for each page mapped are always enough |
| PageTable.Vm.Uvmunmap | lab2/kernel/vm.c:170-192 | removes exactly its range and frees exactly the frames mapped there |
| PageTable.Vm.Uvmcreate | lab2/kernel/vm.c:196-205 | a root with an empty map, or 0 exactly when no page is free |
| PageTable.Vm.Uvmalloc | lab2/kernel/vm.c:225-249 | all of the range on fresh zeroed pages; the old map and frames only if fewer than three pages were free for each page asked for |
| PageTable.Vm.Uvmdealloc | lab2/kernel/vm.c:255-267 | exactly the pages between the rounded sizes go |
| PageTable.Vm.Freewalk | lab2/kernel/vm.c:271-287 | exactly the page-table pages at and below are freed, without meeting a leaf |
| PageTable.Vm.Uvmfree | lab2/kernel/vm.c:291-297 | every page of the tree and every frame of [0, sz) is freed once, other maps unchanged |
| PageTable.Vm.CopyPage | lab2/kernel/vm.c:313-326 | one page copied to a fresh frame with the same flags; nothing mapped only if fewer than three pages were free |
| PageTable.Vm.Uvmcopy | lab2/kernel/vm.c:305-333 | equal contents and flags on fresh unshared pages; the child's old map only if fewer than three pages were free for each; the parent untouched |
| PageTable.Vm.ProcPagetable | lab2/kernel/proc.c:176-206 | trampoline and trapframe and nothing else; every page back in its role only if fewer than five were free |
| PageTable.Vm.ProcFreepagetable | lab2/kernel/proc.c:210-216 | every page-table page and frame comes back once, with no panic of uvmunmap or freewalk |
| PageTable.Vm.AllocProc | lab2/kernel/proc.c:124-141 | a trapframe page and a bare page table; every page handed back only if fewer than six were free |
| PageTable.Vm.FreeProc | lab2/kernel/proc.c:155-163 | the trapframe page and the whole tree and its frames come back |
| PageTable.Vm.Fork | lab2/kernel/proc.c:286-297 | a child with equal contents on pages of its own, its trapframe entry its own page and its trampoline entry the shared one; or every page in the role it had, and then fewer than six pages and three for each of the parent's were free |
| PageMaps.RollBack | lab2/kernel/vm.c:236-245 | unmapping what was just filled restores map and frames |
| PageTeardown.HandedBack | lab2/kernel/proc.c:187-204 | tearing down a tree that has just come into being restores every role |
| PageTeardown.NoLeafEntry | lab2/kernel/vm.c:276-283 | freewalk never meets a leaf once the map is empty |
| PageTeardown.RootFreed | lab2/kernel/vm.c:271-287 | afterwards no page has a part in that tree, the others keep theirs |
| PageFork.IsForked | lab2/kernel/proc.c:279-297 | allocproc and uvmcopy together give the child the parent's map on pages of its own, with its own trapframe and the trampoline |
| FileSystem.Fs.Balloc | lab2/kernel/fs.c:65-88 | a zeroed block nobody owned, or 0 exactly when no block is unused; every block it changes is logged |
| FileSystem.Fs.Bfree | lab2/kernel/fs.c:91-105 | exactly that block becomes unused; "freeing free block" is unreachable; every block it changes is logged |
| FileSystem.Fs.Bmap | lab2/kernel/fs.c:382-421 | the recorded block if there is one, with nothing changed; otherwise a fresh zeroed one recorded at that place only; every block it changes is logged |
| FileSystem.Fs.Readi | lab2/kernel/fs.c:471-496 | exactly the slice asked for, cut at size, with 32-bit overflow refused; it allocates nothing |
| FileSystem.Fs.Writei | lab2/kernel/fs.c:505-539 | returning tot it splices exactly tot bytes at off into the file and changes no other; -1 exactly on a hole, overflow or too large a file; short only for a failed copy or a full disk; blocks that come into use are that file's; every block and inode it changes is logged, and no others than the bitmap's, the indirect one and those of the bytes |
| FileSystem.Fs.Itrunc | lab2/kernel/fs.c:425-453 | the blocks of that file and no others become unused; every block and inode it changes is logged, and only bitmap blocks and the inode's |
| FileSystem.Fs.WriteOp | lab2/kernel/file.c:162-167 | one transaction of filewrite logs every block and inode it changes, and at most 7 blocks when the bitmap is one block; it fails exactly on a hole or too large a file, and is short only for a failed copy or a full disk |
| FileSystem.TwoBlocks | lab2/kernel/fs.c:425-453 | a truncation logs at most two blocks when the bitmap is one block |
| FileSystem.Fs.Filewrite | lab2/kernel/file.c:134-181 | the first done bytes are spliced in, the offset moves by done, and it returns n exactly when done is n; it stops short only for an offset beyond the end, too large a file, a full disk, or a chunk that could not all be copied in; blocks that come into use are that file's; it is a sequence of transactions, each of which logs whatever it changes |
| FileSystem.UsedExactly | lab2/kernel/fs.c:65-105 | a block is marked used if and only if it is metadata, some inode's indirect block, or recorded by some inode directly or in its indirect block |
| FileSystem.Fs.Calls | lab2/kernel/fs.c:382-539 | that holds after any sequence of readi, writei, filewrite and itrunc on any files, and an inode that agreed with its inode block still does |
| FileSteps.BlocksDistinct | lab2/kernel/fs.c:382-421 | no two places in files share a block |
| FileSteps.AllocKeeps | lab2/kernel/fs.c:65-88 | a clear bit is an unowned block; marking it keeps bitmap and owners in agreement |
| FileSteps.FreeKeeps | lab2/kernel/fs.c:91-105 | clearing the bit of a block in no file keeps them in agreement |
| FileSteps.LinkDirect | lab2/kernel/fs.c:388-396 | recording a direct block keeps ownership exact |
| FileSteps.LinkSlot | lab2/kernel/fs.c:407-416 | so does recording one in the indirect block |
| FileSteps.LinkIndirect | lab2/kernel/fs.c:399-406 | a zeroed indirect block records nothing yet |
| FileData.ChunkHolds | lab2/kernel/fs.c:517-529 | one turn of writei's loop extends the written prefix by one chunk |
| FileData.SevenBlocks | lab2/kernel/file.c:149-174 | inode, indirect, bitmap and four data blocks are all a chunk can log |
| FileBlocks.SetBit | lab2/kernel/fs.c:74-77 | setting a clear bit changes no other |
| FileBlocks.ClearBit | lab2/kernel/fs.c:99-102 | clearing a set bit changes no other |
| SleepWakeup.StepKeepsInv | lab2/kernel/proc.c:535-604 | every step of sem_up, sem_down, sleep, wakeup and kill keeps the locking and wakeup invariant |
| SleepWakeup.StepNoLostWakeup | lab2/kernel/sem.c:88-116 | no step gives a positive semaphore a sleeper |
| SleepWakeup.StepCommits | lab2/kernel/proc.c:546-552 | a process commits to sleep only by the one step that releases the semaphore's lock in sleep |
| SleepWakeup.LookRouses | lab2/kernel/proc.c:566-580 | a process wakeup has looked at is not asleep on that channel |
| SleepWakeup.WokenBy | lab2/kernel/proc.c:566-604 | a sleeper is woken exactly by a wakeup on its own channel that has come to it, or by a kill of it; sleepers on other channels sleep on |
| SleepRuns.NoSleeperOnPositive | lab2/kernel/sem.c:88-116 | in every run nobody sleeps on a positive semaphore whose lock is free |
| SleepRuns.ValueIsBalance | lab2/kernel/sem.c:88-116 | value = initial + ups - downs, never negative |
| SleepRuns.Progress | lab2/kernel/proc.c:535-604 | the spin locks never deadlock: whoever is neither done nor asleep, or the process he waits for, can step |
| SleepRuns.StuckMeansDoneOrZero | lab2/kernel/sem.c:104-116 | a run that cannot go on has every process done or asleep on a semaphore at zero |
| SleepRuns.StepWorks | lab2/kernel/proc.c:535-580 | every step uses up a measure of remaining work |
| SleepRuns.RunBounded | lab2/kernel/proc.c:535-580 | no interleaving of finite programs is longer than that measure |
| SleepLocks.MutualExclusion | lab2/kernel/sleeplock.c:21-41 | at most one process is ever between acquiresleep and releasesleep |
| SleepLocks.SleeperImpliesLocked | lab2/kernel/sleeplock.c:21-41 | a process asleep on a sleeplock waits for some other process that holds it |
| PingPong.OutputIsPrefix | lab2/user/pingpong.c:5-17 | at every moment of every run the output alternates ping and pong, ping first, within n rounds |
| PingPong.MaximalRunPrintsAll | lab2/user/pingpong.c:26-49 | a run that cannot go on has printed exactly n rounds and both processes are done |
| PingPong.RunsEnd | lab2/user/pingpong.c:26-49 | every run ends within 86 n steps |
| PingPong.TurnsAlternate | lab2/user/pingpong.c:5-17 | a process prints only in its own turn |
| ExitWaitRuns.StepKeepsInv | lab2/kernel/proc.c:279-435 | every step of fork, exit, reparent, wait, wakeup and kill keeps the family and lock invariant |
| ExitWaitRuns.RunKeepsInv | lab2/kernel/proc.c:279-435 | so does every run |
| ExitWaitRuns.ParentAlive | lab2/kernel/proc.c:328-386 | no process has an ended or unused parent, except init which has none |
| ExitWaitRuns.NoLostExit | lab2/kernel/proc.c:388-435 | a parent asleep in wait has a child and no ended one, once wait_lock is free |
| ExitWaitRuns.ReapedOnce | lab2/kernel/proc.c:400-421 | each ended process is taken by wait at most once, and only after it ended |
| ExitWaitRuns.ReapedByParent | lab2/kernel/proc.c:400-421 | an ended slot is freed only by its parent of that moment, which holds wait_lock |
| ExitWaitRuns.Progress | lab2/kernel/proc.c:343-435 | while some process is inside fork, exit, wait or kill and not asleep, one such process can step |
| ExitWaitAnswers.WaitAnswer | lab2/kernel/proc.c:388-435 | wait gives the pid of a child it has just taken, or -1: to a process without children, to a killed one, or because the status cannot be copied out |
| ExitWaitAnswers.WaitCall | lab2/kernel/proc.c:388-435 | over a whole call with anything in between: a pid that wait gives is of a child taken by that call |
| ExitWaitAnswers.TakesChild | lab2/kernel/proc.c:404-421 | what wait takes is a child of its own that has ended, and only wait takes any |
| ExitWaitAnswers.KillAnswer | lab2/kernel/proc.c:585-604 | once kill has its target's lock it can always finish; the target is then killed and not asleep, and no other process is touched |
| ExitWaitAnswers.CallBounded | lab2/kernel/proc.c:279-435 | whatever other processes do, a call of fork, exit, wait or kill is over, or asleep, after a bounded number of its own steps |
| ExitWaitAlone.WaitTakes | lab2/kernel/proc.c:400-421 | undisturbed, wait with an ended child takes the first in the table, gives its pid and changes nothing else |
| ExitWaitAlone.WaitRefuses | lab2/kernel/proc.c:426-430 | undisturbed, wait without an ended child, of a process that has no child or was killed, gives -1 and changes nothing |
| ExitWaitAlone.WaitSleeps | lab2/kernel/proc.c:426-434 | undisturbed, wait of a process not killed with live children only ends asleep, and changes nothing else |
| ExitWaitAlone.KillKills | lab2/kernel/proc.c:585-604 | undisturbed, kill leaves its target marked and not asleep, gives 0, and changes nothing else |
| ExitWaitAlone.ForkMakesChild | lab2/kernel/proc.c:279-326 | undisturbed, fork gives a pid nobody has, the slot it took is a runnable child of the caller with that pid in which fork gives 0, and nothing else changes |
| ExitWaitAlone.ExitLeaves | lab2/kernel/proc.c:328-386 | undisturbed, exit leaves the process ended, its children with init, init awake if there were any and the parent awake, and nothing else changed |
| ExitWaitFamily.KeepsParent | lab2/kernel/proc.c:364-376 | a process that ends has no child left |
| ExitWaitChildren.NewDeadChild | lab2/kernel/proc.c:367-376 | a child that becomes ended under another process is one exit is about to tell its parent of, or one being given to init |
| Scheduler.StepKeepsInv | lab3/kernel/proc.c:447-574 | with the test, the write of the state and the switch as steps of their own, every step keeps locks, states and stacks in agreement |
| Scheduler.OneCpu | lab3/kernel/proc.c:447-519 | from the switch to a process until the switch away from it no second CPU is on its stack, though it is RUNNABLE before it has switched |
| Scheduler.RunningIsOnACpu | lab3/kernel/proc.c:459-470 | a RUNNING process is on a CPU's stack, or the holder of its lock is about to switch to it |
| Scheduler.OffCpu | lab3/kernel/proc.c:544-592 | a process that is woken, freed or given out anew is on no CPU |
| Scheduler.SchedChecks | lab3/kernel/proc.c:489-506 | sched is reached with p->lock held and a state other than RUNNING: its panics on them are unreachable |
| Scheduler.StepNearer | lab3/kernel/proc.c:455-477 | no step takes a CPU's scan further from a waiting process |
| Scheduler.RoundRobin | lab3/kernel/proc.c:447-479 | while a process waits, no CPU picks as many as NPROC others |
| Scheduler.PickedSoon | lab3/kernel/proc.c:447-479 | a waiting process is picked before any CPU has made 9 NPROC steps of its own |
| Scheduler.OnlyPicked | lab3/kernel/proc.c:459-470 | a process stops waiting only by being picked |
| Scheduler.Progress | lab3/kernel/proc.c:447-574 | a CPU that cannot step waits for a p->lock whose holder can |
| Scheduler.SinceAlloc | lab3/kernel/proc.c:109-153 | after any run schedpick is the number of picks since the last allocproc, and priority what the yields and sleeps since then make of the highest |
| Scheduler.QuitPriority | lab3/kernel/proc.c:508-574 | yield lowers a priority by one down to 0, sleep raises it by one up to 2, exit leaves it |
| Scheduler.Yielded | lab3/kernel/proc.c:514-515 | after allocproc and y yields without a sleep the priority is the maximum of 0 and 2 - y |
| Scheduler.Slept | lab3/kernel/proc.c:563-564 | n sleeps without a yield take a priority to the minimum of 2 and itself plus n |
| Scheduler.LastExec | lab3/kernel/proc.c:464-468 | lastexec is the number of ticks when the process was last picked |
| Scheduler.PriorityInRange | lab3/kernel/proc.c:508-574 | a process in use has a priority between 0 and NPRIO - 1 |
| VirtioDriver.Disk.AllocDesc | lab2/kernel/virtio_disk.c:155-166 | the lowest free descriptor, or -1 exactly when none is free |
| VirtioDriver.Disk.FreeChain | lab2/kernel/virtio_disk.c:184-197 | exactly the descriptors of the chain become free, and free_desc's panics are unreachable |
| VirtioDriver.Disk.Alloc3Desc | lab2/kernel/virtio_disk.c:199-213 | three distinct free descriptors, or none taken because fewer were free |
| VirtioDriver.Disk.Submit | lab2/kernel/virtio_disk.c:238-278 | the driver's writes one by one come to the protocol's step of publishing a request, and leave the chain as the device will decode it |
| VirtioDriver.Disk.Reclaim | lab2/kernel/virtio_disk.c:285-291 | walking the chain comes to the protocol's step of retiring the request: its three descriptors free and clear, no others touched |
| VirtioDriver.Disk.Intr | lab2/kernel/virtio_disk.c:294-327 | exactly the buffers the device has reported are let go, across the 16-bit wrap |
| VirtioSteps.StepKeepsInv | lab2/kernel/virtio_disk.c:155-327 | every step of processes, device and interrupt handler keeps the queue invariant |
| VirtioRuns.RunKeepsInv | lab2/kernel/virtio_disk.c:155-327 | so does every run |
| VirtioRuns.Partition | lab2/kernel/virtio_disk.c:199-213 | each descriptor is free, or in the chain of exactly one request in flight |
| VirtioRuns.IntrReleasesItsOwn | lab2/kernel/virtio_disk.c:310-324 | what the handler is told about is a request in flight, and only its buffer is released |
| VirtioRuns.ReturnFreesItsOwn | lab2/kernel/virtio_disk.c:285-291 | the chain freed on return is the three descriptors submitted, none of them free |
| VirtioRuns.CompletedOnce | lab2/kernel/virtio_disk.c:215-292 | a call returns after the device carried out its request exactly once, with the right block, direction and data |
| VirtioRuns.OneByOne | lab2/kernel/virtio_disk.c:215-327 | over any run the disk's blocks are what the requests carried out make of them one after another, and each read gives what the last write before it put there |
| VirtioRuns.WriteCarries | lab2/kernel/virtio_disk.c:215-292 | when a write returns, the device has since the call put on its block what the buffer held at the call |
| VirtioRuns.NoOverwrite | lab2/kernel/virtio_disk.c:266-276 | publishing never overwrites an avail slot the device has yet to read |
| VirtioRuns.TwoInFlight | lab2/kernel/virtio_disk.c:226-236 | fewer than three free descriptors means two requests in flight |
| VirtioRuns.NeverThree | lab2/kernel/virtio_disk.c:226-236 | three requests are never in flight |
| VirtioRuns.SleeperMeansTwo | lab2/kernel/virtio_disk.c:230-236 | a process asleep for descriptors means exactly two requests in flight |
| VirtioRuns.Progress | lab2/kernel/virtio_disk.c:215-327 | while a process is in virtio_disk_rw some step brings a request nearer its end |
| VirtioRuns.FivePerCall | lab2/kernel/virtio_disk.c:215-327 | a call takes exactly five such steps, whatever happens between them |
| VirtioSteps.SlotApart | lab2/kernel/virtio_disk.c:270-276 | ring slots fewer than NUM apart differ, across the wrap |
| VirtioSteps.DecodesRight | lab2/kernel/virtio_disk.c:238-264 | the device reads back from the descriptors exactly the request submitted |
| FatChains.ChainsDisjoint | lab4/esqueleto/fat_table.c:11-27 | chains never cross and never return to a cluster |
| FatChains.Cut | lab4/esqueleto/fat_file.c:477-488 | clearing the tail of a chain keeps all chains and frees exactly the tail |
| FatChains.Appended | lab4/esqueleto/fat_file.c:180-209 | marking a free cluster as the end of a chain adds exactly that chain |
| FatChains.RoundUp | lab4/esqueleto/fat_table.c:46-49 | the least number of clusters with room for the size |
| FatChains.WriteCluster | lab4/esqueleto/fat_file.c:534-585 | writing inside one cluster is writing at one place of the whole chain |
| FatChains.ReadCluster | lab4/esqueleto/fat_file.c:410-450 | reading inside one cluster is reading at one place of the whole chain |
| FatChains.OverSplice | lab4/esqueleto/fat_file.c:534-585 | overwriting the chain splices the file that is its front |
| FatFile.Volume.NextFree | lab4/esqueleto/fat_table.c:51-67 | the first free cluster, when there is one |
| FatFile.Volume.Seek | lab4/esqueleto/fat_table.c:94-106 | the cluster the offset is in, the end mark right after the last, an error exactly beyond that |
| FatFile.Volume.Create | lab4/esqueleto/fat_file.c:180-209 | one cluster that was free becomes the chain of a new empty file, nothing else changes |
| FatFile.Volume.Truncate | lab4/esqueleto/fat_file.c:452-495 | where it frees anything: the chain's prefix up to the offset's cluster, the first offset bytes, all other files; otherwise no change; the size becomes the offset exactly then or if it was that already |
| FatFile.ShortensExactly | lab4/esqueleto/fat_file.c:456-465 | it does anything if and only if the clusters the offset needs have no room for the file as it is |
| FatFile.CutIgnored | lab4/esqueleto/fat_file.c:452-465 | a new file of 300 bytes in clusters of 512 still has 300 after it is cut to 100 |
| FatFile.TruncateIgnored | lab4/esqueleto/fat_file.c:456-465 | that cut is one that frees nothing |
| FatFile.ShortWrite | lab4/esqueleto/fat_file.c:514-585 | of 600 bytes written to a new file in clusters of 512, 512 are |
| FatFile.Volume.Remove | lab4/esqueleto/fat_file.c:496-512 | exactly the file's clusters become free |
| FatFile.Volume.Pread | lab4/esqueleto/fat_file.c:410-450 | the file's bytes at the offset, cut at its size, and all of them unless the device gives fewer than that |
| FatFile.Volume.Pwrite | lab4/esqueleto/fat_file.c:534-585 | the k bytes it returns are spliced in and no other file changes; unless the device fails, k is all of them if and only if they end within the chain there is |
| FatFile.Piece | lab4/esqueleto/fat_table.c:38-44 | what fits in the offset's cluster, and is zero only for nothing |
| FatFile.KeepsOne | lab4/esqueleto/fat_file.c:456-473 | the offset's cluster is one that a truncated file keeps, with room for all before it |
| ShellLexer.LexAt | lab2/user/sh.c:266-309 | every word is a longest non-empty run of plain characters inside the line, >> is one token, and any other symbol is a token of its own |
| ShellLexer.LexOrdered | lab2/user/sh.c:266-309 | tokens come in order and do not overlap |
| ShellLexer.LexCovers | lab2/user/sh.c:266-309 | whatever is not white space is in some token |
| ShellLexer.GetToken | lab2/user/sh.c:266-309 | takes exactly the first token off, or gives NUL exactly at the end |
| ShellLexer.Peek | lab2/user/sh.c:311-321 | whether the next token starts with one of the symbols, with no token passed over |
| ShellGrammar.FindLine | lab2/user/sh.c:345-447 | every derivation of the grammar is read back as the command it stands for, with nothing taken of what follows |
| ShellGrammar.LineSound | lab2/user/sh.c:345-447 | whatever is read has a derivation that spells exactly the tokens consumed |
| ShellGrammar.Grammar | lab2/user/sh.c:328-447 | a line is accepted as a command if and only if a derivation spells it and stands for that command |
| ShellGrammar.Unambiguous | lab2/user/sh.c:328-447 | no line stands for two commands |
| ShellGrammar.ArgumentsInOrder | lab2/user/sh.c:416-447 | argv is the line's words that are not file names, in order, however redirections are mixed in |
| ShellGrammar.WordsOnce | lab2/user/sh.c:328-447 | a command holds each word of the line exactly once |
| ShellRedirs.RedirsOfLine | lab2/user/sh.c:375-398 | each operator of the line, from left to right, has opened the word behind it: < in mode 0x000 on descriptor 0, > in mode 0x601 and >> in mode 0x201 on descriptor 1, nested in the order of the line, and there is no other redirection |
| ShellParser.ParseRedirs | lab2/user/sh.c:375-398 | what the method finds on the line is what the grammar's descent finds on its tokens |
| ShellParser.ParseBlock | lab2/user/sh.c:400-414 | the same for parenthesised blocks |
| ShellParser.ParseExec | lab2/user/sh.c:416-447 | the same for simple commands, with the limit on arguments |
| ShellParser.ParsePipe | lab2/user/sh.c:362-373 | the same for pipes |
| ShellParser.ParseLine | lab2/user/sh.c:345-360 | the same for lists and background commands; the recursion ends on every line |
| ShellParser.NulTerminate | lab2/user/sh.c:449-494 | a NUL right behind every word of the command and no other write |
| ShellParser.WordsSurvive | lab2/user/sh.c:449-494 | no NUL written falls into a word: each is its original slice, as a C string |
| ShellParser.ParseCmd | lab2/user/sh.c:328-343 | panics exactly off the grammar; otherwise gives the line's command with every word a C string equal to its slice and every redirection that of an operator of the line |
| Grep.Matchhere | lab2/user/grep.c:83-95 | true exactly when the pattern's items fit the front of the text |
| Grep.Matchstar | lab2/user/grep.c:97-105 | true exactly when some run of c followed by the rest fits |
| Grep.Match | lab2/user/grep.c:71-81 | true exactly when the pattern's declarative meaning accepts the text, at its front if anchored, somewhere otherwise |
| Grep.AcceptsMany | lab2/user/grep.c:97-105 | c* accepts k characters that all match c, for some k, and then the rest |
| Grep.AcceptsOne | lab2/user/grep.c:92-93 | a literal or . accepts one character and then the rest |
| Grep.LiteralSearch | lab2/user/grep.c:71-81 | a pattern without special characters is found exactly where the text has it, and behind a ^ at the front |
| Grep.WholeLine | lab2/user/grep.c:90-91 | such a word between ^ and $ matches itself and nothing else |
| Grep.AnyCharacters | lab2/user/grep.c:92-93 | n dots between ^ and $ match exactly the texts of n characters |
| Grep.StarWhole | lab2/user/grep.c:97-105 | ^c*$ matches exactly the texts of c's only, and ^.*$ every text |

## Left out

- One device: every block belongs to the device of the log, except in `BufferCache`, which keys on both.
- Two views of a block: in the log modules it is 256 words, in the file modules 1024 bytes; the header's layout is `Blocks.HeadRoundTrip`.
- `LogProtocol` lets bget recycle any unused buffer; the choice of the one freed longest ago is in `BufferCache`.
- `LogRefinement` is for clients that call log_write on each buffer they change before brelse; a write that fails in the middle of a user copy (lab2/kernel/fs.c:522-525) breaks that rule and is not covered.
- begin_op's sleep is a step that is not enabled; the panic "bget: no buffers" stops a run.
- LogEnds.CommitEnds: is about what can happen, not about which process is scheduled, and needs an unpinned buffer, without which a commit cannot end (`LogEnds.CommitEndsExactly`).
- ExitWaitAlone.ExitLeaves: is for an exit that finds every lock free; with others in between, `ExitWaitRuns` and `ExitWaitAnswers` say what holds.
- BufferCache.Bcache.Bget: on "no buffers" it returns -1 and changes nothing, where the source panics. It ends before the sleeplock, which is Acquire, so that other processes' calls can come between.
- BufferCache.Bcache.Bunpin: is for a buffer that some process still holds, as install_trans does; a buffer whose last reference went with a pin would not move to the front.
- BufferCache.Bcache.Bread: is for a block that no other process has locked at the moment; waiting for one is a step of `LogProtocol`.
- Heap addresses count header units, and sbrk may fail or leave gaps but never gives memory below an earlier grant.
- Malloc.Allocator.Malloc: where the process does not own the block it is given, the access to it would fault in the source; the model goes on and says that the heap is no longer valid. Malloc's one loop appears as a round before and a round after morecore.
- Page tables: pages have numbers, and their contents are 512 entries; the TLB, copyin, copyout, the kernel's own table and entries with bits above the flags are not modelled. The panics of walk, mappages and uvmunmap are preconditions, and ProcFreepagetable and Fork show that the kernel meets them for sizes up to TRAPFRAME.
- PageTable.Vm.Mappages: asks for a permission with R, W or X, as every caller gives one; a leaf without them would read as a page-table page.
- PageTable.Vm.Uvmalloc: leaves the page-table pages it created when it fails, as the source does; the map and the frames are restored.
- PageTable.Vm.Fork: is the memory of fork; its process state is in `ExitWait`. How many pages are enough is an upper bound: neighbours share page-table pages, so fewer may do.
- Inodes are kept as records, and of iupdate only the block number logged; directories, link counts, the inode cache and path names are not modelled.
- either_copyin and either_copyout fail without changing anything; a limit parameter says when.
- File methods run as one caller that holds the inode lock; chunks of filewrite by two writers are not interleaved.
- FileSystem.Fs.Filewrite: covers inodes that are open for writing, not pipes and devices; a negative n is not modelled.
- sem_open, sem_close and get_closed_sem are not modelled: semaphores are open during the run, because status is read outside the lock.
- kill goes to its target's slot directly; the scan for the pid is left out.
- Sleep and wakeup: any runnable process may step next; which one is picked is the subject of `Scheduler`.
- In `ExitWait` a scan looks at one process per step, under that process's lock; allocproc takes any unused slot; which copy runs out of memory in fork is a choice.
- Scheduler: wakeup, allocproc, fork and freeproc act on one process under its lock in one step; ticks advance by a step of their own, and tickslock and interrupts are left out.
- virtio: negotiation, MMIO registers and memory barriers are not modelled; the device finishes each request with status 0, in any order.
- VirtioDriver.Disk.Alloc3Desc: says nothing about the contents of descriptors that are free after a failed attempt, because free_desc clears them.
- FAT: dentries, directories and timestamps are left out; writes to the table succeed; offsets are split by recursion instead of shifts and masks, for any cluster size.
- FatFile.Volume.NextFree: needs a free cluster, because the scan of the source has no bound.
- FatFile.Volume.Pwrite: never makes a chain longer, because the branch at lab4/esqueleto/fat_file.c:518 tests for an end mark that the loop has ruled out.
- Shell: commands are values; the arrays of argv that parseexec fills in place under its redirections appear as AddWord on the tree, so the sharing of nodes is not captured. runcmd, getcmd, cd and the depth of the C stack are left out.
- grep's line buffer is not modelled, only its matcher.
- Pipes, exec and ELF loading, traps, the console, the uart, mkfs, lab1's shell, lab4's hierarchy tree and activity log are not part of this model.
