# PennOS: file system, process kernel, scheduler and shell parser

A Dafny model of PennOS, a teaching operating system that runs in one host process. It covers
the PennFAT file system, the process kernel with its scheduler, the thread handshake below it,
the intrusive lists that it is built on, and the command-line parser of its shell. The model
takes the form of the C code: objects with fields and arrays that are updated in place, loops
with invariants, error codes. Functions on values say what these methods compute, and lemmas
say what holds of them in every state and every run.

## What is modelled

**PennFAT** (`DirectoryEntries`, `FatChains`, `BlockContents`, `Volume`, `RootDirectory`, `VolumeSteps`,
`Writing`, `Mkfs`, `PennFat`, `PennFatExamples`, `SpaceAccounting`, `DirectorySpace`, `Views`, `ViewLaws`,
`ViewSteps`, `Runs`, `Copying`, `Streams`, `StreamRuns`).
`FileSystem` has the block-link table, the data blocks and the table of open files. A ghost
`Layout` assigns every block to the directory, to a file or to nobody. `Valid` says that the
layout fits: chains are acyclic, terminated and disjoint, no used block is lost, sizes fit
chain lengths, names are unique, the end marker is where the directory ends, and the cached
entry of every open file is the one on disk. `Files` is the directory as its users see it, a
map from names to contents. Every call says what it does to this map, to the open files and
to the free space. Where the code breaks its own rules, the contract says exactly when:
`IsConsistent` asks whether any layout at all would fit. `PennFatExamples` has a short sequence
of calls on a new volume for each such case. `Views` is what callers see, with a machine on it that
says what every call returns and changes, error codes and space included; `ViewLaws` tells that by
its results, for single calls and for sequences of them, and `ViewSteps` and `Runs`
prove that the file system refines it, call by call and along whole runs.

**Kernel and scheduler** (`Processes`, `KernelSteps`, `KernelCalls`, `Schedule`,
`KernelEffects`, `ProcessKernel`, `KernelRuns`, `LostWakeups`, `WakeupRuns`, `QueueOrder`, `Fairness`,
`Sleeping`, `KernelExamples`, `Starvation`).
Each kernel call is one step on the process table and the queues; `KernelEffects` tells each of them
by the fields and the queues that change. `Inv` says that every process
is in exactly one queue, that the processes form a tree under init, that processes wait for
their own children, and that no process is blocked in a wait that a child has already answered.
`Schedule` is the scheduler as a function: a turn is a timer pass, the choice of a process, the
calls that it makes and the rotation of its queue, and a run is a script of calls, one sequence
per turn. Everything about fairness, sleeping and lost wakeups is about these runs. Any process
may make any call in them; the results that need a condition on the calls say so, and the runs
that break a promise start with init alone.

The init of PennOS waits without blocking (src/shell/penn-shell.c:136), so that it never inherits
a child while it is blocked. The kernel itself does not see to that, nor to processes waiting
for their own children only; the exact conditions say what happens otherwise.

**Handshake** (`Handshake`). The scheduler and the process threads take steps in any order;
nested waiting loops of the signal handler are modelled as a stack. In the handler the signal is
blocked but for the wait; in a thread's own waiting loop it is not, so that a request to continue can
come too early.

**Lists** (`IntrusiveList`, `QueueLists`) and **parser** (`ShellGrammar`, `ShellLines`, `ShellPrinter`, `ShellParser`).
The grammar of command lines is defined on its own; the two passes of the parser and its
memory are proved against it.

## Where code and documentation differ

The model follows the code.

- `k_write` (src/pennfat/fat.c:1033-1092): a write that does not start in the last block of
  the file or in the one behind it goes to the wrong block. The walk makes one step too many
  if there is a block to step to. The gap loop links a block without marking it as used, so
  every second round finds the same block again.
- `k_write` cuts a file off behind the last byte that it wrote (src/pennfat/fat.c:1160, 1172),
  and an early write that comes to the end of the chain asks for block 0xFFFF, which fails
  (src/pennfat/fat.c:1117-1120, 1138-1144).
- `k_write` gives all free blocks to a file whose offset it then does not reach
  (src/pennfat/fat.c:1020-1029, 1072-1092), and returns 0 without telling the directory.
- `k_lseek` (src/pennfat/fat.c:943, 955) tests for overflow with unsigned numbers, so that a
  negative offset counts as a large one: a relative seek never goes back.
- `cp` of a file to itself empties it (src/pennfat/pennfat.c:536-545): the destination is
  truncated before the source is read.
- `first_empty_block` (src/pennfat/fat.c:181-183) scans to a bound that is the length of the
  table only for 32768 entries. On a full volume with another table of fewer than 65535
  entries it reads behind the table; the model returns `overrun`.
- `find_empty_spot_in_root_dir` (src/pennfat/fat.c:450-464) reuses the slots of files that
  are deleted but still open.
- `k_close` on a descriptor that is not in use dereferences a null pointer unless an entry is
  left behind by a refused open (src/pennfat/fat.c:759-769); the model returns `crash`.
- `mkfs` makes one data block too few for 4096-byte blocks and fewer than 32 table blocks
  (src/pennfat/mkfs.c:28).
- `unblock_parents` (src/scheduler/scheduler.c:267-296) wakes one process only, and
  `k_waitpid` records the process waited for before it checks whose child it is.
- `spthread_start` and `spthread_suspend_self` (src/scheduler/spthread.c:234-238, 446-453) set the
  state before they wait: a thread continued in between stays in its wait for one window.
- The scheduler rotates the head of the queue at the end of a quantum even if the process
  that ran has left that queue (src/scheduler/scheduler.c:377-380).

## Model

| member | source | states |
|---|---|---|
| `DirectoryEntries.EntryRoundTrip` | src/pennfat/fat.h:47-57 | a directory entry survives its 64-byte form: decoding the encoding gives the entry back, for every entry |
| `DirectoryEntries.PutEntryAt` | src/pennfat/fat.c:478-496 | storing entry i of a block changes exactly that entry: every index reads back what was stored there or what it held before |
| `DirectoryEntries.EntryLayout` | src/pennfat/fat.h:47-57 | where each field of an entry lies in its 64 bytes, numbers with the low byte first |
| `DirectoryEntries.FilenamesAre` | src/pennfat/fat.c:199-221 | which names are valid, by length and character numbers |
| `DirectoryEntries.StrCpyReadsBack` | src/pennfat/fat.c:669 | copying a valid name into a 32-byte field gives a field that reads as that name and shows no deletion mark |
| `FatChains.ChainsDisjoint` | src/pennfat/fat.c:165-196 | in a consistent table the chains of two files, of the directory and the free blocks are pairwise disjoint |
| `FatChains.ClearedOk` | src/pennfat/fat.c:165-173 | clearing a chain keeps the table consistent without that file; the free blocks grow by exactly its blocks |
| `FatChains.FirstBlockOk` | src/pennfat/fat.c:1020-1029 | giving a free block to a file without blocks keeps the table consistent and uses exactly that block |
| `FatChains.NextBlockOk` | src/pennfat/fat.c:1145-1158 | linking a free block behind the last block of a file keeps every chain acyclic, terminated and separate |
| `FatChains.NextRootBlockOk` | src/pennfat/fat.c:518-540 | the same for a further block of the root directory |
| `SpaceAccounting.SpaceIsConserved` | src/pennfat/fat.c:165-196 | conservation: free blocks, directory blocks and the blocks of all files add up to the number of usable blocks in every consistent table |
| `Volume.FileAt` | src/pennfat/fat.c:351-398 | every live entry is found in the directory map under its name, with the bytes of its chain |
| `Volume.ChangedVolumeOk` | src/pennfat/fat.c:478-551 | frame theorem: a change of one slot and its chain that fits keeps the whole volume consistent (chains, end marker, unique names, sizes) |
| `Volume.ChangedFiles` | src/pennfat/fat.c:478-551 | what such a change does to the directory seen as a map from names to contents |
| `RootDirectory.AppendedInBlock` | src/pennfat/fat.c:501-551 | adding an entry at the end marker moves the marker by one and changes no other entry |
| `RootDirectory.AppendedWithNewBlock` | src/pennfat/fat.c:501-551 | when the last root block is full the directory grows by a block, and still nothing else changes |
| `RootDirectory.FirstReusableUnique` | src/pennfat/fat.c:434-472 | directory order is total: there is only one first place for a new entry |
| `VolumeSteps.Truncated` | src/pennfat/fat.c:701-722 | truncation by k_open empties the file, returns exactly its blocks and keeps volume and table consistent |
| `VolumeSteps.Created` | src/pennfat/fat.c:653-676 | a new entry in a slot that is not open adds an empty file of that name and nothing else |
| `VolumeSteps.Deleted` | src/pennfat/fat.c:759-785 | releasing a deleted file returns its blocks and changes no other file |
| `VolumeSteps.OverwrittenIsIncoherent` | src/pennfat/fat.c:450-464 | reusing the slot of a file that is deleted but open: no layout at all makes the table of open files agree with the directory |
| `Writing.Written` | src/pennfat/fat.c:1163-1179 | the last step of a write: size, first block and contents agree again, and every other file is as before |
| `Writing.ChainUnique` | src/pennfat/fat.c:282-305 | the links of the table determine a chain from its first block |
| `Writing.NoLayoutFits` | src/pennfat/fat.c:1040-1092 | a file whose links make a chain that does not fit its size is inconsistent under every possible assignment of blocks to files |
| `Writing.LandsOnItsBlock` | src/pennfat/fat.c:1033-1092 | exact condition: the block that k_write copies into holds the offset if and only if the offset is in the last block or in the one behind it |
| `Writing.LandsAtOffset` | src/pennfat/fat.c:1031-1092 | in bytes: a write starts at its offset if and only if the condition holds, one block behind it if the offset is earlier, and at least one block before it if the offset is later |
| `Writing.RoomIffReached` | src/pennfat/fat.c:1069-1092 | there is room for a byte if and only if the blocks of the file and the free ones reach the block that is written first |
| `Mkfs.FirstEntryReadsBack` | src/pennfat/fat_utils.c:16-24 | the high byte of the first entry is the number of table blocks and the low byte the configuration; mounting reads both back, the block size as 256 times a power of two |
| `Mkfs.BlockSizeIs` | src/pennfat/fat_utils.c:5-14 | the block size is 256 times two to the power of the configuration for 0 to 4, and 0 for every other one |
| `Mkfs.SizesAre` | src/pennfat/mkfs.c:20-28 | the number of table entries and of data blocks of the image, in these numbers |
| `Mkfs.ImageIsComplete` | src/pennfat/mkfs.c:27-28 | exact condition: the image holds every usable block if and only if the block size is not 4096 or the table has 32 blocks |
| `Mkfs.EmptyVolumeOk` | src/pennfat/mkfs.c:50-83 | the image that mkfs writes is a consistent volume with an empty directory |
| `PennFat.FileSystem.constructor` | src/pennfat/mkfs.c:9-90 | a volume made and mounted has the block size and the table length that its configuration says, is consistent, has no files, no open files, and every block but the first is free |
| `PennFat.FileSystem.FirstEmptyBlock` | src/pennfat/fat.c:179-196 | the least free block if there is one; otherwise 0, and the scan leaves the table exactly if its bound lies outside |
| `PennFat.FileSystem.ClearChain` | src/pennfat/fat.c:165-173 | exactly the entries of the chain become free |
| `PennFat.FileSystem.FindFileInRootDir` | src/pennfat/fat.c:351-398 | the search stays inside the directory and finds a name if and only if the directory map has it |
| `PennFat.FileSystem.FindEmptySpotInRootDir` | src/pennfat/fat.c:434-472 | the first slot in directory order that shows no name |
| `PennFat.FileSystem.WriteNewRootDirEntry` | src/pennfat/fat.c:501-551 | the new entry is stored, everything else is unchanged, and blocks are conserved: one goes to the directory if and only if it is full; the call fails if and only if then none is free, and changes nothing |
| `PennFat.FileSystem.FindFileInGlobalFdTable` | src/pennfat/fat.c:411-427 | an open name is found in the table if and only if it is open |
| `PennFat.FileSystem.EnterInTable` | src/pennfat/fat.c:624-685 | the first half of k_open: the name is looked up or created, the two errors if and only if, the place of a new entry, and the case that reuses an open slot |
| `PennFat.FileSystem.FinishOpen` | src/pennfat/fat.c:687-741 | the second half: permission, reference count, truncation and offset |
| `PennFat.FileSystem.KOpen` | src/pennfat/fat.c:590-741 | what is returned, for every state: one of the six errors, the number of the file if it is open, else the least number not in use; the invariant is kept if and only if no slot of a deleted open file is reused; the directory map changes only by the opened name; space is accounted for |
| `PennFat.FileSystem.KClose` | src/pennfat/fat.c:743-793 | deferred deletion: the blocks of a deleted file return exactly at its last close; nothing else changes |
| `PennFat.FileSystem.KUnlink` | src/pennfat/fat.c:1182-1255 | the name disappears from the directory map and from the permissions; an open file keeps its blocks, bytes and references, a closed one returns its blocks |
| `PennFat.FileSystem.KMv` | src/pennfat/fat.c:1440-1489 | what is returned, for every state: the invalid name, else what opening the source returns once the destination has gone, also when both names are the same; the directory map and the permissions are renamed, an existing destination is replaced, its blocks are free unless it is open; every open file keeps its contents, and its entry changes only for the two names |
| `PennFat.FileSystem.KRead` | src/pennfat/fat.c:795-888 | the result is exactly the slice from the offset, as far as the file reaches; the offset advances by it; all error codes if and only if |
| `PennFat.FileSystem.WalkToOffset` | src/pennfat/fat.c:1040-1067 | the walk ends one block behind that of the offset if there is one, else on the last block, whose rest it zeroes |
| `PennFat.FileSystem.SeekForWrite` | src/pennfat/fat.c:1031-1092 | walk and gap together, for an offset not before the last block: the block that the copy starts in is the last of the chain that results, at the index that the exact condition is about; without enough free blocks all of them go to the file |
| `PennFat.FileSystem.SeekEarly` | src/pennfat/fat.c:1031-1067 | the walk for an offset before the last block: it ends one block behind that of the offset, and changes nothing |
| `PennFat.FileSystem.FillGap` | src/pennfat/fat.c:1069-1092 | g rounds of the gap loop link only half as many blocks, rounded up; the loop gives up if and only if these are not free, and then the file has got all free blocks |
| `PennFat.FileSystem.CopyOut` | src/pennfat/fat.c:1103-1160 | the copy loop from the last block on stores the largest prefix that fits, in as many blocks as the new size needs |
| `PennFat.FileSystem.CopyThrough` | src/pennfat/fat.c:1103-1160 | the copy loop from an earlier block on follows the links: it fails if and only if they end before the bytes do, after overwriting the file to its end; else it cuts the file off in the block written last |
| `PennFat.FileSystem.WriteEarly` | src/pennfat/fat.c:1031-1180 | a write before the last block either overwrites the file one block behind the offset, fails and keeps the volume consistent, or succeeds and leaves a file with one block too many, which no layout fits |
| `PennFat.FileSystem.KWrite` | src/pennfat/fat.c:966-1180 | the result of every write: all errors if and only if, else the largest prefix that fits from where the write starts; contents, directory map, table entry, free space and all other files after a tail write; and for every offset exactly when the volume stays consistent: no other write leaves a layout that fits |
| `PennFat.FileSystem.KLseek` | src/pennfat/fat.c:890-964 | every seek: all errors in order; else the new offset, counted from the start, from the old offset or from the end of the file; it succeeds if and only if it goes forward and stays a 32-bit number, so none goes back; only the offset changes |
| `PennFat.FileSystem.KSetMode` | src/pennfat/fat.c:1491-1512 | all errors, for every mode number; else only the mode of that entry changes, which makes no difference to consistency |
| `PennFat.PermissionsAre` | src/pennfat/fat.c:687-699 | which permissions refuse which way of opening |
| `PennFat.ModeNumbers` | src/pennfat/fat_constants.h:4-6 | the numbers of the three modes |
| `PennFat.MoveResultIs` | src/pennfat/fat.c:1460-1469 | what a move returns, by what opening its source returned |
| `PennFatExamples.ReuseBreaks` | src/pennfat/fat.c:434-472 | on a new volume: open a file, delete it, open another one for writing, and no layout explains the volume |
| `PennFatExamples.FarWriteBreaks` | src/pennfat/fat.c:1069-1092 | on a new volume: one byte written four blocks behind an empty file is stored, and no layout explains the volume |
| `PennFatExamples.EarlyWriteBreaks` | src/pennfat/fat.c:1040-1067 | on a new volume: one byte written at offset 10 of a file of 300 bytes is stored, and no layout explains the volume |
| `PennFatExamples.EarlyWriteFails` | src/pennfat/fat.c:1103-1160 | 300 bytes written there change the file from offset 266 on and return an error |
| `PennFatExamples.StuckWriteBreaks` | src/pennfat/fat.c:1020-1081 | on a volume with one free block: a write to the second block of an empty file returns 0 and leaves a volume that no layout explains |
| `DirectorySpace.ReleasedSpace` | src/pennfat/fat.c:165-173 | releasing the blocks of a file makes exactly as many free as its contents need |
| `DirectorySpace.FullIffCounted` | src/pennfat/fat.c:501-551 | exact condition: the next new entry needs another root block if and only if the files and the end marker take all places of the directory, counted by the directory map |
| `ViewSteps.CodeViewed` | src/pennfat/fat.c:590-741 | what k_open returns depends on nothing but what callers see, for every consistent state |
| `ViewSteps.EnteredViewed` | src/pennfat/fat.c:590-741 | a successful open changes what callers see by the opened file only: its contents, permissions, offset, mode and count, and the space it took or gave back |
| `Views.WrittenReadsBack` | src/pennfat/fat.c:795-1180 | round trip on what callers see: write, seek back, read, and the bytes are those that were written |
| `ViewLaws.OpenAnswers` | src/pennfat/fat.c:590-741 | each of the six errors of an open if and only if, in terms of what callers see |
| `ViewLaws.LeastNumber` | src/pennfat/fat.c:605-645 | the number that an open returns: that of the file if it is open, which is counted once more, else the least that is not in use |
| `ViewLaws.OpenThenRead` | src/pennfat/fat.c:701-741 | what can be read first: the contents from the start, nothing after truncation, nothing at the end in append mode |
| `ViewLaws.OpenCreates` | src/pennfat/fat.c:653-685 | a new file is empty and may be read and written |
| `ViewLaws.SeekPlaces` | src/pennfat/fat.c:925-964 | where each kind of seek counts from |
| `ViewLaws.SeekByNothing` | src/pennfat/fat.c:925-964 | a seek by nothing from the offset changes nothing, and one from the end leaves nothing to be read |
| `ViewLaws.NoSeekBack` | src/pennfat/fat.c:937-959 | a relative seek never goes back |
| `ViewLaws.WriteStores` | src/pennfat/fat.c:1005-1180 | every byte of a file after a write: the old ones up to its start, zeros in a gap, the new ones, and the end behind them |
| `ViewLaws.WriteFits` | src/pennfat/fat.c:1005-1180 | how many bytes a tail write stores, by the space that is left |
| `ViewLaws.EarlyWriteFails` | src/pennfat/fat.c:1005-1180 | every byte of a file after a write that starts before its last block and fails |
| `ViewLaws.UnlinkedIsGone` | src/pennfat/fat.c:1182-1255 | a deleted file cannot be opened to be read, and no other file changes |
| `ViewLaws.UnlinkedReadsOn` | src/pennfat/fat.c:743-793 | who has it open reads on as before, and its blocks are free after the last close |
| `ViewLaws.ClosedUnlinkFrees` | src/pennfat/fat.c:1182-1255 | deleting a file that is not open makes its blocks free at once |
| `ViewLaws.MovedIsThere` | src/pennfat/fat.c:1440-1489 | a moved file has its contents and permissions under the new name and under no other |
| `ViewLaws.MovedToItself` | src/pennfat/fat.c:1440-1489 | a file moved to its own name is deleted |
| `ViewSteps.SeenIsCoherent` | src/pennfat/fat.c:590-1512 | what callers see of any consistent volume is coherent, so that these laws apply |
| `Runs.Execute` | src/pennfat/fat.c:590-1512 | refinement: one sound call keeps the volume consistent, and its result, the bytes read and all that callers see afterwards (contents and permissions by name, for every open file its name, contents, offset, mode, references and permissions, the free blocks and the size of the directory) are those of the machine on views |
| `Runs.Run` | src/pennfat/fat.c:590-1512 | safety over whole runs: any sequence of calls on a new volume goes on up to the first call that would break it, or that leaves its tables; until then the volume is consistent, and every result and every view is the one that the machine on views gives |
| `Runs.ReusesOpenSlot` | src/pennfat/fat.c:434-472 | decides, by the searches that k_open makes, exactly whether an open would put a new file into the place of one that is deleted but open |
| `Runs.CallIsDetermined` | src/pennfat/fat.c:590-1512 | what callers see determines what a call returns and what they see afterwards, error codes, descriptor numbers and space included |
| `Runs.RunIsDetermined` | src/pennfat/fat.c:590-1512 | so the calls alone determine all results and views of a run on a new volume |
| `Runs.RunCoherent` | src/pennfat/fat.c:590-1512 | over every run: an open file that has a name shows what the directory has under it, and no name is open twice |
| `Runs.OpenFileStreams` | src/pennfat/fat.c:795-888 | over every run: the reads through an open file return its contiguous contents from its offset on, whatever happens in between to other files, and even if the file itself is renamed or deleted |
| `Runs.RunStreams` | src/pennfat/fat.c:795-888 | the same for every part of a run on a new volume through which the file stays open |
| `Copying.CopyOnce` | src/pennfat/pennfat.c:555-567 | one round of the cp loop keeps the destination the largest fitting prefix of what has been read; without the permissions, or without bytes, it ends at once and changes no file, with an error exactly if a write was refused |
| `Copying.Cp` | src/pennfat/pennfat.c:533-571 | cp changes no file unless both files can be opened; then it leaves the destination the longest prefix of the source that fits, with the free space counted exactly for an old and for a new destination, or empty if the permissions forbid reading or writing or if both names are the same; all other files are unchanged |
| `Streams.Process.SRead` | src/scheduler/fat_syscalls.c:61-84 | every error; else the slice at the descriptor's own offset, or at that of the global entry if the seek to its own one fails; the result, also a negative one, is added to that offset, and no file changes |
| `Streams.SameBits` | src/scheduler/fat_syscalls.c:78-83 | an offset read as a signed number, and one that has wrapped around, are the same 32 bits |
| `StreamRuns.Perform` | src/scheduler/fat_syscalls.c:61-124 | refinement: any interleaving of reads and appends by any number of processes, through any descriptors on any files, gives the results and the states of a machine in which every descriptor has its own offset |
| `StreamRuns.ReaderStreams` | src/scheduler/fat_syscalls.c:61-84 | in every such interleaving, what a process reads through a descriptor is the contiguous piece of the file between its old and its new offset, whatever other processes and descriptors read and append in between |
| `StreamRuns.AppendsFollow` | src/scheduler/fat_syscalls.c:86-124 | in every such interleaving every open file ends with the stored prefixes of all appends to it, in call order, whoever made them: nothing is lost or overwritten |
| `Streams.Process.SWrite` | src/scheduler/fat_syscalls.c:86-124 | every error; else a write at the offset of the descriptor, or behind the end of the file in append mode: how much is stored, where, when the volume stays consistent, and that all other files and table entries are unchanged |
| `Streams.Process.AppendOne` | src/scheduler/fat_syscalls.c:86-124 | one append: the largest prefix that fits goes behind the file; all other files, entries and descriptors are unchanged |
| `Processes.EntriesAreAll` | src/scheduler/scheduler.c:191-208 | the queues together hold every process exactly once |
| `Processes.MovedOk` | src/scheduler/scheduler.c:421-517 | moving a process between queues keeps every queue equal to the processes of its state and priority |
| `KernelSteps.WakesParent` | src/scheduler/scheduler.c:267-296 | unblock_parents wakes the parent if it waits for the process, and nobody else |
| `KernelSteps.ExitOk` | src/scheduler/scheduler.c:788-827 | exit keeps the invariant: partition into queues, process tree, waits, and no lost wakeup, through reparenting to init |
| `KernelSteps.StopOk` | src/scheduler/scheduler.c:866-887 | stopping keeps the invariant, so that no waiting parent misses it |
| `KernelSteps.ContinueOk` | src/scheduler/scheduler.c:895-925 | continuing keeps the invariant |
| `KernelSteps.ReniceOk` | src/scheduler/scheduler.c:935-977 | changing a priority keeps the invariant |
| `KernelSteps.SleepOk` | src/scheduler/scheduler.c:987-998 | going to sleep keeps the invariant |
| `KernelSteps.ResumeOk` | src/scheduler/scheduler.c:1008-1020 | going back to sleep after an early wakeup keeps the invariant |
| `KernelSteps.CreateOk` | src/scheduler/kernel.c:84-238 | creation adds exactly one process, with a pid that no process has, and keeps the invariant |
| `KernelSteps.WaitAnyOk` | src/scheduler/scheduler.c:654-706 | waiting for any child collects a terminated one, or blocks only if no child has terminated or stopped; exact condition: the invariant is kept if and only if init does not block |
| `KernelSteps.WaitOneOk` | src/scheduler/scheduler.c:706-748 | waiting for one process blocks only if it has not terminated or stopped; exact condition: the invariant is kept if and only if it is a child of the caller, or its pid was given out and no process has it any more, and init does not block |
| `KernelSteps.TickOk` | src/scheduler/scheduler.c:247-265 | a timer pass keeps the invariant |
| `KernelSteps.RotateOk` | src/scheduler/scheduler.c:377-380 | rotating a ready queue keeps the invariant |
| `KernelSteps.AllReachInit` | src/scheduler/scheduler.c:298-307 | from every process the parents lead to init |
| `KernelSteps.OneParent` | src/scheduler/scheduler.c:298-307 | every process but init is on the list of its parent and of no other living process |
| `KernelCalls.CalledSound` | src/scheduler/scheduler.c:650-1020 | every call by any running process, proper or not, keeps the queues a partition and the processes a tree |
| `KernelCalls.CalledOk` | src/scheduler/scheduler.c:650-1020 | exact condition: a call keeps the whole invariant, no lost wakeup included, if and only if it is not a wait for a foreign process or for a pid not given out yet and does not block init |
| `QueueOrder.CallNotBehind` | src/scheduler/scheduler.c:421-517 | a call never moves a process back in a queue that it leaves it in, whatever else it does |
| `KernelEffects.PriorityEffect` | src/scheduler/scheduler.c:935-977 | the whole effect on table and queues: the given priority, and the move of a ready process to the tail of its new queue |
| `KernelEffects.ContinueEffect` | src/scheduler/scheduler.c:895-925 | the whole effect: a stopped process is ready again, at the tail of the queue of its priority |
| `KernelEffects.SleepEffect` | src/scheduler/scheduler.c:987-998 | the whole effect: the caller is blocked with ten tenths per tick |
| `KernelEffects.ResumeEffect` | src/scheduler/scheduler.c:1008-1020 | the whole effect: the caller is blocked with the time that is left, or nothing changes |
| `KernelEffects.CreateEffect` | src/scheduler/kernel.c:84-238 | the whole effect: every field of the new process, its place at the end of its parent's list and at the tail of its queue |
| `KernelEffects.StopEffect` | src/scheduler/scheduler.c:866-887 | the whole effect: the process goes to the stopped queue, and the first in the blocked queue that waits for it, if any, to its ready queue |
| `KernelEffects.ExitEffect` | src/scheduler/scheduler.c:788-827 | the whole effect: the same with the zombie queue, and every child goes to init, behind its own children |
| `KernelEffects.WaitAnyEffect` | src/scheduler/scheduler.c:654-706 | each answer of a wait for any child if and only if: the first child on the list that has terminated or stopped decides, and is collected exactly if it has terminated |
| `KernelEffects.WaitOneEffect` | src/scheduler/scheduler.c:706-748 | each answer of a wait for one process if and only if, and what is left behind |
| `KernelEffects.PassEffect` | src/scheduler/scheduler.c:247-265 | the whole effect of a timer pass: every sleeper up to the first with one tenth left loses a tenth, that one becomes ready, and the pass ends there |
| `KernelEffects.SelectEffect` | src/scheduler/scheduler.c:217-238 | the queue of the slot in the table of 19 if it has a process, else the first one that has, else none |
| `KernelEffects.ChoiceEffect` | src/scheduler/scheduler.c:316-361 | which process a turn chooses: the head of its queue, or the one behind init when there is nobody to collect |
| `KernelEffects.FinishEffect` | src/scheduler/scheduler.c:369-381 | the end of a turn: the head of the queue goes to its tail unless the process has terminated or stopped |
| `KernelEffects.BootEffect` | src/scheduler/kernel.c:84-125 | the start: init alone, its own parent, in the ready queue of its priority |
| `KernelEffects.SlotsSpread` | src/scheduler/scheduler.c:32 | between two quanta of a queue there are at most 2, 4 and 6 others |
| `LostWakeups.ExitLosesNoWakeup` | src/scheduler/scheduler.c:267-307 | exact condition: an exit loses no wakeup if and only if no other process claims it and no waiting init inherits an answered child |
| `LostWakeups.StopLosesNoWakeup` | src/scheduler/scheduler.c:866-887 | exact condition: a stop loses no wakeup if and only if no other process claims that of the parent |
| `WakeupRuns.CallLosesNoWakeup` | src/scheduler/scheduler.c:650-1020 | exact condition for every call of every process: no wakeup is lost if and only if the call is no exit and no stop to which one of these conditions applies |
| `WakeupRuns.RunLosesNoWakeup` | src/scheduler/scheduler.c:316-401 | over every run with any calls, foreign waits and a blocking init included: no process is ever blocked in an answered wait if and only if these conditions apply to no exit and no stop of the run |
| `KernelExamples.ForeignWaitMisses` | src/scheduler/scheduler.c:706-719 | a run from the start of the kernel: a wait for a sibling, refused but remembered, takes the wakeup of the parent that waits for it |
| `KernelExamples.BlockedInitMisses` | src/scheduler/scheduler.c:267-307 | a run from the start of the kernel: an init that blocks inherits a terminated child and is not woken |
| `Fairness.RoundsShare` | src/scheduler/scheduler.c:32 | any 19k consecutive slots of the table hold exactly 9k, 6k and 4k entries of the three queues |
| `Fairness.ProportionalShare` | src/scheduler/scheduler.c:217-238 | in every run of the kernel, while no ready queue is empty, 19k turns are shared exactly 9k : 6k : 4k |
| `Fairness.TurnAdvances` | src/scheduler/scheduler.c:316-381 | a turn with any calls that neither take a waiting process out of its queue nor block or renice their caller never moves it back, and moves it forward when its queue is served |
| `Fairness.BoundedWaiting` | src/scheduler/scheduler.c:316-381 | in every run of the kernel with such calls, a process at position i of queue q runs within 19 * (i / c + 1) turns, where c is the share of the queue |
| `Starvation.Starvation` | src/scheduler/scheduler.c:377-380 | without the condition on callers the bound fails: two processes that wake each other and then wait keep a third one, ready in the same queue, from running for any number of turns |
| `Starvation.ShellStarves` | src/scheduler/scheduler.c:316-381 | such a run exists from the start of the kernel: after six turns the shell is ready and never runs again |
| `Sleeping.TickEffect` | src/scheduler/scheduler.c:247-265 | a pass wakes a sleeper with one tenth left, or takes exactly one off its remaining tenths plus its queue index |
| `Sleeping.SleepBound` | src/scheduler/scheduler.c:247-265 | in every run of the kernel, a sleep of t ticks with i processes before it in the blocked queue is ended by the timer after at least 10t and at most 10t + i passes, unless a call unblocks the process before |
| `Sleeping.SleepReturns` | src/scheduler/sys.c:230-260 | the loop of s_sleep, in every run and with any early wakeups, ends only with no time left and after at least 10t passes that found the process blocked |
| `ProcessKernel.Kernel.constructor` | src/scheduler/kernel.c:84-125 | the kernel with init alone satisfies the invariant |
| `ProcessKernel.Kernel.UnblockParents` | src/scheduler/scheduler.c:267-296 | the scan wakes exactly the first matching process of the blocked queue |
| `ProcessKernel.Kernel.ReparentChildren` | src/scheduler/scheduler.c:298-307 | the children of a process get init as their parent and follow init's own children in order |
| `ProcessKernel.Kernel.RemoveFromActiveQueue` | src/scheduler/scheduler.c:421-479 | the process leaves the one active queue that holds it; false exactly for a zombie |
| `ProcessKernel.Kernel.BlockProcess` | src/scheduler/scheduler.c:488-500 | the process moves from its ready queue to the tail of the blocked queue |
| `ProcessKernel.Kernel.UnblockProcess` | src/scheduler/scheduler.c:509-517 | the process moves from the blocked queue to the tail of its ready queue |
| `ProcessKernel.Kernel.KProcExit` | src/scheduler/scheduler.c:788-827 | the new state is that of the exit step, and queues and tree are right |
| `ProcessKernel.Kernel.KStopProcess` | src/scheduler/scheduler.c:866-887 | the stop step, or the error code of a stopped or terminated process and no change |
| `ProcessKernel.Kernel.KContinueProcess` | src/scheduler/scheduler.c:895-925 | the continue step for a stopped process, else an error code and no change |
| `ProcessKernel.Kernel.KSetPriority` | src/scheduler/scheduler.c:935-977 | an error for any other number than 0, 1 and 2; else exactly the priority of that process changes, and if it was ready with another one its old queue loses it and the new one gets it at its tail |
| `ProcessKernel.Kernel.KSleep` | src/scheduler/scheduler.c:987-998 | an error for no ticks, and else the caller is blocked with ten tenths per tick |
| `ProcessKernel.Kernel.KResumeSleep` | src/scheduler/scheduler.c:1008-1020 | false if and only if no time is left, and else the caller is blocked again |
| `ProcessKernel.Kernel.KProcCreate` | src/scheduler/kernel.c:84-238 | a fresh pid, linked to its parent; queues and tree stay right if and only if the priority is one of the three |
| `ProcessKernel.Kernel.KWaitpid` | src/scheduler/scheduler.c:650-773 | one round of the wait: each of the seven answers if and only if; a terminated child that is the answer leaves the table, the zombie queue and the list of the caller; the pid is recorded, and nothing else changes |
| `ProcessKernel.Kernel.UpdateBlockedProcesses` | src/scheduler/scheduler.c:247-265 | the loop is the timer pass |
| `ProcessKernel.Kernel.SelectNextQueue` | src/scheduler/scheduler.c:217-238 | the queue of the table if it has a process, else the first that has one |
| `ProcessKernel.Kernel.BeginQuantum` | src/scheduler/scheduler.c:316-361 | timer pass, choice of the queue and init passed over, exactly as the schedule model says |
| `ProcessKernel.Kernel.EndQuantum` | src/scheduler/scheduler.c:369-381 | the quantum counts and the head of the queue goes to its tail, unless the process terminated or stopped |
| `KernelRuns.RunKeepsInv` | src/scheduler/scheduler.c:316-401 | safety over whole runs: for every priority of init and every script of proper calls the invariant holds after all turns |
| `KernelRuns.CallGain` | src/scheduler/scheduler.c:650-1020 | a call changes the number of processes only by creation and by collecting a terminated child, by one each |
| `KernelRuns.Run` | src/scheduler/scheduler.c:316-401 | the methods refine the schedule: their machine is the one of the run, the queues hold exactly the processes created less those collected, and the invariant holds if the calls are proper |
| `KernelRuns.SSleep` | src/scheduler/sys.c:230-260 | the loop itself: it returns only with no time left, and then at least 10 passes per tick have found the caller blocked |
| `ShellGrammar.GrammarIsRead` | src/shell/parser.c:47-122 | a sequence of tokens is read as a command if and only if it is a sentence: each stage has an argument, at most one input file in the first stage, at most one output file in the last; and the command is its meaning |
| `ShellGrammar.LineIsParsed` | src/shell/parser.c:47-122 | a line is parsed to a command if and only if the tokens in front of its ampersand, if it has one, are a sentence, and the command is the meaning of that sentence |
| `ShellLines.CommentIsCut` | src/shell/parser.c:24-30 | what is kept of a line is what stands before its first comment sign |
| `ShellLines.CommentIsIgnored` | src/shell/parser.c:24-30 | a comment changes nothing: a line with one is parsed as the line without it |
| `ShellLines.LineIsBody` | src/shell/parser.c:24-46 | surrounding space and a comment do not count, and a final ampersand puts the command into the background |
| `ShellLines.SpaceSeparates` | src/shell/parser.c:52-107 | space of any of the six kinds separates tokens and is none itself |
| `ShellLines.SpaceIs` | src/shell/parser.c:8-14 | which characters are space, and which ones end a word |
| `ShellLines.WordIsToken` | src/shell/parser.c:8-10 | a word by itself is one token |
| `ShellLines.SignsAreTokens` | src/shell/parser.c:52-107 | the signs are tokens wherever they stand, and two signs for output make one token |
| `ShellLines.OffenceIsReported` | src/shell/parser.c:47-122 | each of the seven errors is reported for what it stands for, behind any start of a command line |
| `ShellLines.RejectedIsOffence` | src/shell/parser.c:47-122 | and no line is rejected for any other reason |
| `ShellGrammar.ReadableIffSentence` | src/shell/parser.c:52-107 | the reader accepts the next phrase if and only if some sentence starts that way |
| `ShellParser.SkipWord` | src/shell/parser.c:8-10 | the cursor stops behind the longest word |
| `ShellParser.SkipSpace` | src/shell/parser.c:12-14 | the cursor stops at the first character that is no space, and no token is lost |
| `ShellParser.CheckToken` | src/shell/parser.c:52-107 | one round of the first pass: the right error code, or counts that agree with what has been read |
| `ShellParser.Check` | src/shell/parser.c:47-122 | the first pass returns the error of the line, or the number of stages and arguments of its command |
| `ShellParser.ParsedCommand.TakeWord` | src/shell/parser.c:164-199 | a word is terminated in the copy without touching any string stored before |
| `ShellParser.ParsedCommand.FillToken` | src/shell/parser.c:164-200 | one round of the second pass stores within bounds and keeps everything stored before |
| `ShellParser.ParsedCommand.Fill` | src/shell/parser.c:158-202 | pass agreement: the second pass fills exactly the counted memory, every pointer to a terminated copy of its word and every stage ended by a null pointer |
| `ShellParser.ParseCommand` | src/shell/parser.c:16-210 | the parser returns the error code of the line, or memory that holds its command |
| `ShellPrinter.PrintThenParse` | src/shell/parser.c:214-228 | round trip: parsing the printed form of any command made of words gives that command |
| `ShellPrinter.ParseThenPrint` | src/shell/parser.c:16-228 | canonical form: whatever is parsed can be printed, and its printed form is parsed to the same command |
| `ShellPrinter.PrintedIs` | src/shell/parser.c:214-228 | the text of a command: its parts in order, each followed by one space, the ampersand and the end of the line |
| `ShellPrinter.TextIs` | src/shell/parser.c:214-228 | how each part of a command is printed |
| `Handshake.StepKeepsInv` | src/scheduler/spthread.c:173-472 | every step of the scheduler or of a thread keeps all threads but the served one held in a waiting loop |
| `Handshake.MutualExclusion` | src/scheduler/spthread.c:173-293 | in every interleaving a thread executes its routine only inside its own window, and no two threads do at once |
| `Handshake.SuspendIsAnswered` | src/scheduler/spthread.c:173-228 | when a suspend ends, its thread is held by the handler or has terminated, and no thread executes |
| `Handshake.OwnWaitBegins` | src/scheduler/spthread.c:227-241 | a thread that starts or suspends itself shows the suspended state before it waits, and can be signalled in between |
| `Handshake.HandlerWaitBegins` | src/scheduler/spthread.c:399-412 | a thread suspended by the signal waits in the handler, in which the next signal stays pending until the wait has begun |
| `Handshake.WindowIsLost` | src/scheduler/spthread.c:227-241 | exact condition: a thread that is continued between setting its state and entering its own wait, at its start or in a self-suspension, does not execute before it is suspended again |
| `Handshake.WindowIsUsed` | src/scheduler/spthread.c:243-419 | otherwise it executes as soon as it has taken one step for each of its nested waiting loops, and until then can always take one |
| `Handshake.NextWindowIsUsed` | src/scheduler/spthread.c:227-241 | a lost window is the last one: once the thread has entered its wait it executes in every later window until it suspends itself again |
| `Handshake.FirstWindowLost` | src/scheduler/spthread.c:421-455 | a run of one thread that loses its first window, with nothing possible but the next request to suspend it |
| `IntrusiveList.List.PushHead` | lib/linked_list.h:77-90 | pushing at the head prepends to the sequence of elements |
| `IntrusiveList.List.PushTail` | lib/linked_list.h:97-110 | pushing an element that is not on the list appends it; pushing one that is leaves links that represent no sequence at all |
| `IntrusiveList.List.Remove` | lib/linked_list.h:117-140 | removing cuts the element out and clears its links |
| `IntrusiveList.List.PopHead` | lib/linked_list.h:147-154 | the first element, taken out, or null for an empty list |
| `IntrusiveList.List.PopTail` | lib/linked_list.h:161-168 | the last element, taken out, or null for an empty list |
| `IntrusiveList.List.Clear` | lib/linked_list.h:189-204 | the list is empty and every element has lost its links |
| `IntrusiveList.List.Size` | lib/linked_list.h:211-220 | the number of elements |
| `IntrusiveList.List.Unlink` | src/scheduler/scheduler.c:430-438 | the hand-written unlinking has the same result as the removal |
| `IntrusiveList.List.Find` | src/scheduler/scheduler.c:428-442 | the walk through a queue finds an element if and only if the list has it |
| `QueueLists.RemoveFromActiveQueue` | src/scheduler/scheduler.c:421-479 | refinement: on the lists that hold the elements of the kernel queues, unlinking has the effect of the removal on the queues of pids, and is done exactly for a process that is no zombie |
| `IntrusiveList.List.FindAndUnlink` | src/scheduler/scheduler.c:428-442 | the walk finds an element if and only if the list has it, and then cuts it out |

## Left out

- PennFat.FileSystem.KWrite: a write that starts more than one block behind its file has block indices of 16 bits up to its end; what the code does beyond, by truncation, is not modelled. A negative count, for which the code skips the copying and still stores the offset as the size, is excluded by the type.
- PennFat.FileSystem.KSetMode: a negative descriptor, which the code does not check, is excluded by the type.
- Streams.Process.SWrite: the numbers of the write are in range, as for KWrite.
- Streams.Process.SRead: a negative descriptor, which the code does not check, is excluded by the type; so it is for SWrite.
- StreamRuns.Perform: reads and appends only, and all appends together keep sizes and offsets below 2^31, where a seek still reaches them.
- Copying.Cp: no file is open when the command starts, as every command of that shell closes what it has opened; copying from and to the host is host I/O.
- Copying.CopyOnce: the destination is a file that the command has emptied.
- KernelRuns.Run: kernel calls and scheduler passes are atomic, and a process makes its calls of a turn one after the other; a process preempted inside a kernel call is not modelled.
- ProcessKernel.Kernel.KProcExit: not for a process that has exited before, which puts its element on a list twice (see `IntrusiveList.List.PushTail` for what that does), and not for init; the list of a terminated process is not emptied, as nobody reads it again.
- ProcessKernel.Kernel.KProcCreate: failed allocations.
- Sleeping.SleepBound: sleep time in exact tenths, not in floating point.
- Handshake.MutualExclusion: a failing signal call and the setup handshake of thread creation are folded into the steps; no thread blocks the signal itself, as only the demonstration program does.
- ShellParser.ParseCommand: failed allocations.
- Host I/O: descriptors 0 to 2, the image file, memory mapping and time; the image is an array in memory, and the time is a parameter.
- An image that lacks its last block (see `Mkfs.ImageIsComplete`): the other members have an image that holds every block.
- Listing (k_ls), changing permissions (k_chmod), unmounting and remounting: easy members beside the file operations.
- The write lock over runs: a read-open of a file that is open for writing puts its one table entry into read mode, so that the lock is gone; that a file has one writer is stated for one call only.
- Reference counts against inherited process descriptors: creation copies the table without raising the counts.
- Signals dispatch, terminal control, logging, logout, jobs and the shell loop: plumbing around the kernel steps.
