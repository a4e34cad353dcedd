# PennOS: file store, command line and scheduler, proved

A Dafny model of three parts of PennOS, and proofs of what they promise.

**The PennFAT store.** An array `fat` of chain links and an array of blocks; the
directory is 64-byte entries inside the blocks of chain 1. `Bytes` has the entry
layout at byte level, `FatTable` the chains, `Disk` the invariant that ties table,
blocks and directory together, `DiskSteps`, `FileCopy` and `Views` what each store to
the disk does to it, `FatFs` the routines of `helper.c` as methods that change the
arrays in place, `FatCommands` and `FatOverwrite` the commands, `FatRuns` whole runs.
`FatImport` is the copying from and to host files, and `FatWitness` two images on which
adding a file goes wrong: a vacant slot that cuts a block off, and a full directory.
What users see is `Contents`, a map from names to byte strings. A ghost `Layout` says
which chain belongs to which directory slot; the bytes on disk determine it
(`Views.LayoutUnique`), so "no layout fits" below means that the store is broken, not
that the proof looked at the wrong one.

**The command line.** `ParserModel` says what items a line consists of and what command
they mean, `ParserGrammar` which lines are accepted, `ParserPrint` that printing and
parsing are inverse, `ParserLaws` what each character of a line means, `ParserLayout` how a
command lies in the buffer, and `Parser` has the two scanning passes and the printer, with
pointers as offsets into the text.

**The scheduler.** `KernelModel` has the kernel's state as a value and every call as a
function on it, `KernelInvariant`, `KernelSteps`, `KernelCalls` and `KernelRuns` what
every admissible step keeps, `KernelWaits`, `KernelLimits` and `KernelSleep` the
properties of waiting and sleeping, `KernelLaws` who runs next and what a new process is,
`KernelEffects` what each step does to the process it is about, `KernelTurns` how long a ready process waits, `KernelWitness` runs into the states where
the code goes wrong, and `KernelGuards` and `Kernel` the kernel as a class of process objects and
queues, each method proved against the model. A call that swaps to the scheduler is one
step together with the pass that follows. `LinkedList` has the doubly linked queues as
nodes on the heap, and `LinkedQueues` plays every step of the kernel on them.

`Wrappers` holds what all parts use.

## What the code needs of its callers

Every guard below stands in a `requires` clause or in `KernelRuns.Allowed` and
`FatRuns.Allowed`. The member named with a guard says exactly when the code goes wrong
without it, or what it does then.

- A file system has fewer than 65536 table entries: all configurations but 32 blocks of
  4096 bytes (`FatFs.EntriesBelowEnd`).
- File names have 1 to 31 bytes and do not start with '1', the mark of a deleted slot.
- A directory entry is not put into a deleted last slot of a directory block that has a
  successor: the link to the successor is overwritten and blocks are lost (`Views.CutOff`
  and the last clause of `FatCommands.Touch`; `FatWitness.CutOffExists` has such an image).
- A file is not created while no slot is vacant but a block is free: the data is written, no
  entry is added, nobody reports it, and the blocks are lost. With a block free, some layout
  fits after creating exactly if there is a vacant slot that cuts nothing off
  (`FatCommands.CreateFile`, `FatOverwrite.CatOverwrite`; `FatWitness.FullDirectoryExists`
  has a full directory with blocks free).
- `mv` of a file with data to its own name releases the blocks it still points at
  (`FatCommands.Mv`).
- Overwriting needs input. Without any the file has size 0 and keeps a block; it is tight
  exactly if there was input (`FatOverwrite.CatOverwrite`, `FatCommands.CreateFile`). The
  invariant a later command relies on is then gone. `FatRuns.Allowed` asks for input.
- Creating and appending need enough free blocks. Otherwise the size field counts bytes
  that were never stored (`FatCommands.CreateFile`, `FatCommands.CatAppend`), and the
  concatenation goes on at block number -1, exactly if the source does not fit
  (`FatFs.Store.CopyData`).
- Appending needs a file with data. The concatenation puts a block of zeros first
  (`Views.ConcatDone`), the plain append computes a cursor in front of a block
  (`FatCommands.AppendCursor`).
- One call writes less than 2^31 bytes, since lengths are of type int.
- A process waits for an unchanged process, which nobody waits for, and has never slept
  (`KernelLimits.WaitMarksExactly`); that one is not the sleeper the next pass retires
  (`KernelLimits.WaitExactly`; `KernelWitness.WaitGoesWrong` reaches that state).
- A process waits for its own child. Waiting for another process is well in itself: its
  change wakes the waiter. It goes wrong in a later sweep that frees the waiter and not the
  process waited for, which then has a mark that names nobody (`KernelLimits.WaiterSwept`;
  `KernelWitness.StrangerGoesWrong` has such a run).
- Signals go to processes that are not blocked in `p_waitpid`
  (`KernelLimits.WaiterSignalled`) and not SIGNALED, which are on the zombie queue although
  `find_which_queue` answers NULL for them (`KernelLimits.SignalExactly`); SIGCONT
  to processes whose command is not "sleep_" (`KernelLimits.ContExactly`;
  `KernelWitness.ContGoesWrong` reaches a state where it goes wrong). SIGTERM to a shell is
  not modelled.
- `p_nice` gets a priority in {-1, 0, 1} and a process that is not running
  (`KernelLimits.NiceExactly`).
- No SIGNALED process is an orphan when a pass starts, since `find_which_queue` has no
  queue for it (`KernelLimits.SweepExactly`).

## Model

| member | source | states |
|---|---|---|
| Bytes.CStringOf | src/pennfat/helper.c:120 | a name stored with its NUL in an entry reads back as that name whatever follows it |
| Bytes.PutName | src/pennfat/commands.c:109 | storing a name changes the bytes of the name and its NUL and no other byte of the block; the entry reads back with that name |
| Bytes.PutSize | src/pennfat/commands.c:251 | a size store is truncated to 32 bits and changes no other byte of the block |
| Bytes.PutFirst | src/pennfat/helper.c:256 | a first-block store is truncated to 16 bits and changes no other byte of the block |
| Bytes.MarkDeleted | src/pennfat/commands.c:129 | marking an entry deleted changes its first name byte and no other byte of the block |
| Bytes.EntryBytes | src/pennfat/helper.h:35-43 | which bytes of an entry are its name, size and first block, lowest byte first, and that a first byte 0 or '1' means there is no file |
| FatTable.OwnedExactly | src/pennfat/helper.c:136-145 | a cell is nonzero exactly when its block lies on some chain: nothing leaks, nothing is shared |
| FatTable.ChainUnique | src/pennfat/helper.c:398-404 | table and head determine the chain |
| FatTable.Extend | src/pennfat/helper.c:293-296 | hanging a free block behind a chain keeps the forest and takes one free block |
| FatTable.Release | src/pennfat/helper.c:201-208 | releasing a chain keeps the forest and frees exactly its blocks |
| FatFs.EntriesBelowEnd | src/pennfat/commands.c:33-38 | of the accepted configurations exactly 32 blocks of 4096 bytes has an entry numbered like the end marker |
| FatFs.Formatted | src/pennfat/commands.c:41-47 | a fresh file system satisfies the whole invariant, has no files, and all blocks but the root are free |
| FatFs.Store.Mkfs | src/pennfat/commands.c:22-52 | configuration c gives blocks of 256 * 2^c bytes and numBlocks * 128 * 2^c table cells; the table is the superblock, the end marker of the root and zeros, every block is zero, and the store is well formed and empty |
| FatFs.Doubling | src/pennfat/helper.h:6-10 | every configuration doubles the block size of the one before |
| FatFs.Store.BlockOffsets | src/pennfat/helper.c:164-167 | block 1 lies right behind the table of two-byte cells, and every other block behind the one before |
| FatFs.Store.OffsetDecode | src/pennfat/helper.c:96-107 | the byte offset of any position in a block decodes to that block and position |
| FatFs.Store.SlotDecode | src/pennfat/helper.c:96-107 | the offset of a slot is positive and decodes to the same block and entry |
| FatFs.Store.OffsetEnd | src/pennfat/commands.c:250 | the end-of-file offset modulo the block size is the cursor, or 0 when the last block is full |
| FatFs.Store.AddFatEntry | src/pennfat/helper.c:136-145 | takes the first free cell, or reports -1 when there is none and changes nothing |
| FatFs.Store.RemoveFatEntry | src/pennfat/helper.c:201-208 | clears exactly the cells of the chain |
| FatFs.Store.GetLastBlock | src/pennfat/helper.c:398-404 | finds the last block of the chain |
| FatFs.Store.RemoveData | src/pennfat/helper.c:210-226 | zeroes the chain's blocks, the first from the given byte on, and no other block |
| FatFs.Store.AddData | src/pennfat/helper.c:228-244 | stores as many bytes as fit behind the cursor of one block and changes nothing else |
| FatFs.Store.LocateEndOfFile | src/pennfat/helper.c:147-162 | the offset just behind the file's last byte |
| FatFs.Store.LocateFileEntry | src/pennfat/helper.c:109-134 | the offset of the one live entry with that name, or -1 exactly when there is none |
| DiskSteps.ScanComplete | src/pennfat/helper.c:124-127 | stopping at the first never-used slot misses no file, over any number of directory blocks |
| FatFs.Store.AddRootEntry | src/pennfat/helper.c:169-199 | fills the first vacant slot, and if it was a block's last links a new zero block or the end marker; keeps the layout unless that cuts a successor off |
| DiskSteps.PlaceAdded | src/pennfat/helper.c:187-190 | a directory block added without clearing is an empty directory, because free blocks are zero; without a free block the stored -1 ends the chain |
| Views.CutOff | src/pennfat/helper.c:187-190 | when the slot is the last of a block that has a successor, no layout fits the result, nor after the new file's data is written: blocks are lost |
| Views.Leaked | src/pennfat/helper.c:109-145 | a used cell on no chain of the directory or of an entry fits no layout |
| Views.NoEntry | src/pennfat/commands.c:142-166 | creating with no vacant slot: whatever is written, every old chain and directory block is as it was, and no layout fits, because the new blocks are lost |
| FileCopy.PourStep | src/pennfat/commands.c:151-166 | writing a run of bytes into a chain that no entry names keeps its contents, its free blocks and all other blocks as stated |
| FileCopy.PouredWriting | src/pennfat/commands.c:151-166 | bytes written behind a file's chain without regard to any layout are written behind the file in the layout that has grown with the chain |
| FatWitness.FullDirectoryExists | src/pennfat/helper.c:174-198 | a well formed image with blocks free, no vacant slot and nothing to cut off |
| FatWitness.CutOffExists | src/pennfat/helper.c:187-190 | such images exist: a well formed one with a deleted last slot in a directory block that has a successor |
| Views.LayoutUnique | src/pennfat/helper.c:109-134 | at most one layout fits an image, so chains, names and contents are determined by the bytes on disk |
| FatFs.Store.OpenEmpty | src/pennfat/helper.c:253-258 | an empty file gets the first free block as its first, or -1 exactly when none is free |
| FileCopy.SourceIntact | src/pennfat/helper.c:279-281 | while bytes are copied the source up to the cursor still reads as it did at the start, also when source and destination are one file |
| FileCopy.RunStep | src/pennfat/helper.c:279-289 | copying a run of bytes keeps the two-cursor invariant for every alignment |
| FileCopy.GrowStep | src/pennfat/helper.c:292-301 | taking a new destination block keeps it |
| FileCopy.FinishCopy | src/pennfat/helper.c:282-286 | at any moment the destination is its old bytes followed by the part of the source that has been copied |
| FileCopy.CopyRoom | src/pennfat/helper.c:291-300 | bytes copied and bytes there is still room for add up to the room at the start |
| FileCopy.CopyEnd | src/pennfat/helper.c:291-300 | a copy that asks for a block when none is free has a full last block and a source longer than the room at the start; one that ends has not |
| FatFs.Store.CopyData | src/pennfat/helper.c:246-318 | the destination ends in the source's bytes, every other file is unchanged, and free blocks fall by what the chain grew; it asks for a block that is not there exactly when the source does not fit, with as much of it copied as fits |
| Views.ConcatDone | src/pennfat/commands.c:414-415 | the outcome of one source is the concatenation and a tight file, except that for an empty destination the data lands behind a block of zeros |
| FatCommands.AppendFile | src/pennfat/commands.c:393-420 | one round of the loop has exactly that outcome, nothing changes when the source does not exist, and it runs out of blocks exactly when the source does not fit |
| FatCommands.ConcatAppend | src/pennfat/commands.c:386-421 | contents become those of appending each source in turn up to the first missing one, self-appends included, and exactly ceil((D+S)/B) - ceil(D/B) blocks are taken |
| FatCommands.CatAppend | src/pennfat/commands.c:219-286 | with enough blocks contents become old ++ input, the file stays tight and exactly the needed blocks are taken; otherwise -1, exactly as much of the input as fits is stored, and the file is not tight; no other file changes |
| Views.AppendSpills | src/pennfat/commands.c:270-278 | why: the write stopped with every block in use, after exactly the bytes the last block and the free blocks had room for |
| FatCommands.AppendCursor | src/pennfat/commands.c:230-263 | the write cursor lies inside a block exactly when the file has data; for an empty file it is -1 |
| FatCommands.Rm | src/pennfat/commands.c:116-136 | deletes the name from the map, frees exactly the file's blocks; -1 and no change when there is no such file |
| FatCommands.Touch | src/pennfat/commands.c:76-91 | adds an empty file, changes nothing if it exists or no slot is vacant, and breaks the layout exactly in the cut-off case |
| FatCommands.Mv | src/pennfat/commands.c:94-113 | renames in the map, replacing the target; on its own name harmless exactly when the file is empty, else no layout fits |
| Views.MoveToItself | src/pennfat/commands.c:99-109 | why: the entry comes back pointing at released blocks |
| FatCommands.CreateFile | src/pennfat/commands.c:142-166 | with enough blocks the input becomes a new file in ceil(n/B) blocks and at most one directory block, well formed exactly if there was input; else -1 with nothing changed or the part that fits stored; with a block free, no layout fits the result exactly if no slot is vacant or the vacant one cuts a block off |
| FatOverwrite.Shorten | src/pennfat/commands.c:203-209 | cutting a chain after its first block keeps the forest and frees all other blocks of it |
| FatOverwrite.CutKeeps | src/pennfat/commands.c:203-209 | the cut keeps the layout and every other file |
| FatOverwrite.OverwriteFile | src/pennfat/commands.c:167-217 | with at most one block of input, possibly none, the input is the whole file afterwards and the blocks behind the first are free; the file is tight exactly if there was input |
| FatOverwrite.CatOverwrite | src/pennfat/commands.c:139-217 | both branches: the map gets the input, or what there is space for, under that name; -1 exactly when it does not fit; well formed exactly if it fits and there was input; no layout fits exactly if a new file finds a free block and no place for its entry |
| FatCommands.ExportFile | src/pennfat/commands.c:488-538 | writes exactly the file's bytes |
| FatImport.ImportFile | src/pennfat/commands.c:459-482 | non-empty chunks, the first overwriting or creating the file and the rest appended, become one file with their concatenation |
| FatImport.ImportThenExport | src/pennfat/commands.c:468-536 | importing and exporting returns the concatenation of the chunks, for all lengths and block sizes |
| FatCommands.CreateThenRemove | src/pennfat/commands.c:116-166 | creating and removing a file restores the table and every block outside the directory, unless the entry filled a directory block |
| Views.CreateRemoveIdentity | src/pennfat/commands.c:116-166 | the same about images: equal chains determine every cell |
| FatRuns.Accounted | src/pennfat/helper.c:136-145 | free blocks and the lengths of all chains add up to all blocks |
| FatRuns.Conservation | src/pennfat/helper.c:136-162 | free blocks, directory blocks and ceil(size/B) over all files add up to all blocks |
| FatRuns.Execute | src/pennfat/commands.c:76-421 | every admissible command keeps the invariant and does what it is for, name by name: a removed file is gone, a moved one has its bytes under the new name and nothing under the old, a written one has the input, an appended one its bytes and the input, a concatenation its bytes and those of the sources in order, and no other file changes |
| FatRuns.Commute | src/pennfat/commands.c:76-421 | commands of which neither changes a file the other names can change places |
| FatRuns.MoveBack | src/pennfat/commands.c:94-113 | moving a file to a new name and back changes nothing |
| FatRuns.WrittenTwice | src/pennfat/commands.c:116-286 | writing and appending is writing all at once; overwriting and removing forget what was there |
| FatRuns.ConcatIsAppend | src/pennfat/commands.c:386-421 | concatenating one file is appending its bytes |
| FatRuns.RunChangesOnly | src/pennfat/commands.c:76-421 | over a whole run a file that no command names is as it was |
| FatRuns.Admissible | src/pennfat/commands.c:76-421 | admissibility can be decided from the store before the call |
| FatRuns.RunAll | src/pennfat/commands.c:76-421 | over every run the contents are those of the abstract commands in order, the invariant holds and no block is lost |
| ParserModel.WordLen | src/pennos/parser.c:8-10 | the longest word: no stop character inside, one behind it unless the text ends |
| ParserModel.SkipSpace | src/pennos/parser.c:12-14 | drops exactly the leading white space |
| ParserModel.Uncomment | src/pennos/parser.c:24-30 | the text up to the first '#' |
| ParserModel.TrimEnd | src/pennos/parser.c:34 | drops exactly the trailing white space |
| Parser.SkipWord | src/pennos/parser.c:8-10 | the cursor stops behind the longest word |
| Parser.SkipSpaces | src/pennos/parser.c:12-14 | the cursor stops at the first character that is no space |
| ParserGrammar.FeedIff | src/pennos/parser.c:52-107 | reading items succeeds exactly when each redirection, pipe and '&' is in its place |
| ParserGrammar.AcceptsExactly | src/pennos/parser.c:24-121 | result 0 exactly for a line empty without '&' and for pipelines: a word in every stage, at most one '<' in the first, at most one '>' or '>>' in the last, names after both, no other '&' |
| ParserGrammar.ErrorIsFirst | src/pennos/parser.c:53-102 | an error while scanning is about the first item out of place, and the code says which kind |
| ParserPrint.ItemsPrinted | src/pennos/parser.c:214-228 | printed items read back as the same items, with or without the last space |
| ParserPrint.ParsedWellFormed | src/pennos/parser.c:16-210 | every parsed command has non-empty stages of non-empty words, and no append flag without an output file |
| ParserPrint.PrintParse | src/pennos/parser.c:214-228 | every such command parses back from its printed line |
| ParserPrint.RoundTrip | src/pennos/parser.c:16-228 | for every line that parses, parsing the printed command gives the same command with all flags and names |
| ParserPrint.ParsesExactly | src/pennos/parser.c:16-228 | the parser's results are exactly the well formed commands |
| ParserLaws.WhiteAlike | src/pennos/parser.c:8-14 | lines that differ only in which of the six white-space characters stands where mean the same |
| ParserLaws.TabIsSpace | src/pennos/parser.c:8-14 | a tab, line feed, vertical tab, form feed or carriage return means what a space in its place means |
| ParserLaws.SpaceFree | src/pennos/parser.c:8-107 | more white space next to an operator, '#' or white space, or at an end of the line, makes no difference, except inside ">>" |
| ParserLaws.CommentFree | src/pennos/parser.c:24-30 | what follows a '#' makes no difference |
| ParserLaws.PlainWord | src/pennos/parser.c:9 | the characters a word consists of are all but the operators, '#' and the six white-space characters |
| ParserLaws.LineMeans | src/pennos/parser.c:16-210 | for all words w, y, f, x and g, the commands meant by "w y < f", a pipe and "x >> g &", and by "w < f > g" |
| ParserLaws.ErrorCodes | src/pennos/parser.c:53-121 | for all words a line with each of the seven errors, and its number |
| Parser.CheckToken | src/pennos/parser.c:53-107 | one token of the first pass: the error it causes, or counters and cursor behind it |
| Parser.FirstPass | src/pennos/parser.c:47-122 | the error code of the line, or counts with total_strings + num_commands slots for exactly the words and stage ends, and the append flag |
| ParserLayout.FeedGrows | src/pennos/parser.c:158-202 | no item of the second pass needs a slot or stage beyond those counted |
| ParserLayout.AppendStays | src/pennos/parser.c:175-178 | skipping a second '>' by the flag alone is right, because there is one output redirection at most |
| ParserLayout.LaysEnd | src/pennos/parser.c:173 | a terminating NUL destroys no character of any word and no earlier terminator |
| ParserLayout.CStringIs | src/pennos/parser.c:195-198 | a stored token reads back as exactly that token |
| ParserLayout.StageReads | src/pennos/parser.c:187-189 | the list at a command head reads back as exactly that stage's words |
| Parser.PlaceToken | src/pennos/parser.c:165-199 | one token of the second pass stays inside the buffer and extends what it holds by that token |
| Parser.SecondPass | src/pennos/parser.c:155-202 | the passes agree: all slots and heads are filled, and the buffer reads back as the parsed command |
| Parser.ParseCommand | src/pennos/parser.c:16-210 | the code and the command in memory are those of the model for every line |
| Parser.PrintParsedCommand | src/pennos/parser.c:214-228 | walking the buffer prints the command's canonical line |
| LinkedList.Append | src/pennos/linked_list.c:10-31 | a new node at the front; prev and next stay inverse |
| LinkedList.AppendExistNode | src/pennos/linked_list.c:96-105 | a node from elsewhere at the back; prev and next stay inverse |
| LinkedList.RemoveFromQs | src/pennos/linked_list.c:76-94 | unlinks and detaches the first node with the pid, or returns NULL exactly when there is none; the pids change as the model's Remove |
| LinkedList.QueueSet.Take | src/pennos/linked_list.c:76-94 | with disjoint queues, removing from one leaves all others as they are and the node on none |
| LinkedList.QueueSet.Put | src/pennos/linked_list.c:96-105 | appending a node that is on no queue keeps all queues disjoint and the others unchanged |
| LinkedList.QueueSet.Front | src/pennos/linked_list.c:10-31 | the same for a new node at the front |
| LinkedQueues.Links.Requeue | src/pennos/kernel.c:611-739 | a signal to a queued process moves its node and the waiter's to the queues the model names |
| LinkedQueues.Links.RunTimers | src/pennos/kernel.c:327-379 | the walk along the nodes of the blocked queue does what the model's does |
| LinkedQueues.Links.Pass | src/pennos/kernel.c:135-211 | a whole pass on the nodes follows the model; the process that runs then has its node off all queues |
| LinkedQueues.Links.Step | src/pennos/kernel.c:135-741 | every admissible step changes the nodes as it changes the model's queues |
| LinkedQueues.RunNodes | src/pennos/kernel.c:135-741 | over every run from the start the linked nodes hold exactly the model's queues |
| KernelInvariant.WakePlaced | src/pennos/kernel.c:588-609 | waking a waiter moves exactly it from the blocked queue to the ready queue of its priority |
| KernelSteps.MarkStep | src/pennos/kernel.c:585-609 | marking a process changed and waking its waiter keeps the marks matched |
| KernelSteps.ContKeeps | src/pennos/kernel.c:580-624 | continuing keeps placement, waits and table, and what it does to the table |
| KernelSteps.StopKeeps | src/pennos/kernel.c:625-665 | the same for stopping, running or not |
| KernelSteps.TermKeeps | src/pennos/kernel.c:666-739 | the same for terminating a process other than a shell |
| KernelSteps.RetireKeeps | src/pennos/kernel.c:341-371 | retiring an expired sleeper keeps placement and waits |
| KernelSteps.SleepersKeep | src/pennos/kernel.c:327-379 | so does the walk over all sleepers, if the current process does not wait for the one retired |
| KernelSteps.ReapedKeeps | src/pennos/kernel.c:139-172 | a process whose function returned becomes a zombie and its waiter ready |
| KernelSteps.SweepWhole | src/pennos/kernel.c:758-799 | one orphan sweep removes exactly the processes with some missing ancestor and keeps the others in order |
| KernelSteps.SweptKeeps | src/pennos/kernel.c:758-799 | afterwards nobody is an orphan, and placement and waits hold |
| KernelSteps.PickIs | src/pennos/kernel.c:213-270 | for every draw a ready queue is picked, an empty one only when all three are |
| KernelSteps.DispatchIs | src/pennos/kernel.c:181-210 | the scheduler idles exactly when no process is RUNNING, so the backup node is never used; otherwise the head of a ready queue runs |
| KernelSteps.ScheduleIdles | src/pennos/kernel.c:181-210 | after a whole pass the idle context runs exactly when no process is RUNNING |
| KernelSteps.ScheduleKeeps | src/pennos/kernel.c:135-211 | a whole pass keeps the invariant |
| KernelCalls.SpawnKeeps | src/pennos/user.c:13-24 | spawning keeps the invariant |
| KernelCalls.SleepReady | src/pennos/user.c:308-319 | after p_sleep the state is ready for a pass |
| KernelCalls.WaitReady | src/pennos/user.c:141-150 | so it is after p_waitpid blocks |
| KernelCalls.CollectKeeps | src/pennos/user.c:151-176 | consuming a change, and freeing a dead child, keeps the invariant |
| KernelCalls.NiceKeeps | src/pennos/user.c:279-305 | so does changing a priority |
| KernelRuns.BootSpawns | src/pennos/user.c:397-400 | the start state is what spawning and promoting the shell gives |
| KernelRuns.NextKeeps | src/pennos/kernel.c:135-741 | every admissible step keeps the invariant |
| KernelRuns.ExactlyOnePlace | src/pennos/kernel.c:135-181 | in every reachable state each process runs and is on no queue, or is once on the one queue of its status and priority, each queue being named; queues hold nothing else |
| KernelWaits.WakeStep | src/pennos/kernel.c:588-609 | the step that marks a waited-for process as changed also readies its waiter, and no other step does |
| KernelWaits.WaitsMatch | src/pennos/user.c:141-150 | in every reachable state a mark names a parent on the blocked queue, and each process blocked in p_waitpid has exactly one marked child |
| KernelLimits.ContExactly | src/pennos/kernel.c:611-622 | continuing misplaces a process exactly when it moves one whose command is "sleep_": that one is RUNNING and on the blocked queue only |
| KernelLimits.WaitExactly | src/pennos/user.c:141-150 | waiting keeps the invariant exactly when the child is not the sleeper the next pass retires; else the waiter is queued twice |
| KernelLimits.WaitMarksExactly | src/pennos/user.c:141-150 | blocking leaves marks and waiters matched, and each mark naming a parent, exactly when the process waits for its own unchanged child nobody waits for and has never slept |
| KernelLimits.WaiterSwept | src/pennos/kernel.c:758-799 | a sweep leaves a mark that names nobody exactly when it frees the waiter and not the process waited for, never when that is the waiter's own child |
| KernelLimits.WaiterSignalled | src/pennos/kernel.c:580-739 | a signal to a process blocked in p_waitpid always leaves a child marked with a process that no longer waits |
| KernelLimits.SignalExactly | src/pennos/kernel.c:408-432 | a signal has to take its target off a queue find_which_queue does not know exactly when the target is SIGNALED; the target is on the zombie queue then and on no other, and with that for an answer stopping, terminating and continuing would keep places and marks |
| KernelLimits.NiceExactly | src/pennos/user.c:279-305 | p_nice keeps the invariant exactly for a legal priority of a process that is not running |
| KernelLimits.SweepExactly | src/pennos/kernel.c:758-799 | the sweep looks up the queue of a SIGNALED process exactly when some SIGNALED process is an orphan |
| KernelWitness.ContGoesWrong | src/pennos/kernel.c:611-622 | a run from the start to a state where continuing a "sleep_" process breaks the invariant |
| KernelWitness.WaitGoesWrong | src/pennos/user.c:141-150 | a run from the start to a state where waiting for the expired sleeper breaks the invariant, although all other guards hold |
| KernelWitness.StrangerGoesWrong | src/pennos/user.c:141-150 | a run from the start in which a process waits for one that is not its child, and a later sweep leaves a mark that names nobody |
| KernelSleep.SleepersCloser | src/pennos/kernel.c:327-379 | one walk brings a sleeper at most one pass nearer its earliest end and at least one nearer its latest |
| KernelSleep.SleepBound | src/pennos/kernel.c:327-379 | over every run that neither signals nor frees it, a sleeper with time s and k sleepers ahead is asleep before pass ceil(s/2)+1 and a zombie from pass ceil(s/2)+1+k on |
| KernelLaws.DrawLaw | src/pennos/kernel.c:213-270 | after a pass the process that runs is RUNNING, and for each set of priorities at which somebody wants to run the draw decides which is taken, at 0.4737 and 0.7895, 0.6, 0.3077, 0.6 |
| KernelLaws.PickDraws | src/pennos/kernel.c:213-270 | the same for the queues |
| KernelLaws.HigherOftener | src/pennos/kernel.c:213-270 | for each draw that picks the lower priority, another one picks the next higher |
| KernelLaws.SpawnIs | src/pennos/kernel.c:506-534 | a new process is a ready, unchanged child of the process that runs, at the middle priority, not asleep, waited for by nobody, no shell; all others are as before |
| KernelLaws.FreshChild | src/pennos/user.c:141-150 | a process that has never slept may wait for the child it has just spawned, and is blocked then, whatever the draw |
| KernelLaws.ExitsIff | src/pennos/kernel.c:812-820 | a pass ends the program exactly when no shell is left |
| KernelLaws.NeverExits | src/pennos/kernel.c:135-181 | no run of admissible steps ends the program, and the first shell is always there |
| KernelEffects.PassLaw | src/pennos/kernel.c:135-211 | a pass frees exactly the orphans; who is not blocked stays as it is, except that a process whose function has returned is a zombie with a change to collect |
| KernelEffects.AfterSpawn | src/pennos/user.c:13-24 | the whole table, and the front of the queue, after p_spawn |
| KernelEffects.AfterCollect | src/pennos/user.c:151-176 | a dead child is gone, another one has no change left, nobody else is touched |
| KernelEffects.AfterNice | src/pennos/user.c:279-305 | the process has the new priority, and if ready, stands last on the queue of that priority |
| KernelEffects.AfterSignal | src/pennos/kernel.c:580-739 | each signal to another process: whom it leaves alone, and else the status, the change, the waiter made ready, and nobody else |
| KernelEffects.AfterOwnSignal | src/pennos/kernel.c:651-739 | a process that stops or terminates itself is stopped or terminated, off the processor, with a change to collect |
| KernelEffects.AfterTick | src/pennos/kernel.c:135-211 | the timer takes nothing but the processor from the process that runs, and changes nobody who is not blocked |
| KernelEffects.AfterReturn | src/pennos/kernel.c:139-172 | a process whose function returns is a zombie on the zombie queue with a change to collect |
| KernelEffects.AfterSleep | src/pennos/user.c:308-319 | after p_sleep(t) the process is blocked and its timer at 10t, or 10t - 2 if the walk has come to it |
| KernelEffects.AfterWait | src/pennos/user.c:141-150 | after p_waitpid blocks the process is on the blocked queue, off the processor, and otherwise as before |
| KernelTurns.TurnStep | src/pennos/kernel.c:135-741 | a step brings a ready process to the processor or no further from it: one place forward if its priority is picked, one back if a child is spawned in front of it |
| KernelTurns.TurnComes | src/pennos/kernel.c:135-741 | over every run that leaves it alone, a ready process waits while its priority is picked no more often than processes were in front of it and children were spawned there |
| KernelTurns.RunnerLast | src/pennos/kernel.c:178-180 | a process that a pass takes from the processor stands at the end of its queue |
| Kernel.Kernel.constructor | src/pennos/user.c:397-400 | the process objects and queues at the start |
| Kernel.Kernel.RemoveFromQs | src/pennos/linked_list.c:76-94 | takes the pid out of the queue as the model does |
| Kernel.Kernel.FindPcb | src/pennos/kernel.c:381-392 | finds a pid exactly when it is in the table |
| Kernel.Kernel.FindWhichQueue | src/pennos/kernel.c:408-432 | the queue of a process, none for a SIGNALED one or an unknown priority |
| Kernel.Kernel.CheckSleepingThreads | src/pennos/kernel.c:327-379 | the walk does what the model's does |
| Kernel.Kernel.CheckOrphanChild | src/pennos/kernel.c:758-799 | the sweep does what the model's does, and never asks for the queue of a SIGNALED process |
| Kernel.Kernel.ScheduleNext | src/pennos/kernel.c:213-280 | takes the head of the picked queue, by its own priority |
| Kernel.Kernel.CheckRealIdle | src/pennos/kernel.c:822-833 | the first process marked RUNNING |
| Kernel.Kernel.RunScheduler | src/pennos/kernel.c:135-211 | the pass does what the model's does |
| Kernel.Kernel.PSpawn | src/pennos/user.c:13-24 | a fresh process object at the front of the middle queue and the end of the list |
| Kernel.Kernel.PSleep | src/pennos/user.c:308-319 | blocks the caller and schedules, as the model does |
| Kernel.Kernel.PWaitpid | src/pennos/user.c:130-183 | -1, the collected pid, or blocking, each with the model's effect |
| Kernel.Kernel.PNice | src/pennos/user.c:279-305 | requeues a RUNNING process and sets the priority, or -1 |
| Kernel.Kernel.KProcessKill | src/pennos/kernel.c:578-741 | each signal has the model's effect |
| Kernel.Kernel.Step | src/pennos/kernel.c:135-741 | every admissible step changes objects and queues as the model says and keeps the invariant |

## Left out

- FatCommands.CatAppend: needs a file with data; for an empty file the code writes outside the blocks (FatCommands.AppendCursor).
- FatFs.Store.CopyData: when the blocks run out it stops and says so; the code goes on at block number -1, outside the blocks.
- FatCommands.AppendFile: the same.
- FatCommands.ConcatAppend: a destination with data, and enough free blocks for all sources.
- FatImport.ImportFile: enough free blocks, non-empty chunks, a first chunk of at most one block when the destination exists, and a vacant slot that cuts nothing off when it does not.
- FatImport.ImportThenExport: the same.
- FatFs.Store.Mkfs: not for 32 blocks of 4096 bytes, where a table entry has the number of the end marker (FatFs.EntriesBelowEnd).
- FatOverwrite.CatOverwrite: for an existing file one block of input at most, as for OverwriteFile.
- FatOverwrite.OverwriteFile: one block of input at most; longer input subtracts the running total from the old size and steps past fresh blocks, which gives no file content to state.
- KernelRuns.NextKeeps: only the steps KernelRuns.Allowed admits.
- Kernel.Kernel.PWaitpid: waiting for one pid; the context switch inside its loop splits it into blocking and collecting, two steps.
- Kernel.Kernel.PSleep: times that overflow a signed 32-bit counter.
- KernelModel.Home: a SIGNALED process counts as being on the zombie queue, where its node is; find_which_queue answers NULL, which Kernel.Kernel.FindWhichQueue models.
- Kernel.Kernel.KProcessKill: a target for which find_which_queue has no queue, and stopping or terminating the running process when the pass that follows would look for one.
- LinkedQueues.Links.RunTimers: the timers are counted in the model's value; the nodes along which the walk goes, and their moves, are on the heap.
- LinkedQueues.Links.Pass: statuses and the picked queue are read from the model's value.
- LinkedQueues.Links.Step: the process table stays a value there, and the queues of Kernel.Kernel are sequences of pids; both classes follow the same model, step by step.
- Blocks are elements of an array: mapping them from a host file, page alignment and the file descriptor are not modelled; the superblock is read once at mounting.
- Time stamps, types and permissions, do_ls, do_chmod, do_cat and all messages.
- do_concat_overwrite and cp between two files keep the old size or chain; no content property holds.
- f_read, f_write, f_lseek and the descriptor list: multi-block transfers always follow the same table cell.
- p_waitpid(-1) and its neg_one_wait marks, nohang waits, p_exit, exit_shell and SIGTERM to a shell.
- Allocation failure in parse_command, and names that are not plain bytes; a line has no NUL inside.
- Context switching, timers and signals as asynchronous events: each kernel call is one step.
- The shell loop, its built-ins, job lists and logging.
