# Verified model of the Nachos 3.4 kernel

This project models five parts of Nachos 3.4 in Dafny and proves what they are for. Every statement is about all
inputs, all runs or all reachable states of the model.

* **The file system** (`Bytes`, `DiskGeometry`, `BitMap`, `Storage`, `OpenFile`, `Directory`, `DiskLayout`,
  `DiskSpace`, `FormattedDisk`, `FileSystem`). 1024 sectors of 512 bytes hold a bit map and a directory that are themselves files on the disk
  they describe. The bytes on the disk determine a layout: who owns which sectors. A disk is *formatted* when the
  stored bit map marks exactly the owned sectors, owners are disjoint, and names are distinct. Formatting
  establishes this, every operation keeps it, and seen from outside the sectors are a map from names to byte
  strings.
* **Address spaces** (`Translate`, `AddrSpace`). The loader scatters a program over free frames and translation
  puts it back together; spaces do not affect each other.
* **The kernel** (`Levels`, `Kernel`, `KernelInvariant`, `KernelRuns`, `Processor`, `List`, `Interrupt`). Threads,
  semaphores, the ready list, context switches, and simulated time. `Kernel` is a step machine: a step runs from
  one point where another thread or a handler can come in to the next. `Processor` is the same in the form of the
  source, operations updating fields, and each is proved to be the step. Two protocols run on top of it, in any
  interleaving with anything else: writing to the console (`Console`) and Exec, Join and Exit (`ProcessTable`, `ProcessLocks`, `ProcessCounts`).
* **The multiplier** (`Mult`) of the simulated processor.
* **Disk timing** (`DiskTiming`), with its track buffer.

Where the source takes a value from outside, the model has a parameter: the handlers of interrupts are a script
that says what each one schedules, the registers of user programs are arbitrary, and a program to load is the
bytes of its file and its header.

## What turned out different

* A track-buffer hit does not always mean that the sector has passed completely when the request is made: while
  it is under the head for the first time the rest of it is still counted. `HitBeforePassed` is an instance,
  `HitAlreadyPassed` the exact condition. By the next sector boundary, before the transfer ends, it always has
  (`HitIff`).
* The loader adds up sizes in 32-bit arithmetic. It keeps to its page table exactly when that sum does not wrap
  around, or wraps to more pages than there are clear frames, so that the load is refused (`PagesSufficeIff`);
  `PagesRunOut` is a header for which it does not.
* Reading and writing files form the end of a request in 32-bit arithmetic. The request is cut off at the end of the
  file exactly when that end stays below 2^31 or the request is turned down before (`CountIff`); `CountTooLong` is
  one that is not.
* The comment in filesys.cc limits files to about 3 KB. With the constants of the code the limit is 126 sectors of
  512 bytes, and that is the limit modelled.
* A byte read from memory comes back sign-extended and two bytes do not, so a value that is written and read back
  is the same exactly in the ranges of `WriteReadValue`; `ValuesLost` has one instance for each size.

## Model

| member | source | states |
|---|---|---|
| `BitMaps.SetBit` | nachos-3.4/code/userprog/bitmap.cc:46-51 | or-ing in a one-bit mask turns on that bit of the word and changes no other of the 32 |
| `BitMaps.UnsetBit` | nachos-3.4/code/userprog/bitmap.cc:60-65 | and-ing with the complement turns off that bit and changes no other |
| `BitMaps.BitsAfter` | nachos-3.4/code/userprog/bitmap.cc:46-65 | setting and clearing one bit of a word, by masks made by shifting, changes that bit and no other |
| `BitMaps.BitMap.constructor` | nachos-3.4/code/userprog/bitmap.cc:20-27 | whatever the memory held, the set starts empty |
| `BitMaps.BitMap.Mark` | nachos-3.4/code/userprog/bitmap.cc:46-51 | adds one number to the set the words stand for |
| `BitMaps.BitMap.Clear` | nachos-3.4/code/userprog/bitmap.cc:60-65 | takes one number out of the set |
| `BitMaps.BitMap.Test` | nachos-3.4/code/userprog/bitmap.cc:74-83 | decides membership |
| `BitMaps.BitMap.Find` | nachos-3.4/code/userprog/bitmap.cc:94-103 | returns the smallest number not in the set and adds it, or -1 with nothing changed exactly when the set is full |
| `BitMaps.BitMap.NumClear` | nachos-3.4/code/userprog/bitmap.cc:111-119 | counts the complement of the set |
| `BitMaps.BitMap.FindAgain` | nachos-3.4/code/userprog/bitmap.cc:94-103 | a run of Finds that has returned the k smallest clear bits in increasing order, with more than k clear, succeeds and gives the k+1 smallest |
| `BitMaps.FreeAfter` | nachos-3.4/code/userprog/bitmap.cc:111-119 | after k Finds exactly k fewer bits are clear, so a count of at least k beforehand is enough for k Finds |
| `BitMaps.SmallestUnique` | nachos-3.4/code/userprog/bitmap.cc:94-103 | being the k smallest clear bits in order determines the sequence: no other k Finds are possible |
| `FileSystems.FetchMap` | nachos-3.4/code/userprog/bitmap.cc:148-152 | the words become what is in memory after the file is read over them, for files of any length |
| `FileSystems.StoreMap` | nachos-3.4/code/userprog/bitmap.cc:161-165 | the file starts with the bytes of the words, as far as it goes, and no sector outside the file changes |
| `FileSystems.MapRoundTrip` | nachos-3.4/code/userprog/bitmap.cc:148-165 | a map written back and fetched into any other map of that size is the same set |
| `Storage.HeaderRoundTrip` | nachos-3.4/code/filesys/filehdr.cc:77-94 | a header survives being written to one sector and read back |
| `Storage.HeaderLayout` | nachos-3.4/code/filesys/filehdr.h:60-62 | on the disk a header is the size, the number of sectors, and the sectors in the order of the file, four bytes each |
| `Storage.FileHeader.Allocate` | nachos-3.4/code/filesys/filehdr.cc:41-52 | succeeds exactly when enough sectors are clear; then the file has the smallest clear sectors in order, all distinct, and just those become marked; on failure the map is unchanged |
| `Storage.FileHeader.Deallocate` | nachos-3.4/code/filesys/filehdr.cc:61-68 | unmarks exactly the data sectors; the source assertion that each is still marked never fails |
| `Storage.FileHeader.FetchFrom` | nachos-3.4/code/filesys/filehdr.cc:77-81 | the fields are those encoded in the sector |
| `Storage.FileHeader.WriteBack` | nachos-3.4/code/filesys/filehdr.cc:90-94 | one sector holds the encoded header, the others are unchanged |
| `Storage.DataAt` | nachos-3.4/code/filesys/filehdr.cc:106-110 | byte k of the file is byte k mod 512 of the sector that ByteToSector gives for k |
| `Storage.ContentsFrame` | nachos-3.4/code/filesys/filehdr.cc:106-110 | the contents of a file depend on its own data sectors only |
| `OpenFiles.OpenFile.constructor` | nachos-3.4/code/filesys/openfile.cc:30-35 | the header in memory is the one on the disk, and reading starts at 0 |
| `OpenFiles.CountIff` | nachos-3.4/code/filesys/openfile.cc:130-133 | the number of bytes the code transfers, with the end of the request formed in 32 bits, is the number the file has in that range exactly if the end stays below 2^31 or the request is turned down first |
| `OpenFiles.CountTooLong` | nachos-3.4/code/filesys/openfile.cc:130-133 | an input where it is not: 2147483647 bytes from position 1 of a file of two |
| `OpenFiles.OpenFile.ReadAt` | nachos-3.4/code/filesys/openfile.cc:123-151 | for every request that CountIff allows, at any alignment, returns exactly the requested bytes of the file, cut off at its end, and none past it |
| `OpenFiles.OpenFile.WriteAt` | nachos-3.4/code/filesys/openfile.cc:153-193 | for every request that CountIff allows, at any alignment, replaces exactly the clamped range of the contents, through whole-sector reads and writes, and changes no sector outside the file |
| `OpenFiles.OpenFile.FillBuffer` | nachos-3.4/code/filesys/openfile.cc:172-182 | the buffer agrees with the file everywhere outside the range to be written: the two partial sectors that are read in are enough |
| `OpenFiles.OpenFile.Flush` | nachos-3.4/code/filesys/openfile.cc:187-190 | each sector of the range is replaced by its part of the buffer, and no other |
| `OpenFiles.FlushedContents` | nachos-3.4/code/filesys/openfile.cc:177-190 | a flushed buffer that agrees with the file outside the range leaves the contents spliced at just that range, although bytes past the end of the file may change |
| `OpenFiles.OpenFile.Read` | nachos-3.4/code/filesys/openfile.cc:81-87 | reads at the position and advances it by what was read |
| `OpenFiles.OpenFile.Write` | nachos-3.4/code/filesys/openfile.cc:89-95 | writes at the position and advances it by what was written |
| `OpenFiles.OverwriteChunks` | nachos-3.4/code/filesys/openfile.cc:153-193 | two consecutive writes of any sizes, clamped or not, leave what one write of the two pieces leaves |
| `OpenFiles.OverwriteAllChunks` | nachos-3.4/code/filesys/openfile.cc:89-95 | so do any number of consecutive writes |
| `Directories.StrnEqualKeys` | nachos-3.4/code/filesys/directory.cc:94 | comparing with a length limit is equality of the two strings up to the limit or the terminator |
| `Directories.EntryMatches` | nachos-3.4/code/filesys/directory.cc:90-97 | a stored entry matches a name exactly when the first nine characters agree |
| `Directories.Filled` | nachos-3.4/code/filesys/directory.cc:136-140 | what is copied into an entry reads back as the truncated name and the sector |
| `Directories.EntryLayout` | nachos-3.4/code/filesys/directory.h:32-39 | on the disk an entry is the flag, the sector at byte 4 and the name at byte 8, cut to nine characters or padded with zeros |
| `Directories.EntriesRoundTrip` | nachos-3.4/code/filesys/directory.cc:63-80 | a table survives being laid out as file bytes and read back |
| `Directories.Directory.constructor` | nachos-3.4/code/filesys/directory.cc:38-44 | no entry is in use, whatever the memory held |
| `Directories.Directory.FetchFrom` | nachos-3.4/code/filesys/directory.cc:63-67 | the table becomes what is in memory after the file is read over it |
| `Directories.Directory.WriteBack` | nachos-3.4/code/filesys/directory.cc:76-80 | the file starts with the bytes of the table, as far as it goes, and no sector outside the file changes |
| `Directories.Directory.FindIndex` | nachos-3.4/code/filesys/directory.cc:90-97 | the first entry in use with the truncated name, or -1 exactly when there is none |
| `Directories.Directory.Find` | nachos-3.4/code/filesys/directory.cc:108-116 | the sector of such an entry, or -1 |
| `Directories.Directory.Add` | nachos-3.4/code/filesys/directory.cc:129-143 | succeeds exactly when the truncated name is absent and a slot is free; then the first free slot is filled and the others are untouched |
| `Directories.Directory.Remove` | nachos-3.4/code/filesys/directory.cc:153-162 | succeeds exactly when the name is listed; then one such entry is freed and the others are untouched |
| `DiskLayout.PutConsistent` | nachos-3.4/code/filesys/filesys.cc:190-208 | adding an owner with clear sectors and a new name keeps: all owners disjoint, names distinct, and the marked sectors exactly the owned ones |
| `DiskLayout.DropConsistent` | nachos-3.4/code/filesys/filesys.cc:297-305 | so does taking an owner and its sectors out |
| `DiskLayout.DropPut` | nachos-3.4/code/filesys/filesys.cc:174-310 | dropping what was added gives back the same layout and the same set of marked sectors |
| `DiskSpace.Accounts` | nachos-3.4/code/filesys/filesys.cc:190-200 | on a consistent layout the numbers of clear sectors and of free slots follow from the lengths of the files alone: each takes one sector and its data sectors, and the two metadata files what is left |
| `FormattedDisk.CanCreateIff` | nachos-3.4/code/filesys/filesys.cc:185-203 | whether Create succeeds can be told from the map from names to byte strings: the truncated name is absent, there are fewer than 10 files, and 1 + ceil(size/512) sectors fit beside theirs into 1020 |
| `FormattedDisk.CreatedFiles` | nachos-3.4/code/filesys/filesys.cc:204-208 | after the writes of a successful Create the disk is consistent again: the stored bit map marks exactly the owned sectors, no sector has two owners, and the file map has the new name and is otherwise the same |
| `FormattedDisk.RemovedFiles` | nachos-3.4/code/filesys/filesys.cc:294-305 | after the writes of a successful Remove the disk is consistent and the file map has lost just that name |
| `FormattedDisk.CreateRemove` | nachos-3.4/code/filesys/filesys.cc:174-310 | Create and then Remove of the same name restores the marked sectors and the whole file map |
| `FormattedDisk.WrittenFiles` | nachos-3.4/code/filesys/openfile.cc:153-193 | a write to one listed file changes that entry of the file map only, and neither the layout nor the bit map nor the directory |
| `FormattedDisk.MakeRefines` | nachos-3.4/code/filesys/filesys.cc:174-215 | on the disk and on the map from names to byte strings alike, Create adds one name with that many bytes exactly when it can, and otherwise changes nothing |
| `FormattedDisk.UnlinkRefines` | nachos-3.4/code/filesys/filesys.cc:279-310 | Remove takes one name out of the map |
| `FormattedDisk.FillRefines` | nachos-3.4/code/filesys/openfile.cc:153-193 | a write to a listed file overwrites the clamped range of its byte string |
| `FormattedDisk.StepRefines` | nachos-3.4/code/filesys/filesys.cc:174-310 | each operation on sectors keeps the disk consistent and is an operation on the map from names to byte strings |
| `FormattedDisk.RunRefines` | nachos-3.4/code/filesys/filesys.cc:80-310 | over every sequence of Create, Remove and writes, failing ones included, the disk stays consistent and each step is the one the map alone determines, up to the bytes of a new file |
| `FileSystems.FormattedEmpty` | nachos-3.4/code/filesys/filesys.cc:91-126 | two headers, a bit map marking exactly the metadata, and an empty table make a consistent disk with no files |
| `FileSystems.AllocateRoots` | nachos-3.4/code/filesys/filesys.cc:84-100 | both assertions on Allocate hold, and the marked sectors are 0, 1 and the data sectors of the two files, pairwise disjoint |
| `FileSystems.StoreRoots` | nachos-3.4/code/filesys/filesys.cc:107-126 | writing headers, opening and writing the two files leaves a consistent disk with no files |
| `FileSystems.FileSystem.Format` | nachos-3.4/code/filesys/filesys.cc:83-127 | whatever was on the disk, formatting leaves a consistent disk with no files |
| `FileSystems.FileSystem.Attach` | nachos-3.4/code/filesys/filesys.cc:137-142 | opening the two files of a consistent disk is enough to go on |
| `FileSystems.FileSystem.Create` | nachos-3.4/code/filesys/filesys.cc:174-215 | true exactly when the truncated name is absent, a slot is free and 1 + ceil(size/512) sectors are clear, as told from the disk and from the map alike; false leaves every sector unchanged; the disk makes the step that the runs are made of |
| `FileSystems.FileSystem.Open` | nachos-3.4/code/filesys/filesys.cc:227-241 | a file is returned exactly for the names in the file map, with the contents the map gives |
| `FileSystems.FileSystem.Remove` | nachos-3.4/code/filesys/filesys.cc:279-310 | true exactly for the names in the file map; false leaves every sector unchanged; the disk makes the step that the runs are made of |
| `FileSystems.WriteListed` | nachos-3.4/code/filesys/openfile.cc:153-193 | a write through an opened file is a step of the runs: its range of its own contents changes and the file system stays consistent |
| `Multiplier.Mult` | nachos-3.4/code/machine/mipssim.cc:635-692 | for all 32-bit operands hi:lo is the exact 64-bit product, signed or unsigned, including the most negative value, zero and the early exit |
| `Multiplier.Accumulate` | nachos-3.4/code/machine/mipssim.cc:659-678 | the shift-and-add loop gives the exact product of the magnitudes: the carry out of lo and the bits moved into bHi are all accounted for |
| `Multiplier.NegateDouble` | nachos-3.4/code/machine/mipssim.cc:680-688 | complementing both words and adding one with carry negates the double word |
| `DiskTiming.FirstPass` | nachos-3.4/code/machine/disk.cc:202-209 | ModuloDiff is the distance to the first later slot holding the sector, even when the slot number is past one turn |
| `DiskTiming.UnbufferedFinish` | nachos-3.4/code/machine/disk.cc:232-253 | without the buffer a request ends on a sector boundary, at the very first moment the sector has passed completely since the seek ended, or since the request if there is none |
| `DiskTiming.HitIff` | nachos-3.4/code/machine/disk.cc:241-246 | the track-buffer test says exactly that the sector has passed completely since the head reached the track, by the next sector boundary |
| `DiskTiming.HitAlreadyPassed` | nachos-3.4/code/machine/disk.cc:241-246 | exactly when a hit means that the sector has passed completely already at the time of the request: unless it is under the head for the first time |
| `DiskTiming.HitBeforePassed` | nachos-3.4/code/machine/disk.cc:241-246 | an input where it has not: reading sector 0 at tick 1 |
| `DiskTiming.LatencyBounds` | nachos-3.4/code/machine/disk.cc:232-253 | every latency lies between 500 and 31999 ticks |
| `DiskTiming.MaxLatencyReached` | nachos-3.4/code/machine/disk.cc:232-253 | the upper bound is reached |
| `DiskTiming.HeadInvariant` | nachos-3.4/code/machine/disk.cc:261-271 | over any run lastSector is the sector of the last request, and bufferInit the first sector boundary since the head is on its track, where it came with the last request that changed tracks |
| `DiskTiming.RunTiming` | nachos-3.4/code/machine/disk.cc:179-271 | over any run of one-at-a-time requests, told from their times and sectors alone: the next request hits the buffer exactly if it is a read on the track of the last one, of a sector that has passed since the head came there; it then takes 500 ticks, and otherwise ends at the first moment the sector has passed completely after 500 ticks for each track crossed |
| `DiskTiming.Disk.Start` | nachos-3.4/code/machine/disk.cc:115-153 | a request made when the last has finished returns a latency that is right in that sense, and leaves the head on its sector |
| `Lists.InsertSorted` | nachos-3.4/code/threads/list.cc:178-202 | inserting into a sorted list leaves it sorted |
| `Lists.InsertMultiset` | nachos-3.4/code/threads/list.cc:178-202 | inserting loses and duplicates nothing |
| `Lists.List.SortedInsert` | nachos-3.4/code/threads/list.cc:178-202 | walking and relinking the cells inserts the item after all entries with a key not larger, for the empty list, the front, the middle and the end |
| `Lists.List.SortedRemove` | nachos-3.4/code/threads/list.cc:217-237 | unlinks the first cell and returns its item and key, or nothing for the empty list |
| `Lists.List.Append` | nachos-3.4/code/threads/list.cc:76-88 | links a cell with key 0 at the end |
| `Interrupts.AccountedSchedule` | nachos-3.4/code/machine/interrupt.cc:264-275 | scheduling strictly later keeps the list sorted, conserves interrupts and makes nothing more due |
| `Interrupts.AccountedPutBack` | nachos-3.4/code/machine/interrupt.cc:300-319 | taking the first entry off and inserting it again keeps all of that |
| `Interrupts.AccountedFire` | nachos-3.4/code/machine/interrupt.cc:290-336 | firing the first entry keeps all of that, is not early, and fired due times do not go down |
| `Interrupts.ExactlyOnce` | nachos-3.4/code/machine/interrupt.cc:264-336 | an interrupt that was scheduled is pending or fired, exactly once, and no other is |
| `Interrupts.Interrupt.Schedule` | nachos-3.4/code/machine/interrupt.cc:264-275 | one more interrupt is accounted for, due at now plus the delay, and the invariant holds |
| `Interrupts.Interrupt.CheckIfDue` | nachos-3.4/code/machine/interrupt.cc:290-336 | fires at most one interrupt, the earliest and never early, with what its handler schedules, keeps the invariant with its tick count, and without advancing the clock it either lowers the number due or leaves nothing due |
| `Interrupts.Interrupt.Drain` | nachos-3.4/code/machine/interrupt.cc:169-170 | the loop ends whatever the handlers schedule, with time standing still and nothing due left pending |
| `Interrupts.Interrupt.OneTick` | nachos-3.4/code/machine/interrupt.cc:150-179 | time goes up by one tick of its mode, everything pending is then strictly later, the tick is charged to the mode it was spent in, and the current thread is to yield exactly when some handler asked for it |
| `Interrupts.Interrupt.SetLevel` | nachos-3.4/code/machine/interrupt.cc:114-127 | time advances, by one tick of the mode, exactly when interrupts go from off to on; then nothing due is left and the thread is to yield exactly when a handler asked for it; otherwise nothing but the level changes |
| `Interrupts.Interrupt.Idle` | nachos-3.4/code/machine/interrupt.cc:210-234 | the clock goes on to the earliest interrupt; halts exactly when nothing but a single time slice is pending; otherwise that interrupt fires first and nothing due is left but at most one time slice |
| `Translation.TlbAgrees` | nachos-3.4/code/machine/translate.cc:196-254 | if valid TLB entries copy the page table, the TLB gives the address or exception of the page table, or a page fault because no entry matches |
| `Translation.TranslationCases` | nachos-3.4/code/machine/translate.cc:196-254 | which exception an address raises through the page table, in the order of precedence, and which physical address it gives otherwise, in numbers |
| `Translation.LittleEnd` | nachos-3.4/code/machine/translate.cc:34-65 | byte k of a value in memory is worth 256 to the k, whatever the size of the access |
| `Translation.WithinFrame` | nachos-3.4/code/machine/translate.cc:196-254 | an aligned access of 1, 2 or 4 bytes stays in one frame and in memory, and each of its bytes translates to the byte accessed |
| `Translation.WriteReadValue` | nachos-3.4/code/machine/translate.cc:100-169 | the low bytes that were written are read back, and the value itself exactly if it is from -128 to 127 for one byte or from 0 to 65535 for two; four bytes always give it |
| `Translation.ValuesLost` | nachos-3.4/code/machine/translate.cc:100-169 | values that do not come back: 128 as one byte is read as -128, and -1 as two bytes as 65535 |
| `Translation.Machine.WriteThenRead` | nachos-3.4/code/machine/translate.cc:87-169 | WriteMem and then ReadMem of the same address, where the write succeeds, reads at the same place and gives back the value in exactly those cases |
| `Translation.WriteThenBytes` | nachos-3.4/code/machine/translate.cc:137-169 | after a write each virtual byte of the range reads as its byte of the value |
| `Translation.WriteDisturbsNoOther` | nachos-3.4/code/machine/translate.cc:137-169 | with distinct frames no other virtual byte of the space changes |
| `Translation.WriteIsolated` | nachos-3.4/code/machine/translate.cc:137-169 | no byte of a space with other frames changes |
| `Translation.BitsDoNotMatter` | nachos-3.4/code/machine/translate.cc:248-252 | the use and dirty bits that translation sets change no later translation |
| `Translation.BitsRecord` | nachos-3.4/code/machine/translate.cc:248-252 | after any run of accesses a use bit is set exactly if it was or an access has reached the page, and a dirty bit exactly if it was or a write has |
| `Translation.Machine.Translate` | nachos-3.4/code/machine/translate.cc:186-255 | the result is that of the page table or the TLB, whichever is there, exceptions in the order of the code; the use bit of the entry used is set, its dirty bit by a write, and nothing else changes |
| `Translation.Machine.ReadMem` | nachos-3.4/code/machine/translate.cc:87-122 | reads the bytes at the translated address, or raises |
| `Translation.Machine.WriteMem` | nachos-3.4/code/machine/translate.cc:137-169 | replaces exactly the bytes at the translated address, or raises with memory unchanged |
| `AddrSpaces.PagesSufficeIff` | nachos-3.4/code/userprog/addrspace.cc:89-106 | the load is refused, or every page that code or data is copied to lies below numPages, exactly when the sum of sizes does not wrap around 32 bits or wraps to more pages than frames are clear |
| `AddrSpaces.PagesRunOut` | nachos-3.4/code/userprog/addrspace.cc:89-106 | sizes whose sum wraps to two pages, while the code alone goes to 4194304 |
| `AddrSpaces.PagesHoldAll` | nachos-3.4/code/userprog/addrspace.cc:89-93 | the pages are just enough for code, initialised data, uninitialised data and 1024 bytes of stack, as these are summed in 32 bits |
| `AddrSpaces.LoadedReads` | nachos-3.4/code/userprog/addrspace.cc:89-178 | after a load every address of these four parts can be read: the code and data of the file, and zeros for the rest |
| `AddrSpaces.LastPageSizeIs` | nachos-3.4/code/userprog/addrspace.cc:128-132 | the size of the last code page, including the exact multiple and the empty segment |
| `AddrSpaces.AllocateFrames` | nachos-3.4/code/userprog/addrspace.cc:108-123 | page i gets the i-th smallest clear frame, cleared to zero, and no other frame changes |
| `AddrSpaces.LoadCode` | nachos-3.4/code/userprog/addrspace.cc:148-156 | all of the code is in place |
| `AddrSpaces.LoadData` | nachos-3.4/code/userprog/addrspace.cc:133-178 | all of the data is in place, from the middle of the last code page on and over the pages after it |
| `AddrSpaces.CopyExtends` | nachos-3.4/code/userprog/addrspace.cc:148-178 | one ReadAt into a frame extends the part of the image that is in place by the bytes copied |
| `AddrSpaces.ReadsImage` | nachos-3.4/code/userprog/addrspace.cc:108-178 | through the page table every virtual address reads as code, then initialised data, then zeros, and nothing is readable past the last page |
| `AddrSpaces.AddrSpace.constructor` | nachos-3.4/code/userprog/addrspace.cc:63-179 | for every header that PagesSufficeIff allows, loading succeeds exactly when enough frames are clear; then the space has just the pages for its four parts and the flat image, and only its frames changed; otherwise memory and bit map are unchanged |
| `AddrSpaces.LoadFrames` | nachos-3.4/code/userprog/addrspace.cc:96-123 | a load lowers the number of clear frames by exactly numPages and takes none that was marked |
| `AddrSpaces.LoadIsolated` | nachos-3.4/code/userprog/addrspace.cc:96-178 | a load changes no byte any earlier space reads |
| `AddrSpaces.WriteSpace` | nachos-3.4/code/machine/translate.cc:137-169 | WriteMem through the page table of a space, whatever use and dirty bits it has gathered, is the write step of the runs, and the table still maps the same frames |
| `AddrSpaces.ReadSpace` | nachos-3.4/code/machine/translate.cc:87-122 | ReadMem through it gives the byte that the runs speak of |
| `AddrSpaces.RunSeparate` | nachos-3.4/code/userprog/addrspace.cc:96-123 | over any run of loads and writes the frames of different spaces are disjoint |
| `AddrSpaces.RunIsolated` | nachos-3.4/code/machine/translate.cc:137-169 | over any run of loads and writes what a space reads at any address changes only by its own writes |
| `Kernel.StepPlaces` | nachos-3.4/code/threads/thread.cc:90-225 | every step keeps each thread in exactly one place: running, once on the ready list, once in one semaphore queue, not yet forked, or finished |
| `KernelInvariant.StepInv` | nachos-3.4/code/threads/synch.cc:64-98 | every step of every thread or handler keeps the whole invariant: one place, status to match, interrupt levels, waiters, semaphore counts, address spaces |
| `KernelRuns.RunInv` | nachos-3.4/code/threads/thread.cc:90-225 | so the invariant holds in every reachable state |
| `KernelRuns.RunOnePlace` | nachos-3.4/code/threads/thread.cc:90-225 | in every reachable state, also while idling, each thread is in exactly one place and its status says which |
| `KernelRuns.RunSwitchesOff` | nachos-3.4/code/threads/scheduler.cc:90-135 | every dispatch of every run happens with interrupts off |
| `KernelRuns.RunSemaphores` | nachos-3.4/code/threads/synch.cc:64-98 | the value is never negative, equals initial plus Vs minus completed Ps, and while somebody waits it never exceeds the number of woken threads that have still to test it |
| `KernelRuns.IdleLosesNoWakeup` | nachos-3.4/code/threads/thread.cc:220-224 | when nobody is ready, nobody waits on a semaphore with a positive value |
| `KernelRuns.StepValues` | nachos-3.4/code/threads/synch.cc:64-98 | to its users a semaphore is a counter that V raises and a completed P lowers from a positive value |
| `KernelRuns.PReturns` | nachos-3.4/code/threads/synch.cc:64-77 | the whole of P in any run: however often the thread is woken and sleeps again, it returns having lowered the value once, from a positive value, in its last step, with the interrupt level of the call |
| `KernelRuns.QueueStep` | nachos-3.4/code/threads/synch.cc:64-98 | in every step the queue of a semaphore gains the thread that finds its value zero, at its end; or, by a V, loses its first thread, which is then last in the ready list; or stays as it is |
| `KernelRuns.FifoWakeup` | nachos-3.4/code/threads/synch.cc:69-96 | a thread at position p of the queue of a semaphore is readied by exactly the (p+1)th V from then on, and waits until then |
| `KernelRuns.YieldReturns` | nachos-3.4/code/threads/thread.cc:174-190 | the whole of Yield in any run: at once with nothing changed if nobody is ready, otherwise when next dispatched, and with the interrupt level of the call |
| `KernelRuns.ForkStarts` | nachos-3.4/code/threads/thread.cc:90-101 | a forked thread begins when it is first dispatched, with interrupts on |
| `KernelRuns.WhatMayHappen` | nachos-3.4/code/threads/thread.cc:211-225 | in every reachable state: a running thread can do anything, handlers come in while one sleeps or has interrupts on, a sleeper is relieved as soon as somebody is ready, and nothing comes between a switch and the thread going on |
| `KernelRuns.StepLine` | nachos-3.4/code/threads/scheduler.cc:53-74 | every step adds to the end of the line of dispatches made and to come just the thread that is forked, woken or yields: nobody is passed over and nobody pushes in |
| `KernelRuns.FifoDispatch` | nachos-3.4/code/threads/scheduler.cc:53-74 | a thread at position k of the ready list is dispatched by the (k+1)th dispatch from then on |
| `KernelRuns.StepLevel` | nachos-3.4/code/threads/synch.cc:64-98 | of all the steps only SetLevel changes the interrupt level a thread runs at; every other operation returns at the level of its call or leaves with interrupts off |
| `KernelRuns.StepMachine` | nachos-3.4/code/threads/scheduler.cc:90-135 | the machine registers and page table change only when the running thread computes or starts a process, and when a user thread gets its own back |
| `KernelRuns.ContextPreserved` | nachos-3.4/code/threads/scheduler.cc:90-135 | whatever runs in between, a user thread goes on with the machine registers and the page table it had when it was switched out |
| `Processors.Processor.ReadyToRun` | nachos-3.4/code/threads/scheduler.cc:53-60 | the thread is ready and last in line |
| `Processors.Processor.Run` | nachos-3.4/code/threads/scheduler.cc:90-116 | up to SWITCH it is the dispatch step of the kernel |
| `Processors.Processor.Resume` | nachos-3.4/code/threads/scheduler.cc:116-135 | from SWITCH on it is the resume step: a user thread gets its registers and page table back, and P tests its value again |
| `Processors.Processor.Fork` | nachos-3.4/code/threads/thread.cc:90-101 | statement by statement it is the fork step and keeps the invariant |
| `Processors.Processor.Yield` | nachos-3.4/code/threads/thread.cc:174-190 | taking the next thread off before putting this one on is the yield step, and keeps the invariant |
| `Processors.Processor.Sleep` | nachos-3.4/code/threads/thread.cc:211-225 | up to its loop, it is the start of sleeping |
| `Processors.Processor.SleepLoop` | nachos-3.4/code/threads/thread.cc:220-224 | once round the loop: the dispatch step if somebody is ready, which may be the sleeper itself, and otherwise nothing |
| `Processors.Processor.Finish` | nachos-3.4/code/threads/thread.cc:144-154 | it is the finish step and keeps the invariant |
| `Processors.Processor.P` | nachos-3.4/code/threads/synch.cc:64-77 | up to where it can sleep it is the P step, from which PReturns goes on, and keeps the invariant |
| `Processors.Processor.V` | nachos-3.4/code/threads/synch.cc:87-98 | it is the V step and keeps the invariant |
| `Consoles.NewConsoleReady` | nachos-3.4/code/threads/synchcons.cc:28-35 | the constructor leaves the line free and no character finished |
| `Consoles.PutKeeps` | nachos-3.4/code/machine/console.cc:142-150 | the assertion that the device is not busy holds, and the character extends the text of the writer that holds the line |
| `Consoles.StepKeeps` | nachos-3.4/code/threads/synchcons.cc:71-87 | every step of writers, handler and kernel keeps the invariant that ties the semaphores, the device and the output together |
| `Consoles.WholeWrites` | nachos-3.4/code/threads/synchcons.cc:71-87 | in every run PutChar never finds the device busy, and the output is whole texts one after another and then a beginning of the one being written |
| `Consoles.CompletedGrows` | nachos-3.4/code/threads/synchcons.cc:85-86 | a text is complete exactly when its writer gives the line back, and no other step completes one or ends a call |
| `Consoles.StepsOpen` | nachos-3.4/code/threads/synchcons.cc:71-87 | whatever the other threads are doing, a running thread can begin to write any text and can take the next step of a write it is in; what makes it wait is only a semaphore |
| `Consoles.WhoWrote` | nachos-3.4/code/threads/synchcons.cc:71-87 | every completed text is that of a call of Write: the thread that completed it began with this text and was in no other call in between |
| `ProcessTable.NewTableStarts` | nachos-3.4/code/userprog/ptable.cc:5-22 | the constructor leaves one process, number 0, and its semaphores at their first values |
| `ProcessTable.JoinBegins` | nachos-3.4/code/userprog/ptable.cc:88-106 | Join of an own child gets under way whatever the child is doing, and of anything else changes nothing |
| `ProcessTable.ExitBegins` | nachos-3.4/code/userprog/ptable.cc:120-137 | Exit of any process but process 0 records its code, for the first time, and gets under way |
| `ProcessTable.CallsOpen` | nachos-3.4/code/userprog/ptable.cc:38-137 | a running process can call Exec, Join of any pid of the table, and Exit, at any time, but for a second Join of one child and an Exit before its children are gone |
| `ProcessTable.CallsGoOn` | nachos-3.4/code/userprog/ptable.cc:38-174 | inside Exec, Join and Exit a running process can always go on: the block and the semaphore it comes to are there, and Exec takes the smallest free slot if there is one |
| `ProcessTable.JoinWaitKeeps` | nachos-3.4/code/userprog/pcb.h:28 | a parent comes through JoinWait only when its child has called Exit |
| `ProcessTable.JoinReadKeeps` | nachos-3.4/code/userprog/ptable.cc:108-111 | what the parent reads is the code that process passed to Exit |
| `ProcessTable.ExitWaitKeeps` | nachos-3.4/code/userprog/pcb.h:29 | a child comes through ExitWait only when its parent has read the code |
| `ProcessTable.RemoveProcesses` | nachos-3.4/code/userprog/ptable.cc:161-174 | when a block is deleted nobody is still using it |
| `ProcessTable.MakePcbKeeps` | nachos-3.4/code/userprog/ptable.cc:60-75 | a pid is given out only when no process has it and nobody refers to it |
| `ProcessTable.StepKeeps` | nachos-3.4/code/userprog/ptable.cc:38-174 | every step of Exec, Join, Exit and the kernel, in any interleaving, keeps the invariant of the process table |
| `ProcessTable.BlocksThere` | nachos-3.4/code/userprog/ptable.cc:84-147 | every block a process uses exists: its own, its parent's, and that of the child it is starting or joining, which is still the same process |
| `ProcessTable.PidsDistinct` | nachos-3.4/code/userprog/ptable.cc:149-174 | no two live processes have the same pid |
| `ProcessTable.ExitStep` | nachos-3.4/code/userprog/ptable.cc:133-134 | an exit code is recorded once, by the process itself, and never changes |
| `ProcessTable.JoinReturns` | nachos-3.4/code/userprog/ptable.cc:84-147 | in every run, a Join called on an own child returns the code that this very process passed to Exit, and until then the block of that process exists and its pid has not been reused |
| `ProcessLocks.StepLocks` | nachos-3.4/code/userprog/ptable.cc:38-174 | every step keeps bmsem and the multex of every block at one, less the processes that are between their P and their V on it |
| `ProcessLocks.Exclusion` | nachos-3.4/code/userprog/pcb.cc:60-72 | in every run at most one process at a time is past bmsem, and at most one past the multex of each block |
| `ProcessCounts.StepCounts` | nachos-3.4/code/userprog/ptable.cc:38-174 | every step keeps: a block that has a thread belongs to a live process run by it, a child let go has had its code returned, and the counts of waiting children are right |
| `ProcessCounts.WaitCounts` | nachos-3.4/code/userprog/pcb.cc:60-72 | in every run numwait of a process is the number of its children in the table it has gone to wait for, less those that have exited, although each of the two sides changes it in its own time |
| `ProcessCounts.ExecReturns` | nachos-3.4/code/userprog/ptable.cc:38-82 | in every run, an Exec returns -1, or the pid of a process that is new, has the caller for its parent, is in the table, and has a thread of its own |
| `ProcessCounts.ExitReturns` | nachos-3.4/code/userprog/ptable.cc:116-174 | in every run, the block of a process that has called Exit stays, with its code, until a Join has returned the code; then it is deleted and the pid is free |

## Left out

- `Lock` and `Condition` are stubs, so `SynchList`, the post office and the exclusion in `SynchDisk` have nothing to prove: reading or writing a sector is one step here, and the file system is used by one thread at a time, as its own comments ask.
- Create with a negative size or one above the largest file: the code does not check, so the model takes the size to be in range. Positions in files are not negative. A file that has been removed is not used through an old `OpenFile`.
- `FileSystem::Open(name, type)`, `FindFreeSlot` and the table of open files: it is not initialised in this build.
- A file header is one 512-byte sector with 32-bit little-endian fields; other hosts are not modelled. Directory entries have the layout of a 32-bit compiler, 20 bytes with padding that is kept as it is.
- OpenFiles.OpenFile.ReadAt: a request whose end wraps around, which the code does not cut off at the end of the file, is not modelled further; the same holds for `WriteAt`, `Read` and `Write`.
- AddrSpaces.AddrSpace.constructor: segments whose file position plus size is 2^31 or more, and headers that make the loader leave its page table, are not modelled.
- User programs with code not at address 0 or data not directly after it; read-only pages are never made by the loader.
- Releasing frames: the destructor of an address space clears no bits.
- Deleting finished threads and checking stacks for overflow.
- Instructions other than multiplication.
- Order among interrupts due at the same time: the model follows the code, the statements promise nothing.
- Interrupts.Interrupt.Schedule: the pending list is a sequence with the insertion of `Lists.Insert`; that the linked cells of `List` do the same is proved in `Lists`, and the two are not connected through the heap.
- Interrupts.Interrupt.OneTick: returns whether to yield instead of yielding; a forced Yield is a step of the kernel model, which does not share a clock with this one.
- Processors.Processor.P: stops where the thread goes to sleep; the rest of its loop is `Resume`, and `KernelRuns.PReturns` speaks of the whole.
- Consoles.WholeWrites: the console and the process table are step machines on values, not classes, because their operations block in the middle. Reading from the console and device errors are not modelled. The two semaphores are used by Write and by the write-done handler only.
- ProcessTable.JoinReturns: a parent joins each child at most once, and exits only when none of its children is left in the table; process 0 never exits, since that halts the machine. The parent of process 0, which the constructor leaves unset, is taken to be no process.  Loading the program file in Exec may fail at will.
- KernelRuns.ContextPreserved: registers are one sequence of any contents, which covers the pending delayed load; the kernel registers saved by SWITCH are the point where a thread goes on.
- System calls, the semaphore table, the timer, the network, the debugger, the COFF tools and the user programs.
