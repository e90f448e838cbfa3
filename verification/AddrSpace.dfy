/** Loading a program page by page into free frames (userprog/addrspace.cc). */
module AddrSpaces {
  import opened Bytes
  import opened BitMaps
  import opened OpenFiles
  import opened Translation

  const USER_STACK_SIZE := 1024
  const WORDS := 0x1_0000_0000

  datatype Segment = Segment(inFileAddr: nat, size: nat)

  /** The object file's header: code at virtual address 0, initialised data directly after it. */
  datatype NoffHeader = NoffHeader(code: Segment, initData: Segment, uninitSize: nat)

  /** Sizes and file positions are non-negative `int`s. */
  ghost predicate Sane(h: NoffHeader) {
    && h.code.inFileAddr + h.code.size < 0x8000_0000
    && h.initData.inFileAddr + h.initData.size < 0x8000_0000
    && h.uninitSize < 0x8000_0000
  }

  function TotalSize(h: NoffHeader): nat {
    h.code.size + h.initData.size + h.uninitSize + USER_STACK_SIZE
  }

  /** The page count, computed from an `unsigned int` sum. */
  function NumPages(h: NoffHeader): nat {
    DivRoundUp(TotalSize(h) % WORDS, PAGE_SIZE)
  }

  /** How many pages code and data are copied to. */
  function PagesUsed(h: NoffHeader): nat {
    DivRoundUp(h.code.size + h.initData.size, PAGE_SIZE)
  }

  /**
   With `clear` frames left, the load is refused or every page that code or data is copied to is in the page
   table, exactly when the sum does not wrap round or wraps to more pages than there are clear frames.
   */
  lemma PagesSufficeIff(h: NoffHeader, clear: nat)
    requires Sane(h)
    ensures (NumPages(h) <= clear ==> PagesUsed(h) <= NumPages(h)) <==> TotalSize(h) < WORDS || NumPages(h) > clear
  {
    PagesWrapped(h);
  }

  /** The pages are just enough for code, data, uninitialised data and 1024 bytes of stack, as summed in 32 bits. */
  lemma PagesHoldAll(h: NoffHeader)
    ensures var sum := h.code.size + h.initData.size + h.uninitSize + 1024;
      (NumPages(h) - 1) * 512 < sum % 0x1_0000_0000 <= NumPages(h) * 512
  {}

  lemma PagesFit(h: NoffHeader)
    requires TotalSize(h) < WORDS
    ensures (NumPages(h) - 1) * 512 < h.code.size + h.initData.size + h.uninitSize + 1024 <= NumPages(h) * 512
  {
    PagesHoldAll(h);
  }

  /** A header whose sizes wrap round to two pages; its code alone goes to 4194304. */
  lemma PagesRunOut()
    ensures var h := NoffHeader(Segment(0, 0x7fff_ffff), Segment(0, 0x7fff_ffff), 2);
      Sane(h) && NumPages(h) == 2 && DivRoundUp(h.code.size, PAGE_SIZE) == 4194304
  {}

  lemma PagesWrapped(h: NoffHeader)
    requires Sane(h)
    ensures PagesUsed(h) <= NumPages(h) <==> TotalSize(h) < WORDS
  {
    var used := DivRoundUp(h.code.size + h.initData.size, PAGE_SIZE);
    if TotalSize(h) < WORDS {
      assert used * PAGE_SIZE < h.code.size + h.initData.size + PAGE_SIZE <= TotalSize(h);
      assert TotalSize(h) <= NumPages(h) * PAGE_SIZE;
    } else {
      assert TotalSize(h) % WORDS == TotalSize(h) - WORDS;
      assert NumPages(h) * PAGE_SIZE < TotalSize(h) - WORDS + PAGE_SIZE;
    }
  }

  // ---- the flat image ----

  function FileByte(file: seq<byte>, k: nat): byte {
    if k < |file| then file[k] else 0
  }

  /** Code, then initialised data, then zeros. */
  function Image(file: seq<byte>, h: NoffHeader, v: nat): byte {
    if v < h.code.size then FileByte(file, h.code.inFileAddr + v)
    else if v < h.code.size + h.initData.size then FileByte(file, h.initData.inFileAddr + (v - h.code.size))
    else 0
  }

  // ---- frames ----

  type Frames = fs: seq<nat> | GoodFrames(fs) witness []

  ghost predicate GoodFrames(fs: seq<nat>) {
    && (forall i :: 0 <= i < |fs| ==> fs[i] < NUM_PHYS_PAGES)
    && (forall i, j :: 0 <= i < j < |fs| ==> fs[i] != fs[j])
  }

  function PhysicalOf(fs: Frames, v: nat): (a: nat)
    requires v < |fs| * PAGE_SIZE
    ensures a < MEMORY_SIZE
  {
    fs[v / PAGE_SIZE] * PAGE_SIZE + v % PAGE_SIZE
  }

  function TableOf(fs: seq<nat>): (t: seq<TranslationEntry>)
    requires forall i :: 0 <= i < |fs| ==> fs[i] < NUM_PHYS_PAGES
    requires |fs| <= NUM_PHYS_PAGES
    ensures |t| == |fs|
  {
    seq(|fs|, i requires 0 <= i < |fs| => TranslationEntry(i, fs[i], true, false, false, false))
  }

  /** `upTo` bytes of the image are in place, and the rest of the space is zero. */
  ghost predicate Loaded(m: Memory, fs: Frames, file: seq<byte>, h: NoffHeader, upTo: nat) {
    forall v: nat :: v < |fs| * PAGE_SIZE ==>
      m[PhysicalOf(fs, v)] == if v < upTo then Image(file, h, v) else 0
  }

  ghost predicate SameElsewhere(m: Memory, n: Memory, fs: seq<nat>) {
    forall a :: 0 <= a < MEMORY_SIZE && a / PAGE_SIZE !in fs ==> n[a] == m[a]
  }

  /** What one ReadAt into memory brings: as many of `count` bytes as the file has from `position` on. */
  function Chunk(file: seq<byte>, count: nat, position: nat): (c: seq<byte>)
    ensures |c| <= count
  {
    var k := Clamp(|file|, count, position);
    if k == 0 then [] else file[position..position + k]
  }

  lemma ChunkAt(file: seq<byte>, count: nat, position: nat, i: nat)
    requires i < count
    ensures var chunk := Chunk(file, count, position);
      FileByte(file, position + i) == if i < |chunk| then chunk[i] else 0
  {}

  /** Bytes `start` up to `start + count` of the image come from the file at `position`. */
  ghost predicate From(file: seq<byte>, h: NoffHeader, start: nat, count: nat, position: nat) {
    forall v :: start <= v < start + count ==> Image(file, h, v) == FileByte(file, position + (v - start))
  }

  lemma CopyByte(m: Memory, fs: Frames, page: nat, offset: nat, count: nat, chunk: seq<byte>, p: nat, o: nat)
    requires page < |fs| && offset + count <= PAGE_SIZE && |chunk| <= count
    requires p < |fs| && o < PAGE_SIZE
    ensures var n := Splice(m, fs[page] * PAGE_SIZE + offset, chunk);
      n[fs[p] * PAGE_SIZE + o] ==
        if p == page && offset <= o < offset + |chunk| then chunk[o - offset] else m[fs[p] * PAGE_SIZE + o]
  {
    var at := fs[page] * PAGE_SIZE + offset;
    var n := Splice(m, at, chunk);
    if p == page {
      if offset <= o < offset + |chunk| {
        assert n[at..at + |chunk|][o - offset] == chunk[o - offset];
      }
    } else {
      assert fs[p] != fs[page];
    }
  }

  /** Copying the next run of the image into its page extends what is loaded. */
  lemma CopyExtends(m: Memory, fs: Frames, file: seq<byte>, h: NoffHeader,
                    page: nat, offset: nat, count: nat, position: nat)
    requires page < |fs| && offset + count <= PAGE_SIZE
    requires Loaded(m, fs, file, h, page * PAGE_SIZE + offset)
    requires From(file, h, page * PAGE_SIZE + offset, count, position)
    ensures Loaded(Splice(m, fs[page] * PAGE_SIZE + offset, Chunk(file, count, position)), fs, file, h,
                   page * PAGE_SIZE + offset + count)
  {
    hide Image;
    hide FileByte;
    hide Chunk;
    hide Splice;
    var start := page * PAGE_SIZE + offset;
    var chunk := Chunk(file, count, position);
    var n := Splice(m, fs[page] * PAGE_SIZE + offset, chunk);
    forall v: nat | v < |fs| * PAGE_SIZE
      ensures n[PhysicalOf(fs, v)] == if v < start + count then Image(file, h, v) else 0
    {
      var p, o := v / PAGE_SIZE, v % PAGE_SIZE;
      CopyByte(m, fs, page, offset, count, chunk, p, o);
      if start <= v < start + count {
        assert p == page;
        ChunkAt(file, count, position, v - start);
      }
    }
  }

  lemma CopyElsewhere(m: Memory, fs: Frames, page: nat, offset: nat, chunk: seq<byte>)
    requires page < |fs| && offset + |chunk| <= PAGE_SIZE
    ensures SameElsewhere(m, Splice(m, fs[page] * PAGE_SIZE + offset, chunk), fs)
  {
    forall a | 0 <= a < MEMORY_SIZE && a / PAGE_SIZE !in fs
      ensures Splice(m, fs[page] * PAGE_SIZE + offset, chunk)[a] == m[a]
    {
      assert a / PAGE_SIZE != fs[page];
    }
  }

  lemma SmallestGood(used: set<nat>, fs: seq<nat>)
    requires Smallest(used, NUM_PHYS_PAGES, fs)
    ensures GoodFrames(fs) && |fs| <= NUM_PHYS_PAGES
  {
    DistinctSize(fs);
    BoundedSize(Elements(fs), NUM_PHYS_PAGES);
  }

  lemma {:induction false} BoundedSize(s: set<nat>, n: nat)
    requires forall x :: x in s ==> x < n
    ensures |s| <= n
  {
    if n > 0 {
      BoundedSize(s - {n - 1}, n - 1);
    }
  }

  // ---- the steps of the loader ----

  ghost predicate Cleared(m: Memory, fs: Frames) {
    forall v: nat :: v < |fs| * PAGE_SIZE ==> m[PhysicalOf(fs, v)] == 0
  }

  lemma ClearOneMore(was: Memory, m: Memory, n: Memory, fs: Frames, f: nat)
    requires f < NUM_PHYS_PAGES && Cleared(m, fs) && GoodFrames(fs + [f]) && SameElsewhere(was, m, fs)
    requires n == Splice(m, f * PAGE_SIZE, seq(PAGE_SIZE, _ => 0))
    ensures Cleared(n, fs + [f]) && SameElsewhere(was, n, fs + [f])
  {
    var gs: Frames := fs + [f];
    forall v: nat | v < |gs| * PAGE_SIZE
      ensures n[PhysicalOf(gs, v)] == 0
    {
      var p, o := v / PAGE_SIZE, v % PAGE_SIZE;
      if p < |fs| {
        assert gs[p] != gs[|fs|];
        assert m[PhysicalOf(fs, v)] == 0;
      } else {
        assert n[f * PAGE_SIZE..f * PAGE_SIZE + PAGE_SIZE][o] == 0;
      }
    }
  }

  /** One free frame for each page, marked and set to zero. */
  method AllocateFrames(machine: Machine, bitmap: BitMap, numPages: nat)
    returns (pageTable: array<TranslationEntry>, ghost fs: Frames)
    requires machine.Valid() && bitmap.Valid() && bitmap.numBits == NUM_PHYS_PAGES
    requires numPages <= |Free(bitmap.Used(), NUM_PHYS_PAGES)|
    modifies machine.mainMemory, bitmap.words
    ensures fresh(pageTable) && |fs| == numPages <= NUM_PHYS_PAGES && pageTable[..] == TableOf(fs)
    ensures Smallest(old(bitmap.Used()), NUM_PHYS_PAGES, fs) && bitmap.Used() == old(bitmap.Used()) + Elements(fs)
    ensures Cleared(machine.mainMemory[..], fs)
    ensures SameElsewhere(old(machine.mainMemory[..]), machine.mainMemory[..], fs)
  {
    hide Cleared;
    hide SameElsewhere;
    hide Smallest;
    hide Elements;
    ghost var used := bitmap.Used();
    pageTable := new TranslationEntry[numPages];
    fs := [];
    ghost var taken: seq<nat> := [];
    EmptyCleared(machine.mainMemory[..], used);
    for i := 0 to numPages
      invariant taken == fs && |fs| == i <= NUM_PHYS_PAGES && Smallest(used, NUM_PHYS_PAGES, taken)
      invariant bitmap.Used() == used + Elements(taken)
      invariant pageTable[..i] == TableOf(fs)
      invariant Cleared(machine.mainMemory[..], fs)
      invariant SameElsewhere(old(machine.mainMemory[..]), machine.mainMemory[..], fs)
    {
      var f := bitmap.FindAgain(used, taken);
      SmallestGood(used, taken + [f]);
      ghost var before := machine.mainMemory[..];
      pageTable[i] := TranslationEntry(i, f, true, false, false, false);
      machine.StoreBytes(f * PAGE_SIZE, seq(PAGE_SIZE, _ => 0));
      ClearOneMore(old(machine.mainMemory[..]), before, machine.mainMemory[..], fs, f);
      assert pageTable[..i + 1] == pageTable[..i] + [pageTable[i]];
      taken := taken + [f];
      fs := taken;
    }
    assert pageTable[..numPages] == pageTable[..];
  }

  lemma EmptyCleared(m: Memory, used: set<nat>)
    ensures Cleared(m, []) && SameElsewhere(m, m, []) && Smallest(used, NUM_PHYS_PAGES, []) && Elements([]) == {}
  {}

  /** One ReadAt into the frame of a page. */
  method ReadInto(machine: Machine, pageTable: array<TranslationEntry>, ghost fs: Frames,
                  file: seq<byte>, ghost h: NoffHeader, page: nat, offset: nat, count: nat, position: nat)
    requires machine.Valid() && |fs| <= NUM_PHYS_PAGES && pageTable[..] == TableOf(fs)
    requires page < pageTable.Length && offset + count <= PAGE_SIZE
    requires Loaded(machine.mainMemory[..], fs, file, h, page * PAGE_SIZE + offset)
    requires From(file, h, page * PAGE_SIZE + offset, count, position)
    modifies machine.mainMemory
    ensures Loaded(machine.mainMemory[..], fs, file, h, page * PAGE_SIZE + offset + count)
    ensures SameElsewhere(old(machine.mainMemory[..]), machine.mainMemory[..], fs)
  {
    hide Loaded;
    hide From;
    hide Chunk;
    hide Splice;
    assert pageTable[page] == pageTable[..][page];
    var f := pageTable[page].physicalPage;
    CopyExtends(machine.mainMemory[..], fs, file, h, page, offset, count, position);
    CopyElsewhere(machine.mainMemory[..], fs, page, offset, Chunk(file, count, position));
    machine.StoreBytes(f * PAGE_SIZE + offset, Chunk(file, count, position));
  }

  // ---- the split between code and data ----

  /** `size - (pages - 1) * PageSize` in unsigned arithmetic: a full page when there is no page at all. */
  function LastPageSize(size: nat, pages: nat): int32
    requires pages == DivRoundUp(size, PAGE_SIZE) && size < 0x8000_0000
  {
    Signed((size - (pages - 1) * PAGE_SIZE) % WORDS)
  }

  lemma LastPageSizeIs(size: nat, pages: nat)
    requires pages == DivRoundUp(size, PAGE_SIZE) && size < 0x8000_0000
    ensures 0 < LastPageSize(size, pages) <= PAGE_SIZE
    ensures (pages - 1) * PAGE_SIZE + LastPageSize(size, pages) == size
    ensures pages == 0 <==> size == 0
  {
    assert 0 < size - (pages - 1) * PAGE_SIZE <= PAGE_SIZE;
  }

  ghost predicate LoadState(machine: Machine, pageTable: array<TranslationEntry>, fs: Frames, file: seq<byte>,
                            h: NoffHeader, upTo: nat)
    reads machine, machine.mainMemory, pageTable
  {
    && machine.Valid() && |fs| <= NUM_PHYS_PAGES && pageTable[..] == TableOf(fs)
    && Loaded(machine.mainMemory[..], fs, file, h, upTo)
  }

  method LoadCode(machine: Machine, pageTable: array<TranslationEntry>, ghost fs: Frames,
                  file: seq<byte>, h: NoffHeader, numCodePage: nat, lastCodePageSize: int)
    requires Sane(h) && numCodePage == DivRoundUp(h.code.size, PAGE_SIZE) <= pageTable.Length
    requires lastCodePageSize == LastPageSize(h.code.size, numCodePage)
    requires LoadState(machine, pageTable, fs, file, h, 0)
    modifies machine.mainMemory
    ensures LoadState(machine, pageTable, fs, file, h, h.code.size)
    ensures SameElsewhere(old(machine.mainMemory[..]), machine.mainMemory[..], fs)
  {
    hide Loaded;
    LastPageSizeIs(h.code.size, numCodePage);
    for i := 0 to numCodePage
      invariant LoadState(machine, pageTable, fs, file, h, if i < numCodePage then i * PAGE_SIZE else h.code.size)
      invariant SameElsewhere(old(machine.mainMemory[..]), machine.mainMemory[..], fs)
    {
      var count := if i < numCodePage - 1 then PAGE_SIZE else lastCodePageSize;
      assert From(file, h, i * PAGE_SIZE, count, h.code.inFileAddr + i * PAGE_SIZE);
      ReadInto(machine, pageTable, fs, file, h, i, 0, count, h.code.inFileAddr + i * PAGE_SIZE);
    }
  }

  /** The part of the data that shares the last code page, then the rest, page by page. */
  method LoadData(machine: Machine, pageTable: array<TranslationEntry>, ghost fs: Frames,
                  file: seq<byte>, h: NoffHeader, numCodePage: nat, lastCodePageSize: int)
    requires Sane(h) && numCodePage == DivRoundUp(h.code.size, PAGE_SIZE) <= pageTable.Length
    requires DivRoundUp(h.code.size + h.initData.size, PAGE_SIZE) <= pageTable.Length
    requires lastCodePageSize == LastPageSize(h.code.size, numCodePage)
    requires LoadState(machine, pageTable, fs, file, h, h.code.size)
    modifies machine.mainMemory
    ensures LoadState(machine, pageTable, fs, file, h, h.code.size + h.initData.size)
    ensures SameElsewhere(old(machine.mainMemory[..]), machine.mainMemory[..], fs)
  {
    hide Loaded;
    LastPageSizeIs(h.code.size, numCodePage);
    var tempDataSize := h.initData.size - (PAGE_SIZE - lastCodePageSize);
    var numDataPage, lastDataPageSize, firstDataPageSize := 0, 0, h.initData.size;
    if tempDataSize >= 0 {
      numDataPage := DivRoundUp(tempDataSize, PAGE_SIZE);
      lastDataPageSize := LastPageSize(tempDataSize, numDataPage);
      firstDataPageSize := PAGE_SIZE - lastCodePageSize;
      LastPageSizeIs(tempDataSize, numDataPage);
    }
    if lastCodePageSize < PAGE_SIZE && firstDataPageSize > 0 {
      assert From(file, h, h.code.size, firstDataPageSize, h.initData.inFileAddr);
      ReadInto(machine, pageTable, fs, file, h,
               numCodePage - 1, lastCodePageSize, firstDataPageSize, h.initData.inFileAddr);
    }
    LoadDataPages(machine, pageTable, fs, file, h, numCodePage, numDataPage, lastDataPageSize, firstDataPageSize);
  }

  method LoadDataPages(machine: Machine, pageTable: array<TranslationEntry>, ghost fs: Frames,
                       file: seq<byte>, h: NoffHeader,
                       numCodePage: nat, numDataPage: nat, lastDataPageSize: int, firstDataPageSize: nat)
    requires Sane(h) && firstDataPageSize <= h.initData.size
    requires numDataPage == 0 ==> firstDataPageSize == h.initData.size
    requires numDataPage > 0 ==>
      && h.code.size + firstDataPageSize == numCodePage * PAGE_SIZE
      && 0 < lastDataPageSize <= PAGE_SIZE
      && firstDataPageSize + (numDataPage - 1) * PAGE_SIZE + lastDataPageSize == h.initData.size
      && numCodePage + numDataPage <= pageTable.Length
    requires LoadState(machine, pageTable, fs, file, h, h.code.size + firstDataPageSize)
    modifies machine.mainMemory
    ensures LoadState(machine, pageTable, fs, file, h, h.code.size + h.initData.size)
    ensures SameElsewhere(old(machine.mainMemory[..]), machine.mainMemory[..], fs)
  {
    hide Loaded;
    var i := numCodePage;
    for j := 0 to numDataPage
      invariant i == numCodePage + j
      invariant LoadState(machine, pageTable, fs, file, h,
                          h.code.size + if j < numDataPage then firstDataPageSize + j * PAGE_SIZE else h.initData.size)
      invariant SameElsewhere(old(machine.mainMemory[..]), machine.mainMemory[..], fs)
    {
      var count := if j < numDataPage - 1 then PAGE_SIZE else lastDataPageSize;
      assert From(file, h, i * PAGE_SIZE, count, h.initData.inFileAddr + j * PAGE_SIZE + firstDataPageSize);
      ReadInto(machine, pageTable, fs, file, h, i, 0, count, h.initData.inFileAddr + j * PAGE_SIZE + firstDataPageSize);
      i := i + 1;
    }
  }

  /** Code, then data, into frames that are clear. */
  method LoadImage(machine: Machine, pageTable: array<TranslationEntry>, ghost fs: Frames,
                   file: seq<byte>, h: NoffHeader)
    requires Sane(h) && PagesUsed(h) <= pageTable.Length
    requires LoadState(machine, pageTable, fs, file, h, 0)
    modifies machine.mainMemory
    ensures LoadState(machine, pageTable, fs, file, h, h.code.size + h.initData.size)
    ensures SameElsewhere(old(machine.mainMemory[..]), machine.mainMemory[..], fs)
  {
    hide LoadState;
    hide SameElsewhere;
    FewerPages(h.code.size, h.code.size + h.initData.size);
    var numCodePage := DivRoundUp(h.code.size, PAGE_SIZE);
    var lastCodePageSize := LastPageSize(h.code.size, numCodePage);
    LoadCode(machine, pageTable, fs, file, h, numCodePage, lastCodePageSize);
    ghost var half := machine.mainMemory[..];
    assert machine.Valid() by {
      LoadStateValid(machine, pageTable, fs, file, h, h.code.size);
    }
    LoadData(machine, pageTable, fs, file, h, numCodePage, lastCodePageSize);
    LoadStateValid(machine, pageTable, fs, file, h, h.code.size + h.initData.size);
    SameThrough(old(machine.mainMemory[..]), half, machine.mainMemory[..], fs);
  }

  lemma LoadStateValid(machine: Machine, pageTable: array<TranslationEntry>, fs: Frames, file: seq<byte>,
                       h: NoffHeader, upTo: nat)
    requires LoadState(machine, pageTable, fs, file, h, upTo)
    ensures machine.Valid()
  {}

  lemma FewerPages(a: nat, b: nat)
    requires a <= b
    ensures DivRoundUp(a, PAGE_SIZE) <= DivRoundUp(b, PAGE_SIZE)
  {}

  lemma SameThrough(m: Memory, n: Memory, o: Memory, fs: seq<nat>)
    requires SameElsewhere(m, n, fs) && SameElsewhere(n, o, fs)
    ensures SameElsewhere(m, o, fs)
  {}

  // ---- the address space ----

  /** Through the page table the program reads its flat image, and nothing beyond its pages. */
  lemma ReadsImage(m: Memory, fs: Frames, file: seq<byte>, h: NoffHeader, u: nat)
    requires |fs| <= NUM_PHYS_PAGES && u < WORDS
    requires Loaded(m, fs, file, h, h.code.size + h.initData.size)
    ensures VirtualByte(m, TableOf(fs), u) == if u < |fs| * PAGE_SIZE then Image(file, h, u) else -1
  {
    assert Unsigned(Signed(u)) == u;
    if u < |fs| * PAGE_SIZE {
      assert ViaPageTable(TableOf(fs), Signed(u), 1, false) == Physical(PhysicalOf(fs, u));
      assert u >= h.code.size + h.initData.size ==> Image(file, h, u) == 0;
    }
  }

  class AddrSpace {
    /** null when there was not enough memory. */
    var pageTable: array?<TranslationEntry>
    var numPages: nat
    ghost var frames: Frames

    constructor (machine: Machine, bitmap: BitMap, file: seq<byte>, h: NoffHeader)
      requires machine.Valid() && bitmap.Valid() && bitmap.numBits == NUM_PHYS_PAGES
      requires Sane(h) && (TotalSize(h) < WORDS || NumPages(h) > |Free(bitmap.Used(), NUM_PHYS_PAGES)|)
      modifies machine.mainMemory, bitmap.words
      ensures pageTable != null <==> NumPages(h) <= |Free(old(bitmap.Used()), NUM_PHYS_PAGES)|
      ensures pageTable == null ==>
        numPages == 0 && bitmap.Used() == old(bitmap.Used()) && machine.mainMemory[..] == old(machine.mainMemory[..])
      ensures pageTable != null ==>
        && fresh(pageTable) && numPages == NumPages(h) == |frames| <= NUM_PHYS_PAGES && pageTable[..] == TableOf(frames)
        && (numPages - 1) * 512 < h.code.size + h.initData.size + h.uninitSize + 1024 <= numPages * 512
        && LoadStep(Phys(old(machine.mainMemory[..]), old(bitmap.Used())),
                    Phys(machine.mainMemory[..], bitmap.Used()), frames, file, h)
    {
      hide Loaded;
      hide Smallest;
      hide SameElsewhere;
      hide Free;
      hide Elements;
      hide Cleared;
      hide DivRoundUp;
      numPages := NumPages(h);
      pageTable := null;
      frames := [];
      new;
      var clear := bitmap.NumClear();
      if numPages > clear {
        numPages := 0;
        return;
      }
      ghost var used, before := bitmap.Used(), machine.mainMemory[..];
      var table, fs := AllocateFrames(machine, bitmap, numPages);
      SmallestGood(used, fs);
      PagesSufficeIff(h, clear);
      PagesFit(h);
      ClearedIsLoaded(machine.mainMemory[..], fs, file, h);
      ghost var cleared := machine.mainMemory[..];
      LoadImage(machine, table, fs, file, h);
      SameThrough(before, cleared, machine.mainMemory[..], fs);
      pageTable, frames := table, fs;
    }

    method RestoreState(machine: Machine)
      modifies machine`pageTable
      ensures machine.pageTable == pageTable
    {
      machine.pageTable := pageTable;
    }
  }

  lemma ClearedIsLoaded(m: Memory, fs: Frames, file: seq<byte>, h: NoffHeader)
    requires Cleared(m, fs)
    ensures Loaded(m, fs, file, h, 0)
  {}

  // ---- many address spaces ----

  datatype Phys = Phys(memory: Memory, used: set<nat>)

  ghost function Read(p: Phys, fs: Frames, u: nat): int
    requires |fs| <= NUM_PHYS_PAGES && u < WORDS
  {
    VirtualByte(p.memory, TableOf(fs), u)
  }

  /** A successful load of a program into the frames `fs`. */
  ghost predicate LoadStep(p: Phys, q: Phys, fs: Frames, file: seq<byte>, h: NoffHeader) {
    && |fs| == NumPages(h)
    && Smallest(p.used, NUM_PHYS_PAGES, fs) && q.used == p.used + Elements(fs)
    && Loaded(q.memory, fs, file, h, h.code.size + h.initData.size)
    && SameElsewhere(p.memory, q.memory, fs)
  }

  /** A successful WriteMem by the space with frames `fs`. */
  ghost predicate WriteStep(p: Phys, q: Phys, fs: Frames, virtAddr: int32, size: int, value: int32) {
    && |fs| <= NUM_PHYS_PAGES && size in {1, 2, 4}
    && var r := ViaPageTable(TableOf(fs), virtAddr, size, true);
       r.Physical? && r.addr + size <= MEMORY_SIZE && q == Phys(Stored(p.memory, r.addr, value, size), p.used)
  }

  /** WriteMem through a space's page table, whatever its use and dirty bits, is such a step; the frames stay. */
  method WriteSpace(machine: Machine, ghost fs: Frames, ghost used: set<nat>, addr: int32, size: int, value: int32)
    returns (r: Outcome)
    requires machine.Valid() && machine.tlb == null && size in {1, 2, 4} && |fs| <= NUM_PHYS_PAGES
    requires SameButBits(TableOf(fs), machine.pageTable[..])
    modifies machine.Table(), machine.mainMemory
    ensures machine.pageTable == old(machine.pageTable) && SameButBits(TableOf(fs), machine.pageTable[..])
    ensures r == ViaPageTable(TableOf(fs), addr, size, true)
    ensures r.Physical? ==>
      WriteStep(Phys(old(machine.mainMemory[..]), used), Phys(machine.mainMemory[..], used), fs, addr, size, value)
    ensures r.Raises? ==> machine.mainMemory[..] == old(machine.mainMemory[..])
  {
    BitsDoNotMatter(TableOf(fs), machine.pageTable[..], addr, size, true);
    hide TableOf;
    hide Stored;
    r := machine.WriteMem(addr, size, value);
  }

  /** So is reading: what ReadMem gives does not depend on the bits either. */
  method ReadSpace(machine: Machine, ghost fs: Frames, ghost used: set<nat>, addr: int32)
    returns (r: Outcome, value: int32)
    requires machine.Valid() && machine.tlb == null && |fs| <= NUM_PHYS_PAGES
    requires SameButBits(TableOf(fs), machine.pageTable[..])
    modifies machine.Table()
    ensures machine.pageTable == old(machine.pageTable) && SameButBits(TableOf(fs), machine.pageTable[..])
    ensures r.Physical? <==> Read(Phys(machine.mainMemory[..], used), fs, Unsigned(addr)) != -1
    ensures r.Physical? ==> value == Value([Read(Phys(machine.mainMemory[..], used), fs, Unsigned(addr))])
  {
    BitsDoNotMatter(TableOf(fs), machine.pageTable[..], addr, 1, false);
    hide TableOf;
    r, value := machine.ReadMem(addr, 1);
  }

  /** All of a loaded program can be read: code, data, and zeros for uninitialised data and the stack. */
  lemma LoadedReads(p: Phys, q: Phys, fs: Frames, file: seq<byte>, h: NoffHeader, u: nat)
    requires LoadStep(p, q, fs, file, h) && |fs| <= NUM_PHYS_PAGES
    requires u < h.code.size + h.initData.size + h.uninitSize + 1024 < 0x1_0000_0000
    ensures u < h.code.size ==> Read(q, fs, u) == FileByte(file, h.code.inFileAddr + u)
    ensures h.code.size <= u < h.code.size + h.initData.size ==>
      Read(q, fs, u) == FileByte(file, h.initData.inFileAddr + (u - h.code.size))
    ensures h.code.size + h.initData.size <= u ==> Read(q, fs, u) == 0
  {
    hide Loaded;
    hide Smallest;
    hide SameElsewhere;
    hide TableOf;
    hide VirtualByte;
    PagesHoldAll(h);
    ReadsImage(q.memory, fs, file, h, u);
  }

  /** A load uses up exactly as many clear frames as the program has pages. */
  lemma LoadFrames(p: Phys, q: Phys, fs: Frames, file: seq<byte>, h: NoffHeader)
    requires LoadStep(p, q, fs, file, h)
    ensures |Free(q.used, NUM_PHYS_PAGES)| == |Free(p.used, NUM_PHYS_PAGES)| - NumPages(h)
    ensures Elements(fs) !! p.used
  {
    FreeAfter(p.used, NUM_PHYS_PAGES, fs);
  }

  /** A load changes nothing that a space with frames marked before can read. */
  lemma LoadIsolated(p: Phys, q: Phys, fs: Frames, file: seq<byte>, h: NoffHeader, gs: Frames, u: nat)
    requires LoadStep(p, q, fs, file, h) && Elements(gs) <= p.used && |gs| <= NUM_PHYS_PAGES && u < WORDS
    ensures Read(q, gs, u) == Read(p, gs, u)
  {
    hide Loaded;
    assert Unsigned(Signed(u)) == u;
    if u < |gs| * PAGE_SIZE {
      var a := PhysicalOf(gs, u);
      assert ViaPageTable(TableOf(gs), Signed(u), 1, false) == Physical(a);
      assert a / PAGE_SIZE == gs[u / PAGE_SIZE] && gs[u / PAGE_SIZE] in Elements(gs);
    }
  }

  lemma SpaceWriteIsolated(p: Phys, q: Phys, fs: Frames, gs: Frames, virtAddr: int32, size: int, value: int32, u: nat)
    requires WriteStep(p, q, fs, virtAddr, size, value)
    requires |gs| <= NUM_PHYS_PAGES && u < WORDS && Elements(fs) !! Elements(gs)
    ensures Read(q, gs, u) == Read(p, gs, u)
  {
    var t, o := TableOf(fs), TableOf(gs);
    forall i, j | 0 <= i < |t| && 0 <= j < |o|
      ensures t[i].physicalPage != o[j].physicalPage
    {
      assert fs[i] in Elements(fs) && gs[j] in Elements(gs);
    }
    WriteIsolated(p.memory, t, o, virtAddr, size, value, u);
  }

  datatype Event = Load(file: seq<byte>, h: NoffHeader) | Write(space: nat, virtAddr: int32, size: int, value: int32)

  /** Memory, the frame map, and the frames of every space loaded so far. */
  datatype World = World(phys: Phys, spaces: seq<seq<nat>>)

  /** Every space's frames are marked, and no frame belongs to two spaces. */
  ghost predicate Separate(w: World) {
    && (forall k :: 0 <= k < |w.spaces| ==>
          GoodFrames(w.spaces[k]) && |w.spaces[k]| <= NUM_PHYS_PAGES && Elements(w.spaces[k]) <= w.phys.used)
    && (forall j, k :: 0 <= j < k < |w.spaces| ==> Elements(w.spaces[j]) !! Elements(w.spaces[k]))
  }

  ghost predicate Step(w: World, e: Event, x: World)
    requires Separate(w)
  {
    match e
    case Load(file, h) =>
      && Sane(h) && (TotalSize(h) < WORDS || NumPages(h) > |Free(w.phys.used, NUM_PHYS_PAGES)|)
      && if NumPages(h) <= |Free(w.phys.used, NUM_PHYS_PAGES)| then
           |x.spaces| == |w.spaces| + 1 && x.spaces[..|w.spaces|] == w.spaces && GoodFrames(x.spaces[|w.spaces|]) &&
           LoadStep(w.phys, x.phys, x.spaces[|w.spaces|], file, h)
         else x == w
    case Write(k, virtAddr, size, value) =>
      k < |w.spaces| && x.spaces == w.spaces && WriteStep(w.phys, x.phys, w.spaces[k], virtAddr, size, value)
  }

  lemma StepSeparate(w: World, e: Event, x: World)
    requires Separate(w) && Step(w, e, x)
    ensures Separate(x) && w.spaces <= x.spaces
  {
    hide Loaded;
    hide Smallest;
    if e.Load? && x != w {
      var n := |w.spaces|;
      var fs: Frames := x.spaces[n];
      LoadFrames(w.phys, x.phys, fs, e.file, e.h);
      SmallestGood(w.phys.used, fs);
      assert forall k :: 0 <= k < n ==> x.spaces[k] == w.spaces[k];
    }
  }

  /** A step changes what a space reads only if it is a write in that very space. */
  lemma StepIsolated(w: World, e: Event, x: World, k: nat, u: nat)
    requires Separate(w) && Step(w, e, x) && k < |w.spaces| && u < WORDS
    requires e.Write? ==> e.space != k
    ensures k < |x.spaces| && Read(x.phys, w.spaces[k], u) == Read(w.phys, w.spaces[k], u)
  {
    hide Loaded;
    hide Smallest;
    hide VirtualByte;
    match e
    case Load(file, h) =>
      if x != w {
        LoadIsolated(w.phys, x.phys, x.spaces[|w.spaces|], file, h, w.spaces[k], u);
      }
    case Write(j, virtAddr, size, value) =>
      assert j < k || k < j;
      SpaceWriteIsolated(w.phys, x.phys, w.spaces[j], w.spaces[k], virtAddr, size, value, u);
  }

  ghost predicate Run(ws: seq<World>, es: seq<Event>) {
    && |ws| == |es| + 1
    && Separate(ws[0])
    && forall i :: 0 <= i < |es| && Separate(ws[i]) ==> Step(ws[i], es[i], ws[i + 1])
  }

  /** Over any run of loads and writes, frames stay separate and a space's bytes change only by its own writes. */
  lemma {:induction false} RunIsolated(ws: seq<World>, es: seq<Event>, i: nat, j: nat, k: nat, u: nat)
    requires Run(ws, es) && i <= j <= |es| && Separate(ws[i])
    requires k < |ws[i].spaces| && u < WORDS
    requires forall n :: i <= n < j && es[n].Write? ==> es[n].space != k
    ensures Separate(ws[j]) && ws[i].spaces <= ws[j].spaces
    ensures Read(ws[j].phys, ws[i].spaces[k], u) == Read(ws[i].phys, ws[i].spaces[k], u)
    decreases j
  {
    hide Separate;
    hide Step;
    hide VirtualByte;
    if i < j {
      RunIsolated(ws, es, i, j - 1, k, u);
      StepSeparate(ws[j - 1], es[j - 1], ws[j]);
      assert ws[j - 1].spaces[k] == ws[i].spaces[k];
      StepIsolated(ws[j - 1], es[j - 1], ws[j], k, u);
    }
  }

  lemma {:induction false} RunSeparate(ws: seq<World>, es: seq<Event>, i: nat)
    requires Run(ws, es) && i <= |es|
    ensures Separate(ws[i])
  {
    hide Separate;
    hide Step;
    if i > 0 {
      RunSeparate(ws, es, i - 1);
      StepSeparate(ws[i - 1], es[i - 1], ws[i]);
    }
  }
}
