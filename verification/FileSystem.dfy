/** The file system's operations (filesys/filesys.cc), on a disk that stays formatted. */
module FileSystems {
  import opened Bytes
  import opened BitMaps
  import opened DiskGeometry
  import opened Storage
  import opened OpenFiles
  import opened Directories
  import opened DiskLayout
  import opened DiskSpace
  import opened FormattedDisk

  // ---- the bit map as a file ----

  /** BitMap::FetchFrom */
  method FetchMap(freeMap: BitMap, file: OpenFile)
    requires freeMap.Valid() && file.Valid() && freeMap.words.Length * 4 < 0x8000_0000
    modifies freeMap.words
    ensures |WordsBytes(old(freeMap.words[..]))| == freeMap.words.Length * 4
    ensures freeMap.words[..]
         == BytesWords(ReadOver(WordsBytes(old(freeMap.words[..])), file.Bytes()), freeMap.words.Length)
  {
    WordsRoundTrip(freeMap.words[..]);
    hide Contents;
    hide Sound;
    hide WordsBytes;
    hide BytesWords;
    hide Splice;
    var bytes := file.ReadAt(freeMap.words.Length * 4, 0);
    assert bytes == file.Bytes()[..|bytes|];
    LoadWords(freeMap.words, Splice(WordsBytes(freeMap.words[..]), 0, bytes));
  }

  /** The words of the map are the bytes in its memory. */
  method LoadWords(words: array<bv32>, memory: seq<byte>)
    requires |memory| == words.Length * 4
    modifies words
    ensures words[..] == BytesWords(memory, words.Length)
  {
    hide BytesWord;
    for i := 0 to words.Length
      invariant words[..i] == BytesWords(memory, words.Length)[..i]
    {
      words[i] := BytesWord(memory[i * 4..(i + 1) * 4]);
      assert words[..i + 1] == words[..i] + [words[i]];
    }
  }

  lemma OverwriteWhole(contents: seq<byte>, from: seq<byte>)
    requires |contents| == |from|
    ensures Overwrite(contents, from, |from|, 0) == from
  {
    assert from[..|from|] == from;
  }

  /** BitMap::WriteBack */
  method StoreMap(freeMap: BitMap, file: OpenFile)
    requires freeMap.Valid() && file.Valid() && freeMap.words.Length * 4 < 0x8000_0000
    modifies file.disk
    ensures |WordsBytes(freeMap.words[..])| == freeMap.words.Length * 4
    ensures file.Bytes() == Overwrite(old(file.Bytes()), WordsBytes(freeMap.words[..]), freeMap.words.Length * 4, 0)
    ensures |file.Bytes()| == freeMap.words.Length * 4 ==> file.Bytes() == WordsBytes(freeMap.words[..])
    ensures SameOutside(old(file.disk.sectors), file.disk.sectors, DataSet(file.hdr.Value()))
  {
    var bytes := WordsBytes(freeMap.words[..]);
    WordsRoundTrip(freeMap.words[..]);
    if |file.Bytes()| == |bytes| {
      OverwriteWhole(file.Bytes(), bytes);
    }
    hide Contents;
    hide Sound;
    hide DataSet;
    hide Overwrite;
    hide WordsBytes;
    var _ := file.WriteAt(bytes, freeMap.words.Length * 4, 0);
  }

  /** A map written to a file of its size and fetched again, into a map with anything in it, is the same set. */
  lemma MapRoundTrip(ws: seq<bv32>, before: seq<bv32>, contents: seq<byte>, n: nat)
    requires |ws| == |before| == DivRoundUp(n, BITS_IN_WORD) && |contents| == |ws| * 4
    ensures |WordsBytes(ws)| == |WordsBytes(before)| == |ws| * 4
    ensures var stored := Overwrite(contents, WordsBytes(ws), |ws| * 4, 0);
      Marks(BytesWords(ReadOver(WordsBytes(before), stored), |ws|), n) == Marks(ws, n)
  {
    WordsRoundTrip(ws);
    WordsRoundTrip(before);
    OverwriteWhole(contents, WordsBytes(ws));
  }

  // ---- metadata updates ----

  lemma MapWords(d: Store)
    requires HasRoots(d)
    ensures StoredMarks(d) == Marks(BytesWords(Contents(d, MapHeader(d)), MAP_WORDS), NUM_SECTORS)
  {}

  /** A new bit map, with what the bit map file holds. */
  method FetchStored(file: OpenFile) returns (freeMap: BitMap)
    requires HasRoots(file.disk.sectors) && file.hdr.Value() == MapHeader(file.disk.sectors)
    ensures fresh(freeMap) && fresh(freeMap.words)
    ensures freeMap.Valid() && freeMap.numBits == NUM_SECTORS && freeMap.Used() == StoredMarks(file.disk.sectors)
  {
    MapWords(file.disk.sectors);
    hide HasRoots;
    hide HeaderOf;
    hide Contents;
    hide Sound;
    hide StoredMarks;
    hide ReadOver;
    hide WordsBytes;
    hide BytesWords;
    hide Marks;
    freeMap := new BitMap(NUM_SECTORS);
    assert freeMap.words.Length == MAP_WORDS;
    hide DivRoundUp;
    FetchMap(freeMap, file);
    assert freeMap.words[..] == BytesWords(file.Bytes(), MAP_WORDS);
  }

  lemma RootsDisjoint(d: Store)
    requires Formatted(d)
    ensures DataSet(MapHeader(d)) !! DataSet(DirHeader(d))
    ensures MetaSectors(View(d)) == DataSet(MapHeader(d)) + DataSet(DirHeader(d))
    ensures MetaSectors(View(d)) <= StoredMarks(d)
    ensures 0 !in MetaSectors(View(d)) && 1 !in MetaSectors(View(d))
    ensures 0 in StoredMarks(d) && 1 in StoredMarks(d)
  {
    hide Consistent;
    hide View;
    hide StoredTable;
    hide StoredMarks;
    hide HeaderOf;
    hide Sound;
    hide DataSet;
    RootHeaders(d);
    RootsIn(View(d));
  }

  lemma RootsIn(l: Layout)
    requires Rooted(l) && Consistent(l)
    ensures OwnerSound(l.owners[0]) && OwnerSound(l.owners[1]) && l.owners[0].sectors !! l.owners[1].sectors
    ensures l.owners[0].sectors + l.owners[1].sectors <= l.used
  {
    hide OwnerSound;
    hide KeysDistinct;
    FileIsUsed(l, 0);
    FileIsUsed(l, 1);
    hide Exact;
    RootsApart(l);
  }

  /** Once both files are rewritten, the disk stores the new table and the new marks. */
  lemma MetaStored(d: Store, e: Store, t: Table, ws: seq<bv32>)
    requires HasRoots(d) && e[0] == d[0] && e[1] == d[1] && |ws| == MAP_WORDS
    requires Contents(e, DirHeader(d)) == Flatten(t)
    requires Contents(e, MapHeader(d)) == WordsBytes(ws)
    ensures HasRoots(e) && StoredTable(e) == t && StoredMarks(e) == Marks(ws, NUM_SECTORS)
  {
    hide Contents;
    hide Marks;
    EntriesRoundTrip(t);
    WordsRoundTrip(ws);
  }

  lemma ListedNames(d: Store, key: seq<byte>)
    requires Formatted(d)
    ensures Listed(StoredTable(d), key) <==> key in Names(View(d))
  {
    var t, l := StoredTable(d), View(d);
    if i :| Filed(t, i, key) {
      assert l.owners[i + 2] == OwnerAt(d, t, i + 2);
      assert Live(l, i + 2) && l.owners[i + 2].key == key;
    }
    if key in Names(l) {
      var o := OwnerOf(l, key);
      assert l.owners[o] == OwnerAt(d, t, o);
      assert Filed(t, o - 2, key);
    }
  }

  lemma FileInSlot(d: Store, i: nat)
    requires Formatted(d) && i < NUM_DIR_ENTRIES && InUse(StoredTable(d)[i])
    ensures Live(View(d), i + 2) && OwnerSound(View(d).owners[i + 2])
    ensures View(d).owners[i + 2].head == SectorOf(StoredTable(d)[i])
    ensures View(d).owners[i + 2].header == HeaderOf(d[SectorOf(StoredTable(d)[i])])
    ensures View(d).owners[i + 2].key == KeyOf(StoredTable(d)[i])
  {
    assert View(d).owners[i + 2] == OwnerAt(d, StoredTable(d), i + 2);
    assert Live(View(d), i + 2);
  }

  lemma FoundSector(d: Store, key: seq<byte>, sector: int)
    requires Formatted(d)
    requires !Listed(StoredTable(d), key) ==> sector == -1
    requires Listed(StoredTable(d), key) ==>
      exists i :: Filed(StoredTable(d), i, key) && sector == SectorOf(StoredTable(d)[i])
    ensures sector != -1 <==> Listed(StoredTable(d), key)
    ensures sector == -1 || 0 <= sector < NUM_SECTORS
  {
    if Listed(StoredTable(d), key) {
      var i :| Filed(StoredTable(d), i, key) && sector == SectorOf(StoredTable(d)[i]);
      FileInSlot(d, i);
    }
  }

  lemma ListedFiles(d: Store, key: seq<byte>)
    requires Formatted(d)
    ensures Listed(StoredTable(d), key) <==> key in FileMap(d)
    ensures key in FileMap(d) <==> key in Names(View(d))
  {
    hide Contents;
    hide Consistent;
    ListedNames(d, key);
    FilesKeys(BytesOn(d), View(d), key);
  }

  /** The three writes of a successful Create: the header, then the directory, then the bit map. */
  lemma CreateWrites(d: Store, d1: Store, d2: Store, e: Store, m: Header, r: Header, sector: nat, block: Sector)
    requires Formatted(d) && m == MapHeader(d) && r == DirHeader(d)
    requires sector < NUM_SECTORS && sector !in StoredMarks(d)
    requires d1 == d[sector := block] && SameOutside(d1, d2, DataSet(r)) && SameOutside(d2, e, DataSet(m))
    ensures SameOutside(d, e, MetaSectors(View(d)) + {sector}) && e[sector] == block
    ensures e[0] == d[0] && e[1] == d[1] && Contents(e, r) == Contents(d2, r)
  {
    hide Contents;
    hide View;
    hide StoredMarks;
    RootsDisjoint(d);
    ContentsFrame(d2, e, r);
  }

  /** The two writes of a Remove: the bit map, then the directory. */
  lemma RemoveWrites(d: Store, d1: Store, e: Store, m: Header, r: Header)
    requires Formatted(d) && m == MapHeader(d) && r == DirHeader(d)
    requires SameOutside(d, d1, DataSet(m)) && SameOutside(d1, e, DataSet(r))
    ensures SameOutside(d, e, MetaSectors(View(d))) && SameOutside(d, e, MetaSectors(View(d)) + {})
    ensures e[0] == d[0] && e[1] == d[1] && Contents(e, m) == Contents(d1, m)
  {
    hide Contents;
    hide View;
    hide StoredMarks;
    RootsDisjoint(d);
    ContentsFrame(d1, e, m);
  }

  lemma RemovableFile(d: Store, slot: nat)
    requires Formatted(d) && slot < NUM_DIR_ENTRIES && InUse(StoredTable(d)[slot])
    ensures Live(View(d), slot + 2) && View(d).owners[slot + 2].key == KeyOf(StoredTable(d)[slot])
    ensures var head := SectorOf(StoredTable(d)[slot]);
      && 0 <= head < NUM_SECTORS && Sound(HeaderOf(d[head]))
      && View(d).owners[slot + 2].sectors == {head as nat} + DataSet(HeaderOf(d[head]))
      && {head as nat} + DataSet(HeaderOf(d[head])) <= StoredMarks(d)
      && head !in DataSet(HeaderOf(d[head]))
  {
    hide Contents;
    hide Sound;
    hide DataSet;
    hide HeaderOf;
    hide StoredTable;
    hide StoredMarks;
    FileInSlot(d, slot);
    FileIsUsed(View(d), slot + 2);
  }

  lemma SameSlot(d: Store, i: nat, j: nat)
    requires Formatted(d)
    requires i < NUM_DIR_ENTRIES && InUse(StoredTable(d)[i]) && j < NUM_DIR_ENTRIES && InUse(StoredTable(d)[j])
    requires KeyOf(StoredTable(d)[i]) == KeyOf(StoredTable(d)[j])
    ensures i == j
  {
    hide Contents;
    hide Sound;
    hide HeaderOf;
    hide StoredTable;
    hide StoredMarks;
    FileInSlot(d, i);
    FileInSlot(d, j);
  }

  /** `h` is the header of the file listed under `key`, as it is while the file stays listed. */
  ghost predicate Opened(d: Store, key: seq<byte>, h: Header)
    requires Formatted(d)
  {
    key in Names(View(d)) && View(d).owners[OwnerOf(View(d), key)].header == h
  }

  lemma OpenedFile(d: Store, slot: nat, sector: int)
    requires HasRoots(d) && slot < NUM_DIR_ENTRIES && InUse(StoredTable(d)[slot])
    requires sector == SectorOf(StoredTable(d)[slot]) && 0 <= sector < NUM_SECTORS
    requires Formatted(d)
    ensures var h, key := HeaderOf(d[sector]), KeyOf(StoredTable(d)[slot]);
      Sound(h) && Opened(d, key, h) && key in FileMap(d) && FileMap(d)[key] == Contents(d, h)
  {
    hide Contents;
    hide Sound;
    hide HeaderOf;
    hide StoredTable;
    hide StoredMarks;
    FileInSlot(d, slot);
    OwnerOfKey(View(d), slot + 2);
  }

  // ---- formatting ----

  ghost function EmptyLayout(m: Header, t: Header): Layout
    requires Sound(m) && Sound(t)
  {
    Layout([File([], 0, m, {0} + DataSet(m)), File([], 1, t, {1} + DataSet(t))] + seq(NUM_DIR_ENTRIES, _ => Nobody),
           {0, 1} + DataSet(m) + DataSet(t))
  }

  lemma EmptyConsistent(m: Header, t: Header)
    requires Sound(m) && Sound(t)
    requires DataSet(m) !! DataSet(t) && {0, 1} !! DataSet(m) && {0, 1} !! DataSet(t)
    ensures Consistent(EmptyLayout(m, t)) && Names(EmptyLayout(m, t)) == {}
  {
    var l := EmptyLayout(m, t);
    assert Live(l, 0) && Live(l, 1);
    forall o | Live(l, o)
      ensures o == 0 || o == 1
    {}
  }

  lemma FormattedEmpty(e: Store, m: Header, t: Header, table: Table, ws: seq<bv32>)
    requires Sound(m) && m.numBytes == FREE_MAP_FILE_SIZE && Sound(t) && t.numBytes == DIRECTORY_FILE_SIZE
    requires DataSet(m) !! DataSet(t) && {0, 1} !! DataSet(m) && {0, 1} !! DataSet(t)
    requires e[0] == HeaderBytes(m) && e[1] == HeaderBytes(t) && |ws| == MAP_WORDS
    requires Contents(e, t) == Flatten(table) && Contents(e, m) == WordsBytes(ws)
    requires forall i :: 0 <= i < NUM_DIR_ENTRIES ==> !InUse(table[i])
    requires Marks(ws, NUM_SECTORS) == {0, 1} + DataSet(m) + DataSet(t)
    ensures Formatted(e) && FileMap(e) == map[]
    ensures MapHeader(e) == m && DirHeader(e) == t
  {
    hide Contents;
    hide Sound;
    hide DataSet;
    hide HeaderOf;
    hide HeaderBytes;
    hide Entries;
    hide WordsBytes;
    hide BytesWords;
    hide Flatten;
    hide Marks;
    hide Consistent;
    hide Names;
    HeaderRoundTrip(m);
    HeaderRoundTrip(t);
    EntriesRoundTrip(table);
    WordsRoundTrip(ws);
    var l := EmptyLayout(m, t);
    forall o | 0 <= o < OWNERS
      ensures l.owners[o] == OwnerAt(e, table, o)
    {}
    DescribesUnique(e, l);
    EmptyConsistent(m, t);
  }

  lemma {:induction false} FreeAtLeast(used: set<nat>, n: nat)
    ensures |Free(used, n)| >= n - |used|
  {
    if n > 0 {
      var m := n - 1;
      FreeAtLeast(used - {m}, m);
      assert Free(used - {m}, m) == Free(used, n) - {m};
    }
  }

  class FileSystem {
    const disk: SynchDisk
    const freeMapFile: OpenFile
    const directoryFile: OpenFile

    ghost predicate Valid()
      reads this, disk, freeMapFile, freeMapFile.hdr, directoryFile, directoryFile.hdr
    {
      && freeMapFile.disk == disk && directoryFile.disk == disk
      && Formatted(disk.sectors)
      && freeMapFile.hdr.Value() == MapHeader(disk.sectors)
      && directoryFile.hdr.Value() == DirHeader(disk.sectors)
    }

    /** format == FALSE: the disk is formatted already. */
    constructor Attach(disk: SynchDisk)
      requires Formatted(disk.sectors)
      ensures Valid() && this.disk == disk
    {
      this.disk := disk;
      freeMapFile := new OpenFile(disk, FREE_MAP_SECTOR);
      directoryFile := new OpenFile(disk, DIRECTORY_SECTOR);
    }

    /** format == TRUE: whatever the disk held, it now holds no files. */
    constructor Format(disk: SynchDisk)
      modifies disk
      ensures Valid() && this.disk == disk && FileMap(disk.sectors) == map[]
    {
      hide Sound;
      hide DataSet;
      hide HeaderOf;
      hide Formatted;
      hide FileMap;
      hide Marks;
      var directory := new Directory(NUM_DIR_ENTRIES);
      var freeMap, mapHdr, dirHdr := AllocateRoots();
      var mapFile, dirFile := StoreRoots(disk, freeMap, directory, mapHdr, dirHdr);
      this.disk := disk;
      freeMapFile := mapFile;
      directoryFile := dirFile;
    }

    /** The directory as stored, fetched into memory. */
    method FetchDirectory() returns (directory: Directory)
      requires Valid()
      ensures fresh(directory) && directory.table == StoredTable(disk.sectors)
    {
      hide Contents;
      hide Sound;
      hide Formatted;
      directory := new Directory(NUM_DIR_ENTRIES);
      directory.FetchFrom(directoryFile);
    }

    /** The bit map as stored, fetched into memory. */
    method FetchFreeMap() returns (freeMap: BitMap)
      requires Valid()
      ensures fresh(freeMap) && fresh(freeMap.words)
      ensures freeMap.Valid() && freeMap.numBits == NUM_SECTORS && freeMap.Used() == StoredMarks(disk.sectors)
    {
      hide Contents;
      hide Sound;
      hide HeaderOf;
      hide StoredMarks;
      freeMap := FetchStored(freeMapFile);
    }

    method Create(name: Name, initialSize: int32) returns (success: bool)
      requires Valid() && 0 <= initialSize <= MAX_FILE_SIZE
      modifies disk
      ensures Valid()
      ensures success <==> CanMake(FileMap(old(disk.sectors)), name, initialSize)
      ensures success <==> CanCreate(old(disk.sectors), name, initialSize)
      ensures !success ==> disk.sectors == old(disk.sectors)
      ensures MakeStep(old(disk.sectors), name, initialSize, disk.sectors)
    {
      hide Contents;
      hide Sound;
      hide DataSet;
      hide HeaderOf;
      hide HeaderBytes;
      hide Formatted;
      hide FileMap;
      hide Created;
      hide StoredMarks;
      hide StoredTable;
      hide View;
      hide Free;
      hide Smallest;
      hide DivRoundUp;
      hide Marks;
      hide CanMake;
      ghost var d := disk.sectors;
      CanCreateIff(d, name, initialSize);
      ListedFiles(d, Key(name));
      var directory := FetchDirectory();
      var sector := directory.Find(name);
      FoundSector(d, Key(name), sector);
      if sector != -1 {
        return false;
      }
      var freeMap := FetchFreeMap();
      sector := freeMap.Find();
      if sector == -1 {
        return false;
      }
      var added := directory.Add(name, sector);
      if !added {
        return false;
      }
      var hdr := new FileHeader();
      ghost var used := freeMap.Used();
      OneTaken(StoredMarks(d), sector);
      var fits := hdr.Allocate(freeMap, initialSize);
      if !fits {
        return false;
      }
      SmallestFresh(hdr.Value(), used);
      ghost var slot := Commit(name, sector, directory, freeMap, hdr);
      return true;
    }

    /** The free map without the blocks of the file whose header is at `sector`; nothing is written yet. */
    method Release(sector: nat) returns (freeMap: BitMap)
      requires Valid() && sector < NUM_SECTORS && Sound(HeaderOf(disk.sectors[sector]))
      requires DataSet(HeaderOf(disk.sectors[sector])) <= StoredMarks(disk.sectors)
      ensures fresh(freeMap) && fresh(freeMap.words) && freeMap.Valid() && freeMap.numBits == NUM_SECTORS
      ensures freeMap.Used() == StoredMarks(disk.sectors) - DataSet(HeaderOf(disk.sectors[sector])) - {sector}
    {
      hide Sound;
      hide DataSet;
      hide HeaderOf;
      hide Formatted;
      hide StoredMarks;
      hide Marks;
      var fileHdr := new FileHeader();
      fileHdr.FetchFrom(disk, sector);
      freeMap := FetchFreeMap();
      fileHdr.Deallocate(freeMap);
      freeMap.Clear(sector);
    }

    method Remove(name: Name) returns (success: bool)
      requires Valid()
      modifies disk
      ensures Valid()
      ensures success <==> Key(name) in FileMap(old(disk.sectors))
      ensures !success ==> disk.sectors == old(disk.sectors)
      ensures UnlinkStep(old(disk.sectors), name, disk.sectors)
    {
      hide Contents;
      hide Sound;
      hide DataSet;
      hide HeaderOf;
      hide Formatted;
      hide FileMap;
      hide Removed;
      hide StoredMarks;
      hide StoredTable;
      hide View;
      hide Marks;
      ghost var d := disk.sectors;
      ListedFiles(d, Key(name));
      var directory := FetchDirectory();
      var sector := directory.Find(name);
      FoundSector(d, Key(name), sector);
      if sector == -1 {
        return false;
      }
      ghost var slot: nat :| Filed(StoredTable(d), slot, Key(name)) && sector == SectorOf(StoredTable(d)[slot]);
      RemovableFile(d, slot);
      var freeMap := Release(sector);
      var removed := directory.Remove(name);
      ghost var gone: nat :| Filed(StoredTable(d), gone, Key(name)) && RemovedAt(StoredTable(d), directory.table, gone);
      SameSlot(d, slot, gone);
      Discard(slot, Key(name), directory, freeMap);
      return true;
    }

    /** Flushes the bit map and the directory after a file is taken out of both. */
    method Discard(ghost slot: nat, ghost key: seq<byte>, directory: Directory, freeMap: BitMap)
      requires Valid() && freeMap.Valid() && freeMap.numBits == NUM_SECTORS
      requires slot < NUM_DIR_ENTRIES && OwnsKey(View(disk.sectors), slot + 2, key)
      requires RemovedAt(StoredTable(disk.sectors), directory.table, slot)
      requires freeMap.Used() == StoredMarks(disk.sectors) - View(disk.sectors).owners[slot + 2].sectors
      modifies disk
      ensures Valid() && Removed(old(disk.sectors), disk.sectors, slot, key)
    {
      hide Contents;
      hide Sound;
      hide DataSet;
      hide HeaderOf;
      hide Formatted;
      hide StoredMarks;
      hide StoredTable;
      hide WordsBytes;
      hide Overwrite;
      hide Marks;
      hide View;
      ghost var d := disk.sectors;
      StoreMap(freeMap, freeMapFile);
      ghost var d1 := disk.sectors;
      directory.WriteBack(directoryFile);
      RemoveWrites(d, d1, disk.sectors, MapHeader(d), DirHeader(d));
      MetaStored(d, disk.sectors, directory.table, freeMap.words[..]);
      assert Removed(d, disk.sectors, slot, key);
      RemovedFiles(d, disk.sectors, slot, key);
    }

    /** Open finds the file of that name, or nothing. */
    method Open(name: Name) returns (file: OpenFile?)
      requires Valid()
      ensures file != null <==> Key(name) in FileMap(disk.sectors)
      ensures file != null ==>
        && fresh(file) && fresh(file.hdr) && file.disk == disk && file.seekPosition == 0
        && file.Valid() && Opened(disk.sectors, Key(name), file.hdr.Value())
        && file.Bytes() == FileMap(disk.sectors)[Key(name)]
    {
      hide Contents;
      hide Sound;
      hide HeaderOf;
      hide Formatted;
      hide FileMap;
      hide StoredTable;
      hide View;
      ghost var d := disk.sectors;
      ListedFiles(d, Key(name));
      var directory := FetchDirectory();
      var sector := directory.Find(name);
      FoundSector(d, Key(name), sector);
      if sector < 0 {
        return null;
      }
      ghost var slot: nat :| Filed(StoredTable(d), slot, Key(name)) && sector == SectorOf(StoredTable(d)[slot]);
      OpenedFile(d, slot, sector);
      file := new OpenFile(disk, sector);
    }

    /** Flushes a new file's header, the changed directory and the changed bit map. */
    method Commit(name: Name, sector: nat, directory: Directory, freeMap: BitMap, hdr: FileHeader)
      returns (ghost slot: nat)
      requires Valid() && freeMap.Valid() && freeMap.numBits == NUM_SECTORS
      requires sector < NUM_SECTORS && sector !in StoredMarks(disk.sectors)
      requires Sound(hdr.Value())
      requires sector !in DataSet(hdr.Value()) && DataSet(hdr.Value()) !! StoredMarks(disk.sectors)
      requires Key(name) !in Names(View(disk.sectors))
      requires exists slot :: AddedAt(StoredTable(disk.sectors), directory.table, slot, name, sector)
      requires freeMap.Used() == StoredMarks(disk.sectors) + ({sector} + DataSet(hdr.Value()))
      modifies disk
      ensures Valid()
      ensures Created(old(disk.sectors), disk.sectors, slot, name, sector, hdr.Value())
    {
      hide Contents;
      hide Sound;
      hide DataSet;
      hide HeaderOf;
      hide HeaderBytes;
      hide Formatted;
      hide StoredMarks;
      hide StoredTable;
      hide WordsBytes;
      hide Overwrite;
      hide Marks;
      hide View;
      ghost var d, h := disk.sectors, hdr.Value();
      hdr.WriteBack(disk, sector);
      ghost var d1 := disk.sectors;
      directory.WriteBack(directoryFile);
      ghost var d2 := disk.sectors;
      StoreMap(freeMap, freeMapFile);
      CreateWrites(d, d1, d2, disk.sectors, MapHeader(d), DirHeader(d), sector, HeaderBytes(h));
      MetaStored(d, disk.sectors, directory.table, freeMap.words[..]);
      slot :| AddedAt(StoredTable(d), directory.table, slot, name, sector);
      assert Created(d, disk.sectors, slot, name, sector, h);
      CreatedFiles(d, disk.sectors, slot, name, sector, h);
    }
  }

  /** Sectors 0 and 1 for the headers of the bit map and the directory, then space for their data. */
  method AllocateRoots() returns (freeMap: BitMap, mapHdr: FileHeader, dirHdr: FileHeader)
    ensures fresh(freeMap) && fresh(freeMap.words) && fresh(mapHdr) && fresh(dirHdr)
    ensures freeMap.Valid() && freeMap.numBits == NUM_SECTORS && mapHdr != dirHdr
    ensures Sound(mapHdr.Value()) && mapHdr.numBytes == FREE_MAP_FILE_SIZE
    ensures Sound(dirHdr.Value()) && dirHdr.numBytes == DIRECTORY_FILE_SIZE
    ensures DataSet(mapHdr.Value()) !! DataSet(dirHdr.Value())
    ensures {0, 1} !! DataSet(mapHdr.Value()) && {0, 1} !! DataSet(dirHdr.Value())
    ensures freeMap.Used() == {0, 1} + DataSet(mapHdr.Value()) + DataSet(dirHdr.Value())
  {
    hide Sound;
    hide DataSet;
    hide Smallest;
    hide Marks;
    hide Free;
    SmallFiles();
    hide DivRoundUp;
    freeMap := new BitMap(NUM_SECTORS);
    mapHdr := new FileHeader();
    dirHdr := new FileHeader();
    freeMap.Mark(FREE_MAP_SECTOR);
    freeMap.Mark(DIRECTORY_SECTOR);
    FreeAtLeast(freeMap.Used(), NUM_SECTORS);
    ghost var used := freeMap.Used();
    var ok := mapHdr.Allocate(freeMap, FREE_MAP_FILE_SIZE);
    assert ok;
    SmallestFresh(mapHdr.Value(), used);
    used := freeMap.Used();
    ok := dirHdr.Allocate(freeMap, DIRECTORY_FILE_SIZE);
    assert ok;
    SmallestFresh(dirHdr.Value(), used);
  }

  lemma SmallFiles()
    ensures DivRoundUp(FREE_MAP_FILE_SIZE, SECTOR_SIZE) == DivRoundUp(DIRECTORY_FILE_SIZE, SECTOR_SIZE) == 1
  {}

  lemma OneTaken(used: set<nat>, sector: nat)
    requires sector < NUM_SECTORS && sector !in used
    ensures |Free(used + {sector}, NUM_SECTORS)| == |Free(used, NUM_SECTORS)| - 1
  {
    FreeAfter(used, NUM_SECTORS, [sector]);
    assert Elements([sector]) == {sector};
  }

  lemma SmallestFresh(h: Header, used: set<nat>)
    requires Sound(h) && h.numSectors >= 0 && Smallest(used, NUM_SECTORS, h.dataSectors[..h.numSectors])
    ensures DataSet(h) !! used
  {
    forall s | s in DataSet(h)
      ensures s !in used
    {
      var i :| 0 <= i < h.numSectors && s == h.dataSectors[i];
      assert h.dataSectors[..h.numSectors][i] == s;
    }
  }

  /** Writes the headers, opens the two files, and writes their first contents. */
  method StoreRoots(disk: SynchDisk, freeMap: BitMap, directory: Directory, mapHdr: FileHeader, dirHdr: FileHeader)
    returns (mapFile: OpenFile, dirFile: OpenFile)
    requires freeMap.Valid() && freeMap.numBits == NUM_SECTORS
    requires Sound(mapHdr.Value()) && mapHdr.numBytes == FREE_MAP_FILE_SIZE
    requires Sound(dirHdr.Value()) && dirHdr.numBytes == DIRECTORY_FILE_SIZE
    requires DataSet(mapHdr.Value()) !! DataSet(dirHdr.Value())
    requires {0, 1} !! DataSet(mapHdr.Value()) && {0, 1} !! DataSet(dirHdr.Value())
    requires freeMap.Used() == {0, 1} + DataSet(mapHdr.Value()) + DataSet(dirHdr.Value())
    requires |directory.table| == NUM_DIR_ENTRIES
    requires forall i :: 0 <= i < NUM_DIR_ENTRIES ==> !InUse(directory.table[i])
    modifies disk
    ensures mapFile.disk == disk && dirFile.disk == disk
    ensures Formatted(disk.sectors) && FileMap(disk.sectors) == map[]
    ensures mapFile.hdr.Value() == MapHeader(disk.sectors) && dirFile.hdr.Value() == DirHeader(disk.sectors)
  {
    hide Contents;
    hide Sound;
    hide DataSet;
    hide HeaderOf;
    hide HeaderBytes;
    hide Formatted;
    hide FileMap;
    hide WordsBytes;
    hide Overwrite;
    hide Marks;
    ghost var m, t := mapHdr.Value(), dirHdr.Value();
    mapHdr.WriteBack(disk, FREE_MAP_SECTOR);
    dirHdr.WriteBack(disk, DIRECTORY_SECTOR);
    HeaderRoundTrip(m);
    HeaderRoundTrip(t);
    mapFile := new OpenFile(disk, FREE_MAP_SECTOR);
    dirFile := new OpenFile(disk, DIRECTORY_SECTOR);
    StoreMap(freeMap, mapFile);
    ghost var between := disk.sectors;
    EntriesRoundTrip(directory.table);
    directory.WriteBack(dirFile);
    ContentsFrame(between, disk.sectors, m);
    FormattedEmpty(disk.sectors, m, t, directory.table, freeMap.words[..]);
  }

  /** Writing through an open file changes that file's bytes in the name map, and nothing else. */
  method WriteListed(fs: FileSystem, file: OpenFile, ghost name: Name,
                     from: seq<byte>, numBytes: int32, position: nat31)
    returns (n: nat)
    requires fs.Valid() && file.disk == fs.disk && file.Valid() && Opened(fs.disk.sectors, Key(name), file.hdr.Value())
    requires numBytes <= |from| && Fits(file.hdr.numBytes, numBytes, position)
    modifies fs.disk
    ensures fs.Valid() && Opened(fs.disk.sectors, Key(name), file.hdr.Value())
    ensures n == Clamp(file.hdr.numBytes, numBytes, position)
    ensures FillStep(old(fs.disk.sectors), name, from, numBytes, position, fs.disk.sectors)
  {
    hide Contents;
    hide Sound;
    hide DataSet;
    hide HeaderOf;
    hide Formatted;
    hide StoredMarks;
    hide StoredTable;
    hide Overwrite;
    hide View;
    hide FileMap;
    ghost var d, h := fs.disk.sectors, file.hdr.Value();
    OpenedBytes(d, Key(name), h);
    n := file.WriteAt(from, numBytes, position);
    ghost var o := OpenedWritten(d, fs.disk.sectors, Key(name), h, file.Bytes());
  }

  lemma OpenedBytes(d: Store, key: seq<byte>, h: Header)
    requires Formatted(d) && Opened(d, key, h)
    ensures Sound(h) && key in FileMap(d) && FileMap(d)[key] == Contents(d, h)
  {
    hide Contents;
    hide Sound;
    hide StoredTable;
    hide StoredMarks;
    var o := OwnerOf(View(d), key);
    assert OwnerSound(View(d).owners[o]);
  }

  lemma OpenedWritten(d: Store, e: Store, key: seq<byte>, h: Header, contents: seq<byte>) returns (o: nat)
    requires Formatted(d) && Opened(d, key, h) && Sound(h)
    requires SameOutside(d, e, DataSet(h)) && Contents(e, h) == contents
    ensures Formatted(e) && Opened(e, key, h) && Written(d, e, o, key, contents)
    ensures MapHeader(e) == MapHeader(d) && DirHeader(e) == DirHeader(d)
  {
    hide Contents;
    hide Sound;
    hide StoredTable;
    hide StoredMarks;
    hide DataSet;
    o := OwnerOf(View(d), key);
    assert Written(d, e, o, key, contents);
    WrittenFiles(d, e, o, key, contents);
    RootHeaders(d);
    RootHeaders(e);
  }
}
