/**
 A formatted disk: the layout read off the disk itself, whose bit map and directory are files stored on it,
 and the steps the operations of filesys/filesys.cc take between such disks.
 */
module FormattedDisk {
  import opened Bytes
  import opened BitMaps
  import opened DiskGeometry
  import opened Storage
  import opened OpenFiles
  import opened Directories
  import opened DiskLayout
  import opened DiskSpace

  const FREE_MAP_SECTOR := 0
  const DIRECTORY_SECTOR := 1
  const FREE_MAP_FILE_SIZE := NUM_SECTORS / 8
  const NUM_DIR_ENTRIES := 10
  const DIRECTORY_FILE_SIZE := ENTRY_SIZE * NUM_DIR_ENTRIES
  const MAP_WORDS := NUM_SECTORS / BITS_IN_WORD

  /** The two well-known headers describe files of the right sizes. */
  ghost predicate HasRoots(d: Store) {
    var m, t := HeaderOf(d[FREE_MAP_SECTOR]), HeaderOf(d[DIRECTORY_SECTOR]);
    && Sound(m) && m.numBytes == FREE_MAP_FILE_SIZE
    && Sound(t) && t.numBytes == DIRECTORY_FILE_SIZE
  }

  ghost function MapHeader(d: Store): (h: Header)
    requires HasRoots(d)
    ensures Sound(h) && h.numBytes == FREE_MAP_FILE_SIZE
  {
    HeaderOf(d[FREE_MAP_SECTOR])
  }

  ghost function DirHeader(d: Store): (h: Header)
    requires HasRoots(d)
    ensures Sound(h) && h.numBytes == DIRECTORY_FILE_SIZE
  {
    HeaderOf(d[DIRECTORY_SECTOR])
  }

  type Table = t: seq<Entry> | |t| == NUM_DIR_ENTRIES witness EmptyTable()

  function EmptyTable(): (t: seq<Entry>)
    ensures |t| == NUM_DIR_ENTRIES
  {
    seq(NUM_DIR_ENTRIES, _ => EmptyEntry())
  }

  function EmptyEntry(): Entry {
    seq(ENTRY_SIZE, _ => 0)
  }

  /** The directory stored on the disk. */
  ghost function StoredTable(d: Store): Table
    requires HasRoots(d)
  {
    Entries(Contents(d, DirHeader(d)), NUM_DIR_ENTRIES)
  }

  /** The sectors marked by the bit map stored on the disk. */
  ghost function StoredMarks(d: Store): set<nat>
    requires HasRoots(d)
  {
    Marks(BytesWords(Contents(d, MapHeader(d)), MAP_WORDS), NUM_SECTORS)
  }

  // ---- the layout of a disk ----

  ghost function Sectors(head: int, h: Header): set<nat>
    requires Sound(h) && head >= 0
  {
    {head as nat} + DataSet(h)
  }

  ghost function FileAt(d: Store, key: seq<byte>, head: int): (f: Owner)
    ensures f.File? && f.key == key && f.head == head
  {
    if 0 <= head < NUM_SECTORS && Sound(HeaderOf(d[head])) then
      File(key, head, HeaderOf(d[head]), Sectors(head, HeaderOf(d[head])))
    else
      File(key, head, Header(0, 0, seq(NUM_DIRECT, _ => 0)), {})
  }

  ghost function OwnerAt(d: Store, t: Table, o: nat): Owner
    requires o < OWNERS
  {
    if o < 2 then FileAt(d, [], o)
    else if InUse(t[o - 2]) then FileAt(d, KeyOf(t[o - 2]), SectorOf(t[o - 2]))
    else Nobody
  }

  /** `l` lists the owners that the table `t` and the headers on `d` give. */
  ghost predicate Describes(d: Store, t: Table, l: Layout) {
    |l.owners| == OWNERS && forall o :: 0 <= o < OWNERS ==> l.owners[o] == OwnerAt(d, t, o)
  }

  ghost function View(d: Store): (l: Layout)
    requires HasRoots(d)
    ensures Describes(d, StoredTable(d), l) && l.used == StoredMarks(d)
  {
    Layout(seq(OWNERS, o requires 0 <= o < OWNERS => OwnerAt(d, StoredTable(d), o)), StoredMarks(d))
  }

  lemma DescribesUnique(d: Store, l: Layout)
    requires HasRoots(d) && Describes(d, StoredTable(d), l) && l.used == StoredMarks(d)
    ensures l == View(d)
  {}

  /** A disk on which every sector has at most one owner and the stored bit map marks exactly the owned ones. */
  ghost predicate Formatted(d: Store) {
    HasRoots(d) && Consistent(View(d))
  }

  /** The bytes each owner holds on the disk. */
  ghost function BytesOn(d: Store): Owner -> seq<byte> {
    (f: Owner) => if f.File? && Sound(f.header) then Contents(d, f.header) else []
  }

  /** What the disk implements: a finite map from names to byte strings. */
  ghost function FileMap(d: Store): map<seq<byte>, seq<byte>> {
    if HasRoots(d) then Files(BytesOn(d), View(d)) else map[]
  }

  // ---- what a change elsewhere leaves alone ----

  ghost predicate SameOutside(d: Store, e: Store, x: set<nat>) {
    forall s :: 0 <= s < NUM_SECTORS && s !in x ==> e[s] == d[s]
  }

  /** The data sectors of the bit map and of the directory. */
  ghost function MetaSectors(l: Layout): set<nat>
    requires Rooted(l)
  {
    l.owners[0].sectors + l.owners[1].sectors - {0, 1}
  }

  /** Updating the metadata and sectors in use by nobody keeps every header ... */
  lemma HeadKept(d: Store, e: Store, l: Layout, x: set<nat>, o: nat)
    requires Consistent(l) && Live(l, o)
    requires x !! l.used && SameOutside(d, e, MetaSectors(l) + x)
    ensures e[l.owners[o].head] == d[l.owners[o].head]
  {
    var f := l.owners[o];
    assert OwnerSound(f) && f.head in f.sectors;
    FileIsUsed(l, o);
    assert Live(l, 0) && Live(l, 1);
    if o >= 2 {
      assert f.sectors !! l.owners[0].sectors && f.sectors !! l.owners[1].sectors;
    }
  }

  lemma FileAtKept(d: Store, e: Store, key: seq<byte>, head: int)
    requires 0 <= head < NUM_SECTORS && e[head] == d[head]
    ensures FileAt(e, key, head) == FileAt(d, key, head)
  {}

  /** ... so every owner that is still in the table, ... */
  lemma OwnerKept(d: Store, e: Store, t: Table, u: Table, l: Layout, x: set<nat>, o: nat)
    requires Describes(d, t, l) && Consistent(l) && Live(l, o)
    requires x !! l.used && SameOutside(d, e, MetaSectors(l) + x)
    requires o >= 2 ==> u[o - 2] == t[o - 2]
    ensures OwnerAt(e, u, o) == l.owners[o]
  {
    HeadKept(d, e, l, x, o);
    assert OwnerSound(l.owners[o]);
    FileAtKept(d, e, l.owners[o].key, l.owners[o].head);
  }

  /** ... and the contents of every file. */
  lemma ContentsKept(d: Store, e: Store, l: Layout, x: set<nat>, o: nat)
    requires Consistent(l) && Live(l, o) && o >= 2
    requires x !! l.used && SameOutside(d, e, MetaSectors(l) + x)
    ensures BytesOn(e)(l.owners[o]) == BytesOn(d)(l.owners[o])
  {
    var f := l.owners[o];
    assert OwnerSound(f);
    FileIsUsed(l, o);
    assert Live(l, 0) && Live(l, 1);
    assert f.sectors !! l.owners[0].sectors && f.sectors !! l.owners[1].sectors;
    ContentsFrame(d, e, f.header);
  }

  lemma AllContentsKept(d: Store, e: Store, l: Layout, x: set<nat>)
    requires Consistent(l)
    requires x !! l.used && SameOutside(d, e, MetaSectors(l) + x)
    ensures Files(BytesOn(e), l) == Files(BytesOn(d), l)
  {
    forall key | key in Names(l)
      ensures Files(BytesOn(e), l)[key] == Files(BytesOn(d), l)[key]
    {
      ContentsKept(d, e, l, x, OwnerOf(l, key));
    }
  }

  // ---- Create ----

  ghost function NewFile(name: Name, sector: nat, h: Header): Owner
    requires Sound(h)
  {
    File(Key(name), sector, h, {sector} + DataSet(h))
  }

  /** A successful Create: a header in a free sector, data in further free sectors, an entry in a free slot. */
  ghost predicate CreatedIn(d: Store, e: Store, t: Table, l: Layout, slot: nat, name: Name, sector: nat, h: Header) {
    && Rooted(l) && Sound(h) && slot < NUM_DIR_ENTRIES && sector < NUM_SECTORS
    && !InUse(t[slot]) && Key(name) !in Names(l)
    && sector !in l.used && sector !in DataSet(h) && DataSet(h) !! l.used
    && SameOutside(d, e, MetaSectors(l) + {sector})
    && e[sector] == HeaderBytes(h)
  }

  lemma CreatedOwner(e: Store, t: Table, slot: nat, name: Name, sector: nat, h: Header)
    requires Sound(h) && slot < NUM_DIR_ENTRIES && sector < NUM_SECTORS && e[sector] == HeaderBytes(h)
    ensures OwnerAt(e, t[slot := Filled(t[slot], name, sector)], slot + 2) == NewFile(name, sector, h)
  {
    HeaderRoundTrip(h);
  }

  lemma CreatedView(d: Store, e: Store, t: Table, l: Layout, slot: nat, name: Name, sector: nat, h: Header)
    requires Describes(d, t, l) && Consistent(l) && CreatedIn(d, e, t, l, slot, name, sector, h)
    ensures CanPut(l, slot + 2, NewFile(name, sector, h))
    ensures Describes(e, t[slot := Filled(t[slot], name, sector)], Put(l, slot + 2, NewFile(name, sector, h)))
  {
    hide Contents;
    hide HeaderOf;
    hide Sound;
    hide DataSet;
    hide FileAt;
    var u, m := t[slot := Filled(t[slot], name, sector)], Put(l, slot + 2, NewFile(name, sector, h));
    forall o | 0 <= o < OWNERS
      ensures m.owners[o] == OwnerAt(e, u, o)
    {
      if o == slot + 2 {
        CreatedOwner(e, t, slot, name, sector, h);
      } else if Live(l, o) {
        OwnerKept(d, e, t, u, l, {sector}, o);
      }
    }
    assert l.owners[slot + 2] == OwnerAt(d, t, slot + 2);
  }

  /** Create keeps the layout consistent and adds exactly one name. */
  lemma CreatedFilesIn(d: Store, e: Store, t: Table, l: Layout, slot: nat, name: Name, sector: nat, h: Header)
    requires Describes(d, t, l) && Consistent(l) && CreatedIn(d, e, t, l, slot, name, sector, h)
    ensures var m := Put(l, slot + 2, NewFile(name, sector, h));
      && CanPut(l, slot + 2, NewFile(name, sector, h))
      && Describes(e, t[slot := Filled(t[slot], name, sector)], m)
      && Consistent(m) && Files(BytesOn(e), m) == Files(BytesOn(d), l)[Key(name) := Contents(e, h)]
  {
    var f := NewFile(name, sector, h);
    CreatedView(d, e, t, l, slot, name, sector, h);
    PutConsistent(l, slot + 2, f);
    AllContentsKept(d, e, l, {sector});
    FilesPut(BytesOn(e), l, slot + 2, f);
  }

  ghost predicate Created(d: Store, e: Store, slot: nat, name: Name, sector: nat, h: Header)
    requires Formatted(d)
  {
    && CreatedIn(d, e, StoredTable(d), View(d), slot, name, sector, h)
    && HasRoots(e)
    && StoredTable(e) == StoredTable(d)[slot := Filled(StoredTable(d)[slot], name, sector)]
    && StoredMarks(e) == StoredMarks(d) + ({sector} + DataSet(h))
  }

  /** Create keeps the disk formatted and adds exactly one name, whose file is as long as asked. */
  lemma CreatedFiles(d: Store, e: Store, slot: nat, name: Name, sector: nat, h: Header)
    requires Formatted(d) && Created(d, e, slot, name, sector, h)
    ensures Formatted(e)
    ensures CanPut(View(d), slot + 2, NewFile(name, sector, h))
    ensures View(e) == Put(View(d), slot + 2, NewFile(name, sector, h))
    ensures FileMap(e) == FileMap(d)[Key(name) := Contents(e, h)]
  {
    CreatedFilesIn(d, e, StoredTable(d), View(d), slot, name, sector, h);
    DescribesUnique(e, Put(View(d), slot + 2, NewFile(name, sector, h)));
  }

  // ---- Remove ----

  lemma RemovedFilesIn(d: Store, e: Store, t: Table, l: Layout, slot: nat)
    requires Describes(d, t, l) && Consistent(l) && SameOutside(d, e, MetaSectors(l))
    requires slot < NUM_DIR_ENTRIES && Live(l, slot + 2)
    ensures Describes(e, t[slot := Emptied(t[slot])], Drop(l, slot + 2))
    ensures Consistent(Drop(l, slot + 2))
    ensures Files(BytesOn(e), Drop(l, slot + 2)) == Files(BytesOn(d), l) - {l.owners[slot + 2].key}
  {
    hide Contents;
    hide HeaderOf;
    hide Sound;
    hide DataSet;
    hide FileAt;
    var u, m := t[slot := Emptied(t[slot])], Drop(l, slot + 2);
    assert SameOutside(d, e, MetaSectors(l) + {});
    forall o | 0 <= o < OWNERS
      ensures m.owners[o] == OwnerAt(e, u, o)
    {
      if o != slot + 2 && Live(l, o) {
        OwnerKept(d, e, t, u, l, {}, o);
      }
    }
    DropConsistent(l, slot + 2);
    AllContentsKept(d, e, l, {});
    FilesDrop(BytesOn(e), l, slot + 2);
  }

  /** A successful Remove: the entry is emptied and the file's sectors are given back. */
  ghost predicate Removed(d: Store, e: Store, slot: nat, key: seq<byte>)
    requires Formatted(d)
  {
    && slot < NUM_DIR_ENTRIES && OwnsKey(View(d), slot + 2, key)
    && SameOutside(d, e, MetaSectors(View(d)))
    && HasRoots(e)
    && StoredTable(e) == StoredTable(d)[slot := Emptied(StoredTable(d)[slot])]
    && StoredMarks(e) == StoredMarks(d) - View(d).owners[slot + 2].sectors
  }

  /** Remove keeps the disk formatted and takes exactly that name away. */
  lemma RemovedFiles(d: Store, e: Store, slot: nat, key: seq<byte>)
    requires Formatted(d) && Removed(d, e, slot, key)
    ensures Formatted(e)
    ensures View(e) == Drop(View(d), slot + 2)
    ensures FileMap(e) == FileMap(d) - {key}
  {
    RemovedFilesIn(d, e, StoredTable(d), View(d), slot);
    DescribesUnique(e, Drop(View(d), slot + 2));
  }

  /** Create, then Remove of that name: the same owners, the same free sectors and the same files as before. */
  lemma CreateRemove(d: Store, e: Store, g: Store, slot: nat, name: Name, sector: nat, h: Header, gone: nat)
    requires Formatted(d) && Created(d, e, slot, name, sector, h)
    requires Formatted(e) && Removed(e, g, gone, Key(name))
    ensures Formatted(g) && View(g) == View(d) && StoredMarks(g) == StoredMarks(d)
    ensures FileMap(g) == FileMap(d)
  {
    var l, f := View(d), NewFile(name, sector, h);
    hide Contents;
    CreatedFiles(d, e, slot, name, sector, h);
    RemovedFiles(e, g, gone, Key(name));
    DropPut(l, slot + 2, f, gone + 2);
    FilesKeys(BytesOn(d), l, f.key);
    UpdateRemove(FileMap(d), f.key, Contents(e, h));
  }

  // ---- writing a file ----

  /** Writing a listed file: only its data sectors change, and its contents become `contents`. */
  ghost predicate Written(d: Store, e: Store, o: nat, key: seq<byte>, contents: seq<byte>)
    requires Formatted(d)
  {
    && OwnsKey(View(d), o, key)
    && SameOutside(d, e, DataSet(View(d).owners[o].header))
    && Contents(e, View(d).owners[o].header) == contents
  }

  lemma WrittenElsewhere(d: Store, e: Store, l: Layout, o: nat, p: nat)
    requires Consistent(l) && Live(l, o) && Live(l, p)
    requires SameOutside(d, e, DataSet(l.owners[o].header))
    ensures e[l.owners[p].head] == d[l.owners[p].head]
    ensures p != o ==> BytesOn(e)(l.owners[p]) == BytesOn(d)(l.owners[p])
  {
    assert OwnerSound(l.owners[p]) && OwnerSound(l.owners[o]);
    if p != o {
      assert l.owners[p].sectors !! l.owners[o].sectors;
      ContentsFrame(d, e, l.owners[p].header);
    }
  }

  lemma WrittenView(d: Store, e: Store, t: Table, l: Layout, o: nat)
    requires Describes(d, t, l) && Consistent(l) && 2 <= o && Live(l, o)
    requires SameOutside(d, e, DataSet(l.owners[o].header))
    ensures Describes(e, t, l)
  {
    hide Contents;
    hide HeaderOf;
    hide Sound;
    hide DataSet;
    hide FileAt;
    forall p | 0 <= p < OWNERS
      ensures l.owners[p] == OwnerAt(e, t, p)
    {
      if Live(l, p) {
        WrittenElsewhere(d, e, l, o, p);
        assert OwnerSound(l.owners[p]);
        FileAtKept(d, e, l.owners[p].key, l.owners[p].head);
      }
    }
  }

  lemma WrittenFilesIn(d: Store, e: Store, l: Layout, o: nat)
    requires Consistent(l) && 2 <= o && Live(l, o)
    requires SameOutside(d, e, DataSet(l.owners[o].header))
    ensures Files(BytesOn(e), l) == Files(BytesOn(d), l)[l.owners[o].key := BytesOn(e)(l.owners[o])]
  {
    forall p | Live(l, p) && p >= 2 && p != o
      ensures BytesOn(e)(l.owners[p]) == BytesOn(d)(l.owners[p])
    {
      WrittenElsewhere(d, e, l, o, p);
    }
    FilesChange(BytesOn(d), BytesOn(e), l, o);
  }

  lemma WrittenMeta(d: Store, e: Store, o: nat)
    requires Formatted(d) && 2 <= o && Live(View(d), o)
    requires SameOutside(d, e, DataSet(View(d).owners[o].header))
    ensures HasRoots(e) && StoredTable(e) == StoredTable(d) && StoredMarks(e) == StoredMarks(d)
  {
    var l := View(d);
    assert Live(l, 0) && Live(l, 1);
    RootHeaders(d);
    WrittenElsewhere(d, e, l, o, 0);
    WrittenElsewhere(d, e, l, o, 1);
  }

  lemma RootHeaders(d: Store)
    requires Formatted(d)
    ensures View(d).owners[0].header == MapHeader(d) && View(d).owners[1].header == DirHeader(d)
    ensures View(d).owners[0].sectors == {0} + DataSet(MapHeader(d))
    ensures View(d).owners[1].sectors == {1} + DataSet(DirHeader(d))
  {
    assert View(d).owners[0] == OwnerAt(d, StoredTable(d), 0);
    assert View(d).owners[1] == OwnerAt(d, StoredTable(d), 1);
  }

  /** Writing one file changes no other file, nor the bit map, nor the directory. */
  lemma WrittenFiles(d: Store, e: Store, o: nat, key: seq<byte>, contents: seq<byte>)
    requires Formatted(d) && Written(d, e, o, key, contents)
    ensures Formatted(e) && View(e) == View(d)
    ensures FileMap(e) == FileMap(d)[key := contents]
  {
    WrittenView(d, e, StoredTable(d), View(d), o);
    WrittenFilesIn(d, e, View(d), o);
    assert OwnerSound(View(d).owners[o]);
    WrittenMeta(d, e, o);
    DescribesUnique(e, View(d));
  }

  // ---- whole runs ----

  datatype Op =
    | Make(name: Name, size: int32)
    | Unlink(name: Name)
    | Fill(name: Name, from: seq<byte>, numBytes: int, position: nat)

  /** Create succeeds exactly here: the name is new, a slot is free, and header and data fit. */
  ghost predicate CanCreate(d: Store, name: Name, size: int32)
    requires HasRoots(d) && 0 <= size
  {
    && Key(name) !in FileMap(d)
    && (exists i :: 0 <= i < NUM_DIR_ENTRIES && !InUse(StoredTable(d)[i]))
    && |Free(StoredMarks(d), NUM_SECTORS)| >= 1 + DivRoundUp(size, SECTOR_SIZE)
  }

  /** The same, told from the map alone: the bit map and the directory take two sectors each. */
  ghost predicate CanMake(m: map<seq<byte>, seq<byte>>, name: Name, size: int32) {
    && 0 <= size && Key(name) !in m && |m| < NUM_DIR_ENTRIES
    && 1 + DivRoundUp(size, SECTOR_SIZE) + Space(m) <= NUM_SECTORS - 4
  }

  lemma RootSizes(d: Store)
    requires Formatted(d)
    ensures Roots(View(d)) == 4 && Sized(BytesOn(d), View(d))
  {
    hide Contents;
    hide StoredTable;
    hide StoredMarks;
    var l := View(d);
    RootHeaders(d);
    assert OwnerSound(l.owners[0]) && OwnerSound(l.owners[1]);
    OwnerSize(l.owners[0]);
    OwnerSize(l.owners[1]);
    forall o | 2 <= o && Live(l, o)
      ensures |BytesOn(d)(l.owners[o])| == l.owners[o].header.numBytes
    {
      assert OwnerSound(l.owners[o]);
    }
  }

  lemma VacantSlots(d: Store)
    requires HasRoots(d)
    ensures |View(d).owners| == OWNERS
    ensures (exists i :: 0 <= i < NUM_DIR_ENTRIES && !InUse(StoredTable(d)[i])) <==> |Vacant(View(d))| > 0
  {
    hide StoredTable;
    hide StoredMarks;
    var t, l := StoredTable(d), View(d);
    forall i | 0 <= i < NUM_DIR_ENTRIES
      ensures !InUse(t[i]) <==> i + 2 in Vacant(l)
    {
      assert l.owners[i + 2] == OwnerAt(d, t, i + 2);
    }
    if |Vacant(l)| > 0 {
      var o :| o in Vacant(l);
      assert !InUse(t[o - 2]);
    }
  }

  /** Whether a file can be created does not depend on where on the disk the others are. */
  lemma CanCreateIff(d: Store, name: Name, size: int32)
    requires 0 <= size && Formatted(d)
    ensures CanCreate(d, name, size) <==> CanMake(FileMap(d), name, size)
  {
    VacantSlots(d);
    RootSizes(d);
    hide Contents;
    hide StoredTable;
    hide StoredMarks;
    hide Free;
    hide Vacant;
    hide Space;
    hide Files;
    Accounts(BytesOn(d), View(d));
  }

  /** One operation on the disk, succeeding or failing. */
  ghost predicate Step(d: Store, op: Op, e: Store) {
    Formatted(d) &&
    match op
    case Make(name, size) => MakeStep(d, name, size, e)
    case Unlink(name) => UnlinkStep(d, name, e)
    case Fill(name, from, numBytes, position) => numBytes <= |from| && FillStep(d, name, from, numBytes, position, e)
  }

  ghost predicate MakeStep(d: Store, name: Name, size: int32, e: Store)
    requires Formatted(d)
  {
    0 <= size &&
    if CanCreate(d, name, size) then
      exists slot: nat, sector: nat, h: Header :: h.numBytes == size && Created(d, e, slot, name, sector, h)
    else e == d
  }

  ghost predicate UnlinkStep(d: Store, name: Name, e: Store)
    requires Formatted(d)
  {
    if Key(name) in FileMap(d) then exists slot: nat :: Removed(d, e, slot, Key(name)) else e == d
  }

  ghost predicate FillStep(d: Store, name: Name, from: seq<byte>, numBytes: int, position: nat, e: Store)
    requires Formatted(d) && numBytes <= |from|
  {
    if Key(name) in FileMap(d) then
      exists o: nat :: Written(d, e, o, Key(name), Overwrite(FileMap(d)[Key(name)], from, numBytes, position))
    else e == d
  }

  /** The same operation on a map from names to byte strings. */
  ghost predicate MapStep(m: map<seq<byte>, seq<byte>>, op: Op, n: map<seq<byte>, seq<byte>>) {
    match op
    case Make(name, size) =>
      if CanMake(m, name, size) then
        Key(name) in n && |n[Key(name)]| == size && n == m[Key(name) := n[Key(name)]]
      else n == m
    case Unlink(name) => n == m - {Key(name)}
    case Fill(name, from, numBytes, position) =>
      if Key(name) in m && numBytes <= |from| then
        n == m[Key(name) := Overwrite(m[Key(name)], from, numBytes, position)]
      else n == m
  }

  lemma MakeRefines(d: Store, name: Name, size: int32, e: Store)
    requires Formatted(d) && MakeStep(d, name, size, e)
    ensures Formatted(e) && MapStep(FileMap(d), Make(name, size), FileMap(e))
    ensures FileMap(e) != FileMap(d) <==> CanCreate(d, name, size)
  {
    var can := CanCreate(d, name, size);
    hide Contents;
    hide View;
    hide Formatted;
    hide FileMap;
    hide Created;
    hide CanCreate;
    hide CanMake;
    CanCreateIff(d, name, size);
    if can {
      var slot: nat, sector: nat, h: Header :| h.numBytes == size && Created(d, e, slot, name, sector, h);
      MakeOne(d, name, size, e, slot, sector, h);
    }
  }

  lemma MakeOne(d: Store, name: Name, size: int32, e: Store, slot: nat, sector: nat, h: Header)
    requires h.numBytes == size && Formatted(d) && Created(d, e, slot, name, sector, h)
    ensures Formatted(e) && FileMap(e) != FileMap(d)
    ensures Key(name) in FileMap(e) && |FileMap(e)[Key(name)]| == size
    ensures FileMap(e) == FileMap(d)[Key(name) := FileMap(e)[Key(name)]]
  {
    hide View;
    hide Formatted;
    hide FileMap;
    hide Created;
    hide Blocks;
    hide CanPut;
    CreatedFiles(d, e, slot, name, sector, h);
    CreatedIsNew(d, e, slot, name, sector, h);
    assert FileMap(e)[Key(name)] == Contents(e, h);
  }

  lemma CreatedIsNew(d: Store, e: Store, slot: nat, name: Name, sector: nat, h: Header)
    requires Formatted(d) && Created(d, e, slot, name, sector, h)
    ensures Sound(h) && Key(name) !in FileMap(d)
  {
    hide Contents;
    hide StoredTable;
    hide StoredMarks;
    FilesKeys(BytesOn(d), View(d), Key(name));
  }

  lemma UnlinkRefines(d: Store, name: Name, e: Store)
    requires Formatted(d) && UnlinkStep(d, name, e)
    ensures Formatted(e) && MapStep(FileMap(d), Unlink(name), FileMap(e))
  {
    hide Contents;
    hide View;
    hide Formatted;
    hide FileMap;
    hide Removed;
    if Key(name) in FileMap(d) {
      var slot: nat :| Removed(d, e, slot, Key(name));
      RemovedFiles(d, e, slot, Key(name));
    }
  }

  lemma FillRefines(d: Store, name: Name, from: seq<byte>, numBytes: int, position: nat, e: Store)
    requires Formatted(d) && numBytes <= |from| && FillStep(d, name, from, numBytes, position, e)
    ensures Formatted(e) && MapStep(FileMap(d), Fill(name, from, numBytes, position), FileMap(e))
  {
    hide Contents;
    hide View;
    hide Formatted;
    hide FileMap;
    hide Written;
    if Key(name) in FileMap(d) {
      var c := Overwrite(FileMap(d)[Key(name)], from, numBytes, position);
      var o: nat :| Written(d, e, o, Key(name), c);
      WrittenFiles(d, e, o, Key(name), c);
    }
  }

  lemma StepRefines(d: Store, op: Op, e: Store)
    requires Step(d, op, e)
    ensures Formatted(e) && MapStep(FileMap(d), op, FileMap(e))
  {
    hide Formatted;
    hide FileMap;
    hide MakeStep;
    hide UnlinkStep;
    hide FillStep;
    match op
    case Make(name, size) => MakeRefines(d, name, size, e);
    case Unlink(name) => UnlinkRefines(d, name, e);
    case Fill(name, from, numBytes, position) => FillRefines(d, name, from, numBytes, position, e);
  }

  ghost predicate Run(ds: seq<Store>, ops: seq<Op>) {
    && |ds| == |ops| + 1
    && Formatted(ds[0])
    && forall i :: 0 <= i < |ops| && Formatted(ds[i]) ==> Step(ds[i], ops[i], ds[i + 1])
  }

  /**
   After formatting and any run of creates, removes and writes, every sector has at most one owner, the stored
   bit map marks exactly the owned sectors, and each step does to the name map what its operation says.
   */
  lemma {:induction false} RunRefines(ds: seq<Store>, ops: seq<Op>, i: nat)
    requires Run(ds, ops) && i <= |ops|
    ensures Formatted(ds[i])
    ensures i < |ops| ==> MapStep(FileMap(ds[i]), ops[i], FileMap(ds[i + 1]))
  {
    hide Formatted;
    hide FileMap;
    hide Step;
    hide MapStep;
    if i > 0 {
      RunRefines(ds, ops, i - 1);
      StepRefines(ds[i - 1], ops[i - 1], ds[i]);
    }
    if i < |ops| {
      StepRefines(ds[i], ops[i], ds[i + 1]);
    }
  }
}
