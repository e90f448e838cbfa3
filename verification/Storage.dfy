/** The simulated disk seen as whole sectors, and the file header kept in one of them (filesys/filehdr.cc). */
module Storage {
  import opened Bytes
  import opened BitMaps
  import opened DiskGeometry

  const NUM_DIRECT := (SECTOR_SIZE - 2 * 4) / 4
  const MAX_FILE_SIZE := NUM_DIRECT * SECTOR_SIZE

  type Sector = s: seq<byte> | |s| == SECTOR_SIZE witness seq(SECTOR_SIZE, _ => 0)
  type Store = d: seq<Sector> | |d| == NUM_SECTORS witness ZeroStore()

  function ZeroStore(): (d: seq<Sector>)
    ensures |d| == NUM_SECTORS
  {
    seq(NUM_SECTORS, _ => ZeroSector())
  }

  function ZeroSector(): Sector {
    seq(SECTOR_SIZE, _ => 0)
  }

  /** The disk as the file system sees it: one whole sector at a time, each access one step. */
  class SynchDisk {
    var sectors: Store

    method ReadSector(sector: int) returns (data: Sector)
      requires 0 <= sector < NUM_SECTORS
      ensures data == sectors[sector]
    {
      data := sectors[sector];
    }

    method WriteSector(sector: int, data: Sector)
      requires 0 <= sector < NUM_SECTORS
      modifies this
      ensures sectors == old(sectors)[sector := data]
    {
      sectors := sectors[sector := data];
    }
  }

  // ---- file headers as values ----

  type DataSectors = s: seq<int32> | |s| == NUM_DIRECT witness seq(NUM_DIRECT, _ => 0)

  datatype Header = Header(numBytes: int32, numSectors: int32, dataSectors: DataSectors)

  /** The header's own memory image: it fills one sector exactly. */
  function HeaderBytes(h: Header): (s: Sector) {
    IntsRoundTrip([h.numBytes, h.numSectors] + h.dataSectors);
    IntsBytes([h.numBytes, h.numSectors] + h.dataSectors)
  }

  function HeaderOf(s: Sector): (h: Header) {
    var ns := BytesInts(s, NUM_DIRECT + 2);
    Header(ns[0], ns[1], ns[2..])
  }

  lemma HeaderRoundTrip(h: Header)
    ensures HeaderOf(HeaderBytes(h)) == h
  {
    IntsRoundTrip([h.numBytes, h.numSectors] + h.dataSectors);
    assert ([h.numBytes, h.numSectors] + h.dataSectors)[2..] == h.dataSectors;
  }

  /** Where the fields are in the sector: the size, the number of sectors, then the sectors in the order of the file. */
  lemma HeaderLayout(h: Header, i: nat)
    requires i < NUM_DIRECT
    ensures HeaderBytes(h)[0..4] == IntBytes(h.numBytes) && HeaderBytes(h)[4..8] == IntBytes(h.numSectors)
    ensures HeaderBytes(h)[8 + 4 * i..12 + 4 * i] == IntBytes(h.dataSectors[i])
  {
    var ns: seq<int32> := [h.numBytes, h.numSectors] + h.dataSectors;
    IntsAt(ns, 0);
    IntsAt(ns, 1);
    IntsAt(ns, i + 2);
  }

  /** What Allocate leaves behind: a size in range, and that many distinct sectors of the disk. */
  ghost predicate Sound(h: Header) {
    && 0 <= h.numBytes <= MAX_FILE_SIZE
    && h.numSectors == DivRoundUp(h.numBytes, SECTOR_SIZE)
    && (forall i :: 0 <= i < h.numSectors ==> 0 <= h.dataSectors[i] < NUM_SECTORS)
    && (forall i, j :: 0 <= i < j < h.numSectors ==> h.dataSectors[i] != h.dataSectors[j])
  }

  lemma SoundSectors(h: Header)
    requires Sound(h)
    ensures 0 <= h.numSectors <= NUM_DIRECT
    ensures h.numBytes <= h.numSectors * SECTOR_SIZE < h.numBytes + SECTOR_SIZE
  {}

  /** The sectors holding the file's data. */
  ghost function DataSet(h: Header): (s: set<nat>)
    requires Sound(h)
    ensures forall i :: 0 <= i < h.numSectors ==> h.dataSectors[i] in s
    ensures forall x :: x in s ==> x < NUM_SECTORS
  {
    SoundSectors(h);
    set i | 0 <= i < h.numSectors :: h.dataSectors[i] as nat
  }

  ghost function Blocks(d: Store, h: Header): (b: seq<seq<byte>>)
    requires Sound(h)
    ensures |b| == h.numSectors && AllOfSize(b, SECTOR_SIZE)
  {
    SoundSectors(h);
    seq(h.numSectors, i requires 0 <= i < h.numSectors => d[h.dataSectors[i]])
  }

  /** All the bytes of the file's sectors, end to end, including those past the end of the file. */
  ghost function Data(d: Store, h: Header): (b: seq<byte>)
    requires Sound(h)
    ensures |b| == h.numSectors * SECTOR_SIZE
  {
    FlattenLength(Blocks(d, h), SECTOR_SIZE);
    Flatten(Blocks(d, h))
  }

  /** The byte string a file stands for. */
  ghost function Contents(d: Store, h: Header): (b: seq<byte>)
    requires Sound(h)
    ensures |b| == h.numBytes
  {
    SoundSectors(h);
    Data(d, h)[..h.numBytes]
  }

  lemma BlockOf(d: Store, h: Header, i: nat)
    requires Sound(h) && i < h.numSectors
    ensures 0 <= i * SECTOR_SIZE && (i + 1) * SECTOR_SIZE <= |Data(d, h)|
    ensures Data(d, h)[i * SECTOR_SIZE..(i + 1) * SECTOR_SIZE] == d[h.dataSectors[i]]
  {
    FlattenAt(Blocks(d, h), SECTOR_SIZE, i);
  }

  /** A byte of the file lives where ByteToSector says it does. */
  lemma DataAt(d: Store, h: Header, k: nat)
    requires Sound(h) && k < h.numSectors * SECTOR_SIZE
    ensures k / SECTOR_SIZE < h.numSectors
    ensures Data(d, h)[k] == d[h.dataSectors[k / SECTOR_SIZE]][k % SECTOR_SIZE]
  {
    var i := k / SECTOR_SIZE;
    BlockOf(d, h, i);
    assert Data(d, h)[k] == Data(d, h)[i * SECTOR_SIZE..(i + 1) * SECTOR_SIZE][k - i * SECTOR_SIZE];
  }

  /** A file's bytes depend on its own sectors only. */
  lemma ContentsFrame(d: Store, e: Store, h: Header)
    requires Sound(h)
    requires forall s :: s in DataSet(h) ==> d[s] == e[s]
    ensures Contents(d, h) == Contents(e, h)
  {
    assert Blocks(d, h) == Blocks(e, h);
  }

  lemma AllocatedSound(h: Header, taken: seq<nat>, used: set<nat>)
    requires 0 <= h.numBytes <= MAX_FILE_SIZE && h.numSectors == DivRoundUp(h.numBytes, SECTOR_SIZE)
    requires h.numSectors == |taken| && taken == h.dataSectors[..h.numSectors]
    requires Smallest(used, NUM_SECTORS, taken)
    ensures Sound(h) && DataSet(h) == Elements(taken)
  {
    forall i | 0 <= i < h.numSectors
      ensures h.dataSectors[i] == taken[i]
    {}
  }

  class FileHeader {
    var numBytes: int32
    var numSectors: int32
    var dataSectors: DataSectors

    ghost function Value(): Header
      reads this
    {
      Header(numBytes, numSectors, dataSectors)
    }

    constructor ()
    {
      numBytes, numSectors, dataSectors := *, *, *;
    }

    /** Takes the smallest free sectors for the data, or fails and takes none. */
    method Allocate(freeMap: BitMap, fileSize: int32) returns (ok: bool)
      requires freeMap.Valid() && freeMap.numBits == NUM_SECTORS
      requires 0 <= fileSize <= MAX_FILE_SIZE
      modifies this, freeMap.words
      ensures ok <==> |Free(old(freeMap.Used()), NUM_SECTORS)| >= DivRoundUp(fileSize, SECTOR_SIZE)
      ensures !ok ==> freeMap.Used() == old(freeMap.Used())
      ensures ok ==>
        && Sound(Value()) && numBytes == fileSize
        && Smallest(old(freeMap.Used()), NUM_SECTORS, dataSectors[..numSectors])
        && freeMap.Used() == old(freeMap.Used()) + DataSet(Value())
        && |Free(freeMap.Used(), NUM_SECTORS)| == |Free(old(freeMap.Used()), NUM_SECTORS)| - numSectors
    {
      ghost var used := freeMap.Used();
      numBytes := fileSize;
      numSectors := DivRoundUp(fileSize, SECTOR_SIZE);
      var clear := freeMap.NumClear();
      if clear < numSectors {
        return false;
      }
      ghost var taken: seq<nat> := [];
      for i := 0 to numSectors
        invariant numBytes == fileSize && numSectors == DivRoundUp(fileSize, SECTOR_SIZE)
        invariant |taken| == i && taken == dataSectors[..i]
        invariant Smallest(used, NUM_SECTORS, taken)
        invariant freeMap.Used() == used + Elements(taken)
      {
        var s := freeMap.FindAgain(used, taken);
        taken := taken + [s];
        dataSectors := dataSectors[i := s];
      }
      FreeAfter(used, NUM_SECTORS, taken);
      AllocatedSound(Value(), taken, used);
      return true;
    }

    /** Gives every data sector back; each ought to be marked. */
    method Deallocate(freeMap: BitMap)
      requires freeMap.Valid() && freeMap.numBits == NUM_SECTORS
      requires Sound(Value()) && DataSet(Value()) <= freeMap.Used()
      modifies freeMap.words
      ensures freeMap.Used() == old(freeMap.Used()) - DataSet(Value())
    {
      ghost var used := freeMap.Used();
      SoundSectors(Value());
      for i := 0 to numSectors
        invariant freeMap.Used() == used - (set j | 0 <= j < i :: dataSectors[j] as nat)
      {
        var marked := freeMap.Test(dataSectors[i]);
        assert marked;
        freeMap.Clear(dataSectors[i]);
      }
    }

    method FetchFrom(disk: SynchDisk, sector: int)
      requires 0 <= sector < NUM_SECTORS
      modifies this
      ensures Value() == HeaderOf(disk.sectors[sector])
    {
      var data := disk.ReadSector(sector);
      var h := HeaderOf(data);
      numBytes, numSectors, dataSectors := h.numBytes, h.numSectors, h.dataSectors;
    }

    method WriteBack(disk: SynchDisk, sector: int)
      requires 0 <= sector < NUM_SECTORS
      modifies disk
      ensures disk.sectors == old(disk.sectors)[sector := HeaderBytes(Value())]
    {
      disk.WriteSector(sector, HeaderBytes(Header(numBytes, numSectors, dataSectors)));
    }

    function ByteToSector(offset: nat): int32
      requires offset / SECTOR_SIZE < NUM_DIRECT
      reads this
    {
      dataSectors[offset / SECTOR_SIZE]
    }
  }
}
