/** Byte-range reads and writes over whole sectors (filesys/openfile.cc). */
module OpenFiles {
  import opened Bytes
  import opened BitMaps
  import opened DiskGeometry
  import opened Storage

  /** How many bytes a request at `position` transfers. */
  function Clamp(length: nat, numBytes: int, position: nat): (n: nat)
    ensures n > 0 ==> position + n <= length && n <= numBytes
    ensures 0 < n < numBytes ==> position + n == length
    ensures n == 0 <==> numBytes <= 0 || position >= length
  {
    if numBytes <= 0 || position >= length then 0
    else if position + numBytes > length then length - position
    else numBytes
  }

  /** How many bytes the code transfers: it forms the end of the request in an `int`. */
  function Count(length: nat31, numBytes: int32, position: nat31): (n: nat) {
    if numBytes <= 0 || position >= length then 0
    else if Wrap(position + numBytes) > length then length - position
    else numBytes
  }

  /** The request ends below 2^31, or is turned down before its end is formed. */
  predicate Fits(length: nat31, numBytes: int32, position: nat31) {
    numBytes <= 0 || position >= length || position + numBytes < 0x8000_0000
  }

  /** The code keeps to the file exactly for the requests that fit. */
  lemma CountIff(length: nat31, numBytes: int32, position: nat31)
    ensures Count(length, numBytes, position) == Clamp(length, numBytes, position) <==> Fits(length, numBytes, position)
  {
    if 0 < numBytes && 0x8000_0000 <= position + numBytes {
      assert Wrap(position + numBytes) == position + numBytes - 0x1_0000_0000;
    } else if 0 < numBytes {
      assert Wrap(position + numBytes) == position + numBytes;
    }
  }

  /** The end of this request wraps round, and 2147483647 bytes are taken from a file of two. */
  lemma CountTooLong()
    ensures Count(2, 0x7fff_ffff, 1) == 0x7fff_ffff && Clamp(2, 0x7fff_ffff, 1) == 1
  {}

  /** A file's contents after writing `from` at `position`: only the clamped range changes. */
  function Overwrite(contents: seq<byte>, from: seq<byte>, numBytes: int, position: nat): (r: seq<byte>)
    requires numBytes <= |from|
    ensures |r| == |contents|
  {
    var n := Clamp(|contents|, numBytes, position);
    if n == 0 then contents else Splice(contents, position, from[..n])
  }

  /** A piece of memory after as much of the file as fits, and as there is, has been read over it. */
  function ReadOver(memory: seq<byte>, contents: seq<byte>): (r: seq<byte>)
    ensures |r| == |memory|
    ensures |contents| == |memory| ==> r == contents
  {
    var n := Clamp(|contents|, |memory|, 0);
    Splice(memory, 0, contents[..n])
  }

  /** Writing in two chunks, of any sizes, is writing once. */
  lemma OverwriteChunks(contents: seq<byte>, a: seq<byte>, b: seq<byte>, position: nat)
    ensures Overwrite(Overwrite(contents, a, |a|, position), b, |b|, position + |a|)
         == Overwrite(contents, a + b, |a| + |b|, position)
  {
    hide Splice;
    var n := Clamp(|contents|, |a|, position);
    var m := Clamp(|contents|, |b|, position + |a|);
    if n > 0 && m > 0 {
      OverwriteBoth(contents, a, b, position, m);
    } else if n > 0 {
      assert (a + b)[..n] == a[..n];
    } else if a == [] {
      assert a + b == b;
    }
  }

  lemma OverwriteBoth(contents: seq<byte>, a: seq<byte>, b: seq<byte>, position: nat, m: nat)
    requires a != [] && m == Clamp(|contents|, |b|, position + |a|) > 0
    ensures Overwrite(Overwrite(contents, a, |a|, position), b, |b|, position + |a|)
         == Overwrite(contents, a + b, |a| + |b|, position)
  {
    SpliceSplice(contents, position, a, b[..m]);
    hide Splice;
    assert a[..|a|] == a;
    assert (a + b)[..|a| + m] == a + b[..m];
  }

  /** Writing `chunks` one after another from `position` on. */
  function OverwriteAll(contents: seq<byte>, chunks: seq<seq<byte>>, position: nat): (r: seq<byte>)
    decreases |chunks|
  {
    if chunks == [] then contents
    else
      OverwriteAll(Overwrite(contents, chunks[0], |chunks[0]|, position), chunks[1..], position + |chunks[0]|)
  }

  lemma OverwriteNothing(contents: seq<byte>, position: nat)
    ensures Overwrite(contents, [], 0, position) == contents
  {}

  lemma {:induction false} OverwriteAllChunks(contents: seq<byte>, chunks: seq<seq<byte>>, position: nat)
    ensures OverwriteAll(contents, chunks, position)
         == Overwrite(contents, Flatten(chunks), |Flatten(chunks)|, position)
    decreases |chunks|
  {
    OverwriteNothing(contents, position);
    hide Overwrite;
    if chunks != [] {
      var a, rest := chunks[0], chunks[1..];
      OverwriteAllChunks(Overwrite(contents, a, |a|, position), rest, position + |a|);
      OverwriteChunks(contents, a, Flatten(rest), position);
      assert chunks == [a] + rest;
      FlattenConcat([a], rest);
      assert Flatten([a]) == a;
    }
  }

  // ---- the write buffer ----

  /** Outside the written range, `buf` (file bytes from `base` on) agrees with the file where the file has bytes. */
  ghost predicate Keeps(buf: seq<byte>, base: nat, data: seq<byte>, length: nat, position: nat, n: nat)
    requires length <= |data|
  {
    forall k :: base <= k < base + |buf| && k < length && !(position <= k < position + n) ==> buf[k - base] == data[k]
  }

  /** `e` is `d` with blocks first up to (not including) `upTo` of the file replaced from `buf`. */
  ghost predicate Flushed(d: Store, e: Store, h: Header, buf: seq<byte>, first: nat, upTo: nat)
    requires Sound(h) && first <= upTo <= h.numSectors && |buf| >= (upTo - first) * SECTOR_SIZE
  {
    && (forall b :: first <= b < upTo ==>
          e[h.dataSectors[b]] == buf[(b - first) * SECTOR_SIZE..(b - first + 1) * SECTOR_SIZE])
    && (forall s :: 0 <= s < NUM_SECTORS && (forall b :: first <= b < upTo ==> h.dataSectors[b] != s) ==> e[s] == d[s])
  }

  lemma FlushOne(d: Store, e: Store, h: Header, buf: seq<byte>, first: nat, i: nat)
    requires Sound(h) && first <= i < h.numSectors && |buf| >= (i + 1 - first) * SECTOR_SIZE
    requires Flushed(d, e, h, buf, first, i)
    ensures var chunk := buf[(i - first) * SECTOR_SIZE..(i - first + 1) * SECTOR_SIZE];
      |chunk| == SECTOR_SIZE && Flushed(d, e[h.dataSectors[i] := chunk], h, buf, first, i + 1)
  {}

  lemma FlushedData(d: Store, e: Store, h: Header, buf: seq<byte>, first: nat, upTo: nat, k: nat)
    requires Sound(h) && first <= upTo <= h.numSectors && |buf| == (upTo - first) * SECTOR_SIZE
    requires Flushed(d, e, h, buf, first, upTo)
    requires k < h.numSectors * SECTOR_SIZE
    ensures Data(e, h)[k] ==
      if first * SECTOR_SIZE <= k < upTo * SECTOR_SIZE then buf[k - first * SECTOR_SIZE] else Data(d, h)[k]
  {
    DataAt(d, h, k);
    DataAt(e, h, k);
  }

  lemma FlushedElsewhere(d: Store, e: Store, h: Header, buf: seq<byte>, first: nat, upTo: nat)
    requires Sound(h) && first <= upTo <= h.numSectors && |buf| >= (upTo - first) * SECTOR_SIZE
    requires Flushed(d, e, h, buf, first, upTo)
    ensures forall s :: 0 <= s < NUM_SECTORS && s !in DataSet(h) ==> e[s] == d[s]
  {}

  /** Copying in the new bytes touches nothing outside the range. */
  lemma KeepsSpliced(buf: seq<byte>, base: nat, data: seq<byte>, length: nat, position: nat, from: seq<byte>)
    requires length <= |data| && base <= position && position - base + |from| <= |buf|
    requires Keeps(buf, base, data, length, position, |from|)
    ensures Keeps(Splice(buf, position - base, from), base, data, length, position, |from|)
  {}

  /** Flushing a buffer that keeps what must be kept and holds the new bytes overwrites exactly the range. */
  lemma FlushedContents(d: Store, e: Store, h: Header, buf: seq<byte>, first: nat, upTo: nat,
                        position: nat, from: seq<byte>)
    requires Sound(h) && first <= upTo <= h.numSectors && |buf| == (upTo - first) * SECTOR_SIZE
    requires first * SECTOR_SIZE <= position && position + |from| <= upTo * SECTOR_SIZE
    requires position + |from| <= h.numBytes
    requires Flushed(d, e, h, buf, first, upTo)
    requires Keeps(buf, first * SECTOR_SIZE, Data(d, h), h.numBytes, position, |from|)
    requires buf[position - first * SECTOR_SIZE..position - first * SECTOR_SIZE + |from|] == from
    ensures Contents(e, h) == Splice(Contents(d, h), position, from)
  {
    SoundSectors(h);
    var r := Splice(Contents(d, h), position, from);
    forall k | 0 <= k < h.numBytes
      ensures Contents(e, h)[k] == r[k]
    {
      FlushedData(d, e, h, buf, first, upTo, k);
      if position <= k < position + |from| {
        assert r[k] == r[position..position + |from|][k - position];
        assert buf[k - first * SECTOR_SIZE]
            == buf[position - first * SECTOR_SIZE..position - first * SECTOR_SIZE + |from|][k - position];
      }
    }
  }

  lemma SliceOfSlice(data: seq<byte>, lo: nat, hi: nat, position: nat, n: nat)
    requires lo <= position && position + n <= hi <= |data|
    ensures data[lo..hi][position - lo..][..n] == data[position..position + n]
  {}

  lemma ContentsSlice(d: Store, h: Header, position: nat, n: nat)
    requires Sound(h) && position + n <= h.numBytes
    ensures h.numBytes <= |Data(d, h)| && Contents(d, h)[position..position + n] == Data(d, h)[position..position + n]
  {
    SoundSectors(h);
  }

  lemma SliceAndSlice(data: seq<byte>, lo: nat, mid: nat, hi: nat)
    requires lo <= mid <= hi <= |data|
    ensures data[lo..mid] + data[mid..hi] == data[lo..hi]
  {}

  class OpenFile {
    const disk: SynchDisk
    const hdr: FileHeader
    var seekPosition: int32

    ghost predicate Valid()
      reads this, hdr
    {
      Sound(hdr.Value())
    }

    ghost function Bytes(): seq<byte>
      requires Valid()
      reads this, hdr, disk
    {
      Contents(disk.sectors, hdr.Value())
    }

    constructor (disk: SynchDisk, sector: int)
      requires 0 <= sector < NUM_SECTORS
      ensures this.disk == disk && fresh(hdr) && hdr.Value() == HeaderOf(disk.sectors[sector])
      ensures seekPosition == 0
    {
      this.disk := disk;
      hdr := new FileHeader();
      seekPosition := 0;
      new;
      hdr.FetchFrom(disk, sector);
    }

    method Seek(position: int32)
      modifies this
      ensures seekPosition == position
    {
      seekPosition := position;
    }

    /** All the full and partial sectors of a request. */
    method ReadSectors(firstSector: nat, lastSector: nat) returns (buf: seq<byte>)
      requires Valid() && firstSector <= lastSector < hdr.numSectors
      ensures (lastSector + 1) * SECTOR_SIZE <= |Data(disk.sectors, hdr.Value())|
      ensures buf == Data(disk.sectors, hdr.Value())[firstSector * SECTOR_SIZE..(lastSector + 1) * SECTOR_SIZE]
    {
      ghost var h, data := hdr.Value(), Data(disk.sectors, hdr.Value());
      hide Data;
      buf := [];
      var i := firstSector;
      while i <= lastSector
        invariant firstSector <= i <= lastSector + 1
        invariant i * SECTOR_SIZE <= |data| && buf == data[firstSector * SECTOR_SIZE..i * SECTOR_SIZE]
      {
        var sector := disk.ReadSector(hdr.ByteToSector(i * SECTOR_SIZE));
        BlockOf(disk.sectors, h, i);
        SliceAndSlice(data, firstSector * SECTOR_SIZE, i * SECTOR_SIZE, (i + 1) * SECTOR_SIZE);
        buf := buf + sector;
        i := i + 1;
      }
    }

    method ReadAt(numBytes: int32, position: nat31) returns (into: seq<byte>)
      requires Valid() && Fits(hdr.numBytes, numBytes, position)
      ensures |into| == Clamp(hdr.numBytes, numBytes, position)
      ensures into != [] ==> into == Bytes()[position..position + |into|]
    {
      SoundSectors(hdr.Value());
      CountIff(hdr.numBytes, numBytes, position);
      var fileLength := hdr.numBytes;
      if numBytes <= 0 || position >= fileLength {
        return [];
      }
      var n := if Wrap(position + numBytes) > fileLength then fileLength - position else numBytes;
      var firstSector := position / SECTOR_SIZE;
      var lastSector := (position + n - 1) / SECTOR_SIZE;
      var buf := ReadSectors(firstSector, lastSector);
      into := buf[position - firstSector * SECTOR_SIZE..][..n];
      hide Data;
      SliceOfSlice(Data(disk.sectors, hdr.Value()), firstSector * SECTOR_SIZE, (lastSector + 1) * SECTOR_SIZE,
                   position, n);
      ContentsSlice(disk.sectors, hdr.Value(), position, n);
    }

    method WriteAt(from: seq<byte>, numBytes: int32, position: nat31) returns (n: nat)
      requires Valid() && numBytes <= |from| && Fits(hdr.numBytes, numBytes, position)
      modifies disk
      ensures n == Clamp(hdr.numBytes, numBytes, position)
      ensures Bytes() == Overwrite(old(Bytes()), from, numBytes, position)
      ensures forall s :: 0 <= s < NUM_SECTORS && s !in DataSet(hdr.Value()) ==> disk.sectors[s] == old(disk.sectors)[s]
    {
      hide Data;
      hide Contents;
      hide DataSet;
      hide Keeps;
      hide Flushed;
      hide Splice;
      SoundSectors(hdr.Value());
      CountIff(hdr.numBytes, numBytes, position);
      var fileLength := hdr.numBytes;
      if numBytes <= 0 || position >= fileLength {
        return 0;
      }
      n := if Wrap(position + numBytes) > fileLength then fileLength - position else numBytes;
      var firstSector := position / SECTOR_SIZE;
      var lastSector := (position + n - 1) / SECTOR_SIZE;
      var buf := FillBuffer(n, position, firstSector, lastSector);
      KeepsSpliced(buf, firstSector * SECTOR_SIZE, Data(disk.sectors, hdr.Value()), hdr.numBytes, position, from[..n]);
      buf := Splice(buf, position - firstSector * SECTOR_SIZE, from[..n]);
      Flush(buf, firstSector, lastSector);
      FlushedElsewhere(old(disk.sectors), disk.sectors, hdr.Value(), buf, firstSector, lastSector + 1);
      FlushedContents(old(disk.sectors), disk.sectors, hdr.Value(), buf, firstSector, lastSector + 1,
                      position, from[..n]);
    }

    /** The buffer before the copy: fresh memory, with a partial first and a partial last sector read in. */
    method FillBuffer(n: nat, position: nat, firstSector: nat, lastSector: nat) returns (buf: seq<byte>)
      requires Valid() && n > 0 && position + n <= hdr.numBytes
      requires firstSector == position / SECTOR_SIZE && lastSector == (position + n - 1) / SECTOR_SIZE
      ensures |buf| == (lastSector - firstSector + 1) * SECTOR_SIZE
      ensures Keeps(buf, firstSector * SECTOR_SIZE, Data(disk.sectors, hdr.Value()), hdr.numBytes, position, n)
    {
      var memory := new byte[(1 + lastSector - firstSector) * SECTOR_SIZE];
      buf := memory[..];
      var firstAligned := position == firstSector * SECTOR_SIZE;
      var lastAligned := position + n == (lastSector + 1) * SECTOR_SIZE;
      if !firstAligned {
        buf := ReadBlock(buf, firstSector, firstSector);
      }
      if !lastAligned && (firstSector != lastSector || firstAligned) {
        buf := ReadBlock(buf, firstSector, lastSector);
      }
      forall k | firstSector * SECTOR_SIZE <= k < firstSector * SECTOR_SIZE + |buf| && k < hdr.numBytes &&
                 !(position <= k < position + n)
        ensures buf[k - firstSector * SECTOR_SIZE] == Data(disk.sectors, hdr.Value())[k]
      {
        assert Bytes()[k] == Data(disk.sectors, hdr.Value())[k];
        if k < position {
          assert !firstAligned && k < (firstSector + 1) * SECTOR_SIZE;
        } else {
          assert !lastAligned && lastSector * SECTOR_SIZE <= k < (lastSector + 1) * SECTOR_SIZE;
        }
      }
    }

    /** Reads block `b`, as far as the file goes, to its place in a buffer starting at block `firstSector`. */
    method ReadBlock(buf: seq<byte>, firstSector: nat, b: nat) returns (r: seq<byte>)
      requires Valid() && firstSector <= b && b * SECTOR_SIZE < hdr.numBytes
      requires (b - firstSector + 1) * SECTOR_SIZE <= |buf|
      ensures |r| == |buf|
      ensures forall k :: b * SECTOR_SIZE <= k < (b + 1) * SECTOR_SIZE && k < hdr.numBytes ==>
        r[k - firstSector * SECTOR_SIZE] == Bytes()[k]
      ensures forall j :: 0 <= j < |buf| ==>
        !((b - firstSector) * SECTOR_SIZE <= j < (b - firstSector + 1) * SECTOR_SIZE) ==> r[j] == buf[j]
    {
      var bytes := ReadAt(SECTOR_SIZE, b * SECTOR_SIZE);
      var at := (b - firstSector) * SECTOR_SIZE;
      r := Splice(buf, at, bytes);
      forall k | b * SECTOR_SIZE <= k < (b + 1) * SECTOR_SIZE && k < hdr.numBytes
        ensures r[k - firstSector * SECTOR_SIZE] == Bytes()[k]
      {
        assert r[k - firstSector * SECTOR_SIZE] == r[at..at + |bytes|][k - b * SECTOR_SIZE];
      }
    }

    /** Writes the buffer's sectors back. */
    method Flush(buf: seq<byte>, firstSector: nat, lastSector: nat)
      requires Valid() && firstSector <= lastSector < hdr.numSectors
      requires |buf| == (lastSector - firstSector + 1) * SECTOR_SIZE
      modifies disk
      ensures Flushed(old(disk.sectors), disk.sectors, hdr.Value(), buf, firstSector, lastSector + 1)
    {
      ghost var h := hdr.Value();
      SoundSectors(h);
      var i := firstSector;
      while i <= lastSector
        invariant firstSector <= i <= lastSector + 1
        invariant Flushed(old(disk.sectors), disk.sectors, h, buf, firstSector, i)
      {
        FlushOne(old(disk.sectors), disk.sectors, h, buf, firstSector, i);
        disk.WriteSector(hdr.ByteToSector(i * SECTOR_SIZE),
                         buf[(i - firstSector) * SECTOR_SIZE..(i - firstSector + 1) * SECTOR_SIZE]);
        i := i + 1;
      }
    }

    method Read(numBytes: int32) returns (into: seq<byte>)
      requires Valid() && seekPosition >= 0 && Fits(hdr.numBytes, numBytes, seekPosition)
      modifies this
      ensures |into| == Clamp(hdr.numBytes, numBytes, old(seekPosition))
      ensures into != [] ==> into == Bytes()[old(seekPosition)..old(seekPosition) + |into|]
      ensures seekPosition == old(seekPosition) + |into|
    {
      into := ReadAt(numBytes, seekPosition);
      seekPosition := seekPosition + |into|;
    }

    method Write(from: seq<byte>, numBytes: int32) returns (n: nat)
      requires Valid() && seekPosition >= 0 && numBytes <= |from| && Fits(hdr.numBytes, numBytes, seekPosition)
      modifies this, disk
      ensures n == Clamp(hdr.numBytes, numBytes, old(seekPosition))
      ensures Bytes() == Overwrite(old(Bytes()), from, numBytes, old(seekPosition))
      ensures forall s :: 0 <= s < NUM_SECTORS && s !in DataSet(hdr.Value()) ==> disk.sectors[s] == old(disk.sectors)[s]
      ensures seekPosition == old(seekPosition) + n
    {
      n := WriteAt(from, numBytes, seekPosition);
      seekPosition := seekPosition + n;
    }
  }
}
