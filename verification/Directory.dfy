/** The directory: a table of fixed-size entries, held as the bytes the disk holds (filesys/directory.cc). */
module Directories {
  import opened Bytes
  import opened DiskGeometry
  import opened Storage
  import opened OpenFiles

  const FILE_NAME_MAX_LEN := 9
  /** inUse (1 byte and padding), sector (4 bytes), name (9 characters and a terminator, then padding). */
  const ENTRY_SIZE := 20

  type Entry = e: seq<byte> | |e| == ENTRY_SIZE witness seq(ENTRY_SIZE, _ => 0)

  /** A C string, without its terminator. */
  type Name = s: seq<byte> | 0 !in s

  predicate InUse(e: Entry) {
    e[0] != 0
  }

  function SectorOf(e: Entry): int32 {
    BytesInt(e[4..8])
  }

  // ---- names ----

  function UpToNul(s: seq<byte>): (r: seq<byte>)
    ensures |r| <= |s|
  {
    if s == [] || s[0] == 0 then [] else [s[0]] + UpToNul(s[1..])
  }

  /** The name an entry is filed under: its characters up to the terminator, at most nine. */
  function KeyOf(e: Entry): seq<byte> {
    UpToNul(e[8..8 + FILE_NAME_MAX_LEN])
  }

  /** The part of a caller's name that counts. */
  function Key(name: Name): seq<byte> {
    if |name| > FILE_NAME_MAX_LEN then name[..FILE_NAME_MAX_LEN] else name
  }

  /** `strncmp(a, b, n) == 0`, reading a terminator past the end of either string. */
  predicate StrnEqual(a: seq<byte>, b: seq<byte>, n: nat)
    decreases n
  {
    n == 0 ||
    var x := if a == [] then 0 else a[0];
    var y := if b == [] then 0 else b[0];
    x == y && (x == 0 || StrnEqual(a[1..], b[1..], n - 1))
  }

  function Take(s: seq<byte>, n: nat): seq<byte> {
    if |s| > n then s[..n] else s
  }

  lemma {:induction false} StrnEqualKeys(a: seq<byte>, b: seq<byte>, n: nat)
    ensures StrnEqual(a, b, n) <==> UpToNul(Take(a, n)) == UpToNul(Take(b, n))
    decreases n
  {
    if n > 0 && a != [] && b != [] && a[0] == b[0] && a[0] != 0 {
      StrnEqualKeys(a[1..], b[1..], n - 1);
      assert Take(a, n)[1..] == Take(a[1..], n - 1);
      assert Take(b, n)[1..] == Take(b[1..], n - 1);
      var u, v := UpToNul(Take(a[1..], n - 1)), UpToNul(Take(b[1..], n - 1));
      assert ([a[0]] + u)[1..] == u && ([b[0]] + v)[1..] == v;
    } else if n > 0 {
      var u, v := UpToNul(Take(a, n)), UpToNul(Take(b, n));
      assert if a == [] || a[0] == 0 then u == [] else u[0] == a[0];
      assert if b == [] || b[0] == 0 then v == [] else v[0] == b[0];
    }
  }

  lemma {:induction false} UpToNulPadded(s: seq<byte>, pad: seq<byte>)
    requires 0 !in s && (pad == [] || pad[0] == 0)
    ensures UpToNul(s + pad) == s
  {
    if s == [] {
      assert s + pad == pad;
    } else {
      UpToNulPadded(s[1..], pad);
      assert (s + pad)[1..] == s[1..] + pad;
    }
  }

  /** Comparing a stored name with a caller's is comparing the parts that count. */
  lemma EntryMatches(e: Entry, name: Name)
    ensures StrnEqual(e[8..18], name, FILE_NAME_MAX_LEN) <==> KeyOf(e) == Key(name)
  {
    StrnEqualKeys(e[8..18], name, FILE_NAME_MAX_LEN);
    assert Take(e[8..18], FILE_NAME_MAX_LEN) == e[8..17];
    assert Key(name) + [] == Key(name);
    UpToNulPadded(Key(name), []);
  }

  /** `strncpy` into the name field: padded with terminators to nine characters. */
  function Padded(name: Name): (r: seq<byte>)
    ensures |r| == FILE_NAME_MAX_LEN
  {
    Key(name) + seq(FILE_NAME_MAX_LEN - |Key(name)|, _ => 0)
  }

  function Filled(e: Entry, name: Name, sector: int32): (r: Entry)
    ensures InUse(r) && SectorOf(r) == sector && KeyOf(r) == Key(name)
  {
    var r := [1] + e[1..4] + IntBytes(sector) + Padded(name) + e[17..];
    IntRoundTrip(sector);
    assert r[4..8] == IntBytes(sector);
    assert r[8..17] == Padded(name);
    UpToNulPadded(Key(name), seq(FILE_NAME_MAX_LEN - |Key(name)|, _ => 0));
    r
  }

  /** Where the fields are in an entry; of a longer name, the first nine characters are kept. */
  lemma EntryLayout(e: Entry, name: Name, sector: int32, i: nat)
    requires i < 9
    ensures var r := Filled(e, name, sector);
      r[0] == 1 && r[4..8] == IntBytes(sector) && r[8 + i] == if i < |name| then name[i] else 0
  {}

  function Emptied(e: Entry): (r: Entry)
    ensures !InUse(r)
  {
    e[0 := 0]
  }

  // ---- tables ----

  ghost predicate Filed(table: seq<Entry>, i: int, key: seq<byte>) {
    0 <= i < |table| && InUse(table[i]) && KeyOf(table[i]) == key
  }

  ghost predicate Listed(table: seq<Entry>, key: seq<byte>) {
    exists i :: Filed(table, i, key)
  }

  /** The first free slot has been filled. */
  ghost predicate AddedAt(before: seq<Entry>, after: seq<Entry>, i: nat, name: Name, sector: int32) {
    && i < |before| && !InUse(before[i]) && (forall j :: 0 <= j < i ==> InUse(before[j]))
    && after == before[i := Filled(before[i], name, sector)]
  }

  ghost predicate RemovedAt(before: seq<Entry>, after: seq<Entry>, i: nat) {
    i < |before| && InUse(before[i]) && after == before[i := Emptied(before[i])]
  }

  /** The table laid out as file bytes, and read back. */
  function Entries(b: seq<byte>, n: nat): (t: seq<Entry>)
    requires |b| == n * ENTRY_SIZE
    ensures |t| == n
  {
    seq(n, i requires 0 <= i < n => b[i * ENTRY_SIZE..(i + 1) * ENTRY_SIZE])
  }

  lemma EntriesRoundTrip(table: seq<Entry>)
    ensures |Flatten(table)| == |table| * ENTRY_SIZE
    ensures Entries(Flatten(table), |table|) == table
  {
    FlattenLength(table, ENTRY_SIZE);
    forall i | 0 <= i < |table|
      ensures Entries(Flatten(table), |table|)[i] == table[i]
    {
      FlattenAt(table, ENTRY_SIZE, i);
    }
  }

  class Directory {
    var table: seq<Entry>

    constructor (size: nat)
      ensures |table| == size && forall i :: 0 <= i < size ==> !InUse(table[i])
    {
      var memory := new Entry[size];
      for i := 0 to size
        invariant forall j :: 0 <= j < i ==> !InUse(memory[j])
      {
        memory[i] := Emptied(memory[i]);
      }
      table := memory[..];
    }

    /** Reads the file over the table. */
    method FetchFrom(file: OpenFile)
      requires file.Valid() && |table| * ENTRY_SIZE < 0x8000_0000
      modifies this
      ensures |Flatten(old(table))| == old(|table|) * ENTRY_SIZE
      ensures table == Entries(ReadOver(Flatten(old(table)), file.Bytes()), old(|table|))
    {
      var bytes := file.ReadAt(|table| * ENTRY_SIZE, 0);
      EntriesRoundTrip(table);
      assert bytes == file.Bytes()[..|bytes|];
      table := Entries(Splice(Flatten(table), 0, bytes), |table|);
    }

    method WriteBack(file: OpenFile)
      requires file.Valid() && |table| * ENTRY_SIZE < 0x8000_0000
      modifies file.disk
      ensures file.Bytes() == Overwrite(old(file.Bytes()), Flatten(table), |Flatten(table)|, 0)
      ensures |file.Bytes()| == |table| * ENTRY_SIZE ==> file.Bytes() == Flatten(table)
      ensures forall s :: 0 <= s < NUM_SECTORS && s !in DataSet(file.hdr.Value()) ==>
        file.disk.sectors[s] == old(file.disk.sectors)[s]
    {
      EntriesRoundTrip(table);
      var _ := file.WriteAt(Flatten(table), |table| * ENTRY_SIZE, 0);
      assert Flatten(table)[..|Flatten(table)|] == Flatten(table);
    }

    method FindIndex(name: Name) returns (index: int)
      ensures index == -1 <==> !Listed(table, Key(name))
      ensures index != -1 ==> Filed(table, index, Key(name))
      ensures forall j :: 0 <= j < index ==> !Filed(table, j, Key(name))
    {
      for i := 0 to |table|
        invariant forall j :: 0 <= j < i ==> !Filed(table, j, Key(name))
      {
        EntryMatches(table[i], name);
        if InUse(table[i]) && StrnEqual(table[i][8..18], name, FILE_NAME_MAX_LEN) {
          assert Filed(table, i, Key(name));
          return i;
        }
      }
      return -1;
    }

    method Find(name: Name) returns (sector: int)
      ensures !Listed(table, Key(name)) ==> sector == -1
      ensures Listed(table, Key(name)) ==> exists i :: Filed(table, i, Key(name)) && sector == SectorOf(table[i])
    {
      var i := FindIndex(name);
      if i != -1 {
        return SectorOf(table[i]);
      }
      return -1;
    }

    /** Fills the first free slot, unless the name is already there or no slot is free. */
    method Add(name: Name, newSector: int32) returns (ok: bool)
      modifies this
      ensures ok <==> !Listed(old(table), Key(name)) && exists i :: 0 <= i < |old(table)| && !InUse(old(table)[i])
      ensures !ok ==> table == old(table)
      ensures ok ==> exists i :: AddedAt(old(table), table, i, name, newSector)
    {
      var index := FindIndex(name);
      if index != -1 {
        return false;
      }
      for i := 0 to |table|
        invariant table == old(table)
        invariant forall j :: 0 <= j < i ==> InUse(table[j])
      {
        if !InUse(table[i]) {
          table := table[i := Filled(table[i], name, newSector)];
          assert AddedAt(old(table), table, i, name, newSector);
          return true;
        }
      }
      return false;
    }

    method Remove(name: Name) returns (ok: bool)
      modifies this
      ensures ok <==> Listed(old(table), Key(name))
      ensures !ok ==> table == old(table)
      ensures ok ==> exists i :: Filed(old(table), i, Key(name)) && RemovedAt(old(table), table, i)
    {
      var i := FindIndex(name);
      if i == -1 {
        return false;
      }
      table := table[i := Emptied(table[i])];
      assert RemovedAt(old(table), table, i);
      return true;
    }
  }
}
