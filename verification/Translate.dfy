/** Virtual to physical translation and memory access (machine/translate.cc). */
module Translation {
  import opened Bytes

  const PAGE_SIZE := 512
  const NUM_PHYS_PAGES := 128
  const MEMORY_SIZE := NUM_PHYS_PAGES * PAGE_SIZE
  const TLB_SIZE := 4

  datatype TranslationEntry = TranslationEntry(virtualPage: int32, physicalPage: int32,
                                               valid: bool, readOnly: bool, use: bool, dirty: bool)

  datatype ExceptionType = PageFaultException | ReadOnlyException | BusErrorException | AddressErrorException

  datatype Outcome = Raises(exception: ExceptionType) | Physical(addr: nat)

  // ---- what translation computes ----

  function Vpn(virtAddr: int32): nat {
    Unsigned(virtAddr) / PAGE_SIZE
  }

  function Offset(virtAddr: int32): nat {
    Unsigned(virtAddr) % PAGE_SIZE
  }

  predicate Aligned(virtAddr: int32, size: int) {
    (size == 4 ==> Unsigned(virtAddr) % 4 == 0) && (size == 2 ==> Unsigned(virtAddr) % 2 == 0)
  }

  /** The checks on the entry found, for a page table and a TLB alike. */
  function Through(entry: TranslationEntry, offset: nat, writing: bool): Outcome {
    if entry.readOnly && writing then Raises(ReadOnlyException)
    else if Unsigned(entry.physicalPage) >= NUM_PHYS_PAGES then Raises(BusErrorException)
    else Physical(Unsigned(entry.physicalPage) * PAGE_SIZE + offset)
  }

  function ViaPageTable(table: seq<TranslationEntry>, virtAddr: int32, size: int, writing: bool): Outcome {
    if !Aligned(virtAddr, size) then Raises(AddressErrorException)
    else if Vpn(virtAddr) >= |table| then Raises(AddressErrorException)
    else if !table[Vpn(virtAddr)].valid then Raises(PageFaultException)
    else Through(table[Vpn(virtAddr)], Offset(virtAddr), writing)
  }

  predicate Matches(entry: TranslationEntry, vpn: nat) {
    entry.valid && Unsigned(entry.virtualPage) == vpn
  }

  /** The first valid entry for the page, or nothing. */
  function FindEntry(tlb: seq<TranslationEntry>, vpn: nat): (i: nat)
    ensures i <= |tlb| && (i < |tlb| ==> Matches(tlb[i], vpn))
    ensures forall j :: 0 <= j < i ==> !Matches(tlb[j], vpn)
  {
    if tlb == [] || Matches(tlb[0], vpn) then 0 else 1 + FindEntry(tlb[1..], vpn)
  }

  function ViaTlb(tlb: seq<TranslationEntry>, virtAddr: int32, size: int, writing: bool): Outcome {
    if !Aligned(virtAddr, size) then Raises(AddressErrorException)
    else
      var i := FindEntry(tlb, Vpn(virtAddr));
      if i == |tlb| then Raises(PageFaultException) else Through(tlb[i], Offset(virtAddr), writing)
  }

  /** Which address comes of it, and which exception when several would do. */
  lemma TranslationCases(table: seq<TranslationEntry>, virtAddr: int32, size: int, writing: bool)
    requires size in {1, 2, 4}
    ensures var u := Unsigned(virtAddr);
      var page := u / 512;
      var r := ViaPageTable(table, virtAddr, size, writing);
      if u % size != 0 || page >= |table| then r == Raises(AddressErrorException)
      else if !table[page].valid then r == Raises(PageFaultException)
      else if table[page].readOnly && writing then r == Raises(ReadOnlyException)
      else if Unsigned(table[page].physicalPage) >= 128 then r == Raises(BusErrorException)
      else r == Physical(512 * Unsigned(table[page].physicalPage) + u % 512)
  {}

  // ---- the TLB against the page table ----

  /** Every valid TLB entry copies the valid page-table entry of its page; use and dirty bits are its own. */
  ghost predicate Copies(tlb: seq<TranslationEntry>, table: seq<TranslationEntry>) {
    forall i :: 0 <= i < |tlb| && tlb[i].valid ==>
      var v := Unsigned(tlb[i].virtualPage);
      && v < |table| && table[v].valid
      && table[v].physicalPage == tlb[i].physicalPage && table[v].readOnly == tlb[i].readOnly
  }

  /** A TLB that copies the page table answers as the page table does, or faults because the entry is not there. */
  lemma TlbAgrees(tlb: seq<TranslationEntry>, table: seq<TranslationEntry>, virtAddr: int32, size: int, writing: bool)
    requires Copies(tlb, table)
    ensures ViaTlb(tlb, virtAddr, size, writing) == ViaPageTable(table, virtAddr, size, writing)
         || (ViaTlb(tlb, virtAddr, size, writing) == Raises(PageFaultException)
             && forall i :: 0 <= i < |tlb| ==> !Matches(tlb[i], Vpn(virtAddr)))
  {}

  // ---- accesses stay in one frame ----

  lemma AlignedOffset(u: nat, size: int, k: nat)
    requires size in {1, 2, 4} && k < size && u % size == 0
    ensures u % PAGE_SIZE + size <= PAGE_SIZE
    ensures (u + k) / PAGE_SIZE == u / PAGE_SIZE && (u + k) % PAGE_SIZE == u % PAGE_SIZE + k
  {
    var q, m := u / PAGE_SIZE, u % PAGE_SIZE;
    if size == 4 {
      assert m == 4 * (u / 4 - 128 * q);
    } else if size == 2 {
      assert m == 2 * (u / 2 - 256 * q);
    }
    assert u + k == PAGE_SIZE * q + (m + k);
  }

  lemma NoWrap(u: nat, size: int, k: nat)
    requires size in {1, 2, 4} && k < size && u % size == 0 && u < 0x1_0000_0000
    ensures u + k < 0x1_0000_0000
  {}

  /** An aligned access of 1, 2 or 4 bytes stays within one frame, and each of its bytes translates on its own. */
  lemma WithinFrame(table: seq<TranslationEntry>, virtAddr: int32, size: int, writing: bool, k: nat)
    requires size in {1, 2, 4} && k < size
    requires ViaPageTable(table, virtAddr, size, writing).Physical?
    ensures var a := ViaPageTable(table, virtAddr, size, writing).addr;
      && a + size <= MEMORY_SIZE && (a + k) / PAGE_SIZE == a / PAGE_SIZE
      && Unsigned(virtAddr) + k < 0x1_0000_0000
      && ViaPageTable(table, Signed(Unsigned(virtAddr) + k), 1, writing) == Physical(a + k)
  {
    var u := Unsigned(virtAddr);
    AlignedOffset(u, size, k);
    NoWrap(u, size, k);
    hide Unsigned;
    hide Signed;
  }

  // ---- memory ----

  type Memory = m: seq<byte> | |m| == MEMORY_SIZE witness seq(MEMORY_SIZE, _ => 0)

  /** The low `size` bytes of a value, little end first. */
  function LowBytes(value: int32, size: int): (b: seq<byte>)
    requires size in {1, 2, 4}
    ensures |b| == size
  {
    IntBytes(value)[..size]
  }

  /** A byte, as a signed char. */
  function Signed8(b: byte): int32 {
    if b < 128 then b else b - 256
  }

  /** Byte k of a value in memory is worth 256^k. */
  lemma LittleEnd(value: int32)
    ensures var b := LowBytes(value, 4);
      Unsigned(value) == b[0] + 256 * (b[1] as int) + 65536 * (b[2] as int) + 16777216 * (b[3] as int)
    ensures LowBytes(value, 2) == LowBytes(value, 4)[..2] && LowBytes(value, 1) == LowBytes(value, 4)[..1]
  {
    var u := Unsigned(value);
    assert u / 256 / 256 == u / 65536 && u / 65536 / 256 == u / 16777216;
  }

  /** One byte is read as a signed char, two as an unsigned short, four as an int. */
  function Value(b: seq<byte>): int32
    requires |b| in {1, 2, 4}
  {
    if |b| == 1 then Signed8(b[0])
    else if |b| == 2 then (b[0] as int) + 256 * (b[1] as int)
    else BytesInt(b)
  }

  function Modulus(size: int): nat
    requires size in {1, 2, 4}
    ensures Modulus(size) > 0
  {
    if size == 1 then 0x100 else if size == 2 then 0x1_0000 else 0x1_0000_0000
  }

  /**
   What is written is read back in the low bytes. The value itself comes back exactly if it is what a signed
   char, an unsigned short or an int can hold: one byte is sign-extended, two are not.
   */
  lemma WriteReadValue(value: int32, size: int)
    requires size in {1, 2, 4}
    ensures Unsigned(Value(LowBytes(value, size))) % Modulus(size) == Unsigned(value) % Modulus(size)
    ensures size == 1 ==> Value(LowBytes(value, size)) == Signed8(Unsigned(value) % 256)
    ensures size == 2 ==> Value(LowBytes(value, size)) == Unsigned(value) % 0x1_0000
    ensures Value(LowBytes(value, size)) == value <==>
      (size == 1 ==> -128 <= value < 128) && (size == 2 ==> 0 <= value < 0x1_0000)
  {
    if size == 4 {
      IntRoundTrip(value);
      assert IntBytes(value)[..4] == IntBytes(value);
    } else if size == 2 {
      ReadBackTwo(value);
    } else {
      ReadBackOne(value);
    }
  }

  lemma ReadBackTwo(value: int32)
    ensures Value(LowBytes(value, 2)) == Unsigned(value) % 0x1_0000
    ensures Unsigned(value) % 0x1_0000 == value <==> 0 <= value < 0x1_0000
  {
    LowTwo(Unsigned(value));
  }

  lemma ReadBackOne(value: int32)
    ensures Value(LowBytes(value, 1)) == Signed8(Unsigned(value) % 256)
    ensures Unsigned(Signed8(Unsigned(value) % 256)) % 256 == Unsigned(value) % 256
    ensures Signed8(Unsigned(value) % 256) == value <==> -128 <= value < 128
  {
    SignExtended(Unsigned(value) % 256);
  }

  /** 128 as one byte reads back as -128, and -1 as two bytes as 65535. */
  lemma ValuesLost()
    ensures Value(LowBytes(128, 1)) == -128 && Value(LowBytes(-1, 2)) == 65535
  {}

  lemma LowTwo(u: nat)
    ensures u % 0x1_0000 == u % 256 + 256 * (u / 256 % 256)
  {
    var a := u / 256;
    assert u == 0x1_0000 * (a / 256) + (256 * (a % 256) + u % 256);
  }

  lemma SignExtended(b: byte)
    ensures Unsigned(Value([b])) % 256 == b
  {}

  /** The byte a program reads at an unsigned virtual address, if it may. */
  function VirtualByte(m: Memory, table: seq<TranslationEntry>, u: nat): (b: int)
    requires u < 0x1_0000_0000
  {
    match ViaPageTable(table, Signed(u), 1, false)
    case Raises(_) => -1
    case Physical(a) => if a < MEMORY_SIZE then m[a] else -1
  }

  ghost predicate DistinctFrames(table: seq<TranslationEntry>) {
    forall i, j :: 0 <= i < j < |table| && table[i].valid && table[j].valid ==>
      table[i].physicalPage != table[j].physicalPage
  }

  ghost predicate Apart(t: seq<TranslationEntry>, u: seq<TranslationEntry>) {
    forall i, j :: 0 <= i < |t| && 0 <= j < |u| && t[i].valid && u[j].valid ==> t[i].physicalPage != u[j].physicalPage
  }

  /** Memory after a successful WriteMem. */
  function Stored(m: Memory, addr: nat, value: int32, size: int): Memory
    requires size in {1, 2, 4} && addr + size <= MEMORY_SIZE
  {
    Splice(m, addr, LowBytes(value, size))
  }

  /** A write changes the bytes it names and no other byte of its own space, if the frames are distinct. */
  lemma WriteDisturbsNoOther(m: Memory, table: seq<TranslationEntry>, virtAddr: int32, size: int, value: int32, u: nat)
    requires size in {1, 2, 4} && u < 0x1_0000_0000 && DistinctFrames(table)
    requires ViaPageTable(table, virtAddr, size, true).Physical?
    requires !(Unsigned(virtAddr) <= u < Unsigned(virtAddr) + size)
    ensures var a := ViaPageTable(table, virtAddr, size, true).addr;
      && a + size <= MEMORY_SIZE
      && VirtualByte(Stored(m, a, value, size), table, u) == VirtualByte(m, table, u)
  {
    WithinFrame(table, virtAddr, size, true, size - 1);
    OtherAddress(table, virtAddr, size, u);
    hide LowBytes;
    hide ViaPageTable;
  }

  /** With distinct frames, another virtual byte is another physical byte. */
  lemma OtherAddress(table: seq<TranslationEntry>, virtAddr: int32, size: int, u: nat)
    requires size in {1, 2, 4} && u < 0x1_0000_0000 && DistinctFrames(table)
    requires ViaPageTable(table, virtAddr, size, true).Physical?
    requires !(Unsigned(virtAddr) <= u < Unsigned(virtAddr) + size)
    ensures var a := ViaPageTable(table, virtAddr, size, true).addr;
      var r := ViaPageTable(table, Signed(u), 1, false);
      r.Physical? ==> r.addr < a || a + size <= r.addr
  {
    AlignedOffset(Unsigned(virtAddr), size, size - 1);
    var v, w := Vpn(virtAddr), Vpn(Signed(u));
    if w < |table| && table[w].valid && w != v {
      assert table[w].physicalPage != table[v].physicalPage;
    }
  }

  /** A write in one space changes nothing that a space with other frames can read. */
  lemma WriteIsolated(m: Memory, table: seq<TranslationEntry>, other: seq<TranslationEntry>,
                      virtAddr: int32, size: int, value: int32, u: nat)
    requires size in {1, 2, 4} && u < 0x1_0000_0000 && Apart(table, other)
    requires ViaPageTable(table, virtAddr, size, true).Physical?
    ensures var a := ViaPageTable(table, virtAddr, size, true).addr;
      && a + size <= MEMORY_SIZE
      && VirtualByte(Stored(m, a, value, size), other, u) == VirtualByte(m, other, u)
  {
    WithinFrame(table, virtAddr, size, true, size - 1);
    if Vpn(Signed(u)) < |other| && other[Vpn(Signed(u))].valid {
      assert table[Vpn(virtAddr)].physicalPage != other[Vpn(Signed(u))].physicalPage;
    }
  }

  /** What is written at a virtual address is what the program reads there, byte by byte. */
  lemma WriteThenBytes(m: Memory, table: seq<TranslationEntry>, virtAddr: int32, size: int, value: int32, k: nat)
    requires size in {1, 2, 4} && k < size
    requires ViaPageTable(table, virtAddr, size, true).Physical?
    ensures var a := ViaPageTable(table, virtAddr, size, true).addr;
      && a + size <= MEMORY_SIZE && Unsigned(virtAddr) + k < 0x1_0000_0000
      && VirtualByte(Stored(m, a, value, size), table, Unsigned(virtAddr) + k) == LowBytes(value, size)[k]
  {
    var a := ViaPageTable(table, virtAddr, size, true).addr;
    WithinFrame(table, virtAddr, size, true, k);
    assert Stored(m, a, value, size)[a + k] == Stored(m, a, value, size)[a..a + size][k];
  }

  // ---- the machine ----

  ghost predicate SameButBits(a: seq<TranslationEntry>, b: seq<TranslationEntry>) {
    |a| == |b| && forall i :: 0 <= i < |a| ==> b[i].(use := a[i].use, dirty := a[i].dirty) == a[i]
  }

  /** The use bit of the entry is set, and its dirty bit by a write. */
  function Touched(t: seq<TranslationEntry>, i: nat, writing: bool): seq<TranslationEntry>
    requires i < |t|
  {
    t[i := t[i].(use := true, dirty := t[i].dirty || writing)]
  }

  /** Use and dirty bits play no part in translation. */
  lemma BitsDoNotMatter(a: seq<TranslationEntry>, b: seq<TranslationEntry>, virtAddr: int32, size: int, writing: bool)
    requires SameButBits(a, b)
    ensures ViaPageTable(a, virtAddr, size, writing) == ViaPageTable(b, virtAddr, size, writing)
    ensures ViaTlb(a, virtAddr, size, writing) == ViaTlb(b, virtAddr, size, writing)
  {
    SameEntry(a, b, Vpn(virtAddr));
  }

  lemma SameEntry(a: seq<TranslationEntry>, b: seq<TranslationEntry>, vpn: nat)
    requires SameButBits(a, b)
    ensures FindEntry(a, vpn) == FindEntry(b, vpn)
  {
    assert forall k :: 0 <= k < |a| ==> (Matches(a[k], vpn) <==> Matches(b[k], vpn));
  }

  // ---- what the use and dirty bits record ----

  datatype Access = Access(virtAddr: int32, size: int, writing: bool)

  /** The page table after a run of accesses: those that fail leave it alone. */
  function AfterAccesses(table: seq<TranslationEntry>, accesses: seq<Access>): (r: seq<TranslationEntry>)
    ensures SameButBits(table, r)
  {
    if accesses == [] then table
    else
      var n := |accesses| - 1;
      AfterAccess(AfterAccesses(table, accesses[..n]), accesses[n])
  }

  function AfterAccess(table: seq<TranslationEntry>, a: Access): seq<TranslationEntry> {
    if ViaPageTable(table, a.virtAddr, a.size, a.writing).Physical? then Touched(table, Vpn(a.virtAddr), a.writing)
    else table
  }

  /** This access reaches page `i`. */
  predicate Reaches(table: seq<TranslationEntry>, a: Access, i: nat) {
    Vpn(a.virtAddr) == i && ViaPageTable(table, a.virtAddr, a.size, a.writing).Physical?
  }

  /** One of the accesses, or one of the writes among them, reaches page `i`. */
  ghost predicate Reached(table: seq<TranslationEntry>, accesses: seq<Access>, i: nat, writes: bool) {
    exists a :: a in accesses && (writes ==> a.writing) && Reaches(table, a, i)
  }

  lemma ReachedOneMore(table: seq<TranslationEntry>, accesses: seq<Access>, i: nat, writes: bool)
    requires accesses != []
    ensures var n := |accesses| - 1;
      Reached(table, accesses, i, writes) <==>
        Reached(table, accesses[..n], i, writes) || ((writes ==> accesses[n].writing) && Reaches(table, accesses[n], i))
  {
    hide Reaches;
    var n := |accesses| - 1;
    assert accesses == accesses[..n] + [accesses[n]];
    if Reached(table, accesses[..n], i, writes) {
      var a :| a in accesses[..n] && (writes ==> a.writing) && Reaches(table, a, i);
      assert a in accesses;
    }
  }

  lemma AccessBits(table: seq<TranslationEntry>, a: Access, i: nat)
    requires i < |table|
    ensures |AfterAccess(table, a)| == |table|
    ensures AfterAccess(table, a)[i].use <==> table[i].use || Reaches(table, a, i)
    ensures AfterAccess(table, a)[i].dirty <==> table[i].dirty || (a.writing && Reaches(table, a, i))
  {}

  /**
   After any run of accesses, a page's use bit is set exactly if it was set or an access has reached the page, and
   its dirty bit exactly if it was set or a write has.
   */
  lemma {:induction false} BitsRecord(table: seq<TranslationEntry>, accesses: seq<Access>, i: nat)
    requires i < |table|
    ensures AfterAccesses(table, accesses)[i].use <==> table[i].use || Reached(table, accesses, i, false)
    ensures AfterAccesses(table, accesses)[i].dirty <==> table[i].dirty || Reached(table, accesses, i, true)
  {
    hide ViaPageTable;
    hide AfterAccess;
    if accesses != [] {
      var n := |accesses| - 1;
      var before, last := AfterAccesses(table, accesses[..n]), accesses[n];
      BitsRecord(table, accesses[..n], i);
      ReachedOneMore(table, accesses, i, false);
      ReachedOneMore(table, accesses, i, true);
      hide Reached;
      BitsDoNotMatter(table, before, last.virtAddr, last.size, last.writing);
      AccessBits(before, last, i);
    }
  }

  class Machine {
    const mainMemory: array<byte>
    var tlb: array?<TranslationEntry>
    var pageTable: array?<TranslationEntry>

    /** A TLB or a page table, never both. */
    ghost predicate Valid()
      reads this
    {
      && mainMemory.Length == MEMORY_SIZE
      && (tlb == null <==> pageTable != null) && (tlb != null ==> tlb.Length == TLB_SIZE)
    }

    ghost function Table(): array<TranslationEntry>
      requires Valid()
      reads this
    {
      if tlb == null then pageTable else tlb
    }

    /** The entry that translation uses, if it gets that far. */
    ghost function Index(virtAddr: int32): nat
      requires Valid()
      reads this, Table()
    {
      if tlb == null then Vpn(virtAddr) else FindEntry(tlb[..], Vpn(virtAddr))
    }

    ghost function Outcome(virtAddr: int32, size: int, writing: bool): Outcome
      requires Valid()
      reads this, Table()
    {
      if tlb == null then ViaPageTable(pageTable[..], virtAddr, size, writing)
      else ViaTlb(tlb[..], virtAddr, size, writing)
    }

    method Translate(virtAddr: int32, size: int, writing: bool) returns (r: Outcome)
      requires Valid()
      modifies Table()
      ensures Valid() && r == old(Outcome(virtAddr, size, writing))
      ensures r.Raises? ==> Table()[..] == old(Table()[..])
      ensures r.Physical? ==>
        old(Index(virtAddr)) < Table().Length && Table()[..] == Touched(old(Table()[..]), old(Index(virtAddr)), writing)
      ensures tlb == null ==> Table()[..] == AfterAccess(old(Table()[..]), Access(virtAddr, size, writing))
    {
      if !Aligned(virtAddr, size) {
        return Raises(AddressErrorException);
      }
      var vpn, offset := Vpn(virtAddr), Offset(virtAddr);
      var entries: array<TranslationEntry>;
      var index: nat;
      if tlb == null {
        entries := pageTable;
        if vpn >= entries.Length {
          return Raises(AddressErrorException);
        } else if !entries[vpn].valid {
          return Raises(PageFaultException);
        }
        index := vpn;
      } else {
        entries := tlb;
        index := Search(vpn);
        if index == TLB_SIZE {
          return Raises(PageFaultException);
        }
      }
      var entry := entries[index];
      if entry.readOnly && writing {
        return Raises(ReadOnlyException);
      }
      if Unsigned(entry.physicalPage) >= NUM_PHYS_PAGES {
        return Raises(BusErrorException);
      }
      entries[index] := entry.(use := true, dirty := entry.dirty || writing);
      assert entries[..] == Touched(old(entries[..]), index, writing);
      r := Physical(Unsigned(entry.physicalPage) * PAGE_SIZE + offset);
    }

    /** The TLB search: the first valid entry for the page, or TLB_SIZE. */
    method Search(vpn: nat) returns (i: nat)
      requires Valid() && tlb != null
      ensures i == FindEntry(tlb[..], vpn)
    {
      i := 0;
      while i < TLB_SIZE && !Matches(tlb[i], vpn)
        invariant i <= TLB_SIZE
        invariant forall j :: 0 <= j < i ==> !Matches(tlb[j], vpn)
      {
        i := i + 1;
      }
    }

    method ReadMem(addr: int32, size: int) returns (r: Outcome, value: int32)
      requires Valid() && size in {1, 2, 4}
      modifies Table()
      ensures r == old(Outcome(addr, size, false))
      ensures r.Raises? ==> Table()[..] == old(Table()[..])
      ensures r.Physical? ==>
        old(Index(addr)) < Table().Length && Table()[..] == Touched(old(Table()[..]), old(Index(addr)), false)
      ensures r.Physical? ==> r.addr + size <= MEMORY_SIZE && value == Value(mainMemory[r.addr..r.addr + size])
    {
      r := Translate(addr, size, false);
      value := 0;
      if r.Physical? {
        InMemory(addr, size, false, r);
        value := Value(mainMemory[r.addr..r.addr + size]);
      }
    }

    method WriteMem(addr: int32, size: int, value: int32) returns (r: Outcome)
      requires Valid() && size in {1, 2, 4}
      modifies Table(), mainMemory
      ensures r == old(Outcome(addr, size, true))
      ensures r.Raises? ==> Table()[..] == old(Table()[..]) && mainMemory[..] == old(mainMemory[..])
      ensures r.Physical? ==>
        old(Index(addr)) < Table().Length && Table()[..] == Touched(old(Table()[..]), old(Index(addr)), true)
      ensures r.Physical? ==>
        r.addr + size <= MEMORY_SIZE && mainMemory[..] == Stored(old(mainMemory[..]), r.addr, value, size)
    {
      hide LowBytes;
      r := Translate(addr, size, true);
      if r.Physical? {
        InMemory(addr, size, true, r);
        StoreBytes(r.addr, LowBytes(value, size));
      }
    }

    /** A read after a successful write succeeds at the same place and gives back the low bytes. */
    method WriteThenRead(addr: int32, size: int, value: int32) returns (r: Outcome, back: int32)
      requires Valid() && size in {1, 2, 4}
      modifies Table(), mainMemory
      ensures r == old(Outcome(addr, size, true))
      ensures r.Physical? ==> Unsigned(back) % Modulus(size) == Unsigned(value) % Modulus(size)
      ensures r.Physical? ==> (back == value <==>
        (size == 1 ==> -128 <= value < 128) && (size == 2 ==> 0 <= value < 0x1_0000))
    {
      hide LowBytes;
      hide Value;
      hide FindEntry;
      hide Unsigned;
      r := WriteMem(addr, size, value);
      back := 0;
      if r.Physical? {
        WriteReadValue(value, size);
        BitsDoNotMatter(old(Table()[..]), Table()[..], addr, size, true);
        var again;
        again, back := ReadMem(addr, size);
        assert again == r;
      }
    }

    method StoreBytes(addr: nat, bytes: seq<byte>)
      requires Valid() && addr + |bytes| <= MEMORY_SIZE
      modifies mainMemory
      ensures mainMemory[..] == Splice(old(mainMemory[..]), addr, bytes)
    {
      for k := 0 to |bytes|
        invariant mainMemory[..] == Splice(old(mainMemory[..]), addr, bytes[..k])
      {
        mainMemory[addr + k] := bytes[k];
      }
      assert bytes[..|bytes|] == bytes;
    }

    lemma InMemory(addr: int32, size: int, writing: bool, r: Outcome)
      requires Valid() && size in {1, 2, 4}
      requires r.Physical? && exists t: seq<TranslationEntry> ::
        r == ViaPageTable(t, addr, size, writing) || r == ViaTlb(t, addr, size, writing)
      ensures r.addr + size <= MEMORY_SIZE
    {
      var t :| r == ViaPageTable(t, addr, size, writing) || r == ViaTlb(t, addr, size, writing);
      AlignedOffset(Unsigned(addr), size, 0);
      hide Unsigned;
      hide FindEntry;
    }
  }
}
