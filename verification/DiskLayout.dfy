/**
 Who owns which sector. Owner 0 is the bit map file, owner 1 the directory file, owner i + 2 the file in
 directory slot i. This file knows sets of sectors only; FormattedDisk.dfy reads them off the disk.
 */
module DiskLayout {
  import opened Bytes
  import opened BitMaps
  import opened DiskGeometry
  import opened Storage

  const OWNERS := 12

  /** One owner: the name it is filed under, where its header is, the header, and all its sectors. */
  datatype Owner = Nobody | File(key: seq<byte>, head: int, header: Header, sectors: set<nat>)

  datatype Layout = Layout(owners: seq<Owner>, used: set<nat>)

  ghost predicate OwnerSound(f: Owner)
    requires f.File?
  {
    && 0 <= f.head < NUM_SECTORS
    && Sound(f.header)
    && f.head !in DataSet(f.header)
    && f.sectors == {f.head as nat} + DataSet(f.header)
  }

  ghost predicate Live(l: Layout, o: int) {
    0 <= o < |l.owners| && l.owners[o].File?
  }

  ghost predicate Disjoint(l: Layout) {
    forall o, p :: Live(l, o) && Live(l, p) && o != p ==> l.owners[o].sectors !! l.owners[p].sectors
  }

  ghost predicate KeysDistinct(l: Layout) {
    forall o, p :: Live(l, o) && Live(l, p) && 2 <= o < p ==> l.owners[o].key != l.owners[p].key
  }

  /** The bit map marks exactly the owned sectors: none is lost and none is marked for nobody. */
  ghost predicate Exact(l: Layout) {
    forall s :: s in l.used <==> exists o :: Live(l, o) && s in l.owners[o].sectors
  }

  ghost predicate Rooted(l: Layout) {
    && |l.owners| == OWNERS
    && Live(l, 0) && l.owners[0].head == 0
    && Live(l, 1) && l.owners[1].head == 1
  }

  /** The ownership invariant. */
  ghost predicate Consistent(l: Layout) {
    && Rooted(l)
    && (forall o :: Live(l, o) ==> OwnerSound(l.owners[o]))
    && Disjoint(l)
    && KeysDistinct(l)
    && Exact(l)
  }

  ghost predicate OwnsKey(l: Layout, o: int, key: seq<byte>) {
    2 <= o && Live(l, o) && l.owners[o].key == key
  }

  /** The names listed. */
  ghost function Names(l: Layout): set<seq<byte>> {
    set o | 2 <= o < |l.owners| && Live(l, o) :: l.owners[o].key
  }

  ghost function OwnerOf(l: Layout, key: seq<byte>): (o: nat)
    requires key in Names(l)
    ensures OwnsKey(l, o, key)
  {
    var o :| 2 <= o < |l.owners| && Live(l, o) && l.owners[o].key == key;
    o
  }

  lemma OwnerOfKey(l: Layout, o: nat)
    requires Consistent(l) && 2 <= o && Live(l, o)
    ensures l.owners[o].key in Names(l) && OwnerOf(l, l.owners[o].key) == o
  {}

  /** The name map, given what each owner holds. */
  ghost function Files(holds: Owner -> seq<byte>, l: Layout): map<seq<byte>, seq<byte>> {
    map key | key in Names(l) :: holds(l.owners[OwnerOf(l, key)])
  }

  // ---- adding and dropping an owner ----

  function Put(l: Layout, o: nat, f: Owner): Layout
    requires o < |l.owners| && f.File?
  {
    Layout(l.owners[o := f], l.used + f.sectors)
  }

  function Drop(l: Layout, o: nat): Layout
    requires o < |l.owners| && l.owners[o].File?
  {
    Layout(l.owners[o := Nobody], l.used - l.owners[o].sectors)
  }

  ghost predicate CanPut(l: Layout, o: nat, f: Owner) {
    && Consistent(l) && 2 <= o < OWNERS && l.owners[o].Nobody?
    && f.File? && OwnerSound(f) && f.sectors !! l.used && f.key !in Names(l)
  }

  lemma PutExact(l: Layout, o: nat, f: Owner)
    requires CanPut(l, o, f)
    ensures Exact(Put(l, o, f))
  {
    var m := Put(l, o, f);
    forall s
      ensures s in m.used <==> exists p :: Live(m, p) && s in m.owners[p].sectors
    {
      if s in f.sectors {
        assert Live(m, o) && s in m.owners[o].sectors;
      } else if s in l.used {
        var p :| Live(l, p) && s in l.owners[p].sectors;
        assert Live(m, p) && s in m.owners[p].sectors;
      }
    }
  }

  lemma PutDisjoint(l: Layout, o: nat, f: Owner)
    requires CanPut(l, o, f)
    ensures Disjoint(Put(l, o, f))
  {
    var m := Put(l, o, f);
    forall p | Live(l, p)
      ensures l.owners[p].sectors !! f.sectors
    {
      assert forall s :: s in l.owners[p].sectors ==> s in l.used;
    }
    assert forall p :: Live(m, p) && p != o ==> Live(l, p);
  }

  lemma PutKeys(l: Layout, o: nat, f: Owner)
    requires CanPut(l, o, f)
    ensures KeysDistinct(Put(l, o, f))
    ensures Names(Put(l, o, f)) == Names(l) + {f.key}
  {
    var m := Put(l, o, f);
    forall p | 2 <= p && Live(l, p)
      ensures l.owners[p].key in Names(l) && Live(m, p) && m.owners[p] == l.owners[p]
    {}
    assert Live(m, o);
    assert forall p :: Live(m, p) && p != o ==> Live(l, p) && m.owners[p] == l.owners[p];
  }

  lemma PutConsistent(l: Layout, o: nat, f: Owner)
    requires CanPut(l, o, f)
    ensures Consistent(Put(l, o, f))
  {
    PutExact(l, o, f);
    PutDisjoint(l, o, f);
    PutKeys(l, o, f);
  }

  lemma DropExact(l: Layout, o: nat)
    requires Consistent(l) && 2 <= o && Live(l, o)
    ensures Exact(Drop(l, o))
  {
    var m := Drop(l, o);
    forall s
      ensures s in m.used <==> exists p :: Live(m, p) && s in m.owners[p].sectors
    {
      if s in m.used {
        var p :| Live(l, p) && s in l.owners[p].sectors;
        assert Live(m, p) && s in m.owners[p].sectors;
      }
      forall p | Live(m, p) && s in m.owners[p].sectors
        ensures s in m.used
      {
        assert Live(l, p) && s in l.owners[p].sectors;
      }
    }
  }

  lemma DropConsistent(l: Layout, o: nat)
    requires Consistent(l) && 2 <= o && Live(l, o)
    ensures Consistent(Drop(l, o))
    ensures Names(Drop(l, o)) == Names(l) - {l.owners[o].key}
  {
    var m := Drop(l, o);
    DropExact(l, o);
    forall p | Live(m, p)
      ensures p != o && Live(l, p) && m.owners[p] == l.owners[p]
    {}
    forall p | 2 <= p && Live(l, p) && p != o
      ensures Live(m, p) && l.owners[p].key != l.owners[o].key
    {}
  }

  lemma OwnerOfPut(l: Layout, o: nat, f: Owner, key: seq<byte>)
    requires CanPut(l, o, f) && Consistent(Put(l, o, f))
    requires key in Names(Put(l, o, f))
    ensures key == f.key ==> Put(l, o, f).owners[OwnerOf(Put(l, o, f), key)] == f
    ensures key != f.key ==>
      key in Names(l) && Put(l, o, f).owners[OwnerOf(Put(l, o, f), key)] == l.owners[OwnerOf(l, key)]
  {
    var m := Put(l, o, f);
    var p := OwnerOf(m, key);
    if key == f.key {
      assert Live(m, o);
      OwnerOfKey(m, o);
    } else {
      assert p != o && Live(l, p);
      OwnerOfKey(l, p);
    }
  }

  /** Dropping the owner of a name that was just put gives back the same owners and the same free sectors. */
  lemma DropPut(l: Layout, o: nat, f: Owner, p: nat)
    requires CanPut(l, o, f) && Consistent(Put(l, o, f))
    requires 2 <= p && Live(Put(l, o, f), p) && Put(l, o, f).owners[p].key == f.key
    ensures Drop(Put(l, o, f), p) == l
  {
    assert Live(Put(l, o, f), o);
    assert p == o;
  }

  lemma FilesKeys(holds: Owner -> seq<byte>, l: Layout, key: seq<byte>)
    ensures key in Files(holds, l) <==> key in Names(l)
  {}

  lemma UpdateRemove(m: map<seq<byte>, seq<byte>>, key: seq<byte>, c: seq<byte>)
    requires key !in m
    ensures m[key := c] - {key} == m
  {}

  lemma FilesPut(holds: Owner -> seq<byte>, l: Layout, o: nat, f: Owner)
    requires o < |l.owners| && f.File? && CanPut(l, o, f) && Consistent(Put(l, o, f))
    ensures Files(holds, Put(l, o, f)) == Files(holds, l)[f.key := holds(f)]
  {
    hide Consistent;
    hide CanPut;
    var m := Put(l, o, f);
    hide Put;
    hide OwnsKey;
    hide Names;
    hide KeysDistinct;
    PutKeys(l, o, f);
    forall key | key in Names(m)
      ensures Files(holds, m)[key] == Files(holds, l)[f.key := holds(f)][key]
    {
      OwnerOfPut(l, o, f, key);
    }
    assert Files(holds, m).Keys == Files(holds, l)[f.key := holds(f)].Keys;
  }

  lemma FilesDrop(holds: Owner -> seq<byte>, l: Layout, o: nat)
    requires Consistent(l) && 2 <= o && Live(l, o) && Consistent(Drop(l, o))
    ensures Files(holds, Drop(l, o)) == Files(holds, l) - {l.owners[o].key}
  {
    DropConsistent(l, o);
    forall key | key in Names(Drop(l, o))
      ensures Files(holds, Drop(l, o))[key] == Files(holds, l)[key]
    {
      var p := OwnerOf(Drop(l, o), key);
      assert Live(l, p);
      OwnerOfKey(l, p);
    }
  }

  /** Changing what one owner holds changes the map at its name alone. */
  lemma FilesChange(holds: Owner -> seq<byte>, now: Owner -> seq<byte>, l: Layout, o: nat)
    requires Consistent(l) && 2 <= o && Live(l, o)
    requires forall p :: Live(l, p) && p >= 2 && p != o ==> now(l.owners[p]) == holds(l.owners[p])
    ensures Files(now, l) == Files(holds, l)[l.owners[o].key := now(l.owners[o])]
  {
    hide Consistent;
    OwnerOfKey(l, o);
    hide Names;
    forall key | key in Names(l) && key != l.owners[o].key
      ensures now(l.owners[OwnerOf(l, key)]) == holds(l.owners[OwnerOf(l, key)])
    {
      assert OwnsKey(l, OwnerOf(l, key), key);
    }
  }

  lemma FileIsUsed(l: Layout, o: nat)
    requires Consistent(l) && Live(l, o)
    ensures l.owners[o].sectors <= l.used
  {}
}
