/** How much of the disk the files take, told from the map of names to byte strings alone. */
module DiskSpace {
  import opened Bytes
  import opened BitMaps
  import opened DiskGeometry
  import opened Storage
  import opened DiskLayout

  const SLOTS := OWNERS - 2

  /** A header, and the sectors for the data. */
  function Cost(contents: seq<byte>): nat {
    1 + DivRoundUp(|contents|, SECTOR_SIZE)
  }

  /** The sectors all files of a map take together. */
  ghost function Space(m: map<seq<byte>, seq<byte>>): nat {
    if m == map[] then 0 else
    var key :| key in m;
    Cost(m[key]) + Space(m - {key})
  }

  lemma {:induction false} SpaceWithout(m: map<seq<byte>, seq<byte>>, key: seq<byte>)
    requires key in m
    ensures Space(m) == Cost(m[key]) + Space(m - {key})
  {
    var k :| k in m && Space(m) == Cost(m[k]) + Space(m - {k});
    if k != key {
      SpaceWithout(m - {k}, key);
      SpaceWithout(m - {key}, k);
      assert m - {k} - {key} == m - {key} - {k};
    }
  }

  lemma OwnerSize(f: Owner)
    requires f.File? && OwnerSound(f)
    ensures |f.sectors| == 1 + DivRoundUp(f.header.numBytes, SECTOR_SIZE)
    ensures forall s :: s in f.sectors ==> s < NUM_SECTORS
  {
    var h := f.header;
    SoundSectors(h);
    var rs: seq<nat> := seq(h.numSectors, i requires 0 <= i < h.numSectors => h.dataSectors[i] as nat);
    DistinctSize(rs);
    forall i | 0 <= i < h.numSectors
      ensures h.dataSectors[i] in rs
    {
      assert rs[i] == h.dataSectors[i];
    }
    assert Elements(rs) == DataSet(h);
  }

  /** The slots of the directory that are free. */
  ghost function Vacant(l: Layout): set<nat>
    requires |l.owners| == OWNERS
  {
    set o: nat | 2 <= o < OWNERS && l.owners[o].Nobody?
  }

  ghost function Roots(l: Layout): nat
    requires Rooted(l)
  {
    |l.owners[0].sectors| + |l.owners[1].sectors|
  }

  /** A map tells the lengths of the files. */
  ghost predicate Sized(holds: Owner -> seq<byte>, l: Layout) {
    forall o :: 2 <= o && Live(l, o) ==> |holds(l.owners[o])| == l.owners[o].header.numBytes
  }

  lemma {:induction false} CountBelow(n: nat)
    ensures |Free({}, n)| == n
  {
    if n > 0 {
      CountBelow(n - 1);
      assert Free({}, n) == Free({}, n - 1) + {n - 1};
    }
  }

  /** Unmarking marked sectors makes that many more clear. */
  lemma FreeMinus(used: set<nat>, x: set<nat>, n: nat)
    requires x <= used && forall s :: s in x ==> s < n
    ensures |Free(used - x, n)| == |Free(used, n)| + |x|
  {
    assert Free(used - x, n) == Free(used, n) + x;
    assert Free(used, n) !! x;
  }

  ghost predicate NoneListed(l: Layout) {
    |l.owners| == OWNERS && forall o :: 2 <= o < OWNERS ==> l.owners[o].Nobody?
  }

  lemma AllVacant(l: Layout)
    requires NoneListed(l)
    ensures |Vacant(l)| == SLOTS && Names(l) == {}
  {
    CountBelow(OWNERS);
    assert Vacant(l) == Free({}, OWNERS) - {0, 1};
  }

  lemma RootsOnly(l: Layout)
    requires Rooted(l) && NoneListed(l) && Exact(l)
    ensures l.used == l.owners[0].sectors + l.owners[1].sectors
  {
    forall s
      ensures s in l.used <==> s in l.owners[0].sectors + l.owners[1].sectors
    {
      if s in l.used {
        var o :| Live(l, o) && s in l.owners[o].sectors;
        assert o < 2;
      }
    }
  }

  lemma RootsApart(l: Layout)
    requires Rooted(l) && Disjoint(l)
    ensures l.owners[0].sectors !! l.owners[1].sectors
  {}

  lemma RootSectors(l: Layout)
    requires Rooted(l) && NoneListed(l) && Consistent(l)
    ensures |l.used| == Roots(l) && forall s :: s in l.used ==> s < NUM_SECTORS
  {
    hide Disjoint;
    hide KeysDistinct;
    hide OwnerSound;
    hide Exact;
    assert OwnerSound(l.owners[0]) && OwnerSound(l.owners[1]);
    RootsOnly(l);
    RootsApart(l);
    OwnerSize(l.owners[0]);
    OwnerSize(l.owners[1]);
  }

  lemma NoFiles(holds: Owner -> seq<byte>, l: Layout)
    requires Rooted(l) && NoneListed(l) && Consistent(l)
    ensures Files(holds, l) == map[] && |Free(l.used, NUM_SECTORS)| == NUM_SECTORS - Roots(l) && |Vacant(l)| == SLOTS
  {
    hide Consistent;
    hide NoneListed;
    hide Names;
    hide Vacant;
    hide Free;
    AllVacant(l);
    RootSectors(l);
    CountBelow(NUM_SECTORS);
    FreeMinus(l.used, l.used, NUM_SECTORS);
    assert l.used - l.used == {};
  }

  lemma DropVacant(l: Layout, o: nat)
    requires |l.owners| == OWNERS && 2 <= o && Live(l, o)
    ensures |Vacant(Drop(l, o))| == |Vacant(l)| + 1
  {
    assert Vacant(Drop(l, o)) == Vacant(l) + {o};
  }

  /** Taking one file out gives back its sectors. */
  lemma DropFree(l: Layout, o: nat)
    requires Consistent(l) && 2 <= o && Live(l, o)
    ensures |Free(Drop(l, o).used, NUM_SECTORS)|
         == |Free(l.used, NUM_SECTORS)| + 1 + DivRoundUp(l.owners[o].header.numBytes, SECTOR_SIZE)
  {
    assert OwnerSound(l.owners[o]);
    hide Consistent;
    hide OwnerSound;
    hide Free;
    OwnerSize(l.owners[o]);
    FileIsUsed(l, o);
    FreeMinus(l.used, l.owners[o].sectors, NUM_SECTORS);
  }

  /** On a consistent layout the free sectors and the free slots can be told from the map. */
  lemma {:induction false} Accounts(holds: Owner -> seq<byte>, l: Layout)
    requires Rooted(l) && Consistent(l) && Sized(holds, l)
    ensures |Free(l.used, NUM_SECTORS)| == NUM_SECTORS - Roots(l) - Space(Files(holds, l))
    ensures |Vacant(l)| == SLOTS - |Files(holds, l)|
    decreases Names(l)
  {
    hide Consistent;
    hide Free;
    hide Vacant;
    hide Names;
    hide Sized;
    hide Files;
    hide Space;
    if NoneListed(l) {
      NoFiles(holds, l);
      EmptySpace();
    } else {
      var o :| 2 <= o < OWNERS && !l.owners[o].Nobody?;
      AccountOne(holds, l, l.owners[o].key, o);
      Accounts(holds, Drop(l, o));
    }
  }

  lemma EmptySpace()
    ensures Space(map[]) == 0
  {}

  lemma AccountOne(holds: Owner -> seq<byte>, l: Layout, key: seq<byte>, o: nat)
    requires Rooted(l) && OwnsKey(l, o, key) && Consistent(l) && Sized(holds, l)
    ensures var m := Drop(l, o);
      && Rooted(m) && Consistent(m) && Sized(holds, m) && Roots(m) == Roots(l) && Names(m) < Names(l)
      && Space(Files(holds, l)) == 1 + DivRoundUp(l.owners[o].header.numBytes, SECTOR_SIZE) + Space(Files(holds, m))
      && |Files(holds, l)| == |Files(holds, m)| + 1
      && |Vacant(m)| == |Vacant(l)| + 1
      && |Free(m.used, NUM_SECTORS)|
         == |Free(l.used, NUM_SECTORS)| + 1 + DivRoundUp(l.owners[o].header.numBytes, SECTOR_SIZE)
  {
    hide Consistent;
    hide Free;
    hide Vacant;
    hide Names;
    hide Space;
    DropConsistent(l, o);
    FilesDrop(holds, l, o);
    DropSized(holds, l, o);
    DropVacant(l, o);
    DropFree(l, o);
    OwnerOfKey(l, o);
    assert |holds(l.owners[o])| == l.owners[o].header.numBytes;
    hide Sized;
    SpaceWithout(Files(holds, l), key);
    assert Files(holds, l)[key] == holds(l.owners[o]);
    hide Files;
    assert Files(holds, l).Keys == (Files(holds, l) - {key}).Keys + {key};
  }

  lemma DropSized(holds: Owner -> seq<byte>, l: Layout, o: nat)
    requires Sized(holds, l) && Live(l, o)
    ensures Sized(holds, Drop(l, o))
  {
    var m := Drop(l, o);
    forall p | 2 <= p && Live(m, p)
      ensures |holds(m.owners[p])| == m.owners[p].header.numBytes
    {
      assert Live(l, p);
    }
  }
}
