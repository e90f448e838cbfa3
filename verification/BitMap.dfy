/** The word-array bit map of userprog/bitmap.cc, refined to a set of marked numbers. */
module BitMaps {
  import opened Bytes

  const BITS_IN_WORD := 32

  function DivRoundUp(n: nat, s: nat): (r: nat)
    requires s > 0
    ensures n <= r * s < n + s
  {
    n / s + (if n % s > 0 then 1 else 0)
  }

  // ---- bits of a word ----

  function And(w: bv32, m: bv32): bv32 {
    w & m
  }

  function Or(w: bv32, m: bv32): bv32 {
    w | m
  }

  function AndNot(w: bv32, m: bv32): bv32 {
    w & !m
  }

  /** `w & (1 << k)` is not zero. */
  predicate WordBit(w: bv32, k: nat) {
    And(w, Mask(k)) != 0
  }

  /** `1 << k`, by doubling. */
  function Mask(k: nat): bv32 {
    if k == 0 then 1 else Mask(k - 1) << 1
  }

  lemma ShiftApart(a: bv32, b: bv32)
    requires a & b == 0
    ensures (a << 1) & (b << 1) == 0 && 1 & (b << 1) == 0
  {}

  lemma {:induction false} MasksDisjoint(j: nat, k: nat)
    requires j < k
    ensures Mask(j) & Mask(k) == 0
  {
    if j == 0 {
      ShiftApart(0, Mask(k - 1));
    } else {
      MasksDisjoint(j - 1, k - 1);
      ShiftApart(Mask(j - 1), Mask(k - 1));
    }
  }

  lemma {:induction false} MaskNotZero(k: nat)
    requires k < BITS_IN_WORD
    ensures Mask(k) != 0
    decreases BITS_IN_WORD - k
  {
    if k == BITS_IN_WORD - 1 {
      assert Mask(4) == 0x10 && Mask(8) == 0x100 && Mask(12) == 0x1000 && Mask(16) == 0x1_0000;
      assert Mask(20) == 0x10_0000 && Mask(24) == 0x100_0000 && Mask(28) == 0x1000_0000;
      assert Mask(31) == 0x8000_0000;
    } else {
      MaskNotZero(k + 1);
    }
  }

  lemma OtherBits(w: bv32, m: bv32, n: bv32)
    requires m & n == 0
    ensures (w | m) & n == w & n && (w & !m) & n == w & n
  {}

  lemma OtherMask(w: bv32, m: bv32, n: bv32)
    requires And(m, n) == 0
    ensures And(Or(w, m), n) == And(w, n) && And(AndNot(w, m), n) == And(w, n)
  {
    OtherBits(w, m, n);
  }

  lemma SameMask(w: bv32, m: bv32)
    requires m != 0
    ensures And(Or(w, m), m) != 0 && And(AndNot(w, m), m) == 0
  {}

  lemma MasksApart(k: nat, i: nat)
    requires i != k
    ensures And(Mask(k), Mask(i)) == 0
  {
    if i < k {
      MasksDisjoint(i, k);
    } else {
      MasksDisjoint(k, i);
    }
  }

  /** Or-ing in bit `k` sets it, masking it out clears it, and both leave every other bit of the word alone. */
  lemma BitsAfter(w: bv32, k: nat, i: nat)
    requires k < BITS_IN_WORD
    ensures WordBit(Or(w, Mask(k)), i) <==> i == k || WordBit(w, i)
    ensures WordBit(AndNot(w, Mask(k)), i) <==> i != k && WordBit(w, i)
  {
    hide And;
    hide Or;
    hide AndNot;
    hide Mask;
    if i == k {
      MaskNotZero(k);
      SameMask(w, Mask(k));
    } else {
      MasksApart(k, i);
      OtherMask(w, Mask(k), Mask(i));
    }
  }

  /** `w |= 1 << k` */
  method SetBit(w: bv32, k: nat) returns (r: bv32)
    requires k < BITS_IN_WORD
    ensures forall i: nat :: i < BITS_IN_WORD ==> (WordBit(r, i) <==> i == k || WordBit(w, i))
  {
    hide WordBit;
    hide Mask;
    r := w | Mask(k);
    assert r == Or(w, Mask(k));
    hide Or;
    forall i: nat | i < BITS_IN_WORD
      ensures WordBit(r, i) <==> i == k || WordBit(w, i)
    {
      BitsAfter(w, k, i);
    }
  }

  /** `w &= ~(1 << k)` */
  method UnsetBit(w: bv32, k: nat) returns (r: bv32)
    requires k < BITS_IN_WORD
    ensures forall i: nat :: i < BITS_IN_WORD ==> (WordBit(r, i) <==> i != k && WordBit(w, i))
  {
    hide WordBit;
    hide Mask;
    r := w & !Mask(k);
    assert r == AndNot(w, Mask(k));
    hide AndNot;
    forall i: nat | i < BITS_IN_WORD
      ensures WordBit(r, i) <==> i != k && WordBit(w, i)
    {
      BitsAfter(w, k, i);
    }
  }

  /** `w & (1 << k)` */
  method TestBit(w: bv32, k: nat) returns (on: bool)
    requires k < BITS_IN_WORD
    ensures on <==> WordBit(w, k)
  {
    on := w & Mask(k) != 0;
  }

  // ---- bits of a word array ----

  predicate Bit(words: seq<bv32>, i: nat)
    requires i / BITS_IN_WORD < |words|
  {
    WordBit(words[i / BITS_IN_WORD], i % BITS_IN_WORD)
  }

  /** The set that a word array of at least `n` bits stands for. */
  ghost function Marks(words: seq<bv32>, n: nat): set<nat>
    requires n <= |words| * BITS_IN_WORD
  {
    set i: nat | i < n && Bit(words, i)
  }

  /** Changing one bit of one word changes the set by that one number. */
  lemma UpdateMarks(before: seq<bv32>, after: seq<bv32>, k: nat, on: bool, n: nat)
    requires k < n <= |before| * BITS_IN_WORD
    requires |after| == |before|
    requires after == before[k / BITS_IN_WORD := after[k / BITS_IN_WORD]]
    requires forall i: nat :: i < BITS_IN_WORD ==>
      WordBit(after[k / BITS_IN_WORD], i) ==
        if i == k % BITS_IN_WORD then on else WordBit(before[k / BITS_IN_WORD], i)
    ensures Marks(after, n) == if on then Marks(before, n) + {k} else Marks(before, n) - {k}
  {
    forall i: nat | i < n
      ensures Bit(after, i) <==> if i == k then on else Bit(before, i)
    {}
  }

  // ---- the set view: which numbers Find hands out ----

  /** The clear numbers below `n`. */
  function Free(used: set<nat>, n: nat): set<nat> {
    set i: nat | i < n && i !in used
  }

  /** `rs` are the |rs| smallest clear numbers, in increasing order. */
  ghost predicate Smallest(used: set<nat>, n: nat, rs: seq<nat>) {
    && (forall i :: 0 <= i < |rs| ==> rs[i] < n && rs[i] !in used)
    && (forall i, j :: 0 <= i < j < |rs| ==> rs[i] < rs[j])
    && (forall c: nat :: c < n && c !in used && c !in rs ==> forall i :: 0 <= i < |rs| ==> rs[i] < c)
  }

  ghost function Elements(rs: seq<nat>): set<nat> {
    set r | r in rs
  }

  /** One more Find keeps the run of results the smallest ones. */
  lemma SmallestSnoc(used: set<nat>, n: nat, rs: seq<nat>, r: nat)
    requires Smallest(used, n, rs)
    requires r < n && r !in used && r !in rs
    requires forall c: nat :: c < r ==> c in used || c in rs
    ensures Smallest(used, n, rs + [r])
    ensures Elements(rs + [r]) == Elements(rs) + {r}
  {}

  lemma {:induction false} DistinctSize(rs: seq<nat>)
    requires forall i, j :: 0 <= i < j < |rs| ==> rs[i] != rs[j]
    ensures |Elements(rs)| == |rs|
  {
    if rs != [] {
      var init := rs[..|rs| - 1];
      DistinctSize(init);
      assert Elements(rs) == Elements(init) + {rs[|rs| - 1]};
    }
  }

  /** Marking distinct clear numbers lowers the clear count by exactly their number. */
  lemma FreeAfter(used: set<nat>, n: nat, rs: seq<nat>)
    requires forall i :: 0 <= i < |rs| ==> rs[i] < n && rs[i] !in used
    requires forall i, j :: 0 <= i < j < |rs| ==> rs[i] != rs[j]
    ensures |Free(used + Elements(rs), n)| == |Free(used, n)| - |rs|
  {
    DistinctSize(rs);
    assert Free(used + Elements(rs), n) == Free(used, n) - Elements(rs);
    assert Elements(rs) <= Free(used, n);
  }

  /** The k smallest clear numbers are unique, so `Smallest` says everything about a run of Finds. */
  lemma {:induction false} SmallestUnique(used: set<nat>, n: nat, rs: seq<nat>, ss: seq<nat>)
    requires Smallest(used, n, rs) && Smallest(used, n, ss)
    requires |rs| == |ss|
    ensures rs == ss
  {
    if rs != [] {
      var k := |rs| - 1;
      SmallestPrefix(used, n, rs);
      SmallestPrefix(used, n, ss);
      SmallestUnique(used, n, rs[..k], ss[..k]);
      assert rs[k] == ss[k] by {
        assert rs[k] !in ss[..k] && ss[k] !in rs[..k];
      }
    }
  }

  lemma SmallestPrefix(used: set<nat>, n: nat, rs: seq<nat>)
    requires Smallest(used, n, rs) && rs != []
    ensures Smallest(used, n, rs[..|rs| - 1])
  {
    var init := rs[..|rs| - 1];
    forall c: nat | c < n && c !in used && c !in init
      ensures forall i :: 0 <= i < |init| ==> init[i] < c
    {
      if c in rs {
        assert c == rs[|rs| - 1];
      }
    }
  }

  class BitMap {
    const numBits: nat
    const words: array<bv32>

    ghost predicate Valid()
      reads this
    {
      words.Length == DivRoundUp(numBits, BITS_IN_WORD)
    }

    /** The set this bit map stands for. */
    ghost function Used(): set<nat>
      requires Valid()
      reads this, words
    {
      Marks(words[..], numBits)
    }

    constructor (nitems: nat)
      ensures Valid() && numBits == nitems && Used() == {} && fresh(words)
    {
      numBits := nitems;
      words := new bv32[DivRoundUp(nitems, BITS_IN_WORD)];
      new;
      for i := 0 to nitems
        invariant Marks(words[..], i) == {}
      {
        ghost var before := words[..];
        words[i / BITS_IN_WORD] := UnsetBit(words[i / BITS_IN_WORD], i % BITS_IN_WORD);
        UpdateMarks(before, words[..], i, false, i + 1);
        assert Marks(before, i + 1) <= Marks(before, i) + {i};
      }
    }

    method Mark(which: nat)
      requires Valid() && which < numBits
      modifies words
      ensures Used() == old(Used()) + {which}
    {
      words[which / BITS_IN_WORD] := SetBit(words[which / BITS_IN_WORD], which % BITS_IN_WORD);
      UpdateMarks(old(words[..]), words[..], which, true, numBits);
    }

    method Clear(which: nat)
      requires Valid() && which < numBits
      modifies words
      ensures Used() == old(Used()) - {which}
    {
      words[which / BITS_IN_WORD] := UnsetBit(words[which / BITS_IN_WORD], which % BITS_IN_WORD);
      UpdateMarks(old(words[..]), words[..], which, false, numBits);
    }

    method Test(which: nat) returns (marked: bool)
      requires Valid() && which < numBits
      ensures marked <==> which in Used()
    {
      marked := TestBit(words[which / BITS_IN_WORD], which % BITS_IN_WORD);
    }

    /** Hands out the smallest clear number and marks it, or -1 when all are marked. */
    method Find() returns (r: int)
      requires Valid()
      modifies words
      ensures r == -1 <==> Free(old(Used()), numBits) == {}
      ensures r == -1 ==> Used() == old(Used())
      ensures r != -1 ==>
        && 0 <= r < numBits
        && r !in old(Used())
        && (forall c: nat :: c < r ==> c in old(Used()))
        && Used() == old(Used()) + {r}
    {
      for i := 0 to numBits
        invariant words[..] == old(words[..])
        invariant forall c: nat :: c < i ==> c in Used()
      {
        var marked := Test(i);
        if !marked {
          assert i in Free(old(Used()), numBits);
          Mark(i);
          return i;
        }
      }
      assert forall c: nat :: c < numBits ==> c in Used();
      assert Free(Used(), numBits) == {};
      return -1;
    }

    /** Find, called again after a run of Finds: the results stay the smallest clear numbers. */
    method FindAgain(ghost used: set<nat>, ghost taken: seq<nat>) returns (r: int)
      requires Valid()
      requires Smallest(used, numBits, taken) && Used() == used + Elements(taken)
      requires |taken| < |Free(used, numBits)|
      modifies words
      ensures 0 <= r < numBits
      ensures Smallest(used, numBits, taken + [r]) && Used() == used + Elements(taken + [r])
    {
      FreeAfter(used, numBits, taken);
      r := Find();
      SmallestSnoc(used, numBits, taken, r);
    }

    method NumClear() returns (count: nat)
      requires Valid()
      ensures count == |Free(Used(), numBits)|
    {
      count := 0;
      for i := 0 to numBits
        invariant count == |Free(Used(), i)|
      {
        var marked := Test(i);
        assert Free(Used(), i + 1) == Free(Used(), i) + if marked then {} else {i};
        if !marked {
          count := count + 1;
        }
      }
    }
  }
}
