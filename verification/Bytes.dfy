/** Bytes, machine words and their little-endian layout, as the disk and main memory hold them. */
module Bytes {
  type byte = x: int | 0 <= x < 256
  type int32 = x: int | -0x8000_0000 <= x < 0x8000_0000

  /** An `int` that is not negative. */
  type nat31 = x: int32 | x >= 0

  /** What an `int` sum comes to. */
  function Wrap(n: int): int32 {
    (n + 0x8000_0000) % 0x1_0000_0000 - 0x8000_0000
  }

  /** The bits of an `int`, read as an `unsigned int`. */
  function Unsigned(n: int32): (u: nat)
    ensures u < 0x1_0000_0000
  {
    if n < 0 then n + 0x1_0000_0000 else n
  }

  /** The bits of an `unsigned int`, read as an `int`. */
  function Signed(u: nat): (n: int32)
    requires u < 0x1_0000_0000
    ensures Unsigned(n) == u
  {
    if u < 0x8000_0000 then u else u - 0x1_0000_0000
  }

  // ---- fixed-size records laid end to end ----

  ghost predicate AllOfSize(chunks: seq<seq<byte>>, c: nat) {
    forall i :: 0 <= i < |chunks| ==> |chunks[i]| == c
  }

  function Flatten(chunks: seq<seq<byte>>): (b: seq<byte>) {
    if chunks == [] then [] else Flatten(chunks[..|chunks| - 1]) + chunks[|chunks| - 1]
  }

  lemma {:induction false} FlattenLength(chunks: seq<seq<byte>>, c: nat)
    requires AllOfSize(chunks, c)
    ensures |Flatten(chunks)| == |chunks| * c
  {
    if chunks != [] {
      FlattenLength(chunks[..|chunks| - 1], c);
      assert (|chunks| - 1) * c + c == |chunks| * c;
    }
  }

  lemma {:induction false} FlattenConcat(xs: seq<seq<byte>>, ys: seq<seq<byte>>)
    ensures Flatten(xs + ys) == Flatten(xs) + Flatten(ys)
  {
    if ys == [] {
      assert xs + ys == xs;
    } else {
      var init := ys[..|ys| - 1];
      assert (xs + ys)[..|xs + ys| - 1] == xs + init;
      FlattenConcat(xs, init);
    }
  }

  /** Chunks i up to j of a layout with records of size c are exactly the bytes i*c up to j*c. */
  lemma FlattenSlice(chunks: seq<seq<byte>>, c: nat, i: nat, j: nat)
    requires AllOfSize(chunks, c)
    requires i <= j <= |chunks|
    ensures 0 <= i * c <= j * c <= |Flatten(chunks)| == |chunks| * c
    ensures Flatten(chunks)[i * c..j * c] == Flatten(chunks[i..j])
  {
    var a, m, z := chunks[..i], chunks[i..j], chunks[j..];
    assert chunks == a + m + z;
    FlattenConcat(a + m, z);
    FlattenConcat(a, m);
    FlattenLength(a, c);
    FlattenLength(m, c);
    FlattenLength(z, c);
    FlattenLength(chunks, c);
    Distribute(i, j, |chunks|, c);
    hide Flatten;
    MiddleOf(Flatten(a), Flatten(m), Flatten(z));
  }

  lemma Distribute(i: nat, j: nat, n: nat, c: nat)
    requires i <= j <= n
    ensures (j - i) * c == j * c - i * c && (n - j) * c == n * c - j * c && 0 <= i * c <= j * c <= n * c
  {
    assert (j - i) * c == j * c - i * c && (n - j) * c == n * c - j * c;
  }

  lemma MiddleOf(a: seq<byte>, m: seq<byte>, z: seq<byte>)
    ensures (a + m + z)[|a|..|a| + |m|] == m
  {}

  lemma FlattenAt(chunks: seq<seq<byte>>, c: nat, i: nat)
    requires AllOfSize(chunks, c)
    requires i < |chunks|
    ensures 0 <= i * c <= (i + 1) * c <= |Flatten(chunks)|
    ensures Flatten(chunks)[i * c..(i + 1) * c] == chunks[i]
  {
    FlattenSlice(chunks, c, i, i + 1);
    assert chunks[i..i + 1] == [chunks[i]];
    assert Flatten([chunks[i]]) == chunks[i];
  }

  // ---- unsigned words (bit maps) ----

  function WordBytes(w: bv32): (b: seq<byte>)
    ensures |b| == 4
  {
    SmallWord(w & 0xff);
    SmallWord((w >> 8) & 0xff);
    SmallWord((w >> 16) & 0xff);
    SmallWord((w >> 24) & 0xff);
    [(w & 0xff) as int, ((w >> 8) & 0xff) as int, ((w >> 16) & 0xff) as int, ((w >> 24) & 0xff) as int]
  }

  function BytesWord(b: seq<byte>): bv32
    requires |b| == 4
  {
    (b[0] as bv32) | ((b[1] as bv32) << 8) | ((b[2] as bv32) << 16) | ((b[3] as bv32) << 24)
  }

  lemma SmallWord(w: bv32)
    requires w <= 0xff
    ensures w as int < 256
  {}

  lemma WordIntWord(w: bv32)
    ensures (w as int) as bv32 == w
  {}

  lemma WordRoundTrip(w: bv32)
    ensures BytesWord(WordBytes(w)) == w
  {
    assert (w & 0xff) | (((w >> 8) & 0xff) << 8) | (((w >> 16) & 0xff) << 16) | (((w >> 24) & 0xff) << 24) == w;
    WordIntWord(w & 0xff);
    WordIntWord((w >> 8) & 0xff);
    WordIntWord((w >> 16) & 0xff);
    WordIntWord((w >> 24) & 0xff);
  }

  function WordsBytes(ws: seq<bv32>): seq<byte> {
    Flatten(seq(|ws|, i requires 0 <= i < |ws| => WordBytes(ws[i])))
  }

  function BytesWords(b: seq<byte>, n: nat): (ws: seq<bv32>)
    requires |b| == n * 4
    ensures |ws| == n
  {
    seq(n, i requires 0 <= i < n => BytesWord(b[i * 4..(i + 1) * 4]))
  }

  lemma WordsRoundTrip(ws: seq<bv32>)
    ensures |WordsBytes(ws)| == |ws| * 4
    ensures BytesWords(WordsBytes(ws), |ws|) == ws
  {
    var chunks: seq<seq<byte>> := seq(|ws|, i requires 0 <= i < |ws| => WordBytes(ws[i]));
    FlattenLength(chunks, 4);
    forall i | 0 <= i < |ws|
      ensures BytesWords(WordsBytes(ws), |ws|)[i] == ws[i]
    {
      FlattenAt(chunks, 4, i);
      WordRoundTrip(ws[i]);
    }
  }

  // ---- signed words (file headers, directory entries) ----

  function IntBytes(n: int32): (b: seq<byte>)
    ensures |b| == 4
  {
    var u := Unsigned(n);
    [u % 256, u / 256 % 256, u / 65536 % 256, u / 16777216]
  }

  function BytesInt(b: seq<byte>): int32
    requires |b| == 4
  {
    Signed((b[0] as int) + (b[1] as int) * 256 + (b[2] as int) * 65536 + (b[3] as int) * 16777216)
  }

  lemma IntRoundTrip(n: int32)
    ensures BytesInt(IntBytes(n)) == n
  {
    var u := Unsigned(n);
    var q := u / 256;
    var p := q / 256;
    assert u / 65536 == p && u / 16777216 == p / 256;
    assert u == u % 256 + 256 * q && q == q % 256 + 256 * p && p == p % 256 + 256 * (p / 256);
  }

  function IntsBytes(ns: seq<int32>): seq<byte> {
    Flatten(seq(|ns|, i requires 0 <= i < |ns| => IntBytes(ns[i])))
  }

  function BytesInts(b: seq<byte>, n: nat): (ns: seq<int32>)
    requires |b| == n * 4
    ensures |ns| == n
  {
    seq(n, i requires 0 <= i < n => BytesInt(b[i * 4..(i + 1) * 4]))
  }

  lemma IntsRoundTrip(ns: seq<int32>)
    ensures |IntsBytes(ns)| == |ns| * 4
    ensures BytesInts(IntsBytes(ns), |ns|) == ns
  {
    var chunks: seq<seq<byte>> := seq(|ns|, i requires 0 <= i < |ns| => IntBytes(ns[i]));
    FlattenLength(chunks, 4);
    forall i | 0 <= i < |ns|
      ensures BytesInts(IntsBytes(ns), |ns|)[i] == ns[i]
    {
      FlattenAt(chunks, 4, i);
      IntRoundTrip(ns[i]);
    }
  }

  lemma IntsAt(ns: seq<int32>, i: nat)
    requires i < |ns|
    ensures 0 <= i * 4 <= (i + 1) * 4 <= |IntsBytes(ns)| && IntsBytes(ns)[i * 4..(i + 1) * 4] == IntBytes(ns[i])
  {
    FlattenAt(seq(|ns|, k requires 0 <= k < |ns| => IntBytes(ns[k])), 4, i);
  }

  // ---- copying into a buffer ----

  /** `bcopy`: `data` written over `buf` from `at` on. */
  function Splice(buf: seq<byte>, at: nat, data: seq<byte>): (r: seq<byte>)
    requires at + |data| <= |buf|
    ensures |r| == |buf|
    ensures r[at..at + |data|] == data
    ensures forall i :: 0 <= i < |buf| && !(at <= i < at + |data|) ==> r[i] == buf[i]
  {
    buf[..at] + data + buf[at + |data|..]
  }

  /** Writing two adjacent runs is the same as writing them as one. */
  lemma SpliceSplice(buf: seq<byte>, at: nat, a: seq<byte>, b: seq<byte>)
    requires at + |a| + |b| <= |buf|
    ensures Splice(Splice(buf, at, a), at + |a|, b) == Splice(buf, at, a + b)
  {}
}
