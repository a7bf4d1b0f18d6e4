/** Content-defined chunking: a rolling 64-bit gear hash decides where a file is cut. */
module Chunker {
  import opened Base

  const MIN_CHUNK := 128 * 1024
  const WORD := 0x1_0000_0000_0000_0000
  const CUT := 0x8_0000

  type Word = w: int | 0 <= w < WORD

  /** One random word per byte value. */
  type Gear = g: seq<Word> | |g| == 256 witness seq(256, i => 0)

  // ---------------------------------------------------------------- the specification

  /** Unsigned 64-bit `(hash << 1) + gear[b]`. */
  function Shifted(hash: Word, b: Byte, gear: Gear): Word {
    (hash * 2 % WORD + gear[b]) % WORD
  }

  /** The hash after the bytes of a block. */
  function Roll(gear: Gear, block: Bytes): Word {
    if block == [] then 0 else Shifted(Roll(gear, block[..|block| - 1]), block[|block| - 1], gear)
  }

  predicate Cuts(gear: Gear, block: Bytes) {
    |block| >= MAX_CHUNK || (|block| >= MIN_CHUNK && Roll(gear, block) % CUT == 0)
  }

  /** The finished chunks and the unfinished block. */
  datatype Split = Split(done: seq<Bytes>, block: Bytes)

  function Fed(gear: Gear, s: Split, b: Byte): Split {
    if Cuts(gear, s.block + [b]) then Split(s.done + [s.block + [b]], []) else Split(s.done, s.block + [b])
  }

  function FedAll(gear: Gear, s: Split, data: Bytes): Split {
    if data == [] then s else Fed(gear, FedAll(gear, s, data[..|data| - 1]), data[|data| - 1])
  }

  function Closed(s: Split): seq<Bytes> {
    if s.block == [] then s.done else s.done + [s.block]
  }

  /** The chunks of a file. */
  function Chunks(gear: Gear, data: Bytes): seq<Bytes> {
    Closed(FedAll(gear, Split([], []), data))
  }

  // ---------------------------------------------------------------- nothing lost, sizes bounded

  lemma {:induction false} FedTwice(gear: Gear, s: Split, a: Bytes, b: Bytes)
    ensures FedAll(gear, s, a + b) == FedAll(gear, FedAll(gear, s, a), b)
    decreases |b|
  {
    if b == [] {
      assert a + b == a;
    } else {
      var last := |b| - 1;
      FedTwice(gear, s, a, b[..last]);
      assert (a + b)[..|a + b| - 1] == a + b[..last];
    }
  }

  lemma FedNext(gear: Gear, s: Split, input: Bytes, i: nat)
    requires i < |input|
    ensures FedAll(gear, s, input[..i + 1]) == Fed(gear, FedAll(gear, s, input[..i]), input[i])
  {
    assert input[..i + 1][..i] == input[..i];
    hide Fed;
  }

  /** Where the cutting has got to: chunks within bounds, an unfinished block that nowhere cuts. */
  predicate Running(gear: Gear, s: Split) {
    && (forall i | 0 <= i < |s.done| :: Complete(gear, s.done[i]))
    && Unfinished(gear, s.block)
  }

  /** No leading part of the block is a chunk. */
  predicate Unfinished(gear: Gear, block: Bytes) {
    forall n | 0 < n <= |block| :: !Cuts(gear, block[..n])
  }

  predicate Complete(gear: Gear, chunk: Bytes) {
    chunk != [] && Cuts(gear, chunk) && Unfinished(gear, chunk[..|chunk| - 1])
  }

  lemma FedRuns(gear: Gear, s: Split, b: Byte)
    requires Running(gear, s)
    ensures Running(gear, Fed(gear, s, b))
    ensures Concat(Fed(gear, s, b).done) + Fed(gear, s, b).block == Concat(s.done) + s.block + [b]
  {
    hide Cuts;
    var block := s.block + [b];
    assert block[..|s.block|] == s.block;
    if Cuts(gear, block) {
      ConcatAppend(s.done, [block]);
      assert Concat([block]) == block;
      Associate(Concat(s.done), s.block, [b]);
    } else {
      forall n | 0 < n <= |block|
        ensures !Cuts(gear, block[..n])
      {
        if n < |block| {
          assert block[..n] == s.block[..n];
        } else {
          assert block[..n] == block;
        }
      }
      Associate(Concat(s.done), s.block, [b]);
    }
  }

  lemma {:induction false} FedAllRuns(gear: Gear, s: Split, data: Bytes)
    requires Running(gear, s)
    ensures Running(gear, FedAll(gear, s, data))
    ensures Concat(FedAll(gear, s, data).done) + FedAll(gear, s, data).block == Concat(s.done) + s.block + data
  {
    hide Running, Fed, Concat;
    if data == [] {
      assert Concat(s.done) + s.block + data == Concat(s.done) + s.block;
    } else {
      var last := |data| - 1;
      FedAllRuns(gear, s, data[..last]);
      FedRuns(gear, FedAll(gear, s, data[..last]), data[last]);
      assert data == data[..last] + [data[last]];
      Associate(Concat(s.done) + s.block, data[..last], [data[last]]);
    }
  }

  lemma CompleteSize(gear: Gear, chunk: Bytes)
    requires Complete(gear, chunk)
    ensures MIN_CHUNK <= |chunk| <= MAX_CHUNK
  {
    var shorter := chunk[..|chunk| - 1];
    assert shorter[..|shorter|] == shorter;
    assert shorter != [] ==> !Cuts(gear, shorter);
  }

  lemma UnfinishedSize(gear: Gear, block: Bytes)
    requires Unfinished(gear, block)
    ensures |block| < MAX_CHUNK
  {
    assert block[..|block|] == block;
    assert block != [] ==> !Cuts(gear, block);
  }

  /** The chunks, one after the other, are the file; none is empty or larger than 2 MiB, and only the last may be
      smaller than 128 KiB. */
  lemma ChunksCover(gear: Gear, data: Bytes)
    ensures Concat(Chunks(gear, data)) == data
    ensures forall i | 0 <= i < |Chunks(gear, data)| :: 0 < |Chunks(gear, data)[i]| <= MAX_CHUNK
    ensures forall i | 0 <= i < |Chunks(gear, data)| - 1 :: |Chunks(gear, data)[i]| >= MIN_CHUNK
  {
    hide Complete, Unfinished, FedAll;
    var s := FedAll(gear, Split([], []), data);
    EmptyUnfinished(gear);
    FedAllRuns(gear, Split([], []), data);
    assert Concat([]) + [] + data == data;
    RunningSizes(gear, s);
    hide Running;
    if s.block != [] {
      ConcatAppend(s.done, [s.block]);
      assert Concat([s.block]) == s.block;
    }
  }

  lemma RunningSizes(gear: Gear, s: Split)
    requires Running(gear, s)
    ensures forall i | 0 <= i < |s.done| :: MIN_CHUNK <= |s.done[i]| <= MAX_CHUNK
    ensures |s.block| < MAX_CHUNK
  {
    hide Complete, Unfinished;
    forall i | 0 <= i < |s.done|
      ensures MIN_CHUNK <= |s.done[i]| <= MAX_CHUNK
    {
      CompleteSize(gear, s.done[i]);
    }
    UnfinishedSize(gear, s.block);
  }

  // ---------------------------------------------------------------- the cuts are the earliest possible, and only those

  /** Every part but the last ends at the first place where it cuts; the last may stop short of one. */
  predicate CutEarly(gear: Gear, parts: seq<Bytes>) {
    && (forall i | 0 <= i < |parts| - 1 :: Complete(gear, parts[i]))
    && (parts != [] ==> Complete(gear, parts[|parts| - 1]) || (parts[|parts| - 1] != [] && Unfinished(gear, parts[|parts| - 1])))
  }

  lemma ShorterUnfinished(gear: Gear, block: Bytes)
    requires Unfinished(gear, block) && block != []
    ensures Unfinished(gear, block[..|block| - 1]) && !Cuts(gear, block)
  {
    hide Cuts;
    var shorter := block[..|block| - 1];
    assert block[..|block|] == block;
    forall n | 0 < n <= |shorter|
      ensures !Cuts(gear, shorter[..n])
    {
      assert shorter[..n] == block[..n];
    }
  }

  /** Feeding an unfinished block to an empty one. */
  lemma {:induction false} FedUnfinished(gear: Gear, done: seq<Bytes>, block: Bytes)
    requires Unfinished(gear, block)
    ensures FedAll(gear, Split(done, []), block) == Split(done, block)
  {
    hide Cuts;
    if block != [] {
      var last := |block| - 1;
      ShorterUnfinished(gear, block);
      FedUnfinished(gear, done, block[..last]);
      assert block[..last] + [block[last]] == block == block[..|block|];
      hide Unfinished, FedAll;
    }
  }

  lemma FedComplete(gear: Gear, done: seq<Bytes>, chunk: Bytes)
    requires Complete(gear, chunk)
    ensures FedAll(gear, Split(done, []), chunk) == Split(done + [chunk], [])
  {
    var last := |chunk| - 1;
    FedUnfinished(gear, done, chunk[..last]);
    assert chunk[..last] + [chunk[last]] == chunk;
  }

  /** A list of parts that are cut as early as possible is the chunk list of what they add up to. */
  lemma {:induction false} ChunksUnique(gear: Gear, done: seq<Bytes>, parts: seq<Bytes>)
    requires CutEarly(gear, parts)
    ensures Closed(FedAll(gear, Split(done, []), Concat(parts))) == done + parts
    decreases |parts|
  {
    hide Cuts, Unfinished, Complete;
    if parts == [] {
      assert done + parts == done;
    } else {
      var rest := parts[1..];
      FedTwice(gear, Split(done, []), parts[0], Concat(rest));
      if Complete(gear, parts[0]) {
        FedComplete(gear, done, parts[0]);
        ChunksUnique(gear, done + [parts[0]], rest);
        assert done + [parts[0]] + rest == done + parts;
      } else {
        FedUnfinished(gear, done, parts[0]);
        assert rest == [] && parts == [parts[0]];
      }
    }
  }

  lemma ChunksAreThe(gear: Gear, parts: seq<Bytes>)
    requires CutEarly(gear, parts)
    ensures Chunks(gear, Concat(parts)) == parts
  {
    ChunksUnique(gear, [], parts);
    assert [] + parts == parts;
  }

  lemma ChunksCutEarly(gear: Gear, data: Bytes)
    ensures CutEarly(gear, Chunks(gear, data))
  {
    FedAllRuns(gear, Split([], []), data);
    hide Complete, Unfinished, Concat;
  }

  // ---------------------------------------------------------------- locality

  predicate CutPoint(gear: Gear, prefix: Bytes) {
    FedAll(gear, Split([], []), prefix).block == []
  }

  lemma {:induction false} FedPrefix(gear: Gear, done: seq<Bytes>, s: Split, data: Bytes)
    ensures FedAll(gear, Split(done + s.done, s.block), data)
         == Split(done + FedAll(gear, s, data).done, FedAll(gear, s, data).block)
  {
    hide Cuts;
    if data != [] {
      var last := |data| - 1;
      FedPrefix(gear, done, s, data[..last]);
      var t := FedAll(gear, s, data[..last]);
      assert done + (t.done + [t.block + [data[last]]]) == done + t.done + [t.block + [data[last]]];
    }
  }

  /** After a cut point the chunks are those of the rest of the file, whatever came before. */
  lemma ChunksAfterCut(gear: Gear, prefix: Bytes, suffix: Bytes)
    requires CutPoint(gear, prefix)
    ensures Chunks(gear, prefix + suffix) == Chunks(gear, prefix) + Chunks(gear, suffix)
  {
    var s := FedAll(gear, Split([], []), prefix);
    FedTwice(gear, Split([], []), prefix, suffix);
    FedPrefix(gear, s.done, Split([], []), suffix);
    assert s.done + [] == s.done;
  }

  /** Two files that go on alike after a cut point have the same chunks from there on. */
  lemma SharedSuffix(gear: Gear, a: Bytes, b: Bytes, suffix: Bytes)
    requires CutPoint(gear, a) && CutPoint(gear, b)
    ensures exists tail :: Chunks(gear, a + suffix) == Chunks(gear, a) + tail && Chunks(gear, b + suffix) == Chunks(gear, b) + tail
  {
    ChunksAfterCut(gear, a, suffix);
    ChunksAfterCut(gear, b, suffix);
  }

  function Pow2(n: nat): (p: nat)
    ensures p > 0
  {
    if n == 0 then 1 else 2 * Pow2(n - 1)
  }

  lemma CutIsPow2()
    ensures CUT == Pow2(19)
  {
    assert Pow2(4) == 16;
    assert Pow2(8) == 16 * Pow2(4);
    assert Pow2(12) == 16 * Pow2(8);
    assert Pow2(16) == 16 * Pow2(12);
  }

  lemma {:induction false} Pow2Sum(a: nat, b: nat)
    ensures Pow2(a + b) == Pow2(a) * Pow2(b)
  {
    if a > 0 {
      Pow2Sum(a - 1, b);
      assert Pow2(a) * Pow2(b) == 2 * (Pow2(a - 1) * Pow2(b));
    }
  }

  lemma WordIsPow2()
    ensures WORD == Pow2(64)
  {
    CutIsPow2();
    Pow2Sum(19, 19);
    Pow2Sum(38, 19);
    assert Pow2(61) == 16 * Pow2(57);
    assert Pow2(64) == 8 * Pow2(61);
  }

  /** Two numbers with the same remainder. */
  predicate Same(x: int, y: int, m: int)
    requires m > 0
  {
    x % m == y % m
  }

  lemma SameWhen(x: int, y: int, m: int, k: int)
    requires m > 0 && x == y + k * m
    ensures Same(x, y, m)
  {
    var q, r := y / m, y % m;
    assert x == (q + k) * m + r;
    Remainder(x, q + k, r, m);
  }

  lemma Remainder(x: int, q: int, r: int, m: int)
    requires m > 0 && 0 <= r < m && x == q * m + r
    ensures x % m == r
  {
    var d := x / m - q;
    assert d * m + x % m == r;
    Multiples(d, m);
  }

  lemma Multiples(d: int, m: int)
    requires m > 0
    ensures d >= 1 ==> d * m >= m
    ensures d <= -1 ==> d * m <= -m
  {
  }

  lemma Regroup(a: int, b: int, c: int)
    ensures a * (b * c) == (a * b) * c
  {
  }

  lemma SameMultiple(x: int, y: int, m: int) returns (k: int)
    requires m > 0 && Same(x, y, m)
    ensures x == y + k * m
  {
    k := x / m - y / m;
  }

  /** Reducing modulo 2^64 first does not change remainders by smaller powers of two. */
  lemma WordSame(x: int, n: nat)
    requires n <= 64
    ensures Same(x % WORD, x, Pow2(n))
  {
    hide Pow2, Same;
    WordIsPow2();
    Pow2Sum(64 - n, n);
    var k := -(x / WORD);
    Regroup(k, Pow2(64 - n), Pow2(n));
    assert x % WORD == x + k * WORD;
    SameWhen(x % WORD, x, Pow2(n), k * Pow2(64 - n));
  }

  /** One step of the hash keeps one more bit of agreement. */
  lemma ShiftedSame(x: Word, y: Word, b: Byte, gear: Gear, n: nat)
    requires n < 64 && Same(x, y, Pow2(n))
    ensures Same(Shifted(x, b, gear), Shifted(y, b, gear), Pow2(n + 1))
  {
    var k := SameMultiple(x, y, Pow2(n));
    assert Pow2(n + 1) == 2 * Pow2(n);
    hide Pow2, Shifted, Same;
    ShiftedPlain(x, b, gear, n + 1);
    ShiftedPlain(y, b, gear, n + 1);
    Doubled(x, y, k, Pow2(n), Pow2(n + 1));
    SameTrans(Shifted(x, b, gear), 2 * x + gear[b], 2 * y + gear[b], Shifted(y, b, gear), Pow2(n + 1), k);
  }

  lemma Doubled(x: int, y: int, k: int, p: int, p2: int)
    requires x == y + k * p && p2 == 2 * p
    ensures 2 * x == 2 * y + k * p2
  {
    assert k * (2 * p) == 2 * (k * p);
  }

  lemma SameTrans(a: int, x: int, y: int, b: int, m: int, k: int)
    requires m > 0 && Same(a, x, m) && Same(b, y, m) && x == y + k * m
    ensures Same(a, b, m)
  {
    SameWhen(x, y, m, k);
  }

  lemma ShiftedPlain(x: Word, b: Byte, gear: Gear, n: nat)
    requires n <= 64
    ensures Same(Shifted(x, b, gear), 2 * x + gear[b], Pow2(n))
  {
    WordSame(x * 2 % WORD + gear[b], n);
    WordSame(x * 2, n);
    var k := SameMultiple(x * 2 % WORD, x * 2, Pow2(n));
    SameWhen(x * 2 % WORD + gear[b], 2 * x + gear[b], Pow2(n), k);
  }

  lemma FewerBits(x: int, y: int, n: nat)
    requires Same(x, y, Pow2(n + 1))
    ensures Same(x, y, Pow2(n))
  {
    var k := SameMultiple(x, y, Pow2(n + 1));
    assert k * Pow2(n + 1) == (2 * k) * Pow2(n);
    SameWhen(x, y, Pow2(n), 2 * k);
  }

  /** The low bits of the hash, up to the nineteenth, depend on as many of the last bytes only. */
  lemma {:induction false} RollSame(gear: Gear, x: Bytes, y: Bytes, common: Bytes)
    ensures Same(Roll(gear, x + common), Roll(gear, y + common), Pow2(if |common| < 19 then |common| else 19))
    decreases |common|
  {
    hide Shifted, Pow2, Same;
    if common == [] {
      assert Pow2(0) == 1 by { One(); }
      assert Same(Roll(gear, x + common), Roll(gear, y + common), 1) by { ModOne(Roll(gear, x + common), Roll(gear, y + common)); }
    } else {
      var last := |common| - 1;
      RollSame(gear, x, y, common[..last]);
      RollLast(gear, x, common);
      RollLast(gear, y, common);
      var n := if last < 19 then last else 19;
      ShiftedSame(Roll(gear, x + common[..last]), Roll(gear, y + common[..last]), common[last], gear, n);
      if n == 19 {
        FewerBits(Roll(gear, x + common), Roll(gear, y + common), 19);
      }
    }
  }

  lemma One()
    ensures Pow2(0) == 1
  {
  }

  lemma ModOne(x: int, y: int)
    ensures Same(x, y, 1)
  {
  }

  lemma RollLast(gear: Gear, x: Bytes, common: Bytes)
    requires common != []
    ensures Roll(gear, x + common) == Shifted(Roll(gear, x + common[..|common| - 1]), common[|common| - 1], gear)
  {
    assert (x + common)[..|x + common| - 1] == x + common[..|common| - 1];
  }

  /** Past the minimum and below the maximum, whether a block is cut depends on its last 19 bytes only. */
  lemma CutsByLastBytes(gear: Gear, x: Bytes, y: Bytes, common: Bytes)
    requires |common| >= 19
    requires MIN_CHUNK <= |x + common| < MAX_CHUNK && MIN_CHUNK <= |y + common| < MAX_CHUNK
    ensures Cuts(gear, x + common) <==> Cuts(gear, y + common)
  {
    RollSame(gear, x, y, common);
    CutIsPow2();
    hide Roll, Pow2;
  }

  /** Editing the front of a file: if one version is cut inside common bytes by the hash, 19 bytes or more into them, and
      the other has a long enough block there, the other is cut there too, and from there on the chunks are the same. */
  lemma Resynchronizes(gear: Gear, a: Bytes, b: Bytes, common: Bytes, suffix: Bytes)
    requires |common| >= 19
    requires var x := FedAll(gear, Split([], []), a); var y := FedAll(gear, Split([], []), b);
      && Cuts(gear, x.block + common) && Unfinished(gear, x.block + common[..|common| - 1])
      && Unfinished(gear, y.block + common[..|common| - 1])
      && MIN_CHUNK <= |x.block + common| < MAX_CHUNK && MIN_CHUNK <= |y.block + common| < MAX_CHUNK
    ensures CutPoint(gear, a + common) && CutPoint(gear, b + common)
    ensures exists tail ::
              && Chunks(gear, a + common + suffix) == Chunks(gear, a + common) + tail
              && Chunks(gear, b + common + suffix) == Chunks(gear, b + common) + tail
  {
    var x := FedAll(gear, Split([], []), a);
    var y := FedAll(gear, Split([], []), b);
    CutsByLastBytes(gear, x.block, y.block, common);
    hide Cuts, Unfinished, Chunks;
    CutInside(gear, a, common);
    CutInside(gear, b, common);
    SharedSuffix(gear, a + common, b + common, suffix);
  }

  lemma CutInside(gear: Gear, a: Bytes, common: Bytes)
    requires common != []
    requires var x := FedAll(gear, Split([], []), a);
      Cuts(gear, x.block + common) && Unfinished(gear, x.block + common[..|common| - 1])
    ensures CutPoint(gear, a + common)
  {
    var last := |common| - 1;
    var x := FedAll(gear, Split([], []), a);
    FedTwice(gear, Split([], []), a, common);
    FedOn(gear, x, common[..last]);
    assert x.block + common[..last] + [common[last]] == x.block + common;
    hide Cuts, Unfinished;
  }

  lemma {:induction false} FedOn(gear: Gear, s: Split, more: Bytes)
    requires Unfinished(gear, s.block + more)
    ensures FedAll(gear, s, more) == Split(s.done, s.block + more)
  {
    hide Cuts;
    if more == [] {
      assert s.block + more == s.block;
    } else {
      var last := |more| - 1;
      ShorterUnfinished(gear, s.block + more);
      assert (s.block + more)[..|s.block + more| - 1] == s.block + more[..last];
      FedOn(gear, s, more[..last]);
      assert s.block + more[..last] + [more[last]] == s.block + more;
      hide Unfinished;
    }
  }

  // ---------------------------------------------------------------- the rolling hash as an object

  lemma UnfinishedMore(gear: Gear, block: Bytes, b: Byte)
    requires Unfinished(gear, block) && !Cuts(gear, block + [b])
    ensures Unfinished(gear, block + [b])
  {
    hide Cuts;
    var more := block + [b];
    forall n | 0 < n <= |more|
      ensures !Cuts(gear, more[..n])
    {
      if n < |more| {
        assert more[..n] == block[..n];
      } else {
        assert more[..n] == more;
      }
    }
  }

  /** The hash and length of the block since the last cut; the block itself is only tracked. */
  class SyncChunker {
    var hash: Word
    var size: nat
    ghost var block: Bytes

    ghost predicate Tracks(gear: Gear)
      reads this
    {
      hash == Roll(gear, block) && size == |block| && Unfinished(gear, block)
    }

    constructor ()
      ensures block == [] && forall gear :: Tracks(gear)
    {
      hash, size, block := 0, 0, [];
    }

    /** Takes the next byte and says whether the block ends with it: at 2 MiB, or from 128 KiB on where the nineteen low bits
        of the rolling hash are zero. The hash doubles and adds the byte's word, and starts again after a cut. */
    method Boundary(b: Byte, gear: Gear) returns (cut: bool)
      requires Tracks(gear)
      modifies this
      ensures Tracks(gear)
      ensures cut <==> Cuts(gear, old(block) + [b])
      ensures block == if cut then [] else old(block) + [b]
      ensures var h: int := (2 * old(hash) + gear[b]) % 0x1_0000_0000_0000_0000;
        && (cut <==> old(size) + 1 >= 2 * 1024 * 1024 || (old(size) + 1 >= 128 * 1024 && h % 0x8_0000 == 0))
        && hash == (if cut then 0 else h) && size == (if cut then 0 else old(size) + 1)
    {
      hide Unfinished;
      ghost var more := block + [b];
      assert more[..|more| - 1] == block;
      ShiftedWord(hash, b, gear);
      hash := (hash * 2 % WORD + gear[b]) % WORD;
      size := size + 1;
      assert hash == Roll(gear, more);
      cut := size >= MAX_CHUNK || (size >= MIN_CHUNK && hash % CUT == 0);
      if cut {
        hash, size, block := 0, 0, [];
        EmptyUnfinished(gear);
      } else {
        UnfinishedMore(gear, block, b);
        block := more;
      }
    }
  }

  /** Unsigned overflow may be taken once at the end. */
  lemma ShiftedWord(hash: Word, b: Byte, gear: Gear)
    ensures Shifted(hash, b, gear) as int == (2 * hash + gear[b]) % 0x1_0000_0000_0000_0000
  {
    var w := 0x1_0000_0000_0000_0000;
    var x := 2 * hash;
    assert x == x % w || x == x % w + w;
    assert (x % w + gear[b] + w) % w == (x % w + gear[b]) % w;
  }

  lemma EmptyUnfinished(gear: Gear)
    ensures Unfinished(gear, [])
  {
  }
}
