/**
  The 32-bit MurmurHash3 used for flow table keys (contrib/hash/src/murmur3.c).

  `Hash` is the hash as a function of the key bytes and the seed; the method
  `MurmurHash3` is the loop of the source, proved to compute it.  The
  theorems rest on one observation: every step of the hash can be undone.
*/
module Murmur3 {

  function Rotl32(x: bv32, r: nat): bv32
    requires r < 32
  {
    (x << r) | (x >> (32 - r))
  }

  function Times(x: bv32, c: bv32): bv32 {
    x * c
  }

  function Xor(x: bv32, y: bv32): bv32 {
    x ^ y
  }

  function ShiftMix(h: bv32, r: nat): bv32
    requires r < 32
  {
    h ^ (h >> r)
  }

  function Affine(h: bv32): bv32 {
    h * 5 + 0xe6546b64
  }

  function Fmix32(h: bv32): bv32 {
    ShiftMix(Times(ShiftMix(Times(ShiftMix(h, 16), 0x85ebca6b), 13), 0xc2b2ae35), 16)
  }

  /** The scrambling every block and the tail go through before they meet the state. */
  function MixKey(k: bv32): bv32 {
    Times(Rotl32(Times(k, 0xcc9e2d51), 15), 0x1b873593)
  }

  /** One round of the body. */
  function MixBlock(h: bv32, k: bv32): bv32 {
    Affine(Rotl32(Xor(h, MixKey(k)), 13))
  }

  /** The little-endian word made of four key bytes. */
  function Word(b0: bv8, b1: bv8, b2: bv8, b3: bv8): bv32 {
    (b0 as bv32) | (b1 as bv32 << 8) | (b2 as bv32 << 16) | (b3 as bv32 << 24)
  }

  function Block(key: seq<bv8>, i: nat): bv32
    requires 4 * i + 4 <= |key|
  {
    Word(key[4 * i], key[4 * i + 1], key[4 * i + 2], key[4 * i + 3])
  }

  /** The state after the first `n` blocks. */
  function Body(key: seq<bv8>, n: nat, seed: bv32): bv32
    requires 4 * n <= |key|
  {
    if n == 0 then seed else MixBlock(Body(key, n - 1, seed), Block(key, n - 1))
  }

  /** The bytes after the last whole block, zero-extended to a word. */
  function TailWord(tail: seq<bv8>): bv32
    requires |tail| < 4
  {
    Word(if |tail| > 0 then tail[0] else 0, if |tail| > 1 then tail[1] else 0, if |tail| > 2 then tail[2] else 0, 0)
  }

  function MixTail(h: bv32, tail: seq<bv8>): bv32
    requires |tail| < 4
  {
    if |tail| == 0 then h else Xor(h, MixKey(TailWord(tail)))
  }

  function HexDigit(n: nat): bv8 {
    (n % 0x10) as bv4 as bv8
  }

  function TwoDigits(a: bv8, b: bv8): bv8 {
    (a << 4) | b
  }

  function LowByte(n: nat): bv8 {
    TwoDigits(HexDigit(n / 0x10), HexDigit(n))
  }

  /** The length as the `uint32_t` the finalisation mixes in. */
  function LengthWord(n: nat): bv32 {
    Word(LowByte(n), LowByte(n / 0x100), LowByte(n / 0x100 / 0x100), LowByte(n / 0x100 / 0x100 / 0x100))
  }

  function Tail(key: seq<bv8>): seq<bv8> {
    key[|key| / 4 * 4..]
  }

  function Hash(key: seq<bv8>, seed: bv32): bv32 {
    Fmix32(Xor(MixTail(Body(key, |key| / 4, seed), Tail(key)), LengthWord(|key|)))
  }

  /** The hash as the source computes it; the length is a C `int`. */
  method MurmurHash3(key: seq<bv8>, seed: bv32) returns (out: bv32)
    requires |key| < 0x8000_0000
    ensures out == Hash(key, seed)
  {
    hide Times, Rotl32, Xor, Affine, Fmix32, Word, TailWord, LengthWord;
    var nblocks := |key| / 4;
    var h1 := seed;
    var i := -nblocks;
    while i != 0
      invariant -nblocks <= i <= 0
      invariant h1 == Body(key, nblocks + i, seed)
    {
      var k1 := Block(key, nblocks + i);
      k1 := Times(k1, 0xcc9e2d51);
      k1 := Rotl32(k1, 15);
      k1 := Times(k1, 0x1b873593);
      h1 := Xor(h1, k1);
      h1 := Rotl32(h1, 13);
      h1 := Affine(h1);
      i := i + 1;
    }
    var tail := key[4 * nblocks..];
    var k1: bv32 := 0;
    if |tail| >= 3 { k1 := k1 ^ (tail[2] as bv32 << 16); }
    if |tail| >= 2 { k1 := k1 ^ (tail[1] as bv32 << 8); }
    if |tail| >= 1 {
      k1 := k1 ^ tail[0] as bv32;
      TailWordByFallThrough(tail, k1);
      k1 := Times(k1, 0xcc9e2d51);
      k1 := Rotl32(k1, 15);
      k1 := Times(k1, 0x1b873593);
      h1 := Xor(h1, k1);
    }
    h1 := Xor(h1, LengthWord(|key|));
    out := Fmix32(h1);
  }

  lemma TailWordByFallThrough(tail: seq<bv8>, k: bv32)
    requires 0 < |tail| < 4
    requires var k3: bv32 := if |tail| == 3 then 0 ^ (tail[2] as bv32 << 16) else 0;
             var k2 := if |tail| >= 2 then k3 ^ (tail[1] as bv32 << 8) else k3;
             k == k2 ^ tail[0] as bv32
    ensures k == TailWord(tail)
  {
  }

  // ---------- every step has an inverse ----------

  function UnShiftMix13(h: bv32): bv32 {
    ShiftMix(ShiftMix(h, 13), 26)
  }

  function UnFmix32(h: bv32): bv32 {
    ShiftMix(Times(UnShiftMix13(Times(ShiftMix(h, 16), 0x7ed1b41d)), 0xa5cb9243), 16)
  }

  function UnMixKey(k: bv32): bv32 {
    Times(Rotl32(Times(k, 0x56ed309b), 17), 0xdee13bb1)
  }

  function UnAffine(h: bv32): bv32 {
    (h - 0xe6546b64) * 0xcccccccd
  }

  function UnMixBlock(h: bv32, k: bv32): bv32 {
    Xor(Rotl32(UnAffine(h), 19), MixKey(k))
  }

  function UnBody(key: seq<bv8>, n: nat, h: bv32): bv32
    requires 4 * n <= |key|
  {
    if n == 0 then h else UnBody(key, n - 1, UnMixBlock(h, Block(key, n - 1)))
  }

  /** The seed that sends `key` to the hash `h`. */
  function SeedOf(key: seq<bv8>, h: bv32): bv32 {
    UnBody(key, |key| / 4, MixTail(Xor(UnFmix32(h), LengthWord(|key|)), Tail(key)))
  }

  // In the lemmas of this group each function is applied to the bit-vector term
  // its argument stands for, so that the two steps cancel by rewriting alone.

  lemma Times1Inverse(x: bv32)
    ensures Times(Times(x, 0xcc9e2d51), 0xdee13bb1) == x
    ensures Times(Times(x, 0xdee13bb1), 0xcc9e2d51) == x
  {
    assert Times(x * 0xcc9e2d51, 0xdee13bb1) == x && Times(x, 0xcc9e2d51) == x * 0xcc9e2d51;
    assert Times(x * 0xdee13bb1, 0xcc9e2d51) == x && Times(x, 0xdee13bb1) == x * 0xdee13bb1;
  }

  lemma Times2Inverse(x: bv32)
    ensures Times(Times(x, 0x1b873593), 0x56ed309b) == x
    ensures Times(Times(x, 0x56ed309b), 0x1b873593) == x
  {
    assert Times(x * 0x1b873593, 0x56ed309b) == x && Times(x, 0x1b873593) == x * 0x1b873593;
    assert Times(x * 0x56ed309b, 0x1b873593) == x && Times(x, 0x56ed309b) == x * 0x56ed309b;
  }

  lemma Times3Inverse(x: bv32)
    ensures Times(Times(x, 0x85ebca6b), 0xa5cb9243) == x
    ensures Times(Times(x, 0xa5cb9243), 0x85ebca6b) == x
  {
    assert Times(x * 0x85ebca6b, 0xa5cb9243) == x && Times(x, 0x85ebca6b) == x * 0x85ebca6b;
    assert Times(x * 0xa5cb9243, 0x85ebca6b) == x && Times(x, 0xa5cb9243) == x * 0xa5cb9243;
  }

  lemma Times4Inverse(x: bv32)
    ensures Times(Times(x, 0xc2b2ae35), 0x7ed1b41d) == x
    ensures Times(Times(x, 0x7ed1b41d), 0xc2b2ae35) == x
  {
    assert Times(x * 0xc2b2ae35, 0x7ed1b41d) == x && Times(x, 0xc2b2ae35) == x * 0xc2b2ae35;
    assert Times(x * 0x7ed1b41d, 0xc2b2ae35) == x && Times(x, 0x7ed1b41d) == x * 0x7ed1b41d;
  }

  lemma RotationInverse(x: bv32)
    ensures Rotl32(Rotl32(x, 15), 17) == x
    ensures Rotl32(Rotl32(x, 13), 19) == x
    ensures Rotl32(Rotl32(x, 19), 13) == x
  {
    assert Rotl32((x << 15) | (x >> 17), 17) == x && Rotl32(x, 15) == (x << 15) | (x >> 17);
    assert Rotl32((x << 13) | (x >> 19), 19) == x && Rotl32(x, 13) == (x << 13) | (x >> 19);
    assert Rotl32((x << 19) | (x >> 13), 13) == x && Rotl32(x, 19) == (x << 19) | (x >> 13);
  }

  lemma ShiftMixTwice(h: bv32)
    ensures ShiftMix(ShiftMix(h, 16), 16) == h
    ensures ShiftMix(ShiftMix(h, 26), 26) == h
    ensures ShiftMix(ShiftMix(h, 13), 13) == ShiftMix(h, 26)
  {
    assert ShiftMix(h ^ (h >> 16), 16) == h && ShiftMix(h, 16) == h ^ (h >> 16);
    assert ShiftMix(h ^ (h >> 26), 26) == h && ShiftMix(h, 26) == h ^ (h >> 26);
    assert ShiftMix(h ^ (h >> 13), 13) == h ^ (h >> 26) && ShiftMix(h, 13) == h ^ (h >> 13);
  }

  lemma ShiftMixesCommute(h: bv32)
    ensures ShiftMix(ShiftMix(h, 26), 13) == ShiftMix(ShiftMix(h, 13), 26)
  {
    assert ShiftMix(h ^ (h >> 26), 13) == h ^ (h >> 13) ^ (h >> 26) && ShiftMix(h, 26) == h ^ (h >> 26);
    assert ShiftMix(h ^ (h >> 13), 26) == h ^ (h >> 13) ^ (h >> 26) && ShiftMix(h, 13) == h ^ (h >> 13);
  }

  lemma ShiftMix13Inverse(h: bv32)
    ensures UnShiftMix13(ShiftMix(h, 13)) == h
    ensures ShiftMix(UnShiftMix13(h), 13) == h
  {
    hide ShiftMix;
    ShiftMixTwice(h);
    ShiftMixesCommute(ShiftMix(h, 13));
  }

  lemma AffineInverse(h: bv32)
    ensures UnAffine(Affine(h)) == h
    ensures Affine(UnAffine(h)) == h
  {
    assert UnAffine(h * 5 + 0xe6546b64) == h && Affine(h) == h * 5 + 0xe6546b64;
    assert Affine((h - 0xe6546b64) * 0xcccccccd) == h && UnAffine(h) == (h - 0xe6546b64) * 0xcccccccd;
  }

  lemma XorTwice(x: bv32, y: bv32)
    ensures Xor(Xor(x, y), y) == x
    ensures Xor(x, y) == Xor(y, x)
  {
    assert Xor(x ^ y, y) == x && Xor(x, y) == x ^ y;
  }

  lemma FmixInverse(h: bv32)
    ensures UnFmix32(Fmix32(h)) == h
    ensures Fmix32(UnFmix32(h)) == h
  {
    hide ShiftMix, Times, UnShiftMix13;
    var a := ShiftMix(h, 16);
    var b := Times(a, 0x85ebca6b);
    var c := ShiftMix(b, 13);
    var d := Times(c, 0xc2b2ae35);
    ShiftMixTwice(h);
    Times3Inverse(a);
    ShiftMix13Inverse(b);
    Times4Inverse(c);
    ShiftMixTwice(d);
    var e := Times(a, 0x7ed1b41d);
    var f := UnShiftMix13(e);
    var g := Times(f, 0xa5cb9243);
    Times4Inverse(a);
    ShiftMix13Inverse(e);
    Times3Inverse(f);
    ShiftMixTwice(g);
  }

  lemma MixKeyInverse(k: bv32)
    ensures UnMixKey(MixKey(k)) == k
  {
    hide Rotl32, Times;
    var a := Times(k, 0xcc9e2d51);
    Times1Inverse(k);
    RotationInverse(a);
    Times2Inverse(Rotl32(a, 15));
  }

  lemma MixBlockInverse(h: bv32, k: bv32)
    ensures UnMixBlock(MixBlock(h, k), k) == h
    ensures MixBlock(UnMixBlock(h, k), k) == h
  {
    hide Rotl32, Affine, UnAffine, Xor, MixKey;
    var m := MixKey(k);
    XorTwice(h, m);
    RotationInverse(Xor(h, m));
    AffineInverse(Rotl32(Xor(h, m), 13));
    XorTwice(Rotl32(UnAffine(h), 19), m);
    RotationInverse(UnAffine(h));
    AffineInverse(h);
  }

  /** A round tells blocks apart as well as states. */
  lemma MixBlockTellsBlocksApart(h: bv32, k: bv32, k': bv32)
    requires MixBlock(h, k) == MixBlock(h, k')
    ensures k == k'
  {
    hide Rotl32, Affine, UnAffine, Xor, MixKey, UnMixKey;
    AffineInverse(Rotl32(Xor(h, MixKey(k)), 13));
    AffineInverse(Rotl32(Xor(h, MixKey(k')), 13));
    RotationInverse(Xor(h, MixKey(k)));
    RotationInverse(Xor(h, MixKey(k')));
    XorTellsApart(h, MixKey(k), MixKey(k'));
    MixKeyInverse(k);
    MixKeyInverse(k');
  }

  lemma XorTellsApart(h: bv32, m: bv32, m': bv32)
    requires Xor(h, m) == Xor(h, m')
    ensures m == m'
  {
    hide Xor;
    XorTwice(m, h);
    XorTwice(m', h);
    XorTwice(h, m);
    XorTwice(h, m');
  }

  lemma WordIsInjective(a0: bv8, a1: bv8, a2: bv8, a3: bv8, b0: bv8, b1: bv8, b2: bv8, b3: bv8)
    requires Word(a0, a1, a2, a3) == Word(b0, b1, b2, b3)
    ensures a0 == b0 && a1 == b1 && a2 == b2 && a3 == b3
  {
  }

  lemma {:induction false} BodyInverse(key: seq<bv8>, n: nat, h: bv32)
    requires 4 * n <= |key|
    ensures UnBody(key, n, Body(key, n, h)) == h
    ensures Body(key, n, UnBody(key, n, h)) == h
  {
    hide MixBlock, UnMixBlock, Block;
    if n > 0 {
      var k := Block(key, n - 1);
      MixBlockInverse(Body(key, n - 1, h), k);
      BodyInverse(key, n - 1, h);
      MixBlockInverse(h, k);
      BodyInverse(key, n - 1, UnMixBlock(h, k));
    }
  }

  lemma MixTailTwice(h: bv32, tail: seq<bv8>)
    requires |tail| < 4
    ensures MixTail(MixTail(h, tail), tail) == h
  {
    hide Xor, MixKey, TailWord;
    if |tail| > 0 {
      XorTwice(h, MixKey(TailWord(tail)));
    }
  }

  /** For a fixed key the map from seeds to hashes is a bijection on 32-bit words. */
  lemma SeedsAndHashesCorrespond(key: seq<bv8>, seed: bv32, h: bv32)
    ensures Hash(key, seed) == h <==> seed == SeedOf(key, h)
  {
    hide Fmix32, UnFmix32, Xor, MixTail, LengthWord, Body, UnBody;
    var n, tail, length := |key| / 4, Tail(key), LengthWord(|key|);
    var body := Body(key, n, seed);
    FmixInverse(Xor(MixTail(body, tail), length));
    XorTwice(MixTail(body, tail), length);
    MixTailTwice(body, tail);
    BodyInverse(key, n, seed);
    var g := Xor(UnFmix32(h), length);
    BodyInverse(key, n, MixTail(g, tail));
    MixTailTwice(g, tail);
    XorTwice(UnFmix32(h), length);
    FmixInverse(h);
  }

  // ---------- keys that never collide ----------

  /** Equal-length keys that differ, and only between `lo` and `hi`. */
  ghost predicate DifferOnlyWithin(a: seq<bv8>, b: seq<bv8>, lo: nat, hi: nat) {
    && |a| == |b| && lo <= hi <= |a| && a != b
    && (forall j :: 0 <= j < |a| && !(lo <= j < hi) ==> a[j] == b[j])
  }

  lemma {:induction false} BodyReadsItsPrefix(a: seq<bv8>, b: seq<bv8>, n: nat, seed: bv32)
    requires 4 * n <= |a| && 4 * n <= |b|
    requires forall j :: 0 <= j < 4 * n ==> a[j] == b[j]
    ensures Body(a, n, seed) == Body(b, n, seed)
  {
    hide MixBlock, Word;
    if n > 0 {
      BodyReadsItsPrefix(a, b, n - 1, seed);
    }
  }

  lemma {:induction false} BodiesStayApart(a: seq<bv8>, b: seq<bv8>, m: nat, n: nat, seed: bv32)
    requires m <= n && 4 * n <= |a| == |b|
    requires Body(a, m, seed) != Body(b, m, seed)
    requires forall j :: 4 * m <= j < 4 * n ==> a[j] == b[j]
    ensures Body(a, n, seed) != Body(b, n, seed)
  {
    hide MixBlock, UnMixBlock, Word;
    if m < n {
      BodiesStayApart(a, b, m, n - 1, seed);
      MixBlockInverse(Body(a, n - 1, seed), Block(a, n - 1));
      MixBlockInverse(Body(b, n - 1, seed), Block(b, n - 1));
    }
  }

  /** The finalisation loses nothing: equal hashes come from equal states before it. */
  lemma HashTellsApart(a: seq<bv8>, b: seq<bv8>, seed: bv32)
    requires |a| == |b| && Hash(a, seed) == Hash(b, seed)
    ensures MixTail(Body(a, |a| / 4, seed), Tail(a)) == MixTail(Body(b, |b| / 4, seed), Tail(b))
  {
    hide Fmix32, UnFmix32, Xor, MixTail, LengthWord, Body;
    var g, h := MixTail(Body(a, |a| / 4, seed), Tail(a)), MixTail(Body(b, |b| / 4, seed), Tail(b));
    var length := LengthWord(|a|);
    FmixInverse(Xor(g, length));
    FmixInverse(Xor(h, length));
    XorTwice(g, length);
    XorTwice(h, length);
  }

  lemma MixTailTellsTailsApart(h: bv32, s: seq<bv8>, t: seq<bv8>)
    requires |s| == |t| < 4 && MixTail(h, s) == MixTail(h, t)
    ensures s == t
  {
    hide Xor, MixKey, UnMixKey, Word;
    if |s| > 0 {
      XorTellsApart(h, MixKey(TailWord(s)), MixKey(TailWord(t)));
      MixKeyInverse(TailWord(s));
      MixKeyInverse(TailWord(t));
      WordIsInjective(if |s| > 0 then s[0] else 0, if |s| > 1 then s[1] else 0, if |s| > 2 then s[2] else 0, 0,
                      if |t| > 0 then t[0] else 0, if |t| > 1 then t[1] else 0, if |t| > 2 then t[2] else 0, 0);
    }
  }

  /** Keys that differ in exactly one aligned block never have the same hash, whatever the seed. */
  lemma OneBlockApartNeverCollide(a: seq<bv8>, b: seq<bv8>, i: nat, seed: bv32)
    requires DifferOnlyWithin(a, b, 4 * i, 4 * i + 4)
    ensures Hash(a, seed) != Hash(b, seed)
  {
    hide Hash, MixTail, MixBlock, Word, Body;
    var n := |a| / 4;
    BodyReadsItsPrefix(a, b, i, seed);
    if Block(a, i) == Block(b, i) {
      WordIsInjective(a[4 * i], a[4 * i + 1], a[4 * i + 2], a[4 * i + 3], b[4 * i], b[4 * i + 1], b[4 * i + 2], b[4 * i + 3]);
    }
    assert Block(a, i) != Block(b, i);
    BodyStep(a, i, seed);
    BodyStep(b, i, seed);
    if Body(a, i + 1, seed) == Body(b, i + 1, seed) {
      MixBlockTellsBlocksApart(Body(a, i, seed), Block(a, i), Block(b, i));
    }
    BodiesStayApart(a, b, i + 1, n, seed);
    assert Tail(a) == Tail(b);
    if Hash(a, seed) == Hash(b, seed) {
      HashTellsApart(a, b, seed);
      MixTailTwice(Body(a, n, seed), Tail(a));
      MixTailTwice(Body(b, n, seed), Tail(b));
    }
  }

  lemma BodyStep(key: seq<bv8>, n: nat, seed: bv32)
    requires 4 * n + 4 <= |key|
    ensures Body(key, n + 1, seed) == MixBlock(Body(key, n, seed), Block(key, n))
  {
    hide MixBlock, Block;
  }

  /** Keys that differ only in the bytes after the last whole block never have the same hash. */
  lemma OnlyTailsApartNeverCollide(a: seq<bv8>, b: seq<bv8>, seed: bv32)
    requires DifferOnlyWithin(a, b, |a| / 4 * 4, |a|)
    ensures Hash(a, seed) != Hash(b, seed)
  {
    hide Hash, MixTail, Body;
    var n := |a| / 4;
    BodyReadsItsPrefix(a, b, n, seed);
    assert a == a[..4 * n] + Tail(a) && b == b[..4 * n] + Tail(b) && a[..4 * n] == b[..4 * n];
    if Hash(a, seed) == Hash(b, seed) {
      HashTellsApart(a, b, seed);
      MixTailTellsTailsApart(Body(a, n, seed), Tail(a), Tail(b));
    }
  }

  // ---------- what the length does ----------

  lemma DigitIsANumber(x: nat)
    requires x < 0x10
    ensures (x as bv4) as nat == x
  {
  }

  lemma HexDigitIsInjective(m: nat, n: nat)
    requires HexDigit(m) == HexDigit(n)
    ensures m % 0x10 == n % 0x10
  {
    WidenedIsInjective((m % 0x10) as bv4, (n % 0x10) as bv4);
    DigitIsANumber(m % 0x10);
    DigitIsANumber(n % 0x10);
  }

  lemma WidenedIsInjective(a: bv4, b: bv4)
    requires a as bv8 == b as bv8
    ensures a == b
  {
  }

  lemma HexDigitIsSmall(n: nat)
    ensures HexDigit(n) & 0xf0 == 0
  {
    WidenedIsSmall((n % 0x10) as bv4);
  }

  lemma WidenedIsSmall(a: bv4)
    ensures a as bv8 & 0xf0 == 0
  {
  }

  lemma TwoDigitsAreInjective(a: bv8, b: bv8, c: bv8, d: bv8)
    requires a & 0xf0 == 0 && b & 0xf0 == 0 && c & 0xf0 == 0 && d & 0xf0 == 0
    requires TwoDigits(a, b) == TwoDigits(c, d)
    ensures a == c && b == d
  {
  }

  lemma LowByteIsInjective(m: nat, n: nat)
    requires LowByte(m) == LowByte(n)
    ensures m % 0x100 == n % 0x100
  {
    hide HexDigit, TwoDigits;
    HexDigitIsSmall(m);
    HexDigitIsSmall(n);
    HexDigitIsSmall(m / 0x10);
    HexDigitIsSmall(n / 0x10);
    TwoDigitsAreInjective(HexDigit(m / 0x10), HexDigit(m), HexDigit(n / 0x10), HexDigit(n));
    HexDigitIsInjective(m / 0x10, n / 0x10);
    HexDigitIsInjective(m, n);
    LowestDigit(m, 0x10, 0x10);
    LowestDigit(n, 0x10, 0x10);
  }

  lemma RemainderIsUnique(n: nat, d: nat, k: nat, r: nat)
    requires r < d && n == d * k + r
    ensures n % d == r
  {
    var q := n / d - k;
    assert n == d * (n / d) + n % d;
    assert d * q == r - n % d;
    if q != 0 {
      MultipleIsLarge(d, q);
      assert false;
    }
  }

  lemma MultipleIsLarge(d: int, q: int)
    requires d >= 0
    ensures q >= 1 ==> d * q >= d
    ensures q <= -1 ==> d * q <= -d
  {
  }

  /** A remainder, from the lowest digit to some base and the rest. */
  lemma LowestDigit(n: nat, base: nat, d: nat)
    requires base > 0 && d > 0
    ensures n % (base * d) == n % base + base * (n / base % d)
  {
    Divides(n, base);
    Divides(n / base, d);
    FromDigits(n, base, d, n / base / d, n / base % d, n % base);
  }

  lemma Divides(n: nat, d: nat)
    requires d > 0
    ensures n == d * (n / d) + n % d && n % d < d
  {
  }

  lemma FromDigits(n: nat, base: nat, d: nat, k: nat, l: nat, r: nat)
    requires l < d && r < base && n == base * (d * k + l) + r
    ensures n % (base * d) == r + base * l
  {
    DigitFits(base, d, l, r);
    Distribute(base, d, k, l, r);
    RemainderIsUnique(n, base * d, k, base * l + r);
  }

  lemma DigitFits(base: nat, d: nat, l: nat, r: nat)
    requires l < d && r < base
    ensures base * l + r < base * d
  {
    assert base * l + base == base * (l + 1);
    assert base * (l + 1) <= base * d;
  }

  lemma Distribute(base: nat, d: nat, k: nat, l: nat, r: nat)
    ensures base * (d * k + l) + r == base * d * k + (base * l + r)
  {
  }

  lemma LengthWordsTellApart(m: nat, n: nat)
    requires m % 0x1_0000_0000 != n % 0x1_0000_0000
    ensures LengthWord(m) != LengthWord(n)
  {
    hide Word, LowByte;
    if LengthWord(m) == LengthWord(n) {
      var m1, n1 := m / 0x100, n / 0x100;
      var m2, n2 := m1 / 0x100, n1 / 0x100;
      var m3, n3 := m2 / 0x100, n2 / 0x100;
      WordIsInjective(LowByte(m), LowByte(m1), LowByte(m2), LowByte(m3), LowByte(n), LowByte(n1), LowByte(n2), LowByte(n3));
      LowByteIsInjective(m, n);
      LowByteIsInjective(m1, n1);
      LowByteIsInjective(m2, n2);
      LowByteIsInjective(m3, n3);
      LowestDigit(m, 0x100, 0x100_0000);
      LowestDigit(n, 0x100, 0x100_0000);
      LowestDigit(m1, 0x100, 0x1_0000);
      LowestDigit(n1, 0x100, 0x1_0000);
      LowestDigit(m2, 0x100, 0x100);
      LowestDigit(n2, 0x100, 0x100);
    }
  }

  /** Keys that leave the same state but are of different lengths, modulo 2^32, never have the same hash. */
  lemma LengthsNeverCollide(a: seq<bv8>, b: seq<bv8>, seed: bv32)
    requires MixTail(Body(a, |a| / 4, seed), Tail(a)) == MixTail(Body(b, |b| / 4, seed), Tail(b))
    requires |a| % 0x1_0000_0000 != |b| % 0x1_0000_0000
    ensures Hash(a, seed) != Hash(b, seed)
  {
    hide Fmix32, UnFmix32, Xor, MixTail, LengthWord, Body;
    var h := MixTail(Body(a, |a| / 4, seed), Tail(a));
    LengthWordsTellApart(|a|, |b|);
    FmixInverse(Xor(h, LengthWord(|a|)));
    FmixInverse(Xor(h, LengthWord(|b|)));
    if Hash(a, seed) == Hash(b, seed) {
      XorTellsApart(h, LengthWord(|a|), LengthWord(|b|));
    }
  }

  function Zeros(n: nat): (z: seq<bv8>)
    ensures |z| == n
  {
    seq(n, _ => 0)
  }

  lemma ZeroIsMixedToZero()
    ensures MixKey(0) == 0
  {
    assert Times(0, 0xcc9e2d51) == 0 && Rotl32(0, 15) == 0 && Times(0, 0x1b873593) == 0;
  }

  lemma XorWithZero(h: bv32)
    ensures Xor(h, 0) == h
  {
  }

  lemma ZeroTail(tail: seq<bv8>)
    requires |tail| < 4 && forall j :: 0 <= j < |tail| ==> tail[j] == 0
    ensures TailWord(tail) == 0
  {
    assert Word(0, 0, 0, 0) == 0;
  }

  /** Zero bytes after a tail add nothing to the state. */
  lemma ZerosLeaveTheState(h: bv32, tail: seq<bv8>, n: nat)
    requires |tail| + n < 4
    ensures MixTail(h, tail + Zeros(n)) == MixTail(h, tail)
  {
    hide Xor, MixKey, Word;
    var longer := tail + Zeros(n);
    if |tail| == 0 {
      ZeroTail(longer);
      ZeroIsMixedToZero();
      XorWithZero(h);
    } else {
      assert TailWord(longer) == TailWord(tail);
    }
  }

  /** Zero bytes that fit into the tail change the hash nevertheless. */
  lemma ZerosInTheTailNeverCollide(key: seq<bv8>, n: nat, seed: bv32)
    requires 0 < n && |key| % 4 + n < 4
    ensures Hash(key + Zeros(n), seed) != Hash(key, seed)
  {
    hide Hash, MixTail, Body;
    var longer, k := key + Zeros(n), |key| / 4;
    assert |longer| / 4 == k;
    assert Tail(longer) == Tail(key) + Zeros(n);
    BodyReadsItsPrefix(key, longer, k, seed);
    ZerosLeaveTheState(Body(key, k, seed), Tail(key), n);
    LengthsNeverCollide(longer, key, seed);
  }
}
