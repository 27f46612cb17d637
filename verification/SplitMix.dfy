/** SplitMix64, the seeded source of `set_shaper`, and the folding of a seed
    into its first state (src/shaping.rs). */
module SplitMix {
  import opened Words
  import opened Octets

  const GAMMA: Word := 0x9e37_79b9_7f4a_7c15

  // ---- the output step -----------------------------------------------------

  /** The output of a draw, from the state after its increment. */
  function Mix(z: Word): Word {
    XorShift(WrapMul(XorShift(WrapMul(XorShift(z, 30), 0xbf58_476d_1ce4_e5b9), 27),
                     0x94d0_49bb_1331_11eb), 31)
  }

  /** The state a draw came from: the xor-shifts undone, and the multipliers'
      inverses modulo 2^64, last step first. */
  function Unmix(y: Word): Word {
    UnXorShift(WrapMul(UnXorShift(WrapMul(UnXorShift(y, 31), 0x3196_42b2_d24d_8ec3), 27),
                       0x96de_1b17_3f11_9089), 30)
  }

  /** The output step is a bijection on 64-bit words. */
  lemma MixIsBijective(z: Word)
    ensures Unmix(Mix(z)) == z
    ensures Mix(Unmix(z)) == z
  {
    hide XorShift, UnXorShift, WrapMul;
    var p := XorShift(z, 30);
    var q := WrapMul(p, 0xbf58_476d_1ce4_e5b9);
    var r := XorShift(q, 27);
    var t := WrapMul(r, 0x94d0_49bb_1331_11eb);
    XorShiftUndone(t, 31);
    WrapMulUndone(r, 0x94d0_49bb_1331_11eb, 0x3196_42b2_d24d_8ec3);
    XorShiftUndone(q, 27);
    WrapMulUndone(p, 0xbf58_476d_1ce4_e5b9, 0x96de_1b17_3f11_9089);
    XorShiftUndone(z, 30);

    var a := UnXorShift(z, 31);
    var b := WrapMul(a, 0x3196_42b2_d24d_8ec3);
    var c := UnXorShift(b, 27);
    var d := WrapMul(c, 0x96de_1b17_3f11_9089);
    XorShiftUndone(d, 30);
    WrapMulUndone(c, 0x96de_1b17_3f11_9089, 0xbf58_476d_1ce4_e5b9);
    XorShiftUndone(b, 27);
    WrapMulUndone(a, 0x3196_42b2_d24d_8ec3, 0x94d0_49bb_1331_11eb);
    XorShiftUndone(z, 31);
  }

  lemma {:induction false} MixInjective(a: Word, b: Word)
    ensures Mix(a) == Mix(b) <==> a == b
  {
    hide Mix, Unmix;
    MixIsBijective(a);
    MixIsBijective(b);
  }

  // ---- the generator -------------------------------------------------------

  /** The state after `n` draws from `s`. */
  ghost function StateAt(s: Word, n: nat): Word {
    if n == 0 then s else WrapAdd(StateAt(s, n - 1), GAMMA)
  }

  /** Draw number `n`, from 0, of a generator made with state `s`. */
  ghost function Draw(s: Word, n: nat): Word { Mix(StateAt(s, n + 1)) }

  class Generator {
    var state: Word

    constructor (s: Word)
      ensures state == s
    {
      state := s;
    }

    /** One draw: from the state after `n` draws, it returns draw `n` and
        leaves the state after one more. */
    method NextU64(ghost s: Word, ghost n: nat) returns (z: Word)
      requires state == StateAt(s, n)
      modifies this
      ensures z == Draw(s, n)
      ensures state == StateAt(s, n + 1) == (old(state) + 0x9e37_79b9_7f4a_7c15) % 0x1_0000_0000_0000_0000
    {
      state := WrapAdd(state, GAMMA);
      z := state;
      z := WrapMul(XorWord(z, ShrWord(z, 30)), 0xbf58_476d_1ce4_e5b9);
      z := WrapMul(XorWord(z, ShrWord(z, 27)), 0x94d0_49bb_1331_11eb);
      z := XorWord(z, ShrWord(z, 31));
    }
  }

  /** A draw in plain arithmetic: the state is a sum, the shifts are quotients by
      2^30, 2^27 and 2^31, and the products are modulo 2^64. */
  lemma {:induction false} DrawIs(s: Word, n: nat)
    ensures var z := (s + (n + 1) * 0x9e37_79b9_7f4a_7c15) % 0x1_0000_0000_0000_0000;
            var y := Xor(z, z / 0x4000_0000) * 0xbf58_476d_1ce4_e5b9 % 0x1_0000_0000_0000_0000;
            var x := Xor(y, y / 0x800_0000) * 0x94d0_49bb_1331_11eb % 0x1_0000_0000_0000_0000;
            Draw(s, n) == Xor(x, x / 0x8000_0000)
  {
    StateIsLinear(s, n + 1);
    hide StateAt, Xor;
    var z := (s + (n + 1) * GAMMA) % MODULUS;
    Shifts(z);
    var y := Xor(z, z / 0x4000_0000) * 0xbf58_476d_1ce4_e5b9 % MODULUS;
    Shifts(y);
    var x := Xor(y, y / 0x800_0000) * 0x94d0_49bb_1331_11eb % MODULUS;
    Shifts(x);
  }

  lemma {:induction false} Shifts(z: Word)
    ensures ShrWord(z, 30) == z / 0x4000_0000
    ensures ShrWord(z, 27) == z / 0x800_0000
    ensures ShrWord(z, 31) == z / 0x8000_0000
  {
    Powers();
    hide Pow2, Shr;
    ShrIs(z, 30);
    ShrIs(z, 27);
    ShrIs(z, 31);
  }

  lemma Powers()
    ensures Pow2(27) == 0x800_0000 && Pow2(30) == 0x4000_0000 && Pow2(31) == 0x8000_0000
  {
    assert Pow2(8) == 256 && Pow2(12) == 0x1000 && Pow2(16) == 0x1_0000 && Pow2(20) == 0x10_0000;
    assert Pow2(24) == 0x100_0000;
  }

  /** The state is the start plus `n` increments, modulo 2^64. */
  lemma {:induction false} StateIsLinear(s: Word, n: nat)
    ensures StateAt(s, n) == (s + n * GAMMA) % MODULUS
  {
    if n > 0 {
      StateIsLinear(s, n - 1);
      assert n * GAMMA == (n - 1) * GAMMA + GAMMA;
      ModAdd(s + (n - 1) * GAMMA, GAMMA);
    }
  }

  /** The increment is odd, so it has an inverse: only the multiples of 2^64
      draws leave the state where it was. */
  lemma {:induction false} OnlyWholePeriods(d: int)
    ensures d * GAMMA % MODULUS == 0 <==> d % MODULUS == 0
  {
    if d * GAMMA % MODULUS == 0 {
      UnitInverse(d);
      ModFactor(d * GAMMA, 0xf1de_83e1_9937_733d);
    }
    ModFactor(d, GAMMA);
  }

  lemma {:induction false} UnitInverse(d: int)
    ensures d * GAMMA * 0xf1de_83e1_9937_733d % MODULUS == d % MODULUS
  {
    Regroups(d, GAMMA, 0xf1de_83e1_9937_733d);
    ModFactor(GAMMA * 0xf1de_83e1_9937_733d, d);
    assert GAMMA * 0xf1de_83e1_9937_733d % MODULUS == 1;
  }

  lemma {:induction false} EqualStates(s: Word, i: nat, j: nat)
    ensures StateAt(s, i) == StateAt(s, j) <==> i % MODULUS == j % MODULUS
  {
    StateIsLinear(s, i);
    StateIsLinear(s, j);
    hide StateAt;
    ModDifference(s + i * GAMMA, s + j * GAMMA);
    assert (s + j * GAMMA) - (s + i * GAMMA) == (j - i) * GAMMA;
    OnlyWholePeriods(j - i);
    ModDifference(i, j);
  }

  /** Full period: two draws are equal exactly when their numbers agree modulo
      2^64, so the first 2^64 draws are pairwise distinct and then repeat. */
  lemma {:induction false} FullPeriod(s: Word, i: nat, j: nat)
    ensures Draw(s, i) == Draw(s, j) <==> i % MODULUS == j % MODULUS
  {
    hide StateAt, Mix;
    ModDifference(i, j);
    ModDifference(i + 1, j + 1);
    EqualStates(s, i + 1, j + 1);
    MixInjective(StateAt(s, i + 1), StateAt(s, j + 1));
  }

  /** The number of the draw, below 2^64, that is `v`. */
  function DrawNumber(s: Word, v: Word): Word {
    (Unmix(v) - s - GAMMA) * 0xf1de_83e1_9937_733d % MODULUS
  }

  /** Every word is drawn, once in each period, and it is known when. */
  lemma {:induction false} EveryWordIsDrawn(s: Word, v: Word)
    ensures Draw(s, DrawNumber(s, v)) == v
  {
    hide StateAt, Mix, Unmix, DrawNumber;
    DrawnState(s, Unmix(v), DrawNumber(s, v)) by { DrawNumberSolves(s, v); }
    MixIsBijective(v);
  }

  lemma {:induction false} DrawNumberSolves(s: Word, v: Word)
    ensures DrawNumber(s, v) * GAMMA % MODULUS == (Unmix(v) - s - GAMMA) % MODULUS
  {
    hide Unmix;
    Solution(Unmix(v) - s - GAMMA);
  }

  lemma {:induction false} DrawnState(s: Word, t: Word, n: nat)
    requires n * GAMMA % MODULUS == (t - s - GAMMA) % MODULUS
    ensures StateAt(s, n + 1) == t
  {
    hide StateAt;
    StateIsLinear(s, n + 1);
    SameState(s, n, t - s - GAMMA);
  }

  lemma {:induction false} Solution(d: int)
    ensures (d * 0xf1de_83e1_9937_733d % MODULUS) * GAMMA % MODULUS == d % MODULUS
  {
    ModFactor(d * 0xf1de_83e1_9937_733d, GAMMA);
    Regroups(d, 0xf1de_83e1_9937_733d, GAMMA);
    Regroups(d, GAMMA, 0xf1de_83e1_9937_733d);
    UnitInverse(d);
  }

  lemma {:induction false} SameState(s: int, n: int, d: int)
    requires n * GAMMA % MODULUS == d % MODULUS
    ensures (s + (n + 1) * GAMMA) % MODULUS == (s + d + GAMMA) % MODULUS
  {
    assert (n + 1) * GAMMA == n * GAMMA + GAMMA;
    ModAdd(n * GAMMA, s + GAMMA);
    ModAdd(d, s + GAMMA);
  }

  // ---- seed folding --------------------------------------------------------

  /** The number whose bytes are `c`, the lowest first. */
  function LittleEndian(c: seq<Byte>): nat
  {
    if c == [] then 0 else c[0] + 256 * LittleEndian(c[1..])
  }

  lemma {:induction false} LittleEndianFits(c: seq<Byte>, k: nat)
    requires |c| <= k
    ensures LittleEndian(c) < Pow2(8 * k)
    decreases k
  {
    if c != [] {
      LittleEndianFits(c[1..], k - 1);
      assert Pow2(8 * k) == 256 * Pow2(8 * (k - 1)) by {
        var e := 8 * (k - 1);
        assert Pow2(e + 2) == 4 * Pow2(e) && Pow2(e + 4) == 4 * Pow2(e + 2);
        assert Pow2(e + 6) == 4 * Pow2(e + 4) && Pow2(e + 8) == 4 * Pow2(e + 6);
      }
    } else {
      PowPositive(8 * k);
    }
  }

  /** Byte `i` is the one of weight 256 to the `i`. */
  lemma {:induction false} LittleEndianByte(c: seq<Byte>, i: nat)
    requires i < |c|
    ensures Shr(LittleEndian(c), 8 * i) % 256 == c[i]
    decreases i
  {
    if i > 0 {
      LittleEndianByte(c[1..], i - 1);
      ByteDown(LittleEndian(c));
      ShrShr(LittleEndian(c), 8, 8 * (i - 1));
    }
  }

  lemma {:induction false} ByteDown(a: nat)
    ensures Shr(a, 8) == a / 256
  {
    assert Shr(a, 2) == a / 4 && Shr(a / 4, 2) == a / 16;
    assert Shr(a / 16, 2) == a / 64 && Shr(a / 64, 2) == a / 256;
    ShrShr(a, 2, 2);
    ShrShr(a, 4, 2);
    ShrShr(a, 6, 2);
  }

  lemma {:induction false} LittleEndianInjective(c: seq<Byte>, d: seq<Byte>)
    requires |c| == |d| && LittleEndian(c) == LittleEndian(d)
    ensures c == d
  {
    if c != [] {
      LittleEndianInjective(c[1..], d[1..]);
      assert c == [c[0]] + c[1..] && d == [d[0]] + d[1..];
    }
  }

  /** `k` bytes of `v`, the lowest first. */
  function BytesOf(v: nat, k: nat): seq<Byte> {
    if k == 0 then [] else [v % 256] + BytesOf(v / 256, k - 1)
  }

  lemma {:induction false} BytesRead(v: nat, k: nat)
    requires v < Pow2(8 * k)
    ensures |BytesOf(v, k)| == k
    ensures LittleEndian(BytesOf(v, k)) == v
    decreases k
  {
    if k > 0 {
      var e := 8 * (k - 1);
      assert Pow2(e + 2) == 4 * Pow2(e) && Pow2(e + 4) == 4 * Pow2(e + 2);
      assert Pow2(e + 6) == 4 * Pow2(e + 4) && Pow2(e + 8) == 4 * Pow2(e + 6);
      BytesRead(v / 256, k - 1);
      assert BytesOf(v, k)[1..] == BytesOf(v / 256, k - 1);
    }
  }

  /** A chunk in an array of eight bytes that was all zeros. */
  function Padded(c: seq<Byte>): (b: seq<Byte>)
    requires |c| <= 8
    ensures |b| == 8
  {
    c + [0, 0, 0, 0, 0, 0, 0, 0][|c|..]
  }

  /** `from_le_bytes` of that array. */
  function Chunk(c: seq<Byte>): Word
    requires |c| <= 8
  {
    LittleEndianFits(Padded(c), 8); Width();
    LittleEndian(Padded(c))
  }

  /** The zeros behind a short chunk add nothing. */
  lemma {:induction false} ChunkIs(c: seq<Byte>)
    requires |c| <= 8
    ensures Chunk(c) == LittleEndian(c)
  {
    ZerosAddNothing(c, [0, 0, 0, 0, 0, 0, 0, 0][|c|..]);
  }

  lemma {:induction false} ZerosAddNothing(c: seq<Byte>, zeros: seq<Byte>)
    requires forall i :: 0 <= i < |zeros| ==> zeros[i] == 0
    ensures LittleEndian(c + zeros) == LittleEndian(c)
    decreases |c| + |zeros|
  {
    if c != [] {
      ZerosAddNothing(c[1..], zeros);
      assert (c + zeros)[1..] == c[1..] + zeros;
    } else if zeros != [] {
      ZerosAddNothing([], zeros[1..]);
      assert c + zeros == zeros && [] + zeros[1..] == zeros[1..];
    }
  }

  lemma {:induction false} ChunkInjective(c: seq<Byte>, d: seq<Byte>)
    requires |c| == |d| <= 8
    ensures Chunk(c) == Chunk(d) <==> c == d
  {
    if Chunk(c) == Chunk(d) {
      LittleEndianInjective(Padded(c), Padded(d));
      assert c == Padded(c)[..|c|] && d == Padded(d)[..|d|];
    }
  }

  /** The generator's state and the folded value, between two chunks. */
  datatype Folding = Folding(m: Word, s: Word)

  function FoldChunk(f: Folding, c: seq<Byte>): Folding
    requires |c| <= 8
  {
    var m := WrapAdd(XorWord(f.m, Chunk(c)), GAMMA);
    Folding(m, XorWord(f.s, Mix(m)))
  }

  function FoldFrom(f: Folding, seed: seq<Byte>): Folding
    decreases |seed|
  {
    if |seed| == 0 then f
    else if |seed| <= 8 then FoldChunk(f, seed)
    else FoldFrom(FoldChunk(f, seed[..8]), seed[8..])
  }

  function FoldStart(len: nat): Folding {
    var m := WrapAdd(len % MODULUS, GAMMA);
    Folding(m, Mix(m))
  }

  function FoldSeed(seed: seq<Byte>): Word { FoldFrom(FoldStart(|seed|), seed).s }

  /** `fold`: the loop over the seed's chunks. */
  method Fold(seed: seq<Byte>) returns (s: Word)
    ensures s == FoldSeed(seed)
  {
    hide Mix, XorWord, Chunk, WrapAdd;
    var m := new Generator(|seed| % MODULUS);
    s := m.NextU64(|seed| % MODULUS, 0);
    var i := 0;
    while i < |seed|
      invariant 0 <= i <= |seed|
      invariant fresh(m)
      invariant FoldFrom(Folding(m.state, s), seed[i..]) == FoldFrom(FoldStart(|seed|), seed)
    {
      var n := if |seed| - i < 8 then |seed| - i else 8;
      var c := seed[i..i + n];
      ghost var rest := seed[i..];
      assert rest[..n] == c && rest[n..] == seed[i + n..];
      ghost var before := Folding(m.state, s);
      m.state := XorWord(m.state, Chunk(c));
      ghost var x := m.state;
      var d := m.NextU64(x, 0);
      assert StateAt(x, 1) == WrapAdd(StateAt(x, 0), GAMMA);
      s := XorWord(s, d);
      assert Folding(m.state, s) == FoldChunk(before, c);
      if |rest| <= 8 { assert rest == c && seed[i + n..] == []; }
      i := i + n;
    }
  }

  lemma {:induction false} FoldAppends(f: Folding, p: seq<Byte>, x: seq<Byte>)
    requires |p| % 8 == 0
    ensures FoldFrom(f, p + x) == FoldFrom(FoldFrom(f, p), x)
    decreases |p|
  {
    hide FoldChunk;
    if p == [] {
      assert p + x == x;
    } else if x == [] {
      assert p + x == p;
    } else {
      assert (p + x)[..8] == p[..8] && (p + x)[8..] == p[8..] + x;
      FoldAppends(FoldChunk(f, p[..8]), p[8..], x);
      if |p| == 8 { assert p[8..] == [] && p[..8] == p; }
    }
  }

  /** Chunk `i` of a seed, as a number. */
  ghost function ChunkAt(seed: seq<Byte>, i: nat): nat
    requires 8 * i < |seed|
  {
    LittleEndian(if 8 * i + 8 < |seed| then seed[8 * i..8 * i + 8] else seed[8 * i..])
  }

  /** The state draw `i` of the fold is made of. */
  ghost function FoldState(seed: seq<Byte>, i: nat): Word
    requires 8 * i < |seed| + 8
  {
    if i == 0 then (|seed| + 0x9e37_79b9_7f4a_7c15) % 0x1_0000_0000_0000_0000
    else (Xor(FoldState(seed, i - 1), ChunkAt(seed, i - 1)) + 0x9e37_79b9_7f4a_7c15) % 0x1_0000_0000_0000_0000
  }

  /** The exclusive or of the draws up to `i`. */
  ghost function DrawsUpTo(seed: seq<Byte>, i: nat): Word
    requires 8 * i < |seed| + 8
  {
    var d := Mix(FoldState(seed, i));
    if i == 0 then d else XorWord(DrawsUpTo(seed, i - 1), d)
  }

  /** The fold of a seed is the exclusive or of one draw for its length and one for
      each chunk, the chunk being mixed into the state by an exclusive or. */
  lemma {:induction false} FoldIs(seed: seq<Byte>)
    ensures FoldSeed(seed) == DrawsUpTo(seed, (|seed| + 7) / 8)
  {
    hide FoldChunk, DrawsUpTo, FoldState, Mix, LittleEndian, Xor;
    var k := |seed| / 8;
    FoldPrefix(seed, k);
    hide FoldStart;
    var p, x := seed[..8 * k], seed[8 * k..];
    assert seed == p + x;
    FoldAppends(FoldStart(|seed|), p, x);
    if x != [] {
      FoldNext(seed, k, x);
      assert (|seed| + 7) / 8 == k + 1;
    }
  }

  /** One chunk more. */
  lemma {:induction false} FoldNext(seed: seq<Byte>, i: nat, x: seq<Byte>)
    requires 8 * i < |seed| && x == if 8 * i + 8 < |seed| then seed[8 * i..8 * i + 8] else seed[8 * i..]
    ensures FoldChunk(Folding(FoldState(seed, i), DrawsUpTo(seed, i)), x)
         == Folding(FoldState(seed, i + 1), DrawsUpTo(seed, i + 1))
  {
    hide Mix, Xor, LittleEndian, Chunk, FoldState, DrawsUpTo;
    ChunkIs(x);
    StateNext(seed, i);
    DrawsNext(seed, i);
  }

  lemma StateNext(seed: seq<Byte>, i: nat)
    requires 8 * i < |seed|
    ensures FoldState(seed, i + 1) ==
            (Xor(FoldState(seed, i), ChunkAt(seed, i)) + 0x9e37_79b9_7f4a_7c15) % 0x1_0000_0000_0000_0000
  {
    hide Xor, ChunkAt;
  }

  lemma DrawsNext(seed: seq<Byte>, i: nat)
    requires 8 * i < |seed|
    ensures DrawsUpTo(seed, i + 1) == XorWord(DrawsUpTo(seed, i), Mix(FoldState(seed, i + 1)))
  {
    hide XorWord, Mix, FoldState;
  }

  lemma {:induction false} FoldPrefix(seed: seq<Byte>, i: nat)
    requires 8 * i <= |seed|
    ensures FoldFrom(FoldStart(|seed|), seed[..8 * i]) == Folding(FoldState(seed, i), DrawsUpTo(seed, i))
  {
    hide Mix, FoldChunk, LittleEndian, Xor;
    if i == 0 {
      StartIs(|seed|);
      hide FoldStart;
    } else {
      hide FoldStart, DrawsUpTo, FoldState;
      FoldPrefix(seed, i - 1);
      var p, x := seed[..8 * (i - 1)], seed[8 * (i - 1)..8 * i];
      assert seed[..8 * i] == p + x;
      assert 8 * i == |seed| ==> seed[8 * (i - 1)..] == x;
      FoldNext(seed, i - 1, x);
      FoldAppends(FoldStart(|seed|), p, x);
    }
  }

  lemma {:induction false} StartIs(len: nat)
    ensures FoldStart(len).m == (len + 0x9e37_79b9_7f4a_7c15) % 0x1_0000_0000_0000_0000
    ensures FoldStart(len).s == Mix(FoldStart(len).m)
  {
    hide Mix;
    ModAdd(len, GAMMA);
  }

  lemma {:induction false} ChunkSeparates(f: Folding, x: seq<Byte>, y: seq<Byte>)
    requires |x| == |y| <= 8 && x != y
    ensures FoldChunk(f, x).m != FoldChunk(f, y).m
    ensures FoldChunk(f, x).s != FoldChunk(f, y).s
  {
    hide XorWord, Mix, WrapAdd, Chunk;
    ChunkInjective(x, y);
    var a, b := XorWord(f.m, Chunk(x)), XorWord(f.m, Chunk(y));
    XorWordInjective(Chunk(x), Chunk(y), f.m);
    WrapAddInjective(a, b, GAMMA);
    MixInjective(WrapAdd(a, GAMMA), WrapAdd(b, GAMMA));
    XorWordInjective(Mix(WrapAdd(a, GAMMA)), Mix(WrapAdd(b, GAMMA)), f.s);
  }

  /** Seeds of equal length that differ only within their last chunk fold to
      different states, whatever comes before. */
  lemma {:induction false} FoldSeparates(p: seq<Byte>, x: seq<Byte>, y: seq<Byte>)
    requires |p| % 8 == 0 && 1 <= |x| == |y| <= 8
    ensures FoldSeed(p + x) == FoldSeed(p + y) <==> x == y
  {
    hide FoldChunk, FoldStart;
    var f := FoldStart(|p + x|);
    FoldAppends(f, p, x);
    FoldAppends(f, p, y);
    if x != y { ChunkSeparates(FoldFrom(f, p), x, y); }
  }

  /** So seeds of one length from 1 to 8 all fold to different states. */
  lemma {:induction false} ShortSeedsDiffer(x: seq<Byte>, y: seq<Byte>)
    requires 1 <= |x| == |y| <= 8
    ensures FoldSeed(x) == FoldSeed(y) <==> x == y
  {
    hide FoldSeed;
    FoldSeparates([], x, y);
    assert [] + x == x && [] + y == y;
  }

  /** With a full last chunk any difference before it can be hidden: whatever
      whole chunks `p` and `q` the seeds begin with, and however one ends, there
      is an end for the other that folds to the same state. */
  lemma {:induction false} FoldCollides(p: seq<Byte>, q: seq<Byte>, x: seq<Byte>) returns (y: seq<Byte>)
    requires |p| == |q| && |p| % 8 == 0 && |x| == 8
    ensures |y| == 8 && FoldSeed(p + x) == FoldSeed(q + y)
  {
    var start := FoldStart(|p| + 8);
    y := ChunkFor(FoldFrom(start, q), FoldSeed(p + x));
    hide FoldChunk, FoldStart;
    FoldAppends(start, q, y);
  }

  /** The chunk that brings a folding to a wanted value. */
  lemma {:induction false} ChunkFor(f: Folding, goal: Word) returns (y: seq<Byte>)
    ensures |y| == 8 && FoldChunk(f, y).s == goal
  {
    hide XorWord, Mix, Unmix, WrapAdd, LittleEndian, BytesOf, Pow2;
    var z := XorWord(goal, f.s);
    var before := (Unmix(z) - GAMMA) % MODULUS;
    WrapAddInjective(Unmix(z), Unmix(z), GAMMA);
    var c := XorWord(before, f.m);
    Width();
    y := BytesOf(c, 8);
    BytesRead(c, 8);
    assert Padded(y) == y;
    XorWordCancels(before, f.m);
    XorWordCancels(c, f.m);
    MixIsBijective(z);
    XorWordCancels(goal, f.s);
    XorWordCancels(z, f.s);
  }

  // ---- where the fold is injective ------------------------------------------

  ghost predicate InjectiveOn(n: nat) {
    forall a: seq<Byte>, b: seq<Byte> :: |a| == |b| == n && FoldSeed(a) == FoldSeed(b) ==> a == b
  }

  /** The numbers below `m`. */
  function Below(m: nat): set<nat> { if m == 0 then {} else Below(m - 1) + {m - 1} }

  lemma {:induction false} BelowIs(m: nat)
    ensures |Below(m)| == m
    ensures forall i: nat :: i < m <==> i in Below(m)
  {
    if m > 0 { BelowIs(m - 1); }
  }

  lemma {:induction false} SubsetSize(a: set<nat>, b: set<nat>)
    requires a <= b
    ensures |a| <= |b|
  {
    if x :| x in a { SubsetSize(a - {x}, b - {x}); }
  }

  /** The values of `f` below `k`. */
  function Image(f: nat -> nat, k: nat): set<nat> { if k == 0 then {} else Image(f, k - 1) + {f(k - 1)} }

  lemma {:induction false} ImageIs(f: nat -> nat, k: nat, v: nat)
    requires v in Image(f, k)
    ensures exists i: nat :: i < k && f(i) == v
  {
    if v != f(k - 1) { ImageIs(f, k - 1, v); }
  }

  ghost predicate Distinct(f: nat -> nat, k: nat) { forall i: nat, j: nat :: i < j < k ==> f(i) != f(j) }

  lemma {:induction false} ImageSize(f: nat -> nat, k: nat)
    requires Distinct(f, k)
    ensures |Image(f, k)| == k
  {
    if k > 0 {
      assert Distinct(f, k - 1);
      LastIsNew(f, k);
      hide Distinct;
      ImageSize(f, k - 1);
    }
  }

  lemma {:induction false} LastIsNew(f: nat -> nat, k: nat)
    requires k > 0 && Distinct(f, k)
    ensures f(k - 1) !in Image(f, k - 1)
  {
    hide Image;
    if f(k - 1) in Image(f, k - 1) { ImageIs(f, k - 1, f(k - 1)); }
  }

  lemma {:induction false} ImageFits(f: nat -> nat, m: nat)
    requires forall i: nat :: i <= m ==> f(i) < m
    ensures Image(f, m + 1) <= Below(m)
  {
    BelowIs(m);
    forall v | v in Image(f, m + 1) ensures v in Below(m) { ImageIs(f, m + 1, v); }
  }

  /** More arguments than values: two of them have the same one. */
  lemma {:induction false} Pigeonhole(f: nat -> nat, m: nat) returns (i: nat, j: nat)
    requires forall i: nat :: i <= m ==> f(i) < m
    ensures i < j <= m && f(i) == f(j)
  {
    if Distinct(f, m + 1) {
      ImageSize(f, m + 1);
      ImageFits(f, m);
      BelowIs(m);
      SubsetSize(Image(f, m + 1), Below(m));
      assert false;
    }
    i, j :| i < j < m + 1 && f(i) == f(j);
  }

  lemma {:induction false} PowGrows(a: nat, b: nat)
    requires a < b
    ensures Pow2(a) < Pow2(b)
  {
    PowPositive(a);
    if a + 1 < b { PowGrows(a, b - 1); }
  }

  /** There are more seeds of nine bytes or more than states. */
  lemma {:induction false} LongSeedsCollide(n: nat) returns (a: seq<Byte>, b: seq<Byte>)
    requires n > 8
    ensures |a| == |b| == n && a != b && FoldSeed(a) == FoldSeed(b)
  {
    Width();
    PowGrows(64, 8 * n);
    hide FoldSeed, Pow2;
    var f: nat -> nat := (v: nat) => FoldSeed(BytesOf(v, n));
    var i, j := Pigeonhole(f, MODULUS);
    BytesRead(i, n);
    BytesRead(j, n);
    a, b := BytesOf(i, n), BytesOf(j, n);
  }

  /** So seeds of one length all fold to different states exactly up to eight
      bytes. */
  lemma {:induction false} InjectiveUpToEight(n: nat)
    ensures InjectiveOn(n) <==> n <= 8
  {
    hide FoldSeed;
    if n > 8 {
      var a, b := LongSeedsCollide(n);
    } else if n > 0 {
      forall a: seq<Byte>, b: seq<Byte> | |a| == |b| == n && FoldSeed(a) == FoldSeed(b) ensures a == b {
        ShortSeedsDiffer(a, b);
      }
    }
  }
}
