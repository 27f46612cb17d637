/** 64-bit words as numbers: wrapping sums and products, exclusive or and
    shifts, with the laws the generator of `set_shaper` rests on. */
module Words {

  const MODULUS: nat := 0x1_0000_0000_0000_0000

  type Word = x: int | 0 <= x < 0x1_0000_0000_0000_0000

  function WrapAdd(a: Word, b: Word): Word { (a + b) % MODULUS }

  function WrapMul(a: Word, b: Word): Word { (a * b) % MODULUS }

  // ---- exclusive or and shifts, on numbers of any size ----------------------

  function Xor(a: nat, b: nat): nat
    decreases a + b
  {
    if a == 0 && b == 0 then 0
    else 2 * Xor(a / 2, b / 2) + (if a % 2 == b % 2 then 0 else 1)
  }

  function Shr(a: nat, k: nat): nat
    decreases k
  {
    if k == 0 then a else Shr(a / 2, k - 1)
  }

  lemma {:induction false} XorCommutes(a: nat, b: nat)
    ensures Xor(a, b) == Xor(b, a)
    decreases a + b
  {
    if a != 0 || b != 0 { XorCommutes(a / 2, b / 2); }
  }

  lemma XorHalf(a: nat, b: nat)
    ensures Xor(a, b) / 2 == Xor(a / 2, b / 2)
    ensures Xor(a, b) % 2 == if a % 2 == b % 2 then 0 else 1
  {
  }

  lemma {:induction false} XorAssociates(a: nat, b: nat, c: nat)
    ensures Xor(Xor(a, b), c) == Xor(a, Xor(b, c))
    decreases a + b + c
  {
    if a != 0 || b != 0 || c != 0 {
      XorAssociates(a / 2, b / 2, c / 2);
      XorHalf(a, b);
      XorHalf(b, c);
      XorHalf(Xor(a, b), c);
      XorHalf(a, Xor(b, c));
    }
  }

  lemma {:induction false} XorZero(a: nat)
    ensures Xor(a, 0) == a
  {
    if a != 0 { XorZero(a / 2); }
  }

  lemma {:induction false} XorSelf(a: nat)
    ensures Xor(a, a) == 0
  {
    if a != 0 { XorSelf(a / 2); }
  }

  /** Exclusive or with the same number twice changes nothing. */
  lemma {:induction false} XorCancels(a: nat, b: nat)
    ensures Xor(Xor(a, b), b) == a
  {
    XorAssociates(a, b, b);
    XorSelf(b);
    XorZero(a);
  }

  lemma {:induction false} ShrXor(a: nat, b: nat, k: nat)
    ensures Shr(Xor(a, b), k) == Xor(Shr(a, k), Shr(b, k))
    decreases k
  {
    if k > 0 {
      XorHalf(a, b);
      ShrXor(a / 2, b / 2, k - 1);
    }
  }

  lemma {:induction false} ShrShr(a: nat, j: nat, k: nat)
    ensures Shr(Shr(a, j), k) == Shr(a, j + k)
    decreases j
  {
    if j > 0 { ShrShr(a / 2, j - 1, k); }
  }

  // ---- the width -----------------------------------------------------------

  function Pow2(k: nat): nat { if k == 0 then 1 else 2 * Pow2(k - 1) }

  lemma {:induction false} XorFits(a: nat, b: nat, k: nat)
    requires a < Pow2(k) && b < Pow2(k)
    ensures Xor(a, b) < Pow2(k)
    decreases k
  {
    if k > 0 { XorFits(a / 2, b / 2, k - 1); }
  }

  lemma {:induction false} ShrFits(a: nat, j: nat, k: nat)
    requires a < Pow2(k)
    ensures Shr(a, j) <= a
    ensures j >= k ==> Shr(a, j) == 0
    decreases k, j
  {
    if j > 0 {
      if k > 0 { ShrFits(a / 2, j - 1, k - 1); } else { ShrFits(a / 2, j - 1, 0); }
    }
  }

  lemma ProductGrows(x: int, y: int, d: int)
    requires x <= y && d >= 0
    ensures x * d <= y * d
  {
    assert (y - x) * d >= 0;
  }

  lemma QuotientBounds(a: nat, d: nat)
    requires d > 0
    ensures (a / d) * d <= a < (a / d + 1) * d
  {
  }

  /** The quotient is the one number between whose multiples `a` lies. */
  lemma {:induction false} QuotientIs(a: nat, d: nat, q: nat)
    requires d > 0 && q * d <= a < (q + 1) * d
    ensures a / d == q
  {
    QuotientBounds(a, d);
    var m := a / d;
    if m < q { ProductGrows(m + 1, q, d); }
    if q < m { ProductGrows(q + 1, m, d); }
  }

  lemma {:induction false} PowPositive(k: nat)
    ensures Pow2(k) > 0
  {
    if k > 0 { PowPositive(k - 1); }
  }

  lemma {:induction false} ShrBounds(a: nat, k: nat)
    ensures Shr(a, k) * Pow2(k) <= a < (Shr(a, k) + 1) * Pow2(k)
    decreases k
  {
    if k > 0 {
      ShrBounds(a / 2, k - 1);
      BoundsDouble(a, Shr(a, k), Pow2(k - 1));
    }
  }

  lemma {:induction false} BoundsDouble(a: nat, q: nat, p: nat)
    requires q * p <= a / 2 < (q + 1) * p
    ensures q * (2 * p) <= a < (q + 1) * (2 * p)
  {
    Doubles(q, p);
    Doubles(q + 1, p);
  }

  lemma Doubles(q: nat, p: nat)
    ensures q * (2 * p) == 2 * (q * p)
  {
  }

  /** A shift divides by a power of two. */
  lemma {:induction false} ShrIs(a: nat, k: nat)
    ensures Pow2(k) > 0 && Shr(a, k) == a / Pow2(k)
  {
    PowPositive(k);
    ShrBounds(a, k);
    hide Shr, Pow2;
    QuotientIs(a, Pow2(k), Shr(a, k));
  }

  /** Bit `i` of an exclusive or is set just when it is set in one of the two. */
  lemma {:induction false} XorBit(a: nat, b: nat, i: nat)
    ensures Shr(Xor(a, b), i) % 2 == (Shr(a, i) + Shr(b, i)) % 2
  {
    hide Xor, Shr;
    ShrXor(a, b, i);
    XorHalf(Shr(a, i), Shr(b, i));
  }

  lemma Width()
    ensures Pow2(64) == MODULUS
  {
    assert Pow2(8) == 256;
    assert Pow2(16) == 0x1_0000 by { assert Pow2(12) == 0x1000; }
    assert Pow2(24) == 0x100_0000 by { assert Pow2(20) == 0x10_0000; }
    assert Pow2(32) == 0x1_0000_0000 by { assert Pow2(28) == 0x1000_0000; }
    assert Pow2(40) == 0x100_0000_0000 by { assert Pow2(36) == 0x10_0000_0000; }
    assert Pow2(48) == 0x1_0000_0000_0000 by { assert Pow2(44) == 0x1000_0000_0000; }
    assert Pow2(56) == 0x100_0000_0000_0000 by { assert Pow2(52) == 0x10_0000_0000_0000; }
    assert Pow2(60) == 0x1000_0000_0000_0000;
  }

  function XorWord(a: Word, b: Word): Word {
    Width(); XorFits(a, b, 64);
    Xor(a, b)
  }

  function ShrWord(a: Word, k: nat): Word {
    Width(); ShrFits(a, k, 64);
    Shr(a, k)
  }

  /** Exclusive or with a fixed word is its own inverse, on either side. */
  lemma {:induction false} XorWordCancels(a: Word, b: Word)
    ensures XorWord(XorWord(a, b), b) == a
    ensures XorWord(a, b) == XorWord(b, a)
  {
    XorCancels(a, b);
    XorCommutes(a, b);
  }

  lemma {:induction false} XorWordInjective(a: Word, b: Word, c: Word)
    ensures XorWord(c, a) == XorWord(c, b) <==> a == b
  {
    hide XorWord;
    XorWordCancels(a, c);
    XorWordCancels(b, c);
  }

  lemma WrapAddInjective(a: Word, b: Word, c: Word)
    ensures WrapAdd(a, c) == WrapAdd(b, c) <==> a == b
    ensures WrapAdd((a - c) % MODULUS, c) == a
  {
  }

  // ---- xor-shifts ----------------------------------------------------------

  /** `z ^ (z >> k)`. */
  function XorShift(z: Word, k: nat): Word { XorWord(z, ShrWord(z, k)) }

  /** Its inverse for `k` from 22 to 63: two further terms are enough, as a
      third would shift everything out. */
  function UnXorShift(y: Word, k: nat): Word {
    XorWord(XorWord(y, ShrWord(y, k)), ShrWord(y, 2 * k))
  }

  /** The inverse works both ways. */
  lemma {:induction false} XorShiftUndone(z: Word, k: nat)
    requires 3 * k >= 64
    ensures UnXorShift(XorShift(z, k), k) == z
    ensures XorShift(UnXorShift(z, k), k) == z
  {
    var z1, z2, z3 := Shr(z, k), Shr(z, 2 * k), Shr(z, 3 * k);
    ShrShr(z, k, k); ShrShr(z, k, 2 * k); ShrShr(z, 2 * k, k);
    Width(); ShrFits(z, 3 * k, 64);

    var y := Xor(z, z1);
    ShrXor(z, z1, k); ShrXor(z, z1, 2 * k); XorZero(z2);
    assert UnXorShift(XorShift(z, k), k) == Xor(Xor(y, Xor(z1, z2)), z2);
    XorAssociates(y, z1, z2);
    XorCancels(z, z1); XorCancels(z, z2);

    var x := Xor(Xor(z, z1), z2);
    ShrXor(Xor(z, z1), z2, k); ShrXor(z, z1, k);
    XorZero(Xor(z1, z2));
    assert XorShift(UnXorShift(z, k), k) == Xor(x, Xor(z1, z2));
    XorCommutes(z1, z2); XorAssociates(x, z2, z1);
    XorCancels(Xor(z, z1), z2);
  }

  // ---- products ------------------------------------------------------------

  lemma ModDifference(x: int, y: int)
    ensures x % MODULUS == y % MODULUS <==> (y - x) % MODULUS == 0
  {
  }

  lemma ModAdd(x: int, y: int)
    ensures (x % MODULUS + y) % MODULUS == (x + y) % MODULUS
  {
  }

  lemma ModMultiple(k: int, c: int)
    ensures (MODULUS * k + c) % MODULUS == c % MODULUS
  {
  }

  lemma Distributes(m: int, q: int, r: int, y: int)
    ensures (m * q + r) * y == m * (q * y) + r * y
  {
  }

  lemma Regroups(a: int, b: int, c: int)
    ensures a * b * c == b * c * a
  {
  }

  lemma {:induction false} ModFactor(x: int, y: int)
    ensures (x % MODULUS) * y % MODULUS == x * y % MODULUS
  {
    var q, r := x / MODULUS, x % MODULUS;
    Distributes(MODULUS, q, r, y);
    ModMultiple(q * y, r * y);
  }

  /** A factor whose product with `i` is one more than a multiple of 2^64 is
      undone by `i`. */
  lemma {:induction false} WrapMulUndone(a: Word, m: Word, i: Word)
    requires m * i % MODULUS == 1
    ensures WrapMul(WrapMul(a, m), i) == a
  {
    hide WrapMul;
    WrapMulTwice(a, m, i);
    Regroups(a, m, i);
    ModFactor(m * i, a);
    assert 1 * a == a && a % MODULUS == a;
  }

  lemma {:induction false} WrapMulTwice(a: Word, m: Word, i: Word)
    ensures WrapMul(WrapMul(a, m), i) == a * m * i % MODULUS
  {
    ModFactor(a * m, i);
  }
}
