/** The pool-size part of `estimate_entropy` and the entropy band the scorer
    reads off it.

    The source computes `round(log2(pool) * len, 2)` in floating point and
    compares it with 70 and 45. In exact arithmetic `log2(pool) * len >= T`
    holds exactly when `pool^len >= 2^T`, and that is how the band is decided
    here, on integers. */
module Entropy {
  import opened Text
  import opened CharSets

  /** Size of the alphabet the password appears to draw from: 26 for lower
      case, 26 for upper case, 10 for digits, 32 for symbols. */
  function PoolSize(pw: string): (pool: nat)
    ensures pool <= 94
    ensures pool == 0 <==> forall i :: 0 <= i < |pw| ==> pw[i] == '_' || IsSpaceChar(pw[i])
    ensures pool == 94 <==> HasClass(pw, Lower) && HasClass(pw, Upper)
                            && HasClass(pw, Digit) && HasClass(pw, Symbol)
  {
    var s := CharSetsOf(pw);
    NoTypesIffUnderscoreOrSpace(pw);
    (if s.lower then 26 else 0) + (if s.upper then 26 else 0)
    + (if s.digit then 10 else 0) + (if s.symbol then 32 else 0)
  }

  /** The pool is a sum of a subset of {26, 26, 10, 32}. */
  lemma PoolSizeValues(pw: string)
    ensures PoolSize(pw) in {0, 10, 26, 32, 36, 42, 52, 58, 62, 68, 84, 94}
  {
  }

  /** The pool is empty exactly when no class earns variety points. */
  lemma PoolZeroIffNoTypes(pw: string)
    ensures PoolSize(pw) == 0 <==> TypeCount(CharSetsOf(pw)) == 0
  {
    NoTypesIffUnderscoreOrSpace(pw);
  }

  function Pow(b: nat, e: nat): nat
  {
    if e == 0 then 1 else b * Pow(b, e - 1)
  }

  lemma {:induction false} PowMonotoneExponent(b: nat, e1: nat, e2: nat)
    requires 1 <= b && e1 <= e2
    ensures Pow(b, e1) <= Pow(b, e2)
    decreases e2
  {
    if e1 < e2 {
      PowMonotoneExponent(b, e1, e2 - 1);
      var p := Pow(b, e2 - 1);
      assert Pow(b, e2) == b * p;
      MulLe(1, b, p);
    }
  }

  lemma MulLe(a: nat, b: nat, c: nat)
    requires a <= b
    ensures a * c <= b * c
  {
  }

  lemma {:induction false} PowMonotoneBase(b1: nat, b2: nat, e: nat)
    requires b1 <= b2
    ensures Pow(b1, e) <= Pow(b2, e)
  {
    if e > 0 {
      PowMonotoneBase(b1, b2, e - 1);
      var p1, p2 := Pow(b1, e - 1), Pow(b2, e - 1);
      assert Pow(b1, e) == b1 * p1 && Pow(b2, e) == b2 * p2;
      MulLe(b1, b2, p1);
      MulLe(p1, p2, b2);
    }
  }

  datatype EntropyBand = LowEntropy | ModerateEntropy | HighEntropy

  function BandRank(b: EntropyBand): nat
  {
    match b
    case LowEntropy => 0
    case ModerateEntropy => 1
    case HighEntropy => 2
  }

  /** Entropy of at least 70 bits is high, of at least 45 bits moderate. */
  function EntropyBandOf(pool: nat, length: nat): (b: EntropyBand)
    ensures pool <= 1 ==> b == LowEntropy
    ensures pool >= 2 && length >= 70 ==> b == HighEntropy
    ensures pool <= 2 && length < 45 ==> b == LowEntropy
  {
    BandBounds(pool, length);
    if Pow(pool, length) >= Pow(2, 70) then HighEntropy
    else if Pow(pool, length) >= Pow(2, 45) then ModerateEntropy
    else LowEntropy
  }

  /** At most one bit per character from a pool of at most 2, at least one
      from a pool of at least 2, none from a pool of at most 1. */
  lemma BandBounds(pool: nat, length: nat)
    ensures pool <= 1 ==> Pow(pool, length) < Pow(2, 45)
    ensures pool >= 2 && length >= 70 ==> Pow(pool, length) >= Pow(2, 70)
    ensures pool <= 2 && length < 45 ==> Pow(pool, length) < Pow(2, 45)
    ensures Pow(2, 45) < Pow(2, 70)
  {
    PowStrictExponent(2, 45, 70);
    if pool <= 1 {
      PowMonotoneBase(pool, 1, length);
      PowOne(length);
      PowStrictExponent(2, 0, 45);
    }
    if pool >= 2 && length >= 70 {
      PowMonotoneBase(2, pool, length);
      PowMonotoneExponent(2, 70, length);
    }
    if pool <= 2 && length < 45 {
      PowMonotoneBase(pool, 2, length);
      PowStrictExponent(2, length, 45);
    }
  }

  lemma {:induction false} PowOne(e: nat)
    ensures Pow(1, e) == 1
  {
    if e > 0 { PowOne(e - 1); }
  }

  /** Points the entropy rule adds: 20, 8 or nothing. */
  function EntropyBonus(b: EntropyBand): (points: int)
    ensures points in {0, 8, 20}
    ensures points == 0 <==> b == LowEntropy
  {
    match b
    case HighEntropy => 20
    case ModerateEntropy => 8
    case LowEntropy => 0
  }

  /** An empty pool means entropy 0.0, which is low and earns nothing. */
  lemma ZeroPoolIsLow(length: nat)
    ensures EntropyBandOf(0, length) == LowEntropy
    ensures EntropyBonus(EntropyBandOf(0, length)) == 0
  {
    assert Pow(0, length) <= 1 by {
      if length > 0 { assert Pow(0, length) == 0 * Pow(0, length - 1); }
    }
    PowStrictExponent(2, 0, 45);
  }

  /** The band never drops when the password gets longer over the same pool. */
  lemma BandMonotoneInLength(pool: nat, len1: nat, len2: nat)
    requires len1 <= len2
    ensures BandRank(EntropyBandOf(pool, len1)) <= BandRank(EntropyBandOf(pool, len2))
  {
    if pool == 0 {
      ZeroPoolIsLow(len1);
    } else {
      PowMonotoneExponent(pool, len1, len2);
    }
  }

  /** The band never drops when the pool grows at the same length. */
  lemma BandMonotoneInPool(pool1: nat, pool2: nat, length: nat)
    requires pool1 <= pool2
    ensures BandRank(EntropyBandOf(pool1, length)) <= BandRank(EntropyBandOf(pool2, length))
  {
    PowMonotoneBase(pool1, pool2, length);
  }

  /** Sixteen characters from all four classes: log2(94) * 16 is about 104.9
      bits, well inside the high band. */
  lemma FullPoolSixteenIsHigh()
    ensures EntropyBandOf(94, 16) == HighEntropy
  {
    assert Pow(2, 6) == 64 by {
      assert Pow(2, 1) == 2 && Pow(2, 2) == 4 && Pow(2, 3) == 8;
      assert Pow(2, 4) == 16 && Pow(2, 5) == 32;
    }
    PowOfPow(2, 6, 16);
    PowMonotoneBase(64, 94, 16);
    PowMonotoneExponent(2, 70, 96);
  }

  /** A pool of 32 (symbols only) is exactly 5 bits per character, so the
      float product meets the thresholds exactly: moderate from 9 characters
      (45.0 bits), high from 14 (70.0 bits). */
  lemma SymbolPoolThresholds(length: nat)
    ensures EntropyBandOf(32, length) == HighEntropy <==> length >= 14
    ensures EntropyBandOf(32, length) == ModerateEntropy <==> 9 <= length < 14
  {
    assert Pow(2, 5) == 32 by {
      assert Pow(2, 1) == 2 && Pow(2, 2) == 4 && Pow(2, 3) == 8 && Pow(2, 4) == 16;
    }
    PowOfPow(2, 5, length);
    PowTwoCompare(5 * length, 70);
    PowTwoCompare(5 * length, 45);
  }

  /** Powers of two compare as their exponents do. */
  lemma PowTwoCompare(a: nat, b: nat)
    ensures Pow(2, a) >= Pow(2, b) <==> a >= b
  {
    if a >= b {
      PowMonotoneExponent(2, b, a);
    } else {
      PowStrictExponent(2, a, b);
    }
  }

  lemma {:induction false} PowStrictExponent(b: nat, e1: nat, e2: nat)
    requires 2 <= b && e1 < e2
    ensures Pow(b, e1) < Pow(b, e2)
    decreases e2
  {
    PowMonotoneExponent(b, 0, e2 - 1);
    assert Pow(b, e2) == b * Pow(b, e2 - 1);
    if e1 < e2 - 1 {
      PowStrictExponent(b, e1, e2 - 1);
    }
  }

  lemma {:induction false} PowAdd(b: nat, m: nat, n: nat)
    ensures Pow(b, m + n) == Pow(b, m) * Pow(b, n)
    decreases n
  {
    if n > 0 {
      PowAdd(b, m, n - 1);
      assert Pow(b, m + n) == b * Pow(b, m + n - 1);
    }
  }

  lemma {:induction false} PowOfPow(b: nat, m: nat, n: nat)
    ensures Pow(Pow(b, m), n) == Pow(b, m * n)
  {
    if n > 0 {
      PowOfPow(b, m, n - 1);
      PowAdd(b, m, m * (n - 1));
      assert m + m * (n - 1) == m * n;
    }
  }
}
