/** The 64-bit permission masks of internal/domain/agent.go and the sets of bit indices that they stand for. */
module Permissions {
  type Mask = bv64

  /** uint64(1) << bit: in Go a shift by 64 or more gives zero. */
  function Bit(bit: bv64): Mask { if bit < 64 then (1 as bv64) << bit else 0 }

  predicate Has(p: Mask, bit: bv64) { p & Bit(bit) != 0 }

  /** Granting, revoking and merging. */
  function WithBit(p: Mask, bit: bv64): Mask { Merge(p, Bit(bit)) }

  function WithoutBit(p: Mask, bit: bv64): Mask { p & !Bit(bit) }

  function Merge(p: Mask, q: Mask): Mask { p | q }

  /** The set view of a mask. */
  ghost function Bits(p: Mask): iset<bv64> { iset b: bv64 | Has(p, b) }

  /** LevelType is a uint8; its arithmetic wraps. */
  type Level = bv8

  predicate ValidLevel(l: Level) { l <= 7 }

  /** DefaultMaxPermissions. The shift amount l*16+16 is computed in uint8. */
  function MaxPermissions(l: Level): Mask {
    if l > 7 then 0 else Bit((l * 16 + 16) as bv64) - 1
  }

  /** Grant's test: the level allows the bit. */
  predicate Allows(l: Level, bit: bv64) { Bit(bit) & MaxPermissions(l) != 0 }

  predicate Within(p: Mask, l: Level) { p & !MaxPermissions(l) == 0 }

  /** The shift amount does not wrap for valid levels: from level 3 up every bit is allowed. */
  lemma MaxPermissionsTable(l: Level)
    ensures MaxPermissions(0) == 0xFFFF && MaxPermissions(1) == 0xFFFF_FFFF
    ensures MaxPermissions(2) == 0xFFFF_FFFF_FFFF
    ensures 3 <= l <= 7 ==> MaxPermissions(l) == 0xFFFF_FFFF_FFFF_FFFF
    ensures l > 7 ==> MaxPermissions(l) == 0
  {
  }

  /** A level allows exactly the bits below 16 times its successor. */
  lemma MaxPermissionsBits(l: Level, b: bv64)
    requires ValidLevel(l)
    ensures Has(MaxPermissions(l), b) <==> b < 64 && b < 16 * (l as bv64) + 16
  {
  }

  /** A higher valid level allows whatever a lower one does. */
  lemma WithinMonotone(p: Mask, l: Level, m: Level)
    requires l <= m <= 7 && Within(p, l)
    ensures Within(p, m)
  {
    MaxIncreases(l, m);
    SubmaskTransitive(p, MaxPermissions(l), MaxPermissions(m));
  }

  lemma MaxIncreases(l: Level, m: Level)
    requires l <= m <= 7
    ensures MaxPermissions(l) & !MaxPermissions(m) == 0
  {
  }

  lemma SubmaskTransitive(p: Mask, a: Mask, b: Mask)
    requires p & !a == 0 && a & !b == 0
    ensures p & !b == 0
  {
  }

  // ---------------------------------------------------------------------
  // The mask refines the set
  // ---------------------------------------------------------------------

  /** Bit k is two to the k, and nothing from 64 on. */
  lemma BitDoubles(b: bv64)
    ensures Bit(0) == 1
    ensures b < 63 ==> Bit(b + 1) == Bit(b) + Bit(b) && Bit(b) < Bit(b + 1)
    ensures b >= 64 ==> Bit(b) == 0
  {
  }

  lemma BitsDistinct(b: bv64, c: bv64)
    requires b < 64 && c < 64
    ensures Bit(b) & Bit(c) != 0 <==> b == c
  {
  }

  /** Merging masks merges the sets. */
  lemma OrIsUnion(p: Mask, q: Mask, b: bv64)
    ensures Has(Merge(p, q), b) <==> Has(p, b) || Has(q, b)
  {
    OrDistributes(p, q, Bit(b));
    OrZero(p & Bit(b), q & Bit(b));
  }

  lemma OrDistributes(p: Mask, q: Mask, m: Mask)
    ensures (p | q) & m == (p & m) | (q & m)
  {
  }

  lemma OrZero(x: Mask, y: Mask)
    ensures x | y == 0 <==> x == 0 && y == 0
  {
  }

  /** A single-bit mask stands for one index. */
  lemma SingleBit(bit: bv64, b: bv64)
    requires bit < 64
    ensures Has(Bit(bit), b) <==> b == bit
  {
    if b < 64 { BitsDistinct(bit, b); }
  }

  /** Granting adds one index. */
  lemma OrAddsOne(p: Mask, bit: bv64, b: bv64)
    requires bit < 64
    ensures Has(WithBit(p, bit), b) <==> Has(p, b) || b == bit
  {
    hide Has, Bit, Merge;
    OrIsUnion(p, Bit(bit), b);
    SingleBit(bit, b);
  }

  /** Revoking removes one index. */
  lemma AndNotRemovesOne(p: Mask, bit: bv64, b: bv64)
    requires bit < 64
    ensures Has(WithoutBit(p, bit), b) <==> Has(p, b) && b != bit
  {
    hide Has, Bit;
    MaskRemovesOne(p, bit, b);
  }

  lemma MaskRemovesOne(p: Mask, bit: bv64, b: bv64)
    requires bit < 64
    ensures Has(p & !Bit(bit), b) <==> Has(p, b) && b != bit
  {
    AndNotMeets(p, Bit(bit), Bit(b));
    if b < 64 { BitsDistinct(bit, b); }
  }

  lemma AndNotMeets(p: Mask, q: Mask, m: Mask)
    ensures q & m == 0 ==> (p & !q) & m == p & m
    ensures q == m ==> (p & !q) & m == 0
  {
  }

  ghost predicate NoneBelow(p: Mask, n: bv64)
    decreases n
  {
    n == 0 || (!Has(p, n - 1) && NoneBelow(p, n - 1))
  }

  lemma {:induction false} EmptyMeansNoneBelow(p: Mask, n: bv64)
    requires forall b: bv64 :: !Has(p, b)
    ensures NoneBelow(p, n)
    decreases n
  {
    if n > 0 { EmptyMeansNoneBelow(p, n - 1); }
  }

  /** A mask with none of its low n bits set has nothing below 1 << n. */
  lemma {:induction false} NoLowBits(p: Mask, n: bv64)
    requires n <= 64 && NoneBelow(p, n)
    ensures p & (Bit(n) - 1) == 0
    decreases n
  {
    if n > 0 {
      NoLowBits(p, n - 1);
      NextBit(p, n - 1);
    } else {
      ZeroBit(p);
    }
  }

  lemma ZeroBit(p: Mask)
    ensures p & (Bit(0) - 1) == 0
  {
    assert Bit(0) == 1;
  }

  lemma NextBit(p: Mask, k: bv64)
    requires k < 64 && p & (Bit(k) - 1) == 0 && p & Bit(k) == 0
    ensures p & (Bit(k + 1) - 1) == 0
  {
    hide Bit;
    BitStep(k);
    ClearOfBoth(p, Bit(k), Bit(k) - 1);
  }

  lemma BitStep(k: bv64)
    requires k < 64
    ensures Bit(k + 1) - 1 == Bit(k) | (Bit(k) - 1)
  {
  }

  lemma ClearOfBoth(p: Mask, x: Mask, y: Mask)
    requires p & x == 0 && p & y == 0
    ensures p & (x | y) == 0
  {
  }

  /** The set determines the mask. */
  lemma BitsInjective(p: Mask, q: Mask)
    requires Bits(p) == Bits(q)
    ensures p == q
  {
    var d := p ^ q;
    forall b: bv64 ensures !Has(d, b) {
      assert b in Bits(p) <==> b in Bits(q);
      XorHas(p, q, b);
    }
    EmptyMeansNoneBelow(d, 64);
    NoLowBits(d, 64);
    AllOnes(d);
  }

  lemma AllOnes(p: Mask)
    requires p & (Bit(64) - 1) == 0
    ensures p == 0
  {
    assert Bit(64) - 1 == 0xFFFF_FFFF_FFFF_FFFF;
  }

  lemma XorHas(p: Mask, q: Mask, b: bv64)
    requires Has(p, b) == Has(q, b)
    ensures !Has(p ^ q, b)
  {
    if b < 64 { XorHasBit(p, q, Bit(b), b); }
  }

  lemma XorHasBit(p: Mask, q: Mask, m: Mask, b: bv64)
    requires b < 64 && m == (1 as bv64) << b
    requires (p & m != 0) == (q & m != 0)
    ensures (p ^ q) & m == 0
  {
  }

  /** A mask is within a level exactly when all its bits are. */
  lemma WithinIffBits(p: Mask, l: Level)
    ensures Within(p, l) <==> Bits(p) <= Bits(MaxPermissions(l))
  {
    var max := MaxPermissions(l);
    if Within(p, l) {
      forall b | Has(p, b) ensures Has(max, b) { SubmaskHas(p, max, b); }
    }
    if Bits(p) <= Bits(max) {
      var outside := p & !max;
      forall b: bv64 ensures !Has(outside, b) {
        assert b in Bits(p) ==> b in Bits(max);
        OutsideHas(p, max, b);
      }
      EmptyMeansNoneBelow(outside, 64);
      NoLowBits(outside, 64);
      AllOnes(outside);
    }
  }

  lemma SubmaskHas(p: Mask, max: Mask, b: bv64)
    requires p & !max == 0 && Has(p, b)
    ensures Has(max, b)
  {
  }

  lemma OutsideHas(p: Mask, max: Mask, b: bv64)
    requires Has(p, b) ==> Has(max, b)
    ensures !Has(p & !max, b)
  {
    AndSwaps(p, !max, Bit(b));
    if Has(max, b) {
      SingleBitCovered(max, b);
      AndRegroups(p, !max, Bit(b));
    }
  }

  lemma AndSwaps(p: Mask, x: Mask, m: Mask)
    ensures (p & x) & m == (p & m) & x
  {
  }

  lemma AndRegroups(p: Mask, x: Mask, m: Mask)
    ensures (p & x) & m == p & (x & m)
  {
  }

  /** A mask that meets a single bit covers it. */
  lemma SingleBitCovered(max: Mask, b: bv64)
    requires Has(max, b)
    ensures !max & Bit(b) == 0
  {
  }

  // ---------------------------------------------------------------------
  // Sets of indices
  // ---------------------------------------------------------------------

  lemma GrantedBits(p: Mask, bit: bv64)
    requires bit < 64
    ensures Bits(WithBit(p, bit)) == Bits(p) + iset{bit}
  {
    hide Has, WithBit, WithoutBit, Merge;
    forall b: bv64 ensures Has(WithBit(p, bit), b) <==> Has(p, b) || b == bit { OrAddsOne(p, bit, b); }
  }

  lemma RevokedBits(p: Mask, bit: bv64)
    requires bit < 64
    ensures Bits(WithoutBit(p, bit)) == Bits(p) - iset{bit}
  {
    hide Has, WithBit, WithoutBit, Merge;
    forall b: bv64 ensures Has(WithoutBit(p, bit), b) <==> Has(p, b) && b != bit { AndNotRemovesOne(p, bit, b); }
  }

  lemma MergedBits(p: Mask, q: Mask)
    ensures Bits(Merge(p, q)) == Bits(p) + Bits(q)
  {
    hide Has, WithBit, WithoutBit, Merge;
    forall b: bv64 ensures Has(Merge(p, q), b) <==> Has(p, b) || Has(q, b) { OrIsUnion(p, q, b); }
  }

  /** What a level allows is a member of its set of indices. */
  lemma AllowsIsMember(l: Level, bit: bv64)
    ensures Allows(l, bit) <==> bit in Bits(MaxPermissions(l))
    ensures Allows(l, bit) ==> bit < 64
  {
    AndCommutes(Bit(bit), MaxPermissions(l));
  }

  lemma AndCommutes(p: Mask, q: Mask)
    ensures p & q == q & p
  {
  }

  // ---------------------------------------------------------------------
  // Staying within the level
  // ---------------------------------------------------------------------

  lemma GrantWithin(p: Mask, l: Level, bit: bv64)
    requires Within(p, l) && Allows(l, bit)
    ensures Within(WithBit(p, bit), l)
  {
    AllowedIsCovered(l, bit);
    MergeWithin(p, Bit(bit), l);
  }

  lemma MergeWithin(p: Mask, q: Mask, l: Level)
    requires Within(p, l) && Within(q, l)
    ensures Within(Merge(p, q), l)
  {
    UnionWithin(p, q, MaxPermissions(l));
  }

  lemma AllowedIsCovered(l: Level, bit: bv64)
    requires Allows(l, bit)
    ensures Within(Bit(bit), l)
  {
    CoveredMask(bit, MaxPermissions(l));
  }

  lemma CoveredMask(bit: bv64, max: Mask)
    requires Bit(bit) & max != 0
    ensures Bit(bit) & !max == 0
  {
  }

  lemma UnionWithin(p: Mask, q: Mask, max: Mask)
    requires p & !max == 0 && q & !max == 0
    ensures (p | q) & !max == 0
  {
  }

  lemma RevokeWithin(p: Mask, l: Level, bit: bv64)
    requires Within(p, l)
    ensures Within(WithoutBit(p, bit), l)
  {
    RemovalWithin(p, Bit(bit), MaxPermissions(l));
  }

  lemma RemovalWithin(p: Mask, q: Mask, max: Mask)
    requires p & !max == 0
    ensures (p & !q) & !max == 0
  {
  }
}
