/** 64-bit words as sets of positions (src/util/bit_vec.rs:258-332). Shift amounts are bit vectors of six
    bits, so that no reasoning mixes shifts with integers. */
module Words {
  import opened WordOps

  const WORD_BITS: nat := 64

  /** A position as a shift amount. */
  function ShiftBy(i: nat): bv6
    requires i < WORD_BITS
  {
    i as bv6
  }

  /** The word with one set bit. */
  function Mask(i: nat): Word
    requires i < WORD_BITS
  {
    Shifted(ShiftBy(i))
  }

  /** Is the position set? */
  predicate Bit(w: Word, i: nat)
    requires i < WORD_BITS
  {
    Test(w, Mask(i))
  }

  lemma ShiftByRound(i: nat)
    requires i < WORD_BITS
    ensures ShiftBy(i) as nat == i
  {
  }

  lemma NextShift(s: bv6)
    ensures s < 63 <==> s as nat < 63
    ensures s < 63 ==> (s + 1) as nat == (s as nat) + 1
  {
  }

  lemma SameShift(s: bv6, t: bv6)
    requires s as nat == t as nat
    ensures s == t
  {
  }

  lemma MaskIsOneBit(i: nat)
    requires i < WORD_BITS
    ensures OneBit(Mask(i))
  {
    hide Shifted, OneBit;
    ShiftedIsOneBit(ShiftBy(i));
  }

  function Or(w: Word, v: Word): Word { w | v }

  function And(w: Word, v: Word): Word { w & v }

  function AndNot(w: Word, v: Word): Word { w & !v }

  function Xor(w: Word, v: Word): Word { w ^ v }

  /** Word operations act on each bit. */
  lemma BitOr(w: Word, v: Word, i: nat)
    requires i < WORD_BITS
    ensures Bit(Or(w, v), i) <==> Bit(w, i) || Bit(v, i)
  {
    hide Mask, Test;
    TestOr(w, v, Mask(i));
  }

  lemma BitAnd(w: Word, v: Word, i: nat)
    requires i < WORD_BITS
    ensures Bit(And(w, v), i) <==> Bit(w, i) && Bit(v, i)
  {
    hide Mask, OneBit, Test;
    MaskIsOneBit(i);
    TestAnd(w, v, Mask(i));
  }

  lemma BitAndNot(w: Word, v: Word, i: nat)
    requires i < WORD_BITS
    ensures Bit(AndNot(w, v), i) <==> Bit(w, i) && !Bit(v, i)
  {
    hide Mask, OneBit, Test;
    MaskIsOneBit(i);
    TestAndNot(w, v, Mask(i));
  }

  lemma BitXor(w: Word, v: Word, i: nat)
    requires i < WORD_BITS
    ensures Bit(Xor(w, v), i) <==> Bit(w, i) != Bit(v, i)
  {
    hide Mask, OneBit, Test;
    MaskIsOneBit(i);
    TestXor(w, v, Mask(i));
  }

  lemma BitZero(i: nat)
    requires i < WORD_BITS
    ensures !Bit(0, i)
  {
    hide Mask;
  }

  lemma MaskBit(i: nat, j: nat)
    requires i < WORD_BITS && j < WORD_BITS
    ensures Bit(Mask(i), j) <==> i == j
  {
    hide Shifted, ShiftBy;
    ShiftedDisjoint(ShiftBy(i), ShiftBy(j));
    ShiftByRound(i);
    ShiftByRound(j);
  }

  lemma MaskDoubles(n: nat)
    requires n + 1 < WORD_BITS
    ensures Mask(n + 1) == Doubled(Mask(n))
  {
    hide Shifted, ShiftBy, Doubled;
    var s := ShiftBy(n);
    ShiftByRound(n);
    ShiftByRound(n + 1);
    NextShift(s);
    SameShift(s + 1, ShiftBy(n + 1));
    ShiftedDoubles(s);
  }

  lemma FirstMask()
    ensures Mask(0) == 1 && Mask(63) == 0x8000_0000_0000_0000
  {
  }

  lemma LowerBitsClear(w: Word, n: nat)
    requires 0 < n < WORD_BITS && !Test(w, Below(Mask(n - 1))) && !Bit(w, n - 1)
    ensures !Test(w, Below(Mask(n)))
  {
    hide Mask, OneBit, Test, Below, Doubled;
    MaskIsOneBit(n - 1);
    MaskDoubles(n - 1);
    ClearStep(w, Mask(n - 1));
  }

  lemma {:induction false} LowBitsClear(w: Word, n: nat)
    requires n < WORD_BITS && forall i: nat :: i < n ==> !Bit(w, i)
    ensures !Test(w, Below(Mask(n)))
  {
    hide Mask, OneBit, Test, Bit, Below;
    if n > 0 {
      LowBitsClear(w, n - 1);
      LowerBitsClear(w, n);
    } else {
      FirstMask();
      TestNothing(w);
    }
  }

  /** A word other than zero has a set bit. */
  lemma NonZeroHasBit(w: Word)
    ensures w != 0 <==> exists i: nat :: i < WORD_BITS && Bit(w, i)
  {
    hide Mask, OneBit, Test, Below;
    if forall i: nat :: i < WORD_BITS ==> !Bit(w, i) {
      LowBitsClear(w, 63);
      assert !Bit(w, 63);
      FirstMask();
      HalvesClear(w);
    } else {
      var i: nat :| i < WORD_BITS && Bit(w, i);
      BitZero(i);
    }
  }

  lemma XorIsZero(w: Word, v: Word)
    ensures Xor(w, v) == 0 <==> w == v
  {
    XorZero(w, v);
  }

  lemma OrIsZero(w: Word, v: Word)
    ensures Or(w, v) == 0 <==> w == 0 && v == 0
  {
    OrZero(w, v);
  }

  /** Words are determined by their bits. */
  lemma SameBitsSameWord(w: Word, v: Word)
    ensures w == v <==> forall i: nat :: i < WORD_BITS ==> (Bit(w, i) <==> Bit(v, i))
  {
    hide Bit, Xor;
    if w != v {
      XorIsZero(w, v);
      NonZeroHasBit(Xor(w, v));
      var i: nat :| i < WORD_BITS && Bit(Xor(w, v), i);
      BitXor(w, v, i);
    }
  }

  /** Every bit of v is a bit of w. */
  predicate Covers(w: Word, v: Word)
  {
    And(w, v) == v
  }

  lemma CoversMeaning(w: Word, v: Word)
    ensures Covers(w, v) <==> forall i: nat :: i < WORD_BITS && Bit(v, i) ==> Bit(w, i)
  {
    hide Bit, And;
    SameBitsSameWord(And(w, v), v);
    forall i: nat | i < WORD_BITS ensures Bit(And(w, v), i) <==> Bit(w, i) && Bit(v, i) {
      BitAnd(w, v, i);
    }
  }

  /** The position of the lowest set bit, from n upwards. */
  function LowestFrom(w: Word, n: nat): (r: nat)
    requires n < WORD_BITS && exists i: nat :: n <= i < WORD_BITS && Bit(w, i)
    ensures n <= r < WORD_BITS && Bit(w, r) && forall i: nat :: n <= i < r ==> !Bit(w, i)
    decreases WORD_BITS - n
  {
    if Bit(w, n) then n else LowestFrom(w, n + 1)
  }

  function TrailingZeros(w: Word): (r: nat)
    requires w != 0
    ensures r < WORD_BITS && Bit(w, r) && forall i: nat :: i < r ==> !Bit(w, i)
  {
    NonZeroHasBit(w);
    LowestFrom(w, 0)
  }

  /** The set positions of a word below n. */
  ghost function Positions(w: Word, n: nat): set<nat>
    requires n <= WORD_BITS
  {
    set i: nat | i < n && Bit(w, i)
  }

  function OnesBelow(w: Word, n: nat): nat
    requires n <= WORD_BITS
  {
    if n == 0 then 0 else OnesBelow(w, n - 1) + (if Bit(w, n - 1) then 1 else 0)
  }

  /** The number of ones is the number of set positions. */
  lemma {:induction false} OnesArePositions(w: Word, n: nat)
    requires n <= WORD_BITS
    ensures OnesBelow(w, n) == |Positions(w, n)|
  {
    hide Bit;
    if n > 0 {
      OnesArePositions(w, n - 1);
      assert Positions(w, n) == Positions(w, n - 1) + (if Bit(w, n - 1) then {n - 1} else {});
    } else {
      assert Positions(w, 0) == {};
    }
  }

  function CountOnes(w: Word): nat
  {
    OnesBelow(w, WORD_BITS)
  }
}
