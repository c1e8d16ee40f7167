/** Facts about 64-bit words alone (src/util/bit_vec.rs). They are kept apart from conversions between words
    and integers, with which the verifier reasons badly. */
module WordOps {

  type Word = bv64

  function Shifted(s: bv6): Word
  {
    1 << s
  }

  predicate Test(w: Word, m: Word)
  {
    w & m != 0
  }

  predicate OneBit(m: Word)
  {
    m != 0 && m & (m - 1) == 0
  }

  function Doubled(m: Word): Word
  {
    m + m
  }

  /** All positions below that of a one-bit word. */
  function Below(m: Word): Word
  {
    m - 1
  }

  lemma ShiftedDisjoint(s: bv6, t: bv6)
    ensures Shifted(s) & Shifted(t) != 0 <==> s == t
  {
  }

  lemma ShiftedDoubles(s: bv6)
    requires s < 63
    ensures Shifted(s + 1) == Doubled(Shifted(s))
  {
  }

  lemma ShiftedIsOneBit(s: bv6)
    ensures OneBit(Shifted(s))
  {
  }

  // ----- masking distributes over the word operations

  lemma OrMeet(w: Word, v: Word, m: Word)
    ensures (w | v) & m == (w & m) | (v & m)
  {
  }

  lemma AndMeet(w: Word, v: Word, m: Word)
    ensures (w & v) & m == (w & m) & (v & m)
  {
  }

  lemma AndNotMeet(w: Word, v: Word, m: Word)
    ensures (w & !v) & m == (w & m) & !(v & m)
  {
  }

  lemma XorMeet(w: Word, v: Word, m: Word)
    ensures (w ^ v) & m == (w & m) ^ (v & m)
  {
  }

  lemma OneBitMeet(w: Word, m: Word)
    requires OneBit(m)
    ensures w & m == 0 || w & m == m
  {
  }

  lemma OrZero(w: Word, v: Word)
    ensures w | v == 0 <==> w == 0 && v == 0
  {
  }

  lemma XorZero(w: Word, v: Word)
    ensures w ^ v == 0 <==> w == v
  {
  }

  /** The word operations on zero and one word. */
  lemma Units(m: Word)
    ensures m & m == m && m & 0 == 0 && 0 & m == 0 && (0 as Word) & 0 == 0
    ensures m & !m == 0 && m & !0 == m && 0 & !m == 0 && (0 as Word) & !0 == 0
    ensures m ^ m == 0 && m ^ 0 == m && 0 ^ m == m && (0 as Word) ^ 0 == 0
  {
  }

  // ----- testing a bit

  lemma TestOr(w: Word, v: Word, m: Word)
    ensures Test(w | v, m) <==> Test(w, m) || Test(v, m)
  {
    OrMeet(w, v, m);
    OrZero(w & m, v & m);
  }

  lemma TestAnd(w: Word, v: Word, m: Word)
    requires OneBit(m)
    ensures Test(w & v, m) <==> Test(w, m) && Test(v, m)
  {
    AndMeet(w, v, m);
    OneBitMeet(w, m);
    OneBitMeet(v, m);
    Units(m);
  }

  lemma TestAndNot(w: Word, v: Word, m: Word)
    requires OneBit(m)
    ensures Test(w & !v, m) <==> Test(w, m) && !Test(v, m)
  {
    AndNotMeet(w, v, m);
    OneBitMeet(w, m);
    OneBitMeet(v, m);
    Units(m);
  }

  lemma TestXor(w: Word, v: Word, m: Word)
    requires OneBit(m)
    ensures Test(w ^ v, m) <==> Test(w, m) != Test(v, m)
  {
    XorMeet(w, v, m);
    OneBitMeet(w, m);
    OneBitMeet(v, m);
    Units(m);
  }

  // ----- clear words

  lemma ClearStep(w: Word, m: Word)
    requires OneBit(m) && !Test(w, Below(m)) && !Test(w, m)
    ensures !Test(w, Below(Doubled(m)))
  {
  }

  lemma TestNothing(w: Word)
    ensures !Test(w, Below(1))
  {
  }

  lemma HalvesClear(w: Word)
    requires !Test(w, Below(0x8000_0000_0000_0000)) && !Test(w, 0x8000_0000_0000_0000)
    ensures w == 0
  {
  }
}
