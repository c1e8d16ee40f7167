/** Bit vectors (src/util/bit_vec.rs): sets of indices as 64-bit words, and the iterator over set bits. */
module BitVec {
  import opened Options
  import opened WordOps
  import opened Words

  const TWO_TO_THE_64: nat := 0x1_0000_0000_0000_0000

  // ----- vectors

  function NumWords(capacity: nat): nat
  {
    (capacity + WORD_BITS - 1) / WORD_BITS
  }

  predicate Has(words: seq<Word>, e: nat)
  {
    e / WORD_BITS < |words| && Bit(words[e / WORD_BITS], e % WORD_BITS)
  }

  /** The set that the words stand for. */
  ghost function ElemsOf(words: seq<Word>): (r: set<nat>)
    ensures forall e: nat :: e in r <==> Has(words, e)
  {
    set e: nat | e < |words| * WORD_BITS && Has(words, e)
  }

  /** Zip the words with those of another vector; words past the shorter one stay. */
  method Bitwise(outVec: seq<Word>, inVec: seq<Word>, op: (Word, Word) -> Word) returns (r: seq<Word>, hasChanged: bool)
    ensures |r| == |outVec|
    ensures forall i :: 0 <= i < |r| ==> r[i] == if i < |inVec| then op(outVec[i], inVec[i]) else outVec[i]
    ensures hasChanged <==> r != outVec
  {
    hide Or, Xor;
    r := outVec;
    var changed: Word := 0;
    var n := if |outVec| < |inVec| then |outVec| else |inVec|;
    for i := 0 to n
      invariant |r| == |outVec|
      invariant forall j :: 0 <= j < i ==> r[j] == op(outVec[j], inVec[j])
      invariant forall j :: i <= j < |r| ==> r[j] == outVec[j]
      invariant changed == 0 <==> r[..i] == outVec[..i]
    {
      var oldVal := r[i];
      var newVal := op(oldVal, inVec[i]);
      r := r[i := newVal];
      OneMoreChange(changed, oldVal, newVal);
      changed := Or(changed, Xor(oldVal, newVal));
      assert r[..i + 1] == r[..i] + [newVal] && outVec[..i + 1] == outVec[..i] + [oldVal];
    }
    assert r == r[..n] + r[n..] && outVec == outVec[..n] + outVec[n..] && r[n..] == outVec[n..];
    hasChanged := changed != 0;
  }

  lemma OneMoreChange(changed: Word, oldVal: Word, newVal: Word)
    ensures Or(changed, Xor(oldVal, newVal)) == 0 <==> changed == 0 && oldVal == newVal
  {
    hide Or, Xor;
    OrIsZero(changed, Xor(oldVal, newVal));
    XorIsZero(oldVal, newVal);
  }

  /** Vectors of the same length are determined by their sets. */
  lemma SameElemsSameWords(a: seq<Word>, b: seq<Word>)
    requires |a| == |b|
    ensures a == b <==> ElemsOf(a) == ElemsOf(b)
  {
    hide Bit, Mask, Or, And, AndNot;
    if ElemsOf(a) == ElemsOf(b) {
      forall i | 0 <= i < |a| ensures a[i] == b[i] {
        forall j: nat | j < WORD_BITS ensures Bit(a[i], j) <==> Bit(b[i], j) {
          var e := i * WORD_BITS + j;
          assert e / WORD_BITS == i && e % WORD_BITS == j;
          assert Has(a, e) <==> e in ElemsOf(a);
          assert Has(b, e) <==> e in ElemsOf(b);
        }
        SameBitsSameWord(a[i], b[i]);
      }
    }
  }

  class BitVec {
    var words: seq<Word>

    ghost function Elems(): set<nat>
      reads this
    {
      ElemsOf(words)
    }

    constructor NewEmpty()
      ensures words == [] && Elems() == {}
    {
      words := [];
    }

    method Ensure(capacity: nat)
      modifies this
      ensures |words| >= NumWords(capacity) && |words| >= old(|words|) && Elems() == old(Elems())
      ensures |words| == old(|words|) || |words| == NumWords(capacity)
    {
      hide Bit, Mask, Or, And, AndNot;
      var n := NumWords(capacity);
      if |words| < n {
        ghost var before := words;
        words := words + seq(n - |words|, _ => 0);
        forall e: nat ensures Has(words, e) <==> Has(before, e) {
          BitZero(e % WORD_BITS);
        }
      }
    }

    method Clear()
      modifies this
      ensures Elems() == {} && |words| == old(|words|)
    {
      hide Bit, Mask, Or, And, AndNot;
      words := seq(|words|, _ => 0);
      forall e: nat ensures !Has(words, e) {
        BitZero(e % WORD_BITS);
      }
    }

    method Contains(e: nat) returns (r: bool)
      ensures r <==> e in Elems()
    {
      if |words| * WORD_BITS <= e {
        return false;
      }
      r := Test(words[e / WORD_BITS], Mask(e % WORD_BITS));
    }

    method IsEmpty() returns (r: bool)
      ensures r <==> Elems() == {}
    {
      hide Bit, Mask, Or, And, AndNot;
      for i := 0 to |words|
        invariant forall j :: 0 <= j < i ==> words[j] == 0
      {
        if words[i] != 0 {
          NonZeroHasBit(words[i]);
          ghost var b: nat :| b < WORD_BITS && Bit(words[i], b);
          assert (i * WORD_BITS + b) / WORD_BITS == i && (i * WORD_BITS + b) % WORD_BITS == b;
          assert Has(words, i * WORD_BITS + b);
          return false;
        }
      }
      forall e: nat ensures !Has(words, e) {
        BitZero(e % WORD_BITS);
      }
      return true;
    }

    method Insert(e: nat) returns (changed: bool)
      modifies this
      ensures Elems() == old(Elems()) + {e}
      ensures changed <==> e !in old(Elems())
      ensures |words| == old(|words|) || |words| == NumWords(e + 1)
    {
      hide Bit, Mask, Or, And, AndNot;
      Ensure(e + 1);
      var i, mask := e / WORD_BITS, Mask(e % WORD_BITS);
      ghost var before := words;
      var word := words[i];
      var newWord := Or(word, mask);
      words := words[i := newWord];
      changed := newWord != word;
      forall f: nat ensures Has(words, f) <==> Has(before, f) || f == e {
        BitOr(word, mask, f % WORD_BITS);
        MaskBit(e % WORD_BITS, f % WORD_BITS);
      }
      SameElemsSameWords(before, words);
      assert before == words <==> word == newWord;
    }

    method Remove(e: nat) returns (changed: bool)
      modifies this
      ensures Elems() == old(Elems()) - {e} && |words| == old(|words|)
      ensures changed <==> e in old(Elems())
    {
      hide Bit, Mask, Or, And, AndNot;
      if |words| * WORD_BITS <= e {
        return false;
      }
      var i, mask := e / WORD_BITS, Mask(e % WORD_BITS);
      ghost var before := words;
      var word := words[i];
      var newWord := AndNot(word, mask);
      words := words[i := newWord];
      changed := newWord != word;
      forall f: nat ensures Has(words, f) <==> Has(before, f) && f != e {
        BitAndNot(word, mask, f % WORD_BITS);
        MaskBit(e % WORD_BITS, f % WORD_BITS);
      }
      SameElemsSameWords(before, words);
      assert before == words <==> word == newWord;
    }

    method Union(other: BitVec) returns (changed: bool)
      requires this != other
      modifies this
      ensures Elems() == old(Elems()) + other.Elems()
      ensures changed <==> Elems() != old(Elems())
      ensures |words| == if old(|words|) < |other.words| then |other.words| else old(|words|)
    {
      hide Bit, Mask, Or, And, AndNot;
      Ensure(|other.words| * WORD_BITS);
      ghost var before := words;
      words, changed := Bitwise(words, other.words, Or);
      forall e: nat ensures Has(words, e) <==> Has(before, e) || Has(other.words, e) {
        if e / WORD_BITS < |other.words| {
          BitOr(before[e / WORD_BITS], other.words[e / WORD_BITS], e % WORD_BITS);
        }
      }
      SameElemsSameWords(before, words);
    }

    method Subtract(other: BitVec) returns (changed: bool)
      modifies this
      ensures Elems() == old(Elems()) - old(other.Elems()) && |words| == old(|words|)
      ensures changed <==> Elems() != old(Elems())
    {
      hide Bit, Mask, Or, And, AndNot;
      ghost var before, theirs := words, other.words;
      words, changed := Bitwise(words, other.words, AndNot);
      forall e: nat ensures Has(words, e) <==> Has(before, e) && !Has(theirs, e) {
        if e / WORD_BITS < |theirs| && e / WORD_BITS < |before| {
          BitAndNot(before[e / WORD_BITS], theirs[e / WORD_BITS], e % WORD_BITS);
        }
      }
      SameElemsSameWords(before, words);
    }

    /** Elements past the other vector's words are left in place. */
    method Intersect(other: BitVec) returns (changed: bool)
      modifies this
      ensures forall e: nat :: e in Elems() <==>
        e in old(Elems()) && (e in old(other.Elems()) || e >= old(|other.words|) * WORD_BITS)
      ensures Elems() == old(Elems()) * old(other.Elems()) <==>
        forall e: nat :: e in old(Elems()) ==> e < old(|other.words|) * WORD_BITS
      ensures changed <==> Elems() != old(Elems())
      ensures |words| == old(|words|)
    {
      hide Bit, Mask, Or, And, AndNot;
      ghost var before, theirs := words, other.words;
      words, changed := Bitwise(words, other.words, And);
      forall e: nat ensures Has(words, e) <==> Has(before, e) && (Has(theirs, e) || e >= |theirs| * WORD_BITS) {
        if e / WORD_BITS < |theirs| && e / WORD_BITS < |before| {
          BitAnd(before[e / WORD_BITS], theirs[e / WORD_BITS], e % WORD_BITS);
        }
      }
      SameElemsSameWords(before, words);
      IntersectIsExact(before, theirs, Elems());
    }

    method Superset(other: BitVec) returns (r: bool)
      ensures r <==> other.Elems() <= Elems()
    {
      hide Bit, Mask, Covers, And;
      var n := |other.words|;
      var tmp := if |words| < n then words + seq(n - |words|, _ => 0) else words[..n];
      ResizedHas(words, n, tmp);
      for i := 0 to n
        invariant forall j :: 0 <= j < i ==> Covers(tmp[j], other.words[j])
      {
        CoversMeaning(tmp[i], other.words[i]);
        if !Covers(tmp[i], other.words[i]) {
          ghost var b: nat :| b < WORD_BITS && Bit(other.words[i], b) && !Bit(tmp[i], b);
          assert (i * WORD_BITS + b) / WORD_BITS == i && (i * WORD_BITS + b) % WORD_BITS == b;
          assert Has(other.words, i * WORD_BITS + b) && !Has(tmp, i * WORD_BITS + b);
          return false;
        }
      }
      forall e: nat | Has(other.words, e) ensures Has(words, e) {
        CoversMeaning(tmp[e / WORD_BITS], other.words[e / WORD_BITS]);
        assert Has(tmp, e);
      }
      return true;
    }

    method Count() returns (n: nat)
      ensures n == |Elems()|
    {
      n := 0;
      assert ElemsOf(words[..0]) == {};
      for i := 0 to |words|
        invariant n == |ElemsOf(words[..i])|
      {
        CountOneMore(words, i);
        n := n + CountOnes(words[i]);
      }
      assert words[..|words|] == words;
    }
  }

  /** Intersecting two vectors gives the intersection exactly when the first has no element past the words of
      the second. */
  lemma IntersectIsExact(before: seq<Word>, theirs: seq<Word>, after: set<nat>)
    requires forall e: nat :: e in after <==> Has(before, e) && (Has(theirs, e) || e >= |theirs| * WORD_BITS)
    ensures after == ElemsOf(before) * ElemsOf(theirs) <==>
      forall e: nat :: Has(before, e) ==> e < |theirs| * WORD_BITS
  {
  }

  /** A wrong intersection: {64} intersected with {0} keeps 64, whose word the other vector does not have. */
  method IntersectMayKeepElement() returns (a: BitVec, b: BitVec, changed: bool)
    ensures fresh(a) && fresh(b) && a.Elems() == {64} && b.Elems() == {0} && !changed
  {
    hide ElemsOf, Has;
    a := new BitVec.NewEmpty();
    var _ := a.Insert(64);
    b := new BitVec.NewEmpty();
    var _ := b.Insert(0);
    changed := a.Intersect(b);
    assert 64 in a.Elems();
  }

  /** Widening with zeros or cutting keeps what lies below the new length. */
  lemma ResizedHas(words: seq<Word>, n: nat, tmp: seq<Word>)
    requires tmp == if |words| < n then words + seq(n - |words|, _ => 0) else words[..n]
    ensures forall e: nat :: e < n * WORD_BITS ==> (Has(tmp, e) <==> Has(words, e))
  {
  }

  lemma CountOneMore(words: seq<Word>, i: nat)
    requires i < |words|
    ensures |ElemsOf(words[..i + 1])| == |ElemsOf(words[..i])| + CountOnes(words[i])
  {
    hide Bit, Mask, Or, And, AndNot;
    OnesArePositions(words[i], WORD_BITS);
    var here := set b | b in Positions(words[i], WORD_BITS) :: i * WORD_BITS + b;
    ShiftKeepsSize(Positions(words[i], WORD_BITS), i * WORD_BITS, here);
    forall e: nat ensures e in ElemsOf(words[..i + 1]) <==> e in ElemsOf(words[..i]) || e in here {
      if e / WORD_BITS == i {
        assert e == i * WORD_BITS + e % WORD_BITS;
        assert e in here <==> e % WORD_BITS in Positions(words[i], WORD_BITS);
      }
    }
    assert ElemsOf(words[..i + 1]) == ElemsOf(words[..i]) + here;
    assert ElemsOf(words[..i]) !! here;
  }

  lemma {:induction false} ShiftKeepsSize(s: set<nat>, k: nat, t: set<nat>)
    requires t == set b | b in s :: k + b
    ensures |t| == |s|
    decreases s
  {
    if s != {} {
      var b :| b in s;
      var s', t' := s - {b}, t - {k + b};
      forall e ensures e in t' <==> e in set c | c in s' :: k + c {
        if e in t' {
          var c :| c in s && e == k + c;
          assert c in s';
        }
      }
      ShiftKeepsSize(s', k, t');
      assert k + b in t;
    }
  }

  // ----- the iterator

  /** The elements of the words from the given one on. */
  ghost predicate From(words: seq<Word>, start: nat, e: nat)
  {
    start <= e / WORD_BITS && Has(words, e)
  }

  class BitIter {
    /** The current word without the bits already yielded, and the index of its lowest bit. Before the first
        word the offset is so large that advancing it wraps around to zero. */
    var word: Word
    var offset: nat
    const words: seq<Word>
    /** The number of words taken from the underlying iterator. */
    var next: nat

    ghost predicate Valid()
      reads this
    {
      && next <= |words| && |words| * WORD_BITS <= TWO_TO_THE_64
      && (if next == 0 then word == 0 && offset == TWO_TO_THE_64 - WORD_BITS else offset == (next - 1) * WORD_BITS)
    }

    /** What has not been yielded yet: the bits left in the current word, and the later words. */
    ghost predicate Left(e: nat)
      requires Valid()
      reads this
    {
      From(words, next, e) || (next > 0 && e / WORD_BITS == next - 1 && Bit(word, e % WORD_BITS))
    }

    ghost function Remaining(): (r: set<nat>)
      requires Valid()
      reads this
      ensures forall e: nat :: e in r <==> Left(e)
    {
      set e: nat | e < |words| * WORD_BITS && Left(e)
    }

    constructor (words: seq<Word>)
      requires |words| * WORD_BITS <= TWO_TO_THE_64
      ensures Valid() && this.words == words && Remaining() == ElemsOf(words)
    {
      word, offset, this.words, next := 0, TWO_TO_THE_64 - WORD_BITS, words, 0;
      new;
      assert forall e: nat :: Left(e) <==> Has(words, e);
    }

    /** Yields the least element left, or nothing when none is left. */
    method Next() returns (r: Option<nat>)
      requires Valid()
      modifies this
      ensures Valid()
      ensures r.None? <==> old(Remaining()) == {}
      ensures r.None? ==> Remaining() == {}
      ensures r.Some? ==> r.value in old(Remaining()) && forall e :: e in old(Remaining()) ==> r.value <= e
      ensures r.Some? ==> Remaining() == old(Remaining()) - {r.value}
    {
      hide Bit, Mask;
      while true
        invariant Valid()
        invariant forall e: nat :: Left(e) <==> old(Left(e))
        decreases |words| - next
      {
        if word != 0 {
          var bitPos := TrailingZeros(word);
          LowestIsLeast(bitPos);
          ghost var before := word;
          word := Xor(word, Mask(bitPos));
          forall e: nat ensures Left(e) <==> old(Left(e)) && e != bitPos + offset {
            BitXor(before, Mask(bitPos), e % WORD_BITS);
            MaskBit(bitPos, e % WORD_BITS);
          }
          assert bitPos + offset in old(Remaining());
          return Some(bitPos + offset);
        }
        ZeroHasNoBits();
        if next == |words| {
          assert forall e: nat :: !Left(e);
          return None;
        }
        NextWord();
      }
    }

    lemma LowestIsLeast(bitPos: nat)
      requires Valid() && bitPos < WORD_BITS && word != 0 && next > 0 && Bit(word, bitPos)
      requires forall i: nat :: i < bitPos ==> !Bit(word, i)
      ensures (bitPos + offset) / WORD_BITS == next - 1 && (bitPos + offset) % WORD_BITS == bitPos
      ensures Left(bitPos + offset) && forall e: nat :: Left(e) ==> bitPos + offset <= e
    {
    }

    lemma ZeroHasNoBits()
      requires Valid()
      ensures word == 0 ==> forall i: nat :: i < WORD_BITS ==> !Bit(word, i)
    {
    }

    /** Moves onto the next word. The addition wraps around at the first one. */
    method NextWord()
      requires Valid() && word == 0 && next < |words|
      modifies this
      ensures Valid() && next == old(next) + 1
      ensures forall e: nat :: Left(e) <==> old(Left(e))
    {
      hide Bit;
      ZeroHasNoBits();
      ghost var was := next;
      word := words[next];
      offset := (offset + WORD_BITS) % TWO_TO_THE_64;
      next := next + 1;
      forall e: nat ensures Left(e) <==> old(Left(e)) {
        assert Left(e) <==> From(words, was, e);
      }
    }
  }

  /** r lists the elements of all outside left, in ascending order, each below everything left. */
  ghost predicate Collected(r: seq<nat>, all: set<nat>, left: set<nat>)
  {
    && left <= all && |r| == |all - left|
    && (forall e :: e in r <==> e in all - left)
    && (forall i, j :: 0 <= i < j < |r| ==> r[i] < r[j])
    && (forall e, f :: e in r && f in left ==> e < f)
  }

  lemma CollectStep(r: seq<nat>, all: set<nat>, left: set<nat>, e: nat)
    requires Collected(r, all, left) && e in left && forall f :: f in left ==> e <= f
    ensures Collected(r + [e], all, left - {e})
  {
    var r' := r + [e];
    assert all - (left - {e}) == (all - left) + {e};
    assert forall f :: f in r' <==> f in r || f == e;
    forall i, j | 0 <= i < j < |r'| ensures r'[i] < r'[j] {
      assert r'[i] == r[i] && r[i] in r;
    }
  }

  /** Iterating to the end yields exactly the elements, each once, in ascending order, as many as `Count`
      says. */
  method ToSeq(bits: BitVec) returns (r: seq<nat>)
    requires |bits.words| * WORD_BITS <= TWO_TO_THE_64
    ensures Collected(r, bits.Elems(), {})
    ensures (forall e: nat :: e in r <==> e in bits.Elems()) && |r| == |bits.Elems()|
  {
    hide ElemsOf, Has, Bit, From, BitIter.Left, BitIter.Remaining, BitIter.Valid, Collected;
    r := [];
    var iter := new BitIter(bits.words);
    ghost var all := bits.Elems();
    NothingCollected(all);
    while true
      invariant fresh(iter) && iter.Valid() && Collected(r, all, iter.Remaining())
      decreases iter.Remaining()
    {
      ghost var left := iter.Remaining();
      var e := iter.Next();
      if e.None? {
        break;
      }
      CollectStep(r, all, left, e.value);
      r := r + [e.value];
    }
    AllCollected(r, all);
  }

  lemma NothingCollected(all: set<nat>)
    ensures Collected([], all, all)
  {
  }

  lemma AllCollected(r: seq<nat>, all: set<nat>)
    requires Collected(r, all, {})
    ensures (forall e: nat :: e in r <==> e in all) && |r| == |all|
  {
  }
}
