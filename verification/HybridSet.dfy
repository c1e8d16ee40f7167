/** Points-to sets (src/pts_set/points_to.rs): a list for up to 32 elements, a bit vector for more. */
module HybridSet {
  import opened Counting
  import opened Words
  import opened BitVec

  const SMALL_SET_CAPACITY: nat := 32

  datatype Repr = SmallSet(elems: seq<nat>) | LargeSet(bits: BitVec)

  /** An index whose word position can be computed without overflow. */
  predicate IsIndex(e: nat)
  {
    e + WORD_BITS < TWO_TO_THE_64
  }

  ghost predicate Distinct(s: seq<nat>)
  {
    forall i, j :: 0 <= i < j < |s| ==> s[i] != s[j]
  }

  ghost function SetOf(s: seq<nat>): (r: set<nat>)
    ensures forall e :: e in r <==> e in s
  {
    set e | e in s
  }

  lemma {:induction false} DistinctSize(s: seq<nat>)
    requires Distinct(s)
    ensures |SetOf(s)| == |s|
  {
    if s != [] {
      var last := |s| - 1;
      DistinctSize(s[..last]);
      assert SetOf(s) == SetOf(s[..last]) + {s[last]};
    } else {
      assert SetOf(s) == {};
    }
  }

  class HybridSet {
    var repr: Repr

    ghost function Foot(): set<object>
      reads this
    {
      if repr.LargeSet? then {repr.bits} else {}
    }

    /** A small set is a list without repetition, of at most 32 elements. */
    ghost predicate Valid()
      reads this, Foot()
    {
      match repr
      case SmallSet(elems) =>
        |elems| <= SMALL_SET_CAPACITY && Distinct(elems) && forall e :: e in elems ==> IsIndex(e)
      case LargeSet(bits) =>
        |bits.words| * WORD_BITS <= TWO_TO_THE_64
    }

    ghost function Elems(): set<nat>
      reads this, Foot()
    {
      match repr
      case SmallSet(elems) => SetOf(elems)
      case LargeSet(bits) => bits.Elems()
    }

    constructor ()
      ensures Valid() && Elems() == {} && Foot() == {}
    {
      repr := SmallSet([]);
    }

    method Clear()
      requires Valid()
      modifies this
      ensures Valid() && Elems() == {} && Foot() == {}
    {
      repr := SmallSet([]);
    }

    method Count() returns (n: nat)
      requires Valid()
      ensures n == |Elems()|
    {
      match repr
      case SmallSet(elems) =>
        DistinctSize(elems);
        n := |elems|;
      case LargeSet(bits) =>
        n := bits.Count();
    }

    method Contains(e: nat) returns (r: bool)
      requires Valid()
      ensures r <==> e in Elems()
    {
      match repr
      case SmallSet(elems) => r := e in elems;
      case LargeSet(bits) => r := bits.Contains(e);
    }

    method IsEmpty() returns (r: bool)
      requires Valid()
      ensures r <==> Elems() == {}
    {
      match repr
      case SmallSet(elems) =>
        assert elems != [] ==> elems[0] in SetOf(elems);
        r := elems == [];
      case LargeSet(bits) => r := bits.IsEmpty();
    }

    /** The elements in iteration order. */
    method Iter() returns (r: seq<nat>)
      requires Valid()
      ensures SetOf(r) == Elems() && |r| == |Elems()|
    {
      match repr
      case SmallSet(elems) =>
        DistinctSize(elems);
        r := elems;
      case LargeSet(bits) =>
        r := ToSeq(bits);
    }

    method Superset(other: HybridSet) returns (r: bool)
      requires Valid() && other.Valid()
      ensures r <==> other.Elems() <= Elems()
    {
      if repr.LargeSet? && other.repr.LargeSet? {
        r := repr.bits.Superset(other.repr.bits);
      } else {
        var elems := other.Iter();
        r := true;
        for i := 0 to |elems|
          invariant r <==> SetOf(elems[..i]) <= Elems()
        {
          assert elems[..i + 1] == elems[..i] + [elems[i]];
          assert SetOf(elems[..i + 1]) == SetOf(elems[..i]) + {elems[i]};
          var found := Contains(elems[i]);
          r := r && found;
        }
        assert elems[..|elems|] == elems;
      }
    }

    /** A bit vector with the elements of a list. */
    static method ToLarge(elems: seq<nat>) returns (large: BitVec)
      requires forall e :: e in elems ==> IsIndex(e)
      ensures fresh(large) && large.Elems() == SetOf(elems) && |large.words| * WORD_BITS <= TWO_TO_THE_64
    {
      hide ElemsOf;
      large := new BitVec.NewEmpty();
      assert SetOf(elems[..0]) == {};
      for i := 0 to |elems|
        invariant fresh(large) && large.Elems() == SetOf(elems[..i]) && |large.words| * WORD_BITS <= TWO_TO_THE_64
      {
        assert SetOf(elems[..i + 1]) == SetOf(elems[..i]) + {elems[i]};
        IndexFits(elems[i]);
        var changed := large.Insert(elems[i]);
      }
      assert elems[..|elems|] == elems;
    }

    lemma SmallSize()
      requires Valid()
      ensures repr.SmallSet? ==> |repr.elems| == |Elems()|
    {
      if repr.SmallSet? {
        DistinctSize(repr.elems);
      }
    }

    /** True exactly when the element is new. A full small set becomes a large set. */
    method Insert(e: nat) returns (changed: bool)
      requires Valid() && IsIndex(e)
      modifies this, Foot()
      ensures Valid() && fresh(Foot() - old(Foot()))
      ensures Elems() == old(Elems()) + {e}
      ensures changed <==> e !in old(Elems())
      ensures repr.LargeSet? <==> old(repr.LargeSet?) || (changed && |old(repr).elems| == SMALL_SET_CAPACITY)
    {
      hide ElemsOf;
      IndexFits(e);
      match repr
      case SmallSet(small) =>
        if e in small {
          changed := false;
        } else if |small| < SMALL_SET_CAPACITY {
          repr := SmallSet(small + [e]);
          changed := true;
        } else {
          var large := ToLarge(small);
          changed := large.Insert(e);
          repr := LargeSet(large);
        }
      case LargeSet(large) =>
        changed := large.Insert(e);
    }

    method Remove(e: nat) returns (changed: bool)
      requires Valid()
      modifies this, Foot()
      ensures Valid() && Foot() == old(Foot())
      ensures Elems() == old(Elems()) - {e}
      ensures changed <==> e in old(Elems())
      ensures repr.LargeSet? == old(repr.LargeSet?)
    {
      hide ElemsOf;
      match repr
      case SmallSet(small) =>
        var pos := 0;
        while pos < |small| && small[pos] != e
          invariant pos <= |small| && forall i :: 0 <= i < pos ==> small[i] != e
        {
          pos := pos + 1;
        }
        changed := pos < |small|;
        if changed {
          SwapRemoveMeaning(small, pos);
          repr := SmallSet(SwapRemove(small, pos));
        }
      case LargeSet(large) =>
        changed := large.Remove(e);
    }

    /** Adds the elements of another set; the set may outgrow the list on the way. */
    method Union(other: HybridSet) returns (changed: bool)
      requires Valid() && other.Valid() && this != other && Foot() !! other.Foot()
      modifies this, Foot()
      ensures Valid() && fresh(Foot() - old(Foot()))
      ensures Elems() == old(Elems()) + old(other.Elems())
      ensures changed <==> Elems() != old(Elems())
    {
      hide ElemsOf;
      match other.repr
      case LargeSet(otherLarge) =>
        if repr.SmallSet? {
          var selfLarge := ToLarge(repr.elems);
          changed := selfLarge.Union(otherLarge);
          repr := LargeSet(selfLarge);
        } else {
          changed := repr.bits.Union(otherLarge);
        }
      case SmallSet(otherSmall) =>
        changed := false;
        assert SetOf(otherSmall[..0]) == {};
        for i := 0 to |otherSmall|
          invariant Valid() && fresh(Foot() - old(Foot())) && other.repr == SmallSet(otherSmall)
          invariant Elems() == old(Elems()) + SetOf(otherSmall[..i])
          invariant changed <==> Elems() != old(Elems())
        {
          assert SetOf(otherSmall[..i + 1]) == SetOf(otherSmall[..i]) + {otherSmall[i]};
          assert otherSmall[i] in otherSmall;
          ghost var before := Elems();
          var isNew := Insert(otherSmall[i]);
          GrowsOrNot(old(Elems()), before, Elems(), otherSmall[i]);
          changed := changed || isNew;
        }
        assert otherSmall[..|otherSmall|] == otherSmall;
    }

    /** Keeps the elements of a list whose presence in `other` is as wanted, in order. */
    static method Retain(elems: seq<nat>, other: HybridSet, wanted: bool) returns (r: seq<nat>, changed: bool)
      requires other.Valid() && Distinct(elems)
      ensures Distinct(r) && |r| <= |elems| && forall e :: e in r <==> e in elems && (e in other.Elems()) == wanted
      ensures changed <==> exists e :: e in elems && (e in other.Elems()) != wanted
    {
      hide ElemsOf, RetainedSoFar;
      r, changed := [], false;
      NothingRetained(elems, other.Elems(), wanted);
      for i := 0 to |elems|
        invariant RetainedSoFar(r, elems, i, other.Elems(), wanted, changed)
      {
        var found := other.Contains(elems[i]);
        RetainStep(r, elems, i, other.Elems(), wanted, changed);
        if found == wanted {
          r := r + [elems[i]];
        } else {
          changed := true;
        }
      }
      AllRetained(r, elems, other.Elems(), wanted, changed);
    }

    method Subtract(other: HybridSet) returns (changed: bool)
      requires Valid() && other.Valid() && this != other && Foot() !! other.Foot()
      modifies this, Foot()
      ensures Valid() && Foot() == old(Foot())
      ensures Elems() == old(Elems()) - old(other.Elems())
      ensures changed <==> Elems() != old(Elems())
    {
      hide ElemsOf;
      match repr
      case SmallSet(small) =>
        var kept;
        kept, changed := Retain(small, other, false);
        repr := SmallSet(kept);
      case LargeSet(large) =>
        if other.repr.LargeSet? {
          changed := large.Subtract(other.repr.bits);
        } else {
          var otherSmall := other.repr.elems;
          changed := false;
          assert SetOf(otherSmall[..0]) == {};
          for i := 0 to |otherSmall|
            invariant repr == LargeSet(large) && other.repr == SmallSet(otherSmall) && |large.words| == old(|large.words|)
            invariant large.Elems() == old(large.Elems()) - SetOf(otherSmall[..i])
            invariant changed <==> large.Elems() != old(large.Elems())
          {
            assert SetOf(otherSmall[..i + 1]) == SetOf(otherSmall[..i]) + {otherSmall[i]};
            ghost var before := large.Elems();
            var gone := large.Remove(otherSmall[i]);
            ShrinksOrNot(old(large.Elems()), before, large.Elems(), otherSmall[i]);
            changed := changed || gone;
          }
          assert otherSmall[..|otherSmall|] == otherSmall;
        }
    }

    /** The elements past the words of the other set, when both are large: they stay. */
    ghost predicate Overhang(other: HybridSet, e: nat)
      reads this, other, other.Foot()
    {
      repr.LargeSet? && other.repr.LargeSet? && e >= |other.repr.bits.words| * WORD_BITS
    }

    /** The intersection, except that elements past the other set's words stay when both are large. The flag
        tells whether the set has changed, except that for a large set and a small one it tells whether the
        other set has an element that this one does not have. Both are right exactly under the stated
        conditions. */
    method Intersect(other: HybridSet) returns (changed: bool)
      requires Valid() && other.Valid() && this != other && Foot() !! other.Foot()
      modifies this, Foot()
      ensures Valid() && fresh(Foot() - old(Foot()))
      ensures forall e :: e in Elems() <==> e in old(Elems()) && (e in old(other.Elems()) || old(Overhang(other, e)))
      ensures Elems() == old(Elems()) * old(other.Elems()) <==> forall e :: e in old(Elems()) ==> !old(Overhang(other, e))
      ensures changed <==> if old(repr.LargeSet? && other.repr.SmallSet?) then !(old(other.Elems()) <= old(Elems()))
        else Elems() != old(Elems())
      ensures (changed <==> Elems() != old(Elems())) <==>
        (old(repr.LargeSet? && other.repr.SmallSet?) ==>
          (old(other.Elems()) <= old(Elems()) <==> old(Elems()) <= old(other.Elems())))
    {
      hide ElemsOf;
      FlagRightExactly(Elems(), other.Elems());
      match repr
      case SmallSet(small) =>
        var kept;
        kept, changed := Retain(small, other, true);
        repr := SmallSet(kept);
      case LargeSet(large) =>
        if other.repr.LargeSet? {
          changed := large.Intersect(other.repr.bits);
        } else {
          var kept;
          kept, changed := Retain(other.repr.elems, this, true);
          repr := SmallSet(kept);
        }
    }
  }

  ghost predicate RetainedSoFar(r: seq<nat>, elems: seq<nat>, i: nat, s: set<nat>, wanted: bool, changed: bool)
    requires i <= |elems|
  {
    && Distinct(r) && |r| <= i
    && (forall e :: e in r <==> e in elems[..i] && (e in s) == wanted)
    && (changed <==> exists e :: e in elems[..i] && (e in s) != wanted)
  }

  lemma NothingRetained(elems: seq<nat>, s: set<nat>, wanted: bool)
    ensures RetainedSoFar([], elems, 0, s, wanted, false)
  {
  }

  lemma RetainStep(r: seq<nat>, elems: seq<nat>, i: nat, s: set<nat>, wanted: bool, changed: bool)
    requires i < |elems| && Distinct(elems) && RetainedSoFar(r, elems, i, s, wanted, changed)
    ensures if (elems[i] in s) == wanted then RetainedSoFar(r + [elems[i]], elems, i + 1, s, wanted, changed)
      else RetainedSoFar(r, elems, i + 1, s, wanted, true)
  {
  }

  lemma AllRetained(r: seq<nat>, elems: seq<nat>, s: set<nat>, wanted: bool, changed: bool)
    requires RetainedSoFar(r, elems, |elems|, s, wanted, changed)
    ensures Distinct(r) && |r| <= |elems| && forall e :: e in r <==> e in elems && (e in s) == wanted
    ensures changed <==> exists e :: e in elems && (e in s) != wanted
  {
  }

  lemma IndexFits(e: nat)
    requires IsIndex(e)
    ensures NumWords(e + 1) * WORD_BITS <= TWO_TO_THE_64
  {
  }

  lemma GrowsOrNot(first: set<nat>, before: set<nat>, after: set<nat>, e: nat)
    requires first <= before && after == before + {e}
    ensures after != first <==> before != first || e !in before
  {
  }

  lemma ShrinksOrNot(first: set<nat>, before: set<nat>, after: set<nat>, e: nat)
    requires before <= first && after == before - {e}
    ensures after != first <==> before != first || e in before
  {
  }

  /** The last element takes the place of the removed one. */
  function SwapRemove(s: seq<nat>, pos: nat): seq<nat>
    requires pos < |s|
  {
    s[pos := s[|s| - 1]][..|s| - 1]
  }

  lemma SwapRemoveMeaning(s: seq<nat>, pos: nat)
    requires pos < |s| && Distinct(s)
    ensures Distinct(SwapRemove(s, pos)) && SetOf(SwapRemove(s, pos)) == SetOf(s) - {s[pos]}
  {
    var r := SwapRemove(s, pos);
    forall e ensures e in r <==> e in s && e != s[pos] {
      if e in s && e != s[pos] {
        var i :| 0 <= i < |s| && s[i] == e;
        if i == |s| - 1 {
          assert r[pos] == e;
        } else {
          assert r[i] == e;
        }
      }
      if e in r {
        var i :| 0 <= i < |r| && r[i] == e;
        assert s[if i == pos then |s| - 1 else i] == e;
      }
    }
  }

  /** Whether the small set has further elements tells whether the intersection changes the large one exactly
      when both inclusions hold or both fail. */
  lemma FlagRightExactly(before: set<nat>, theirs: set<nat>)
    ensures (!(theirs <= before) <==> before * theirs != before) <==> (theirs <= before <==> before <= theirs)
  {
  }

  /** The set of the first indices, by insertion. */
  method FirstIndices(n: nat) returns (s: HybridSet)
    requires IsIndex(n)
    ensures fresh(s) && s.Valid() && fresh(s.Foot()) && s.Elems() == NumbersBelow(n) && (s.repr.LargeSet? <==> n > SMALL_SET_CAPACITY)
  {
    hide ElemsOf, HybridSet.Valid, HybridSet.Elems, NumbersBelow, Distinct;
    s := new HybridSet();
    NoNumberBelow();
    for i := 0 to n
      invariant s.Valid() && fresh(s) && fresh(s.Foot())
      invariant s.Elems() == NumbersBelow(i) && (s.repr.LargeSet? <==> i > SMALL_SET_CAPACITY)
    {
      s.SmallSize();
      var _ := s.Insert(i);
      OneMoreNumber(i);
    }
  }

  /** Removes the indices from m on. */
  method RemoveFrom(s: HybridSet, m: nat, n: nat)
    requires m <= n && s.Valid() && s.Elems() == NumbersBelow(n)
    modifies s, s.Foot()
    ensures s.Valid() && s.Foot() == old(s.Foot()) && s.Elems() == NumbersBelow(m) && s.repr.LargeSet? == old(s.repr.LargeSet?)
  {
    hide ElemsOf, HybridSet.Valid, HybridSet.Elems, NumbersBelow, Distinct;
    for i := n downto m
      invariant s.Valid() && s.Foot() == old(s.Foot()) && s.Elems() == NumbersBelow(i) && s.repr.LargeSet? == old(s.repr.LargeSet?)
    {
      var _ := s.Remove(i);
      OneMoreNumber(i);
    }
  }

  /** A wrong flag: the large set {0, 1}, made by 33 insertions and 31 removals, is intersected with {0}. It
      changes, and the flag says that it does not. */
  method IntersectFlagMayBeWrong() returns (changed: bool, s: HybridSet, ghost before: set<nat>)
    ensures fresh(s) && s.Valid() && before == {0, 1} && s.Elems() == {0} && !changed
  {
    hide ElemsOf, HybridSet.Valid, HybridSet.Elems, NumbersBelow, Distinct;
    var n := SMALL_SET_CAPACITY + 1;
    s := FirstIndices(n);
    RemoveFrom(s, 2, n);
    var other := FirstIndices(1);
    before := s.Elems();
    FirstTwo();
    changed := s.Intersect(other);
  }

  lemma FirstTwo()
    ensures NumbersBelow(1) == {0} && NumbersBelow(2) == {0, 1}
  {
  }
}
