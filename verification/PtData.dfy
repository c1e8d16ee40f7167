/** Points-to data (src/pts_set/pt_data.rs). The points-to sets are mathematical sets here; HybridSet.dfy
    proves that their representation behaves like one. */
module PtData {
  import opened Paths
  import opened Solver

  /** Facts still to be propagated and facts already propagated, per pointer. */
  class DiffPTData {
    var diffPts: PtsMap
    var propaPts: PtsMap

    constructor ()
      ensures diffPts == map[] && propaPts == map[]
    {
      diffPts, propaPts := map[], map[];
    }

    ghost function Pts(v: Path): set<Path>
      reads this
    {
      Get(diffPts, v) + Get(propaPts, v)
    }

    /** Returns true exactly when the element is new; a new element starts unpropagated. */
    method AddPts(v: Path, elem: Path) returns (isNew: bool)
      modifies this`diffPts
      ensures isNew <==> elem !in old(Pts(v))
      ensures diffPts == if isNew then old(diffPts)[v := Get(old(diffPts), v) + {elem}] else old(diffPts)
    {
      if v in propaPts {
        if elem in propaPts[v] {
          return false;
        }
      }
      var diff := Get(diffPts, v);
      isNew := elem !in diff;
      diffPts := diffPts[v := diff + {elem}];
      if !isNew {
        assert diff + {elem} == diff;
      }
    }

    /** diff(dst) gains what src holds and dst does not know yet. */
    method UnionPtsTo(dst: Path, src: set<Path>) returns (changed: bool)
      modifies this
      ensures changed <==> !(src <= old(Pts(dst)))
      ensures Get(diffPts, dst) == old(Get(diffPts, dst)) + (src - old(Get(propaPts, dst)))
      ensures forall v :: Get(propaPts, v) == old(Get(propaPts, v))
      ensures forall v :: v != dst ==> Get(diffPts, v) == old(Get(diffPts, v))
      ensures Pts(dst) == old(Pts(dst)) + src
    {
      var diff, propa := Get(diffPts, dst), Get(propaPts, dst);
      var missing := src - propa;
      propaPts := propaPts[dst := propa];
      changed := !(missing <= diff);
      diffPts := diffPts[dst := diff + missing];
    }

    /** Sends the unpropagated facts of src. */
    method UnionDiffPts(dst: Path, src: Path) returns (changed: bool)
      modifies this
      ensures changed <==> dst != src && !(old(Get(diffPts, src)) <= old(Pts(dst)))
      ensures dst != src ==> Pts(dst) == old(Pts(dst)) + old(Get(diffPts, src))
      ensures dst == src ==> Pts(dst) == old(Pts(dst))
      ensures forall v :: v != dst ==> Get(diffPts, v) == old(Get(diffPts, v))
      ensures forall v :: Get(propaPts, v) == old(Get(propaPts, v))
    {
      if dst == src {
        return false;
      }
      changed := false;
      if src in diffPts {
        changed := UnionPtsTo(dst, diffPts[src]);
      }
    }

    /** Sends all facts of src. */
    method UnionPts(dst: Path, src: Path) returns (changed: bool)
      modifies this
      ensures changed <==> dst != src && !(old(Pts(src)) <= old(Pts(dst)))
      ensures Pts(dst) == old(Pts(dst)) + old(Pts(src))
      ensures forall v :: v != dst ==> Get(diffPts, v) == old(Get(diffPts, v))
      ensures forall v :: Get(propaPts, v) == old(Get(propaPts, v))
    {
      if dst == src {
        return false;
      }
      changed := false;
      ghost var diff, propa := Get(diffPts, src), Get(propaPts, src);
      if src in diffPts {
        changed := UnionPtsTo(dst, diffPts[src]);
      }
      assert Pts(dst) == old(Pts(dst)) + diff && (changed <==> !(diff <= old(Pts(dst))));
      assert Get(propaPts, src) == propa;
      if src in propaPts {
        var more := UnionPtsTo(dst, propaPts[src]);
        changed := changed || more;
      }
      assert Pts(dst) == old(Pts(dst)) + diff + propa;
    }

    method RemovePtsElem(v: Path, elem: Path) returns (removed: bool)
      modifies this
      ensures removed <==> elem in old(Pts(v))
      ensures forall w :: Get(diffPts, w) == old(Get(diffPts, w)) - (if w == v then {elem} else {})
      ensures forall w :: Get(propaPts, w) == old(Get(propaPts, w)) - (if w == v then {elem} else {})
    {
      var diff, propa := Get(diffPts, v), Get(propaPts, v);
      removed := elem in diff || elem in propa;
      diffPts := diffPts[v := diff - {elem}];
      propaPts := propaPts[v := propa - {elem}];
    }

    /** All facts of v become propagated facts: the union is unchanged. */
    method FlushPts(v: Path)
      modifies this
      ensures diffPts == if v in old(diffPts) then old(diffPts)[v := {}] else old(diffPts)
      ensures propaPts == if v in old(diffPts) then old(propaPts)[v := Get(old(propaPts), v) + old(diffPts)[v]] else old(propaPts)
      ensures forall w :: Pts(w) == old(Pts(w))
    {
      if v !in diffPts {
        return;
      }
      var diff := diffPts[v];
      propaPts := propaPts[v := Get(propaPts, v) + diff];
      diffPts := diffPts[v := {}];
    }

    method ClearPts(v: Path)
      modifies this
      ensures forall w :: Get(diffPts, w) == if w == v then {} else old(Get(diffPts, w))
      ensures forall w :: Get(propaPts, w) == if w == v then {} else old(Get(propaPts, w))
    {
      if v in diffPts {
        diffPts := diffPts[v := {}];
      }
      if v in propaPts {
        propaPts := propaPts[v := {}];
      }
    }
  }

  /** The reverse map holds v under e exactly when the forward map holds e under v. */
  ghost predicate Converse(pts: PtsMap, rev: PtsMap)
  {
    forall v, e :: e in Get(pts, v) <==> v in Get(rev, e)
  }

  /** rev' is rev with v added (or removed) under each of the elements. */
  ghost predicate Edited(rev: PtsMap, rev': PtsMap, v: Path, elems: set<Path>, add: bool)
  {
    forall e :: Get(rev', e) ==
      (if e !in elems then Get(rev, e) else if add then Get(rev, e) + {v} else Get(rev, e) - {v})
  }

  /** Editing one forward set and the reverse sets of the edited elements keeps the maps converse. */
  lemma EditKeepsConverse(pts: PtsMap, rev: PtsMap, rev': PtsMap, v: Path, elems: set<Path>, add: bool)
    requires Converse(pts, rev) && Edited(rev, rev', v, elems, add)
    ensures Converse(pts[v := if add then Get(pts, v) + elems else Get(pts, v) - elems], rev')
  {
    var pts' := pts[v := if add then Get(pts, v) + elems else Get(pts, v) - elems];
    forall w, e ensures e in Get(pts', w) <==> w in Get(rev', e) {
      assert e in Get(pts, w) <==> w in Get(rev, e);
    }
  }

  /** Points-to data with a reverse map. */
  class BasePTData {
    var ptsMap: PtsMap
    var revPtsMap: PtsMap

    ghost predicate Valid()
      reads this
    {
      Converse(ptsMap, revPtsMap)
    }

    constructor ()
      ensures Valid() && ptsMap == map[]
    {
      ptsMap, revPtsMap := map[], map[];
    }

    method AddPts(v: Path, elem: Path) returns (isNew: bool)
      requires Valid()
      modifies this
      ensures Valid()
      ensures isNew <==> elem !in old(Get(ptsMap, v))
      ensures ptsMap == old(ptsMap)[v := old(Get(ptsMap, v)) + {elem}]
    {
      GetUpdate(revPtsMap, elem, Get(revPtsMap, elem) + {v});
      revPtsMap := revPtsMap[elem := Get(revPtsMap, elem) + {v}];
      EditKeepsConverse(ptsMap, old(revPtsMap), revPtsMap, v, {elem}, true);
      isNew := elem !in Get(ptsMap, v);
      ptsMap := ptsMap[v := Get(ptsMap, v) + {elem}];
    }

    /** Adds v to the reverse entry of each element. */
    method AddRevPts(elems: set<Path>, v: Path)
      modifies this`revPtsMap
      ensures Edited(old(revPtsMap), revPtsMap, v, elems, true)
    {
      var todo := elems;
      while todo != {}
        invariant todo <= elems
        invariant Edited(old(revPtsMap), revPtsMap, v, elems - todo, true)
        decreases todo
      {
        var e :| e in todo;
        GetUpdate(revPtsMap, e, Get(revPtsMap, e) + {v});
        revPtsMap := revPtsMap[e := Get(revPtsMap, e) + {v}];
        todo := todo - {e};
      }
    }

    method UnionPts(dst: Path, src: Path) returns (changed: bool)
      requires Valid()
      modifies this
      ensures Valid()
      ensures changed <==> !(old(Get(ptsMap, src)) <= old(Get(ptsMap, dst)))
      ensures forall v :: Get(ptsMap, v) == old(Get(ptsMap, v)) + (if v == dst then old(Get(ptsMap, src)) else {})
    {
      if src in ptsMap {
        var srcPts, dstPts := ptsMap[src], Get(ptsMap, dst);
        AddRevPts(srcPts, dst);
        EditKeepsConverse(ptsMap, old(revPtsMap), revPtsMap, dst, srcPts, true);
        changed := !(srcPts <= dstPts);
        GetUpdate(ptsMap, dst, dstPts + srcPts);
        ptsMap := ptsMap[dst := dstPts + srcPts];
      } else {
        changed := false;
      }
    }

    method RemovePtsElem(v: Path, elem: Path) returns (removed: bool)
      requires Valid()
      modifies this
      ensures Valid()
      ensures removed <==> elem in old(Get(ptsMap, v))
      ensures forall w :: Get(ptsMap, w) == old(Get(ptsMap, w)) - (if w == v then {elem} else {})
    {
      if elem in revPtsMap {
        GetUpdate(revPtsMap, elem, revPtsMap[elem] - {v});
        revPtsMap := revPtsMap[elem := revPtsMap[elem] - {v}];
      }
      EditKeepsConverse(ptsMap, old(revPtsMap), revPtsMap, v, {elem}, false);
      GetUpdate(ptsMap, v, Get(ptsMap, v) - {elem});
      if v in ptsMap {
        removed := elem in ptsMap[v];
        ptsMap := ptsMap[v := ptsMap[v] - {elem}];
      } else {
        removed := false;
        forall w, e ensures e in Get(ptsMap, w) <==> w in Get(revPtsMap, e) {
          assert e in Get(ptsMap[v := Get(ptsMap, v) - {elem}], w) <==> w in Get(revPtsMap, e);
        }
      }
    }

    /** Empties the points-to set of v; every element of it has a reverse entry to correct. */
    method ClearPts(v: Path)
      requires Valid()
      modifies this
      ensures Valid()
      ensures forall w :: Get(ptsMap, w) == (if w == v then {} else old(Get(ptsMap, w)))
    {
      if v in ptsMap {
        var elems := ptsMap[v];
        var todo := elems;
        while todo != {}
          invariant ptsMap == old(ptsMap) && todo <= elems
          invariant Edited(old(revPtsMap), revPtsMap, v, elems - todo, false)
          decreases todo
        {
          var e :| e in todo;
          assert e in Get(ptsMap, v) <==> v in Get(old(revPtsMap), e);
          assert Get(revPtsMap, e) == Get(old(revPtsMap), e);
          GetUpdate(revPtsMap, e, revPtsMap[e] - {v});
          revPtsMap := revPtsMap[e := revPtsMap[e] - {v}];
          todo := todo - {e};
        }
        EditKeepsConverse(ptsMap, old(revPtsMap), revPtsMap, v, elems, false);
        assert elems - elems == {};
        GetUpdate(ptsMap, v, {});
        ptsMap := ptsMap[v := {}];
      }
    }
  }
}
