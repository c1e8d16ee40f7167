/** Casting paths (src/util/type_util.rs): interned types, regularized paths, and the record of which path has
    been cast to which type. */
module Casts {
  import opened Counting
  import opened Options
  import opened Paths

  /** Types with their regions erased. */
  type Ty = nat

  // ----- interning

  class TypeCache {
    var typeList: seq<Ty>
    var typeToIndex: map<Ty, nat>

    /** Indices and types are in bijection. */
    ghost predicate Valid()
      reads this
    {
      && (forall t :: t in typeToIndex ==> typeToIndex[t] < |typeList| && typeList[typeToIndex[t]] == t)
      && (forall i :: 0 <= i < |typeList| ==> typeList[i] in typeToIndex && typeToIndex[typeList[i]] == i)
    }

    constructor ()
      ensures Valid() && typeList == []
    {
      typeList, typeToIndex := [], map[];
    }

    /** The index of a type; indices handed out before keep their meaning. */
    method GetIndex(ty: Ty) returns (index: nat)
      requires Valid()
      modifies this
      ensures Valid() && index < |typeList| && typeList[index] == ty
      ensures ty in typeToIndex && typeToIndex[ty] == index
      ensures typeList == if ty in old(typeList) then old(typeList) else old(typeList) + [ty]
    {
      if ty in typeToIndex {
        index := typeToIndex[ty];
      } else {
        index := |typeList|;
        typeList := typeList + [ty];
        typeToIndex := typeToIndex[ty := index];
      }
    }

    /** The inverse of `GetIndex`: the one type that has the index, or nothing for an index that no type has. */
    method GetType(index: nat) returns (r: Option<Ty>)
      requires Valid()
      ensures forall t :: r == Some(t) <==> t in typeToIndex && typeToIndex[t] == index
      ensures r.None? <==> index >= |typeList|
    {
      r := if index < |typeList| then Some(typeList[index]) else None;
    }
  }

  // ----- answers about types

  /** What the analysis knows about types; any total functions. */
  datatype Types = Types(
    /** The type of a path that does not end in a cast. */
    typeOf: Path -> Ty,
    /** The fields that start where an object of the type starts. */
    startFields: Ty -> seq<(Projection, Ty)>,
    equalTypes: (Ty, Ty) -> bool,
    /** Is the offset of the field zero? The source asks the type of the field itself. */
    zeroOffset: (Ty, nat) -> bool,
    never: Ty)

  ghost predicate NoCasts(proj: Projection)
  {
    forall i :: 0 <= i < |proj| ==> !proj[i].Cast?
  }

  ghost predicate TypesOk(types: Types)
  {
    forall t, k :: 0 <= k < |types.startFields(t)| ==> NoCasts(types.startFields(t)[k].0)
  }

  // ----- regularization

  /** May the last selector be dropped without leaving the memory location? */
  predicate Droppable(types: Types, p: Path)
  {
    p.QualifiedPath? && p.projection != [] &&
    match p.projection[|p.projection| - 1]
    case Cast(_) => true
    case Index => true
    case UnionField(_) => true
    case Downcast(_) => true
    case Field(f) => types.zeroOffset(types.typeOf(p), f)
    case _ => false
  }

  function Regularized(types: Types, p: Path): Path
    decreases |Selectors(p)|
  {
    if Droppable(types, p) && !p.base.QualifiedPath? then
      Regularized(types, TruncateProjectionElems(p, |p.projection| - 1))
    else p
  }

  /** A regularized path has the same base and a prefix of the selectors; regularizing again changes nothing,
      and nothing more can be dropped. */
  lemma {:induction false} RegularizedMeaning(types: Types, p: Path)
    requires Flat(p)
    ensures var r := Regularized(types, p);
      && Flat(r) && Base(r) == Base(p) && Selectors(r) <= Selectors(p)
      && Regularized(types, r) == r && !Droppable(types, r)
      && forall n :: |Selectors(r)| < n <= |Selectors(p)| ==> Droppable(types, TruncateProjectionElems(p, n))
    decreases |Selectors(p)|
  {
    if Droppable(types, p) {
      var q := TruncateProjectionElems(p, |p.projection| - 1);
      RegularizedMeaning(types, q);
      var r := Regularized(types, p);
      forall n | |Selectors(r)| < n <= |Selectors(p)| ensures Droppable(types, TruncateProjectionElems(p, n)) {
        if n == |Selectors(p)| {
          assert p.projection[..n] == p.projection;
        } else {
          assert p.projection[..|p.projection| - 1][..n] == p.projection[..n];
          assert Droppable(types, TruncateProjectionElems(q, n));
          assert TruncateProjectionElems(q, n) == TruncateProjectionElems(p, n);
        }
      }
    }
  }

  /** The selector may be dropped when it comes last in the path. */
  ghost predicate SelectorDrops(types: Types, p: Path, sel: PathSelector)
  {
    sel.Cast? || sel.Index? || sel.UnionField? || sel.Downcast? || (sel.Field? && types.zeroOffset(types.typeOf(p), sel.index))
  }

  /** The result is the shortest prefix from which on everything may be dropped, one selector after the other:
      casts, indices, fields of unions, downcasts, and fields at offset zero. */
  lemma RegularizedExactly(types: Types, p: Path)
    requires Flat(p)
    ensures var r := Regularized(types, p);
      && Base(r) == Base(p) && Selectors(r) <= Selectors(p)
      && (Selectors(r) != [] ==> !SelectorDrops(types, r, Selectors(r)[|Selectors(r)| - 1]))
      && forall n: nat :: |Selectors(r)| <= n < |Selectors(p)| ==>
           SelectorDrops(types, TruncateProjectionElems(p, n + 1), Selectors(p)[n])
  {
    RegularizedMeaning(types, p);
    var r := Regularized(types, p);
    forall n: nat | |Selectors(r)| <= n < |Selectors(p)|
      ensures SelectorDrops(types, TruncateProjectionElems(p, n + 1), Selectors(p)[n])
    {
      assert Droppable(types, TruncateProjectionElems(p, n + 1));
    }
  }

  // ----- casts of a path

  /** The type indices that a projection casts to. */
  function CastsOf(proj: Projection): (r: seq<nat>)
    ensures |r| <= |proj|
  {
    if proj == [] then []
    else if proj[0].Cast? then [proj[0].typeIndex] + CastsOf(proj[1..])
    else CastsOf(proj[1..])
  }

  ghost predicate NoRepeat(proj: Projection)
  {
    forall i, j :: 0 <= i < j < |proj| && proj[i].Cast? && proj[j].Cast? ==> proj[i] != proj[j]
  }

  ghost predicate Interned(proj: Projection, n: nat)
  {
    forall i :: 0 <= i < |proj| && proj[i].Cast? ==> proj[i].typeIndex < n
  }

  /** Casts nest at most as deep as there are types. */
  lemma {:induction false} CastNestingIsBounded(proj: Projection, all: set<nat>)
    requires NoRepeat(proj) && forall i :: 0 <= i < |proj| && proj[i].Cast? ==> proj[i].typeIndex in all
    ensures |CastsOf(proj)| <= |all|
  {
    if proj != [] {
      var rest := proj[1..];
      assert forall i :: 0 <= i < |rest| ==> rest[i] == proj[i + 1];
      if proj[0].Cast? {
        CastNestingIsBounded(rest, all - {proj[0].typeIndex});
      } else {
        CastNestingIsBounded(rest, all);
      }
    }
  }

  /** Appending selectors without casts, or one new cast, repeats no cast; neither does dropping selectors. */
  lemma NoRepeatKept(proj: Projection, more: Projection)
    requires NoRepeat(proj)
    ensures NoCasts(more) ==> NoRepeat(proj + more)
    ensures forall c :: Cast(c) !in proj ==> NoRepeat(proj + [Cast(c)])
    ensures more <= proj ==> NoRepeat(more)
  {
  }

  type CastMap = map<Path, set<Ty>>

  function CastTypes(m: CastMap, p: Path): set<Ty>
  {
    if p in m then m[p] else {}
  }

  /** The first start field of the type. */
  function StartField(types: Types, fields: seq<(Projection, Ty)>, ty: Ty): Option<Projection>
  {
    if fields == [] then None
    else if types.equalTypes(fields[0].1, ty) then Some(fields[0].0)
    else StartField(types, fields[1..], ty)
  }

  lemma {:induction false} StartFieldNoCasts(types: Types, fields: seq<(Projection, Ty)>, ty: Ty)
    requires forall k :: 0 <= k < |fields| ==> NoCasts(fields[k].0)
    ensures StartField(types, fields, ty).Some? ==> NoCasts(StartField(types, fields, ty).value)
  {
    if fields != [] {
      assert forall k :: 0 <= k < |fields[1..]| ==> fields[1..][k] == fields[k + 1];
      StartFieldNoCasts(types, fields[1..], ty);
    }
  }

  /** The path itself when it has the wanted type, or its first start field of that type. */
  function WithoutCast(types: Types, p: Path, ty: Ty): Option<Path>
  {
    var field := StartField(types, types.startFields(types.typeOf(p)), ty);
    if types.equalTypes(types.typeOf(p), ty) then Some(p)
    else if field.Some? then Some(AppendProjection(p, field.value))
    else None
  }

  lemma {:induction false} StartFieldIsFirst(types: Types, fields: seq<(Projection, Ty)>, ty: Ty, k: nat)
    requires k < |fields| && types.equalTypes(fields[k].1, ty)
    requires forall j :: 0 <= j < k ==> !types.equalTypes(fields[j].1, ty)
    ensures StartField(types, fields, ty) == Some(fields[k].0)
    decreases k
  {
    if k > 0 {
      assert fields[1..][k - 1] == fields[k] && forall j :: 0 <= j < k - 1 ==> fields[1..][j] == fields[j + 1];
      StartFieldIsFirst(types, fields[1..], ty, k - 1);
    }
  }

  lemma {:induction false} NoStartField(types: Types, fields: seq<(Projection, Ty)>, ty: Ty)
    requires forall j :: 0 <= j < |fields| ==> !types.equalTypes(fields[j].1, ty)
    ensures StartField(types, fields, ty) == None
  {
    if fields != [] {
      assert forall j :: 0 <= j < |fields| - 1 ==> fields[1..][j] == fields[j + 1];
      NoStartField(types, fields[1..], ty);
    }
  }

  /** Without a cast the path itself is found when it has the wanted type, or else the first start field of its type
      that has; nothing is found when neither has. */
  lemma WithoutCastExactly(types: Types, p: Path, ty: Ty)
    ensures var fields := types.startFields(types.typeOf(p));
      && (types.equalTypes(types.typeOf(p), ty) ==> WithoutCast(types, p, ty) == Some(p))
      && (forall k: nat :: !types.equalTypes(types.typeOf(p), ty) && IsFirstOf(types, fields, ty, k) ==>
            WithoutCast(types, p, ty) == Some(AppendProjection(p, fields[k].0)))
      && (!types.equalTypes(types.typeOf(p), ty) && NoneOf(types, fields, ty) ==> WithoutCast(types, p, ty) == None)
  {
    hide StartField;
    var fields := types.startFields(types.typeOf(p));
    forall k: nat | IsFirstOf(types, fields, ty, k) ensures StartField(types, fields, ty) == Some(fields[k].0) {
      StartFieldIsFirst(types, fields, ty, k);
    }
    if NoneOf(types, fields, ty) {
      NoStartField(types, fields, ty);
    }
  }

  ghost predicate IsFirstOf(types: Types, fields: seq<(Projection, Ty)>, ty: Ty, k: nat)
  {
    k < |fields| && types.equalTypes(fields[k].1, ty) && forall j :: 0 <= j < k ==> !types.equalTypes(fields[j].1, ty)
  }

  ghost predicate NoneOf(types: Types, fields: seq<(Projection, Ty)>, ty: Ty)
  {
    forall j :: 0 <= j < |fields| ==> !types.equalTypes(fields[j].1, ty)
  }

  /** What the record says about a path and a type. */
  function VariantOf(types: Types, m: CastMap, index: map<Ty, nat>, path: Path, ty: Ty): Option<Path>
  {
    var p := Regularized(types, path);
    var same := WithoutCast(types, p, ty);
    if same.Some? then same
    else if ty in CastTypes(m, p) && ty in index then Some(AppendProjection(p, [Cast(index[ty])]))
    else None
  }

  predicate EndsInCast(p: Path)
  {
    p.QualifiedPath? && p.projection != [] && p.projection[|p.projection| - 1].Cast?
  }

  ghost predicate CastIsNew(index: map<Ty, nat>, p: Path, t: Ty)
  {
    t in index && Cast(index[t]) !in Selectors(p)
  }

  /** Whatever a path has been cast to is interned and is no type that the path is already cast to. */
  ghost predicate RecordOk(m: CastMap, index: map<Ty, nat>)
  {
    forall p, t :: t in CastTypes(m, p) ==> CastIsNew(index, p, t)
  }

  /** A flat path in which no cast is repeated, over n interned types. */
  ghost predicate CastsOk(p: Path, n: nat)
  {
    Flat(p) && NoRepeat(Selectors(p)) && Interned(Selectors(p), n)
  }

  lemma RegularizedCastsOk(types: Types, p: Path, n: nat)
    requires CastsOk(p, n)
    ensures CastsOk(Regularized(types, p), n)
  {
    hide Regularized;
    RegularizedMeaning(types, p);
    NoRepeatKept(Selectors(p), Selectors(Regularized(types, p)));
  }

  lemma WithoutCastOk(types: Types, p: Path, ty: Ty, n: nat)
    requires TypesOk(types) && CastsOk(p, n)
    ensures WithoutCast(types, p, ty).Some? ==> CastsOk(WithoutCast(types, p, ty).value, n)
  {
    hide StartField;
    var fields := types.startFields(types.typeOf(p));
    StartFieldNoCasts(types, fields, ty);
    var field := StartField(types, fields, ty);
    if field.Some? {
      AppendMeaning(p, field.value);
      NoRepeatKept(Selectors(p), field.value);
    }
  }

  lemma CastOk(p: Path, c: nat, n: nat)
    requires CastsOk(p, n) && c < n && Cast(c) !in Selectors(p)
    ensures CastsOk(AppendProjection(p, [Cast(c)]), n)
  {
  }

  /** Every path that the record gives repeats no cast. */
  lemma VariantCastsOk(types: Types, m: CastMap, index: map<Ty, nat>, path: Path, ty: Ty, n: nat)
    requires TypesOk(types) && RecordOk(m, index) && CastsOk(path, n) && forall t :: t in index ==> index[t] < n
    ensures VariantOf(types, m, index, path, ty).Some? ==> CastsOk(VariantOf(types, m, index, path, ty).value, n)
  {
    hide WithoutCast, Regularized, CastsOk;
    var p := Regularized(types, path);
    RegularizedCastsOk(types, path, n);
    WithoutCastOk(types, p, ty, n);
    if ty in CastTypes(m, p) {
      assert CastIsNew(index, p, ty);
      CastOk(p, index[ty], n);
    }
  }

  /** More casts and more interned types change no answer that has been given. */
  lemma VariantKept(types: Types, m: CastMap, index: map<Ty, nat>, m': CastMap, index': map<Ty, nat>)
    requires forall p :: CastTypes(m, p) <= CastTypes(m', p)
    requires forall t :: t in index ==> t in index' && index'[t] == index[t]
    ensures forall p, t :: VariantOf(types, m, index, p, t).Some? ==>
      VariantOf(types, m', index', p, t) == VariantOf(types, m, index, p, t)
  {
  }

  /** Casting one path to some types, and interning types, changes no answer about other paths or types. */
  lemma NothingElseAnswered(types: Types, m: CastMap, index: map<Ty, nat>, m': CastMap, index': map<Ty, nat>, path: Path, added: set<Ty>)
    requires RecordOk(m, index)
    requires forall p :: CastTypes(m, p) <= CastTypes(m', p) <= CastTypes(m, p) + (if p == path then added else {})
    requires forall t :: t in index ==> t in index' && index'[t] == index[t]
    ensures forall q, t :: VariantOf(types, m', index', q, t) != VariantOf(types, m, index, q, t) ==>
      Regularized(types, q) == path && t in added
  {
  }

  class PathCastCache {
    const types: Types
    const typeCache: TypeCache
    var pathCastTypes: CastMap
    /** Types that have been evaluated or recorded before. */
    var pathTypes: map<Path, Ty>

    /** Recorded types are right, apart from those of cast paths, which are never asked for. */
    ghost predicate Valid()
      reads this, typeCache
    {
      && typeCache.Valid() && TypesOk(types)
      && (forall p :: p in pathTypes && !EndsInCast(p) ==> pathTypes[p] == types.typeOf(p))
      && RecordOk(pathCastTypes, typeCache.typeToIndex)
    }

    ghost function Variant(path: Path, ty: Ty): Option<Path>
      reads this, typeCache
    {
      VariantOf(types, pathCastTypes, typeCache.typeToIndex, path, ty)
    }

    /** The path is already cast to the type somewhere. */
    ghost predicate InsideCast(p: Path, ty: Ty)
      reads typeCache
    {
      ty in typeCache.typeToIndex && Cast(typeCache.typeToIndex[ty]) in Selectors(p)
    }

    constructor (types: Types)
      requires TypesOk(types)
      ensures Valid() && this.types == types && pathCastTypes == map[] && fresh(typeCache) && typeCache.typeList == []
    {
      this.types := types;
      typeCache := new TypeCache();
      pathCastTypes, pathTypes := map[], map[];
    }

    /** The recorded type of a path, or else its evaluated type, which is recorded. */
    method PathType(p: Path) returns (ty: Ty)
      requires Valid() && !EndsInCast(p)
      modifies this`pathTypes
      ensures Valid() && ty == types.typeOf(p)
    {
      if p in pathTypes {
        ty := pathTypes[p];
      } else {
        ty := types.typeOf(p);
        pathTypes := pathTypes[p := ty];
      }
    }

    method GetRegularizedPath(path: Path) returns (r: Path)
      requires Valid() && Flat(path)
      modifies this`pathTypes
      ensures Valid() && r == Regularized(types, path)
      ensures Base(r) == Base(path) && Selectors(r) <= Selectors(path)
      ensures Selectors(r) != [] ==> !SelectorDrops(types, r, Selectors(r)[|Selectors(r)| - 1])
      ensures forall n: nat :: |Selectors(r)| <= n < |Selectors(path)| ==>
        SelectorDrops(types, TruncateProjectionElems(path, n + 1), Selectors(path)[n])
      decreases |Selectors(path)|
    {
      RegularizedExactly(types, path);
      r := path;
      if path.QualifiedPath? {
        var last := path.projection[|path.projection| - 1];
        var drop := last.Cast? || last.Index? || last.UnionField? || last.Downcast?;
        if last.Field? {
          var ty := PathType(path);
          drop := types.zeroOffset(ty, last.index);
        }
        if drop {
          r := GetRegularizedPath(TruncateProjectionElems(path, |path.projection| - 1));
        }
      }
    }

    /** The path itself, or the first start field, when one has the wanted type. */
    method FindWithoutCast(p: Path, originalTy: Ty, ty: Ty) returns (r: Option<Path>)
      requires originalTy == types.typeOf(p)
      ensures r == WithoutCast(types, p, ty)
    {
      if types.equalTypes(originalTy, ty) {
        return Some(p);
      }
      var fields := types.startFields(originalTy);
      for i := 0 to |fields|
        invariant StartField(types, fields, ty) == StartField(types, fields[i..], ty)
      {
        assert fields[i..][0] == fields[i] && fields[i..][1..] == fields[i + 1..];
        if types.equalTypes(fields[i].1, ty) {
          return Some(AppendProjection(p, fields[i].0));
        }
      }
      return None;
    }

    /** Records a cast of a path that is not inside a cast to the type yet. */
    method RecordCast(p: Path, ty: Ty, index: nat)
      requires Valid() && Flat(p) && ty in typeCache.typeToIndex && index == typeCache.typeToIndex[ty] && Cast(index) !in Selectors(p)
      modifies this
      ensures Valid() && pathCastTypes == old(pathCastTypes)[p := CastTypes(old(pathCastTypes), p) + {ty}]
    {
      pathCastTypes := pathCastTypes[p := CastTypes(pathCastTypes, p) + {ty}];
      forall q, t | t in CastTypes(pathCastTypes, q) ensures CastIsNew(typeCache.typeToIndex, q, t) {
        assert t in CastTypes(old(pathCastTypes), q) || (q == p && t == ty);
      }
      AppendMeaning(p, [Cast(index)]);
      var castPath := AppendProjection(p, [Cast(index)]);
      assert EndsInCast(castPath) by {
        assert Selectors(castPath)[|Selectors(castPath)| - 1] == Cast(index);
      }
      pathTypes := pathTypes[castPath := ty];
    }

    method InternType(ty: Ty) returns (index: nat)
      requires Valid()
      modifies typeCache
      ensures Valid() && ty in typeCache.typeToIndex && index == typeCache.typeToIndex[ty] && index < |typeCache.typeList|
      ensures forall t :: t in old(typeCache.typeToIndex) ==> t in typeCache.typeToIndex && typeCache.typeToIndex[t] == old(typeCache.typeToIndex)[t]
      ensures old(|typeCache.typeList|) <= |typeCache.typeList|
    {
      ghost var before, list := typeCache.typeToIndex, typeCache.typeList;
      index := typeCache.GetIndex(ty);
      forall t | t in before ensures t in typeCache.typeToIndex && typeCache.typeToIndex[t] == before[t] {
        assert typeCache.typeList[before[t]] == list[before[t]] == t;
      }
      forall p, t | t in CastTypes(pathCastTypes, p) ensures CastIsNew(typeCache.typeToIndex, p, t) {
        assert CastIsNew(before, p, t);
      }
      assert typeCache.typeToIndex[typeCache.typeList[index]] == index;
    }

    /** A path of the wanted type for the same location. It is None when the path has no type, or when it is
        already inside a cast to the type. Once it has been given, it is the variant from then on. */
    method CastTo(path: Path, ty: Ty) returns (r: Option<Path>)
      requires Valid() && Flat(path)
      modifies this, typeCache
      ensures Valid()
      ensures forall q, t :: old(Variant(q, t)).Some? ==> Variant(q, t) == old(Variant(q, t))
      ensures forall q, t :: Variant(q, t) != old(Variant(q, t)) ==> Regularized(types, q) == Regularized(types, path) && t == ty
      ensures Regularized(types, path) == Constant ==> r == Some(Constant)
      ensures Regularized(types, path) != Constant && r.Some? ==> Variant(path, ty) == r
      ensures Regularized(types, path) != Constant ==>
        var p := Regularized(types, path);
        r.None? <==> types.typeOf(p) == types.never || (WithoutCast(types, p, ty).None? && InsideCast(p, ty))
      ensures var p := Regularized(types, path);
        p != Constant && types.typeOf(p) != types.never ==>
          && (WithoutCast(types, p, ty).Some? ==> r == WithoutCast(types, p, ty))
          && (WithoutCast(types, p, ty).None? && r.Some? ==>
                ty in typeCache.typeToIndex && r == Some(AppendProjection(p, [Cast(typeCache.typeToIndex[ty])])))
    {
      hide RecordOk, WithoutCast, Regularized, TypeCache.Valid;
      var p := GetRegularizedPath(path);
      RegularizedMeaning(types, path);
      if p.Constant? {
        return Some(p);
      }
      assert !EndsInCast(p);
      var originalTy := PathType(p);
      if originalTy == types.never {
        return None;
      }
      r := FindWithoutCast(p, originalTy, ty);
      if r.Some? {
        return;
      }
      ghost var m, before := pathCastTypes, typeCache.typeToIndex;
      var index := InternType(ty);
      if !(Cast(index) in Selectors(p)) {
        RecordCast(p, ty, index);
        r := Some(AppendProjection(p, [Cast(index)]));
      }
      VariantKept(types, m, before, pathCastTypes, typeCache.typeToIndex);
      NothingElseAnswered(types, m, before, pathCastTypes, typeCache.typeToIndex, p, {ty});
    }

    /** The path of the type that the path has been cast to, if any. */
    method GetTypeVariant(path: Path, ty: Ty) returns (r: Option<Path>)
      requires Valid() && Flat(path)
      modifies this`pathTypes, typeCache
      ensures Valid() && r == old(Variant(path, ty))
      ensures forall q, t :: Variant(q, t) == old(Variant(q, t))
    {
      hide RecordOk, WithoutCast, Regularized, TypeCache.Valid;
      var p := GetRegularizedPath(path);
      RegularizedMeaning(types, path);
      assert !EndsInCast(p);
      var originalTy := PathType(p);
      r := FindWithoutCast(p, originalTy, ty);
      if r.Some? {
        return;
      }
      ghost var before := typeCache.typeToIndex;
      RecordedIsInterned(pathCastTypes, before, p, ty);
      var index := InternType(ty);
      if ty in CastTypes(pathCastTypes, p) {
        r := Some(AppendProjection(p, [Cast(index)]));
      }
      NothingElseAnswered(types, pathCastTypes, before, pathCastTypes, typeCache.typeToIndex, p, {});
    }

    /** No path made by a cast repeats a cast, so casts nest at most as deep as there are types. */
    lemma CastPathsStayShort(path: Path, ty: Ty)
      requires Valid() && CastsOk(path, |typeCache.typeList|)
      ensures var r := Variant(path, ty);
        r.Some? ==> CastsOk(r.value, |typeCache.typeList|) && |CastsOf(Selectors(r.value))| <= |typeCache.typeList|
    {
      hide VariantOf, CastsOf;
      var n := |typeCache.typeList|;
      VariantCastsOk(types, pathCastTypes, typeCache.typeToIndex, path, ty, n);
      var r := Variant(path, ty);
      if r.Some? {
        CastNestingIsBounded(Selectors(r.value), NumbersBelow(n));
      }
    }
  }

  lemma RecordedIsInterned(m: CastMap, index: map<Ty, nat>, p: Path, t: Ty)
    requires RecordOk(m, index)
    ensures t in CastTypes(m, p) ==> t in index
  {
  }
}
