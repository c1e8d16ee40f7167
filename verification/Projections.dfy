/** Type-directed enumerations (src/util/type_util.rs): the fields of a type with the projections that lead to
    them, and the walk of a projection through a type. */
module Projections {
  import opened Options
  import opened Paths

  /** Types as finite trees. A pointer names its target, which may contain the type again. */
  datatype Ty =
    | Pointer(target: nat)
    | Struct(fields: seq<Ty>)
    | Union(fields: seq<Ty>)
    | Enum(variants: seq<Variant>)
    | Array(elem: Ty)
    | Slice(elem: Ty)
    | Closure(fields: seq<Ty>)
    | Coroutine(fields: seq<Ty>, states: seq<Variant>)
    | Tuple(fields: seq<Ty>)
    | Never
    | Other(id: nat)

  datatype Variant = Variant(fields: seq<Ty>)

  type Listing = seq<(Projection, Ty)>

  // ----- the walk

  predicate HasFields(ty: Ty)
  {
    ty.Struct? || ty.Union? || ty.Tuple? || ty.Closure? || ty.Coroutine?
  }

  /** The type that one selector leads to; None stands for a panic. `stop` tells that the walk ends at once. */
  function StepType(deref: nat -> Ty, cached: nat -> Ty, ty: Ty, sel: PathSelector): (r: (Option<Ty>, bool))
  {
    match sel
    case Deref => if ty.Pointer? then (Some(deref(ty.target)), false) else (Some(Never), true)
    case Field(i) => FieldType(ty, i)
    case UnionField(i) => FieldType(ty, i)
    case Index => if ty.Array? || ty.Slice? then (Some(ty.elem), false) else (None, true)
    case Subslice(_, _, _) => (Some(ty), false)
    case Downcast(v) => (DowncastType(ty, v), false)
    case Cast(t) => (Some(cached(t)), false)
    case Discriminant => (Some(Never), true)
  }

  /** A field selector asks a type with fields for the field, whether it is a union or not. */
  function FieldType(ty: Ty, i: nat): (Option<Ty>, bool)
  {
    if HasFields(ty) then (if i < |ty.fields| then (Some(ty.fields[i]), false) else (None, true))
    else if ty.Enum? then (Some(Never), false)
    else (Some(Never), true)
  }

  /** A variant as a tuple; an index that is too large means the last variant. */
  function DowncastType(ty: Ty, v: nat): Option<Ty>
  {
    if ty.Enum? then
      if v < |ty.variants| then Some(Tuple(ty.variants[v].fields))
      else if ty.variants != [] then Some(Tuple(ty.variants[|ty.variants| - 1].fields))
      else None
    else if ty.Struct? || ty.Union? then Some(Tuple(ty.fields))
    else if ty.Coroutine? && v < |ty.states| then Some(Tuple(ty.states[v].fields))
    else Some(Never)
  }

  function WalkType(deref: nat -> Ty, cached: nat -> Ty, ty: Ty, proj: Projection): Option<Ty>
    decreases |proj|
  {
    if proj == [] then Some(ty)
    else
      var (next, stop) := StepType(deref, cached, ty, proj[0]);
      if stop || next.None? then next else WalkType(deref, cached, next.value, proj[1..])
  }

  /** What each selector does to any type, at the head of any walk. */
  lemma SelectorSteps(deref: nat -> Ty, cached: nat -> Ty, ty: Ty, rest: Projection)
    ensures ty.Pointer? ==> WalkType(deref, cached, ty, [Deref] + rest) == WalkType(deref, cached, deref(ty.target), rest)
    ensures !ty.Pointer? ==> WalkType(deref, cached, ty, [Deref] + rest) == Some(Never)
    ensures forall t :: WalkType(deref, cached, ty, [Cast(t)] + rest) == WalkType(deref, cached, cached(t), rest)
    ensures forall a, b, fromEnd :: WalkType(deref, cached, ty, [Subslice(a, b, fromEnd)] + rest) == WalkType(deref, cached, ty, rest)
    ensures ty.Array? || ty.Slice? ==> WalkType(deref, cached, ty, [Index] + rest) == WalkType(deref, cached, ty.elem, rest)
    ensures !ty.Array? && !ty.Slice? ==> WalkType(deref, cached, ty, [Index] + rest) == None
    ensures WalkType(deref, cached, ty, [Discriminant] + rest) == Some(Never)
  {
    hide FieldType, DowncastType;
    assert forall sel :: ([sel] + rest)[1..] == rest;
  }

  lemma FieldSteps(deref: nat -> Ty, cached: nat -> Ty, ty: Ty, i: nat, sel: PathSelector, rest: Projection)
    requires sel == Field(i) || sel == UnionField(i)
    ensures ty.Struct? || ty.Union? || ty.Tuple? || ty.Closure? || ty.Coroutine? ==>
      WalkType(deref, cached, ty, [sel] + rest) == if i < |ty.fields| then WalkType(deref, cached, ty.fields[i], rest) else None
    ensures ty.Enum? ==> WalkType(deref, cached, ty, [sel] + rest) == WalkType(deref, cached, Never, rest)
    ensures ty.Pointer? || ty.Array? || ty.Slice? || ty.Never? || ty.Other? ==> WalkType(deref, cached, ty, [sel] + rest) == Some(Never)
  {
    assert ([sel] + rest)[1..] == rest;
  }

  lemma DowncastSteps(deref: nat -> Ty, cached: nat -> Ty, ty: Ty, v: nat, rest: Projection)
    ensures ty.Enum? && v < |ty.variants| ==>
      WalkType(deref, cached, ty, [Downcast(v)] + rest) == WalkType(deref, cached, Tuple(ty.variants[v].fields), rest)
    ensures ty.Enum? && ty.variants != [] && v >= |ty.variants| ==>
      WalkType(deref, cached, ty, [Downcast(v)] + rest) == WalkType(deref, cached, ty, [Downcast(|ty.variants| - 1)] + rest)
    ensures ty == Enum([]) ==> WalkType(deref, cached, ty, [Downcast(v)] + rest) == None
    ensures ty.Struct? || ty.Union? ==> WalkType(deref, cached, ty, [Downcast(v)] + rest) == WalkType(deref, cached, Tuple(ty.fields), rest)
    ensures ty.Coroutine? && v < |ty.states| ==>
      WalkType(deref, cached, ty, [Downcast(v)] + rest) == WalkType(deref, cached, Tuple(ty.states[v].fields), rest)
    ensures ty.Coroutine? && v >= |ty.states| ==> WalkType(deref, cached, ty, [Downcast(v)] + rest) == WalkType(deref, cached, Never, rest)
    ensures ty.Pointer? || ty.Array? || ty.Slice? || ty.Tuple? || ty.Closure? || ty.Never? || ty.Other? ==>
      WalkType(deref, cached, ty, [Downcast(v)] + rest) == WalkType(deref, cached, Never, rest)
  {
    assert forall w: nat :: ([Downcast(w)] + rest)[1..] == rest;
  }

  method TryEvalProjection(deref: nat -> Ty, cached: nat -> Ty, ty: Ty, proj: Projection) returns (r: Option<Ty>)
    ensures r == WalkType(deref, cached, ty, proj)
  {
    var baseTy, rest := ty, proj;
    while rest != []
      invariant WalkType(deref, cached, ty, proj) == WalkType(deref, cached, baseTy, rest)
      decreases |rest|
    {
      var (next, stop) := StepType(deref, cached, baseTy, rest[0]);
      if stop || next.None? {
        return next;
      }
      baseTy, rest := next.value, rest[1..];
    }
    return Some(baseTy);
  }

  // ----- the enumerations

  function FieldSelector(union: bool, i: nat): PathSelector
  {
    if union then UnionField(i) else Field(i)
  }

  function Prefixed(pre: Projection, l: Listing): (r: Listing)
    ensures |r| == |l| && forall k :: 0 <= k < |l| ==> r[k] == (pre + l[k].0, l[k].1)
  {
    if l == [] then [] else [(pre + l[0].0, l[0].1)] + Prefixed(pre, l[1..])
  }

  /** What one part of a type contributes. The full enumeration lists the part and everything inside; the
      pointer enumeration lists a pointer, and otherwise what is inside. */
  function OfPart(all: bool, at: Projection, ty: Ty): Listing
    decreases ty, 1, 0
  {
    if all then [(at, ty)] + Prefixed(at, Enumerated(all, ty))
    else if ty.Pointer? then [(at, ty)]
    else Prefixed(at, Enumerated(all, ty))
  }

  function OfFields(all: bool, pre: Projection, union: bool, fields: seq<Ty>, i: nat): Listing
    requires i <= |fields|
    decreases fields, 0, |fields| - i
  {
    if i == |fields| then []
    else OfPart(all, pre + [FieldSelector(union, i)], fields[i]) + OfFields(all, pre, union, fields, i + 1)
  }

  function OfVariants(all: bool, variants: seq<Variant>, v: nat): Listing
    requires v <= |variants|
    decreases variants, 0, |variants| - v
  {
    if v == |variants| then []
    else OfFields(all, [Downcast(v)], false, variants[v].fields, 0) + OfVariants(all, variants, v + 1)
  }

  /** The parts of a type: every field when `all` is set, otherwise the pointers. */
  function Enumerated(all: bool, ty: Ty): Listing
    decreases ty, 0, 0
  {
    match ty
    case Struct(fields) => OfFields(all, [], false, fields, 0)
    case Union(fields) => OfFields(all, [], true, fields, 0)
    case Enum(variants) => OfVariants(all, variants, 0)
    case Array(elem) => OfPart(all, [Index], elem)
    case Slice(elem) => OfPart(all, [Index], elem)
    case Closure(fields) => OfFields(all, [], false, fields, 0)
    case Coroutine(fields, _) => OfFields(all, [], false, fields, 0)
    case Tuple(fields) => OfFields(all, [], false, fields, 0)
    case _ => []
  }

  /** Puts a projection in front of every projection of a list. */
  method PrefixAll(at: Projection, inside: Listing) returns (r: Listing)
    ensures r == Prefixed(at, inside)
  {
    r := [];
    for k := 0 to |inside|
      invariant |r| == k && forall j :: 0 <= j < k ==> r[j] == (at + inside[j].0, inside[j].1)
    {
      r := r + [(at + inside[k].0, inside[k].1)];
    }
  }

  method EnumeratePart(all: bool, at: Projection, ty: Ty) returns (r: Listing)
    ensures r == OfPart(all, at, ty)
    decreases ty, 1, 0
  {
    if ty.Pointer? && !all {
      r := [(at, ty)];
    } else {
      var inside := Enumerate(all, ty);
      r := PrefixAll(at, inside);
      if all {
        r := [(at, ty)] + r;
      }
    }
  }

  method EnumerateFields(all: bool, pre: Projection, union: bool, fields: seq<Ty>) returns (r: Listing)
    ensures r == OfFields(all, pre, union, fields, 0)
    decreases fields, 0, 0
  {
    hide OfPart;
    r := [];
    for i := 0 to |fields|
      invariant r + OfFields(all, pre, union, fields, i) == OfFields(all, pre, union, fields, 0)
    {
      var part := EnumeratePart(all, pre + [FieldSelector(union, i)], fields[i]);
      Regroup(r, part, OfFields(all, pre, union, fields, i + 1));
      r := r + part;
    }
  }

  method EnumerateVariants(all: bool, variants: seq<Variant>) returns (r: Listing)
    ensures r == OfVariants(all, variants, 0)
    decreases variants, 0, 0
  {
    hide OfFields;
    r := [];
    for v := 0 to |variants|
      invariant r + OfVariants(all, variants, v) == OfVariants(all, variants, 0)
    {
      var part := EnumerateFields(all, [Downcast(v)], false, variants[v].fields);
      Regroup(r, part, OfVariants(all, variants, v + 1));
      r := r + part;
    }
  }

  method Enumerate(all: bool, ty: Ty) returns (r: Listing)
    ensures r == Enumerated(all, ty)
    decreases ty, 0, 0
  {
    match ty
    case Struct(fields) => r := EnumerateFields(all, [], false, fields);
    case Union(fields) => r := EnumerateFields(all, [], true, fields);
    case Enum(variants) => r := EnumerateVariants(all, variants);
    case Array(elem) => r := EnumeratePart(all, [Index], elem);
    case Slice(elem) => r := EnumeratePart(all, [Index], elem);
    case Closure(fields) => r := EnumerateFields(all, [], false, fields);
    case Coroutine(fields, _) => r := EnumerateFields(all, [], false, fields);
    case Tuple(fields) => r := EnumerateFields(all, [], false, fields);
    case _ => r := [];
  }

  /** All fields of a type. */
  method ProjectionsAndTypes(ty: Ty) returns (r: Listing)
    ensures r == Enumerated(true, ty)
  {
    r := Enumerate(true, ty);
  }

  /** The pointer-typed fields of a type. */
  method GetPointerProjections(ty: Ty) returns (r: Listing)
    ensures r == OnlyPointers(Enumerated(true, ty))
  {
    PointersAreFiltered(ty);
    r := Enumerate(false, ty);
  }

  // ----- the pointers are those of the full enumeration

  function OnlyPointers(l: Listing): Listing
  {
    if l == [] then [] else (if l[0].1.Pointer? then [l[0]] else []) + OnlyPointers(l[1..])
  }

  lemma {:induction false} OnlyPointersConcat(a: Listing, b: Listing)
    ensures OnlyPointers(a + b) == OnlyPointers(a) + OnlyPointers(b)
  {
    if a == [] {
      assert a + b == b;
    } else {
      assert (a + b)[0] == a[0] && (a + b)[1..] == a[1..] + b;
      OnlyPointersConcat(a[1..], b);
      Regroup(if a[0].1.Pointer? then [a[0]] else [], OnlyPointers(a[1..]), OnlyPointers(b));
    }
  }

  lemma Regroup(a: Listing, b: Listing, c: Listing)
    ensures a + (b + c) == (a + b) + c
  {
  }

  lemma {:induction false} OnlyPointersPrefixed(pre: Projection, l: Listing)
    ensures OnlyPointers(Prefixed(pre, l)) == Prefixed(pre, OnlyPointers(l))
  {
    if l != [] {
      OnlyPointersPrefixed(pre, l[1..]);
      var e := (pre + l[0].0, l[0].1);
      assert Prefixed(pre, l) == [e] + Prefixed(pre, l[1..]);
      OnlyPointersConcat([e], Prefixed(pre, l[1..]));
      assert OnlyPointers([e]) == if e.1.Pointer? then [e] else [];
      if l[0].1.Pointer? {
        assert Prefixed(pre, [l[0]] + OnlyPointers(l[1..])) == [e] + Prefixed(pre, OnlyPointers(l[1..]));
      } else {
        assert [] + OnlyPointers(l[1..]) == OnlyPointers(l[1..]);
      }
    }
  }

  lemma {:induction false} PartPointers(at: Projection, ty: Ty)
    ensures OfPart(false, at, ty) == OnlyPointers(OfPart(true, at, ty))
    decreases ty, 1, 0
  {
    PointersAreFiltered(ty);
    OnlyPointersConcat([(at, ty)], Prefixed(at, Enumerated(true, ty)));
    OnlyPointersPrefixed(at, Enumerated(true, ty));
    assert OnlyPointers([(at, ty)]) == if ty.Pointer? then [(at, ty)] else [];
  }

  lemma {:induction false} FieldPointers(pre: Projection, union: bool, fields: seq<Ty>, i: nat)
    requires i <= |fields|
    ensures OfFields(false, pre, union, fields, i) == OnlyPointers(OfFields(true, pre, union, fields, i))
    decreases fields, 0, |fields| - i
  {
    if i < |fields| {
      var at := pre + [FieldSelector(union, i)];
      PartPointers(at, fields[i]);
      FieldPointers(pre, union, fields, i + 1);
      OnlyPointersConcat(OfPart(true, at, fields[i]), OfFields(true, pre, union, fields, i + 1));
    }
  }

  lemma {:induction false} VariantPointers(variants: seq<Variant>, v: nat)
    requires v <= |variants|
    ensures OfVariants(false, variants, v) == OnlyPointers(OfVariants(true, variants, v))
    decreases variants, 0, |variants| - v
  {
    if v < |variants| {
      FieldPointers([Downcast(v)], false, variants[v].fields, 0);
      VariantPointers(variants, v + 1);
      OnlyPointersConcat(OfFields(true, [Downcast(v)], false, variants[v].fields, 0), OfVariants(true, variants, v + 1));
    }
  }

  /** The pointer enumeration is the full one, restricted to pointers, in the same order. */
  lemma {:induction false} PointersAreFiltered(ty: Ty)
    ensures Enumerated(false, ty) == OnlyPointers(Enumerated(true, ty))
    decreases ty, 0, 0
  {
    match ty
    case Struct(fields) => FieldPointers([], false, fields, 0);
    case Union(fields) => FieldPointers([], true, fields, 0);
    case Enum(variants) => VariantPointers(variants, 0);
    case Array(elem) => PartPointers([Index], elem);
    case Slice(elem) => PartPointers([Index], elem);
    case Closure(fields) => FieldPointers([], false, fields, 0);
    case Coroutine(fields, _) => FieldPointers([], false, fields, 0);
    case Tuple(fields) => FieldPointers([], false, fields, 0);
    case _ =>
  }

  // ----- the listed projections are the canonical walks

  /** Each selector is the one that the type at that point prescribes. */
  predicate Canonical(ty: Ty, proj: Projection)
    decreases |proj|
  {
    proj == [] ||
    match ty
    case Struct(fields) => CanonicalField(false, fields, proj)
    case Union(fields) => CanonicalField(true, fields, proj)
    case Closure(fields) => CanonicalField(false, fields, proj)
    case Coroutine(fields, _) => CanonicalField(false, fields, proj)
    case Tuple(fields) => CanonicalField(false, fields, proj)
    case Array(elem) => proj[0] == Index && Canonical(elem, proj[1..])
    case Slice(elem) => proj[0] == Index && Canonical(elem, proj[1..])
    case Enum(variants) =>
      && proj[0].Downcast? && proj[0].variant < |variants|
      && proj[1..] != [] && CanonicalField(false, variants[proj[0].variant].fields, proj[1..])
    case _ => false
  }

  predicate CanonicalField(union: bool, fields: seq<Ty>, proj: Projection)
    requires proj != []
    decreases |proj|, 0
  {
    && (if union then proj[0].UnionField? else proj[0].Field?)
    && proj[0].index < |fields| && Canonical(fields[proj[0].index], proj[1..])
  }

  /** The projection is canonical and leads to t. */
  ghost predicate LeadsTo(deref: nat -> Ty, cached: nat -> Ty, ty: Ty, proj: Projection, t: Ty)
  {
    Canonical(ty, proj) && WalkType(deref, cached, ty, proj) == Some(t)
  }

  ghost predicate AtPart(deref: nat -> Ty, cached: nat -> Ty, at: Projection, ty: Ty, proj: Projection, t: Ty)
  {
    at <= proj && LeadsTo(deref, cached, ty, proj[|at|..], t)
  }

  ghost predicate AtField(deref: nat -> Ty, cached: nat -> Ty, pre: Projection, union: bool, fields: seq<Ty>, k: nat, proj: Projection, t: Ty)
  {
    k < |fields| && AtPart(deref, cached, pre + [FieldSelector(union, k)], fields[k], proj, t)
  }

  ghost predicate InFields(deref: nat -> Ty, cached: nat -> Ty, pre: Projection, union: bool, fields: seq<Ty>, i: nat, proj: Projection, t: Ty)
  {
    exists k: nat :: i <= k && AtField(deref, cached, pre, union, fields, k, proj, t)
  }

  ghost predicate InVariants(deref: nat -> Ty, cached: nat -> Ty, variants: seq<Variant>, v: nat, proj: Projection, t: Ty)
  {
    exists w: nat :: v <= w < |variants| && InVariant(deref, cached, variants, w, proj, t)
  }

  ghost predicate InVariant(deref: nat -> Ty, cached: nat -> Ty, variants: seq<Variant>, w: nat, proj: Projection, t: Ty)
    requires w < |variants|
  {
    InFields(deref, cached, [Downcast(w)], false, variants[w].fields, 0, proj, t)
  }

  lemma PrefixedMember(pre: Projection, l: Listing, proj: Projection, t: Ty)
    ensures (proj, t) in Prefixed(pre, l) <==> pre <= proj && (proj[|pre|..], t) in l
  {
    var r := Prefixed(pre, l);
    if (proj, t) in r {
      var k :| 0 <= k < |r| && r[k] == (proj, t);
      assert proj[|pre|..] == l[k].0;
      assert l[k] in l;
    }
    if pre <= proj && (proj[|pre|..], t) in l {
      var k :| 0 <= k < |l| && l[k] == (proj[|pre|..], t);
      assert pre + l[k].0 == proj;
      assert r[k] in r;
    }
  }

  lemma {:induction false} PartMember(deref: nat -> Ty, cached: nat -> Ty, at: Projection, ty: Ty, proj: Projection, t: Ty)
    ensures (proj, t) in OfPart(true, at, ty) <==> AtPart(deref, cached, at, ty, proj, t)
    decreases ty, 1, 0
  {
    PrefixedMember(at, Enumerated(true, ty), proj, t);
    if at <= proj {
      ListedExactly(deref, cached, ty, proj[|at|..], t);
      assert proj[|at|..] == [] <==> proj == at;
    }
  }

  lemma {:induction false} FieldsMember(deref: nat -> Ty, cached: nat -> Ty, pre: Projection, union: bool, fields: seq<Ty>, i: nat, proj: Projection, t: Ty)
    requires i <= |fields|
    ensures (proj, t) in OfFields(true, pre, union, fields, i) <==> InFields(deref, cached, pre, union, fields, i, proj, t)
    decreases fields, 0, |fields| - i
  {
    hide LeadsTo, AtPart;
    if i < |fields| {
      PartMember(deref, cached, pre + [FieldSelector(union, i)], fields[i], proj, t);
      FieldsMember(deref, cached, pre, union, fields, i + 1, proj, t);
      FieldsFrom(deref, cached, pre, union, fields, i, proj, t);
    }
  }

  lemma FieldsFrom(deref: nat -> Ty, cached: nat -> Ty, pre: Projection, union: bool, fields: seq<Ty>, i: nat, proj: Projection, t: Ty)
    ensures InFields(deref, cached, pre, union, fields, i, proj, t) <==>
      AtField(deref, cached, pre, union, fields, i, proj, t) || InFields(deref, cached, pre, union, fields, i + 1, proj, t)
  {
  }

  lemma {:induction false} VariantsMember(deref: nat -> Ty, cached: nat -> Ty, variants: seq<Variant>, v: nat, proj: Projection, t: Ty)
    requires v <= |variants|
    ensures (proj, t) in OfVariants(true, variants, v) <==> InVariants(deref, cached, variants, v, proj, t)
    decreases variants, 0, |variants| - v
  {
    hide InFields;
    if v < |variants| {
      FieldsMember(deref, cached, [Downcast(v)], false, variants[v].fields, 0, proj, t);
      VariantsMember(deref, cached, variants, v + 1, proj, t);
      assert InVariant(deref, cached, variants, v, proj, t) ==> InVariants(deref, cached, variants, v, proj, t);
      assert InVariants(deref, cached, variants, v + 1, proj, t) ==> InVariants(deref, cached, variants, v, proj, t);
      if InVariants(deref, cached, variants, v, proj, t) {
        var w: nat :| v <= w < |variants| && InVariant(deref, cached, variants, w, proj, t);
        assert w == v || v + 1 <= w;
      }
    }
  }

  /** Being at some field of a type means being canonical there and reaching the type through the field. */
  lemma FieldsMeaning(deref: nat -> Ty, cached: nat -> Ty, union: bool, fields: seq<Ty>, pre: Projection, proj: Projection, t: Ty)
    ensures InFields(deref, cached, pre, union, fields, 0, proj, t) <==>
      pre < proj && CanonicalField(union, fields, proj[|pre|..])
      && WalkType(deref, cached, fields[proj[|pre|].index], proj[|pre| + 1..]) == Some(t)
  {
    if pre < proj && CanonicalField(union, fields, proj[|pre|..]) {
      var k := proj[|pre|].index;
      assert proj[|pre|..][1..] == proj[|pre| + 1..];
      assert pre + [FieldSelector(union, k)] == proj[..|pre| + 1];
      assert AtField(deref, cached, pre, union, fields, k, proj, t) <==>
        WalkType(deref, cached, fields[k], proj[|pre| + 1..]) == Some(t);
    }
    if InFields(deref, cached, pre, union, fields, 0, proj, t) {
      var k: nat :| AtField(deref, cached, pre, union, fields, k, proj, t);
      assert proj[|pre|] == FieldSelector(union, k);
      assert proj[|pre|..][1..] == proj[|pre| + 1..];
    }
  }

  /** A listed projection is exactly a canonical one: the full enumeration lists a projection with a type if
      and only if the projection is not empty, each of its selectors is the one prescribed at that point, and
      the walk along it ends at the type. */
  lemma {:induction false} ListedExactly(deref: nat -> Ty, cached: nat -> Ty, ty: Ty, proj: Projection, t: Ty)
    ensures (proj, t) in Enumerated(true, ty) <==> proj != [] && LeadsTo(deref, cached, ty, proj, t)
    decreases ty, 0, 0
  {
    hide InFields;
    match ty
    case Struct(fields) =>
      FieldsMember(deref, cached, [], false, fields, 0, proj, t);
      FieldsListed(deref, cached, ty, false, proj, t);
    case Union(fields) =>
      FieldsMember(deref, cached, [], true, fields, 0, proj, t);
      FieldsListed(deref, cached, ty, true, proj, t);
    case Closure(fields) =>
      FieldsMember(deref, cached, [], false, fields, 0, proj, t);
      FieldsListed(deref, cached, ty, false, proj, t);
    case Coroutine(fields, _) =>
      FieldsMember(deref, cached, [], false, fields, 0, proj, t);
      FieldsListed(deref, cached, ty, false, proj, t);
    case Tuple(fields) =>
      FieldsMember(deref, cached, [], false, fields, 0, proj, t);
      FieldsListed(deref, cached, ty, false, proj, t);
    case Array(elem) => PartMember(deref, cached, [Index], elem, proj, t);
    case Slice(elem) => PartMember(deref, cached, [Index], elem, proj, t);
    case Enum(variants) =>
      VariantsMember(deref, cached, variants, 0, proj, t);
      VariantsMeaning(deref, cached, variants, proj, t);
    case _ =>
  }

  lemma FieldsListed(deref: nat -> Ty, cached: nat -> Ty, ty: Ty, union: bool, proj: Projection, t: Ty)
    requires HasFields(ty) && union == ty.Union?
    requires (proj, t) in OfFields(true, [], union, ty.fields, 0) <==>
      InFields(deref, cached, [], union, ty.fields, 0, proj, t)
    ensures (proj, t) in Enumerated(true, ty) <==> proj != [] && LeadsTo(deref, cached, ty, proj, t)
  {
    hide InFields, OfFields;
    FieldsMeaning(deref, cached, union, ty.fields, [], proj, t);
    assert proj[0..] == proj;
    FieldStep(deref, cached, ty, union, proj);
  }

  lemma FieldStep(deref: nat -> Ty, cached: nat -> Ty, ty: Ty, union: bool, proj: Projection)
    requires HasFields(ty) && union == ty.Union?
    ensures proj != [] ==> (Canonical(ty, proj) <==> CanonicalField(union, ty.fields, proj))
    ensures proj != [] && CanonicalField(union, ty.fields, proj) ==>
      WalkType(deref, cached, ty, proj) == WalkType(deref, cached, ty.fields[proj[0].index], proj[1..])
  {
  }

  lemma VariantsMeaning(deref: nat -> Ty, cached: nat -> Ty, variants: seq<Variant>, proj: Projection, t: Ty)
    ensures InVariants(deref, cached, variants, 0, proj, t) <==> proj != [] && LeadsTo(deref, cached, Enum(variants), proj, t)
  {
    hide InFields;
    if proj != [] && LeadsTo(deref, cached, Enum(variants), proj, t) {
      var w := proj[0].variant;
      VariantStep(deref, cached, variants, w, proj);
      FieldsMeaning(deref, cached, false, variants[w].fields, [Downcast(w)], proj, t);
      assert [Downcast(w)] <= proj;
      assert InVariant(deref, cached, variants, w, proj, t);
    }
    if InVariants(deref, cached, variants, 0, proj, t) {
      var w: nat :| w < |variants| && InVariant(deref, cached, variants, w, proj, t);
      FieldsMeaning(deref, cached, false, variants[w].fields, [Downcast(w)], proj, t);
      VariantStep(deref, cached, variants, w, proj);
    }
  }

  lemma VariantStep(deref: nat -> Ty, cached: nat -> Ty, variants: seq<Variant>, w: nat, proj: Projection)
    requires w < |variants| && proj != [] && proj[0] == Downcast(w) && proj[1..] != []
    ensures Canonical(Enum(variants), proj) <==> CanonicalField(false, variants[w].fields, proj[1..])
    ensures CanonicalField(false, variants[w].fields, proj[1..]) ==>
      WalkType(deref, cached, Enum(variants), proj) == WalkType(deref, cached, variants[w].fields[proj[1].index], proj[2..])
  {
  }

  /** Canonical projections do not lead through pointers. */
  lemma {:induction false} NoPointerOnTheWay(deref: nat -> Ty, cached: nat -> Ty, ty: Ty, proj: Projection, k: nat)
    requires Canonical(ty, proj) && k < |proj|
    ensures WalkType(deref, cached, ty, proj[..k]).Some? && !WalkType(deref, cached, ty, proj[..k]).value.Pointer?
    decreases |proj|
  {
    if k > 0 {
      var (next, _) := StepType(deref, cached, ty, proj[0]);
      assert proj[..k][1..] == proj[1..][..k - 1];
      CanonicalNext(deref, cached, ty, proj);
      NoPointerOnTheWay(deref, cached, next.value, proj[1..], k - 1);
    }
  }

  lemma CanonicalNext(deref: nat -> Ty, cached: nat -> Ty, ty: Ty, proj: Projection)
    requires Canonical(ty, proj) && proj != []
    ensures var (next, stop) := StepType(deref, cached, ty, proj[0]);
      next.Some? && !stop && Canonical(next.value, proj[1..])
  {
  }

  lemma {:induction false} OnlyPointersMember(l: Listing, proj: Projection, t: Ty)
    ensures (proj, t) in OnlyPointers(l) <==> (proj, t) in l && t.Pointer?
  {
    if l != [] {
      OnlyPointersMember(l[1..], proj, t);
      assert l == [l[0]] + l[1..];
    }
  }

  /** The pointer enumeration lists (p, t) exactly when p is canonical and not empty and the walk along it
      ends at the pointer type t; on the way there is no other pointer. */
  lemma PointersListedExactly(deref: nat -> Ty, cached: nat -> Ty, ty: Ty, proj: Projection, t: Ty)
    ensures (proj, t) in Enumerated(false, ty) <==>
      proj != [] && Canonical(ty, proj) && WalkType(deref, cached, ty, proj) == Some(t) && t.Pointer?
      && forall k: nat :: k < |proj| ==>
        WalkType(deref, cached, ty, proj[..k]).Some? && !WalkType(deref, cached, ty, proj[..k]).value.Pointer?
  {
    hide Enumerated, Canonical, WalkType;
    PointersAreFiltered(ty);
    OnlyPointersMember(Enumerated(true, ty), proj, t);
    ListedExactly(deref, cached, ty, proj, t);
    if Canonical(ty, proj) {
      forall k: nat | k < |proj|
        ensures WalkType(deref, cached, ty, proj[..k]).Some? && !WalkType(deref, cached, ty, proj[..k]).value.Pointer?
      {
        NoPointerOnTheWay(deref, cached, ty, proj, k);
      }
    }
  }

  /** The walk alone is more lenient than the enumeration: it takes a field selector for a union field. */
  lemma WalkIsMoreLenient(deref: nat -> Ty, cached: nat -> Ty)
    ensures var u := Union([Pointer(0)]);
      && WalkType(deref, cached, u, [Field(0)]) == Some(Pointer(0))
      && ([Field(0)], Pointer(0)) !in Enumerated(false, u) && ([UnionField(0)], Pointer(0)) in Enumerated(false, u)
  {
    var u := Union([Pointer(0)]);
    PointersListedExactly(deref, cached, u, [Field(0)], Pointer(0));
    assert !Canonical(u, [Field(0)]);
    assert OfFields(false, [], true, [Pointer(0)], 0)
      == OfPart(false, [] + [UnionField(0)], Pointer(0)) + OfFields(false, [], true, [Pointer(0)], 1);
    assert [] + [UnionField(0)] == [UnionField(0)];
  }

  /** What stands behind one selector: the part itself, or something that is listed for its type. */
  ghost predicate Behind(part: Ty, rest: Projection, t: Ty)
  {
    (rest == [] && t == part) || (rest, t) in Enumerated(true, part)
  }

  /** The enumeration by the shape of the type: the fields of a struct, union, tuple, closure or coroutine, the
      fields of each variant of an enum, and the elements of an array or slice, each with what is listed for its own
      type; nothing for any other type. */
  lemma ListedByShape(ty: Ty, q: Projection, t: Ty)
    ensures ty.Struct? || ty.Tuple? || ty.Closure? || ty.Coroutine? ==>
      ((q, t) in Enumerated(true, ty) <==> q != [] && q[0].Field? && q[0].index < |ty.fields| && Behind(ty.fields[q[0].index], q[1..], t))
    ensures ty.Union? ==>
      ((q, t) in Enumerated(true, ty) <==> q != [] && q[0].UnionField? && q[0].index < |ty.fields| && Behind(ty.fields[q[0].index], q[1..], t))
    ensures ty.Array? || ty.Slice? ==> ((q, t) in Enumerated(true, ty) <==> q != [] && q[0] == Index && Behind(ty.elem, q[1..], t))
    ensures ty.Enum? ==>
      ((q, t) in Enumerated(true, ty) <==>
         && |q| >= 2 && q[0].Downcast? && q[0].variant < |ty.variants|
         && q[1].Field? && q[1].index < |ty.variants[q[0].variant].fields|
         && Behind(ty.variants[q[0].variant].fields[q[1].index], q[2..], t))
    ensures ty.Pointer? || ty.Never? || ty.Other? ==> Enumerated(true, ty) == []
  {
    hide Enumerated, Canonical, WalkType;
    ListedExactly(Nowhere, Nowhere, ty, q, t);
    if q != [] {
      CanonicalByShape(ty, q);
      assert q == [q[0]] + q[1..];
    }
    if ty.Struct? || ty.Tuple? || ty.Closure? || ty.Coroutine? || ty.Union? {
      if q != [] && (q[0].Field? || q[0].UnionField?) && q[0].index < |ty.fields| {
        BehindIsWalked(ty.fields[q[0].index], q[1..], t);
        FieldSteps(Nowhere, Nowhere, ty, q[0].index, q[0], q[1..]);
      }
    } else if ty.Array? || ty.Slice? {
      if q != [] {
        BehindIsWalked(ty.elem, q[1..], t);
        SelectorSteps(Nowhere, Nowhere, ty, q[1..]);
      }
    } else if ty.Enum? {
      VariantListed(ty, q, t);
    } else {
      NothingListed(ty);
    }
  }

  /** What each type prescribes for the first selector. */
  lemma CanonicalByShape(ty: Ty, q: Projection)
    requires q != []
    ensures ty.Struct? || ty.Tuple? || ty.Closure? || ty.Coroutine? ==>
      (Canonical(ty, q) <==> q[0].Field? && q[0].index < |ty.fields| && Canonical(ty.fields[q[0].index], q[1..]))
    ensures ty.Union? ==> (Canonical(ty, q) <==> q[0].UnionField? && q[0].index < |ty.fields| && Canonical(ty.fields[q[0].index], q[1..]))
    ensures ty.Array? || ty.Slice? ==> (Canonical(ty, q) <==> q[0] == Index && Canonical(ty.elem, q[1..]))
    ensures ty.Enum? ==>
      (Canonical(ty, q) <==>
         && q[0].Downcast? && q[0].variant < |ty.variants|
         && q[1..] != [] && Canonical(Tuple(ty.variants[q[0].variant].fields), q[1..]))
  {
    if ty.Enum? && q[0].Downcast? && q[0].variant < |ty.variants| && q[1..] != [] {
      assert CanonicalField(false, ty.variants[q[0].variant].fields, q[1..]) == Canonical(Tuple(ty.variants[q[0].variant].fields), q[1..]);
    }
  }

  lemma NothingListed(ty: Ty)
    requires ty.Pointer? || ty.Never? || ty.Other?
    ensures Enumerated(true, ty) == []
  {
  }

  lemma BehindIsWalked(part: Ty, rest: Projection, t: Ty)
    ensures Behind(part, rest, t) <==> LeadsTo(Nowhere, Nowhere, part, rest, t)
  {
    hide Enumerated;
    ListedExactly(Nowhere, Nowhere, part, rest, t);
  }

  lemma VariantListed(ty: Ty, q: Projection, t: Ty)
    requires ty.Enum?
    ensures q != [] && LeadsTo(Nowhere, Nowhere, ty, q, t) <==>
      && |q| >= 2 && q[0].Downcast? && q[0].variant < |ty.variants|
      && q[1].Field? && q[1].index < |ty.variants[q[0].variant].fields|
      && Behind(ty.variants[q[0].variant].fields[q[1].index], q[2..], t)
  {
    hide Enumerated, Canonical, WalkType;
    if q != [] {
      CanonicalByShape(ty, q);
    }
    if |q| >= 2 && q[0].Downcast? && q[0].variant < |ty.variants| {
      var fields := ty.variants[q[0].variant].fields;
      CanonicalByShape(Tuple(fields), q[1..]);
      assert q[1..][1..] == q[2..];
    }
    if |q| >= 2 && q[0].Downcast? && q[0].variant < |ty.variants| && q[1].Field? {
      var fields := ty.variants[q[0].variant].fields;
      assert q == [q[0]] + q[1..] && q[1..] == [q[1]] + q[2..];
      DowncastSteps(Nowhere, Nowhere, ty, q[0].variant, q[1..]);
      FieldSteps(Nowhere, Nowhere, Tuple(fields), q[1].index, q[1], q[2..]);
      if q[1].index < |fields| {
        BehindIsWalked(fields[q[1].index], q[2..], t);
      }
    }
  }

  // ----- no projection is listed twice

  ghost predicate Distinct(l: Listing)
  {
    forall i, j :: 0 <= i < j < |l| ==> l[i].0 != l[j].0
  }

  lemma ConcatDistinct(a: Listing, b: Listing)
    requires Distinct(a) && Distinct(b)
    requires forall x, y :: x in a && y in b ==> x.0 != y.0
    ensures Distinct(a + b)
  {
  }

  function Nowhere(i: nat): Ty { Never }

  lemma {:induction false} PartDistinct(at: Projection, ty: Ty)
    ensures Distinct(OfPart(true, at, ty))
    decreases ty, 1, 0
  {
    EnumeratedDistinct(ty);
    var inside := Enumerated(true, ty);
    forall i, j | 0 <= i < j < |inside| ensures at + inside[i].0 != at + inside[j].0 {
      assert (at + inside[i].0)[|at|..] == inside[i].0 && (at + inside[j].0)[|at|..] == inside[j].0;
    }
    forall y | y in Prefixed(at, inside) ensures at != y.0 {
      PrefixedMember(at, inside, y.0, y.1);
      ListedExactly(Nowhere, Nowhere, ty, y.0[|at|..], y.1);
    }
    ConcatDistinct([(at, ty)], Prefixed(at, inside));
  }

  lemma {:induction false} FieldsDistinct(pre: Projection, union: bool, fields: seq<Ty>, i: nat)
    requires i <= |fields|
    ensures Distinct(OfFields(true, pre, union, fields, i))
    decreases fields, 0, |fields| - i
  {
    if i < |fields| {
      var at := pre + [FieldSelector(union, i)];
      PartDistinct(at, fields[i]);
      FieldsDistinct(pre, union, fields, i + 1);
      forall x, y | x in OfPart(true, at, fields[i]) && y in OfFields(true, pre, union, fields, i + 1) ensures x.0 != y.0 {
        PartMember(Nowhere, Nowhere, at, fields[i], x.0, x.1);
        FieldsMember(Nowhere, Nowhere, pre, union, fields, i + 1, y.0, y.1);
        var k: nat :| i + 1 <= k && AtField(Nowhere, Nowhere, pre, union, fields, k, y.0, y.1);
        assert x.0[|pre|] == FieldSelector(union, i) && y.0[|pre|] == FieldSelector(union, k);
      }
      ConcatDistinct(OfPart(true, at, fields[i]), OfFields(true, pre, union, fields, i + 1));
    }
  }

  lemma {:induction false} VariantsDistinct(variants: seq<Variant>, v: nat)
    requires v <= |variants|
    ensures Distinct(OfVariants(true, variants, v))
    decreases variants, 0, |variants| - v
  {
    if v < |variants| {
      var here := OfFields(true, [Downcast(v)], false, variants[v].fields, 0);
      FieldsDistinct([Downcast(v)], false, variants[v].fields, 0);
      VariantsDistinct(variants, v + 1);
      forall x, y | x in here && y in OfVariants(true, variants, v + 1) ensures x.0 != y.0 {
        FieldsMember(Nowhere, Nowhere, [Downcast(v)], false, variants[v].fields, 0, x.0, x.1);
        FieldsMeaning(Nowhere, Nowhere, false, variants[v].fields, [Downcast(v)], x.0, x.1);
        VariantsMember(Nowhere, Nowhere, variants, v + 1, y.0, y.1);
        var w: nat :| v + 1 <= w < |variants| && InVariant(Nowhere, Nowhere, variants, w, y.0, y.1);
        FieldsMeaning(Nowhere, Nowhere, false, variants[w].fields, [Downcast(w)], y.0, y.1);
        assert x.0[0] == Downcast(v) && y.0[0] == Downcast(w);
      }
      ConcatDistinct(here, OfVariants(true, variants, v + 1));
    }
  }

  /** No projection is listed twice. */
  lemma {:induction false} EnumeratedDistinct(ty: Ty)
    ensures Distinct(Enumerated(true, ty))
    decreases ty, 0, 0
  {
    match ty
    case Struct(fields) => FieldsDistinct([], false, fields, 0);
    case Union(fields) => FieldsDistinct([], true, fields, 0);
    case Enum(variants) => VariantsDistinct(variants, 0);
    case Array(elem) => PartDistinct([Index], elem);
    case Slice(elem) => PartDistinct([Index], elem);
    case Closure(fields) => FieldsDistinct([], false, fields, 0);
    case Coroutine(fields, _) => FieldsDistinct([], false, fields, 0);
    case Tuple(fields) => FieldsDistinct([], false, fields, 0);
    case _ =>
  }

  lemma {:induction false} OnlyPointersDistinct(l: Listing)
    requires Distinct(l)
    ensures Distinct(OnlyPointers(l))
  {
    if l != [] {
      OnlyPointersDistinct(l[1..]);
      forall y | y in OnlyPointers(l[1..]) ensures y.0 != l[0].0 {
        OnlyPointersMember(l[1..], y.0, y.1);
        var k :| 0 <= k < |l[1..]| && l[1..][k] == (y.0, y.1);
        assert l[k + 1].0 == y.0;
      }
      if l[0].1.Pointer? {
        ConcatDistinct([l[0]], OnlyPointers(l[1..]));
      }
    }
  }

  lemma PointersDistinct(ty: Ty)
    ensures Distinct(Enumerated(false, ty))
  {
    EnumeratedDistinct(ty);
    PointersAreFiltered(ty);
    OnlyPointersDistinct(Enumerated(true, ty));
  }
}
