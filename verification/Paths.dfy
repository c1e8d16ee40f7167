/** Access paths (src/mir/path.rs): the names of memory locations that the analysis points to. */
module Paths {

  type FuncId = nat
  type DefId = nat
  type Location = nat

  /** One step from an object to a part of it. */
  datatype PathSelector =
    | Deref
    | Field(index: nat)
    | UnionField(index: nat)
    | Index
    | Subslice(start: nat, end: nat, fromEnd: bool)
    | Downcast(variant: nat)
    | Discriminant
    | Cast(typeIndex: nat)

  type Projection = seq<PathSelector>

  datatype Path =
    | LocalVariable(func: FuncId, ordinal: nat)
    | Parameter(func: FuncId, ordinal: nat)
    | ReturnValue(func: FuncId)
    | Auxiliary(func: FuncId, ordinal: nat)
    | HeapObj(func: FuncId, location: Location)
    | Constant
    | StaticVariable(def: DefId)
    | PromotedConstant(def: DefId, ordinal: nat)
    | QualifiedPath(base: Path, projection: Projection)
    | OffsetPath(base: Path, offset: nat)
    | Function(func: FuncId)
    | PromotedStrRefArray
    | PromotedArgumentV1Array
    | Type(typeIndex: nat)

  /** A qualified path is flat: its base is not qualified and its projection is not empty.
      `new_qualified` asserts the first half; every constructor keeps the second. */
  predicate Flat(p: Path)
  {
    p.QualifiedPath? ==> !p.base.QualifiedPath? && p.projection != []
  }

  /** The base of a qualified path, or the path itself. */
  function Base(p: Path): Path
  {
    if p.QualifiedPath? then p.base else p
  }

  /** The projection of a qualified path; empty for every other path. */
  function Selectors(p: Path): Projection
  {
    if p.QualifiedPath? then p.projection else []
  }

  function AppendProjection(p: Path, proj: Projection): Path
  {
    if proj == [] then p
    else if p.QualifiedPath? then QualifiedPath(p.base, p.projection + proj)
    else QualifiedPath(p, proj)
  }

  function TruncateProjectionElems(p: Path, len: nat): Path
  {
    if p.QualifiedPath? then
      if |p.projection| < len then p
      else if len == 0 then p.base
      else QualifiedPath(p.base, p.projection[..len])
    else p
  }

  function RemoveCast(p: Path): Path
  {
    if p.QualifiedPath? && p.projection != [] && p.projection[|p.projection| - 1].Cast? then
      TruncateProjectionElems(p, |p.projection| - 1)
    else p
  }

  datatype Owner = NoOwner | OwnedBy(func: FuncId)

  /** The function whose frame holds the location (`get_containing_func`). */
  function ContainingFunc(p: Path): Owner
  {
    match p
    case LocalVariable(f, _) => OwnedBy(f)
    case Parameter(f, _) => OwnedBy(f)
    case ReturnValue(f) => OwnedBy(f)
    case Auxiliary(f, _) => OwnedBy(f)
    case HeapObj(f, _) => OwnedBy(f)
    case QualifiedPath(b, _) => ContainingFunc(b)
    case OffsetPath(b, _) => ContainingFunc(b)
    case _ => NoOwner
  }

  /** Appending is determined by the base and the list of selectors: it keeps paths flat, keeps the
      base, and concatenates the selectors. */
  lemma AppendMeaning(p: Path, proj: Projection)
    requires Flat(p)
    ensures var q := AppendProjection(p, proj);
      Flat(q) && Base(q) == Base(p) && Selectors(q) == Selectors(p) + proj
      && ContainingFunc(q) == ContainingFunc(p)
  {
  }

  lemma AppendKeepsBase(p: Path, proj: Projection)
    ensures Base(AppendProjection(p, proj)) == Base(p)
  {
  }

  /** Flat paths are determined by base and selectors. */
  lemma FlatUnique(p: Path, q: Path)
    requires Flat(p) && Flat(q) && Base(p) == Base(q) && Selectors(p) == Selectors(q)
    ensures p == q
  {
  }

  /** Appending twice is appending once; truncating undoes appending. */
  lemma AppendAppend(p: Path, a: Projection, b: Projection)
    requires Flat(p)
    ensures AppendProjection(AppendProjection(p, a), b) == AppendProjection(p, a + b)
    ensures TruncateProjectionElems(AppendProjection(p, a), |Selectors(p)|) == p
  {
  }

  /** Removing the cast that was just appended gives the path back; a path that does not end in a cast
      is left alone. */
  lemma RemoveCastUndoesCast(p: Path, t: nat)
    requires Flat(p)
    ensures RemoveCast(AppendProjection(p, [Cast(t)])) == p
    ensures RemoveCast(p) == p <==> (p.QualifiedPath? ==> !p.projection[|p.projection| - 1].Cast?)
  {
  }
}
