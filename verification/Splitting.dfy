/** Assignments between two dereferences (src/builder/fpag_builder.rs:472-492): `(*a).f = (*b).g` becomes
    loads into a fresh auxiliary local and stores from it, one pair for each pointer-typed part. */
module Splitting {
  import opened Paths
  import opened Textbook

  /** One assignment between dereferences, the part of the auxiliary that it goes through, and whether the
      store half is emitted. It is not when the types of the two sides do not match. */
  datatype SplitCopy = SplitCopy(copy: Constraint, aux: Path, stored: bool)

  /** The bases of the paths that a constraint mentions. */
  function BasesOf(c: Constraint): set<Path>
  {
    match c
    case AddressOf(o, q) => {Base(o), Base(q)}
    case Copy(s, d) => {Base(s), Base(d)}
    case LoadFrom(b, _, d) => {Base(b), Base(d)}
    case StoreTo(s, _, b) => {Base(s), Base(b)}
    case FieldOf(b, _, d) => {Base(b), Base(d)}
    case CopyDeref(b, _, a, _) => {Base(a), Base(b)}
  }

  /** The auxiliary locals of the splits. Several splits may go through parts of one of them. */
  function AuxBases(splits: seq<SplitCopy>): set<Path>
  {
    set s | s in splits :: Base(s.aux)
  }

  /** The program with its two-dereference assignments. */
  ghost function Unsplit(rest: iset<Constraint>, splits: seq<SplitCopy>): iset<Constraint>
  {
    iset c: Constraint | c in rest || IsCopy(splits, c)
  }

  ghost predicate IsCopy(splits: seq<SplitCopy>, c: Constraint)
  {
    exists s :: s in splits && s.stored && c == s.copy
  }

  function LoadHalf(s: SplitCopy): Constraint
    requires s.copy.CopyDeref?
  {
    LoadFrom(s.copy.read, s.copy.readProj, s.aux)
  }

  function StoreHalf(s: SplitCopy): Constraint
    requires s.copy.CopyDeref?
  {
    StoreTo(s.aux, s.copy.writtenProj, s.copy.written)
  }

  ghost predicate IsHalf(splits: seq<SplitCopy>, c: Constraint)
  {
    exists s :: s in splits && s.copy.CopyDeref? && (c == LoadHalf(s) || (s.stored && c == StoreHalf(s)))
  }

  /** The program in which every one of them was split. */
  ghost function Split(rest: iset<Constraint>, splits: seq<SplitCopy>): iset<Constraint>
  {
    iset c: Constraint | c in rest || IsHalf(splits, c)
  }

  /** The auxiliaries are parts of auxiliary locals that occur nowhere in the program, and no part is used
      twice. */
  ghost predicate FreshAux(rest: iset<Constraint>, splits: seq<SplitCopy>)
  {
    && (forall s :: s in splits ==> s.copy.CopyDeref? && Base(s.aux).Auxiliary? && BasesOf(s.copy) !! AuxBases(splits))
    && (forall s, t :: s in splits && t in splits && s.aux == t.aux ==> s == t)
    && (forall c :: c in rest ==> BasesOf(c) !! AuxBases(splits))
  }

  /** On what the assignment reads and where it writes, passing through the auxiliary filters exactly what
      passing directly filters. T is the least solution of the unsplit program. Without a filter this always
      holds. */
  ghost predicate Transparent(pass: (Path, Path, Path) -> bool, T: Relation, splits: seq<SplitCopy>)
  {
    forall s, y, x, o {:trigger Reads(T, s, y, o), Writes(T, s, x)} ::
      s in splits && s.stored && Reads(T, s, y, o) && Writes(T, s, x) ==>
      (pass(Source(s, y), Target(s, x), o) <==> pass(Source(s, y), s.aux, o) && pass(s.aux, Target(s, x), o))
  }

  function Source(s: SplitCopy, y: Path): Path
    requires s.copy.CopyDeref?
  {
    AppendProjection(y, s.copy.readProj)
  }

  function Target(s: SplitCopy, x: Path): Path
    requires s.copy.CopyDeref?
  {
    AppendProjection(x, s.copy.writtenProj)
  }

  ghost predicate Reads(T: Relation, s: SplitCopy, y: Path, o: Path)
  {
    s.copy.CopyDeref? && (s.copy.read, y) in T && (Source(s, y), o) in T
  }

  ghost predicate Writes(T: Relation, s: SplitCopy, x: Path)
  {
    s.copy.CopyDeref? && (s.copy.written, x) in T
  }

  /** Without a filter every auxiliary is transparent. */
  lemma UnfilteredIsTransparent(T: Relation, splits: seq<SplitCopy>)
    ensures Transparent((s, d, o) => true, T, splits)
  {
  }

  /** T knows nothing of the auxiliary locals and their parts. */
  ghost predicate Avoids(T: Relation, bases: set<Path>)
  {
    forall v, o :: (v, o) in T ==> Base(v) !in bases && Base(o) !in bases
  }

  /** Nothing points to an auxiliary or a part of one, and neither points to anything, in the unsplit
      program. */
  lemma UnsplitAvoidsAux(pass: (Path, Path, Path) -> bool, rest: iset<Constraint>, splits: seq<SplitCopy>)
    requires FreshAux(rest, splits)
    ensures Avoids(LeastSolution(pass, Unsplit(rest, splits)), AuxBases(splits))
  {
    var program, bases := Unsplit(rest, splits), AuxBases(splits);
    var T := iset f: (Path, Path) | Base(f.0) !in bases && Base(f.1) !in bases;
    forall c | c in program ensures Satisfies(pass, T, c) {
      assert BasesOf(c) !! bases;
      AvoidingIsSolution(pass, T, bases, c);
    }
    assert Solution(pass, T, program);
  }

  lemma AvoidingIsSolution(pass: (Path, Path, Path) -> bool, T: Relation, bases: set<Path>, c: Constraint)
    requires forall f :: f in T <==> Base(f.0) !in bases && Base(f.1) !in bases
    requires BasesOf(c) !! bases
    ensures Satisfies(pass, T, c)
  {
    forall x: Path, j: Projection ensures Base(AppendProjection(x, j)) == Base(x) {
      AppendKeepsBase(x, j);
    }
  }

  /** What the auxiliary of a split receives from a solution of the unsplit program. */
  ghost predicate Receives(pass: (Path, Path, Path) -> bool, T: Relation, s: SplitCopy, o: Path)
  {
    exists y :: Reads(T, s, y, o) && pass(Source(s, y), s.aux, o)
  }

  ghost predicate WithAux(pass: (Path, Path, Path) -> bool, T: Relation, splits: seq<SplitCopy>, v: Path, o: Path)
  {
    (v, o) in T || exists s :: s in splits && v == s.aux && Receives(pass, T, s, o)
  }

  ghost function Extended(pass: (Path, Path, Path) -> bool, T: Relation, splits: seq<SplitCopy>): Relation
  {
    iset f: (Path, Path) | WithAux(pass, T, splits, f.0, f.1)
  }

  /** Away from the auxiliaries the extension adds nothing. */
  lemma ExtendedOutside(pass: (Path, Path, Path) -> bool, T: Relation, splits: seq<SplitCopy>)
    ensures forall v, o :: Base(v) !in AuxBases(splits) ==> ((v, o) in Extended(pass, T, splits) <==> (v, o) in T)
  {
  }

  /** The least solution of the unsplit program, extended to the auxiliaries, solves the split one. */
  lemma UnsplitExtends(pass: (Path, Path, Path) -> bool, rest: iset<Constraint>, splits: seq<SplitCopy>)
    requires FreshAux(rest, splits) && Transparent(pass, LeastSolution(pass, Unsplit(rest, splits)), splits)
    ensures Solution(pass, Extended(pass, LeastSolution(pass, Unsplit(rest, splits)), splits), Split(rest, splits))
  {
    var T := LeastSolution(pass, Unsplit(rest, splits));
    LeastSolutionIsSolution(pass, Unsplit(rest, splits));
    UnsplitAvoidsAux(pass, rest, splits);
    forall c | c in Split(rest, splits) ensures Satisfies(pass, Extended(pass, T, splits), c) {
      if c in rest {
        ExtendedOutside(pass, T, splits);
        RestSatisfied(pass, T, Extended(pass, T, splits), AuxBases(splits), c);
      } else {
        var s :| s in splits && s.copy.CopyDeref? && (c == LoadHalf(s) || (s.stored && c == StoreHalf(s)));
        if c == LoadHalf(s) {
          LoadHalfSatisfied(pass, T, splits, s);
        } else {
          assert IsCopy(splits, s.copy);
          StoreHalfSatisfied(pass, T, rest, splits, s);
        }
      }
    }
  }

  lemma LoadHalfSatisfied(pass: (Path, Path, Path) -> bool, T: Relation, splits: seq<SplitCopy>, s: SplitCopy)
    requires s in splits && s.copy.CopyDeref? && BasesOf(s.copy) !! AuxBases(splits) && Avoids(T, AuxBases(splits))
    ensures Satisfies(pass, Extended(pass, T, splits), LoadHalf(s))
  {
    var c, U := s.copy, Extended(pass, T, splits);
    ExtendedOutside(pass, T, splits);
    forall y, o | (c.read, y) in U && (Source(s, y), o) in U && pass(Source(s, y), s.aux, o)
      ensures (s.aux, o) in U
    {
      assert Base(c.read) in BasesOf(c);
      assert (c.read, y) in T;
      AppendKeepsBase(y, c.readProj);
      assert Reads(T, s, y, o);
      assert Receives(pass, T, s, o);
    }
  }

  lemma StoreHalfSatisfied(pass: (Path, Path, Path) -> bool, T: Relation, rest: iset<Constraint>, splits: seq<SplitCopy>, s: SplitCopy)
    requires FreshAux(rest, splits) && s in splits && s.stored && Avoids(T, AuxBases(splits))
    requires Transparent(pass, T, splits) && Satisfies(pass, T, s.copy)
    ensures Satisfies(pass, Extended(pass, T, splits), StoreHalf(s))
  {
    var c, U := s.copy, Extended(pass, T, splits);
    ExtendedOutside(pass, T, splits);
    forall x, o | (c.written, x) in U && (s.aux, o) in U && pass(s.aux, Target(s, x), o)
      ensures (Target(s, x), o) in U
    {
      assert Base(c.written) in BasesOf(c) && Base(s.aux) in AuxBases(splits);
      assert Writes(T, s, x) && (s.aux, o) !in T;
      var t :| t in splits && s.aux == t.aux && Receives(pass, T, t, o);
      assert t == s;
      var y :| Reads(T, s, y, o) && pass(Source(s, y), s.aux, o);
      assert pass(Source(s, y), Target(s, x), o);
      assert (Target(s, x), o) in T;
    }
  }

  lemma RestSatisfied(pass: (Path, Path, Path) -> bool, T: Relation, U: Relation, bases: set<Path>, c: Constraint)
    requires Satisfies(pass, T, c) && T <= U && BasesOf(c) !! bases && Avoids(T, bases)
    requires forall v, o :: Base(v) !in bases ==> ((v, o) in U <==> (v, o) in T)
    ensures Satisfies(pass, U, c)
  {
    forall x: Path, j: Projection ensures Base(AppendProjection(x, j)) == Base(x) {
      AppendKeepsBase(x, j);
    }
  }

  /** A solution of the split program that says no more than T away from the auxiliaries solves the unsplit
      one. */
  lemma SplitSolvesUnsplit(pass: (Path, Path, Path) -> bool, rest: iset<Constraint>, splits: seq<SplitCopy>, S: Relation, T: Relation)
    requires FreshAux(rest, splits) && Transparent(pass, T, splits) && Avoids(T, AuxBases(splits))
    requires Solution(pass, S, Split(rest, splits)) && S <= Extended(pass, T, splits)
    ensures Solution(pass, S, Unsplit(rest, splits))
  {
    forall c | c in Unsplit(rest, splits) ensures Satisfies(pass, S, c) {
      if c in rest {
        assert c in Split(rest, splits);
      } else {
        var s :| s in splits && s.stored && c == s.copy;
        assert IsHalf(splits, LoadHalf(s)) && IsHalf(splits, StoreHalf(s));
        HalvesMakeCopy(pass, S, T, splits, s);
      }
    }
  }

  lemma HalvesMakeCopy(pass: (Path, Path, Path) -> bool, S: Relation, T: Relation, splits: seq<SplitCopy>, s: SplitCopy)
    requires s in splits && s.stored && s.copy.CopyDeref? && BasesOf(s.copy) !! AuxBases(splits)
    requires Transparent(pass, T, splits) && S <= Extended(pass, T, splits) && Avoids(T, AuxBases(splits))
    requires Satisfies(pass, S, LoadHalf(s)) && Satisfies(pass, S, StoreHalf(s))
    ensures Satisfies(pass, S, s.copy)
  {
    var c := s.copy;
    ExtendedOutside(pass, T, splits);
    forall x, y, o | (c.read, y) in S && (c.written, x) in S && (AppendProjection(y, c.readProj), o) in S
      && pass(AppendProjection(y, c.readProj), AppendProjection(x, c.writtenProj), o)
      ensures (AppendProjection(x, c.writtenProj), o) in S
    {
      assert Source(s, y) == AppendProjection(y, c.readProj) && Target(s, x) == AppendProjection(x, c.writtenProj);
      assert Base(c.read) in BasesOf(c) && Base(c.written) in BasesOf(c);
      assert (c.read, y) in T && Writes(T, s, x);
      AppendKeepsBase(y, c.readProj);
      assert Reads(T, s, y, o);
      assert pass(Source(s, y), s.aux, o) && pass(s.aux, Target(s, x), o);
      assert LoadHalf(s) == LoadFrom(c.read, c.readProj, s.aux) && StoreHalf(s) == StoreTo(s.aux, c.writtenProj, c.written);
      assert (s.aux, o) in S;
      assert (Target(s, x), o) in S;
    }
  }

  /** Splitting preserves meaning: whatever the program, however many assignments are split and through
      however many parts of their auxiliaries, every location outside the auxiliaries has the same points-to
      set in the least solution. */
  lemma SplittingPreservesLeastSolution(pass: (Path, Path, Path) -> bool, rest: iset<Constraint>, splits: seq<SplitCopy>)
    requires FreshAux(rest, splits) && Transparent(pass, LeastSolution(pass, Unsplit(rest, splits)), splits)
    ensures forall v, o :: Base(v) !in AuxBases(splits) ==>
      ((v, o) in LeastSolution(pass, Split(rest, splits)) <==> (v, o) in LeastSolution(pass, Unsplit(rest, splits)))
  {
    var S, T := LeastSolution(pass, Split(rest, splits)), LeastSolution(pass, Unsplit(rest, splits));
    UnsplitExtends(pass, rest, splits);
    var U := Extended(pass, T, splits);
    assert Solution(pass, U, Split(rest, splits));
    assert S <= U;
    ExtendedOutside(pass, T, splits);
    UnsplitAvoidsAux(pass, rest, splits);
    LeastSolutionIsSolution(pass, Split(rest, splits));
    SplitSolvesUnsplit(pass, rest, splits, S, T);
    assert T <= S;
  }

  // ----- the builder

  /** A dereferenced value or a part of one. */
  predicate IsDerefPath(p: Path)
  {
    match p
    case QualifiedPath(_, projection) => projection != [] && projection[0] == Deref
    case OffsetPath(base, _) => IsDerefPath(base)
    case _ => false
  }

  /** A path that stands for a MIR place: flat, and without offsets. */
  predicate IsPlace(p: Path)
  {
    Flat(p) && !p.OffsetPath?
  }

  /** What an assignment between two pointer-typed places means. */
  function Assignment(src: Path, dst: Path): Constraint
    requires IsPlace(src) && IsPlace(dst)
  {
    match (IsDerefPath(src), IsDerefPath(dst))
    case (false, false) => Copy(src, dst)
    case (true, false) => LoadFrom(src.base, src.projection[1..], dst)
    case (false, true) => StoreTo(src, dst.projection[1..], dst.base)
    case (true, true) => CopyDeref(src.base, src.projection[1..], dst.base, dst.projection[1..])
  }

  /** A location of a place: the place itself, or when the place starts with a dereference, the part that the
      rest of its projection names of a location that its base points to. */
  ghost predicate Locates(R: Relation, p: Path, x: Path)
  {
    if p.QualifiedPath? && p.projection != [] && p.projection[0] == Deref then
      exists y :: (p.base, y) in R && x == AppendProjection(y, p.projection[1..])
    else x == p
  }

  /** What an assignment between places means: whatever a location of the source points to passes to every
      location of the destination. */
  lemma AssignmentMeaning(pass: (Path, Path, Path) -> bool, R: Relation, src: Path, dst: Path)
    requires IsPlace(src) && IsPlace(dst)
    ensures Satisfies(pass, R, Assignment(src, dst)) <==>
      forall x, z, o :: Locates(R, src, x) && Locates(R, dst, z) && (x, o) in R && pass(x, z, o) ==> (z, o) in R
  {
    if Satisfies(pass, R, Assignment(src, dst)) {
      forall x, z, o | Locates(R, src, x) && Locates(R, dst, z) && (x, o) in R && pass(x, z, o) ensures (z, o) in R {
      }
    }
    if forall x, z, o :: Locates(R, src, x) && Locates(R, dst, z) && (x, o) in R && pass(x, z, o) ==> (z, o) in R {
      AssignmentHolds(pass, R, src, dst);
    }
  }

  /** And between their parts. */
  lemma AssignmentsMeaning(pass: (Path, Path, Path) -> bool, R: Relation, src: Path, dst: Path, projs: seq<Projection>)
    requires IsPlace(src) && IsPlace(dst)
    ensures (forall c :: c in Assignments(src, dst, projs) ==> Satisfies(pass, R, c)) <==>
      forall k, x, z, o ::
        (0 <= k < |projs| && Locates(R, AppendProjection(src, projs[k]), x) && Locates(R, AppendProjection(dst, projs[k]), z)
         && (x, o) in R && pass(x, z, o)) ==> (z, o) in R
  {
    hide Satisfies, Locates, Assignment, Assignments, IsPlace;
    forall k | 0 <= k < |projs|
      ensures Satisfies(pass, R, Assignments(src, dst, projs)[k]) <==>
        forall x, z, o ::
          (Locates(R, AppendProjection(src, projs[k]), x) && Locates(R, AppendProjection(dst, projs[k]), z)
           && (x, o) in R && pass(x, z, o)) ==> (z, o) in R
    {
      AssignmentMeaning(pass, R, PartOf(src, projs[k]), PartOf(dst, projs[k]));
    }
  }

  lemma AssignmentHolds(pass: (Path, Path, Path) -> bool, R: Relation, src: Path, dst: Path)
    requires IsPlace(src) && IsPlace(dst)
    requires forall x, z, o :: Locates(R, src, x) && Locates(R, dst, z) && (x, o) in R && pass(x, z, o) ==> (z, o) in R
    ensures Satisfies(pass, R, Assignment(src, dst))
  {
    if IsDerefPath(src) {
      forall y | (src.base, y) in R ensures Locates(R, src, AppendProjection(y, src.projection[1..])) {
      }
    }
    if IsDerefPath(dst) {
      forall y | (dst.base, y) in R ensures Locates(R, dst, AppendProjection(y, dst.projection[1..])) {
      }
    }
  }

  /** The assignments between the parts of two places. */
  function Assignments(src: Path, dst: Path, projs: seq<Projection>): (r: seq<Constraint>)
    requires IsPlace(src) && IsPlace(dst)
    ensures |r| == |projs|
    ensures forall k :: 0 <= k < |r| ==> r[k] == Assignment(PartOf(src, projs[k]), PartOf(dst, projs[k]))
  {
    if projs == [] then []
    else [Assignment(PartOf(src, projs[0]), PartOf(dst, projs[0]))] + Assignments(src, dst, projs[1..])
  }

  ghost function SetOf(cs: seq<Constraint>): iset<Constraint>
  {
    iset c | c in cs
  }

  function PartOf(p: Path, proj: Projection): (r: Path)
    requires IsPlace(p)
    ensures IsPlace(r) && Base(r) == Base(p) && Selectors(r) == Selectors(p) + proj
  {
    AppendMeaning(p, proj);
    AppendProjection(p, proj)
  }

  /** The splits of an assignment between two dereferences. */
  function SplitsOf(src: Path, dst: Path, aux: Path, projs: seq<Projection>, stored: bool): (r: seq<SplitCopy>)
    requires IsPlace(src) && IsPlace(dst) && IsPlace(aux)
    ensures |r| == |projs|
    ensures forall k :: 0 <= k < |r| ==>
      r[k] == SplitCopy(Assignment(PartOf(src, projs[k]), PartOf(dst, projs[k])), PartOf(aux, projs[k]), stored)
  {
    seq(|projs|, k requires 0 <= k < |projs| =>
      SplitCopy(Assignment(PartOf(src, projs[k]), PartOf(dst, projs[k])), PartOf(aux, projs[k]), stored))
  }

  /** The pointer-typed parts of a type: the empty projection alone for a pointer. None is listed twice, and
      none leads through a pointer. */
  predicate PointerParts(projs: seq<Projection>)
  {
    && (forall i, j :: 0 <= i < j < |projs| ==> projs[i] != projs[j])
    && (forall i :: 0 <= i < |projs| ==> projs[i] == [] || projs[i][0] != Deref)
  }

  lemma PartOfDeref(p: Path, proj: Projection)
    requires IsPlace(p) && (proj == [] || proj[0] != Deref)
    ensures IsDerefPath(PartOf(p, proj)) <==> IsDerefPath(p)
  {
  }

  /** The base is no auxiliary of a split, nor one that the builder has yet to make. */
  ghost predicate KnownTo(func: FuncId, index: nat, splits: seq<SplitCopy>, b: Path)
  {
    b !in AuxBases(splits) && (b.Auxiliary? && b.func == func ==> b.ordinal < index)
  }

  ghost predicate KnownBases(func: FuncId, index: nat, splits: seq<SplitCopy>, c: Constraint)
  {
    forall b :: b in BasesOf(c) ==> KnownTo(func, index, splits, b)
  }

  /** The auxiliaries of the splits are fresh, and numbered below the next index. */
  ghost predicate Numbered(func: FuncId, index: nat, rest: iset<Constraint>, splits: seq<SplitCopy>)
  {
    && FreshAux(rest, splits)
    && (forall c :: c in rest ==> KnownBases(func, index, splits, c))
    && (forall s :: s in splits ==> KnownBases(func, index, splits, s.copy))
    && (forall b :: b in AuxBases(splits) ==> b.Auxiliary? && b.func == func && b.ordinal < index)
  }

  lemma AssignmentBases(src: Path, dst: Path)
    requires IsPlace(src) && IsPlace(dst)
    ensures BasesOf(Assignment(src, dst)) == {Base(src), Base(dst)}
  {
  }

  lemma Halves(src: Path, dst: Path, aux: Path)
    requires IsPlace(src) && IsPlace(dst) && IsPlace(aux) && IsDerefPath(src) && IsDerefPath(dst) && !IsDerefPath(aux)
    ensures var c := Assignment(src, dst);
      && c.CopyDeref?
      && LoadFrom(c.read, c.readProj, aux) == Assignment(src, aux)
      && StoreTo(aux, c.writtenProj, c.written) == Assignment(aux, dst)
  {
  }

  /** A split of an assignment, with its halves. */
  lemma SplitOfPart(src: Path, dst: Path, aux: Path, proj: Projection)
    requires IsPlace(src) && IsPlace(dst) && IsPlace(aux) && IsDerefPath(src) && IsDerefPath(dst) && !IsDerefPath(aux)
    requires proj == [] || proj[0] != Deref
    ensures var c := Assignment(PartOf(src, proj), PartOf(dst, proj));
      && c.CopyDeref? && BasesOf(c) == {Base(src), Base(dst)}
      && LoadFrom(c.read, c.readProj, PartOf(aux, proj)) == Assignment(PartOf(src, proj), PartOf(aux, proj))
      && StoreTo(PartOf(aux, proj), c.writtenProj, c.written) == Assignment(PartOf(aux, proj), PartOf(dst, proj))
  {
    hide PartOf, IsDerefPath, Assignment, BasesOf;
    PartOfDeref(src, proj);
    PartOfDeref(dst, proj);
    PartOfDeref(aux, proj);
    AssignmentBases(PartOf(src, proj), PartOf(dst, proj));
    Halves(PartOf(src, proj), PartOf(dst, proj), PartOf(aux, proj));
  }

  lemma OneSplit(src: Path, dst: Path, aux: Path, projs: seq<Projection>, stored: bool, k: nat)
    requires IsPlace(src) && IsPlace(dst) && IsPlace(aux) && IsDerefPath(src) && IsDerefPath(dst) && !IsDerefPath(aux)
    requires PointerParts(projs) && k < |projs|
    ensures var s := SplitsOf(src, dst, aux, projs, stored)[k];
      && s.copy.CopyDeref? && s.stored == stored
      && Base(s.aux) == Base(aux) && Selectors(s.aux) == Selectors(aux) + projs[k] && BasesOf(s.copy) == {Base(src), Base(dst)}
      && LoadHalf(s) == Assignments(src, aux, projs)[k] && StoreHalf(s) == Assignments(aux, dst, projs)[k]
  {
    hide PartOf, IsDerefPath, IsPlace, Assignment, BasesOf, Assignments, SplitsOf, Base, Selectors;
    SplitOfPart(src, dst, aux, projs[k]);
  }

  lemma SplitsAre(src: Path, dst: Path, aux: Path, projs: seq<Projection>, stored: bool)
    requires IsPlace(src) && IsPlace(dst) && IsPlace(aux) && IsDerefPath(src) && IsDerefPath(dst) && !IsDerefPath(aux)
    requires PointerParts(projs)
    ensures forall s :: s in SplitsOf(src, dst, aux, projs, stored) ==>
      s.copy.CopyDeref? && Base(s.aux) == Base(aux) && BasesOf(s.copy) == {Base(src), Base(dst)}
    ensures var more := SplitsOf(src, dst, aux, projs, stored);
      forall s, t :: s in more && t in more && s.aux == t.aux ==> s == t
  {
    hide Assignment, PartOf, IsDerefPath, BasesOf, Assignments;
    var more := SplitsOf(src, dst, aux, projs, stored);
    forall k | 0 <= k < |projs|
      ensures more[k].copy.CopyDeref? && Base(more[k].aux) == Base(aux) && Selectors(more[k].aux) == Selectors(aux) + projs[k]
      ensures BasesOf(more[k].copy) == {Base(src), Base(dst)}
    {
      OneSplit(src, dst, aux, projs, stored, k);
    }
    forall s, t | s in more && t in more && s.aux == t.aux ensures s == t {
      var i :| 0 <= i < |more| && more[i] == s;
      var j :| 0 <= j < |more| && more[j] == t;
      assert (Selectors(aux) + projs[i])[|Selectors(aux)|..] == projs[i];
      assert (Selectors(aux) + projs[j])[|Selectors(aux)|..] == projs[j];
    }
  }

  /** The next auxiliary is fresh for everything that has been visited. */
  lemma SplitsStayNumbered(func: FuncId, index: nat, rest: iset<Constraint>, splits: seq<SplitCopy>,
                           src: Path, dst: Path, projs: seq<Projection>, stored: bool)
    requires Numbered(func, index, rest, splits) && IsPlace(src) && IsPlace(dst) && IsDerefPath(src) && IsDerefPath(dst)
    requires PointerParts(projs) && KnownTo(func, index, splits, Base(src)) && KnownTo(func, index, splits, Base(dst))
    ensures Numbered(func, index + 1, rest, splits + SplitsOf(src, dst, Auxiliary(func, index), projs, stored))
  {
    var aux := Auxiliary(func, index);
    assert !IsDerefPath(aux);
    hide Assignment, PartOf, IsDerefPath, BasesOf, Assignments, SplitsOf;
    SplitsAre(src, dst, aux, projs, stored);
    MoreSplitsNumbered(func, index, rest, splits, SplitsOf(src, dst, aux, projs, stored), {Base(src), Base(dst)});
  }

  lemma MoreSplitsNumbered(func: FuncId, index: nat, rest: iset<Constraint>, splits: seq<SplitCopy>, more: seq<SplitCopy>, bases: set<Path>)
    requires Numbered(func, index, rest, splits) && forall b :: b in bases ==> KnownTo(func, index, splits, b)
    requires forall s :: s in more ==> s.copy.CopyDeref? && Base(s.aux) == Auxiliary(func, index) && BasesOf(s.copy) == bases
    requires forall s, t :: s in more && t in more && s.aux == t.aux ==> s == t
    ensures Numbered(func, index + 1, rest, splits + more)
  {
    hide BasesOf;
    var aux, all := Auxiliary(func, index), splits + more;
    assert forall s :: s in all <==> s in splits || s in more;
    assert forall b :: b in AuxBases(all) ==> b in AuxBases(splits) || b == aux;
    assert forall b :: KnownTo(func, index, splits, b) ==> KnownTo(func, index + 1, all, b);
    forall c | KnownBases(func, index, splits, c) ensures KnownBases(func, index + 1, all, c) && BasesOf(c) !! AuxBases(all) {
      forall b | b in BasesOf(c) ensures KnownTo(func, index + 1, all, b) {
        assert KnownTo(func, index, splits, b);
      }
    }
    forall s | s in all ensures KnownBases(func, index, splits, s.copy) {
    }
    assert forall s :: s in splits ==> Base(s.aux) in AuxBases(splits);
  }

  /** The halves of the new splits are the assignments to and from the auxiliary. */
  lemma SplitGrows(rest: iset<Constraint>, splits: seq<SplitCopy>, src: Path, dst: Path, aux: Path, projs: seq<Projection>, stored: bool)
    requires IsPlace(src) && IsPlace(dst) && IsPlace(aux) && IsDerefPath(src) && IsDerefPath(dst) && !IsDerefPath(aux)
    requires PointerParts(projs)
    ensures forall c :: c in Split(rest, splits + SplitsOf(src, dst, aux, projs, stored)) <==>
      c in Split(rest, splits) || c in Assignments(src, aux, projs) || (stored && c in Assignments(aux, dst, projs))
  {
    hide Assignment, PartOf, IsDerefPath, BasesOf;
    var more, loads, stores := SplitsOf(src, dst, aux, projs, stored), Assignments(src, aux, projs), Assignments(aux, dst, projs);
    forall k | 0 <= k < |projs|
      ensures more[k].copy.CopyDeref? && more[k].stored == stored && LoadHalf(more[k]) == loads[k] && StoreHalf(more[k]) == stores[k]
    {
      OneSplit(src, dst, aux, projs, stored, k);
    }
    HalvesListed(splits, more, loads, stores, stored);
  }

  lemma HalvesListed(splits: seq<SplitCopy>, more: seq<SplitCopy>, loads: seq<Constraint>, stores: seq<Constraint>, stored: bool)
    requires |loads| == |more| == |stores|
    requires forall k :: 0 <= k < |more| ==>
      more[k].copy.CopyDeref? && more[k].stored == stored && LoadHalf(more[k]) == loads[k] && StoreHalf(more[k]) == stores[k]
    ensures forall c :: IsHalf(splits + more, c) <==> IsHalf(splits, c) || c in loads || (stored && c in stores)
  {
    hide LoadHalf, StoreHalf;
    assert forall s :: s in splits + more <==> s in splits || s in more;
    forall c | c in loads ensures IsHalf(splits + more, c) {
      var k :| 0 <= k < |loads| && loads[k] == c;
      assert more[k] in splits + more;
    }
    forall c | stored && c in stores ensures IsHalf(splits + more, c) {
      var k :| 0 <= k < |stores| && stores[k] == c;
      assert more[k] in splits + more;
    }
    forall c | IsHalf(splits + more, c) ensures IsHalf(splits, c) || c in loads || (stored && c in stores) {
      var s :| s in splits + more && s.copy.CopyDeref? && (c == LoadHalf(s) || (s.stored && c == StoreHalf(s)));
      if s in more {
        var k :| 0 <= k < |more| && more[k] == s;
        assert c == loads[k] || (stored && c == stores[k]);
      }
    }
  }

  /** Other assignments between known places keep the auxiliaries fresh. */
  lemma RestStaysNumbered(func: FuncId, index: nat, rest: iset<Constraint>, splits: seq<SplitCopy>,
                          src: Path, dst: Path, projs: seq<Projection>)
    requires Numbered(func, index, rest, splits) && IsPlace(src) && IsPlace(dst)
    requires KnownTo(func, index, splits, Base(src)) && KnownTo(func, index, splits, Base(dst))
    ensures Numbered(func, index, rest + SetOf(Assignments(src, dst, projs)), splits)
  {
    hide Assignment, Assignments, PartOf, BasesOf, Base, IsPlace;
    PartsKeepBases(src, dst, projs);
  }

  lemma PartsKeepBases(src: Path, dst: Path, projs: seq<Projection>)
    requires IsPlace(src) && IsPlace(dst)
    ensures forall c :: c in Assignments(src, dst, projs) ==> BasesOf(c) == {Base(src), Base(dst)}
  {
    hide Assignment, Assignments, PartOf, BasesOf, Base, IsPlace;
    forall c | c in Assignments(src, dst, projs) ensures BasesOf(c) == {Base(src), Base(dst)} {
      var k :| 0 <= k < |projs| && Assignments(src, dst, projs)[k] == c;
      AssignmentBases(PartOf(src, projs[k]), PartOf(dst, projs[k]));
    }
  }

  /** The part of the function builder that emits constraints and numbers auxiliary locals. */
  class FuncPagBuilder {
    const func: FuncId
    var auxLocalIndex: nat
    var edges: seq<Constraint>
    /** The assignments that were split so far with their auxiliaries, and the others. */
    ghost var splits: seq<SplitCopy>
    ghost var rest: iset<Constraint>

    ghost predicate Known(b: Path)
      reads this
    {
      KnownTo(func, auxLocalIndex, splits, b)
    }

    ghost predicate Valid()
      reads this
    {
      Numbered(func, auxLocalIndex, rest, splits) && forall c :: c in edges <==> c in Split(rest, splits)
    }

    constructor (f: FuncId, nextIndex: nat)
      ensures Valid() && func == f && auxLocalIndex == nextIndex
      ensures edges == [] && splits == [] && rest == iset{}
    {
      func, auxLocalIndex := f, nextIndex;
      edges, splits, rest := [], [], iset{};
    }

    method CreateAuxLocal() returns (a: Path)
      modifies this`auxLocalIndex
      ensures a == Auxiliary(func, old(auxLocalIndex)) && auxLocalIndex == old(auxLocalIndex) + 1
    {
      a := Auxiliary(func, auxLocalIndex);
      auxLocalIndex := auxLocalIndex + 1;
    }

    /** One edge; two dereferences must have been split before. */
    method AddEdgeBetweenPtrs(src: Path, dst: Path)
      requires IsPlace(src) && IsPlace(dst) && !(IsDerefPath(src) && IsDerefPath(dst))
      modifies this`edges
      ensures edges == old(edges) + [Assignment(src, dst)]
    {
      match (IsDerefPath(src), IsDerefPath(dst)) {
        case (false, false) => edges := edges + [Copy(src, dst)];
        case (true, false) => edges := edges + [LoadFrom(src.base, src.projection[1..], dst)];
        case (false, true) => edges := edges + [StoreTo(src, dst.projection[1..], dst.base)];
      }
    }

    /** One edge for each pointer-typed part, when the types match. */
    method AddInternalEdges(src: Path, dst: Path, projs: seq<Projection>, matched: bool)
      requires IsPlace(src) && IsPlace(dst) && PointerParts(projs) && !(IsDerefPath(src) && IsDerefPath(dst))
      modifies this`edges
      ensures edges == old(edges) + (if matched then Assignments(src, dst, projs) else [])
    {
      hide Assignment, Assignments, PartOf, IsPlace, IsDerefPath;
      if matched {
        ghost var all := Assignments(src, dst, projs);
        for i := 0 to |projs|
          invariant edges == old(edges) + all[..i]
        {
          PartOfDeref(src, projs[i]);
          PartOfDeref(dst, projs[i]);
          AddEdgeBetweenPtrs(PartOf(src, projs[i]), PartOf(dst, projs[i]));
          assert all[..i + 1] == all[..i] + [all[i]];
        }
        assert all[..|projs|] == all;
      }
    }

    /** An assignment through a new auxiliary. */
    method SplitAssignment(lh: Path, rh: Path, projs: seq<Projection>, matched: bool)
      requires Valid() && IsPlace(lh) && IsPlace(rh) && PointerParts(projs) && IsDerefPath(lh) && IsDerefPath(rh)
      requires Known(Base(lh)) && Known(Base(rh))
      modifies this
      ensures Valid() && rest == old(rest) && auxLocalIndex == old(auxLocalIndex) + 1
      ensures splits == old(splits) + SplitsOf(rh, lh, Auxiliary(func, old(auxLocalIndex)), projs, matched)
    {
      hide Numbered, Assignment;
      SplitsStayNumbered(func, auxLocalIndex, rest, splits, rh, lh, projs, matched);
      var aux := CreateAuxLocal();
      SplitGrows(rest, splits, rh, lh, aux, projs, matched);
      AddInternalEdges(rh, aux, projs, true);
      AddInternalEdges(aux, lh, projs, matched);
      splits := splits + SplitsOf(rh, lh, aux, projs, matched);
    }

    /** Emits the edges of one assignment; an assignment between two dereferences is split. What has been
        emitted is always the split form of what was visited, with auxiliaries that are fresh. */
    method VisitCopyOrMove(lh: Path, rh: Path, projs: seq<Projection>, matched: bool)
      requires Valid() && IsPlace(lh) && IsPlace(rh) && PointerParts(projs)
      requires Known(Base(lh)) && Known(Base(rh))
      modifies this
      ensures Valid()
      ensures var both := IsDerefPath(lh) && IsDerefPath(rh);
        && splits == (if both then old(splits) + SplitsOf(rh, lh, Auxiliary(func, old(auxLocalIndex)), projs, matched) else old(splits))
        && rest == (if both || !matched then old(rest) else old(rest) + SetOf(Assignments(rh, lh, projs)))
        && auxLocalIndex == (if both then old(auxLocalIndex) + 1 else old(auxLocalIndex))
    {
      hide Numbered, Assignment;
      if IsDerefPath(lh) && IsDerefPath(rh) {
        SplitAssignment(lh, rh, projs, matched);
      } else {
        AddInternalEdges(rh, lh, projs, matched);
        if matched {
          RestStaysNumbered(func, auxLocalIndex, rest, splits, rh, lh, projs);
          rest := rest + SetOf(Assignments(rh, lh, projs));
        }
      }
    }

    /** `*dst = *src` for the intrinsic that copies memory: always through an auxiliary. */
    method VisitCopyNonOverlapping(srcPtr: Path, dstPtr: Path, projs: seq<Projection>)
      requires Valid() && !srcPtr.QualifiedPath? && !dstPtr.QualifiedPath? && PointerParts(projs)
      requires Known(srcPtr) && Known(dstPtr)
      modifies this
      ensures Valid() && rest == old(rest) && auxLocalIndex == old(auxLocalIndex) + 1
      ensures splits == old(splits)
        + SplitsOf(QualifiedPath(srcPtr, [Deref]), QualifiedPath(dstPtr, [Deref]), Auxiliary(func, old(auxLocalIndex)), projs, true)
    {
      SplitAssignment(QualifiedPath(dstPtr, [Deref]), QualifiedPath(srcPtr, [Deref]), projs, true);
    }
  }
}
