/** A growing queue with cursors (src/util/chunked_queue.rs): a linked list of chunks of at most 60 elements,
    and cursors that resume after elements have been pushed. */
module ChunkedQueue {
  import opened Options

  const CHUNK_CAP: nat := 60

  class Chunk<T> {
    var next: Chunk?<T>
    var prev: Chunk?<T>
    var elems: seq<T>

    constructor ()
      ensures next == null && prev == null && elems == []
    {
      next, prev, elems := null, null, [];
    }
  }

  class ChunkedQueue<T> {
    var head: Chunk<T>
    var tail: Chunk<T>
    var len: nat
    /** The chunks from head to tail, and the elements in the order in which they were pushed. */
    ghost var chunks: seq<Chunk<T>>
    ghost var contents: seq<T>

    /** The chunks are linked in both directions; every chunk but the last is full, and the elements of the
        queue are those of the chunks. */
    ghost predicate Valid()
      reads this, chunks
    {
      && chunks != [] && chunks[0] == head && chunks[|chunks| - 1] == tail
      && (forall i, j :: 0 <= i < j < |chunks| ==> chunks[i] != chunks[j])
      && Linked() && Filled() && len == |contents|
    }

    ghost predicate Linked()
      reads this, chunks
    {
      && (forall i :: 0 <= i < |chunks| - 1 ==> chunks[i].next == chunks[i + 1] && chunks[i + 1].prev == chunks[i])
      && (chunks != [] ==> chunks[0].prev == null && chunks[|chunks| - 1].next == null)
    }

    ghost predicate Filled()
      reads this, chunks
    {
      && (forall i :: 0 <= i < |chunks| - 1 ==> |chunks[i].elems| == CHUNK_CAP)
      && (chunks != [] ==> |chunks[|chunks| - 1].elems| <= CHUNK_CAP)
      && (chunks != [] ==> |contents| == (|chunks| - 1) * CHUNK_CAP + |chunks[|chunks| - 1].elems|)
      && (forall i, j :: 0 <= i < |chunks| && 0 <= j < |chunks[i].elems| ==>
            i * CHUNK_CAP + j < |contents| && contents[i * CHUNK_CAP + j] == chunks[i].elems[j])
    }

    constructor ()
      ensures Valid() && contents == [] && fresh(chunks)
    {
      var chunk := new Chunk<T>();
      head, tail, len := chunk, chunk, 0;
      chunks, contents := [chunk], [];
    }

    /** Appends an element; chunks never move, and their elements stay. */
    method Push(elem: T)
      requires Valid()
      modifies this, tail
      ensures Valid() && contents == old(contents) + [elem]
      ensures old(chunks) <= chunks && fresh(chunks[|old(chunks)|..])
      ensures forall c :: c in old(chunks) ==> old(c.elems) <= c.elems
    {
      if |tail.elems| == CHUNK_CAP {
        AddChunk();
      }
      PushToTail(elem);
    }

    /** A new last chunk, when the last one is full. */
    method AddChunk()
      requires Valid() && |tail.elems| == CHUNK_CAP
      modifies this, tail
      ensures Valid() && contents == old(contents) && tail.elems == []
      ensures chunks == old(chunks) + [tail] && fresh(tail)
      ensures forall c :: c in old(chunks) ==> c.elems == old(c.elems)
    {
      var chunk := new Chunk<T>();
      tail.next := chunk;
      chunk.prev := tail;
      tail := chunk;
      chunks := chunks + [chunk];
    }

    method PushToTail(elem: T)
      requires Valid() && |tail.elems| < CHUNK_CAP
      modifies this`len, this`contents, tail`elems
      ensures Valid() && contents == old(contents) + [elem]
      ensures tail.elems == old(tail.elems) + [elem]
      ensures forall c :: c in chunks && c != tail ==> c.elems == old(c.elems)
    {
      var k := |tail.elems|;
      tail.elems := tail.elems + [elem];
      len := len + 1;
      contents := contents + [elem];
    }
  }

  /** A cursor over a queue. */
  class IterCopied<T> {
    var chunk: Chunk<T>
    /** The index of the next element in the chunk. */
    var index: nat
    /** The position of the chunk. */
    ghost var at: nat

    ghost predicate In(q: ChunkedQueue<T>)
      reads this, q, q.chunks
    {
      at < |q.chunks| && q.chunks[at] == chunk && index <= |chunk.elems|
    }

    /** The number of elements returned so far. */
    ghost function Position(): nat
      reads this
    {
      at * CHUNK_CAP + index
    }

    constructor (q: ChunkedQueue<T>)
      requires q.Valid()
      ensures In(q) && Position() == 0
    {
      chunk, index, at := q.head, 0, 0;
    }

    /** Returns the next element, or nothing when everything pushed so far has been returned. */
    method Next(ghost q: ChunkedQueue<T>) returns (r: Option<T>)
      requires q.Valid() && In(q)
      modifies this
      ensures In(q)
      ensures r == if old(Position()) < |q.contents| then Some(q.contents[old(Position())]) else None
      ensures Position() == old(Position()) + (if r.Some? then 1 else 0)
    {
      assert at < |q.chunks| - 1 ==> q.chunks[at].next == q.chunks[at + 1];
      if index == CHUNK_CAP {
        if chunk.next != null {
          chunk, index, at := chunk.next, 0, at + 1;
        } else {
          assert at == |q.chunks| - 1;
          return None;
        }
      }
      if index < |chunk.elems| {
        assert q.chunks[at].elems[index] == q.contents[at * CHUNK_CAP + index];
        r := Some(chunk.elems[index]);
        index := index + 1;
      } else {
        assert at == |q.chunks| - 1;
        r := None;
      }
    }
  }

  // ----- interleavings

  datatype Op<T> = Push(elem: T) | Next(cursor: nat)

  /** What every cursor has returned so far is a prefix of what has been pushed, as long as its position. */
  ghost predicate InStep<T>(q: ChunkedQueue<T>, cursors: seq<IterCopied<T>>, got: seq<seq<T>>)
    reads q, q.chunks, cursors
  {
    && q.Valid() && |got| == |cursors|
    && (forall i, j :: 0 <= i < j < |cursors| ==> cursors[i] != cursors[j])
    && forall i :: 0 <= i < |cursors| ==>
      cursors[i].In(q) && |got[i]| == cursors[i].Position() && got[i] <= q.contents
  }

  /** Pushing leaves all cursors where they are. */
  method PushBeside<T>(q: ChunkedQueue<T>, elem: T, ghost cursors: seq<IterCopied<T>>, ghost got: seq<seq<T>>)
    requires InStep(q, cursors, got)
    modifies q, q.tail
    ensures InStep(q, cursors, got) && q.contents == old(q.contents) + [elem]
    ensures old(q.chunks) <= q.chunks && fresh(q.chunks[|old(q.chunks)|..])
  {
    q.Push(elem);
    forall i | 0 <= i < |cursors|
      ensures cursors[i].In(q) && |got[i]| == cursors[i].Position() && got[i] <= q.contents
    {
      assert old(cursors[i].In(q));
      assert cursors[i].chunk in old(q.chunks);
    }
  }

  /** Reading moves one cursor. */
  method ReadBeside<T>(q: ChunkedQueue<T>, cursors: seq<IterCopied<T>>, got: seq<seq<T>>, k: nat)
      returns (r: Option<T>, got': seq<seq<T>>)
    requires InStep(q, cursors, got) && k < |cursors|
    modifies cursors[k]
    ensures InStep(q, cursors, got')
    ensures r.None? <==> |got[k]| == |q.contents|
    ensures got' == if r.None? then got else got[k := got[k] + [q.contents[|got[k]|]]]
  {
    r := cursors[k].Next(q);
    got' := if r.None? then got else got[k := got[k] + [r.value]];
    assert got[k] + q.contents[|got[k]|..] == q.contents;
    forall i | 0 <= i < |cursors|
      ensures cursors[i].In(q) && |got'[i]| == cursors[i].Position() && got'[i] <= q.contents
    {
      assert i != k ==> cursors[i] != cursors[k] && old(cursors[i].In(q));
    }
  }

  method NewCursors<T>(q: ChunkedQueue<T>, n: nat) returns (cursors: seq<IterCopied<T>>)
    requires q.Valid()
    ensures |cursors| == n && fresh(cursors) && InStep(q, cursors, seq(n, _ => []))
  {
    cursors := [];
    for i := 0 to n
      invariant |cursors| == i && fresh(cursors) && forall j :: 0 <= j < i ==> cursors[j].In(q) && cursors[j].Position() == 0
      invariant forall j, k :: 0 <= j < k < i ==> cursors[j] != cursors[k]
    {
      var c := new IterCopied<T>(q);
      cursors := cursors + [c];
    }
  }

  /** A run on plain sequences: what has been pushed, what each cursor has returned, and for each read whether
      it returned nothing. */
  datatype Run<T> = Run(pushed: seq<T>, got: seq<seq<T>>, empty: seq<bool>)

  predicate Prefixes<T(==)>(r: Run<T>)
  {
    forall i :: 0 <= i < |r.got| ==> r.got[i] <= r.pushed
  }

  function Step<T(==)>(r: Run<T>, op: Op<T>): Run<T>
    requires Prefixes(r)
  {
    match op
    case Push(elem) => r.(pushed := r.pushed + [elem])
    case Next(k) =>
      if k >= |r.got| then r
      else if |r.got[k]| == |r.pushed| then r.(empty := r.empty + [true])
      else r.(got := r.got[k := r.got[k] + [r.pushed[|r.got[k]|]]], empty := r.empty + [false])
  }

  lemma StepKeepsPrefixes<T>(r: Run<T>, op: Op<T>)
    requires Prefixes(r)
    ensures Prefixes(Step(r, op)) && |Step(r, op).got| == |r.got|
  {
  }

  function Outcome<T(==)>(ops: seq<Op<T>>, n: nat): (r: Run<T>)
    ensures Prefixes(r) && |r.got| == n
  {
    if ops == [] then Run([], seq(n, _ => []), [])
    else
      var before := Outcome(ops[..|ops| - 1], n);
      StepKeepsPrefixes(before, ops[|ops| - 1]);
      Step(before, ops[|ops| - 1])
  }

  lemma OutcomeStep<T>(ops: seq<Op<T>>, t: nat, n: nat)
    requires t < |ops|
    ensures Outcome(ops[..t + 1], n) == Step(Outcome(ops[..t], n), ops[t])
  {
    assert ops[..t + 1][..t] == ops[..t];
  }

  /** Any interleaving of pushes and reads on any number of cursors: each cursor has returned the pushed
      elements in order, each exactly once, up to some point; and a read returns nothing exactly when the
      cursor has returned everything pushed before. */
  method Interleave<T(==)>(ops: seq<Op<T>>, n: nat) returns (run: Run<T>)
    ensures run == Outcome(ops, n) && Prefixes(run)
  {
    hide InStep, Outcome, Step;
    var q := new ChunkedQueue<T>();
    var cursors := NewCursors(q, n);
    run := Run([], seq(n, _ => []), []);
    NoOps<T>(n);
    assert ops[..0] == [];
    for t := 0 to |ops|
      invariant fresh(q) && fresh(q.chunks) && fresh(cursors) && |cursors| == n
      invariant InStep(q, cursors, run.got) && q.contents == run.pushed && q.Valid() && |run.got| == n
      invariant run == Outcome(ops[..t], n)
    {
      OutcomeStep(ops, t, n);
      StepMeaning(run, ops[t]);
      match ops[t] {
        case Push(elem) =>
          ghost var before := q.chunks;
          PushBeside(q, elem, cursors, run.got);
          assert q.chunks == before + q.chunks[|before|..];
          run := run.(pushed := run.pushed + [elem]);
        case Next(k) =>
          if k < n {
            var r, got := ReadBeside(q, cursors, run.got, k);
            run := run.(got := got, empty := run.empty + [r.None?]);
          }
      }
    }
    assert ops[..|ops|] == ops;
  }

  lemma NoOps<T>(n: nat)
    ensures Outcome<T>([], n) == Run([], seq(n, _ => []), [])
  {
  }

  lemma StepMeaning<T>(r: Run<T>, op: Op<T>)
    requires Prefixes(r)
    ensures op.Push? ==> Step(r, op) == r.(pushed := r.pushed + [op.elem])
    ensures op.Next? && op.cursor < |r.got| ==>
      var k := op.cursor;
      && Step(r, op).pushed == r.pushed && Step(r, op).empty == r.empty + [|r.got[k]| == |r.pushed|]
      && Step(r, op).got == if |r.got[k]| == |r.pushed| then r.got else r.got[k := r.got[k] + [r.pushed[|r.got[k]|]]]
    ensures op.Next? && op.cursor >= |r.got| ==> Step(r, op) == r
  {
  }
}
