/** A program in which an upcast decides a dynamic call: a trait object is made at one type, seen at another one,
    and called there (src/rta/rta.rs:135-181). */
module UpcastCall {
  import opened Options
  import opened Paths
  import opened CallGraph
  import opened RtaRules
  import Rta

  // let a: &dyn A = &t;    let b: &dyn B = a;    b.run()
  const MAIN: FuncId := 0
  const RUN: FuncId := 1
  const A: Ty := 0
  const B: Ty := 1
  const T: Ty := 2
  const CALL := BaseSite(MAIN, 0)
  const SITE := GenericSite(CALL, 7, 0)

  const VISITED := [Find(Concrete(A, T)), Find(Upcast(A, B)), Find(DynAt(B, SITE))]

  const PROGRAM := Program(
    MAIN,
    f => if f == MAIN then Some(VISITED) else if f == RUN then Some([]) else None,
    (at, t) => if at == SITE && t == T then Some(RUN) else None,
    (at, t) => NoCallee,
    t => None,
    (a, b) => a == b,
    t => RUN)

  const ALL: set<Fact> :=
    {Reach(MAIN), Plain(MAIN), Reach(RUN), Plain(RUN), Concrete(A, T), Concrete(B, T), Upcast(A, B), DynAt(B, SITE), Calls(CALL, RUN)}

  lemma AllIsClosed()
    ensures Closed(PROGRAM, iset{}, iset i: Fact | i in ALL)
  {
    var X := iset i: Fact | i in ALL;
    forall f | Reach(f) in X ensures BodyFound(PROGRAM, X, f) {
    }
  }

  /** The call is found, and what it calls is entered. */
  method UpcastIsFollowed() returns (rta: Rta.RapidTypeAnalysis)
    ensures rta.prog == PROGRAM && rta.callGraph.Valid()
    ensures Concrete(B, T) in rta.Facts() && Calls(CALL, RUN) in rta.Facts() && Reach(RUN) in rta.Facts()
  {
    hide Least;
    AllIsClosed();
    LeastIsBelow(PROGRAM, iset{}, iset i: Fact | i in ALL);
    rta := Rta.Analyze(PROGRAM, ALL);
    CallIsFound(rta.skipped);
  }

  lemma CallIsFound(skip: iset<FuncId>)
    requires MAIN !in skip
    ensures var L := Least(PROGRAM, skip);
      Concrete(B, T) in L && Calls(CALL, RUN) in L && Reach(RUN) in L
  {
    hide Least;
    var L := Least(PROGRAM, skip);
    LeastIsClosed(PROGRAM, skip);
    assert Reach(MAIN) in L && BodyFound(PROGRAM, L, MAIN);
    BodyIsRecorded(PROGRAM, L, MAIN);
    assert VISITED[0] in VISITED && VISITED[1] in VISITED && VISITED[2] in VISITED;
    assert Upcast(A, B) in L && Concrete(A, T) in L && DynAt(B, SITE) in L;
  }
}
