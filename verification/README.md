# Pointer and call-graph analysis: a Dafny model

This project models the analysis core of a Rust pointer analyser and proves properties of it: the inclusion-constraint
solver and the on-the-fly driver around it, the stack filter for call-site-sensitive contexts, rapid type analysis,
and the data structures they rest on. `dafny verify dfyconfig.toml` checks everything.

## What is modelled

Points-to analysis (`Paths`, `Constraints`, `Solver*`, `SelfFeed`, `Unsent`, `Textbook`, `PtData`, `Pag`, `Propagator`)

- A *path* names a memory location: a local, parameter, return value, heap object, static, ... or such a base with a
  projection. A points-to *fact* says that one path may hold the address of another.
- `Constraints.Item` is anything the analysis concludes: a fact, an edge of the pointer assignment graph, a call site
  attached to the pointer that decides it, or a call, ordinary or special. `Constraints.Closed` states the inclusion
  rules in their plain form (address, direct, offset, load, store, gep, trait-method, function-pointer and `dyn Fn` calls);
  `Constraints.Least(env, base)` is the least closed set above the given items. `Textbook` connects it with the usual
  constraint system, which knows no induced edges.
- `Solver` describes the worklist algorithm with difference propagation as functions on states, `Propagator` is the
  imperative class over `PAG` and `DiffPTData` with the source's loops and cursors, and each of its methods is proved to
  leave the state that the function of the same name describes. `SolverSteps`, `SolverCalls`, `SolverNode` and
  `SolverTheorems` prove what those functions achieve, over whole runs.
- `Env` holds everything the compiler or a hash table decides: the type filter `pass`, the resolution of a call with an
  object, and the order in which sets are traversed, which may differ from turn to turn even for equal sets. All
  theorems hold for every `Env`; `OrderOk` only says that an iteration visits each element once.

The driver (`CallGraph`, `Joint`, `Reasons`, `Driver`, `Ownership`, `DriverInvariant`, `DriverSteps`, `Exit`, `Moves`, `Statics`,
`Andersen`, the witnesses `TwoClosures`, `QueuedStore` and `NestedCalls`, and the example `OneClosure`)

- `Joint.JointLeast(env, prog, scope, base)` is the least set above `base` closed under the points-to rules *and* the
  growth of the program: the entry function and both ends of each call, special calls included, are reached; a reached
  function of the scope contributes its edges, its promoted constants and statics, its calls and its call sites; and a
  call of the scope contributes its argument and return edges. `AllBut(F, C)` is the scope that leaves out the
  functions F and the calls C; `AllBut(iset{}, iset{})` leaves out nothing. `Reasons.FoundExactly` says item by item why
  something is in such a fixpoint, and that nothing else is.
- `Andersen.AndersenPTA` is the driver class: it adds functions as they are reached, runs the solver, adds the calls it
  made, and repeats. Functions become special while their callers are built, so whether a function is entered depends
  on the order in which functions are taken.
- `DriverInvariant.History` records what happened: which facts have been sent on along everything in the graph, which
  were passed over when an edge or call site was added, which functions were entered, passed over as special, or passed
  over because their edges were already there, which calls were wired, and what strayed along the second queue. `Moves`
  lists the moves of the driver with the conditions under which the source makes them, and every state of the class
  arises by such moves. `Exit` says exactly, in these terms, which joint fixpoint the exit state is;
  `Moves.EveryRunEndsAtFixpoint` says it of every state that arises, whatever the program, and `Andersen.Analyze` states
  what the whole analysis returns.

Clients and parts: `Splitting` (statements with two dereferences become a load and a store through a fresh auxiliary),
`Contexts`, `Reachability` and `StackFilter` (call-string contexts and the test whether a function may be on the stack
below another, and whether an object may be alive), `RtaRules`, `RtaReasons`, `RtaOrder`, `Rta` and the example
`UpcastCall` (rapid type analysis), `RtaCovers` (its call graph holds that of the pointer analysis), `WordOps`, `Words`,
`BitVec`, `Counting` and `HybridSet` (points-to sets), `ChunkedQueue` (queue with live cursors), `IndexTree` (tree and
traversals), `Projections` (type-directed enumeration of the parts of a type), `Casts` (type and cast caches).

## The hypotheses

- `NoSelfFeed`: no load or gep edge from a node to itself, and no store through a pointer that writes that pointer.
  `flush` moves everything then in the diff of a node, also facts that arrived after the direct edges of the node were
  served, so without this a fact can be lost (`SelfFeed.LoadIntoItselfLosesFact`). The soundness half and all step
  invariants need no hypothesis. `SolverTheorems.LeastIffLostFactsServed` says for every run exactly when the result is
  still the least solution; whether a lost fact has its consequences otherwise depends on the rest of the graph and on
  the order of the run, so that condition speaks of the run. `SelfFeed.PlainConditionSuffices` is a condition on the
  starting graph alone that rules the case out, `Exit.PlainProgramSuffices` one on the program alone. For the driver the
  hypothesis is asked only of what it finds.
- `Ready`: the solver may be started in any state whose facts are all propagated and satisfied along the edges that
  are not queued. It is what the solver itself leaves behind.
- `Exit.UnsentServed` and `Exit.PassedFound`: the exit state is the least joint fixpoint of everything but the special functions
  that were passed over exactly when these hold: every fact that was never sent on has its consequences, and every call
  and function that was passed over for another reason is there anyway. Facts remain unsent when an edge or call site
  is added at a pointer that already has them without being queued (`Driver.EdgePassesOverExactly`,
  `Driver.SitePassesOverExactly`), or at a node that feeds itself; a call is passed over when its base site and callee
  are known (`DriverInvariant.CallPassedOverExactly`), a function when its edges were added before as those of a static
  or promoted constant (`DriverInvariant.FunctionPassedOverExactly`).
- `late` and `Exit.LateServed`: `late` is the set of facts passed over when an edge or call site was added. If no node feeds
  itself in what was found, only these remain unsent (`Exit.UnsentAreLate`), so the exit state is the least joint
  fixpoint of what was not passed over when `late` is empty, that is, when every edge and site that was added was known,
  activated by a queue, or decided by a pointer without facts that had been sent on.
- `Ownership.WellOwned`: a condition on programs under which `late` is empty and `PassedFound` holds: a function's edges
  and call sites are decided in its own frame or activated by a queue, resolving a call only rearranges the paths of site
  and object, calls with one base site and callee bring the same edges, and statics and promoted constants are not also
  called. `OneClosure.ClosureIsFound` is an instance.
- `NeverPlain`: no special function is also reached in another way. It is needed only for independence of the order in
  which functions are taken; without it `Andersen.Analyze` still says exactly which functions are passed over.
- `QueueSafe`: every edge of the program that starts at a static variable or promoted constant is a direct or offset
  edge or lets nothing pass. It is needed only to know that nothing strays; without it all results speak of the least
  fixpoint above what strayed, and `Exit.StrayMattersExactly` says when that makes a difference.
- `ProgramOk`: promoted constants and statics nest.
- `bound`: a finite set from which no step leads out (`DriverInvariant.Bounds`); `Exit.LeastBounds` says that the least
  joint fixpoint is one when the program is `QueueSafe`. It makes the loops terminate; it excludes programs whose
  projections grow without limit.
- `RtaCovers.SameProgram`: the two analyses read bodies through different visitors and ask the compiler different
  questions; it says that the visitors record the same calls and call sites, that calls are resolved alike, and that a
  pointer to a trait object or a function gets an object only where the type of the object is recorded for it.
  `OneClosure.BothFindTheCall` is an instance.
- `StackFilter.CalledInTurn`: each function of a context chain is called by the next one, as in every context that
  following calls of the call graph makes. It is needed only to say exactly when the stack filter answers yes; that it
  never rules out a caller is proved for every stack.
- `Splitting.Transparent`: on the sources and targets that the assignment really reads and writes in the least solution
  of the unsplit program, the filter lets through the auxiliary exactly what it lets through directly.

## Where the code differs from what one would expect

- `process_node` (src/pta/propagator/propagator.rs:140-153) loses facts at a node that feeds itself
  (`SelfFeed.LoadIntoItselfLosesFact`); `Unsent.TurnTakesUnsentFactsExactly` says which, from the state before the turn.
- The second queue (src/pta/propagator/propagator.rs:133-137) treats each edge as a direct edge whatever its kind, so
  `(*p).next = &CONST` makes p itself point to what the constant points to (`QueuedStore.StoredConstantReachesPointer`).
- Internal edges are queued only when they start exactly at a static variable or promoted constant
  (src/pta/andersen.rs:115-122), not when they start at a part of one.
- `add_call_edge` (src/pta/andersen.rs:191-201) adds no edges for a known pair of base site and callee. A function pointer
  that holds two closures of one definition therefore ends with one of them missing at the parameter of the closure
  (`TwoClosures.SecondClosureIsLost`).
- `add_fpag_edges` recurses into promoted constants and static variables and `process_calls_in_fpag` does not
  (src/pta/andersen.rs:98-101, 123-136), so a call in the initialiser of a static variable is never processed
  (`NestedCalls.StaticInitialiserIsLost`; `NestedCalls.NestedCallsMatterExactly` says when that matters).
- `process_reach_funcs` (src/pta/andersen.rs:91-104) skips the calls of a function whose edges were added before.
- A special function is passed over only if it is marked before it is taken from the queue, in the driver
  (src/graph/pag.rs:468) as in rapid type analysis (src/rta/rta.rs:113-117), so both results may depend on that
  order when a function is called both specially and otherwise. For rapid type analysis `RtaOrder.OrderMatters` gives two
  orders that meet everything proved of a run, with different results; which of them a run takes depends on the order
  in which its hash maps are traversed.
- Intersecting two large sets leaves elements past the other word vector in place, and the change flag of a large set
  met by a small one says whether the small set is contained (src/pts_set/points_to.rs:286-319). Both are stated as they
  are, with the exact conditions under which they are right and with witnesses (`BitVec.IntersectMayKeepElement`,
  `HybridSet.IntersectFlagMayBeWrong`).
- `descendants` is documented to include the node itself and leaves it out (src/util/index_tree.rs:113-117, 186-192).
- The projection walker takes a field selector for the field of a union, which the enumeration never produces.
- The zero-offset test of path regularization looks the offset up in the type of the field
  (src/util/type_util.rs:398-405); it is an arbitrary deterministic predicate here.

## Model

| member | source | states |
|---|---|---|
| SolverTheorems.SolverReachesLeastSolution | src/pta/propagator/propagator.rs:111-161 | Least solution: started in any state whose unqueued edges are satisfied by the propagated facts, with no node feeding itself, an empty worklist means every diff is empty and the points-to facts, edges, call sites and calls are exactly the least set closed under the addr, direct, offset, load, store, gep and call rules above the starting items and what strayed along the second queue; it is the least set above the starting items alone if and only if that holds what strayed; the end state may be started again |
| SolverTheorems.ResultIsOrderIndependent | src/pta/propagator/propagator.rs:111-161 | Two runs on the same items that differ in worklist, queue and edge order and in the order of every traversal, where equal sets may be traversed differently at different turns of one run, end with the same items and the same propagated facts at every node, if what strayed is derivable in both |
| SolverTheorems.StepInvariants | src/pta/propagator/propagator.rs:111-161 | With no hypothesis on the graph, after any number of turns: diff and propa are disjoint at each node, every node with a non-empty diff is on the worklist, all facts already sent on have their consequences, nothing has been forgotten and everything is derivable in the least solution |
| SolverTheorems.LeastIffLostFactsServed | src/pta/propagator/propagator.rs:140-153 | The exact account of the facts that `flush` takes without having sent them on: at an empty worklist the state is the least solution if and only if every such fact has all its consequences anyway |
| SolverTheorems.SolverTerminates | src/pta/propagator/propagator.rs:111-117 | Termination: if the least solution is finite, some number of turns empties the worklist, by the lexicographic decrease of (items still missing, worklist length) |
| SolverTheorems.TurnDecreases | src/pta/propagator/propagator.rs:140-161 | Each turn either finds an item that was missing or leaves the same items missing and a shorter worklist |
| SolverTheorems.TurnEnqueuesNewFactsOnly | src/pta/propagator/propagator.rs:387-404 | A turn forgets nothing, and if it enqueues any node some points-to fact is new |
| SolverTheorems.EmptyWorklistMeansPropagated | src/pta/propagator/propagator.rs:111-117 | After any number of turns of a run, an empty worklist means that no node has unpropagated facts |
| SolverTheorems.TurnKeepsInv | src/pta/propagator/propagator.rs:140-153 | One turn keeps disjointness, pending nodes, taken addresses and served facts, and loses no item |
| SolverTheorems.InitEstablishesInv | src/pta/propagator/propagator.rs:120-137 | Reading the address queue and the queue of inter-procedural edges establishes the loop invariant, empties both queues and changes neither propagated facts nor calls |
| SolverTheorems.InitSoundExactly | src/pta/propagator/propagator.rs:120-137 | Activating the queues stays inside a closed set if and only if everything that queued edges of other kinds than direct and offset carry, being treated as direct edges, lies in it |
| SolverTheorems.TameQueueIsHarmless | src/pta/propagator/propagator.rs:133-137 | Nothing strays when every queued edge is direct, an offset or lets nothing pass |
| Unsent.TurnTakesUnsentFactsExactly | src/pta/propagator/propagator.rs:140-153 | The flush of a turn takes a fact that was not sent on if and only if the state before the turn has it this way: the node lacks the object, and the object comes to it along edges that its own loads and stores add one after the other, from a node that holds it before the turn, or it is the address, through a gep edge of the node into itself, of a part of an object that the node has still to send or that comes to it like that |
| Unsent.ComesExactly | src/pta/propagator/propagator.rs:330-377 | After some edges have been induced in order, a node holds a fact if and only if the fact comes to it along a chain of edges that were new, each induced after the one before it, from a node that held it at the start |
| Unsent.MemoryBrings | src/pta/propagator/propagator.rs:140-142 | What a node holds after its direct edges, loads and stores, apart from what it had still to send, is exactly what comes to it in that way along the edges its loads and stores ask for, from the state before the direct edges were served |
| SolverTheorems.RunReachesLeast | src/pta/propagator/propagator.rs:111-153 | From any state of the loop invariant in which all propagated facts have been sent on, a run without self-feeding nodes ends in the least solution |
| SolverTheorems.RunLosesNothing | src/pta/propagator/propagator.rs:140-153 | Without self-feeding nodes every propagated fact of every later state has been sent on |
| SelfFeed.LoadIntoItselfLosesFact | src/pta/propagator/propagator.rs:141-152 | Witness that unconditional closure fails: on `r = &o; o.next = &o2; p = r; p = (*p).next; q = p` five turns empty the worklist, q -> o2 is in the least solution and not in the state |
| SelfFeed.PlainConditionSuffices | src/pta/propagator/propagator.rs:141-152 | A condition on the starting graph alone (no load or gep self-loop; nothing whose address is taken or that is pointed to shares a base with a pointer stored through) implies that no node feeds itself in the whole least solution |
| QueuedStore.StoredConstantReachesPointer | src/pta/andersen.rs:113-121 | Witness that queued edges of other kinds add too much: on `p = &o; (*p).next = CONST` every run of the solver ends with p pointing to what the constant points to, which is in no least solution |
| QueuedStore.StoreStrays | src/pta/propagator/propagator.rs:133-137 | On that program exactly that one fact strays |
| QueuedStore.DriverBuildsStart | src/pta/andersen.rs:113-131 | Adding the edges of the function and of its promoted constant builds the state the witness starts from |
| Textbook.LeastAgreesWithTextbook | src/pta/propagator/propagator.rs:330-416 | The points-to part of the least set over a graph equals the least relation satisfying the usual inclusion constraints of its edges, which mention no induced edges |
| Constraints.LeastIsClosed | src/pta/propagator/propagator.rs:140-161 | The intersection of all closed sets above the given items contains them and is itself closed under every rule |
| Constraints.LeastIdempotent | src/pta/propagator/propagator.rs:111-117 | Any items between a base and its least set have the same least set, so adding derivable edges early changes nothing |
| SolverNode.HandleServesEdges | src/pta/propagator/propagator.rs:140-145 | After the handlers of a node, every fact the node had at the start has all its consequences along direct, offset, load, store and gep edges, including edges found meanwhile |
| SolverNode.HandleServesCalls | src/pta/propagator/propagator.rs:147-150 | After the handlers every fact the node had at the start is resolved at every trait-method, function-pointer and `dyn Fn` call site of the node |
| SolverNode.HandleQuiet | src/pta/propagator/propagator.rs:141-152 | A node that does not feed itself has the same diff after its handlers as before, so `flush` takes nothing unsent |
| SolverNode.HandleSound | src/pta/propagator/propagator.rs:140-152 | The handlers stay inside every closed set that contains the state |
| SolverNode.LoadMeaning | src/pta/propagator/propagator.rs:330-351 | For every load edge at the node and every listed object the induced direct edge is in the graph and what its source holds has arrived; the node itself gains facts only from a load into itself |
| SolverNode.StoreMeaning | src/pta/propagator/propagator.rs:355-377 | The same for store edges; the node itself gains facts only from a store through it that writes it |
| SolverNode.GepMeaning | src/pta/propagator/propagator.rs:380-405 | For every gep edge and every new object the target points to the part of the object |
| SolverNode.FlushKeepsItems | src/pts_set/pt_data.rs:268-277 | Flushing changes no item and no union of diff and propa, and empties the diff of the node |
| SolverSteps.InduceMeaning | src/pta/propagator/propagator.rs:330-377 | An induced edge is in the graph afterwards and, if it is new, everything its source holds that passes has reached its target; nothing but that target gains facts |
| SolverSteps.AddSetGrows | src/pta/propagator/propagator.rs:703-777 | Adding objects to a node keeps all facts, keeps diff and propa disjoint, and enqueues the node only together with a new fact |
| SolverCalls.TraitStepMeaning | src/pta/propagator/propagator.rs:505-690 | Resolving an object of a `dyn Fn` call appends one call, appends one instance call for an object of another type, or, for a function pointer, attaches a call site at which all facts the pointer already has are reported; an object that does not resolve changes nothing |
| SolverCalls.AttachCalls | src/pta/propagator/propagator.rs:505-690 | The calls reported for a call site attached to a function pointer are exactly those resolved from its diff and propa facts |
| SolverCalls.CallListed | src/pta/propagator/propagator.rs:418-502 | Every pair of a call site and an object that resolves is reported |
| SolverCalls.CallOrigin | src/pta/propagator/propagator.rs:418-502 | Every reported call comes from a call site and an object that resolve to it |
| Propagator.Propagator.SolveWorklist | src/pta/propagator/propagator.rs:111-117 | The loop over the real maps ends with an empty worklist in a state that some number of specification turns reaches, inside the least solution above the starting items and what strays; without self-feeding nodes it is that solution with all diffs empty |
| Propagator.Propagator.ProcessNode | src/pta/propagator/propagator.rs:140-153 | Seven of the handlers in order (all but cast edges and static-dispatch instance calls) and the flush, over the class state, equal the specification of one node (whose meaning HandleServesEdges, HandleServesCalls and HandleQuiet prove) |
| Propagator.Propagator.Propagate | src/pta/propagator/propagator.rs:703-777 | Sends the diff (or everything) of the source along an edge through the filter, one object at a time, and enqueues the target exactly when some object is new there |
| Propagator.Propagator.SendObjects | src/pta/propagator/propagator.rs:720-762 | After the loop the target holds what it held and everything that passes; the flag tells whether anything was new; only the diff of the target changes |
| Propagator.Propagator.ProcessAddr | src/pta/propagator/propagator.rs:156-161 | Adds the address to the target and enqueues it exactly when it is new |
| Propagator.Propagator.HandleDirect | src/pta/propagator/propagator.rs:164-177 | Goes through the direct edges in id order and leaves the state that sending the diff along each in turn leaves (DirectMeaning) |
| Propagator.Propagator.HandleOffset | src/pta/propagator/propagator.rs:247-260 | The same for offset edges (OffsetMeaning) |
| Propagator.Propagator.HandleLoadAndStore | src/pta/propagator/propagator.rs:199-228 | Loads, then stores, for the diff the node has at the start, while the edge index grows underneath (LoadMeaning, StoreMeaning) |
| Propagator.Propagator.ProcessLoad | src/pta/propagator/propagator.rs:330-351 | Induces one direct edge for each object, from the part that is read, in the order of the set |
| Propagator.Propagator.ProcessStore | src/pta/propagator/propagator.rs:355-377 | Induces one direct edge for each object, to the part that is written |
| Propagator.Propagator.Induce | src/pta/propagator/propagator.rs:694-700 | Adds a direct edge unless it exists and only then sends everything along it |
| Propagator.Propagator.HandleGep | src/pta/propagator/propagator.rs:180-196 | Goes through the gep edges with the diff the node has at the start (GepMeaning) |
| Propagator.Propagator.ProcessGep | src/pta/propagator/propagator.rs:380-405 | The target gains the parts of the objects and is enqueued exactly when one is new |
| Propagator.Propagator.ProcessDynamicDispatchCall | src/pta/propagator/propagator.rs:418-452 | Appends the calls of all resolving pairs to the list of new instance calls |
| Propagator.Propagator.ProcessFnptrCall | src/pta/propagator/propagator.rs:454-502 | Appends the calls of all resolving pairs to the list of new calls |
| Propagator.Propagator.ProcessDynamicFntraitCall | src/pta/propagator/propagator.rs:505-690 | One object of a `dyn Fn` call: a reported call, an instance call for an object of another type, a new function-pointer call site with the calls its known facts resolve, or nothing |
| Propagator.Propagator.HandleFntrait | src/pta/propagator/propagator.rs:316-326 | All objects of the diff at all `dyn Fn` call sites of the node, in order |
| Propagator.Propagator.ProcessAllAddrEdges | src/pta/propagator/propagator.rs:126-130 | Reads the queue to its end; every address edge read has its object at its target |
| Propagator.Propagator.ProcessAllInterProcEdges | src/pta/propagator/propagator.rs:133-137 | Reads the queue to its end, sending all facts along each edge |
| Propagator.Propagator.InitConstraints | src/pta/propagator/propagator.rs:120-123 | Activates both queues; cursors end at the ends of the queues |
| Propagator.Propagator.constructor | src/pta/propagator/propagator.rs:80-103 | A solver over the given graph, data, call sites and cursors starts with an empty worklist and no new calls |
| Andersen.Analyze | src/pta/andersen.rs:233-270 | The whole on-the-fly analysis, for every program with a finite set from which no step leads out: it stops; its state and history arise from the start by possible moves of the driver, and nothing waits; points-to data, call graph and reached functions agree; what it finds lies below the least joint fixpoint of the functions entered and the calls wired; it is the least joint fixpoint of what was not passed over if and only if every fact that was never sent on has its consequences, and that of everything but the special functions passed over if and only if the rest of what was passed over is there too; if no node feeds itself in what is found, the first holds if and only if the facts passed over when an edge or call site was added have their consequences, in particular when none was passed over, that is, when every edge and site that was added was known, activated by a queue or decided by a pointer without facts; in well-owned programs none is, and all else passed over is there; a condition on the program alone, that it be plain, rules self-feeding out; a function is passed over because of its edges if and only if one entered before involves it, and otherwise as special if and only if one entered before it made it special; what strayed was carried by queued edges of other kinds than direct and offset; without functions reached both ways a complete result does not depend on the order |
| Moves.EveryRunEndsAtFixpoint | src/pta/andersen.rs:233-270 | For every program, finite or not: every state that arises by the moves of the driver and in which nothing waits is the least joint fixpoint of what was not passed over if and only if the facts that were never sent on have their consequences; if no node feeds itself in it, if and only if those passed over when an edge or call site was added have; and it is when there are none |
| TwoClosures.SecondClosureIsLost | src/pta/andersen.rs:191-201 | Witness that the driver misses the joint least fixpoint: on a function pointer that may hold two closures of one definition the analysis stops, in every order, strictly below it, without one of the two objects at the first parameter of the closure |
| TwoClosures.StrictlyBelow | src/pta/andersen.rs:191-201 | The same for every state in which of the calls with one base site and callee at most one was wired |
| TwoClosures.BothAreInLeast | src/pta/andersen.rs:191-201 | Both objects are at that parameter in the joint least fixpoint |
| OneClosure.ClosureIsFound | src/pta/andersen.rs:233-270 | A program with an indirect call that the analysis solves completely: its result is the joint least fixpoint with nothing left out, for every traversal order |
| OneClosure.IsWellOwned | src/pta/andersen.rs:91-201 | That program is well-owned, relative to a finite set from which no step leads out |
| NestedCalls.NestedCallsMatterExactly | src/pta/andersen.rs:98-136 | The calls in the initialisers of promoted constants and statics are never processed; with them the joint fixpoint is the same if and only if those of every reached function are found anyway |
| NestedCalls.StaticInitialiserIsLost | src/pta/andersen.rs:98-136 | Witness: a static variable initialised by a call points to an object of the callee when that call is processed, and does not in the joint fixpoint of the rules that the driver follows |
| Moves.OneMove | src/pta/andersen.rs:91-270 | The driver as a state machine: from every state that arises from the start by possible moves, each possible move leads to another such state. Functions are taken from the queue one at a time; an entered one is added, with all it involves, before its calls and sites are added, and these before the queue advances; the solver is run to rest, and calls are dropped, only when every entered function has been added, the queue is read and no call waits to be added. Every method of the driver makes only such moves |
| Moves.MoveKeepsCore | src/pta/andersen.rs:91-270 | Every possible move keeps the driver invariant, whatever the program |
| Exit.ExitExactly | src/pta/andersen.rs:244-270 | The exact account of the exit state: it is the least joint fixpoint of what was not passed over if and only if every fact that was never sent on has its consequences; it is that of everything but the special functions passed over if and only if, further, the other functions and calls passed over are there anyway |
| Exit.ExitWithoutSelfFeed | src/pta/andersen.rs:244-270 | If no node feeds itself in what was found, the exit state is the least joint fixpoint of what was not passed over if and only if the facts passed over when an edge or call site was added have their consequences; in particular when there are none |
| Exit.UnsentAreLate | src/pta/andersen.rs:108-173 | If no node feeds itself in what was found, every fact that was never sent on was passed over when an edge or call site was added at its pointer |
| Exit.ExitIsBelow | src/pta/andersen.rs:244-270 | In every state the result lies below the least joint fixpoint of the functions entered and the calls wired, hence of what was not passed over |
| Exit.WellOwnedExit | src/pta/andersen.rs:244-270 | In a well-owned program nothing is passed over when edges and sites are added, whatever else was passed over, special functions apart, is there, and if no node feeds itself in what was found the exit state is the least joint fixpoint without those functions |
| Exit.ExitCalls | src/pta/andersen.rs:177-201 | When nothing waits, calls handed over, special calls, call-graph edges and reached functions agree with the state |
| Exit.OrderDoesNotMatter | src/graph/pag.rs:467-470 | When no function is reached both by a special call and otherwise, every complete run ends with the least joint fixpoint without the special functions, whatever the order in which functions were taken |
| Exit.BetweenTheExtremes | src/graph/pag.rs:467-470 | A complete run ends between the least joint fixpoints without and with the bodies of all special functions |
| Exit.SkippedAreSpecial | src/graph/pag.rs:467-470 | Only functions that a reached function makes special are passed over as such, and never the entry |
| Exit.NeverPlainStaysBelow | src/graph/pag.rs:467-470 | Functions that are reached by special calls only are never entered, and every result stays below the least joint fixpoint without them |
| Exit.StrayMattersExactly | src/pta/andersen.rs:113-121 | What strayed along the second queue changes a least joint fixpoint if and only if it was not in it |
| Exit.LeastBounds | src/pta/andersen.rs:113-121 | If no edge of the program is harmed by being treated as direct, no step leads out of the least joint fixpoint, so the analysis stops whenever that is finite |
| Exit.PlainProgramSuffices | src/pta/propagator/propagator.rs:141-152 | A condition on the program alone (no load or gep edge from a pointer into itself, and no store through a pointer that lives inside an object whose address is taken) implies that no node feeds itself in any state of the driver |
| Joint.ScopeMattersExactly | src/pta/andersen.rs:91-201 | Leaving functions and calls out of the rules changes the least joint fixpoint if and only if something of theirs is missing from it |
| Joint.JointLeastIsClosed | src/pta/andersen.rs:91-201 | The intersection of all jointly closed sets is closed under the points-to rules, holds the body of every reached function and the edges of every call of the scope |
| Reasons.FoundExactly | src/pta/andersen.rs:91-201 | A fact, edge, call site or call is in a least joint fixpoint if and only if it is given or has a reason in it: an address, a flow, a part of a pointee; an internal edge, an edge of a call, a load or a store; a listed site or a function pointer found by a `dyn Fn` call; a listed or a resolved call |
| Reasons.InvolvesExactly | src/pta/andersen.rs:123-136 | One function involves another if and only if a list of functions leads to it in which each involves the next directly |
| Driver.EdgePassesOverExactly | src/pta/andersen.rs:113-121 | Adding an internal edge passes over exactly the facts that its trigger already had, unless it is known or activated by a queue; each of them keeps all its consequences if and only if what the edge would give is there |
| Driver.SitePassesOverExactly | src/pta/andersen.rs:147-173 | Attaching a call site passes over exactly the facts that its pointer already had; each of them keeps all its consequences if and only if the call that it decides at the site is there |
| DriverInvariant.CallPassedOverExactly | src/pta/andersen.rs:191-201 | Adding a call passes it over if and only if its base site and callee are already paired; its edges are then missing if and only if one of them was not there before, and the state is no joint fixpoint of any scope that has the call |
| DriverInvariant.FunctionPassedOverExactly | src/pta/andersen.rs:91-104 | A reached function whose edges had been added before is found if and only if its calls are |
| DriverInvariant.RoundKeeps | src/pta/andersen.rs:247-262 | One run of the solver keeps the invariant of the driver, leaves both queues empty, and makes calls only together with a new fact |
| DriverInvariant.InternalKeeps | src/pta/andersen.rs:108-139 | Adding an internal edge of a function that is being added keeps the invariant, whether or not the edge is queued |
| DriverInvariant.SiteKeeps | src/pta/andersen.rs:147-173 | Attaching a call site of a function that is being added keeps the invariant |
| DriverInvariant.CallKeeps | src/pta/andersen.rs:191-201 | Adding a call, known or new, keeps the invariant |
| DriverInvariant.SpecialKeeps | src/pta/andersen.rs:149-155 | Adding a special call keeps the invariant |
| DriverInvariant.EnterKeeps | src/graph/pag.rs:467-505 | Entering a function that is not special keeps the invariant, in particular that functions reached by special calls only are never entered |
| DriverInvariant.InvolvedExactly | src/pta/andersen.rs:91-104 | The edges of the next function have been added if and only if a function entered before it involves it, as a promoted constant or static variable |
| Driver.StrayIsOk | src/pta/propagator/propagator.rs:133-137 | Whatever strays was carried by a queued edge from a static variable or promoted constant that is neither direct nor an offset |
| DriverInvariant.MarkedExactly | src/builder/fpag_builder.rs:1033-1051 | The next function is special if and only if a function entered before it has made it special |
| DriverInvariant.OrderSays | src/graph/pag.rs:467-505 | In queue order, a function is passed over because of its edges if and only if one entered earlier involves it, otherwise as special if and only if one entered earlier calls it specially, and otherwise entered if it has a body |
| Driver.RunOfSolver | src/pta/andersen.rs:249-262 | A run of the solver leaves it at rest with empty queues, forgets nothing, has everything that strayed, and leaves nothing unsent, without self-feeding nodes, but what was passed over before the run |
| Driver.ClosedIffUnsentServed | src/pta/propagator/propagator.rs:111-153 | When both queues are empty the facts are closed under the rules if and only if those that were never sent on have their consequences |
| Ownership.ItemsInClosed | src/pta/andersen.rs:91-139 | Inclusion never takes a fact out of the frames of a set of functions: the items over those frames are closed under every solver rule |
| Ownership.NoFactsYet | src/pta/andersen.rs:108-139 | A pointer of a function that is being brought in has no facts yet, which is why its new edges lose nothing |
| Andersen.AndersenPTA.Propagate | src/pta/andersen.rs:244-270 | The outer loop ends with every queue read and no call waiting, keeps the invariant (from which ExitExactly follows) and forgets nothing |
| Andersen.AndersenPTA.ProcessReachFuncs | src/pta/andersen.rs:91-104 | Takes every reached function from the queue, terminates, keeps the invariant and only adds |
| Andersen.AndersenPTA.ProcessFunction | src/pta/andersen.rs:91-104 | Deals with one function: in the queue order it is now recorded as entered, passed over as special or passed over because its edges were added before, exactly as that was the case; if entered, its edges, calls and call sites are there |
| Andersen.AndersenPTA.BuildFuncPag | src/graph/pag.rs:467-508 | Builds the function if and only if it is not special and has a body; its special callees become special, and the order records what happened |
| Andersen.AndersenPTA.AddFunction | src/pta/andersen.rs:98-101 | Afterwards the edges of the function and of what it involves, its calls and its call sites are all there |
| Andersen.AndersenPTA.AddFpagEdges | src/pta/andersen.rs:108-139 | Afterwards the edges of the function and of everything it involves are in the graph, by recursion over promoted constants and static variables |
| Andersen.AndersenPTA.ProcessCallsInFpag | src/pta/andersen.rs:141-174 | Afterwards every static and every special call is added and every call site of the body is attached to its pointer |
| Andersen.AndersenPTA.ProcessNewCalls | src/pta/andersen.rs:177-189 | Adds all calls of the last run and the functions they reach; afterwards both lists are empty |
| Andersen.AndersenPTA.AddCallEdge | src/pta/andersen.rs:191-201 | Adds the call-graph edge and, if base site and callee were not paired yet, the edges of the call; a pair that is known adds no edges |
| Andersen.AndersenPTA.AddSpecialCall | src/pta/andersen.rs:149-155 | Adds the call-graph edge and both functions, and nothing else |
| Andersen.AndersenPTA.AddInterProceduralEdges | src/graph/pag.rs:565-597 | Queues the edges of the call (those InterEdgesExactly names) that are not in the graph yet |
| Joint.InterEdgesExactly | src/graph/pag.rs:565-597 | The edges of a call are, when the callee has MIR, exactly the direct edges from each pointer-typed part of the i-th argument to the same part of parameter i + 1 and from each pointer-typed part of the return value to the same part of the destination; otherwise there are none |
| Andersen.AndersenPTA.AddNewDirectEdges | src/graph/pag.rs:433-459 | One queued direct edge for a pointer, or one for each pointer-typed part, leaving out edges that exist |
| Andersen.AndersenPTA.AddInternalEdge | src/pta/andersen.rs:115-131 | A new internal edge is queued exactly when it starts at a promoted constant or a static variable; the facts that its trigger already has no longer count as sent on, unless a queue activates the edge |
| Statics.StaticFactsArrive | src/pta/andersen.rs:113-121 | At the end of every run without self-feeding nodes, whatever a static variable or promoted constant points to is at the target of each direct and offset edge from it that lets it pass, in whatever round the edge was added |
| Andersen.AndersenPTA.AttachSite | src/pta/andersen.rs:147-172 | Attaches a call site to the pointer that decides it; the facts of the pointer no longer count as sent on |
| Andersen.AndersenPTA.Initialize | src/pta/andersen.rs:233-241 | From an empty analysis, enters the entry function and everything it reaches without the solver |
| Andersen.AndersenPTA.Solve | src/pta/andersen.rs:249-262 | One run of the solver is some number of specification turns after activating the queues; it keeps the invariant, empties both queues, forgets nothing, and makes calls only together with a new fact |
| Pag.PAG.AddEdge | src/graph/pag.rs:306-429 | Returns an id exactly when no edge with this source, target and kind exists, then appends it, enters it in its two index entries, and queues it if it is an address edge |
| Pag.PAG.GetOrInsertNode | src/graph/pag.rs:208-227 | The node of a path, appended only if the path had none; edges are unchanged |
| Pag.PAG.ContainsEdge | src/graph/pag.rs:238-245 | True exactly when an edge with this source, target and kind is in the graph |
| Pag.PAG.Indexed | src/graph/pag.rs:108-138 | The index entry a handler reads lists exactly the edges of that kind at the node, in id order |
| Pag.EdgeIsIndexedOnce | src/graph/pag.rs:248-302 | In every graph built by additions each edge is exactly once in the out-index of its kind at its source and the in-index of its kind at its target, and nowhere else |
| Pag.NodesAndPathsBijective | src/graph/pag.rs:208-227 | Paths and nodes are in bijection |
| Pag.PAG.constructor | src/graph/pag.rs:142-166 | A valid empty graph |
| CallGraph.CallGraph.AddEdge | src/graph/call_graph.rs:181-198 | New exactly when the site did not call the function; both ends get a node, and each node enters the queue of reachable functions once |
| CallGraph.CallGraph.GetOrInsertNode | src/graph/call_graph.rs:123-133 | The node of a function; a function enters nodes and queue once, in order of first insertion |
| CallGraph.CallGraph.AddNode | src/graph/call_graph.rs:112-119 | Adds the function to nodes and queue unless it is there |
| CallGraph.CallGraph.GetCallees | src/graph/call_graph.rs:158-170 | Exactly the functions paired with the site in the call edges |
| PtData.DiffPTData.AddPts | src/pts_set/pt_data.rs:184-192 | True exactly when the element is new to diff and propa together; a new element starts in diff |
| PtData.DiffPTData.UnionPtsTo | src/pts_set/pt_data.rs:227-233 | The union gains the set, diff only what propa lacks, and the flag tells whether anything was new |
| PtData.DiffPTData.UnionDiffPts | src/pts_set/pt_data.rs:195-205 | Sends the diff of another variable; a variable sent to itself is left alone |
| PtData.DiffPTData.UnionPts | src/pts_set/pt_data.rs:209-223 | Sends everything another variable holds, with an exact change flag |
| PtData.DiffPTData.RemovePtsElem | src/pts_set/pt_data.rs:237-241 | Removes the element from both maps, with an exact flag |
| PtData.DiffPTData.FlushPts | src/pts_set/pt_data.rs:268-277 | Moves diff to propa: the union of every variable is unchanged |
| PtData.DiffPTData.ClearPts | src/pts_set/pt_data.rs:281-288 | Empties one variable and leaves the others |
| PtData.BasePTData.AddPts | src/pts_set/pt_data.rs:79-82 | Keeps forward and reverse maps converse; true exactly when the element is new |
| PtData.BasePTData.UnionPts | src/pts_set/pt_data.rs:85-94 | Keeps the maps converse while every element of the source gets the destination as a reverse entry; exact flag |
| PtData.BasePTData.RemovePtsElem | src/pts_set/pt_data.rs:104-114 | Keeps the maps converse; exact flag |
| PtData.BasePTData.ClearPts | src/pts_set/pt_data.rs:117-124 | Empties one variable and corrects the reverse entry of each of its elements |
| PtData.EditKeepsConverse | src/pts_set/pt_data.rs:79-138 | Editing one forward set and the reverse entries of just the edited elements keeps the two maps converse |
| Paths.AppendMeaning | src/mir/path.rs:419-431 | Appending keeps paths flat, keeps base and owner, and concatenates the selectors |
| Paths.FlatUnique | src/mir/path.rs:338-344 | A flat path is determined by its base and selectors |
| Paths.AppendAppend | src/mir/path.rs:419-469 | Appending twice is appending once, and truncating to the old length undoes appending |
| Paths.RemoveCastUndoesCast | src/mir/path.rs:471-481 | Removing a cast just appended gives the path back; a path is unchanged exactly when it does not end in a cast |
| Splitting.SplittingPreservesLeastSolution | src/builder/fpag_builder.rs:472-492 | For any program with any number of split assignments `(*a).f = (*b).g`, pointer-valued or struct-valued, where halves may go through parts of one auxiliary, the least solutions of the split and the unsplit program agree, in both directions, on all nodes outside the auxiliaries and their parts, for every filter that on what each assignment reads and writes lets through the auxiliary exactly what it lets through directly |
| Splitting.UnfilteredIsTransparent | src/builder/fpag_builder.rs:472-492 | Without a filter that condition always holds |
| Splitting.FuncPagBuilder.VisitCopyOrMove | src/builder/fpag_builder.rs:456-496 | Tests both sides for a dereference; splits exactly the assignments with two, one load and store half for each pointer-typed part through the same part of one new auxiliary, and emits one edge for each part of the others; the constraints stay the split program and all auxiliaries stay fresh |
| Splitting.FuncPagBuilder.SplitAssignment | src/builder/fpag_builder.rs:472-492 | The splits of the assignment join the program, and its auxiliary is fresh |
| Splitting.FuncPagBuilder.AddInternalEdges | src/builder/fpag_builder.rs:1320-1348 | One edge for each pointer-typed part, and none when the types do not match |
| Splitting.FuncPagBuilder.AddEdgeBetweenPtrs | src/builder/fpag_builder.rs:1350-1357 | A direct edge, a load or a store, by which side is a dereference, with the meaning of AssignmentMeaning |
| Splitting.AssignmentMeaning | src/builder/fpag_builder.rs:1350-1357 | The constraint of an assignment between places is satisfied if and only if whatever a location of the source points to passes to every location of the destination, the locations of a dereference being the named parts of what its base points to |
| Splitting.AssignmentsMeaning | src/builder/fpag_builder.rs:1320-1348 | The constraints of an assignment with parts are satisfied if and only if this holds between each part of the source and the same part of the destination |
| Splitting.FuncPagBuilder.VisitCopyNonOverlapping | src/builder/fpag_builder.rs:224-262 | The copying intrinsic is always split |
| Splitting.FuncPagBuilder.CreateAuxLocal | src/mir/analysis_context.rs:314-325 | The next auxiliary of the function, with the index advanced |
| Splitting.SplitSolvesUnsplit | src/builder/fpag_builder.rs:473-492 | Every solution of the split program solves the unsplit one |
| Splitting.UnsplitExtends | src/builder/fpag_builder.rs:473-492 | The least solution of the unsplit program, extended by what each auxiliary receives, solves the split one |
| Splitting.UnsplitAvoidsAux | src/builder/fpag_builder.rs:472-492 | Fresh auxiliaries and their parts neither point nor are pointed to in the unsplit program |
| Contexts.TruncationAtEveryStep | src/mir/context.rs:58-78 | Along any chain of calls and for every k, truncating at each call gives the k most recent call sites of the untruncated call string, most recent first |
| Contexts.KCallSiteSensitive.NewContext | src/pta/strategies/context_strategy.rs:79-89 | The lookup of the caller succeeds; if the caller context is that of a chain of calls, the callee context is that of the chain extended by this call; ids handed out keep their meaning |
| Contexts.ContextCache.GetContextId | src/mir/context.rs:113-121 | The id of the context; a new id only for a new context; ids and contexts stay in bijection |
| Contexts.ContextCache.GetContext | src/mir/context.rs:125-127 | The inverse of the index: it gives a context exactly when the index gives that context this id, and nothing exactly for an id that was never handed out |
| Contexts.IdsAndContextsBijective | src/mir/context.rs:113-127 | A context has an id if and only if the id gives the context, and different ids give different contexts |
| Contexts.KCallSiteSensitive.GetContextById | src/pta/strategies/context_strategy.rs:103-105 | The context of an id, or the empty context for an unknown one |
| Contexts.KCallSiteSensitive.GetEmptyContextId | src/pta/strategies/context_strategy.rs:107-109 | The id of the empty context; other ids keep their meaning |
| Reachability.ComputeFuncReachRelations | src/pta/strategies/stack_filtering.rs:133-162 | For every call graph, with cycles, the search terminates and the relation holds exactly for pairs connected by a non-empty path |
| Reachability.ComputeFuncReachRelationsMt | src/pta/strategies/stack_filtering.rs:164-196 | The per-node version builds the same relation |
| Reachability.ReachabilityRelation.ComputeRow | src/pta/strategies/stack_filtering.rs:144-162 | The search from one node sets exactly the nodes it reaches, and no other row |
| Reachability.SearchFrom | src/pta/strategies/stack_filtering.rs:170-186 | One row searched on its own is set exactly at the nodes reached |
| Reachability.ReachabilityRelation.IsReachable | src/pta/strategies/stack_filtering.rs:104-110 | The entry, and false outside the matrix |
| Reachability.ReachabilityRelation.AddReachable | src/pta/strategies/stack_filtering.rs:113-119 | Sets one entry and no other |
| Reachability.SearchSteps | src/pta/strategies/stack_filtering.rs:152-160 | One step of the search keeps: what is set or waits is reached, nothing reached is dropped; a node set for the first time shrinks what is unset |
| StackFilter.StackFilterIsSafe | src/pta/strategies/stack_filtering.rs:360-409 | For every call stack over the filter call graph, every k including 0, and frames with the contexts their calls give them, the answer is true for any frame and any frame at or above it |
| StackFilter.StackFilter.IsReachableFrom | src/pta/strategies/stack_filtering.rs:360-409 | True exactly when the two context chains overlap or the older function reaches the oldest function the newer context names; when the functions of each chain call each other in turn, true if and only if the two chains may lie on one stack |
| StackFilter.AnswerExactly | src/pta/strategies/stack_filtering.rs:360-409 | If the functions of each chain call each other in turn, the answer is true if and only if there is a list of functions, each calling the next, down which the chain of the older function goes from some place and that of the newer one from a place at or above it, and the older one starts at or below the end of the newer chain or its chain ends there or below |
| StackFilter.MatchSuffixAndPrefix | src/pta/strategies/stack_filtering.rs:412-421 | True exactly when some non-empty suffix of the first list is a prefix of the second |
| StackFilter.StackFilter.NaiveReachabilityRelation | src/pta/strategies/stack_filtering.rs:314-326 | True exactly for the same function or functions connected by a non-empty path of calls |
| StackFilter.StackFilter.constructor | src/pta/strategies/stack_filtering.rs:215-230 | The filter starts with the relation of its call graph and without contexts |
| StackFilter.StackFilter.WithKcsContextStrategy | src/pta/strategies/stack_filtering.rs:232-240 | From then on the filter uses the contexts of the given strategy |
| StackFilter.StackFilter.IsPotentiallyAlive | src/pta/strategies/stack_filtering.rs:278-312 | False exactly for an object in the frame of a function, outside the heap, whose function with its context is not the current one, is neither promoted nor constant, and may not be below the current one; that is, true exactly for heap objects and their parts, objects of no frame, of the current function and of constants, and objects whose function may be below the current one on the stack |
| StackFilter.LiveObjectsAreKept | src/pta/strategies/stack_filtering.rs:278-312 | For every stack and every frame, an object that exists while the frame is the newest, because it lives anyway or its frame is at or below it, is never called dead, and every function looked up has a node |
| StackFilter.ChainGoesDown | src/pta/strategies/stack_filtering.rs:365-386 | The chain a truncated context names follows the stack downwards, frame by frame, as far as the context is long |
| StackFilter.ChainsOverlap | src/pta/strategies/stack_filtering.rs:387-404 | When the newer context reaches down to the older frame the two chains overlap |
| StackFilter.LaterFramesAreReached | src/pta/strategies/stack_filtering.rs:314-326 | Every later frame of a stack is reached from every earlier one |
| Rta.Analyze | src/rta/rta.rs:72-100 | The whole analysis terminates when the least set is finite; everything the bodies of entered functions do is recorded, upcasts between different types included, with special callees marked; its call edges, reached functions, concrete types, upcasts and call sites are exactly the least set closed under the rules without the bodies of the functions passed over; a function is passed over if and only if the body of one entered earlier calls it specially, and never the entry; special are exactly the special callees of the entered bodies; the result lies between the least sets without the bodies of all special callees and with all bodies, equals the latter if and only if the bodies passed over hold nothing new, and equals the former when no special callee is reached otherwise |
| RtaOrder.OrderMatters | src/rta/rta.rs:113-117 | What is proved of the order of a run allows different results: on one program in which a function is called both specially and otherwise, two orders meet all of it and end with different facts |
| RtaOrder.OrderDoesNotMatter | src/rta/rta.rs:113-117 | When no special callee is reached otherwise every order finds the least set without the bodies of all special callees |
| RtaOrder.FoundEverythingExactly | src/rta/rta.rs:113-117 | Passing functions over loses nothing if and only if their bodies hold nothing that is not found anyway |
| RtaOrder.BetweenTheExtremes | src/rta/rta.rs:113-117 | Every order ends between the least sets without the bodies of all special callees and with all bodies |
| RtaOrder.SkippedAreSpecial | src/rta/rta.rs:113-117 | Only special callees of reached bodies are passed over, and never the entry |
| RtaOrder.NoSpecialEntered | src/rta/rta.rs:113-117 | When no special callee is reached otherwise none is ever entered |
| RtaCovers.CallGraphIsCovered | src/rta/rta.rs:93-132 | When both analyses read the same program (their visitors record the same calls and sites of each body, the compiler resolves calls alike, and pointers to trait objects and functions get objects only where their types are recorded), the call graph of rapid type analysis holds every call, special or not, and every reached function of the joint fixpoint of the pointer analysis |
| RtaCovers.DriverIsCovered | src/rta/rta.rs:93-132 | The same for what the driver ends with, whatever the two orders, as long as rapid type analysis passed over no function that the driver entered and nothing strayed |
| RtaCovers.CoveredIsClosed | src/rta/rta.rs:135-279 | The facts, edges, sites and calls that the recorded types account for are closed under every points-to rule |
| OneClosure.BothFindTheCall | src/rta/rta.rs:223-279 | On the program with one indirect call the two analyses read the same program, and both find the call |
| Rta.RapidTypeAnalysis.ResultIsLeast | src/rta/rta.rs:93-100 | When the queue is empty and every rule is satisfied, the result is exactly that least set |
| Rta.RapidTypeAnalysis.IterativelyProcessReachableFunctions | src/rta/rta.rs:93-100 | The outer loop terminates with the queue read, every rule satisfied, and each function entered or passed over exactly as the special callees of those entered before it say |
| Rta.RapidTypeAnalysis.ProcessReachableFunctions | src/rta/rta.rs:103-132 | Visits the queue to its end, returns true exactly when it held a function, adds nothing when it held none, and keeps the exact account of the functions entered, passed over and special |
| Rta.RapidTypeAnalysis.ProcessFunction | src/rta/rta.rs:105-129 | Passes a function over exactly when it is new and marked as special at that moment, enters it exactly when it is new, unmarked and has a body, and marks exactly the special callees of an entered body |
| Rta.RapidTypeAnalysis.AddSpecialCall | src/rta/body_visitor.rs:260-281 | Adds the call edge and marks the callee, which is not thereby reached otherwise |
| Rta.RapidTypeAnalysis.SolveTraitUpcasting | src/rta/rta.rs:135-154 | Afterwards concrete types are closed under upcasting; terminates; adds only derivable types |
| Rta.RapidTypeAnalysis.Spread | src/rta/rta.rs:139-152 | One trait object: the flag is exact, and if nothing changed its upcasts are satisfied |
| Rta.RapidTypeAnalysis.SolveDynCallsites | src/rta/rta.rs:156-185 | Afterwards every trait-method call site has a call edge for every concrete type that devirtualizes; only edges are added |
| Rta.RapidTypeAnalysis.SolveDynFntraitCallsites | src/rta/rta.rs:187-247 | Afterwards every `dyn Fn` call site and concrete type has its call edge or has become a function-pointer call site |
| Rta.RapidTypeAnalysis.SolveFnptrCallsites | src/rta/rta.rs:249-279 | Afterwards every function-pointer call site has a call edge to every target with a matching signature |
| Rta.RapidTypeAnalysis.VisitAction | src/rta/rta.rs:308-384 | Records what the action finds, an upcast if its types differ, with the callee of a plain call reached otherwise, and nothing that does not follow; exactly a special callee is marked |
| RtaRules.BodyIsRecorded | src/rta/rta.rs:308-384 | A visited body has every fact it finds recorded, but for reachability, which the queue takes care of, and upcasts of a type to itself |
| UpcastCall.UpcastIsFollowed | src/rta/rta.rs:135-181 | On a program in which a trait object is made at one type, upcast and called at another one, the analysis finds the concrete type, the call and the callee |
| RtaReasons.FoundExactly | src/rta/rta.rs:93-279 | A fact is found if and only if there is a reason for it in what is found: an action of a visited body, both ends of a call, an upcast of a concrete type, a trait method resolved for a concrete type, a `dyn Fn` call on one, or a function-pointer call with a target of matching signature |
| RtaOrder.OrderSays | src/rta/rta.rs:103-132 | In queue order, a function is passed over if and only if the body of one entered earlier has a special call of it, and any other function with a body is entered |
| Rta.RapidTypeAnalysis.AddTraitUpcastingRelation | src/rta/rta.rs:363-376 | Records an upcast unless source and target are the same type |
| Rta.RapidTypeAnalysis.AddPossibleConcreteType | src/rta/rta.rs:342-349 | Exactly one fact more: the concrete type of the trait object |
| Rta.RapidTypeAnalysis.AddPossibleFnptrTarget | src/rta/rta.rs:351-361 | Exactly one fact more: the target of the signature |
| Rta.RapidTypeAnalysis.AddDynCallsite | src/rta/rta.rs:313-322 | Exactly one fact more: the call site of the trait object |
| Rta.RapidTypeAnalysis.AddDynFntraitCallsite | src/rta/rta.rs:324-332 | Exactly one fact more: the `dyn Fn` call site |
| Rta.RapidTypeAnalysis.AddFnptrCallsite | src/rta/rta.rs:334-339 | Exactly one fact more: the function-pointer call site |
| Rta.RapidTypeAnalysis.AddCallEdge | src/rta/rta.rs:378-380 | Exactly the call and the reachability of both ends |
| RtaRules.LeastIsClosed | src/rta/rta.rs:93-279 | The least set is closed under the rules and holds the bodies of reached functions that are not left out |
| RtaRules.LeastAntitone | src/rta/rta.rs:113-117 | Leaving out fewer bodies finds more |
| Rta.RulesKept | src/rta/rta.rs:93-100 | Later solvers of a round add nothing that the rules solved earlier in the round look at |
| HybridSet.HybridSet.Insert | src/pts_set/points_to.rs:177-200 | Adds the element; true exactly when it is new; the 33rd element switches to a bit vector with the same elements |
| HybridSet.HybridSet.Remove | src/pts_set/points_to.rs:202-215 | Removes the element; true exactly when it was there; a small set stays without repetition |
| HybridSet.HybridSet.Union | src/pts_set/points_to.rs:224-258 | The union of the two sets in all four combinations, including a switch in the middle; exact flag |
| HybridSet.HybridSet.Subtract | src/pts_set/points_to.rs:260-284 | The difference in all four combinations; exact flag |
| HybridSet.HybridSet.Intersect | src/pts_set/points_to.rs:286-319 | The elements of both, plus, for two large sets, the own elements past the words of the other, so that it is the intersection exactly when there are none; the flag is exact except for a large set met by a small one, where it tells whether the small set is contained |
| HybridSet.HybridSet.Superset | src/pts_set/points_to.rs:160-167 | True exactly when the other set is contained |
| HybridSet.HybridSet.Count | src/pts_set/points_to.rs:144-149 | The number of elements |
| HybridSet.HybridSet.Contains | src/pts_set/points_to.rs:152-157 | Membership |
| HybridSet.HybridSet.IsEmpty | src/pts_set/points_to.rs:169-174 | Emptiness |
| HybridSet.HybridSet.Clear | src/pts_set/points_to.rs:134-141 | Empties the set |
| HybridSet.HybridSet.Iter | src/pts_set/points_to.rs:217-222 | A list of exactly the elements, each once |
| HybridSet.HybridSet.Retain | src/pts_set/points_to.rs:260-276 | Keeps exactly the elements whose presence in the other set is as wanted; exact flag |
| HybridSet.HybridSet.ToLarge | src/util/bit_vec.rs:90-96 | A bit vector with the elements of a list |
| HybridSet.FlagRightExactly | src/pts_set/points_to.rs:300-311 | The flag of a large set met by a small one is right if and only if containment one way and the other agree |
| HybridSet.IntersectFlagMayBeWrong | src/pts_set/points_to.rs:300-311 | Witness: the large set {0, 1}, made by 33 insertions and 31 removals, changes when it meets {0}, and the flag says it does not |
| HybridSet.SwapRemoveMeaning | src/pts_set/points_to.rs:202-215 | Moving the last element into the gap removes exactly the element and repeats none |
| BitVec.BitVec.Insert | src/util/bit_vec.rs:144-152 | Adds the element, growing if needed; exact flag |
| BitVec.BitVec.Remove | src/util/bit_vec.rs:161-171 | Removes the element; exact flag |
| BitVec.BitVec.Union | src/util/bit_vec.rs:184-187 | Grows to the other length and becomes the union; exact flag |
| BitVec.BitVec.Subtract | src/util/bit_vec.rs:189-191 | Becomes the difference, whatever the lengths; exact flag |
| BitVec.BitVec.Intersect | src/util/bit_vec.rs:193-195 | Elements past the other word vector stay, all others must be in both; exact flag |
| BitVec.BitVec.Superset | src/util/bit_vec.rs:130-134 | True exactly when the other set is contained, whatever the lengths |
| BitVec.BitVec.Count | src/util/bit_vec.rs:114-116 | The number of elements |
| BitVec.BitVec.Contains | src/util/bit_vec.rs:120-126 | Membership, false past the end |
| BitVec.BitVec.IsEmpty | src/util/bit_vec.rs:138-140 | Emptiness |
| BitVec.BitVec.Ensure | src/util/bit_vec.rs:100-105 | Grows with zero words only; the set is unchanged |
| BitVec.BitVec.Clear | src/util/bit_vec.rs:109-111 | Empties the set and keeps the length |
| BitVec.Bitwise | src/util/bit_vec.rs:316-332 | The operation on each word the two vectors share; words past the shorter one stay; the flag is exact |
| BitVec.IntersectIsExact | src/util/bit_vec.rs:193-195 | The result is the intersection if and only if no own element lies past the other word vector |
| BitVec.IntersectMayKeepElement | src/util/bit_vec.rs:193-195 | Witness: intersecting {64} with the shorter vector of {0} keeps 64 |
| BitVec.SameElemsSameWords | src/util/bit_vec.rs:316-332 | Vectors of one length are equal exactly when their sets are |
| BitVec.BitIter.Next | src/util/bit_vec.rs:277-294 | Yields the least element left and removes it, or nothing exactly when none is left |
| BitVec.BitIter.NextWord | src/util/bit_vec.rs:287-291 | From the degenerate start offset too, moving to the next word loses and adds no element; the first addition wraps around to 0 |
| BitVec.BitIter.constructor | src/util/bit_vec.rs:260-272 | At the start everything is left |
| BitVec.ToSeq | src/util/bit_vec.rs:275-294 | Iterating to the end yields exactly the set indices, strictly increasing, as many as `count` says |
| Words.NonZeroHasBit | src/util/bit_vec.rs:277-294 | A word is non-zero exactly when some position is set |
| Words.SameBitsSameWord | src/util/bit_vec.rs:316-332 | Words are equal exactly when their bits are |
| Words.CoversMeaning | src/util/bit_vec.rs:130-134 | `w & v == v` exactly when every bit of v is a bit of w |
| Words.OnesArePositions | src/util/bit_vec.rs:114-116 | The number of ones is the number of set positions |
| ChunkedQueue.ChunkedQueue.Push | src/util/chunked_queue.rs:126-142 | Appends one element; chunks never move; every chunk but the last holds exactly 60 |
| ChunkedQueue.IterCopied.Next | src/util/chunked_queue.rs:219-238 | Returns the element at the cursor position, or nothing exactly when everything pushed so far has been returned; advances by what it returned |
| ChunkedQueue.IterCopied.constructor | src/util/chunked_queue.rs:164-170 | A cursor starts at position 0 |
| ChunkedQueue.ChunkedQueue.constructor | src/util/chunked_queue.rs:103-111 | A valid empty queue |
| ChunkedQueue.Interleave | src/util/chunked_queue.rs:126-238 | For any interleaving of pushes and reads on any number of cursors the results are those of an ideal queue: each cursor has always read a prefix of what was pushed, and a read is empty exactly when that prefix is everything |
| ChunkedQueue.PushBeside | src/util/chunked_queue.rs:126-142 | A push leaves all cursors valid and where they are |
| ChunkedQueue.ReadBeside | src/util/chunked_queue.rs:219-238 | A read moves one cursor by one element and no other cursor |
| IndexTree.IndexTree.AddChild | src/util/index_tree.rs:77-93 | Appends the child after the existing children; parent, first and last child and sibling links agree again, and nothing else changes |
| IndexTree.IndexTree.NewRoot | src/util/index_tree.rs:53-56 | A well formed tree of one node |
| IndexTree.Traverse.Next | src/util/index_tree.rs:253-257 | Yields the next event of the recursive traversal of the subtree, or nothing exactly when all have been yielded |
| IndexTree.NextIsRest | src/util/index_tree.rs:230-247 | The step from any event inside the subtree is the next event of the recursive traversal, and there is none exactly after the end of the root |
| IndexTree.Descendants.Next | src/util/index_tree.rs:186-192 | Yields the next proper descendant in recursive pre-order, or nothing exactly when all have been yielded |
| IndexTree.Descendants.constructor | src/util/index_tree.rs:115-117 | Left to yield at the start: the recursive pre-order of the proper descendants |
| IndexTree.Traverse.constructor | src/util/index_tree.rs:221-227 | Left to yield at the start: all events of the subtree |
| IndexTree.BelowMembers | src/util/index_tree.rs:175-193 | Pre-order lists exactly the nodes that descend from the node |
| IndexTree.BelowNoRepeats | src/util/index_tree.rs:175-193 | Pre-order lists no node twice |
| IndexTree.BelowInOrder | src/util/index_tree.rs:175-193 | Pre-order lists a node before its descendants, and what lies at or below one child before what lies at or below a later one |
| IndexTree.EnteredIsPreOrder | src/util/index_tree.rs:186-192 | Keeping the start events other than the root turns the event list into the recursive pre-order |
| IndexTree.AddedChildIsLinked | src/util/index_tree.rs:77-93 | In every well formed tree the four link updates of adding a child give a well formed tree with exactly that child more |
| IndexTree.Children.Next | src/util/index_tree.rs:146-150 | Yields the children in insertion order, then nothing |
| Projections.PointersAreFiltered | src/util/type_util.rs:819-917 | For every finite type the pointer enumeration is the order-preserving filter of the full enumeration |
| Projections.PointersListedExactly | src/util/type_util.rs:819-917 | A projection and type are listed exactly when walking the projection, each selector being the one the type prescribes, reaches that pointer type with no pointer on the way |
| Projections.ListedExactly | src/util/type_util.rs:732-816 | The full enumeration lists exactly the non-empty prescribed projections with the types the walk reaches |
| Projections.ListedByShape | src/util/type_util.rs:732-816 | By the shape of the type: a field of a struct, tuple, closure or coroutine, of a union, or of a variant of an enum, or an element of an array or slice, each alone or followed by what is listed for its own type; nothing for other types |
| Projections.EnumeratedDistinct | src/util/type_util.rs:732-816 | No projection is listed twice |
| Projections.PointersDistinct | src/util/type_util.rs:819-917 | No pointer projection is listed twice |
| Projections.NoPointerOnTheWay | src/util/type_util.rs:1340-1385 | A listed projection never passes through a pointer |
| Projections.WalkIsMoreLenient | src/util/type_util.rs:1340-1385 | The walk alone also takes a field selector for a union field, which the enumeration never lists |
| Projections.GetPointerProjections | src/util/type_util.rs:819-917 | The recursive loops compute the filter of the full enumeration |
| Projections.ProjectionsAndTypes | src/util/type_util.rs:732-816 | The recursive loops compute the full enumeration |
| Projections.TryEvalProjection | src/util/type_util.rs:1340-1385 | The walker loop computes the type reached by the recursive walk, stopping where it stops |
| Projections.SelectorSteps | src/util/type_util.rs:1340-1385 | For every type and at the head of every walk: a dereference leads from a pointer to its target and from anything else to `never`, a cast to the cached type, a subslice nowhere else, an index to the element or a panic |
| Projections.FieldSteps | src/util/type_util.rs:1340-1385 | A field selector leads to the field of a type with fields, to a panic past the last one, and otherwise to `never` |
| Projections.DowncastSteps | src/util/type_util.rs:493-523 | A downcast leads to the tuple of the fields of the variant of an enum, of the last one for an index too large, of a struct or union, or of the state of a coroutine, and otherwise to `never` |
| Casts.PathCastCache.CastTo | src/util/type_util.rs:295-345 | A constant stays itself; otherwise the path itself if it has the type, the first start field that has, or else the path cast to the type; a result is what `get_type_variant` gives from then on; there is none exactly for `never` or for a path already cast to the type; no earlier answer changes, and none appears for another path or type |
| Casts.PathCastCache.GetTypeVariant | src/util/type_util.rs:348-378 | Gives the recorded variant, and changes no answer about any path and type |
| Casts.PathCastCache.GetRegularizedPath | src/util/type_util.rs:383-426 | Terminates with the shortest prefix that dropping one droppable selector after the other leads to |
| Casts.PathCastCache.CastPathsStayShort | src/util/type_util.rs:295-378 | From a path that repeats no cast, no path made by a cast repeats one, so casts nest at most as deep as there are cached types |
| Casts.RegularizedMeaning | src/util/type_util.rs:383-426 | Regularization returns a prefix with the same base, is idempotent, and leaves nothing to drop |
| Casts.RegularizedExactly | src/util/type_util.rs:383-426 | The last selector of the result is no cast, index, field of a union, downcast or field at offset zero, and each dropped selector is one where it stands last |
| Casts.WithoutCastExactly | src/util/type_util.rs:312-323 | Without a cast the path itself is found when it has the wanted type, otherwise the first start field of its type that has, and otherwise nothing |
| Casts.VariantKept | src/util/type_util.rs:348-378 | More casts and more interned types change no answer that has been given |
| Casts.NothingElseAnswered | src/util/type_util.rs:295-378 | Casting one path and caching types changes no answer about other paths or types |
| Casts.VariantCastsOk | src/util/type_util.rs:348-378 | Every path the record gives repeats no cast and names only cached types |
| Casts.CastNestingIsBounded | src/util/type_util.rs:295-345 | A projection without repeated casts has at most as many casts as there are types |
| Casts.TypeCache.GetIndex | src/util/type_util.rs:47-56 | The index of the type; a new one only for a new type; indices and types stay in bijection |
| Casts.TypeCache.GetType | src/util/type_util.rs:60-62 | The inverse of the index: it gives a type exactly when the index gives that type this number, and nothing exactly for a number that was never handed out |

## Left out

- `Propagator.Propagator.ProcessNode`: seven of the nine handlers; cast edges and static-dispatch instance calls are the two missing ones, see the next line and below.
- Cast edges in the solver (`handle_cast`, `propagate_cast`): what flows along them depends on what an object has been cast to before, so the result depends on the order; the cast cache is modelled on its own.
- The stack filter inside the solver and the function an edge belongs to: an induced edge keeps the function of whichever load or store made it first; the reachability test and `is_potentially_alive` are proved on their own.
- Node ids in the solver: `Solver` speaks of paths; `Pag` proves that nodes and paths are in bijection and that the id-based indexes list the same edges in the same order.
- Queue cursors in `Pag`, `CallGraph`, `Propagator`, `Andersen` and `Rta`: a queue is a sequence and a cursor a position in it; `ChunkedQueue` proves that the linked chunks behave like that.
- Points-to sets in `PtData`: mathematical sets; `HybridSet` proves the representation against them.
- The type tests of `propagate`: type equivalence and the type filter are one fixed predicate `pass`.
- `Propagator.Propagator.ProcessFnptrCall`: does not make the auxiliary for a closure that takes itself by reference or its address edge (`create_closure_callsite`), nor instance calls for self-reference callees; devirtualization and argument spreading are part of the answer of a total function, here and for the other two kinds of calls.
- Static-dispatch instance calls and the instance stored with a new call: only context-sensitive analyses use them.
- The grouping of new calls: calls are listed in the order of their objects, then sites, and the lists are compared as a whole; the theorems use only which calls are listed.
- What special calls do to points-to facts: the summaries are part of the edges of the caller; `set_callsite_type` only labels call sites.
- The building of function graphs from MIR other than the splitting of assignments: the internal edges and call sites of a function are a total function of it.
- `Andersen.AndersenPTA.Advance`: moves the cursor after a function has been added where the source moves it before; nothing reads the cursor in between.
- Rapid type analysis: bodies of promoted constants and statics are part of the body of the function that involves them; static call sites, call-site types and statistics are left out.
- `HybridSet.HybridSet.Insert`: requires an index below 2^64 - 64, where the source would overflow when computing the new length.
- `HybridSet.HybridSet.Union`: requires two different sets, which borrowing guarantees; so do subtract and intersect.
- `BitVec`: `insert_all`, formatting and hashing are left out.
- `Reachability.ComputeFuncReachRelationsMt`: threads and the lock are modelled as one independent search after another; a row is a sequence of booleans, not a bit vector.
- `ChunkedQueue`: raw pointers are references; the borrowing iterator and `Drop` are left out.
- `IndexTree`: `find_child` and the panics of out-of-range ids are left out; ids are required to be in range.
- `Projections`: types are finite trees in which a pointer names its target; layouts, array lengths and the caches are left out, and a panic is the value None.
- `Casts`: start fields, layouts and equality of types are total functions of a type; `flatten_fields` and the byte-offset cache are left out.
- Object-sensitive and hybrid contexts: they use the same truncation and cache.
- `RtaOrder.OrderMatters`: gives two orders, not two runs; a run of the model follows one traversal of its maps, and which it follows is not specified.
- `WellOwned` and `NoSelfFeed` have no converse: a program outside them may still be analysed completely, when what was passed over is found in another way; the exact conditions speak of the run.
- `RtaCovers.CallGraphIsCovered`: assumes that the two analyses read the same program (`SameProgram`), because their visitors and the functions of the compiler they ask are independent parameters here.
- Option parsing, dumping, DOT output, statistics, timing, lookup tables of known names and library summaries.
