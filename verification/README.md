# Pyston: what its hard algorithms guarantee

Pyston is a small JIT compiler for Python. This project models five of its parts in Dafny and
proves what each is for. Every file is one module named after it.

**From statements to basic blocks** (`Source`, `Lowering`, `CfgVisitor`, `CfgRun`, `LoweringFrame`,
`LoweringNodes`, `LoweringMeaning`, `LoweringTheorem`; `Shape*`, `CfgChecks`, `CfgShape`). The
visitor of `cfg.cpp` is a class whose methods are proved against functions on its state. One group
of lemmas shows that the graph does what the statements do, for every answer the tests may give;
the other that the graph has the shape the later phases assert, on exactly the programs that
`Accepts` describes. Tests, simple statements and returned expressions are opaque: a script of
numbers answers them, the same one for the statements and for the graph.

**Analyses over the graph** (`Graph`, `FixedPoint`, `FixedPointExact`, `FixedPointTermination`,
`FunctionBody`, `Definedness`, `Liveness`, `PhiAnalysis`, `TypeWorklist`, `BlockSets`). The
worklist solver keeps ending states in the map it merges into. It is proved exact whenever it
stops, and it stops exactly on the problems called calm; a graph whose cycles have dominating
headers is always calm, and lowering makes such graphs only. The loop with two entries is shown
to run forever.

**The inline-cache writer** (`Machine`, `RewriterState`, `Rewriter`, `RewriterSlots`; `Assembler`,
`InlineCache`). The register allocator emits abstract moves, loads, stores, guards and calls. Its
invariant says that every recorded location holds its variable's value in the machine that runs the
code emitted so far, from any entry state, and that a failing guard finds everything as it was on
entry. Whole slots are then written with its operations, and what their runs do is proved. The
caches are byte arrays; what a jump means is what the processor would decode.

**The heap and its collector** (`HeapLayout`, `BlockLists`, `LargeObjects`, `HeapView`, `Heap`).
Blocks with bitmaps, two lists per bucket, and large objects. An object is live when its slot is
taken; marking, sweeping, allocation and lookup are stated in terms of live objects and of
reachability from the roots.

**The syntax tree's wire format** (`WireBytes`, `AstKinds`, `AttributeNames`, `Wire`, `WireOrder`,
`WireRoundTrip`, `WireStreams`; `PythonTrees`, `TreeRoundTrip`; `Results`, `Commons`). What the
Python writer emits is what the C++ reader parses, through its sliding 1024-byte buffer and for any
short reads: for every module of the supported grammar, given as a datatype apart from both
programs, the reader returns the same module.

## How the code appears in the model

- Objects the code updates are classes, and their methods state the whole new state. Blocks of a
  graph, heap blocks and large objects are records in a table indexed by number or address, since
  the code reaches them by pointer only.
- A failed assert, `exit(1)`, `abort()` and a NULL dereference are a result (`Aborted`) or the
  visitor's `failed` flag, never a precondition, except where the callers' part is meant: the
  rewriter's asserts about its callers are preconditions of its methods.
- Native integer widths are written out where they matter: the collection counter wraps at 32
  bits, versions are compared through an `int`, jump offsets are 8 or 32 bits, wire numbers 16,
  32 or 64 bits.
- The code and its comments disagree in places; the model follows the code. The immediate form of
  an attribute guard is never emitted, because the value is unsigned (`GuardNeverImmediate`). A
  killing `getAttr` may load through a register that the spill has just overwritten: `GetAttr`
  states when in terms of the state before the call (`Threatened`, `ThreatIsPick`), and
  `KillingGetAttrMisreads` writes a slot that does. A large object that grows in place keeps its
  recorded size, so interior pointers into the new part do not find it (`Outgrows`,
  `GrownPartIsLost`). A cleared inline-cache slot stays
  marked as patched and is never the first choice again. `while` and `for` place their exit block
  even when nothing leads to it, which the final checks then refuse (`SucceedsIffAccepted`,
  `RejectedExample`). The order of a deopt's blocks may have no block to start from (`OneGuard`).
- The second loop of the solver's merge compares an iterator of one map with the end of another;
  with hash maps these ends are equal, and the model loops over the entries of the first.

## Model

| member | source | states |
|---|---|---|
| `CfgVisitor.CFGVisitor.Visit` | src/core/cfg.cpp:204-617 | every visit method takes the visitor object exactly to the state the lowering function gives |
| `CfgVisitor.CFGVisitor.VisitExit` | src/core/cfg.cpp:280-316 | break and continue jump to the innermost loop's blocks, and fail outside loops |
| `CfgVisitor.CFGVisitor.VisitIf` | src/core/cfg.cpp:226-278 | exit block made first and placed last, and only when an arm reaches it |
| `CfgVisitor.CFGVisitor.VisitWhile` | src/core/cfg.cpp:318-374 | test block, exit block placed after the else arm, the body between |
| `CfgVisitor.CFGVisitor.VisitFor` | src/core/cfg.cpp:376-504 | the inverted loop: two tests, critical edges broken, else and exit blocks placed late |
| `CfgVisitor.CFGVisitor.VisitWith` | src/core/cfg.cpp:506-613 | continue, break and return blocks around the body, each filled only when something leads to it |
| `CfgVisitor.CFGVisitor.DoReturn` | src/core/cfg.cpp:67-85 | inside a `with`, the value is saved and control goes to its return block; elsewhere the function returns |
| `CfgVisitor.CFGVisitor.ConnectTo` | src/core/cfg.cpp:27-34 | the edge is recorded on both sides, and the assert on forward edges is the failure |
| `CfgVisitor.CFGVisitor.PlaceBlock` | src/core/cfg.h:79-84 | the block gets the next index and is listed; placing it twice fails |
| `CfgVisitor.CFGVisitor.AddBlock` | src/core/cfg.h:66-72 | the next index, placed at once |
| `CfgVisitor.CFGVisitor.AddDeferredBlock` | src/core/cfg.h:74-77 | no index yet |
| `CfgVisitor.CFGVisitor.PushBack` | src/core/cfg.cpp:199-202 | appended to the current block, dropped where there is none |
| `LoweringTheorem.LoweringPreservesMeaning` | src/core/cfg.cpp:213-658 | for every statement list and every script, the graph run from block 0 does the same events and ends the same way as the statements, and in no other way |
| `LoweringMeaning.MeansStmt` | src/core/cfg.cpp:213-613 | the same for one visit in any context: where the graph is when the statement falls out, breaks, continues or returns |
| `LoweringMeaning.MeansFor` | src/core/cfg.cpp:376-504 | the inverted `for` runs as a loop that tests before each item, its else arm only when the items run out |
| `LoweringMeaning.MeansWith` | src/core/cfg.cpp:506-613 | the exit call is made once on each way out of a `with`, after the returned value has been saved |
| `LoweringTheorem.EveryWithExits` | src/core/cfg.cpp:506-613 | keeping the open `with`s as a stack, every exit call names its top, and when the statements end, however they end, nothing is left of what they opened |
| `LoweringTheorem.GraphExitsEveryWith` | src/core/cfg.cpp:506-613 | the same of the events of every finished run of the lowered graph, at each moment of it |
| `CfgVisitor.ComputeCFG` | src/core/cfg.cpp:646-705 | no assert fails and the final checks pass exactly on the statements `Accepts` describes, and then the graph is well built |
| `CfgShape.SucceedsIffAccepted` | src/core/cfg.cpp:646-705 | the same of the lowering function, both directions: what makes the code fail is a `return` outside a function or in dead code inside a `with`, a live break or continue outside loops, or a loop whose exit block nothing reaches |
| `CfgShape.UnleftWhileRejected` | src/core/cfg.cpp:318-374 | a `while` without a break whose else arm never falls through is refused, legal as it may be: its exit block has no predecessor |
| `CfgShape.RejectedExample` | src/core/cfg.cpp:661-701 | one such function: the lowering fails no assert, the statements run to a return, and the final checks refuse the graph |
| `CfgShape.AcceptedIsWellBuilt` | src/core/cfg.cpp:661-701 | block 0 has no predecessor, no critical edges, dual edge lists, one terminator per block with exactly its successors as targets, a first predecessor before each block, and every edge that does not go forward targets a block dominating its source |
| `CfgShape.NoDeadBlocks` | src/core/cfg.cpp:682-701 | every block of a finished graph is reached from the entry |
| `CfgShape.WholeFunctionFound` | src/codegen/irgen.cpp:2725-2728 | so the order of a whole function, begun at block 0, never gives up |
| `ShapeTheorem.VisitShape` | src/core/cfg.cpp:213-613 | what one visit keeps: new blocks are finished or current, older ones gain only the edges their scopes allow; it falls out and breaks out exactly when the syntax says |
| `ShapeRejects.VisitDooms` | src/core/cfg.cpp:213-613 | a statement that is not accepted makes the visitor fail or leaves a placed block without predecessor for good |
| `ShapeWhile.WhileCloses` | src/core/cfg.cpp:318-374 | the test block of a `while` is the only way into its loop, and the exit block follows everything that leads to it |
| `ShapeFor.ForCloses` | src/core/cfg.cpp:376-504 | both headers of the inverted `for`: the first test is the only way into the loop, the loop block the only way into its body |
| `ShapeWith.WithLeaves` | src/core/cfg.cpp:506-613 | the exits of a `with` are finished or never placed, and lead on to the enclosing exits |
| `CfgChecks.RunChecks` | src/core/cfg.cpp:661-701 | the loops at the end of computeCFG decide exactly the stated checks |
| `CfgShape.SolverHaltsOnLowered` | src/analysis/fpc.h:49-105 | so the definedness solver halts on every function the code lowers, whatever its blocks store |
| `CfgShape.LoweredSuitsAnalyses` | src/analysis/function_analysis.cpp:255-302 | every lowered function meets the preconditions of the phi and definedness analyses |
| `Definedness.ComputeFixedPoint` | src/analysis/fpc.h:38-108 | the worklist loop over its map and stack terminates on every calm problem; at each block a run can enter, a name is Defined iff every such run has assigned it by the block's end, absent iff none has, where assigning is said of the statements themselves |
| `Definedness.MergeEnding` | src/analysis/fpc.h:68-97 | both loops over map entries: the merge with the successor's map, and whether it changed |
| `Definedness.ProcessBB` | src/analysis/function_analysis.cpp:136-224 | exactly the names assigned by some statement of the block, at the entry also the parameters, become Defined |
| `Definedness.DoSetTarget` | src/analysis/function_analysis.cpp:145-165 | exactly the names that a chain of tuple elements leads to become Defined |
| `Definedness.BlockSetsAssigned` | src/analysis/function_analysis.cpp:136-224 | the set computed for a block is what its statements and parameters assign |
| `Definedness.TurnOnce` | src/analysis/fpc.h:50-104 | one turn of the loop |
| `FixedPointExact.EmptyQueueExact` | src/analysis/fpc.h:56-104 | an empty queue means: Defined iff every entry path through the block assigns the name, PotentiallyDefined iff some do and some do not, absent iff none do |
| `FixedPointExact.StepInvariant` | src/analysis/fpc.h:49-105 | every turn keeps the facts that make this true although merges act on stored ending states |
| `FixedPointTermination.HaltsIffCalm` | src/analysis/fpc.h:49-105 | the loop ends if and only if no cycle of edges u to v exists where v stores a name that some path through u does not assign |
| `FixedPointTermination.HeadersMakeCalm` | src/analysis/fpc.h:49-105 | graphs whose cycles have a dominating header always halt |
| `FixedPointTermination.DominatedCycleHasHeader` | src/analysis/fpc.h:49-105 | a cycle dominated by one of its blocks has such a header |
| `FixedPointTermination.TwoEntryLoopDiverges` | src/analysis/fpc.h:49-105 | on the loop with two entries the solver never ends |
| `Liveness.IsLiveAtEnd` | src/analysis/function_analysis.cpp:77-112 | true iff some path from a successor reaches a block whose first statement that mentions the name reads it first, through blocks that never mention it |
| `Liveness.BodyFirst` | src/analysis/function_analysis.cpp:33-75 | the order of accesses the visitor meets decides just that |
| `Liveness.VisitBlock` | src/analysis/function_analysis.cpp:33-75 | the name is loaded first iff the first statement that mentions it reads it first: in an assignment's value, or leftmost in its targets when the value does not mention it; and untouched iff none mentions it |
| `Liveness.LivenessBBVisitor.VisitBody` | src/analysis/function_analysis.cpp:33-75 | the two sets hold the names read first, and those mentioned but not read first |
| `PhiAnalysis.PredecessorsAgree` | src/analysis/function_analysis.cpp:255-275 | without critical edges all predecessors of a join agree on what is live |
| `PhiAnalysis.ComputeRequiredPhis` | src/analysis/function_analysis.cpp:255-275 | asking one predecessor gives exactly the defined local names live at each join |
| `PhiAnalysis.RequiredAfterIsRequired` | src/analysis/function_analysis.cpp:288-302 | isRequiredAfter at an edge's source is isRequired at its target |
| `TypeWorklist.DoAnalysis` | src/analysis/type_analysis.cpp:472-539 | stops for every transfer function; at the end the reachable blocks have maps, merging any block's ending map into a successor changes nothing, every entry is a type given to the block as an argument or by a pass over a predecessor, or is UNKNOWN because two different ones were; and every recorded type and speculation is that of a node's last event in a pass from the final map of some block that visits it |
| `TypeWorklist.AgreeingRecords` | src/analysis/type_analysis.cpp:116-129 | a node that one block alone visits, or that its blocks agree on, has the record of each of them |
| `TypeWorklist.MergeIntoSuccessors` | src/analysis/type_analysis.cpp:530-536 | every successor absorbs the ending map, and is queued once if new or changed |
| `TypeWorklist.MergeMap` | src/analysis/type_analysis.cpp:438-470 | entry by entry: an unset one takes the ending type, an undefined or equal one stays, two different ones give UNKNOWN; and a change is reported exactly when there is one |
| `TypeWorklist.Merge` | src/analysis/type_analysis.cpp:438-461 | the four cases of the merge of one entry |
| `TypeWorklist.MergeRises` | src/analysis/type_analysis.cpp:438-470 | merging only raises entries (unset, a type, UNKNOWN), and afterwards the map absorbs the ending map |
| `TypeWorklist.SupplyGrows` | src/analysis/type_analysis.cpp:494-539 | one round keeps every entry explained by what was given to the block |
| `TypeWorklist.PassRecords` | src/analysis/type_analysis.cpp:96-138 | a pass overwrites the records of the nodes it visits, whatever they were |
| `TypeWorklist.LastRecords` | src/analysis/type_analysis.cpp:116-138 | the records of a node are those of its last event |
| `TypeWorklist.RunPass` | src/analysis/type_analysis.cpp:96-138 | the two records after the events of a pass |
| `TypeWorklist.PassProgress` | src/analysis/type_analysis.cpp:494-539 | each pass raises an entry or shortens the queue |
| `BlockSets.ComputeBlockSetClosure` | src/codegen/irgen.cpp:2580-2626 | full gains exactly the blocks reached by one or more edges from the seeds; partial keeps exactly those not so reached |
| `BlockSets.ClosureMeetsOrder` | src/codegen/irgen.cpp:2725-2752 | the order finds all blocks of a closure from the start and the partial blocks iff it finds the full seeds and the erased partial ones; so always for an OSR entry |
| `BlockSets.OneGuard` | src/codegen/irgen.cpp:2741-2752 | a deopt from one guard is found iff the guard is not on a loop; on a loop the order has no seed |
| `BlockSets.OsrOrder` | src/codegen/irgen.cpp:2730-2731 | an OSR version: its first block is the back edge's target, every other comes after one that leads to it, and nothing fails |
| `BlockSets.ComputeBlockTraversalOrder` | src/codegen/irgen.cpp:2048-2115 | each block once; the start and the partial blocks first, by index, and no other such entry; every other block after the predecessor recorded with it or, when it is added for want of a better, the lowest left that is not merely branched to; no block is added so when all of full is the start or reached from it or from a partial block, and the assert fails exactly when some block is reached from none of these nor from one that may be added |
| `BlockSets.SortedSeeds` | src/codegen/irgen.cpp:2050-2066 | the seeds in the order of their indices |
| `BlockSets.ExpandAll` | src/codegen/irgen.cpp:2075-2088 | everything the listed blocks lead to is listed behind them |
| `BlockSets.PickBest` | src/codegen/irgen.cpp:2093-2106 | the lowest block whose predecessors can be given an epilogue |
| `Rewriter.Rewriter2.constructor` | src/asm_writing/rewriter2.cpp:686-734 | arguments and live-outs are entered: each is recorded in its register and nowhere else, nothing else is recorded, and a live-out in an argument register shares its variable |
| `Rewriter.Rewriter2.AllocReg` | src/asm_writing/rewriter2.cpp:641-660 | the first free register, or the wanted one freed by a spill that moves its variable aside |
| `Rewriter.SpillChoice` | src/asm_writing/rewriter2.cpp:606-617 | a spill takes the first free callee-save register, and none only when all are taken |
| `Rewriter.Rewriter2.SpillRegister` | src/asm_writing/rewriter2.cpp:600-624 | to the first free callee-save register, else scratch; nothing else in the machine changes |
| `Rewriter.Rewriter2.SpillXmm` | src/asm_writing/rewriter2.cpp:626-639 | to the first free scratch slot |
| `Rewriter.Rewriter2.AllocScratch` | src/asm_writing/rewriter2.cpp:582-590 | the first free 8-byte slot of the scratch area |
| `Rewriter.Rewriter2.AddLocationToVar` | src/asm_writing/rewriter2.cpp:662-668 | both indexes gain the location |
| `Rewriter.Rewriter2.RemoveLocationFromVar` | src/asm_writing/rewriter2.cpp:670-676 | both indexes lose it |
| `Rewriter.Rewriter2.Kill` | src/asm_writing/rewriter2.cpp:575-580 | the variable is gone from both indexes |
| `Rewriter.Rewriter2.DecUseVar` | src/asm_writing/rewriter2.cpp:328-334 | one use less, and the last one kills |
| `Rewriter.Rewriter2.SetDoneUsing` | src/asm_writing/rewriter2.cpp:178-182 | the client's use is given up |
| `Rewriter.Rewriter2.GetArg` | src/asm_writing/rewriter2.cpp:356-363 | one more use of the argument's variable |
| `Rewriter.ForArg` | src/asm_writing/rewriter2.cpp:47-65 | arguments are where the calling convention puts them, on entry and at a call |
| `Rewriter.Rewriter2.CreateNewVar` | src/asm_writing/rewriter2.cpp:678-684 | a fresh variable at a free location, with one use |
| `Rewriter.Rewriter2.GetInReg` | src/asm_writing/rewriter2.cpp:221-269 | the register returned really holds the variable's value, every other variable stays where it was unless a reload had to move the wanted register's variable aside, and only a reload without room aborts |
| `Rewriter.Rewriter2.GetInXmm` | src/asm_writing/rewriter2.cpp:271-317 | the same for floating-point registers |
| `Rewriter.Rewriter2.LoadConst` | src/asm_writing/rewriter2.cpp:373-384 | a new variable with exactly that value, where it is recorded, and exactly when there is no room for it |
| `Rewriter.Rewriter2.AddAttrGuard` | src/asm_writing/rewriter2.cpp:119-135 | one guard is appended, which fails exactly when the attribute differs; no variable moves; aborts exactly when no register is free |
| `Rewriter.GuardNeverImmediate` | src/asm_writing/rewriter2.cpp:127-133 | the unsigned comparison never takes the immediate branch |
| `Rewriter.ImmediatesExtend` | src/asm_writing/rewriter2.cpp:373-384 | a constant is kept as an immediate iff 32 sign-extended bits give it back, the largest excepted |
| `Rewriter.Rewriter2.GetAttr` | src/asm_writing/rewriter2.cpp:137-152 | decided before the call: unless `Threatened`, the new variable holds the attribute of the given base; when threatened with one register to read from, that of the variable in the wanted register; and where everything is afterwards |
| `Rewriter.ThreatIsPick` | src/asm_writing/rewriter2.cpp:137-152 | a state is threatened iff some register the base may be read from is the spill's choice; with one register, that is the pick |
| `RewriterSlots.KillingGetAttrMisreads` | src/asm_writing/rewriter2.cpp:137-152 | a threatened state is reached from the constructor through the operations alone, and the finished code loads the second argument's attribute when the first one's was asked for, from every entry state |
| `RewriterSlots.WrongAttribute` | src/asm_writing/rewriter2.cpp:137-152 | so some entry state makes the loaded value differ from the attribute |
| `Rewriter.Rewriter2.SetAttr` | src/asm_writing/rewriter2.cpp:154-176 | memory changes at exactly the attribute, to the value; where base and value are recorded, and the value's use is given up |
| `Rewriter.Rewriter2.Call` | src/asm_writing/rewriter2.cpp:428-504 | at the call every argument register holds its argument, and afterwards the result is in RAX, every location the call keeps is still recorded, and a variable in one place is there or in one shelter |
| `Rewriter.Rewriter2.PlaceArg` | src/asm_writing/rewriter2.cpp:436-456 | an argument is in place or moved there as an immediate, and its use is given up |
| `Rewriter.Rewriter2.SpillCallerSaves` | src/asm_writing/rewriter2.cpp:458-495 | after it nothing is recorded where a call may write |
| `Rewriter.Rewriter2.EmitCall` | src/asm_writing/rewriter2.cpp:498-503 | the call, and a new variable for its result |
| `Rewriter.Rewriter2.SetDoneGuarding` | src/asm_writing/rewriter2.cpp:346-354 | the arguments are released; whatever a client or a live-out still uses is where it was |
| `Rewriter.Rewriter2.Commit` | src/asm_writing/rewriter2.cpp:506-544 | given that each live-out can be restored at its turn, every live-out register holds what it held on entry and all variables are gone |
| `Rewriter.Rewriter2.RestoreLiveOut` | src/asm_writing/rewriter2.cpp:506-544 | one live-out is brought to its register and given up |
| `Rewriter.Rewriter2.CommitReturning` | src/asm_writing/rewriter2.cpp:552-569 | besides, the returned value leaves in the return register although its variable was released first |
| `Rewriter.EachThenAll` | src/asm_writing/rewriter2.cpp:516-541 | giving up a live-out never takes away what a later one needs: if each can be restored as things stand, each can at its turn |
| `RewriterSlots.GuardedCall` | src/asm_writing/rewriter2.cpp:119-569 | whole slots, for any arguments, live-outs, guards and callee: a run is missed, with everything untouched, iff some guarded attribute differs; otherwise it ends with the callee called once on the entry's memory and arguments, its result and memory left and every live-out register as on entry |
| `RewriterSlots.RunMisses` | src/asm_writing/rewriter2.cpp:119-135 | a run leaves early iff some guard fails in the state the code before it leads to |
| `Rewriter.RunOutcome` | src/asm_writing/rewriter2.cpp:119-135 | a run of the emitted code is a miss with memory, scratch, arguments and live-outs as on entry, or ends in the recorded state |
| `Machine.RunIsThrough` | src/asm_writing/rewriter2.cpp:119-135 | executing step by step agrees with falling through up to a failing guard |
| `Rewriter.NoOwners` | src/asm_writing/rewriter2.cpp:506-544 | use counts equal outstanding owners: with none left no variable is left |
| `RewriterState.SpillOk` | src/asm_writing/rewriter2.cpp:600-639 | moving a variable aside keeps the whole invariant |
| `RewriterState.DecUseOk` | src/asm_writing/rewriter2.cpp:328-334 | the last use takes the variable out of both indexes |
| `Heap.Heap.RunCollection` | src/gc/collector.cpp:136-148 | exactly the objects reachable from the roots stay allocated, and no mark is left |
| `Heap.Heap.MarkPhase` | src/gc/collector.cpp:90-129 | marking terminates and marks precisely the reachable objects |
| `Heap.Heap.FreeUnmarked` | src/gc/heap.cpp:366-396 | exactly the marked objects survive, and marks are cleared |
| `Heap.Heap.FreeUnmarkedSmall` | src/gc/heap.cpp:366-371 | both lists of every bucket are swept |
| `Heap.Heap.FreeUnmarkedLarge` | src/gc/heap.cpp:372-394 | the large list stays well linked although each dead object is unlinked twice |
| `Heap.Heap.FreeChain` | src/gc/heap.cpp:332-364 | each block of a list is swept; chains keep their shape |
| `Heap.Heap.SweepBlock` | src/gc/heap.cpp:335-361 | exactly the unmarked objects of the block are freed and its marks cleared |
| `Heap.Heap.GetAllocationFromInteriorPointer` | src/gc/heap.cpp:299-330 | the allocation whose memory holds the address, or NULL when there is none |
| `Heap.Heap.Alloc` | src/gc/heap.h:92-111 | a slot of the first size that fits; every object still allocated stays, the new one is none of them, and its bytes are all in its own memory |
| `Heap.Heap.AllocSmall` | src/gc/heap.cpp:148-226 | terminates, loses no block, allocates exactly one slot |
| `Heap.Heap.RetireHead` | src/gc/heap.cpp:183-199 | a block without a free slot goes to the full list; nothing live changes |
| `Heap.Heap.Refill` | src/gc/heap.cpp:160-172 | an empty list gets a new block, then all the full ones |
| `Heap.Heap.Take` | src/gc/heap.cpp:202-211 | the slot taken is the only object that becomes live |
| `Heap.Heap.AllocLarge` | src/gc/heap.cpp:98-113 | whole pages at the arena's end, recorded with their size, which lie within them |
| `Heap.Heap.AllocBlock` | src/gc/heap.cpp:115-146 | a new block with every object slot free and no header slot |
| `Heap.Heap.FirstFree` | src/gc/heap.cpp:174-207 | the lowest set bit of the four words |
| `Heap.Heap.CollectIfNeeded` | src/gc/heap.cpp:36-42 | collects exactly when the counter has reached the limit; the counter wraps at 32 bits |
| `Heap.Heap.Free` | src/gc/heap.cpp:256-266 | takes away exactly that object |
| `Heap.Heap.FreeFrom` | src/gc/heap.cpp:228-245 | the slot's bit is set and nothing else is freed |
| `Heap.Heap.FreeLarge` | src/gc/heap.cpp:247-254 | the object leaves the list |
| `Heap.Heap.Realloc` | src/gc/heap.cpp:268-297 | stays in place exactly when the new size fits and uses more than half; otherwise it moves; the new size is within the memory taken, and interior pointers to all of it find it exactly unless a large object has outgrown its recorded size |
| `Heap.RoomIsOffered` | src/gc/heap.cpp:268-297 | the capacity compared with is just the bytes of its own memory from the pointer on |
| `Heap.GrownPartIsLost` | src/gc/heap.cpp:299-330 | a pointer into the part a large object has grown by in place finds no allocation |
| `Heap.GrowsInPlace` | src/gc/heap.cpp:268-276 | such a case: 3000 bytes that grow to 4000 |
| `Heap.Heap.VisitPotential` | src/gc/collector.cpp:63-68 | a conservative word keeps the allocation it points into |
| `Heap.Heap.VisitPotentialRange` | src/gc/collector.cpp:70-75 | the same for every word of a range |
| `Heap.Heap.Visit` | src/gc/collector.cpp:47-54 | an exact pointer is pushed as it is |
| `Heap.TraceStack.Pop` | src/gc/collector.h:58-65 | the last pushed, or NULL when empty |
| `HeapLayout.LookupIsSearch` | src/gc/heap.cpp:299-330 | for every size and bitmap the arithmetic agrees with searching all allocated slots |
| `HeapLayout.SlotsDisjoint` | src/gc/heap.h:50-60 | slots of a block do not overlap |
| `HeapLayout.SlotsAreAll` | src/gc/heap.h:50-56 | the slots are all those that fit between the header and the block's end |
| `HeapLayout.SizeHasRoom` | src/gc/heap.h:50-76 | every size class has an object slot behind the header |
| `HeapView.SmallLiveWithin` | src/gc/heap.h:50-76 | an allocated small object lies behind the header, inside its block, 16-byte aligned |
| `HeapView.SmallDisjoint` | src/gc/heap.h:50-76 | two small objects never overlap |
| `HeapView.InsideOne` | src/gc/heap.cpp:299-330 | at most one allocation is around an address |
| `HeapView.InMemoryOne` | src/gc/heap.cpp:98-113 | the memory taken for two allocations never overlaps |
| `LargeObjects.UnlinkRemoves` | src/gc/heap.cpp:247-254 | unlinking takes exactly that object out |
| `LargeObjects.UnlinkTwice` | src/gc/heap.cpp:372-394 | doing it a second time changes nothing |
| `BlockLists.RetireBucket` | src/gc/heap.cpp:183-199 | a full head moves to the full list; both lists stay acyclic and disjoint |
| `BlockLists.RefillBucket` | src/gc/heap.cpp:160-172 | a new block heads the list, followed by all full ones |
| `BlockLists.BlockListed` | src/gc/heap.cpp:148-226 | no block is ever lost from its bucket's lists |
| `InlineCache.ICInvalidator.InvalidateAll` | src/asm_writing/icinfo.cpp:43-52 | every dependent slot is emptied, no other changes, and all caches stay safe |
| `InlineCache.ICInvalidator.ClearDependents` | src/asm_writing/icinfo.cpp:46-51 | the loop over the dependents |
| `InlineCache.ICSlotRewrite.Commit` | src/asm_writing/icinfo.cpp:71-106 | stale dependencies or no slot: nothing changes; otherwise the picked slot holds this code, and every live slot of every cache still has its dependencies current and is listed with them |
| `InlineCache.ICSlotRewrite.StillValid` | src/asm_writing/icinfo.cpp:72-84 | every dependency is at the version recorded, as an int compares them |
| `InlineCache.ICSlotRewrite.Install` | src/asm_writing/icinfo.cpp:86-106 | the part after the check |
| `InlineCache.ICSlotRewrite.Fill` | src/asm_writing/icinfo.cpp:95-105 | the slot's bytes mean what was emitted; no other slot changes |
| `InlineCache.ICSlotRewrite.FinishAssembly` | src/asm_writing/rewriter2.cpp:546-550 | the last jump leads to the continue address and the rest is nops |
| `InlineCache.ICSlotRewrite.AddDependenceOn` | src/asm_writing/icinfo.cpp:108-110 | records the version as of now and keeps all caches safe |
| `InlineCache.ICSlotRewrite.constructor` | src/asm_writing/icinfo.cpp:58-64 | the buffer starts with a nop, one byte long |
| `InlineCache.ICSlotRewrite.EmitInstruction` | src/asm_writing/rewriter2.cpp:119-135 | the bytes follow what was emitted before, and earlier jumps mean what they did |
| `InlineCache.ICSlotRewrite.EmitMiss` | src/asm_writing/rewriter2.cpp:134-134 | a guard's jump leads to the next slot, and how far writing has advanced |
| `InlineCache.WriteSlot` | src/asm_writing/icinfo.cpp:58-106 | a whole rewrite, from its start to its commit: the picked slot holds one guard jump and the final jump where they were emitted |
| `InlineCache.ICInfo.PickEntryForRewrite` | src/asm_writing/icinfo.cpp:142-172 | the slot picked is marked with the decision path, nothing else changes |
| `InlineCache.PickedIsFirst` | src/asm_writing/icinfo.cpp:142-172 | it is the first slot never used, else the first of the same path |
| `InlineCache.ICInfo.Clear` | src/asm_writing/icinfo.cpp:247-256 | the slot becomes a jump to the next one and stays patched |
| `InlineCache.ICInfo.constructor` | src/asm_writing/icinfo.cpp:225-235 | every slot starts out leading to the slow path |
| `InlineCache.DispatchInOrder` | src/asm_writing/icinfo.cpp:95-103 | entering slot 0 tries exactly the live slots in order, passes cleared ones and ends at the continue address or the slow path |
| `InlineCache.OutcomesLead` | src/asm_writing/icinfo.cpp:95-103 | every outcome a slot's content allows is one its bytes produce |
| `InlineCache.LeadsWhere` | src/asm_writing/icinfo.cpp:95-103 | and the bytes produce no other |
| `InlineCache.VersionCheck` | src/asm_writing/icinfo.cpp:72-80 | the comparison through an int accepts exactly unchanged versions below 2^31 |
| `Assembler.Assembler.Jmp` | src/asm_writing/assembler.cpp:629-641 | short and near encodings decode to the wanted target |
| `Assembler.Assembler.JmpCond` | src/asm_writing/assembler.cpp:604-627 | the same for conditional jumps |
| `Assembler.Assembler.FillWithNops` | src/asm_writing/assembler.cpp:729-733 | the rest of the slot is nops and what came before stays |
| `Assembler.JumpsMoveAlong` | src/asm_writing/assembler.cpp:629-641 | a jump means the same after the copy from the buffer |
| `WireRoundTrip.FileBack` | src/codegen/parse_ast.py:102-154 | any object of the reader's table shapes parses back in canonical form, and all of it is consumed |
| `TreeRoundTrip.ModuleBack` | src/codegen/parse_ast.py:102-154 | for every module of the supported grammar, in whatever order the objects hold their attributes and with whatever private ones: the bytes are written, and what the reader parses from them shows the same module |
| `TreeRoundTrip.ModuleFits` | src/codegen/parser.cpp:146-562 | every tree of the grammar, kind by kind, has just the attributes the reader reads |
| `TreeRoundTrip.WriteAndParse` | src/codegen/parser.cpp:686-709 | the writer object and the buffered reader one after the other |
| `WireRoundTrip.NodeBack` | src/codegen/parser.cpp:564-684 | the same for any node followed by any bytes: exactly the written bytes are consumed |
| `WireRoundTrip.OrderIsTable` | src/codegen/parse_ast.py:121-124 | the sorted attribute names are the reader's fields, for every supported kind |
| `WireRoundTrip.CanonKeeps` | src/codegen/parse_ast.py:121-131 | nothing but private attributes is dropped, and nothing is added |
| `AstKinds.TablesAgree` | src/codegen/parse_ast.py:12-96 | every kind is written as the number the reader switches on |
| `WireOrder.SortedAscends` | src/codegen/parse_ast.py:122-122 | the writer sorts the attributes by name |
| `WireOrder.FieldsAscend` | src/codegen/parser.cpp:146-562 | every read_* function reads in that order |
| `AttributeNames.RanksAscend` | src/codegen/parse_ast.py:122-122 | the order used is Python's order on the spellings |
| `WireBytes.QuadBack` | src/codegen/parser.cpp:60-88 | numbers read back as written, as line numbers and as ints when they fit |
| `WireBytes.NumbersSpell` | src/codegen/parse_ast.py:6-9 | numbers are their bytes, most significant first, negative ones in two's complement |
| `WireBytes.TextBack` | src/codegen/parser.cpp:94-101 | strings read back and leave the rest |
| `WireStreams.Writer.Convert` | src/codegen/parse_ast.py:102-154 | the recursive writer appends exactly the bytes of the format function, or fails where it does |
| `WireStreams.Writer.PrintStr` | src/codegen/parse_ast.py:6-9 | a length under 2^16 and the bytes, or the assert |
| `WireStreams.Writer.ConvertAttributes` | src/codegen/parse_ast.py:122-154 | the visible attributes in sorted order |
| `WireStreams.BufferedReader.Fill` | src/codegen/parser.cpp:34-58 | refilling keeps the stream of bytes, for any short reads |
| `WireStreams.BufferedReader.ReadByte` | src/codegen/parser.cpp:64-70 | the first byte of the stream, or the assert at its end |
| `WireStreams.BufferedReader.ReadULL` | src/codegen/parser.cpp:71-79 | eight bytes, most significant first |
| `WireStreams.BufferedReader.ReadString` | src/codegen/parser.cpp:94-101 | a length and as many bytes |
| `WireStreams.BufferedReader.ReadVector` | src/codegen/parser.cpp:103-137 | a count and as many elements |
| `WireStreams.BufferedReader.ReadFields` | src/codegen/parser.cpp:146-562 | the reads of one read_* function in order |
| `WireStreams.BufferedReader.ReadNode` | src/codegen/parser.cpp:564-684 | reading through the sliding buffer is reading the plain byte stream |
| `WireStreams.BufferedReader.Parse` | src/codegen/parser.cpp:686-709 | one module and nothing after it |

## Left out

- LLVM IR emission, optimisation, the interpreter, disassembly, stack maps and the standard library loader: they wrap libraries that are not part of this model.
- The older `rewriter.cpp`, the disabled machine-code writer and all instruction encodings other than jumps and nops: the modelled code uses only those.
- Values of Python expressions: tests, expressions and simple statements are opaque, and what they evaluate to comes from a script.
- Lowering.ComputeCFG: the node of an `if` or `while` test is recorded when both its targets exist, because a node here is a value; the code pushes it first and fills in the targets later.
- Definedness.ProcessBB: `import x as y` is a plain store of one name; its effect on the syntax tree is not modelled.
- TypeWorklist.DoAnalysis: the transfer function is a parameter; what is said of the records assumes that every pass over a block visits the same nodes. The rules for single expressions are not modelled.
- BlockSets.ComputeBlockTraversalOrder: the iteration order of hash sets is fixed to one order, and candidates are compared by index as in the code.
- Rewriter.Rewriter2.constructor: at most six arguments, because the table of argument registers has six, and live-outs are distinct and not the return register.
- Rewriter.Rewriter2.Call: the called code is any function of the machine state that keeps callee-save registers and the caller's scratch slots; that it may call into Python is not modelled.
- Rewriter.Rewriter2.Commit: clients hold no more uses and every live-out can be restored when its turn comes, as the code asserts; the list of live-outs is consumed.
- Heap.Heap.RunCollection: mark bits are a set beside the objects, the roots and the content of objects are a parameter, and exact pointers name the start of an allocation; native stack scanning is not part of this model.
- Heap.Heap.Alloc: there is room for one more block in the small arena; running out of address space is not modelled.
- Heap.Heap.Realloc: the bytes copied are not modelled, and capacities of 2^31 bytes and more are not truncated to an int.
- HeapLayout.LookupIsSearch: the four bitmap words are lists of bits.
- InlineCache.ICSlotRewrite.Commit: versions are unbounded numbers whose comparison is truncated as in the code, so a slot whose version has reached 2^31 is never committed; instruction cache flushing is not modelled.
- InlineCache.DispatchInOrder: what a guard decides is left open; a live slot may hit or miss.
- TreeRoundTrip.ModuleBack: the node kinds the reader supports, strings and lists under 2^16, column offsets and numbers in range, no `**kwarg` name; an absent `*args` name or alias is read back as the empty string. Floats are their 64 bits and strings are bytes.
- WireStreams.BufferedReader.Parse: the cache file, its magic number and the subprocess that runs the writer are not part of this model.
- Scoping, options, statistics, timers, the REPL, tools and `src/runtime/`: they would add easy members only.
