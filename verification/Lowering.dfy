/** Lowering statements to basic blocks (src/core/cfg.cpp): the visitor's state and what each
    visit method does to it, as functions. */
module Lowering {
  import opened Commons
  import opened Source

  /** A value a node evaluates: an expression, the name None, the hidden name that saves a
      return value, or no expression at all. */
  datatype Operand = Expr(e: nat) | NoneName | SavedName | NoOperand

  datatype Node =
    | Do(action: Action)
    | Save(value: Operand)
    | Branch(cond: Cond, iftrue: nat, iffalse: nat)
    | Jump(target: nat)
    | Ret(value: Operand)

  /** A CFGBlock; blocks are named by allocation order, and `idx` is -1 until it is placed. */
  datatype Block = Block(body: seq<Node>, predecessors: seq<nat>, successors: seq<nat>, idx: int)

  datatype LoopInfo = LoopInfo(continueDest: nat, breakDest: nat)

  /** `failed` records that the code has exited with an error, dereferenced NULL or failed an
      assert; `blocks` lists the placed blocks in index order. */
  datatype Visitor = Visitor(
    inFunction: bool,
    heap: seq<Block>,
    blocks: seq<nat>,
    curblock: Option<nat>,
    loops: seq<LoopInfo>,
    returnDests: seq<nat>,
    failed: bool)

  function Fail(v: Visitor): Visitor { v.(failed := true) }

  function At(v: Visitor, b: nat): Visitor { v.(curblock := Some(b)) }

  function Nowhere(v: Visitor): Visitor { v.(curblock := None) }

  function AddBlock(v: Visitor): Visitor {
    v.(heap := v.heap + [Block([], [], [], |v.blocks|)], blocks := v.blocks + [|v.heap|])
  }

  function AddDeferredBlock(v: Visitor): Visitor {
    v.(heap := v.heap + [Block([], [], [], -1)])
  }

  /** placeBlock, with its assert. */
  function PlaceBlock(v: Visitor, b: nat): Visitor {
    if b < |v.heap| && v.heap[b].idx == -1 then
      v.(heap := v.heap[b := v.heap[b].(idx := |v.blocks|)], blocks := v.blocks + [b])
    else Fail(v)
  }

  function PushTo(v: Visitor, b: nat, n: Node): Visitor {
    if b < |v.heap| then v.(heap := v.heap[b := v.heap[b].(body := v.heap[b].body + [n])]) else Fail(v)
  }

  /** push_back: dropped when there is no current block. */
  function PushBack(v: Visitor, n: Node): Visitor {
    if v.curblock.Some? then PushTo(v, v.curblock.value, n) else v
  }

  /** connectTo, with its assert that only a declared back edge goes to a lower index. */
  function Connect(v: Visitor, u: nat, t: nat, allowBackedge: bool): Visitor {
    if u < |v.heap| && t < |v.heap| &&
       (allowBackedge || (v.heap[u].idx >= 0 && (v.heap[t].idx == -1 || v.heap[t].idx > v.heap[u].idx)))
    then
      var h := v.heap[u := v.heap[u].(successors := v.heap[u].successors + [t])];
      v.(heap := h[t := h[t].(predecessors := h[t].predecessors + [u])])
    else Fail(v)
  }

  /** Ends the current block, if there is one, with a jump. */
  function JumpTo(v: Visitor, t: nat, allowBackedge: bool): Visitor {
    if v.curblock.Some? then Connect(PushBack(v, Jump(t)), v.curblock.value, t, allowBackedge) else v
  }

  /** Adds a block, connects it after u and continues there. */
  function EnterNew(v: Visitor, u: nat): Visitor {
    At(Connect(AddBlock(v), u, |v.heap|, false), |v.heap|)
  }

  function PushLoop(v: Visitor, continueDest: nat, breakDest: nat): Visitor {
    v.(loops := v.loops + [LoopInfo(continueDest, breakDest)])
  }

  function PopLoop(v: Visitor): Visitor {
    if v.loops == [] then Fail(v) else v.(loops := v.loops[..|v.loops| - 1])
  }

  function PushReturn(v: Visitor, dest: nat): Visitor { v.(returnDests := v.returnDests + [dest]) }

  function PopReturn(v: Visitor): Visitor {
    if v.returnDests == [] then Fail(v) else v.(returnDests := v.returnDests[..|v.returnDests| - 1])
  }

  function HasPredecessors(v: Visitor, b: nat): bool {
    b < |v.heap| && v.heap[b].predecessors != []
  }

  /** doReturn: inside a `with`, save the value and jump to its return block. */
  function DoReturn(v: Visitor, value: Operand): Visitor {
    if v.returnDests == [] then Nowhere(PushBack(v, Ret(value)))
    else if v.curblock.None? then Fail(v)
    else Nowhere(JumpTo(PushBack(v, Save(value)), v.returnDests[|v.returnDests| - 1], false))
  }

  function VisitAll(ss: seq<Stmt>, v: Visitor): Visitor
    decreases ss, 1
  {
    if ss == [] then v else VisitAll(ss[1..], Visit(ss[0], v))
  }

  function Visit(s: Stmt, v: Visitor): Visitor
    decreases s, 0
  {
    match s
    case Simple(what) => PushBack(v, Do(Plain(what)))
    case Return(value) =>
      if !v.inFunction then Fail(v)
      else DoReturn(v, if value.None? then NoneName else Expr(value.value))
    case Break =>
      if v.curblock.None? then v
      else if v.loops == [] then Fail(v)
      else Nowhere(JumpTo(v, v.loops[|v.loops| - 1].breakDest, true))
    case Continue =>
      if v.curblock.None? then v
      else if v.loops == [] then Fail(v)
      else Nowhere(JumpTo(v, v.loops[|v.loops| - 1].continueDest, true))
    case If(test, body, orelse) =>
      if v.curblock.None? then v
      else
        var exit := |v.heap|;
        var afterBody := JumpTo(VisitAll(body, IfBody(v)), exit, false);
        CloseIf(JumpTo(VisitAll(orelse, IfOrelse(test, v, afterBody)), exit, false), exit)
    case While(test, body, orelse) =>
      if v.curblock.None? then v
      else
        var afterBody := WhileEndBody(v, VisitAll(body, WhileBody(v)));
        WhileEnd(v, VisitAll(orelse, WhileOrelse(test, v, afterBody)))
    case For(id, iter, target, body, orelse) =>
      if v.curblock.None? then v
      else
        var afterBody := ForEndBody(id, v, VisitAll(body, ForBody(id, iter, target, v)));
        ForEnd(v, VisitAll(orelse, ForOrelse(v, afterBody)))
    case With(id, context, vars, body) =>
      WithEnd(id, v, VisitAll(body, WithBody(id, context, vars, v)))
  }

  // ---- if: exit block, then iftrue, (body), iffalse ---------------------------------------

  function IfBody(v: Visitor): Visitor
    requires v.curblock.Some?
  {
    EnterNew(AddDeferredBlock(v), v.curblock.value)
  }

  /** The branch is recorded here, where both of its targets exist. */
  function IfOrelse(test: nat, v: Visitor, w: Visitor): Visitor
    requires v.curblock.Some?
  {
    EnterNew(PushTo(w, v.curblock.value, Branch(Test(test), |v.heap| + 1, |w.heap|)), v.curblock.value)
  }

  function CloseIf(v: Visitor, exit: nat): Visitor {
    if !HasPredecessors(v, exit) then Nowhere(v) else At(PlaceBlock(v, exit), exit)
  }

  // ---- while: test block, exit block, body, (body), orelse --------------------------------

  function WhileBody(v: Visitor): Visitor
    requires v.curblock.Some?
  {
    var test := |v.heap|;
    var atTest := At(JumpTo(AddBlock(v), test, false), test);
    EnterNew(PushLoop(AddDeferredBlock(atTest), test, test + 1), test)
  }

  function WhileEndBody(v: Visitor, w: Visitor): Visitor {
    PopLoop(JumpTo(w, |v.heap|, true))
  }

  function WhileOrelse(test: nat, v: Visitor, w: Visitor): Visitor {
    EnterNew(PushTo(w, |v.heap|, Branch(Test(test), |v.heap| + 2, |w.heap|)), |v.heap|)
  }

  function WhileEnd(v: Visitor, w: Visitor): Visitor {
    PlaceBlock(At(JumpTo(w, |v.heap| + 1, false), |v.heap| + 1), |v.heap| + 1)
  }

  // ---- for: test, test_true, test_false, loop, end and else blocks, (body), end_true, end_false

  /** The first test of the loop, with a block for each outcome. */
  function ForTest(id: nat, iter: nat, v: Visitor): Visitor
    requires v.curblock.Some?
  {
    var started := PushBack(v, Do(MakeIter(id, iter)));
    Fork(At(JumpTo(AddBlock(started), |v.heap|, false), |v.heap|), HasNext(id))
  }

  /** Ends the current block with a branch to two new blocks. */
  function Fork(v: Visitor, cond: Cond): Visitor
    requires v.curblock.Some?
  {
    var b, iftrue := v.curblock.value, |v.heap|;
    var branched := AddBlock(AddBlock(PushBack(v, Branch(cond, iftrue, iftrue + 1))));
    Connect(Connect(branched, b, iftrue, false), b, iftrue + 1, false)
  }

  function ForBody(id: nat, iter: nat, target: nat, v: Visitor): Visitor
    requires v.curblock.Some?
  {
    var test := |v.heap|;
    var made := AddDeferredBlock(AddDeferredBlock(AddBlock(ForTest(id, iter, v))));
    var entered := JumpTo(At(made, test + 1), test + 3, false);
    var skipped := JumpTo(At(entered, test + 2), test + 5, false);
    PushBack(At(PushLoop(skipped, test, test + 4), test + 3), Do(NextItem(id, target)))
  }

  /** After the body, the test is repeated instead of jumping back to the first one. */
  function ForEndBody(id: nat, v: Visitor, w: Visitor): Visitor {
    var popped := PopLoop(w);
    if popped.curblock.None? then popped
    else
      var forked := Fork(popped, HasNext(id));
      var again := JumpTo(At(forked, |popped.heap|), |v.heap| + 3, true);
      JumpTo(At(again, |popped.heap| + 1), |v.heap| + 5, false)
  }

  function ForOrelse(v: Visitor, w: Visitor): Visitor {
    At(PlaceBlock(w, |v.heap| + 5), |v.heap| + 5)
  }

  function ForEnd(v: Visitor, w: Visitor): Visitor {
    At(PlaceBlock(JumpTo(w, |v.heap| + 4, false), |v.heap| + 4), |v.heap| + 4)
  }

  // ---- with: (continue and break blocks inside a loop,) return block, (body) --------------

  /** The block a `with` hands to returns in its body. */
  function WithReturn(v: Visitor): nat {
    |v.heap| + if v.loops == [] then 0 else 2
  }

  function WithBody(id: nat, context: nat, vars: Option<nat>, v: Visitor): Visitor {
    var entered := PushBack(PushBack(PushBack(v, Do(MakeContext(id, context))), Do(LoadExit(id))), Do(Enter(id, vars)));
    var inLoop :=
      if v.loops == [] then entered
      else PushLoop(AddDeferredBlock(AddDeferredBlock(entered)), |v.heap|, |v.heap| + 1);
    PushReturn(AddDeferredBlock(inLoop), WithReturn(v))
  }

  /** Fills a continue or break block that is needed: exit call, then on to where it belongs. */
  function WithExit(id: nat, w: Visitor, dest: nat, orig: nat): Visitor {
    if !HasPredecessors(w, dest) then w
    else Connect(PushBack(PlaceBlock(PushBack(At(w, dest), Do(CallExit(id))), dest), Jump(orig)), dest, orig, true)
  }

  function WithLoopExits(id: nat, v: Visitor, w: Visitor): Visitor {
    if v.loops == [] then w
    else
      var outer := v.loops[|v.loops| - 1];
      PopLoop(WithExit(id, WithExit(id, w, |v.heap|, outer.continueDest), |v.heap| + 1, outer.breakDest))
        .(curblock := w.curblock)
  }

  function WithReturnExit(id: nat, v: Visitor, w: Visitor): Visitor {
    var dest := WithReturn(v);
    if !HasPredecessors(w, dest) then w
    else DoReturn(PushBack(At(PlaceBlock(w, dest), dest), Do(CallExit(id))), SavedName).(curblock := w.curblock)
  }

  function WithEnd(id: nat, v: Visitor, w: Visitor): Visitor {
    var exited := PushBack(w, Do(CallExit(id)));
    WithReturnExit(id, v, PopReturn(WithLoopExits(id, v, exited)))
  }

  // ---- computeCFG -------------------------------------------------------------------------

  function Start(inFunction: bool): Visitor {
    At(AddBlock(Visitor(inFunction, [], [], None, [], [], false)), 0)
  }

  /** The visits, and the return the function gets at its end. */
  function ComputeCFG(inFunction: bool, body: seq<Stmt>): Visitor {
    PushBack(VisitAll(body, Start(inFunction)), Ret(NoOperand))
  }
}
