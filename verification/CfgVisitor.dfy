/** CFGVisitor of src/core/cfg.cpp as an object that updates its fields, each method proved to
    take the visitor's state where the lowering functions say. */
module CfgVisitor {
  import opened Commons
  import opened Source
  import L = Lowering
  import opened Lowering
  import opened CfgChecks
  import opened CfgShape
  import opened ShapeRules

  class CFGVisitor {
    const inFunction: bool
    var heap: seq<Block>
    var blocks: seq<nat>
    var curblock: Option<nat>
    var loops: seq<LoopInfo>
    var returnDests: seq<nat>
    var failed: bool

    /** The fields as one value. */
    function State(): Visitor
      reads this
    {
      Visitor(inFunction, heap, blocks, curblock, loops, returnDests, failed)
    }

    constructor (inFunction: bool)
      ensures State() == Start(inFunction)
    {
      this.inFunction := inFunction;
      heap := [Block([], [], [], 0)];
      blocks := [0];
      curblock := Some(0);
      loops, returnDests, failed := [], [], false;
      new;
      assert [] + [Block([], [], [], 0)] == [Block([], [], [], 0)];
    }

    method AddBlock() returns (b: nat)
      modifies this
      ensures State() == L.AddBlock(old(State())) && b == |old(heap)| && |heap| == b + 1 && curblock == old(curblock)
      ensures loops == old(loops) && returnDests == old(returnDests)
    {
      b := |heap|;
      heap := heap + [Block([], [], [], |blocks|)];
      blocks := blocks + [b];
    }

    method AddDeferredBlock() returns (b: nat)
      modifies this
      ensures State() == L.AddDeferredBlock(old(State())) && b == |old(heap)| && |heap| == b + 1 && curblock == old(curblock)
      ensures loops == old(loops) && returnDests == old(returnDests)
    {
      b := |heap|;
      heap := heap + [Block([], [], [], -1)];
    }

    method PlaceBlock(b: nat)
      modifies this
      ensures State() == L.PlaceBlock(old(State()), b)
    {
      if b >= |heap| || heap[b].idx != -1 {
        failed := true;
      } else {
        heap := heap[b := heap[b].(idx := |blocks|)];
        blocks := blocks + [b];
      }
    }

    method PushTo(b: nat, n: Node)
      modifies this
      ensures State() == L.PushTo(old(State()), b, n) && |heap| == |old(heap)| && curblock == old(curblock)
      ensures loops == old(loops) && returnDests == old(returnDests)
    {
      if b < |heap| {
        heap := heap[b := heap[b].(body := heap[b].body + [n])];
      } else {
        failed := true;
      }
    }

    method PushBack(n: Node)
      modifies this
      ensures State() == L.PushBack(old(State()), n) && |heap| == |old(heap)| && curblock == old(curblock)
      ensures loops == old(loops) && returnDests == old(returnDests)
    {
      if curblock.Some? { PushTo(curblock.value, n); }
    }

    method ConnectTo(u: nat, t: nat, allowBackedge: bool)
      modifies this
      ensures State() == L.Connect(old(State()), u, t, allowBackedge) && |heap| == |old(heap)| && curblock == old(curblock)
      ensures loops == old(loops) && returnDests == old(returnDests)
    {
      if u >= |heap| || t >= |heap| {
        failed := true;
        return;
      }
      if !allowBackedge && !(heap[u].idx >= 0 && (heap[t].idx == -1 || heap[t].idx > heap[u].idx)) {
        failed := true;
        return;
      }
      heap := heap[u := heap[u].(successors := heap[u].successors + [t])];
      heap := heap[t := heap[t].(predecessors := heap[t].predecessors + [u])];
    }

    method JumpTo(t: nat, allowBackedge: bool)
      modifies this
      ensures State() == L.JumpTo(old(State()), t, allowBackedge) && |heap| == |old(heap)| && curblock == old(curblock)
      ensures loops == old(loops) && returnDests == old(returnDests)
    {
      if curblock.Some? {
        PushBack(Jump(t));
        ConnectTo(curblock.value, t, allowBackedge);
      }
    }

    method EnterNew(u: nat) returns (b: nat)
      modifies this
      ensures State() == L.EnterNew(old(State()), u) && b == |old(heap)| && |heap| == b + 1
      ensures loops == old(loops) && returnDests == old(returnDests)
    {
      b := AddBlock();
      ConnectTo(u, b, false);
      curblock := Some(b);
    }

    method PushLoop(continueDest: nat, breakDest: nat)
      modifies this
      ensures State() == L.PushLoop(old(State()), continueDest, breakDest)
    {
      loops := loops + [LoopInfo(continueDest, breakDest)];
    }

    method PopLoop()
      modifies this
      ensures State() == L.PopLoop(old(State()))
    {
      if loops == [] { failed := true; } else { loops := loops[..|loops| - 1]; }
    }

    method PopReturn()
      modifies this
      ensures State() == L.PopReturn(old(State()))
    {
      if returnDests == [] { failed := true; } else { returnDests := returnDests[..|returnDests| - 1]; }
    }

    method DoReturn(value: Operand)
      modifies this
      ensures State() == L.DoReturn(old(State()), value)
    {
      hide L.PushBack, L.JumpTo;
      if returnDests != [] {
        if curblock.None? {
          failed := true;
          return;
        }
        PushBack(Save(value));
        JumpTo(returnDests[|returnDests| - 1], false);
      } else {
        PushBack(Ret(value));
      }
      curblock := None;
    }

    // ---- the visits -----------------------------------------------------------------------

    method VisitAll(ss: seq<Stmt>)
      modifies this
      ensures State() == L.VisitAll(ss, old(State()))
      decreases ss, 2
    {
      hide L.Visit;
      for i := 0 to |ss|
        invariant L.VisitAll(ss, old(State())) == L.VisitAll(ss[i..], State())
      {
        Visit(ss[i]);
        assert ss[i..][1..] == ss[i + 1..];
      }
    }

    method Visit(s: Stmt)
      modifies this
      ensures State() == L.Visit(s, old(State()))
      decreases s, 1
    {
      hide L.PushBack, L.DoReturn, L.JumpTo, L.VisitAll;
      match s {
        case Simple(what) => PushBack(Do(Plain(what)));
        case Return(value) =>
          if !inFunction {
            failed := true;
          } else {
            DoReturn(if value.None? then NoneName else Expr(value.value));
          }
        case Break => VisitExit(s);
        case Continue => VisitExit(s);
        case If(_, _, _) => VisitIf(s);
        case While(_, _, _) => VisitWhile(s);
        case For(_, _, _, _, _) => VisitFor(s);
        case With(_, _, _, _) => VisitWith(s);
      }
    }

    method VisitExit(s: Stmt)
      requires s.Break? || s.Continue?
      modifies this
      ensures State() == L.Visit(s, old(State()))
    {
      hide L.JumpTo;
      if curblock.None? { return; }
      if loops == [] {
        failed := true;
        return;
      }
      JumpTo(if s.Break? then loops[|loops| - 1].breakDest else loops[|loops| - 1].continueDest, true);
      curblock := None;
    }

    method VisitIf(s: Stmt)
      requires s.If?
      modifies this
      ensures State() == L.Visit(s, old(State()))
      decreases s, 0
    {
      hide L.PushTo, L.EnterNew, L.AddDeferredBlock, L.JumpTo, L.VisitAll, L.PlaceBlock;
      if curblock.None? { return; }
      var startingBlock := curblock.value;
      var exit := AddDeferredBlock();
      var iftrue := EnterNew(startingBlock);
      VisitAll(s.body);
      JumpTo(exit, false);
      PushTo(startingBlock, Branch(Test(s.test), iftrue, |heap|));
      var iffalse := EnterNew(startingBlock);
      VisitAll(s.orelse);
      JumpTo(exit, false);
      if !HasPredecessors(State(), exit) {
        curblock := None;
      } else {
        PlaceBlock(exit);
        curblock := Some(exit);
      }
    }

    /** The test block, the exit block and the first block of the body. */
    method EnterWhile() returns (testBlock: nat, end: nat, body: nat)
      requires curblock.Some?
      modifies this
      ensures State() == L.WhileBody(old(State()))
      ensures testBlock == |old(heap)| && end == testBlock + 1 && body == testBlock + 2
    {
      hide L.EnterNew, L.AddDeferredBlock, L.AddBlock, L.JumpTo;
      testBlock := AddBlock();
      JumpTo(testBlock, false);
      curblock := Some(testBlock);
      end := AddDeferredBlock();
      PushLoop(testBlock, end);
      body := EnterNew(testBlock);
    }

    method VisitWhile(s: Stmt)
      requires s.While?
      modifies this
      ensures State() == L.Visit(s, old(State()))
      decreases s, 0
    {
      hide L.PushTo, L.EnterNew, L.JumpTo, L.VisitAll, L.PlaceBlock, L.PopLoop, L.WhileBody;
      if curblock.None? { return; }
      var testBlock, end, body := EnterWhile();
      VisitAll(s.body);
      JumpTo(testBlock, true);
      PopLoop();
      PushTo(testBlock, Branch(Test(s.test), body, |heap|));
      var orelse := EnterNew(testBlock);
      VisitAll(s.orelse);
      JumpTo(end, false);
      curblock := Some(end);
      PlaceBlock(end);
    }

    /** Ends the current block with a branch to two new blocks. */
    method ForkTo(cond: Cond) returns (iftrue: nat, iffalse: nat)
      requires curblock.Some?
      modifies this
      ensures State() == L.Fork(old(State()), cond) && iftrue == |old(heap)| && iffalse == iftrue + 1
      ensures |heap| == |old(heap)| + 2 && curblock == old(curblock)
    {
      hide L.PushBack, L.AddBlock, L.Connect;
      PushBack(Branch(cond, |heap|, |heap| + 1));
      iftrue := AddBlock();
      iffalse := AddBlock();
      ConnectTo(curblock.value, iftrue, false);
      ConnectTo(curblock.value, iffalse, false);
    }

    /** The first test of a `for`, with a block for each outcome. */
    method BeginFor(id: nat, iter: nat)
      requires curblock.Some?
      modifies this
      ensures State() == L.ForTest(id, iter, old(State())) && |heap| == |old(heap)| + 3
    {
      hide L.PushBack, L.AddBlock, L.JumpTo, L.Fork;
      PushBack(Do(MakeIter(id, iter)));
      var testBlock := AddBlock();
      JumpTo(testBlock, false);
      curblock := Some(testBlock);
      var _, _ := ForkTo(HasNext(id));
    }

    /** The loop, end and else blocks, and the way into the loop block. */
    method EnterLoop(id: nat, iter: nat, target: nat)
      requires curblock.Some?
      modifies this
      ensures State() == L.ForBody(id, iter, target, old(State()))
    {
      hide L.PushBack, L.AddBlock, L.AddDeferredBlock, L.JumpTo, L.ForTest;
      var test := |heap|;
      BeginFor(id, iter);
      var loopBlock := AddBlock();
      var endBlock := AddDeferredBlock();
      var elseBlock := AddDeferredBlock();
      curblock := Some(test + 1);
      JumpTo(loopBlock, false);
      curblock := Some(test + 2);
      JumpTo(elseBlock, false);
      PushLoop(test, endBlock);
      curblock := Some(loopBlock);
      PushBack(Do(NextItem(id, target)));
    }

    /** The inverted test at the end of a `for` body. */
    method TestAgain(id: nat, loopBlock: nat, elseBlock: nat, ghost v: Visitor)
      requires loopBlock == |v.heap| + 3 && elseBlock == |v.heap| + 5
      modifies this
      ensures State() == L.ForEndBody(id, v, old(State()))
    {
      hide L.Fork, L.JumpTo;
      PopLoop();
      if curblock.Some? {
        var endTrue, endFalse := ForkTo(HasNext(id));
        curblock := Some(endTrue);
        JumpTo(loopBlock, true);
        curblock := Some(endFalse);
        JumpTo(elseBlock, false);
      }
    }

    method VisitFor(s: Stmt)
      requires s.For?
      modifies this
      ensures State() == L.Visit(s, old(State()))
      decreases s, 0
    {
      hide L.ForBody, L.ForEndBody, L.JumpTo, L.VisitAll, L.PlaceBlock;
      if curblock.None? { return; }
      var test := |heap|;
      ghost var v := State();
      EnterLoop(s.id, s.iter, s.target);
      VisitAll(s.body);
      TestAgain(s.id, test + 3, test + 5, v);
      PlaceBlock(test + 5);
      curblock := Some(test + 5);
      VisitAll(s.orelse);
      JumpTo(test + 4, false);
      PlaceBlock(test + 4);
      curblock := Some(test + 4);
    }

    method EnterWith(id: nat, context: nat, vars: Option<nat>)
      modifies this
      ensures State() == L.WithBody(id, context, vars, old(State()))
    {
      hide L.PushBack, L.AddDeferredBlock;
      PushBack(Do(MakeContext(id, context)));
      PushBack(Do(LoadExit(id)));
      PushBack(Do(Enter(id, vars)));
      if loops != [] {
        var continueDest := AddDeferredBlock();
        var breakDest := AddDeferredBlock();
        PushLoop(continueDest, breakDest);
      }
      var returnDest := AddDeferredBlock();
      returnDests := returnDests + [returnDest];
    }

    /** Fills a with's continue or break block, if something jumps to it. */
    method FillExit(id: nat, dest: nat, orig: nat)
      modifies this
      ensures State() == L.WithExit(id, old(State()), dest, orig)
    {
      hide L.PushBack, L.PlaceBlock, L.Connect;
      if HasPredecessors(State(), dest) {
        curblock := Some(dest);
        PushBack(Do(CallExit(id)));
        PlaceBlock(dest);
        PushBack(Jump(orig));
        ConnectTo(dest, orig, true);
      }
    }

    method FillReturn(id: nat, dest: nat, ghost v: Visitor)
      requires dest == WithReturn(v)
      modifies this
      ensures State() == L.WithReturnExit(id, v, old(State()))
    {
      hide L.PushBack, L.PlaceBlock, L.DoReturn;
      var ending := curblock;
      if HasPredecessors(State(), dest) {
        PlaceBlock(dest);
        curblock := Some(dest);
        PushBack(Do(CallExit(id)));
        DoReturn(SavedName);
        curblock := ending;
      }
    }

    method LeaveWith(id: nat, ghost v: Visitor, first: nat, inLoop: bool, outer: LoopInfo)
      requires first == |v.heap| && inLoop == (v.loops != []) && (inLoop ==> outer == v.loops[|v.loops| - 1])
      modifies this
      ensures State() == L.WithLoopExits(id, v, old(State()))
    {
      hide L.WithExit;
      var ending := curblock;
      if inLoop {
        FillExit(id, first, outer.continueDest);
        FillExit(id, first + 1, outer.breakDest);
        PopLoop();
        curblock := ending;
      }
    }

    method VisitWith(s: Stmt)
      requires s.With?
      modifies this
      ensures State() == L.Visit(s, old(State()))
      decreases s, 0
    {
      hide L.WithBody, L.VisitAll, L.PushBack, L.WithLoopExits, L.WithReturnExit;
      ghost var v := State();
      var first, inLoop := |heap|, loops != [];
      var outer := if inLoop then loops[|loops| - 1] else LoopInfo(0, 0);
      EnterWith(s.id, s.context, s.vars);
      VisitAll(s.body);
      PushBack(Do(CallExit(s.id)));
      LeaveWith(s.id, v, first, inLoop, outer);
      PopReturn();
      FillReturn(s.id, first + if inLoop then 2 else 0, v);
    }
  }

  /** computeCFG: it runs into no assert exactly on the statements that `Accepts` describes, and
      then the graph has the whole shape. */
  method ComputeCFG(inFunction: bool, body: seq<Stmt>) returns (v: CFGVisitor, ok: bool)
    ensures fresh(v) && v.State() == L.ComputeCFG(inFunction, body)
    ensures ok <==> !v.failed && ChecksPass(v.State())
    ensures ok <==> Accepts(body, inFunction, false, false, true)
    ensures ok ==> WellBuilt(v.State())
  {
    hide L.VisitAll, L.PushBack, L.ComputeCFG, ChecksPass, WellBuilt, Accepts;
    v := new CFGVisitor(inFunction);
    v.VisitAll(body);
    v.PushBack(Ret(NoOperand));
    assert v.State() == L.ComputeCFG(inFunction, body) by { ComputeCFGIs(inFunction, body); }
    ok := false;
    if !v.failed && v.blocks != [] { ok := RunChecks(v.State()); }
    assert v.blocks == [] ==> !ChecksPass(v.State()) by { NeedsBlocks(v.State()); }
    SucceedsIffAccepted(inFunction, body);
    if ok { AcceptedIsWellBuilt(inFunction, body); }
  }

  lemma ComputeCFGIs(inFunction: bool, body: seq<Stmt>)
    ensures L.ComputeCFG(inFunction, body) == L.PushBack(L.VisitAll(body, Start(inFunction)), Ret(NoOperand))
  {
    hide L.VisitAll, L.PushBack;
  }

  lemma NeedsBlocks(v: Visitor)
    ensures ChecksPass(v) ==> v.blocks != []
  {}
}
