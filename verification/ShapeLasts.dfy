/** What no later step repairs (src/core/cfg.cpp): a visitor that has failed stays failed, and a
    block placed without a predecessor gets none unless some scope leads to it. */
module ShapeLasts {
  import opened Commons
  import opened Source
  import opened Lowering
  import opened ShapeBase
  import F = LoweringFrame

  /** A block that the graph lists, other than the entry block. */
  predicate Listed(v: Visitor, b: nat) {
    b < |v.heap| && 1 <= v.heap[b].idx < |v.blocks| && v.blocks[v.heap[b].idx] == b
  }

  predicate Lasts(v: Visitor, w: Visitor, b: nat) {
    (v.failed ==> w.failed) && (Listed(v, b) ==> Listed(w, b) && Preds(w, b) == Preds(v, b))
  }

  /** No exit statement leads to b. */
  predicate Avoids(v: Visitor, b: nat) {
    && (v.loops != [] ==> b != v.loops[|v.loops| - 1].continueDest && b != v.loops[|v.loops| - 1].breakDest)
    && (v.returnDests != [] ==> b != v.returnDests[|v.returnDests| - 1])
  }

  // ---- small steps ----------------------------------------------------------------------------------

  lemma AddLasts(v: Visitor, b: nat)
    ensures Lasts(v, AddBlock(v), b) && Lasts(v, AddDeferredBlock(v), b)
  {}

  lemma PlaceLasts(v: Visitor, c: nat, b: nat)
    ensures Lasts(v, PlaceBlock(v, c), b)
  {}

  lemma PushLasts(v: Visitor, c: nat, n: Node, b: nat)
    ensures Lasts(v, PushTo(v, c, n), b) && Lasts(v, PushBack(v, n), b)
  {}

  lemma ConnectLasts(v: Visitor, u: nat, t: nat, allow: bool, b: nat)
    requires b != t
    ensures Lasts(v, Connect(v, u, t, allow), b)
  {}

  lemma JumpLasts(v: Visitor, t: nat, allow: bool, b: nat)
    requires b != t
    ensures Lasts(v, JumpTo(v, t, allow), b)
  {
    hide Connect, PushBack;
    if v.curblock.Some? {
      PushLasts(v, 0, Jump(t), b);
      ConnectLasts(PushBack(v, Jump(t)), v.curblock.value, t, allow, b);
    }
  }

  lemma EnterLasts(v: Visitor, u: nat, b: nat)
    requires b < |v.heap|
    ensures Lasts(v, EnterNew(v, u), b)
  {
    hide Connect;
    AddLasts(v, b);
    ConnectLasts(AddBlock(v), u, |v.heap|, false, b);
  }

  lemma ForkLasts(v: Visitor, cond: Cond, b: nat)
    requires v.curblock.Some? && b < |v.heap|
    ensures Lasts(v, Fork(v, cond), b)
  {
    hide Connect, PushBack, AddBlock;
    var n, u := |v.heap|, v.curblock.value;
    var x := PushBack(v, Branch(cond, n, n + 1));
    var z := AddBlock(AddBlock(x));
    PushLasts(v, 0, Branch(cond, n, n + 1), b);
    AddLasts(x, b); AddLasts(AddBlock(x), b);
    ConnectLasts(z, u, n, false, b);
    ConnectLasts(Connect(z, u, n, false), u, n + 1, false, b);
  }

  lemma ReturnLasts(v: Visitor, value: Operand, b: nat)
    requires v.returnDests != [] ==> b != v.returnDests[|v.returnDests| - 1]
    ensures Lasts(v, DoReturn(v, value), b)
  {
    hide JumpTo, PushBack;
    PushLasts(v, 0, Ret(value), b); PushLasts(v, 0, Save(value), b);
    if v.returnDests != [] && v.curblock.Some? {
      F.PushFrame(v, Save(value));
      JumpLasts(PushBack(v, Save(value)), v.returnDests[|v.returnDests| - 1], false, b);
    }
  }

  lemma ExitLasts(id: nat, w: Visitor, k: nat, t: nat, b: nat)
    requires b != t
    ensures Lasts(w, WithExit(id, w, k, t), b)
  {
    hide Connect, PushBack, PlaceBlock;
    var node := Do(CallExit(id));
    var x := PushBack(At(w, k), node);
    var y := PlaceBlock(x, k);
    PushLasts(At(w, k), 0, node, b);
    PlaceLasts(x, k, b);
    PushLasts(y, 0, Jump(t), b);
    ConnectLasts(PushBack(y, Jump(t)), k, t, true, b);
  }

  // ---- visits ---------------------------------------------------------------------------------------

  lemma {:induction false} VisitAllLasts(ss: seq<Stmt>, v: Visitor, b: nat)
    requires F.ValidCur(v) && b < |v.heap| && Avoids(v, b)
    ensures Lasts(v, VisitAll(ss, v), b)
    decreases ss, 2
  {
    hide Visit, F.Frame;
    if ss != [] {
      VisitLasts(ss[0], v, b);
      F.VisitFrame(ss[0], v);
      var w := Visit(ss[0], v);
      FrameGrows(v, w, v.curblock);
      VisitAllLasts(ss[1..], w, b);
    }
  }

  lemma FrameGrows(v: Visitor, w: Visitor, open: Option<nat>)
    requires F.Frame(v, w, open)
    ensures |v.heap| <= |w.heap| && (v.failed ==> w.failed) && w.inFunction == v.inFunction
  {}

  lemma {:induction false} VisitLasts(s: Stmt, v: Visitor, b: nat)
    requires F.ValidCur(v) && b < |v.heap| && Avoids(v, b)
    ensures Lasts(v, Visit(s, v), b)
    decreases s, 1
  {
    hide JumpTo, PushBack, DoReturn, IfBody, IfOrelse, CloseIf, WhileBody, WhileEndBody, WhileOrelse, WhileEnd,
      ForBody, ForEndBody, ForOrelse, ForEnd, WithBody, WithEnd, VisitAll;
    match s {
      case Simple(what) => PushLasts(v, 0, Do(Plain(what)), b);
      case Return(value) => ReturnLasts(v, if value.None? then NoneName else Expr(value.value), b);
      case Break => if v.loops != [] { JumpLasts(v, v.loops[|v.loops| - 1].breakDest, true, b); }
      case Continue => if v.loops != [] { JumpLasts(v, v.loops[|v.loops| - 1].continueDest, true, b); }
      case If(_, body, _) =>
        if v.curblock.Some? {
          var a := IfBody(v);
          IfBodyLasts(v, b);
          F.IfBodyFrame(v);
          VisitAllLasts(body, a, b);
          F.VisitAllFrame(body, a);
          FrameGrows(a, VisitAll(body, a), a.curblock);
          IfRestLasts(s, v, VisitAll(body, a), b);
        }
      case While(_, body, _) =>
        if v.curblock.Some? {
          var a := WhileBody(v);
          WhileBodyLasts(v, b);
          F.WhileBodyFrame(v);
          VisitAllLasts(body, a, b);
          F.VisitAllFrame(body, a);
          FrameGrows(a, VisitAll(body, a), a.curblock);
          WhileRestLasts(s, v, VisitAll(body, a), b);
        }
      case For(id, iter, target, body, _) =>
        if v.curblock.Some? {
          var a := ForBody(id, iter, target, v);
          ForBodyLasts(id, iter, target, v, b);
          F.ForBodyFrame(id, iter, target, v);
          VisitAllLasts(body, a, b);
          F.VisitAllFrame(body, a);
          FrameGrows(a, VisitAll(body, a), a.curblock);
          ForRestLasts(s, v, VisitAll(body, a), b);
        }
      case With(id, context, vars, body) =>
        var a := WithBody(id, context, vars, v);
        WithBodyLasts(id, context, vars, v, b);
        F.WithBodyFrame(id, context, vars, v);
        VisitAllLasts(body, a, b);
        F.VisitAllFrame(body, a);
        WithRestLasts(id, v, VisitAll(body, a), b);
    }
  }

  // ---- if ---------------------------------------------------------------------------------------------

  lemma IfBodyLasts(v: Visitor, b: nat)
    requires v.curblock.Some? && b < |v.heap|
    ensures Lasts(v, IfBody(v), b)
  {
    hide EnterNew;
    AddLasts(v, b);
    EnterLasts(AddDeferredBlock(v), v.curblock.value, b);
  }

  function IfTail(x: Visitor, n: nat): Visitor {
    CloseIf(JumpTo(x, n, false), n)
  }

  lemma IfTailLasts(x: Visitor, n: nat, b: nat)
    requires b != n
    ensures Lasts(x, IfTail(x, n), b)
  {
    hide JumpTo, PlaceBlock;
    JumpLasts(x, n, false, b);
    PlaceLasts(JumpTo(x, n, false), n, b);
  }

  function IfRest(s: Stmt, v: Visitor, x: Visitor): Visitor
    requires s.If? && v.curblock.Some?
  {
    IfTail(VisitAll(s.orelse, IfOrelse(s.test, v, JumpTo(x, |v.heap|, false))), |v.heap|)
  }

  /** All that happens after the body. */
  lemma {:induction false} IfRestLasts(s: Stmt, v: Visitor, x: Visitor, b: nat)
    requires s.If? && v.curblock.Some? && F.ValidCur(v) && F.Visited(IfBody(v), x) && b < |x.heap| && b != |v.heap| && Avoids(v, b)
    ensures Lasts(x, IfRest(s, v, x), b)
    decreases s, 0
  {
    hide JumpTo, EnterNew, PushTo, VisitAll, IfTail, F.Frame, IfBody;
    var n, c := |v.heap|, v.curblock.value;
    var y := JumpTo(x, n, false);
    JumpLasts(x, n, false, b);
    F.JumpFrame(x, n, false);
    var node := Branch(Test(s.test), n + 1, |y.heap|);
    var z := PushTo(y, c, node);
    PushLasts(y, c, node, b);
    F.PushToFrame(y, c, node);
    EnterLasts(z, c, b);
    var a := IfOrelse(s.test, v, y);
    F.EnterFrame(z, c);
    F.IfBodyFrame(v);
    F.IfOrelseFrame(s.test, v, x);
    assert Avoids(a, b);
    VisitAllLasts(s.orelse, a, b);
    IfTailLasts(VisitAll(s.orelse, a), n, b);
  }

  // ---- while ------------------------------------------------------------------------------------------

  lemma WhileBodyLasts(v: Visitor, b: nat)
    requires v.curblock.Some? && b < |v.heap|
    ensures Lasts(v, WhileBody(v), b)
  {
    hide EnterNew, JumpTo, AddBlock, AddDeferredBlock;
    var n := |v.heap|;
    AddLasts(v, b);
    var x := JumpTo(AddBlock(v), n, false);
    JumpLasts(AddBlock(v), n, false, b);
    F.AddFrame(v); F.JumpFrame(AddBlock(v), n, false);
    var y := AddDeferredBlock(At(x, n));
    AddLasts(At(x, n), b); F.AddFrame(At(x, n));
    EnterLasts(PushLoop(y, n, n + 1), n, b);
  }

  lemma WhileEndBodyLasts(v: Visitor, x: Visitor, b: nat)
    requires b != |v.heap|
    ensures Lasts(x, WhileEndBody(v, x), b)
  {
    hide JumpTo;
    JumpLasts(x, |v.heap|, true, b);
  }

  lemma WhileEndLasts(v: Visitor, x: Visitor, b: nat)
    requires b != |v.heap| + 1
    ensures Lasts(x, WhileEnd(v, x), b)
  {
    hide JumpTo, PlaceBlock;
    var e := |v.heap| + 1;
    JumpLasts(x, e, false, b);
    PlaceLasts(At(JumpTo(x, e, false), e), e, b);
  }

  function WhileRest(s: Stmt, v: Visitor, x: Visitor): Visitor
    requires s.While?
  {
    WhileEnd(v, VisitAll(s.orelse, WhileOrelse(s.test, v, WhileEndBody(v, x))))
  }

  lemma {:induction false} WhileRestLasts(s: Stmt, v: Visitor, x: Visitor, b: nat)
    requires s.While? && v.curblock.Some? && F.ValidCur(v) && F.Visited(WhileBody(v), x) && b < |x.heap|
    requires b != |v.heap| && b != |v.heap| + 1 && Avoids(v, b)
    ensures Lasts(x, WhileRest(s, v, x), b)
    decreases s, 0
  {
    hide EnterNew, PushTo, VisitAll, WhileEnd, WhileEndBody, WhileBody, F.Frame;
    var n, y := |v.heap|, WhileEndBody(v, x);
    WhileEndBodyLasts(v, x, b);
    F.WhileOrelseFrame(s.test, v, x);
    FrameGrows(x, y, x.curblock);
    var node := Branch(Test(s.test), n + 2, |y.heap|);
    PushLasts(y, n, node, b);
    F.PushToFrame(y, n, node);
    EnterLasts(PushTo(y, n, node), n, b);
    var a := WhileOrelse(s.test, v, y);
    assert Avoids(a, b);
    VisitAllLasts(s.orelse, a, b);
    WhileEndLasts(v, VisitAll(s.orelse, a), b);
  }

  // ---- for --------------------------------------------------------------------------------------------

  lemma ForTestLasts(id: nat, iter: nat, v: Visitor, b: nat)
    requires v.curblock.Some? && b < |v.heap|
    ensures Lasts(v, ForTest(id, iter, v), b)
  {
    hide JumpTo, Fork, PushBack, AddBlock;
    var n, node := |v.heap|, Do(MakeIter(id, iter));
    var s := PushBack(v, node);
    PushLasts(v, 0, node, b); F.PushFrame(v, node);
    AddLasts(s, b); F.AddFrame(s);
    JumpLasts(AddBlock(s), n, false, b); F.JumpFrame(AddBlock(s), n, false);
    ForkLasts(At(JumpTo(AddBlock(s), n, false), n), HasNext(id), b);
  }

  lemma ForBodyLasts(id: nat, iter: nat, target: nat, v: Visitor, b: nat)
    requires v.curblock.Some? && b < |v.heap|
    ensures Lasts(v, ForBody(id, iter, target, v), b)
  {
    hide JumpTo, ForTest, PushBack, AddBlock, AddDeferredBlock, Listed;
    var n := |v.heap|;
    var f := ForTest(id, iter, v);
    ForTestLasts(id, iter, v, b);
    var made := AddDeferredBlock(AddDeferredBlock(AddBlock(f)));
    ThreeLast(f, b);
    ForMovedLasts(v, f, made, n, b);
    var skipped := ForSkip(made, n);
    assert ForBody(id, iter, target, v) == PushBack(At(PushLoop(skipped, n, n + 4), n + 3), Do(NextItem(id, target)));
    PushLasts(At(PushLoop(skipped, n, n + 4), n + 3), 0, Do(NextItem(id, target)), b);
    MovedLasts(skipped, At(PushLoop(skipped, n, n + 4), n + 3), b);
  }

  lemma ThreeLast(f: Visitor, b: nat)
    ensures Lasts(f, AddDeferredBlock(AddDeferredBlock(AddBlock(f))), b)
  {
    hide AddBlock, AddDeferredBlock;
    var g := AddBlock(f);
    AddLasts(f, b); AddLasts(g, b); AddLasts(AddDeferredBlock(g), b);
  }

  lemma MovedLasts(v: Visitor, w: Visitor, b: nat)
    requires w.heap == v.heap && w.blocks == v.blocks && w.failed == v.failed
    ensures Lasts(v, w, b)
  {}

  function ForSkip(made: Visitor, n: nat): Visitor {
    JumpTo(At(JumpTo(At(made, n + 1), n + 3, false), n + 2), n + 5, false)
  }

  lemma ForMovedLasts(v: Visitor, f: Visitor, made: Visitor, n: nat, b: nat)
    requires Lasts(v, f, b) && Lasts(f, made, b) && b < n
    ensures Lasts(v, ForSkip(made, n), b)
  {
    hide JumpTo, Listed;
    var entered := JumpTo(At(made, n + 1), n + 3, false);
    MovedLasts(made, At(made, n + 1), b);
    JumpLasts(At(made, n + 1), n + 3, false, b);
    MovedLasts(entered, At(entered, n + 2), b);
    JumpLasts(At(entered, n + 2), n + 5, false, b);
  }

  lemma ForEndBodyLasts(id: nat, v: Visitor, x: Visitor, b: nat)
    requires b < |x.heap| && b != |v.heap| + 3 && b != |v.heap| + 5
    ensures Lasts(x, ForEndBody(id, v, x), b)
  {
    hide JumpTo, Fork;
    var n, z := |v.heap|, PopLoop(x);
    if z.curblock.Some? {
      var f := Fork(z, HasNext(id));
      ForkLasts(z, HasNext(id), b);
      JumpLasts(At(f, |z.heap|), n + 3, true, b);
      var again := JumpTo(At(f, |z.heap|), n + 3, true);
      JumpLasts(At(again, |z.heap| + 1), n + 5, false, b);
    }
  }

  lemma ForEndLasts(v: Visitor, x: Visitor, b: nat)
    requires b != |v.heap| + 4
    ensures Lasts(x, ForEnd(v, x), b)
  {
    hide JumpTo, PlaceBlock;
    var e := |v.heap| + 4;
    JumpLasts(x, e, false, b);
    PlaceLasts(JumpTo(x, e, false), e, b);
  }

  function ForRest(s: Stmt, v: Visitor, x: Visitor): Visitor
    requires s.For?
  {
    ForEnd(v, VisitAll(s.orelse, ForOrelse(v, ForEndBody(s.id, v, x))))
  }

  lemma {:induction false} ForRestLasts(s: Stmt, v: Visitor, x: Visitor, b: nat)
    requires s.For? && v.curblock.Some? && F.ValidCur(v) && F.Visited(ForBody(s.id, s.iter, s.target, v), x) && b < |x.heap|
    requires b != |v.heap| + 3 && b != |v.heap| + 4 && b != |v.heap| + 5 && Avoids(v, b)
    ensures Lasts(x, ForRest(s, v, x), b)
    decreases s, 0
  {
    hide PlaceBlock, VisitAll, ForEnd, ForEndBody, ForBody, F.Frame;
    var n, y := |v.heap|, ForEndBody(s.id, v, x);
    ForEndBodyLasts(s.id, v, x, b);
    F.ForEndBodyFrame(s.id, s.iter, s.target, v, x);
    FrameGrows(x, y, x.curblock);
    PlaceLasts(y, n + 5, b);
    F.PlaceFrame(y, n + 5);
    var a := ForOrelse(v, y);
    assert Avoids(a, b);
    VisitAllLasts(s.orelse, a, b);
    ForEndLasts(v, VisitAll(s.orelse, a), b);
  }

  // ---- with -------------------------------------------------------------------------------------------

  lemma WithBodyLasts(id: nat, context: nat, vars: Option<nat>, v: Visitor, b: nat)
    ensures Lasts(v, WithBody(id, context, vars, v), b)
  {
    hide PushBack, AddDeferredBlock;
    var c := PushBack(v, Do(MakeContext(id, context)));
    var d := PushBack(c, Do(LoadExit(id)));
    var e := PushBack(d, Do(Enter(id, vars)));
    PushLasts(v, 0, Do(MakeContext(id, context)), b);
    PushLasts(c, 0, Do(LoadExit(id)), b);
    PushLasts(d, 0, Do(Enter(id, vars)), b);
    var f := AddDeferredBlock(e);
    var g := PushLoop(AddDeferredBlock(f), |v.heap|, |v.heap| + 1);
    AddLasts(e, b); AddLasts(f, b); AddLasts(g, b);
  }

  lemma WithRestLasts(id: nat, v: Visitor, x: Visitor, b: nat)
    requires Avoids(v, b) && |x.returnDests| == |v.returnDests| + 1 && x.returnDests[..|v.returnDests|] == v.returnDests
    ensures Lasts(x, WithEnd(id, v, x), b)
  {
    hide PushBack, WithLoopExits, WithReturnExit;
    var y := PushBack(x, Do(CallExit(id)));
    PushLasts(x, 0, Do(CallExit(id)), b);
    F.PushFrame(x, Do(CallExit(id)));
    var z := WithLoopExits(id, v, y);
    LoopExitsLasts(id, v, y, b);
    ReturnExitLasts(id, v, PopReturn(z), b);
  }

  lemma LoopExitsLasts(id: nat, v: Visitor, y: Visitor, b: nat)
    requires Avoids(v, b)
    ensures Lasts(y, WithLoopExits(id, v, y), b) && WithLoopExits(id, v, y).returnDests == y.returnDests
  {
    hide WithExit;
    if v.loops != [] {
      var l := v.loops[|v.loops| - 1];
      ExitLasts(id, y, |v.heap|, l.continueDest, b);
      var w := WithExit(id, y, |v.heap|, l.continueDest);
      ExitLasts(id, w, |v.heap| + 1, l.breakDest, b);
      ExitScopes(id, y, |v.heap|, l.continueDest);
      ExitScopes(id, w, |v.heap| + 1, l.breakDest);
    }
  }

  lemma ExitScopes(id: nat, w: Visitor, k: nat, t: nat)
    ensures F.SameScopes(w, WithExit(id, w, k, t))
  {
    hide Connect, PushBack, PlaceBlock;
    var node := Do(CallExit(id));
    var x := PushBack(At(w, k), node);
    var y := PlaceBlock(x, k);
    F.PushFrame(At(w, k), node);
    F.PlaceFrame(x, k);
    F.PushFrame(y, Jump(t));
    F.ConnectFrame(PushBack(y, Jump(t)), k, t, true);
  }

  lemma ReturnExitLasts(id: nat, v: Visitor, w: Visitor, b: nat)
    requires Avoids(v, b) && w.returnDests == v.returnDests
    ensures Lasts(w, WithReturnExit(id, v, w), b)
  {
    hide PlaceBlock, PushBack, DoReturn;
    var k := WithReturn(v);
    var x := PlaceBlock(w, k);
    PlaceLasts(w, k, b); F.PlaceFrame(w, k);
    var y := PushBack(At(x, k), Do(CallExit(id)));
    PushLasts(At(x, k), 0, Do(CallExit(id)), b);
    F.PushFrame(At(x, k), Do(CallExit(id)));
    ReturnLasts(y, SavedName, b);
  }
}
