/** The graph computeCFG builds (src/core/cfg.cpp) has the shape the later phases rely on, for every
    list of statements it can lower. */
module ShapeTheorem {
  import opened Commons
  import opened Source
  import opened Lowering
  import opened ShapeBase
  import opened ShapeSteps
  import opened ShapeRules
  import opened ShapeVisits
  import opened ShapeArms
  import opened ShapeLoops
  import opened ShapeIf
  import opened ShapeWhile
  import opened ShapeFor
  import opened ShapeWith

  predicate AcceptsStmt(s: Stmt, v: Visitor) {
    AcceptsOne(s, v.inFunction, v.loops != [], v.returnDests != [], v.curblock.Some?)
  }

  /** What a list of statements does to the shape, by induction over the statements. */
  lemma {:induction false} VisitAllShape(ss: seq<Stmt>, v: Visitor)
    requires Ready(v) && AcceptsAt(ss, v)
    ensures Shape(v, VisitAll(ss, v)) && Flow(v, VisitAll(ss, v), Falls(ss), Breaks(ss))
    decreases ss, 2
  {
    hide Ready, Shape, Flow, Visit;
    if ss == [] { ShapeRefl(v); }
    else {
      var w := Visit(ss[0], v);
      VisitShape(ss[0], v);
      ReadyAfter(v, w);
      SameContextOf(v, w); FlowIs(v, w, FallsOut(ss[0]), BreaksOut(ss[0]));
      VisitAllShape(ss[1..], w);
      ShapeTrans(v, w, VisitAll(ss, v));
      FlowTrans(v, w, VisitAll(ss, v), FallsOut(ss[0]), BreaksOut(ss[0]), Falls(ss[1..]), Breaks(ss[1..]));
    }
  }

  lemma SameContextOf(v: Visitor, w: Visitor)
    requires Shape(v, w)
    ensures SameContext(v, w)
  {}

  lemma FlowIs(v: Visitor, w: Visitor, f: bool, b: bool)
    requires Flow(v, w, f, b)
    ensures w.curblock.Some? <==> v.curblock.Some? && f
  {}

  lemma {:induction false} VisitShape(s: Stmt, v: Visitor)
    requires Ready(v) && AcceptsStmt(s, v)
    ensures Shape(v, Visit(s, v)) && Flow(v, Visit(s, v), FallsOut(s), BreaksOut(s))
    decreases s, 1
  {
    hide Ready, Shape, Flow, JumpTo, PushBack, DoReturn, IfBody, WhileBody, ForBody, WithBody, WithEnd,
      VisitAll, Accepts, Falls, Breaks;
    match s {
      case Simple(what) => PushShape(v, Do(Plain(what)));
      case Return(value) => ReturnShape(v, if value.None? then NoneName else Expr(value.value));
      case Break => LeaveLoop(s, v);
      case Continue => LeaveLoop(s, v);
      case If(_, _, _) => if v.curblock.None? { SkippedShape(v, FallsOut(s), BreaksOut(s)); } else { VisitIfShape(s, v); }
      case While(_, _, _) => if v.curblock.None? { SkippedShape(v, FallsOut(s), BreaksOut(s)); } else { VisitWhileShape(s, v); }
      case For(_, _, _, _, _) => if v.curblock.None? { SkippedShape(v, FallsOut(s), BreaksOut(s)); } else { VisitForShape(s, v); }
      case With(_, _, _, _) => VisitWithShape(s, v);
    }
  }

  /** Nothing is done where control cannot come. */
  lemma SkippedShape(v: Visitor, f: bool, b: bool)
    requires Ready(v) && v.curblock.None?
    ensures Shape(v, v) && Flow(v, v, f, b)
  {
    hide Sound, Ext, Sourced, Settled, Resumes;
    ShapeRefl(v);
  }

  lemma LeaveLoop(s: Stmt, v: Visitor)
    requires Ready(v) && (s.Break? || s.Continue?) && AcceptsStmt(s, v)
    ensures Shape(v, Visit(s, v)) && Flow(v, Visit(s, v), FallsOut(s), BreaksOut(s))
  {
    hide Sound, Ext, Sourced, Settled, Resumes, Shape, Flow, JumpTo;
    if v.curblock.None? { SkippedShape(v, FallsOut(s), BreaksOut(s)); }
    else {
      var l := v.loops[|v.loops| - 1];
      assert LoopOk(v, l);
      ExitShape(v, if s.Break? then l.breakDest else l.continueDest);
    }
  }

  lemma {:induction false} VisitIfShape(s: Stmt, v: Visitor)
    requires Ready(v) && s.If? && v.curblock.Some? && AcceptsStmt(s, v)
    ensures Shape(v, Visit(s, v)) && Flow(v, Visit(s, v), FallsOut(s), BreaksOut(s))
    decreases s, 0
  {
    hide Ready, Shape, Flow, JumpTo, IfBody, IfOrelse, CloseIf, VisitAll, Accepts, Falls, Breaks, HalfIf,
      Opens, Forked, Settled, Grew, Ext, Spare;
    var n, a := |v.heap|, IfBody(v);
    IfOpens(v); OpensReady(a, n + 1);
    var x := VisitAll(s.body, a);
    VisitAllShape(s.body, a);
    IfHalfway(v, x);
    var y := JumpTo(x, n, false);
    assert n < |y.heap| by { HalfIfSize(v, y); }
    IfReopens(v, y, s.test);
    var b := IfOrelse(s.test, v, y);
    OpensReady(b, |y.heap|);
    ForkedContext(v, b, |y.heap|);
    var x' := VisitAll(s.orelse, b);
    VisitAllShape(s.orelse, b);
    IfJoined(v, y, s.test, x');
    var z := JumpTo(x', n, false);
    IfCloses(v, z, |y.heap|);
    IfFlow(s, v, a, x, y, b, x', z);
  }

  lemma HalfIfSize(v: Visitor, y: Visitor)
    requires HalfIf(v, y)
    ensures |v.heap| < |y.heap|
  {}

  lemma HalfWhileSize(v: Visitor, y: Visitor, r: set<nat>)
    requires HalfWhile(v, y, r)
    ensures |v.heap| < |y.heap|
  {}

  lemma OpensReady(a: Visitor, b: nat)
    requires Opens(a, b)
    ensures Ready(a) && a.curblock == Some(b)
  {}

  lemma ForkedContext(v: Visitor, b: Visitor, m: nat)
    requires Forked(v, b, m)
    ensures SameContext(v, b)
  {}

  lemma IfFlow(s: Stmt, v: Visitor, a: Visitor, x: Visitor, y: Visitor, b: Visitor, x': Visitor, z: Visitor)
    requires Ready(v) && s.If? && v.curblock.Some? && SameContext(v, a) && SameContext(v, b)
    requires Grew(v, a, |v.heap|, v.curblock, {}, Cur(v), {}) && Ext(y, b, {}, Cur(v), {}) && |v.heap| <= |y.heap|
    requires a.curblock.Some? && b.curblock.Some?
    requires Flow(a, x, Falls(s.body), Breaks(s.body)) && Flow(b, x', Falls(s.orelse), Breaks(s.orelse))
    requires Shape(a, x) && Shape(b, x')
    requires Preds(y, |v.heap|) == Came(x) && Preds(z, |v.heap|) == Preds(y, |v.heap|) + Came(x')
    requires forall i: nat {:trigger Preds(y, i)} :: i < |v.heap| ==> Preds(y, i) == Preds(x, i)
    requires forall i: nat {:trigger Preds(z, i)} :: i < |v.heap| ==> Preds(z, i) == Preds(x', i)
    requires var w := CloseIf(z, |v.heap|);
      (w.curblock.Some? <==> Preds(z, |v.heap|) != []) && forall t: nat :: t < |v.heap| ==> Preds(w, t) == Preds(z, t)
    ensures Flow(v, CloseIf(z, |v.heap|), FallsOut(s), BreaksOut(s))
  {
    hide Sound, Settled, Resumes, CloseIf;
    if v.loops != [] {
      var t := v.loops[|v.loops| - 1].breakDest;
      assert LoopOk(v, v.loops[|v.loops| - 1]);
      Keeps(v, a, {}, Cur(v), {}, t);
      Keeps(y, b, {}, Cur(v), {}, t);
      assert Preds(a, t) <= Preds(x, t) && Preds(b, t) <= Preds(x', t);
    }
  }

  lemma {:induction false} VisitWhileShape(s: Stmt, v: Visitor)
    requires Ready(v) && s.While? && v.curblock.Some? && AcceptsStmt(s, v)
    ensures Shape(v, Visit(s, v)) && Flow(v, Visit(s, v), FallsOut(s), BreaksOut(s))
    decreases s, 0
  {
    hide Ready, Shape, Flow, WhileBody, WhileEndBody, WhileOrelse, WhileEnd, VisitAll, Accepts, Falls, Breaks,
      HalfWhile, Opens, TestEnded, Looping, Settled, Grew, Ext, Spare;
    var n, a := |v.heap|, WhileBody(v);
    WhileOpens(v); OpensReady(a, n + 2);
    var x := VisitAll(s.body, a);
    VisitAllShape(s.body, a);
    var r := WhileHalfway(v, x);
    var y := WhileEndBody(v, x);
    HalfWhileSize(v, y, r);
    WhileReopens(v, y, r, s.test);
    var b := WhileOrelse(s.test, v, y);
    OpensReady(b, |y.heap|);
    TestContext(v, b, r, |y.heap|);
    var x' := VisitAll(s.orelse, b);
    VisitAllShape(s.orelse, b);
    ExitReached(a, x, n + 1, Falls(s.body), Breaks(s.body));
    FlowIs(b, x', Falls(s.orelse), Breaks(s.orelse));
    WhileCloses(v, y, r, s.test, x');
    LoopFlow(v, a, x, y, b, x', WhileEnd(v, x'), Falls(s.orelse), Breaks(s.orelse));
  }

  lemma TestContext(v: Visitor, b: Visitor, r: set<nat>, m: nat)
    requires TestEnded(v, b, r, m)
    ensures SameContext(v, b)
  {}

  /** A loop's exit block has a predecessor after its body just when the body breaks. */
  lemma ExitReached(a: Visitor, x: Visitor, t: nat, f: bool, b: bool)
    requires Flow(a, x, f, b) && a.curblock.Some? && a.loops != [] && a.loops[|a.loops| - 1].breakDest == t && Preds(a, t) == []
    ensures Preds(x, t) != [] <==> b
  {}

  lemma LoopFlow(v: Visitor, a: Visitor, x: Visitor, y: Visitor, b: Visitor, x': Visitor, w: Visitor, f: bool, breaks: bool)
    requires Ready(v) && v.curblock.Some? && SameContext(v, b) && b.curblock.Some? && w.curblock.Some?
    requires Grew(v, a, |v.heap|, v.curblock, {}, Cur(v), {}) && Shape(a, x) && Flow(b, x', f, breaks)
    requires forall t :: t in Touched(a) ==> t >= |v.heap| || t in Returns(v)
    requires forall i: nat {:trigger Preds(y, i)} :: i < |v.heap| ==> Preds(y, i) == Preds(x, i)
    requires forall i: nat {:trigger Preds(b, i)} :: i < |v.heap| ==> Preds(b, i) == Preds(y, i)
    requires forall i: nat {:trigger Preds(w, i)} :: i < |v.heap| ==> Preds(w, i) == Preds(x', i)
    ensures Flow(v, w, true, breaks)
  {
    hide Sound, Sourced, Settled, Resumes, Touched;
    if v.loops != [] {
      var t := v.loops[|v.loops| - 1].breakDest;
      assert LoopOk(v, v.loops[|v.loops| - 1]);
      BreakIsNoReturn(v, t);
      assert t !in Touched(a);
      Keeps(v, a, {}, Cur(v), {}, t);
      Keeps(a, x, Touched(a), Cur(a), {}, t);
      assert Preds(w, t) == Preds(x', t) && Preds(b, t) == Preds(y, t) && Preds(y, t) == Preds(x, t);
    }
  }

  lemma {:induction false} VisitForShape(s: Stmt, v: Visitor)
    requires Ready(v) && s.For? && v.curblock.Some? && AcceptsStmt(s, v)
    ensures Shape(v, Visit(s, v)) && Flow(v, Visit(s, v), FallsOut(s), BreaksOut(s))
    decreases s, 0
  {
    hide Ready, Shape, Flow, ForBody, ForEndBody, ForOrelse, ForEnd, VisitAll, Accepts, Falls, Breaks, HalfFor,
      Opens, Inverted, Settled, Grew, Ext, Spare, TailOk;
    var n, a := |v.heap|, ForBody(s.id, s.iter, s.target, v);
    ForOpens(s.id, s.iter, s.target, v);
    var x := VisitAll(s.body, a);
    VisitAllShape(s.body, a);
    var r, q := ForHalfway(s.id, v, a, x);
    var y := ForEndBody(s.id, v, x);
    ForReopens(v, y, r, q);
    var b := ForOrelse(v, y);
    OpensReady(b, n + 5);
    var x' := VisitAll(s.orelse, b);
    VisitAllShape(s.orelse, b);
    BlankPreds(a, n + 4);
    ExitReached(a, x, n + 4, Falls(s.body), Breaks(s.body));
    FlowIs(b, x', Falls(s.orelse), Breaks(s.orelse));
    ForCloses(v, y, r, q, x');
    LoopFlow(v, a, x, y, b, x', ForEnd(v, x'), Falls(s.orelse), Breaks(s.orelse));
  }

  lemma BlankPreds(a: Visitor, b: nat)
    requires b < |a.heap| && Blank(a.heap[b])
    ensures Preds(a, b) == []
  {}

  lemma {:induction false} VisitWithShape(s: Stmt, v: Visitor)
    requires Ready(v) && s.With? && AcceptsStmt(s, v)
    ensures Shape(v, Visit(s, v)) && Flow(v, Visit(s, v), FallsOut(s), BreaksOut(s))
    decreases s, 0
  {
    hide Ready, Shape, Flow, WithBody, WithEnd, VisitAll, Accepts, Falls, Breaks, Grew, Blank;
    var n, b := |v.heap|, WithBody(s.id, s.context, s.vars, v);
    WithEnters(s.id, s.context, s.vars, v);
    var x := VisitAll(s.body, b);
    VisitAllShape(s.body, b);
    WithLeaves(s.id, v, b, x);
    WithFlow(v, b, x, WithEnd(s.id, v, x), Falls(s.body), Breaks(s.body));
  }

  lemma WithFlow(v: Visitor, b: Visitor, x: Visitor, w: Visitor, f: bool, breaks: bool)
    requires Entered(v, b) && Flow(b, x, f, breaks) && w.curblock == x.curblock
    requires v.loops != [] ==>
      var l := v.loops[|v.loops| - 1]; Preds(w, l.breakDest) == Preds(v, l.breakDest) + Via(x, |v.heap| + 1)
    ensures Flow(v, w, f, breaks)
  {
    hide Grew, Ready;
    if v.loops != [] {
      assert b.loops[|b.loops| - 1].breakDest == |v.heap| + 1;
      BlankPreds(b, |v.heap| + 1);
    }
  }
}
