/** The other direction (src/core/cfg.cpp): statements that are not accepted make the visitor fail,
    or leave a placed block that nothing leads to, which the final checks refuse. */
module ShapeRejects {
  import opened Commons
  import opened Source
  import opened Lowering
  import opened ShapeBase
  import opened ShapeSteps
  import opened ShapeRules
  import opened ShapeVisits
  import opened ShapeArms
  import opened ShapeLoops
  import opened ShapeIf
  import opened ShapeWhile
  import opened ShapeFor
  import opened ShapeWith
  import opened ShapeTheorem
  import opened ShapeLasts
  import F = LoweringFrame

  predicate Orphan(w: Visitor, b: nat) {
    Listed(w, b) && Preds(w, b) == []
  }

  /** It cannot be lowered any more. */
  ghost predicate Doomed(w: Visitor, lo: nat) {
    w.failed || exists b :: b >= lo && Orphan(w, b)
  }

  /** Doomed after a part is doomed after the whole. The witness for a failure is any block that
      the rest leaves alone. */
  lemma DoomLasts(x: Visitor, w: Visitor, lo: nat, lo': nat, any: nat)
    requires Doomed(x, lo) && lo' <= lo && Lasts(x, w, any)
    requires forall b {:trigger Orphan(x, b)} :: b >= lo && Orphan(x, b) ==> Lasts(x, w, b)
    ensures Doomed(w, lo')
  {
    if !x.failed {
      var b :| b >= lo && Orphan(x, b);
      assert Orphan(w, b);
    }
  }

  lemma OrphanExists(x: Visitor)
    ensures forall b: nat {:trigger Orphan(x, b)} :: Orphan(x, b) ==> b < |x.heap|
  {}

  lemma ReadyAvoids(v: Visitor, b: nat)
    requires Ready(v) && b >= |v.heap|
    ensures Avoids(v, b)
  {
    if v.loops != [] { assert LoopOk(v, v.loops[|v.loops| - 1]); }
  }

  lemma ReadyValid(v: Visitor)
    requires Ready(v)
    ensures F.ValidCur(v)
  {}

  lemma {:induction false} VisitAllDooms(ss: seq<Stmt>, v: Visitor)
    requires Ready(v) && !AcceptsAt(ss, v)
    ensures Doomed(VisitAll(ss, v), |v.heap|)
    decreases ss, 2
  {
    hide Ready, Shape, Flow, Visit, Doomed, F.Frame;
    var w := Visit(ss[0], v);
    ReadyValid(v);
    if AcceptsStmt(ss[0], v) {
      VisitShape(ss[0], v);
      ReadyAfter(v, w);
      SameContextOf(v, w); FlowIs(v, w, FallsOut(ss[0]), BreaksOut(ss[0]));
      VisitAllDooms(ss[1..], w);
      assert |v.heap| <= |w.heap| by { F.VisitFrame(ss[0], v); FrameGrows(v, w, v.curblock); }
      DoomWiden(VisitAll(ss, v), |w.heap|, |v.heap|);
    } else {
      VisitDooms(ss[0], v);
      F.VisitFrame(ss[0], v);
      FrameGrows(v, w, v.curblock);
      AllLast(ss[1..], v, w);
    }
  }

  lemma DoomWiden(w: Visitor, lo: nat, lo': nat)
    requires Doomed(w, lo) && lo' <= lo
    ensures Doomed(w, lo')
  {}

  /** Later statements of the same list do not help. */
  lemma AllLast(ss: seq<Stmt>, v: Visitor, w: Visitor)
    requires Ready(v) && F.Visited(v, w) && Doomed(w, |v.heap|) && |v.heap| <= |w.heap|
    ensures Doomed(VisitAll(ss, w), |v.heap|)
  {
    hide Ready, VisitAll, F.Frame, Orphan;
    OrphanExists(w);
    forall b | b >= |v.heap| && Orphan(w, b) ensures Lasts(w, VisitAll(ss, w), b) {
      ReadyAvoids(v, b);
      VisitAllLasts(ss, w, b);
    }
    ReadyAvoids(v, |w.heap|);
    if w.failed { FailLasts(ss, w); }
    DoomKeeps(w, VisitAll(ss, w), |v.heap|);
  }

  lemma FailLasts(ss: seq<Stmt>, w: Visitor)
    requires F.ValidCur(w) && w.failed
    ensures VisitAll(ss, w).failed
  {
    hide VisitAll;
    F.VisitAllFrame(ss, w);
  }

  lemma DoomKeeps(x: Visitor, w: Visitor, lo: nat)
    requires Doomed(x, lo) && (x.failed ==> w.failed)
    requires forall b {:trigger Orphan(x, b)} :: b >= lo && Orphan(x, b) ==> Lasts(x, w, b)
    ensures Doomed(w, lo)
  {
    if !x.failed {
      var b :| b >= lo && Orphan(x, b);
      assert Orphan(w, b);
    }
  }

  lemma {:induction false} VisitDooms(s: Stmt, v: Visitor)
    requires Ready(v) && !AcceptsStmt(s, v)
    ensures Doomed(Visit(s, v), |v.heap|)
    decreases s, 1
  {
    hide Ready, JumpTo, PushBack, IfBody, WhileBody, ForBody, WithBody, WithEnd, VisitAll, Accepts, Falls, Breaks;
    match s {
      case Simple(_) =>
      case Return(_) =>
      case Break =>
      case Continue =>
      case If(_, _, _) => IfDooms(s, v);
      case While(_, _, _) => WhileDooms(s, v);
      case For(_, _, _, _, _) => ForDooms(s, v);
      case With(_, _, _, _) => WithDooms(s, v);
    }
  }

  // ---- if ---------------------------------------------------------------------------------------------

  lemma {:induction false} IfDooms(s: Stmt, v: Visitor)
    requires Ready(v) && s.If? && !AcceptsStmt(s, v)
    ensures Doomed(Visit(s, v), |v.heap|)
    decreases s, 0
  {
    hide Ready, Shape, Flow, JumpTo, IfBody, IfOrelse, CloseIf, VisitAll, Accepts, Falls, Breaks, HalfIf,
      Opens, Forked, Settled, Grew, Ext, Doomed, F.Frame, Orphan, IfTail;
    var n, a := |v.heap|, IfBody(v);
    IfOpens(v); OpensReady(a, n + 1);
    ReadyValid(v);
    var x := VisitAll(s.body, a);
    assert Visit(s, v) == IfRest(s, v, x) by { IfIs(s, v); }
    if !AcceptsAt(s.body, a) {
      VisitAllDooms(s.body, a);
      ReadyValid(a);
      F.VisitAllFrame(s.body, a);
      FrameGrows(a, x, a.curblock);
      OrphanExists(x);
      forall b | b >= n + 2 && Orphan(x, b) ensures Lasts(x, IfRest(s, v, x), b) {
        ReadyAvoids(v, b);
        IfRestLasts(s, v, x, b);
      }
      ReadyAvoids(v, n + 1);
      IfRestLasts(s, v, x, n + 1);
      DoomLasts(x, IfRest(s, v, x), n + 2, n, n + 1);
    } else {
      VisitAllShape(s.body, a);
      IfHalfway(v, x);
      var y := JumpTo(x, n, false);
      assert n < |y.heap| by { HalfIfSize(v, y); }
      IfReopens(v, y, s.test);
      var c := IfOrelse(s.test, v, y);
      OpensReady(c, |y.heap|);
      ForkedContext(v, c, |y.heap|);
      var z := VisitAll(s.orelse, c);
      VisitAllDooms(s.orelse, c);
      forall b | b >= |c.heap| && Orphan(z, b) ensures Lasts(z, IfTail(z, n), b) { IfTailLasts(z, n, b); }
      IfTailLasts(z, n, n + 1);
      DoomLasts(z, IfTail(z, n), |c.heap|, n, n + 1);
    }
  }

  lemma IfIs(s: Stmt, v: Visitor)
    requires s.If? && v.curblock.Some?
    ensures Visit(s, v) == IfRest(s, v, VisitAll(s.body, IfBody(v)))
  {}

  // ---- while ------------------------------------------------------------------------------------------

  lemma {:induction false} WhileDooms(s: Stmt, v: Visitor)
    requires Ready(v) && s.While? && !AcceptsStmt(s, v)
    ensures Doomed(Visit(s, v), |v.heap|)
    decreases s, 0
  {
    hide Ready, Shape, Flow, WhileBody, WhileEndBody, WhileOrelse, WhileEnd, VisitAll, Accepts, Falls, Breaks,
      HalfWhile, Opens, TestEnded, Looping, Settled, Grew, Ext, Doomed, F.Frame, Orphan;
    var n, a := |v.heap|, WhileBody(v);
    WhileOpens(v); OpensReady(a, n + 2);
    ReadyValid(v);
    var x := VisitAll(s.body, a);
    assert Visit(s, v) == WhileRest(s, v, x) by { WhileIs(s, v); }
    if !AcceptsAt(s.body, a) {
      VisitAllDooms(s.body, a);
      ReadyValid(a);
      F.VisitAllFrame(s.body, a);
      FrameGrows(a, x, a.curblock);
      OrphanExists(x);
      forall b | b >= n + 3 && Orphan(x, b) ensures Lasts(x, WhileRest(s, v, x), b) {
        ReadyAvoids(v, b);
        WhileRestLasts(s, v, x, b);
      }
      ReadyAvoids(v, n + 2);
      WhileRestLasts(s, v, x, n + 2);
      DoomLasts(x, WhileRest(s, v, x), n + 3, n, n + 2);
    } else {
      VisitAllShape(s.body, a);
      var r := WhileHalfway(v, x);
      ElseDooms(s, v, a, x, r);
    }
  }

  lemma WhileIs(s: Stmt, v: Visitor)
    requires s.While? && v.curblock.Some?
    ensures Visit(s, v) == WhileRest(s, v, VisitAll(s.body, WhileBody(v)))
  {}

  lemma {:induction false} ElseDooms(s: Stmt, v: Visitor, a: Visitor, x: Visitor, r: set<nat>)
    requires Ready(v) && s.While? && v.curblock.Some? && !AcceptsStmt(s, v) && a == WhileBody(v)
    requires AcceptsAt(s.body, a) && a.loops != [] && a.inFunction == v.inFunction && a.returnDests == v.returnDests && a.curblock.Some?
    requires a.loops[|a.loops| - 1].breakDest == |v.heap| + 1 && Preds(a, |v.heap| + 1) == []
    requires Flow(a, x, Falls(s.body), Breaks(s.body))
    requires HalfWhile(v, WhileEndBody(v, x), r) && Preds(WhileEndBody(v, x), |v.heap| + 1) == Preds(x, |v.heap| + 1)
    ensures Doomed(WhileRest(s, v, x), |v.heap|)
    decreases s.orelse, 3
  {
    hide Ready, Shape, Flow, WhileBody, WhileEndBody, WhileOrelse, WhileEnd, VisitAll, Accepts, Falls, Breaks,
      HalfWhile, Opens, TestEnded, Looping, Settled, Grew, Ext, Doomed, F.Frame, Orphan;
    var n, y := |v.heap|, WhileEndBody(v, x);
    HalfWhileSize(v, y, r);
    WhileReopens(v, y, r, s.test);
    var c := WhileOrelse(s.test, v, y);
    OpensReady(c, |y.heap|);
    TestContext(v, c, r, |y.heap|);
    var z := VisitAll(s.orelse, c);
    if !AcceptsAt(s.orelse, c) {
      VisitAllDooms(s.orelse, c);
      forall b | b >= |c.heap| && Orphan(z, b) ensures Lasts(z, WhileEnd(v, z), b) { WhileEndLasts(v, z, b); }
      WhileEndLasts(v, z, n);
      DoomLasts(z, WhileEnd(v, z), |c.heap|, n, n);
    } else {
      VisitAllShape(s.orelse, c);
      ExitReached(a, x, n + 1, Falls(s.body), Breaks(s.body));
      FlowIs(c, z, Falls(s.orelse), Breaks(s.orelse));
      UnreachedWhile(v, y, r, s.test, z);
    }
  }

  /** The exit block of a loop is placed whether or not anything leads to it. */
  lemma UnreachedWhile(v: Visitor, y: Visitor, r: set<nat>, test: nat, z: Visitor)
    requires Ready(v) && HalfWhile(v, y, r) && Shape(WhileOrelse(test, v, y), z)
    requires Preds(y, |v.heap| + 1) == [] && z.curblock.None?
    ensures Doomed(WhileEnd(v, z), |v.heap|)
  {
    hide Ready, Shape, WhileOrelse, HalfWhile, Looping, Settled, Grew, Ext, JumpTo, PlaceBlock;
    var e := |v.heap| + 1;
    WhileJoined(v, y, r, test, z);
    var x := JumpTo(z, e, false);
    LoopingParts(v, x, r);
    SomethingPlaced(v, x, Touched(v), Cur(v));
    UnreachedExit(x, e);
    assert Orphan(WhileEnd(v, z), e) by { assert WhileEnd(v, z) == PlaceBlock(At(x, e), e); PlaceAt(x, e); }
  }

  lemma UnreachedExit(x: Visitor, e: nat)
    requires Spare(x, e) && Preds(x, e) == [] && x.blocks != []
    ensures Orphan(PlaceBlock(x, e), e) && Orphan(At(PlaceBlock(x, e), e), e)
  {}

  lemma SomethingPlaced(v: Visitor, x: Visitor, d: set<nat>, o: set<nat>)
    requires Grew(v, x, |v.heap|, v.curblock, d, o, {}) && Placed(x, |v.heap|)
    ensures x.blocks != []
  {
    hide Dual, Ordered, Ext, Sourced;
  }

  lemma PlaceAt(x: Visitor, e: nat)
    requires Spare(x, e)
    ensures PlaceBlock(At(x, e), e) == At(PlaceBlock(x, e), e)
  {}

  // ---- for --------------------------------------------------------------------------------------------

  lemma {:induction false} ForDooms(s: Stmt, v: Visitor)
    requires Ready(v) && s.For? && !AcceptsStmt(s, v)
    ensures Doomed(Visit(s, v), |v.heap|)
    decreases s, 0
  {
    hide Ready, Shape, Flow, ForBody, ForEndBody, ForOrelse, ForEnd, VisitAll, Accepts, Falls, Breaks, HalfFor,
      Opens, Inverted, Settled, Grew, Ext, Spare, TailOk, Doomed, F.Frame, Orphan;
    var n, a := |v.heap|, ForBody(s.id, s.iter, s.target, v);
    ForOpens(s.id, s.iter, s.target, v);
    ReadyValid(v);
    var x := VisitAll(s.body, a);
    assert Visit(s, v) == ForRest(s, v, x) by { ForIs(s, v); }
    if !AcceptsAt(s.body, a) {
      VisitAllDooms(s.body, a);
      ReadyValid(a);
      F.VisitAllFrame(s.body, a);
      FrameGrows(a, x, a.curblock);
      OrphanExists(x);
      forall b | b >= n + 6 && Orphan(x, b) ensures Lasts(x, ForRest(s, v, x), b) {
        ReadyAvoids(v, b);
        ForRestLasts(s, v, x, b);
      }
      ReadyAvoids(v, n + 1);
      ForRestLasts(s, v, x, n + 1);
      DoomLasts(x, ForRest(s, v, x), n + 6, n, n + 1);
    } else {
      VisitAllShape(s.body, a);
      ForElseDooms(s, v, a, x);
    }
  }

  lemma ForIs(s: Stmt, v: Visitor)
    requires s.For? && v.curblock.Some?
    ensures Visit(s, v) == ForRest(s, v, VisitAll(s.body, ForBody(s.id, s.iter, s.target, v)))
  {}

  lemma {:induction false} ForElseDooms(s: Stmt, v: Visitor, a: Visitor, x: Visitor)
    requires Ready(v) && s.For? && v.curblock.Some? && !AcceptsStmt(s, v) && ForBodyOpen(v, a)
    requires AcceptsAt(s.body, a) && Shape(a, x) && Flow(a, x, Falls(s.body), Breaks(s.body))
    ensures Doomed(ForRest(s, v, x), |v.heap|)
    decreases s.orelse, 3
  {
    hide Ready, Shape, Flow, ForBody, ForEndBody, ForOrelse, ForEnd, VisitAll, Accepts, Falls, Breaks, HalfFor,
      Opens, Inverted, Settled, Grew, Ext, Spare, TailOk, Doomed, F.Frame, Orphan;
    var n, y := |v.heap|, ForEndBody(s.id, v, x);
    var r, q := ForHalfway(s.id, v, a, x);
    ForReopens(v, y, r, q);
    var c := ForOrelse(v, y);
    OpensReady(c, n + 5);
    OpensSize(c, n + 5);
    var z := VisitAll(s.orelse, c);
    if !AcceptsAt(s.orelse, c) {
      VisitAllDooms(s.orelse, c);
      forall b | b >= |c.heap| && Orphan(z, b) ensures Lasts(z, ForEnd(v, z), b) { ForEndLasts(v, z, b); }
      ForEndLasts(v, z, n);
      DoomLasts(z, ForEnd(v, z), |c.heap|, n, n);
    } else {
      VisitAllShape(s.orelse, c);
      BlankPreds(a, n + 4);
      ExitReached(a, x, n + 4, Falls(s.body), Breaks(s.body));
      FlowIs(c, z, Falls(s.orelse), Breaks(s.orelse));
      UnreachedFor(v, y, r, q, z);
    }
  }

  lemma OpensSize(a: Visitor, b: nat)
    requires Opens(a, b)
    ensures b < |a.heap|
  {}

  lemma UnreachedFor(v: Visitor, y: Visitor, r: set<nat>, q: set<nat>, z: Visitor)
    requires Ready(v) && HalfFor(v, y, r, q) && Shape(ForOrelse(v, y), z)
    requires Preds(y, |v.heap| + 4) == [] && z.curblock.None?
    ensures Doomed(ForEnd(v, z), |v.heap|)
  {
    hide Ready, Shape, ForOrelse, HalfFor, Inverted, Settled, Grew, Ext, JumpTo, PlaceBlock;
    var e := |v.heap| + 4;
    ForJoined(v, y, r, q, z);
    InvertedHead(v, JumpTo(z, e, false), r, q);
    SomethingPlaced(v, JumpTo(z, e, false), Touched(v), Cur(v));
    UnreachedExit(JumpTo(z, e, false), e);
    assert Orphan(ForEnd(v, z), e);
  }

  // ---- with -------------------------------------------------------------------------------------------

  lemma {:induction false} WithDooms(s: Stmt, v: Visitor)
    requires Ready(v) && s.With? && !AcceptsStmt(s, v)
    ensures Doomed(Visit(s, v), |v.heap|)
    decreases s, 0
  {
    hide Ready, Shape, Flow, WithBody, WithEnd, VisitAll, Accepts, Falls, Breaks, Grew, Blank, Doomed, F.Frame, Orphan;
    var n, a := |v.heap|, WithBody(s.id, s.context, s.vars, v);
    WithEnters(s.id, s.context, s.vars, v);
    EnteredReady(v, a);
    var x := VisitAll(s.body, a);
    VisitAllDooms(s.body, a);
    ReadyValid(a);
    F.VisitAllFrame(s.body, a);
    forall b | b >= |a.heap| && Orphan(x, b) ensures Lasts(x, WithEnd(s.id, v, x), b) {
      ReadyAvoids(v, b);
      WithRestLasts(s.id, v, x, b);
    }
    ReadyAvoids(v, n);
    WithRestLasts(s.id, v, x, n);
    DoomLasts(x, WithEnd(s.id, v, x), |a.heap|, n, n);
  }
}
