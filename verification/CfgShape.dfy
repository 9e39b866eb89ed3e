/** What computeCFG hands to the later phases (src/core/cfg.cpp): its final checks, the graph it
    built in terms of block indices, and what the analyses may rely on. */
module CfgShape {
  import opened Commons
  import opened Source
  import opened Lowering
  import opened ShapeBase
  import opened ShapeSteps
  import opened ShapeRules
  import opened ShapeVisits
  import opened ShapeTheorem
  import opened ShapeLasts
  import opened ShapeRejects
  import opened CfgChecks
  import F = LoweringFrame
  import G = Graph
  import P = FixedPoint
  import T = FixedPointTermination
  import B = FunctionBody
  import D = Definedness
  import H = PhiAnalysis
  import L = Liveness
  import O = BlockSets

  function IndexOf(v: Visitor, b: nat): nat {
    if Placed(v, b) then v.heap[b].idx else 0
  }

  function Indices(v: Visitor, bs: seq<nat>): (r: seq<nat>)
    ensures |r| == |bs| && forall k :: 0 <= k < |bs| ==> r[k] == IndexOf(v, bs[k])
  {
    if bs == [] then [] else Indices(v, bs[..|bs| - 1]) + [IndexOf(v, bs[|bs| - 1])]
  }

  /** The finished graph, its blocks named by their indices. */
  function GraphOf(v: Visitor): G.Graph {
    G.Graph(seq(|v.blocks|, k requires 0 <= k < |v.blocks| => Indices(v, Succs(v, v.blocks[k]))))
  }

  /** Everything the later phases assume of a graph. */
  ghost predicate WellBuilt(v: Visitor) {
    && !v.failed && ChecksPass(v) && v.blocks[0] == 0
    && Indexed(v) && Dual(v) && GraphOf(v).Valid()
    && (forall b: nat {:trigger Placed(v, b)} :: Placed(v, b) ==> Terminated(v.heap[b]))
    && (forall u: nat, t: nat {:trigger t in Succs(v, u)} :: t in Succs(v, u) ==> Placed(v, u) && Placed(v, t))
    && (forall u: nat, t: nat {:trigger t in Succs(v, u)} :: t in Succs(v, u) && IndexOf(v, t) <= IndexOf(v, u) ==>
          GraphOf(v).Dominates(IndexOf(v, t), IndexOf(v, u)))
  }

  // ---- the finished blocks ------------------------------------------------------------------------

  /** Every block is finished, or was never used; the entry block is the first. */
  ghost predicate Built(v: Visitor) {
    && Sound(v) && v.heap != [] && v.blocks != [] && v.blocks[0] == 0 && Preds(v, 0) == []
    && TailOk(v, 1, 0) && forall b: nat {:trigger Done(v, 1, b)} :: 1 <= b < |v.heap| ==> Done(v, 1, b)
  }

  lemma StartReady(inFunction: bool)
    ensures var v := Start(inFunction);
      && Ready(v) && v.curblock == Some(0) && |v.heap| == 1 && v.blocks == [0] && v.inFunction == inFunction
      && v.loops == [] && v.returnDests == [] && Preds(v, 0) == []
  {
    var e := Visitor(inFunction, [], [], None, [], [], false);
    var v := Start(inFunction);
    assert v.heap == [Block([], [], [], 0)] && v.blocks == [0];
    assert forall i: nat :: Preds(v, i) == [] && Succs(v, i) == [];
  }

  lemma FirstStays(v: Visitor, w: Visitor)
    requires Indexed(w) && Ext(v, w, {}, Cur(v), {}) && |v.heap| == 1 && v.heap[0].idx == 0 && Preds(v, 0) == []
    ensures w.blocks != [] && w.blocks[0] == 0 && Preds(w, 0) == []
  {
    assert v.heap[0] == v.heap[0];
  }

  lemma BuiltBlocks(inFunction: bool, body: seq<Stmt>)
    requires Accepts(body, inFunction, false, false, true)
    ensures Built(ComputeCFG(inFunction, body))
  {
    hide Ready, Ext, Sourced, Dual, Ordered, EntryOk, TailOk, Done, VisitAll, Accepts;
    var v := Start(inFunction);
    StartReady(inFunction);
    var w := VisitAll(body, v);
    VisitAllShape(body, v);
    assert Touched(v) == {};
    FirstStays(v, w);
    if w.curblock.Some? { ReturnAdded(v, w); }
    else { AllSettled(w); }
  }

  lemma AllSettled(w: Visitor)
    requires Settled(w, 1, |w.heap|, None)
    ensures forall b: nat {:trigger Done(w, 1, b)} :: 1 <= b < |w.heap| ==> Done(w, 1, b)
  {
    hide Done;
  }

  /** The return put at the end finishes the last block. */
  lemma ReturnAdded(v: Visitor, w: Visitor)
    requires Shape(v, w) && |v.heap| == 1 && v.curblock == Some(0) && w.curblock.Some?
    requires w.blocks != [] && w.blocks[0] == 0 && Preds(w, 0) == []
    ensures Built(PushBack(w, Ret(NoOperand)))
  {
    hide Ext, Sourced, Dual, Ordered, Indexed, EntryOk, TailOk, Done, PushTo, Settled;
    var c, z := w.curblock.value, PushBack(w, Ret(NoOperand));
    PushSteps(w, c, Ret(NoOperand), 1, v.curblock);
    assert z.heap[c].body[..|z.heap[c].body| - 1] == w.heap[c].body;
    OneWayTail(z, 1, c);
    assert z.blocks == w.blocks by { PushKeepsBlocks(w, c, Ret(NoOperand)); }
    FilledPredsOf(w, z, c);
    AddedSettled(w, z, c);
    if c != 0 { TailStays(w, z, {}, {c}, {}, 1, 1, 0); }
  }

  lemma PushKeepsBlocks(w: Visitor, c: nat, n: Node)
    ensures PushTo(w, c, n).blocks == w.blocks
  {}

  lemma FilledPredsOf(w: Visitor, z: Visitor, c: nat)
    requires Ext(w, z, {}, {c}, {}) && |w.heap| > 0
    ensures Preds(z, 0) == Preds(w, 0)
  {
    assert w.heap[0] == w.heap[0];
  }

  lemma AddedSettled(w: Visitor, z: Visitor, c: nat)
    requires Sound(w) && Ext(w, z, {}, {c}, {}) && |z.heap| == |w.heap| && Settled(w, 1, |w.heap|, Some(c))
    requires TailOk(z, 1, c) && (c != 0 ==> EntryOk(w, 1, c))
    ensures forall b: nat {:trigger Done(z, 1, b)} :: 1 <= b < |z.heap| ==> Done(z, 1, b)
  {
    hide Ext, Dual, Ordered, Indexed, EntryOk, TailOk, Done;
    SettledStays(w, z, {}, {c}, {}, 1, 1, Some(c));
    if c != 0 {
      EntryStays(w, z, {}, {c}, {}, 1, 1, c);
      DoneFrom(z, 1, c);
    }
  }

  // ---- what finished blocks amount to -----------------------------------------------------------

  lemma EdgesPlaced(v: Visitor, u: nat, t: nat)
    requires Built(v) && t in Succs(v, u)
    ensures u in Preds(v, t) && Placed(v, u) && Placed(v, t) && t >= 1 && Headed(v, 1, u, t)
  {
    hide Headed, TailOk, Indexed;
    assert multiset(Succs(v, u))[t] == multiset(Preds(v, t))[u];
    assert t in multiset(Succs(v, u));
    assert u in multiset(Preds(v, t));
    assert Done(v, 1, t);
    assert Headed(v, 1, u, t);
  }

  lemma PlacedDone(v: Visitor, b: nat)
    requires Built(v) && Placed(v, b)
    ensures TailOk(v, 1, b) && (b >= 1 ==> EntryOk(v, 1, b))
  {
    hide TailOk, EntryOk;
    if b >= 1 { assert Done(v, 1, b); }
  }

  lemma BuiltChecks(v: Visitor)
    requires Built(v)
    ensures ChecksPass(v)
  {
    hide Dual, Headed, Terminated;
    forall k: nat | k < |v.blocks| ensures FansOut(v, v.blocks[k]) {
      assert Placed(v, v.blocks[k]);
      PlacedDone(v, v.blocks[k]);
      assert forall j {:trigger Succs(v, v.blocks[k])[j]} :: 0 <= j < |Succs(v, v.blocks[k])| ==>
          Succs(v, v.blocks[k])[j] in Succs(v, v.blocks[k]);
    }
    forall k: nat | 1 <= k < |v.blocks| ensures Preds(v, v.blocks[k]) != [] && Idx(v, Preds(v, v.blocks[k])[0]) < k {
      var b := v.blocks[k];
      assert v.heap[b].idx == k && v.heap[0].idx == 0;
      PlacedDone(v, b);
      assert Preds(v, b) != [];
    }
  }

  lemma BuiltGraph(v: Visitor)
    requires Built(v)
    ensures GraphOf(v).Valid()
    ensures forall x: nat, y: nat {:trigger GraphOf(v).Edge(x, y)} :: GraphOf(v).Edge(x, y) <==>
      x < |v.blocks| && y < |v.blocks| && v.blocks[y] in Succs(v, v.blocks[x])
  {
    hide Dual, Ordered, TailOk, Done, Headed;
    var g := GraphOf(v);
    forall x: nat, k: nat | x < |v.blocks| && k < |g.succs[x]|
      ensures g.succs[x][k] < |v.blocks| && v.blocks[g.succs[x][k]] == Succs(v, v.blocks[x])[k]
    {
      var t := Succs(v, v.blocks[x])[k];
      assert t in Succs(v, v.blocks[x]);
      EdgesPlaced(v, v.blocks[x], t);
      assert v.heap[t] == v.heap[t];
    }
    forall x: nat, y: nat | x < |v.blocks| && y < |v.blocks| && v.blocks[y] in Succs(v, v.blocks[x]) ensures g.Edge(x, y) {
      var k :| 0 <= k < |Succs(v, v.blocks[x])| && Succs(v, v.blocks[x])[k] == v.blocks[y];
      assert g.succs[x][k] == IndexOf(v, v.blocks[y]) == y;
    }
    forall x: nat, y: nat | g.Edge(x, y) ensures x < |v.blocks| && y < |v.blocks| && v.blocks[y] in Succs(v, v.blocks[x]) {
      var k :| 0 <= k < |g.succs[x]| && g.succs[x][k] == y;
    }
  }

  /** A path that ends inside a region has passed through the region's entrance. */
  lemma {:induction false} RegionEntered(v: Visitor, t: nat, r: set<nat>, p: seq<nat>, x: nat)
    requires Built(v) && Region(v, 1, t, r) && Placed(v, t) && x < |v.blocks| && v.blocks[x] in r && GraphOf(v).EntryPath(p, x)
    ensures v.heap[t].idx in p
    decreases |p|
  {
    hide Dual, Ordered, TailOk, Done;
    if v.blocks[x] == t { assert p[|p| - 1] == x && v.heap[t].idx == x; }
    else {
      assert |p| >= 2 by { assert v.blocks[0] == 0 && 0 !in r; }
      var y, q := p[|p| - 2], p[..|p| - 1];
      BuiltGraph(v);
      assert GraphOf(v).Edge(p[|p| - 2], p[|p| - 1]);
      EdgesPlaced(v, v.blocks[y], v.blocks[x]);
      assert v.blocks[y] in r;
      G.EntryPathPrefix(GraphOf(v), p, |p| - 2);
      RegionEntered(v, t, r, q, y);
      assert forall i :: i in q ==> i in p;
    }
  }

  lemma BackEdgesDominated(v: Visitor, u: nat, t: nat)
    requires Built(v) && t in Succs(v, u) && IndexOf(v, t) <= IndexOf(v, u)
    ensures GraphOf(v).Dominates(IndexOf(v, t), IndexOf(v, u))
  {
    hide Dual, Ordered, TailOk, Done;
    EdgesPlaced(v, u, t);
    var r :| Region(v, 1, t, r) && u in r;
    assert v.heap[u] == v.heap[u];
    forall p | GraphOf(v).EntryPath(p, IndexOf(v, u)) ensures IndexOf(v, t) in p {
      RegionEntered(v, t, r, p, IndexOf(v, u));
    }
  }

  lemma BuiltWell(v: Visitor)
    requires Built(v)
    ensures WellBuilt(v)
  {
    hide Dual, Ordered, Indexed, Done, ChecksPass, EntryOk;
    BuiltChecks(v);
    BuiltGraph(v);
    forall b: nat | Placed(v, b) ensures Terminated(v.heap[b]) { PlacedDone(v, b); }
    forall u: nat, t: nat {:trigger t in Succs(v, u)} | t in Succs(v, u) ensures Placed(v, u) && Placed(v, t) { EdgesPlaced(v, u, t); }
    forall u: nat, t: nat {:trigger t in Succs(v, u)} | t in Succs(v, u) && IndexOf(v, t) <= IndexOf(v, u)
      ensures GraphOf(v).Dominates(IndexOf(v, t), IndexOf(v, u))
    {
      BackEdgesDominated(v, u, t);
    }
  }

  // ---- for every function -------------------------------------------------------------------------

  /** Every graph the code finishes has the whole shape. */
  lemma AcceptedIsWellBuilt(inFunction: bool, body: seq<Stmt>)
    requires Accepts(body, inFunction, false, false, true)
    ensures WellBuilt(ComputeCFG(inFunction, body))
  {
    hide Built, WellBuilt, ComputeCFG, Accepts;
    BuiltBlocks(inFunction, body);
    BuiltWell(ComputeCFG(inFunction, body));
  }

  /** There are no dead blocks: each has a predecessor before it, which is reached in turn. */
  lemma {:induction false} NoDeadBlocks(v: Visitor, x: nat)
    requires WellBuilt(v) && x < |v.blocks|
    ensures GraphOf(v).Reachable(x)
  {
    hide Dual, Terminated, Indexed;
    var g := GraphOf(v);
    if x == 0 {
      assert g.EntryPath([0], 0);
    } else {
      var t := v.blocks[x];
      var u := Preds(v, t)[0];
      assert u in Preds(v, t);
      PredecessorPlaced(v, u, t);
      IndexNames(v, u, t);
      BlockAt(v, x);
      var y := IndexOf(v, u);
      assert g.Edge(y, x) by {
        var k :| 0 <= k < |Succs(v, u)| && Succs(v, u)[k] == t;
        assert g.succs[y][k] == x;
      }
      assert y < x by { assert Idx(v, u) == y; }
      NoDeadBlocks(v, y);
      var p :| g.EntryPath(p, y);
      G.EntryPathExtends(g, p, y, x);
    }
  }

  /** So the traversal order of a whole lowered function, begun at block 0, never gives up. */
  lemma WholeFunctionFound(inFunction: bool, body: seq<Stmt>)
    requires Accepts(body, inFunction, false, false, true)
    ensures var g := GraphOf(ComputeCFG(inFunction, body)); O.Found(g, G.Blocks(g), {}, O.At(0))
  {
    hide ComputeCFG, Accepts, WellBuilt, GraphOf;
    var v := ComputeCFG(inFunction, body);
    var g := GraphOf(v);
    AcceptedIsWellBuilt(inFunction, body);
    assert |g.succs| == |v.blocks| by { GraphSize(v); }
    forall b: nat | b in G.Blocks(g) ensures O.Begins({}, O.At(0), b) || O.Reached(g, {0}, b) {
      NoDeadBlocks(v, b);
      var p :| g.EntryPath(p, b);
      if |p| >= 2 { assert O.ReachedBy(g, {0}, p, b); }
    }
  }

  lemma GraphSize(v: Visitor)
    ensures |GraphOf(v).succs| == |v.blocks|
  {}

  /** Going round a cycle, some step does not go forward; its target dominates its source. */
  lemma WellBuiltHeaders(v: Visitor)
    requires WellBuilt(v)
    ensures T.CyclesHaveHeaders(GraphOf(v))
  {
    hide Dual, ChecksPass, Terminated;
    var g := GraphOf(v);
    forall c | T.Cycle(g, c) ensures exists i :: 0 <= i < |c| - 1 && g.Dominates(c[i + 1], c[i]) {
      var i := StepBack(c);
      assert g.Edge(c[i], c[i + 1]);
      var k :| 0 <= k < |g.succs[c[i]]| && g.succs[c[i]][k] == c[i + 1];
      var u := v.blocks[c[i]];
      var t := Succs(v, u)[k];
      assert t in Succs(v, u) && v.heap[u].idx == c[i] && IndexOf(v, t) == c[i + 1];
    }
  }

  lemma StepBack(c: seq<nat>) returns (i: nat)
    requires |c| >= 2 && c[0] == c[|c| - 1]
    ensures i < |c| - 1 && c[i + 1] <= c[i]
  {
    i := 0;
    while i < |c| - 2 && c[i] < c[i + 1]
      invariant i <= |c| - 2 && c[0] <= c[i] && (i > 0 ==> c[0] < c[i])
    {
      i := i + 1;
    }
  }

  /** So the definedness solver halts on every function the code lowers, whatever its blocks store. */
  lemma SolverHaltsOnLowered(inFunction: bool, body: seq<Stmt>, p: P.Problem)
    requires Accepts(body, inFunction, false, false, true)
    requires p.g == GraphOf(ComputeCFG(inFunction, body)) && |p.stores| == |p.g.succs|
    ensures p.Valid() && T.Halts(p)
  {
    hide ComputeCFG, Accepts, WellBuilt;
    var v := ComputeCFG(inFunction, body);
    AcceptedIsWellBuilt(inFunction, body);
    WellBuiltHeaders(v);
    assert p.Valid() by { assert WellBuilt(v); GraphIsValid(v); }
    T.HeadersMakeCalm(p);
    T.HaltsIffCalm(p);
  }

  lemma GraphIsValid(v: Visitor)
    requires WellBuilt(v)
    ensures GraphOf(v).Valid()
  {}

  /** computeCFG fails no assert and passes its own final checks exactly on the statements that
      `Accepts` describes. */
  lemma SucceedsIffAccepted(inFunction: bool, body: seq<Stmt>)
    ensures var v := ComputeCFG(inFunction, body);
      !v.failed && ChecksPass(v) <==> Accepts(body, inFunction, false, false, true)
  {
    if Accepts(body, inFunction, false, false, true) { AcceptedIsWellBuilt(inFunction, body); }
    else { RejectedFails(inFunction, body); }
  }

  lemma RejectedFails(inFunction: bool, body: seq<Stmt>)
    requires !Accepts(body, inFunction, false, false, true)
    ensures var v := ComputeCFG(inFunction, body); v.failed || !ChecksPass(v)
  {
    hide VisitAll, Accepts, Ready, PushBack, ChecksPass;
    var w, v := VisitAll(body, Start(inFunction)), ComputeCFG(inFunction, body);
    StartReady(inFunction);
    VisitAllDooms(body, Start(inFunction));
    PushLasts(w, 0, Ret(NoOperand), 0);
    if !w.failed {
      var b :| b >= 1 && Orphan(w, b);
      PushLasts(w, 0, Ret(NoOperand), b);
      OrphanRefused(v, b);
    }
  }

  lemma OrphanRefused(v: Visitor, b: nat)
    requires Orphan(v, b)
    ensures !ChecksPass(v)
  {
    assert v.blocks[v.heap[b].idx] == b;
  }

  /** Legal statements are among the rejected ones: a `while` that is never broken out of and whose
      else arm never falls through leaves its exit block, which is placed all the same, without a
      predecessor, and the final checks refuse that. */
  lemma UnleftWhileRejected(inFunction: bool, test: nat, body: seq<Stmt>, orelse: seq<Stmt>)
    requires !Breaks(body) && !Falls(orelse)
    ensures var v := ComputeCFG(inFunction, [While(test, body, orelse)]); v.failed || !ChecksPass(v)
  {
    var ss := [While(test, body, orelse)];
    assert !AcceptsOne(ss[0], inFunction, false, false, true);
    hide Accepts, AcceptsOne;
    assert !Accepts(ss, inFunction, false, false, true) by { NotAccepted(ss, inFunction); }
    SucceedsIffAccepted(inFunction, ss);
  }

  lemma NotAccepted(ss: seq<Stmt>, inFunction: bool)
    requires ss != [] && !AcceptsOne(ss[0], inFunction, false, false, true)
    ensures !Accepts(ss, inFunction, false, false, true)
  {}

  /** The smallest one: every assert of the lowering holds, its run is a plain return, and yet
      computeCFG refuses it. */
  lemma RejectedExample()
    ensures var ss := [While(0, [Simple(1)], [Return(Some(2))])];
      && !ComputeCFG(true, ss).failed && !ChecksPass(ComputeCFG(true, ss))
      && RunAll(ss, [0, 7]).outcome == Returned(Of(7))
  {
    var ss := [While(0, [Simple(1)], [Return(Some(2))])];
    UnleftWhileRejected(true, 0, [Simple(1)], [Return(Some(2))]);
    ExampleRuns(ss);
    hide ChecksPass;
    var v, w := Start(true), AfterExampleBody();
    ExampleBody(v);
    ExampleElse(v, w);
    hide WhileBody, WhileEndBody, WhileOrelse, WhileEnd, Start;
    VisitOne(Simple(1), WhileBody(v));
    VisitOne(Return(Some(2)), WhileOrelse(0, v, w));
    VisitOne(ss[0], v);
  }

  lemma VisitOne(s: Stmt, v: Visitor)
    ensures VisitAll([s], v) == Visit(s, v)
  {
    assert VisitAll([s], v) == VisitAll([s][1..], Visit(s, v));
  }

  lemma ExampleRuns(ss: seq<Stmt>)
    requires ss == [While(0, [Simple(1)], [Return(Some(2))])]
    ensures RunAll(ss, [0, 7]).outcome == Returned(Of(7))
  {
    var arm := ss[0].orelse;
    assert [0, 7][1..] == [7];
    assert RunStmt(arm[0], [7]) == Source.Result(Returned(Of(7)), [Evaluated(2, 7)], []);
    assert RunAll(arm, [7]).outcome == Returned(Of(7));
    assert RunLoop(ss[0], [0, 7]).outcome == Returned(Of(7));
    assert RunStmt(ss[0], [0, 7]).outcome == Returned(Of(7));
  }

  function AfterExampleBody(): Visitor {
    Visitor(true,
      [Block([Jump(1)], [], [1], 0), Block([], [0, 3], [3], 1), Block([], [], [], -1), Block([Do(Plain(1)), Jump(1)], [1], [1], 2)],
      [0, 1, 3], Some(3), [], [], false)
  }

  function InExampleBody(): Visitor {
    Visitor(true,
      [Block([Jump(1)], [], [1], 0), Block([], [0], [3], 1), Block([], [], [], -1), Block([], [1], [], 2)],
      [0, 1, 3], Some(3), [LoopInfo(1, 2)], [], false)
  }

  lemma ExampleBody(v: Visitor)
    requires v == Start(true)
    ensures v.curblock == Some(0) && |v.heap| == 1
    ensures WhileEndBody(v, PushBack(WhileBody(v), Do(Plain(1)))) == AfterExampleBody()
  {
    assert v == Visitor(true, [Block([], [], [], 0)], [0], Some(0), [], [], false);
    hide Start, WhileEndBody, PushBack;
    ExampleTest(v);
    hide WhileBody;
    ExampleEnd(v);
  }

  lemma ExampleTest(v: Visitor)
    requires v == Visitor(true, [Block([], [], [], 0)], [0], Some(0), [], [], false)
    ensures WhileBody(v) == InExampleBody()
  {
    var test := JumpTo(AddBlock(v), 1, false);
    assert test.heap[0].body == [Jump(1)] && test.heap[0].successors == [1] && test.heap[1].predecessors == [0];
    assert test.heap == [Block([Jump(1)], [], [1], 0), Block([], [0], [], 1)] && test.blocks == [0, 1] && !test.failed;
    assert AddBlock(v).heap == [Block([], [], [], 0), Block([], [], [], 1)];
    hide JumpTo;
    ExampleEnter(At(test, 1));
  }

  lemma ExampleEnter(v: Visitor)
    requires v.heap == [Block([Jump(1)], [], [1], 0), Block([], [0], [], 1)] && v.blocks == [0, 1] && v.curblock == Some(1)
    requires v.inFunction && v.loops == [] && v.returnDests == [] && !v.failed
    ensures EnterNew(PushLoop(AddDeferredBlock(v), 1, 2), 1) == InExampleBody()
  {
    var entered := EnterNew(PushLoop(AddDeferredBlock(v), 1, 2), 1);
    assert entered.heap[1].successors == [3] && entered.heap[3].predecessors == [1];
    assert entered.heap == InExampleBody().heap;
  }

  lemma ExampleEnd(v: Visitor)
    requires |v.heap| == 1
    ensures WhileEndBody(v, PushBack(InExampleBody(), Do(Plain(1)))) == AfterExampleBody()
  {
    var w := WhileEndBody(v, PushBack(InExampleBody(), Do(Plain(1))));
    assert w.heap[3].body == [Do(Plain(1)), Jump(1)] && w.heap[3].successors == [1] && w.heap[1].predecessors == [0, 3];
    assert w.heap == AfterExampleBody().heap;
  }

  lemma ExampleElse(v: Visitor, w: Visitor)
    requires |v.heap| == 1 && w == AfterExampleBody()
    ensures !PushBack(WhileEnd(v, Visit(Return(Some(2)), WhileOrelse(0, v, w))), Ret(NoOperand)).failed
  {
    var e := WhileOrelse(0, v, w);
    assert e.heap[1].body == [Branch(Test(0), 3, 4)] && e.heap[1].successors == [3, 4] && e.heap[4].predecessors == [1];
    assert e.heap == [Block([Jump(1)], [], [1], 0), Block([Branch(Test(0), 3, 4)], [0, 3], [3, 4], 1), Block([], [], [], -1),
                      Block([Do(Plain(1)), Jump(1)], [1], [1], 2), Block([], [1], [], 3)];
    assert e.curblock == Some(4) && !e.failed && e.inFunction && e.returnDests == [];
    var r := Visit(Return(Some(2)), e);
    assert r.curblock == None && |r.heap| == 5 && r.heap[2] == e.heap[2] && !r.failed;
  }

  // ---- what the analyses are given ------------------------------------------------------------------

  /** The finished graph as the analyses read it; what its statements access is left open. */
  function FunctionOf(v: Visitor, bodies: seq<seq<B.Stmt>>, arguments: B.Arguments): B.Function
    requires |bodies| == |v.blocks|
  {
    B.Function(
      seq(|v.blocks|, k requires 0 <= k < |v.blocks| =>
        B.Block(bodies[k], Indices(v, Preds(v, v.blocks[k])), Indices(v, Succs(v, v.blocks[k])))),
      arguments)
  }

  /** An index listed for a block of a well-built graph is that block's. */
  lemma IndexNames(v: Visitor, u: nat, t: nat)
    requires WellBuilt(v) && Placed(v, u)
    ensures IndexOf(v, u) < |v.blocks| && v.blocks[IndexOf(v, u)] == u
    ensures t in Succs(v, u) <==> u in Preds(v, t)
  {
    hide ChecksPass, Terminated;
    assert v.heap[u] == v.heap[u];
    assert multiset(Succs(v, u))[t] == multiset(Preds(v, t))[u];
    assert t in Succs(v, u) <==> t in multiset(Succs(v, u));
    assert u in Preds(v, t) <==> u in multiset(Preds(v, t));
  }

  lemma PredecessorPlaced(v: Visitor, u: nat, t: nat)
    requires WellBuilt(v) && u in Preds(v, t)
    ensures Placed(v, u) && t in Succs(v, u)
  {
    hide ChecksPass, Terminated, Indexed, GraphOf;
    assert multiset(Succs(v, u))[t] == multiset(Preds(v, t))[u];
    assert u in multiset(Preds(v, t));
    assert t in multiset(Succs(v, u));
    assert t in Succs(v, u);
  }

  lemma BlockAt(v: Visitor, b: nat)
    requires WellBuilt(v) && b < |v.blocks|
    ensures Placed(v, v.blocks[b]) && IndexOf(v, v.blocks[b]) == b
  {
    hide ChecksPass, Terminated, Dual;
  }

  lemma SuccessorsNamed(v: Visitor, bodies: seq<seq<B.Stmt>>, arguments: B.Arguments, b: nat, i: nat)
    requires WellBuilt(v) && |bodies| == |v.blocks| && b < |v.blocks| && i < |Succs(v, v.blocks[b])|
    ensures var f, t := FunctionOf(v, bodies, arguments), Succs(v, v.blocks[b])[i];
      && f.blocks[b].successors[i] < |v.blocks| && v.blocks[f.blocks[b].successors[i]] == t
      && f.blocks[f.blocks[b].successors[i]].predecessors == Indices(v, Preds(v, t))
  {
    hide ChecksPass, Terminated, Indexed, Dual;
    var u, t := v.blocks[b], Succs(v, v.blocks[b])[i];
    assert t in Succs(v, u);
    IndexNames(v, t, t);
  }

  /** Predecessor lists name blocks that do lead there. */
  lemma PredecessorsNamed(v: Visitor, bodies: seq<seq<B.Stmt>>, arguments: B.Arguments, b: nat, i: nat)
    requires WellBuilt(v) && |bodies| == |v.blocks| && b < |v.blocks| && i < |Preds(v, v.blocks[b])|
    ensures var f := FunctionOf(v, bodies, arguments);
      var x := f.blocks[b].predecessors[i]; x < |v.blocks| && b in f.blocks[x].successors
  {
    hide ChecksPass, Terminated, Indexed, Dual;
    var u, t := Preds(v, v.blocks[b])[i], v.blocks[b];
    assert u in Preds(v, t);
    PredecessorPlaced(v, u, t);
    IndexNames(v, u, t);
    BlockAt(v, b);
    var k :| 0 <= k < |Succs(v, u)| && Succs(v, u)[k] == t;
    var f := FunctionOf(v, bodies, arguments);
    assert f.blocks[IndexOf(v, u)].successors[k] == b;
  }

  /** The analyses' preconditions hold of every graph the code finishes: the phi sets may ask one
      predecessor only, and the definedness solver halts with the exact answer. */
  lemma LoweredSuitsAnalyses(inFunction: bool, body: seq<Stmt>, bodies: seq<seq<B.Stmt>>, arguments: B.Arguments)
    requires Accepts(body, inFunction, false, false, true)
    requires |bodies| == |ComputeCFG(inFunction, body).blocks|
    ensures var f := FunctionOf(ComputeCFG(inFunction, body), bodies, arguments);
      H.WellShaped(f) && T.Calm(D.ProblemOf(f))
  {
    hide ComputeCFG, Accepts, WellBuilt, D.BlockSets, T.Calm;
    var v := ComputeCFG(inFunction, body);
    var f := FunctionOf(v, bodies, arguments);
    AcceptedIsWellBuilt(inFunction, body);
    WellBuiltHeaders(v);
    GraphIsValid(v);
    WellShapedFunction(v, bodies, arguments);
    assert D.ProblemOf(f).g == GraphOf(v);
    T.HeadersMakeCalm(D.ProblemOf(f));
  }

  lemma WellShapedFunction(v: Visitor, bodies: seq<seq<B.Stmt>>, arguments: B.Arguments)
    requires WellBuilt(v) && |bodies| == |v.blocks|
    ensures H.WellShaped(FunctionOf(v, bodies, arguments))
  {
    hide FunctionOf, WellBuilt, L.Edge;
    var f := FunctionOf(v, bodies, arguments);
    forall b, i | 0 <= b < |f.blocks| && 0 <= i < |f.blocks[b].successors|
      ensures f.blocks[b].successors[i] < |f.blocks|
      ensures |f.blocks[b].successors| >= 2 ==> |f.blocks[f.blocks[b].successors[i]].predecessors| < 2
    {
      SuccessorShaped(v, bodies, arguments, b, i);
    }
    assert L.ValidSuccessors(f);
    forall b, i | 0 <= b < |f.blocks| && 0 <= i < |f.blocks[b].predecessors| ensures L.Edge(f, f.blocks[b].predecessors[i], b) {
      PredecessorShaped(v, bodies, arguments, b, i);
    }
  }

  lemma SuccessorShaped(v: Visitor, bodies: seq<seq<B.Stmt>>, arguments: B.Arguments, b: nat, i: nat)
    requires WellBuilt(v) && |bodies| == |v.blocks|
    requires var f := FunctionOf(v, bodies, arguments); b < |f.blocks| && i < |f.blocks[b].successors|
    ensures var f := FunctionOf(v, bodies, arguments);
      && f.blocks[b].successors[i] < |f.blocks|
      && (|f.blocks[b].successors| >= 2 ==> |f.blocks[f.blocks[b].successors[i]].predecessors| < 2)
  {
    hide Terminated, Indexed, Dual;
    SuccessorsNamed(v, bodies, arguments, b, i);
    assert FansOut(v, v.blocks[b]);
  }

  lemma PredecessorShaped(v: Visitor, bodies: seq<seq<B.Stmt>>, arguments: B.Arguments, b: nat, i: nat)
    requires WellBuilt(v) && |bodies| == |v.blocks|
    requires var f := FunctionOf(v, bodies, arguments); b < |f.blocks| && i < |f.blocks[b].predecessors|
    ensures var f := FunctionOf(v, bodies, arguments); L.Edge(f, f.blocks[b].predecessors[i], b)
  {
    hide WellBuilt;
    PredecessorsNamed(v, bodies, arguments, b, i);
  }
}
