/** Which nodes each visit leaves where, in every graph that contains its result. */
module LoweringNodes {
  import opened Commons
  import opened Source
  import opened Lowering
  import opened LoweringFrame

  function Body(v: Visitor, b: nat): seq<Node> {
    if b < |v.heap| then v.heap[b].body else []
  }

  predicate NodeAt(g: seq<Block>, b: nat, pos: nat, n: Node) {
    b < |g| && pos < |g[b].body| && g[b].body[pos] == n
  }

  /** g contains, as a prefix of its own bodies, block b of w and all of w's blocks from lo on. */
  ghost predicate Includes(g: seq<Block>, w: Visitor, lo: nat, b: nat) {
    && |w.heap| <= |g|
    && forall i: nat {:trigger IncludedAt(g, w, i)} :: (lo <= i || i == b) ==> IncludedAt(g, w, i)
  }

  ghost predicate IncludedAt(g: seq<Block>, w: Visitor, i: nat)
    requires |w.heap| <= |g|
  {
    i < |w.heap| ==> w.heap[i].body <= g[i].body
  }

  /** w comes after x: nothing recorded in x's blocks was lost. */
  ghost predicate Later(x: Visitor, w: Visitor) {
    && (x.failed ==> w.failed)
    && |x.heap| <= |w.heap|
    && forall i {:trigger LaterAt(x, w, i)} :: 0 <= i < |x.heap| ==> LaterAt(x, w, i)
  }

  ghost predicate LaterAt(x: Visitor, w: Visitor, i: int)
    requires |x.heap| <= |w.heap|
  {
    0 <= i < |x.heap| ==> Kept(x.heap[i], w.heap[i], true)
  }

  lemma FrameLater(x: Visitor, w: Visitor, open: Option<nat>)
    requires Frame(x, w, open)
    ensures Later(x, w)
  {
    forall i | 0 <= i < |x.heap| ensures LaterAt(x, w, i) {
      assert KeptAt(x.heap, w.heap, open, i);
    }
  }

  lemma LaterTrans(x: Visitor, w: Visitor, z: Visitor)
    requires Later(x, w) && Later(w, z)
    ensures Later(x, z)
  {
    forall i | 0 <= i < |x.heap| ensures LaterAt(x, z, i) {
      assert LaterAt(x, w, i) && LaterAt(w, z, i);
    }
  }

  lemma LaterRefl(x: Visitor)
    ensures Later(x, x)
  {}

  lemma IncludesEarlier(g: seq<Block>, x: Visitor, w: Visitor, lo: nat, b: nat, lo': nat, b': nat)
    requires Includes(g, w, lo, b) && Later(x, w) && lo <= lo' && (b' == b || b' >= lo)
    ensures Includes(g, x, lo', b')
  {
    forall i: nat | lo' <= i || i == b' ensures IncludedAt(g, x, i) {
      assert IncludedAt(g, w, i) && LaterAt(x, w, i);
    }
  }

  lemma NodeStays(g: seq<Block>, x: Visitor, lo: nat, b: nat, c: nat, pos: nat)
    requires Includes(g, x, lo, b) && (c == b || c >= lo) && pos < |Body(x, c)|
    ensures NodeAt(g, c, pos, Body(x, c)[pos])
  {
    assert IncludedAt(g, x, c);
  }

  /** A block that is not opened keeps its body. */
  lemma BodyStays(x: Visitor, w: Visitor, open: Option<nat>, b: nat)
    requires Frame(x, w, open) && b < |x.heap| && open != Some(b)
    ensures Body(w, b) == Body(x, b)
  {
    assert KeptAt(x.heap, w.heap, open, b);
  }

  lemma PredecessorsStay(x: Visitor, w: Visitor, b: nat)
    requires Later(x, w) && HasPredecessors(x, b)
    ensures HasPredecessors(w, b)
  {
    assert LaterAt(x, w, b);
  }

  // ---- primitives -------------------------------------------------------------------------

  lemma PushNode(v: Visitor, n: Node)
    requires v.curblock.Some? && ValidCur(v)
    ensures Body(PushBack(v, n), v.curblock.value) == Body(v, v.curblock.value) + [n]
  {}

  lemma JumpNode(v: Visitor, t: nat, allow: bool)
    requires v.curblock.Some? && ValidCur(v)
    ensures Body(JumpTo(v, t, allow), v.curblock.value) == Body(v, v.curblock.value) + [Jump(t)]
    ensures !JumpTo(v, t, allow).failed ==> HasPredecessors(JumpTo(v, t, allow), t)
  {}

  lemma EnterNode(v: Visitor, u: nat)
    ensures Body(EnterNew(v, u), |v.heap|) == []
    ensures u < |v.heap| ==> Body(EnterNew(v, u), u) == Body(v, u)
  {}

  lemma PushToNode(v: Visitor, b: nat, n: Node)
    requires b < |v.heap|
    ensures Body(PushTo(v, b, n), b) == Body(v, b) + [n]
  {}

  lemma PlaceNode(v: Visitor, b: nat, c: nat)
    ensures Body(PlaceBlock(v, b), c) == Body(v, c)
    ensures HasPredecessors(PlaceBlock(v, b), c) == HasPredecessors(v, c)
  {}

  lemma AddNode(v: Visitor, c: nat)
    ensures Body(AddBlock(v), c) == Body(v, c) && Body(AddDeferredBlock(v), c) == Body(v, c)
  {}

  // ---- if ---------------------------------------------------------------------------------

  /** The states an `if` goes through, and the nodes they leave. */
  datatype IfStates = IfStates(v: Visitor, w: Visitor, after: Visitor, e: Visitor, x: Visitor, y: Visitor, z: Visitor)

  function StatesOfIf(s: Stmt, v: Visitor): IfStates
    requires s.If? && v.curblock.Some?
  {
    var w := VisitAll(s.body, IfBody(v));
    var after := JumpTo(w, |v.heap|, false);
    var e := IfOrelse(s.test, v, after);
    var x := VisitAll(s.orelse, e);
    var y := JumpTo(x, |v.heap|, false);
    IfStates(v, w, after, e, x, y, CloseIf(y, |v.heap|))
  }

  ghost predicate IfFrames(s: Stmt, t: IfStates)
    requires t.v.curblock.Some?
  {
    && Visited(IfBody(t.v), t.w) && Frame(t.w, t.after, t.w.curblock) && Frame(t.v, t.after, t.v.curblock)
    && Frame(t.after, t.e, t.v.curblock) && Branched(t.after, t.e) && Visited(t.e, t.x)
    && Frame(t.x, t.y, t.x.curblock) && Frame(t.y, t.z, None) && Frame(t.x, t.z, t.x.curblock)
    && |t.after.heap| >= |t.v.heap| + 2 && SameScopes(t.v, t.after)
    && Frame(t.v, IfBody(t.v), t.v.curblock) && |IfBody(t.v).heap| == |t.v.heap| + 2
    && IfBody(t.v).curblock == Some(|t.v.heap| + 1) && SameScopes(t.v, IfBody(t.v))
  }

  lemma IfStatesFrames(s: Stmt, v: Visitor)
    requires s.If? && v.curblock.Some? && ValidCur(v)
    ensures IfFrames(s, StatesOfIf(s, v)) && Visit(s, v) == StatesOfIf(s, v).z
  {
    hide PushTo, PushBack, Connect, JumpTo, PlaceBlock, EnterNew, AddBlock, AddDeferredBlock, Grown, IfBody, IfOrelse;
    var t := StatesOfIf(s, v);
    IfBodyFrame(v);
    VisitAllFrame(s.body, IfBody(v));
    IfOrelseFrame(s.test, v, t.w);
    VisitAllFrame(s.orelse, t.e);
    IfEndFrame(s.test, v, t.after, t.x);
    JumpFrame(t.x, |v.heap|, false);
    PlaceFrame(t.y, |v.heap|);
    FrameRefl(t.y, None);
  }

  lemma IfStartBody(s: Stmt, v: Visitor)
    requires s.If? && v.curblock.Some? && ValidCur(v) && IfFrames(s, StatesOfIf(s, v))
    ensures var t := StatesOfIf(s, v);
      && Body(t.e, v.curblock.value) == Body(v, v.curblock.value) + [Branch(Test(s.test), |v.heap| + 1, |t.after.heap|)]
      && Body(t.e, |t.after.heap|) == [] && Body(IfBody(v), |v.heap| + 1) == [] && Body(t.z, |v.heap|) == []
  {
    hide PushTo, PushBack, Connect, JumpTo, PlaceBlock, EnterNew, AddBlock, AddDeferredBlock, Grown;
    var t := StatesOfIf(s, v);
    var u := v.curblock.value;
    AddNode(v, u); AddFrame(v);
    EnterNode(AddDeferredBlock(v), u);
    BodyStays(IfBody(v), t.w, IfBody(v).curblock, u);
    BodyStays(t.w, t.after, t.w.curblock, u);
    var n := Branch(Test(s.test), |v.heap| + 1, |t.after.heap|);
    PushToNode(t.after, u, n);
    PushToFrame(t.after, u, n);
    EnterNode(PushTo(t.after, u, n), u);
    IfExitBody(s, v);
  }

  lemma IfExitBody(s: Stmt, v: Visitor)
    requires s.If? && v.curblock.Some? && ValidCur(v) && IfFrames(s, StatesOfIf(s, v))
    ensures Body(StatesOfIf(s, v).z, |v.heap|) == []
  {
    hide PushTo, PushBack, Connect, JumpTo, PlaceBlock, EnterNew, AddBlock, Grown;
    var t := StatesOfIf(s, v);
    var exit := |v.heap|;
    assert Body(AddDeferredBlock(v), exit) == [];
    AddFrame(v);
    EnterFrame(AddDeferredBlock(v), v.curblock.value);
    BodyStays(AddDeferredBlock(v), IfBody(v), v.curblock, exit);
    BodyStays(IfBody(v), t.w, IfBody(v).curblock, exit);
    BodyStays(t.w, t.after, t.w.curblock, exit);
    BodyStays(t.after, t.e, v.curblock, exit);
    BodyStays(t.e, t.x, t.e.curblock, exit);
    BodyStays(t.x, t.z, t.x.curblock, exit);
  }

  /** Both arms' blocks are in g, the branch leads to them, and the exit starts empty. */
  lemma IfNodes(s: Stmt, v: Visitor, g: seq<Block>)
    requires s.If? && v.curblock.Some? && ValidCur(v)
    requires !Visit(s, v).failed && Includes(g, Visit(s, v), |v.heap|, v.curblock.value)
    ensures var t, u := StatesOfIf(s, v), v.curblock.value;
      && IfFrames(s, t) && Visit(s, v) == t.z && !t.z.failed
      && NodeAt(g, u, |Body(v, u)|, Branch(Test(s.test), |v.heap| + 1, |t.after.heap|))
      && Body(t.e, |t.after.heap|) == [] && Body(IfBody(v), |v.heap| + 1) == [] && Body(t.z, |v.heap|) == []
      && Later(t.w, t.after) && Later(t.after, t.z) && Later(t.x, t.y) && Later(t.y, t.z)
  {
    hide PushTo, PushBack, Connect, JumpTo, PlaceBlock, EnterNew, AddBlock, AddDeferredBlock, Grown, IfBody,
      IfOrelse, CloseIf, Includes, Visit, Later;
    var t, u := StatesOfIf(s, v), v.curblock.value;
    IfStatesFrames(s, v);
    IfStartBody(s, v);
    FrameLater(t.w, t.after, t.w.curblock);
    FrameLater(t.x, t.y, t.x.curblock);
    FrameLater(t.y, t.z, None);
    FrameTrans(t.e, t.x, t.z, t.e.curblock, t.x.curblock, t.e.curblock);
    FrameLater(t.e, t.z, t.e.curblock);
    FrameLater(t.after, t.e, v.curblock);
    LaterTrans(t.after, t.e, t.z);
    IncludesEarlier(g, t.e, t.z, |v.heap|, u, |v.heap|, u);
    NodeStays(g, t.e, |v.heap|, u, u, |Body(v, u)|);
  }

  // ---- while ------------------------------------------------------------------------------

  datatype LoopStates = LoopStates(v: Visitor, b: Visitor, w: Visitor, after: Visitor, e: Visitor, x: Visitor, z: Visitor)

  function StatesOfWhile(s: Stmt, v: Visitor): LoopStates
    requires s.While? && v.curblock.Some?
  {
    var b := WhileBody(v);
    var w := VisitAll(s.body, b);
    var after := WhileEndBody(v, w);
    var e := WhileOrelse(s.test, v, after);
    var x := VisitAll(s.orelse, e);
    LoopStates(v, b, w, after, e, x, WhileEnd(v, x))
  }

  /** Where each state of a loop stands relative to the one before; `test` is the opened test block. */
  ghost predicate WhileFrames(t: LoopStates)
    requires t.v.curblock.Some?
  {
    var n := |t.v.heap|;
    && Frame(t.v, t.b, t.v.curblock) && |t.b.heap| == n + 3 && t.b.curblock == Some(n + 2)
    && t.b.loops == t.v.loops + [LoopInfo(n, n + 1)] && t.b.returnDests == t.v.returnDests
    && Visited(t.b, t.w) && Frame(t.w, t.after, t.w.curblock) && SameScopes(t.v, t.after) && |t.after.heap| >= n + 3
    && Frame(t.after, t.e, Some(n)) && Branched(t.after, t.e) && Visited(t.e, t.x)
    && Frame(t.x, t.z, t.x.curblock)
  }

  lemma WhileStatesFrames(s: Stmt, v: Visitor)
    requires s.While? && v.curblock.Some? && ValidCur(v)
    ensures WhileFrames(StatesOfWhile(s, v)) && Visit(s, v) == StatesOfWhile(s, v).z
  {
    hide PushTo, PushBack, Connect, JumpTo, PlaceBlock, EnterNew, AddBlock, AddDeferredBlock, Grown, WhileBody,
      WhileEndBody, WhileOrelse, WhileEnd;
    var t := StatesOfWhile(s, v);
    WhileBodyFrame(v);
    VisitAllFrame(s.body, t.b);
    WhileOrelseFrame(s.test, v, t.w);
    VisitAllFrame(s.orelse, t.e);
    WhileEndFrame(s.test, v, t.after, t.x);
  }

  lemma WhileStart(v: Visitor)
    requires v.curblock.Some? && ValidCur(v)
    ensures var b, n, u := WhileBody(v), |v.heap|, v.curblock.value;
      Body(b, u) == Body(v, u) + [Jump(n)] && Body(b, n) == [] && Body(b, n + 1) == [] && Body(b, n + 2) == []
  {
    hide PushBack, Connect, JumpTo, EnterNew, AddBlock, AddDeferredBlock, Grown;
    var n, u := |v.heap|, v.curblock.value;
    var a := AddBlock(v);
    var j := JumpTo(a, n, false);
    var l := PushLoop(AddDeferredBlock(At(j, n)), n, n + 1);
    AddFrame(v);
    AddedBody(v); AddNode(v, u);
    JumpNode(a, n, false);
    JumpFrame(a, n, false);
    BodyStays(a, j, a.curblock, n);
    AddFrame(At(j, n)); AddNode(At(j, n), u); AddNode(At(j, n), n);
    AddedBody(At(j, n));
    EnterNode(l, n);
    EnterFrame(l, n);
    BodyStays(l, EnterNew(l, n), Some(n), u);
    BodyStays(l, EnterNew(l, n), Some(n), n + 1);
  }

  lemma AddedBody(v: Visitor)
    ensures Body(AddBlock(v), |v.heap|) == [] && Body(AddDeferredBlock(v), |v.heap|) == []
  {}

  /** The test block holds only its branch, and the exit block is still empty at the end. */
  lemma WhileTestBody(s: Stmt, v: Visitor)
    requires s.While? && v.curblock.Some? && ValidCur(v) && WhileFrames(StatesOfWhile(s, v))
    ensures var t, n := StatesOfWhile(s, v), |v.heap|;
      && Body(t.e, n) == [Branch(Test(s.test), n + 2, |t.after.heap|)]
      && Body(t.e, |t.after.heap|) == [] && Body(t.z, n + 1) == []
  {
    hide PushTo, PushBack, Connect, JumpTo, PlaceBlock, EnterNew, AddBlock, AddDeferredBlock, Grown, WhileBody,
      WhileEndBody, WhileEnd;
    var t, n := StatesOfWhile(s, v), |v.heap|;
    WhileStart(v);
    BodyStays(t.b, t.w, t.b.curblock, n);
    BodyStays(t.w, t.after, t.w.curblock, n);
    var br := Branch(Test(s.test), n + 2, |t.after.heap|);
    PushToNode(t.after, n, br);
    PushToFrame(t.after, n, br);
    EnterNode(PushTo(t.after, n, br), n);
    BodyStays(t.b, t.w, t.b.curblock, n + 1);
    BodyStays(t.w, t.after, t.w.curblock, n + 1);
    BodyStays(t.after, t.e, Some(n), n + 1);
    BodyStays(t.e, t.x, t.e.curblock, n + 1);
    BodyStays(t.x, t.z, t.x.curblock, n + 1);
  }

  lemma WhileNodes(s: Stmt, v: Visitor, g: seq<Block>)
    requires s.While? && v.curblock.Some? && ValidCur(v)
    requires !Visit(s, v).failed && Includes(g, Visit(s, v), |v.heap|, v.curblock.value)
    ensures var t, n, u := StatesOfWhile(s, v), |v.heap|, v.curblock.value;
      && WhileFrames(t) && Visit(s, v) == t.z
      && NodeAt(g, u, |Body(v, u)|, Jump(n)) && NodeAt(g, n, 0, Branch(Test(s.test), n + 2, |t.after.heap|))
      && Body(t.b, n + 2) == [] && Body(t.e, |t.after.heap|) == [] && Body(t.z, n + 1) == []
      && t.z.curblock == Some(n + 1)
      && Later(t.w, t.after) && Later(t.after, t.z) && Later(t.x, t.z) && !t.w.failed && !t.x.failed && !t.after.failed
  {
    hide PushTo, PushBack, Connect, JumpTo, EnterNew, AddBlock, AddDeferredBlock, Grown, WhileBody,
      WhileEndBody, WhileOrelse, Includes, Later, VisitAll, Visit;
    var t, n, u := StatesOfWhile(s, v), |v.heap|, v.curblock.value;
    WhileStatesFrames(s, v);
    WhileTestBody(s, v);
    WhileStart(v);
    FrameLater(t.w, t.after, t.w.curblock);
    FrameLater(t.x, t.z, t.x.curblock);
    WhileLater(t);
    IncludesEarlier(g, t.e, t.z, n, u, n, u);
    NodeStays(g, t.e, n, u, n, 0);
    IncludesEarlier(g, t.b, t.z, n, u, n, u);
    NodeStays(g, t.b, n, u, u, |Body(v, u)|);
    LaterUnfailed(t.w, t.after, t.z); LaterUnfailed(t.x, t.z, t.z);
  }

  lemma WhileLater(t: LoopStates)
    requires t.v.curblock.Some? && WhileFrames(t)
    ensures Later(t.e, t.z) && Later(t.after, t.z) && Later(t.b, t.z) && Later(t.z, t.z)
  {
    hide Grown, Later;
    FrameLater(t.e, t.x, t.e.curblock); FrameLater(t.x, t.z, t.x.curblock);
    LaterTrans(t.e, t.x, t.z);
    FrameLater(t.after, t.e, Some(|t.v.heap|));
    LaterTrans(t.after, t.e, t.z);
    FrameLater(t.b, t.w, t.b.curblock); FrameLater(t.w, t.after, t.w.curblock);
    LaterTrans(t.b, t.w, t.after); LaterTrans(t.b, t.after, t.z);
    LaterRefl(t.z);
  }

  lemma LaterUnfailed(x: Visitor, y: Visitor, z: Visitor)
    requires Later(x, y) && Later(y, z) && !z.failed
    ensures !x.failed && !y.failed
  {}

  // ---- for --------------------------------------------------------------------------------

  function StatesOfFor(s: Stmt, v: Visitor): LoopStates
    requires s.For? && v.curblock.Some?
  {
    var b := ForBody(s.id, s.iter, s.target, v);
    var w := VisitAll(s.body, b);
    var after := ForEndBody(s.id, v, w);
    var e := ForOrelse(v, after);
    var x := VisitAll(s.orelse, e);
    LoopStates(v, b, w, after, e, x, ForEnd(v, x))
  }

  ghost predicate ForFrames(t: LoopStates)
    requires t.v.curblock.Some?
  {
    var n := |t.v.heap|;
    && Frame(t.v, t.b, t.v.curblock) && |t.b.heap| == n + 6 && t.b.curblock == Some(n + 3)
    && t.b.loops == t.v.loops + [LoopInfo(n, n + 4)] && t.b.returnDests == t.v.returnDests
    && Visited(t.b, t.w) && Frame(t.w, t.after, t.w.curblock) && SameScopes(t.v, t.after) && |t.after.heap| >= n + 6
    && ForElseFrames(t)
  }

  ghost predicate ForElseFrames(t: LoopStates) {
    var n := |t.v.heap|;
    && Frame(t.after, t.e, None) && SameScopes(t.after, t.e) && t.e.curblock == Some(n + 5) && |t.e.heap| == |t.after.heap|
    && Visited(t.e, t.x) && Frame(t.x, t.z, t.x.curblock)
  }

  lemma VisitIsFor(s: Stmt, v: Visitor)
    requires s.For? && v.curblock.Some?
    ensures Visit(s, v) == StatesOfFor(s, v).z
  {}

  lemma ForStatesFrames(s: Stmt, v: Visitor)
    requires s.For? && v.curblock.Some? && ValidCur(v)
    ensures ForFrames(StatesOfFor(s, v)) && Visit(s, v) == StatesOfFor(s, v).z
  {
    hide ForBody, ForEndBody, ForOrelse, ForEnd, VisitAll, Visit, Grown, ForElseFrames;
    var t := StatesOfFor(s, v);
    ForBodyFrame(s.id, s.iter, s.target, v);
    VisitAllFrame(s.body, t.b);
    ForEndBodyFrame(s.id, s.iter, s.target, v, t.w);
    ForElseStates(s, t);
    VisitIsFor(s, v);
  }

  lemma ForElseStates(s: Stmt, t: LoopStates)
    requires s.For? && t.v.curblock.Some? && ValidCur(t.v) && Frame(t.v, t.after, t.v.curblock)
    requires SameScopes(t.v, t.after) && |t.after.heap| >= |t.v.heap| + 6
    requires t.e == ForOrelse(t.v, t.after) && t.x == VisitAll(s.orelse, t.e) && t.z == ForEnd(t.v, t.x)
    ensures ForElseFrames(t)
  {
    hide PlaceBlock, JumpTo, ForEnd, VisitAll, Grown;
    PlaceFrame(t.after, |t.v.heap| + 5);
    VisitAllFrame(s.orelse, t.e);
    ForEndFrame(t.v, t.after, t.x);
  }

  lemma ForkNode(v: Visitor, cond: Cond)
    requires v.curblock.Some? && ValidCur(v)
    ensures var f, u := Fork(v, cond), v.curblock.value;
      && Body(f, u) == Body(v, u) + [Branch(cond, |v.heap|, |v.heap| + 1)]
      && Body(f, |v.heap|) == [] && Body(f, |v.heap| + 1) == []
  {
    hide PushBack, Connect, AddBlock;
    var u, n := v.curblock.value, |v.heap|;
    var p := PushBack(v, Branch(cond, n, n + 1));
    PushNode(v, Branch(cond, n, n + 1)); PushFrame(v, Branch(cond, n, n + 1));
    var a := AddBlock(p);
    AddFrame(p); AddNode(p, u); AddedBody(p);
    var c := AddBlock(a);
    AddFrame(a); AddNode(a, u); AddNode(a, n); AddedBody(a);
    ConnectNode(c, u, n, false, u); ConnectNode(c, u, n, false, n); ConnectNode(c, u, n, false, n + 1);
    var d := Connect(c, u, n, false);
    ConnectNode(d, u, n + 1, false, u); ConnectNode(d, u, n + 1, false, n); ConnectNode(d, u, n + 1, false, n + 1);
  }

  lemma ConnectNode(v: Visitor, u: nat, t: nat, allow: bool, c: nat)
    ensures Body(Connect(v, u, t, allow), c) == Body(v, c)
  {}

  /** The nodes of the first test: iterator, jump, test and its two outcome blocks. */
  lemma ForTestNodes(id: nat, iter: nat, v: Visitor)
    requires v.curblock.Some? && ValidCur(v)
    ensures var t, n, u := ForTest(id, iter, v), |v.heap|, v.curblock.value;
      && Body(t, u) == Body(v, u) + [Do(MakeIter(id, iter)), Jump(n)]
      && Body(t, n) == [Branch(HasNext(id), n + 1, n + 2)] && Body(t, n + 1) == [] && Body(t, n + 2) == []
  {
    hide PushBack, Connect, JumpTo, AddBlock, Fork, Grown;
    var n, u := |v.heap|, v.curblock.value;
    var p := PushBack(v, Do(MakeIter(id, iter)));
    PushNode(v, Do(MakeIter(id, iter))); PushFrame(v, Do(MakeIter(id, iter)));
    var a := AddBlock(p);
    AddFrame(p); AddNode(p, u); AddedBody(p);
    var j := JumpTo(a, n, false);
    JumpNode(a, n, false); JumpFrame(a, n, false);
    BodyStays(a, j, a.curblock, n);
    ForkNode(At(j, n), HasNext(id));
    ForkFrame(At(j, n), HasNext(id));
    BodyStays(At(j, n), ForTest(id, iter, v), Some(n), u);
  }

  lemma ForStart(id: nat, iter: nat, target: nat, v: Visitor)
    requires v.curblock.Some? && ValidCur(v)
    ensures var b, n, u := ForBody(id, iter, target, v), |v.heap|, v.curblock.value;
      && Body(b, u) == Body(v, u) + [Do(MakeIter(id, iter)), Jump(n)]
      && Body(b, n) == [Branch(HasNext(id), n + 1, n + 2)]
      && Body(b, n + 1) == [Jump(n + 3)] && Body(b, n + 2) == [Jump(n + 5)]
      && Body(b, n + 3) == [Do(NextItem(id, target))] && Body(b, n + 4) == [] && Body(b, n + 5) == []
  {
    hide PushBack, Connect, JumpTo, AddBlock, AddDeferredBlock, Fork, Grown, ForTest;
    var n, u := |v.heap|, v.curblock.value;
    var t := ForTest(id, iter, v);
    ForTestNodes(id, iter, v); ForTestFrame(id, iter, v);
    var made := AddDeferredBlock(AddDeferredBlock(AddBlock(t)));
    ForBlocksFrame(t); ForBlocksBodies(t);
    BodyStays(t, made, None, u); BodyStays(t, made, None, n); BodyStays(t, made, None, n + 1); BodyStays(t, made, None, n + 2);
    ForArms(id, target, v, made);
  }

  lemma ForBlocksBodies(v: Visitor)
    ensures var m, n := AddDeferredBlock(AddDeferredBlock(AddBlock(v))), |v.heap|;
      Body(m, n) == [] && Body(m, n + 1) == [] && Body(m, n + 2) == []
  {}

  lemma ForArms(id: nat, target: nat, v: Visitor, made: Visitor)
    requires v.curblock.Some? && ValidCur(v) && |made.heap| == |v.heap| + 6
    requires var n := |v.heap|; forall i :: n + 1 <= i < n + 6 ==> Body(made, i) == []
    ensures var n := |v.heap|;
      var entered := JumpTo(At(made, n + 1), n + 3, false);
      var skipped := JumpTo(At(entered, n + 2), n + 5, false);
      var b := PushBack(At(PushLoop(skipped, n, n + 4), n + 3), Do(NextItem(id, target)));
      && Body(b, n + 1) == [Jump(n + 3)] && Body(b, n + 2) == [Jump(n + 5)]
      && Body(b, n + 3) == [Do(NextItem(id, target))] && Body(b, n + 4) == [] && Body(b, n + 5) == []
      && (forall i: nat :: i <= n ==> Body(b, i) == Body(made, i))
  {
    hide PushBack, Connect, JumpTo, Grown;
    var n := |v.heap|;
    var entered := JumpTo(At(made, n + 1), n + 3, false);
    var skipped := JumpTo(At(entered, n + 2), n + 5, false);
    var l := At(PushLoop(skipped, n, n + 4), n + 3);
    var b := PushBack(l, Do(NextItem(id, target)));
    JumpNode(At(made, n + 1), n + 3, false); JumpFrame(At(made, n + 1), n + 3, false);
    JumpNode(At(entered, n + 2), n + 5, false); JumpFrame(At(entered, n + 2), n + 5, false);
    PushNode(l, Do(NextItem(id, target))); PushFrame(l, Do(NextItem(id, target)));
    ArmStays(made, entered, skipped, l, b, n, n + 1); ArmStays(made, entered, skipped, l, b, n, n + 2);
    ArmStays(made, entered, skipped, l, b, n, n + 3);
    ArmStays(made, entered, skipped, l, b, n, n + 4); ArmStays(made, entered, skipped, l, b, n, n + 5);
    assert forall i :: n + 1 <= i < n + 6 ==> Body(made, i) == [];
    assert Body(made, n + 1) == [] && Body(made, n + 2) == [] && Body(made, n + 3) == [];
    assert Body(made, n + 4) == [] && Body(made, n + 5) == [];
    forall i: nat | i <= n ensures Body(b, i) == Body(made, i) {
      ArmStays(made, entered, skipped, l, b, n, i);
    }
  }

  lemma ArmStays(made: Visitor, entered: Visitor, skipped: Visitor, l: Visitor, b: Visitor, n: nat, i: nat)
    requires |made.heap| == n + 6 && i < n + 6 && l.heap == skipped.heap
    requires Frame(At(made, n + 1), entered, Some(n + 1)) && Frame(At(entered, n + 2), skipped, Some(n + 2))
    requires Frame(l, b, Some(n + 3))
    ensures i != n + 1 ==> Body(entered, i) == Body(made, i)
    ensures i != n + 2 ==> Body(skipped, i) == Body(entered, i)
    ensures i != n + 3 ==> Body(b, i) == Body(skipped, i)
  {
    if i != n + 1 { BodyStays(At(made, n + 1), entered, Some(n + 1), i); }
    if i != n + 2 { BodyStays(At(entered, n + 2), skipped, Some(n + 2), i); }
    if i != n + 3 { BodyStays(l, b, Some(n + 3), i); }
  }

  /** Where a loop's test can be asked: a yes goes on to `body`, a no to `orelse`. */
  predicate TestPoint(g: seq<Block>, b: nat, pos: nat, id: nat, yes: nat, body: nat, orelse: nat) {
    && NodeAt(g, b, pos, Branch(HasNext(id), yes, yes + 1))
    && NodeAt(g, yes, 0, Jump(body)) && NodeAt(g, yes + 1, 0, Jump(orelse))
  }

  lemma ForAgainNodes(id: nat, v: Visitor, p: Visitor)
    requires p.curblock.Some? && ValidCur(p) && |v.heap| + 6 <= |p.heap|
    ensures var again := JumpTo(At(Fork(p, HasNext(id)), |p.heap|), |v.heap| + 3, true);
      var after := JumpTo(At(again, |p.heap| + 1), |v.heap| + 5, false);
      var m, c := |p.heap|, p.curblock.value;
      && Body(after, c) == Body(p, c) + [Branch(HasNext(id), m, m + 1)]
      && Body(after, m) == [Jump(|v.heap| + 3)] && Body(after, m + 1) == [Jump(|v.heap| + 5)]
      && |after.heap| == m + 2
  {
    hide PushBack, Connect, JumpTo, Grown, Fork;
    var m, c := |p.heap|, p.curblock.value;
    var f := Fork(p, HasNext(id));
    ForkNode(p, HasNext(id)); ForkFrame(p, HasNext(id));
    var again := JumpTo(At(f, m), |v.heap| + 3, true);
    JumpNode(At(f, m), |v.heap| + 3, true); JumpFrame(At(f, m), |v.heap| + 3, true);
    BodyStays(At(f, m), again, Some(m), c); BodyStays(At(f, m), again, Some(m), m + 1);
    var after := JumpTo(At(again, m + 1), |v.heap| + 5, false);
    JumpNode(At(again, m + 1), |v.heap| + 5, false); JumpFrame(At(again, m + 1), |v.heap| + 5, false);
    BodyStays(At(again, m + 1), after, Some(m + 1), c); BodyStays(At(again, m + 1), after, Some(m + 1), m);
  }

  lemma ForLater(t: LoopStates)
    requires t.v.curblock.Some? && ForFrames(t)
    ensures Later(t.w, t.after) && Later(t.after, t.z) && Later(t.b, t.z) && Later(t.e, t.z) && Later(t.x, t.z) && Later(t.w, t.z)
  {
    hide Grown, Later;
    FrameLater(t.e, t.x, t.e.curblock); FrameLater(t.x, t.z, t.x.curblock);
    LaterTrans(t.e, t.x, t.z);
    FrameLater(t.after, t.e, None);
    LaterTrans(t.after, t.e, t.z);
    FrameLater(t.b, t.w, t.b.curblock); FrameLater(t.w, t.after, t.w.curblock);
    LaterTrans(t.w, t.after, t.z); LaterTrans(t.b, t.w, t.z);
  }

  lemma ForExitBodies(s: Stmt, v: Visitor)
    requires s.For? && v.curblock.Some? && ValidCur(v) && ForFrames(StatesOfFor(s, v))
    ensures var t, n := StatesOfFor(s, v), |v.heap|; Body(t.e, n + 5) == [] && Body(t.z, n + 4) == []
  {
    hide PushTo, PushBack, Connect, JumpTo, PlaceBlock, AddBlock, AddDeferredBlock, Grown, ForBody, ForEndBody,
      ForOrelse, ForEnd, VisitAll;
    var t, n := StatesOfFor(s, v), |v.heap|;
    ForStart(s.id, s.iter, s.target, v);
    BodyStays(t.b, t.w, t.b.curblock, n + 5); BodyStays(t.b, t.w, t.b.curblock, n + 4);
    BodyStays(t.w, t.after, t.w.curblock, n + 5); BodyStays(t.w, t.after, t.w.curblock, n + 4);
    BodyStays(t.after, t.e, None, n + 5); BodyStays(t.after, t.e, None, n + 4);
    BodyStays(t.e, t.x, t.e.curblock, n + 4);
    BodyStays(t.x, t.z, t.x.curblock, n + 4);
  }

  lemma ForNodes(s: Stmt, v: Visitor, g: seq<Block>)
    requires s.For? && v.curblock.Some? && ValidCur(v)
    requires !Visit(s, v).failed && Includes(g, Visit(s, v), |v.heap|, v.curblock.value)
    ensures var t, n, u := StatesOfFor(s, v), |v.heap|, v.curblock.value;
      && ForFrames(t) && Visit(s, v) == t.z
      && NodeAt(g, u, |Body(v, u)|, Do(MakeIter(s.id, s.iter))) && NodeAt(g, u, |Body(v, u)| + 1, Jump(n))
      && TestPoint(g, n, 0, s.id, n + 1, n + 3, n + 5)
      && NodeAt(g, n + 3, 0, Do(NextItem(s.id, s.target))) && |Body(t.b, n + 3)| == 1
      && Body(t.e, n + 5) == [] && Body(t.z, n + 4) == [] && t.z.curblock == Some(n + 4)
      && Later(t.w, t.z) && Later(t.x, t.z) && Later(t.after, t.z)
  {
    hide PushTo, PushBack, Connect, JumpTo, PlaceBlock, AddBlock, AddDeferredBlock, Grown, ForBody, ForEndBody,
      ForOrelse, Includes, Later, VisitAll, Visit;
    var t, n, u := StatesOfFor(s, v), |v.heap|, v.curblock.value;
    ForStatesFrames(s, v);
    ForExitBodies(s, v);
    ForStart(s.id, s.iter, s.target, v);
    ForLater(t);
    IncludesEarlier(g, t.b, t.z, n, u, n, u);
    NodeStays(g, t.b, n, u, u, |Body(v, u)|); NodeStays(g, t.b, n, u, u, |Body(v, u)| + 1);
    NodeStays(g, t.b, n, u, n, 0); NodeStays(g, t.b, n, u, n + 1, 0); NodeStays(g, t.b, n, u, n + 2, 0);
    NodeStays(g, t.b, n, u, n + 3, 0);
  }

  /** Falling out of the body asks the test again, with its own two outcome blocks. */
  lemma ForRetest(s: Stmt, v: Visitor, g: seq<Block>)
    requires s.For? && v.curblock.Some? && ValidCur(v)
    requires !Visit(s, v).failed && Includes(g, Visit(s, v), |v.heap|, v.curblock.value)
    requires StatesOfFor(s, v).w.curblock.Some?
    ensures var t, n := StatesOfFor(s, v), |v.heap|;
      var c := t.w.curblock.value;
      TestPoint(g, c, |Body(t.w, c)|, s.id, |t.w.heap|, n + 3, n + 5)
  {
    hide PushTo, PushBack, Connect, JumpTo, PlaceBlock, AddBlock, AddDeferredBlock, Grown, ForBody, ForOrelse,
      ForEnd, Fork, Includes, Later, VisitAll, Visit;
    var t, n, u := StatesOfFor(s, v), |v.heap|, v.curblock.value;
    ForStatesFrames(s, v);
    ForLater(t);
    ForAgainNodes(s.id, v, PopLoop(t.w));
    var c, m := t.w.curblock.value, |t.w.heap|;
    IncludesEarlier(g, t.after, t.z, n, u, n, u);
    NodeStays(g, t.after, n, u, c, |Body(t.w, c)|);
    NodeStays(g, t.after, n, u, m, 0); NodeStays(g, t.after, n, u, m + 1, 0);
  }

  // ---- with -------------------------------------------------------------------------------

  /** `l` follows the continue exit, `m` the break exit; without a loop around both equal `ex`. */
  datatype WithStates = WithStates(v: Visitor, b: Visitor, w: Visitor, ex: Visitor, l: Visitor, m: Visitor, p: Visitor, z: Visitor)

  function StatesOfWith(s: Stmt, v: Visitor): WithStates
    requires s.With?
  {
    var b := WithBody(s.id, s.context, s.vars, v);
    var w := VisitAll(s.body, b);
    var ex := PushBack(w, Do(CallExit(s.id)));
    var l := if v.loops == [] then ex else WithExit(s.id, ex, |v.heap|, v.loops[|v.loops| - 1].continueDest);
    var m := if v.loops == [] then ex else WithExit(s.id, l, |v.heap| + 1, v.loops[|v.loops| - 1].breakDest);
    var p := PopReturn(WithLoopExits(s.id, v, ex));
    WithStates(v, b, w, ex, l, m, p, WithReturnExit(s.id, v, p))
  }

  ghost predicate WithFrames(s: Stmt, t: WithStates)
    requires s.With?
  {
    var n, dest := |t.v.heap|, WithReturn(t.v);
    && Frame(t.v, t.b, t.v.curblock) && |t.b.heap| == dest + 1 && t.b.curblock == t.v.curblock
    && t.b.returnDests == t.v.returnDests + [dest]
    && t.b.loops == (if t.v.loops == [] then [] else t.v.loops + [LoopInfo(n, n + 1)])
    && Visited(t.b, t.w) && Frame(t.w, t.ex, t.w.curblock) && SameScopes(t.w, t.ex) && t.ex.curblock == t.w.curblock
    && Frame(t.ex, t.l, Some(n)) && Frame(t.l, t.m, Some(n + 1)) && t.p.heap == t.m.heap && t.p.failed == t.m.failed
    && t.p.inFunction == t.m.inFunction
    && (t.v.loops == [] ==> t.m == t.ex) && SameScopes(t.v, t.p) && t.p.curblock == t.w.curblock
    && |t.ex.heap| == |t.l.heap| == |t.m.heap| == |t.w.heap| == |t.z.heap|
    && Frame(t.p, t.z, Some(dest)) && t.z.curblock == t.w.curblock && SameScopes(t.v, t.z)
  }

  lemma WithStatesFrames(s: Stmt, v: Visitor)
    requires s.With? && ValidCur(v)
    ensures WithFrames(s, StatesOfWith(s, v)) && Visit(s, v) == StatesOfWith(s, v).z
  {
    hide PushBack, WithExit, WithReturnExit, WithBody, Grown;
    var t, n := StatesOfWith(s, v), |v.heap|;
    WithBodyFrame(s.id, s.context, s.vars, v);
    VisitAllFrame(s.body, t.b);
    PushFrame(t.w, Do(CallExit(s.id)));
    FrameRefl(t.ex, Some(n)); FrameRefl(t.ex, Some(n + 1));
    if v.loops != [] {
      WithExitFrame(s.id, t.ex, n, v.loops[|v.loops| - 1].continueDest);
      WithExitFrame(s.id, t.l, n + 1, v.loops[|v.loops| - 1].breakDest);
    }
    WithReturnExitOpens(s.id, v, t.p);
  }

  lemma WithReturnExitOpens(id: nat, v: Visitor, w: Visitor)
    ensures Frame(w, WithReturnExit(id, v, w), Some(WithReturn(v)))
    ensures WithReturnExit(id, v, w).curblock == w.curblock && SameScopes(w, WithReturnExit(id, v, w))
    ensures |WithReturnExit(id, v, w).heap| == |w.heap|
  {
    hide PushBack, PlaceBlock, DoReturn, Grown;
    var dest := WithReturn(v);
    FrameRefl(w, Some(dest));
    if HasPredecessors(w, dest) {
      var a := At(PlaceBlock(w, dest), dest);
      var b := PushBack(a, Do(CallExit(id)));
      PlaceFrame(w, dest);
      PushFrame(a, Do(CallExit(id)));
      FrameTrans(w, a, b, None, Some(dest), Some(dest));
      DoReturnFrame(b, SavedName);
      FrameTrans(w, b, DoReturn(b, SavedName), Some(dest), Some(dest), Some(dest));
    }
  }

  lemma WithStart(s: Stmt, v: Visitor)
    requires s.With? && ValidCur(v) && v.curblock.Some?
    ensures var b, u := WithBody(s.id, s.context, s.vars, v), v.curblock.value;
      && Body(b, u) == Body(v, u) + [Do(MakeContext(s.id, s.context)), Do(LoadExit(s.id)), Do(Enter(s.id, s.vars))]
  {
    hide PushBack, AddDeferredBlock, Grown;
    var u := v.curblock.value;
    var one := PushBack(v, Do(MakeContext(s.id, s.context)));
    var two := PushBack(one, Do(LoadExit(s.id)));
    var entered := PushBack(two, Do(Enter(s.id, s.vars)));
    PushNode(v, Do(MakeContext(s.id, s.context))); PushFrame(v, Do(MakeContext(s.id, s.context)));
    PushNode(one, Do(LoadExit(s.id))); PushFrame(one, Do(LoadExit(s.id)));
    PushNode(two, Do(Enter(s.id, s.vars))); PushFrame(two, Do(Enter(s.id, s.vars)));
    WithBlocksFrame(entered);
    BodyStays(entered, WithBody(s.id, s.context, s.vars, v), None, u);
  }

  /** The blocks a `with` hands out start empty. */
  lemma WithDestsEmpty(s: Stmt, v: Visitor)
    requires s.With? && ValidCur(v)
    ensures var b, n := WithBody(s.id, s.context, s.vars, v), |v.heap|;
      && Body(b, WithReturn(v)) == []
      && (v.loops != [] ==> Body(b, n) == [] && Body(b, n + 1) == [])
  {
    hide PushBack;
    var one := PushBack(v, Do(MakeContext(s.id, s.context)));
    var two := PushBack(one, Do(LoadExit(s.id)));
    PushFrame(v, Do(MakeContext(s.id, s.context)));
    PushFrame(one, Do(LoadExit(s.id)));
    PushFrame(two, Do(Enter(s.id, s.vars)));
  }

  lemma WithExitNodes(id: nat, w: Visitor, dest: nat, orig: nat)
    requires HasPredecessors(w, dest) && Body(w, dest) == []
    ensures Body(WithExit(id, w, dest, orig), dest) == [Do(CallExit(id)), Jump(orig)]
    ensures !WithExit(id, w, dest, orig).failed ==> HasPredecessors(WithExit(id, w, dest, orig), orig)
  {
    hide PushBack, PlaceBlock, Connect;
    var a := PushBack(At(w, dest), Do(CallExit(id)));
    var b := PlaceBlock(a, dest);
    var c := PushBack(b, Jump(orig));
    PushNode(At(w, dest), Do(CallExit(id))); PushFrame(At(w, dest), Do(CallExit(id)));
    PlaceNode(a, dest, dest); PlaceFrame(a, dest);
    PushNode(b, Jump(orig)); PushFrame(b, Jump(orig));
    ConnectNode(c, dest, orig, true, dest);
    ConnectPredecessor(c, dest, orig, true);
  }

  lemma ConnectPredecessor(v: Visitor, u: nat, t: nat, allow: bool)
    ensures !Connect(v, u, t, allow).failed ==> HasPredecessors(Connect(v, u, t, allow), t)
  {}

  lemma WithLater(s: Stmt, t: WithStates)
    requires s.With? && WithFrames(s, t)
    ensures Later(t.b, t.z) && Later(t.w, t.z) && Later(t.w, t.ex) && Later(t.ex, t.l) && Later(t.ex, t.z)
    ensures Later(t.l, t.z) && Later(t.l, t.m) && Later(t.m, t.z) && Later(t.w, t.p) && Later(t.w, t.l) && Later(t.p, t.z)
  {
    hide Grown, Later;
    var n := |t.v.heap|;
    FrameLater(t.p, t.z, Some(WithReturn(t.v)));
    FrameRefl(t.m, None);
    assert Frame(t.m, t.p, None) && Frame(t.m, t.z, Some(WithReturn(t.v)));
    FrameLater(t.m, t.p, None); FrameLater(t.m, t.z, Some(WithReturn(t.v)));
    FrameLater(t.l, t.m, Some(n + 1)); FrameLater(t.ex, t.l, Some(n)); FrameLater(t.w, t.ex, t.w.curblock);
    FrameLater(t.b, t.w, t.b.curblock);
    LaterTrans(t.l, t.m, t.z); LaterTrans(t.ex, t.l, t.z); LaterTrans(t.w, t.ex, t.z); LaterTrans(t.b, t.w, t.z);
    LaterTrans(t.w, t.ex, t.l); LaterTrans(t.w, t.l, t.m); LaterTrans(t.w, t.m, t.p);
  }

  /** Blocks that are none of the ones handed out keep their bodies from the body's end on. */
  lemma WithBodyStays(s: Stmt, t: WithStates, c: nat)
    requires s.With? && WithFrames(s, t) && c < |t.ex.heap|
    requires c < |t.v.heap| || c >= |t.b.heap|
    ensures Body(t.z, c) == Body(t.ex, c)
  {
    hide Grown;
    if t.v.loops != [] {
      BodyStays(t.ex, t.l, Some(|t.v.heap|), c);
      BodyStays(t.l, t.m, Some(|t.v.heap| + 1), c);
    }
    BodyStays(t.p, t.z, Some(WithReturn(t.v)), c);
  }

  lemma WithDestsStayEmpty(s: Stmt, v: Visitor, t: WithStates)
    requires s.With? && ValidCur(v) && t == StatesOfWith(s, v) && WithFrames(s, t)
    ensures v.loops != [] ==> Body(t.ex, |v.heap|) == [] && Body(t.l, |v.heap| + 1) == []
    ensures Body(t.p, WithReturn(v)) == []
  {
    hide Grown, PushBack, WithExit, WithReturnExit, WithBody, VisitAll, WithLoopExits;
    var n, dest := |v.heap|, WithReturn(v);
    WithDestsEmpty(s, v);
    if v.loops != [] {
      BodyStays(t.b, t.w, t.b.curblock, n); BodyStays(t.w, t.ex, t.w.curblock, n);
      BodyStays(t.b, t.w, t.b.curblock, n + 1); BodyStays(t.w, t.ex, t.w.curblock, n + 1); BodyStays(t.ex, t.l, Some(n), n + 1);
    }
    BodyStays(t.b, t.w, t.b.curblock, dest); BodyStays(t.w, t.ex, t.w.curblock, dest);
    if v.loops != [] {
      BodyStays(t.ex, t.l, Some(n), dest); BodyStays(t.l, t.m, Some(n + 1), dest);
    }
  }
}
