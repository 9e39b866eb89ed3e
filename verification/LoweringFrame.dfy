/** What a visit leaves alone: it extends the current block and adds new ones; elsewhere it only
    adds predecessors. */
module LoweringFrame {
  import opened Commons
  import opened Source
  import opened Lowering

  /** y is block x later on; only the open block's statements and successors may have grown. */
  predicate Kept(x: Block, y: Block, open: bool) {
    && x.predecessors <= y.predecessors
    && x.body <= y.body
    && (!open ==> x.body == y.body && x.successors == y.successors)
  }

  ghost predicate Grown(h: seq<Block>, k: seq<Block>, open: Option<nat>)
    requires |h| <= |k|
  {
    forall i {:trigger KeptAt(h, k, open, i)} :: 0 <= i < |h| ==> KeptAt(h, k, open, i)
  }

  ghost predicate KeptAt(h: seq<Block>, k: seq<Block>, open: Option<nat>, i: int)
    requires |h| <= |k|
  {
    0 <= i < |h| ==> Kept(h[i], k[i], open == Some(i))
  }

  ghost predicate Frame(v: Visitor, w: Visitor, open: Option<nat>) {
    && v.inFunction == w.inFunction
    && (v.failed ==> w.failed)
    && |v.heap| <= |w.heap|
    && Grown(v.heap, w.heap, open)
  }

  /** A block opened in between must be the one open overall, or new. */
  predicate Within(v: Visitor, a: Option<nat>, open: Option<nat>) {
    a.None? || a == open || a.value >= |v.heap|
  }

  lemma FrameTrans(v: Visitor, w: Visitor, x: Visitor, a: Option<nat>, b: Option<nat>, open: Option<nat>)
    requires Frame(v, w, a) && Frame(w, x, b) && Within(v, a, open) && Within(v, b, open)
    ensures Frame(v, x, open)
  {
    forall i | 0 <= i < |v.heap| ensures KeptAt(v.heap, x.heap, open, i) {
      assert KeptAt(v.heap, w.heap, a, i) && KeptAt(w.heap, x.heap, b, i);
    }
  }

  /** The scopes and the current block, which most primitives leave as they are. */
  predicate SameScopes(v: Visitor, w: Visitor) {
    w.loops == v.loops && w.returnDests == v.returnDests
  }

  lemma FrameRefl(v: Visitor, open: Option<nat>)
    ensures Frame(v, v, open) && Frame(v, Fail(v), open)
  {}

  lemma AddFrame(v: Visitor)
    ensures Frame(v, AddBlock(v), None) && SameScopes(v, AddBlock(v))
    ensures Frame(v, AddDeferredBlock(v), None) && SameScopes(v, AddDeferredBlock(v))
    ensures |AddBlock(v).heap| == |AddDeferredBlock(v).heap| == |v.heap| + 1
    ensures AddBlock(v).curblock == AddDeferredBlock(v).curblock == v.curblock
  {}

  lemma PlaceFrame(v: Visitor, b: nat)
    ensures Frame(v, PlaceBlock(v, b), None)
    ensures var w := PlaceBlock(v, b); SameScopes(v, w) && |w.heap| == |v.heap| && w.curblock == v.curblock
  {}

  lemma PushToFrame(v: Visitor, b: nat, n: Node)
    ensures Frame(v, PushTo(v, b, n), Some(b))
    ensures var w := PushTo(v, b, n); SameScopes(v, w) && |w.heap| == |v.heap| && w.curblock == v.curblock
  {}

  lemma PushFrame(v: Visitor, n: Node)
    ensures Frame(v, PushBack(v, n), v.curblock)
    ensures var w := PushBack(v, n); SameScopes(v, w) && |w.heap| == |v.heap| && w.curblock == v.curblock
  {}

  lemma ConnectFrame(v: Visitor, u: nat, t: nat, allow: bool)
    ensures Frame(v, Connect(v, u, t, allow), Some(u))
    ensures var w := Connect(v, u, t, allow); SameScopes(v, w) && |w.heap| == |v.heap| && w.curblock == v.curblock
  {}

  lemma JumpFrame(v: Visitor, t: nat, allow: bool)
    ensures Frame(v, JumpTo(v, t, allow), v.curblock)
    ensures var w := JumpTo(v, t, allow); SameScopes(v, w) && |w.heap| == |v.heap| && w.curblock == v.curblock
  {
    if v.curblock.Some? {
      PushFrame(v, Jump(t));
      ConnectFrame(PushBack(v, Jump(t)), v.curblock.value, t, allow);
      FrameTrans(v, PushBack(v, Jump(t)), JumpTo(v, t, allow), v.curblock, v.curblock, v.curblock);
    }
  }

  lemma EnterFrame(v: Visitor, u: nat)
    ensures Frame(v, EnterNew(v, u), Some(u))
    ensures var w := EnterNew(v, u); SameScopes(v, w) && |w.heap| == |v.heap| + 1 && w.curblock == Some(|v.heap|)
  {
    AddFrame(v);
    ConnectFrame(AddBlock(v), u, |v.heap|, false);
    FrameTrans(v, AddBlock(v), Connect(AddBlock(v), u, |v.heap|, false), None, Some(u), Some(u));
  }

  lemma DoReturnFrame(v: Visitor, value: Operand)
    ensures Frame(v, DoReturn(v, value), v.curblock)
    ensures var w := DoReturn(v, value); SameScopes(v, w) && |w.heap| == |v.heap| && (w.failed || w.curblock.None?)
  {
    hide PushBack, JumpTo, Grown;
    FrameRefl(v, v.curblock);
    if v.returnDests == [] {
      PushFrame(v, Ret(value));
    } else if v.curblock.Some? {
      var w := PushBack(v, Save(value));
      PushFrame(v, Save(value));
      JumpFrame(w, v.returnDests[|v.returnDests| - 1], false);
      FrameTrans(v, w, DoReturn(v, value), v.curblock, v.curblock, v.curblock);
    }
  }

  // ---- visits -----------------------------------------------------------------------------

  predicate ValidCur(v: Visitor) {
    v.curblock.Some? ==> v.curblock.value < |v.heap|
  }

  /** Everything a visit promises about the state it found. */
  ghost predicate Visited(v: Visitor, w: Visitor) {
    && Frame(v, w, v.curblock)
    && w.loops == v.loops && w.returnDests == v.returnDests
    && ValidCur(w)
    && (w.curblock.Some? ==> v.curblock.Some? && (w.curblock == v.curblock || w.curblock.value >= |v.heap|))
  }

  lemma VisitedTrans(v: Visitor, w: Visitor, x: Visitor)
    requires Visited(v, w) && Visited(w, x)
    ensures Visited(v, x)
  {
    FrameTrans(v, w, x, v.curblock, w.curblock, v.curblock);
  }

  lemma {:induction false} VisitAllFrame(ss: seq<Stmt>, v: Visitor)
    requires ValidCur(v)
    ensures Visited(v, VisitAll(ss, v))
    decreases ss, 1
  {
    if ss != [] {
      VisitFrame(ss[0], v);
      VisitAllFrame(ss[1..], Visit(ss[0], v));
      VisitedTrans(v, Visit(ss[0], v), VisitAll(ss, v));
    }
  }

  lemma {:induction false} VisitFrame(s: Stmt, v: Visitor)
    requires ValidCur(v)
    ensures Visited(v, Visit(s, v))
    decreases s, 1
  {
    match s {
      case Simple(what) => PushFrame(v, Do(Plain(what)));
      case Return(value) => DoReturnFrame(v, if value.None? then NoneName else Expr(value.value));
      case Break => ExitFrame(s, v);
      case Continue => ExitFrame(s, v);
      case If(_, _, _) => if v.curblock.Some? { VisitIfFrame(s, v); }
      case While(_, _, _) => if v.curblock.Some? { VisitWhileFrame(s, v); }
      case For(_, _, _, _, _) => if v.curblock.Some? { VisitForFrame(s, v); }
      case With(id, context, vars, body) =>
        WithBodyFrame(id, context, vars, v);
        VisitAllFrame(body, WithBody(id, context, vars, v));
        WithEndFrame(id, context, vars, v, VisitAll(body, WithBody(id, context, vars, v)));
    }
  }

  lemma ExitFrame(s: Stmt, v: Visitor)
    requires (s.Break? || s.Continue?) && ValidCur(v)
    ensures Visited(v, Visit(s, v))
  {
    if v.curblock.Some? && v.loops != [] {
      var inner := v.loops[|v.loops| - 1];
      JumpFrame(v, if s.Break? then inner.breakDest else inner.continueDest, true);
    }
  }

  lemma {:induction false} VisitIfFrame(s: Stmt, v: Visitor)
    requires s.If? && v.curblock.Some? && ValidCur(v)
    ensures Visited(v, Visit(s, v))
    decreases s, 0
  {
    hide PushTo, PushBack, Connect, JumpTo, PlaceBlock, EnterNew, AddBlock, AddDeferredBlock, Grown, IfBody,
      IfOrelse, CloseIf, WhileBody, WhileEndBody, WhileOrelse, WhileEnd, ForBody, ForEndBody, ForEnd;
    var w := VisitAll(s.body, IfBody(v));
    IfBodyFrame(v);
    VisitAllFrame(s.body, IfBody(v));
    var after := JumpTo(w, |v.heap|, false);
    IfOrelseFrame(s.test, v, w);
    var x := VisitAll(s.orelse, IfOrelse(s.test, v, after));
    VisitAllFrame(s.orelse, IfOrelse(s.test, v, after));
    IfEndFrame(s.test, v, after, x);
  }

  lemma {:induction false} VisitWhileFrame(s: Stmt, v: Visitor)
    requires s.While? && v.curblock.Some? && ValidCur(v)
    ensures Visited(v, Visit(s, v))
    decreases s, 0
  {
    hide PushTo, PushBack, Connect, JumpTo, PlaceBlock, EnterNew, AddBlock, AddDeferredBlock, Grown, IfBody,
      IfOrelse, CloseIf, WhileBody, WhileEndBody, WhileOrelse, WhileEnd, ForBody, ForEndBody, ForEnd;
    var w := VisitAll(s.body, WhileBody(v));
    WhileBodyFrame(v);
    VisitAllFrame(s.body, WhileBody(v));
    var after := WhileEndBody(v, w);
    WhileOrelseFrame(s.test, v, w);
    var x := VisitAll(s.orelse, WhileOrelse(s.test, v, after));
    VisitAllFrame(s.orelse, WhileOrelse(s.test, v, after));
    WhileEndFrame(s.test, v, after, x);
  }

  lemma {:induction false} VisitForFrame(s: Stmt, v: Visitor)
    requires s.For? && v.curblock.Some? && ValidCur(v)
    ensures Visited(v, Visit(s, v))
    decreases s, 0
  {
    hide PushTo, PushBack, Connect, JumpTo, PlaceBlock, EnterNew, AddBlock, AddDeferredBlock, Grown, IfBody,
      IfOrelse, CloseIf, WhileBody, WhileEndBody, WhileOrelse, WhileEnd, ForBody, ForEndBody, ForEnd;
    var w := VisitAll(s.body, ForBody(s.id, s.iter, s.target, v));
    ForBodyFrame(s.id, s.iter, s.target, v);
    VisitAllFrame(s.body, ForBody(s.id, s.iter, s.target, v));
    var after := ForEndBody(s.id, v, w);
    ForEndBodyFrame(s.id, s.iter, s.target, v, w);
    var x := VisitAll(s.orelse, ForOrelse(v, after));
    PlaceFrame(after, |v.heap| + 5);
    VisitAllFrame(s.orelse, ForOrelse(v, after));
    ForEndFrame(v, after, x);
  }

  // ---- if ---------------------------------------------------------------------------------

  lemma IfBodyFrame(v: Visitor)
    requires v.curblock.Some? && ValidCur(v)
    ensures Frame(v, IfBody(v), v.curblock) && |IfBody(v).heap| == |v.heap| + 2
    ensures SameScopes(v, IfBody(v)) && IfBody(v).curblock == Some(|v.heap| + 1)
  {
    hide PushTo, PushBack, Connect, JumpTo, PlaceBlock, EnterNew, AddBlock, AddDeferredBlock, DoReturn, Grown;
    AddFrame(v);
    EnterFrame(AddDeferredBlock(v), v.curblock.value);
    FrameTrans(v, AddDeferredBlock(v), IfBody(v), None, v.curblock, v.curblock);
  }

  /** The state has moved on to one new block. */
  predicate Branched(v: Visitor, w: Visitor) {
    SameScopes(v, w) && |w.heap| == |v.heap| + 1 && w.curblock == Some(|v.heap|)
  }

  lemma IfOrelseFrame(test: nat, v: Visitor, w: Visitor)
    requires v.curblock.Some? && ValidCur(v)
    requires Visited(IfBody(v), w)
    ensures var after := JumpTo(w, |v.heap|, false);
      && Frame(w, after, w.curblock) && Frame(v, after, v.curblock) && SameScopes(v, after)
      && |after.heap| >= |v.heap| + 2
      && Frame(after, IfOrelse(test, v, after), v.curblock)
      && Branched(after, IfOrelse(test, v, after))
  {
    hide PushTo, PushBack, Connect, JumpTo, PlaceBlock, EnterNew, AddBlock, AddDeferredBlock, DoReturn, Grown;
    var u := v.curblock.value;
    var after := JumpTo(w, |v.heap|, false);
    var branched := PushTo(after, u, Branch(Test(test), |v.heap| + 1, |after.heap|));
    IfBodyFrame(v);
    FrameTrans(v, IfBody(v), w, v.curblock, IfBody(v).curblock, v.curblock);
    JumpFrame(w, |v.heap|, false);
    FrameTrans(v, w, after, v.curblock, w.curblock, v.curblock);
    PushToFrame(after, u, Branch(Test(test), |v.heap| + 1, |after.heap|));
    EnterFrame(branched, u);
    FrameTrans(after, branched, IfOrelse(test, v, after), v.curblock, v.curblock, v.curblock);
  }

  lemma IfEndFrame(test: nat, v: Visitor, after: Visitor, x: Visitor)
    requires v.curblock.Some? && ValidCur(v) && |after.heap| >= |v.heap| + 2
    requires Frame(v, after, v.curblock) && Frame(after, IfOrelse(test, v, after), v.curblock)
    requires SameScopes(v, after) && Branched(after, IfOrelse(test, v, after))
    requires Visited(IfOrelse(test, v, after), x)
    ensures Visited(v, CloseIf(JumpTo(x, |v.heap|, false), |v.heap|))
    ensures Frame(x, CloseIf(JumpTo(x, |v.heap|, false), |v.heap|), x.curblock)
  {
    hide PushTo, PushBack, Connect, JumpTo, PlaceBlock, EnterNew, AddBlock, AddDeferredBlock, DoReturn, Grown;
    var y := JumpTo(x, |v.heap|, false);
    var z := CloseIf(y, |v.heap|);
    var e := IfOrelse(test, v, after);
    FrameTrans(v, after, e, v.curblock, v.curblock, v.curblock);
    FrameTrans(v, e, x, v.curblock, e.curblock, v.curblock);
    JumpFrame(x, |v.heap|, false);
    PlaceFrame(y, |v.heap|);
    FrameRefl(y, None);
    FrameTrans(x, y, z, x.curblock, None, x.curblock);
    FrameTrans(v, x, z, v.curblock, x.curblock, v.curblock);
  }

  // ---- while ------------------------------------------------------------------------------

  lemma WhileBodyFrame(v: Visitor)
    requires v.curblock.Some? && ValidCur(v)
    ensures Frame(v, WhileBody(v), v.curblock) && |WhileBody(v).heap| == |v.heap| + 3
    ensures WhileBody(v).loops == v.loops + [LoopInfo(|v.heap|, |v.heap| + 1)] && WhileBody(v).returnDests == v.returnDests
    ensures WhileBody(v).curblock == Some(|v.heap| + 2)
  {
    hide PushTo, PushBack, Connect, JumpTo, PlaceBlock, EnterNew, AddBlock, AddDeferredBlock, DoReturn, Grown;
    var test := |v.heap|;
    var jumped := JumpTo(AddBlock(v), test, false);
    var looped := PushLoop(AddDeferredBlock(At(jumped, test)), test, test + 1);
    AddFrame(v);
    JumpFrame(AddBlock(v), test, false);
    FrameTrans(v, AddBlock(v), jumped, None, v.curblock, v.curblock);
    AddFrame(At(jumped, test));
    FrameTrans(v, jumped, looped, v.curblock, None, v.curblock);
    EnterFrame(looped, test);
    FrameTrans(v, looped, WhileBody(v), v.curblock, Some(test), v.curblock);
  }

  lemma WhileOrelseFrame(test: nat, v: Visitor, w: Visitor)
    requires v.curblock.Some? && ValidCur(v)
    requires Visited(WhileBody(v), w)
    ensures var after := WhileEndBody(v, w);
      && Frame(w, after, w.curblock) && Frame(v, after, v.curblock)
      && SameScopes(v, after) && |after.heap| >= |v.heap| + 3
      && Frame(after, WhileOrelse(test, v, after), Some(|v.heap|))
      && Branched(after, WhileOrelse(test, v, after))
  {
    hide PushTo, PushBack, Connect, JumpTo, PlaceBlock, EnterNew, AddBlock, AddDeferredBlock, DoReturn, Grown;
    var after := WhileEndBody(v, w);
    var branched := PushTo(after, |v.heap|, Branch(Test(test), |v.heap| + 2, |after.heap|));
    WhileBodyFrame(v);
    FrameTrans(v, WhileBody(v), w, v.curblock, WhileBody(v).curblock, v.curblock);
    JumpFrame(w, |v.heap|, true);
    FrameTrans(v, w, after, v.curblock, w.curblock, v.curblock);
    PushToFrame(after, |v.heap|, Branch(Test(test), |v.heap| + 2, |after.heap|));
    EnterFrame(branched, |v.heap|);
    FrameTrans(after, branched, WhileOrelse(test, v, after), Some(|v.heap|), Some(|v.heap|), Some(|v.heap|));
  }

  lemma WhileEndFrame(test: nat, v: Visitor, after: Visitor, x: Visitor)
    requires v.curblock.Some? && ValidCur(v) && |after.heap| >= |v.heap| + 3
    requires Frame(v, after, v.curblock) && Frame(after, WhileOrelse(test, v, after), Some(|v.heap|))
    requires SameScopes(v, after) && Branched(after, WhileOrelse(test, v, after))
    requires Visited(WhileOrelse(test, v, after), x)
    ensures Visited(v, WhileEnd(v, x))
    ensures Frame(x, WhileEnd(v, x), x.curblock)
  {
    hide PushTo, PushBack, Connect, JumpTo, PlaceBlock, EnterNew, AddBlock, AddDeferredBlock, DoReturn, Grown;
    var y := At(JumpTo(x, |v.heap| + 1, false), |v.heap| + 1);
    var z := WhileEnd(v, x);
    var e := WhileOrelse(test, v, after);
    FrameTrans(v, after, e, v.curblock, Some(|v.heap|), v.curblock);
    FrameTrans(v, e, x, v.curblock, e.curblock, v.curblock);
    JumpFrame(x, |v.heap| + 1, false);
    PlaceFrame(y, |v.heap| + 1);
    FrameTrans(x, y, z, x.curblock, None, x.curblock);
    FrameTrans(v, x, z, v.curblock, x.curblock, v.curblock);
  }

  // ---- for --------------------------------------------------------------------------------

  lemma ForkFrame(v: Visitor, cond: Cond)
    requires v.curblock.Some? && ValidCur(v)
    ensures Frame(v, Fork(v, cond), v.curblock) && |Fork(v, cond).heap| == |v.heap| + 2
    ensures SameScopes(v, Fork(v, cond)) && Fork(v, cond).curblock == v.curblock
  {
    hide PushTo, PushBack, Connect, JumpTo, PlaceBlock, EnterNew, AddBlock, AddDeferredBlock, DoReturn, Grown;
    var b, t := v.curblock.value, |v.heap|;
    var pushed := PushBack(v, Branch(cond, t, t + 1));
    var one := AddBlock(pushed);
    var two := AddBlock(one);
    var once := Connect(two, b, t, false);
    PushFrame(v, Branch(cond, t, t + 1));
    AddFrame(pushed);
    FrameTrans(v, pushed, one, v.curblock, None, v.curblock);
    AddFrame(one);
    FrameTrans(v, one, two, v.curblock, None, v.curblock);
    ConnectFrame(two, b, t, false);
    FrameTrans(v, two, once, v.curblock, v.curblock, v.curblock);
    ConnectFrame(once, b, t + 1, false);
    FrameTrans(v, once, Fork(v, cond), v.curblock, v.curblock, v.curblock);
  }

  lemma ForTestFrame(id: nat, iter: nat, v: Visitor)
    requires v.curblock.Some? && ValidCur(v)
    ensures Frame(v, ForTest(id, iter, v), v.curblock) && |ForTest(id, iter, v).heap| == |v.heap| + 3
    ensures SameScopes(v, ForTest(id, iter, v))
  {
    hide PushTo, PushBack, Connect, JumpTo, PlaceBlock, EnterNew, AddBlock, AddDeferredBlock, DoReturn, Grown;
    var started := PushBack(v, Do(MakeIter(id, iter)));
    var added := AddBlock(started);
    var jumped := JumpTo(added, |v.heap|, false);
    PushFrame(v, Do(MakeIter(id, iter)));
    AddFrame(started);
    FrameTrans(v, started, added, v.curblock, None, v.curblock);
    JumpFrame(added, |v.heap|, false);
    FrameTrans(v, added, jumped, v.curblock, v.curblock, v.curblock);
    ForkFrame(At(jumped, |v.heap|), HasNext(id));
    FrameTrans(v, jumped, ForTest(id, iter, v), v.curblock, Some(|v.heap|), v.curblock);
  }

  lemma ForBlocksFrame(v: Visitor)
    ensures var made := AddDeferredBlock(AddDeferredBlock(AddBlock(v)));
      Frame(v, made, None) && |made.heap| == |v.heap| + 3 && SameScopes(v, made)
  {
    hide PushTo, PushBack, Connect, JumpTo, PlaceBlock, EnterNew, AddBlock, AddDeferredBlock, DoReturn, Grown;
    var one := AddBlock(v);
    var two := AddDeferredBlock(one);
    AddFrame(v); AddFrame(one); AddFrame(two);
    FrameTrans(v, one, two, None, None, None);
    FrameTrans(v, two, AddDeferredBlock(two), None, None, None);
  }

  lemma ForBodyFrame(id: nat, iter: nat, target: nat, v: Visitor)
    requires v.curblock.Some? && ValidCur(v)
    ensures var b := ForBody(id, iter, target, v);
      && Frame(v, b, v.curblock) && |b.heap| == |v.heap| + 6
      && b.loops == v.loops + [LoopInfo(|v.heap|, |v.heap| + 4)] && b.returnDests == v.returnDests
      && b.curblock == Some(|v.heap| + 3)
  {
    hide PushTo, PushBack, Connect, JumpTo, PlaceBlock, EnterNew, AddBlock, AddDeferredBlock, DoReturn, Grown;
    var test := |v.heap|;
    var tested := ForTest(id, iter, v);
    var made := AddDeferredBlock(AddDeferredBlock(AddBlock(tested)));
    var entered := JumpTo(At(made, test + 1), test + 3, false);
    var skipped := JumpTo(At(entered, test + 2), test + 5, false);
    ForTestFrame(id, iter, v);
    ForBlocksFrame(tested);
    FrameTrans(v, tested, made, v.curblock, None, v.curblock);
    JumpFrame(At(made, test + 1), test + 3, false);
    FrameTrans(v, made, entered, v.curblock, Some(test + 1), v.curblock);
    JumpFrame(At(entered, test + 2), test + 5, false);
    FrameTrans(v, entered, skipped, v.curblock, Some(test + 2), v.curblock);
    PushFrame(At(PushLoop(skipped, test, test + 4), test + 3), Do(NextItem(id, target)));
    FrameTrans(v, skipped, ForBody(id, iter, target, v), v.curblock, Some(test + 3), v.curblock);
  }

  lemma ForEndBodyFrame(id: nat, iter: nat, target: nat, v: Visitor, w: Visitor)
    requires v.curblock.Some? && ValidCur(v)
    requires Visited(ForBody(id, iter, target, v), w)
    ensures var after := ForEndBody(id, v, w);
      && Frame(w, after, w.curblock) && Frame(v, after, v.curblock)
      && SameScopes(v, after) && |after.heap| >= |v.heap| + 6
  {
    hide PushTo, PushBack, Connect, JumpTo, PlaceBlock, EnterNew, AddBlock, AddDeferredBlock, DoReturn, Grown;
    var b := ForBody(id, iter, target, v);
    var after := ForEndBody(id, v, w);
    ForBodyFrame(id, iter, target, v);
    FrameTrans(v, b, w, v.curblock, b.curblock, v.curblock);
    FrameRefl(w, w.curblock);
    if w.curblock.Some? {
      ForAgainFrame(id, v, PopLoop(w));
    }
    FrameTrans(v, w, after, v.curblock, w.curblock, v.curblock);
  }

  lemma ForAgainFrame(id: nat, v: Visitor, p: Visitor)
    requires p.curblock.Some? && ValidCur(p)
    ensures var again := JumpTo(At(Fork(p, HasNext(id)), |p.heap|), |v.heap| + 3, true);
      var end := JumpTo(At(again, |p.heap| + 1), |v.heap| + 5, false);
      Frame(p, end, p.curblock) && SameScopes(p, end)
  {
    hide PushTo, PushBack, Connect, JumpTo, PlaceBlock, EnterNew, AddBlock, AddDeferredBlock, DoReturn, Grown;
    var forked := Fork(p, HasNext(id));
    var again := JumpTo(At(forked, |p.heap|), |v.heap| + 3, true);
    ForkFrame(p, HasNext(id));
    JumpFrame(At(forked, |p.heap|), |v.heap| + 3, true);
    FrameTrans(p, forked, again, p.curblock, Some(|p.heap|), p.curblock);
    JumpFrame(At(again, |p.heap| + 1), |v.heap| + 5, false);
    FrameTrans(p, again, JumpTo(At(again, |p.heap| + 1), |v.heap| + 5, false), p.curblock, Some(|p.heap| + 1), p.curblock);
  }

  lemma ForEndFrame(v: Visitor, after: Visitor, x: Visitor)
    requires v.curblock.Some? && ValidCur(v) && |after.heap| >= |v.heap| + 6
    requires Frame(v, after, v.curblock) && Visited(ForOrelse(v, after), x)
    requires SameScopes(v, after)
    ensures Visited(v, ForEnd(v, x))
    ensures Frame(x, ForEnd(v, x), x.curblock)
  {
    hide PushTo, PushBack, Connect, JumpTo, PlaceBlock, EnterNew, AddBlock, AddDeferredBlock, DoReturn, Grown;
    var e := ForOrelse(v, after);
    var y := JumpTo(x, |v.heap| + 4, false);
    PlaceFrame(after, |v.heap| + 5);
    FrameTrans(v, after, e, v.curblock, None, v.curblock);
    FrameTrans(v, e, x, v.curblock, e.curblock, v.curblock);
    JumpFrame(x, |v.heap| + 4, false);
    PlaceFrame(y, |v.heap| + 4);
    FrameTrans(x, y, ForEnd(v, x), x.curblock, None, x.curblock);
    FrameTrans(v, x, ForEnd(v, x), v.curblock, x.curblock, v.curblock);
  }

  // ---- with -------------------------------------------------------------------------------

  lemma WithBodyFrame(id: nat, context: nat, vars: Option<nat>, v: Visitor)
    requires ValidCur(v)
    ensures var b := WithBody(id, context, vars, v);
      && Frame(v, b, v.curblock) && |b.heap| == WithReturn(v) + 1 && b.curblock == v.curblock
      && b.returnDests == v.returnDests + [WithReturn(v)]
      && b.loops == if v.loops == [] then [] else v.loops + [LoopInfo(|v.heap|, |v.heap| + 1)]
  {
    hide PushTo, PushBack, Connect, JumpTo, PlaceBlock, EnterNew, AddBlock, AddDeferredBlock, DoReturn, Grown;
    var one := PushBack(v, Do(MakeContext(id, context)));
    var two := PushBack(one, Do(LoadExit(id)));
    var entered := PushBack(two, Do(Enter(id, vars)));
    PushFrame(v, Do(MakeContext(id, context)));
    PushFrame(one, Do(LoadExit(id)));
    FrameTrans(v, one, two, v.curblock, v.curblock, v.curblock);
    PushFrame(two, Do(Enter(id, vars)));
    FrameTrans(v, two, entered, v.curblock, v.curblock, v.curblock);
    WithBlocksFrame(entered);
    FrameTrans(v, entered, WithBody(id, context, vars, v), v.curblock, None, v.curblock);
  }

  predicate Deferred(v: Visitor, w: Visitor, n: nat) {
    SameScopes(v, w) && |w.heap| == |v.heap| + n && w.curblock == v.curblock
  }

  lemma WithBlocksFrame(v: Visitor)
    ensures Frame(v, AddDeferredBlock(v), None) && Deferred(v, AddDeferredBlock(v), 1)
    ensures var c := AddDeferredBlock(PushLoop(AddDeferredBlock(AddDeferredBlock(v)), |v.heap|, |v.heap| + 1));
      Frame(v, c, None) && Deferred(v.(loops := c.loops), c, 3) && c.loops == v.loops + [LoopInfo(|v.heap|, |v.heap| + 1)]
  {
    hide PushTo, PushBack, Connect, JumpTo, PlaceBlock, EnterNew, AddBlock, AddDeferredBlock, DoReturn, Grown;
    var a := AddDeferredBlock(v);
    var b := PushLoop(AddDeferredBlock(a), |v.heap|, |v.heap| + 1);
    AddFrame(v); AddFrame(a); AddFrame(b);
    FrameTrans(v, a, b, None, None, None);
    FrameTrans(v, b, AddDeferredBlock(b), None, None, None);
  }

  lemma WithExitFrame(id: nat, w: Visitor, dest: nat, orig: nat)
    ensures Frame(w, WithExit(id, w, dest, orig), Some(dest))
    ensures WithExit(id, w, dest, orig).loops == w.loops && WithExit(id, w, dest, orig).returnDests == w.returnDests
    ensures |WithExit(id, w, dest, orig).heap| == |w.heap|
  {
    hide PushTo, PushBack, Connect, JumpTo, PlaceBlock, EnterNew, AddBlock, AddDeferredBlock, DoReturn, Grown;
    FrameRefl(w, Some(dest));
    if HasPredecessors(w, dest) {
      var a := PushBack(At(w, dest), Do(CallExit(id)));
      var b := PlaceBlock(a, dest);
      var c := PushBack(b, Jump(orig));
      PushFrame(At(w, dest), Do(CallExit(id)));
      PlaceFrame(a, dest);
      FrameTrans(w, a, b, Some(dest), None, Some(dest));
      PushFrame(b, Jump(orig));
      FrameTrans(w, b, c, Some(dest), Some(dest), Some(dest));
      ConnectFrame(c, dest, orig, true);
      FrameTrans(w, c, WithExit(id, w, dest, orig), Some(dest), Some(dest), Some(dest));
    }
  }

  /** The exits of a `with` only open its own deferred blocks. */
  lemma WithLoopExitsFrame(id: nat, v: Visitor, u: Visitor, w: Visitor, open: Option<nat>)
    requires |v.heap| <= |u.heap| && Frame(v, w, open)
    requires w.loops == if v.loops == [] then [] else v.loops + [LoopInfo(|v.heap|, |v.heap| + 1)]
    ensures Frame(v, WithLoopExits(id, v, w), open)
    ensures WithLoopExits(id, v, w).loops == v.loops && WithLoopExits(id, v, w).returnDests == w.returnDests
    ensures WithLoopExits(id, v, w).curblock == w.curblock
    ensures |WithLoopExits(id, v, w).heap| == |w.heap|
  {
    hide PushTo, PushBack, Connect, JumpTo, PlaceBlock, EnterNew, AddBlock, AddDeferredBlock, DoReturn, Grown;
    if v.loops != [] {
      var outer := v.loops[|v.loops| - 1];
      var a := WithExit(id, w, |v.heap|, outer.continueDest);
      WithExitFrame(id, w, |v.heap|, outer.continueDest);
      FrameTrans(v, w, a, open, Some(|v.heap|), open);
      WithExitFrame(id, a, |v.heap| + 1, outer.breakDest);
      FrameTrans(v, a, WithExit(id, a, |v.heap| + 1, outer.breakDest), open, Some(|v.heap| + 1), open);
    }
  }

  lemma WithReturnExitFrame(id: nat, v: Visitor, w: Visitor, open: Option<nat>)
    requires Frame(v, w, open)
    ensures Frame(v, WithReturnExit(id, v, w), open)
    ensures WithReturnExit(id, v, w).loops == w.loops && WithReturnExit(id, v, w).returnDests == w.returnDests
    ensures WithReturnExit(id, v, w).curblock == w.curblock
    ensures |WithReturnExit(id, v, w).heap| == |w.heap|
  {
    hide PushTo, PushBack, Connect, JumpTo, PlaceBlock, EnterNew, AddBlock, AddDeferredBlock, DoReturn, Grown;
    var dest := WithReturn(v);
    if HasPredecessors(w, dest) {
      var a := At(PlaceBlock(w, dest), dest);
      var b := PushBack(a, Do(CallExit(id)));
      PlaceFrame(w, dest);
      PushFrame(a, Do(CallExit(id)));
      FrameTrans(w, a, b, None, Some(dest), Some(dest));
      DoReturnFrame(b, SavedName);
      FrameTrans(w, b, DoReturn(b, SavedName), Some(dest), Some(dest), Some(dest));
      FrameTrans(v, w, DoReturn(b, SavedName), open, Some(dest), open);
    }
  }

  lemma WithEndFrame(id: nat, context: nat, vars: Option<nat>, v: Visitor, w: Visitor)
    requires ValidCur(v) && Visited(WithBody(id, context, vars, v), w)
    ensures Visited(v, WithEnd(id, v, w))
  {
    hide PushTo, PushBack, Connect, JumpTo, PlaceBlock, EnterNew, AddBlock, AddDeferredBlock, DoReturn, Grown;
    var b := WithBody(id, context, vars, v);
    var exited := PushBack(w, Do(CallExit(id)));
    WithBodyFrame(id, context, vars, v);
    FrameTrans(v, b, w, v.curblock, b.curblock, v.curblock);
    PushFrame(w, Do(CallExit(id)));
    FrameTrans(v, w, exited, v.curblock, w.curblock, v.curblock);
    WithLoopExitsFrame(id, v, b, exited, v.curblock);
    WithReturnExitFrame(id, v, PopReturn(WithLoopExits(id, v, exited)), v.curblock);
  }
}
