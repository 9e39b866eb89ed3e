/** The shape the inverted `for` makes (src/core/cfg.cpp, visit_for): a first test at n, the loop
    block at n + 3 that every later test leads back to, the exit at n + 4 and the else arm at n + 5. */
module ShapeFor {
  import opened Commons
  import opened Source
  import opened Lowering
  import opened ShapeBase
  import opened ShapeSteps
  import opened ShapeRules
  import opened ShapeVisits
  import opened ShapeArms
  import opened ShapeLoops
  import opened ShapeWhile

  /** What is finished once the loop is entered: n alone leads into r, and n + 3 into q. */
  ghost predicate Inverted(v: Visitor, y: Visitor, r: set<nat>, q: set<nat>) {
    v.curblock.Some? &&
    var n, c := |v.heap|, v.curblock.value;
    && c < n && n + 6 <= |y.heap|
    && Terminated(y.heap[c]) && Succs(y, c) == [n]
    && Terminated(y.heap[n]) && Succs(y, n) == [n + 1, n + 2]
    && Terminated(y.heap[n + 1]) && Succs(y, n + 1) == [n + 3] && OnlyFrom(y, n + 1, n)
    && Terminated(y.heap[n + 2]) && Succs(y, n + 2) == [n + 5] && OnlyFrom(y, n + 2, n)
    && Heads(y, n, n, r) && Heads(y, n + 3, n + 3, q)
    && {n, n + 1, n + 2, n + 3} <= r && n + 3 in q && q <= r && n + 4 !in r && n + 5 !in r
  }

  lemma InvertedStays(v: Visitor, y: Visitor, w: Visitor, r: set<nat>, q: set<nat>, d: set<nat>, o: set<nat>, p: set<nat>)
    requires Inverted(v, y, r, q) && Ext(y, w, d, o, p) && d !! r
    requires forall x :: x in o ==> x != v.curblock.value && x != |v.heap| && x != |v.heap| + 1 && x != |v.heap| + 2
    requires forall x :: x in p ==> x >= |y.heap| || y.heap[x].idx == -1
    ensures Inverted(v, w, r, q)
  {
    hide Ext, Heads, Terminated;
    var n := |v.heap|;
    ExtSize(y, w, d, o, p);
    HeadsPlaced(y, n, n, r);
    HeadsStays(y, w, d, o, p, n, n, r);
    HeadsStays(y, w, d, o, p, n + 3, n + 3, q);
    Keeps(y, w, d, o, p, v.curblock.value);
    Keeps(y, w, d, o, p, n); Keeps(y, w, d, o, p, n + 1); Keeps(y, w, d, o, p, n + 2);
    assert n + 1 in r && n + 2 in r;
  }

  lemma HeadsPlaced(v: Visitor, lo: nat, t: nat, r: set<nat>)
    requires Heads(v, lo, t, r)
    ensures Placed(v, t)
  {}

  // ---- before the body --------------------------------------------------------------------------

  /** The first test, with a block for each outcome. */
  lemma ForTestSteps(id: nat, iter: nat, v: Visitor)
    requires Ready(v) && v.curblock.Some?
    ensures var (f, n, c) := (ForTest(id, iter, v), |v.heap|, v.curblock.value);
      && Grew(v, f, n, v.curblock, {}, {c}, {}) && SameContext(v, f) && |f.heap| == n + 3 && c < n
      && Terminated(f.heap[c]) && Succs(f, c) == [n] && OnlyFrom(f, n, c)
      && Terminated(f.heap[n]) && Succs(f, n) == [n + 1, n + 2]
      && OnlyFrom(f, n + 1, n) && OpenBody(f.heap[n + 1]) && OnlyFrom(f, n + 2, n) && OpenBody(f.heap[n + 2])
  {
    hide Sound, Ext, Sourced, Touched, LoopHead, ScopesOk, Terminated, Fork, PushBack;
    var n, c := |v.heap|, v.curblock.value;
    var s := PushBack(v, Do(MakeIter(id, iter)));
    PushShape(v, Do(MakeIter(id, iter)));
    SamePushed(v, Do(MakeIter(id, iter)));
    PushOpen(v, Do(MakeIter(id, iter)), n, v.curblock);
    ReadyAfter(v, s);
    var h := LoopHead(s);
    HeadSteps(s);
    ForkSteps(h, HasNext(id), n, v.curblock);
    var f := Fork(h, HasNext(id));
    ForTestIs(id, iter, v);
    GrewJoin(v, s, h, n, v.curblock, {}, {c}, {}, {}, {c}, {}, {}, {c}, {});
    GrewJoin(v, h, f, n, v.curblock, {}, {c}, {}, {}, {n}, {}, {}, {c}, {});
    Keeps(h, f, {}, {n}, {}, c); Keeps(h, f, {}, {n}, {}, n);
  }

  lemma ForTestIs(id: nat, iter: nat, v: Visitor)
    requires v.curblock.Some?
    ensures var s := PushBack(v, Do(MakeIter(id, iter)));
      |s.heap| == |v.heap| && s.curblock.Some? && ForTest(id, iter, v) == Fork(LoopHead(s), HasNext(id))
  {}

  /** The loop block, and the exit and else blocks to be placed later. */
  function ForBlocks(f: Visitor): Visitor {
    AddDeferredBlock(AddDeferredBlock(AddBlock(f)))
  }

  lemma ForBlocksSteps(f: Visitor, lo: nat, c: Option<nat>)
    requires Sound(f) && |f.heap| >= 1
    ensures var (w, m) := (ForBlocks(f), |f.heap|);
      && Grew(f, w, lo, c, {}, {}, {}) && Here(f, w) && |w.heap| == m + 3
      && Placed(w, m) && OpenBody(w.heap[m]) && Preds(w, m) == [] && Blank(w.heap[m + 1]) && Blank(w.heap[m + 2])
      && forall u: nat :: Placed(f, u) ==> w.heap[u].idx < w.heap[m].idx
  {
    hide Ext, Sourced, Dual, Ordered;
    var x := AddBlock(f);
    var y := AddDeferredBlock(x);
    var w := AddDeferredBlock(y);
    AddSteps(f, lo, c);
    DeferSteps(x, lo, c);
    DeferSteps(y, lo, c);
    GrewJoin(f, x, y, lo, c, {}, {}, {}, {}, {}, {}, {}, {}, {});
    GrewJoin(f, y, w, lo, c, {}, {}, {}, {}, {}, {}, {}, {}, {});
    forall u: nat | Placed(f, u) ensures w.heap[u].idx < w.heap[|f.heap|].idx {
      assert f.heap[u].idx < |f.blocks| && w.heap[u] == f.heap[u];
    }
  }

  /** The first test's success leads on to the loop block. */
  function ForLed(id: nat, iter: nat, v: Visitor): Visitor
    requires v.curblock.Some?
  {
    var n := |v.heap|;
    JumpTo(At(ForBlocks(ForTest(id, iter, v)), n + 1), n + 3, false)
  }

  /** Both outcomes lead on. */
  function ForSkipped(id: nat, iter: nat, v: Visitor): Visitor
    requires v.curblock.Some?
  {
    var n := |v.heap|;
    JumpTo(At(ForLed(id, iter, v), n + 2), n + 5, false)
  }

  ghost predicate Led(v: Visitor, x: Visitor) {
    v.curblock.Some? &&
    var (n, c) := (|v.heap|, v.curblock.value);
    && Grew(v, x, n, v.curblock, {}, {c}, {}) && |x.heap| == n + 6 && SameContext(v, x) && c < n
    && Terminated(x.heap[c]) && Succs(x, c) == [n] && OnlyFrom(x, n, c)
    && Terminated(x.heap[n]) && Succs(x, n) == [n + 1, n + 2]
    && Terminated(x.heap[n + 1]) && Succs(x, n + 1) == [n + 3] && OnlyFrom(x, n + 1, n)
    && OnlyFrom(x, n + 2, n) && OpenBody(x.heap[n + 2])
    && OnlyFrom(x, n + 3, n + 1) && OpenBody(x.heap[n + 3]) && Blank(x.heap[n + 4]) && Blank(x.heap[n + 5])
  }

  lemma ForLeads(id: nat, iter: nat, v: Visitor)
    requires Ready(v) && v.curblock.Some?
    ensures Led(v, ForLed(id, iter, v))
  {
    hide Sound, Ext, Sourced, Touched, ScopesOk, Terminated, ForTest, ForBlocks, JumpTo, OpenBody;
    var n, c, cc := |v.heap|, v.curblock.value, v.curblock;
    var f := ForTest(id, iter, v);
    ForTestSteps(id, iter, v);
    var g := ForBlocks(f);
    ForBlocksSteps(f, n, cc);
    Keeps(f, g, {}, {}, {}, c); Keeps(f, g, {}, {}, {}, n); Keeps(f, g, {}, {}, {}, n + 1); Keeps(f, g, {}, {}, {}, n + 2);
    assert Placed(f, n + 1);
    var x := JumpTo(At(g, n + 1), n + 3, false);
    JumpFrom(g, n + 1, n + 3, false, n, cc);
    var e, o := {n + 3}, {n + 1};
    Keeps(g, x, e, o, {}, c); Keeps(g, x, e, o, {}, n); Keeps(g, x, e, o, {}, n + 1); Keeps(g, x, e, o, {}, n + 2);
    Keeps(g, x, e, o, {}, n + 3);
    StaysBlank(g, x, e, o, {}, n + 4); StaysBlank(g, x, e, o, {}, n + 5);
    GrewJoin(v, f, g, n, cc, {}, {c}, {}, {}, {}, {}, {}, {c}, {});
    GrewJoin(v, g, x, n, cc, {}, {c}, {}, e, o, {}, {}, {c}, {});
  }

  ghost predicate ForEntered(v: Visitor, s: Visitor) {
    v.curblock.Some? &&
    var (n, c) := (|v.heap|, v.curblock.value);
    && Grew(v, s, n, v.curblock, {}, {c}, {}) && |s.heap| == n + 6 && SameContext(v, s)
    && Inverted(v, s, {n, n + 1, n + 2, n + 3}, {n + 3})
    && OnlyFrom(s, n + 3, n + 1) && OpenBody(s.heap[n + 3]) && Blank(s.heap[n + 4]) && Spare(s, n + 5) && Preds(s, n + 5) == [n + 2]
  }

  lemma ForSkips(id: nat, iter: nat, v: Visitor)
    requires Ready(v) && v.curblock.Some?
    ensures ForEntered(v, ForSkipped(id, iter, v))
  {
    hide Sound, Ext, Sourced, Touched, ScopesOk, Terminated, ForLed, JumpTo, OpenBody;
    var n, c, cc := |v.heap|, v.curblock.value, v.curblock;
    var x := ForLed(id, iter, v);
    ForLeads(id, iter, v);
    var s := JumpTo(At(x, n + 2), n + 5, false);
    JumpFrom(x, n + 2, n + 5, false, n, cc);
    var e, o := {n + 5}, {n + 2};
    Keeps(x, s, e, o, {}, c); Keeps(x, s, e, o, {}, n); Keeps(x, s, e, o, {}, n + 1); Keeps(x, s, e, o, {}, n + 2);
    Keeps(x, s, e, o, {}, n + 3);
    StaysBlank(x, s, e, o, {}, n + 4);
    StaysSpare(x, s, e, o, {}, n + 5);
    GrewJoin(v, x, s, n, cc, {}, {c}, {}, e, o, {}, {}, {c}, {});
    assert Region(s, n, n, {n, n + 1, n + 2, n + 3}) && Region(s, n + 3, n + 3, {n + 3});
  }

  /** The loop's scopes are open and its block has fetched an item. */
  ghost predicate ForBodyOpen(v: Visitor, a: Visitor) {
    v.curblock.Some? &&
    var (n, c) := (|v.heap|, v.curblock.value);
    && Ready(a) && a.curblock == Some(n + 3) && |a.heap| == n + 6 && Grew(v, a, n, v.curblock, {}, {c}, {})
    && a.loops == v.loops + [LoopInfo(n, n + 4)] && a.returnDests == v.returnDests && a.inFunction == v.inFunction
    && Touched(a) == {n, n + 4} + Returns(v)
    && Inverted(v, a, {n, n + 1, n + 2, n + 3}, {n + 3})
    && OnlyFrom(a, n + 3, n + 1) && Blank(a.heap[n + 4]) && Spare(a, n + 5) && Preds(a, n + 5) == [n + 2]
  }

  lemma ForOpens(id: nat, iter: nat, target: nat, v: Visitor)
    requires Ready(v) && v.curblock.Some?
    ensures ForBodyOpen(v, ForBody(id, iter, target, v))
  {
    hide Sound, Ext, Sourced, ScopesOk, Terminated, ForSkipped, OpenBody, Inverted, PushBack, Touched, Preds, Succs, Waiting;
    var n, c, cc := |v.heap|, v.curblock.value, v.curblock;
    var s, node := ForSkipped(id, iter, v), Do(NextItem(id, target));
    ForSkips(id, iter, v);
    var x := At(PushLoop(s, n, n + 4), n + 3);
    ForBodyIs(id, iter, target, v);
    SameBlocks(s, x);
    assert Sourced(s, x, n, cc);
    GrewJoin(v, s, x, n, cc, {}, {c}, {}, {}, {}, {}, {}, {c}, {});
    var a := PushBack(x, node);
    PushOpen(x, node, n, cc);
    GrewJoin(v, x, a, n, cc, {}, {c}, {}, {}, {n + 3}, {}, {}, {c}, {});
    InvertedStays(v, s, x, {n, n + 1, n + 2, n + 3}, {n + 3}, {}, {}, {});
    InvertedStays(v, x, a, {n, n + 1, n + 2, n + 3}, {n + 3}, {}, {n + 3}, {});
    SpareLater(s, x, a, n);
    InvertedHead(v, a, {n, n + 1, n + 2, n + 3}, {n + 3});
    LoopIsOk(a, LoopInfo(n, n + 4));
    ScopesPushed(v, a, LoopInfo(n, n + 4));
    LoopTouches(v, a);
  }

  lemma ForBodyIs(id: nat, iter: nat, target: nat, v: Visitor)
    requires v.curblock.Some?
    ensures ForBody(id, iter, target, v) ==
      PushBack(At(PushLoop(ForSkipped(id, iter, v), |v.heap|, |v.heap| + 4), |v.heap| + 3), Do(NextItem(id, target)))
  {}

  lemma SpareLater(s: Visitor, x: Visitor, a: Visitor, n: nat)
    requires x.heap == s.heap && Ext(x, a, {}, {n + 3}, {}) && |s.heap| == n + 6
    requires OnlyFrom(s, n + 3, n + 1) && Blank(s.heap[n + 4]) && Spare(s, n + 5) && Preds(s, n + 5) == [n + 2]
    ensures OnlyFrom(a, n + 3, n + 1) && Blank(a.heap[n + 4]) && Spare(a, n + 5) && Preds(a, n + 5) == [n + 2]
  {
    Keeps(x, a, {}, {n + 3}, {}, n + 1); Keeps(x, a, {}, {n + 3}, {}, n + 3);
    StaysBlank(x, a, {}, {n + 3}, {}, n + 4);
    StaysSpare(x, a, {}, {n + 3}, {}, n + 5);
  }

  lemma InvertedHead(v: Visitor, y: Visitor, r: set<nat>, q: set<nat>)
    requires Inverted(v, y, r, q)
    ensures Preds(y, |v.heap|) != [] && Placed(y, |v.heap|) && v.curblock.Some? && v.curblock.value < |v.heap|
  {}

  lemma LoopIsOk(a: Visitor, l: LoopInfo)
    requires l.breakDest < |a.heap| && Blank(a.heap[l.breakDest]) && Placed(a, l.continueDest) && Preds(a, l.continueDest) != []
    requires a.curblock != Some(l.continueDest)
    ensures LoopOk(a, l)
  {}

  lemma LoopTouches(v: Visitor, a: Visitor)
    requires a.curblock.Some? && a.returnDests == v.returnDests && a.loops != []
    ensures var l := a.loops[|a.loops| - 1]; Touched(a) == {l.continueDest, l.breakDest} + Returns(v)
  {}

  // ---- after the body -----------------------------------------------------------------------------

  /** The repeated test: back to the loop block, or on to the else arm. */
  function Again(x: Visitor, cond: Cond, n: nat): Visitor
    requires x.curblock.Some?
  {
    var e := |x.heap|;
    JumpTo(At(JumpTo(At(Fork(x, cond), e), n + 3, true), e + 1), n + 5, false)
  }

  predicate MayRepeat(x: Visitor, n: nat) {
    && AtOpen(x) && (x.curblock.value >= n + 6 || x.curblock.value == n + 3) && |x.heap| >= n + 6
    && Preds(x, n + 3) != [] && Spare(x, n + 5)
  }

  ghost predicate Repeated(x: Visitor, y: Visitor, n: nat) {
    x.curblock.Some? &&
    var (e, u) := (|x.heap|, x.curblock.value);
    && Grew(x, y, n + 6, Some(n + 3), {n + 3, n + 5}, {u}, {}) && SameContext(x, y) && |y.heap| == e + 2
    && TailOk(y, n + 6, u) && Done(y, n + 6, e) && Done(y, n + 6, e + 1)
    && Preds(y, n + 5) == Preds(x, n + 5) + [e + 1]
  }

  lemma ForRepeats(x: Visitor, cond: Cond, n: nat)
    requires Sound(x) && MayRepeat(x, n)
    ensures Repeated(x, Again(x, cond, n), n)
  {
    hide Sound, Ext, Sourced, Terminated, Fork, JumpTo, OpenBody;
    var e, u, m, cc := |x.heap|, x.curblock.value, n + 6, Some(n + 3);
    var f := Fork(x, cond);
    ForkSteps(x, cond, m, cc);
    Keeps(x, f, {}, {u}, {}, n + 3);
    StaysSpareEdge(x, f, {u}, n + 5);
    var g := JumpTo(At(f, e), n + 3, true);
    JumpFrom(f, e, n + 3, true, m, cc);
    var d, o := {n + 3}, {e};
    Keeps(f, g, d, o, {}, u); Keeps(f, g, d, o, {}, e); Keeps(f, g, d, o, {}, e + 1); Keeps(f, g, d, o, {}, n + 5);
    var y := JumpTo(At(g, e + 1), n + 5, false);
    JumpFrom(g, e + 1, n + 5, false, m, cc);
    var d', o' := {n + 5}, {e + 1};
    Keeps(g, y, d', o', {}, u); Keeps(g, y, d', o', {}, e); Keeps(g, y, d', o', {}, e + 1);
    GrewJoin(x, f, g, m, cc, {}, {u}, {}, d, o, {}, d, {u}, {});
    GrewJoin(x, g, y, m, cc, d, {u}, {}, d', o', {}, {n + 3, n + 5}, {u}, {});
    assert OnlyFrom(y, e, u) && OnlyFrom(y, e + 1, u);
    EndsDone(y, m, e, u); EndsDone(y, m, e + 1, u);
    assert TailOk(y, m, u);
  }

  lemma StaysSpareEdge(x: Visitor, f: Visitor, o: set<nat>, b: nat)
    requires Spare(x, b) && Ext(x, f, {}, o, {})
    ensures Waiting(f, b) && Preds(f, b) == Preds(x, b)
  {
    assert x.heap[b] == x.heap[b];
  }

  lemma EndsDone(y: Visitor, m: nat, e: nat, u: nat)
    requires OnlyFrom(y, e, u) && Terminated(y.heap[e]) && |Succs(y, e)| <= 1
    ensures Done(y, m, e)
  {
    hide Terminated;
    EntryForward(y, m, e, u);
    OneWayTail(y, m, e);
  }

  lemma ForEndIs(id: nat, v: Visitor, x: Visitor)
    ensures var z := PopLoop(x);
      ForEndBody(id, v, x) == if z.curblock.None? then z else Again(z, HasNext(id), |v.heap|)
  {}

  /** The body's blocks are finished once it has come back to the test. */
  lemma RepeatedSettles(x: Visitor, y: Visitor, n: nat)
    requires Sound(x) && Repeated(x, y, n) && Settled(x, n + 6, |x.heap|, x.curblock) && |x.heap| >= n + 6
    requires x.curblock.value >= n + 6 ==> EntryOk(x, n + 6, x.curblock.value)
    ensures Settled(y, n + 6, |y.heap|, None)
  {
    hide Indexed, Dual, Ordered, Sourced, Ext, EntryOk, TailOk, Done;
    var m, u, d := n + 6, x.curblock.value, {n + 3, n + 5};
    SettledStays(x, y, d, {u}, {}, m, m, x.curblock);
    if u >= m {
      EntryStays(x, y, d, {u}, {}, m, m, u);
      DoneFrom(y, m, u);
    }
  }

  /** After the body, whether or not it runs off its end. */
  ghost predicate BodyEnded(a: Visitor, y: Visitor, n: nat) {
    && Grew(a, y, n + 6, Some(n + 3), Touched(a) + {n + 3, n + 5}, {n + 3}, {}) && |y.heap| >= n + 6
    && Settled(y, n + 6, |y.heap|, None) && TailOk(y, n + 6, n + 3)
  }

  lemma ForBodyEnds(id: nat, v: Visitor, a: Visitor, x: Visitor)
    requires Ready(v) && ForBodyOpen(v, a) && Shape(a, x)
    ensures var y := ForEndBody(id, v, x);
      && BodyEnded(a, y, |v.heap|) && SameContext(v, y) && Preds(x, |v.heap| + 5) <= Preds(y, |v.heap| + 5)
      && forall i: nat {:trigger Preds(y, i)} :: i < |x.heap| && i != |v.heap| + 3 && i != |v.heap| + 5 ==> Preds(y, i) == Preds(x, i)
  {
    hide Sound, Ext, Sourced, Terminated, OpenBody, Inverted, Touched, ScopesOk, EntryOk, TailOk, Settled, Again, Done;
    var n, m, cc := |v.heap|, |v.heap| + 6, Some(|v.heap| + 3);
    var z := PopLoop(x);
    ForEndIs(id, v, x);
    SameBlocks(x, z);
    assert Sourced(x, z, m, cc);
    MovedSettled(x, z);
    GrewJoin(a, x, z, m, cc, Touched(a), {n + 3}, {}, {}, {}, {}, Touched(a), {n + 3}, {});
    if z.curblock.None? {
      MovedTail(x, z, m, n + 3);
      GrewOnly(a, z, m, cc, Touched(a), {n + 3}, {}, Touched(a) + {n + 3, n + 5}, {n + 3}, {});
      ExtSize(a, z, Touched(a), {n + 3}, {});
    } else {
      LiveBodyEnds(v, a, x, z, HasNext(id));
    }
  }

  lemma LiveBodyEnds(v: Visitor, a: Visitor, x: Visitor, z: Visitor, cond: Cond)
    requires Ready(v) && ForBodyOpen(v, a) && Shape(a, x) && x.curblock.Some? && z == PopLoop(x) && SameContext(v, z)
    requires Grew(a, z, |v.heap| + 6, Some(|v.heap| + 3), Touched(a), {|v.heap| + 3}, {})
    requires forall i: nat {:trigger Preds(z, i)} :: Preds(z, i) == Preds(x, i)
    ensures var y := Again(z, cond, |v.heap|);
      && BodyEnded(a, y, |v.heap|) && SameContext(v, y) && Preds(x, |v.heap| + 5) <= Preds(y, |v.heap| + 5)
      && forall i: nat {:trigger Preds(y, i)} :: i < |x.heap| && i != |v.heap| + 3 && i != |v.heap| + 5 ==> Preds(y, i) == Preds(x, i)
  {
    hide Sound, Ext, Sourced, Terminated, OpenBody, Inverted, Touched, ScopesOk, EntryOk, TailOk, Settled, Again, Done;
    var n, m, cc, u := |v.heap|, |v.heap| + 6, Some(|v.heap| + 3), x.curblock.value;
    MovedSettled(x, z);
    TouchedNew(v, a);
    Keeps(a, z, Touched(a), {n + 3}, {}, n + 3);
    StaysSpare(a, z, Touched(a), {n + 3}, {}, n + 5);
    assert z.curblock == x.curblock && z.heap == x.heap;
    ForRepeats(z, cond, n);
    var y := Again(z, cond, n);
    if u >= m { MovedEntry(x, z, m, u); }
    RepeatedSettles(z, y, n);
    UntouchedPreds(z, y, m, cc, {n + 3, n + 5}, {u}, {});
    GrewJoin(a, z, y, m, cc, Touched(a), {n + 3}, {}, {n + 3, n + 5}, {u}, {}, Touched(a) + {n + 3, n + 5}, {n + 3}, {});
    if u != n + 3 {
      MovedTail(x, z, m, n + 3);
      TailStays(z, y, {n + 3, n + 5}, {u}, {}, m, m, n + 3);
    }
  }

  lemma TouchedNew(v: Visitor, a: Visitor)
    requires Ready(v) && ForBodyOpen(v, a)
    ensures forall t :: t in Touched(a) ==> t == |v.heap| || t == |v.heap| + 4 || t < |v.heap|
    ensures Preds(a, |v.heap| + 3) != []
    ensures Returns(v) <= Touched(v) && forall t :: t in Returns(v) ==> t < |v.heap|
  {
    hide Sound, Inverted, Grew, Touched, ScopesOk;
    ReturnsOld(v);
    ReturnsTouched(v);
  }

  lemma ReturnsOld(v: Visitor)
    requires Ready(v)
    ensures forall t :: t in Returns(v) ==> t < |v.heap|
  {
    hide Sound;
  }

  ghost predicate HalfFor(v: Visitor, y: Visitor, r: set<nat>, q: set<nat>) {
    v.curblock.Some? &&
    var n := |v.heap|;
    && Inverted(v, y, r, q) && SameContext(v, y) && Grew(v, y, n, v.curblock, Touched(v), Cur(v), {})
    && Spare(y, n + 4) && Spare(y, n + 5) && Preds(y, n + 5) != []
    && Settled(y, n + 6, |y.heap|, None) && TailOk(y, n + 6, n + 3)
  }

  lemma ForHalfway(id: nat, v: Visitor, a: Visitor, x: Visitor) returns (r: set<nat>, q: set<nat>)
    requires Ready(v) && ForBodyOpen(v, a) && Shape(a, x)
    ensures var y := ForEndBody(id, v, x);
      && HalfFor(v, y, r, q) && Preds(y, |v.heap| + 4) == Preds(x, |v.heap| + 4)
      && forall i: nat {:trigger Preds(y, i)} :: i < |v.heap| ==> Preds(y, i) == Preds(x, i)
  {
    hide Sound, Ext, Sourced, Terminated, OpenBody, Touched, ScopesOk, EntryOk, TailOk, Settled, Done, Heads, ForEndBody;
    var n, c := |v.heap|, v.curblock.value;
    var y := ForEndBody(id, v, x);
    ForBodyEnds(id, v, a, x);
    var d, o := Touched(a) + {n + 3, n + 5}, {n + 3};
    SoundPartsOf(a);
    BodyRegion(a, y, n, n, {n, n + 1, n + 2, n + 3}, n + 3, d, o);
    BodyRegion(a, y, n + 3, n + 3, {n + 3}, n + 3, d, o);
    r, q := Inner({n, n + 1, n + 2, n + 3}, n + 6, |y.heap|), Inner({n + 3}, n + 6, |y.heap|);
    TouchedNew(v, a);
    Keeps(a, y, d, o, {}, c); Keeps(a, y, d, o, {}, n); Keeps(a, y, d, o, {}, n + 1); Keeps(a, y, d, o, {}, n + 2);
    StaysSpare(a, y, d, o, {}, n + 4); StaysSpare(a, y, d, o, {}, n + 5);
    GrewWiden(a, y, n + 6, Some(n + 3), n, v.curblock, d, o, {});
    GrewJoin(v, a, y, n, v.curblock, {}, Cur(v), {}, d, o, {}, Touched(v), Cur(v), {});
    ElseEntered(a, x, y, n);
    XLonger(a, x);
  }

  lemma XLonger(a: Visitor, x: Visitor)
    requires Shape(a, x)
    ensures |a.heap| <= |x.heap|
  {}

  lemma ElseEntered(a: Visitor, x: Visitor, y: Visitor, n: nat)
    requires Shape(a, x) && Preds(a, n + 5) == [n + 2] && Preds(x, n + 5) <= Preds(y, n + 5)
    ensures Preds(y, n + 5) != []
  {
    assert Preds(a, n + 5) <= Preds(x, n + 5);
  }

  lemma ForReopens(v: Visitor, y: Visitor, r: set<nat>, q: set<nat>)
    requires Ready(v) && HalfFor(v, y, r, q)
    ensures var (a, n) := (ForOrelse(v, y), |v.heap|);
      && Opens(a, n + 5) && |a.heap| == |y.heap| && Touched(a) == Touched(v) && SameContext(v, a)
      && Grew(v, a, n, v.curblock, Touched(v), Cur(v), {}) && Ext(y, a, {}, {}, {n + 5})
      && Inverted(v, a, r, q) && Spare(a, n + 4) && TailOk(a, n + 6, n + 3)
      && forall i: nat {:trigger Preds(a, i)} :: Preds(a, i) == Preds(y, i)
  {
    hide Sound, Ext, Sourced, Terminated, Touched, ScopesOk, EntryOk, TailOk, Settled, Done, Inverted, PlaceBlock;
    var n := |v.heap|;
    var e, w, a := n + 5, PlaceBlock(y, n + 5), ForOrelse(v, y);
    PlaceSteps(y, e, n, v.curblock);
    GrewJoin(v, y, w, n, v.curblock, Touched(v), Cur(v), {}, {}, {}, {e}, Touched(v), Cur(v), {});
    Moved(v, w, a);
    SameBlocks(w, a);
    ExtTrans(y, w, a, {}, {}, {e}, {}, {}, {});
    ExtOnly(y, a, {} + {}, {} + {}, {e} + {}, {}, {}, {e});
    InvertedStays(v, y, a, r, q, {}, {}, {e});
    StaysSpare(y, a, {}, {}, {e}, n + 4);
    TailStays(y, w, {}, {}, {e}, n + 6, n + 6, n + 3);
    PlacedPreds(y, w, e);
    EntryLast(w, e, e);
    assert AtOpen(a);
    ReadyGrown(v, a, n, v.curblock, Touched(v), Cur(v), {});
    TouchedThere(v, a);
  }

  /** After the else arm, everything but the exit block is finished. */
  lemma ForJoined(v: Visitor, y: Visitor, r: set<nat>, q: set<nat>, x: Visitor)
    requires Ready(v) && HalfFor(v, y, r, q) && Shape(ForOrelse(v, y), x)
    ensures var (z, n) := (JumpTo(x, |v.heap| + 4, false), |v.heap|);
      && Inverted(v, z, r, q) && SameContext(v, z) && Grew(v, z, n, v.curblock, Touched(v), Cur(v), {})
      && Spare(z, n + 4) && Settled(z, n, |z.heap|, Some(n + 4)) && Preds(z, n + 4) == Preds(y, n + 4) + Came(x)
      && forall i: nat {:trigger Preds(z, i)} :: i < n ==> Preds(z, i) == Preds(x, i)
  {
    hide Sound, Ext, Sourced, Touched, Terminated, ScopesOk, EntryOk, TailOk, JumpTo, Settled, ForOrelse, Done, Inverted;
    var n, m, a, e, b := |v.heap|, |y.heap|, ForOrelse(v, y), |v.heap| + 4, |v.heap| + 5;
    var z := JumpTo(x, e, false);
    ForReopens(v, y, r, q);
    TouchedOld(v);
    StaysSpare(a, x, Touched(a), Cur(a), {}, e);
    ArmShape(a, b, x, e, false);
    var d := Touched(a) + {e};
    InvertedOutside(v, a, r, q);
    InvertedStays(v, a, z, r, q, d, {b}, {});
    StaysSpare(a, z, d, {b}, {}, e);
    GrewWiden(a, z, m, Some(b), n, v.curblock, d, {b}, {});
    GrewJoin(v, a, z, n, v.curblock, Touched(v), Cur(v), {}, d, {b}, {}, Touched(v), Cur(v), {});
    TailStays(a, z, d, {b}, {}, n + 6, n + 6, n + 3);
    ForSettled(v, y, a, z, r, q, d);
  }

  lemma InvertedOutside(v: Visitor, y: Visitor, r: set<nat>, q: set<nat>)
    requires Inverted(v, y, r, q)
    ensures |v.heap| + 4 !in r && |v.heap| + 5 !in r && forall x :: x in r ==> x >= |v.heap|
    ensures |v.heap| + 6 <= |y.heap| && v.curblock.Some? && v.curblock.value < |v.heap|
    ensures Terminated(y.heap[v.curblock.value]) && Succs(y, v.curblock.value) == [|v.heap|]
  {}

  /** The body's blocks, the else arm's blocks, and the loop's own. */
  lemma ForSettled(v: Visitor, y: Visitor, a: Visitor, z: Visitor, r: set<nat>, q: set<nat>, d: set<nat>)
    requires Sound(y) && Ext(y, a, {}, {}, {|v.heap| + 5}) && Ext(a, z, d, {|v.heap| + 5}, {}) && |a.heap| == |y.heap|
    requires Spare(y, |v.heap| + 5) && (forall t :: t in d ==> t < |v.heap| + 5)
    requires Settled(y, |v.heap| + 6, |y.heap|, None) && Settled(z, |a.heap|, |z.heap|, None)
    requires Done(z, |v.heap| + 5, |v.heap| + 5) && Inverted(v, z, r, q) && TailOk(z, |v.heap| + 6, |v.heap| + 3) && |y.heap| >= |v.heap| + 6
    ensures Settled(z, |v.heap|, |z.heap|, Some(|v.heap| + 4))
  {
    hide Ext, Ordered, Indexed, Dual, Done, Inverted, TailOk;
    var n, b, lo, m := |v.heap|, |v.heap| + 5, |v.heap| + 6, |a.heap|;
    ExtTrans(y, a, z, {}, {}, {b}, d, {b}, {});
    ExtOnly(y, z, {} + d, {} + {b}, {b} + {}, d, {b}, {b});
    SettledStays(y, z, d, {b}, {b}, lo, n, None);
    WideSettled(z, m, n, |z.heap|, None);
    assert Settled(z, b, b + 1, None);
    WideSettled(z, b, n, b + 1, None);
    assert Done(z, n, b);
    HeadersDone(v, z, r, q);
  }

  lemma HeadersDone(v: Visitor, z: Visitor, r: set<nat>, q: set<nat>)
    requires Inverted(v, z, r, q) && TailOk(z, |v.heap| + 6, |v.heap| + 3)
    ensures var n := |v.heap|; Done(z, n, n) && Done(z, n, n + 1) && Done(z, n, n + 2) && Done(z, n, n + 3)
  {
    hide Terminated, EntryOk, Heads;
    var n := |v.heap|;
    HeadsEntry(z, n, n, r);
    assert TailOk(z, n, n);
    EndsDone(z, n, n + 1, n);
    EndsDone(z, n, n + 2, n);
    HeadsEntry(z, n + 3, n + 3, q);
    WideEntry(z, n + 3, n, n + 3);
    WideTail(z, n + 6, n, n + 3);
  }

  /** Control continues in the exit block. */
  lemma ForCloses(v: Visitor, y: Visitor, r: set<nat>, q: set<nat>, x: Visitor)
    requires Ready(v) && HalfFor(v, y, r, q) && Shape(ForOrelse(v, y), x)
    requires Preds(y, |v.heap| + 4) != [] || x.curblock.Some?
    ensures var w := ForEnd(v, x);
      && Shape(v, w) && w.curblock.Some?
      && forall i: nat {:trigger Preds(w, i)} :: i < |v.heap| ==> Preds(w, i) == Preds(x, i)
  {
    hide Sound, Ext, Sourced, Touched, Terminated, ScopesOk, EntryOk, TailOk, JumpTo, Settled, ForOrelse, Done, Inverted;
    var n, e, z := |v.heap|, |v.heap| + 4, JumpTo(x, |v.heap| + 4, false);
    ForJoined(v, y, r, q, x);
    InvertedOutside(v, z, r, q);
    OneWayTail(z, n, v.curblock.value);
    ExitsTo(v, z, e);
  }
}
