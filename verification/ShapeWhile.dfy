/** The shape `while` makes (src/core/cfg.cpp, visit_while). */
module ShapeWhile {
  import opened Commons
  import opened Source
  import opened Lowering
  import opened ShapeBase
  import opened ShapeSteps
  import opened ShapeRules
  import opened ShapeVisits
  import opened ShapeArms
  import opened ShapeLoops

  /** The test block n, entered from c, leads to the body at n + 2; what leads back to n is inside. */
  ghost predicate Looping(v: Visitor, y: Visitor, r: set<nat>) {
    v.curblock.Some? &&
    var n, c := |v.heap|, v.curblock.value;
    && c < n && n + 3 <= |y.heap|
    && Terminated(y.heap[c]) && Succs(y, c) == [n]
    && Preds(y, n + 2) == [n] && Heads(y, n, n, r) && n in r && n + 2 in r && (forall x :: x in r ==> n <= x && x != n + 1)
  }

  lemma WhileOpens(v: Visitor)
    requires Ready(v) && v.curblock.Some?
    ensures var (a, n, c) := (WhileBody(v), |v.heap|, v.curblock.value);
      && Opens(a, n + 2) && |a.heap| == n + 3 && Grew(v, a, n, v.curblock, {}, {c}, {})
      && a.loops == v.loops + [LoopInfo(n, n + 1)] && a.returnDests == v.returnDests && a.inFunction == v.inFunction
      && Looping(v, a, {n, n + 2}) && Succs(a, n) == [n + 2] && NoEnd(a.heap[n].body) && Blank(a.heap[n + 1])
      && Preds(a, n) == [c] && Touched(a) == {n, n + 1} + Returns(v)
  {
    hide Sound, Ext, Sourced, Touched, EnterNew, LoopHead, ScopesOk, Terminated, JumpTo, AddBlock;
    var n, c := |v.heap|, v.curblock.value;
    var x := LoopHead(v);
    var y := AddDeferredBlock(x);
    var z := PushLoop(y, n, n + 1);
    var a := EnterNew(z, n);
    assert a == WhileBody(v) by { WhileBodyIs(v); }
    HeadSteps(v);
    DeferSteps(x, n, v.curblock);
    GrewJoin(v, x, y, n, v.curblock, {}, {c}, {}, {}, {}, {}, {}, {c}, {});
    SameBlocks(y, z);
    assert Sourced(y, z, n, v.curblock);
    GrewJoin(v, y, z, n, v.curblock, {}, {c}, {}, {}, {}, {}, {}, {c}, {});
    EnterSteps(z, n, n, v.curblock);
    GrewJoin(v, z, a, n, v.curblock, {}, {c}, {}, {}, {n}, {}, {}, {c}, {});
    Keeps(x, y, {}, {}, {}, n); Keeps(x, y, {}, {}, {}, c);
    Keeps(y, z, {}, {}, {}, n); Keeps(y, z, {}, {}, {}, c);
    Keeps(z, a, {}, {n}, {}, n); Keeps(z, a, {}, {n}, {}, c);
    StaysBlank(y, z, {}, {}, {}, n + 1); StaysBlank(z, a, {}, {n}, {}, n + 1);
    EntryForward(a, n + 2, n + 2, n);
    WhileScopes(v, a);
    assert Region(a, n, n, {n, n + 2}) && Placed(a, c);
  }

  lemma WhileBodyIs(v: Visitor)
    requires v.curblock.Some?
    ensures WhileBody(v) == EnterNew(PushLoop(AddDeferredBlock(LoopHead(v)), |v.heap|, |v.heap| + 1), |v.heap|)
  {}

  function Returns(v: Visitor): set<nat> {
    if v.returnDests == [] then {} else {v.returnDests[|v.returnDests| - 1]}
  }

  /** The scopes inside a loop whose exit block is new and whose header has been entered. */
  lemma WhileScopes(v: Visitor, a: Visitor)
    requires Ready(v) && v.curblock.Some? && Grew(v, a, |v.heap|, v.curblock, {}, Cur(v), {}) && AtOpen(a)
    requires a.returnDests == v.returnDests && a.loops == v.loops + [LoopInfo(|v.heap|, |v.heap| + 1)]
    requires a.curblock == Some(|v.heap| + 2) && Waiting(a, |v.heap| + 1) && Preds(a, |v.heap|) != []
    ensures Ready(a) && Touched(a) == {|v.heap|, |v.heap| + 1} + Returns(v) && forall t :: t in Touched(a) ==> t < |v.heap| + 2
  {
    ScopesPushed(v, a, LoopInfo(|v.heap|, |v.heap| + 1));
    TouchedOld(a);
  }

  lemma ScopesPushed(v: Visitor, a: Visitor, l: LoopInfo)
    requires Ready(v) && Grew(v, a, |v.heap|, v.curblock, {}, Cur(v), {}) && AtOpen(a)
    requires a.returnDests == v.returnDests && a.loops == v.loops + [l] && LoopOk(a, l) && l.breakDest >= |v.heap|
    requires a.curblock == v.curblock || a.curblock.value >= |v.heap|
    ensures Ready(a)
  {
    hide Sound;
    assert forall i: nat :: i < |v.heap| ==> a.heap[i].idx == v.heap[i].idx && Preds(v, i) <= Preds(a, i);
    forall k: nat | k < |a.loops| ensures LoopOk(a, a.loops[k]) {
      if k < |v.loops| { assert a.loops[k] == v.loops[k]; assert LoopOk(v, v.loops[k]); }
    }
  }

  lemma LoopingStays(v: Visitor, y: Visitor, w: Visitor, r: set<nat>, d: set<nat>, o: set<nat>, p: set<nat>)
    requires Looping(v, y, r) && Ext(y, w, d, o, p) && d !! r && v.curblock.value !in o
    requires forall x :: x in p ==> x >= |y.heap| || y.heap[x].idx == -1
    ensures Looping(v, w, r)
  {
    hide Ext, Heads, Terminated;
    HeadsStays(y, w, d, o, p, |v.heap|, |v.heap|, r);
    Keeps(y, w, d, o, p, v.curblock.value);
    Keeps(y, w, d, o, p, |v.heap| + 2);
    ExtSize(y, w, d, o, p);
  }

  /** After the body: the test block still has to end. */
  ghost predicate HalfWhile(v: Visitor, y: Visitor, r: set<nat>) {
    && Looping(v, y, r) && SameContext(v, y) && Grew(v, y, |v.heap|, v.curblock, Touched(v), Cur(v), {})
    && Succs(y, |v.heap|) == [|v.heap| + 2] && NoEnd(y.heap[|v.heap|].body)
    && Spare(y, |v.heap| + 1) && Settled(y, |v.heap| + 2, |y.heap|, None)
  }

  lemma WhileHalfway(v: Visitor, x: Visitor) returns (r: set<nat>)
    requires Ready(v) && v.curblock.Some? && Shape(WhileBody(v), x)
    ensures var y := WhileEndBody(v, x);
      && HalfWhile(v, y, r) && |y.heap| == |x.heap| && Preds(y, |v.heap| + 1) == Preds(x, |v.heap| + 1)
      && forall i: nat {:trigger Preds(y, i)} :: i < |v.heap| ==> Preds(y, i) == Preds(x, i)
  {
    hide Sound, Ext, Sourced, Touched, Terminated, ScopesOk, EntryOk, TailOk, JumpTo, Settled, WhileBody,
      NoEnd, Done, Heads, Region;
    var n, c, a := |v.heap|, v.curblock.value, WhileBody(v);
    WhileOpens(v);
    TouchedOld(v);
    assert MayMeet(x, n, true) by { WhileReturns(v, a, x); }
    ArmShape(a, n + 2, x, n, true);
    var z := JumpTo(x, n, true);
    var y := PopLoop(z);
    assert y == WhileEndBody(v, x);
    SameBlocks(z, y);
    var d := Touched(a) + {n};
    assert Sourced(z, y, n + 3, Some(n + 2));
    GrewJoin(a, z, y, n + 3, Some(n + 2), d, {n + 2}, {}, {}, {}, {}, d, {n + 2}, {});
    r := Inner({n, n + 2}, n + 3, |y.heap|);
    SoundPartsOf(a);
    BodyRegion(a, y, n, n, {n, n + 2}, n + 2, d, {n + 2});
    ExtSize(a, y, d, {n + 2}, {});
    Keeps(a, y, d, {n + 2}, {}, c); Keeps(a, y, d, {n + 2}, {}, n); Keeps(a, y, d, {n + 2}, {}, n + 2);
    assert n + 1 !in {n + 2} && Spare(a, n + 1);
    StaysSpare(a, y, d, {n + 2}, {}, n + 1);
    ReturnsTouched(v);
    GrewWiden(a, y, n + 3, Some(n + 2), n, v.curblock, d, {n + 2}, {});
    GrewJoin(v, a, y, n, v.curblock, {}, Cur(v), {}, d, {n + 2}, {}, Touched(v), Cur(v), {});
    PopSettled(z, y, n + 2);
    assert n + 2 !in d;
  }

  lemma SoundPartsOf(a: Visitor)
    requires Ready(a)
    ensures Sound(a)
  {}

  lemma ReturnsTouched(v: Visitor)
    requires v.curblock.Some?
    ensures Returns(v) <= Touched(v)
  {}

  /** A body may come back to the test block, whose first predecessor is before it. */
  lemma WhileReturns(v: Visitor, a: Visitor, x: Visitor)
    requires Shape(a, x) && |v.heap| < |a.heap| && Preds(a, |v.heap|) != []
    ensures |v.heap| < |x.heap| && Preds(x, |v.heap|) != []
  {
    assert Preds(a, |v.heap|) <= Preds(x, |v.heap|);
  }

  lemma PopSettled(z: Visitor, y: Visitor, b: nat)
    requires y.heap == z.heap && Settled(z, b + 1, |z.heap|, None) && Done(z, b, b)
    ensures Settled(y, b, |y.heap|, None)
  {
    hide Settled, Done;
    ArmSettled(z, b);
    MovedSettled(z, y);
  }

  /** The else arm at m: the test block is finished. */
  ghost predicate TestEnded(v: Visitor, y: Visitor, r: set<nat>, m: nat) {
    && Looping(v, y, r) && SameContext(v, y) && Grew(v, y, |v.heap|, v.curblock, Touched(v), Cur(v), {})
    && Terminated(y.heap[|v.heap|]) && Succs(y, |v.heap|) == [|v.heap| + 2, m] && |v.heap| + 3 <= m < |y.heap|
    && Preds(y, m) == [|v.heap|] && Spare(y, |v.heap| + 1)
  }

  lemma WhileReopens(v: Visitor, y: Visitor, r: set<nat>, test: nat)
    requires Ready(v) && HalfWhile(v, y, r)
    ensures var (a, m) := (WhileOrelse(test, v, y), |y.heap|);
      && Opens(a, m) && |a.heap| == m + 1 && TestEnded(v, a, r, m) && Ext(y, a, {}, {|v.heap|}, {}) && Touched(a) == Touched(v)
      && forall i: nat {:trigger Preds(a, i)} :: i < m ==> Preds(a, i) == Preds(y, i)
  {
    hide Ext, Sourced, Touched, EnterNew, NoEnd, Dual, Ordered, ScopesOk, Looping, Settled;
    var n, m, a := |v.heap|, |y.heap|, WhileOrelse(test, v, y);
    var node := Branch(Test(test), n + 2, m);
    var z := PushTo(y, n, node);
    LoopingParts(v, y, r);
    PushSteps(y, n, node, n, v.curblock);
    EnterSteps(z, n, n, v.curblock);
    GrewJoin(y, z, a, n, v.curblock, {}, {n}, {}, {}, {n}, {}, {}, {n}, {});
    GrewJoin(v, y, a, n, v.curblock, Touched(v), Cur(v), {}, {}, {n}, {}, Touched(v), Cur(v), {});
    LoopingStays(v, y, a, r, {}, {n}, {});
    StaysSpare(y, a, {}, {n}, {}, n + 1);
    Keeps(y, a, {}, {n}, {}, n);
    assert OnlyFrom(a, m, n);
    EntryForward(a, m, m, n);
    ReadyGrown(v, a, n, v.curblock, Touched(v), Cur(v), {});
    TouchedThere(v, a);
    UntouchedPreds(y, a, n, v.curblock, {}, {n}, {});
    var code := a.heap[n].body;
    assert code == y.heap[n].body + [node];
    assert code[..|code| - 1] == y.heap[n].body;
  }

  lemma LoopingParts(v: Visitor, y: Visitor, r: set<nat>)
    requires Looping(v, y, r)
    ensures v.curblock.Some? && v.curblock.value < |v.heap| && |v.heap| + 3 <= |y.heap| && Placed(y, |v.heap|)
    ensures Preds(y, |v.heap| + 2) == [|v.heap|] && forall x {:trigger x in r} :: x in r ==> |v.heap| <= x && x != |v.heap| + 1
    ensures Terminated(y.heap[v.curblock.value]) && Succs(y, v.curblock.value) == [|v.heap|] && |v.heap| + 2 in r
    ensures Heads(y, |v.heap|, |v.heap|, r)
  {}

  /** After the else arm, everything but the exit block is finished. */
  lemma WhileJoined(v: Visitor, y: Visitor, r: set<nat>, test: nat, x: Visitor)
    requires Ready(v) && HalfWhile(v, y, r) && Shape(WhileOrelse(test, v, y), x)
    ensures var (z, n) := (JumpTo(x, |v.heap| + 1, false), |v.heap|);
      && TestEnded(v, z, r, |y.heap|) && Settled(z, n, |z.heap|, Some(n + 1)) && |z.heap| == |x.heap|
      && Preds(z, n + 1) == Preds(y, n + 1) + Came(x)
      && forall i: nat {:trigger Preds(z, i)} :: i < n ==> Preds(z, i) == Preds(x, i)
  {
    hide Sound, Ext, Sourced, Touched, Terminated, ScopesOk, EntryOk, TailOk, JumpTo, Settled, WhileOrelse, NoEnd, Done, Looping;
    var n, m, c, a, e := |v.heap|, |y.heap|, v.curblock, WhileOrelse(test, v, y), |v.heap| + 1;
    var z := JumpTo(x, e, false);
    WhileReopens(v, y, r, test);
    TouchedOld(v);
    LoopingParts(v, a, r);
    StaysSpare(a, x, Touched(a), Cur(a), {}, e);
    ArmShape(a, m, x, e, false);
    var d := Touched(a) + {e};
    LoopingStays(v, a, z, r, d, {m}, {});
    Keeps(a, z, d, {m}, {}, n); Keeps(a, z, d, {m}, {}, m);
    StaysSpare(a, z, d, {m}, {}, e);
    GrewWiden(a, z, m + 1, Some(m), n, c, d, {m}, {});
    GrewJoin(v, a, z, n, c, Touched(v), Cur(v), {}, d, {m}, {}, Touched(v), Cur(v), {});
    BothArms(y, a, z, e, m, n, d);
    LoopingParts(v, z, r);
    TestDone(v, z, r, m);
  }

  lemma TestDone(v: Visitor, z: Visitor, r: set<nat>, m: nat)
    requires TestEnded(v, z, r, m) && Settled(z, |v.heap| + 2, |z.heap|, None)
    ensures Settled(z, |v.heap|, |z.heap|, Some(|v.heap| + 1))
  {
    hide Ext, Sourced, Sound, Terminated, EntryOk, Heads, Done;
    var n := |v.heap|;
    var b := n + 2;
    WideSettled(z, b, n, |z.heap|, None);
    HeadsEntry(z, n, n, r);
    assert TailOk(z, n, n);
    DoneFrom(z, n, n);
  }

  /** Control continues in the exit block. */
  lemma WhileCloses(v: Visitor, y: Visitor, r: set<nat>, test: nat, x: Visitor)
    requires Ready(v) && HalfWhile(v, y, r) && Shape(WhileOrelse(test, v, y), x)
    requires Preds(y, |v.heap| + 1) != [] || x.curblock.Some?
    ensures var w := WhileEnd(v, x);
      && Shape(v, w) && w.curblock.Some?
      && forall i: nat {:trigger Preds(w, i)} :: i < |v.heap| ==> Preds(w, i) == Preds(x, i)
  {
    hide Sound, Ext, Sourced, Touched, Terminated, ScopesOk, EntryOk, TailOk, JumpTo, Settled, WhileOrelse, NoEnd, Done, Looping;
    var n, e, z := |v.heap|, |v.heap| + 1, JumpTo(x, |v.heap| + 1, false);
    WhileJoined(v, y, r, test, x);
    LoopingParts(v, z, r);
    OneWayTail(z, n, v.curblock.value);
    ExitsTo(v, z, e);
    assert WhileEnd(v, x) == At(PlaceBlock(z, e), e);
  }
}
