/** The shape `with` makes (src/core/cfg.cpp, visit_with): its continue, break and return blocks are
    finished or never placed, and each leads on to the exit of the scope around it. */
module ShapeWith {
  import opened Commons
  import opened Source
  import opened Lowering
  import opened ShapeBase
  import opened ShapeSteps
  import opened ShapeRules
  import opened ShapeVisits
  import opened ShapeArms
  import opened ShapeWhile
  import opened ShapeLoops

  // ---- entering -------------------------------------------------------------------------------------

  /** The blocks its exits may need have been made, and the scopes lead to them. */
  ghost predicate Entered(v: Visitor, b: Visitor) {
    var (n, r) := (|v.heap|, WithReturn(v));
    && Ready(b) && b.curblock == v.curblock && |b.heap| == r + 1 && b.inFunction == v.inFunction
    && Grew(v, b, n, v.curblock, {}, Cur(v), {})
    && b.loops == (if v.loops == [] then [] else v.loops + [LoopInfo(n, n + 1)]) && b.returnDests == v.returnDests + [r]
    && forall i: nat {:trigger b.heap[i]} :: n <= i <= r ==> Blank(b.heap[i])
  }

  function WithOpening(id: nat, context: nat, vars: Option<nat>, v: Visitor): Visitor {
    PushBack(PushBack(PushBack(v, Do(MakeContext(id, context))), Do(LoadExit(id))), Do(Enter(id, vars)))
  }

  lemma OpeningShape(id: nat, context: nat, vars: Option<nat>, v: Visitor)
    requires Ready(v)
    ensures var e := WithOpening(id, context, vars, v);
      && Ready(e) && Here(v, e) && |e.heap| == |v.heap| && Grew(v, e, |v.heap|, v.curblock, {}, Cur(v), {})
  {
    hide Sound, Ext, Sourced, Touched, ScopesOk, Settled, PushBack, Resumes, Shape;
    var n, c := |v.heap|, v.curblock;
    var d := PushBack(v, Do(MakeContext(id, context)));
    var f := PushBack(d, Do(LoadExit(id)));
    var e := PushBack(f, Do(Enter(id, vars)));
    PushShape(v, Do(MakeContext(id, context))); PushOpen(v, Do(MakeContext(id, context)), n, c); ReadyAfter(v, d);
    PushShape(d, Do(LoadExit(id))); PushOpen(d, Do(LoadExit(id)), n, c); ReadyAfter(d, f);
    PushShape(f, Do(Enter(id, vars))); PushOpen(f, Do(Enter(id, vars)), n, c); ReadyAfter(f, e);
    GrewJoin(v, d, f, n, c, {}, Cur(v), {}, {}, Cur(d), {}, {}, Cur(v), {});
    GrewJoin(v, f, e, n, c, {}, Cur(v), {}, {}, Cur(f), {}, {}, Cur(v), {});
  }

  /** A block to be placed later, seen by the scopes as `s` says. */
  lemma DeferReady(v: Visitor)
    requires Ready(v)
    ensures var w := AddDeferredBlock(v); Ready(w) && Blank(w.heap[|v.heap|])
  {
    hide Sound, Ext, Sourced, ScopesOk;
    var w := AddDeferredBlock(v);
    DeferSteps(v, |v.heap|, v.curblock);
    assert v.curblock.Some? ==> AtOpen(w) by {
      if v.curblock.Some? { assert w.heap[v.curblock.value] == v.heap[v.curblock.value]; }
    }
    ReadyGrown(v, w, |v.heap|, v.curblock, {}, {}, {});
  }

  lemma PushLoopReady(w: Visitor, a: nat, b: nat)
    requires Ready(w) && a < |w.heap| && b < |w.heap| && Blank(w.heap[a]) && Blank(w.heap[b]) && a != b
    requires forall m: nat {:trigger w.returnDests[m]} :: m < |w.returnDests| ==> w.returnDests[m] != b
    ensures Ready(PushLoop(w, a, b))
  {
    hide Sound;
    var x := PushLoop(w, a, b);
    SameBlocks(w, x);
    forall k: nat | k < |x.loops| ensures LoopOk(x, x.loops[k]) {
      if k < |w.loops| { assert x.loops[k] == w.loops[k]; assert LoopOk(w, w.loops[k]); }
    }
  }

  lemma PushReturnReady(w: Visitor, r: nat)
    requires Ready(w) && r < |w.heap| && Blank(w.heap[r])
    requires forall k: nat {:trigger w.loops[k]} :: k < |w.loops| ==> w.loops[k].breakDest != r
    ensures Ready(PushReturn(w, r))
  {
    hide Sound;
    var x := PushReturn(w, r);
    SameBlocks(w, x);
    forall k: nat | k < |x.loops| ensures LoopOk(x, x.loops[k]) { assert LoopOk(w, w.loops[k]); }
  }

  lemma DestsBelow(v: Visitor)
    requires ScopesOk(v)
    ensures forall k: nat {:trigger v.loops[k]} :: k < |v.loops| ==> v.loops[k].breakDest < |v.heap| && v.loops[k].continueDest < |v.heap|
    ensures forall m: nat {:trigger v.returnDests[m]} :: m < |v.returnDests| ==> v.returnDests[m] < |v.heap|
  {
    forall k: nat | k < |v.loops| ensures v.loops[k].breakDest < |v.heap| && v.loops[k].continueDest < |v.heap| {
      assert LoopOk(v, v.loops[k]);
    }
  }

  /** The loop's scope, if there is a loop to leave. */
  function WithInLoop(e: Visitor): Visitor {
    if e.loops == [] then e else PushLoop(AddDeferredBlock(AddDeferredBlock(e)), |e.heap|, |e.heap| + 1)
  }

  lemma InLoopReady(e: Visitor)
    requires Ready(e)
    ensures var w := WithInLoop(e);
      && Ready(w) && Grew(e, w, |e.heap|, e.curblock, {}, {}, {}) && w.curblock == e.curblock && w.returnDests == e.returnDests
      && w.inFunction == e.inFunction && |w.heap| == WithReturn(e)
      && w.loops == (if e.loops == [] then [] else e.loops + [LoopInfo(|e.heap|, |e.heap| + 1)])
      && forall i: nat {:trigger w.heap[i]} :: |e.heap| <= i < |w.heap| ==> Blank(w.heap[i])
  {
    hide Ext, Sourced, ScopesOk, Indexed, Dual, Ordered;
    var n, c := |e.heap|, e.curblock;
    if e.loops == [] { ExtRefl(e, n, c); }
    else {
      var x := AddDeferredBlock(e);
      var y := AddDeferredBlock(x);
      var w := PushLoop(y, n, n + 1);
      DestsBelow(e);
      DeferReady(e); DeferSteps(e, n, c);
      DeferReady(x); DeferSteps(x, n, c);
      assert y.heap[n] == x.heap[n];
      PushLoopReady(y, n, n + 1);
      SameBlocks(y, w);
      assert Sourced(y, w, n, c);
      GrewJoin(e, x, y, n, c, {}, {}, {}, {}, {}, {}, {}, {}, {});
      GrewJoin(e, y, w, n, c, {}, {}, {}, {}, {}, {}, {}, {}, {});
    }
  }

  lemma WithEnters(id: nat, context: nat, vars: Option<nat>, v: Visitor)
    requires Ready(v)
    ensures Entered(v, WithBody(id, context, vars, v))
  {
    hide Ext, Sourced, ScopesOk, Indexed, Dual, Ordered, WithOpening, WithInLoop;
    var n, c, r := |v.heap|, v.curblock, WithReturn(v);
    var e := WithOpening(id, context, vars, v);
    OpeningShape(id, context, vars, v);
    var w := WithInLoop(e);
    InLoopReady(e);
    var x := AddDeferredBlock(w);
    DeferReady(w); DeferSteps(w, n, c);
    var b := PushReturn(x, r);
    DestsBelow(w);
    PushReturnReady(x, r);
    SameBlocks(x, b);
    assert Sourced(x, b, n, c);
    GrewJoin(v, e, w, n, c, {}, Cur(v), {}, {}, {}, {}, {}, Cur(v), {});
    GrewJoin(v, w, x, n, c, {}, Cur(v), {}, {}, {}, {}, {}, Cur(v), {});
    GrewJoin(v, x, b, n, c, {}, Cur(v), {}, {}, {}, {}, {}, Cur(v), {});
    WithBodyIs(id, context, vars, v);
    forall i: nat | n <= i <= r ensures Blank(b.heap[i]) {
      if i < r { assert b.heap[i] == w.heap[i]; }
    }
  }

  lemma WithBodyIs(id: nat, context: nat, vars: Option<nat>, v: Visitor)
    ensures var e := WithOpening(id, context, vars, v);
      WithBody(id, context, vars, v) == PushReturn(AddDeferredBlock(WithInLoop(e)), WithReturn(v))
  {
    hide AddDeferredBlock;
    var e := WithOpening(id, context, vars, v);
    SamePushed(v, Do(MakeContext(id, context)));
    SamePushed(PushBack(v, Do(MakeContext(id, context))), Do(LoadExit(id)));
    SamePushed(PushBack(PushBack(v, Do(MakeContext(id, context))), Do(LoadExit(id))), Do(Enter(id, vars)));
    assert e.loops == v.loops && |e.heap| == |v.heap|;
  }

  // ---- the exits ------------------------------------------------------------------------------------

  /** One exit has been dealt with: block k is finished and leads on to d. */
  ghost predicate ExitMade(v: Visitor, w: Visitor, x: Visitor, k: nat, d: set<nat>) {
    Grew(w, x, |v.heap|, v.curblock, d, {k}, {k}) && |x.heap| == |w.heap| && SameContext(w, x) && Done(x, |v.heap|, k)
  }

  /** Block k is placed and being filled. */
  ghost predicate Filled(v: Visitor, w: Visitor, q: Visitor, k: nat) {
    && Grew(w, q, |v.heap|, v.curblock, {}, {k}, {k}) && |q.heap| == |w.heap| && Here(w, q)
    && Placed(q, k) && OpenBody(q.heap[k]) && EntryOk(q, k, k)
    && forall i: nat {:trigger Preds(q, i)} :: Preds(q, i) == Preds(w, i)
  }

  lemma FillExit(v: Visitor, w: Visitor, k: nat, n: Node)
    requires Sound(w) && Spare(w, k) && Preds(w, k) != [] && !IsEnd(n)
    ensures Filled(v, w, PlaceBlock(PushTo(w, k, n), k), k)
  {
    hide Sound, Ext, Sourced, PlaceBlock, PushTo, EntryOk;
    var lo, c, p := |v.heap|, v.curblock, PushTo(w, k, n);
    PushSteps(w, k, n, lo, c);
    PushedSpare(w, p, k, n);
    PlaceSteps(p, k, lo, c);
    var q := PlaceBlock(p, k);
    GrewJoin(w, p, q, lo, c, {}, {k}, {}, {}, {}, {k}, {}, {k}, {k});
    PlacedPreds(p, q, k);
    EntryLast(q, k, k);
  }

  lemma FillMore(v: Visitor, w: Visitor, q: Visitor, k: nat, n: Node)
    requires Filled(v, w, q, k) && !IsEnd(n)
    ensures Filled(v, w, PushTo(q, k, n), k)
  {
    hide Sound, Ext, Sourced, PushTo, EntryOk;
    var lo, c, p := |v.heap|, v.curblock, PushTo(q, k, n);
    PushSteps(q, k, n, lo, c);
    SoundParts(q);
    GrewJoin(w, q, p, lo, c, {}, {k}, {k}, {}, {k}, {}, {}, {k}, {k});
    EntryStays(q, p, {}, {k}, {}, k, k, k);
    Keeps(q, p, {}, {k}, {}, k);
    FilledPreds(q, p, k);
  }

  lemma FilledPreds(q: Visitor, p: Visitor, k: nat)
    requires Ext(q, p, {}, {k}, {}) && |p.heap| == |q.heap|
    ensures forall i: nat {:trigger Preds(p, i)} :: Preds(p, i) == Preds(q, i)
  {
    forall i: nat ensures Preds(p, i) == Preds(q, i) {
      if i < |q.heap| { assert q.heap[i] == q.heap[i]; }
    }
  }

  lemma PushedSpare(w: Visitor, p: Visitor, k: nat, n: Node)
    requires Spare(w, k) && Ext(w, p, {}, {k}, {}) && |p.heap| == |w.heap| && !IsEnd(n)
    requires p.heap[k] == w.heap[k].(body := w.heap[k].body + [n])
    ensures Waiting(p, k) && OpenBody(p.heap[k])
    ensures forall i: nat {:trigger Preds(p, i)} :: Preds(p, i) == Preds(w, i)
  {
    FilledPreds(w, p, k);
    assert w.heap[k] == w.heap[k];
  }

  /** Ends the filled block k with a jump on to t. */
  lemma LeadOn(v: Visitor, w: Visitor, q: Visitor, k: nat, t: nat, allow: bool)
    requires Filled(v, w, q, k) && k >= |v.heap| && t < k && MayMeet(q, t, allow)
    ensures var x := JumpTo(At(q, k), t, allow); ExitMade(v, w, x, k, {t}) && Preds(x, t) == Preds(w, t) + [k]
  {
    hide Sound, Ext, Sourced, EntryOk, TailOk, JumpTo, Terminated, OpenBody;
    var lo, c := |v.heap|, v.curblock;
    SoundParts(q);
    JumpFrom(q, k, t, allow, lo, c);
    var x := JumpTo(At(q, k), t, allow);
    GrewJoin(w, q, x, lo, c, {}, {k}, {k}, {t}, {k}, {}, {t}, {k}, {k});
    EntryStays(q, x, {t}, {k}, {}, k, lo, k);
    OneWayTail(x, lo, k);
    DoneFrom(x, lo, k);
  }

  /** Ends the filled block k with a return. */
  lemma ReturnOn(v: Visitor, w: Visitor, q: Visitor, k: nat, value: Operand)
    requires Filled(v, w, q, k) && k >= |v.heap|
    ensures ExitMade(v, w, PushTo(q, k, Ret(value)), k, {})
  {
    hide Sound, Ext, Sourced, EntryOk, TailOk;
    var lo, c, x := |v.heap|, v.curblock, PushTo(q, k, Ret(value));
    SoundParts(q);
    PushSteps(q, k, Ret(value), lo, c);
    GrewJoin(w, q, x, lo, c, {}, {k}, {k}, {}, {k}, {}, {}, {k}, {k});
    EntryStays(q, x, {}, {k}, {}, k, lo, k);
    assert x.heap[k].body[..|x.heap[k].body| - 1] == q.heap[k].body;
    OneWayTail(x, lo, k);
    DoneFrom(x, lo, k);
  }

  lemma ExitSteps(id: nat, v: Visitor, w: Visitor, k: nat, t: nat)
    requires Sound(w) && Spare(w, k) && k >= |v.heap| && Preds(w, k) != [] && t < |v.heap| && MayMeet(w, t, true)
    ensures var x := WithExit(id, w, k, t); ExitMade(v, w, x, k, {t}) && Preds(x, t) == Preds(w, t) + [k]
  {
    hide Sound, Ext, Sourced, PlaceBlock, EntryOk, TailOk, Connect, Terminated;
    var node := Do(CallExit(id));
    FillExit(v, w, k, node);
    var q := PlaceBlock(PushTo(w, k, node), k);
    Keeps(w, q, {}, {k}, {k}, t);
    LeadOn(v, w, q, k, t, true);
    WithExitIs(id, w, k, t);
  }

  lemma WithExitIs(id: nat, w: Visitor, k: nat, t: nat)
    requires Waiting(w, k) && Preds(w, k) != []
    ensures WithExit(id, w, k, t) == JumpTo(At(PlaceBlock(PushTo(w, k, Do(CallExit(id))), k), k), t, true)
  {
    hide Connect;
    var a := PushTo(w, k, Do(CallExit(id)));
    assert PushBack(At(w, k), Do(CallExit(id))) == At(a, k);
    assert PlaceBlock(At(a, k), k) == At(PlaceBlock(a, k), k);
  }

  // ---- blocks [n, k) settled, [k, r] still to be dealt with -----------------------------------------

  ghost predicate ExitsLeft(v: Visitor, w: Visitor, k: nat) {
    var r := WithReturn(v);
    && |v.heap| <= k && (forall i: nat {:trigger Done(w, |v.heap|, i)} :: |v.heap| <= i < k && i <= r ==> Done(w, |v.heap|, i))
    && (forall i: nat {:trigger Spare(w, i)} :: k <= i <= r ==> Spare(w, i) && (v.curblock.None? ==> Preds(w, i) == []))
  }

  /** Where control is once the exits are made. */
  ghost predicate Rest(v: Visitor, w: Visitor, cur: Option<nat>) {
    var n := |v.heap|;
    && (forall i: nat {:trigger Done(w, n, i)} :: WithReturn(v) < i < |w.heap| && cur != Some(i) ==> Done(w, n, i))
    && (cur.Some? ==>
          && v.curblock.Some? && Placed(w, cur.value) && OpenBody(w.heap[cur.value])
          && (cur == v.curblock || (cur.value > WithReturn(v) && EntryOk(w, n, cur.value))))
    && (v.curblock.Some? && cur != v.curblock ==> TailOk(w, n, v.curblock.value))
  }

  ghost predicate Closing(v: Visitor, w: Visitor, cur: Option<nat>, k: nat) {
    && Grew(v, w, |v.heap|, v.curblock, Touched(v), Cur(v), {}) && |w.heap| > WithReturn(v)
    && ExitsLeft(v, w, k) && Rest(v, w, cur)
  }

  /** An exit nothing leads to stays unplaced. */
  lemma ExitUnused(v: Visitor, w: Visitor, cur: Option<nat>, k: nat)
    requires Closing(v, w, cur, k) && k <= WithReturn(v) && Preds(w, k) == []
    ensures Closing(v, w, cur, k + 1)
  {
    hide Grew, Rest, EntryOk, TailOk;
    assert Spare(w, k);
    assert Done(w, |v.heap|, k);
  }

  lemma ExitUsed(v: Visitor, w: Visitor, x: Visitor, cur: Option<nat>, k: nat, d: set<nat>)
    requires Ready(v) && Closing(v, w, cur, k) && k <= WithReturn(v) && ExitMade(v, w, x, k, d) && d <= Touched(v)
    ensures Closing(v, x, cur, k + 1)
  {
    hide Sound, Ext, Sourced, EntryOk, TailOk, Touched, ScopesOk, Done, Spare, Rest;
    var n := |v.heap|;
    TouchedOld(v);
    assert Spare(w, k);
    GrewJoin(v, w, x, n, v.curblock, Touched(v), Cur(v), {}, d, {k}, {k}, Touched(v), Cur(v), {});
    SoundParts(w);
    SpareIdx(w, k);
    forall i: nat | n <= i < k && i <= WithReturn(v) ensures Done(x, n, i) {
      assert Done(w, n, i);
      DoneStays(w, x, d, {k}, {k}, n, n, i);
    }
    forall i: nat | k + 1 <= i <= WithReturn(v) ensures Spare(x, i) && (v.curblock.None? ==> Preds(x, i) == []) {
      assert Spare(w, i);
      StaysSpare(w, x, d, {k}, {k}, i);
    }
    RestStays(v, w, x, cur, k, d);
  }

  lemma SpareIdx(w: Visitor, k: nat)
    requires Spare(w, k)
    ensures k < |w.heap| && w.heap[k].idx == -1
  {}

  lemma RestStays(v: Visitor, w: Visitor, x: Visitor, cur: Option<nat>, k: nat, d: set<nat>)
    requires Rest(v, w, cur) && Ext(w, x, d, {k}, {k}) && Ordered(w) && |x.heap| == |w.heap|
    requires (forall t :: t in d ==> t < |v.heap|) && |v.heap| <= k <= WithReturn(v) && k < |w.heap| && w.heap[k].idx == -1 && (v.curblock.Some? ==> v.curblock.value < |v.heap|)
    ensures Rest(v, x, cur)
  {
    hide Ext, EntryOk, TailOk, Done, Ordered;
    var n := |v.heap|;
    forall i: nat | WithReturn(v) < i < |x.heap| && cur != Some(i) ensures Done(x, n, i) {
      assert Done(w, n, i);
      DoneStays(w, x, d, {k}, {k}, n, n, i);
    }
    if cur.Some? {
      Keeps(w, x, d, {k}, {k}, cur.value);
      if cur != v.curblock { EntryStays(w, x, d, {k}, {k}, n, n, cur.value); }
    }
    if v.curblock.Some? && cur != v.curblock { TailStays(w, x, d, {k}, {k}, n, n, v.curblock.value); }
  }

  /** With all exits dealt with, the whole statement has been visited. */
  lemma ClosingShape(v: Visitor, w: Visitor, x: Visitor)
    requires Ready(v) && Closing(v, w, x.curblock, WithReturn(v) + 1) && x.heap == w.heap && x.blocks == w.blocks && x.failed == w.failed
    requires SameContext(v, x)
    ensures Shape(v, x)
  {
    hide Sound, Ext, Sourced, EntryOk, TailOk, Touched, ScopesOk, Done;
    var n := |v.heap|;
    SameBlocks(w, x);
    assert Sourced(w, x, n, v.curblock);
    GrewJoin(v, w, x, n, v.curblock, Touched(v), Cur(v), {}, {}, {}, {}, Touched(v), Cur(v), {});
    assert Settled(w, n, |w.heap|, x.curblock);
    MovedSettled(w, x);
    if x.curblock.Some? && x.curblock != v.curblock { MovedEntry(w, x, n, x.curblock.value); }
    if v.curblock.Some? && x.curblock != v.curblock { MovedTail(w, x, n, v.curblock.value); }
  }

  // ---- leaving ----------------------------------------------------------------------------------------

  lemma BodyClosing(v: Visitor, b: Visitor, y: Visitor)
    requires Ready(v) && Entered(v, b) && Shape(b, y)
    ensures Closing(v, y, y.curblock, |v.heap|)
  {
    hide Sound, Ext, Sourced, EntryOk, TailOk, ScopesOk, Done, Settled;
    var n, r := |v.heap|, WithReturn(v);
    TouchedNewOnly(v, b);
    GrewWiden(b, y, r + 1, b.curblock, n, v.curblock, Touched(b), Cur(b), {});
    GrewJoin(v, b, y, n, v.curblock, {}, Cur(v), {}, Touched(b), Cur(b), {}, Touched(v), Cur(v), {});
    ExtSize(b, y, Touched(b), Cur(b), {});
    forall i: nat | n <= i <= r ensures Spare(y, i) && (v.curblock.None? ==> Preds(y, i) == []) {
      assert Blank(b.heap[i]);
      StaysSpare(b, y, Touched(b), Cur(b), {}, i);
    }
    SettledRest(y, r + 1, n);
    if y.curblock.Some? && y.curblock != v.curblock { WideEntry(y, r + 1, n, y.curblock.value); }
    if v.curblock.Some? && y.curblock != v.curblock { WideTail(y, r + 1, n, v.curblock.value); }
  }

  lemma SettledRest(y: Visitor, m: nat, n: nat)
    requires n <= m && Settled(y, m, |y.heap|, y.curblock)
    ensures forall i: nat {:trigger Done(y, n, i)} :: m <= i < |y.heap| && y.curblock != Some(i) ==> Done(y, n, i)
  {
    hide Done, Settled;
    WideSettled(y, m, n, |y.heap|, y.curblock);
  }

  lemma TouchedNewOnly(v: Visitor, b: Visitor)
    requires Ready(v) && Entered(v, b)
    ensures (forall t :: t in Touched(b) ==> t >= |v.heap|) && (v.curblock.None? ==> Touched(b) == {})
    ensures v.curblock.Some? ==> v.curblock.value < |v.heap|
  {}

  /** What a visitor's own exit leads on to can be met as before. */
  lemma OuterMet(v: Visitor, w: Visitor, t: nat, d: set<nat>, o: set<nat>)
    requires Ready(v) && Grew(v, w, |v.heap|, v.curblock, d, o, {}) && v.loops != []
    requires t == v.loops[|v.loops| - 1].continueDest || t == v.loops[|v.loops| - 1].breakDest
    ensures t < |v.heap| && MayMeet(w, t, true) && (v.curblock.Some? ==> t in Touched(v))
  {
    hide Sound;
    assert LoopOk(v, v.loops[|v.loops| - 1]);
    assert v.heap[t] == v.heap[t];
    assert Preds(v, t) <= Preds(w, t);
  }

  function Via(w: Visitor, k: nat): seq<nat> {
    if Preds(w, k) == [] then [] else [k]
  }

  /** One of the loop exits: made if needed, and then it leads on to the enclosing loop's. */
  lemma LoopExitStep(id: nat, v: Visitor, w: Visitor, cur: Option<nat>, k: nat, t: nat)
    requires Ready(v) && Closing(v, w, cur, k) && |v.heap| <= k < WithReturn(v) && v.loops != []
    requires t == v.loops[|v.loops| - 1].continueDest || t == v.loops[|v.loops| - 1].breakDest
    ensures var x := WithExit(id, w, k, t);
      && Closing(v, x, cur, k + 1) && SameContext(w, x) && Preds(x, t) == Preds(w, t) + Via(w, k)
      && forall i: nat {:trigger Preds(x, i)} :: i < |w.heap| && i != t ==> Preds(x, i) == Preds(w, i)
  {
    hide Sound, Ext, Sourced, EntryOk, TailOk, Touched, ScopesOk, Done, Rest, WithExit;
    OuterMet(v, w, t, Touched(v), Cur(v));
    assert Spare(w, k);
    if Preds(w, k) == [] {
      UnusedExit(id, w, k, t);
      ExitUnused(v, w, cur, k);
    } else {
      ExitSteps(id, v, w, k, t);
      ExitUsed(v, w, WithExit(id, w, k, t), cur, k, {t});
      UntouchedPreds(w, WithExit(id, w, k, t), |v.heap|, v.curblock, {t}, {k}, {k});
    }
  }

  lemma UnusedExit(id: nat, w: Visitor, k: nat, t: nat)
    requires Preds(w, k) == []
    ensures WithExit(id, w, k, t) == w && Preds(w, t) + Via(w, k) == Preds(w, t)
  {}

  /** Both loop exits: the enclosing loop's exits are left by way of them. */
  lemma LoopExitsStep(id: nat, v: Visitor, y: Visitor)
    requires Ready(v) && Closing(v, y, y.curblock, |v.heap|)
    requires v.loops != [] ==> y.loops == v.loops + [LoopInfo(|v.heap|, |v.heap| + 1)]
    requires v.loops == [] ==> y.loops == []
    ensures var x := WithLoopExits(id, v, y);
      && Closing(v, x, y.curblock, WithReturn(v)) && x.loops == v.loops && x.returnDests == y.returnDests && x.inFunction == y.inFunction
      && x.curblock == y.curblock
      && (v.loops != [] ==>
            var l := v.loops[|v.loops| - 1]; Preds(x, l.breakDest) == Preds(y, l.breakDest) + Via(y, |v.heap| + 1))
  {
    hide Sound, Ext, Sourced, EntryOk, TailOk, Touched, ScopesOk, Done, Rest, WithExit;
    if v.loops != [] {
      var n, l, cur := |v.heap|, v.loops[|v.loops| - 1], y.curblock;
      assert LoopOk(v, l) by { ScopesParts(v); }
      assert l.breakDest < n && l.continueDest < n && l.breakDest != l.continueDest;
      LoopExitStep(id, v, y, cur, n, l.continueDest);
      var w := WithExit(id, y, n, l.continueDest);
      LoopExitStep(id, v, w, cur, n + 1, l.breakDest);
      var z := WithExit(id, w, n + 1, l.breakDest);
      var x := PopLoop(z).(curblock := cur);
      ExitsLie(v, y);
      MovedClosing(v, z, x, cur, n + 2);
    }
  }

  lemma ExitsLie(v: Visitor, y: Visitor)
    requires Closing(v, y, y.curblock, |v.heap|) && v.loops != []
    ensures |v.heap| + 2 == WithReturn(v) < |y.heap|
  {}

  lemma ScopesParts(v: Visitor)
    requires Ready(v) && v.loops != []
    ensures LoopOk(v, v.loops[|v.loops| - 1])
  {}

  lemma MovedClosing(v: Visitor, z: Visitor, x: Visitor, cur: Option<nat>, k: nat)
    requires Closing(v, z, cur, k) && x.heap == z.heap && x.blocks == z.blocks && x.failed == z.failed
    ensures Closing(v, x, cur, k) && forall i: nat {:trigger Preds(x, i)} :: Preds(x, i) == Preds(z, i)
  {
    hide Sound, Ext, Sourced, EntryOk, TailOk, Touched, Done;
    var n := |v.heap|;
    SameBlocks(z, x);
    assert Sourced(z, x, n, v.curblock);
    GrewJoin(v, z, x, n, v.curblock, Touched(v), Cur(v), {}, {}, {}, {}, Touched(v), Cur(v), {});
    forall i: nat | n <= i < k && i <= WithReturn(v) ensures Done(x, n, i) {
      assert Done(z, n, i);
      MovedDone(z, x, n, i);
    }
    forall i: nat | k <= i <= WithReturn(v) ensures Spare(x, i) && (v.curblock.None? ==> Preds(x, i) == []) {
      assert Spare(z, i) && Preds(x, i) == Preds(z, i);
    }
    forall i: nat | WithReturn(v) < i < |x.heap| && cur != Some(i) ensures Done(x, n, i) {
      assert Done(z, n, i);
      MovedDone(z, x, n, i);
    }
    if cur.Some? && cur != v.curblock { MovedEntry(z, x, n, cur.value); }
    if v.curblock.Some? && cur != v.curblock { MovedTail(z, x, n, v.curblock.value); }
  }

  lemma MovedDone(z: Visitor, x: Visitor, n: nat, i: nat)
    requires x.heap == z.heap && Done(z, n, i)
    ensures Done(x, n, i)
  {
    hide EntryOk, TailOk;
    if !Blank(z.heap[i]) { MovedEntry(z, x, n, i); MovedTail(z, x, n, i); }
  }

  /** The return block: made if needed, it saves the value again and leads on to the enclosing
      `with`, or returns. */
  lemma ReturnExitStep(id: nat, v: Visitor, w: Visitor)
    requires Ready(v) && Closing(v, w, w.curblock, WithReturn(v)) && SameContext(v, w)
    ensures var x := WithReturnExit(id, v, w);
      && Closing(v, x, w.curblock, WithReturn(v) + 1) && SameContext(v, x) && x.curblock == w.curblock
      && forall i: nat {:trigger Preds(x, i)} :: i < |w.heap| && i !in Returns(v) ==> Preds(x, i) == Preds(w, i)
  {
    hide Sound, Ext, Sourced, EntryOk, TailOk, Touched, ScopesOk, Done, Rest, Grew;
    var k := WithReturn(v);
    assert Spare(w, k);
    if Preds(w, k) == [] { ExitUnused(v, w, w.curblock, k); }
    else { UsedReturn(id, v, w); }
  }

  function ReturnFilled(id: nat, w: Visitor, k: nat): Visitor {
    PlaceBlock(PushTo(w, k, Do(CallExit(id))), k)
  }

  lemma FilledEither(id: nat, w: Visitor, k: nat)
    requires Waiting(w, k)
    ensures PushBack(At(PlaceBlock(w, k), k), Do(CallExit(id))) == At(ReturnFilled(id, w, k), k)
  {
    var a, b := PushBack(At(PlaceBlock(w, k), k), Do(CallExit(id))), At(ReturnFilled(id, w, k), k);
    assert a.heap == b.heap;
  }

  lemma UsedReturn(id: nat, v: Visitor, w: Visitor)
    requires Ready(v) && Closing(v, w, w.curblock, WithReturn(v)) && SameContext(v, w) && Preds(w, WithReturn(v)) != []
    ensures var x := WithReturnExit(id, v, w);
      && Closing(v, x, w.curblock, WithReturn(v) + 1) && SameContext(v, x) && x.curblock == w.curblock
      && forall i: nat {:trigger Preds(x, i)} :: i < |w.heap| && i !in Returns(v) ==> Preds(x, i) == Preds(w, i)
  {
    hide Sound, Ext, Sourced, EntryOk, TailOk, Touched, ScopesOk, Done, Rest, ReturnFilled, JumpTo, PushTo;
    var k, cur := WithReturn(v), w.curblock;
    assert Spare(w, k);
    var q := ReturnFilled(id, w, k);
    assert Filled(v, w, q, k) by { FillFor(id, v, w, k); }
    FilledEither(id, w, k);
    var y: Visitor;
    if v.returnDests == [] {
      ReturnOn(v, w, q, k, SavedName);
      y := PushTo(q, k, Ret(SavedName));
      ExitUsed(v, w, y, cur, k, {});
      UntouchedPreds(w, y, |v.heap|, v.curblock, {}, {k}, {k});
    } else {
      var t, p := v.returnDests[|v.returnDests| - 1], PushTo(q, k, Save(SavedName));
      FillMore(v, w, q, k, Save(SavedName));
      ReturnMet(v, w, p, k, t);
      LeadOn(v, w, p, k, t, false);
      y := JumpTo(At(p, k), t, false);
      ExitUsed(v, w, y, cur, k, {t});
      UntouchedPreds(w, y, |v.heap|, v.curblock, {t}, {k}, {k});
    }
    var x := WithReturnExit(id, v, w);
    ReturnExitIs(id, v, w, q, y, k);
    MovedClosing(v, y, x, cur, k + 1);
  }

  lemma FillFor(id: nat, v: Visitor, w: Visitor, k: nat)
    requires Sound(w) && Spare(w, k) && Preds(w, k) != []
    ensures Filled(v, w, ReturnFilled(id, w, k), k)
  {
    FillExit(v, w, k, Do(CallExit(id)));
  }

  lemma ReturnMet(v: Visitor, w: Visitor, p: Visitor, k: nat, t: nat)
    requires Ready(v) && v.returnDests != [] && t == v.returnDests[|v.returnDests| - 1] && Filled(v, w, p, k) && k >= |v.heap|
    requires Closing(v, w, w.curblock, WithReturn(v)) && k == WithReturn(v) && Preds(w, k) != []
    ensures t < |v.heap| && MayMeet(p, t, false) && {t} <= Touched(v)
  {
    hide Sound, Sourced, EntryOk, Rest;
    assert v.heap[t] == v.heap[t] && w.heap[t] == w.heap[t];
    assert Spare(w, k);
  }

  lemma ReturnExitIs(id: nat, v: Visitor, w: Visitor, q: Visitor, y: Visitor, k: nat)
    requires k == WithReturn(v) && Waiting(w, k) && Preds(w, k) != [] && SameContext(v, w) && k < |q.heap| && Here(w, q)
    requires PushBack(At(PlaceBlock(w, k), k), Do(CallExit(id))) == At(q, k)
    requires y == if v.returnDests == [] then PushTo(q, k, Ret(SavedName))
                  else JumpTo(At(PushTo(q, k, Save(SavedName)), k), v.returnDests[|v.returnDests| - 1], false)
    ensures var x := WithReturnExit(id, v, w);
      && x.heap == y.heap && x.blocks == y.blocks && x.failed == y.failed && SameContext(v, x) && x.curblock == w.curblock
  {
    hide Connect, PlaceBlock;
    var z := At(q, k);
    assert WithReturnExit(id, v, w) == DoReturn(z, SavedName).(curblock := w.curblock);
    if v.returnDests == [] {
      assert PushBack(z, Ret(SavedName)) == At(PushTo(q, k, Ret(SavedName)), k);
    } else {
      assert PushBack(z, Save(SavedName)) == At(PushTo(q, k, Save(SavedName)), k);
      JumpHere(At(PushTo(q, k, Save(SavedName)), k), v.returnDests[|v.returnDests| - 1]);
    }
  }

  lemma JumpHere(z: Visitor, t: nat)
    ensures SameContext(z, JumpTo(z, t, false))
  {}

  /** A `with` is visited: it continues where its body does, and breaks out of the enclosing loop
      when its body breaks. */
  lemma WithLeaves(id: nat, v: Visitor, b: Visitor, x: Visitor)
    requires Ready(v) && Entered(v, b) && Shape(b, x)
    ensures var w := WithEnd(id, v, x);
      && Shape(v, w) && w.curblock == x.curblock
      && (v.loops != [] ==>
            var l := v.loops[|v.loops| - 1]; Preds(w, l.breakDest) == Preds(v, l.breakDest) + Via(x, |v.heap| + 1))
  {
    hide Sound, Ext, Sourced, EntryOk, TailOk, Touched, ScopesOk, Done, Rest, Settled, PushBack, Closing, Resumes;
    var node := Do(CallExit(id));
    var y := PushBack(x, node);
    EnteredReady(v, b);
    ReadyAfter(b, x);
    PushShape(x, node); SamePushed(x, node);
    PushOpen(x, node, |v.heap|, v.curblock);
    UntouchedPreds(x, y, |v.heap|, v.curblock, {}, Cur(x), {});
    ShapeTrans(b, x, y);
    BodyClosing(v, b, y);
    LoopExitsStep(id, v, y);
    var z := WithLoopExits(id, v, y);
    var p := PopReturn(z);
    MovedClosing(v, z, p, y.curblock, WithReturn(v));
    ReturnExitStep(id, v, p);
    var w := WithReturnExit(id, v, p);
    assert w == WithEnd(id, v, x);
    ClosingShape(v, w, w);
    ClosingSize(v, z, y.curblock, WithReturn(v));
    if v.loops != [] { BreakPreds(v, b, x, y, z, p, w); }
  }

  lemma ClosingSize(v: Visitor, w: Visitor, cur: Option<nat>, k: nat)
    requires Closing(v, w, cur, k)
    ensures |w.heap| > WithReturn(v)
  {}

  lemma EnteredReady(v: Visitor, b: Visitor)
    requires Entered(v, b)
    ensures Ready(b)
  {}

  lemma BreakPreds(v: Visitor, b: Visitor, x: Visitor, y: Visitor, z: Visitor, p: Visitor, w: Visitor)
    requires Ready(v) && Entered(v, b) && Shape(b, x) && v.loops != []
    requires |y.heap| == |x.heap| && forall i: nat {:trigger Preds(y, i)} :: i < |x.heap| ==> Preds(y, i) == Preds(x, i)
    requires var l := v.loops[|v.loops| - 1]; Preds(z, l.breakDest) == Preds(y, l.breakDest) + Via(y, |v.heap| + 1)
    requires p.heap == z.heap && |z.heap| >= |v.heap|
    requires forall i: nat {:trigger Preds(w, i)} :: i < |p.heap| && i !in Returns(v) ==> Preds(w, i) == Preds(p, i)
    ensures var l := v.loops[|v.loops| - 1]; Preds(w, l.breakDest) == Preds(v, l.breakDest) + Via(x, |v.heap| + 1)
  {
    hide Sound, Sourced, EntryOk, TailOk, Touched, Settled, Resumes;
    var t, n := v.loops[|v.loops| - 1].breakDest, |v.heap|;
    assert LoopOk(v, v.loops[|v.loops| - 1]);
    TouchedNewOnly(v, b);
    Keeps(v, b, {}, Cur(v), {}, t);
    Keeps(b, x, Touched(b), Cur(b), {}, t);
    Keeps(b, x, Touched(b), Cur(b), {}, n + 1);
    BreakIsNoReturn(v, t);
  }

  lemma BreakIsNoReturn(v: Visitor, t: nat)
    requires ScopesOk(v) && v.loops != [] && t == v.loops[|v.loops| - 1].breakDest
    ensures t !in Returns(v)
  {}
}
