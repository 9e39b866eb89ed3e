/** The visits one by one (src/core/cfg.cpp): simple statements, exits, and the arms that the
    compound statements are made of. */
module ShapeVisits {
  import opened Commons
  import opened Source
  import opened Lowering
  import opened ShapeBase
  import opened ShapeSteps
  import opened ShapeRules

  /** Where a visit leaves off is known beforehand: whether it runs off its end, and whether it
      gave the enclosing loop's exit block another predecessor. */
  ghost predicate Flow(v: Visitor, w: Visitor, falls: bool, breaks: bool) {
    && (w.curblock.Some? <==> v.curblock.Some? && falls)
    && (v.loops != [] ==>
          var exit := v.loops[|v.loops| - 1].breakDest;
          Preds(w, exit) != Preds(v, exit) <==> v.curblock.Some? && breaks)
  }

  lemma FlowTrans(v: Visitor, w: Visitor, x: Visitor, f: bool, b: bool, f': bool, b': bool)
    requires Shape(v, w) && Shape(w, x) && Flow(v, w, f, b) && Flow(w, x, f', b')
    ensures Flow(v, x, f && f', b || (f && b'))
  {
    hide Ext, Sound, Settled, Resumes;
    if v.loops != [] {
      var exit := v.loops[|v.loops| - 1].breakDest;
      assert Preds(v, exit) <= Preds(w, exit) && Preds(w, exit) <= Preds(x, exit);
    }
  }

  /** A state made from another by steps that placed none of the old blocks is ready as well. */
  lemma ReadyGrown(v: Visitor, w: Visitor, lo: nat, c: Option<nat>, d: set<nat>, o: set<nat>, p: set<nat>)
    requires Ready(v) && Grew(v, w, lo, c, d, o, p) && SameContext(v, w)
    requires forall x :: x in p ==> x >= |v.heap|
    requires w.curblock.Some? ==> AtOpen(w) && (w.curblock == v.curblock || w.curblock.value >= |v.heap|)
    ensures Ready(w)
  {
    hide Sound;
    assert forall i: nat :: i < |v.heap| ==> w.heap[i].idx == v.heap[i].idx && Preds(v, i) <= Preds(w, i);
    forall k: nat | k < |w.loops| ensures LoopOk(w, w.loops[k]) {
      assert LoopOk(v, v.loops[k]);
    }
  }

  lemma ShapeRefl(v: Visitor)
    requires Ready(v)
    ensures Shape(v, v) && Flow(v, v, true, false)
  {
    ExtRefl(v, |v.heap|, v.curblock);
  }

  // ---- statements without parts -------------------------------------------------------------------

  lemma PushShape(v: Visitor, n: Node)
    requires Ready(v) && !IsEnd(n)
    ensures Shape(v, PushBack(v, n)) && Flow(v, PushBack(v, n), true, false)
  {
    hide Sound, Ext, Sourced, ScopesOk, Touched;
    var w := PushBack(v, n);
    PushOpen(v, n, |v.heap|, v.curblock);
    GrewOnly(v, w, |v.heap|, v.curblock, {}, Cur(v), {}, Touched(v), Cur(v), {});
    UntouchedPreds(v, w, |v.heap|, v.curblock, {}, Cur(v), {});
    if v.curblock.Some? { SamePlace(v, w, v.curblock.value); }
  }

  lemma SamePlace(v: Visitor, w: Visitor, b: nat)
    requires Placed(v, b) && Ext(v, w, {}, {b}, {})
    ensures Placed(w, b)
  {
    assert v.heap[b] == v.heap[b];
  }

  lemma UntouchedPreds(v: Visitor, w: Visitor, lo: nat, c: Option<nat>, d: set<nat>, o: set<nat>, p: set<nat>)
    requires Grew(v, w, lo, c, d, o, p)
    ensures forall i: nat {:trigger Preds(w, i)} :: i < |v.heap| && i !in d ==> Preds(w, i) == Preds(v, i)
  {
    hide Sound, Sourced;
    assert forall i: nat :: i < |v.heap| ==> v.heap[i] == v.heap[i];
  }

  /** Ending the current block and continuing nowhere. */
  lemma LeaveShape(v: Visitor, j: Visitor, d: set<nat>)
    requires Ready(v) && v.curblock.Some? && d <= Touched(v) && SameContext(v, j) && |j.heap| == |v.heap|
    requires Grew(v, j, |v.heap|, v.curblock, d, Cur(v), {}) && TailOk(j, |v.heap|, v.curblock.value)
    ensures Shape(v, Nowhere(j))
  {
    hide Sound, Ext, Sourced, ScopesOk, Touched;
    var w := Nowhere(j);
    SameBlocks(j, w);
    assert Sourced(j, w, |v.heap|, v.curblock);
    GrewJoin(v, j, w, |v.heap|, v.curblock, d, Cur(v), {}, {}, {}, {}, Touched(v), Cur(v), {});
  }

  /** A block with one way out has no critical edge. */
  lemma OneWayTail(v: Visitor, lo: nat, b: nat)
    requires b < |v.heap| && Terminated(v.heap[b]) && |Succs(v, b)| <= 1
    ensures TailOk(v, lo, b)
  {}

  lemma ExitShape(v: Visitor, t: nat)
    requires Ready(v) && v.curblock.Some? && t in Touched(v) && v.loops != []
    requires var l := v.loops[|v.loops| - 1]; t == l.continueDest || t == l.breakDest
    ensures var w := Nowhere(JumpTo(v, t, true));
      Shape(v, w) && Flow(v, w, false, t == v.loops[|v.loops| - 1].breakDest)
  {
    hide Sound, Ext, Sourced, Touched, Terminated;
    var c, lo, j := v.curblock.value, |v.heap|, JumpTo(v, t, true);
    assert LoopOk(v, v.loops[|v.loops| - 1]);
    JumpSteps(v, t, true, lo, v.curblock);
    OneWayTail(j, lo, c);
    LeaveShape(v, j, {t});
    UntouchedPreds(v, j, lo, v.curblock, {t}, {c}, {});
    SameBlocks(j, Nowhere(j));
  }

  lemma ReturnShape(v: Visitor, value: Operand)
    requires Ready(v) && (v.returnDests == [] || v.curblock.Some?)
    ensures Shape(v, DoReturn(v, value)) && Flow(v, DoReturn(v, value), false, false)
  {
    hide Sound, Ext, Sourced, Terminated, JumpTo, PushBack;
    var w := DoReturn(v, value);
    if v.curblock.None? { DeadReturn(v, value); }
    else if v.returnDests == [] { PlainReturn(v, value); }
    else { SavedReturn(v, value); }
  }

  lemma DeadReturn(v: Visitor, value: Operand)
    requires Ready(v) && v.returnDests == [] && v.curblock.None?
    ensures Shape(v, DoReturn(v, value)) && Flow(v, DoReturn(v, value), false, false)
  {
    hide Sound, Ext, Sourced, Terminated;
    ShapeRefl(v);
  }

  lemma PlainReturn(v: Visitor, value: Operand)
    requires Ready(v) && v.returnDests == [] && v.curblock.Some?
    ensures Shape(v, DoReturn(v, value)) && Flow(v, DoReturn(v, value), false, false)
  {
    hide Sound, Ext, Sourced, Touched;
    var c, lo, j := v.curblock.value, |v.heap|, PushBack(v, Ret(value));
    PushSteps(v, c, Ret(value), lo, v.curblock);
    assert j.heap[c].body[..|j.heap[c].body| - 1] == v.heap[c].body;
    OneWayTail(j, lo, c);
    LeaveShape(v, j, {});
    UntouchedPreds(v, j, lo, v.curblock, {}, {c}, {});
    SameBlocks(j, Nowhere(j));
  }

  lemma SavedReturn(v: Visitor, value: Operand)
    requires Ready(v) && v.returnDests != [] && v.curblock.Some?
    ensures Shape(v, DoReturn(v, value)) && Flow(v, DoReturn(v, value), false, false)
  {
    hide Sound, Ext, Sourced, Terminated, JumpTo, PushBack;
    var t, lo := v.returnDests[|v.returnDests| - 1], |v.heap|;
    var x := PushBack(v, Save(value));
    PushShape(v, Save(value));
    ReadyAfter(v, x);
    SamePushed(v, Save(value));
    var j := JumpTo(x, t, false);
    JumpSteps(x, t, false, lo, x.curblock);
    OneWayTail(j, lo, v.curblock.value);
    LeaveShape(x, j, {t});
    ShapeTrans(v, x, Nowhere(j));
    UntouchedPreds(x, j, lo, x.curblock, {t}, {v.curblock.value}, {});
    SameBlocks(j, Nowhere(j));
    assert Flow(x, Nowhere(j), false, false);
    FlowTrans(v, x, Nowhere(j), true, false, false, false);
  }

  lemma SamePushed(v: Visitor, n: Node)
    ensures var x := PushBack(v, n); Here(v, x) && |x.heap| == |v.heap|
  {}
}
