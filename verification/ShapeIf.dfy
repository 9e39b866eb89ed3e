/** The shape `if` makes (src/core/cfg.cpp, visit_if). */
module ShapeIf {
  import opened Commons
  import opened Source
  import opened Lowering
  import opened ShapeBase
  import opened ShapeSteps
  import opened ShapeRules
  import opened ShapeVisits
  import opened ShapeArms

  /** The starting block branches to the two arms, of which it is the only predecessor. */
  ghost predicate Forked(v: Visitor, y: Visitor, m: nat) {
    v.curblock.Some? &&
    var n, c := |v.heap|, v.curblock.value;
    && Grew(v, y, n, v.curblock, Touched(v), {c}, {}) && SameContext(v, y) && n + 2 <= m < |y.heap|
    && c < n && Terminated(y.heap[c]) && Succs(y, c) == [n + 1, m]
    && Preds(y, n + 1) == [c] && Preds(y, m) == [c] && Spare(y, n)
  }

  lemma IfReopens(v: Visitor, y: Visitor, test: nat)
    requires Ready(v) && HalfIf(v, y)
    ensures var (a, m, c) := (IfOrelse(test, v, y), |y.heap|, v.curblock.value);
      && Opens(a, m) && |a.heap| == m + 1 && Forked(v, a, m) && Ext(y, a, {}, {c}, {})
      && Preds(a, |v.heap|) == Preds(y, |v.heap|) && Touched(a) == Touched(v)
  {
    hide Ext, Sourced, Touched, EnterNew, NoEnd, Dual, Ordered, ScopesOk;
    var n, m, c, a := |v.heap|, |y.heap|, v.curblock.value, IfOrelse(test, v, y);
    var node := Branch(Test(test), n + 1, m);
    var z := PushTo(y, c, node);
    PushSteps(y, c, node, n, v.curblock);
    EnterSteps(z, c, n, v.curblock);
    GrewJoin(y, z, a, n, v.curblock, {}, {c}, {}, {}, {c}, {}, {}, {c}, {});
    GrewJoin(v, y, a, n, v.curblock, Touched(v), {c}, {}, {}, {c}, {}, Touched(v), {c}, {});
    StaysSpare(y, a, {}, {c}, {}, n);
    Keeps(y, a, {}, {c}, {}, c);
    assert OnlyFrom(a, m, c);
    EntryForward(a, m, m, c);
    ReadyGrown(v, a, n, v.curblock, Touched(v), {c}, {});
    TouchedThere(v, a);
    StillFrom(y, a, {c}, n + 1);
    var code := a.heap[c].body;
    assert code == y.heap[c].body + [node];
    assert code[..|code| - 1] == y.heap[c].body;
  }

  /** After the second arm, everything but the exit block is finished. */
  lemma IfJoined(v: Visitor, y: Visitor, test: nat, x: Visitor)
    requires Ready(v) && HalfIf(v, y) && Shape(IfOrelse(test, v, y), x)
    ensures var z := JumpTo(x, |v.heap|, false);
      && Forked(v, z, |y.heap|) && Settled(z, |v.heap| + 1, |z.heap|, None) && |z.heap| == |x.heap|
      && Preds(z, |v.heap|) == Preds(y, |v.heap|) + Came(x)
      && forall i: nat {:trigger Preds(z, i)} :: i < |v.heap| ==> Preds(z, i) == Preds(x, i)
  {
    hide Sound, Ext, Sourced, Touched, Terminated, ScopesOk, EntryOk, TailOk, JumpTo, Settled, IfOrelse, NoEnd, Done;
    var n, m, c, a, z := |v.heap|, |y.heap|, v.curblock.value, IfOrelse(test, v, y), JumpTo(x, |v.heap|, false);
    IfReopens(v, y, test);
    TouchedOld(v);
    assert n !in Touched(a) && n !in Cur(a);
    StaysSpare(a, x, Touched(a), Cur(a), {}, n);
    ArmShape(a, m, x, n, false);
    var d := Touched(a) + {n};
    StaysSpare(a, z, d, {m}, {}, n);
    ArmStart(a, z, m, n, c);
    ArmStays(a, z, d, m, c, n + 1);
    GrewWiden(a, z, m + 1, Some(m), n, v.curblock, d, {m}, {});
    GrewJoin(v, a, z, n, v.curblock, Touched(v), {c}, {}, d, {m}, {}, Touched(v), {c}, {});
    BothArms(y, a, z, n, m, c, d);
  }

  lemma ForkedTail(v: Visitor, z: Visitor, m: nat)
    requires Forked(v, z, m)
    ensures TailOk(z, |v.heap|, v.curblock.value)
  {
    hide Terminated;
  }

  /** Closing an `if` that some arm runs off the end of. */
  lemma IfCloses(v: Visitor, z: Visitor, m: nat)
    requires Ready(v) && Forked(v, z, m) && Settled(z, |v.heap| + 1, |z.heap|, None)
    ensures var w := CloseIf(z, |v.heap|);
      Shape(v, w) && (w.curblock.Some? <==> Preds(z, |v.heap|) != []) && forall t: nat :: t < |v.heap| ==> Preds(w, t) == Preds(z, t)
  {
    hide Sound, Ext, Sourced, Touched, Terminated, ScopesOk, EntryOk, TailOk, Settled, Done;
    var n := |v.heap|;
    ForkedTail(v, z, m);
    if HasPredecessors(z, n) {
      AllButExit(z, n);
      ExitsTo(v, z, n);
    } else { IfEnds(v, z); }
  }

  lemma IfEnds(v: Visitor, z: Visitor)
    requires Ready(v) && v.curblock.Some? && Preds(z, |v.heap|) == [] && Spare(z, |v.heap|)
    requires Grew(v, z, |v.heap|, v.curblock, Touched(v), Cur(v), {}) && SameContext(v, z)
    requires TailOk(z, |v.heap|, v.curblock.value) && Settled(z, |v.heap| + 1, |z.heap|, None)
    ensures Shape(v, Nowhere(z)) && forall t: nat :: t < |v.heap| ==> Preds(Nowhere(z), t) == Preds(z, t)
  {
    hide Sound, Ext, Sourced, Touched, Terminated, ScopesOk, EntryOk, TailOk, Settled;
    var n, w, c := |v.heap|, Nowhere(z), v.curblock;
    assert Done(z, n, n);
    ArmSettled(z, n);
    Moved(v, z, w);
  }
  lemma AllButExit(z: Visitor, n: nat)
    requires Settled(z, n + 1, |z.heap|, None)
    ensures Settled(z, n, |z.heap|, Some(n))
  {
    hide Done;
    var lo := n + 1;
    WideSettled(z, lo, n, |z.heap|, None);
  }
}
