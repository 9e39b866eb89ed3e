/** An arm of a compound statement: statements lowered from a block entered for them, then a jump
    to where the arms meet (src/core/cfg.cpp). And `if`, which is two arms. */
module ShapeArms {
  import opened Commons
  import opened Source
  import opened Lowering
  import opened ShapeBase
  import opened ShapeSteps
  import opened ShapeRules
  import opened ShapeVisits

  /** An arm's first block, with room below it for the block the arms meet in. */
  ghost predicate Opens(a: Visitor, b: nat) {
    Ready(a) && a.curblock == Some(b) && b < |a.heap| && EntryOk(a, b, b) && forall t :: t in Touched(a) ==> t < b
  }

  function Came(x: Visitor): seq<nat> {
    if x.curblock.Some? then [x.curblock.value] else []
  }

  predicate MayMeet(x: Visitor, t: nat, allow: bool) {
    t < |x.heap| && (x.heap[t].idx == -1 || (allow && Preds(x, t) != []))
  }

  /** All of the arm's blocks are finished when it has jumped to t. */
  lemma ArmShape(a: Visitor, b: nat, x: Visitor, t: nat, allow: bool)
    requires Opens(a, b) && Shape(a, x) && t < b && MayMeet(x, t, allow)
    ensures var y := JumpTo(x, t, allow);
      && Grew(a, y, |a.heap|, Some(b), Touched(a) + {t}, {b}, {}) && SameContext(a, y) && |y.heap| == |x.heap|
      && Settled(y, |a.heap|, |y.heap|, None) && Done(y, b, b)
      && Preds(y, t) == Preds(x, t) + Came(x) && TailOk(y, |a.heap|, b)
      && forall i: nat {:trigger Preds(y, i)} :: i != t && i < |x.heap| ==> Preds(y, i) == Preds(x, i)
  {
    hide Sound, Ext, Sourced, Touched, Terminated, ScopesOk, EntryOk, TailOk, JumpTo, Settled;
    SoundParts(a); SoundParts(x);
    EntryStays(a, x, Touched(a), Cur(a), {}, b, b, b);
    if x.curblock.None? {
      DeadJump(x, t, allow);
      GrewOnly(a, x, |a.heap|, Some(b), Touched(a), Cur(a), {}, Touched(a) + {t}, {b}, {});
      WideTail(x, |a.heap|, b, b);
      DoneFrom(x, b, b);
    } else {
      LiveArm(a, b, x, t, allow);
    }
  }

  lemma DeadJump(x: Visitor, t: nat, allow: bool)
    requires x.curblock.None?
    ensures JumpTo(x, t, allow) == x && Preds(x, t) + [] == Preds(x, t)
  {}

  lemma LiveArm(a: Visitor, b: nat, x: Visitor, t: nat, allow: bool)
    requires Opens(a, b) && Shape(a, x) && t < b && MayMeet(x, t, allow) && x.curblock.Some? && EntryOk(x, b, b)
    ensures var y := JumpTo(x, t, allow);
      && Grew(a, y, |a.heap|, Some(b), Touched(a) + {t}, {b}, {}) && SameContext(a, y) && |y.heap| == |x.heap|
      && Settled(y, |a.heap|, |y.heap|, None) && Done(y, b, b)
      && Preds(y, t) == Preds(x, t) + Came(x) && TailOk(y, |a.heap|, b)
      && forall i: nat {:trigger Preds(y, i)} :: i != t && i < |x.heap| ==> Preds(y, i) == Preds(x, i)
  {
    hide Sound, Ext, Sourced, Touched, Terminated, ScopesOk, EntryOk, TailOk, JumpTo, Settled, Done;
    var m, u, y := |a.heap|, x.curblock.value, JumpTo(x, t, allow);
    SoundParts(x);
    JumpSteps(x, t, allow, m, Some(b));
    GrewJoin(a, x, y, m, Some(b), Touched(a), Cur(a), {}, {t}, {u}, {}, Touched(a) + {t}, {b}, {});
    OneWayTail(y, m, u);
    EntryStays(x, y, {t}, {u}, {}, b, b, b);
    if u != b { TailStays(x, y, {t}, {u}, {}, m, m, b); }
    WideTail(y, m, b, b);
    DoneFrom(y, b, b);
    SettledJump(x, y, t, m);
    UntouchedPreds(x, y, m, Some(b), {t}, {u}, {});
  }

  /** The jump finishes the block it ends. */
  lemma SettledJump(x: Visitor, y: Visitor, t: nat, m: nat)
    requires x.curblock.Some? && Ordered(x) && Ext(x, y, {t}, Cur(x), {}) && |y.heap| == |x.heap| && t < m
    requires Settled(x, m, |x.heap|, x.curblock)
    requires x.curblock.value >= m ==> EntryOk(x, m, x.curblock.value) && TailOk(y, m, x.curblock.value)
    ensures Settled(y, m, |y.heap|, None)
  {
    hide Ext, EntryOk, TailOk, Ordered, Done;
    var u := x.curblock.value;
    SettledStays(x, y, {t}, {u}, {}, m, m, x.curblock);
    if u >= m {
      EntryStays(x, y, {t}, {u}, {}, m, m, u);
      DoneFrom(y, m, u);
    }
  }

  /** A jump from another block than the current one. */
  lemma JumpFrom(v: Visitor, u: nat, t: nat, allow: bool, lo: nat, c: Option<nat>)
    requires Sound(v) && u < |v.heap| && OpenBody(v.heap[u]) && MayConnect(v, u, t, allow) && (u >= lo || c == Some(u))
    ensures var w := JumpTo(At(v, u), t, allow);
      && Grew(v, w, lo, c, {t}, {u}, {}) && SameContext(v, w) && |w.heap| == |v.heap|
      && Preds(w, t) == Preds(v, t) + [u] && Terminated(w.heap[u]) && Succs(w, u) == [t]
  {
    hide Sound, Ext, Sourced, Terminated, JumpTo;
    var x := At(v, u);
    SameBlocks(v, x);
    assert Sourced(v, x, lo, if u >= lo then c else Some(u));
    JumpSteps(x, t, allow, lo, if u >= lo then c else Some(u));
    GrewJoin(v, x, JumpTo(x, t, allow), lo, c, {}, {}, {}, {t}, {u}, {}, {t}, {u}, {});
  }

  // ---- where the arms meet ------------------------------------------------------------------------

  /** Only where to continue differs. */
  lemma Moved(v: Visitor, z: Visitor, w: Visitor)
    requires Grew(v, z, |v.heap|, v.curblock, Touched(v), Cur(v), {}) && w == z.(curblock := w.curblock)
    ensures Grew(v, w, |v.heap|, v.curblock, Touched(v), Cur(v), {})
    ensures forall lo: nat, hi: nat, cur: Option<nat> {:trigger Settled(w, lo, hi, cur)} :: Settled(z, lo, hi, cur) ==> Settled(w, lo, hi, cur)
    ensures forall lo: nat, b: nat {:trigger TailOk(w, lo, b)} :: TailOk(z, lo, b) ==> TailOk(w, lo, b)
    ensures forall lo: nat, b: nat {:trigger EntryOk(w, lo, b)} :: EntryOk(z, lo, b) ==> EntryOk(w, lo, b)
    ensures forall t: nat {:trigger Preds(w, t)} :: Preds(w, t) == Preds(z, t)
  {
    hide Sound, Ext, Sourced, Touched;
    SameBlocks(z, w);
    assert Sourced(z, w, |v.heap|, v.curblock);
    GrewJoin(v, z, w, |v.heap|, v.curblock, Touched(v), Cur(v), {}, {}, {}, {}, Touched(v), Cur(v), {});
    forall lo: nat, b: nat | EntryOk(z, lo, b) ensures EntryOk(w, lo, b) { MovedEntry(z, w, lo, b); }
    forall lo: nat, b: nat | TailOk(z, lo, b) ensures TailOk(w, lo, b) { MovedTail(z, w, lo, b); }
    MovedSettled(z, w);
  }

  lemma MovedEntry(z: Visitor, w: Visitor, lo: nat, b: nat)
    requires w.heap == z.heap && EntryOk(z, lo, b)
    ensures EntryOk(w, lo, b)
  {
    forall u | u in Preds(w, b) ensures Headed(w, lo, u, b) {
      assert Headed(z, lo, u, b);
      if z.heap[u].idx >= z.heap[b].idx {
        var r :| Region(z, lo, b, r) && u in r;
        assert Region(w, lo, b, r) by {
          forall x, q | x in r && x != b && q in Preds(w, x) ensures q in r { assert q in Preds(z, x); }
        }
      }
    }
  }

  lemma MovedTail(z: Visitor, w: Visitor, lo: nat, b: nat)
    requires w.heap == z.heap && TailOk(z, lo, b)
    ensures TailOk(w, lo, b)
  {
    hide Terminated;
    if |Succs(w, b)| >= 2 {
      forall t | t in Succs(w, b) ensures lo <= t && Preds(w, t) == [b] { assert t in Succs(z, b); }
    }
  }

  lemma MovedSettled(z: Visitor, w: Visitor)
    requires w.heap == z.heap
    ensures forall lo: nat, hi: nat, cur: Option<nat> {:trigger Settled(w, lo, hi, cur)} :: Settled(z, lo, hi, cur) ==> Settled(w, lo, hi, cur)
  {
    hide EntryOk, TailOk;
    forall lo: nat, hi: nat, cur: Option<nat> | Settled(z, lo, hi, cur) ensures Settled(w, lo, hi, cur) {
      forall i: nat | lo <= i < hi && cur != Some(i) ensures Done(w, lo, i) {
        assert Done(z, lo, i);
        if !Blank(z.heap[i]) { MovedEntry(z, w, lo, i); MovedTail(z, w, lo, i); }
      }
    }
  }

  /** Control continues in block e, placed after everything that leads to it; the rest is done. */
  lemma ExitsTo(v: Visitor, z: Visitor, e: nat)
    requires Ready(v) && v.curblock.Some? && e >= |v.heap| && Preds(z, e) != [] && Spare(z, e)
    requires Grew(v, z, |v.heap|, v.curblock, Touched(v), Cur(v), {}) && SameContext(v, z)
    requires TailOk(z, |v.heap|, v.curblock.value) && Settled(z, |v.heap|, |z.heap|, Some(e))
    ensures var w := At(PlaceBlock(z, e), e);
      Shape(v, w) && forall t: nat {:trigger Preds(w, t)} :: Preds(w, t) == Preds(z, t)
  {
    hide Sound, Ext, Sourced, Touched, Terminated, ScopesOk, EntryOk, TailOk, Settled, PlaceBlock;
    var n, c := |v.heap|, v.curblock;
    var y := PlaceBlock(z, e);
    var w := At(y, e);
    PlaceSteps(z, e, n, c);
    SoundParts(z);
    TouchedOld(v);
    GrewJoin(v, z, y, n, c, Touched(v), Cur(v), {}, {}, {}, {e}, Touched(v), Cur(v), {});
    PlacedPreds(z, y, e);
    EntryLast(y, n, e);
    TailStays(z, y, {}, {}, {e}, n, n, c.value);
    ExitSettled(z, y, n, e);
    Moved(v, y, w);
    assert Placed(w, e) && OpenBody(w.heap[e]);
  }

  lemma PlacedPreds(z: Visitor, y: Visitor, n: nat)
    requires Ext(z, y, {}, {}, {n}) && |y.heap| == |z.heap|
    ensures forall t: nat {:trigger Preds(y, t)} :: Preds(y, t) == Preds(z, t)
  {
    forall t: nat ensures Preds(y, t) == Preds(z, t) {
      if t < |z.heap| { assert z.heap[t] == z.heap[t]; }
    }
  }

  lemma ExitSettled(z: Visitor, y: Visitor, n: nat, e: nat)
    requires Ext(z, y, {}, {}, {e}) && Ordered(z) && Spare(z, e) && Settled(z, n, |z.heap|, Some(e)) && |y.heap| == |z.heap|
    ensures Settled(y, n, |y.heap|, Some(e))
  {
    hide Done, Ext, Ordered;
    forall i: nat | n <= i < |y.heap| && i != e ensures Done(y, n, i) {
      assert Done(z, n, i);
      DoneStays(z, y, {}, {}, {e}, n, n, i);
    }
  }

  /** The first arm's blocks stay finished while the second arm is made. */
  lemma BothArms(y: Visitor, a: Visitor, z: Visitor, n: nat, m: nat, c: nat, d: set<nat>)
    requires Sound(y) && Ext(y, a, {}, {c}, {}) && Ext(a, z, d, {m}, {}) && m == |y.heap| && |a.heap| == m + 1
    requires c < n && (forall t :: t in d ==> t <= n) && n < m
    requires Settled(y, n + 1, m, None) && Settled(z, m + 1, |z.heap|, None) && Done(z, m, m)
    ensures Settled(z, n + 1, |z.heap|, None)
  {
    hide Ext, Ordered, Indexed, Dual, Done;
    ExtTrans(y, a, z, {}, {c}, {}, d, {m}, {});
    ExtOnly(y, z, {} + d, {c} + {m}, {} + {}, d, {c}, {});
    var lo := n + 1;
    SettledStays(y, z, d, {c}, {}, lo, lo, None);
    ArmSettled(z, m);
    WideSettled(z, m, lo, |z.heap|, None);
  }

  lemma ArmStays(a: Visitor, z: Visitor, d: set<nat>, m: nat, c: nat, b: nat)
    requires Ext(a, z, d, {m}, {}) && c < |a.heap| && c != m && b < |a.heap| && b !in d
    ensures c < |z.heap| && z.heap[c].body == a.heap[c].body && Succs(z, c) == Succs(a, c) && Preds(z, b) == Preds(a, b)
    ensures Terminated(a.heap[c]) ==> Terminated(z.heap[c])
  {
    assert a.heap[c] == a.heap[c] && a.heap[b] == a.heap[b];
  }

  lemma StillFrom(y: Visitor, a: Visitor, o: set<nat>, b: nat)
    requires b < |y.heap| && Ext(y, a, {}, o, {})
    ensures Preds(a, b) == Preds(y, b)
  {
    assert y.heap[b] == y.heap[b];
  }

  // ---- if -----------------------------------------------------------------------------------------

  /** A block made but not placed or entered, whatever leads to it already. */
  predicate Spare(v: Visitor, b: nat) {
    b < |v.heap| && v.heap[b].body == [] && v.heap[b].successors == [] && v.heap[b].idx == -1
  }

  /** v's current block c now ends in nothing yet, leading to n + 1 only. */
  ghost predicate HalfIf(v: Visitor, y: Visitor) {
    v.curblock.Some? &&
    var n, c := |v.heap|, v.curblock.value;
    && SameContext(v, y) && n + 2 <= |y.heap|
    && Grew(v, y, n, v.curblock, Touched(v), {c}, {})
    && Placed(y, c) && Succs(y, c) == [n + 1] && NoEnd(y.heap[c].body)
    && Spare(y, n) && Settled(y, n + 1, |y.heap|, None) && Preds(y, n + 1) == [c]
  }

  lemma IfOpens(v: Visitor)
    requires Ready(v) && v.curblock.Some?
    ensures var (a, n, c) := (IfBody(v), |v.heap|, v.curblock.value);
      && Opens(a, n + 1) && SameContext(v, a) && |a.heap| == n + 2 && Grew(v, a, n, v.curblock, {}, {c}, {})
      && Placed(a, c) && Succs(a, c) == [n + 1] && a.heap[c].body == v.heap[c].body && Blank(a.heap[n]) && Preds(a, n + 1) == [c]
      && Touched(a) == Touched(v)
  {
    hide Sound, Ext, Sourced, Touched, EnterNew;
    var n, c, w, a := |v.heap|, v.curblock.value, AddDeferredBlock(v), IfBody(v);
    DeferSteps(v, n, v.curblock);
    EnterSteps(w, c, n, v.curblock);
    GrewJoin(v, w, a, n, v.curblock, {}, {}, {}, {}, {c}, {}, {}, {c}, {});
    Keeps(v, a, {}, {c}, {}, c);
    ReadyGrown(v, a, n, v.curblock, {}, {c}, {});
    StaysBlank(w, a, {}, {c}, {}, n);
    EntryForward(a, n + 1, n + 1, c);
    TouchedThere(v, a);
  }

  lemma TouchedThere(v: Visitor, a: Visitor)
    requires Ready(v) && SameContext(v, a) && v.curblock.Some? && a.curblock.Some?
    ensures Touched(a) == Touched(v) && forall t :: t in Touched(a) ==> t < |v.heap|
  {
    TouchedOld(v);
  }

  lemma Keeps(v: Visitor, w: Visitor, d: set<nat>, o: set<nat>, p: set<nat>, b: nat)
    requires Ext(v, w, d, o, p) && b < |v.heap|
    ensures b < |w.heap| && (b !in p ==> w.heap[b].idx == v.heap[b].idx) && (b !in d ==> Preds(w, b) == Preds(v, b))
    ensures b !in o ==> w.heap[b].body == v.heap[b].body && Succs(w, b) == Succs(v, b)
    ensures b !in o ==> Terminated(w.heap[b]) == Terminated(v.heap[b]) && OpenBody(w.heap[b]) == OpenBody(v.heap[b])
  {
    assert v.heap[b] == v.heap[b];
  }

  lemma StaysSpare(v: Visitor, w: Visitor, d: set<nat>, o: set<nat>, p: set<nat>, b: nat)
    requires Spare(v, b) && Ext(v, w, d, o, p) && b !in o && b !in p
    ensures Spare(w, b) && (b !in d ==> Preds(w, b) == Preds(v, b))
  {
    assert v.heap[b] == v.heap[b];
  }

  lemma StaysBlank(v: Visitor, w: Visitor, d: set<nat>, o: set<nat>, p: set<nat>, b: nat)
    requires b < |v.heap| && Blank(v.heap[b]) && Ext(v, w, d, o, p) && b !in d && b !in o && b !in p
    ensures Blank(w.heap[b])
  {
    assert v.heap[b] == v.heap[b];
  }

  /** Entered from one earlier block. */
  lemma EntryForward(v: Visitor, lo: nat, b: nat, u: nat)
    requires OnlyFrom(v, b, u)
    ensures EntryOk(v, lo, b)
  {
    forall x | x in Preds(v, b) ensures Headed(v, lo, x, b) {}
  }

  /** Placed after everything that leads to it. */
  lemma EntryLast(v: Visitor, lo: nat, b: nat)
    requires Placed(v, b) && Preds(v, b) != []
    requires forall u :: u in Preds(v, b) ==> Placed(v, u) && v.heap[u].idx < v.heap[b].idx
    ensures EntryOk(v, lo, b)
  {
    forall x | x in Preds(v, b) ensures Headed(v, lo, x, b) {}
  }

  /** After the first arm. */
  lemma IfHalfway(v: Visitor, x: Visitor)
    requires Ready(v) && v.curblock.Some? && Shape(IfBody(v), x)
    ensures var y := JumpTo(x, |v.heap|, false);
      && HalfIf(v, y) && |y.heap| == |x.heap| && Preds(y, |v.heap|) == Came(x)
      && forall i: nat {:trigger Preds(y, i)} :: i < |v.heap| ==> Preds(y, i) == Preds(x, i)
  {
    hide Sound, Ext, Sourced, Touched, Terminated, ScopesOk, EntryOk, TailOk, JumpTo, Settled, IfBody, NoEnd;
    var n, c, a, y := |v.heap|, v.curblock.value, IfBody(v), JumpTo(x, |v.heap|, false);
    IfOpens(v);
    TouchedOld(v);
    assert n !in Touched(a) && n !in Cur(a) && n + 1 !in Touched(a) + {n};
    StaysSpare(a, x, Touched(a), Cur(a), {}, n);
    ArmShape(a, n + 1, x, n, false);
    StaysSpare(a, y, Touched(a) + {n}, {n + 1}, {}, n);
    Keeps(a, y, Touched(a) + {n}, {n + 1}, {}, c);
    assert c != n + 1;
    ArmStart(a, y, n + 1, n, c);
    GrewWiden(a, y, n + 2, Some(n + 1), n, v.curblock, Touched(a) + {n}, {n + 1}, {});
    GrewJoin(v, a, y, n, v.curblock, {}, {c}, {}, Touched(a) + {n}, {n + 1}, {}, Touched(v), {c}, {});
    assert NoEnd(y.heap[c].body);
    ArmSettled(y, n + 1);
    assert [] + Came(x) == Came(x);
  }

  lemma ArmStart(a: Visitor, y: Visitor, b: nat, t: nat, c: nat)
    requires b < |a.heap| && Preds(a, b) == [c] && Ext(a, y, Touched(a) + {t}, {b}, {}) && b !in Touched(a) && b != t
    ensures Preds(y, b) == [c]
  {
    assert a.heap[b] == a.heap[b];
  }

  lemma ArmSettled(y: Visitor, b: nat)
    requires Done(y, b, b) && Settled(y, b + 1, |y.heap|, None)
    ensures Settled(y, b, |y.heap|, None)
  {
    hide Done;
    WideSettled(y, b + 1, b, |y.heap|, None);
  }
}
