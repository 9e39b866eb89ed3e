/** What every visit of src/core/cfg.cpp does to the shape of the graph: the blocks it adds are
    finished or are the block being filled, and older blocks only gain edges where the scopes say. */
module ShapeRules {
  import opened Commons
  import opened Source
  import opened Lowering
  import opened ShapeBase
  import opened ShapeSteps

  // ---- which statements the code can lower ------------------------------------------------------

  /** Whether control can run off the end of the statements, as far as the visitor can tell. */
  predicate Falls(ss: seq<Stmt>)
    decreases ss, 1
  {
    ss == [] || (FallsOut(ss[0]) && Falls(ss[1..]))
  }

  predicate FallsOut(s: Stmt)
    decreases s, 0
  {
    match s
    case Simple(_) => true
    case Return(_) => false
    case Break => false
    case Continue => false
    case If(_, body, orelse) => Falls(body) || Falls(orelse)
    case While(_, _, _) => true
    case For(_, _, _, _, _) => true
    case With(_, _, _, body) => Falls(body)
  }

  /** Whether a break that control may come to leaves the enclosing loop. */
  predicate Breaks(ss: seq<Stmt>)
    decreases ss, 1
  {
    ss != [] && (BreaksOut(ss[0]) || (FallsOut(ss[0]) && Breaks(ss[1..])))
  }

  predicate BreaksOut(s: Stmt)
    decreases s, 0
  {
    match s
    case Simple(_) => false
    case Return(_) => false
    case Break => true
    case Continue => false
    case If(_, body, orelse) => Breaks(body) || Breaks(orelse)
    case While(_, _, orelse) => Breaks(orelse)
    case For(_, _, _, _, orelse) => Breaks(orelse)
    case With(_, _, _, body) => Breaks(body)
  }

  /** The statements computeCFG lowers without an error: returns inside functions, and inside a
      `with` only where control can come; breaks and continues inside loops; and the block after
      every loop can be reached, from the else arm or from a break. Where control cannot come,
      only `with` and `return` are looked at. */
  predicate Accepts(ss: seq<Stmt>, inFunction: bool, inLoop: bool, inWith: bool, live: bool)
    decreases ss, 1
  {
    ss == [] || (AcceptsOne(ss[0], inFunction, inLoop, inWith, live) &&
                 Accepts(ss[1..], inFunction, inLoop, inWith, live && FallsOut(ss[0])))
  }

  predicate AcceptsOne(s: Stmt, inFunction: bool, inLoop: bool, inWith: bool, live: bool)
    decreases s, 0
  {
    match s
    case Simple(_) => true
    case Return(_) => inFunction && (live || !inWith)
    case Break => live ==> inLoop
    case Continue => live ==> inLoop
    case If(_, body, orelse) =>
      live ==> Accepts(body, inFunction, inLoop, inWith, true) && Accepts(orelse, inFunction, inLoop, inWith, true)
    case While(_, body, orelse) =>
      live ==> Accepts(body, inFunction, true, inWith, true) && Accepts(orelse, inFunction, inLoop, inWith, true)
               && (Falls(orelse) || Breaks(body))
    case For(_, _, _, body, orelse) =>
      live ==> Accepts(body, inFunction, true, inWith, true) && Accepts(orelse, inFunction, inLoop, inWith, true)
               && (Falls(orelse) || Breaks(body))
    case With(_, _, _, body) => Accepts(body, inFunction, inLoop, true, live)
  }

  predicate AcceptsAt(ss: seq<Stmt>, v: Visitor) {
    Accepts(ss, v.inFunction, v.loops != [], v.returnDests != [], v.curblock.Some?)
  }

  // ---- the state a visit finds ------------------------------------------------------------------

  ghost predicate LoopOk(v: Visitor, l: LoopInfo) {
    && Waiting(v, l.breakDest) && l.continueDest < |v.heap| && l.continueDest != l.breakDest
    && (Waiting(v, l.continueDest) || Preds(v, l.continueDest) != [])
    && v.curblock != Some(l.continueDest)
  }

  /** Exits lead to blocks not placed yet, except that `continue` may lead back. */
  ghost predicate ScopesOk(v: Visitor) {
    && (forall k: nat {:trigger v.loops[k]} :: k < |v.loops| ==> LoopOk(v, v.loops[k]))
    && (forall k: nat {:trigger v.returnDests[k]} :: k < |v.returnDests| ==> Waiting(v, v.returnDests[k]))
    && (forall k: nat, m: nat {:trigger v.loops[k], v.returnDests[m]} :: k < |v.loops| && m < |v.returnDests| ==>
          v.loops[k].breakDest != v.returnDests[m])
  }

  ghost predicate Ready(v: Visitor) {
    Sound(v) && ScopesOk(v) && (v.curblock.Some? ==> AtOpen(v))
  }

  /** The blocks an exit statement may add an edge to. */
  function Touched(v: Visitor): set<nat> {
    if v.curblock.None? then {}
    else
      (if v.loops == [] then {} else {v.loops[|v.loops| - 1].continueDest, v.loops[|v.loops| - 1].breakDest}) +
      (if v.returnDests == [] then {} else {v.returnDests[|v.returnDests| - 1]})
  }

  lemma TouchedOld(v: Visitor)
    requires ScopesOk(v)
    ensures forall i :: i in Touched(v) ==> i < |v.heap| && v.curblock.Some?
    ensures v.curblock.Some? && Placed(v, v.curblock.value) ==> v.curblock.value !in Touched(v)
  {}

  // ---- what a visit leaves ------------------------------------------------------------------------

  ghost predicate Resumes(v: Visitor, w: Visitor) {
    && (w.curblock.Some? ==>
          && v.curblock.Some? && AtOpen(w)
          && (w.curblock == v.curblock || (w.curblock.value >= |v.heap| && EntryOk(w, |v.heap|, w.curblock.value))))
    && (v.curblock.Some? && w.curblock != v.curblock ==> TailOk(w, |v.heap|, v.curblock.value))
  }

  ghost predicate Shape(v: Visitor, w: Visitor) {
    && SameContext(v, w)
    && Grew(v, w, |v.heap|, v.curblock, Touched(v), Cur(v), {})
    && Settled(w, |v.heap|, |w.heap|, w.curblock)
    && Resumes(v, w)
  }

  lemma ReadyAfter(v: Visitor, w: Visitor)
    requires Ready(v) && Shape(v, w)
    ensures Ready(w)
  {
    hide Sound, Settled, EntryOk, TailOk;
    assert forall i: nat :: i < |v.heap| ==> w.heap[i].idx == v.heap[i].idx && Preds(v, i) <= Preds(w, i);
    forall k: nat | k < |w.loops| ensures LoopOk(w, w.loops[k]) {
      assert LoopOk(v, v.loops[k]);
    }
  }

  lemma WideTail(v: Visitor, lo: nat, lo': nat, b: nat)
    requires TailOk(v, lo, b) && lo' <= lo
    ensures TailOk(v, lo', b)
  {}

  lemma WideEntry(v: Visitor, lo: nat, lo': nat, b: nat)
    requires EntryOk(v, lo, b) && lo' <= lo
    ensures EntryOk(v, lo', b)
  {
    forall u | u in Preds(v, b) ensures Headed(v, lo', u, b) {
      assert Headed(v, lo, u, b);
      if v.heap[u].idx >= v.heap[b].idx {
        var r :| Region(v, lo, b, r) && u in r;
        assert Region(v, lo', b, r);
      }
    }
  }

  lemma WideSettled(v: Visitor, lo: nat, lo': nat, hi: nat, cur: Option<nat>)
    requires Settled(v, lo, hi, cur) && lo' <= lo
    ensures forall i: nat {:trigger Done(v, lo', i)} :: lo <= i < hi && cur != Some(i) ==> Done(v, lo', i)
  {
    hide EntryOk, TailOk, Blank;
    forall i: nat | lo <= i < hi && cur != Some(i) ensures Done(v, lo', i) {
      assert Done(v, lo, i);
      if !Blank(v.heap[i]) { WideEntry(v, lo, lo', i); WideTail(v, lo, lo', i); }
    }
  }

  /** Blocks settled before a change elsewhere are settled after it. */
  lemma SettledStays(v: Visitor, w: Visitor, d: set<nat>, o: set<nat>, p: set<nat>, lo: nat, lo': nat, cur: Option<nat>)
    requires Ext(v, w, d, o, p) && Ordered(v) && lo' <= lo && Settled(v, lo, |v.heap|, cur)
    requires forall x :: x in d ==> x < lo || x >= |v.heap|
    requires forall x :: x in o ==> x < lo || x >= |v.heap| || cur == Some(x)
    requires forall x :: x in p ==> x < lo || x >= |v.heap|
    requires forall x :: x in p ==> x >= |v.heap| || v.heap[x].idx == -1
    ensures forall i: nat {:trigger Done(w, lo', i)} :: lo <= i < |v.heap| && cur != Some(i) ==> Done(w, lo', i)
  {
    hide Done, Ext, Ordered;
    forall i: nat | lo <= i < |v.heap| && cur != Some(i) ensures Done(w, lo', i) {
      assert Done(v, lo, i);
      DoneStays(v, w, d, o, p, lo, lo', i);
    }
  }

  lemma ShapeTrans(v: Visitor, w: Visitor, x: Visitor)
    requires Ready(v) && Shape(v, w) && Shape(w, x)
    ensures Shape(v, x)
  {
    hide Sound, Ext, Sourced, EntryOk, TailOk, ScopesOk, Touched, Settled;
    var lo, c := |v.heap|, v.curblock;
    GrowsOver(v, w, x);
    TouchedOld(v); SameTouched(v, w);
    SoundParts(w);
    LaterSettled(v, w, x);
    assert Resumes(v, x) by {
      if x.curblock.Some? && x.curblock != c && x.curblock == w.curblock {
        EntryStays(w, x, Touched(w), Cur(w), {}, lo, lo, x.curblock.value);
      } else if x.curblock.Some? && x.curblock != w.curblock {
        WideEntry(x, |w.heap|, lo, x.curblock.value);
      }
      if c.Some? && x.curblock != c {
        if w.curblock == c { WideTail(x, |w.heap|, lo, c.value); }
        else { TailStays(w, x, Touched(w), Cur(w), {}, lo, lo, c.value); }
      }
    }
  }

  lemma SoundParts(v: Visitor)
    requires Sound(v)
    ensures Ordered(v) && Indexed(v) && Dual(v) && !v.failed
  {}

  lemma SameTouched(v: Visitor, w: Visitor)
    requires Shape(v, w)
    ensures Touched(w) == if w.curblock.Some? then Touched(v) else {}
  {}

  lemma GrowsOver(v: Visitor, w: Visitor, x: Visitor)
    requires Ready(v) && Shape(v, w) && Shape(w, x)
    ensures SameContext(v, x) && Grew(v, x, |v.heap|, v.curblock, Touched(v), Cur(v), {}) && |v.heap| <= |w.heap| <= |x.heap|
  {
    hide Sound, Sourced, EntryOk, TailOk, ScopesOk, Touched, Settled;
    SameTouched(v, w);
    GrewWiden(w, x, |w.heap|, w.curblock, |v.heap|, v.curblock, Touched(w), Cur(w), {});
    GrewJoin(v, w, x, |v.heap|, v.curblock, Touched(v), Cur(v), {}, Touched(w), Cur(w), {}, Touched(v), Cur(v), {});
  }

  lemma LaterSettled(v: Visitor, w: Visitor, x: Visitor)
    requires Ready(v) && Shape(v, w) && Shape(w, x)
    ensures Settled(x, |v.heap|, |x.heap|, x.curblock)
  {
    hide Sound, Sourced, EntryOk, TailOk, ScopesOk, Touched, Done;
    var lo := |v.heap|;
    TouchedOld(v); SameTouched(v, w); SoundParts(w);
    SettledStays(w, x, Touched(w), Cur(w), {}, lo, lo, w.curblock);
    WideSettled(x, |w.heap|, lo, |x.heap|, x.curblock);
    if w.curblock.Some? && w.curblock != v.curblock && x.curblock != w.curblock {
      var b := w.curblock.value;
      EntryStays(w, x, Touched(w), Cur(w), {}, lo, lo, b);
      WideTail(x, |w.heap|, lo, b);
      DoneFrom(x, lo, b);
    }
  }

  lemma DoneFrom(v: Visitor, lo: nat, b: nat)
    requires EntryOk(v, lo, b) && TailOk(v, lo, b)
    ensures Done(v, lo, b)
  {}
}
