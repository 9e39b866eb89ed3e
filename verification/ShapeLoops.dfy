/** What both loops share (src/core/cfg.cpp): the block the loop is entered by, the region it
    alone leads into, and the else arm. */
module ShapeLoops {
  import opened Commons
  import opened Source
  import opened Lowering
  import opened ShapeBase
  import opened ShapeSteps
  import opened ShapeRules
  import opened ShapeVisits
  import opened ShapeArms

  function LoopHead(v: Visitor): Visitor
    requires v.curblock.Some?
  {
    At(JumpTo(AddBlock(v), |v.heap|, false), |v.heap|)
  }

  lemma HeadSteps(v: Visitor)
    requires Ready(v) && v.curblock.Some?
    ensures var (w, n, c) := (LoopHead(v), |v.heap|, v.curblock.value);
      && Grew(v, w, n, v.curblock, {}, {c}, {}) && SameContext(v, w) && |w.heap| == n + 1
      && AtOpen(w) && w.curblock == Some(n) && OnlyFrom(w, n, c) && Terminated(w.heap[c]) && Succs(w, c) == [n] && c < n
  {
    hide Ext, Sourced, Dual, Ordered, Terminated, JumpTo, ScopesOk, Touched;
    var n, c, x := |v.heap|, v.curblock.value, AddBlock(v);
    AddSteps(v, n, v.curblock);
    assert v.heap[c].idx < |v.blocks| && x.heap[c] == v.heap[c];
    JumpSteps(x, n, false, n, v.curblock);
    var y := JumpTo(x, n, false);
    GrewJoin(v, x, y, n, v.curblock, {}, {}, {}, {n}, {c}, {}, {}, {c}, {});
    Keeps(x, y, {n}, {c}, {}, n);
    Keeps(x, y, {n}, {c}, {}, c);
    assert Preds(x, n) == [];
    AtElsewhere(v, y, n, n, v.curblock, {c});
  }

  /** Every predecessor of t is before it, or inside the region that t alone leads into. */
  ghost predicate Heads(v: Visitor, lo: nat, t: nat, r: set<nat>) {
    && Placed(v, t) && Preds(v, t) != [] && Region(v, lo, t, r)
    && forall u {:trigger u in Preds(v, t)} :: u in Preds(v, t) ==> u in r || (Placed(v, u) && v.heap[u].idx < v.heap[t].idx)
  }

  lemma HeadsEntry(v: Visitor, lo: nat, t: nat, r: set<nat>)
    requires Heads(v, lo, t, r)
    ensures EntryOk(v, lo, t)
  {
    forall u | u in Preds(v, t) ensures Headed(v, lo, u, t) {}
  }

  lemma HeadsStays(v: Visitor, w: Visitor, d: set<nat>, o: set<nat>, p: set<nat>, lo: nat, t: nat, r: set<nat>)
    requires Heads(v, lo, t, r) && Ext(v, w, d, o, p) && d !! r
    requires forall x :: x in p ==> x >= |v.heap| || v.heap[x].idx == -1
    ensures Heads(w, lo, t, r)
  {
    RegionStays(v, w, d, o, p, lo, t, r);
    assert v.heap[t] == v.heap[t];
    forall u | u in Preds(w, t) ensures u in r || (Placed(w, u) && w.heap[u].idx < w.heap[t].idx) {
      assert u in Preds(v, t);
      if u !in r { assert v.heap[u] == v.heap[u]; }
    }
  }

  /** The blocks made for a loop's body, with some made just before it. */
  ghost function Inner(base: set<nat>, from: nat, to: nat): (r: set<nat>)
    ensures forall i :: i in r <==> i in base || from <= i < to
  {
    if to <= from then base else Inner(base, from, to - 1) + {to - 1 as nat}
  }

  /** What the body adds leads only to where it started and back, so a header stays the only way in. */
  lemma BodyRegion(a: Visitor, y: Visitor, lo: nat, t: nat, base: set<nat>, c: nat, d: set<nat>, o: set<nat>)
    requires Sound(a) && Grew(a, y, |a.heap|, Some(c), d, o, {}) && c in base && Heads(a, lo, t, base)
    ensures Heads(y, lo, t, Inner(base, |a.heap|, |y.heap|))
  {
    hide Sound, Ext;
    var m, r := |a.heap|, Inner(base, |a.heap|, |y.heap|);
    assert |a.heap| <= |y.heap| by { assert Ext(a, y, d, o, {}); ExtSize(a, y, d, o, {}); }
    Keeps(a, y, d, o, {}, t);
    PredsExist(y);
    forall x: nat, q | q in Preds(y, x) && (x in r || x == t) ensures q in r || q in Preds(a, x) {
      if q !in Preds(a, x) { NewSource(a, y, m, Some(c), x, q); }
    }
    forall x, q | x in r && x != t && q in Preds(y, x) ensures q in r {
      if q in Preds(a, x) { assert x < |a.heap|; assert x in base; assert q in base; }
    }
    forall u | u in Preds(y, t) ensures u in r || (Placed(y, u) && y.heap[u].idx < y.heap[t].idx) {
      if u !in r { assert u in Preds(a, t); Keeps(a, y, d, o, {}, u); }
    }
    assert Preds(a, t) <= Preds(y, t);
  }

  lemma ExtSize(v: Visitor, w: Visitor, d: set<nat>, o: set<nat>, p: set<nat>)
    requires Ext(v, w, d, o, p)
    ensures |v.heap| <= |w.heap|
  {}

  lemma PredsExist(y: Visitor)
    requires Sound(y)
    ensures forall x: nat, q {:trigger q in Preds(y, x)} :: q in Preds(y, x) ==> q < |y.heap|
  {}

  lemma NewSource(a: Visitor, y: Visitor, m: nat, c: Option<nat>, x: nat, q: nat)
    requires Sourced(a, y, m, c) && q in Preds(y, x) && q !in Preds(a, x)
    ensures q >= m || c == Some(q)
  {
    var k :| 0 <= k < |Preds(y, x)| && Preds(y, x)[k] == q;
    assert Preds(a, x) <= Preds(y, x);
    assert forall j :: 0 <= j < |Preds(a, x)| ==> Preds(y, x)[j] in Preds(a, x);
  }
}
