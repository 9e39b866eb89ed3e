/** What the small steps of src/core/cfg.cpp do to the shape of the graph: each keeps it sound and
    changes no more than it names. */
module ShapeSteps {
  import opened Commons
  import opened Source
  import opened Lowering
  import opened ShapeBase

  /** From v to w, blocks changed only as the sets say, and edges came from c or from lo on. */
  ghost predicate Grew(v: Visitor, w: Visitor, lo: nat, c: Option<nat>, d: set<nat>, o: set<nat>, p: set<nat>) {
    Sound(w) && Ext(v, w, d, o, p) && Sourced(v, w, lo, c)
  }

  predicate SameContext(v: Visitor, w: Visitor) {
    w.loops == v.loops && w.returnDests == v.returnDests && w.inFunction == v.inFunction
  }

  /** The same scopes and the same current block. */
  predicate Here(v: Visitor, w: Visitor) {
    SameContext(v, w) && w.curblock == v.curblock
  }

  lemma GrewJoin(v: Visitor, w: Visitor, x: Visitor, lo: nat, c: Option<nat>,
                 d: set<nat>, o: set<nat>, p: set<nat>, d': set<nat>, o': set<nat>, p': set<nat>,
                 d'': set<nat>, o'': set<nat>, p'': set<nat>)
    requires Grew(v, w, lo, c, d, o, p) && Grew(w, x, lo, c, d', o', p')
    requires forall i :: (i in d || i in d') && i < |v.heap| ==> i in d''
    requires forall i :: (i in o || i in o') && i < |v.heap| ==> i in o''
    requires forall i :: (i in p || i in p') && i < |v.heap| ==> i in p''
    ensures Grew(v, x, lo, c, d'', o'', p'')
  {
    hide Sound, Ext, Sourced;
    ExtTrans(v, w, x, d, o, p, d', o', p');
    ExtOnly(v, x, d + d', o + o', p + p', d'', o'', p'');
    SourcedTrans(v, w, x, lo, c, lo, c);
  }

  lemma GrewOnly(v: Visitor, w: Visitor, lo: nat, c: Option<nat>,
                 d: set<nat>, o: set<nat>, p: set<nat>, d': set<nat>, o': set<nat>, p': set<nat>)
    requires Grew(v, w, lo, c, d, o, p)
    requires forall i :: i in d && i < |v.heap| ==> i in d'
    requires forall i :: i in o && i < |v.heap| ==> i in o'
    requires forall i :: i in p && i < |v.heap| ==> i in p'
    ensures Grew(v, w, lo, c, d', o', p')
  {
    hide Sound, Ext, Sourced;
    ExtOnly(v, w, d, o, p, d', o', p');
  }

  lemma GrewWiden(v: Visitor, w: Visitor, lo: nat, c: Option<nat>, lo': nat, c': Option<nat>, d: set<nat>, o: set<nat>, p: set<nat>)
    requires Grew(v, w, lo, c, d, o, p) && lo' <= lo && (c.Some? ==> c == c' || c.value >= lo')
    ensures Grew(v, w, lo', c', d, o, p)
  {
    hide Sound, Ext;
    ExtRefl(v, lo', c');
    SourcedTrans(v, v, w, lo', c', lo, c);
  }

  lemma AddSteps(v: Visitor, lo: nat, c: Option<nat>)
    requires Sound(v)
    ensures var w := AddBlock(v); Grew(v, w, lo, c, {}, {}, {}) && Here(v, w) && w.heap == v.heap + [Block([], [], [], |v.blocks|)]
  {
    var w := AddBlock(v);
    assert forall i: nat :: Preds(w, i) == Preds(v, i) && Succs(w, i) == Succs(v, i);
  }

  lemma DeferSteps(v: Visitor, lo: nat, c: Option<nat>)
    requires Sound(v)
    ensures var w := AddDeferredBlock(v); Grew(v, w, lo, c, {}, {}, {}) && Here(v, w) && w.heap == v.heap + [Block([], [], [], -1)]
  {
    var w := AddDeferredBlock(v);
    assert forall i: nat :: Preds(w, i) == Preds(v, i) && Succs(w, i) == Succs(v, i);
  }

  /** Edges that did not change stay in order when one block gets the last index. */
  lemma OrderPlaced(v: Visitor, w: Visitor, b: nat)
    requires Indexed(v) && Ordered(v) && Waiting(v, b) && |w.heap| == |v.heap|
    requires forall i: nat {:trigger w.heap[i]} :: i < |v.heap| ==> w.heap[i] == if i == b then v.heap[b].(idx := |v.blocks|) else v.heap[i]
    ensures Ordered(w) && forall u :: u in Preds(w, b) ==> Placed(w, u) && w.heap[u].idx < w.heap[b].idx
  {
    assert forall i: nat :: Preds(w, i) == Preds(v, i);
    forall t: nat, u: nat | u in Preds(w, t) ensures Placed(w, u) && (t == b ==> w.heap[u].idx < w.heap[b].idx) {
      assert u in Preds(v, t);
      assert w.heap[u] == v.heap[u];
    }
    forall t: nat | Placed(w, t) && Preds(w, t) != []
      ensures Placed(w, Preds(w, t)[0]) && w.heap[Preds(w, t)[0]].idx < w.heap[t].idx
    {
      var u := Preds(w, t)[0];
      assert u in Preds(w, t);
      if t != b { assert Preds(v, t) == Preds(v, t); assert w.heap[u] == v.heap[u]; }
    }
  }

  lemma PlaceSteps(v: Visitor, b: nat, lo: nat, c: Option<nat>)
    requires Sound(v) && Waiting(v, b)
    ensures var w := PlaceBlock(v, b);
      && Grew(v, w, lo, c, {}, {}, {b}) && Here(v, w) && |w.heap| == |v.heap|
      && w.heap[b] == v.heap[b].(idx := |v.blocks|)
      && (forall u :: u in Preds(w, b) ==> Placed(w, u) && w.heap[u].idx < w.heap[b].idx)
  {
    hide Ordered, Sourced;
    var w := PlaceBlock(v, b);
    SameEdges(v, w, lo, c);
    OrderPlaced(v, w, b);
  }

  lemma SameEdges(v: Visitor, w: Visitor, lo: nat, c: Option<nat>)
    requires |w.heap| == |v.heap|
    requires forall i: nat {:trigger w.heap[i]} :: i < |v.heap| ==>
      w.heap[i].predecessors == v.heap[i].predecessors && w.heap[i].successors == v.heap[i].successors
    ensures Sourced(v, w, lo, c) && (Dual(v) ==> Dual(w))
    ensures forall i: nat {:trigger Preds(w, i)} {:trigger Preds(v, i)} :: Preds(w, i) == Preds(v, i)
  {
    assert forall i: nat :: Preds(w, i) == Preds(v, i) && Succs(w, i) == Succs(v, i);
  }

  lemma PushSteps(v: Visitor, b: nat, n: Node, lo: nat, c: Option<nat>)
    requires Sound(v) && b < |v.heap|
    ensures var w := PushTo(v, b, n);
      Grew(v, w, lo, c, {}, {b}, {}) && Here(v, w) && |w.heap| == |v.heap| && w.heap[b] == v.heap[b].(body := v.heap[b].body + [n])
  {
    var w := PushTo(v, b, n);
    assert forall i: nat :: Preds(w, i) == Preds(v, i) && Succs(w, i) == Succs(v, i);
    forall i: nat | i < |v.heap| ensures w.heap[i].idx == v.heap[i].idx {}
  }

  /** When an edge may be added: it goes to a block not placed, after its source, or entered already. */
  predicate MayConnect(v: Visitor, u: nat, t: nat, allow: bool) {
    && Placed(v, u) && t < |v.heap|
    && (v.heap[t].idx == -1 || v.heap[u].idx < v.heap[t].idx || (allow && Preds(v, t) != []))
  }

  lemma ConnectSteps(v: Visitor, u: nat, t: nat, allow: bool, lo: nat, c: Option<nat>)
    requires Sound(v) && MayConnect(v, u, t, allow) && (u >= lo || c == Some(u))
    ensures var w := Connect(v, u, t, allow);
      && Grew(v, w, lo, c, {t}, {u}, {}) && Here(v, w) && |w.heap| == |v.heap|
      && Preds(w, t) == Preds(v, t) + [u] && Succs(w, u) == Succs(v, u) + [t] && w.heap[u].body == v.heap[u].body
  {
    hide Connect, Dual, Ordered, Sourced;
    var w := Connect(v, u, t, allow);
    ConnectEdges(v, u, t, allow);
    ConnectDual(v, w, u, t);
    ConnectOrder(v, w, u, t, allow);
    ConnectSource(v, w, u, t, lo, c);
    forall i: nat | i < |v.heap|
      ensures (i != t ==> w.heap[i].predecessors == v.heap[i].predecessors) && (i != u ==> w.heap[i].successors == v.heap[i].successors)
    {
      assert Preds(w, i) == w.heap[i].predecessors && Succs(w, i) == w.heap[i].successors;
    }
    assert Preds(w, t) == Preds(w, t) && Succs(w, u) == Succs(w, u);
  }

  lemma ConnectOrder(v: Visitor, w: Visitor, u: nat, t: nat, allow: bool)
    requires Sound(v) && MayConnect(v, u, t, allow) && |w.heap| == |v.heap|
    requires forall i: nat {:trigger w.heap[i]} :: i < |v.heap| ==> w.heap[i].idx == v.heap[i].idx
    requires forall i: nat {:trigger Preds(w, i)} :: Preds(w, i) == if i == t then Preds(v, t) + [u] else Preds(v, i)
    ensures Ordered(w)
  {
    hide Indexed, Dual;
    forall i: nat, x: nat | x in Preds(w, i) ensures Placed(w, x) {
      if x in Preds(v, i) { assert Placed(v, x); } else { assert x == u && i == t; }
    }
    forall i: nat | Placed(w, i) && Preds(w, i) != []
      ensures Placed(w, Preds(w, i)[0]) && w.heap[Preds(w, i)[0]].idx < w.heap[i].idx
    {
      assert Placed(v, i);
      if Preds(v, i) != [] { assert Preds(w, i)[0] == Preds(v, i)[0]; assert Placed(v, Preds(v, i)[0]); }
    }
  }

  lemma ConnectSource(v: Visitor, w: Visitor, u: nat, t: nat, lo: nat, c: Option<nat>)
    requires forall i: nat {:trigger Preds(w, i)} :: Preds(w, i) == if i == t then Preds(v, t) + [u] else Preds(v, i)
    requires u >= lo || c == Some(u)
    ensures Sourced(v, w, lo, c)
  {}

  lemma ConnectEdges(v: Visitor, u: nat, t: nat, allow: bool)
    requires Sound(v) && MayConnect(v, u, t, allow)
    ensures var w := Connect(v, u, t, allow);
      && !w.failed && Here(v, w) && |w.heap| == |v.heap| && w.blocks == v.blocks && Indexed(w)
      && (forall i: nat {:trigger w.heap[i]} :: i < |v.heap| ==> w.heap[i].body == v.heap[i].body && w.heap[i].idx == v.heap[i].idx)
      && (forall i: nat {:trigger Preds(w, i)} :: Preds(w, i) == if i == t then Preds(v, t) + [u] else Preds(v, i))
      && (forall i: nat {:trigger Succs(w, i)} :: Succs(w, i) == if i == u then Succs(v, u) + [t] else Succs(v, i))
  {}

  lemma ConnectDual(v: Visitor, w: Visitor, u: nat, t: nat)
    requires Dual(v)
    requires forall i: nat {:trigger Preds(w, i)} :: Preds(w, i) == if i == t then Preds(v, t) + [u] else Preds(v, i)
    requires forall i: nat {:trigger Succs(w, i)} :: Succs(w, i) == if i == u then Succs(v, u) + [t] else Succs(v, i)
    ensures Dual(w)
  {
    forall a: nat, b: nat ensures multiset(Succs(w, a))[b] == multiset(Preds(w, b))[a] {
      assert multiset(Succs(v, a))[b] == multiset(Preds(v, b))[a];
    }
  }

  // ---- steps of the current block -----------------------------------------------------------------

  /** An ordinary node keeps the current block open; without one it is dropped. */
  lemma PushOpen(v: Visitor, n: Node, lo: nat, c: Option<nat>)
    requires Sound(v) && !IsEnd(n) && (v.curblock.Some? ==> v.curblock.value < |v.heap| && OpenBody(v.heap[v.curblock.value]))
    ensures var w := PushBack(v, n);
      && Grew(v, w, lo, c, {}, Cur(v), {}) && Here(v, w) && |w.heap| == |v.heap|
      && (v.curblock.Some? ==> OpenBody(w.heap[v.curblock.value]))
  {
    hide Sound, PushTo, Ext, Sourced;
    if v.curblock.Some? { PushSteps(v, v.curblock.value, n, lo, c); } else { ExtRefl(v, lo, c); }
  }

  function Cur(v: Visitor): set<nat> {
    if v.curblock.Some? then {v.curblock.value} else {}
  }

  predicate AtOpen(v: Visitor) {
    v.curblock.Some? && Placed(v, v.curblock.value) && OpenBody(v.heap[v.curblock.value])
  }

  /** A jump finishes the current block. */
  lemma JumpSteps(v: Visitor, t: nat, allow: bool, lo: nat, c: Option<nat>)
    requires Sound(v) && AtOpen(v) && MayConnect(v, v.curblock.value, t, allow) && (v.curblock.value >= lo || c == v.curblock)
    ensures var (w, u) := (JumpTo(v, t, allow), v.curblock.value);
      && Grew(v, w, lo, c, {t}, {u}, {}) && Here(v, w) && |w.heap| == |v.heap|
      && Preds(w, t) == Preds(v, t) + [u] && Terminated(w.heap[u]) && Succs(w, u) == [t]
  {
    hide Sound, Connect, PushTo, Ext, Sourced;
    var u := v.curblock.value;
    var x := PushTo(v, u, Jump(t));
    PushSteps(v, u, Jump(t), lo, c);
    PushedMay(v, x, u, t, allow);
    ConnectSteps(x, u, t, allow, lo, c);
    GrewJoin(v, x, JumpTo(v, t, allow), lo, c, {}, {u}, {}, {t}, {u}, {}, {t}, {u}, {});
    JumpEnds(v, x, JumpTo(v, t, allow), u, t);
  }

  lemma JumpEnds(v: Visitor, x: Visitor, w: Visitor, u: nat, t: nat)
    requires u < |v.heap| == |x.heap| == |w.heap| && OpenBody(v.heap[u])
    requires x.heap[u] == v.heap[u].(body := v.heap[u].body + [Jump(t)])
    requires Succs(w, u) == Succs(x, u) + [t] && w.heap[u].body == x.heap[u].body
    ensures Terminated(w.heap[u]) && Succs(w, u) == [t]
  {
    var b := w.heap[u].body;
    assert b[..|b| - 1] == v.heap[u].body;
  }

  /** Statements pushed to u do not matter for its edges. */
  lemma PushedMay(v: Visitor, x: Visitor, u: nat, t: nat, allow: bool)
    requires MayConnect(v, u, t, allow) && Ext(v, x, {}, {u}, {}) && |x.heap| == |v.heap|
    ensures MayConnect(x, u, t, allow) && Preds(x, t) == Preds(v, t)
  {
    assert v.heap[u] == v.heap[u] && v.heap[t] == v.heap[t];
  }

  /** A new block after u, entered from u only. */
  lemma EnterSteps(v: Visitor, u: nat, lo: nat, c: Option<nat>)
    requires Sound(v) && Placed(v, u) && (u >= lo || c == Some(u))
    ensures var (w, n) := (EnterNew(v, u), |v.heap|);
      && Grew(v, w, lo, c, {}, {u}, {}) && SameContext(v, w) && w.curblock == Some(n) && |w.heap| == n + 1
      && AtOpen(w) && Preds(w, n) == [u] && Succs(w, u) == Succs(v, u) + [n] && w.heap[u].body == v.heap[u].body
      && w.heap[u].idx < w.heap[n].idx
  {
    hide Ext, Sourced, Dual, Ordered, Connect;
    var n, x := |v.heap|, AddBlock(v);
    AddSteps(v, lo, c);
    assert v.heap[u].idx < |v.blocks|;
    ConnectSteps(x, u, n, false, lo, c);
    ConnectEdges(x, u, n, false);
    var y := Connect(x, u, n, false);
    GrewJoin(v, x, y, lo, c, {}, {}, {}, {n}, {u}, {}, {}, {u}, {});
    assert Succs(y, n) == [] && x.heap[n].body == [] && y.heap[n].idx == |v.blocks| && y.heap[u].idx == v.heap[u].idx;
    AtElsewhere(v, y, n, lo, c, {u});
  }

  /** Moving to another block changes no block. */
  lemma AtElsewhere(v: Visitor, y: Visitor, n: nat, lo: nat, c: Option<nat>, o: set<nat>)
    requires Grew(v, y, lo, c, {}, o, {})
    ensures Grew(v, At(y, n), lo, c, {}, o, {})
  {
    hide Sound, Ext, Sourced;
    SameBlocks(y, At(y, n));
    assert Sourced(y, At(y, n), lo, c);
    GrewJoin(v, y, At(y, n), lo, c, {}, o, {}, {}, {}, {}, {}, o, {});
  }

  lemma SameBlocks(v: Visitor, w: Visitor)
    requires w.heap == v.heap && w.blocks == v.blocks && w.failed == v.failed
    ensures Sound(w) == Sound(v) && Ext(v, w, {}, {}, {})
    ensures forall lo: nat, c: Option<nat> {:trigger Sourced(v, w, lo, c)} :: Sourced(v, w, lo, c)
    ensures forall i: nat {:trigger Preds(w, i)} {:trigger Preds(v, i)} :: Preds(w, i) == Preds(v, i)
    ensures forall i: nat {:trigger Succs(w, i)} {:trigger Succs(v, i)} :: Succs(w, i) == Succs(v, i)
  {
    assert forall i: nat :: Preds(w, i) == Preds(v, i) && Succs(w, i) == Succs(v, i);
  }

  /** A block that u alone leads to. */
  predicate OnlyFrom(v: Visitor, n: nat, u: nat) {
    Placed(v, u) && Placed(v, n) && Preds(v, n) == [u] && v.heap[u].idx < v.heap[n].idx
  }

  lemma ForkSteps(v: Visitor, cond: Cond, lo: nat, c: Option<nat>)
    requires Sound(v) && AtOpen(v) && (v.curblock.value >= lo || c == v.curblock)
    ensures var (w, n, b) := (Fork(v, cond), |v.heap|, v.curblock.value);
      && Grew(v, w, lo, c, {}, {b}, {}) && Here(v, w) && |w.heap| == n + 2
      && Terminated(w.heap[b]) && Succs(w, b) == [n, n + 1]
      && OnlyFrom(w, n, b) && OnlyFrom(w, n + 1, b) && OpenBody(w.heap[n]) && OpenBody(w.heap[n + 1])
  {
    hide Ext, Sourced, Dual, Ordered, Connect;
    var n, b := |v.heap|, v.curblock.value;
    var x := PushBack(v, Branch(cond, n, n + 1));
    PushSteps(v, b, Branch(cond, n, n + 1), lo, c);
    assert Succs(x, b) == [] && x.heap[b].idx == v.heap[b].idx;
    var y := AddBlock(x);
    AddSteps(x, lo, c);
    GrewJoin(v, x, y, lo, c, {}, {b}, {}, {}, {}, {}, {}, {b}, {});
    var z := AddBlock(y);
    AddSteps(y, lo, c);
    GrewJoin(v, y, z, lo, c, {}, {b}, {}, {}, {}, {}, {}, {b}, {});
    assert z.heap[b] == x.heap[b] && z.heap[n] == Block([], [], [], |v.blocks|) && z.heap[n + 1] == Block([], [], [], |v.blocks| + 1);
    assert z.heap[b].idx < |v.blocks|;
    ForkConnects(z, b, n, lo, c);
    GrewJoin(v, z, Fork(v, cond), lo, c, {}, {b}, {}, {n, n + 1}, {b}, {}, {}, {b}, {});
    var code := z.heap[b].body;
    assert code[..|code| - 1] == v.heap[b].body;
  }

  lemma ForkConnects(z: Visitor, b: nat, n: nat, lo: nat, c: Option<nat>)
    requires Sound(z) && Placed(z, b) && (b >= lo || c == Some(b)) && |z.heap| == n + 2 && b < n && Succs(z, b) == []
    requires z.heap[b].idx < z.heap[n].idx && z.heap[b].idx < z.heap[n + 1].idx
    requires z.heap[n].body == z.heap[n + 1].body == [] && Preds(z, n) == Preds(z, n + 1) == Succs(z, n) == Succs(z, n + 1) == []
    ensures var w := Connect(Connect(z, b, n, false), b, n + 1, false);
      && Grew(z, w, lo, c, {n, n + 1}, {b}, {}) && Here(z, w) && |w.heap| == |z.heap|
      && Succs(w, b) == [n, n + 1] && w.heap[b].body == z.heap[b].body
      && OnlyFrom(w, n, b) && OnlyFrom(w, n + 1, b) && OpenBody(w.heap[n]) && OpenBody(w.heap[n + 1])
  {
    hide Ext, Sourced, Dual, Ordered, Indexed, Connect;
    var y := Connect(z, b, n, false);
    ConnectSteps(z, b, n, false, lo, c);
    ConnectEdges(z, b, n, false);
    assert y.heap[b].idx == z.heap[b].idx && y.heap[n].idx == z.heap[n].idx && y.heap[n + 1].idx == z.heap[n + 1].idx;
    ConnectSteps(y, b, n + 1, false, lo, c);
    ConnectEdges(y, b, n + 1, false);
    var w := Connect(y, b, n + 1, false);
    GrewJoin(z, y, w, lo, c, {n}, {b}, {}, {n + 1}, {b}, {}, {n, n + 1}, {b}, {});
    assert Succs(w, n) == [] && Succs(w, n + 1) == [] && Preds(w, n) == [b] && Preds(y, n + 1) == [];
    assert w.heap[n].body == y.heap[n].body && w.heap[n + 1].body == y.heap[n + 1].body;
    assert w.heap[b].idx == y.heap[b].idx && w.heap[n].idx == y.heap[n].idx && w.heap[n + 1].idx == y.heap[n + 1].idx;
  }
}
