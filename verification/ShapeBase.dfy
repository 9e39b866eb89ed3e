/** The shape of a graph under construction (src/core/cfg.cpp): what holds of every block at every
    moment, what a finished block satisfies, and how little later steps change. */
module ShapeBase {
  import opened Commons
  import opened Source
  import opened Lowering

  function Preds(v: Visitor, i: nat): seq<nat> {
    if i < |v.heap| then v.heap[i].predecessors else []
  }

  function Succs(v: Visitor, i: nat): seq<nat> {
    if i < |v.heap| then v.heap[i].successors else []
  }

  predicate Placed(v: Visitor, b: nat) {
    b < |v.heap| && v.heap[b].idx >= 0
  }

  predicate Waiting(v: Visitor, b: nat) {
    b < |v.heap| && v.heap[b].idx == -1
  }

  /** Blocks are listed by their index, and only unplaced ones have none. */
  ghost predicate Indexed(v: Visitor) {
    && (forall b: nat {:trigger v.heap[b]} :: b < |v.heap| ==>
          v.heap[b].idx == -1 || (0 <= v.heap[b].idx < |v.blocks| && v.blocks[v.heap[b].idx] == b))
    && (forall k: nat {:trigger v.blocks[k]} :: k < |v.blocks| ==> v.blocks[k] < |v.heap| && v.heap[v.blocks[k]].idx == k)
  }

  /** Edges are recorded on both sides, equally often. */
  ghost predicate Dual(v: Visitor) {
    forall u: nat, t: nat {:trigger Succs(v, u), Preds(v, t)} :: multiset(Succs(v, u))[t] == multiset(Preds(v, t))[u]
  }

  /** Edges leave placed blocks only, and a placed block's first predecessor is before it. */
  ghost predicate Ordered(v: Visitor) {
    && (forall t: nat, u: nat {:trigger u in Preds(v, t)} :: u in Preds(v, t) ==> Placed(v, u))
    && (forall t: nat {:trigger Preds(v, t)} :: Placed(v, t) && Preds(v, t) != [] ==>
          Placed(v, Preds(v, t)[0]) && v.heap[Preds(v, t)[0]].idx < v.heap[t].idx)
  }

  ghost predicate Sound(v: Visitor) {
    !v.failed && Indexed(v) && Dual(v) && Ordered(v)
  }

  // ---- bodies -----------------------------------------------------------------------------------

  predicate IsEnd(n: Node) {
    n.Branch? || n.Jump? || n.Ret?
  }

  predicate NoEnd(body: seq<Node>) {
    forall k {:trigger body[k]} :: 0 <= k < |body| ==> !IsEnd(body[k])
  }

  /** One terminator, at the end, and its targets are exactly the successors. */
  predicate Terminated(b: Block) {
    && b.body != [] && NoEnd(b.body[..|b.body| - 1])
    && match b.body[|b.body| - 1]
       case Jump(target) => b.successors == [target]
       case Branch(_, iftrue, iffalse) => b.successors == [iftrue, iffalse]
       case Ret(_) => b.successors == []
       case _ => false
  }

  predicate OpenBody(b: Block) {
    NoEnd(b.body) && b.successors == []
  }

  predicate Blank(b: Block) {
    b == Block([], [], [], -1)
  }

  // ---- edges ------------------------------------------------------------------------------------

  /** A set of blocks from lo on that is entered through t only. */
  ghost predicate Region(v: Visitor, lo: nat, t: nat, r: set<nat>) {
    && t in r
    && (forall x {:trigger x in r} :: x in r ==> lo <= x < |v.heap|)
    && (forall x, p {:trigger p in Preds(v, x)} :: x in r && x != t && p in Preds(v, x) ==> p in r)
  }

  /** The edge from u to t goes forward, or t is the only entrance of a region around u. */
  ghost predicate Headed(v: Visitor, lo: nat, u: nat, t: nat) {
    u < |v.heap| && t < |v.heap| && (v.heap[u].idx < v.heap[t].idx || exists r :: Region(v, lo, t, r) && u in r)
  }

  ghost predicate EntryOk(v: Visitor, lo: nat, t: nat) {
    && Placed(v, t) && Preds(v, t) != []
    && forall u {:trigger Headed(v, lo, u, t)} :: u in Preds(v, t) ==> Headed(v, lo, u, t)
  }

  /** A block that branches is the only predecessor of its targets. */
  ghost predicate TailOk(v: Visitor, lo: nat, b: nat) {
    && b < |v.heap| && Terminated(v.heap[b])
    && (|Succs(v, b)| >= 2 ==> forall t {:trigger t in Succs(v, b)} :: t in Succs(v, b) ==> lo <= t && Preds(v, t) == [b])
  }

  /** A block that nothing more is added to: finished, or never used. */
  ghost predicate Done(v: Visitor, lo: nat, b: nat) {
    b < |v.heap| && (Blank(v.heap[b]) || (EntryOk(v, lo, b) && TailOk(v, lo, b)))
  }

  ghost predicate Settled(v: Visitor, lo: nat, hi: nat, cur: Option<nat>) {
    forall i: nat {:trigger Done(v, lo, i)} :: lo <= i < hi && cur != Some(i) ==> Done(v, lo, i)
  }

  // ---- change -----------------------------------------------------------------------------------

  /** Only blocks in d got predecessors, in o statements and successors, in p an index. */
  ghost predicate Ext(v: Visitor, w: Visitor, d: set<nat>, o: set<nat>, p: set<nat>) {
    && |v.heap| <= |w.heap|
    && (forall i: nat {:trigger v.heap[i]} {:trigger w.heap[i]} :: i < |v.heap| ==>
          && (i !in d ==> w.heap[i].predecessors == v.heap[i].predecessors)
          && (i !in o ==> w.heap[i].body == v.heap[i].body && w.heap[i].successors == v.heap[i].successors)
          && (i !in p ==> w.heap[i].idx == v.heap[i].idx))
  }

  /** Every predecessor a block got is the block c, or from lo on. */
  ghost predicate Sourced(v: Visitor, w: Visitor, lo: nat, c: Option<nat>) {
    forall i: nat {:trigger Preds(w, i)} :: Preds(v, i) <= Preds(w, i) &&
      forall k :: |Preds(v, i)| <= k < |Preds(w, i)| ==> Preds(w, i)[k] >= lo || c == Some(Preds(w, i)[k])
  }

  lemma ExtTrans(v: Visitor, w: Visitor, x: Visitor, d: set<nat>, o: set<nat>, p: set<nat>, d': set<nat>, o': set<nat>, p': set<nat>)
    requires Ext(v, w, d, o, p) && Ext(w, x, d', o', p')
    ensures Ext(v, x, d + d', o + o', p + p')
  {}

  /** What happened to blocks that were not there yet does not count. */
  lemma ExtOnly(v: Visitor, w: Visitor, d: set<nat>, o: set<nat>, p: set<nat>, d': set<nat>, o': set<nat>, p': set<nat>)
    requires Ext(v, w, d, o, p)
    requires forall i :: i in d && i < |v.heap| ==> i in d'
    requires forall i :: i in o && i < |v.heap| ==> i in o'
    requires forall i :: i in p && i < |v.heap| ==> i in p'
    ensures Ext(v, w, d', o', p')
  {}

  lemma SourcedTrans(v: Visitor, w: Visitor, x: Visitor, lo: nat, c: Option<nat>, lo': nat, c': Option<nat>)
    requires Sourced(v, w, lo, c) && Sourced(w, x, lo', c') && lo <= lo'
    requires c'.Some? ==> c' == c || c'.value >= lo
    ensures Sourced(v, x, lo, c)
  {
    forall i: nat
      ensures Preds(v, i) <= Preds(x, i)
      ensures forall k :: |Preds(v, i)| <= k < |Preds(x, i)| ==> Preds(x, i)[k] >= lo || c == Some(Preds(x, i)[k])
    {
      assert Preds(v, i) <= Preds(w, i) && Preds(w, i) <= Preds(x, i);
      forall k | |Preds(v, i)| <= k < |Preds(x, i)| ensures Preds(x, i)[k] >= lo || c == Some(Preds(x, i)[k]) {
        if k < |Preds(w, i)| { assert Preds(w, i)[k] == Preds(x, i)[k]; }
      }
    }
  }

  lemma ExtRefl(v: Visitor, lo: nat, c: Option<nat>)
    ensures Ext(v, v, {}, {}, {}) && Sourced(v, v, lo, c)
  {}

  // ---- a finished block stays finished --------------------------------------------------------

  /** Changes to other blocks leave a region alone. */
  lemma RegionStays(v: Visitor, w: Visitor, d: set<nat>, o: set<nat>, p: set<nat>, lo: nat, t: nat, r: set<nat>)
    requires Ext(v, w, d, o, p) && Region(v, lo, t, r) && forall x :: x in r && x in d ==> x == t
    ensures Region(w, lo, t, r)
  {
    forall x, q | x in r && x != t && q in Preds(w, x) ensures q in r {
      assert v.heap[x] == v.heap[x];
      assert q in Preds(v, x);
    }
  }

  lemma HeadedStays(v: Visitor, w: Visitor, d: set<nat>, o: set<nat>, p: set<nat>, lo: nat, lo': nat, u: nat, t: nat)
    requires Ext(v, w, d, o, p) && Headed(v, lo, u, t) && lo' <= lo
    requires (forall x :: x in d ==> x < lo || x == t || x >= |v.heap|) && u !in p && t !in p
    ensures Headed(w, lo', u, t)
  {
    assert v.heap[u] == v.heap[u] && v.heap[t] == v.heap[t];
    if v.heap[u].idx >= v.heap[t].idx {
      var r :| Region(v, lo, t, r) && u in r;
      RegionStays(v, w, d, o, p, lo, t, r);
      assert Region(w, lo', t, r);
    }
  }

  lemma EntryStays(v: Visitor, w: Visitor, d: set<nat>, o: set<nat>, p: set<nat>, lo: nat, lo': nat, t: nat)
    requires Ext(v, w, d, o, p) && EntryOk(v, lo, t) && Ordered(v) && lo' <= lo && t !in d
    requires (forall x :: x in d ==> x < lo || x >= |v.heap|) && forall x :: x in p ==> x >= |v.heap| || v.heap[x].idx == -1
    ensures EntryOk(w, lo', t)
  {
    assert v.heap[t] == v.heap[t];
    forall u | u in Preds(w, t) ensures Headed(w, lo', u, t) {
      assert u in Preds(v, t);
      assert Placed(v, u) && Headed(v, lo, u, t);
      HeadedStays(v, w, d, o, p, lo, lo', u, t);
    }
  }

  lemma TailStays(v: Visitor, w: Visitor, d: set<nat>, o: set<nat>, p: set<nat>, lo: nat, lo': nat, b: nat)
    requires Ext(v, w, d, o, p) && TailOk(v, lo, b) && lo' <= lo && b !in o
    requires forall x :: x in d ==> x < lo || x >= |v.heap|
    ensures TailOk(w, lo', b)
  {
    assert v.heap[b] == v.heap[b];
    if |v.heap[b].successors| >= 2 {
      forall t | t in Succs(w, b) ensures lo' <= t && Preds(w, t) == [b] {
        assert t in Succs(v, b) && Preds(v, t) == [b];
        assert v.heap[t] == v.heap[t];
      }
    }
  }

  /** A block that was done before later changes is done after them. */
  lemma DoneStays(v: Visitor, w: Visitor, d: set<nat>, o: set<nat>, p: set<nat>, lo: nat, lo': nat, b: nat)
    requires Ext(v, w, d, o, p) && Done(v, lo, b) && Ordered(v) && lo' <= lo && b !in d && b !in o && b !in p
    requires (forall x :: x in d ==> x < lo || x >= |v.heap|) && forall x :: x in p ==> x >= |v.heap| || v.heap[x].idx == -1
    ensures Done(w, lo', b)
  {
    hide Terminated, Headed, Ordered;
    assert v.heap[b] == v.heap[b];
    if !Blank(v.heap[b]) {
      EntryStays(v, w, d, o, p, lo, lo', b);
      TailStays(v, w, d, o, p, lo, lo', b);
    }
  }
}
