/** Which blocks a version of a function compiles and in which order: computeBlockSetClosure and
    computeBlockTraversalOrder of src/codegen/irgen.cpp, used for OSR entries and deopts. */
module BlockSets {
  import opened Commons
  import opened Graph
  import opened Results

  // ---- reachability by at least one edge --------------------------------------------------------

  /** A walk of one or more edges from a block of `from` to b. */
  ghost predicate ReachedBy(g: Graph, from: set<nat>, p: seq<nat>, b: nat) {
    g.Walk(p) && |p| >= 2 && p[0] in from && p[|p| - 1] == b
  }

  ghost predicate Reached(g: Graph, from: set<nat>, b: nat) {
    exists p :: ReachedBy(g, from, p, b)
  }

  lemma ReachedStep(g: Graph, from: set<nat>, u: nat, v: nat)
    requires g.Valid() && g.Edge(u, v) && (u in from || Reached(g, from, u))
    ensures Reached(g, from, v)
  {
    if u in from {
      assert ReachedBy(g, from, [u, v], v);
    } else {
      var p :| ReachedBy(g, from, p, u);
      var q := p + [v];
      forall i | 0 <= i < |q| - 1 ensures g.Edge(q[i], q[i + 1]) {
        if i < |p| - 1 { assert q[i] == p[i] && q[i + 1] == p[i + 1]; }
      }
      assert ReachedBy(g, from, q, v);
    }
  }

  /** A set that holds the seeds' successors and is closed under edges holds all that is reached. */
  lemma {:induction false} ClosedHolds(g: Graph, from: set<nat>, s: set<nat>, p: seq<nat>, k: nat)
    requires g.Walk(p) && |p| >= 2 && p[0] in from && 1 <= k < |p|
    requires forall u, v :: (u in from || u in s) && g.Edge(u, v) ==> v in s
    ensures p[k] in s
  {
    if k > 1 { ClosedHolds(g, from, s, p, k - 1); }
    assert g.Edge(p[k - 1], p[k]);
  }

  lemma ClosedHoldsReached(g: Graph, from: set<nat>, s: set<nat>)
    requires forall u, v :: (u in from || u in s) && g.Edge(u, v) ==> v in s
    ensures forall b :: Reached(g, from, b) ==> b in s
  {
    forall b | Reached(g, from, b) ensures b in s {
      var p :| ReachedBy(g, from, p, b);
      ClosedHolds(g, from, s, p, |p| - 1);
    }
  }

  // ---- closure ----------------------------------------------------------------------------------

  function ToSeq(s: set<nat>): (r: seq<nat>)
    ensures forall b :: b in r <==> b in s
    ensures |r| == |s|
  {
    if s == {} then []
    else
      var b := Least(s);
      assert s == (s - {b}) + {b};
      ToSeq(s - {b}) + [b]
  }

  /** A deterministic pick, so that a set can be listed. */
  function Least(s: set<nat>): (b: nat)
    requires s != {}
    ensures IsLeast(s, b)
  {
    LeastExists(s);
    var b :| IsLeast(s, b);
    b
  }

  predicate IsLeast(s: set<nat>, b: nat) {
    b in s && forall c {:trigger c in s} :: c in s ==> b <= c
  }

  lemma {:induction false} LeastExists(s: set<nat>)
    requires s != {}
    ensures exists b :: IsLeast(s, b)
    decreases |s|
  {
    var x :| x in s;
    var t := s - {x};
    if t == {} {
      assert s == {x} && IsLeast(s, x);
    } else {
      LeastExists(t);
      var y :| IsLeast(t, y);
      assert s == t + {x};
      var m := if x <= y then x else y;
      assert IsLeast(s, m);
    }
  }

  /** What the closure loop keeps: everything reached so far was, and the edges out of expanded
      blocks have been followed. */
  ghost predicate Closing(g: Graph, full0: set<nat>, partial0: set<nat>, full: set<nat>, partial: set<nat>, q: seq<nat>, expanded: set<nat>) {
    && (forall b {:trigger b in full} :: b in full ==> b in full0 || Reached(g, full0 + partial0, b))
    && (forall b {:trigger b in partial} :: b in partial ==> b in partial0)
    && (forall b {:trigger b in partial0} :: b in partial0 && b !in partial ==> b in full && Reached(g, full0 + partial0, b))
    && (forall b {:trigger b in full0} :: b in full0 ==> b in full)
    && (forall b {:trigger b in full} :: b in full ==> b in expanded || b in q)
    && (forall b {:trigger b in partial0} :: b in partial0 ==> b in expanded || b in q)
    && (forall b {:trigger b in q} :: b in q ==> b in full || b in partial0)
    && expanded <= full + partial0
    && (forall u, v {:trigger g.Edge(u, v)} :: u in expanded && g.Edge(u, v) ==> v in full && v !in partial)
  }

  /** computeBlockSetClosure. */
  method ComputeBlockSetClosure(g: Graph, full0: set<nat>, partial0: set<nat>) returns (full: set<nat>, partial: set<nat>)
    requires g.Valid() && full0 <= Blocks(g) && partial0 <= Blocks(g)
    ensures forall b :: b in full <==> b in full0 || Reached(g, full0 + partial0, b)
    ensures forall b :: b in partial <==> b in partial0 && !Reached(g, full0 + partial0, b)
  {
    hide Reached, Closing;
    full, partial := full0, partial0;
    var q := ToSeq(full) + ToSeq(partial);
    var expanded: set<nat> := {};
    ClosingStart(g, full0, partial0, q);
    while q != []
      invariant Closing(g, full0, partial0, full, partial, q, expanded)
      invariant expanded <= Blocks(g) && full <= Blocks(g)
      decreases |Blocks(g) - expanded|, |q|
    {
      ghost var q0 := q;
      var b := q[|q| - 1];
      q := q[..|q| - 1];
      if b in expanded {
        ClosingSkip(g, full0, partial0, full, partial, q0, expanded);
        continue;
      }
      InBlocks(g, full0, partial0, full, partial, q0, expanded);
      ghost var f, p := full, partial;
      LessLeft(Blocks(g), expanded, expanded + {b});
      expanded := expanded + {b};
      full, partial, q := FollowEdges(g.succs[b], full, partial, q);
      ClosingStep(g, full0, partial0, f, p, q0, expanded - {b}, b, full, partial, q);
      assert expanded - {b} + {b} == expanded;
      SuccsInBlocks(g, b);
    }
    ClosingEnd(g, full0, partial0, full, partial, expanded);
  }

  /** The loop over one block's successors. */
  method FollowEdges(succs: seq<nat>, full0: set<nat>, partial0: set<nat>, q0: seq<nat>) returns (full: set<nat>, partial: set<nat>, q: seq<nat>)
    ensures full == full0 + Elems(succs) && partial == partial0 - Elems(succs) && q == q0 + succs
  {
    full, partial, q := full0, partial0, q0;
    for i := 0 to |succs|
      invariant full == full0 + Elems(succs[..i]) && partial == partial0 - Elems(succs[..i]) && q == q0 + succs[..i]
    {
      var b2 := succs[i];
      OneMore(succs, i);
      partial := partial - {b2};
      full := full + {b2};
      q := q + [b2];
    }
    assert succs[..|succs|] == succs;
  }

  function Elems(s: seq<nat>): set<nat> {
    set x | x in s
  }

  lemma OneMore(s: seq<nat>, i: nat)
    requires i < |s|
    ensures Elems(s[..i + 1]) == Elems(s[..i]) + {s[i]} && s[..i + 1] == s[..i] + [s[i]]
  {
    assert s[..i + 1] == s[..i] + [s[i]];
  }

  lemma SuccsInBlocks(g: Graph, b: nat)
    requires g.Valid() && b < |g.succs|
    ensures Elems(g.succs[b]) <= Blocks(g)
  {
    forall v | v in g.succs[b] ensures v < |g.succs| {
      var i :| 0 <= i < |g.succs[b]| && g.succs[b][i] == v;
    }
  }

  lemma ClosingStart(g: Graph, full0: set<nat>, partial0: set<nat>, q: seq<nat>)
    requires forall b :: b in q <==> b in full0 || b in partial0
    ensures Closing(g, full0, partial0, full0, partial0, q, {})
  {}

  lemma SplitLast(q: seq<nat>)
    requires q != []
    ensures forall b :: b in q <==> b in q[..|q| - 1] || b == q[|q| - 1]
  {
    assert q == q[..|q| - 1] + [q[|q| - 1]];
  }

  lemma ClosingSkip(g: Graph, full0: set<nat>, partial0: set<nat>, full: set<nat>, partial: set<nat>, q: seq<nat>, expanded: set<nat>)
    requires Closing(g, full0, partial0, full, partial, q, expanded) && q != [] && q[|q| - 1] in expanded
    ensures Closing(g, full0, partial0, full, partial, q[..|q| - 1], expanded)
  {
    hide Reached;
    SplitLast(q);
    var rest, last := q[..|q| - 1], q[|q| - 1];
    assert forall b :: b in q <==> b in rest || b == last;
  }

  lemma InBlocks(g: Graph, full0: set<nat>, partial0: set<nat>, full: set<nat>, partial: set<nat>, q: seq<nat>, expanded: set<nat>)
    requires Closing(g, full0, partial0, full, partial, q, expanded) && q != [] && full <= Blocks(g) && partial0 <= Blocks(g)
    ensures q[|q| - 1] < |g.succs|
  {
    hide Reached;
    var b := q[|q| - 1];
    assert b in q;
    assert b in full || b in partial0;
    assert b in Blocks(g);
  }

  lemma ClosingStep(g: Graph, full0: set<nat>, partial0: set<nat>, f: set<nat>, p: set<nat>, q0: seq<nat>, expanded: set<nat>,
                    b: nat, full: set<nat>, partial: set<nat>, q: seq<nat>)
    requires g.Valid() && Closing(g, full0, partial0, f, p, q0, expanded) && q0 != [] && b == q0[|q0| - 1] && b < |g.succs|
    requires full == f + Elems(g.succs[b]) && partial == p - Elems(g.succs[b]) && q == q0[..|q0| - 1] + g.succs[b]
    ensures Closing(g, full0, partial0, full, partial, q, expanded + {b})
  {
    hide Reached;
    SplitLast(q0);
    var rest, succs := q0[..|q0| - 1], g.succs[b];
    assert forall x :: x in q0 <==> x in rest || x == b;
    assert forall x :: x in q <==> x in rest || x in succs;
    assert b in q0;
    assert b in full0 + partial0 || Reached(g, full0 + partial0, b);
    forall v | v in g.succs[b] ensures Reached(g, full0 + partial0, v) {
      assert g.Edge(b, v);
      ReachedStep(g, full0 + partial0, b, v);
    }
  }

  lemma ClosingEnd(g: Graph, full0: set<nat>, partial0: set<nat>, full: set<nat>, partial: set<nat>, expanded: set<nat>)
    requires Closing(g, full0, partial0, full, partial, [], expanded)
    ensures forall b :: b in full <==> b in full0 || Reached(g, full0 + partial0, b)
    ensures forall b :: b in partial <==> b in partial0 && !Reached(g, full0 + partial0, b)
  {
    var from := full0 + partial0;
    var s := set b | b in full && b !in partial;
    forall u, v | (u in from || u in s) && g.Edge(u, v) ensures v in s {
      assert u in expanded;
    }
    ClosedHoldsReached(g, from, s);
    hide Reached;
  }

  // ---- what the closure gives the traversal order -------------------------------------------------

  /** Every block to be compiled in full is a seed of the order or reached from one. */
  ghost predicate FoundFrom(g: Graph, full: set<nat>, seeds: set<nat>) {
    forall b: nat {:trigger b in full} :: b in full ==> b in seeds || Reached(g, seeds, b)
  }

  /** Two walks joined: what is reached from a reached block is reached. */
  lemma ReachedOn(g: Graph, from: set<nat>, via: set<nat>, b: nat)
    requires g.Valid() && Reached(g, via, b) && forall u :: u in via ==> u in from || Reached(g, from, u)
    ensures Reached(g, from, b)
  {
    var p :| ReachedBy(g, via, p, b);
    hide Reached;
    for k := 1 to |p|
      invariant k > 1 ==> Reached(g, from, p[k - 1])
    {
      assert g.Edge(p[k - 1], p[k]);
      ReachedStep(g, from, p[k - 1], p[k]);
    }
  }

  /** Where an order may begin: the partial blocks and the start. */
  ghost predicate Begins(partial: set<nat>, start: Start, b: nat) {
    b in partial || start == At(b)
  }

  /** Every block of `full` may begin an order, or is on a path from the start or from a partial block. */
  ghost predicate Found(g: Graph, full: set<nat>, partial: set<nat>, start: Start) {
    forall b: nat {:trigger b in full} :: b in full ==>
      Begins(partial, start, b) || Reached(g, partial, b) || (start.At? && Reached(g, {start.block}, b))
  }

  /** What is reached from several blocks is reached from one of them. */
  lemma FoundIs(g: Graph, full: set<nat>, partial: set<nat>, start: Start)
    ensures Found(g, full, partial, start) <==> FoundFrom(g, full, Seeds(partial, start))
  {
    var seeds := Seeds(partial, start);
    forall b: nat | b in full
      ensures (Begins(partial, start, b) || Reached(g, partial, b) || (start.At? && Reached(g, {start.block}, b))) <==> b in seeds || Reached(g, seeds, b)
    {
      if Reached(g, seeds, b) {
        var p :| ReachedBy(g, seeds, p, b);
        assert ReachedBy(g, if p[0] in partial then partial else {p[0]}, p, b);
      }
      if Reached(g, partial, b) {
        var p :| ReachedBy(g, partial, p, b);
        assert ReachedBy(g, seeds, p, b);
      }
      if start.At? && Reached(g, {start.block}, b) {
        var p :| ReachedBy(g, {start.block}, p, b);
        assert ReachedBy(g, seeds, p, b);
      }
    }
  }

  /** The closure's blocks are all found from the order's seeds exactly when the full blocks it was
      given and the partial ones it erased are. So the order never has to give up for an OSR entry,
      whose one full block is the start. For a deopt, which has partial seeds alone and no start
      unless one of them leads back to the entry block, it depends on the erased ones: a guard's
      block on a loop reaches itself and is one of them. */
  lemma ClosureMeetsOrder(g: Graph, full0: set<nat>, partial0: set<nat>, full: set<nat>, partial: set<nat>, start: Start)
    requires g.Valid() && forall b :: b in full <==> b in full0 || Reached(g, full0 + partial0, b)
    requires forall b :: b in partial <==> b in partial0 && !Reached(g, full0 + partial0, b)
    ensures Found(g, full, partial, start) <==> Found(g, full0 + (partial0 - partial), partial, start)
    ensures (forall b :: b in full0 ==> Begins(partial, start, b)) && partial == partial0 ==> Found(g, full, partial, start)
  {
    FoundIs(g, full, partial, start);
    FoundIs(g, full0 + (partial0 - partial), partial, start);
    hide Reached;
    var seeds := Seeds(partial, start);
    if FoundFrom(g, full0 + (partial0 - partial), seeds) {
      forall b | b in full ensures b in seeds || Reached(g, seeds, b) {
        if b !in full0 {
          forall u | u in full0 + partial0 ensures u in seeds || Reached(g, seeds, u) {
            assert u in partial || u in full0 + (partial0 - partial);
          }
          ReachedOn(g, seeds, full0 + partial0, b);
        } else {
          assert b in full0 + (partial0 - partial);
        }
      }
    }
  }

  lemma NothingReached(g: Graph, from: set<nat>)
    ensures from == {} ==> forall b :: !Reached(g, from, b)
  {}

  /** A deopt from one guard: the order finds every block exactly when the guard's block is not on
      a loop; on a loop it is erased, and the order has no seed at all. */
  lemma OneGuard(g: Graph, b: nat, full: set<nat>, partial: set<nat>)
    requires g.Valid() && forall c :: c in full <==> Reached(g, {b}, c)
    requires forall c :: c in partial <==> c == b && !Reached(g, {b}, c)
    ensures Found(g, full, partial, NoStart) <==> !Reached(g, {b}, b)
    ensures Reached(g, {b}, b) ==> forall c :: !Begins(partial, NoStart, c)
  {
    hide Reached;
    if Reached(g, {b}, b) {
      NothingReached(g, {});
      assert b in full && partial == {};
    } else {
      assert partial == {b};
    }
  }

  // ---- traversal order --------------------------------------------------------------------------

  /** A block of the order: one to start from, or one found from an earlier block, or one added for
      want of a better. */
  datatype Entry = Seed(block: nat) | After(block: nat, pred: nat) | GivenUp(block: nat)

  datatype Start = NoStart | At(block: nat)

  function Seeds(partial: set<nat>, start: Start): set<nat> {
    if start.At? then partial + {start.block} else partial
  }

  ghost predicate Distinct(order: seq<Entry>) {
    forall i, j {:trigger order[i], order[j]} :: 0 <= i < j < |order| ==> order[i].block != order[j].block
  }

  ghost predicate Holds(order: seq<Entry>, blocks: set<nat>) {
    && (forall i {:trigger order[i]} :: 0 <= i < |order| ==> order[i].block in blocks)
    && (forall b {:trigger b in blocks} :: b in blocks ==> exists i :: 0 <= i < |order| && order[i].block == b)
  }

  /** Each block comes after the predecessor recorded with it. */
  ghost predicate PredsFirst(g: Graph, order: seq<Entry>) {
    forall i {:trigger order[i]} :: 0 <= i < |order| && order[i].After? ==>
      g.Edge(order[i].pred, order[i].block) && exists j :: 0 <= j < i && order[j].block == order[i].pred
  }

  /** The order starts with the seeds by index, and has no other. */
  ghost predicate SeedsFirst(order: seq<Entry>, seeds: set<nat>) {
    && |seeds| <= |order|
    && (forall i {:trigger order[i]} :: 0 <= i < |order| ==> (order[i].Seed? <==> i < |seeds|))
    && (forall i, j {:trigger order[i], order[j]} :: 0 <= i < j < |seeds| ==> order[i].block < order[j].block)
    && (forall i {:trigger order[i]} :: 0 <= i < |seeds| ==> order[i].block in seeds)
  }

  ghost predicate Ordering(g: Graph, order: seq<Entry>, blocks: set<nat>, seeds: set<nat>) {
    Distinct(order) && Holds(order, blocks) && PredsFirst(g, order) && SeedsFirst(order, seeds) && |order| == |blocks|
  }

  /** Successors of the first idx blocks are in the order. */
  ghost predicate Expanded(g: Graph, order: seq<Entry>, idx: nat, blocks: set<nat>) {
    forall i, v {:trigger g.Edge(order[i].block, v)} :: 0 <= i < idx && i < |order| && g.Edge(order[i].block, v) ==> v in blocks
  }

  /** Listing the seeds in order of their indices. */
  method SortedSeeds(seeds: set<nat>) returns (order: seq<Entry>)
    ensures |order| == |seeds| && Holds(order, seeds) && SeedList(order)
  {
    hide Holds, SeedList, AllBelow;
    order := [];
    var rest := seeds;
    NoneHeld(rest);
    assert seeds - seeds == {};
    while rest != {}
      invariant rest <= seeds && |order| + |rest| == |seeds|
      invariant SeedList(order) && AllBelow(order, rest) && Holds(order, seeds - rest)
      decreases |rest|
    {
      var b := Least(rest);
      HoldsMore(order, Seed(b), seeds - rest);
      assert seeds - rest + {b} == seeds - (rest - {b});
      BelowMore(order, rest, b);
      order := order + [Seed(b)];
      rest := rest - {b};
    }
    assert seeds - {} == seeds;
  }

  ghost predicate SeedList(order: seq<Entry>) {
    && (forall i {:trigger order[i]} :: 0 <= i < |order| ==> order[i].Seed?)
    && (forall i, j {:trigger order[i], order[j]} :: 0 <= i < j < |order| ==> order[i].block < order[j].block)
  }

  lemma NoneHeld(rest: set<nat>)
    ensures Holds([], {}) && SeedList([]) && AllBelow([], rest)
  {}

  ghost predicate AllBelow(order: seq<Entry>, rest: set<nat>) {
    forall i, c {:trigger order[i], c in rest} :: 0 <= i < |order| && c in rest ==> order[i].block < c
  }

  lemma BelowMore(order: seq<Entry>, rest: set<nat>, b: nat)
    requires AllBelow(order, rest) && IsLeast(rest, b) && SeedList(order)
    ensures AllBelow(order + [Seed(b)], rest - {b}) && SeedList(order + [Seed(b)])
  {
    var o := order + [Seed(b)];
    forall i | 0 <= i < |order| ensures o[i] == order[i] && order[i].block < b {}
  }

  lemma HoldsMore(order: seq<Entry>, e: Entry, blocks: set<nat>)
    requires Holds(order, blocks)
    ensures Holds(order + [e], blocks + {e.block})
  {
    var o := order + [e];
    forall b | b in blocks + {e.block} ensures exists i :: 0 <= i < |o| && o[i].block == b {
      if b in blocks {
        var i :| 0 <= i < |order| && order[i].block == b;
        assert o[i].block == b;
      } else {
        assert o[|order|].block == b;
      }
    }
  }

  /** A new block at the end keeps the order. */
  lemma OrderingMore(g: Graph, order: seq<Entry>, blocks: set<nat>, seeds: set<nat>, e: Entry)
    requires Ordering(g, order, blocks, seeds) && e.block !in blocks && !e.Seed?
    requires e.After? ==> g.Edge(e.pred, e.block) && e.pred in blocks
    ensures Ordering(g, order + [e], blocks + {e.block}, seeds)
  {
    HoldsMore(order, e, blocks);
    PredsMore(g, order, blocks, e);
    DistinctMore(order, blocks, e);
    SeedsMore(order, seeds, e);
    hide Holds, PredsFirst, Distinct, SeedsFirst;
  }

  lemma PredsMore(g: Graph, order: seq<Entry>, blocks: set<nat>, e: Entry)
    requires PredsFirst(g, order) && Holds(order, blocks) && (e.After? ==> g.Edge(e.pred, e.block) && e.pred in blocks)
    ensures PredsFirst(g, order + [e])
  {
    var o := order + [e];
    forall i | 0 <= i < |o| && o[i].After? ensures g.Edge(o[i].pred, o[i].block) && exists j :: 0 <= j < i && o[j].block == o[i].pred {
      if i < |order| {
        assert o[i] == order[i];
        var j :| 0 <= j < i && order[j].block == order[i].pred;
        assert o[j].block == o[i].pred;
      } else {
        var j :| 0 <= j < |order| && order[j].block == e.pred;
        assert o[j].block == e.pred;
      }
    }
  }

  lemma DistinctMore(order: seq<Entry>, blocks: set<nat>, e: Entry)
    requires Distinct(order) && Holds(order, blocks) && e.block !in blocks
    ensures Distinct(order + [e])
  {
    var o := order + [e];
    forall i, j | 0 <= i < j < |o| ensures o[i].block != o[j].block {
      assert o[i] == order[i];
      if j < |order| { assert o[j] == order[j]; }
    }
  }

  lemma SeedsMore(order: seq<Entry>, seeds: set<nat>, e: Entry)
    requires SeedsFirst(order, seeds) && !e.Seed?
    ensures SeedsFirst(order + [e], seeds)
  {
    var o := order + [e];
    assert forall i :: 0 <= i < |order| ==> o[i] == order[i];
  }

  lemma ExpandedMore(g: Graph, order: seq<Entry>, idx: nat, blocks: set<nat>, e: Entry)
    requires Expanded(g, order, idx, blocks) && idx <= |order|
    ensures Expanded(g, order + [e], idx, blocks + {e.block})
  {
    var o := order + [e];
    forall i, v | 0 <= i < idx && g.Edge(o[i].block, v) ensures v in blocks + {e.block} {
      assert o[i] == order[i];
    }
  }

  /** The seeds alone are an ordering of themselves. */
  lemma SeedsOrdered(g: Graph, order: seq<Entry>, seeds: set<nat>)
    requires |order| == |seeds| && Holds(order, seeds) && SeedList(order)
    ensures Ordering(g, order, seeds, seeds) && Expanded(g, order, 0, seeds)
  {}

  lemma SubsetSizes(a: set<nat>, b: set<nat>)
    requires a <= b
    ensures |a| <= |b| && (|a| == |b| ==> a == b)
  {
    assert b == a + (b - a);
    assert |b| == |a| + |b - a|;
  }

  /** Once all blocks of the order are expanded, everything reachable from the seeds is in it. */
  lemma AllFound(g: Graph, order: seq<Entry>, found: set<nat>, seeds: set<nat>, all: set<nat>, full: set<nat>)
    requires Ordering(g, order, found, seeds) && Expanded(g, order, |order|, found) && seeds <= found <= all
    requires FoundFrom(g, full, seeds) && all - full <= seeds
    ensures found == all
  {
    forall u, v | (u in seeds || u in found) && g.Edge(u, v) ensures v in found {
      var i :| 0 <= i < |order| && order[i].block == u;
      assert g.Edge(order[i].block, v);
    }
    ClosedHoldsReached(g, seeds, found);
    forall b | b in all ensures b in found { if b !in full { assert b in all - full; } }
  }

  /** No block was added for want of a better. */
  ghost predicate NeverGaveUp(order: seq<Entry>) {
    forall i {:trigger order[i]} :: 0 <= i < |order| ==> !order[i].GivenUp?
  }

  /** The only edge into b is one of several out of some block, where no epilogue can be added. */
  ghost predicate OnlyBranchedTo(g: Graph, preds: seq<seq<nat>>, b: nat) {
    b < |preds| && exists u: nat :: u < |g.succs| && preds[b] == [u] && |g.succs[u]| >= 2
  }

  /** The blocks that may be added without a predecessor. */
  ghost function Enterables(g: Graph, preds: seq<seq<nat>>, full: set<nat>): set<nat> {
    set b | b in full && !OnlyBranchedTo(g, preds, b)
  }

  /** Each block added for want of a better is the lowest of `allowed` that was left. */
  ghost predicate GaveUpFor(order: seq<Entry>, allowed: set<nat>) {
    forall i {:trigger order[i]} :: 0 <= i < |order| && order[i].GivenUp? ==>
      && order[i].block in allowed
      && forall b {:trigger b in allowed} :: b in allowed ==> order[i].block <= b || exists j :: 0 <= j < i && order[j].block == b
  }

  lemma GaveUpMore(order: seq<Entry>, allowed: set<nat>, e: Entry, blocks: set<nat>)
    requires GaveUpFor(order, allowed) && Holds(order, blocks)
    requires e.GivenUp? ==> e.block in allowed && forall b {:trigger b in allowed} :: b in allowed && b !in blocks ==> e.block <= b
    ensures GaveUpFor(order + [e], allowed)
  {
    var o := order + [e];
    forall i, b | 0 <= i < |o| && o[i].GivenUp? && b in allowed
      ensures o[i].block <= b || exists j :: 0 <= j < i && o[j].block == b
    {
      if i < |order| {
        assert o[i] == order[i];
        if order[i].block > b {
          var j :| 0 <= j < i && order[j].block == b;
          assert o[j] == order[j];
        }
      } else if b in blocks {
        var j :| 0 <= j < |order| && order[j].block == b;
        assert o[j] == order[j];
      }
    }
  }

  lemma NobodyAllowed(order: seq<Entry>, allowed: set<nat>)
    ensures GaveUpFor(order, {}) ==> NeverGaveUp(order)
    ensures NeverGaveUp(order) ==> GaveUpFor(order, allowed)
  {}

  /** What an order holds is reached from its seeds and the blocks added for want of a better. */
  lemma {:induction false} OrderReached(g: Graph, order: seq<Entry>, seeds: set<nat>, allowed: set<nat>, i: nat)
    requires g.Valid() && PredsFirst(g, order) && SeedsFirst(order, seeds) && GaveUpFor(order, allowed) && i < |order|
    ensures order[i].block in seeds + allowed || Reached(g, seeds + allowed, order[i].block)
  {
    if order[i].After? {
      var j :| 0 <= j < i && order[j].block == order[i].pred;
      OrderReached(g, order, seeds, allowed, j);
      ReachedStep(g, seeds + allowed, order[i].pred, order[i].block);
    }
  }

  /** When an order of all blocks exists, all are reached that way. */
  lemma OrderedFound(g: Graph, order: seq<Entry>, full: set<nat>, all: set<nat>, seeds: set<nat>, allowed: set<nat>)
    requires g.Valid() && Ordering(g, order, all, seeds) && GaveUpFor(order, allowed) && full <= all
    ensures FoundFrom(g, full, seeds + allowed)
  {
    forall b | b in full ensures b in seeds + allowed || Reached(g, seeds + allowed, b) {
      var i :| 0 <= i < |order| && order[i].block == b;
      OrderReached(g, order, seeds, allowed, i);
    }
  }

  /** When nothing more can be added and something is left, that is not reached. */
  lemma LeftUnfound(g: Graph, order: seq<Entry>, found: set<nat>, full: set<nat>, all: set<nat>, seeds: set<nat>, allowed: set<nat>)
    requires g.Valid() && Ordering(g, order, found, seeds) && Expanded(g, order, |order|, found) && seeds + allowed <= found <= all
    requires found != all && all - full <= found
    ensures !FoundFrom(g, full, seeds + allowed)
  {
    forall u, v | (u in seeds + allowed || u in found) && g.Edge(u, v) ensures v in found {
      var i :| 0 <= i < |order| && order[i].block == u;
      assert g.Edge(order[i].block, v);
    }
    ClosedHoldsReached(g, seeds + allowed, found);
    var b :| b in all && b !in found;
    assert b in full;
  }

  lemma FoundMore(g: Graph, full: set<nat>, seeds: set<nat>, more: set<nat>)
    requires g.Valid() && FoundFrom(g, full, seeds) && seeds <= more
    ensures FoundFrom(g, full, more)
  {
    forall b | b in full && b !in more ensures Reached(g, more, b) { ReachedOn(g, more, seeds, b); }
  }

  /** Exactly the blocks an order may begin with stand in it as such, first, by index. */
  ghost predicate BeginsWith(order: seq<Entry>, partial: set<nat>, start: Start) {
    && (forall b: nat {:trigger Begins(partial, start, b)} :: Seed(b) in order <==> Begins(partial, start, b))
    && (forall i, j {:trigger order[i], order[j]} :: 0 <= i < j < |order| && order[j].Seed? ==>
          order[i].Seed? && order[i].block < order[j].block)
  }

  lemma SeedsBegin(order: seq<Entry>, g: Graph, blocks: set<nat>, partial: set<nat>, start: Start)
    requires Ordering(g, order, blocks, Seeds(partial, start)) && Seeds(partial, start) <= blocks
    ensures BeginsWith(order, partial, start)
  {
    var seeds := Seeds(partial, start);
    forall b: nat ensures Seed(b) in order <==> Begins(partial, start, b) {
      if Seed(b) in order {
        var i :| 0 <= i < |order| && order[i] == Seed(b);
        assert order[i].block in seeds;
      }
      if b in seeds { SeedListed(order, seeds, b); }
    }
  }

  /** The first |seeds| entries are distinct seeds, so they are all of them. */
  lemma SeedListed(order: seq<Entry>, seeds: set<nat>, b: nat)
    requires Distinct(order) && SeedsFirst(order, seeds) && b in seeds
    ensures Seed(b) in order
  {
    var found := set i | 0 <= i < |seeds| :: order[i].block;
    PrefixSize(order, |seeds|);
    SubsetSizes(found, seeds);
    var i :| 0 <= i < |seeds| && order[i].block == b;
    assert order[i] == Seed(b);
  }

  lemma {:induction false} PrefixSize(order: seq<Entry>, n: nat)
    requires Distinct(order) && n <= |order|
    ensures |set i | 0 <= i < n :: order[i].block| == n
  {
    var s := set i | 0 <= i < n :: order[i].block;
    if n > 0 {
      PrefixSize(order, n - 1);
      var t := set i | 0 <= i < n - 1 :: order[i].block;
      assert s == t + {order[n - 1].block} && order[n - 1].block !in t;
    } else {
      assert s == {};
    }
  }

  /** computeBlockTraversalOrder. No block is added for want of a better when all are reached from
      the seeds; and it fails exactly when some block is reached neither from a seed nor from any
      block that may be added without a predecessor. */
  method ComputeBlockTraversalOrder(g: Graph, preds: seq<seq<nat>>, full: set<nat>, partial: set<nat>, start: Start)
      returns (r: Result<seq<Entry>>)
    requires g.Valid() && full <= Blocks(g) && partial <= Blocks(g) && full !! partial && (start.At? ==> start.block in full)
    requires forall u: nat, v: nat :: u in full + partial && g.Edge(u, v) ==> v in full + partial
    requires |preds| == |g.succs| && forall b, i :: 0 <= b < |preds| && 0 <= i < |preds[b]| ==> preds[b][i] < |g.succs|
    ensures r.Done? ==> Ordering(g, r.value, full + partial, Seeds(partial, start)) && GaveUpFor(r.value, Enterables(g, preds, full))
    ensures r.Done? ==> BeginsWith(r.value, partial, start)
    ensures Found(g, full, partial, start) ==> r.Done? && NeverGaveUp(r.value)
    ensures r.Done? <==> Found(g, full, partial + Enterables(g, preds, full), start)
  {
    hide Reached, Ordering, Expanded, NeverGaveUp, GaveUpFor, SeedList, Holds, FoundFrom, Found, BeginsWith,
      Enterables;
    ghost var all, seeds, enterables := full + partial, Seeds(partial, start), Enterables(g, preds, full);
    FoundIs(g, full, partial, start);
    FoundIs(g, full, partial + enterables, start);
    assert Seeds(partial + enterables, start) == seeds + enterables;
    ghost var reachable := FoundFrom(g, full, seeds);
    ghost var allowed := if reachable then {} else enterables;
    if reachable { FoundMore(g, full, seeds, seeds + enterables); }
    assert |full + partial| == |full| + |partial|;
    var rtn := SortedSeeds(Seeds(partial, start));
    SeedsOrdered(g, rtn, seeds);
    OnlySeeds(rtn);
    NobodyAllowed(rtn, allowed);
    var inQueue := Seeds(partial, start);
    SubsetSizes(inQueue, all);
    var idx: nat := 0;
    while |rtn| < |full| + |partial|
      invariant seeds <= inQueue <= all && Ordering(g, rtn, inQueue, seeds) && |rtn| == |inQueue| <= |all|
      invariant idx <= |rtn| && Expanded(g, rtn, idx, inQueue) && GaveUpFor(rtn, allowed)
      decreases |all| - |rtn|
    {
      rtn, inQueue, idx := ExpandAll(g, rtn, inQueue, idx, full, partial, seeds, allowed);
      if |rtn| == |full| + |partial| { break; }
      if reachable { AllFound(g, rtn, inQueue, seeds, all, full); }
      assert !reachable;
      var best := PickBest(g, preds, full, inQueue);
      BestAllowed(g, preds, full, inQueue, best);
      if best.NoStart? {
        LeftUnfound(g, rtn, inQueue, full, all, seeds, enterables);
        return Aborted;
      }
      var e := GivenUp(best.block);
      OrderingMore(g, rtn, inQueue, seeds, e);
      ExpandedMore(g, rtn, idx, inQueue, e);
      HoldsOf(g, rtn, inQueue, seeds);
      GaveUpMore(rtn, allowed, e, inQueue);
      SubsetSizes(inQueue + {best.block}, all);
      inQueue := inQueue + {best.block};
      rtn := rtn + [e];
    }
    SubsetSizes(inQueue, all);
    NobodyAllowed(rtn, enterables);
    OrderedFound(g, rtn, full, all, seeds, enterables);
    SeedsBegin(rtn, g, all, partial, start);
    return Done(rtn);
  }

  /** The order of an OSR version (doCompile, emitBBs): the closure of the back edge's target, begun
      there. The target comes first, every other block after one that leads to it, and nothing fails. */
  method OsrOrder(g: Graph, preds: seq<seq<nat>>, target: nat) returns (full: set<nat>, order: seq<Entry>)
    requires g.Valid() && target < |g.succs|
    requires |preds| == |g.succs| && forall b, i :: 0 <= b < |preds| && 0 <= i < |preds[b]| ==> preds[b][i] < |g.succs|
    ensures forall b :: b in full <==> b == target || Reached(g, {target}, b)
    ensures order != [] && order[0] == Seed(target) && |order| == |full|
    ensures forall b: nat :: b in full <==> exists i :: 0 <= i < |order| && order[i].block == b
    ensures forall i {:trigger order[i]} :: 1 <= i < |order| ==>
      order[i].After? && g.Edge(order[i].pred, order[i].block) && exists j :: 0 <= j < i && order[j].block == order[i].pred
  {
    hide Reached, Found, Ordering, BeginsWith, NeverGaveUp, GaveUpFor;
    var partial;
    full, partial := ComputeBlockSetClosure(g, {target}, {});
    assert {target} + {} == {target};
    ClosureClosed(g, full, target);
    var r := ComputeBlockTraversalOrder(g, preds, full, partial, At(target));
    FoundFromTarget(g, full, target);
    assert partial == {} && full + partial == full;
    order := r.value;
    OsrMeans(g, order, full, target);
  }

  lemma ClosureClosed(g: Graph, full: set<nat>, target: nat)
    requires g.Valid() && target < |g.succs| && forall b :: b in full <==> b == target || Reached(g, {target}, b)
    ensures full <= Blocks(g) && forall u: nat, v: nat :: u in full && g.Edge(u, v) ==> v in full
  {
    forall u: nat, v: nat | u in full && g.Edge(u, v) ensures v in full { ReachedStep(g, {target}, u, v); }
  }

  lemma FoundFromTarget(g: Graph, full: set<nat>, target: nat)
    requires forall b :: b in full <==> b == target || Reached(g, {target}, b)
    ensures Found(g, full, {}, At(target))
  {
    hide Reached;
  }

  lemma OsrMeans(g: Graph, order: seq<Entry>, full: set<nat>, target: nat)
    requires Ordering(g, order, full, Seeds({}, At(target))) && BeginsWith(order, {}, At(target)) && NeverGaveUp(order)
    ensures order != [] && order[0] == Seed(target) && |order| == |full|
    ensures forall b: nat :: b in full <==> exists i :: 0 <= i < |order| && order[i].block == b
    ensures forall i {:trigger order[i]} :: 1 <= i < |order| ==>
      order[i].After? && g.Edge(order[i].pred, order[i].block) && exists j :: 0 <= j < i && order[j].block == order[i].pred
  {
    assert Seeds({}, At(target)) == {target};
  }

  lemma HoldsOf(g: Graph, order: seq<Entry>, blocks: set<nat>, seeds: set<nat>)
    requires Ordering(g, order, blocks, seeds)
    ensures Holds(order, blocks)
  {}

  /** The candidates are the blocks of `Enterables` that are not in the order yet. */
  lemma BestAllowed(g: Graph, preds: seq<seq<nat>>, full: set<nat>, inQueue: set<nat>, best: Start)
    requires full <= Blocks(g) && |preds| == |g.succs|
    requires forall b, i :: 0 <= b < |preds| && 0 <= i < |preds[b]| ==> preds[b][i] < |g.succs|
    requires best.At? ==> Candidate(g, preds, full, inQueue, best.block)
    requires forall b: nat :: Candidate(g, preds, full, inQueue, b) ==> best.At? && best.block <= b
    ensures best.At? ==> best.block in Enterables(g, preds, full) && best.block in full && best.block !in inQueue
    ensures forall b {:trigger b in Enterables(g, preds, full)} :: b in Enterables(g, preds, full) && b !in inQueue ==>
      best.At? && best.block <= b
  {
    forall b | b in full && b !in inQueue ensures Candidate(g, preds, full, inQueue, b) <==> b in Enterables(g, preds, full) {
      assert b in Blocks(g);
      OnlyOne(preds[b]);
    }
  }

  lemma OnlyOne(s: seq<nat>)
    ensures |s| == 1 <==> exists u :: s == [u]
  {
    if |s| == 1 { assert s == [s[0]]; }
  }

  lemma OnlySeeds(order: seq<Entry>)
    requires SeedList(order)
    ensures NeverGaveUp(order)
  {}

  /** The inner loop: follows every edge out of the blocks found so far. */
  method ExpandAll(g: Graph, rtn0: seq<Entry>, inQueue0: set<nat>, idx0: nat, full: set<nat>, partial: set<nat>, ghost seeds: set<nat>, ghost allowed: set<nat>)
      returns (rtn: seq<Entry>, inQueue: set<nat>, idx: nat)
    requires g.Valid() && full + partial <= Blocks(g) && seeds <= inQueue0 <= full + partial && Ordering(g, rtn0, inQueue0, seeds)
    requires forall u: nat, v: nat :: u in full + partial && g.Edge(u, v) ==> v in full + partial
    requires idx0 <= |rtn0| == |inQueue0| && Expanded(g, rtn0, idx0, inQueue0) && GaveUpFor(rtn0, allowed)
    ensures inQueue0 <= inQueue <= full + partial && Ordering(g, rtn, inQueue, seeds) && |rtn| == |inQueue| <= |full + partial|
    ensures idx == |rtn| && Expanded(g, rtn, idx, inQueue) && |rtn| >= |rtn0| && GaveUpFor(rtn, allowed)
  {
    hide Ordering, Expanded, GaveUpFor, Holds;
    rtn, inQueue, idx := rtn0, inQueue0, idx0;
    SubsetSizes(inQueue, full + partial);
    while idx < |rtn|
      invariant inQueue0 <= inQueue <= full + partial && Ordering(g, rtn, inQueue, seeds) && |rtn| == |inQueue| <= |full + partial|
      invariant idx <= |rtn| && Expanded(g, rtn, idx, inQueue) && |rtn| >= |rtn0| && GaveUpFor(rtn, allowed)
      decreases |full + partial| - idx
    {
      var cur := rtn[idx].block;
      CurIn(g, rtn, inQueue, seeds, idx);
      for i := 0 to |g.succs[cur]|
        invariant inQueue0 <= inQueue <= full + partial && Ordering(g, rtn, inQueue, seeds) && |rtn| == |inQueue| <= |full + partial|
        invariant idx < |rtn| && rtn[idx].block == cur && cur in inQueue && |rtn| >= |rtn0| && GaveUpFor(rtn, allowed)
        invariant Expanded(g, rtn, idx, inQueue) && forall j :: 0 <= j < i ==> g.succs[cur][j] in inQueue
      {
        var b := g.succs[cur][i];
        assert g.Edge(cur, b);
        if b in inQueue { continue; }
        var e := After(b, cur);
        OrderingMore(g, rtn, inQueue, seeds, e);
        ExpandedMore(g, rtn, idx, inQueue, e);
        SubsetSizes(inQueue + {b}, full + partial);
        HoldsOf(g, rtn, inQueue, seeds);
        GaveUpMore(rtn, allowed, e, inQueue);
        inQueue := inQueue + {b};
        rtn := rtn + [e];
      }
      ExpandedNext(g, rtn, idx, inQueue, cur);
      idx := idx + 1;
    }
  }

  lemma CurIn(g: Graph, order: seq<Entry>, blocks: set<nat>, seeds: set<nat>, i: nat)
    requires Ordering(g, order, blocks, seeds) && i < |order|
    ensures order[i].block in blocks
  {}

  lemma ExpandedNext(g: Graph, order: seq<Entry>, idx: nat, blocks: set<nat>, cur: nat)
    requires Expanded(g, order, idx, blocks) && idx < |order| && order[idx].block == cur && cur < |g.succs|
    requires forall j :: 0 <= j < |g.succs[cur]| ==> g.succs[cur][j] in blocks
    ensures Expanded(g, order, idx + 1, blocks)
  {}

  /** A block that may be added without a predecessor and is not in the order yet. */
  predicate Candidate(g: Graph, preds: seq<seq<nat>>, full: set<nat>, inQueue: set<nat>, b: nat)
    requires full <= Blocks(g) && |preds| == |g.succs|
    requires forall b, i :: 0 <= b < |preds| && 0 <= i < |preds[b]| ==> preds[b][i] < |g.succs|
  {
    b in full && b !in inQueue && (assert b in Blocks(g); !(|preds[b]| == 1 && |g.succs[preds[b][0]]| > 1))
  }

  /** The lowest candidate, if there is any. */
  method PickBest(g: Graph, preds: seq<seq<nat>>, full: set<nat>, inQueue: set<nat>) returns (best: Start)
    requires full <= Blocks(g) && |preds| == |g.succs|
    requires forall b, i :: 0 <= b < |preds| && 0 <= i < |preds[b]| ==> preds[b][i] < |g.succs|
    ensures best.At? ==> Candidate(g, preds, full, inQueue, best.block)
    ensures forall b: nat :: Candidate(g, preds, full, inQueue, b) ==> best.At? && best.block <= b
  {
    best := NoStart;
    var list := ToSeq(full);
    for k := 0 to |list|
      invariant best.At? ==> Candidate(g, preds, full, inQueue, best.block)
      invariant forall j :: 0 <= j < k && Candidate(g, preds, full, inQueue, list[j]) ==> best.At? && best.block <= list[j]
    {
      var b := list[k];
      assert b in list && b in full && b in Blocks(g);
      if b in inQueue { continue; }
      if |preds[b]| == 1 && |g.succs[preds[b][0]]| > 1 { continue; }
      if best.NoStart? || b < best.block { best := At(b); }
    }
    forall b: nat | Candidate(g, preds, full, inQueue, b) ensures best.At? && best.block <= b {
      assert b in list;
    }
  }
}
