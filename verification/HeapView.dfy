/** What is allocated in the heap, which allocation is around an address, and what a collection
    must keep: everything reachable from the roots (src/gc/heap.cpp, src/gc/collector.cpp). */
module HeapView {
  import opened HeapLayout
  import BL = BlockLists
  import LO = LargeObjects

  /** The small blocks and the large objects by address. */
  datatype View = View(blocks: map<int, Block>, objs: map<int, LO.LargeObj>)

  /** Blocks and large objects are well-formed and lie in their own arenas. */
  ghost predicate Sane(h: View, smallEnd: int, largeEnd: int) {
    BL.Arena(h.blocks, smallEnd) && LO.Placed(h.objs, largeEnd) && smallEnd <= LO.LARGE_START
  }

  ghost predicate SmallLive(h: View, p: int) {
    p >= 0 && ForPointer(p) in h.blocks && Shaped(h.blocks[ForPointer(p)])
    && AllocatedAt(h.blocks[ForPointer(p)], p % BLOCK_SIZE)
  }

  ghost predicate LargeLive(h: View, p: int) {
    p - LO.LARGE_HEADER in h.objs
  }

  ghost predicate Live(h: View, p: int) {
    SmallLive(h, p) || LargeLive(h, p)
  }

  /** Address x lies in the allocation at q; a large object's header counts as part of it. */
  ghost predicate Inside(h: View, q: int, x: int) {
    || (SmallLive(h, q) && q <= x < q + h.blocks[ForPointer(q)].size)
    || (LargeLive(h, q) && LO.Covers(h.objs, q - LO.LARGE_HEADER, x))
  }

  /** An allocated small object lies within its block, behind the header, aligned to 16 bytes. */
  lemma SmallLiveWithin(h: View, smallEnd: int, p: int)
    requires BL.Arena(h.blocks, smallEnd) && SmallLive(h, p)
    ensures var b := ForPointer(p);
      && b + BLOCK_HEADER_SIZE <= p && p + h.blocks[b].size <= b + BLOCK_SIZE && p % 16 == 0
      && BL.SMALL_START <= b && b + BLOCK_SIZE <= smallEnd
  {
    var b := ForPointer(p);
    assert b in h.blocks && BlockOk(h.blocks[b]);
    AllocatedWithin(h.blocks[b], p % BLOCK_SIZE);
    assert p == b + p % BLOCK_SIZE && b % BLOCK_SIZE == 0;
    Aligned(b, p % BLOCK_SIZE);
  }

  lemma Aligned(b: int, o: nat)
    requires b % 4096 == 0 && o % 16 == 0
    ensures (b + o) % 16 == 0
  {}

  /** Two small objects never overlap. */
  lemma SmallDisjoint(h: View, smallEnd: int, p: int, q: int)
    requires BL.Arena(h.blocks, smallEnd) && SmallLive(h, p) && SmallLive(h, q) && p < q
    ensures p + h.blocks[ForPointer(p)].size <= q
  {
    SmallLiveWithin(h, smallEnd, p);
    SmallLiveWithin(h, smallEnd, q);
    if ForPointer(p) == ForPointer(q) {
      SlotsDisjoint(h.blocks[ForPointer(p)], p % BLOCK_SIZE, q % BLOCK_SIZE);
    } else {
      PagesApart(ForPointer(p), ForPointer(q));
    }
  }

  lemma PagesApart(a: int, b: int)
    requires a % 4096 == 0 && b % 4096 == 0 && a != b
    ensures a + 4096 <= b || b + 4096 <= a
  {}

  /** At most one allocation is around an address. */
  lemma InsideOne(h: View, smallEnd: int, largeEnd: int, q: int, r: int, x: int)
    requires Sane(h, smallEnd, largeEnd) && Inside(h, q, x) && Inside(h, r, x)
    ensures q == r
  {
    hide Shaped, AllocatedAt, BlockOk;
    if SmallLive(h, q) { SmallLiveWithin(h, smallEnd, q); }
    if SmallLive(h, r) { SmallLiveWithin(h, smallEnd, r); }
    if LargeLive(h, q) { assert LO.LARGE_START <= q - LO.LARGE_HEADER; }
    if LargeLive(h, r) { assert LO.LARGE_START <= r - LO.LARGE_HEADER; }
    if SmallLive(h, q) && SmallLive(h, r) {
      if q < r { SmallDisjoint(h, smallEnd, q, r); }
      if r < q { SmallDisjoint(h, smallEnd, r, q); }
    } else if LargeLive(h, q) && LargeLive(h, r) && LO.Covers(h.objs, q - LO.LARGE_HEADER, x) && LO.Covers(h.objs, r - LO.LARGE_HEADER, x) {
      LO.CoversOne(h.objs, largeEnd, q - LO.LARGE_HEADER, r - LO.LARGE_HEADER, x);
    }
  }

  /** Address x is in the memory that was taken for the allocation at q: its slot, or its pages. */
  ghost predicate InMemory(h: View, q: int, x: int) {
    || (SmallLive(h, q) && q <= x < q + h.blocks[ForPointer(q)].size)
    || (LargeLive(h, q) && var a := q - LO.LARGE_HEADER; a <= x < a + LO.MmapSize(h.objs[a].objSize))
  }

  /** The allocation at q has so many bytes of its own. */
  ghost predicate Offers(h: View, q: int, bytes: int) {
    forall x {:trigger InMemory(h, q, x)} :: q <= x < q + bytes ==> InMemory(h, q, x)
  }

  /** Interior pointers to all of the first bytes find the allocation. */
  ghost predicate FoundWithin(h: View, q: int, bytes: int) {
    forall x {:trigger Inside(h, q, x)} :: q <= x < q + bytes ==> Inside(h, q, x)
  }

  /** The memory of two allocations never overlaps. */
  lemma InMemoryOne(h: View, smallEnd: int, largeEnd: int, q: int, r: int, x: int)
    requires Sane(h, smallEnd, largeEnd) && InMemory(h, q, x) && InMemory(h, r, x)
    ensures q == r
  {
    hide Shaped, AllocatedAt, BlockOk, LO.MmapSize;
    if SmallLive(h, q) { SmallLiveWithin(h, smallEnd, q); }
    if SmallLive(h, r) { SmallLiveWithin(h, smallEnd, r); }
    if LargeLive(h, q) { assert LO.LARGE_START <= q - LO.LARGE_HEADER; }
    if LargeLive(h, r) { assert LO.LARGE_START <= r - LO.LARGE_HEADER; }
    if SmallLive(h, q) && SmallLive(h, r) {
      if q < r { SmallDisjoint(h, smallEnd, q, r); }
      if r < q { SmallDisjoint(h, smallEnd, r, q); }
    }
  }

  /** The allocation around an address, 0 if there is none. */
  ghost function Lookup(h: View, x: int): int {
    if exists q :: Inside(h, q, x) then (var q :| Inside(h, q, x); q) else 0
  }

  // ---- what a collection must keep ------------------------------------------------------------

  /** What a kind's handler reports of an object: surely a pointer, or a word that may be one. */
  datatype Visit = Exact(p: int) | Potential(word: int)

  datatype Kind = Untracked | Handled(visits: seq<Visit>)

  /** The program's memory as the collector sees it: the registered roots, the words found on the
      stack, and each object's kind and content. */
  datatype World = World(statics: seq<int>, stack: seq<int>, objects: map<int, Kind>)

  ghost predicate Points(h: View, v: Visit, q: int) {
    match v
    case Exact(p) => q == p
    case Potential(word) => Inside(h, q, word)
  }

  ghost predicate Rooted(h: View, w: World, q: int) {
    q in w.statics || exists i :: 0 <= i < |w.stack| && Inside(h, q, w.stack[i])
  }

  ghost predicate PointsAny(h: View, visits: seq<Visit>, q: int) {
    exists i :: 0 <= i < |visits| && Points(h, visits[i], q)
  }

  ghost predicate Refers(h: View, w: World, p: int, q: int) {
    p in w.objects && w.objects[p].Handled? && PointsAny(h, w.objects[p].visits, q)
  }

  /** A chain of references from a root. */
  ghost predicate Chain(h: View, w: World, path: seq<int>) {
    && path != [] && Rooted(h, w, path[0])
    && forall i {:trigger path[i]} :: 0 <= i < |path| - 1 ==> Refers(h, w, path[i], path[i + 1])
  }

  ghost predicate Reachable(h: View, w: World, q: int) {
    exists path :: Chain(h, w, path) && path[|path| - 1] == q
  }

  /** What the collector's asserts demand: exact pointers and registered roots are allocations,
      and every allocation has a kind. */
  ghost predicate Sound(h: View, w: World) {
    && (forall p {:trigger p in w.statics} :: p in w.statics ==> Live(h, p))
    && (forall p {:trigger Live(h, p)} :: Live(h, p) ==> p in w.objects)
    && (forall p, i {:trigger w.objects[p].visits[i]} ::
          (Live(h, p) && p in w.objects && w.objects[p].Handled? && 0 <= i < |w.objects[p].visits| && w.objects[p].visits[i].Exact?)
          ==> Live(h, w.objects[p].visits[i].p))
  }

  lemma RootReachable(h: View, w: World, q: int)
    requires Rooted(h, w, q)
    ensures Reachable(h, w, q)
  {
    assert Chain(h, w, [q]);
    assert [q][|[q]| - 1] == q;
  }

  lemma StepReachable(h: View, w: World, p: int, q: int)
    requires Reachable(h, w, p) && Refers(h, w, p, q)
    ensures Reachable(h, w, q)
  {
    var path :| Chain(h, w, path) && path[|path| - 1] == p;
    var longer := path + [q];
    forall i | 0 <= i < |longer| - 1 ensures Refers(h, w, longer[i], longer[i + 1]) {
      if i < |path| - 1 { assert longer[i] == path[i] && longer[i + 1] == path[i + 1]; }
    }
    assert Chain(h, w, longer) && longer[|longer| - 1] == q;
  }

  /** A set that holds the roots and is closed under references holds everything reachable. */
  lemma {:induction false} ClosedHoldsPath(h: View, w: World, s: set<int>, path: seq<int>, k: nat)
    requires Chain(h, w, path) && k < |path|
    requires forall q :: Rooted(h, w, q) ==> q in s
    requires forall p, q :: p in s && Refers(h, w, p, q) ==> q in s
    ensures path[k] in s
  {
    if k > 0 {
      ClosedHoldsPath(h, w, s, path, k - 1);
      assert Refers(h, w, path[k - 1], path[k]);
    }
  }

  lemma ClosedHoldsReachable(h: View, w: World, s: set<int>)
    requires forall q :: Rooted(h, w, q) ==> q in s
    requires forall p, q :: p in s && Refers(h, w, p, q) ==> q in s
    ensures forall q :: Reachable(h, w, q) ==> q in s
  {
    forall q | Reachable(h, w, q) ensures q in s {
      var path :| Chain(h, w, path) && path[|path| - 1] == q;
      ClosedHoldsPath(h, w, s, path, |path| - 1);
    }
  }

  /** Only allocations are pointed at. */
  lemma RefersLive(h: View, w: World, p: int, q: int)
    requires Sound(h, w) && Live(h, p) && Refers(h, w, p, q)
    ensures Live(h, q)
  {
    var i :| 0 <= i < |w.objects[p].visits| && Points(h, w.objects[p].visits[i], q);
    assert w.objects[p].visits[i] == w.objects[p].visits[i];
  }

  lemma RootedLive(h: View, w: World, q: int)
    requires Sound(h, w) && Rooted(h, w, q)
    ensures Live(h, q)
  {}

  /** There are finitely many allocations. */
  ghost function LiveSet(h: View, smallEnd: int): set<int> {
    (set p: int | BL.SMALL_START <= p < smallEnd && SmallLive(h, p)) + (set a | a in h.objs :: a + LO.LARGE_HEADER)
  }

  lemma LiveInSet(h: View, smallEnd: int, p: int)
    requires BL.Arena(h.blocks, smallEnd)
    ensures Live(h, p) <==> p in LiveSet(h, smallEnd)
  {
    hide AllocatedAt, Shaped, BlockOk;
    if SmallLive(h, p) { SmallLiveWithin(h, smallEnd, p); }
    if LargeLive(h, p) { assert (p - LO.LARGE_HEADER) + LO.LARGE_HEADER == p; }
  }

  lemma LiveNotNull(h: View, smallEnd: int, largeEnd: int, p: int)
    requires Sane(h, smallEnd, largeEnd) && Live(h, p)
    ensures p > 0
  {
    hide AllocatedAt, Shaped, BlockOk;
    if SmallLive(h, p) { SmallLiveWithin(h, smallEnd, p); }
  }
}
