/** The two block lists of every size bucket (allocSmall in src/gc/heap.cpp): blocks that may have
    room, and blocks found full. A block is never lost, and both lists end. */
module BlockLists {
  import opened HeapLayout

  const SMALL_START: int := 0x12_7000_0000

  type Blocks = map<int, Block>

  function FirstOf(list: seq<int>): int {
    if list == [] then 0 else list[0]
  }

  function NextAt(list: seq<int>, i: nat): int
    requires i < |list|
  {
    if i + 1 < |list| then list[i + 1] else 0
  }

  /** Following next from head visits exactly `list`. */
  ghost predicate Chained(blocks: Blocks, head: int, list: seq<int>) {
    && head == FirstOf(list)
    && (forall i, j {:trigger list[i], list[j]} :: 0 <= i < j < |list| ==> list[i] != list[j])
    && (forall i {:trigger list[i]} :: 0 <= i < |list| ==> list[i] in blocks && list[i] != 0 && blocks[list[i]].next == NextAt(list, i))
  }

  /** A bucket's two lists together hold the blocks of its size, each once. */
  ghost predicate Bucket(blocks: Blocks, head: int, full: int, h: seq<int>, f: seq<int>, i: nat, size: nat) {
    && Chained(blocks, head, h) && Chained(blocks, full, f)
    && (forall b :: b in h ==> b !in f)
    && (forall b {:trigger blocks[b]} :: b in blocks ==> (blocks[b].size == size <==> b in h || b in f))
    && (h != [] ==> blocks[h[0]].prev == Heads(i))
  }

  /** The lists' order, for the proofs: hs and fs per bucket. */
  datatype Orders = Orders(hs: seq<seq<int>>, fs: seq<seq<int>>)

  ghost predicate Buckets(blocks: Blocks, heads: seq<int>, fulls: seq<int>, o: Orders) {
    && |heads| == |fulls| == |o.hs| == |o.fs| == NUM_BUCKETS
    && (forall i {:trigger o.hs[i]} :: 0 <= i < NUM_BUCKETS ==> Bucket(blocks, heads[i], fulls[i], o.hs[i], o.fs[i], i, SIZES[i]))
  }

  /** Blocks fill the arena, and are each well-formed. */
  ghost predicate Arena(blocks: Blocks, end: int) {
    && SMALL_START <= end && end % BLOCK_SIZE == 0
    && (forall b {:trigger b in blocks} :: b in blocks <==> SMALL_START <= b < end && b % BLOCK_SIZE == 0)
    && (forall b {:trigger blocks[b]} :: b in blocks ==> BlockOk(blocks[b]))
  }

  // ---- the changes allocSmall makes -----------------------------------------------------------

  /** The head, found full, moves to the full list. */
  function Retire(blocks: Blocks, c: int, full: int, i: nat): Blocks
    requires c in blocks
  {
    var t := blocks[c].next;
    var m := if t != 0 && t in blocks then blocks[t := blocks[t].(prev := Heads(i))] else blocks;
    m[c := blocks[c].(next := full, prev := FullHeads(i))]
  }

  lemma RetireBucket(blocks: Blocks, head: int, full: int, h: seq<int>, f: seq<int>, i: nat, size: nat)
    requires Bucket(blocks, head, full, h, f, i, size) && h != []
    ensures Bucket(Retire(blocks, head, full, i), blocks[head].next, head, h[1..], [head] + f, i, size)
    ensures h[1..] != [] ==> blocks[head].next == h[1]
    ensures h[1..] == [] ==> blocks[head].next == 0
  {
    var m, t := Retire(blocks, head, full, i), h[1..];
    assert h[0] == head && head in h;
    assert h == [head] + t;
    TailFirst(blocks, head, h);
    if t != [] { assert t[0] in h && t[0] in blocks; }
    TailDistinct(blocks, head, h);
    ChainCons(blocks, full, f, m, head);
    ChainTail(blocks, head, h, m);
    hide Chained, Retire;
    RetireFields(blocks, head, full, i);
    forall b | b in m ensures m[b].size == size <==> b in t || b in [head] + f {
      assert b in h <==> b == head || b in t;
    }
  }

  lemma RetireFields(blocks: Blocks, c: int, full: int, i: nat)
    requires c in blocks
    ensures var m, t := Retire(blocks, c, full, i), blocks[c].next;
      && m.Keys == blocks.Keys && (forall b {:trigger m[b]} :: b in blocks ==> m[b].size == blocks[b].size)
      && (t != 0 && t in blocks && t != c ==> m[t].prev == Heads(i))
  {}

  lemma TailFirst(blocks: Blocks, head: int, h: seq<int>)
    requires Chained(blocks, head, h) && h != []
    ensures head == h[0] && head in blocks && blocks[head].next == FirstOf(h[1..]) && FirstOf(h[1..]) != head
  {
    if 1 < |h| { assert h[0] != h[1]; } else { assert h[0] != 0; }
  }

  lemma TailDistinct(blocks: Blocks, head: int, h: seq<int>)
    requires Chained(blocks, head, h) && h != []
    ensures head !in h[1..] && forall b :: b in h[1..] ==> b in blocks
  {
    hide NextAt;
    var t := h[1..];
    forall j | 0 <= j < |t| ensures t[j] != head && t[j] in blocks { assert t[j] == h[j + 1]; }
  }

  /** A list whose other blocks keep their links still chains behind a new first block. */
  lemma ChainCons(blocks: Blocks, full: int, f: seq<int>, other: Blocks, n: int)
    requires Chained(blocks, full, f) && n !in f && n != 0 && n in other && other[n].next == full
    requires forall b {:trigger b in f} :: b in f ==> b in other && b in blocks && other[b].next == blocks[b].next
    ensures Chained(other, n, [n] + f)
  {
    var g := [n] + f;
    forall j | 0 <= j < |g| ensures g[j] in other && g[j] != 0 && other[g[j]].next == NextAt(g, j) {
      if j > 0 { ConsAt(blocks, full, f, n, j); }
    }
    forall j, k | 0 <= j < k < |g| ensures g[j] != g[k] {
      ConsAt(blocks, full, f, n, k);
      if j > 0 {
        ConsAt(blocks, full, f, n, j);
        Apart(blocks, full, f, j - 1, k - 1);
      }
    }
  }

  lemma Apart(blocks: Blocks, head: int, h: seq<int>, i: nat, j: nat)
    requires Chained(blocks, head, h) && i < j < |h|
    ensures h[i] != h[j]
  {
    hide NextAt;
  }

  lemma ConsAt(blocks: Blocks, full: int, f: seq<int>, n: int, j: nat)
    requires Chained(blocks, full, f) && 0 < j < |[n] + f|
    ensures ([n] + f)[j] == f[j - 1] && f[j - 1] in f && f[j - 1] in blocks && f[j - 1] != 0
    ensures blocks[f[j - 1]].next == NextAt([n] + f, j)
  {
    assert blocks[f[j - 1]].next == NextAt(f, j - 1) by { hide NextAt; }
    hide Chained;
  }

  lemma ChainTail(blocks: Blocks, head: int, h: seq<int>, other: Blocks)
    requires Chained(blocks, head, h) && h != []
    requires forall b {:trigger b in h[1..]} :: b in h[1..] ==> b in other && b in blocks && other[b].next == blocks[b].next
    ensures Chained(other, FirstOf(h[1..]), h[1..])
  {
    var t := h[1..];
    forall j | 0 <= j < |t| ensures t[j] in other && t[j] != 0 && other[t[j]].next == NextAt(t, j) { TailAt(blocks, head, h, j); }
    forall j, k | 0 <= j < k < |t| ensures t[j] != t[k] {
      TailAt(blocks, head, h, j);
      TailAt(blocks, head, h, k);
      Apart(blocks, head, h, j + 1, k + 1);
    }
  }

  lemma TailAt(blocks: Blocks, head: int, h: seq<int>, j: nat)
    requires Chained(blocks, head, h) && j + 1 < |h|
    ensures h[1..][j] == h[j + 1] && h[j + 1] in h[1..] && h[j + 1] in blocks && h[j + 1] != 0
    ensures blocks[h[j + 1]].next == NextAt(h[1..], j)
  {
    assert h[1..][j] == h[j + 1];
    assert blocks[h[j + 1]].next == NextAt(h, j + 1) by { hide NextAt; }
    hide Chained;
  }

  /** When no block is left to look at, a new one becomes the head, followed by all full blocks. */
  lemma RefillBucket(blocks: Blocks, head: int, full: int, f: seq<int>, i: nat, size: nat, n: int, added: Block)
    requires Bucket(blocks, head, full, [], f, i, size) && n !in blocks && n != 0
    requires added.size == size && added.next == full && added.prev == Heads(i)
    ensures Bucket(blocks[n := added], n, 0, [n] + f, [], i, size)
  {
    var m, h := blocks[n := added], [n] + f;
    ChainBlocks(blocks, full, f);
    ChainCons(blocks, full, f, m, n);
    assert Chained(m, 0, []);
    hide Chained;
    forall b | b in m ensures m[b].size == size <==> b in h || b in [] {
      assert b in h <==> b == n || b in f;
    }
  }

  lemma ChainBlocks(blocks: Blocks, head: int, h: seq<int>)
    requires Chained(blocks, head, h)
    ensures forall b :: b in h ==> b in blocks
  {
    hide NextAt;
  }

  /** Changing only the free bits of blocks leaves every list alone. */
  ghost predicate SameShape(blocks: Blocks, other: Blocks) {
    && other.Keys == blocks.Keys
    && (forall b {:trigger other[b]} :: b in blocks ==>
          other[b].next == blocks[b].next && other[b].prev == blocks[b].prev && other[b].size == blocks[b].size)
  }

  lemma SameShapeBuckets(blocks: Blocks, other: Blocks, heads: seq<int>, fulls: seq<int>, o: Orders)
    requires Buckets(blocks, heads, fulls, o) && SameShape(blocks, other)
    ensures Buckets(other, heads, fulls, o)
  {
    forall i | 0 <= i < NUM_BUCKETS ensures Bucket(other, heads[i], fulls[i], o.hs[i], o.fs[i], i, SIZES[i]) {
      hide NextAt;
      assert Bucket(blocks, heads[i], fulls[i], o.hs[i], o.fs[i], i, SIZES[i]);
    }
  }

  /** Two tables agree on the blocks of one size. */
  ghost predicate AgreeOn(blocks: Blocks, other: Blocks, size: nat) {
    && (forall b {:trigger blocks[b]} :: b in blocks && blocks[b].size == size ==> b in other && other[b] == blocks[b])
    && (forall b {:trigger other[b]} :: b in other && other[b].size == size ==> b in blocks && other[b] == blocks[b])
  }

  lemma AgreeBucket(blocks: Blocks, other: Blocks, head: int, full: int, h: seq<int>, f: seq<int>, i: nat, size: nat)
    requires Bucket(blocks, head, full, h, f, i, size) && AgreeOn(blocks, other, size)
    ensures Bucket(other, head, full, h, f, i, size)
  {
    hide NextAt;
    forall j | 0 <= j < |h| ensures h[j] in other && other[h[j]] == blocks[h[j]] {
      assert h[j] in h && h[j] in blocks;
    }
    forall j | 0 <= j < |f| ensures f[j] in other && other[f[j]] == blocks[f[j]] {
      assert f[j] in f && f[j] in blocks;
    }
    forall b | b in other ensures other[b].size == size <==> b in h || b in f {
      if b in h || b in f { assert b in blocks && blocks[b].size == size; }
    }
  }

  /** Replacing one bucket's lists, the blocks of other sizes staying as they are. */
  lemma ReplaceBucket(blocks: Blocks, other: Blocks, heads: seq<int>, fulls: seq<int>, o: Orders,
                      i: nat, head: int, full: int, h: seq<int>, f: seq<int>)
    requires Buckets(blocks, heads, fulls, o) && i < NUM_BUCKETS
    requires forall j :: 0 <= j < NUM_BUCKETS && j != i ==> AgreeOn(blocks, other, SIZES[j])
    requires Bucket(other, head, full, h, f, i, SIZES[i])
    ensures Buckets(other, heads[i := head], fulls[i := full], Orders(o.hs[i := h], o.fs[i := f]))
  {
    hide Bucket, AgreeOn;
    var p := Orders(o.hs[i := h], o.fs[i := f]);
    forall j | 0 <= j < NUM_BUCKETS
      ensures Bucket(other, heads[i := head][j], fulls[i := full][j], p.hs[j], p.fs[j], j, SIZES[j])
    {
      if j != i {
        assert o.hs[j] == p.hs[j];
        AgreeBucket(blocks, other, heads[j], fulls[j], o.hs[j], o.fs[j], j, SIZES[j]);
      }
    }
  }

  lemma SizesDistinct(i: nat, j: nat)
    requires i < j < NUM_BUCKETS
    ensures SIZES[i] < SIZES[j]
    decreases j
  {
    if i + 1 < j { SizesDistinct(i, j - 1); }
    assert SIZES[j - 1] < SIZES[j];
  }

  /** A change to blocks of one size agrees on all others. */
  lemma OtherSizesAgree(blocks: Blocks, other: Blocks, i: nat)
    requires i < NUM_BUCKETS
    requires forall b :: b in blocks ==> b in other && (blocks[b].size != SIZES[i] ==> other[b] == blocks[b]) && other[b].size == blocks[b].size
    requires forall b :: b in other && b !in blocks ==> other[b].size == SIZES[i]
    ensures forall j :: 0 <= j < NUM_BUCKETS && j != i ==> AgreeOn(blocks, other, SIZES[j])
  {
    forall j | 0 <= j < NUM_BUCKETS && j != i ensures AgreeOn(blocks, other, SIZES[j]) {
      if j < i { SizesDistinct(j, i); } else { SizesDistinct(i, j); }
    }
  }

  /** Every block stands in the lists of the bucket of its size. */
  lemma BlockListed(blocks: Blocks, heads: seq<int>, fulls: seq<int>, o: Orders, b: int)
    requires Buckets(blocks, heads, fulls, o) && b in blocks && IsSize(blocks[b].size)
    ensures exists i :: 0 <= i < NUM_BUCKETS && blocks[b].size == SIZES[i] && (b in o.hs[i] || b in o.fs[i])
  {
    var i :| 0 <= i < |SIZES| && SIZES[i] == blocks[b].size;
    assert o.hs[i] == o.hs[i];
    assert Bucket(blocks, heads[i], fulls[i], o.hs[i], o.fs[i], i, SIZES[i]);
  }
}
