/** The garbage-collected heap and its collector (Heap in src/gc/heap.cpp, markPhase and
    runCollection in src/gc/collector.cpp). */
module Heap {
  import opened Commons
  import opened HeapLayout
  import opened HeapView
  import BL = BlockLists
  import LO = LargeObjects

  const ALLOCBYTES_PER_COLLECTION: nat := 2000000

  /** A vector used as a stack; NULL is 0. */
  class TraceStack {
    var v: seq<int>

    constructor (v: seq<int>)
      ensures this.v == v
    {
      this.v := v;
    }

    method Push(p: int)
      modifies this
      ensures v == old(v) + [p]
    {
      v := v + [p];
    }

    method Pop() returns (p: int)
      modifies this
      ensures old(v) == [] ==> p == 0 && v == []
      ensures old(v) != [] ==> p == old(v)[|old(v)| - 1] && v == old(v)[..|old(v)| - 1]
    {
      if v == [] { return 0; }
      p := v[|v| - 1];
      v := v[..|v| - 1];
    }
  }

  class Heap {
    var heads: seq<int>
    var fullHeads: seq<int>
    var blocks: map<int, Block>
    var smallEnd: int
    var large: LO.List
    var largeEnd: int
    /** The objects whose header has the mark bit. */
    var marked: set<int>
    /** bytesAllocatedSinceCollection, an unsigned 32-bit counter. */
    var bytesSince: nat
    ghost var orders: BL.Orders
    ghost var order: seq<int>

    function H(): View
      reads this`blocks, this`large
    {
      View(blocks, large.objs)
    }

    ghost predicate Valid()
      reads this
    {
      && Sane(H(), smallEnd, largeEnd)
      && BL.Buckets(blocks, heads, fullHeads, orders)
      && LO.Linked(large, order) && (forall a :: a in large.objs ==> a in order)
      && (forall p :: p in marked ==> Live(H(), p))
    }

    /** Between collections no object is marked. */
    ghost predicate Quiet()
      reads this
    {
      Valid() && marked == {}
    }

    constructor ()
      ensures Quiet() && forall p :: !Live(H(), p)
    {
      heads, fullHeads := seq(NUM_BUCKETS, _ => 0), seq(NUM_BUCKETS, _ => 0);
      blocks, smallEnd := map[], BL.SMALL_START;
      large, largeEnd := LO.List(0, map[]), LO.LARGE_START;
      marked, bytesSince := {}, 0;
      orders, order := BL.Orders(seq(NUM_BUCKETS, _ => []), seq(NUM_BUCKETS, _ => [])), [];
    }

    // ---- lookup -----------------------------------------------------------------------------

    method GetAllocationFromInteriorPointer(p: int) returns (r: int)
      requires Valid()
      ensures r == Lookup(H(), p)
      ensures r != 0 ==> Inside(H(), r, p)
      ensures r == 0 ==> forall q :: !Inside(H(), q, p)
    {
      hide Inside, BL.Buckets, Live;
      if LO.LARGE_START <= p < largeEnd {
        var cur := large.head;
        ghost var i := 0;
        while cur != 0
          invariant 0 <= i <= |order| && cur == (if i < |order| then order[i] else 0)
          invariant forall j :: 0 <= j < i ==> !LO.Covers(large.objs, order[j], p)
          decreases |order| - i
        {
          if LO.Covers(large.objs, cur, p) {
            LargeFound(H(), smallEnd, largeEnd, cur, p);
            return cur + LO.LARGE_HEADER;
          }
          cur := large.objs[cur].next;
          i := i + 1;
        }
        NoneFound(H(), smallEnd, largeEnd, order, p);
        return 0;
      }
      if !(BL.SMALL_START <= p < smallEnd) {
        OutsideArenas(H(), smallEnd, largeEnd, p);
        return 0;
      }
      var base := ForPointer(p);
      InArena(blocks, smallEnd, p);
      SmallLookup(H(), smallEnd, largeEnd, p);
      match LookupOffset(blocks[base], p % BLOCK_SIZE)
      case None => return 0;
      case Some(o) => return base + o;
    }

    // ---- allocation of small objects --------------------------------------------------------

    /** alloc_block: a new block at the end of the arena, every object slot free. */
    method AllocBlock(size: nat, prev: Link) returns (rtn: int)
      requires Sane(H(), smallEnd, largeEnd) && IsSize(size) && smallEnd + BLOCK_SIZE <= LO.LARGE_START
      modifies this`blocks, this`smallEnd
      ensures rtn == old(smallEnd) && rtn !in old(blocks) && smallEnd == rtn + BLOCK_SIZE && rtn > 0
      ensures rtn in blocks && blocks == old(blocks)[rtn := blocks[rtn]] && Sane(H(), smallEnd, largeEnd)
      ensures blocks[rtn].size == size && blocks[rtn].prev == prev && blocks[rtn].next == 0 && AllFree(blocks[rtn])
    {
      hide IsSize, MinObjIndex, NumObjects, AllocatedAt;
      SizePositive(size);
      rtn := smallEnd;
      var b := Block(0, prev, size, seq(4, _ => seq(64, _ => false)));
      var numObjects, numLost, atomsPerObj := NumObjects(size), MinObjIndex(size), AtomsPerObj(size);
      FreeBelowNone(b);
      var i := numLost * atomsPerObj;
      ghost var k := numLost;
      SizeHasRoom(size);
      while i < numObjects * atomsPerObj
        invariant numLost <= k <= numObjects && i == k * atomsPerObj && Shaped(b) && FreeBelow(b, k)
        invariant b.size == size && b.prev == prev && b.next == 0
        invariant blocks == old(blocks) && smallEnd == old(smallEnd)
        decreases numObjects - k
      {
        SlotInRange(size, k);
        FreeNext(b, k);
        b := SetBit(b, i, !Bit(b, i));
        i := i + atomsPerObj;
        k := k + 1;
        NextSlot(k, atomsPerObj);
      }
      BelowIsAll(k, numObjects, atomsPerObj);
      FreshBlock(b);
      AddedBlockSane(H(), smallEnd, largeEnd, b);
      blocks := blocks[rtn := b];
      smallEnd := smallEnd + BLOCK_SIZE;
    }

    /** The scan of the four words, and the lowest bit of the first that is not zero. */
    method FirstFree(b: Block) returns (r: Option<nat>)
      requires Shaped(b)
      ensures r.Some? ==> r.value < ATOMS_PER_BLOCK && Bit(b, r.value) && forall a: nat :: a < r.value ==> !Bit(b, a)
      ensures r.None? ==> forall a: nat :: a < ATOMS_PER_BLOCK ==> !Bit(b, a)
    {
      hide IsSize;
      for i := 0 to 4
        invariant forall a: nat :: a < 64 * i ==> !Bit(b, a)
      {
        if true in b.isfree[i] {
          var first := 0;
          while !b.isfree[i][first]
            invariant first < 64 && forall c :: 0 <= c < first ==> !b.isfree[i][c]
            decreases 64 - first
          {
            first := first + 1;
          }
          WordBits(b, i, first);
          return Some(first + i * 64);
        }
        WordClear(b, i);
      }
      return None;
    }

    // ---- marking ----------------------------------------------------------------------------

    /** visit: an exact pointer is pushed as it is. */
    method Visit(stack: TraceStack, p: int)
      modifies stack
      ensures stack.v == old(stack.v) + [p]
    {
      stack.Push(p);
    }

    /** visitPotential: a word is pushed as the allocation it points into, if any. */
    method VisitPotential(stack: TraceStack, word: int)
      requires Valid()
      modifies stack
      ensures forall q :: q in stack.v <==> q in old(stack.v) || Inside(H(), q, word)
    {
      hide Inside, Lookup;
      var a := GetAllocationFromInteriorPointer(word);
      if a != 0 {
        OnlyInside(H(), smallEnd, largeEnd, a, word);
        Visit(stack, a);
      }
    }

    /** visitPotentialRange. */
    method VisitPotentialRange(stack: TraceStack, words: seq<int>)
      requires Valid()
      modifies stack
      ensures forall q :: q in stack.v <==> q in old(stack.v) || exists i :: 0 <= i < |words| && Inside(H(), q, words[i])
    {
      hide Inside, BL.Buckets, Sane;
      for i := 0 to |words|
        invariant Valid() && H() == old(H())
        invariant forall q :: q in stack.v <==> q in old(stack.v) || exists j :: 0 <= j < i && Inside(H(), q, words[j])
      {
        VisitPotential(stack, words[i]);
      }
    }

    /** A kind's handler reporting an object's content to the visitor. */
    method Scan(stack: TraceStack, visits: seq<Visit>)
      requires Valid()
      modifies stack
      ensures forall q :: q in stack.v <==> q in old(stack.v) || PointsAny(H(), visits, q)
    {
      hide Inside, BL.Buckets, Sane;
      for i := 0 to |visits|
        invariant Valid() && H() == old(H())
        invariant forall q :: q in stack.v <==> q in old(stack.v) || exists j :: 0 <= j < i && Points(H(), visits[j], q)
      {
        match visits[i]
        case Exact(p) => Visit(stack, p);
        case Potential(word) => VisitPotential(stack, word);
      }
    }

    /** markPhase: terminates and marks exactly the reachable objects. */
    method MarkPhase(w: World)
      requires Quiet() && Sound(H(), w)
      modifies this`marked
      ensures Valid() && forall p :: p in marked <==> Reachable(H(), w, p)
    {
      hide Inside, BL.Buckets, Sane, MarkInv, Refers, Sound, Live, Reachable, LiveSet;
      var stack := new TraceStack(w.statics);
      VisitPotentialRange(stack, w.stack);
      RootsPushed(H(), w, stack.v);
      while true
        invariant Valid() && H() == old(H()) && smallEnd == old(smallEnd) && largeEnd == old(largeEnd)
        invariant MarkInv(H(), w, marked, stack.v) && fresh(stack)
        decreases |LiveSet(H(), smallEnd) - marked|, |stack.v|
      {
        ghost var v := stack.v;
        PoppedLive(H(), w, smallEnd, largeEnd, marked, v);
        var p := stack.Pop();
        if p == 0 { break; }
        if p in marked {
          MarkSkip(H(), w, marked, v);
          continue;
        }
        MarkedLess(H(), smallEnd, largeEnd, marked, p);
        ghost var m := marked;
        marked := marked + {p};
        ObjectKnown(H(), w, p);
        match w.objects[p] {
          case Untracked =>
          case Handled(visits) => Scan(stack, visits);
        }
        Scanned(H(), w, p);
        MarkStep(H(), w, m, v, stack.v);
      }
      MarkDone(H(), w, marked, stack.v);
    }

    // ---- sweeping ---------------------------------------------------------------------------

    /** One block of freeChain: unmarked objects are freed, marks are cleared. */
    method SweepBlock(head: int)
      requires head in blocks && BlockOk(blocks[head])
      modifies this`blocks, this`marked
      ensures head in blocks && blocks == old(blocks)[head := blocks[head]]
      ensures Swept(old(blocks)[head], blocks[head], head, old(marked))
      ensures Cleared(old(blocks)[head], head, old(marked), marked, NumObjects(blocks[head].size))
    {
      hide BlockOk, Shaped, AllocatedAt, SweptTo, Cleared, MinObjIndex, NumObjects, AtomsPerObj, SlotOffset, SlotAtomIndex, Swept;
      ghost var b0, m0 := blocks[head], marked;
      BlockSizePositive(blocks[head]);
      var numObjects, firstObj, atomsPerObj := NumObjects(blocks[head].size), MinObjIndex(blocks[head].size), AtomsPerObj(blocks[head].size);
      SweptNone(b0, head, m0);
      SizeHasRoom(blocks[head].size);
      for objIdx := firstObj to numObjects
        invariant head in blocks && blocks == old(blocks)[head := blocks[head]]
        invariant SweptTo(b0, blocks[head], head, m0, objIdx) && Cleared(b0, head, m0, marked, objIdx)
      {
        ghost var b := blocks[head];
        SlotFacts(b0, b, head, m0, objIdx);
        var atomIdx := objIdx * atomsPerObj;
        if Bit(blocks[head], atomIdx) {
          SweepFree(b0, b, head, m0, marked, objIdx);
          continue;
        }
        var p := head + atomIdx * ATOM_SIZE;
        SweepUsed(b0, b, head, m0, marked, objIdx, p);
        if p in marked {
          marked := marked - {p};
        } else {
          blocks := blocks[head := SetBit(blocks[head], atomIdx, true)];
        }
      }
      SweptAll(b0, blocks[head], head, m0, numObjects);
    }

    /** freeChain: sweeps the blocks of one list. */
    method FreeChain(first: int, ghost list: seq<int>, ghost b0: map<int, Block>, ghost m0: set<int>, ghost done: set<int>)
      requires BL.Chained(blocks, first, list) && SweptBlocks(b0, blocks, m0, done) && MarksLeft(b0, m0, marked, done)
      requires forall b :: b in list ==> b !in done
      modifies this`blocks, this`marked
      ensures SweptBlocks(b0, blocks, m0, done + Elems(list)) && MarksLeft(b0, m0, marked, done + Elems(list))
      ensures BL.SameShape(old(blocks), blocks)
    {
      hide BlockOk, Swept, Cleared, BL.Chained, SweptBlocks, MarksLeft, BL.SameShape, ForPointer;
      var head := first;
      ghost var i := 0;
      ChainStart(blocks, first, list, done);
      while head != 0
        invariant 0 <= i <= |list| && head == (if i < |list| then list[i] else 0)
        invariant SweptBlocks(b0, blocks, m0, done + Elems(list[..i])) && MarksLeft(b0, m0, marked, done + Elems(list[..i]))
        invariant BL.SameShape(old(blocks), blocks)
        decreases |list| - i
      {
        ghost var b, m := blocks, marked;
        ChainAt(old(blocks), blocks, first, list, i);
        NotSwept(b0, blocks, m0, done, list, first, old(blocks), i);
        SweepBlock(head);
        SweepStep(b0, b, blocks, m0, m, marked, done + Elems(list[..i]), head);
        OneMore(list, i, done);
        StillShaped(old(blocks), b, blocks, head, m);
        head := blocks[head].next;
        i := i + 1;
      }
      assert list[..|list|] == list;
    }

    /** The buckets' part of freeUnmarked. */
    method FreeUnmarkedSmall()
      requires Valid()
      modifies this`blocks, this`marked
      ensures SweptBlocks(old(blocks), blocks, old(marked), old(blocks).Keys) && BL.Buckets(blocks, heads, fullHeads, orders)
      ensures MarksLeft(old(blocks), old(marked), marked, old(blocks).Keys)
    {
      hide BlockOk, Swept, Cleared, BL.Chained, SweptBlocks, MarksLeft, BL.SameShape, ForPointer, BL.Bucket,
        BL.Buckets, DoneBelow;
      ghost var b0, m0, done := blocks, marked, {};
      NothingSwept(H(), smallEnd, largeEnd, marked);
      for bidx := 0 to NUM_BUCKETS
        invariant SweptBlocks(b0, blocks, m0, done) && MarksLeft(b0, m0, marked, done) && DoneBelow(b0, done, bidx)
        invariant BL.Buckets(blocks, heads, fullHeads, orders)
      {
        BucketCount(blocks, heads, fullHeads, orders);
        ghost var h, f := orders.hs[bidx], orders.fs[bidx];
        NextBucket(b0, blocks, m0, done, heads, fullHeads, orders, bidx);
        ghost var b1 := blocks;
        FreeChain(heads[bidx], h, b0, m0, done);
        BL.SameShapeBuckets(b1, blocks, heads, fullHeads, orders);
        SecondList(blocks, heads, fullHeads, orders, done, bidx);
        ghost var b2 := blocks;
        FreeChain(fullHeads[bidx], f, b0, m0, done + Elems(h));
        BL.SameShapeBuckets(b2, blocks, heads, fullHeads, orders);
        BucketDone(b0, blocks, heads, fullHeads, orders, m0, done, done + Elems(h) + Elems(f), bidx);
        done := done + Elems(h) + Elems(f);
      }
      AllDone(b0, blocks, m0, smallEnd, done);
    }

    /** _freeLargeObj: the two unlinking stores, and the pages go back. */
    method FreeLargeObj(lobj: int)
      requires LO.Unlinkable(large, lobj)
      modifies this`large
      ensures large == Unlinked(old(large), lobj)
    {
      large := LO.Unlink(large, lobj);
      large := large.(objs := large.objs - {lobj});
    }

    /** The large objects' part of freeUnmarked. An object to be freed is unlinked here and again
        by _freeLargeObj. */
    method FreeUnmarkedLarge()
      requires LO.Linked(large, order) && (forall a :: a in large.objs ==> a in order) && LO.Placed(large.objs, largeEnd)
      modifies this`large, this`marked, this`order
      ensures LO.Linked(large, order) && (forall a :: a in large.objs ==> a in order) && LO.Placed(large.objs, largeEnd)
      ensures forall a :: a in large.objs <==> a in old(large).objs && a + LO.LARGE_HEADER in old(marked)
      ensures forall p :: p in marked <==> p in old(marked) && p - LO.LARGE_HEADER !in old(large).objs
    {
      hide LO.Linked, LO.Placed, LO.Unlinkable, LO.Unlink, LargeSwept;
      ghost var l0, m0, all := large, marked, order;
      ghost var kept, rest := [], order;
      LargeStart(large, order, marked);
      var cur := large.head;
      while cur != 0
        invariant LO.Linked(large, kept + rest) && cur == LO.FirstOf(rest) && LO.Placed(large.objs, largeEnd)
        invariant LargeSwept(l0, large, m0, marked, kept, rest)
        decreases |rest|
      {
        LargeNext(large, kept, rest, cur);
        ghost var l, m := large, marked;
        var p := cur + LO.LARGE_HEADER;
        LargeDecides(l0, large, m0, marked, kept, rest);
        if p in marked {
          marked := marked - {p};
          LargeKeep(l0, l, m0, m, kept, rest);
          cur := large.objs[cur].next;
          kept := kept + [rest[0]];
        } else {
          LO.UnlinkTwice(large, cur);
          LargeDrop(l0, l, m0, m, kept, rest, largeEnd);
          large := LO.Unlink(large, cur);
          var toFree := cur;
          cur := large.objs[cur].next;
          FreeLargeObj(toFree);
        }
        rest := rest[1..];
      }
      order := kept;
      LargeEnd(l0, large, m0, marked, kept, rest);
    }

    /** freeUnmarked: exactly the marked objects stay allocated, and every mark is cleared. */
    method FreeUnmarked()
      requires Valid()
      modifies this`blocks, this`large, this`marked, this`order
      ensures Quiet() && forall p :: Live(H(), p) <==> Live(old(H()), p) && p in old(marked)
      ensures blocks.Keys == old(blocks).Keys
    {
      hide BL.Buckets, SweptBlocks, MarksLeft, BL.Arena, LO.Placed, LO.Linked, Live;
      FreeUnmarkedSmall();
      ghost var h, m := H(), marked;
      SmallSwept(old(H()), h, smallEnd, largeEnd, old(marked), m);
      FreeUnmarkedLarge();
      AllSwept(old(H()), h, H(), smallEnd, largeEnd, old(marked), m, marked);
    }

    /** runCollection keeps exactly the objects reachable from the roots, and ends as it began:
        with no mark set. */
    method RunCollection(w: World)
      requires Quiet() && Sound(H(), w)
      modifies this`blocks, this`large, this`marked, this`order
      ensures Quiet() && forall p :: Live(H(), p) <==> Live(old(H()), p) && Reachable(old(H()), w, p)
      ensures blocks.Keys == old(blocks).Keys
    {
      hide Live, Reachable, Sound, BL.Buckets, Sane;
      MarkPhase(w);
      FreeUnmarked();
    }

    // ---- allocation -------------------------------------------------------------------------

    /** A failed scan moves the list's head to the full list. */
    method RetireHead(bucket: nat)
      requires Valid() && bucket < |heads| == |orders.hs| == NUM_BUCKETS && heads[bucket] != 0 && heads[bucket] in blocks
      modifies this`blocks, this`heads, this`fullHeads, this`orders
      ensures Valid() && blocks.Keys == old(blocks).Keys && forall p :: Live(H(), p) <==> Live(old(H()), p)
      ensures |orders.hs| == |heads| == NUM_BUCKETS && old(|orders.hs[bucket]|) == |orders.hs[bucket]| + 1
    {
      hide BL.Arena, BL.Buckets, LO.Linked, LO.Placed, Live;
      BucketCount(blocks, heads, fullHeads, orders);
      var cur := heads[bucket];
      ghost var h0, heads0, fulls0, o0 := H(), heads, fullHeads, orders;
      RetireValid(blocks, heads, fullHeads, orders, bucket);
      SameFreeLive(h0, h0.(blocks := BL.Retire(blocks, cur, fullHeads[bucket], bucket)), smallEnd);
      RetireKeeps(blocks, cur, fullHeads[bucket], bucket);
      var t := blocks[cur].next;
      heads := heads[bucket := t];
      if t != 0 {
        RetireNext(h0.blocks, heads0, fulls0, o0, bucket);
        blocks := blocks[t := blocks[t].(prev := Heads(bucket))];
      }
      blocks := blocks[cur := blocks[cur].(prev := FullHeads(bucket), next := fullHeads[bucket])];
      fullHeads := fullHeads[bucket := cur];
      orders := BL.Orders(orders.hs[bucket := orders.hs[bucket][1..]], orders.fs[bucket := [cur] + orders.fs[bucket]]);
    }

    /** An empty list gets a new block, followed by all the full ones. */
    method Refill(bucket: nat) returns (cur: int)
      requires Valid() && bucket < |heads| == NUM_BUCKETS && heads[bucket] == 0 && smallEnd + BLOCK_SIZE <= LO.LARGE_START
      modifies this`blocks, this`heads, this`fullHeads, this`orders, this`smallEnd
      ensures Valid() && smallEnd == old(smallEnd) + BLOCK_SIZE && old(blocks).Keys <= blocks.Keys
      ensures |heads| == |orders.hs| == NUM_BUCKETS && heads[bucket] == cur && cur in blocks && AllFree(blocks[cur]) && blocks[cur].size == SIZES[bucket]
      ensures forall p :: Live(H(), p) <==> Live(old(H()), p)
    {
      hide BL.Arena, BL.Buckets, LO.Linked, LO.Placed, Live, AllFree;
      ghost var h0 := H();
      BucketCount(blocks, heads, fullHeads, orders);
      SizeOfBucket(bucket);
      var next := AllocBlock(SIZES[bucket], NextOf(0));
      RefillValid(h0.blocks, heads, fullHeads, orders, bucket, next, blocks[next]);
      AddFreeLive(h0, next, blocks[next].(next := fullHeads[bucket], prev := Heads(bucket)), smallEnd, H());
      heads := heads[bucket := next];
      blocks := blocks[next := blocks[next].(prev := Heads(bucket))];
      blocks := blocks[next := blocks[next].(next := fullHeads[bucket])];
      fullHeads := fullHeads[bucket := 0];
      orders := BL.Orders(orders.hs[bucket := [next] + orders.fs[bucket]], orders.fs[bucket := []]);
      assert blocks == h0.blocks[next := blocks[next]];
      return next;
    }

    /** Takes the free slot at an atom of a block. */
    method Take(cur: int, idx: nat) returns (r: int)
      requires Valid() && cur in blocks && idx < ATOMS_PER_BLOCK && BlockOk(blocks[cur]) && Bit(blocks[cur], idx)
      modifies this`blocks
      ensures Valid() && blocks.Keys == old(blocks).Keys && r == cur + idx * ATOM_SIZE
      ensures ForPointer(r) == cur && blocks[cur].size == old(blocks)[cur].size && SmallLive(H(), r) && !Live(old(H()), r)
      ensures forall p :: Live(H(), p) <==> Live(old(H()), p) || p == r
    {
      hide BL.Arena, BL.Buckets, LO.Linked, LO.Placed, Live, BlockOk;
      var b := blocks[cur];
      BlockShaped(b);
      TakeLive(H(), smallEnd, largeEnd, cur, idx);
      BL.SameShapeBuckets(blocks, blocks[cur := SetBit(b, idx, false)], heads, fullHeads, orders);
      blocks := blocks[cur := SetBit(b, idx, !Bit(b, idx))];
      return cur + idx * ATOM_SIZE;
    }

    /** _collectIfNeeded. */
    method CollectIfNeeded(bytes: nat, w: World)
      requires Quiet() && Sound(H(), w)
      modifies this`blocks, this`large, this`marked, this`order, this`bytesSince
      ensures Quiet() && blocks.Keys == old(blocks).Keys
      ensures bytesSince == ((if old(bytesSince) >= ALLOCBYTES_PER_COLLECTION then 0 else old(bytesSince)) + bytes) % 0x1_0000_0000
      ensures forall p :: Live(H(), p) <==> Kept(old(H()), w, old(bytesSince) >= ALLOCBYTES_PER_COLLECTION, p)
    {
      hide Live, Reachable, BL.Buckets, Sane, Sound;
      if bytesSince >= ALLOCBYTES_PER_COLLECTION {
        bytesSince := 0;
        RunCollection(w);
      }
      bytesSince := (bytesSince + bytes) % 0x1_0000_0000;
    }

    /** allocSmall: terminates, loses no block, and allocates one slot that nothing still allocated
        occupies. */
    method AllocSmall(bucket: nat, w: World) returns (r: int)
      requires Quiet() && Sound(H(), w) && bucket < NUM_BUCKETS && smallEnd + BLOCK_SIZE <= LO.LARGE_START
      modifies this
      ensures Quiet() && old(blocks).Keys <= blocks.Keys && smallEnd <= old(smallEnd) + BLOCK_SIZE
      ensures SmallLive(H(), r) && blocks[ForPointer(r)].size == SIZES[bucket]
      ensures !Kept(old(H()), w, old(bytesSince) >= ALLOCBYTES_PER_COLLECTION, r)
      ensures forall p :: Live(H(), p) <==> p == r || Kept(old(H()), w, old(bytesSince) >= ALLOCBYTES_PER_COLLECTION, p)
    {
      hide Live, Kept, BL.Buckets, Sane, Sound, AllFree, SmallLive, BlockOk;
      CollectIfNeeded(SIZES[bucket], w);
      ghost var h1 := H();
      BucketCount(blocks, heads, fullHeads, orders);
      var cur := heads[bucket];
      while true
        invariant Quiet() && |heads| == |orders.hs| == NUM_BUCKETS && cur == heads[bucket]
        invariant smallEnd == old(smallEnd) && old(blocks).Keys <= blocks.Keys
        invariant forall p :: Live(H(), p) <==> Live(h1, p)
        decreases |orders.hs[bucket]|
      {
        HeadInBucket(blocks, heads, fullHeads, orders, smallEnd, largeEnd, large.objs, bucket);
        ghost var isNew := cur == 0;
        if cur == 0 {
          cur := Refill(bucket);
          NewHasBit(blocks[cur]);
        }
        BlockShaped(blocks[cur]);
        var found := FirstFree(blocks[cur]);
        if found.Some? {
          r := Take(cur, found.value);
          return;
        }
        assert !isNew;
        RetireHead(bucket);
        BucketCount(blocks, heads, fullHeads, orders);
        cur := heads[bucket];
      }
    }

    /** allocLarge: whole pages at the end of the large arena, in front of the list. */
    method AllocLarge(size: nat, w: World) returns (r: int)
      requires Quiet() && Sound(H(), w)
      modifies this
      ensures Quiet() && LargeLive(H(), r) && large.objs[r - LO.LARGE_HEADER].objSize == size
      ensures Offers(H(), r, size) && FoundWithin(H(), r, size)
      ensures !Kept(old(H()), w, old(bytesSince) >= ALLOCBYTES_PER_COLLECTION, r) && smallEnd == old(smallEnd)
      ensures forall p :: Live(H(), p) <==> p == r || Kept(old(H()), w, old(bytesSince) >= ALLOCBYTES_PER_COLLECTION, p)
    {
      hide Live, Kept, BL.Buckets, BL.Arena, Sound, LO.Placed, LO.Linked, LO.Push;
      CollectIfNeeded(size, w);
      ghost var h1, end := H(), largeEnd;
      PushLive(h1, smallEnd, largeEnd, large, order, size);
      var rtn := largeEnd;
      largeEnd := largeEnd + LO.MmapSize(size);
      large := LO.Push(large, rtn, size);
      order := [rtn] + order;
      LargeOffers(H(), rtn + LO.LARGE_HEADER, size);
      return rtn + LO.LARGE_HEADER;
    }

    /** alloc: 16 bytes have a bucket of their own, everything else up to 32 shares the next, and
        from there on the first size that fits. */
    method Alloc(bytes: nat, w: World) returns (r: int)
      requires Quiet() && Sound(H(), w) && smallEnd + BLOCK_SIZE <= LO.LARGE_START
      modifies this
      ensures Quiet() && !Kept(old(H()), w, old(bytesSince) >= ALLOCBYTES_PER_COLLECTION, r)
      ensures forall p :: Live(H(), p) <==> p == r || Kept(old(H()), w, old(bytesSince) >= ALLOCBYTES_PER_COLLECTION, p)
      ensures bytes <= 2048 ==> SmallLive(H(), r) && Fits(blocks[ForPointer(r)].size, bytes)
      ensures bytes > 2048 ==> LargeLive(H(), r) && large.objs[r - LO.LARGE_HEADER].objSize == bytes
      ensures Offers(H(), r, bytes) && FoundWithin(H(), r, bytes)
    {
      hide Live, Kept, BL.Buckets, Sane, Sound, SmallLive, LargeLive, Offers, FoundWithin, LO.Linked, LO.MmapSize, BL.Arena;
      if bytes == 16 {
        r := AllocSmall(0, w);
        SmallOffers(H(), r, bytes);
        return;
      }
      if bytes <= 32 {
        r := AllocSmall(1, w);
        SmallOffers(H(), r, bytes);
        return;
      }
      if bytes > SIZES[NUM_BUCKETS - 1] {
        r := AllocLarge(bytes, w);
        return;
      }
      var i := 2;
      while SIZES[i] < bytes
        invariant 2 <= i < NUM_BUCKETS && SIZES[i - 1] < bytes <= SIZES[NUM_BUCKETS - 1]
        invariant Quiet() && H() == old(H()) && bytesSince == old(bytesSince) && smallEnd == old(smallEnd)
        decreases NUM_BUCKETS - i
      {
        i := i + 1;
      }
      r := AllocSmall(i, w);
      FirstFit(i, bytes);
      SmallOffers(H(), r, bytes);
    }

    /** _freeFrom. */
    method FreeFrom(p: int, b: int)
      requires Quiet() && SmallLive(H(), p) && b == ForPointer(p)
      modifies this`blocks
      ensures Quiet() && forall q :: Live(H(), q) <==> Live(old(H()), q) && q != p
      ensures SameSizes(old(H()), H())
    {
      hide BL.Arena, BL.Buckets, LO.Linked, LO.Placed, Live, SmallLive, BlockOk, SameSizes;
      ghost var h := H();
      FreedLive(h, smallEnd, largeEnd, p);
      var offset := p - b;
      var atomIdx := offset / ATOM_SIZE;
      BL.SameShapeBuckets(blocks, blocks[b := SetBit(blocks[b], atomIdx, true)], heads, fullHeads, orders);
      blocks := blocks[b := SetBit(blocks[b], atomIdx, !Bit(blocks[b], atomIdx))];
    }

    /** _freeLargeObj for an object that is not being swept. */
    method FreeLarge(p: int)
      requires Quiet() && LargeLive(H(), p)
      modifies this`large, this`order
      ensures Quiet() && forall q :: Live(H(), q) <==> Live(old(H()), q) && q != p
      ensures SameSizes(old(H()), H())
    {
      hide BL.Arena, BL.Buckets, LO.Linked, LO.Placed, Live, LO.Unlinkable, LO.Unlink, SameSizes;
      ghost var k :| 0 <= k < |order| && order[k] == p - LO.LARGE_HEADER;
      UnlinkedLive(H(), smallEnd, largeEnd, large, order, k);
      FreeLargeObj(p - LO.LARGE_HEADER);
      order := order[..k] + order[k + 1..];
    }

    /** free. */
    method Free(p: int)
      requires Quiet() && Live(H(), p)
      modifies this`blocks, this`large, this`order
      ensures Quiet() && forall q :: Live(H(), q) <==> Live(old(H()), q) && q != p
    {
      hide BL.Buckets, Sane, SmallLive, LargeLive, LO.Linked;
      WhichArena(H(), smallEnd, largeEnd, p);
      if LO.LARGE_START <= p < largeEnd {
        FreeLarge(p);
      } else {
        FreeFrom(p, ForPointer(p));
      }
    }

    /** realloc of an object the caller can reach: it stays in place, with its recorded size as it
        was, when the new size is within what it has and more than half of it; otherwise it moves. */
    method Realloc(p: int, bytes: nat, w: World) returns (r: int)
      requires Quiet() && Sound(H(), w) && smallEnd + BLOCK_SIZE <= LO.LARGE_START && Live(H(), p) && Reachable(H(), w, p)
      modifies this
      ensures Quiet() && (r == p <==> bytes <= Room(old(H()), p) < bytes * 2)
      ensures r == p ==> H() == old(H()) && bytesSince == old(bytesSince)
      ensures r != p ==> !Kept(old(H()), w, old(bytesSince) >= ALLOCBYTES_PER_COLLECTION, r)
      ensures r != p ==> forall q :: Live(H(), q) <==>
        q == r || (q != p && Kept(old(H()), w, old(bytesSince) >= ALLOCBYTES_PER_COLLECTION, q))
      ensures r != p && bytes <= 2048 ==> SmallLive(H(), r) && Fits(blocks[ForPointer(r)].size, bytes)
      ensures r != p && bytes > 2048 ==> LargeLive(H(), r) && large.objs[r - LO.LARGE_HEADER].objSize == bytes
      ensures Offers(H(), r, bytes)
      ensures FoundWithin(H(), r, bytes) <==> !Outgrows(old(H()), p, bytes)
    {
      hide BL.Buckets, Sane, SmallLive, LargeLive, LO.Linked, Reachable, Sound, Live, LO.MmapSize, SameSizes, Fits,
        Offers, FoundWithin, Outgrows;
      WhichArena(H(), smallEnd, largeEnd, p);
      RoomIsOffered(H(), smallEnd, largeEnd, p, bytes);
      if LO.LARGE_START <= p < largeEnd {
        LargeKnown(H(), p);
        var capacity := LO.Capacity(large.objs[p - LO.LARGE_HEADER].objSize);
        if capacity >= bytes && capacity < bytes * 2 { return p; }
        r := Alloc(bytes, w);
        WhichArena(H(), smallEnd, largeEnd, p);
        ghost var h := H();
        FreeLarge(p);
        StillThere(h, H(), smallEnd, largeEnd, r);
        StillOffers(H(), r, bytes);
      } else {
        SmallKnown(H(), p);
        var b := ForPointer(p);
        var size := blocks[b].size;
        if size >= bytes && size < bytes * 2 { return p; }
        r := Alloc(bytes, w);
        WhichArena(H(), smallEnd, largeEnd, p);
        ghost var h := H();
        FreeFrom(p, b);
        StillThere(h, H(), smallEnd, largeEnd, r);
        StillOffers(H(), r, bytes);
      }
    }
  }

  // ---- lookup ---------------------------------------------------------------------------------

  lemma LookupUnique(h: View, smallEnd: int, largeEnd: int, q: int, x: int)
    requires Sane(h, smallEnd, largeEnd) && Inside(h, q, x)
    ensures Lookup(h, x) == q
  {
    var r := Lookup(h, x);
    assert Inside(h, r, x);
    InsideOne(h, smallEnd, largeEnd, q, r, x);
  }

  lemma LargeFound(h: View, smallEnd: int, largeEnd: int, a: int, x: int)
    requires Sane(h, smallEnd, largeEnd) && a in h.objs && LO.Covers(h.objs, a, x)
    ensures Inside(h, a + LO.LARGE_HEADER, x) && Lookup(h, x) == a + LO.LARGE_HEADER && a + LO.LARGE_HEADER != 0
  {
    assert (a + LO.LARGE_HEADER) - LO.LARGE_HEADER == a;
    LookupUnique(h, smallEnd, largeEnd, a + LO.LARGE_HEADER, x);
  }

  lemma NoneFound(h: View, smallEnd: int, largeEnd: int, order: seq<int>, x: int)
    requires Sane(h, smallEnd, largeEnd) && LO.LARGE_START <= x
    requires forall a :: a in h.objs ==> a in order
    requires forall j :: 0 <= j < |order| ==> order[j] in h.objs && !LO.Covers(h.objs, order[j], x)
    ensures (forall q :: !Inside(h, q, x)) && Lookup(h, x) == 0
  {
    hide AllocatedAt, Shaped, BlockOk;
    forall q ensures !Inside(h, q, x) {
      if SmallLive(h, q) { SmallLiveWithin(h, smallEnd, q); }
      if LargeLive(h, q) { assert q - LO.LARGE_HEADER in order; }
    }
  }

  lemma OutsideArenas(h: View, smallEnd: int, largeEnd: int, x: int)
    requires Sane(h, smallEnd, largeEnd) && !(LO.LARGE_START <= x < largeEnd) && !(BL.SMALL_START <= x < smallEnd)
    ensures (forall q :: !Inside(h, q, x)) && Lookup(h, x) == 0
  {
    hide AllocatedAt, Shaped, BlockOk;
    forall q ensures !Inside(h, q, x) {
      if SmallLive(h, q) { SmallLiveWithin(h, smallEnd, q); }
      if LargeLive(h, q) { assert h.objs[q - LO.LARGE_HEADER] == h.objs[q - LO.LARGE_HEADER]; }
    }
  }

  lemma InArena(blocks: map<int, Block>, smallEnd: int, p: int)
    requires BL.Arena(blocks, smallEnd) && BL.SMALL_START <= p < smallEnd
    ensures ForPointer(p) in blocks && BlockOk(blocks[ForPointer(p)]) && ForPointer(p) > 0
  {
    Whole(p);
    Below(p, smallEnd);
  }

  lemma Whole(p: int)
    requires p >= BL.SMALL_START
    ensures ForPointer(p) % BLOCK_SIZE == 0 && BL.SMALL_START <= ForPointer(p) <= p < ForPointer(p) + BLOCK_SIZE
  {}

  lemma Below(p: int, end: int)
    requires p < end && end % BLOCK_SIZE == 0
    ensures ForPointer(p) < end && ForPointer(p) + BLOCK_SIZE <= end
  {}

  /** In the small arena, the index arithmetic agrees with searching all allocations. */
  lemma SmallLookup(h: View, smallEnd: int, largeEnd: int, x: int)
    requires Sane(h, smallEnd, largeEnd) && BL.SMALL_START <= x < smallEnd
    ensures ForPointer(x) in h.blocks && BlockOk(h.blocks[ForPointer(x)])
    ensures match LookupOffset(h.blocks[ForPointer(x)], x % BLOCK_SIZE)
      case None => (forall q :: !Inside(h, q, x)) && Lookup(h, x) == 0
      case Some(o) => Inside(h, ForPointer(x) + o, x) && Lookup(h, x) == ForPointer(x) + o && ForPointer(x) + o != 0
  {
    InArena(h.blocks, smallEnd, x);
    var base, off := ForPointer(x), x % BLOCK_SIZE;
    var b := h.blocks[base];
    match LookupOffset(b, off) {
      case None =>
        forall q ensures !Inside(h, q, x) {
          NoneSmall(h, smallEnd, largeEnd, q, x);
        }
      case Some(o) =>
        LookupIsSearch(b, off, o);
        AllocatedWithin(b, o);
        OffsetBack(base, o);
        LookupUnique(h, smallEnd, largeEnd, base + o, x);
    }
  }

  lemma OffsetBack(base: int, o: nat)
    requires base % 4096 == 0 && o < 4096
    ensures ForPointer(base + o) == base && (base + o) % BLOCK_SIZE == o
  {}

  lemma NoneSmall(h: View, smallEnd: int, largeEnd: int, q: int, x: int)
    requires Sane(h, smallEnd, largeEnd) && BL.SMALL_START <= x < smallEnd
    requires ForPointer(x) in h.blocks && BlockOk(h.blocks[ForPointer(x)]) && LookupOffset(h.blocks[ForPointer(x)], x % BLOCK_SIZE).None?
    ensures !Inside(h, q, x)
  {
    if LargeLive(h, q) { assert h.objs[q - LO.LARGE_HEADER] == h.objs[q - LO.LARGE_HEADER]; }
    if SmallLive(h, q) {
      SmallLiveWithin(h, smallEnd, q);
      LookupIsSearch(h.blocks[ForPointer(x)], x % BLOCK_SIZE, q % BLOCK_SIZE);
      if ForPointer(q) != ForPointer(x) { PagesApart(ForPointer(q), ForPointer(x)); }
    }
  }

  // ---- new blocks -----------------------------------------------------------------------------

  ghost predicate AllFree(b: Block) {
    BlockOk(b) && forall o: nat {:trigger AllocatedAt(b, o)} :: !AllocatedAt(b, o)
  }

  /** Exactly the slots below k are free. */
  ghost predicate FreeBelow(b: Block, k: nat)
    requires Shaped(b)
  {
    b.size >= 16 && forall a: nat {:trigger Bit(b, a)} :: a < ATOMS_PER_BLOCK ==>
      (Bit(b, a) <==> IsObjectAtom(b.size, a) && a / AtomsPerObj(b.size) < k)
  }

  lemma FreeBelowNone(b: Block)
    requires IsSize(b.size) && b.isfree == seq(4, _ => seq(64, _ => false))
    ensures Shaped(b) && FreeBelow(b, MinObjIndex(b.size))
  {}

  lemma SizePositive(size: nat)
    requires IsSize(size)
    ensures size >= 16 && AtomsPerObj(size) >= 1
  {}

  lemma SlotInRange(size: nat, k: nat)
    requires IsSize(size) && MinObjIndex(size) <= k && k * AtomsPerObj(size) < NumObjects(size) * AtomsPerObj(size)
    ensures k < NumObjects(size) && k * AtomsPerObj(size) < ATOMS_PER_BLOCK
  {
    if NumObjects(size) < k { MulLess(NumObjects(size), k, AtomsPerObj(size)); }
    SlotOf(size, k);
  }

  lemma FreeNext(b: Block, k: nat)
    requires Shaped(b) && FreeBelow(b, k) && MinObjIndex(b.size) <= k < NumObjects(b.size) && k * AtomsPerObj(b.size) < ATOMS_PER_BLOCK
    ensures var c := SetBit(b, k * AtomsPerObj(b.size), !Bit(b, k * AtomsPerObj(b.size))); Shaped(c) && FreeBelow(c, k + 1)
  {
    var at := k * AtomsPerObj(b.size);
    var c := SetBit(b, at, !Bit(b, at));
    SlotAtom(b.size, k);
    MulDiv(k, AtomsPerObj(b.size));
    hide MinObjIndex, NumObjects, IsSize;
    SetBitBits(b, at, !Bit(b, at));
    assert !Bit(b, at);
    hide SetBit, Bit, Shaped, MinObjIndex, NumObjects, IsSize, IsObjectAtom, FreeBelow;
    assert c.size == b.size by { SetBitSize(b, at, !Bit(b, at)); }
    forall a: nat | a < ATOMS_PER_BLOCK ensures Bit(c, a) <==> IsObjectAtom(b.size, a) && a / AtomsPerObj(b.size) < k + 1 {
      FreeNextAt(b, k, a);
    }
    assert FreeBelow(c, k + 1) by { FreeBelowFrom(c, k + 1); }
  }

  lemma SetBitSize(b: Block, at: nat, free: bool)
    requires Shaped(b) && at < ATOMS_PER_BLOCK
    ensures SetBit(b, at, free).size == b.size
  {}

  lemma FreeBelowFrom(b: Block, k: nat)
    requires Shaped(b)
    requires forall a: nat :: a < ATOMS_PER_BLOCK ==> (Bit(b, a) <==> b.size >= 16 && IsObjectAtom(b.size, a) && a / AtomsPerObj(b.size) < k)
    ensures FreeBelow(b, k)
  {}

  lemma FreeNextAt(b: Block, k: nat, a: nat)
    requires Shaped(b) && FreeBelow(b, k) && a < ATOMS_PER_BLOCK && IsObjectAtom(b.size, k * AtomsPerObj(b.size))
    requires (k * AtomsPerObj(b.size)) / AtomsPerObj(b.size) == k
    ensures b.size >= 16 && ((a == k * AtomsPerObj(b.size) || Bit(b, a)) <==> IsObjectAtom(b.size, a) && a / AtomsPerObj(b.size) < k + 1)
  {
    hide Bit, MinObjIndex, NumObjects, Shaped;
    if IsObjectAtom(b.size, a) { DivMul(a, AtomsPerObj(b.size)); }
  }

  lemma NextSlot(k: nat, apo: nat)
    requires k > 0
    ensures (k - 1) * apo + apo == k * apo
  {}

  lemma BelowIsAll(k: nat, num: nat, apo: nat)
    requires k <= num && k * apo >= num * apo && apo > 0
    ensures k == num
  {
    if k < num { MulLess(k, num, apo); }
  }

  lemma FreshBlock(b: Block)
    requires Shaped(b) && FreeBelow(b, NumObjects(b.size))
    ensures AllFree(b)
  {
    forall o: nat ensures !AllocatedAt(b, o) {
      if o < BLOCK_SIZE && o % b.size == 0 && MinObjIndex(b.size) <= o / b.size < NumObjects(b.size) {
        hide Bit, Shaped, MinObjIndex, NumObjects, IsSize;
        DivMul(o, b.size);
        SlotOf(b.size, o / b.size);
        MulDiv(o / b.size, AtomsPerObj(b.size));
      }
    }
  }

  lemma AddedBlockSane(h: View, smallEnd: int, largeEnd: int, b: Block)
    requires Sane(h, smallEnd, largeEnd) && BlockOk(b) && smallEnd + BLOCK_SIZE <= LO.LARGE_START
    ensures smallEnd !in h.blocks && Sane(h.(blocks := h.blocks[smallEnd := b]), smallEnd + BLOCK_SIZE, largeEnd)
  {
    hide BlockOk;
    forall p ensures (p in h.blocks[smallEnd := b]) <==> (BL.SMALL_START <= p < smallEnd + BLOCK_SIZE && p % BLOCK_SIZE == 0) {
      if p % BLOCK_SIZE == 0 && p != smallEnd { PagesApart(p, smallEnd); }
    }
  }

  lemma WordBits(b: Block, i: nat, first: nat)
    requires Shaped(b) && i < 4 && first < 64 && b.isfree[i][first]
    requires forall a: nat :: a < 64 * i ==> !Bit(b, a)
    requires forall c :: 0 <= c < first ==> !b.isfree[i][c]
    ensures first + i * 64 < ATOMS_PER_BLOCK && Bit(b, first + i * 64)
    ensures forall a: nat :: a < first + i * 64 ==> !Bit(b, a)
  {
    forall a: nat | 64 * i <= a < first + i * 64 ensures !Bit(b, a) {
      assert a / 64 == i && a % 64 == a - 64 * i;
    }
  }

  lemma WordClear(b: Block, i: nat)
    requires Shaped(b) && i < 4 && true !in b.isfree[i]
    requires forall a: nat :: a < 64 * i ==> !Bit(b, a)
    ensures forall a: nat :: a < 64 * (i + 1) ==> !Bit(b, a)
  {
    forall a: nat | 64 * i <= a < 64 * (i + 1) ensures !Bit(b, a) {
      assert a / 64 == i && a % 64 == a - 64 * i;
      assert b.isfree[i][a % 64] in b.isfree[i];
    }
  }

  // ---- marking --------------------------------------------------------------------------------

  lemma OnlyInside(h: View, smallEnd: int, largeEnd: int, a: int, x: int)
    requires Sane(h, smallEnd, largeEnd) && Inside(h, a, x)
    ensures forall q :: Inside(h, q, x) <==> q == a
  {
    hide Inside, Sane;
    forall q | Inside(h, q, x) ensures q == a { InsideOne(h, smallEnd, largeEnd, q, a, x); }
  }

  /** While marking: everything seen is reachable, and everything a seen object or a root refers
      to is marked or waits on the stack. */
  ghost predicate MarkInv(h: View, w: World, marked: set<int>, v: seq<int>) {
    && (forall q {:trigger q in v} :: q in v ==> Live(h, q) && Reachable(h, w, q))
    && (forall q {:trigger q in marked} :: q in marked ==> Live(h, q) && Reachable(h, w, q))
    && (forall q {:trigger Rooted(h, w, q)} :: Rooted(h, w, q) ==> q in marked || q in v)
    && (forall p, q {:trigger Refers(h, w, p, q)} :: p in marked && Refers(h, w, p, q) ==> q in marked || q in v)
  }

  lemma RootsPushed(h: View, w: World, v: seq<int>)
    requires Sound(h, w)
    requires forall q :: q in v <==> q in w.statics || exists i :: 0 <= i < |w.stack| && Inside(h, q, w.stack[i])
    ensures MarkInv(h, w, {}, v)
  {
    hide Inside, Live, Reachable, Sound;
    forall q | q in v ensures Live(h, q) && Reachable(h, w, q) {
      assert Rooted(h, w, q);
      RootedLive(h, w, q);
      RootReachable(h, w, q);
    }
  }

  lemma PoppedLive(h: View, w: World, smallEnd: int, largeEnd: int, marked: set<int>, v: seq<int>)
    requires Sane(h, smallEnd, largeEnd) && MarkInv(h, w, marked, v)
    ensures v != [] ==> v[|v| - 1] > 0 && Live(h, v[|v| - 1])
  {
    hide Live, Reachable, Sane, Refers, Rooted;
    if v != [] {
      assert v[|v| - 1] in v;
      LiveNotNull(h, smallEnd, largeEnd, v[|v| - 1]);
    }
  }

  lemma SplitLast(v: seq<int>, q: int)
    requires v != []
    ensures q in v <==> q in v[..|v| - 1] || q == v[|v| - 1]
  {
    assert v == v[..|v| - 1] + [v[|v| - 1]];
  }

  lemma MarkSkip(h: View, w: World, marked: set<int>, v: seq<int>)
    requires MarkInv(h, w, marked, v) && v != [] && v[|v| - 1] in marked
    ensures MarkInv(h, w, marked, v[..|v| - 1])
  {
    hide Live, Reachable, Refers, Rooted;
    var rest := v[..|v| - 1];
    forall q ensures q in v <==> q in rest || q == v[|v| - 1] { SplitLast(v, q); }
  }

  /** An object's references are what its handler reports, nothing for untracked kinds. */
  lemma Scanned(h: View, w: World, p: int)
    requires p in w.objects
    ensures forall q :: Refers(h, w, p, q) <==> w.objects[p].Handled? && PointsAny(h, w.objects[p].visits, q)
  {
    hide PointsAny;
  }

  lemma ObjectKnown(h: View, w: World, p: int)
    requires Sound(h, w) && Live(h, p)
    ensures p in w.objects
  {
    hide Live;
  }

  lemma MarkStep(h: View, w: World, marked: set<int>, v: seq<int>, next: seq<int>)
    requires MarkInv(h, w, marked, v) && Sound(h, w) && v != []
    requires forall q :: q in next <==> q in v[..|v| - 1] || Refers(h, w, v[|v| - 1], q)
    ensures MarkInv(h, w, marked + {v[|v| - 1]}, next)
  {
    hide Live, Reachable, Refers, Rooted, Sound;
    var rest, p := v[..|v| - 1], v[|v| - 1];
    forall q ensures q in v <==> q in rest || q == p { SplitLast(v, q); }
    assert p in v;
    forall q | q in next ensures Live(h, q) && Reachable(h, w, q) {
      if q !in rest {
        RefersLive(h, w, p, q);
        StepReachable(h, w, p, q);
      }
    }
  }

  lemma MarkedLess(h: View, smallEnd: int, largeEnd: int, marked: set<int>, p: int)
    requires Sane(h, smallEnd, largeEnd) && Live(h, p) && p !in marked
    ensures |LiveSet(h, smallEnd) - (marked + {p})| < |LiveSet(h, smallEnd) - marked|
  {
    LiveInSet(h, smallEnd, p);
    hide LiveSet, Live;
    var s := LiveSet(h, smallEnd);
    assert s - (marked + {p}) == s - marked - {p};
  }

  lemma MarkDone(h: View, w: World, marked: set<int>, v: seq<int>)
    requires MarkInv(h, w, marked, v) && v == []
    ensures forall p :: p in marked <==> Reachable(h, w, p)
  {
    hide Live, Reachable, Refers, Rooted;
    ClosedHoldsReachable(h, w, marked);
  }

  // ---- sweeping -------------------------------------------------------------------------------

  /** c is b after the sweep: its marked objects are allocated, nothing else is. */
  ghost predicate Swept(b: Block, c: Block, base: int, marked: set<int>) {
    SweptTo(b, c, base, marked, BLOCK_SIZE)
  }

  /** The slots below k have been swept. */
  ghost predicate SweptTo(b: Block, c: Block, base: int, marked: set<int>, k: nat) {
    && BlockOk(b) && BlockOk(c) && c.next == b.next && c.prev == b.prev && c.size == b.size
    && forall o: nat {:trigger AllocatedAt(c, o)} ::
         AllocatedAt(c, o) <==> AllocatedAt(b, o) && (o / b.size < k ==> base + o in marked)
  }

  /** The marks of the block's allocated objects below k are cleared, no other. */
  ghost predicate Cleared(b: Block, base: int, before: set<int>, after: set<int>, k: nat) {
    Shaped(b) && forall p {:trigger p in after} ::
      p in after <==> p in before && !(p >= base && AllocatedAt(b, p - base) && (p - base) / b.size < k)
  }

  lemma BlockSizePositive(b: Block)
    requires BlockOk(b)
    ensures IsSize(b.size) && b.size >= 16
  {}

  lemma SweptNone(b: Block, base: int, m: set<int>)
    requires BlockOk(b)
    ensures b.size > 0 && SweptTo(b, b, base, m, MinObjIndex(b.size)) && Cleared(b, base, m, m, MinObjIndex(b.size))
  {
    hide Bit;
  }

  lemma SlotFacts(b: Block, c: Block, base: int, m: set<int>, k: nat)
    requires SweptTo(b, c, base, m, k) && b.size > 0 && MinObjIndex(b.size) <= k < NumObjects(b.size)
    ensures Shaped(c) && c.size == b.size && k * AtomsPerObj(b.size) < ATOMS_PER_BLOCK
    ensures k * AtomsPerObj(b.size) == SlotAtomIndex(b.size, k)
  {
    SlotOf(b.size, k);
  }

  lemma SweepFree(b: Block, c: Block, base: int, m: set<int>, marked: set<int>, k: nat)
    requires SweptTo(b, c, base, m, k) && Cleared(b, base, m, marked, k) && b.size > 0 && MinObjIndex(b.size) <= k < NumObjects(b.size)
    requires SlotAtomIndex(b.size, k) < ATOMS_PER_BLOCK && Bit(c, SlotAtomIndex(b.size, k))
    ensures SweptTo(b, c, base, m, k + 1) && Cleared(b, base, m, marked, k + 1)
  {
    AllocatedSlot(c, k);
    SlotOf(b.size, k);
    assert !AllocatedAt(c, SlotOffset(b.size, k));
    OnlySlot(b, k);
    hide MinObjIndex, NumObjects, Shaped, AllocatedAt, BlockOk;
    assert !AllocatedAt(b, SlotOffset(b.size, k));
  }

  /** An allocated offset belongs to slot k exactly when it is that slot's. */
  lemma OnlySlot(b: Block, k: nat)
    requires Shaped(b) && MinObjIndex(b.size) <= k < NumObjects(b.size)
    ensures forall o: nat {:trigger AllocatedAt(b, o)} :: AllocatedAt(b, o) ==> (o / b.size == k <==> o == SlotOffset(b.size, k))
    ensures SlotOffset(b.size, k) / b.size == k
  {
    SlotOf(b.size, k);
    forall o: nat | AllocatedAt(b, o) ensures o / b.size == k <==> o == SlotOffset(b.size, k) {
      DivMul(o, b.size);
    }
  }

  lemma SweepUsed(b: Block, c: Block, base: int, m: set<int>, marked: set<int>, k: nat, p: int)
    requires SweptTo(b, c, base, m, k) && Cleared(b, base, m, marked, k) && b.size > 0 && MinObjIndex(b.size) <= k < NumObjects(b.size)
    requires SlotAtomIndex(b.size, k) < ATOMS_PER_BLOCK && !Bit(c, SlotAtomIndex(b.size, k))
    requires p == base + SlotAtomIndex(b.size, k) * ATOM_SIZE
    ensures p in marked ==> SweptTo(b, c, base, m, k + 1) && Cleared(b, base, m, marked - {p}, k + 1)
    ensures p !in marked ==> SweptTo(b, SetBit(c, SlotAtomIndex(b.size, k), true), base, m, k + 1) && Cleared(b, base, m, marked, k + 1)
  {
    AllocatedSlot(c, k);
    SlotOf(b.size, k);
    OnlySlot(b, k);
    OnlySlot(c, k);
    SetSlot(c, k, true);
    assert p == base + SlotOffset(b.size, k);
    hide MinObjIndex, NumObjects, Shaped, AllocatedAt, BlockOk, SlotOffset, SlotAtomIndex;
    assert AllocatedAt(b, SlotOffset(b.size, k));
    assert p in marked <==> p in m;
  }

  lemma SweptAll(b: Block, c: Block, base: int, m: set<int>, k: nat)
    requires SweptTo(b, c, base, m, k) && b.size > 0 && k == NumObjects(b.size)
    ensures Swept(b, c, base, m) && c.size == b.size
  {
    forall o: nat ensures AllocatedAt(c, o) <==> AllocatedAt(b, o) && (o / b.size < BLOCK_SIZE ==> base + o in m) {
      hide IsSize, Bit;
      if AllocatedAt(b, o) { assert o / b.size < k; }
      QuotientSmall(o, b.size);
    }
  }

  lemma QuotientSmall(o: nat, d: nat)
    requires d > 0
    ensures o < 4096 ==> o / d < 4096
  {
    DivMul(o, d);
    if o / d >= 4096 { MulAtLeast(o / d, d); }
  }

  lemma MulAtLeast(a: nat, d: nat)
    requires d > 0
    ensures a * d >= a
  {}

  function Elems(s: seq<int>): set<int> {
    set x | x in s
  }

  /** The blocks in `done` have been swept, the others are as they were. */
  ghost predicate SweptBlocks(b0: map<int, Block>, blocks: map<int, Block>, m0: set<int>, done: set<int>) {
    && blocks.Keys == b0.Keys && done <= b0.Keys
    && (forall b {:trigger blocks[b]} :: b in b0 ==> if b in done then Swept(b0[b], blocks[b], b, m0) else blocks[b] == b0[b] && BlockOk(b0[b]))
  }

  /** The marks in the swept blocks are gone, the others stand; marks only stand on objects. */
  ghost predicate MarksLeft(b0: map<int, Block>, m0: set<int>, marked: set<int>, done: set<int>) {
    && (forall p {:trigger p in m0} :: p in m0 && ForPointer(p) in b0 ==> SmallLive(View(b0, map[]), p))
    && (forall b {:trigger b in b0} :: b in b0 ==> b % BLOCK_SIZE == 0)
    && (forall p {:trigger p in marked} :: p in marked <==> p in m0 && ForPointer(p) !in done)
  }

  lemma ChainStart(blocks: map<int, Block>, first: int, list: seq<int>, done: set<int>)
    requires BL.Chained(blocks, first, list)
    ensures first == (if 0 < |list| then list[0] else 0) && (forall j :: 0 <= j < |list| ==> list[j] != 0) && done + Elems(list[..0]) == done && BL.SameShape(blocks, blocks)
  {}

  lemma ChainAt(b: map<int, Block>, blocks: map<int, Block>, first: int, list: seq<int>, i: nat)
    requires BL.Chained(b, first, list) && BL.SameShape(b, blocks) && i < |list|
    ensures list[i] in blocks && blocks[list[i]].next == (if i + 1 < |list| then list[i + 1] else 0)
  {}

  lemma NotSwept(b0: map<int, Block>, blocks: map<int, Block>, m0: set<int>, done: set<int>, list: seq<int>, first: int, b: map<int, Block>, i: nat)
    requires BL.Chained(b, first, list) && i < |list| && list[i] in blocks && forall x :: x in list ==> x !in done
    requires SweptBlocks(b0, blocks, m0, done + Elems(list[..i]))
    ensures list[i] !in done + Elems(list[..i]) && BlockOk(blocks[list[i]])
  {
    hide BlockOk, Swept;
    assert list[i] in list;
    forall j | 0 <= j < i ensures list[..i][j] != list[i] {}
  }

  lemma OneMore(list: seq<int>, i: nat, done: set<int>)
    requires i < |list|
    ensures done + Elems(list[..i]) + {list[i]} == done + Elems(list[..i + 1])
  {
    assert list[..i + 1] == list[..i] + [list[i]];
  }

  lemma StillShaped(b: map<int, Block>, x: map<int, Block>, y: map<int, Block>, head: int, m: set<int>)
    requires BL.SameShape(b, x) && head in x && head in y && y == x[head := y[head]] && Swept(x[head], y[head], head, m)
    ensures BL.SameShape(b, y) && y[head].next == x[head].next
  {
    hide AllocatedAt, BlockOk;
  }

  lemma SweepStep(b0: map<int, Block>, x: map<int, Block>, y: map<int, Block>, m0: set<int>, m: set<int>, n: set<int>, done: set<int>, head: int)
    requires SweptBlocks(b0, x, m0, done) && MarksLeft(b0, m0, m, done) && head in x && head !in done
    requires head in y && y == x[head := y[head]] && Swept(x[head], y[head], head, m) && Cleared(x[head], head, m, n, NumObjects(y[head].size))
    ensures SweptBlocks(b0, y, m0, done + {head}) && MarksLeft(b0, m0, n, done + {head})
  {
    assert x[head] == b0[head] && head % BLOCK_SIZE == 0;
    SweptWithAllMarks(b0[head], y[head], head, m, m0, done);
    MarksCleared(b0, m0, m, n, done, head, y[head].size);
    hide Swept, Cleared, AllocatedAt, BlockOk, MarksLeft, Shaped;
  }

  lemma SweptWithAllMarks(b: Block, c: Block, base: int, m: set<int>, m0: set<int>, done: set<int>)
    requires Swept(b, c, base, m) && base % BLOCK_SIZE == 0 && base !in done
    requires forall p {:trigger p in m} :: p in m <==> p in m0 && ForPointer(p) !in done
    ensures Swept(b, c, base, m0)
  {
    forall o: nat ensures AllocatedAt(c, o) <==> AllocatedAt(b, o) && (o / b.size < BLOCK_SIZE ==> base + o in m0) {
      if o < BLOCK_SIZE { OffsetBack(base, o); }
      hide MinObjIndex, NumObjects, Bit, IsSize;
    }
  }

  lemma MarksCleared(b0: map<int, Block>, m0: set<int>, m: set<int>, n: set<int>, done: set<int>, head: int, size: nat)
    requires MarksLeft(b0, m0, m, done) && head in b0 && head !in done && BlockOk(b0[head]) && size == b0[head].size
    requires Cleared(b0[head], head, m, n, NumObjects(size))
    ensures MarksLeft(b0, m0, n, done + {head})
  {
    forall p ensures p in n <==> p in m0 && ForPointer(p) !in done + {head} {
      if p in m && ForPointer(p) == head {
        assert SmallLive(View(b0, map[]), p);
        assert p - head == p % BLOCK_SIZE;
      }
      if p >= head && AllocatedAt(b0[head], p - head) { OffsetBack(head, p - head); }
      hide MinObjIndex, NumObjects, Bit, IsSize;
    }
  }

  /** The blocks swept after the first n buckets. */
  ghost predicate DoneBelow(b0: map<int, Block>, done: set<int>, n: nat)
    requires n <= NUM_BUCKETS
  {
    && (forall b {:trigger b in done} :: b in b0 && b in done ==> exists j :: 0 <= j < n && b0[b].size == SIZES[j])
    && (forall b {:trigger b0[b]} :: b in b0 ==> forall j :: 0 <= j < n && b0[b].size == SIZES[j] ==> b in done)
  }

  lemma NothingSwept(h: View, smallEnd: int, largeEnd: int, marked: set<int>)
    requires Sane(h, smallEnd, largeEnd) && forall p :: p in marked ==> Live(h, p)
    ensures SweptBlocks(h.blocks, h.blocks, marked, {}) && MarksLeft(h.blocks, marked, marked, {}) && DoneBelow(h.blocks, {}, 0)
  {
    hide AllocatedAt, BlockOk, Shaped;
    forall p | p in marked && ForPointer(p) in h.blocks ensures SmallLive(View(h.blocks, map[]), p) {
      assert Live(h, p);
      if LargeLive(h, p) { NotSmall(h, smallEnd, largeEnd, p); }
    }
  }

  lemma NotSmall(h: View, smallEnd: int, largeEnd: int, p: int)
    requires Sane(h, smallEnd, largeEnd) && LargeLive(h, p)
    ensures ForPointer(p) !in h.blocks
  {
    hide BlockOk;
    var a := p - LO.LARGE_HEADER;
    assert a in h.objs && h.objs[a] == h.objs[a];
    InPage(a);
  }

  lemma InPage(a: int)
    requires a % 4096 == 0
    ensures ForPointer(a + 24) == a
  {}

  lemma NextBucket(b0: map<int, Block>, blocks: map<int, Block>, m0: set<int>, done: set<int>, heads: seq<int>, fulls: seq<int>, o: BL.Orders, i: nat)
    requires BL.Buckets(blocks, heads, fulls, o) && SweptBlocks(b0, blocks, m0, done) && i < NUM_BUCKETS && DoneBelow(b0, done, i)
    ensures BL.Chained(blocks, heads[i], o.hs[i]) && BL.Chained(blocks, fulls[i], o.fs[i])
    ensures forall b :: b in o.hs[i] || b in o.fs[i] ==> b !in done
    ensures forall b :: b in o.hs[i] ==> b !in o.fs[i]
  {
    assert BL.Bucket(blocks, heads[i], fulls[i], o.hs[i], o.fs[i], i, SIZES[i]);
    SweptSizes(b0, blocks, m0, done);
    hide BlockOk, AllocatedAt, Swept, BL.Buckets;
    forall b | b in o.hs[i] || b in o.fs[i] ensures b !in done {
      assert b in blocks && blocks[b].size == SIZES[i];
      if b in done {
        var j :| 0 <= j < i && b0[b].size == SIZES[j];
        BL.SizesDistinct(j, i);
      }
    }
  }

  lemma BucketCount(blocks: map<int, Block>, heads: seq<int>, fulls: seq<int>, o: BL.Orders)
    requires BL.Buckets(blocks, heads, fulls, o)
    ensures |heads| == |fulls| == |o.hs| == |o.fs| == NUM_BUCKETS
  {
    hide BL.Bucket;
  }

  lemma SweptSizes(b0: map<int, Block>, blocks: map<int, Block>, m0: set<int>, done: set<int>)
    requires SweptBlocks(b0, blocks, m0, done)
    ensures blocks.Keys == b0.Keys && BL.SameShape(b0, blocks)
  {
    hide AllocatedAt, BlockOk;
  }

  lemma SecondList(blocks: map<int, Block>, heads: seq<int>, fulls: seq<int>, o: BL.Orders, done: set<int>, i: nat)
    requires BL.Buckets(blocks, heads, fulls, o) && i < NUM_BUCKETS
    requires (forall b :: b in o.hs[i] || b in o.fs[i] ==> b !in done) && forall b :: b in o.hs[i] ==> b !in o.fs[i]
    ensures BL.Chained(blocks, fulls[i], o.fs[i]) && forall b :: b in o.fs[i] ==> b !in done + Elems(o.hs[i])
  {
    assert BL.Bucket(blocks, heads[i], fulls[i], o.hs[i], o.fs[i], i, SIZES[i]);
  }

  lemma BucketDone(b0: map<int, Block>, blocks: map<int, Block>, heads: seq<int>, fulls: seq<int>, o: BL.Orders, m0: set<int>,
                   before: set<int>, done: set<int>, i: nat)
    requires BL.Buckets(blocks, heads, fulls, o) && i < NUM_BUCKETS && DoneBelow(b0, before, i)
    requires SweptBlocks(b0, blocks, m0, done) && done == before + Elems(o.hs[i]) + Elems(o.fs[i])
    ensures DoneBelow(b0, done, i + 1)
  {
    SweptSizes(b0, blocks, m0, done);
    BucketCount(blocks, heads, fulls, o);
    hide BL.Buckets, SweptBlocks, BL.SameShape;
    forall b | b in b0 && b in done ensures exists j :: 0 <= j < i + 1 && b0[b].size == SIZES[j] {
      if b in before {
        var j :| 0 <= j < i && b0[b].size == SIZES[j];
      } else {
        ListedSize(b0, blocks, heads, fulls, o, i, b);
      }
    }
    forall b, j | b in b0 && 0 <= j < i + 1 && b0[b].size == SIZES[j] ensures b in done {
      if j == i { ListedSize(b0, blocks, heads, fulls, o, i, b); }
    }
  }

  lemma ListedSize(b0: map<int, Block>, blocks: map<int, Block>, heads: seq<int>, fulls: seq<int>, o: BL.Orders, i: nat, b: int)
    requires BL.Buckets(blocks, heads, fulls, o) && i < NUM_BUCKETS && BL.SameShape(b0, blocks) && b in b0
    ensures b0[b].size == SIZES[i] <==> b in o.hs[i] || b in o.fs[i]
  {
    assert BL.Bucket(blocks, heads[i], fulls[i], o.hs[i], o.fs[i], i, SIZES[i]);
    assert blocks[b].size == b0[b].size;
  }

  lemma AllDone(b0: map<int, Block>, blocks: map<int, Block>, m0: set<int>, smallEnd: int, done: set<int>)
    requires BL.Arena(b0, smallEnd) && DoneBelow(b0, done, NUM_BUCKETS) && SweptBlocks(b0, blocks, m0, done)
    ensures done == b0.Keys
  {
    forall b | b in b0 ensures b in done {
      assert BlockOk(b0[b]);
      var i :| 0 <= i < |SIZES| && SIZES[i] == b0[b].size;
    }
  }

  // ---- sweeping large objects -----------------------------------------------------------------

  function Unlinked(l: LO.List, a: int): LO.List
    requires LO.Unlinkable(l, a)
  {
    var m := LO.Unlink(l, a);
    m.(objs := m.objs - {a})
  }

  /** Of the objects before `rest`, the marked ones are kept and unmarked again. */
  ghost predicate LargeSwept(l0: LO.List, l: LO.List, m0: set<int>, marked: set<int>, kept: seq<int>, rest: seq<int>) {
    && (forall a {:trigger a in rest} :: a in rest ==> a in l0.objs)
    && (forall a {:trigger a in l.objs} :: a in l.objs <==> a in kept || a in rest)
    && (forall a {:trigger a in kept} :: a in kept ==> a in l0.objs && a + LO.LARGE_HEADER in m0 && a !in rest)
    && (forall a {:trigger a in l0.objs} :: a in l0.objs && a + LO.LARGE_HEADER in m0 ==> a in kept || a in rest)
    && (forall p {:trigger p in marked} :: p in marked <==> p in m0 && (p - LO.LARGE_HEADER in l0.objs ==> p - LO.LARGE_HEADER in rest))
  }

  lemma LargeStart(l: LO.List, order: seq<int>, m: set<int>)
    requires LO.Linked(l, order) && forall a :: a in l.objs ==> a in order
    ensures LO.Linked(l, [] + order) && LargeSwept(l, l, m, m, [], order) && l.head == LO.FirstOf(order)
  {
    assert [] + order == order;
  }

  lemma LargeNext(l: LO.List, kept: seq<int>, rest: seq<int>, cur: int)
    requires LO.Linked(l, kept + rest) && cur == LO.FirstOf(rest) && cur != 0
    ensures rest != [] && cur == rest[0] && cur in l.objs && LO.Unlinkable(l, cur) && l.objs[cur].next == LO.FirstOf(rest[1..])
    ensures cur !in rest[1..] && cur !in kept && (kept + [rest[0]]) + rest[1..] == kept + rest
  {
    var all, k := kept + rest, |kept|;
    assert all[k] == rest[0];
    LO.LinkedUnlinkable(l, all, k);
    if 1 < |rest| { assert all[k + 1] == rest[1]; }
    forall j | 0 <= j < |rest| - 1 ensures rest[1..][j] != cur { assert all[k + 1 + j] == rest[1..][j]; }
    forall j | 0 <= j < |kept| ensures kept[j] != cur { assert all[j] == kept[j]; }
  }

  lemma LargeDecides(l0: LO.List, l: LO.List, m0: set<int>, marked: set<int>, kept: seq<int>, rest: seq<int>)
    requires LargeSwept(l0, l, m0, marked, kept, rest) && rest != []
    ensures rest[0] + LO.LARGE_HEADER in marked <==> rest[0] + LO.LARGE_HEADER in m0
  {
    assert rest[0] in rest;
    assert (rest[0] + LO.LARGE_HEADER) - LO.LARGE_HEADER == rest[0];
  }

  lemma SplitHead(rest: seq<int>)
    requires rest != []
    ensures forall a :: a in rest <==> a == rest[0] || a in rest[1..]
  {
    assert rest == [rest[0]] + rest[1..];
  }

  lemma LargeKeep(l0: LO.List, l: LO.List, m0: set<int>, m: set<int>, kept: seq<int>, rest: seq<int>)
    requires LargeSwept(l0, l, m0, m, kept, rest) && rest != [] && rest[0] + LO.LARGE_HEADER in m0 && rest[0] !in rest[1..]
    ensures LargeSwept(l0, l, m0, m - {rest[0] + LO.LARGE_HEADER}, kept + [rest[0]], rest[1..])
  {
    SplitHead(rest);
    var k := kept + [rest[0]];
    assert forall a :: a in k <==> a in kept || a == rest[0];
    assert rest[0] in rest;
  }

  lemma LargeDrop(l0: LO.List, l: LO.List, m0: set<int>, m: set<int>, kept: seq<int>, rest: seq<int>, end: int)
    requires LO.Linked(l, kept + rest) && LargeSwept(l0, l, m0, m, kept, rest) && rest != [] && LO.Placed(l.objs, end)
    requires rest[0] + LO.LARGE_HEADER !in m0 && rest[0] !in rest[1..] && rest[0] !in kept
    ensures var a := rest[0]; LO.Unlinkable(l, a) && LO.Unlinkable(LO.Unlink(l, a), a) && a in LO.Unlink(l, a).objs
    ensures LO.Unlink(l, rest[0]).objs[rest[0]].next == l.objs[rest[0]].next
    ensures var n := Unlinked(LO.Unlink(l, rest[0]), rest[0]);
      LO.Linked(n, kept + rest[1..]) && LO.Placed(n.objs, end) && LargeSwept(l0, n, m0, m, kept, rest[1..])
  {
    hide LO.Unlink, LO.Linked, LO.Placed, LargeSwept;
    var a, k := rest[0], |kept|;
    assert (kept + rest)[k] == a;
    LO.UnlinkRemoves(l, kept + rest, k);
    LO.UnlinkTwice(l, a);
    LO.UnlinkFields(l, a);
    assert (kept + rest)[..k] + (kept + rest)[k + 1..] == kept + rest[1..];
    var u := LO.Unlink(l, a);
    var n := u.(objs := u.objs - {a});
    LO.DropUnlinked(u, kept + rest[1..], a);
    LO.SameSizesPlaced(l.objs, n.objs, end);
    LargeDropped(l0, l, n, m0, m, kept, rest);
  }

  lemma LargeDropped(l0: LO.List, l: LO.List, n: LO.List, m0: set<int>, m: set<int>, kept: seq<int>, rest: seq<int>)
    requires LargeSwept(l0, l, m0, m, kept, rest) && rest != [] && n.objs.Keys == l.objs.Keys - {rest[0]}
    requires rest[0] + LO.LARGE_HEADER !in m0 && rest[0] !in rest[1..] && rest[0] !in kept
    ensures LargeSwept(l0, n, m0, m, kept, rest[1..])
  {
    SplitHead(rest);
  }

  lemma LargeEnd(l0: LO.List, l: LO.List, m0: set<int>, marked: set<int>, kept: seq<int>, rest: seq<int>)
    requires LO.Linked(l, kept + rest) && LargeSwept(l0, l, m0, marked, kept, rest) && LO.FirstOf(rest) == 0
    ensures LO.Linked(l, kept) && (forall a :: a in l.objs ==> a in kept)
    ensures forall a :: a in l.objs <==> a in l0.objs && a + LO.LARGE_HEADER in m0
    ensures forall p :: p in marked <==> p in m0 && p - LO.LARGE_HEADER !in l0.objs
  {
    LastNotNull(l, kept, rest);
    assert kept + rest == kept;
    LinkedHolds(l, kept);
  }

  lemma LastNotNull(l: LO.List, kept: seq<int>, rest: seq<int>)
    requires LO.Linked(l, kept + rest)
    ensures rest == [] || rest[0] != 0
  {
    assert rest != [] ==> (kept + rest)[|kept|] == rest[0];
  }

  lemma LinkedHolds(l: LO.List, order: seq<int>)
    requires LO.Linked(l, order)
    ensures forall a :: a in order ==> a in l.objs
  {}

  // ---- the whole sweep ------------------------------------------------------------------------

  lemma SmallSwept(h0: View, h: View, smallEnd: int, largeEnd: int, m0: set<int>, m: set<int>)
    requires Sane(h0, smallEnd, largeEnd) && SweptBlocks(h0.blocks, h.blocks, m0, h0.blocks.Keys) && h.objs == h0.objs
    requires MarksLeft(h0.blocks, m0, m, h0.blocks.Keys) && forall p :: p in m0 ==> Live(h0, p)
    ensures Sane(h, smallEnd, largeEnd) && h.blocks.Keys == h0.blocks.Keys
    ensures forall p :: SmallLive(h, p) <==> SmallLive(h0, p) && p in m0
    ensures forall p :: p in m <==> p in m0 && LargeLive(h0, p)
  {
    forall b | b in h.blocks ensures BlockOk(h.blocks[b]) {
      hide AllocatedAt, BlockOk;
      assert Swept(h0.blocks[b], h.blocks[b], b, m0);
    }
    forall p ensures SmallLive(h, p) <==> SmallLive(h0, p) && p in m0 {
      if p >= 0 && ForPointer(p) in h.blocks { SweptAt(h0, h, smallEnd, largeEnd, m0, p); }
    }
    forall p ensures p in m <==> p in m0 && LargeLive(h0, p) {
      if LargeLive(h0, p) { NotSmall(h0, smallEnd, largeEnd, p); }
      hide AllocatedAt, BlockOk, Swept, Shaped;
    }
  }

  lemma SweptAt(h0: View, h: View, smallEnd: int, largeEnd: int, m0: set<int>, p: int)
    requires Sane(h0, smallEnd, largeEnd) && SweptBlocks(h0.blocks, h.blocks, m0, h0.blocks.Keys)
    requires p >= 0 && ForPointer(p) in h.blocks
    ensures SmallLive(h, p) <==> SmallLive(h0, p) && p in m0
  {
    var b, o := ForPointer(p), p % BLOCK_SIZE;
    assert b in h0.blocks && Swept(h0.blocks[b], h.blocks[b], b, m0);
    assert b + o == p;
    assert BlockOk(h0.blocks[b]) && BlockOk(h.blocks[b]);
    QuotientSmall(o, h0.blocks[b].size);
    hide AllocatedAt;
  }

  lemma AllSwept(h0: View, h: View, h1: View, smallEnd: int, largeEnd: int, m0: set<int>, m: set<int>, m1: set<int>)
    requires forall p :: SmallLive(h, p) <==> SmallLive(h0, p) && p in m0
    requires h.objs == h0.objs && h1.blocks == h.blocks
    requires forall p :: p in m <==> p in m0 && LargeLive(h0, p)
    requires forall a :: a in h1.objs <==> a in h.objs && a + LO.LARGE_HEADER in m
    requires forall p :: p in m1 <==> p in m && p - LO.LARGE_HEADER !in h.objs
    ensures m1 == {} && forall p :: Live(h1, p) <==> Live(h0, p) && p in m0
  {
    forall p ensures p !in m1 {
      assert p in m ==> LargeLive(h0, p);
    }
    forall p ensures Live(h1, p) <==> Live(h0, p) && p in m0 {
      assert SmallLive(h1, p) <==> SmallLive(h, p) by { hide AllocatedAt, Shaped; }
      assert (p - LO.LARGE_HEADER) + LO.LARGE_HEADER == p;
      hide SmallLive;
    }
  }

  // ---- allocation -----------------------------------------------------------------------------

  /** What stays allocated when an allocation may run a collection first. */
  ghost predicate Kept(h: View, w: World, collects: bool, p: int) {
    Live(h, p) && (collects ==> Reachable(h, w, p))
  }

  lemma RetireValid(blocks: map<int, Block>, heads: seq<int>, fulls: seq<int>, o: BL.Orders, i: nat)
    requires BL.Buckets(blocks, heads, fulls, o) && i < NUM_BUCKETS && heads[i] != 0 && heads[i] in blocks
    ensures o.hs[i] != [] && o.hs[i][0] == heads[i]
    ensures BL.Buckets(BL.Retire(blocks, heads[i], fulls[i], i), heads[i := blocks[heads[i]].next], fulls[i := heads[i]],
              BL.Orders(o.hs[i := o.hs[i][1..]], o.fs[i := [heads[i]] + o.fs[i]]))
  {
    var other := BL.Retire(blocks, heads[i], fulls[i], i);
    assert BL.Bucket(blocks, heads[i], fulls[i], o.hs[i], o.fs[i], i, SIZES[i]);
    BL.RetireBucket(blocks, heads[i], fulls[i], o.hs[i], o.fs[i], i, SIZES[i]);
    RetireSizes(blocks, heads, fulls, o, i);
    BL.OtherSizesAgree(blocks, other, i);
    BL.ReplaceBucket(blocks, other, heads, fulls, o, i, blocks[heads[i]].next, heads[i], o.hs[i][1..], [heads[i]] + o.fs[i]);
  }

  lemma RetireSizes(blocks: map<int, Block>, heads: seq<int>, fulls: seq<int>, o: BL.Orders, i: nat)
    requires i < |heads| && i < |fulls| && i < |o.hs| && i < |o.fs| && i < NUM_BUCKETS && o.hs[i] != [] && heads[i] in blocks
    requires BL.Bucket(blocks, heads[i], fulls[i], o.hs[i], o.fs[i], i, SIZES[i])
    ensures var other := BL.Retire(blocks, heads[i], fulls[i], i);
      && other.Keys == blocks.Keys
      && forall b :: b in blocks ==> (blocks[b].size != SIZES[i] ==> other[b] == blocks[b]) && other[b].size == blocks[b].size
  {
    var h := o.hs[i];
    assert h[0] in h;
    if 1 < |h| { assert h[1] in h; }
  }

  lemma RetireNext(blocks: map<int, Block>, heads: seq<int>, fulls: seq<int>, o: BL.Orders, i: nat)
    requires BL.Buckets(blocks, heads, fulls, o) && i < NUM_BUCKETS && heads[i] != 0 && heads[i] in blocks
    ensures blocks[heads[i]].next != 0 ==> blocks[heads[i]].next in blocks && blocks[heads[i]].next != heads[i]
  {
    assert BL.Bucket(blocks, heads[i], fulls[i], o.hs[i], o.fs[i], i, SIZES[i]);
    var h := o.hs[i];
    if 1 < |h| { assert h[1] in h && h[0] != h[1]; }
  }

  /** Retiring touches no block's size or free bits. */
  lemma RetireKeeps(blocks: map<int, Block>, c: int, full: int, i: nat)
    requires c in blocks
    ensures var other := BL.Retire(blocks, c, full, i);
      && other.Keys == blocks.Keys
      && forall b {:trigger other[b]} :: b in blocks ==> other[b].size == blocks[b].size && other[b].isfree == blocks[b].isfree
  {}

  lemma SameFreeLive(h: View, other: View, smallEnd: int)
    requires other.objs == h.objs && other.blocks.Keys == h.blocks.Keys && BL.Arena(h.blocks, smallEnd)
    requires forall b {:trigger other.blocks[b]} :: b in h.blocks ==>
      other.blocks[b].size == h.blocks[b].size && other.blocks[b].isfree == h.blocks[b].isfree
    ensures BL.Arena(other.blocks, smallEnd) && forall p :: Live(other, p) <==> Live(h, p)
  {
    forall b | b in h.blocks ensures BlockOk(other.blocks[b]) {
      SameFreeOk(h.blocks[b], other.blocks[b]);
    }
    forall p ensures Live(other, p) <==> Live(h, p) {
      hide IsSize, MinObjIndex, NumObjects, BlockOk;
    }
  }

  lemma SameFreeOk(b: Block, c: Block)
    requires BlockOk(b) && c.size == b.size && c.isfree == b.isfree
    ensures BlockOk(c)
  {
    forall a: nat | a < ATOMS_PER_BLOCK && Bit(c, a) ensures IsObjectAtom(c.size, a) {
      assert Bit(b, a);
    }
  }

  lemma SizeOfBucket(i: nat)
    requires i < NUM_BUCKETS
    ensures IsSize(SIZES[i])
  {}

  lemma RefillValid(blocks: map<int, Block>, heads: seq<int>, fulls: seq<int>, o: BL.Orders, i: nat, n: int, b: Block)
    requires BL.Buckets(blocks, heads, fulls, o) && i < NUM_BUCKETS && heads[i] == 0 && n !in blocks && n > 0 && b.size == SIZES[i]
    ensures var added := b.(next := fulls[i], prev := Heads(i));
      BL.Buckets(blocks[n := added], heads[i := n], fulls[i := 0], BL.Orders(o.hs[i := [n] + o.fs[i]], o.fs[i := []]))
  {
    var added := b.(next := fulls[i], prev := Heads(i));
    var other := blocks[n := added];
    assert BL.Bucket(blocks, heads[i], fulls[i], o.hs[i], o.fs[i], i, SIZES[i]);
    BL.RefillBucket(blocks, heads[i], fulls[i], o.fs[i], i, SIZES[i], n, added) by { assert o.hs[i] == []; }
    BL.OtherSizesAgree(blocks, other, i);
    BL.ReplaceBucket(blocks, other, heads, fulls, o, i, n, 0, [n] + o.fs[i], []);
  }

  /** A block without objects adds nothing that is allocated. */
  lemma AddFreeLive(h: View, n: int, b: Block, smallEnd: int, mid: View)
    requires BL.Arena(mid.blocks, smallEnd) && n !in h.blocks && n in mid.blocks && mid == h.(blocks := h.blocks[n := mid.blocks[n]])
    requires AllFree(mid.blocks[n]) && b.size == mid.blocks[n].size && b.isfree == mid.blocks[n].isfree
    ensures BL.Arena(h.blocks[n := b], smallEnd) && AllFree(b)
    ensures forall p :: Live(h.(blocks := h.blocks[n := b]), p) <==> Live(h, p)
  {
    var other := h.(blocks := h.blocks[n := b]);
    SameFreeLive(mid, other, smallEnd);
    forall o: nat ensures !AllocatedAt(b, o) { assert !AllocatedAt(mid.blocks[n], o); }
    hide AllocatedAt, BlockOk;
    forall p ensures Live(other, p) <==> Live(h, p) {}
  }

  lemma TakeLive(h: View, smallEnd: int, largeEnd: int, cur: int, idx: nat)
    requires Sane(h, smallEnd, largeEnd) && cur in h.blocks && idx < ATOMS_PER_BLOCK && BlockOk(h.blocks[cur]) && Bit(h.blocks[cur], idx)
    ensures var c, r := SetBit(h.blocks[cur], idx, false), cur + idx * ATOM_SIZE;
      && BlockOk(c) && Sane(h.(blocks := h.blocks[cur := c]), smallEnd, largeEnd) && BL.SameShape(h.blocks, h.blocks[cur := c])
      && ForPointer(r) == cur && SmallLive(h.(blocks := h.blocks[cur := c]), r) && !Live(h, r)
      && forall p :: Live(h.(blocks := h.blocks[cur := c]), p) <==> Live(h, p) || p == r
  {
    var b, r := h.blocks[cur], cur + idx * ATOM_SIZE;
    var k := idx / AtomsPerObj(b.size);
    AtomIsSlot(b.size, idx);
    SlotOf(b.size, k);
    SetSlot(b, k, false);
    AllocatedSlot(b, k);
    assert SlotAtomIndex(b.size, k) == idx && SlotOffset(b.size, k) == idx * ATOM_SIZE;
    var c := SetBit(b, idx, false);
    assert c.size == b.size && c.next == b.next && c.prev == b.prev;
    OffsetBack(cur, idx * ATOM_SIZE);
    hide IsSize, MinObjIndex, NumObjects, SetBit, Bit, AllocatedAt, SlotAtomIndex, SlotOffset, BlockOk;
    var g := h.(blocks := h.blocks[cur := c]);
    if LargeLive(h, r) { NotSmall(h, smallEnd, largeEnd, r); }
    forall p ensures Live(g, p) <==> Live(h, p) || p == r {
      if p >= 0 && ForPointer(p) == cur && p != r {
        assert p % BLOCK_SIZE != idx * ATOM_SIZE;
      }
    }
  }

  lemma HeadInBucket(blocks: map<int, Block>, heads: seq<int>, fulls: seq<int>, o: BL.Orders, smallEnd: int, largeEnd: int,
                     objs: map<int, LO.LargeObj>, i: nat)
    requires BL.Buckets(blocks, heads, fulls, o) && Sane(View(blocks, objs), smallEnd, largeEnd) && i < NUM_BUCKETS
    ensures heads[i] != 0 ==> heads[i] in blocks && blocks[heads[i]].size == SIZES[i]
    ensures forall b {:trigger blocks[b]} :: b in blocks ==> BlockOk(blocks[b])
  {
    hide BlockOk;
    assert BL.Bucket(blocks, heads[i], fulls[i], o.hs[i], o.fs[i], i, SIZES[i]);
    if o.hs[i] != [] { assert o.hs[i][0] in o.hs[i]; }
  }

  lemma BlockShaped(b: Block)
    requires BlockOk(b)
    ensures Shaped(b)
  {}

  /** A new block has a free slot, for every size. */
  lemma NewHasBit(b: Block)
    requires AllFree(b)
    ensures BlockOk(b) && exists a: nat :: a < ATOMS_PER_BLOCK && Bit(b, a)
  {
    SizeHasRoom(b.size);
    AllocatedSlot(b, MinObjIndex(b.size));
  }

  /** The size class of a request. */
  ghost predicate Fits(size: nat, bytes: nat) {
    && IsSize(size) && bytes <= size && (bytes == 16 ==> size == 16) && (bytes <= 32 && bytes != 16 ==> size == 32)
    && (bytes > 32 ==> forall i :: 0 <= i < |SIZES| && bytes <= SIZES[i] ==> size <= SIZES[i])
  }

  lemma FirstFit(i: nat, bytes: nat)
    requires 2 <= i < NUM_BUCKETS && SIZES[i - 1] < bytes <= SIZES[i]
    ensures Fits(SIZES[i], bytes)
  {
    assert bytes > 32 by { if i > 2 { BL.SizesDistinct(1, i - 1); } }
    forall j | 0 <= j < |SIZES| && bytes <= SIZES[j] ensures SIZES[i] <= SIZES[j] {
      if j < i - 1 { BL.SizesDistinct(j, i - 1); }
      if i < j { BL.SizesDistinct(i, j); }
    }
  }

  /** A large object that grows in place keeps its recorded size, so that interior pointers behind
      that size do not find it: realloc leaves it so when the new size exceeds the recorded one and
      still fits the pages. */
  ghost predicate Outgrows(h: View, p: int, bytes: nat)
    requires Live(h, p)
  {
    LargeLive(h, p) && h.objs[p - LO.LARGE_HEADER].objSize < bytes <= Room(h, p) < bytes * 2
  }

  lemma LargeOffers(h: View, q: int, size: nat)
    requires LargeLive(h, q) && h.objs[q - LO.LARGE_HEADER].objSize == size
    ensures Offers(h, q, size) && FoundWithin(h, q, size)
  {}

  lemma SmallOffers(h: View, q: int, bytes: int)
    requires SmallLive(h, q) && bytes <= h.blocks[ForPointer(q)].size
    ensures Offers(h, q, bytes) && FoundWithin(h, q, bytes)
  {}

  lemma StillOffers(h: View, q: int, bytes: nat)
    requires bytes <= 2048 ==> SmallLive(h, q) && Fits(h.blocks[ForPointer(q)].size, bytes)
    requires bytes > 2048 ==> LargeLive(h, q) && h.objs[q - LO.LARGE_HEADER].objSize == bytes
    ensures Offers(h, q, bytes) && FoundWithin(h, q, bytes)
  {
    hide SmallLive, LO.MmapSize;
    if bytes <= 2048 { SmallOffers(h, q, bytes); } else { LargeOffers(h, q, bytes); }
  }

  /** What an allocation may hold before it has to move is just what its memory offers. */
  lemma RoomIsOffered(h: View, smallEnd: int, largeEnd: int, p: int, bytes: nat)
    requires Sane(h, smallEnd, largeEnd) && Live(h, p)
    ensures Offers(h, p, bytes) <==> bytes <= Room(h, p)
    ensures bytes <= Room(h, p) < bytes * 2 ==> (FoundWithin(h, p, bytes) <==> !Outgrows(h, p, bytes))
    ensures Outgrows(h, p, bytes) ==> bytes <= Room(h, p) < bytes * 2
  {
    WhichArena(h, smallEnd, largeEnd, p);
    hide Sane, SmallLive, LargeLive, Live, Offers, FoundWithin, LO.MmapSize, LO.Capacity, Room;
    if LO.LARGE_START <= p {
      LargeKnown(h, p);
      LargeRoom(h, p, bytes);
    } else {
      SmallKnown(h, p);
      SmallRoom(h, p, bytes);
    }
  }

  lemma LargeRoom(h: View, p: int, bytes: nat)
    requires LargeLive(h, p) && (SmallLive(h, p) ==> p < LO.LARGE_START) && LO.LARGE_START <= p
    ensures var size := h.objs[p - LO.LARGE_HEADER].objSize;
      && (Offers(h, p, bytes) <==> bytes <= LO.Capacity(size)) && (FoundWithin(h, p, bytes) <==> bytes <= size)
  {
    hide SmallLive, LO.MmapSize;
    var size := h.objs[p - LO.LARGE_HEADER].objSize;
    assert LO.MmapSize(size) >= size + LO.LARGE_HEADER;
    if bytes > LO.Capacity(size) { assert !InMemory(h, p, p + LO.Capacity(size)); }
    if bytes > size { assert !Inside(h, p, p + size); }
  }

  lemma SmallRoom(h: View, p: int, bytes: nat)
    requires SmallLive(h, p) && !LargeLive(h, p)
    ensures var size := h.blocks[ForPointer(p)].size;
      && (Offers(h, p, bytes) <==> bytes <= size) && (FoundWithin(h, p, bytes) <==> bytes <= size)
  {
    hide LO.MmapSize, AllocatedAt, Shaped;
    var size := h.blocks[ForPointer(p)].size;
    if bytes > size { assert !InMemory(h, p, p + size) && !Inside(h, p, p + size); }
  }

  /** A word that points into the part such an object has grown by finds nothing, so a collection
      that knows the object by this word alone loses it. */
  lemma GrownPartIsLost(h: View, smallEnd: int, largeEnd: int, p: int, bytes: nat, x: int)
    requires Sane(h, smallEnd, largeEnd) && Live(h, p) && Outgrows(h, p, bytes)
    requires p + h.objs[p - LO.LARGE_HEADER].objSize <= x < p + bytes
    ensures Lookup(h, x) == 0 && forall q :: !Inside(h, q, x)
  {
    WhichArena(h, smallEnd, largeEnd, p);
    forall q ensures !Inside(h, q, x) {
      if Inside(h, q, x) {
        InsideIsMemory(h, q, x);
        assert InMemory(h, p, x);
        InMemoryOne(h, smallEnd, largeEnd, p, q, x);
      }
    }
  }

  lemma InsideIsMemory(h: View, q: int, x: int)
    requires Inside(h, q, x)
    ensures InMemory(h, q, x)
  {
    hide SmallLive;
  }

  /** For instance 3000 bytes that grow to 4000. */
  lemma GrowsInPlace(h: View, p: int)
    requires LargeLive(h, p) && h.objs[p - LO.LARGE_HEADER].objSize == 3000
    ensures Live(h, p) && Outgrows(h, p, 4000)
  {}

  /** What an allocation may hold before it has to move. */
  ghost function Room(h: View, p: int): int
    requires Live(h, p)
  {
    if LargeLive(h, p) then LO.Capacity(h.objs[p - LO.LARGE_HEADER].objSize) else h.blocks[ForPointer(p)].size
  }

  lemma PushLive(h: View, smallEnd: int, largeEnd: int, l: LO.List, order: seq<int>, size: nat)
    requires Sane(h, smallEnd, largeEnd) && h.objs == l.objs && LO.Linked(l, order) && forall a :: a in l.objs ==> a in order
    ensures l.head != 0 ==> l.head in l.objs
    ensures LO.Linked(LO.Push(l, largeEnd, size), [largeEnd] + order) && forall a :: a in LO.Push(l, largeEnd, size).objs ==> a in [largeEnd] + order
    ensures var g := h.(objs := LO.Push(l, largeEnd, size).objs); var r := largeEnd + LO.LARGE_HEADER;
      && Sane(g, smallEnd, largeEnd + LO.MmapSize(size)) && LargeLive(g, r) && g.objs[largeEnd].objSize == size && !Live(h, r)
      && forall p :: Live(g, p) <==> Live(h, p) || p == r
  {
    HeadListed(l, order);
    NotYet(h, smallEnd, largeEnd, order, l);
    LO.PushLinks(l, order, largeEnd, size);
    hide LO.Push, LO.Linked, LO.Placed, LO.MmapSize, BL.Arena, Live;
    var m := LO.Push(l, largeEnd, size);
    LO.AddedPlaced(l.objs, m.objs, largeEnd, size);
    assert LO.LARGE_START <= largeEnd by { ArenaStarts(h, smallEnd, largeEnd); }
    AddedLive(h, largeEnd, m.objs);
  }

  lemma ArenaStarts(h: View, smallEnd: int, largeEnd: int)
    requires Sane(h, smallEnd, largeEnd)
    ensures LO.LARGE_START <= largeEnd && largeEnd % LO.PAGE_SIZE == 0
  {}

  lemma AddedLive(h: View, a: int, objs: map<int, LO.LargeObj>)
    requires objs.Keys == h.objs.Keys + {a}
    ensures LargeLive(h.(objs := objs), a + LO.LARGE_HEADER)
    ensures forall p :: Live(h.(objs := objs), p) <==> Live(h, p) || p == a + LO.LARGE_HEADER
  {
    assert (a + LO.LARGE_HEADER) - LO.LARGE_HEADER == a;
    hide AllocatedAt, Shaped;
  }

  lemma HeadListed(l: LO.List, order: seq<int>)
    requires LO.Linked(l, order)
    ensures l.head != 0 ==> l.head in l.objs
    ensures forall a :: a in order ==> a in l.objs
  {}

  lemma NotYet(h: View, smallEnd: int, largeEnd: int, order: seq<int>, l: LO.List)
    requires Sane(h, smallEnd, largeEnd) && h.objs == l.objs && LO.Linked(l, order)
    ensures largeEnd !in order && largeEnd !in l.objs && largeEnd != 0 && !Live(h, largeEnd + LO.LARGE_HEADER)
  {
    HeadListed(l, order);
    hide LO.Linked, AllocatedAt, BlockOk, Shaped;
    forall a | a in h.objs ensures a < largeEnd { assert a + LO.MmapSize(h.objs[a].objSize) <= largeEnd; }
    var r := largeEnd + LO.LARGE_HEADER;
    if SmallLive(h, r) { SmallLiveWithin(h, smallEnd, r); }
    assert r - LO.LARGE_HEADER == largeEnd;
  }

  lemma FreedLive(h: View, smallEnd: int, largeEnd: int, p: int)
    requires Sane(h, smallEnd, largeEnd) && SmallLive(h, p)
    ensures var b := ForPointer(p); var idx := (p - b) / ATOM_SIZE;
      && b in h.blocks && BlockOk(h.blocks[b]) && Shaped(h.blocks[b]) && idx < ATOMS_PER_BLOCK && !Bit(h.blocks[b], idx)
    ensures var b := ForPointer(p); var idx := (p - b) / ATOM_SIZE;
      var g := h.(blocks := h.blocks[b := SetBit(h.blocks[b], idx, true)]);
      && Sane(g, smallEnd, largeEnd) && BL.SameShape(h.blocks, g.blocks) && SameSizes(h, g)
      && forall q :: Live(g, q) <==> Live(h, q) && q != p
  {
    var b, o := ForPointer(p), p % BLOCK_SIZE;
    var c := h.blocks[b];
    assert BlockOk(c);
    AllocatedWithin(c, o);
    var k := o / c.size;
    SetSlot(c, k, true);
    assert SlotOffset(c.size, k) == o && SlotAtomIndex(c.size, k) == o / ATOM_SIZE;
    var d := SetBit(c, o / ATOM_SIZE, true);
    assert d.size == c.size && d.next == c.next && d.prev == c.prev;
    NotLargeToo(h, smallEnd, largeEnd, p);
    hide IsSize, MinObjIndex, NumObjects, SetBit, Bit, AllocatedAt, SlotAtomIndex, SlotOffset, BlockOk;
    var g := h.(blocks := h.blocks[b := d]);
    forall q ensures Live(g, q) <==> Live(h, q) && q != p {
      if q >= 0 && ForPointer(q) == b && q != p { assert q % BLOCK_SIZE != o; }
    }
  }

  lemma NotLargeToo(h: View, smallEnd: int, largeEnd: int, p: int)
    requires Sane(h, smallEnd, largeEnd) && SmallLive(h, p)
    ensures !LargeLive(h, p)
  {
    if LargeLive(h, p) { NotSmall(h, smallEnd, largeEnd, p); }
  }

  lemma UnlinkedLive(h: View, smallEnd: int, largeEnd: int, l: LO.List, order: seq<int>, k: nat)
    requires Sane(h, smallEnd, largeEnd) && h.objs == l.objs && LO.Linked(l, order) && k < |order| && forall a :: a in l.objs ==> a in order
    ensures LO.Unlinkable(l, order[k])
    ensures var m, rest := Unlinked(l, order[k]), order[..k] + order[k + 1..];
      && LO.Linked(m, rest) && (forall a :: a in m.objs ==> a in rest)
      && var g := h.(objs := m.objs);
         (Sane(g, smallEnd, largeEnd) && SameSizes(h, g) && forall q :: Live(g, q) <==> Live(h, q) && q != order[k] + LO.LARGE_HEADER)
  {
    hide LO.Linked, LO.Unlink, LO.Placed, BL.Arena, Live;
    var a, rest := order[k], order[..k] + order[k + 1..];
    LO.UnlinkRemoves(l, order, k);
    LO.UnlinkFields(l, a);
    RestOf(l, order, k);
    HeadListed(l, order);
    var u, m := LO.Unlink(l, a), Unlinked(l, a);
    LO.DropUnlinked(u, rest, a);
    LO.SameSizesPlaced(l.objs, m.objs, largeEnd);
    assert a in l.objs by { assert order[k] in order; }
    LargeNotSmall(h, smallEnd, largeEnd, a + LO.LARGE_HEADER, a);
    RemovedLive(h, a, m.objs);
  }

  lemma RemovedLive(h: View, a: int, objs: map<int, LO.LargeObj>)
    requires objs.Keys == h.objs.Keys - {a} && !SmallLive(h, a + LO.LARGE_HEADER)
    ensures forall q :: Live(h.(objs := objs), q) <==> Live(h, q) && q != a + LO.LARGE_HEADER
  {
    hide AllocatedAt, Shaped;
  }

  lemma LargeNotSmall(h: View, smallEnd: int, largeEnd: int, q: int, a: int)
    requires Sane(h, smallEnd, largeEnd) && a in h.objs && q == a + LO.LARGE_HEADER
    ensures !SmallLive(h, q)
  {
    assert q - LO.LARGE_HEADER == a;
    if SmallLive(h, q) { NotLargeToo(h, smallEnd, largeEnd, q); }
  }

  lemma RestOf(l: LO.List, order: seq<int>, k: nat)
    requires LO.Linked(l, order) && k < |order|
    ensures forall a :: a in order[..k] + order[k + 1..] <==> a in order && a != order[k]
  {
    LO.Distinct(l, order);
    hide LO.Linked;
    assert order == order[..k] + [order[k]] + order[k + 1..];
    forall j | 0 <= j < k ensures order[..k][j] != order[k] {}
    var tail := order[k + 1..];
    forall j | 0 <= j < |tail| ensures tail[j] != order[k] { assert tail[j] == order[k + 1 + j]; }
  }

  lemma WhichArena(h: View, smallEnd: int, largeEnd: int, p: int)
    requires Sane(h, smallEnd, largeEnd) && Live(h, p)
    ensures LO.LARGE_START <= p ==> LargeLive(h, p) && p < largeEnd
    ensures p < LO.LARGE_START ==> SmallLive(h, p) && BL.SMALL_START <= p < smallEnd && !LargeLive(h, p)
  {
    hide AllocatedAt, BlockOk, Shaped;
    if SmallLive(h, p) { SmallLiveWithin(h, smallEnd, p); }
    if LargeLive(h, p) { assert h.objs[p - LO.LARGE_HEADER] == h.objs[p - LO.LARGE_HEADER]; }
  }

  lemma LargeKnown(h: View, p: int)
    requires LargeLive(h, p)
    ensures p - LO.LARGE_HEADER in h.objs && Live(h, p) && Room(h, p) == LO.Capacity(h.objs[p - LO.LARGE_HEADER].objSize)
  {}

  lemma SmallKnown(h: View, p: int)
    requires SmallLive(h, p) && !LargeLive(h, p)
    ensures ForPointer(p) in h.blocks && Live(h, p) && Room(h, p) == h.blocks[ForPointer(p)].size
  {}

  ghost predicate SameSizes(h: View, g: View) {
    && g.blocks.Keys == h.blocks.Keys && (forall b {:trigger g.blocks[b]} :: b in g.blocks ==> g.blocks[b].size == h.blocks[b].size)
    && g.objs.Keys <= h.objs.Keys && (forall a {:trigger g.objs[a]} :: a in g.objs ==> g.objs[a].objSize == h.objs[a].objSize)
  }

  lemma StillThere(h: View, g: View, smallEnd: int, largeEnd: int, r: int)
    requires Sane(h, smallEnd, largeEnd) && Sane(g, smallEnd, largeEnd) && SameSizes(h, g) && Live(g, r)
    ensures SmallLive(h, r) ==> SmallLive(g, r) && g.blocks[ForPointer(r)].size == h.blocks[ForPointer(r)].size
    ensures LargeLive(h, r) ==> LargeLive(g, r) && g.objs[r - LO.LARGE_HEADER].objSize == h.objs[r - LO.LARGE_HEADER].objSize
  {
    WhichArena(g, smallEnd, largeEnd, r);
    if SmallLive(h, r) { SmallLiveWithin(h, smallEnd, r); }
    if LargeLive(h, r) { assert h.objs[r - LO.LARGE_HEADER] == h.objs[r - LO.LARGE_HEADER]; }
    hide AllocatedAt, BlockOk;
  }
}
