/** The doubly-linked list of large objects (LargeObj in src/gc/heap.cpp). Addresses are integers,
    0 is NULL; an object's header of three words stands in front of its data. */
module LargeObjects {
  const PAGE_SIZE: int := 4096
  const LARGE_HEADER: int := 24

  /** What prev points at: the list head, or the next field of another object. */
  datatype LargeLink = ListHead | NextOf(obj: int)

  datatype LargeObj = LargeObj(next: int, prev: LargeLink, objSize: nat)

  /** The pages an object takes, its header included (mmap_size). */
  function MmapSize(objSize: nat): (r: nat)
    ensures r % PAGE_SIZE == 0 && objSize + LARGE_HEADER <= r < objSize + LARGE_HEADER + PAGE_SIZE
  {
    (objSize + LARGE_HEADER + PAGE_SIZE - 1) / PAGE_SIZE * PAGE_SIZE
  }

  function Capacity(objSize: nat): int {
    MmapSize(objSize) - LARGE_HEADER
  }

  datatype List = List(head: int, objs: map<int, LargeObj>)

  function FirstOf(order: seq<int>): int {
    if order == [] then 0 else order[0]
  }

  function NextAt(order: seq<int>, i: nat): int
    requires i < |order|
  {
    if i + 1 < |order| then order[i + 1] else 0
  }

  function PrevAt(order: seq<int>, i: nat): LargeLink
    requires i < |order|
  {
    if i == 0 then ListHead else NextOf(order[i - 1])
  }

  /** The list visits exactly `order`, and every prev leads back. */
  ghost predicate Linked(l: List, order: seq<int>) {
    && l.head == FirstOf(order)
    && (forall i, j {:trigger order[i], order[j]} :: 0 <= i < j < |order| ==> order[i] != order[j])
    && (forall i {:trigger order[i]} :: 0 <= i < |order| ==>
          && order[i] in l.objs && order[i] != 0
          && l.objs[order[i]].next == NextAt(order, i) && l.objs[order[i]].prev == PrevAt(order, i))
  }

  /** *link = target. */
  function StoreNext(l: List, link: LargeLink, target: int): List
    requires link.ListHead? || link.obj in l.objs
  {
    match link
    case ListHead => l.(head := target)
    case NextOf(obj) => l.(objs := l.objs[obj := l.objs[obj].(next := target)])
  }

  /** The two stores that take an object out of the list. */
  function Unlink(l: List, a: int): List
    requires a in l.objs && (l.objs[a].prev.NextOf? ==> l.objs[a].prev.obj in l.objs)
    requires l.objs[a].next != 0 ==> l.objs[a].next in l.objs
  {
    var next, prev := l.objs[a].next, l.objs[a].prev;
    var m := StoreNext(l, prev, next);
    if next != 0 then m.(objs := m.objs[next := m.objs[next].(prev := prev)]) else m
  }

  ghost predicate Unlinkable(l: List, a: int) {
    && a in l.objs && (l.objs[a].prev.NextOf? ==> l.objs[a].prev.obj in l.objs && l.objs[a].prev.obj != a)
    && (l.objs[a].next != 0 ==> l.objs[a].next in l.objs && l.objs[a].next != a)
  }

  lemma LinkedUnlinkable(l: List, order: seq<int>, k: nat)
    requires Linked(l, order) && k < |order|
    ensures Unlinkable(l, order[k])
  {}

  /** What unlinking does to each object's fields: those of the object itself stay. */
  lemma UnlinkFields(l: List, a: int)
    requires Unlinkable(l, a)
    ensures var m := Unlink(l, a);
      && m.objs.Keys == l.objs.Keys && m.objs[a] == l.objs[a]
      && m.head == (if l.objs[a].prev.ListHead? then l.objs[a].next else l.head)
      && forall x {:trigger m.objs[x]} :: x in l.objs && x != a ==>
           && m.objs[x].next == (if l.objs[a].prev == NextOf(x) then l.objs[a].next else l.objs[x].next)
           && m.objs[x].prev == (if l.objs[a].next == x && x != 0 then l.objs[a].prev else l.objs[x].prev)
           && m.objs[x].objSize == l.objs[x].objSize
  {}

  /** Doing it a second time, as the sweep does, changes nothing. */
  lemma UnlinkTwice(l: List, a: int)
    requires Unlinkable(l, a)
    ensures Unlinkable(Unlink(l, a), a) && Unlink(Unlink(l, a), a) == Unlink(l, a)
  {
    var m := Unlink(l, a);
    UnlinkFields(l, a);
    hide Unlink;
    UnlinkFields(m, a);
    forall x | x in m.objs ensures Unlink(m, a).objs[x] == m.objs[x] {}
  }

  /** Unlinking takes exactly that object out of the list. */
  lemma UnlinkRemoves(l: List, order: seq<int>, k: nat)
    requires Linked(l, order) && k < |order|
    ensures Unlinkable(l, order[k]) && Linked(Unlink(l, order[k]), order[..k] + order[k + 1..])
  {
    var a := order[k];
    LinkedUnlinkable(l, order, k);
    UnlinkFields(l, a);
    hide Unlink, Unlinkable;
    var m, rest := Unlink(l, a), order[..k] + order[k + 1..];
    forall i | 0 <= i < |rest| ensures rest[i] == order[if i < k then i else i + 1] {}
    assert m.head == FirstOf(rest);
    forall i | 0 <= i < |rest|
      ensures rest[i] in m.objs && rest[i] != 0 && m.objs[rest[i]].next == NextAt(rest, i) && m.objs[rest[i]].prev == PrevAt(rest, i)
    {
      RelinkedAt(l, m, order, rest, k, i);
    }
  }

  lemma RelinkedAt(l: List, m: List, order: seq<int>, rest: seq<int>, k: nat, i: nat)
    requires Linked(l, order) && k < |order| && rest == order[..k] + order[k + 1..] && i < |rest|
    requires m.objs.Keys == l.objs.Keys
    requires forall x {:trigger m.objs[x]} :: x in l.objs && x != order[k] ==>
      && m.objs[x].next == (if l.objs[order[k]].prev == NextOf(x) then l.objs[order[k]].next else l.objs[x].next)
      && m.objs[x].prev == (if l.objs[order[k]].next == x && x != 0 then l.objs[order[k]].prev else l.objs[x].prev)
    ensures rest[i] in m.objs && rest[i] != 0 && m.objs[rest[i]].next == NextAt(rest, i) && m.objs[rest[i]].prev == PrevAt(rest, i)
  {
    hide NextAt, PrevAt;
    var j := if i < k then i else i + 1;
    var x, a := order[j], order[k];
    assert rest[i] == x && x != a && x in l.objs && x != 0;
    assert l.objs[a].prev == PrevAt(order, k) && l.objs[a].next == NextAt(order, k);
    assert l.objs[x].prev == PrevAt(order, j) && l.objs[x].next == NextAt(order, j);
    SkippedNext(l, order, k, i);
    SkippedPrev(l, order, k, i);
  }

  lemma SkippedNext(l: List, order: seq<int>, k: nat, i: nat)
    requires Linked(l, order) && k < |order| && i + 1 < |order|
    ensures var j, rest := if i < k then i else i + 1, order[..k] + order[k + 1..];
      NextAt(rest, i) == if PrevAt(order, k) == NextOf(order[j]) then NextAt(order, k) else NextAt(order, j)
  {
    Distinct(l, order);
    hide Linked;
  }

  lemma SkippedPrev(l: List, order: seq<int>, k: nat, i: nat)
    requires Linked(l, order) && k < |order| && i + 1 < |order|
    ensures var j, rest := if i < k then i else i + 1, order[..k] + order[k + 1..];
      PrevAt(rest, i) == if NextAt(order, k) == order[j] && order[j] != 0 then PrevAt(order, k) else PrevAt(order, j)
  {
    Distinct(l, order);
    hide Linked;
  }

  lemma Distinct(l: List, order: seq<int>)
    requires Linked(l, order)
    ensures forall i, j {:trigger order[i], order[j]} :: 0 <= i < j < |order| ==> order[i] != order[j]
    ensures 0 !in order
  {
    hide NextAt, PrevAt;
  }

  lemma DropUnlinked(l: List, order: seq<int>, a: int)
    requires Linked(l, order) && a !in order
    ensures Linked(l.(objs := l.objs - {a}), order)
  {}

  /** allocLarge's stores: the new object becomes the head. */
  function Push(l: List, a: int, objSize: nat): List
    requires l.head != 0 ==> l.head in l.objs
  {
    var m := l.objs[a := LargeObj(l.head, ListHead, objSize)];
    var n := if l.head != 0 && l.head in m then m[l.head := m[l.head].(prev := NextOf(a))] else m;
    List(a, n)
  }

  lemma PushLinks(l: List, order: seq<int>, a: int, objSize: nat)
    requires Linked(l, order) && a != 0 && a !in order
    ensures Linked(Push(l, a, objSize), [a] + order)
    ensures Push(l, a, objSize).objs.Keys == l.objs.Keys + {a}
    ensures forall b :: b in l.objs && b != a ==> Push(l, a, objSize).objs[b].objSize == l.objs[b].objSize
    ensures Push(l, a, objSize).objs[a].objSize == objSize
  {
    var m, all := Push(l, a, objSize), [a] + order;
    forall i | 0 <= i < |all| ensures m.objs[all[i]].next == NextAt(all, i) && m.objs[all[i]].prev == PrevAt(all, i) {
      if i > 0 {
        assert all[i] == order[i - 1];
        if i > 1 { assert all[i - 1] == order[i - 2]; }
      }
    }
  }

  // ---- where the objects lie ----------------------------------------------------------------

  const LARGE_START: int := 0x22_7000_0000

  /** Objects lie on whole pages below the arena's end, none overlapping another. */
  ghost predicate Placed(objs: map<int, LargeObj>, end: int) {
    && LARGE_START <= end && end % PAGE_SIZE == 0
    && (forall a {:trigger objs[a]} :: a in objs ==> LARGE_START <= a && a % PAGE_SIZE == 0 && a + MmapSize(objs[a].objSize) <= end)
    && (forall a, b {:trigger objs[a], objs[b]} :: a in objs && b in objs && a < b ==> a + MmapSize(objs[a].objSize) <= b)
  }

  /** The address falls between an object's header and the end of its recorded size. */
  predicate Covers(objs: map<int, LargeObj>, a: int, p: int)
    requires a in objs
  {
    a <= p < a + LARGE_HEADER + objs[a].objSize
  }

  lemma CoversOne(objs: map<int, LargeObj>, end: int, a: int, b: int, p: int)
    requires Placed(objs, end) && a in objs && b in objs && Covers(objs, a, p) && Covers(objs, b, p)
    ensures a == b
  {}

  lemma SameSizesPlaced(objs: map<int, LargeObj>, other: map<int, LargeObj>, end: int)
    requires Placed(objs, end) && other.Keys <= objs.Keys
    requires forall a :: a in other ==> other[a].objSize == objs[a].objSize
    ensures Placed(other, end)
  {}

  /** A new object at the end of the arena overlaps none. */
  lemma AddedPlaced(objs: map<int, LargeObj>, other: map<int, LargeObj>, end: int, size: nat)
    requires Placed(objs, end) && other.Keys == objs.Keys + {end} && end !in objs
    requires forall a {:trigger other[a]} :: a in other ==> other[a].objSize == if a == end then size else objs[a].objSize
    ensures Placed(other, end + MmapSize(size))
  {
    var n := MmapSize(size);
    hide MmapSize;
    assert n % PAGE_SIZE == 0 && n > 0;
    PagesAdd(end, n);
    forall a | a in other ensures LARGE_START <= a && a % PAGE_SIZE == 0 && a + MmapSize(other[a].objSize) <= end + n {
      if a != end { assert a + MmapSize(objs[a].objSize) <= end; }
    }
    forall a, b | a in other && b in other && a < b ensures a + MmapSize(other[a].objSize) <= b {
      if b == end {
        assert a + MmapSize(objs[a].objSize) <= end;
      } else {
        assert b + MmapSize(objs[b].objSize) <= end;
        assert a != end && a + MmapSize(objs[a].objSize) <= b;
      }
    }
  }

  lemma PagesAdd(a: int, b: int)
    requires a % PAGE_SIZE == 0 && b % PAGE_SIZE == 0
    ensures (a + b) % PAGE_SIZE == 0
  {}
}
