/** The layout of the small-object blocks of the garbage-collected heap (src/gc/heap.h): 4096-byte
    blocks of one object size each, a 56-byte header in front, and one free bit per 16-byte atom. */
module HeapLayout {
  import opened Commons

  const BLOCK_SIZE: nat := 4096
  const ATOM_SIZE: nat := 16
  const ATOMS_PER_BLOCK: nat := 256
  /** Bitfield, two pointers and the size. */
  const BLOCK_HEADER_SIZE: nat := 56

  const SIZES: seq<nat> := [
    16, 32, 48, 64,
    80, 96, 112, 128,
    160, 192, 224, 256,
    320, 384, 448, 512,
    640, 768, 896, 1024,
    1280, 1536, 1792, 2048]

  const NUM_BUCKETS: nat := 24

  /** What a block's prev points at. Only the first block of a list has it up to date. */
  datatype Link = Heads(bucket: nat) | FullHeads(bucket: nat) | NextOf(block: int)

  /** isfree is four words of 64 bits. */
  datatype Block = Block(next: int, prev: Link, size: nat, isfree: seq<seq<bool>>)

  predicate IsSize(size: nat) {
    16 <= size <= 2048 && size % ATOM_SIZE == 0 && exists i :: 0 <= i < |SIZES| && SIZES[i] == size
  }

  function MinObjIndex(size: nat): nat
    requires size > 0
  {
    (BLOCK_HEADER_SIZE + size - 1) / size
  }

  function NumObjects(size: nat): nat
    requires size > 0
  {
    BLOCK_SIZE / size
  }

  function AtomsPerObj(size: nat): nat {
    size / ATOM_SIZE
  }

  function ForPointer(p: int): int {
    p - p % BLOCK_SIZE
  }

  predicate Shaped(b: Block) {
    |b.isfree| == 4 && (forall w :: 0 <= w < 4 ==> |b.isfree[w]| == 64) && IsSize(b.size)
  }

  function Bit(b: Block, atom: nat): bool
    requires Shaped(b) && atom < ATOMS_PER_BLOCK
  {
    b.isfree[atom / 64][atom % 64]
  }

  function SetBit(b: Block, atom: nat, free: bool): Block
    requires Shaped(b) && atom < ATOMS_PER_BLOCK
  {
    b.(isfree := b.isfree[atom / 64 := b.isfree[atom / 64][atom % 64 := free]])
  }

  lemma SetBitBits(b: Block, atom: nat, free: bool)
    requires Shaped(b) && atom < ATOMS_PER_BLOCK
    ensures Shaped(SetBit(b, atom, free))
    ensures forall a: nat {:trigger Bit(SetBit(b, atom, free), a)} :: a < ATOMS_PER_BLOCK ==>
      Bit(SetBit(b, atom, free), a) == if a == atom then free else Bit(b, a)
  {
    hide IsSize;
    var c := SetBit(b, atom, free);
    forall a: nat | a < ATOMS_PER_BLOCK ensures Bit(c, a) == if a == atom then free else Bit(b, a) {
      assert a == 64 * (a / 64) + a % 64 && atom == 64 * (atom / 64) + atom % 64;
    }
  }

  /** Whether an atom is the first of an object slot. */
  predicate IsObjectAtom(size: nat, atom: nat)
    requires size >= 16
  {
    atom % AtomsPerObj(size) == 0 && MinObjIndex(size) <= atom / AtomsPerObj(size) < NumObjects(size)
  }

  /** Free bits only stand at object slots. */
  predicate BlockOk(b: Block) {
    Shaped(b) && forall a: nat {:trigger Bit(b, a)} :: a < ATOMS_PER_BLOCK && Bit(b, a) ==> IsObjectAtom(b.size, a)
  }

  /** An object is allocated at this offset of the block. */
  predicate AllocatedAt(b: Block, offset: nat)
    requires Shaped(b)
  {
    && offset < BLOCK_SIZE && offset % b.size == 0
    && MinObjIndex(b.size) <= offset / b.size < NumObjects(b.size)
    && !Bit(b, offset / ATOM_SIZE)
  }

  // ---- arithmetic -------------------------------------------------------------------------

  lemma DivMul(a: nat, d: nat)
    requires d > 0
    ensures a / d * d <= a < a / d * d + d && a / d * d + a % d == a
  {}

  lemma MulDiv(q: nat, d: nat)
    requires d > 0
    ensures (q * d) / d == q && (q * d) % d == 0
  {
    DivMul(q * d, d);
    var k := (q * d) / d;
    assert k * d + (q * d) % d == q * d;
    if k < q {
      MulLess(k, q, d);
    } else if q < k {
      MulLess(q, k, d);
    }
  }

  lemma MulLess(a: nat, b: nat, d: nat)
    requires a < b
    ensures a * d + d <= b * d
  {
    if a + 1 < b { MulLess(a, b - 1, d); }
    assert b * d == (b - 1) * d + d;
  }

  lemma DivOf(x: nat, d: nat, k: nat)
    requires d > 0 && k * d <= x < k * d + d
    ensures x / d == k
  {
    DivMul(x, d);
    if x / d < k {
      MulLess(x / d, k, d);
    } else if k < x / d {
      MulLess(k, x / d, d);
    }
  }

  lemma SizeHasRoom(size: nat)
    requires IsSize(size)
    ensures 0 < MinObjIndex(size) < NumObjects(size)
  {
    if size >= 56 {
      assert 56 + size - 1 < 2 * size;
      DivOf(56 + size - 1, size, 1);
      DivMul(4096, size);
      if NumObjects(size) < 2 { MulLess(NumObjects(size), 2, size); }
    } else {
      assert size == 16 || size == 32 || size == 48;
    }
  }

  /** The slot of object k lies between the header and the end of the block, and its atom
      determines it. */
  lemma SlotOf(size: nat, k: nat)
    requires IsSize(size) && MinObjIndex(size) <= k < NumObjects(size)
    ensures BLOCK_HEADER_SIZE <= k * size && k * size + size <= BLOCK_SIZE
    ensures k * AtomsPerObj(size) < ATOMS_PER_BLOCK && k * AtomsPerObj(size) * ATOM_SIZE == k * size
    ensures IsObjectAtom(size, k * AtomsPerObj(size))
    ensures (k * size) % size == 0 && (k * size) / size == k && (k * size) / ATOM_SIZE == k * AtomsPerObj(size)
  {
    assert size > 0 && size % 16 == 0;
    hide IsSize;
    SlotRoom(size, k);
    SlotAtom(size, k);
    MulDiv(k, size);
  }

  lemma SlotRoom(size: nat, k: nat)
    requires size > 0 && MinObjIndex(size) <= k < NumObjects(size)
    ensures BLOCK_HEADER_SIZE <= k * size && k * size + size <= BLOCK_SIZE
  {
    var lo, hi := MinObjIndex(size), NumObjects(size);
    DivMul(BLOCK_SIZE, size);
    DivMul(BLOCK_HEADER_SIZE + size - 1, size);
    assert BLOCK_HEADER_SIZE <= lo * size && hi * size <= BLOCK_SIZE;
    hide MinObjIndex, NumObjects;
    MulLess(k, hi, size);
    if lo < k { MulLess(lo, k, size); }
  }

  /** The slots are all those that fit between the header and the end of the block. */
  lemma SlotsAreAll(size: nat, k: nat)
    requires size > 0
    ensures MinObjIndex(size) <= k < NumObjects(size) <==> BLOCK_HEADER_SIZE <= k * size && k * size + size <= BLOCK_SIZE
  {
    var lo, hi := MinObjIndex(size), NumObjects(size);
    DivMul(BLOCK_SIZE, size);
    DivMul(BLOCK_HEADER_SIZE + size - 1, size);
    assert BLOCK_HEADER_SIZE <= lo * size < BLOCK_HEADER_SIZE + size && hi * size <= BLOCK_SIZE < hi * size + size;
    hide MinObjIndex, NumObjects;
    if lo < k { MulLess(lo, k, size); }
    if k < lo { MulLess(k, lo, size); }
    if k < hi { MulLess(k, hi, size); }
    if hi < k { MulLess(hi, k, size); }
  }

  lemma SlotAtom(size: nat, k: nat)
    requires size >= 16 && size % 16 == 0 && MinObjIndex(size) <= k < NumObjects(size)
    ensures k * AtomsPerObj(size) < ATOMS_PER_BLOCK && k * AtomsPerObj(size) * ATOM_SIZE == k * size
    ensures IsObjectAtom(size, k * AtomsPerObj(size)) && (k * size) / ATOM_SIZE == k * AtomsPerObj(size)
  {
    SlotRoom(size, k);
    hide MinObjIndex, NumObjects;
    var apo := AtomsPerObj(size);
    assert size == apo * 16;
    MulDiv(k, apo);
    Regroup(k, apo);
  }

  lemma Regroup(k: nat, apo: nat)
    ensures k * (apo * 16) == k * apo * 16
  {}

  /** Every object atom is the atom of some slot. */
  lemma AtomIsSlot(size: nat, atom: nat)
    requires IsSize(size) && atom < ATOMS_PER_BLOCK && IsObjectAtom(size, atom)
    ensures var k := atom / AtomsPerObj(size); MinObjIndex(size) <= k < NumObjects(size) && k * AtomsPerObj(size) == atom
  {
    DivMul(atom, AtomsPerObj(size));
  }

  /** Two different slots of a block do not overlap. */
  lemma SlotsDisjoint(b: Block, o: nat, p: nat)
    requires Shaped(b) && AllocatedAt(b, o) && AllocatedAt(b, p) && o < p
    ensures o + b.size <= p
  {
    assert b.size > 0;
    hide Bit, IsSize, MinObjIndex, NumObjects;
    MultiplesApart(o, p, b.size);
  }

  lemma MultiplesApart(o: nat, p: nat, d: nat)
    requires d > 0 && o % d == 0 && p % d == 0 && o < p
    ensures o + d <= p
  {
    DivMul(o, d);
    DivMul(p, d);
    var j, k := o / d, p / d;
    assert o == j * d && p == k * d;
    if k <= j {
      if k < j { MulLess(k, j, d); }
    } else {
      MulLess(j, k, d);
    }
  }

  /** An allocated object lies behind the header and within the block, 16-byte aligned. */
  lemma AllocatedWithin(b: Block, o: nat)
    requires Shaped(b) && AllocatedAt(b, o)
    ensures BLOCK_HEADER_SIZE <= o && o + b.size <= BLOCK_SIZE && o % 16 == 0
    ensures o == o / b.size * b.size && o / ATOM_SIZE == o / b.size * AtomsPerObj(b.size)
  {
    hide Bit;
    DivMul(o, b.size);
    SlotOf(b.size, o / b.size);
  }

  /** Where object k of a block starts, in bytes and in atoms. */
  function SlotOffset(size: nat, k: nat): nat { k * size }

  function SlotAtomIndex(size: nat, k: nat): nat { k * AtomsPerObj(size) }

  /** Object k of the block is allocated where its free bit is clear. */
  lemma AllocatedSlot(b: Block, k: nat)
    requires Shaped(b) && MinObjIndex(b.size) <= k < NumObjects(b.size)
    ensures SlotAtomIndex(b.size, k) < ATOMS_PER_BLOCK
    ensures AllocatedAt(b, SlotOffset(b.size, k)) <==> !Bit(b, SlotAtomIndex(b.size, k))
  {
    SlotOf(b.size, k);
  }

  /** Changing the free bit of slot k changes the allocation of that object only. */
  lemma SetSlot(b: Block, k: nat, free: bool)
    requires BlockOk(b) && MinObjIndex(b.size) <= k < NumObjects(b.size)
    ensures SlotAtomIndex(b.size, k) < ATOMS_PER_BLOCK
    ensures var c := SetBit(b, SlotAtomIndex(b.size, k), free);
      BlockOk(c) && forall o: nat {:trigger AllocatedAt(c, o)} :: AllocatedAt(c, o) <==> (if o == SlotOffset(b.size, k) then !free else AllocatedAt(b, o))
  {
    SlotOf(b.size, k);
    var atom := SlotAtomIndex(b.size, k);
    var c := SetBit(b, atom, free);
    SetBitBits(b, atom, free);
    hide IsSize, MinObjIndex, NumObjects, Bit, SetBit, Shaped;
    forall o: nat ensures AllocatedAt(c, o) <==> (if o == SlotOffset(b.size, k) then !free else AllocatedAt(b, o)) {
      if o < BLOCK_SIZE && o % b.size == 0 && MinObjIndex(b.size) <= o / b.size < NumObjects(b.size) {
        DivMul(o, b.size);
        SlotOf(b.size, o / b.size);
        SameAtom(b.size, k, o / b.size);
      }
    }
  }

  lemma SameAtom(size: nat, j: nat, k: nat)
    requires IsSize(size)
    ensures j * AtomsPerObj(size) == k * AtomsPerObj(size) <==> j == k
  {
    if j < k {
      MulLess(j, k, AtomsPerObj(size));
    } else if k < j {
      MulLess(k, j, AtomsPerObj(size));
    }
  }

  // ---- interior pointers ------------------------------------------------------------------

  /** getAllocationFromInteriorPointer inside one block: the offset of the allocated object. */
  function LookupOffset(b: Block, offset: nat): Option<nat>
    requires Shaped(b) && offset < BLOCK_SIZE
  {
    var k := offset / b.size;
    if k < MinObjIndex(b.size) || k >= NumObjects(b.size) then None
    else
      SlotOf(b.size, k);
      var atom := k * (b.size / ATOM_SIZE);
      if Bit(b, atom) then None else Some(atom * ATOM_SIZE)
  }

  /** The lookup agrees with searching all allocated objects of the block for the one around the
      address. */
  lemma LookupIsSearch(b: Block, offset: nat, o: nat)
    requires Shaped(b) && offset < BLOCK_SIZE
    ensures LookupOffset(b, offset) == Some(o) <==> AllocatedAt(b, o) && o <= offset < o + b.size
  {
    DivMul(offset, b.size);
    var k := offset / b.size;
    if MinObjIndex(b.size) <= k < NumObjects(b.size) {
      SlotOf(b.size, k);
    }
    if AllocatedAt(b, o) && o <= offset < o + b.size {
      AllocatedWithin(b, o);
      DivOf(offset, b.size, o / b.size);
    }
  }
}
