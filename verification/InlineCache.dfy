/** Inline caches (src/asm_writing/icinfo.cpp): a patchpoint's slots of code, the rewrites that fill
    them, and the invalidators that clear them when something they rely on changes. */
module InlineCache {
  import opened Commons
  import opened Assembler

  const COND_NOT_EQUAL: nat := 5

  /** A rewrite's dependencies: the invalidator and its version when the rewrite asked. */
  type Dependencies = seq<(ICInvalidator, int)>

  /** What a slot holds: the jump to the slow path it starts with, a jump to the next slot, or a
      rewrite's code with its guard jumps and its final jump. */
  datatype Content =
    | Untouched
    | Emptied
    | Live(deps: Dependencies, misses: seq<nat>, exit: nat)

  datatype SlotInfo = SlotInfo(isPatched: bool, decisionPath: nat, entry: ICSlotInfo)

  /** `int orig_version` holds the low 32 bits of the 64-bit version. */
  function ToInt32(n: int): int {
    Signed32(n % 0x1_0000_0000)
  }

  /** A version that was recorded earlier survives the truncation and the comparison exactly when
      it is still the current one and fits. */
  lemma VersionCheck(recorded: nat, current: nat)
    requires recorded <= current
    ensures ToInt32(recorded) == current <==> recorded == current && recorded < 0x8000_0000
  {}

  // ---- layout -----------------------------------------------------------------------------------

  function SlotStart(i: nat, slotSize: nat): nat {
    i * slotSize
  }

  lemma SlotBounds(i: nat, numSlots: nat, slotSize: nat)
    requires i < numSlots
    ensures SlotStart(i, slotSize) + slotSize <= SlotStart(numSlots, slotSize)
  {
    assert (numSlots - i - 1) * slotSize >= 0;
  }

  lemma SlotsApart(i: nat, j: nat, slotSize: nat)
    requires i < j
    ensures SlotStart(i, slotSize) + slotSize <= SlotStart(j, slotSize)
  {
    SlotBounds(i, j, slotSize);
  }

  /** Every slot has room for a nop and the jumps that are written over it. */
  predicate JumpsFit(numSlots: nat, slotSize: nat) {
    && slotSize < 0x4000_0000 && SlotStart(numSlots, slotSize) < 0x4000_0000
    && forall i {:trigger ToSlowPath(i, numSlots, slotSize)} :: 0 <= i < numSlots ==>
         1 + JmpLength(ToSlowPath(i, numSlots, slotSize), 1) <= slotSize && 1 + JmpLength(slotSize, 1) <= slotSize
  }

  /** From slot i, how far the slow path is. */
  function ToSlowPath(i: nat, numSlots: nat, slotSize: nat): int {
    slotSize * (numSlots - i)
  }

  predicate JumpsTo(slot: seq<byte>, pos: nat, target: int) {
    match DecodeJmp(slot, pos)
    case Some(j) => j.target == target
    case None => false
  }

  predicate MissesTo(slot: seq<byte>, pos: nat, target: int) {
    match DecodeJcc(slot, pos, COND_NOT_EQUAL)
    case Some(j) => j.target == target
    case None => false
  }

  /** The slot's bytes do what its content says. */
  ghost predicate SlotOk(slot: seq<byte>, c: Content, i: nat, numSlots: nat, slotSize: nat, continueOffset: int) {
    && |slot| == slotSize
    && match c
       case Untouched => slotSize > 0 && slot[0] == NOP && JumpsTo(slot, 1, ToSlowPath(i, numSlots, slotSize))
       case Emptied => slotSize > 0 && slot[0] == NOP && JumpsTo(slot, 1, slotSize)
       case Live(deps, misses, exit) =>
         && JumpsTo(slot, exit, continueOffset - SlotStart(i, slotSize))
         && forall k :: 0 <= k < |misses| ==> MissesTo(slot, misses[k], slotSize)
  }

  class ICSlotInfo {
    const ic: ICInfo
    const idx: nat

    constructor (ic: ICInfo, idx: nat)
      ensures this.ic == ic && this.idx == idx
    {
      this.ic, this.idx := ic, idx;
    }
  }

  class ICInfo {
    const numSlots: nat
    const slotSize: nat
    /** Where the program goes on, counted from the patchpoint's start; the slow path follows the slots. */
    const continueOffset: int
    const code: array<byte>
    var slots: seq<SlotInfo>
    ghost var content: seq<Content>

    function Slot(i: nat): (r: seq<byte>)
      requires i < numSlots && code.Length == SlotStart(numSlots, slotSize)
      reads code
      ensures |r| == slotSize
    {
      SlotBounds(i, numSlots, slotSize);
      code[SlotStart(i, slotSize)..SlotStart(i, slotSize) + slotSize]
    }

    /** The bytes of the first n slots do what their contents say. */
    ghost predicate SlotsOk(n: nat)
      requires n <= |content| && n <= numSlots && code.Length == SlotStart(numSlots, slotSize)
      reads this, code
    {
      forall i {:trigger content[i]} :: 0 <= i < n ==> SlotOk(Slot(i), content[i], i, numSlots, slotSize, continueOffset)
    }

    /** The slot table agrees with the contents, and the patched slots come first. */
    ghost predicate TableOk()
      reads this
    {
      && |slots| == |content|
      && (forall i {:trigger slots[i]} :: 0 <= i < |slots| ==>
            slots[i].entry.ic == this && slots[i].entry.idx == i && (slots[i].isPatched <==> !content[i].Untouched?))
      && (forall i, j {:trigger slots[i], slots[j]} :: 0 <= i < j < |slots| && slots[j].isPatched ==> slots[i].isPatched)
    }

    ghost predicate Valid()
      reads this, code
    {
      && code.Length == SlotStart(numSlots, slotSize) <= continueOffset && JumpsFit(numSlots, slotSize)
      && TableOk() && |slots| == numSlots && SlotsOk(numSlots)
    }

    /** Writes a nop and a jump over the start of a slot. */
    method WriteJump(i: nat, target: int)
      requires i < numSlots && code.Length == SlotStart(numSlots, slotSize)
      requires 1 + JmpLength(target, 1) <= slotSize && Encodable(target, 1)
      modifies code
      ensures slotSize > 0 && Slot(i)[0] == NOP && JumpsTo(Slot(i), 1, target)
      ensures forall k :: 0 <= k < code.Length && !(SlotStart(i, slotSize) <= k < SlotStart(i, slotSize) + slotSize) ==> code[k] == old(code[k])
    {
      hide SlotStart, DecodeJmp, Encodable, IsShort;
      SlotBounds(i, numSlots, slotSize);
      var writer := new Assembler(code, SlotStart(i, slotSize), slotSize);
      writer.Nop();
      writer.Jmp(target);
      hide JmpLength;
      assert Slot(i) == writer.Code();
    }

    /** registerCompiledPatchpoint: every slot starts out jumping to the slow path. */
    constructor (numSlots: nat, slotSize: nat, continueOffset: int)
      requires JumpsFit(numSlots, slotSize) && SlotStart(numSlots, slotSize) <= continueOffset
      ensures Valid() && this.numSlots == numSlots && this.slotSize == slotSize && this.continueOffset == continueOffset
      ensures fresh(code) && forall i :: 0 <= i < numSlots ==> content[i].Untouched?
    {
      this.numSlots, this.slotSize, this.continueOffset := numSlots, slotSize, continueOffset;
      code := new byte[SlotStart(numSlots, slotSize)](_ => NOP);
      slots, content := [], [];
      new;
      hide SlotStart, ToSlowPath, SlotOk, SlotsOk, JumpsFit, TableOk, Slot;
      NoneYet();
      for i := 0 to numSlots
        invariant code.Length == SlotStart(numSlots, slotSize) && |slots| == |content| == i && TableOk() && SlotsOk(i)
        invariant forall j :: 0 <= j < i ==> content[j].Untouched?
      {
        JumpEncodable(i, numSlots, slotSize);
        label L:
        WriteJump(i, slotSize * (numSlots - i));
        var entry := new ICSlotInfo(this, i);
        slots, content := slots + [SlotInfo(false, 0, entry)], content + [Untouched];
        UntouchedOk(Slot(i), i, numSlots, slotSize, continueOffset);
        OthersStay@L(i);
        TableGrows@L(entry);
        SlotsGrow@L(i);
      }
    }

    lemma NoneYet()
      requires slots == [] && content == [] && code.Length == SlotStart(numSlots, slotSize)
      ensures TableOk() && SlotsOk(0)
    {}

    twostate lemma TableGrows(new entry: ICSlotInfo)
      requires old(TableOk()) && entry.ic == this && entry.idx == |old(slots)|
      requires slots == old(slots) + [SlotInfo(false, 0, entry)] && content == old(content) + [Untouched]
      ensures TableOk()
    {}

    twostate lemma SlotsGrow(i: nat)
      requires code.Length == SlotStart(numSlots, slotSize) && i < numSlots && |old(content)| == i && content == old(content) + [Untouched]
      requires old(SlotsOk(i)) && SlotOk(Slot(i), Untouched, i, numSlots, slotSize, continueOffset)
      requires forall j {:trigger Slot(j)} :: 0 <= j < numSlots && j != i ==> Slot(j) == old(Slot(j))
      ensures SlotsOk(i + 1)
    {
      hide SlotOk, Slot, SlotStart;
      forall j | 0 <= j < i + 1 ensures SlotOk(Slot(j), content[j], j, numSlots, slotSize, continueOffset) {
        if j < i { assert content[j] == old(content[j]) && Slot(j) == old(Slot(j)); }
      }
    }

    /** Writing over one slot leaves the others' bytes alone. */
    twostate lemma OthersStay(i: nat)
      requires i < numSlots && code.Length == SlotStart(numSlots, slotSize)
      requires forall k :: 0 <= k < code.Length && !(SlotStart(i, slotSize) <= k < SlotStart(i, slotSize) + slotSize) ==> code[k] == old(code[k])
      ensures forall j {:trigger Slot(j)} :: 0 <= j < numSlots && j != i ==> Slot(j) == old(Slot(j))
    {
      forall j | 0 <= j < numSlots && j != i ensures Slot(j) == old(Slot(j)) {
        SlotBounds(j, numSlots, slotSize);
        if j < i { SlotsApart(j, i, slotSize); } else { SlotsApart(i, j, slotSize); }
        hide SlotStart;
      }
    }

    twostate lemma SameValid()
      requires old(Valid()) && slots == old(slots) && content == old(content) && code[..] == old(code[..])
      ensures Valid()
    {
      hide SlotOk, SlotStart, JumpsFit;
      forall i | 0 <= i < numSlots ensures SlotOk(Slot(i), content[i], i, numSlots, slotSize, continueOffset) {
        assert Slot(i) == old(Slot(i)) by { SlotIs(i); }
      }
    }

    twostate lemma SlotIs(i: nat)
      requires i < numSlots && code.Length == SlotStart(numSlots, slotSize) && code[..] == old(code[..])
      ensures Slot(i) == old(Slot(i))
    {
      SlotBounds(i, numSlots, slotSize);
      hide SlotStart;
      var at := SlotStart(i, slotSize);
      assert code[at..at + slotSize] == code[..][at..at + slotSize];
      assert old(code[at..at + slotSize]) == old(code[..])[at..at + slotSize];
    }

    /** clear: the slot's code is replaced by a jump to the next slot; it stays marked as patched. */
    method Clear(entry: ICSlotInfo)
      requires Valid() && entry.idx < numSlots && slots[entry.idx].isPatched
      modifies code, this`content
      ensures Valid() && content == old(content)[entry.idx := Emptied]
    {
      hide SlotStart, ToSlowPath, SlotOk;
      JumpEncodable(entry.idx, numSlots, slotSize);
      label L:
      WriteJump(entry.idx, slotSize);
      EmptiedOk(Slot(entry.idx), entry.idx, numSlots, slotSize, continueOffset);
      OthersStay@L(entry.idx);
      content := content[entry.idx := Emptied];
    }

    /** Only slot i was changed, and it is marked as patched. */
    twostate predicate ChangedAt(i: nat)
      reads this
    {
      && |slots| == |content| == |old(slots)| == |old(content)| && i < |slots|
      && slots == old(slots)[i := slots[i]] && content == old(content)[i := content[i]]
      && slots[i].entry == old(slots[i].entry) && slots[i].isPatched
    }

    /** Filling the picked slot keeps the table and the bytes in order. */
    twostate lemma Filled(new i: nat, new decisionPath: nat)
      requires old(Valid()) && i < numSlots && Picked(old(slots), decisionPath, 0, true) == Some(i)
      requires slots == old(slots)[i := old(slots)[i].(isPatched := true, decisionPath := decisionPath)]
      requires |content| == |old(content)| && content == old(content)[i := content[i]] && content[i].Live?
      requires SlotOk(Slot(i), content[i], i, numSlots, slotSize, continueOffset)
      requires forall j {:trigger Slot(j)} :: 0 <= j < numSlots && j != i ==> Slot(j) == old(Slot(j))
      ensures Valid() && ChangedAt(i)
    {
      hide SlotOk, SlotStart, JumpsFit, Slot, Picked;
      PickedIsFirst(old(slots), decisionPath, 0, true);
      assert SlotsOk(numSlots) by {
        forall j | 0 <= j < numSlots ensures SlotOk(Slot(j), content[j], j, numSlots, slotSize, continueOffset) {
          if j != i { assert content[j] == old(content)[j] && Slot(j) == old(Slot(j)); }
        }
      }
      assert TableOk() by {
        forall j | 0 <= j < |slots| ensures slots[j].entry == old(slots)[j].entry {}
      }
    }

    /** pickEntryForRewrite: the first slot never used, else the first one used for the same
        decision path. */
    method PickEntryForRewrite(decisionPath: nat) returns (r: Option<nat>)
      requires |slots| == numSlots
      modifies this`slots
      ensures r == Picked(old(slots), decisionPath, 0, true)
      ensures match r
        case None => slots == old(slots)
        case Some(i) => i < numSlots && slots == old(slots)[i := old(slots)[i].(isPatched := true, decisionPath := decisionPath)]
    {
      for i := 0 to numSlots
        invariant slots == old(slots) && Picked(slots, decisionPath, 0, true) == Picked(slots, decisionPath, i, true)
      {
        if !slots[i].isPatched {
          slots := slots[i := slots[i].(isPatched := true, decisionPath := decisionPath)];
          return Some(i);
        }
      }
      for i := 0 to numSlots
        invariant slots == old(slots) && Picked(slots, decisionPath, 0, true) == Picked(slots, decisionPath, i, false)
      {
        if slots[i].isPatched && slots[i].decisionPath != decisionPath { continue; }
        slots := slots[i := slots[i].(isPatched := true, decisionPath := decisionPath)];
        return Some(i);
      }
      return None;
    }
  }

  /** The slot a rewrite gets: scanning from i, first for unused slots, then for the path's. */
  function Picked(slots: seq<SlotInfo>, decisionPath: nat, i: nat, unused: bool): Option<nat>
    requires i <= |slots|
    decreases unused, |slots| - i
  {
    if i == |slots| then (if unused then Picked(slots, decisionPath, 0, false) else None)
    else if unused then (if !slots[i].isPatched then Some(i) else Picked(slots, decisionPath, i + 1, true))
    else if !slots[i].isPatched || slots[i].decisionPath == decisionPath then Some(i)
    else Picked(slots, decisionPath, i + 1, false)
  }

  /** What the pick means: an unused slot if there is one, the first; else the first of the path. */
  lemma {:induction false} PickedIsFirst(slots: seq<SlotInfo>, decisionPath: nat, i: nat, unused: bool)
    requires i <= |slots|
    requires unused ==> forall j :: 0 <= j < i ==> slots[j].isPatched
    requires !unused ==> forall j :: 0 <= j < |slots| ==> slots[j].isPatched
    requires !unused ==> forall j :: 0 <= j < i ==> slots[j].decisionPath != decisionPath
    ensures match Picked(slots, decisionPath, i, unused)
      case Some(k) => k < |slots| && (if slots[k].isPatched
        then (forall j :: 0 <= j < |slots| ==> slots[j].isPatched) && slots[k].decisionPath == decisionPath
             && forall j :: 0 <= j < k ==> slots[j].decisionPath != decisionPath
        else forall j :: 0 <= j < k ==> slots[j].isPatched)
      case None => forall j :: 0 <= j < |slots| ==> slots[j].isPatched && slots[j].decisionPath != decisionPath
    decreases unused, |slots| - i
  {
    if i == |slots| {
      if unused { PickedIsFirst(slots, decisionPath, 0, false); }
    } else if unused {
      if slots[i].isPatched { PickedIsFirst(slots, decisionPath, i + 1, true); }
    } else if slots[i].decisionPath != decisionPath {
      PickedIsFirst(slots, decisionPath, i + 1, false);
    }
  }

  lemma JumpEncodable(i: nat, numSlots: nat, slotSize: nat)
    requires JumpsFit(numSlots, slotSize) && i < numSlots
    ensures slotSize * (numSlots - i) == ToSlowPath(i, numSlots, slotSize)
    ensures 1 + JmpLength(ToSlowPath(i, numSlots, slotSize), 1) <= slotSize && Encodable(ToSlowPath(i, numSlots, slotSize), 1)
    ensures 1 + JmpLength(slotSize, 1) <= slotSize && Encodable(slotSize, 1)
  {
    Distance(i, numSlots, slotSize);
  }

  /** From the start of slot i the slow path is where the slots end. */
  lemma Distance(i: nat, numSlots: nat, slotSize: nat)
    requires i <= numSlots
    ensures ToSlowPath(i, numSlots, slotSize) + SlotStart(i, slotSize) == SlotStart(numSlots, slotSize)
    ensures ToSlowPath(i, numSlots, slotSize) >= 0
  {
    assert slotSize * (numSlots - i) + i * slotSize == numSlots * slotSize;
  }

  lemma UntouchedOk(slot: seq<byte>, i: nat, numSlots: nat, slotSize: nat, continueOffset: int)
    requires |slot| == slotSize > 0 && slot[0] == NOP && JumpsTo(slot, 1, ToSlowPath(i, numSlots, slotSize))
    ensures SlotOk(slot, Untouched, i, numSlots, slotSize, continueOffset)
  {}

  lemma EmptiedOk(slot: seq<byte>, i: nat, numSlots: nat, slotSize: nat, continueOffset: int)
    requires |slot| == slotSize > 0 && slot[0] == NOP && JumpsTo(slot, 1, slotSize)
    ensures SlotOk(slot, Emptied, i, numSlots, slotSize, continueOffset)
  {}

  // ---- everything together ----------------------------------------------------------------------

  /** All inline caches, invalidators and unfinished rewrites of a run. */
  class World {
    ghost var ics: set<ICInfo>
    ghost var invs: set<ICInvalidator>
    ghost var rewrites: set<ICSlotRewrite>

    /** A slot with live code has each dependency at the version the rewrite saw, and is among that
        invalidator's dependents. */
    ghost predicate LiveSafe()
      reads this, ics, invs
    {
      forall ic, i {:trigger ic.content[i]} :: ic in ics && 0 <= i < |ic.content| && i < |ic.slots| && ic.content[i].Live? ==>
        DepsHold(ic.content[i].deps, invs, ic.slots[i].entry)
    }

    /** Dependents are slots that have been used. */
    ghost predicate DependentsUsed()
      reads this, ics`slots, invs`dependents
    {
      forall inv, e {:trigger e in inv.dependents} :: inv in invs && e in inv.dependents ==>
        e.ic in ics && e.idx < |e.ic.slots| && e.ic.slots[e.idx].entry == e && e.ic.slots[e.idx].isPatched
    }

    ghost predicate CachesOk()
      reads this, ics, set ic | ic in ics :: ic.code
    {
      && (forall ic {:trigger ic in ics} :: ic in ics ==> ic.Valid())
      && (forall a, b {:trigger a.code, b.code} :: a in ics && b in ics && a != b ==> a.code != b.code)
    }

    /** No recorded version is from the future. */
    ghost predicate RewritesOk()
      reads this, invs, rewrites`deps
    {
      && (forall rw {:trigger rw in rewrites} :: rw in rewrites ==> rw.ic in ics && Recorded(rw.deps, invs))
      && (forall v {:trigger v in invs} :: v in invs ==> v.curVersion >= 0)
    }

    ghost predicate Safe()
      reads this, ics, invs, rewrites`deps, set ic | ic in ics :: ic.code
    {
      CachesOk() && LiveSafe() && DependentsUsed() && RewritesOk()
    }

    /** The slots in `done` have been emptied, the others hold what they did before. */
    ghost predicate EmptiedFor(before: map<ICInfo, seq<Content>>, done: set<ICSlotInfo>)
      reads this`ics, ics`content, ics`slots
    {
      forall ic {:trigger ic in ics} :: ic in ics ==> ic in before && EmptiedSlots(ic.slots, before[ic], ic.content, done)
    }

    lemma EmptiedMeans(before: map<ICInfo, seq<Content>>, done: set<ICSlotInfo>)
      requires EmptiedFor(before, done)
      ensures forall ic {:trigger ic in ics} :: ic in ics ==> ic in before && EmptiedSlots(ic.slots, before[ic], ic.content, done)
    {
      hide EmptiedSlots;
    }

    twostate lemma NoDependents(inv: ICInvalidator)
      requires ics == old(ics) && invs == old(invs) && old(DependentsUsed()) && inv.dependents == {}
      requires forall ic {:trigger ic in ics} :: ic in ics ==> ic.slots == old(ic.slots)
      requires forall v {:trigger v in invs} :: v in invs && v != inv ==> v.dependents == old(v.dependents)
      ensures DependentsUsed()
    {}

    lemma NothingEmptied(before: map<ICInfo, seq<Content>>)
      requires CachesOk() && forall ic {:trigger ic in ics} :: ic in ics ==> ic in before && before[ic] == ic.content
      ensures EmptiedFor(before, {})
    {}

    lemma Dependent(inv: ICInvalidator, e: ICSlotInfo)
      requires CachesOk() && DependentsUsed() && inv in invs && e in inv.dependents
      ensures e.ic in ics && e.ic.Valid() && e.idx < e.ic.numSlots && e.ic.slots[e.idx].isPatched && e.ic.slots[e.idx].entry == e
    {}

    lemma OneEmptied(before: map<ICInfo, seq<Content>>, mid: map<ICInfo, seq<Content>>, done: set<ICSlotInfo>, e: ICSlotInfo)
      requires OnlyHere(e) && ics <= before.Keys && ics <= mid.Keys
      requires forall ic {:trigger ic in ics} :: ic in ics ==> EmptiedSlots(ic.slots, before[ic], mid[ic], done)
      requires forall ic {:trigger ic in ics} :: ic in ics && ic != e.ic ==> ic.content == mid[ic]
      requires e.ic in ics && e.idx < |mid[e.ic]| && e.ic.content == mid[e.ic][e.idx := Emptied]
      ensures EmptiedFor(before, done + {e})
    {
      hide EmptiedSlots;
      forall ic | ic in ics ensures EmptiedSlots(ic.slots, before[ic], ic.content, done + {e}) {
        EmptiedOneMore(ic.slots, before[ic], mid[ic], ic.content, done, e, ic == e.ic, e.idx);
      }
    }

    ghost predicate OnlyHere(e: ICSlotInfo)
      reads this`ics, ics`slots
    {
      forall ic, i {:trigger ic.slots[i]} :: ic in ics && 0 <= i < |ic.slots| ==> (ic.slots[i].entry == e <==> ic == e.ic && i == e.idx)
    }

    /** An entry stands in one slot only. */
    lemma OwnEntries(e: ICSlotInfo)
      requires CachesOk() && e.ic in ics && e.idx < |e.ic.slots| && e.ic.slots[e.idx].entry == e
      ensures OnlyHere(e)
    {
      hide ICInfo.SlotsOk, JumpsFit, SlotStart;
      forall ic, i | ic in ics && 0 <= i < |ic.slots| ensures ic.slots[i].entry == e <==> ic == e.ic && i == e.idx {
        assert ic.Valid();
      }
    }

    /** With every dependent emptied, the others' live code is as safe as before: none of it depends
        on the invalidator. */
    twostate lemma StillSafe(inv: ICInvalidator)
      requires ics == old(ics) && invs == old(invs) && old(CachesOk()) && CachesOk() && old(LiveSafe()) && inv in invs
      requires forall ic {:trigger ic in ics} :: ic in ics ==> EmptiedSlots(ic.slots, old(ic.content), ic.content, old(inv.dependents))
      requires forall ic {:trigger ic in ics} :: ic in ics ==> ic.slots == old(ic.slots)
      requires forall v {:trigger v in invs} :: v in invs && v != inv ==> v.curVersion == old(v.curVersion) && v.dependents == old(v.dependents)
      ensures LiveSafe()
    {
      forall ic, i | ic in ics && 0 <= i < |ic.content| && i < |ic.slots| && ic.content[i].Live?
        ensures DepsHold(ic.content[i].deps, invs, ic.slots[i].entry)
      {
        assert ic.content[i] == old(ic.content[i]);
        assert old(DepsHold(ic.content[i].deps, invs, ic.slots[i].entry));
      }
    }

    lemma OwnCache(rw: ICSlotRewrite)
      requires CachesOk() && RewritesOk() && rw in rewrites
      ensures rw.ic in ics && rw.ic.Valid() && Recorded(rw.deps, invs)
    {}

    /** After a commit the new code's dependencies hold, and the other live code's still do. */
    twostate lemma CommittedLive(c: ICInfo, new i: nat)
      requires ics == old(ics) && invs == old(invs) && old(LiveSafe()) && c in ics && c.ChangedAt(i)
      requires forall ic {:trigger ic in ics} :: ic in ics && ic != c ==> ic.slots == old(ic.slots) && ic.content == old(ic.content)
      requires c.content[i].Live? && DepsHold(c.content[i].deps, invs, c.slots[i].entry)
      requires forall v {:trigger v in invs} :: v in invs ==> v.curVersion == old(v.curVersion) && old(v.dependents) <= v.dependents
      ensures LiveSafe()
    {
      forall ic, k | ic in ics && 0 <= k < |ic.content| && k < |ic.slots| && ic.content[k].Live?
        ensures DepsHold(ic.content[k].deps, invs, ic.slots[k].entry)
      {
        if ic != c || k != i {
          assert ic.content[k] == old(ic.content[k]) && ic.slots[k] == old(ic.slots[k]);
          assert old(DepsHold(ic.content[k].deps, invs, ic.slots[k].entry));
        }
      }
    }

    /** The one entry that may have become a dependent is patched. */
    twostate lemma CommittedUsed(c: ICInfo, new i: nat)
      requires ics == old(ics) && invs == old(invs) && old(DependentsUsed()) && c in ics && c.ChangedAt(i)
      requires forall ic {:trigger ic in ics} :: ic in ics && ic != c ==> ic.slots == old(ic.slots)
      requires c.slots[i].entry.ic == c && c.slots[i].entry.idx == i
      requires forall v {:trigger v in invs} :: v in invs ==> v.dependents <= old(v.dependents) + {c.slots[i].entry}
      ensures DependentsUsed()
    {
      forall inv, e | inv in invs && e in inv.dependents
        ensures e.ic in ics && e.idx < |e.ic.slots| && e.ic.slots[e.idx].entry == e && e.ic.slots[e.idx].isPatched
      {
        if e != c.slots[i].entry { assert e in old(inv.dependents); }
      }
    }

    /** Versions only grow, so what was recorded stays from the past. */
    twostate lemma LaterVersions()
      requires old(RewritesOk()) && ics == old(ics) && invs == old(invs) && rewrites == old(rewrites)
      requires forall rw {:trigger rw in rewrites} :: rw in rewrites ==> rw.deps == old(rw.deps)
      requires forall v {:trigger v in invs} :: v in invs ==> v.curVersion >= old(v.curVersion)
      ensures RewritesOk()
    {}

    /** Rewriting one cache leaves the others as they are. */
    twostate lemma OthersValid(c: ICInfo)
      requires old(CachesOk()) && c in ics && ics == old(ics) && c.Valid()
      requires forall ic {:trigger ic in ics} :: ic in ics && ic != c ==> ic.slots == old(ic.slots) && ic.content == old(ic.content)
      requires forall ic {:trigger ic in ics} :: ic in ics && ic.code != c.code ==> ic.code[..] == old(ic.code[..])
      ensures CachesOk()
    {
      hide ICInfo.Valid;
      forall ic | ic in ics ensures ic.Valid() {
        if ic != c {
          assert ic.code != c.code;
          ic.SameValid();
        }
      }
    }

    /** A patchpoint is compiled. */
    ghost method AddCache(ic: ICInfo)
      requires Safe() && ic !in ics && ic.Valid() && forall c :: c in ics ==> c.code != ic.code
      requires forall i :: 0 <= i < ic.numSlots ==> ic.content[i].Untouched?
      modifies this`ics
      ensures Safe() && ics == old(ics) + {ic}
    {
      hide ICInfo.Valid;
      TableSize(ic);
      ics := ics + {ic};
    }

    ghost method AddInvalidator(inv: ICInvalidator)
      requires Safe() && inv !in invs && inv.curVersion == 0 && inv.dependents == {}
      modifies this`invs
      ensures Safe() && invs == old(invs) + {inv}
    {
      hide ICInfo.Valid;
      invs := invs + {inv};
    }

    /** A rewrite is started (startRewrite). */
    ghost method AddRewrite(rw: ICSlotRewrite)
      requires Safe() && rw.ic in ics && rw.deps == []
      modifies this`rewrites
      ensures Safe() && rewrites == old(rewrites) + {rw}
    {
      hide ICInfo.Valid;
      rewrites := rewrites + {rw};
    }

    constructor ()
      ensures Safe() && ics == {} && invs == {} && rewrites == {}
    {
      ics, invs, rewrites := {}, {}, {};
    }
  }

  /** Of a cache's slots, exactly the given ones were emptied. */
  ghost predicate EmptiedSlots(slots: seq<SlotInfo>, before: seq<Content>, after: seq<Content>, done: set<ICSlotInfo>) {
    && |after| == |before| == |slots|
    && forall i {:trigger after[i]} :: 0 <= i < |after| ==> after[i] == if slots[i].entry in done then Emptied else before[i]
  }

  lemma EmptiedOneMore(slots: seq<SlotInfo>, before: seq<Content>, mid: seq<Content>, after: seq<Content>,
                       done: set<ICSlotInfo>, e: ICSlotInfo, here: bool, k: nat)
    requires EmptiedSlots(slots, before, mid, done) && (here ==> k < |mid|)
    requires after == if here then mid[k := Emptied] else mid
    requires forall i {:trigger slots[i]} :: 0 <= i < |slots| ==> (slots[i].entry == e <==> here && i == k)
    ensures EmptiedSlots(slots, before, after, done + {e})
  {
    forall i | 0 <= i < |after| ensures after[i] == if slots[i].entry in done + {e} then Emptied else before[i] {
      assert mid[i] == if slots[i].entry in done then Emptied else before[i];
    }
  }

  ghost predicate DepsHold(deps: Dependencies, invs: set<ICInvalidator>, entry: ICSlotInfo)
    reads invs
  {
    forall k {:trigger deps[k]} :: 0 <= k < |deps| ==>
      deps[k].0 in invs && deps[k].0.curVersion == deps[k].1 && entry in deps[k].0.dependents
  }

  ghost predicate Recorded(deps: Dependencies, invs: set<ICInvalidator>)
    reads invs
  {
    forall k {:trigger deps[k]} :: 0 <= k < |deps| ==> deps[k].0 in invs && 0 <= deps[k].1 <= deps[k].0.curVersion
  }

  lemma TableSize(ic: ICInfo)
    requires ic.Valid()
    ensures |ic.slots| == |ic.content| == ic.numSlots && ic.code.Length == SlotStart(ic.numSlots, ic.slotSize)
    ensures forall i {:trigger ic.slots[i]} :: 0 <= i < |ic.slots| ==> ic.slots[i].entry.ic == ic && ic.slots[i].entry.idx == i
  {}

  class ICInvalidator {
    var curVersion: int
    var dependents: set<ICSlotInfo>

    constructor ()
      ensures curVersion == 0 && dependents == {}
    {
      curVersion, dependents := 0, {};
    }

    method AddDependent(entry: ICSlotInfo)
      modifies this`dependents
      ensures dependents == old(dependents) + {entry}
    {
      dependents := dependents + {entry};
    }

    /** The loop of invalidateAll. */
    method ClearDependents(ghost w: World, ghost before: map<ICInfo, seq<Content>>)
      requires w.CachesOk() && w.DependentsUsed() && this in w.invs
      requires forall ic {:trigger ic in w.ics} :: ic in w.ics ==> ic in before && before[ic] == ic.content
      modifies (set ic | ic in w.ics :: ic.code), w.ics`content
      ensures w.CachesOk() && w.EmptiedFor(before, dependents)
    {
      hide EmptiedSlots, ICInfo.Valid, World.CachesOk, World.DependentsUsed, World.EmptiedFor;
      w.NothingEmptied(before);
      var rest := dependents;
      assert dependents - rest == {};
      while rest != {}
        invariant rest <= dependents
        invariant w.CachesOk()
        invariant w.EmptiedFor(before, dependents - rest)
        decreases rest
      {
        var e :| e in rest;
        w.Dependent(this, e);
        ghost var mid := map ic | ic in w.ics :: ic.content;
        w.EmptiedMeans(before, dependents - rest);
        TableSize(e.ic);
        label L:
        e.ic.Clear(e);
        w.OthersValid@L(e.ic);
        w.OwnEntries(e);
        w.OneEmptied(before, mid, dependents - rest, e);
        assert (dependents - rest) + {e} == dependents - (rest - {e});
        rest := rest - {e};
      }
      assert dependents - {} == dependents;
    }

    /** invalidateAll: every dependent slot is emptied, no other slot changes, and all inline caches
        stay safe at the new version. */
    method InvalidateAll(ghost w: World)
      requires w.Safe() && this in w.invs
      modifies this, (set ic | ic in w.ics :: ic.code), w.ics`content
      ensures w.Safe() && curVersion == old(curVersion) + 1 && dependents == {}
      ensures forall ic {:trigger ic in w.ics} :: ic in w.ics ==> EmptiedSlots(ic.slots, old(ic.content), ic.content, old(dependents))
    {
      hide EmptiedSlots, ICInfo.Valid, World.CachesOk, World.DependentsUsed, World.EmptiedFor, World.LiveSafe, World.RewritesOk;
      ghost var before := map ic | ic in w.ics :: ic.content;
      curVersion := curVersion + 1;
      ClearDependents(w, before);
      w.EmptiedMeans(before, dependents);
      label M:
      dependents := {};
      w.NoDependents@M(this);
      w.StillSafe(this);
      w.LaterVersions();
    }
  }

  // ---- rewrites ---------------------------------------------------------------------------------

  class ICSlotRewrite {
    const ic: ICInfo
    const buf: array<byte>
    const asm: Assembler
    var deps: Dependencies
    /** Where the guards' jumps stand in the buffer. */
    ghost var misses: seq<nat>

    ghost predicate Valid()
      reads this`misses, asm, buf
    {
      && asm.Valid() && asm.mem == buf && asm.start == 0 && asm.end == buf.Length == ic.slotSize
      && (forall k {:trigger misses[k]} :: 0 <= k < |misses| ==> MissAt(buf[..], misses[k], ic.slotSize, asm.addr))
    }

    constructor (ic: ICInfo)
      requires ic.slotSize > 0
      ensures Valid() && this.ic == ic && deps == [] && fresh(buf) && fresh(asm) && misses == []
      ensures asm.addr == 1 && buf[0] == NOP
    {
      this.ic := ic;
      deps, misses := [], [];
      var b := new byte[ic.slotSize](_ => 0);
      var a := new Assembler(b, 0, ic.slotSize);
      a.Nop();
      buf, asm := b, a;
    }

    /** addDependenceOn: remembers the invalidator and its version as of now. */
    method AddDependenceOn(invalidator: ICInvalidator, ghost w: World)
      requires w.Safe() && this in w.rewrites && invalidator in w.invs
      modifies this`deps
      ensures deps == old(deps) + [(invalidator, invalidator.curVersion)] && w.Safe()
    {
      hide ICInfo.Valid;
      deps := deps + [(invalidator, invalidator.curVersion)];
    }

    /** Any instruction the rewriter emits that is not one of its jumps: its bytes follow what has
        been emitted before. */
    method EmitInstruction(bytes: seq<byte>)
      requires Valid() && asm.addr + |bytes| <= asm.end
      modifies buf, asm
      ensures Valid() && asm.addr == old(asm.addr) + |bytes|
      ensures buf[..asm.addr] == old(buf[..asm.addr]) + bytes
    {
      hide DecodeJcc;
      for i := 0 to |bytes|
        invariant Valid() && asm.addr == old(asm.addr) + i
        invariant forall k :: 0 <= k < asm.addr ==> buf[k] == if k < old(asm.addr) then old(buf[k]) else bytes[k - old(asm.addr)]
      {
        label L:
        asm.EmitByte(bytes[i]);
        MissesStay@L();
      }
    }

    /** A guard's jump: leave for the next slot (addAttrGuard). */
    method EmitMiss()
      requires Valid() && asm.addr + JccLength(ic.slotSize, asm.addr) <= asm.end && Encodable(ic.slotSize, asm.addr)
      modifies buf, asm, this`misses
      ensures Valid() && misses == old(misses) + [old(asm.addr)]
      ensures asm.addr == old(asm.addr) + JccLength(ic.slotSize, old(asm.addr))
      ensures buf[..old(asm.addr)] == old(buf[..asm.addr]) && MissesTo(buf[..], old(asm.addr), ic.slotSize)
    {
      hide DecodeJcc, JccLength, Encodable;
      label L:
      asm.JmpCond(ic.slotSize, COND_NOT_EQUAL);
      MissesStay@L();
      assert buf[..] == asm.Code();
      misses := misses + [old(asm.addr)];
    }

    /** A test, the jump taken when it fails, and what is done when it holds. */
    method EmitGuarded(test: seq<byte>, action: seq<byte>)
      requires Valid() && asm.addr == 1 && misses == [] && Encodable(ic.slotSize, 1 + |test|)
      requires ExitAt(|test|, |action|, ic.slotSize) <= ic.slotSize
      modifies buf, asm, this`misses
      ensures Valid() && asm.addr == ExitAt(|test|, |action|, ic.slotSize) && misses == [1 + |test|]
    {
      hide Valid, JccLength, Encodable, MissesTo;
      Shape();
      EmitInstruction(test);
      Shape();
      EmitMiss();
      Shape();
      EmitInstruction(action);
    }

    /** Emitting more leaves the jumps emitted before as they are. */
    twostate lemma MissesStay()
      requires old(Valid()) && asm.Valid() && old(asm.addr) <= asm.addr && misses == old(misses)
      requires forall i :: 0 <= i < old(asm.addr) ==> buf[i] == old(buf[i])
      ensures Valid()
    {
      hide DecodeJcc;
      forall k | 0 <= k < |misses| ensures MissAt(buf[..], misses[k], ic.slotSize, asm.addr) {
        assert old(MissAt(buf[..], misses[k], ic.slotSize, asm.addr));
        var before := old(buf[..]);
        var j := DecodeJcc(before, misses[k], COND_NOT_EQUAL).value;
        AfterPos(before, misses[k]);
        assert buf[..][misses[k]..j.after] == before[misses[k]..j.after];
        ConditionalJumpsMoveAlong(before, buf[..], misses[k], j, COND_NOT_EQUAL);
      }
    }

    /** Whether every dependency is at the recorded version, as the code compares them. */
    method StillValid() returns (r: bool)
      ensures r <==> Current(deps)
    {
      for i := 0 to |deps|
        invariant Current(deps[..i])
      {
        if ToInt32(deps[i].1) != deps[i].0.curVersion { return false; }
        assert deps[..i + 1] == deps[..i] + [deps[i]];
      }
      assert deps[..|deps|] == deps;
      return true;
    }

    method RegisterDependent(entry: ICSlotInfo, ghost invs: set<ICInvalidator>)
      requires forall k :: 0 <= k < |deps| ==> deps[k].0 in invs
      modifies invs`dependents
      ensures forall v {:trigger v in invs} :: v in invs ==> old(v.dependents) <= v.dependents <= old(v.dependents) + {entry}
      ensures forall k {:trigger deps[k]} :: 0 <= k < |deps| ==> entry in deps[k].0.dependents
    {
      for i := 0 to |deps|
        invariant forall v {:trigger v in invs} :: v in invs ==> old(v.dependents) <= v.dependents <= old(v.dependents) + {entry}
        invariant forall k {:trigger deps[k]} :: 0 <= k < i ==> entry in deps[k].0.dependents
      {
        deps[i].0.AddDependent(entry);
      }
    }

    /** The hook's finishAssembly: the final jump, and nops up to the slot's end. */
    method FinishAssembly(continueOffset: int)
      requires Valid() && asm.addr + JmpLength(continueOffset, asm.addr) <= asm.end && Encodable(continueOffset, asm.addr)
      modifies buf, asm
      ensures Valid() && asm.addr == asm.end && JumpsTo(buf[..], old(asm.addr), continueOffset)
    {
      hide DecodeJcc, DecodeJmp, JmpLength, Encodable;
      label L:
      asm.Jmp(continueOffset);
      MissesStay@L();
      ghost var code, pos := buf[..], old(asm.addr);
      assert code == asm.Code();
      label M:
      asm.FillWithNops();
      MissesStay@M();
      JumpAfter(code, pos);
      var j := DecodeJmp(code, pos).value;
      assert buf[..][pos..j.after] == code[pos..j.after];
      JumpsMoveAlong(code, buf[..], pos, j);
    }

    /** The copy into the slot. */
    method CopyToSlot(i: nat)
      requires i < ic.numSlots && ic.code.Length == SlotStart(ic.numSlots, ic.slotSize) && buf.Length == ic.slotSize && buf != ic.code
      modifies ic.code
      ensures ic.Slot(i) == buf[..]
      ensures forall k :: 0 <= k < ic.code.Length && !(SlotStart(i, ic.slotSize) <= k < SlotStart(i, ic.slotSize) + ic.slotSize) ==>
        ic.code[k] == old(ic.code[k])
    {
      hide SlotStart;
      SlotBounds(i, ic.numSlots, ic.slotSize);
      var start := SlotStart(i, ic.slotSize);
      forall k | start <= k < start + ic.slotSize {
        ic.code[k] := buf[k - start];
      }
      assert ic.Slot(i) == buf[..];
    }

    /** commit: gives up when a dependency has changed, or no slot is to be had; otherwise the slot
        picked holds this rewrite's code, and all inline caches stay safe. */
    method Commit(decisionPath: nat, ghost w: World) returns (ghost at: Option<nat>)
      requires w.Safe() && this in w.rewrites && Valid() && forall c :: c in w.ics ==> c.code != buf
      requires ExitFits(asm.addr, ic.numSlots, ic.slotSize, ic.continueOffset)
      modifies asm, buf, ic`slots, ic`content, ic.code, w.invs`dependents
      ensures w.Safe()
      ensures at == if UpToDate(deps) then Picked(old(ic.slots), decisionPath, 0, true) else None
      ensures at.None? ==> ic.content == old(ic.content) && ic.slots == old(ic.slots)
      ensures at.Some? ==> at.value < |old(ic.content)| && ic.content == old(ic.content)[at.value := Live(deps, misses, old(asm.addr))]
    {
      hide ICInfo.Valid, World.CachesOk, World.LiveSafe, World.DependentsUsed, World.RewritesOk, Valid,
        UpToDate, Current, Picked, DepsHold, SlotOk, ExitFits, SlotStart, Recorded, ICInfo.ChangedAt,
        ICInfo.Slot;
      w.OwnCache(this);
      UpToDateMeans(w.invs);
      var stillValid := StillValid();
      if !stillValid { return None; }
      at := Install(decisionPath, w);
    }

    /** The rest of commit, once the dependencies have been found unchanged. */
    method Install(decisionPath: nat, ghost w: World) returns (ghost at: Option<nat>)
      requires w.Safe() && this in w.rewrites && Valid() && (forall c :: c in w.ics ==> c.code != buf) && UpToDate(deps)
      requires ExitFits(asm.addr, ic.numSlots, ic.slotSize, ic.continueOffset)
      modifies asm, buf, ic`slots, ic`content, ic.code, w.invs`dependents
      ensures w.Safe() && at == Picked(old(ic.slots), decisionPath, 0, true)
      ensures at.None? ==> ic.content == old(ic.content) && ic.slots == old(ic.slots)
      ensures at.Some? ==> at.value < |old(ic.content)| && ic.content == old(ic.content)[at.value := Live(deps, misses, old(asm.addr))]
    {
      hide ICInfo.Valid, World.CachesOk, World.LiveSafe, World.DependentsUsed, World.RewritesOk, Valid, UpToDate, Picked, DepsHold,
        SlotOk, ExitFits, SlotStart, Recorded, ICInfo.ChangedAt, ICInfo.Slot;
      w.OwnCache(this);
      TableSize(ic);
      label L:
      var picked := ic.PickEntryForRewrite(decisionPath);
      at := picked;
      if picked.None? { return; }
      var i := picked.value;
      RegisterDependent(ic.slots[i].entry, w.invs);
      Fill(i);
      HoldsNow(w.invs, ic.slots[i].entry);
      ic.Filled@L(i, decisionPath);
      w.OthersValid@L(ic);
      w.CommittedLive@L(ic, i);
      w.CommittedUsed@L(ic, i);
      w.LaterVersions@L();
    }

    lemma HoldsNow(invs: set<ICInvalidator>, entry: ICSlotInfo)
      requires UpToDate(deps) && Recorded(deps, invs)
      requires forall k {:trigger deps[k]} :: 0 <= k < |deps| ==> entry in deps[k].0.dependents
      ensures DepsHold(deps, invs, entry)
    {}

    /** Finishes the code for a slot and puts it there. */
    method Fill(i: nat)
      requires Valid() && buf != ic.code && i < ic.numSlots && |ic.content| == ic.numSlots
      requires ic.code.Length == SlotStart(ic.numSlots, ic.slotSize)
      requires ExitFits(asm.addr, ic.numSlots, ic.slotSize, ic.continueOffset)
      modifies asm, buf, ic.code, ic`content
      ensures ic.content == old(ic.content)[i := Live(deps, misses, old(asm.addr))]
      ensures SlotOk(ic.Slot(i), ic.content[i], i, ic.numSlots, ic.slotSize, ic.continueOffset)
      ensures forall j {:trigger ic.Slot(j)} :: 0 <= j < ic.numSlots && j != i ==> ic.Slot(j) == old(ic.Slot(j))
    {
      hide SlotOk, SlotStart, ExitFits, DecodeJmp, DecodeJcc, Valid;
      Shape();
      FitsAt(asm.addr, i, ic.numSlots, ic.slotSize, ic.continueOffset);
      FinishAssembly(ic.continueOffset - SlotStart(i, ic.slotSize));
      Shape();
      label L:
      CopyToSlot(i);
      ic.OthersStay@L(i);
      FilledOk(i, old(asm.addr));
      ic.content := ic.content[i := Live(deps, misses, old(asm.addr))];
    }

    lemma Shape()
      requires Valid()
      ensures asm.Valid() && asm.mem == buf && asm.start == 0 && asm.end == buf.Length == ic.slotSize
    {}

    lemma FilledOk(i: nat, exit: nat)
      requires Valid() && i < ic.numSlots && ic.code.Length == SlotStart(ic.numSlots, ic.slotSize) && ic.Slot(i) == buf[..]
      requires JumpsTo(buf[..], exit, ic.continueOffset - SlotStart(i, ic.slotSize))
      ensures SlotOk(ic.Slot(i), Live(deps, misses, exit), i, ic.numSlots, ic.slotSize, ic.continueOffset)
    {
      hide DecodeJcc, DecodeJmp, SlotStart;
      forall k | 0 <= k < |misses| ensures MissesTo(buf[..], misses[k], ic.slotSize) {
        assert MissAt(buf[..], misses[k], ic.slotSize, asm.addr);
      }
    }

    lemma UpToDateMeans(invs: set<ICInvalidator>)
      requires Recorded(deps, invs)
      ensures Current(deps) <==> UpToDate(deps)
    {
      forall k | 0 <= k < |deps|
        ensures ToInt32(deps[k].1) == deps[k].0.curVersion <==> deps[k].1 == deps[k].0.curVersion && deps[k].1 < 0x8000_0000
      {
        VersionCheck(deps[k].1, deps[k].0.curVersion);
      }
    }
  }

  lemma OneDependency(inv: ICInvalidator)
    ensures UpToDate([(inv, inv.curVersion)]) <==> inv.curVersion < 0x8000_0000
  {
    assert [(inv, inv.curVersion)][0].0 == inv;
  }

  /** Where a rewrite's final jump stands, after a nop, a test, the jump taken when it fails, and what
      is done when it holds. */
  function ExitAt(test: nat, action: nat, slotSize: nat): nat {
    1 + test + JccLength(slotSize, 1 + test) + action
  }

  /** A whole rewrite: unless the dependency's version has outgrown an int, the picked slot holds
      code that leaves for the next slot at its one guard and ends behind its action. */
  method WriteSlot(ic: ICInfo, inv: ICInvalidator, decisionPath: nat, test: seq<byte>, action: seq<byte>, ghost w: World)
      returns (ghost at: Option<nat>)
    requires w.Safe() && ic in w.ics && inv in w.invs
    requires ExitAt(|test|, |action|, ic.slotSize) <= ic.slotSize && Encodable(ic.slotSize, 1 + |test|)
    requires ExitFits(ExitAt(|test|, |action|, ic.slotSize), ic.numSlots, ic.slotSize, ic.continueOffset)
    modifies ic`slots, ic`content, ic.code, w.invs`dependents, w`rewrites
    ensures w.Safe() && |ic.content| == |old(ic.content)|
    ensures at == if inv.curVersion < 0x8000_0000 then Picked(old(ic.slots), decisionPath, 0, true) else None
    ensures at.None? ==> ic.content == old(ic.content) && ic.slots == old(ic.slots)
    ensures at.Some? ==> at.value < |old(ic.content)| && ic.content == old(ic.content)[at.value :=
      Live([(inv, inv.curVersion)], [1 + |test|], ExitAt(|test|, |action|, ic.slotSize))]
  {
    hide ICInfo.Valid, World.CachesOk, World.LiveSafe, World.DependentsUsed, World.RewritesOk,
      ICSlotRewrite.Valid, Picked, ExitFits, JccLength, Encodable, SlotStart, UpToDate, DepsHold, SlotOk;
    var rw := new ICSlotRewrite(ic);
    w.AddRewrite(rw);
    rw.AddDependenceOn(inv, w);
    assert rw.deps == [(inv, inv.curVersion)];
    rw.EmitGuarded(test, action);
    OneDependency(inv);
    at := rw.Commit(decisionPath, w);
  }

  /** What the check means: every dependency is at the recorded version, and that fits 31 bits. */
  ghost predicate UpToDate(deps: Dependencies)
    reads (set k | 0 <= k < |deps| :: deps[k].0)`curVersion
  {
    forall k {:trigger deps[k]} :: 0 <= k < |deps| ==> deps[k].1 == deps[k].0.curVersion && deps[k].1 < 0x8000_0000
  }

  lemma FitsAt(pos: nat, i: nat, numSlots: nat, slotSize: nat, continueOffset: int)
    requires ExitFits(pos, numSlots, slotSize, continueOffset) && i < numSlots
    ensures pos + JmpLength(continueOffset - SlotStart(i, slotSize), pos) <= slotSize
    ensures Encodable(continueOffset - SlotStart(i, slotSize), pos)
  {}

  /** The final jump fits, whichever slot the rewrite gets. */
  ghost predicate ExitFits(pos: nat, numSlots: nat, slotSize: nat, continueOffset: int) {
    forall i {:trigger SlotStart(i, slotSize)} :: 0 <= i < numSlots ==>
      && pos + JmpLength(continueOffset - SlotStart(i, slotSize), pos) <= slotSize
      && Encodable(continueOffset - SlotStart(i, slotSize), pos)
  }

  ghost predicate Current(deps: Dependencies)
    reads (set k | 0 <= k < |deps| :: deps[k].0)`curVersion
  {
    forall k {:trigger deps[k]} :: 0 <= k < |deps| ==> ToInt32(deps[k].1) == deps[k].0.curVersion
  }

  lemma AfterPos(code: seq<byte>, pos: nat)
    ensures var d := DecodeJcc(code, pos, COND_NOT_EQUAL); d.Some? ==> pos <= d.value.after <= |code|
  {}

  lemma JumpAfter(code: seq<byte>, pos: nat)
    ensures var d := DecodeJmp(code, pos); d.Some? ==> pos <= d.value.after <= |code|
  {}

  /** A guard's jump that leaves for the next slot, completely within the first `used` bytes. */
  ghost predicate MissAt(code: seq<byte>, pos: nat, slotSize: nat, used: nat) {
    match DecodeJcc(code, pos, COND_NOT_EQUAL)
    case Some(j) => j.target == slotSize && j.after <= used
    case None => false
  }

  // ---- dispatch ---------------------------------------------------------------------------------

  /** Control goes through a slot: by its jump, or for live code past all guards or out at one. */
  datatype Visit = Visit(slot: nat, hit: bool)

  /** The visited slot's bytes send control to `dest`, counted from the patchpoint's start. */
  ghost predicate Leads(ic: ICInfo, v: Visit, dest: int)
    requires ic.Valid()
    reads ic, ic.code
  {
    v.slot < ic.numSlots &&
    var slot, c, target := ic.Slot(v.slot), ic.content[v.slot], dest - SlotStart(v.slot, ic.slotSize);
    if c.Live? then
      (if v.hit then JumpsTo(slot, c.exit, target) else exists k :: 0 <= k < |c.misses| && MissesTo(slot, c.misses[k], target))
    else !v.hit && ic.slotSize > 0 && slot[0] == NOP && JumpsTo(slot, 1, target)
  }

  /** From the k-th visit control comes to the next. */
  ghost predicate LeadsOn(ic: ICInfo, vs: seq<Visit>, k: nat)
    requires ic.Valid() && k < |vs| - 1
    reads ic, ic.code
  {
    Leads(ic, vs[k], SlotStart(vs[k + 1].slot, ic.slotSize)) && vs[k + 1].slot < ic.numSlots
  }

  /** A run of the patchpoint from its first slot until control is in no slot any more. */
  ghost predicate Trace(ic: ICInfo, vs: seq<Visit>, end: int)
    requires ic.Valid()
    reads ic, ic.code
  {
    && vs != [] && vs[0].slot == 0
    && (forall k: nat {:trigger LeadsOn(ic, vs, k)} :: k < |vs| - 1 ==> LeadsOn(ic, vs, k))
    && Leads(ic, vs[|vs| - 1], end) && forall j :: 0 <= j < ic.numSlots ==> SlotStart(j, ic.slotSize) != end
  }

  lemma StartsDistinct(i: nat, j: nat, slotSize: nat)
    requires slotSize > 0 && SlotStart(i, slotSize) == SlotStart(j, slotSize)
    ensures i == j
  {
    if i < j { SlotsApart(i, j, slotSize); }
    if j < i { SlotsApart(j, i, slotSize); }
  }

  lemma NextStart(i: nat, slotSize: nat)
    ensures SlotStart(i, slotSize) + slotSize == SlotStart(i + 1, slotSize)
  {}

  /** Where a slot leads: a hit to the rest of the program, a miss or an emptied slot to the next
      one, an untouched slot to the slow path. */
  lemma LeadsWhere(ic: ICInfo, v: Visit, dest: int)
    requires ic.Valid() && Leads(ic, v, dest)
    ensures dest == if ic.content[v.slot].Untouched? then SlotStart(ic.numSlots, ic.slotSize)
      else if v.hit then ic.continueOffset else SlotStart(v.slot + 1, ic.slotSize)
    ensures v.hit ==> ic.content[v.slot].Live?
  {
    assert SlotOk(ic.Slot(v.slot), ic.content[v.slot], v.slot, ic.numSlots, ic.slotSize, ic.continueOffset);
    NextStart(v.slot, ic.slotSize);
    Distance(v.slot, ic.numSlots, ic.slotSize);
    hide SlotStart, DecodeJcc, DecodeJmp, ToSlowPath, ICInfo.Valid;
  }

  /** The converse: every outcome a slot's content allows is one its bytes produce. */
  lemma OutcomesLead(ic: ICInfo, i: nat)
    requires ic.Valid() && i < ic.numSlots
    ensures ic.content[i].Untouched? ==> Leads(ic, Visit(i, false), SlotStart(ic.numSlots, ic.slotSize))
    ensures ic.content[i].Emptied? ==> Leads(ic, Visit(i, false), SlotStart(i + 1, ic.slotSize))
    ensures ic.content[i].Live? ==> Leads(ic, Visit(i, true), ic.continueOffset)
    ensures ic.content[i].Live? && ic.content[i].misses != [] ==> Leads(ic, Visit(i, false), SlotStart(i + 1, ic.slotSize))
  {
    assert SlotOk(ic.Slot(i), ic.content[i], i, ic.numSlots, ic.slotSize, ic.continueOffset);
    NextStart(i, ic.slotSize);
    Distance(i, ic.numSlots, ic.slotSize);
    if ic.content[i].Live? && ic.content[i].misses != [] {
      assert MissesTo(ic.Slot(i), ic.content[i].misses[0], ic.slotSize);
    }
    hide SlotStart, DecodeJcc, DecodeJmp, ToSlowPath, ICInfo.Valid;
  }

  /** Entering the patchpoint tries the slots in order from the first on, passes the emptied ones,
      and ends at the first hit with the rest of the program, or at the slow path once all live
      slots have missed. */
  lemma DispatchInOrder(ic: ICInfo, vs: seq<Visit>, end: int)
    requires ic.Valid() && Trace(ic, vs, end)
    ensures |vs| <= ic.numSlots && forall k :: 0 <= k < |vs| ==> vs[k].slot == k
    ensures forall k :: 0 <= k < |vs| - 1 ==> !vs[k].hit && !ic.content[k].Untouched?
    ensures if vs[|vs| - 1].hit
      then ic.content[|vs| - 1].Live? && end == ic.continueOffset
      else end == SlotStart(ic.numSlots, ic.slotSize) && forall i :: 0 <= i < ic.numSlots && ic.content[i].Live? ==> i < |vs|
  {
    hide ICInfo.SlotsOk, SlotStart, JumpsFit;
    var last := |vs| - 1;
    VisitsInOrder(ic, vs, end, last);
    LeadsWhere(ic, vs[last], end);
    if !vs[last].hit {
      if ic.content[last].Untouched? {
        forall i | last < i < ic.numSlots ensures !ic.content[i].Live? {
          assert ic.slots[last].isPatched <==> !ic.content[last].Untouched?;
          assert !ic.slots[i].isPatched;
        }
      } else {
        assert last + 1 == ic.numSlots;
      }
    }
  }

  lemma {:induction false} VisitsInOrder(ic: ICInfo, vs: seq<Visit>, end: int, n: nat)
    requires ic.Valid() && Trace(ic, vs, end) && n < |vs|
    ensures forall k :: 0 <= k <= n ==> vs[k].slot == k < ic.numSlots
    ensures forall k :: 0 <= k < n ==> !vs[k].hit && !ic.content[k].Untouched?
  {
    hide ICInfo.SlotsOk, ICInfo.TableOk, JumpsFit, SlotStart, Leads;
    if n > 0 {
      VisitsInOrder(ic, vs, end, n - 1);
      assert LeadsOn(ic, vs, n - 1);
      NextSlot(ic, vs[n - 1], vs[n].slot);
    } else {
      assert |vs| > 1 ==> LeadsOn(ic, vs, 0);
      InRange(ic, vs[0], if |vs| == 1 then end else SlotStart(vs[1].slot, ic.slotSize));
    }
  }

  lemma InRange(ic: ICInfo, v: Visit, dest: int)
    requires ic.Valid() && Leads(ic, v, dest)
    ensures v.slot < ic.numSlots
  {}

  lemma NextSlot(ic: ICInfo, v: Visit, next: nat)
    requires ic.Valid() && next < ic.numSlots && Leads(ic, v, SlotStart(next, ic.slotSize))
    ensures v.slot + 1 == next && !v.hit && !ic.content[v.slot].Untouched?
  {
    LeadsWhere(ic, v, SlotStart(next, ic.slotSize));
    SizePositive(ic, next);
    assert SlotStart(ic.numSlots, ic.slotSize) <= ic.continueOffset;
    hide ICInfo.Valid, Leads, SlotStart;
    SlotBounds(next, ic.numSlots, ic.slotSize);
    StartsDistinct(v.slot + 1, next, ic.slotSize);
  }

  lemma SizePositive(ic: ICInfo, i: nat)
    requires ic.Valid() && i < ic.numSlots
    ensures ic.slotSize > 0
  {
    JumpEncodable(i, ic.numSlots, ic.slotSize);
  }
}
