/** The relative jumps of the assembler (src/asm_writing/assembler.cpp). An assembler writes bytes
    into one slot of memory; jump destinations are offsets from the slot's start. */
module Assembler {
  import opened Commons

  const NOP: byte := 0x90

  function LowByte(n: int): byte {
    (n % 256) as byte
  }

  /** A decoded jump: where it goes, relative to the slot, and where the next instruction is. */
  datatype Jump = Jump(target: int, after: nat)

  function Signed8(b: byte): int {
    if b < 128 then b as int else b as int - 256
  }

  function Unsigned32(code: seq<byte>, at: nat): nat
    requires at + 4 <= |code|
  {
    code[at] as nat + 0x100 * code[at + 1] as nat + 0x1_0000 * code[at + 2] as nat + 0x100_0000 * code[at + 3] as nat
  }

  function Signed32(n: nat): int {
    if n < 0x8000_0000 then n else n - 0x1_0000_0000
  }

  /** How the processor reads an unconditional jump at a position of the slot. */
  function DecodeJmp(code: seq<byte>, pos: nat): Option<Jump> {
    if pos + 2 <= |code| && code[pos] == 0xeb then
      Some(Jump(pos + 2 + Signed8(code[pos + 1]), pos + 2))
    else if pos + 5 <= |code| && code[pos] == 0xe9 then
      Some(Jump(pos + 5 + Signed32(Unsigned32(code, pos + 1)), pos + 5))
    else None
  }

  /** How it reads a jump on the given condition. */
  function DecodeJcc(code: seq<byte>, pos: nat, condition: nat): Option<Jump>
    requires condition < 16
  {
    if pos + 2 <= |code| && code[pos] as nat == 0x70 + condition then
      Some(Jump(pos + 2 + Signed8(code[pos + 1]), pos + 2))
    else if pos + 6 <= |code| && code[pos] == 0x0f && code[pos + 1] as nat == 0x80 + condition then
      Some(Jump(pos + 6 + Signed32(Unsigned32(code, pos + 2)), pos + 6))
    else None
  }

  predicate IsShort(target: int, pos: nat) {
    -0x80 <= target - pos - 2 < 0x80
  }

  function JmpLength(target: int, pos: nat): nat {
    if IsShort(target, pos) then 2 else 5
  }

  function JccLength(target: int, pos: nat): nat {
    if IsShort(target, pos) then 2 else 6
  }

  /** The code's asserts: a jump that is not short goes forward, and fits 32 bits. */
  predicate Encodable(target: int, pos: nat) {
    IsShort(target, pos) || pos + 0x82 <= target < 0x7fff_ffff
  }

  /** The bytes of n, lowest first. */
  function LittleEndian(n: nat, bytes: nat): (r: seq<byte>)
    ensures |r| == bytes
  {
    if bytes == 0 then [] else [LowByte(n)] + LittleEndian(n / 256, bytes - 1)
  }

  /** n shifted right by so many bytes; emitInt asserts that nothing is left. */
  function ShiftedOut(n: nat, bytes: nat): nat {
    if bytes == 0 then n else ShiftedOut(n / 256, bytes - 1)
  }

  lemma FourBytesFit(n: nat)
    ensures ShiftedOut(n, 4) == 0 <==> n < 0x1_0000_0000
  {
    assert ShiftedOut(n, 4) == ShiftedOut(n / 256, 3);
    assert ShiftedOut(n / 256, 3) == ShiftedOut(n / 256 / 256, 2);
    assert ShiftedOut(n / 256 / 256, 2) == ShiftedOut(n / 256 / 256 / 256, 1);
  }

  lemma FourBytes(n: nat, code: seq<byte>, at: nat)
    requires n < 0x1_0000_0000 && at + 4 <= |code|
    requires forall i :: at <= i < at + 4 ==> code[i] == LittleEndian(n, 4)[i - at]
    ensures Unsigned32(code, at) == n
  {
    assert LittleEndian(n, 4) == [LowByte(n)] + LittleEndian(n / 256, 3);
    assert LittleEndian(n / 256, 3) == [LowByte(n / 256)] + LittleEndian(n / 256 / 256, 2);
    assert LittleEndian(n / 256 / 256, 2) == [LowByte(n / 256 / 256)] + LittleEndian(n / 256 / 256 / 256, 1);
    assert code[at] == LowByte(n) && code[at + 1] == LowByte(n / 256);
    assert code[at + 2] == LowByte(n / 256 / 256) && code[at + 3] == LowByte(n / 256 / 256 / 256);
  }

  lemma ReadsShort(code: seq<byte>, pos: nat, target: int)
    requires IsShort(target, pos) && pos + 2 <= |code| && code[pos + 1] == LowByte(target - pos - 2)
    ensures code[pos] == 0xeb ==> DecodeJmp(code, pos) == Some(Jump(target, pos + 2))
    ensures forall c: nat :: c < 16 && code[pos] as nat == 0x70 + c ==> DecodeJcc(code, pos, c) == Some(Jump(target, pos + 2))
  {}

  lemma ReadsNear(code: seq<byte>, pos: nat, target: int)
    requires pos + 0x82 <= target < 0x7fff_ffff && pos + 5 <= |code| && code[pos] == 0xe9
    requires forall i :: pos + 1 <= i < pos + 5 ==> code[i] == LittleEndian(target - pos - 5, 4)[i - pos - 1]
    ensures DecodeJmp(code, pos) == Some(Jump(target, pos + 5))
  {
    FourBytes(target - pos - 5, code, pos + 1);
  }

  lemma ReadsNearCondition(code: seq<byte>, pos: nat, target: int, c: nat)
    requires pos + 0x82 <= target < 0x7fff_ffff && pos + 6 <= |code| && c < 16
    requires code[pos] == 0x0f && code[pos + 1] as nat == 0x80 + c
    requires forall i :: pos + 2 <= i < pos + 6 ==> code[i] == LittleEndian(target - pos - 6, 4)[i - pos - 2]
    ensures DecodeJcc(code, pos, c) == Some(Jump(target, pos + 6))
  {
    FourBytes(target - pos - 6, code, pos + 2);
  }

  class Assembler {
    const mem: array<byte>
    const start: nat
    const end: nat
    var addr: nat

    ghost predicate Valid()
      reads this
    {
      start <= addr <= end <= mem.Length
    }

    /** The slot's bytes, and the position in it. */
    function Code(): seq<byte>
      requires Valid()
      reads this, mem
    {
      mem[start..end]
    }

    function Pos(): nat
      requires Valid()
      reads this
    {
      addr - start
    }

    constructor (mem: array<byte>, start: nat, size: nat)
      requires start + size <= mem.Length
      ensures Valid() && this.mem == mem && this.start == start && this.end == start + size && Pos() == 0
    {
      this.mem, this.start, this.end, addr := mem, start, start + size, start;
    }

    /** The bytes were written at the old position, and nothing else. */
    twostate predicate Appended(bytes: seq<byte>)
      requires old(Valid()) && Valid()
      reads this, mem
    {
      && addr == old(addr) + |bytes|
      && (forall i {:trigger mem[i]} :: 0 <= i < mem.Length ==>
            mem[i] == if old(addr) <= i < addr then bytes[i - old(addr)] else old(mem[i]))
    }

    method EmitByte(b: byte)
      requires Valid() && addr < end
      modifies mem, this`addr
      ensures Valid() && Appended([b])
    {
      mem[addr] := b;
      addr := addr + 1;
    }

    method EmitInt(n: nat, bytes: nat)
      requires Valid() && addr + bytes <= end && 0 < bytes <= 8 && ShiftedOut(n, bytes) == 0
      modifies mem, this`addr
      ensures Valid() && Appended(LittleEndian(n, bytes))
    {
      hide LowByte, ShiftedOut;
      var rest := n;
      for i := 0 to bytes
        invariant Valid() && Appended(LittleEndian(n, bytes)[..i])
        invariant LittleEndian(n, bytes)[i..] == LittleEndian(rest, bytes - i)
      {
        assert LittleEndian(rest, bytes - i)[0] == LittleEndian(n, bytes)[i];
        assert LittleEndian(n, bytes)[i + 1..] == LittleEndian(n, bytes)[i..][1..];
        EmitByte(LowByte(rest));
        rest := rest / 256;
      }
      assert LittleEndian(n, bytes)[..bytes] == LittleEndian(n, bytes);
    }

    method Nop()
      requires Valid() && addr < end
      modifies mem, this`addr
      ensures Valid() && Appended([NOP])
    {
      EmitByte(NOP);
    }

    /** jmp: whatever the distance, the processor reads the jump back with the wanted target. */
    method Jmp(target: int)
      requires Valid() && addr + JmpLength(target, Pos()) <= end && Encodable(target, Pos())
      modifies mem, this`addr
      ensures Valid() && Pos() == old(Pos()) + JmpLength(target, old(Pos()))
      ensures DecodeJmp(Code(), old(Pos())) == Some(Jump(target, Pos()))
      ensures SameBefore()
    {
      hide DecodeJmp, DecodeJcc, LittleEndian, LowByte, ShiftedOut;
      ghost var pos := Pos();
      var offset := target - (addr - start) - 2;
      if offset >= -0x80 && offset < 0x80 {
        EmitByte(0xeb);
        EmitByte(LowByte(offset));
        ReadsShort(Code(), pos, target);
      } else {
        offset := offset - 3;
        EmitByte(0xe9);
        FourBytesFit(offset);
        EmitInt(offset, 4);
        ReadsNear(Code(), pos, target);
      }
    }

    /** jmp_cond. */
    method JmpCond(target: int, condition: nat)
      requires Valid() && addr + JccLength(target, Pos()) <= end && Encodable(target, Pos()) && condition < 16
      modifies mem, this`addr
      ensures Valid() && Pos() == old(Pos()) + JccLength(target, old(Pos()))
      ensures DecodeJcc(Code(), old(Pos()), condition) == Some(Jump(target, Pos()))
      ensures SameBefore()
    {
      hide DecodeJmp, DecodeJcc, LittleEndian, LowByte, ShiftedOut;
      ghost var pos := Pos();
      var offset := target - (addr - start) - 2;
      if offset >= -0x80 && offset < 0x80 {
        EmitByte((0x70 + condition) as byte);
        EmitByte(LowByte(offset));
        ReadsShort(Code(), pos, target);
      } else {
        offset := offset - 4;
        EmitByte(0x0f);
        EmitByte((0x80 + condition) as byte);
        FourBytesFit(offset);
        EmitInt(offset, 4);
        ReadsNearCondition(Code(), pos, target, condition);
      }
    }

    method FillWithNops()
      requires Valid()
      modifies mem, this`addr
      ensures Valid() && addr == end && SameBefore()
      ensures forall i :: old(Pos()) <= i < |Code()| ==> Code()[i] == NOP
    {
      forall i | addr <= i < end {
        mem[i] := NOP;
      }
      addr := end;
    }

    /** Everything outside the rest of the slot is as it was. */
    twostate predicate SameBefore()
      requires old(Valid()) && Valid()
      reads this, mem
    {
      && (forall i :: 0 <= i < old(addr) ==> mem[i] == old(mem[i]))
      && (forall i :: end <= i < mem.Length ==> mem[i] == old(mem[i]))
    }
  }

  /** A relative jump means the same wherever the slot's bytes are copied to: only what the slot
      holds from the jump on decides it, and later writes elsewhere do not matter. */
  lemma JumpsMoveAlong(code: seq<byte>, other: seq<byte>, pos: nat, j: Jump)
    requires |other| == |code| && pos <= j.after <= |code| && other[pos..j.after] == code[pos..j.after]
    requires DecodeJmp(code, pos) == Some(j)
    ensures DecodeJmp(other, pos) == Some(j)
  {
    forall k | pos <= k < j.after ensures other[k] == code[k] {
      assert other[pos..j.after][k - pos] == code[pos..j.after][k - pos];
    }
  }

  lemma ConditionalJumpsMoveAlong(code: seq<byte>, other: seq<byte>, pos: nat, j: Jump, condition: nat)
    requires |other| == |code| && pos <= j.after <= |code| && other[pos..j.after] == code[pos..j.after]
    requires condition < 16 && DecodeJcc(code, pos, condition) == Some(j)
    ensures DecodeJcc(other, pos, condition) == Some(j)
  {
    forall k | pos <= k < j.after ensures other[k] == code[k] {
      assert other[pos..j.after][k - pos] == code[pos..j.after][k - pos];
    }
  }
}
