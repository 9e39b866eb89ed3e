/** The machine the inline-cache writer emits code for: registers, scratch slots and memory. */
module Machine {
  /** Where a value can be. Constants fit an immediate and live nowhere in the machine. */
  datatype Location =
    | Register(reg: nat)
    | Xmm(reg: nat)
    | Scratch(offset: nat)
    | Constant(value: int)

  const RAX: nat := 0
  const RCX: nat := 1
  const RDX: nat := 2
  const RBX: nat := 3
  const RSP: nat := 4
  const RBP: nat := 5
  const RSI: nat := 6
  const RDI: nat := 7
  const R11: nat := 11

  predicate IsCalleeSave(reg: nat) {
    reg == RBX || reg == RSP || reg == RBP || reg >= 12
  }

  /** Whether a call may overwrite the location (isClobberedByCall). */
  predicate Clobbered(l: Location) {
    match l
    case Register(reg) => !IsCalleeSave(reg)
    case Xmm(_) => true
    case Scratch(_) => false
    case Constant(_) => false
  }

  /** The register the calling convention passes the i-th integer argument in (System V AMD64 ABI,
      section 3.2.3). */
  function ParameterRegister(i: nat): nat
    requires i < 6
  {
    if i == 0 then RDI
    else if i == 1 then RSI
    else if i == 2 then RDX
    else if i == 3 then RCX
    else 4 + i
  }

  /** What an instruction reads: a location's content, or an immediate. */
  datatype Operand = Loc(l: Location) | Imm(value: int)

  datatype Instr =
    | Move(src: Operand, dst: Location)
    | Load(base: Location, offset: int, dst: Location)
    | Store(src: Operand, base: Location, offset: int)
    | Guard(base: Location, offset: int, expected: Operand)
    | CallReg(func: Location)

  datatype State = State(loc: Location -> int, mem: int -> int)

  /** What the called code leaves behind, by position of the call in the emitted code. */
  type Callee = (nat, State) -> State

  ghost function Get(m: State, l: Location): int {
    if l.Constant? then l.value else m.loc(l)
  }

  ghost function Read(m: State, o: Operand): int {
    match o
    case Loc(l) => Get(m, l)
    case Imm(value) => value
  }

  ghost function Set(m: State, l: Location, x: int): State {
    m.(loc := k => if k == l then x else m.loc(k))
  }

  /** A call keeps callee-save registers and the caller's scratch slots, nothing else. */
  ghost function AfterCall(m: State, callee: State): State {
    State(l => if Clobbered(l) then callee.loc(l) else m.loc(l), callee.mem)
  }

  /** One instruction, falling through guards. */
  ghost function Step(callee: Callee, at: nat, m: State, i: Instr): State {
    match i
    case Move(src, dst) => Set(m, dst, Read(m, src))
    case Load(base, offset, dst) => Set(m, dst, m.mem(Get(m, base) + offset))
    case Store(src, base, offset) =>
      m.(mem := a => if a == Get(m, base) + offset then Read(m, src) else m.mem(a))
    case Guard(_, _, _) => m
    case CallReg(_) => AfterCall(m, callee(at, m))
  }

  /** The state after all of `code`, when every guard on the way holds. */
  ghost function Through(callee: Callee, m: State, code: seq<Instr>): State {
    if code == [] then m
    else
      var k := |code| - 1;
      Step(callee, k, Through(callee, m, code[..k]), code[k])
  }

  ghost predicate Fails(m: State, i: Instr) {
    i.Guard? && m.mem(Get(m, i.base) + i.offset) != Read(m, i.expected)
  }

  /** How a run of a slot's code ends: past its end, or through the first failing guard. */
  datatype Exit = PastEnd(m: State) | Missed(m: State)

  ghost function Run(callee: Callee, m: State, code: seq<Instr>): Exit {
    RunFrom(callee, m, code, 0)
  }

  ghost function RunFrom(callee: Callee, m: State, code: seq<Instr>, k: nat): Exit
    requires k <= |code|
    decreases |code| - k
  {
    if k == |code| then PastEnd(m)
    else if Fails(m, code[k]) then Missed(m)
    else RunFrom(callee, Step(callee, k, m, code[k]), code, k + 1)
  }

  lemma ThroughSnoc(callee: Callee, m: State, code: seq<Instr>, i: Instr)
    ensures Through(callee, m, code + [i]) == Step(callee, |code|, Through(callee, m, code), i)
  {
    assert (code + [i])[..|code|] == code;
  }

  /** Executing step by step agrees with the fall-through states: a run leaves either past the
      end or at a guard, in the state reached by falling through everything before it. */
  lemma {:induction false} RunIsThrough(callee: Callee, entry: State, code: seq<Instr>, k: nat)
    requires k <= |code|
    ensures var x := RunFrom(callee, Through(callee, entry, code[..k]), code, k);
      match x
      case PastEnd(m) => m == Through(callee, entry, code)
      case Missed(m) => exists g: nat :: k <= g < |code| && code[g].Guard? && m == Through(callee, entry, code[..g])
    decreases |code| - k
  {
    if k == |code| {
      assert code[..k] == code;
    } else {
      var m := Through(callee, entry, code[..k]);
      if !Fails(m, code[k]) {
        assert code[..k + 1] == code[..k] + [code[k]];
        ThroughSnoc(callee, entry, code[..k], code[k]);
        RunIsThrough(callee, entry, code, k + 1);
      }
    }
  }
}
