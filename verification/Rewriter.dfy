/** Rewriter2, RewriterVar2 and RewriterVarUsage2 (src/asm_writing/rewriter2.cpp): the one-pass
    register allocator that writes inline-cache code. The code's debug asserts are preconditions;
    its release asserts (no free register, no free scratch slot) abort. */
module Rewriter {
  import opened Results
  import opened Machine
  import RS = RewriterState
  import opened RewriterState

  /** Where a caller wants a value. */
  datatype Dest = AnyReg | InReg(reg: nat)

  /** The allocation order, without RSP and RBP. */
  const ALLOCATABLE: seq<nat> := [RAX, RCX, RBX, RDX, RDI, RSI, 8, 9, 10, 11, 12, 13, 14, 15]

  /** The registers a call may overwrite, as the code lists them. */
  const CALLER_SAVE: seq<Location> :=
    [Register(RAX), Register(RCX), Register(RDX), Register(RSI), Register(RDI),
     Register(8), Register(9), Register(10), Register(11),
     Xmm(0), Xmm(1), Xmm(2), Xmm(3), Xmm(4), Xmm(5), Xmm(6), Xmm(7),
     Xmm(8), Xmm(9), Xmm(10), Xmm(11), Xmm(12), Xmm(13), Xmm(14), Xmm(15)]

  const ARG_REGS: seq<nat> := [RDI, RSI, RDX, RCX, 8, 9]

  /** Where the i-th argument is, on entry to a slot and at a call: where the convention says. */
  function ForArg(i: nat): (l: Location)
    requires i < |ARG_REGS|
    ensures l == Register(ParameterRegister(i))
  {
    Register(ARG_REGS[i])
  }

  /** Immediates hold 32 bits, the topmost value excepted (loadConst). */
  predicate FitsImmediate(val: int) {
    -0x8000_0000 <= val < 0x7fff_ffff
  }

  /** The immediates are the values that an instruction's 32 bits, sign-extended, can give back,
      without the largest one. */
  lemma ImmediatesExtend(val: int)
    ensures FitsImmediate(val) <==> SignExtended(val % 0x1_0000_0000) == val && val != 0x7fff_ffff
  {}

  function SignExtended(bits: nat): int
    requires bits < 0x1_0000_0000
  {
    if bits < 0x8000_0000 then bits else bits - 0x1_0000_0000
  }

  /** The same test as addAttrGuard writes it: `val` is unsigned there, and so is the comparison. */
  predicate GuardFitsImmediate(val: int) {
    !(val < 0xffff_ffff_8000_0000 || val >= 0x7fff_ffff)
  }

  /** The unsigned comparison never lets a guard use an immediate. */
  lemma GuardNeverImmediate(val: int)
    ensures !GuardFitsImmediate(val)
  {}

  /** Floating-point registers are never a second location, and registers are real. */
  ghost predicate Located(s: RS.Rewriter) {
    && (forall l {:trigger l in s.where} :: l in s.where ==>
          && (l.Register? ==> l.reg < 16) && (l.Xmm? ==> l.reg < 16) && (l.Scratch? ==> s.doneGuarding)
          && (l.Xmm? && s.where[l] in s.vars ==> s.vars[s.where[l]].locations == {l}))
  }

  /** Variable v can be read through a general register: it is in one, or in a scratch slot alone. */
  ghost predicate Readable(s: RS.Rewriter, v: nat) {
    && v in s.vars
    && (forall l {:trigger l in s.vars[v].locations} :: l in s.vars[v].locations ==> !l.Constant?)
    && ((exists l :: l in s.vars[v].locations && l.Register?) || exists o :: s.vars[v].locations == {Scratch(o)})
  }

  /** Code is only appended, and no guard is. */
  predicate Grows(a: seq<Instr>, b: seq<Instr>) {
    a <= b && forall k {:trigger b[k]} :: |a| <= k < |b| ==> !b[k].Guard?
  }

  lemma GrowsAgain(a: seq<Instr>, b: seq<Instr>, c: seq<Instr>)
    ensures Grows(a, a) && (Grows(a, b) && Grows(b, c) ==> Grows(a, c))
  {}

  /** Everything recorded at old time is still recorded, except what a spill of `from` moved. */
  ghost predicate Preserved(s: RS.Rewriter, t: RS.Rewriter, gone: set<Location>) {
    && t.vars.Keys == s.vars.Keys
    && (forall v {:trigger t.vars[v]} :: v in s.vars ==>
          s.vars[v].locations - gone <= t.vars[v].locations && t.vars[v].uses == s.vars[v].uses)
    && t.doneGuarding == s.doneGuarding && t.args == s.args && t.liveOuts == s.liveOuts && t.liveOutRegs == s.liveOutRegs
    && Grows(s.code, t.code)
  }

  /** The callee-save registers in allocation order: where a spill looks first. */
  const CALLEE_SAVE: seq<nat> := [RBX, 12, 13, 14, 15]

  /** The first register of the list that holds nothing. */
  predicate FirstOf(regs: seq<nat>, where: map<Location, nat>, reg: nat) {
    exists i {:trigger regs[i]} :: 0 <= i < |regs| && regs[i] == reg && Register(reg) !in where &&
      forall j :: 0 <= j < i ==> Register(regs[j]) in where
  }

  /** The callee-save register a spill takes: the first one that is free. */
  function SpillChoice(where: map<Location, nat>): (r: Result<nat>)
    ensures r.Done? ==> FirstOf(CALLEE_SAVE, where, r.value)
    ensures r.Aborted? <==> forall i :: 0 <= i < |CALLEE_SAVE| ==> Register(CALLEE_SAVE[i]) in where
  {
    if Register(RBX) !in where then assert CALLEE_SAVE[0] == RBX; Done(RBX)
    else if Register(12) !in where then assert CALLEE_SAVE[1] == 12; Done(12)
    else if Register(13) !in where then assert CALLEE_SAVE[2] == 13; Done(13)
    else if Register(14) !in where then assert CALLEE_SAVE[3] == 14; Done(14)
    else if Register(15) !in where then assert CALLEE_SAVE[4] == 15; Done(15)
    else Aborted
  }

  /** The choice agrees with scanning all allocatable registers up to position k. */
  predicate ScannedTo(where: map<Location, nat>, k: nat)
    requires k <= |ALLOCATABLE|
  {
    forall j :: 0 <= j < k && IsCalleeSave(ALLOCATABLE[j]) ==> Register(ALLOCATABLE[j]) in where
  }

  lemma ScanChooses(where: map<Location, nat>, k: nat)
    requires k <= |ALLOCATABLE| && ScannedTo(where, k)
    ensures k == |ALLOCATABLE| ==> SpillChoice(where).Aborted?
    ensures k < |ALLOCATABLE| && IsCalleeSave(ALLOCATABLE[k]) && Register(ALLOCATABLE[k]) !in where ==>
      SpillChoice(where) == Done(ALLOCATABLE[k])
  {
    assert ALLOCATABLE[2] == RBX && ALLOCATABLE[10] == 12 && ALLOCATABLE[11] == 13 && ALLOCATABLE[12] == 14 && ALLOCATABLE[13] == 15;
  }

  /** The lowest 8-byte slot of the scratch area that holds nothing. */
  predicate FirstScratch(where: map<Location, nat>, bytes: nat, l: Location) {
    && l.Scratch? && l !in where && l.offset < bytes && l.offset % 8 == 0
    && forall o: nat {:trigger Scratch(o)} :: o < l.offset && o % 8 == 0 ==> Scratch(o) in where
  }

  /** The first register in allocation order that holds nothing. */
  predicate FirstRegister(where: map<Location, nat>, reg: nat) {
    FirstOf(ALLOCATABLE, where, reg)
  }

  /** The scratch slot a spill takes: the first free one from offset o on. */
  function ScratchFrom(where: map<Location, nat>, bytes: nat, o: nat): (r: Result<Location>)
    decreases if o < bytes then bytes - o else 0
  {
    if o >= bytes then Aborted
    else if Scratch(o) !in where then Done(Scratch(o))
    else ScratchFrom(where, bytes, o + 8)
  }

  /** Where a spilled general register goes, if there is room. */
  function SpillTo(where: map<Location, nat>, bytes: nat): Result<Location> {
    match SpillChoice(where)
    case Done(c) => Done(Register(c))
    case Aborted => ScratchFrom(where, bytes, 0)
  }

  /** The first free register in allocation order from position k on. */
  function RegisterFrom(where: map<Location, nat>, k: nat): Result<nat>
    requires k <= |ALLOCATABLE|
    decreases |ALLOCATABLE| - k
  {
    if k == |ALLOCATABLE| then Aborted
    else if Register(ALLOCATABLE[k]) !in where then Done(ALLOCATABLE[k])
    else RegisterFrom(where, k + 1)
  }

  /** The register allocReg hands out, if it finds one. */
  function AllocChoice(where: map<Location, nat>, bytes: nat, dest: Dest): Result<nat> {
    match dest
    case AnyReg => RegisterFrom(where, 0)
    case InReg(reg) => if Register(reg) in where && SpillTo(where, bytes).Aborted? then Aborted else Done(reg)
  }

  /** The state it leaves: the wanted register's variable has been moved aside. */
  function AfterAlloc(s: RS.Rewriter, bytes: nat, dest: Dest): RS.Rewriter {
    if dest.InReg? && Register(dest.reg) in s.where && s.where[Register(dest.reg)] in s.vars && SpillTo(s.where, bytes).Done? then
      Spilled(s, s.where[Register(dest.reg)], Register(dest.reg), SpillTo(s.where, bytes).value)
    else s
  }

  /** The same variables in the same places. */
  predicate SamePlaces(s: RS.Rewriter, t: RS.Rewriter) {
    s.where == t.where && s.vars == t.vars
  }

  predicate NoRegister(s: RS.Rewriter, v: nat)
    requires v in s.vars
  {
    forall l {:trigger l in s.vars[v].locations} :: l in s.vars[v].locations ==> !l.Register?
  }

  /** s with v in register reg, where it may have been already. */
  function With(s: RS.Rewriter, v: nat, reg: nat): RS.Rewriter
    requires v in s.vars
  {
    if Register(reg) in s.vars[v].locations then s else AddLocation(s, v, Register(reg))
  }

  /** The state in which v is brought into a register: a variable that has none is reloaded, and for
      that a register is allocated. */
  function Reloading(s: RS.Rewriter, v: nat, bytes: nat, dest: Dest): RS.Rewriter
    requires v in s.vars
  {
    if NoRegister(s, v) then AfterAlloc(s, bytes, dest) else s
  }

  /** The register v is read from: any it has, or the first free one when it has none. */
  predicate MayPick(s: RS.Rewriter, v: nat, reg: nat)
    requires v in s.vars
  {
    if NoRegister(s, v) then RegisterFrom(s.where, 0) == Done(reg) else Register(reg) in s.vars[v].locations
  }

  /** The state in which getAttr allocates the result's register: v has been read from reg, and
      killed if that was asked for. */
  function Based(s: RS.Rewriter, v: nat, kill: bool, reg: nat): RS.Rewriter
    requires v in s.vars
  {
    if kill then DecUse(With(s, v, reg), v) else With(s, v, reg)
  }

  /** Another variable is in the way of getAttr's result while the base v dies. */
  predicate MustSpill(s: RS.Rewriter, v: nat, kill: bool, dest: Dest)
    requires v in s.vars
  {
    && kill && dest.InReg? && s.vars[v].uses == 1
    && Register(dest.reg) in s.where && s.where[Register(dest.reg)] != v
  }

  /** Whether a killing getAttr may load through the wrong base: something must be spilled, and the
      register the spill will choose is one that v may be read from. */
  predicate Threatened(s: RS.Rewriter, v: nat, kill: bool, dest: Dest)
    requires v in s.vars
  {
    && MustSpill(s, v, kill, dest)
    && var c := SpillChoice(s.where - s.vars[v].locations); c.Done? && MayPick(s, v, c.value)
  }

  /** Where everything is after getAttr: the new variable x is in the register allocated for it. */
  predicate AttrPlaced(s: RS.Rewriter, t: RS.Rewriter, v: nat, kill: bool, reg: nat, bytes: nat, dest: Dest, x: nat)
    requires v in s.vars
  {
    var b := Based(s, v, kill, reg);
    var got := AllocChoice(b.where, bytes, dest);
    got.Done? && SamePlaces(t, NewVar(AfterAlloc(b, bytes, dest), x, Register(got.value)))
  }

  class Rewriter2 {
    const returnReg: nat
    const scratchBytes: nat
    var where: map<Location, nat>
    var vars: map<nat, Var>
    var doneGuarding: bool
    var args: seq<nat>
    var liveOuts: seq<nat>
    var liveOutRegs: seq<Location>
    var code: seq<Instr>
    var next: nat
    ghost var g: Run

    function St(): RS.Rewriter
      reads this
    {
      RS.Rewriter(where, vars, doneGuarding, args, liveOuts, liveOutRegs, code)
    }

    ghost predicate Valid()
      reads this
    {
      && Ok(St(), g) && Located(St())
      && (forall v {:trigger v in g.val} :: v in g.val ==> v < next)
      && Register(returnReg) !in liveOutRegs
    }

    /** The arguments are in their registers, and every live-out stands for what its register
        holds; a live-out in an argument register shares the argument's variable. */
    constructor (numArgs: nat, outs: seq<Location>, returnReg: nat, scratchBytes: nat, ghost callee: Callee, ghost entry: State)
      requires numArgs <= |ARG_REGS| && returnReg < 16
      requires forall l :: l in outs ==> (l.Register? || l.Xmm?) && l.reg < 16 && l != Register(returnReg)
      requires forall i, j :: 0 <= i < j < |outs| ==> outs[i] != outs[j]
      ensures Valid() && OnEntry(St()) && liveOutRegs == outs && ArgsEntered(args, g, numArgs)
      ensures g.callee == callee && g.entry == entry && g.held == multiset{}
      ensures this.returnReg == returnReg && this.scratchBytes == scratchBytes
      ensures forall l :: l in outs ==> l in g.kept
      ensures |liveOuts| == |outs| && OnePlace(St()) && EnteredAt(where, args, ForArgs()[..numArgs]) && EnteredAt(where, liveOuts, outs)
      ensures forall l :: l in where ==> l in ForArgs()[..numArgs] || l in outs
    {
      this.returnReg, this.scratchBytes := returnReg, scratchBytes;
      where, vars, doneGuarding, args, liveOuts, liveOutRegs, code, next := map[], map[], false, [], [], [], [], 0;
      g := RS.Run(callee, entry, map[], multiset{}, {});
      new;
      hide Ok, Located, OnePlace, ArgsEntered, EnteredAt, ForArgs;
      EmptyOk(St(), g);
      EnterArgs(numArgs);
      EnterLiveOuts(outs, numArgs);
    }

    method EnterArgs(n: nat)
      requires Valid() && OnEntry(St()) && OnePlace(St()) && args == [] && liveOuts == [] && where == map[] && n <= |ARG_REGS|
      modifies this`where, this`vars, this`args, this`next, this`g
      ensures Valid() && OnePlace(St()) && ArgsEntered(args, g, n)
      ensures g.callee == old(g).callee && g.entry == old(g).entry && g.held == old(g).held
      ensures |ForArgs()| == |ARG_REGS| && EnteredAt(where, args, ForArgs()[..n])
      ensures forall l :: l in where ==> l in ForArgs()[..n]
    {
      NoneEntered(args, where, g);
      hide Ok, Located, OnePlace, ArgsEntered, ArgsAhead, EnteredAt, ForArg, ForArgs;
      for i := 0 to n
        invariant Valid() && OnePlace(St()) && ArgsEntered(args, g, i) && ArgsAhead(where, i)
        invariant g.callee == old(g).callee && g.entry == old(g).entry && g.held == old(g).held
        invariant |ForArgs()| == |ARG_REGS| && EnteredAt(where, args, ForArgs()[..i])
        invariant forall l :: l in where ==> l in ForArgs()[..i]
      {
        assert ForArgs()[..i + 1] == ForArgs()[..i] + [ForArg(i)] by { ForArgsAt(i); }
        ghost var was, vs := where, args;
        EnterNextArg(i);
        MoreEnteredAt(was, where, vs, ForArgs()[..i], ForArg(i));
      }
    }

    method EnterLiveOuts(outs: seq<Location>, n: nat)
      requires Valid() && OnEntry(St()) && OnePlace(St()) && liveOuts == [] && liveOutRegs == []
      requires n <= |ARG_REGS| && ArgsEntered(args, g, n) && |ForArgs()| == |ARG_REGS| && EnteredAt(where, args, ForArgs()[..n])
      requires forall l :: l in where ==> l in ForArgs()[..n]
      requires forall l :: l in outs ==> (l.Register? || l.Xmm?) && l.reg < 16 && l != Register(returnReg)
      requires forall i, j :: 0 <= i < j < |outs| ==> outs[i] != outs[j]
      modifies this`where, this`vars, this`liveOuts, this`liveOutRegs, this`next, this`g
      ensures Valid() && OnePlace(St()) && ArgsEntered(args, g, n) && liveOutRegs == outs
      ensures g.callee == old(g).callee && g.entry == old(g).entry && g.held == old(g).held
      ensures forall l :: l in outs ==> l in g.kept
      ensures |liveOuts| == |outs| && EnteredAt(where, args, ForArgs()[..n]) && EnteredAt(where, liveOuts, outs)
      ensures forall l :: l in where ==> l in ForArgs()[..n] || l in outs
    {
      hide Ok, Located, OnePlace, ArgsEntered, EnteredAt, ForArgs;
      NoneEnteredAt(where);
      for i := 0 to |outs|
        invariant Valid() && OnePlace(St()) && OnEntry(St()) && liveOutRegs == outs[..i] && ArgsEntered(args, g, n)
        invariant g.callee == old(g).callee && g.entry == old(g).entry && g.held == old(g).held
        invariant forall l :: l in outs[..i] ==> l in g.kept
        invariant |liveOuts| == i && EnteredAt(where, args, ForArgs()[..n]) && EnteredAt(where, liveOuts, outs[..i])
        invariant forall l :: l in where ==> l in ForArgs()[..n] || l in outs[..i]
      {
        assert outs[..i + 1] == outs[..i] + [outs[i]];
        ghost var h, was, vs := g, where, liveOuts;
        EnterNextLiveOut(outs[i]);
        MoreEntered(args, h, g, n);
        MoreEnteredAt(was, where, args, ForArgs()[..n], outs[i]);
        MoreEnteredAt(was, where, vs, outs[..i], outs[i]);
      }
      assert outs[..|outs|] == outs;
    }

    method EnterNextArg(i: nat)
      requires Valid() && OnEntry(St()) && OnePlace(St()) && liveOuts == [] && i < |ARG_REGS|
      requires ArgsEntered(args, g, i) && ArgsAhead(where, i)
      modifies this`where, this`vars, this`args, this`next, this`g
      ensures Valid() && OnePlace(St()) && ArgsEntered(args, g, i + 1) && ArgsAhead(where, i + 1)
      ensures g.callee == old(g).callee && g.entry == old(g).entry && g.held == old(g).held
      ensures where.Keys == old(where).Keys + {ForArg(i)}
      ensures ForArg(i) in where && args == old(args) + [where[ForArg(i)]] && where == old(where)[ForArg(i) := where[ForArg(i)]] && ForArg(i) !in old(where)
    {
      hide Ok, Located, OnePlace, ArgsEntered, ArgsAhead;
      ghost var s, h := St(), g;
      var l := ForArg(i);
      ArgRegsClobbered(i);
      NextArg(args, where, g, next, i);
      EntersOnePlace(s, g, next, l);
      FreshVar(St(), g, next);
      EntersOk(St(), g, next, l);
      EntersLocated(St(), next, l);
      args, where, vars := args + [next], where[l := next], vars[next := Var({l}, 1)];
      SameLocated(NewVar(s, next, l), St());
      g := Entering(g, next, l);
      next := next + 1;
    }

    method EnterNextLiveOut(l: Location)
      requires Valid() && OnEntry(St()) && OnePlace(St()) && (l.Register? || l.Xmm?) && l.reg < 16
      requires l !in liveOutRegs && l != Register(returnReg)
      modifies this`where, this`vars, this`liveOuts, this`liveOutRegs, this`next, this`g
      ensures Valid() && OnePlace(St()) && liveOutRegs == old(liveOutRegs) + [l]
      ensures g.callee == old(g).callee && g.entry == old(g).entry && g.held == old(g).held && g.kept == old(g).kept + {l}
      ensures forall v :: v in old(g).val ==> v in g.val && g.val[v] == old(g).val[v]
      ensures where.Keys == old(where).Keys + {l}
      ensures l in where && liveOuts == old(liveOuts) + [where[l]] && (old(where) == where || (where == old(where)[l := where[l]] && l !in old(where)))
    {
      hide Ok, Located, OnePlace, Books, ShareLiveOut, EnterLiveOut, Entering;
      ghost var s, h := St(), g;
      if l in where {
        OnePlaceShared(s, l);
        SharedOk(s, h, l);
        SharedLocated(s, l);
        ShareIs(s, l);
        var v := where[l];
        vars := vars[v := vars[v].(uses := vars[v].uses + 1)];
        liveOuts, liveOutRegs := liveOuts + [v], liveOutRegs + [l];
        g := g.(kept := g.kept + {l});
      } else {
        EntersOnePlace(s, h, next, l);
        FreshVar(s, h, next);
        LiveOutOk(s, h, next, l);
        EntersLocated(s, next, l);
        EnterIs(s, h, next, l);
        where, vars := where[l := next], vars[next := Var({l}, 1)];
        liveOuts, liveOutRegs := liveOuts + [next], liveOutRegs + [l];
        SameLocated(NewVar(s, next, l), St());
        g := Entering(g, next, l);
        next := next + 1;
      }
    }

    // ---- bookkeeping ----------------------------------------------------------------------

    method EmitInstr(i: Instr)
      modifies this`code
      ensures St() == Emit(old(St()), i)
    {
      code := code + [i];
    }

    method AddLocationToVar(v: nat, l: Location)
      requires v in vars && l !in vars[v].locations && l !in where
      modifies this`where, this`vars
      ensures St() == AddLocation(old(St()), v, l)
    {
      vars := vars[v := vars[v].(locations := vars[v].locations + {l})];
      where := where[l := v];
    }

    method RemoveLocationFromVar(v: nat, l: Location)
      requires v in vars && l in vars[v].locations
      modifies this`where, this`vars
      ensures St() == RemoveLocation(old(St()), v, l)
    {
      where := where - {l};
      vars := vars[v := vars[v].(locations := vars[v].locations - {l})];
    }

    method Kill(v: nat)
      requires v in vars
      modifies this`where, this`vars
      ensures where == old(where) - old(vars[v].locations) && vars == old(vars) - {v}
    {
      var rest := vars[v].locations;
      while rest != {}
        invariant rest <= old(vars[v].locations) && vars == old(vars)
        invariant where == old(where) - (old(vars[v].locations) - rest)
        decreases rest
      {
        var l :| l in rest;
        where := where - {l};
        rest := rest - {l};
      }
      vars := vars - {v};
    }

    method DecUseVar(v: nat)
      requires v in vars
      modifies this`where, this`vars
      ensures St() == DecUse(old(St()), v)
    {
      if vars[v].uses == 1 {
        Kill(v);
      } else {
        vars := vars[v := vars[v].(uses := vars[v].uses - 1)];
      }
    }

    /** RewriterVarUsage2::setDoneUsing. */
    method SetDoneUsing(v: nat)
      requires Valid() && v in g.held
      modifies this`where, this`vars, this`g
      ensures Valid() && v in old(St()).vars && St() == DecUse(old(St()), v)
      ensures g == old(g).(held := old(g).held - multiset{v})
    {
      hide Ok;
      DecUseOk(St(), g, v);
      OkBooks(St(), g);
      ghost var s, h := St(), g;
      DecUseVar(v);
      g := g.(held := g.held - multiset{v});
      DecUseLocated(s, h, v);
    }

    // ---- spilling and allocation ----------------------------------------------------------

    /** The first free 8-byte slot of the scratch area. */
    method AllocScratch() returns (r: Result<Location>)
      ensures r == ScratchFrom(where, scratchBytes, 0)
      ensures r.Done? ==> FirstScratch(where, scratchBytes, r.value)
      ensures r.Aborted? ==> forall o: nat {:trigger Scratch(o)} :: o < scratchBytes && o % 8 == 0 ==> Scratch(o) in where
    {
      var i := 0;
      while i < scratchBytes
        invariant i % 8 == 0 && forall o: nat {:trigger Scratch(o)} :: o < i && o % 8 == 0 ==> Scratch(o) in where
        invariant ScratchFrom(where, scratchBytes, 0) == ScratchFrom(where, scratchBytes, i)
      {
        if Scratch(i) !in where { return Done(Scratch(i)); }
        i := i + 8;
      }
      return Aborted;
    }

    /** Copies the register's variable to `to`, and forgets the register. */
    method MoveAside(from: Location, to: Location)
      requires Valid() && doneGuarding && from in where && to !in where && SpillTarget(from, to)
      modifies this`where, this`vars, this`code
      ensures Valid() && MovedAside(old(St()), St(), g, from, to)
      ensures Grows(old(code), code)
    {
      hide Ok, Located, Now;
      ghost var s := St();
      var v := where[from];
      SpillOk(s, g, v, from, to);
      assert to !in vars[v].locations by { OkBooks(s, g); }
      SpilledLocated(s, g, from, to);
      SpilledPreserves(s, g, from, to);
      EmitInstr(Move(Loc(from), to));
      AddLocationToVar(v, to);
      RemoveLocationFromVar(v, from);
    }

    /** spillRegister for a general register: a free callee-save register, else scratch. */
    method SpillRegister(reg: nat) returns (r: Result<Location>)
      requires Valid() && doneGuarding && Register(reg) in where
      modifies this`where, this`vars, this`code
      ensures r.Done? ==> Valid() && MovedAside(old(St()), St(), g, Register(reg), r.value)
      ensures r == SpillTo(old(where), scratchBytes)
      ensures r.Done? ==> match SpillChoice(old(where))
        case Done(c) => r.value == Register(c)
        case Aborted => FirstScratch(old(where), scratchBytes, r.value)
      ensures r.Done? ==> Grows(old(code), code)
    {
      hide Ok, Located, MovedAside, SpillChoice;
      for i := 0 to |ALLOCATABLE|
        invariant St() == old(St()) && ScannedTo(where, i)
      {
        var candidate := ALLOCATABLE[i];
        if !IsCalleeSave(candidate) || Register(candidate) in where { continue; }
        ScanChooses(where, i);
        MoveAside(Register(reg), Register(candidate));
        return Done(Register(candidate));
      }
      ScanChooses(where, |ALLOCATABLE|);
      var scratch :- AllocScratch();
      MoveAside(Register(reg), scratch);
      return Done(scratch);
    }

    /** spillRegister for a floating-point register: always scratch. */
    method SpillXmm(reg: nat) returns (r: Result<Location>)
      requires Valid() && doneGuarding && Xmm(reg) in where
      modifies this`where, this`vars, this`code
      ensures r.Done? ==> Valid() && MovedAside(old(St()), St(), g, Xmm(reg), r.value)
      ensures r.Done? ==> FirstScratch(old(where), scratchBytes, r.value)
      ensures r.Done? ==> Grows(old(code), code)
    {
      hide Ok, Located, MovedAside;
      var scratch :- AllocScratch();
      MoveAside(Xmm(reg), scratch);
      return Done(scratch);
    }

    /** allocReg: the first free register, or the given one, spilled if need be. */
    method AllocReg(dest: Dest) returns (r: Result<nat>)
      requires Valid() && (dest.InReg? ==> dest.reg < 16)
      requires dest.InReg? && Register(dest.reg) in where ==> doneGuarding
      modifies this`where, this`vars, this`code
      ensures r == AllocChoice(old(where), scratchBytes, dest)
      ensures r.Done? ==> St() == AfterAlloc(old(St()), scratchBytes, dest)
      ensures r.Done? ==> Valid() && r.value < 16 && Register(r.value) !in where
      ensures r.Done? && dest.InReg? ==> r.value == dest.reg
      ensures r.Done? && (dest.AnyReg? || Register(dest.reg) !in old(where)) ==> St() == old(St())
      ensures r.Done? && dest.InReg? && Register(dest.reg) in old(where) ==>
        exists to :: MovedAside(old(St()), St(), g, Register(dest.reg), to) &&
          (match SpillChoice(old(where)) case Done(c) => to == Register(c) case Aborted => FirstScratch(old(where), scratchBytes, to))
      ensures r.Done? && dest.AnyReg? ==> FirstRegister(old(where), r.value)
      ensures r.Done? ==> Grows(old(code), code)
    {
      hide Ok, Located, MovedAside, SpillChoice, FirstScratch, Spilled;
      match dest {
        case AnyReg =>
          for i := 0 to |ALLOCATABLE|
            invariant St() == old(St())
            invariant RegisterFrom(where, 0) == RegisterFrom(where, i)
            invariant forall j :: 0 <= j < i ==> Register(ALLOCATABLE[j]) in where
          {
            if Register(ALLOCATABLE[i]) !in where { return Done(ALLOCATABLE[i]); }
          }
          return Aborted;
        case InReg(reg) =>
          if Register(reg) in where {
            var to :- SpillRegister(reg);
            assert St() == AfterAlloc(old(St()), scratchBytes, dest) by { MovedAsideIs(old(St()), St(), g, Register(reg), to, scratchBytes); }
            assert Register(reg) !in where by { MovedAsideFrees(old(St()), St(), g, Register(reg), to); }
          }
          return Done(reg);
      }
    }

    // ---- variables in registers -----------------------------------------------------------

    /** Copies v from a location it is in to a free one and records it there. */
    method CopyTo(v: nat, from: Location, to: Location)
      requires Valid() && v in vars && from in vars[v].locations && to !in where
      requires (from.Register? || from.Scratch?) && to.Register? && to.reg < 16
      requires forall l :: l in vars[v].locations ==> !l.Xmm?
      modifies this`where, this`vars, this`code
      ensures Valid() && Copied(old(St()), St(), g, v, to)
      ensures Grows(old(code), code)
    {
      hide Ok, Located;
      ghost var s := St();
      CopyOk(s, g, v, from, to);
      CopyLocated(s, v, from, to);
      assert to !in vars[v].locations by { OkBooks(s, g); }
      EmitInstr(Move(Loc(from), to));
      AddLocationToVar(v, to);
    }

    /** getInReg: a register that holds v, copied or reloaded into place if need be. Only a reload
        may find its register taken, and then moves that register's variable aside. */
    method GetInReg(v: nat, dest: Dest) returns (r: Result<nat>)
      requires Valid() && Readable(St(), v)
      requires dest.InReg? ==> dest.reg < 16
      requires dest.InReg? ==> Register(dest.reg) in vars[v].locations || Register(dest.reg) !in where || NoRegister(St(), v)
      modifies this`where, this`vars, this`code
      ensures r.Aborted? <==> NoRegister(old(St()), v) && AllocChoice(old(where), scratchBytes, dest).Aborted?
      ensures NoRegister(old(St()), v) ==> r == AllocChoice(old(where), scratchBytes, dest)
      ensures r.Done? && dest.AnyReg? && !NoRegister(old(St()), v) ==> Register(r.value) in old(vars)[v].locations
      ensures r.Done? && dest.InReg? ==> r.value == dest.reg
      ensures r.Done? ==> var s := Reloading(old(St()), v, scratchBytes, dest);
        Valid() && InRegister(s, St(), g, v, r.value) && v in s.vars && SamePlaces(St(), With(s, v, r.value))
      ensures r.Done? && dest.AnyReg? && !doneGuarding ==> St() == old(St())
      ensures r.Done? ==> Grows(old(code), code)
    {
      hide Ok, Located, InRegister, Copied;
      if dest.InReg? && Register(dest.reg) in vars[v].locations {
        StaysInRegister(St(), g, v, dest.reg);
        return Done(dest.reg);
      }
      assert forall l :: l in vars[v].locations ==> !l.Xmm? by { OkBooks(St(), g); ReadableNotXmm(St(), v); }
      if l :| l in vars[v].locations && l.Register? {
        StaysInRegister(St(), g, v, l.reg);
        if dest.AnyReg? {
          assert l.reg < 16 by { RegisterInRange(St(), g, v, l); }
          return Done(l.reg);
        }
        CopyTo(v, l, Register(dest.reg));
        CopiedInRegister(old(St()), St(), g, v, dest.reg);
        CopiedIs(old(St()), St(), g, v, dest.reg);
        return Done(dest.reg);
      }
      r := Reload(v, dest);
    }

    /** The last part of getInReg, for a variable that is in one scratch slot only. */
    method Reload(v: nat, dest: Dest) returns (r: Result<nat>)
      requires Valid() && Readable(St(), v) && NoRegister(St(), v) && (dest.InReg? ==> dest.reg < 16)
      modifies this`where, this`vars, this`code
      ensures r == AllocChoice(old(where), scratchBytes, dest)
      ensures r.Done? ==> var s := AfterAlloc(old(St()), scratchBytes, dest);
        Valid() && InRegister(s, St(), g, v, r.value) && v in s.vars && SamePlaces(St(), With(s, v, r.value))
      ensures doneGuarding && (r.Done? ==> Grows(old(code), code))
    {
      hide Ok, Located, InRegister, Copied, AfterAlloc, MovedAside, SpillChoice, FirstRegister, AllocChoice;
      var slot :| slot in vars[v].locations;
      ghost var o :| vars[v].locations == {Scratch(o)};
      ScratchIsLate(St(), g, v, o);
      ghost var s := St();
      r := AllocReg(dest);
      if r.Aborted? { return; }
      ReloadStays(s, St(), g, v, o, dest, scratchBytes);
      ghost var t := St();
      CopyTo(v, slot, Register(r.value));
      CopiedInRegister(t, St(), g, v, r.value);
      CopiedIs(t, St(), g, v, r.value);
    }

    /** getArg. */
    method GetArg(i: nat) returns (v: nat)
      requires Valid() && !doneGuarding && i < |args|
      modifies this`vars, this`g
      ensures Valid() && v == args[i] && v in old(St()).vars && St() == IncUse(old(St()), v)
      ensures g == old(g).(held := old(g).held + multiset{v})
    {
      hide Ok, Located;
      v := args[i];
      assert v in vars by { ArgIsVar(St(), g, i); }
      IncUseOk(St(), g, v);
      IncUseLocated(St(), v);
      vars := vars[v := vars[v].(uses := vars[v].uses + 1)];
      g := g.(held := g.held + multiset{v});
    }

    /** setDoneGuarding: from here on the arguments' registers may be given up. */
    method SetDoneGuarding()
      requires Valid() && !doneGuarding
      modifies this`where, this`vars, this`args, this`doneGuarding
      ensures Valid() && doneGuarding && args == [] && liveOuts == old(liveOuts)
      ensures Released(old(St()), St())
      ensures forall v :: v in g.held || v in liveOuts ==> v in vars
    {
      hide Ok, Located, Released;
      DoneGuardingOk(St(), g);
      SameLocated(St(), St().(doneGuarding := true));
      NothingReleased(St(), g);
      doneGuarding := true;
      while args != []
        invariant Valid() && doneGuarding && liveOuts == old(liveOuts)
        invariant Released(old(St()), St())
        decreases |args|
      {
        ghost var s := St();
        DropArgOk(s, g);
        OkBooks(s, g);
        DecUseLocated(s, g, args[0]);
        SameLocated(DecUse(s, args[0]), DropArg(s));
        DecUseVar(args[0]);
        args := args[1..];
        assert St() == DropArg(s);
        OneReleased(old(St()), s, St(), s.args[0]);
      }
      OwnersLive(St(), g);
    }

    /** loadConst: a small constant is only recorded, a large one is loaded. */
    method LoadConst(val: int, dest: Dest) returns (r: Result<nat>)
      requires Valid() && (dest.InReg? ==> dest.reg < 16)
      requires FitsImmediate(val) ==> Constant(val) !in where
      requires !FitsImmediate(val) && dest.InReg? && Register(dest.reg) in where ==> doneGuarding
      modifies this`where, this`vars, this`code, this`next, this`g
      ensures r.Done? ==> Valid() && r.value !in old(g).val && Now(St(), g).mem == Now(old(St()), old(g)).mem
      ensures r.Done? ==> g == old(g).(val := old(g).val[r.value := val], held := old(g).held + multiset{r.value})
      ensures FitsImmediate(val) ==> r.Done? && St() == NewVar(old(St()), r.value, Constant(val))
      ensures !FitsImmediate(val) ==> (r.Aborted? <==> AllocChoice(old(where), scratchBytes, dest).Aborted?)
      ensures r.Done? && !FitsImmediate(val) ==>
        SamePlaces(St(), NewVar(AfterAlloc(old(St()), scratchBytes, dest), r.value,
                                Register(AllocChoice(old(where), scratchBytes, dest).value)))
      ensures r.Done? ==> Grows(old(code), code)
    {
      hide Ok, Located, Now, AfterAlloc, AllocChoice;
      if FitsImmediate(val) {
        ConstantHolds(St(), g, val);
        var v := CreateNewVar(Constant(val), val);
        SameNowMem(old(St()), St(), old(g), g);
        return Done(v);
      }
      var reg :- AllocReg(dest);
      AllocKeepsMem(old(St()), St(), g, dest);
      WriteFree(Move(Imm(val), Register(reg)), Register(reg));
      var v := CreateNewVar(Register(reg), val);
      return Done(v);
    }

    /** createNewVar for a free location that already holds the value x. */
    method CreateNewVar(l: Location, ghost x: int) returns (v: nat)
      requires Valid() && l !in where && Get(Now(St(), g), l) == x
      requires (l.Register? && l.reg < 16) || l.Constant?
      modifies this`where, this`vars, this`next, this`g
      ensures Valid() && v == old(next) && v !in old(g).val && St() == NewVar(old(St()), v, l)
      ensures g == old(g).(val := old(g).val[v := x], held := old(g).held + multiset{v})
      ensures Now(St(), g) == Now(old(St()), old(g))
    {
      hide Ok, Located, Now;
      v := next;
      ghost var s, h := St(), g;
      assert v !in s.vars && Books(s) by { OkBooks(s, h); }
      NewVarOk(s, h, v, l, x);
      NewVarLocated(s, h, v, l);
      where := where[l := v];
      vars := vars[v := Var({l}, 1)];
      next := next + 1;
      g := g.(val := g.val[v := x], held := g.held + multiset{v});
      SameNowAs(s, St(), h, g);
    }

    /** Emits an instruction whose only effect is on a free register. */
    method WriteFree(i: Instr, dst: Location)
      requires Valid() && dst.Register? && dst !in where
      requires (i.Move? && i.dst == dst) || (i.Load? && i.dst == dst)
      modifies this`code
      ensures Valid() && St() == Emit(old(St()), i)
      ensures Now(St(), g) == Machine.Step(g.callee, |old(code)|, Now(old(St()), g), i)
      ensures Now(St(), g).mem == Now(old(St()), g).mem
      ensures Grows(old(code), code)
    {
      hide Ok, Located, Now;
      FreeWriteOk(St(), g, i, dst);
      NowEmit(St(), g, i);
      SameLocated(St(), Emit(St(), i));
      EmitInstr(i);
    }

    // ---- RewriterVarUsage2 ----------------------------------------------------------------

    /** addAttrGuard: leave the slot unless the attribute has the given value. The value is always
        put in a register, because GuardFitsImmediate never holds. */
    method AddAttrGuard(v: nat, offset: int, val: int) returns (r: Result<()>)
      requires Valid() && !doneGuarding && v in g.held && Readable(St(), v)
      modifies this`where, this`vars, this`code
      ensures r.Done? ==> Valid() && code != [] && Now(St(), g).mem == Now(old(St()), g).mem
      ensures r.Done? ==>
        (Fails(Now(St(), g), code[|code| - 1]) <==> Now(St(), g).mem(g.val[v] + offset) != val)
      ensures r.Done? ==> code[|code| - 1].Guard? && Grows(old(code), code[..|code| - 1]) && where == old(where) && vars == old(vars)
      ensures r.Aborted? <==> RegisterFrom(old(where), 0).Aborted?
    {
      hide Ok, Located, Now, InRegister;
      NoRegisterIsLate(St(), g, v);
      var got := GetInReg(v, AnyReg);
      var thisReg := got.value;
      InRegisterHolds(old(St()), St(), g, v, thisReg);
      ghost var mem := Now(St(), g).mem;
      var reg :- AllocReg(AnyReg);
      assert reg != thisReg;
      WriteFree(Move(Imm(val), Register(reg)), Register(reg));
      GuardTests(Now(St(), g), Register(thisReg), offset, Register(reg));
      ghost var before := code;
      EmitGuard(Guard(Register(thisReg), offset, Loc(Register(reg))));
      assert code[..|code| - 1] == before;
      return Done(());
    }

    method EmitGuard(i: Instr)
      requires Valid() && !doneGuarding && i.Guard?
      modifies this`code
      ensures Valid() && St() == Emit(old(St()), i) && Now(St(), g) == Now(old(St()), g)
    {
      hide Ok, Located, Now;
      GuardOk(St(), g, i);
      SameLocated(St(), Emit(St(), i));
      EmitInstr(i);
    }

    /** getAttr. Killing the base before allocating frees its register, and when the requested
        register is taken its spill may take just that one: then the base has been overwritten
        with the spilled variable, and that is what the load goes through. It cannot happen unless
        the state is Threatened; it does happen when the base's register is the spill's choice. */
    method GetAttr(v: nat, offset: int, kill: bool, dest: Dest) returns (r: Result<(nat, nat)>)
      requires Valid() && v in g.held && Readable(St(), v)
      requires dest.InReg? ==> dest.reg < 16
      requires dest.InReg? ==> doneGuarding || Register(dest.reg) !in where
      modifies this`where, this`vars, this`code, this`next, this`g
      ensures v in old(vars) && v in old(g).val
      ensures r.Done? ==> Valid() && GotAttr(old(g), g, v, kill, r.value.0) && Now(St(), g).mem == Now(old(St()), old(g)).mem
      ensures r.Done? && !Threatened(old(St()), v, kill, dest) ==> g.val[r.value.0] == Now(St(), g).mem(old(g).val[v] + offset)
      ensures r.Done? && Threatened(old(St()), v, kill, dest) && SoleRegister(old(St()), v) ==>
        old(where)[Register(dest.reg)] in old(g).val &&
        g.val[r.value.0] == Now(St(), g).mem(old(g).val[old(where)[Register(dest.reg)]] + offset)
      ensures r.Done? ==> MayPick(old(St()), v, r.value.1)
      ensures r.Done? ==> exists base {:trigger ReadBase(old(St()), old(g), v, kill, dest, r.value.1, base)} ::
        && ReadBase(old(St()), old(g), v, kill, dest, r.value.1, base)
        && g.val[r.value.0] == Now(St(), g).mem(base + offset)
      ensures r.Done? ==> AttrPlaced(old(St()), St(), v, kill, r.value.1, scratchBytes, dest, r.value.0)
      ensures r.Aborted? ==> NoAttr(old(St()), v, kill, scratchBytes, dest)
      ensures r.Done? ==> Grows(old(code), code)
    {
      hide Ok, Located, Now, Readable, Threatened, SoleRegister, MayPick, ReadBase, AttrPlaced, NoAttr;
      ghost var s0, g0 := St(), g;
      ghost var base;
      r, base := LoadAttr(v, offset, kill, dest);
      assert v in g0.val by { OkBooks(s0, g0); }
      if r.Done? { ReadBaseIs(s0, g0, v, kill, dest, r.value.1, base); }
    }

    /** What getAttr does, in terms of the register v was read from. */
    method LoadAttr(v: nat, offset: int, kill: bool, dest: Dest) returns (r: Result<(nat, nat)>, ghost base: int)
      requires Valid() && v in g.held && Readable(St(), v)
      requires dest.InReg? ==> dest.reg < 16
      requires dest.InReg? ==> doneGuarding || Register(dest.reg) !in where
      modifies this`where, this`vars, this`code, this`next, this`g
      ensures v in old(vars)
      ensures r.Done? ==> Valid() && GotAttr(old(g), g, v, kill, r.value.0) && Now(St(), g).mem == Now(old(St()), old(g)).mem
      ensures r.Done? ==> MayPick(old(St()), v, r.value.1) && ReadBase(old(St()), old(g), v, kill, dest, r.value.1, base)
      ensures r.Done? ==> g.val[r.value.0] == Now(St(), g).mem(base + offset)
      ensures r.Done? ==> AttrPlaced(old(St()), St(), v, kill, r.value.1, scratchBytes, dest, r.value.0)
      ensures r.Aborted? ==> NoAttr(old(St()), v, kill, scratchBytes, dest)
      ensures r.Done? ==> Grows(old(code), code)
    {
      hide Ok, Located, Now, InRegister, MovedAside, SpillChoice, Readable, Overwrites, AfterAlloc,
        AllocChoice, Based, With, NewVar, DecUse, MayPick, NoRegister, ReadBase, FirstRegister, NoAttr,
        AttrPlaced;
      ghost var s0, g0 := St(), g;
      HeldIsVar(s0, g0, v);
      base := 0;
      ghost var mid;
      var thisReg;
      thisReg, mid := TakeBase(v, kill);
      if thisReg.Aborted? { NoBase(s0, v, kill, scratchBytes, dest); return Aborted, 0; }
      ghost var s2, g2 := St(), g;
      var newReg := AllocReg(dest);
      if newReg.Aborted? { NoResult(s0, s2, v, kill, thisReg.value, scratchBytes, dest); return Aborted, 0; }
      ghost var s3 := St();
      base := Get(Now(s3, g), Register(thisReg.value));
      BaseRead(s0, mid, s2, s3, g0, g, v, thisReg.value, kill, dest, scratchBytes);
      var newVar := LoadNew(thisReg.value, offset, newReg.value);
      AttrIs(s0, s2, s3, St(), v, kill, thisReg.value, scratchBytes, dest, newVar);
      GotIs(g0, g2, g, v, kill, newVar);
      return Done((newVar, thisReg.value)), base;
    }

    /** The base's register, read before a kill can make the variable disappear. */
    method TakeBase(v: nat, kill: bool) returns (r: Result<nat>, ghost mid: RS.Rewriter)
      requires Valid() && v in g.held && Readable(St(), v)
      modifies this`where, this`vars, this`code, this`g
      ensures r.Done? ==> Valid() && InRegister(old(St()), mid, old(g), v, r.value) && Ok(mid, old(g)) && v in mid.vars
      ensures r.Done? ==> St() == if kill then DecUse(mid, v) else mid
      ensures r.Done? ==> g == if kill then old(g).(held := old(g).held - multiset{v}) else old(g)
      ensures r.Done? ==> Now(St(), g).mem == Now(old(St()), old(g)).mem && doneGuarding == old(doneGuarding)
      ensures r.Done? && !doneGuarding ==> where.Keys <= old(where).Keys
      ensures v in old(vars) && (r.Aborted? ==> NoRegister(old(St()), v) && RegisterFrom(old(where), 0).Aborted?)
      ensures r.Done? ==> MayPick(old(St()), v, r.value) && SamePlaces(St(), Based(old(St()), v, kill, r.value))
      ensures r.Done? ==> Grows(old(code), code)
    {
      hide Ok, Located, Now, InRegister, Readable;
      ghost var s0, g0 := St(), g;
      HeldIsVar(s0, g0, v);
      mid := St();
      r := GetInReg(v, AnyReg);
      if r.Aborted? { return; }
      mid := St();
      InRegisterHolds(s0, mid, g, v, r.value);
      if kill { SetDoneUsing(v); }
      KillKeepsNow(mid, St(), g0, g, v);
    }

    /** A new variable, loaded through a register. */
    method LoadNew(base: nat, offset: int, reg: nat) returns (v: nat)
      requires Valid() && Register(reg) !in where && reg < 16
      modifies this`where, this`vars, this`code, this`next, this`g
      ensures Valid() && v !in old(g).val && Now(St(), g).mem == Now(old(St()), old(g)).mem
      ensures g == old(g).(val := old(g).val[v := Now(St(), g).mem(Get(Now(old(St()), old(g)), Register(base)) + offset)],
                           held := old(g).held + multiset{v})
      ensures SamePlaces(St(), NewVar(old(St()), v, Register(reg)))
      ensures Grows(old(code), code)
    {
      hide Ok, Located, Now;
      ghost var at := Get(Now(St(), g), Register(base));
      WriteFree(Load(Register(base), offset, Register(reg)), Register(reg));
      LoadedValue(Now(St(), g), Register(reg));
      v := CreateNewVar(Register(reg), Now(St(), g).mem(at + offset));
    }

    /** tryGetAsImmediate. */
    method TryGetAsImmediate(v: nat) returns (isImmediate: bool, value: int)
      requires Valid() && v in vars
      ensures isImmediate <==> HasConstant(St(), v)
      ensures isImmediate ==> Constant(value) in vars[v].locations && v in g.val && g.val[v] == value
    {
      hide Ok, Located, Now;
      OkBooks(St(), g);
      isImmediate, value := false, 0;
      if l :| l in vars[v].locations && l.Constant? {
        ConstantHolds(St(), g, l.value);
        assert l in where && where[l] == v;
        isImmediate, value := true, l.value;
      }
    }

    /** setAttr: writes the value to memory and gives up its use. */
    method SetAttr(v: nat, offset: int, val: nat) returns (r: Result<()>)
      requires Valid() && doneGuarding && multiset{v, val} <= g.held && Readable(St(), v)
      requires HasConstant(St(), val) || (Readable(St(), val) && val != v)
      modifies this`where, this`vars, this`code, this`g
      ensures r.Done? ==> Valid() && g == old(g).(held := old(g).held - multiset{val})
      ensures r.Done? ==> v in g.val && val in g.val
      ensures r.Done? ==> Wrote(Now(old(St()), old(g)), Now(St(), g), g.val[v] + offset, g.val[val])
      ensures r.Done? ==> Stored(old(St()), St(), v, val)
      ensures r.Done? ==> Grows(old(code), code)
    {
      hide Ok, Located, Now, InRegister, Stored, DecUse, With, NoRegister, HasConstant, MayPick, Readable, InstantStore;
      ghost var s0 := St();
      HeldIsVar(s0, g, v);
      HeldIsVar(s0, g, val);
      var thisReg :- GetInReg(v, AnyReg);
      ghost var s1 := St();
      InRegisterHolds(s0, s1, g, v, thisReg);
      OthersStay(s0, s1, g, v, thisReg, val);
      PickIs(s0, v, thisReg, scratchBytes);
      var _ :- StoreValue(v, val, thisReg, offset);
      ghost var s3 := St();
      SetDoneUsing(val);
      KillKeepsNow(s3, St(), old(g), g, val);
      StoredIs(s0, s1, s3, St(), v, val, thisReg);
      return Done(());
    }

    /** The value's half: an immediate is stored as it is, anything else through a register. */
    method StoreValue(v: nat, val: nat, base: nat, offset: int) returns (r: Result<()>)
      requires Valid() && doneGuarding && val in vars && v in g.val && val in g.val
      requires Register(base) in where && where[Register(base)] == v && Get(Now(St(), g), Register(base)) == g.val[v]
      requires HasConstant(St(), val) || (Readable(St(), val) && val != v)
      modifies this`where, this`vars, this`code
      ensures r.Done? ==> Valid() && val in vars && doneGuarding && InstantStore(old(St()), St(), val)
      ensures r.Done? ==> Wrote(Now(old(St()), g), Now(St(), g), g.val[v] + offset, g.val[val])
      ensures r.Done? ==> Grows(old(code), code)
    {
      hide Ok, Located, Now, InRegister, With, NoRegister, HasConstant, Readable;
      ghost var s1 := St();
      var isImmediate, value := TryGetAsImmediate(val);
      if isImmediate {
        StoreTo(Imm(value), base, offset);
        return Done(());
      }
      var reg :- GetInReg(val, AnyReg);
      InRegisterHolds(s1, St(), g, val, reg);
      BaseStays(s1, St(), g, v, val, base, reg);
      PickIs(s1, val, reg, scratchBytes);
      StoreTo(Loc(Register(reg)), base, offset);
      return Done(());
    }

    method StoreTo(src: Operand, base: nat, offset: int)
      requires Valid() && doneGuarding
      modifies this`code
      ensures Valid() && St() == Emit(old(St()), Store(src, Register(base), offset))
      ensures Wrote(Now(old(St()), g), Now(St(), g), Get(Now(old(St()), g), Register(base)) + offset, Read(Now(old(St()), g), src))
      ensures Grows(old(code), code)
    {
      hide Ok, Located, Now;
      var i := Store(src, Register(base), offset);
      StoreOk(St(), g, i);
      NowEmit(St(), g, i);
      SameLocated(St(), Emit(St(), i));
      EmitInstr(i);
    }

    // ---- calls ----------------------------------------------------------------------------

    /** Frees a caller-save register for the call to use. */
    method Vacate(reg: nat) returns (r: Result<()>)
      requires Valid() && doneGuarding && reg < 16 && Clobbered(Register(reg))
      modifies this`where, this`vars, this`code
      ensures r.Done? ==> Valid() && Register(reg) !in where && Shifted(old(St()), St(), g, Register(reg))
      ensures r.Done? ==> Grows(old(code), code)
    {
      hide Ok, Located, Now, MovedAside, Shifted, SpillChoice;
      ghost var s := St();
      SameShifts(s, g, Register(reg));
      var got :- AllocReg(InReg(reg));
      if Register(reg) in s.where {
        ghost var to :| MovedAside(s, St(), g, Register(reg), to);
        OkJustBooks(s, g);
        MovedShifts(s, St(), g, Register(reg), to);
      }
      return Done(());
    }

    /** Writes an immediate argument into its register. */
    method PlaceConstant(v: nat, l: Location)
      requires Valid() && HasConstant(St(), v) && l.Register? && l.reg < 16 && l !in where
      modifies this`where, this`vars, this`code
      ensures Valid() && Placed(old(St()), St(), g, v, l)
      ensures Grows(old(code), code)
    {
      hide Ok, Located, Now, Placed;
      var isImmediate, value := TryGetAsImmediate(v);
      ghost var s := St();
      var i := Move(Imm(value), l);
      NowEmit(s, g, i);
      FreeWriteOk(s, g, i, l);
      SetHolds(Now(s, g), l, value);
      AddLocationOk(Emit(s, i), g, v, l);
      ConstantLocated(s, g, v, l, i);
      assert l !in vars[v].locations by { OkBooks(s, g); }
      EmitInstr(i);
      AddLocationToVar(v, l);
      SameNow(Emit(s, i), St(), g);
      ConstantPlaced(s, St(), g, v, l, i);
    }

    /** Puts one argument where the callee expects it, and gives up its use. */
    method PlaceArg(i: nat, v: nat) returns (r: Result<()>, ghost mid: RS.Rewriter)
      requires Valid() && doneGuarding && i < |ARG_REGS| && v in g.held && AtOrConstant(St(), v, ForArg(i))
      modifies this`where, this`vars, this`code, this`g
      ensures r.Done? ==> Valid() && Placed(old(St()), mid, old(g), v, ForArg(i)) && Ok(mid, old(g)) && v in mid.vars
      ensures r.Done? ==> St() == DecUse(mid, v) && g == old(g).(held := old(g).held - multiset{v})
      ensures r.Done? ==> v in g.val && Get(Now(St(), g), ForArg(i)) == g.val[v] && Now(St(), g) == Now(mid, old(g))
      ensures r.Done? ==> Grows(old(code), code)
    {
      hide Ok, Located, Now, Placed, Shifted, IsCalleeSave;
      mid := St();
      r := Done(());
      var l := ForArg(i);
      ghost var s := St();
      ArgRegsClobbered(i);
      if l in vars[v].locations { SamePlaced(s, g, v, l); }
      if l !in vars[v].locations {
        r := Vacate(ARG_REGS[i]);
        if r.Aborted? { return; }
        ghost var s1 := St();
        ShiftedConstant(s, s1, g, v, l);
        PlaceConstant(v, l);
        ShiftedPlaced(s, s1, St(), g, v, l);
        mid := St();
      }
      PlacedHolds(s, mid, g, v, l);
      SetDoneUsing(v);
      KillKeepsNow(mid, St(), old(g), g, v);
    }

    /** Takes a caller-save register's variable out of the call's way: it is forgotten there when
        the variable is also somewhere safe, and moved otherwise. */
    method ClearRegister(check: Location) returns (r: Result<()>)
      requires Valid() && doneGuarding && check in where && Clobbered(check) && NoConstants(St())
      modifies this`where, this`vars, this`code
      ensures r.Done? ==> Valid() && check !in where && Shifted(old(St()), St(), g, check)
      ensures r.Done? ==> Grows(old(code), code)
    {
      hide Ok, Located, Now, MovedAside, Shifted, SpillChoice;
      ghost var s := St();
      var v := where[check];
      OkBooks(s, g);
      if keep :| keep in vars[v].locations && !Clobbered(keep) {
        RemoveLocationOk(s, g, v, check);
        RemovedLocated(s, g, v, check);
        RemoveLocationFromVar(v, check);
        RemovedShifts(s, St(), g, v, check);
        return Done(());
      }
      if check.Register? {
        var to :- SpillRegister(check.reg);
        MovedShifts(s, St(), g, check, to);
        MovedAsideFrees(s, St(), g, check, to);
      } else {
        var to :- SpillXmm(check.reg);
        MovedShifts(s, St(), g, check, to);
        MovedAsideFrees(s, St(), g, check, to);
      }
      return Done(());
    }

    method SpillCallerSaves() returns (r: Result<()>)
      requires Valid() && doneGuarding && NoConstants(St())
      modifies this`where, this`vars, this`code
      ensures r.Done? ==> Valid() && doneGuarding && (forall l :: l in where ==> !Clobbered(l)) && Undisturbed(old(St()), St(), g)
      ensures r.Done? ==> Grows(old(code), code)
    {
      hide Ok, Located, Now, Shifted, Undisturbed, NoConstants;
      assert Undisturbed(St(), St(), g) by { SameUndisturbed(St(), g); }
      for k := 0 to |CALLER_SAVE|
        invariant Valid() && doneGuarding && NoConstants(St()) && Undisturbed(old(St()), St(), g) && Cleared(St(), k)
        invariant Grows(old(code), code)
      {
        ghost var s := St();
        if CALLER_SAVE[k] in where {
          var _ :- ClearRegister(CALLER_SAVE[k]);
          ShiftedUndisturbed(old(St()), s, St(), g, CALLER_SAVE[k]);
          ShiftedCleared(s, St(), g, CALLER_SAVE[k], k);
        }
      }
      AllCleared(St());
      return Done(());
    }

    /** Puts all arguments in place; R11 is kept free for the function's address. */
    method PlaceArgs(vs: seq<nat>) returns (r: Result<()>)
      requires Valid() && doneGuarding && |vs| <= |ARG_REGS| && Ready(St(), g, vs, 0) && Register(R11) !in where
      modifies this`where, this`vars, this`code, this`g
      ensures r.Done? ==> Valid() && doneGuarding && NoConstants(St())
      ensures r.Done? ==> g == old(g).(held := old(g).held - multiset(vs))
      ensures r.Done? ==> ArgsHold(St(), g, vs, |vs|) && Now(St(), g).mem == Now(old(St()), old(g)).mem
      ensures r.Done? ==> Settles(old(St()), St())
      ensures r.Done? ==> Grows(old(code), code)
    {
      hide Ok, Located, Now, Placed, Ready, NoConstants, ArgsHold, DecUse, ForArg, AtOrConstant, Settles, Grows;
      ghost var s0, g0 := St(), g;
      GrowsAgain(s0.code, s0.code, s0.code);
      SameSettles(s0, s0);
      NoArgsYet(s0, g0, vs);
      for i := 0 to |vs|
        invariant Valid() && doneGuarding && Ready(St(), g, vs, i) && Register(R11) !in where
        invariant g == g0.(held := g0.held - multiset(vs[..i])) && Grows(old(code), code)
        invariant ArgsHold(St(), g, vs, i) && Now(St(), g).mem == Now(s0, g0).mem && Settles(s0, St())
      {
        ghost var s, h := St(), g;
        ReadyNext(s, h, vs, i);
        var ok, mid := PlaceArg(i, vs[i]);
        if ok.Aborted? { return Aborted; }
        ReadyPlaced(s, mid, St(), h, g, vs, i);
        PlacedSettles(s0, s, mid, St(), h, vs[i], ForArg(i));
        HeldOneLess(g0.held, vs, i);
        GrowsAgain(s0.code, s.code, code);
      }
      assert vs[..|vs|] == vs;
      NoneLeft(St(), g, vs);
      return Done(());
    }

    /** call: arguments are in place or immediate, and no constant outlives the call. At the call
        instruction every argument register holds its argument's value; afterwards every variable
        still in use is recorded where the call did not write. */
    method Call(func: int, vs: seq<nat>) returns (r: Result<nat>)
      requires Valid() && doneGuarding && |vs| <= |ARG_REGS| && Ready(St(), g, vs, 0)
      modifies this`where, this`vars, this`code, this`next, this`g
      ensures r.Done? ==> Valid() && r.value !in old(g).val
      ensures r.Done? ==> g == old(g).(held := old(g).held - multiset(vs) + multiset{r.value},
                                       val := old(g).val[r.value := Get(Now(St(), g), Register(RAX))])
      ensures r.Done? ==> (forall l :: l in where && Clobbered(l) ==> l == Register(RAX))
      ensures r.Done? ==> AfterTheCall(old(St()), St(), r.value)
      ensures r.Done? ==> code != [] && code[|code| - 1] == CallReg(Register(R11))
      ensures r.Done? ==> AtCall(Through(g.callee, g.entry, code[..|code| - 1]), func, vs, old(g).val)
      ensures r.Done? ==> Through(g.callee, g.entry, code[..|code| - 1]).mem == Now(old(St()), old(g)).mem
      ensures r.Done? ==> Grows(old(code), code)
    {
      hide Ok, Located, Now, Shifted, Undisturbed, Ready, NoConstants, ArgsHold, Through, AtCall, Clobbered,
        ForArg, Settles, AfterTheCall;
      ghost var s0, g0 := St(), g;
      R11Clobbered();
      var _ :- Vacate(R11);
      R11NoArg();
      ReadyShifted(s0, St(), g, vs, Register(R11));
      ghost var sv := St();
      var _ :- PlaceArgs(vs);
      ghost var s1 := St();
      var _ :- SpillCallerSaves();
      ghost var s2, g1 := St(), g;
      var v := EmitCall(func);
      ArgsAtCall(s1, s2, g0, g1, vs, func);
      CallSettles(s0, sv, s1, s2, St(), g0, g1, v);
      return Done(v);
    }

    /** The call itself, once nothing is recorded where it may write. */
    method EmitCall(func: int) returns (v: nat)
      requires Valid() && doneGuarding && forall l :: l in where ==> !Clobbered(l)
      modifies this`where, this`vars, this`code, this`next, this`g
      ensures Valid() && v !in old(g).val && code != [] && code[|code| - 1] == CallReg(Register(R11))
      ensures Through(g.callee, g.entry, code[..|code| - 1]) == Set(Now(old(St()), old(g)), Register(R11), func)
      ensures g == old(g).(held := old(g).held + multiset{v}, val := old(g).val[v := Get(Now(St(), g), Register(RAX))])
      ensures where == old(where)[Register(RAX) := v] && vars == old(vars)[v := Var({Register(RAX)}, 1)] && v !in old(vars)
      ensures Grows(old(code), code)
    {
      hide Ok, Located, Now, Through;
      assert Register(R11) !in where && Register(RAX) !in where;
      OkBooks(St(), g);
      WriteFree(Move(Imm(func), Register(R11)), Register(R11));
      ghost var s := St();
      var call := CallReg(Register(R11));
      CallOk(s, g, call);
      SameLocated(s, Emit(s, call));
      EmitInstr(call);
      assert code[..|code| - 1] == s.code;
      NowIs(s, g);
      v := CreateNewVar(Register(RAX), Get(Now(St(), g), Register(RAX)));
    }

    // ---- commit ---------------------------------------------------------------------------

    /** getInXMMReg: the floating-point counterpart of getInReg. */
    method GetInXmm(v: nat, dest: Dest) returns (r: nat)
      requires Valid() && doneGuarding && XmmReadable(St(), v)
      requires match dest
        case AnyReg => exists l :: l in vars[v].locations && l.Xmm?
        case InReg(reg) => Xmm(reg) in vars[v].locations || Xmm(reg) !in where
      modifies this`where, this`vars, this`code
      ensures Ok(St(), g) && (dest.InReg? ==> r == dest.reg) && v in vars && Xmm(r) in vars[v].locations
      ensures St() == old(St()) || Copied(old(St()), St(), g, v, Xmm(r))
      ensures Grows(old(code), code)
    {
      hide Ok, Located, Copied;
      if dest.InReg? && Xmm(dest.reg) in vars[v].locations { return dest.reg; }
      if l :| l in vars[v].locations && l.Xmm? {
        if dest.AnyReg? { return l.reg; }
        CopyToXmm(v, l, Xmm(dest.reg));
        return dest.reg;
      }
      var slot :| slot in vars[v].locations;
      CopyToXmm(v, slot, Xmm(dest.reg));
      return dest.reg;
    }

    method CopyToXmm(v: nat, from: Location, to: Location)
      requires Ok(St(), g) && doneGuarding && v in vars && from in vars[v].locations && to !in where && to.Xmm?
      modifies this`where, this`vars, this`code
      ensures Ok(St(), g) && Copied(old(St()), St(), g, v, to) && v in vars && to in vars[v].locations
      ensures Grows(old(code), code)
    {
      hide Ok, Located, Preserved;
      ghost var s := St();
      CopyOk(s, g, v, from, to);
      AddedPreserves(s, v, from, to);
      assert to !in vars[v].locations by { OkBooks(s, g); }
      EmitInstr(Move(Loc(from), to));
      AddLocationToVar(v, to);
    }

    /** One round of commit: puts the next live-out where the patchpoint expects it and gives it up. */
    method RestoreLiveOut() returns (r: Result<()>)
      requires Valid() && doneGuarding && liveOuts != [] && liveOutRegs != []
      requires Restorable(St(), liveOuts[0], liveOutRegs[0]) && vars[liveOuts[0]].uses == 1
      modifies this`where, this`vars, this`code, this`liveOuts, this`liveOutRegs
      ensures r.Done? ==> Valid() && Restored(old(St()), St(), g)
      ensures r.Done? ==> Grows(old(code), code)
    {
      hide Ok, Located, Now, InRegister, Copied, Restored;
      ghost var s := St();
      var v, expected := liveOuts[0], liveOutRegs[0];
      if expected !in vars[v].locations {
        if expected.Register? {
          var reg :- GetInReg(v, InReg(expected.reg));
          InRegisterCopied(s, St(), g, v, reg);
        } else {
          var reg := GetInXmm(v, InReg(expected.reg));
          CopiedRestores(s, St(), g, v, expected);
        }
      } else {
        StaysRestored(s, g, v, expected);
      }
      ghost var mid := St();
      RestoreDrops(s, mid, g);
      DecUseVar(v);
      liveOuts, liveOutRegs := liveOuts[1..], liveOutRegs[1..];
      return Done(());
    }

    /** commit: guarding is done, no client holds a use, and when its turn comes every live-out is
        where its register expects it or can be brought there. Afterwards every live-out register holds what it held
        on entry, and nothing else but scratch was disturbed. */
    method Commit() returns (r: Result<()>)
      requires Valid() && doneGuarding && args == [] && g.held == multiset{} && AllRestorable(St())
      modifies this`where, this`vars, this`code, this`liveOuts, this`liveOutRegs
      ensures r.Done? ==> Valid() && where == map[] && vars == map[] && liveOuts == []
      ensures r.Done? ==> forall l :: l in old(liveOutRegs) ==> Now(St(), g).loc(l) == g.entry.loc(l)
      ensures r.Done? ==> forall l :: l !in old(liveOutRegs) ==> Get(Now(St(), g), l) == Get(Now(old(St()), g), l)
      ensures r.Done? ==> Now(St(), g).mem == Now(old(St()), g).mem
      ensures r.Done? ==> Grows(old(code), code)
    {
      hide Ok, Located, Now, Restored, Restorable, AllRestorable;
      ghost var s0, n := St(), |liveOuts|;
      LiveOutsPaired(s0, g);
      for i := 0 to |liveOuts|
        invariant Valid() && doneGuarding && AllRestorable(St()) && |liveOuts| == |liveOutRegs| == n - i
        invariant liveOutRegs == s0.liveOutRegs[i..] && Grows(old(code), code)
        invariant Now(St(), g).mem == Now(s0, g).mem
        invariant forall l :: l in s0.liveOutRegs[..i] ==> Now(St(), g).loc(l) == g.entry.loc(l)
        invariant forall l :: l !in s0.liveOutRegs[..i] ==> Get(Now(St(), g), l) == Get(Now(s0, g), l)
      {
        ghost var s := St();
        FirstRestorable(s, g);
        var _ :- RestoreLiveOut();
        RestoredOneMore(s0, s, St(), g, i);
      }
      assert s0.liveOutRegs[..n] == s0.liveOutRegs;
      NoOwners(St(), g);
      return Done(());
    }

    /** commitReturning: the returned variable is in the return register; it is released before
        the live-outs are restored, and its value still leaves in that register. */
    method CommitReturning(v: nat) returns (r: Result<()>)
      requires Valid() && doneGuarding && args == [] && g.held == multiset{v} && v in vars
      requires Register(returnReg) in vars[v].locations && AllRestorable(DecUse(St(), v))
      modifies this`where, this`vars, this`code, this`liveOuts, this`liveOutRegs, this`g
      ensures r.Done? ==> v in old(g).val && where == map[] && vars == map[]
      ensures r.Done? ==> Committed(Machine.Run(g.callee, g.entry, code), old(g), old(liveOutRegs), Register(returnReg), old(g).val[v])
      ensures r.Done? ==> g == old(g).(held := multiset{})
      ensures r.Done? ==> Now(St(), g).mem == Now(old(St()), old(g)).mem
      ensures r.Done? ==> Grows(old(code), code)
    {
      hide Ok, Located, Now, AllRestorable, Committed;
      ghost var s, g0, regs := St(), g, liveOutRegs;
      ReturnHeld(s, g, v, returnReg);
      SetDoneUsing(v);
      ReleasedStays(s, St(), g0, g, v);
      var _ :- Commit();
      assert Register(returnReg) !in regs;
      Leaves(St(), g, regs, Register(returnReg), g0.val[v]);
      CommittedSame(g0, g, code, regs, Register(returnReg), g0.val[v]);
      return Done(());
    }
  }

  /** Where spilling may put a value: a callee-save register or scratch, but never a
      floating-point value into a general register. */
  predicate SpillTarget(from: Location, to: Location) {
    && ((to.Register? && to.reg < 16 && IsCalleeSave(to.reg) && from.Register?) || to.Scratch?)
    && (from.Register? || from.Xmm?)
  }

  /** t is s after the variable in `from` was copied to `to` and taken out of `from`; nothing else
      in the machine changed. */
  ghost predicate MovedAside(s: RS.Rewriter, t: RS.Rewriter, g: Run, from: Location, to: Location) {
    && from in s.where && s.where[from] in s.vars && to !in s.where && SpillTarget(from, to)
    && t == Spilled(s, s.where[from], from, to)
    && Preserved(s, t, {from}) && Now(t, g).mem == Now(s, g).mem
    && (forall l {:trigger Get(Now(t, g), l)} :: l != to ==> Get(Now(t, g), l) == Get(Now(s, g), l))
  }

  lemma MovedAsideFrees(s: RS.Rewriter, t: RS.Rewriter, g: Run, from: Location, to: Location)
    requires MovedAside(s, t, g, from, to)
    ensures from !in t.where && t.where.Keys == s.where.Keys - {from} + {to}
  {}

  lemma MovedAsideIs(s: RS.Rewriter, t: RS.Rewriter, g: Run, from: Location, to: Location, bytes: nat)
    requires MovedAside(s, t, g, from, to) && from.Register? && SpillTo(s.where, bytes) == Done(to)
    ensures t == AfterAlloc(s, bytes, InReg(from.reg))
  {
    hide Now, SpillTo;
  }

  /** Allocating a register leaves a scratch variable where it is. */
  lemma ReloadStays(s: RS.Rewriter, t: RS.Rewriter, g: Run, v: nat, o: nat, dest: Dest, bytes: nat)
    requires Ok(s, g) && v in s.vars && s.vars[v].locations == {Scratch(o)} && t == AfterAlloc(s, bytes, dest)
    ensures v in t.vars && t.vars[v].locations == {Scratch(o)}
  {
    OkBooks(s, g);
    hide Ok, Now, SpillTo;
  }

  lemma CopiedIs(s: RS.Rewriter, t: RS.Rewriter, g: Run, v: nat, reg: nat)
    requires Copied(s, t, g, v, Register(reg)) && Register(reg) !in s.vars[v].locations
    ensures SamePlaces(t, With(s, v, reg))
  {
    hide Now;
  }

  /** Giving up uses only erases variables; those that are left are where they were. */
  ghost predicate Released(s: RS.Rewriter, t: RS.Rewriter) {
    && (forall v {:trigger t.vars[v]} :: v in t.vars ==> v in s.vars && t.vars[v].locations == s.vars[v].locations)
    && (forall l {:trigger l in t.where} {:trigger t.where[l]} :: l in t.where ==> l in s.where && t.where[l] == s.where[l])
    && (forall l {:trigger l in s.where} :: l in s.where && s.where[l] in t.vars ==> l in t.where)
  }

  lemma NothingReleased(s: RS.Rewriter, g: Run)
    ensures forall t {:trigger Released(s, t)} :: SamePlaces(s, t) ==> Released(s, t)
  {}

  lemma OneReleased(s0: RS.Rewriter, s: RS.Rewriter, t: RS.Rewriter, v: nat)
    requires Released(s0, s) && v in s.vars && Books(s) && t.where == DecUse(s, v).where && t.vars == DecUse(s, v).vars
    ensures Released(s0, t)
  {}

  /** What someone still uses is a variable. */
  lemma OwnersLive(s: RS.Rewriter, g: Run)
    requires Ok(s, g)
    ensures forall v :: v in g.held || v in s.liveOuts || v in s.args ==> v in s.vars
  {
    forall v | v in g.held || v in s.liveOuts || v in s.args ensures v in s.vars { assert Owners(s, g, v) > 0; }
  }

  lemma OkBooks(s: RS.Rewriter, g: Run)
    requires Ok(s, g)
    ensures Books(s)
    ensures forall v :: v in g.held ==> v in s.vars
    ensures forall v :: v in s.vars ==> v in g.val
    ensures forall l {:trigger s.where[l]} :: l in s.where ==>
      s.where[l] in s.vars && s.where[l] in g.val && Get(Now(s, g), l) == g.val[s.where[l]]
  {
    hide Now, Through;
    forall v | v in g.held ensures v in s.vars { assert Owners(s, g, v) > 0; }
  }

  lemma SpilledLocated(s: RS.Rewriter, g: Run, from: Location, to: Location)
    requires Ok(s, g) && Located(s) && from in s.where && to !in s.where && SpillTarget(from, to)
    requires s.where[from] in s.vars && s.doneGuarding
    ensures Located(Spilled(s, s.where[from], from, to))
  {
    OkBooks(s, g);
    hide Ok;
  }

  lemma SpilledPreserves(s: RS.Rewriter, g: Run, from: Location, to: Location)
    requires from in s.where && s.where[from] in s.vars && to != from
    ensures Preserved(s, Spilled(s, s.where[from], from, to), {from})
  {}

  lemma DecUseLocated(s: RS.Rewriter, g: Run, v: nat)
    requires Located(s) && v in s.vars && Books(s)
    ensures Located(DecUse(s, v))
    ensures forall l :: l in DecUse(s, v).where ==> l in s.where && DecUse(s, v).where[l] == s.where[l]
  {}

  lemma SameLocated(s: RS.Rewriter, t: RS.Rewriter)
    requires Located(s) && t.where == s.where && t.vars == s.vars && (s.doneGuarding ==> t.doneGuarding)
    ensures Located(t)
  {}

  /** t is s after v was copied to the free location `to`; nothing else changed. */
  ghost predicate Copied(s: RS.Rewriter, t: RS.Rewriter, g: Run, v: nat, to: Location) {
    && v in s.vars && to !in s.where
    && t.where == s.where[to := v] && t.vars == s.vars[v := s.vars[v].(locations := s.vars[v].locations + {to})]
    && Preserved(s, t, {}) && Now(t, g).mem == Now(s, g).mem
    && (forall l {:trigger Get(Now(t, g), l)} :: l != to ==> Get(Now(t, g), l) == Get(Now(s, g), l))
  }

  lemma CopyLocated(s: RS.Rewriter, v: nat, from: Location, to: Location)
    requires Located(s) && v in s.vars && to.Register? && to.reg < 16 && to !in s.where
    requires forall l :: l in s.vars[v].locations ==> !l.Xmm?
    ensures Located(AddLocation(Emit(s, Move(Loc(from), to)), v, to))
    ensures Preserved(s, AddLocation(Emit(s, Move(Loc(from), to)), v, to), {})
  {}

  /** v is in register `reg` in t, where s may only have been extended with that. */
  ghost predicate InRegister(s: RS.Rewriter, t: RS.Rewriter, g: Run, v: nat, reg: nat) {
    && v in t.vars && Register(reg) in t.vars[v].locations && reg < 16
    && Preserved(s, t, {}) && Now(t, g).mem == Now(s, g).mem
    && t.where.Keys <= s.where.Keys + {Register(reg)}
    && (forall l {:trigger t.where[l]} {:trigger l in s.where} :: l in s.where ==> l in t.where && t.where[l] == s.where[l])
    && (forall l {:trigger Get(Now(t, g), l)} :: l != Register(reg) || l in s.where ==> Get(Now(t, g), l) == Get(Now(s, g), l))
    && (forall x {:trigger t.vars[x]} :: x in s.vars ==>
          t.vars[x].locations == s.vars[x].locations + if x == v then {Register(reg)} else {})
  }

  lemma StaysInRegister(s: RS.Rewriter, g: Run, v: nat, reg: nat)
    requires Ok(s, g) && Located(s) && v in s.vars && Register(reg) in s.vars[v].locations
    ensures InRegister(s, s, g, v, reg)
  {
    OkBooks(s, g);
    hide Ok, Now;
  }

  lemma CopiedInRegister(s: RS.Rewriter, t: RS.Rewriter, g: Run, v: nat, reg: nat)
    requires Copied(s, t, g, v, Register(reg)) && reg < 16
    ensures InRegister(s, t, g, v, reg)
  {
    hide Now;
  }

  lemma ReadableNotXmm(s: RS.Rewriter, v: nat)
    requires Located(s) && Readable(s, v)
    requires forall l :: l in s.vars[v].locations ==> l in s.where && s.where[l] == v
    ensures forall l :: l in s.vars[v].locations ==> !l.Xmm?
  {}

  lemma RegisterInRange(s: RS.Rewriter, g: Run, v: nat, l: Location)
    requires Ok(s, g) && Located(s) && v in s.vars && l in s.vars[v].locations && l.Register?
    ensures l.reg < 16
  {
    OkBooks(s, g);
    hide Ok;
  }

  lemma ArgIsVar(s: RS.Rewriter, g: Run, i: nat)
    requires Ok(s, g) && i < |s.args|
    ensures s.args[i] in s.vars
  {
    hide Books, Holds, StillEntered, Transparent, LiveValues;
    assert s.args[i] in multiset(s.args);
    assert Owners(s, g, s.args[i]) > 0;
  }

  lemma IncUseLocated(s: RS.Rewriter, v: nat)
    requires Located(s) && v in s.vars
    ensures Located(IncUse(s, v))
  {}

  lemma ConstantHolds(s: RS.Rewriter, g: Run, val: int)
    ensures Get(Now(s, g), Constant(val)) == val
  {}

  lemma SameNowMem(s: RS.Rewriter, t: RS.Rewriter, g: Run, h: Run)
    requires Now(t, h) == Now(s, g)
    ensures Now(t, h).mem == Now(s, g).mem
  {}

  lemma SameNowAs(s: RS.Rewriter, t: RS.Rewriter, g: Run, h: Run)
    requires t.code == s.code && h.callee == g.callee && h.entry == g.entry
    ensures Now(t, h) == Now(s, g)
  {}

  lemma NewVarLocated(s: RS.Rewriter, g: Run, v: nat, l: Location)
    requires Located(s) && Books(s) && v !in s.vars && ((l.Register? && l.reg < 16) || l.Constant?)
    ensures Located(NewVar(s, v, l))
  {}

  /** Allocating a register never writes memory. */
  lemma AllocKeepsMem(s: RS.Rewriter, t: RS.Rewriter, g: Run, dest: Dest)
    requires (dest.AnyReg? || Register(dest.reg) !in s.where) ==> t == s
    requires dest.InReg? && Register(dest.reg) in s.where ==> exists to :: MovedAside(s, t, g, Register(dest.reg), to)
    ensures Now(t, g).mem == Now(s, g).mem
  {
    hide Now;
  }

  lemma InRegisterHolds(s: RS.Rewriter, t: RS.Rewriter, g: Run, v: nat, reg: nat)
    requires Ok(t, g) && InRegister(s, t, g, v, reg)
    ensures v in t.vars && Register(reg) in t.vars[v].locations && Register(reg) in t.where && t.where[Register(reg)] == v
    ensures v in g.val && Get(Now(t, g), Register(reg)) == g.val[v] && Now(t, g).mem == Now(s, g).mem
    ensures t.doneGuarding == s.doneGuarding && reg < 16
  {
    OkBooks(t, g);
    hide Ok, Now;
  }

  lemma HeldIsVar(s: RS.Rewriter, g: Run, v: nat)
    requires Ok(s, g) && v in g.held
    ensures v in s.vars && v in g.val
  {
    hide Now, Through;
    assert Owners(s, g, v) > 0;
  }

  lemma LoadedValue(m: State, l: Location)
    ensures !l.Constant? ==> Get(m, l) == m.loc(l)
  {}

  /** Whether killing the base v and then spilling `dest` moves the spilled variable into the
      register `thisReg` that still has to be read. */
  predicate Overwrites(s: RS.Rewriter, v: nat, dest: Dest, thisReg: nat)
    requires v in s.vars
  {
    && dest.InReg? && s.vars[v].uses == 1
    && Register(dest.reg) in s.where && s.where[Register(dest.reg)] != v
    && SpillChoice(s.where - s.vars[v].locations) == Done(thisReg)
  }

  /** The base getAttr loads through when it read v from the given register. */
  ghost predicate ReadBase(s: RS.Rewriter, g: Run, v: nat, kill: bool, dest: Dest, reg: nat, base: int)
    requires v in s.vars
  {
    if kill && Overwrites(s, v, dest, reg) then s.where[Register(dest.reg)] in g.val && base == g.val[s.where[Register(dest.reg)]]
    else v in g.val && base == g.val[v]
  }

  /** v can be read from one register only. */
  predicate SoleRegister(s: RS.Rewriter, v: nat)
    requires v in s.vars
  {
    forall l, m :: l in s.vars[v].locations && m in s.vars[v].locations && l.Register? && m.Register? ==> l == m
  }

  /** Before the call it is known whether any register that v may be read from is overwritten. */
  lemma ThreatIsPick(s: RS.Rewriter, v: nat, kill: bool, dest: Dest)
    requires v in s.vars
    ensures Threatened(s, v, kill, dest) <==> exists p :: MayPick(s, v, p) && kill && Overwrites(s, v, dest, p)
    ensures Threatened(s, v, kill, dest) && SoleRegister(s, v) ==> forall p :: MayPick(s, v, p) ==> Overwrites(s, v, dest, p)
  {
    hide SpillChoice;
    if Threatened(s, v, kill, dest) {
      var c := SpillChoice(s.where - s.vars[v].locations).value;
      assert MayPick(s, v, c) && Overwrites(s, v, dest, c);
    }
  }

  lemma ReadBaseIs(s: RS.Rewriter, g: Run, v: nat, kill: bool, dest: Dest, reg: nat, base: int)
    requires Ok(s, g) && v in s.vars && MayPick(s, v, reg) && ReadBase(s, g, v, kill, dest, reg, base)
    ensures v in g.val && (!Threatened(s, v, kill, dest) ==> base == g.val[v])
    ensures Threatened(s, v, kill, dest) && SoleRegister(s, v) ==>
      Register(dest.reg) in s.where && s.where[Register(dest.reg)] in g.val && base == g.val[s.where[Register(dest.reg)]]
  {
    OkBooks(s, g);
    hide Ok, SoleRegister, MayPick, SpillChoice;
    ThreatIsPick(s, v, kill, dest);
  }

  /** What the two allocations of getAttr have done, before the load. */
  lemma BaseRead(s0: RS.Rewriter, mid: RS.Rewriter, s2: RS.Rewriter, t: RS.Rewriter, g0: Run, g: Run,
                 v: nat, thisReg: nat, kill: bool, dest: Dest, bytes: nat)
    requires Ok(mid, g0) && v in s0.vars && InRegister(s0, mid, g0, v, thisReg) && Ok(s0, g0) && v in mid.vars
    requires s2 == if kill then DecUse(mid, v) else mid
    requires Now(s2, g).mem == Now(s0, g0).mem
    requires Ok(t, g) && g.val == g0.val && g.callee == g0.callee && g.entry == g0.entry
    requires (dest.AnyReg? || Register(dest.reg) !in s2.where) ==> t == s2
    requires dest.InReg? && Register(dest.reg) in s2.where ==>
      exists to :: MovedAside(s2, t, g, Register(dest.reg), to) &&
        (match SpillChoice(s2.where) case Done(c) => to == Register(c) case Aborted => FirstScratch(s2.where, bytes, to))
    ensures ReadBase(s0, g0, v, kill, dest, thisReg, Get(Now(t, g), Register(thisReg))) && Now(t, g).mem == Now(s0, g0).mem
  {
    hide Ok, Now, MovedAside, SpillChoice, InRegister, DecUse;
    AllocKeepsMem(s2, t, g, dest);
    if dest.InReg? && Register(dest.reg) in s2.where {
      var to :| MovedAside(s2, t, g, Register(dest.reg), to) &&
        (match SpillChoice(s2.where) case Done(c) => to == Register(c) case Aborted => FirstScratch(s2.where, bytes, to));
    }
    BaseAfterAlloc(s0, mid, s2, t, g0, g, v, thisReg, kill, dest);
  }

  /** getAttr finds no register, for its base or for its result. */
  ghost predicate NoAttr(s: RS.Rewriter, v: nat, kill: bool, bytes: nat, dest: Dest)
    requires v in s.vars
  {
    || (NoRegister(s, v) && RegisterFrom(s.where, 0).Aborted?)
    || exists p :: MayPick(s, v, p) && AllocChoice(Based(s, v, kill, p).where, bytes, dest).Aborted?
  }

  lemma NoBase(s: RS.Rewriter, v: nat, kill: bool, bytes: nat, dest: Dest)
    requires v in s.vars && NoRegister(s, v) && RegisterFrom(s.where, 0).Aborted?
    ensures NoAttr(s, v, kill, bytes, dest)
  {}

  lemma NoResult(s: RS.Rewriter, t: RS.Rewriter, v: nat, kill: bool, reg: nat, bytes: nat, dest: Dest)
    requires v in s.vars && MayPick(s, v, reg) && SamePlaces(t, Based(s, v, kill, reg)) && AllocChoice(t.where, bytes, dest).Aborted?
    ensures NoAttr(s, v, kill, bytes, dest)
  {}

  lemma AttrIs(s0: RS.Rewriter, s2: RS.Rewriter, s3: RS.Rewriter, t: RS.Rewriter, v: nat, kill: bool, reg: nat, bytes: nat, dest: Dest, x: nat)
    requires v in s0.vars && SamePlaces(s2, Based(s0, v, kill, reg)) && s3 == AfterAlloc(s2, bytes, dest)
    requires AllocChoice(s2.where, bytes, dest).Done? && SamePlaces(t, NewVar(s3, x, Register(AllocChoice(s2.where, bytes, dest).value)))
    ensures AttrPlaced(s0, t, v, kill, reg, bytes, dest, x)
  {
    AllocPlaces(s2, Based(s0, v, kill, reg), bytes, dest);
    hide AfterAlloc;
  }

  /** What getAttr does to the record of a run: one variable more, and v's use less if it was killed. */
  ghost predicate GotAttr(g: Run, h: Run, v: nat, kill: bool, x: nat) {
    && x !in g.val && x in h.val && h == g.(held := (if kill then g.held - multiset{v} else g.held) + multiset{x}, val := g.val[x := h.val[x]])
  }

  lemma GotIs(g0: Run, g2: Run, g: Run, v: nat, kill: bool, x: nat)
    requires g2 == if kill then g0.(held := g0.held - multiset{v}) else g0
    requires x !in g2.val && x in g.val && g == g2.(val := g2.val[x := g.val[x]], held := g2.held + multiset{x})
    ensures GotAttr(g0, g, v, kill, x)
  {}

  lemma AllocPlaces(s: RS.Rewriter, t: RS.Rewriter, bytes: nat, dest: Dest)
    requires SamePlaces(s, t)
    ensures SamePlaces(AfterAlloc(s, bytes, dest), AfterAlloc(t, bytes, dest))
  {
    hide SpillTo;
  }

  lemma KillKeepsNow(s: RS.Rewriter, t: RS.Rewriter, g: Run, h: Run, v: nat)
    requires v in s.vars && (t == s || t == DecUse(s, v)) && h.callee == g.callee && h.entry == g.entry
    ensures Now(t, h) == Now(s, g)
    ensures t.doneGuarding == s.doneGuarding && t.where.Keys <= s.where.Keys
  {}

  /** The register the load goes through, after a register for the result was allocated. */
  lemma BaseAfterAlloc(s0: RS.Rewriter, s1: RS.Rewriter, s2: RS.Rewriter, t: RS.Rewriter, g0: Run, g: Run,
                       v: nat, thisReg: nat, kill: bool, dest: Dest)
    requires Ok(s1, g0) && v in s0.vars && InRegister(s0, s1, g0, v, thisReg) && Ok(s0, g0)
    requires s2 == if kill then DecUse(s1, v) else s1
    requires Ok(t, g) && g.val == g0.val && g.callee == g0.callee && g.entry == g0.entry
    requires (dest.AnyReg? || Register(dest.reg) !in s2.where) ==> t == s2
    requires dest.InReg? && Register(dest.reg) in s2.where ==>
      exists to :: MovedAside(s2, t, g, Register(dest.reg), to) &&
        (match SpillChoice(s2.where) case Done(c) => to == Register(c) case Aborted => to.Scratch?)
    ensures v in g.val
    ensures kill && Overwrites(s0, v, dest, thisReg) ==> s0.where[Register(dest.reg)] in g.val
    ensures Get(Now(t, g), Register(thisReg)) ==
      if kill && Overwrites(s0, v, dest, thisReg) then g.val[s0.where[Register(dest.reg)]] else g.val[v]
  {
    hide Ok, Now, MovedAside, SpillChoice, InRegister, Books, DecUse;
    InRegisterHolds(s0, s1, g0, v, thisReg);
    KillKeepsNow(s1, s2, g0, g, v);
    OkBooks(s0, g0);
    OkBooks(s1, g0);
    SpillsOther(s0, s1, s2, g0, v, thisReg, kill, dest);
    if dest.InReg? && Register(dest.reg) in s2.where {
      var to :| MovedAside(s2, t, g, Register(dest.reg), to) &&
        (match SpillChoice(s2.where) case Done(c) => to == Register(c) case Aborted => to.Scratch?);
      SpillMoves(s2, t, g, Register(dest.reg), to);
      OkBooks(t, g);
      if to == Register(thisReg) {
        assert SpillChoice(s2.where) == Done(thisReg) && Register(thisReg) !in s2.where;
        assert Get(Now(t, g), to) == g.val[t.where[to]];
      } else {
        assert Get(Now(t, g), Register(thisReg)) == Get(Now(s2, g), Register(thisReg));
      }
    }
  }

  /** The spill takes the base's register exactly when the base died, some other variable is in
      the way, and the base's register is the spill's choice. */
  lemma SpillsOther(s0: RS.Rewriter, s1: RS.Rewriter, s2: RS.Rewriter, g0: Run, v: nat, thisReg: nat, kill: bool, dest: Dest)
    requires Books(s0) && Books(s1) && v in s0.vars && InRegister(s0, s1, g0, v, thisReg)
    requires s2 == if kill then DecUse(s1, v) else s1
    ensures var taken := dest.InReg? && Register(dest.reg) in s2.where;
      && (taken && kill && s0.vars[v].uses == 1 ==>
            Register(dest.reg) in s0.where && s2.where[Register(dest.reg)] == s0.where[Register(dest.reg)])
      && (kill && Overwrites(s0, v, dest, thisReg) ==> taken && SpillChoice(s2.where) == Done(thisReg))
      && (taken && !(kill && Overwrites(s0, v, dest, thisReg)) && Register(thisReg) !in s2.where ==> SpillChoice(s2.where) != Done(thisReg))
  {
    hide Now, SpillChoice;
    DyingBase(s0, s1, g0, v, thisReg);
  }

  /** Erasing v frees the same locations whether or not it was first copied to a register. */
  lemma DyingBase(s0: RS.Rewriter, s1: RS.Rewriter, g: Run, v: nat, thisReg: nat)
    requires Books(s0) && Books(s1) && v in s0.vars && InRegister(s0, s1, g, v, thisReg)
    ensures s1.vars[v].uses == s0.vars[v].uses
    ensures s1.where - s1.vars[v].locations == s0.where - s0.vars[v].locations
  {
    hide Now;
    var a, b := s1.where - s1.vars[v].locations, s0.where - s0.vars[v].locations;
    forall l | l in a ensures l in b && b[l] == a[l] {}
    forall l | l in b ensures l in a && b[l] == a[l] {}
  }

  lemma SpillMoves(s: RS.Rewriter, t: RS.Rewriter, g: Run, from: Location, to: Location)
    requires MovedAside(s, t, g, from, to)
    ensures from in s.where && to in t.where && t.where[to] == s.where[from] && to !in s.where && t.vars.Keys == s.vars.Keys
    ensures forall l :: l != to ==> Get(Now(t, g), l) == Get(Now(s, g), l)
  {
    hide Now;
  }

  lemma GuardTests(now: State, base: Location, offset: int, reg: Location)
    requires !reg.Constant?
    ensures Fails(now, Guard(base, offset, Loc(reg))) <==> now.mem(Get(now, base) + offset) != Get(now, reg)
  {}

  lemma ScratchIsLate(s: RS.Rewriter, g: Run, v: nat, o: nat)
    requires Ok(s, g) && Located(s) && v in s.vars && Scratch(o) in s.vars[v].locations
    ensures s.doneGuarding
  {
    OkBooks(s, g);
    hide Ok, Now;
  }

  lemma NoRegisterIsLate(s: RS.Rewriter, g: Run, v: nat)
    requires Ok(s, g) && Located(s) && Readable(s, v)
    ensures NoRegister(s, v) ==> s.doneGuarding
  {
    hide Ok, Located;
    if NoRegister(s, v) {
      var o :| s.vars[v].locations == {Scratch(o)};
      ScratchIsLate(s, g, v, o);
    }
  }

  ghost predicate HasConstant(s: RS.Rewriter, v: nat) {
    v in s.vars && exists l :: l in s.vars[v].locations && l.Constant?
  }

  /** Bringing v into a register changes nothing about another variable. */
  lemma OthersStay(s: RS.Rewriter, t: RS.Rewriter, g: Run, v: nat, reg: nat, x: nat)
    requires InRegister(s, t, g, v, reg) && x in s.vars && v in s.vars
    ensures x in t.vars && (x != v ==> t.vars[x] == s.vars[x])
    ensures HasConstant(s, x) ==> HasConstant(t, x)
    ensures x != v && Readable(s, x) ==> Readable(t, x)
  {
    hide Now;
    assert t.vars[x].locations == s.vars[x].locations + if x == v then {Register(reg)} else {};
  }

  /** The memory of m with x written at one address. */
  ghost predicate Wrote(m: State, n: State, at: int, x: int) {
    forall a :: n.mem(a) == (if a == at then x else m.mem(a))
  }

  /** Where everything is after setAttr: the base, and a value that is not immediate, have been
      brought into registers, and the value's use is given up. */
  ghost predicate Stored(s: RS.Rewriter, t: RS.Rewriter, v: nat, val: nat) {
    && v in s.vars && val in s.vars
    && exists p :: MayPick(s, v, p) &&
         (if HasConstant(s, val) then SamePlaces(t, DecUse(With(s, v, p), val))
          else exists q :: MayPick(With(s, v, p), val, q) && SamePlaces(t, DecUse(With(With(s, v, p), val, q), val)))
  }

  ghost predicate InstantStore(s: RS.Rewriter, t: RS.Rewriter, val: nat) {
    val in s.vars &&
    if HasConstant(s, val) then SamePlaces(t, s) else exists q :: MayPick(s, val, q) && SamePlaces(t, With(s, val, q))
  }

  lemma PickIs(s: RS.Rewriter, v: nat, reg: nat, bytes: nat)
    requires v in s.vars && Reloading(s, v, bytes, AnyReg) == s
    requires NoRegister(s, v) ==> Done(reg) == AllocChoice(s.where, bytes, AnyReg)
    requires !NoRegister(s, v) ==> Register(reg) in s.vars[v].locations
    ensures MayPick(s, v, reg)
  {}

  lemma StoredIs(s0: RS.Rewriter, s1: RS.Rewriter, s3: RS.Rewriter, t: RS.Rewriter, v: nat, val: nat, p: nat)
    requires v in s0.vars && val in s0.vars && MayPick(s0, v, p) && SamePlaces(s1, With(s0, v, p)) && val in s1.vars
    requires InstantStore(s1, s3, val) && val in s3.vars && t == DecUse(s3, val)
    ensures Stored(s0, t, v, val)
  {
    assert HasConstant(s1, val) == HasConstant(s0, val);
    hide HasConstant, With, DecUse;
    if HasConstant(s0, val) {
      SameDropped(s3, With(s0, v, p), val);
    } else {
      var q :| MayPick(s1, val, q) && SamePlaces(s3, With(s1, val, q));
      SamePick(s1, With(s0, v, p), val, q);
      SameDropped(s3, With(With(s0, v, p), val, q), val);
    }
  }

  lemma SameDropped(s: RS.Rewriter, t: RS.Rewriter, v: nat)
    requires SamePlaces(s, t) && v in s.vars
    ensures SamePlaces(DecUse(s, v), DecUse(t, v))
  {}

  lemma SamePick(s: RS.Rewriter, t: RS.Rewriter, v: nat, reg: nat)
    requires SamePlaces(s, t) && v in s.vars
    ensures MayPick(s, v, reg) == MayPick(t, v, reg) && SamePlaces(With(s, v, reg), With(t, v, reg))
  {}

  lemma BaseStays(s: RS.Rewriter, t: RS.Rewriter, g: Run, v: nat, x: nat, base: nat, reg: nat)
    requires Ok(s, g) && Ok(t, g) && InRegister(s, t, g, x, reg) && Register(base) in s.where && s.where[Register(base)] == v && x != v
    ensures Get(Now(t, g), Register(base)) == Get(Now(s, g), Register(base))
    ensures reg != base
  {
    hide Ok, Now;
    OkBooks(s, g);
    OkBooks(t, g);
    hide Preserved;
    assert Register(base) in t.where && t.where[Register(base)] == v;
    assert t.where[Register(reg)] == x;
  }

  /** Where a value is safe from a call that would clobber k. */
  predicate Shelter(k: Location, m: Location) {
    && !Clobbered(m) && (m.Scratch? || (m.Register? && m.reg < 16 && k.Register?))
  }

  /** How a variable's locations may change around a call: those a call keeps stay, and a variable
      in one place stays in one place, a shelter if the call may overwrite the old one. */
  ghost predicate Moves(a: set<Location>, b: set<Location>) {
    && (forall k {:trigger k in a} {:trigger k in b} :: k in a && !Clobbered(k) ==> k in b)
    && (forall k {:trigger k in a} :: k in a && a == {k} && !k.Constant? ==>
          b == a || (Clobbered(k) && exists m :: b == {m} && Shelter(k, m)))
  }

  ghost predicate Settles(s: RS.Rewriter, t: RS.Rewriter) {
    && t.vars.Keys <= s.vars.Keys
    && forall x {:trigger t.vars[x]} :: x in s.vars && x in t.vars ==> Moves(s.vars[x].locations, t.vars[x].locations)
  }

  lemma MovesAgain(a: set<Location>, b: set<Location>, c: set<Location>)
    requires Moves(a, b) && Moves(b, c)
    ensures Moves(a, c)
  {
    forall k | k in a && a == {k} && !k.Constant? ensures c == a || (Clobbered(k) && exists m :: c == {m} && Shelter(k, m)) {
      if b != a {
        var m :| b == {m} && Shelter(k, m);
        assert m in b && m in c;
      }
    }
  }

  lemma SettlesAgain(s: RS.Rewriter, t: RS.Rewriter, u: RS.Rewriter)
    requires Settles(s, t) && Settles(t, u)
    ensures Settles(s, u)
  {
    hide Moves;
    forall x | x in s.vars && x in u.vars ensures Moves(s.vars[x].locations, u.vars[x].locations) {
      MovesAgain(s.vars[x].locations, t.vars[x].locations, u.vars[x].locations);
    }
  }

  lemma SameSettles(s: RS.Rewriter, t: RS.Rewriter)
    requires t.vars == s.vars
    ensures Settles(s, t)
  {}

  lemma SpilledSettles(s: RS.Rewriter, v: nat, from: Location, to: Location)
    requires v in s.vars && from in s.vars[v].locations && Clobbered(from) && SpillTarget(from, to) && from != to
    ensures Settles(s, Spilled(s, v, from, to))
  {
    var t := Spilled(s, v, from, to);
    var a, b := s.vars[v].locations, t.vars[v].locations;
    assert b == a + {to} - {from};
    assert Moves(a, b) by {
      if a == {from} { assert b == {to} && Shelter(from, to); }
    }
  }

  lemma RemovedSettles(s: RS.Rewriter, v: nat, l: Location)
    requires v in s.vars && l in s.vars[v].locations && s.vars[v].locations != {l} && Clobbered(l)
    ensures Settles(s, RemoveLocation(s, v, l))
  {}

  lemma AddedSettles(s: RS.Rewriter, v: nat, l: Location)
    requires HasConstant(s, v)
    ensures Settles(s, AddLocation(s, v, l))
  {}

  lemma DroppedSettles(s: RS.Rewriter, v: nat)
    requires v in s.vars
    ensures Settles(s, DecUse(s, v))
  {}

  /** Everything recorded in s stays recorded except in l; what is recorded anew is safe from a
      call; and nothing a call could clobber, nor memory, was written. */
  ghost predicate Shifted(s: RS.Rewriter, t: RS.Rewriter, g: Run, l: Location) {
    && Preserved(s, t, {l}) && Settles(s, t)
    && (forall m {:trigger m in t.where} :: m in t.where ==>
          (m in s.where && t.where[m] == s.where[m]) || (!Clobbered(m) && !m.Constant?))
    && Now(t, g).mem == Now(s, g).mem
    && (forall m {:trigger Get(Now(t, g), m)} :: Clobbered(m) ==> Get(Now(t, g), m) == Get(Now(s, g), m))
  }

  /** As Shifted, but v was recorded in l, which may have been written. */
  ghost predicate Placed(s: RS.Rewriter, t: RS.Rewriter, g: Run, v: nat, l: Location) {
    && v in t.vars && l in t.vars[v].locations && Preserved(s, t, {l}) && Settles(s, t)
    && (forall m {:trigger m in t.where} :: m in t.where ==>
          m == l || (m in s.where && t.where[m] == s.where[m]) || (!Clobbered(m) && !m.Constant?))
    && Now(t, g).mem == Now(s, g).mem
    && (forall m {:trigger Get(Now(t, g), m)} :: Clobbered(m) && m != l ==> Get(Now(t, g), m) == Get(Now(s, g), m))
  }

  /** What clearing registers one by one keeps. */
  ghost predicate Undisturbed(s: RS.Rewriter, t: RS.Rewriter, g: Run) {
    && t.vars.Keys == s.vars.Keys && (forall v {:trigger t.vars[v]} :: v in s.vars ==> t.vars[v].uses == s.vars[v].uses)
    && Settles(s, t) && Now(t, g).mem == Now(s, g).mem
    && (forall m {:trigger Get(Now(t, g), m)} :: Clobbered(m) ==> Get(Now(t, g), m) == Get(Now(s, g), m))
  }

  ghost predicate NoConstants(s: RS.Rewriter) {
    forall l {:trigger l in s.where} :: l in s.where ==> !l.Constant?
  }

  ghost predicate AtOrConstant(s: RS.Rewriter, v: nat, l: Location) {
    v in s.vars && (l in s.vars[v].locations || HasConstant(s, v))
  }

  /** The code's asserts about the arguments from the i-th on: each is in its place or immediate,
      and the constants recorded are used by these arguments alone. */
  ghost predicate Ready(s: RS.Rewriter, g: Run, vs: seq<nat>, i: nat)
    requires i <= |vs| <= |ARG_REGS|
  {
    && multiset(vs[i..]) <= g.held
    && (forall j {:trigger vs[j]} :: i <= j < |vs| ==> AtOrConstant(s, vs[j], ForArg(j)))
    && (forall l {:trigger l in s.where} :: l in s.where && l.Constant? && s.where[l] in s.vars ==>
          s.vars[s.where[l]].uses == multiset(vs[i..])[s.where[l]])
  }

  ghost predicate ArgsHold(s: RS.Rewriter, g: Run, vs: seq<nat>, i: nat)
    requires i <= |vs| <= |ARG_REGS|
  {
    forall j {:trigger vs[j]} :: 0 <= j < i ==> vs[j] in g.val && Get(Now(s, g), ForArg(j)) == g.val[vs[j]]
  }

  ghost predicate Cleared(s: RS.Rewriter, k: nat)
    requires k <= |CALLER_SAVE|
  {
    forall j {:trigger CALLER_SAVE[j]} :: 0 <= j < k ==> CALLER_SAVE[j] !in s.where
  }

  lemma SameShifts(s: RS.Rewriter, g: Run, l: Location)
    ensures Shifted(s, s, g, l)
  {
    SameSettles(s, s);
    hide Now, Settles;
  }

  lemma SamePlaced(s: RS.Rewriter, g: Run, v: nat, l: Location)
    requires v in s.vars && l in s.vars[v].locations
    ensures Placed(s, s, g, v, l)
  {
    SameSettles(s, s);
    hide Now, Settles;
  }

  lemma MovedShifts(s: RS.Rewriter, t: RS.Rewriter, g: Run, from: Location, to: Location)
    requires MovedAside(s, t, g, from, to) && Clobbered(from) && Books(s)
    ensures Shifted(s, t, g, from)
  {
    hide Now, Preserved, Settles;
    SpilledSettles(s, s.where[from], from, to);
    SpilledWhere(s, s.where[from], from, to);
    hide Books, Spilled;
  }

  lemma SpilledWhere(s: RS.Rewriter, v: nat, from: Location, to: Location)
    requires v in s.vars && SpillTarget(from, to)
    ensures forall m {:trigger m in Spilled(s, v, from, to).where} :: m in Spilled(s, v, from, to).where ==>
      (m in s.where && Spilled(s, v, from, to).where[m] == s.where[m]) || (!Clobbered(m) && !m.Constant?)
    ensures !Clobbered(to)
  {}

  lemma SetHolds(m: State, l: Location, x: int)
    requires !l.Constant?
    ensures Get(Set(m, l, x), l) == x && forall k :: k != l ==> Get(Set(m, l, x), k) == Get(m, k)
  {}

  lemma ConstantLocated(s: RS.Rewriter, g: Run, v: nat, l: Location, i: Instr)
    requires Ok(s, g) && Located(s) && HasConstant(s, v) && l.Register? && l.reg < 16
    ensures Located(AddLocation(Emit(s, i), v, l))
  {
    OkBooks(s, g);
    hide Ok, Now;
  }

  lemma ConstantPlaced(s: RS.Rewriter, t: RS.Rewriter, g: Run, v: nat, l: Location, i: Instr)
    requires HasConstant(s, v) && t == AddLocation(Emit(s, i), v, l) && !i.Guard?
    requires Now(t, g).mem == Now(s, g).mem
    requires forall m :: m != l ==> Get(Now(t, g), m) == Get(Now(s, g), m)
    ensures Placed(s, t, g, v, l)
  {
    hide Now;
    AddedSettles(s, v, l);
    SameSettles(AddLocation(s, v, l), t);
    SettlesAgain(s, AddLocation(s, v, l), t);
    hide Settles;
  }

  lemma ShiftedConstant(s: RS.Rewriter, t: RS.Rewriter, g: Run, v: nat, l: Location)
    requires Shifted(s, t, g, l) && HasConstant(s, v) && !l.Constant?
    ensures HasConstant(t, v)
  {
    hide Now, Settles;
    var c :| c in s.vars[v].locations && c.Constant?;
    assert c in t.vars[v].locations;
  }

  lemma ShiftedPlaced(s: RS.Rewriter, s1: RS.Rewriter, t: RS.Rewriter, g: Run, v: nat, l: Location)
    requires Shifted(s, s1, g, l) && Placed(s1, t, g, v, l)
    ensures Placed(s, t, g, v, l)
  {
    SettlesAgain(s, s1, t);
    hide Now, Settles;
  }

  lemma PlacedSettles(s0: RS.Rewriter, s: RS.Rewriter, mid: RS.Rewriter, t: RS.Rewriter, g: Run, v: nat, l: Location)
    requires Settles(s0, s) && Placed(s, mid, g, v, l) && v in mid.vars && t == DecUse(mid, v)
    ensures Settles(s0, t)
  {
    DroppedSettles(mid, v);
    hide Settles;
    SettlesAgain(s0, s, mid);
    SettlesAgain(s0, mid, t);
  }

  lemma PlacedHolds(s: RS.Rewriter, t: RS.Rewriter, g: Run, v: nat, l: Location)
    requires Ok(t, g) && Placed(s, t, g, v, l)
    ensures v in g.val && v in t.vars && Get(Now(t, g), l) == g.val[v] && t.doneGuarding == s.doneGuarding
  {
    OkBooks(t, g);
    hide Ok, Now, Settles;
  }

  lemma RemovedLocated(s: RS.Rewriter, g: Run, v: nat, l: Location)
    requires Ok(s, g) && Located(s) && v in s.vars && l in s.vars[v].locations && s.vars[v].locations != {l}
    ensures Located(RemoveLocation(s, v, l))
  {
    OkBooks(s, g);
    hide Ok, Now;
  }

  lemma RemovedShifts(s: RS.Rewriter, t: RS.Rewriter, g: Run, v: nat, l: Location)
    requires v in s.vars && t == RemoveLocation(s, v, l)
    requires l in s.vars[v].locations && s.vars[v].locations != {l} && Clobbered(l)
    ensures Shifted(s, t, g, l)
  {
    SameNow(s, t, g);
    RemovedSettles(s, v, l);
    hide Now, Settles;
  }

  lemma ShiftedUndisturbed(s0: RS.Rewriter, s: RS.Rewriter, t: RS.Rewriter, g: Run, l: Location)
    requires Undisturbed(s0, s, g) && Shifted(s, t, g, l) && NoConstants(s)
    ensures Undisturbed(s0, t, g) && NoConstants(t) && t.doneGuarding == s.doneGuarding
  {
    SettlesAgain(s0, s, t);
    hide Now, Settles;
  }

  lemma ShiftedCleared(s: RS.Rewriter, t: RS.Rewriter, g: Run, l: Location, k: nat)
    requires k < |CALLER_SAVE| && Cleared(s, k) && Shifted(s, t, g, l) && CALLER_SAVE[k] !in t.where
    ensures Cleared(t, k + 1)
  {
    hide Now, Settles;
  }

  /** The listed registers are all those a call may overwrite. */
  lemma AllCleared(s: RS.Rewriter)
    requires Cleared(s, |CALLER_SAVE|) && Located(s)
    ensures forall l :: l in s.where ==> !Clobbered(l)
  {
    forall l | l in s.where ensures !Clobbered(l) { Listed(l); }
  }

  lemma Listed(l: Location)
    requires (l.Register? || l.Xmm?) ==> l.reg < 16
    ensures Clobbered(l) ==> exists j :: 0 <= j < |CALLER_SAVE| && CALLER_SAVE[j] == l
  {
    match l {
      case Register(r) =>
        if r <= RDX {
          assert CALLER_SAVE[r] == l;
        } else if r == RSI {
          assert CALLER_SAVE[3] == l;
        } else if r == RDI {
          assert CALLER_SAVE[4] == l;
        } else if 8 <= r <= 11 {
          assert CALLER_SAVE[r - 3] == l;
        }
      case Xmm(r) => assert CALLER_SAVE[r + 9] == l;
      case _ =>
    }
  }

  lemma ReadyShifted(s: RS.Rewriter, t: RS.Rewriter, g: Run, vs: seq<nat>, l: Location)
    requires |vs| <= |ARG_REGS| && Ready(s, g, vs, 0) && Shifted(s, t, g, l) && Ok(t, g) && Ok(s, g)
    requires !l.Constant? && forall j :: 0 <= j < |vs| ==> l != ForArg(j)
    ensures Ready(t, g, vs, 0) && t.doneGuarding == s.doneGuarding && ArgsHold(t, g, vs, 0) && Now(t, g).mem == Now(s, g).mem
  {
    OkJustBooks(s, g);
    hide Ok, Now, Settles, ForArg, Shifted, Books, AtOrConstant;
    forall j | 0 <= j < |vs| ensures AtOrConstant(t, vs[j], ForArg(j)) { ArgShifted(s, t, g, vs[j], l, ForArg(j)); }
    forall c | c in t.where && c.Constant? && t.where[c] in t.vars ensures t.vars[t.where[c]].uses == multiset(vs[0..])[t.where[c]] {
      ShiftedBack(s, t, g, l, c);
      ReadyConstant(s, g, vs, 0, c);
    }
    ShiftedNow(s, t, g, l);
  }

  lemma ArgShifted(s: RS.Rewriter, t: RS.Rewriter, g: Run, v: nat, l: Location, m: Location)
    requires Shifted(s, t, g, l) && AtOrConstant(s, v, m) && m != l && !l.Constant?
    ensures AtOrConstant(t, v, m)
  {
    hide Now, Settles;
    if m !in s.vars[v].locations { ShiftedConstant(s, t, g, v, l); }
  }

  lemma ShiftedNow(s: RS.Rewriter, t: RS.Rewriter, g: Run, l: Location)
    requires Shifted(s, t, g, l)
    ensures t.doneGuarding == s.doneGuarding && Now(t, g).mem == Now(s, g).mem
  {
    hide Now, Settles;
  }

  lemma ShiftedBack(s: RS.Rewriter, t: RS.Rewriter, g: Run, l: Location, c: Location)
    requires Shifted(s, t, g, l) && Books(s) && c in t.where && c.Constant?
    ensures c in s.where && t.where[c] == s.where[c] && s.where[c] in s.vars && s.where[c] in t.vars
    ensures t.vars[s.where[c]].uses == s.vars[s.where[c]].uses
  {
    hide Now, Settles;
  }

  lemma ReadyNext(s: RS.Rewriter, g: Run, vs: seq<nat>, i: nat)
    requires i < |vs| <= |ARG_REGS| && Ready(s, g, vs, i)
    ensures vs[i] in g.held && AtOrConstant(s, vs[i], ForArg(i)) && multiset(vs[i..]) == multiset{vs[i]} + multiset(vs[i + 1..])
  {
    assert vs[i..] == [vs[i]] + vs[i + 1..];
  }

  lemma SameUndisturbed(s: RS.Rewriter, g: Run)
    ensures Undisturbed(s, s, g)
  {
    SameSettles(s, s);
    hide Now, Settles;
  }

  lemma ArgRegsClobbered(i: nat)
    requires i < |ARG_REGS|
    ensures ARG_REGS[i] < 16 && ARG_REGS[i] != R11 && ARG_REGS[i] != RAX && Clobbered(ForArg(i))
    ensures forall j :: 0 <= j < |ARG_REGS| && j != i ==> ForArg(j) != ForArg(i)
  {}

  lemma NowIs(s: RS.Rewriter, g: Run)
    ensures Now(s, g) == Through(g.callee, g.entry, s.code)
  {}

  /** Placing the i-th argument leaves the later ones ready and the earlier ones in place. */
  lemma ReadyPlaced(s: RS.Rewriter, mid: RS.Rewriter, t: RS.Rewriter, g: Run, h: Run, vs: seq<nat>, i: nat)
    requires i < |vs| <= |ARG_REGS| && Ready(s, g, vs, i) && Placed(s, mid, g, vs[i], ForArg(i)) && Ok(mid, g) && Ok(s, g)
    requires vs[i] in mid.vars && t == DecUse(mid, vs[i]) && h == g.(held := g.held - multiset{vs[i]}) && Ok(t, h)
    requires vs[i] in g.val && Get(Now(t, h), ForArg(i)) == g.val[vs[i]] && Now(t, h) == Now(mid, g)
    requires ArgsHold(s, g, vs, i) && Register(R11) !in s.where
    ensures Ready(t, h, vs, i + 1) && ArgsHold(t, h, vs, i + 1) && Register(R11) !in t.where
    ensures t.doneGuarding == s.doneGuarding && Now(t, h).mem == Now(s, g).mem
  {
    hide Ok, Now, Clobbered, Ready, Placed, ArgsHold, Books, DecUse, ForArg;
    ReadyAfter(s, mid, t, g, h, vs, i);
    HoldAfter(s, mid, t, g, h, vs, i);
    assert t.doneGuarding == s.doneGuarding && Now(mid, g).mem == Now(s, g).mem && Register(R11) !in t.where by {
      R11Clobbered();
      PlacedElsewhere(s, mid, t, g, vs[i], i, Register(R11));
    }
  }

  lemma PlacedElsewhere(s: RS.Rewriter, mid: RS.Rewriter, t: RS.Rewriter, g: Run, v: nat, i: nat, l: Location)
    requires i < |ARG_REGS| && Placed(s, mid, g, v, ForArg(i)) && v in mid.vars && t == DecUse(mid, v)
    requires l !in s.where && Clobbered(l) && l == Register(R11)
    ensures t.doneGuarding == s.doneGuarding && Now(mid, g).mem == Now(s, g).mem && l !in t.where
  {
    hide Now, Settles;
    ArgRegsClobbered(i);
    assert l !in mid.where;
  }

  lemma HoldAfter(s: RS.Rewriter, mid: RS.Rewriter, t: RS.Rewriter, g: Run, h: Run, vs: seq<nat>, i: nat)
    requires i < |vs| <= |ARG_REGS| && Placed(s, mid, g, vs[i], ForArg(i)) && h.val == g.val && ArgsHold(s, g, vs, i)
    requires vs[i] in g.val && Get(Now(t, h), ForArg(i)) == g.val[vs[i]] && Now(t, h) == Now(mid, g)
    ensures ArgsHold(t, h, vs, i + 1)
  {
    hide Now, Preserved;
    forall j | 0 <= j < i + 1 ensures vs[j] in h.val && Get(Now(t, h), ForArg(j)) == h.val[vs[j]] {
      if j < i {
        ArgRegsClobbered(j);
        assert Get(Now(mid, g), ForArg(j)) == Get(Now(s, g), ForArg(j));
      }
    }
  }

  lemma ReadyAfter(s: RS.Rewriter, mid: RS.Rewriter, t: RS.Rewriter, g: Run, h: Run, vs: seq<nat>, i: nat)
    requires i < |vs| <= |ARG_REGS| && Ready(s, g, vs, i) && Placed(s, mid, g, vs[i], ForArg(i)) && Ok(mid, g) && Ok(s, g)
    requires vs[i] in mid.vars && t == DecUse(mid, vs[i]) && h == g.(held := g.held - multiset{vs[i]}) && Ok(t, h)
    ensures Ready(t, h, vs, i + 1)
  {
    hide Ok, Now, Clobbered, Placed, Books, DecUse, ForArg, AtOrConstant;
    ReadyNext(s, g, vs, i);
    ArgRegsClobbered(i);
    OkJustBooks(s, g);
    OkJustBooks(mid, g);
    OkJustBooks(t, h);
    ConstantsShrink(s, mid, t, g, vs, i);
    assert multiset(vs[i + 1..]) <= h.held;
    forall j | i + 1 <= j < |vs| ensures AtOrConstant(t, vs[j], ForArg(j)) {
      LaterStays(s, mid, t, g, h, vs, i, j);
    }
  }

  lemma OkJustBooks(s: RS.Rewriter, g: Run)
    requires Ok(s, g)
    ensures Books(s) && forall v :: v in g.held ==> v in s.vars
  {
    OkBooks(s, g);
  }

  lemma R11Clobbered()
    ensures Clobbered(Register(R11)) && Clobbered(Register(RAX))
  {}

  lemma LaterStays(s: RS.Rewriter, mid: RS.Rewriter, t: RS.Rewriter, g: Run, h: Run, vs: seq<nat>, i: nat, j: nat)
    requires i < j < |vs| <= |ARG_REGS| && Ready(s, g, vs, i) && Placed(s, mid, g, vs[i], ForArg(i)) && vs[i] in mid.vars
    requires t == DecUse(mid, vs[i]) && multiset(vs[i + 1..]) <= h.held && ForArg(j) != ForArg(i)
    requires forall v :: v in h.held ==> v in t.vars
    ensures AtOrConstant(t, vs[j], ForArg(j))
  {
    hide Now, Settles;
    assert vs[i + 1..][j - i - 1] == vs[j];
    assert vs[j] in multiset(vs[i + 1..]);
    assert vs[j] in t.vars && t.vars[vs[j]].locations == mid.vars[vs[j]].locations;
    assert AtOrConstant(s, vs[j], ForArg(j));
    if ForArg(j) !in s.vars[vs[j]].locations {
      var c :| c in s.vars[vs[j]].locations && c.Constant?;
      assert c in mid.vars[vs[j]].locations;
    }
  }

  lemma ConstantsShrink(s: RS.Rewriter, mid: RS.Rewriter, t: RS.Rewriter, g: Run, vs: seq<nat>, i: nat)
    requires i < |vs| <= |ARG_REGS| && Ready(s, g, vs, i) && Placed(s, mid, g, vs[i], ForArg(i)) && vs[i] in mid.vars
    requires t == DecUse(mid, vs[i]) && Books(s) && Books(mid) && Books(t)
    requires multiset(vs[i..]) == multiset{vs[i]} + multiset(vs[i + 1..])
    ensures forall l {:trigger l in t.where} :: l in t.where && l.Constant? && t.where[l] in t.vars ==>
      t.vars[t.where[l]].uses == multiset(vs[i + 1..])[t.where[l]]
  {
    hide Now, Settles;
    forall l | l in t.where && l.Constant? && t.where[l] in t.vars
      ensures t.vars[t.where[l]].uses == multiset(vs[i + 1..])[t.where[l]]
    {
      hide Ready, Placed, Books, Preserved;
      PlacedConstant(s, mid, g, vs[i], ForArg(i), l);
      assert s.vars[mid.where[l]].uses == multiset(vs[i..])[mid.where[l]] by { ReadyConstant(s, g, vs, i, l); }
    }
  }

  lemma PlacedConstant(s: RS.Rewriter, mid: RS.Rewriter, g: Run, v: nat, l: Location, c: Location)
    requires Placed(s, mid, g, v, l) && Books(s) && c in mid.where && c.Constant? && !l.Constant?
    ensures c in s.where && mid.where[c] == s.where[c] && s.where[c] in s.vars && s.where[c] in mid.vars
    ensures mid.vars[s.where[c]].uses == s.vars[s.where[c]].uses
  {
    hide Now, Settles;
  }

  lemma ReadyConstant(s: RS.Rewriter, g: Run, vs: seq<nat>, i: nat, c: Location)
    requires i <= |vs| <= |ARG_REGS| && Ready(s, g, vs, i) && c in s.where && c.Constant? && s.where[c] in s.vars
    ensures s.vars[s.where[c]].uses == multiset(vs[i..])[s.where[c]]
  {}

  /** When no argument is left, no constant is: each would have no owner. */
  lemma NoneLeft(s: RS.Rewriter, g: Run, vs: seq<nat>)
    requires Ok(s, g) && |vs| <= |ARG_REGS| && Ready(s, g, vs, |vs|)
    ensures NoConstants(s)
  {
    OkBooks(s, g);
    forall l | l in s.where ensures !l.Constant? {
      assert Owners(s, g, s.where[l]) > 0;
    }
  }

  /** What the callee finds: its address in R11, and each argument in its register. */
  ghost predicate AtCall(m: State, func: int, vs: seq<nat>, val: map<nat, int>)
    requires |vs| <= |ARG_REGS|
  {
    m.loc(Register(R11)) == func && forall i {:trigger vs[i]} :: 0 <= i < |vs| ==> vs[i] in val && m.loc(ForArg(i)) == val[vs[i]]
  }

  lemma NoArgsYet(s: RS.Rewriter, g: Run, vs: seq<nat>)
    requires |vs| <= |ARG_REGS|
    ensures ArgsHold(s, g, vs, 0) && g == g.(held := g.held - multiset(vs[..0]))
  {
    assert vs[..0] == [];
    assert g.held - multiset(vs[..0]) == g.held;
  }

  lemma HeldOneLess(held: multiset<nat>, vs: seq<nat>, i: nat)
    requires i < |vs|
    ensures held - multiset(vs[..i]) - multiset{vs[i]} == held - multiset(vs[..i + 1])
  {
    assert vs[..i + 1] == vs[..i] + [vs[i]];
  }

  /** Where everything is after a call: its result in RAX, and every variable that is left where the
      call could not reach it. */
  ghost predicate AfterTheCall(s: RS.Rewriter, t: RS.Rewriter, x: nat) {
    && Register(RAX) in t.where && t.where[Register(RAX)] == x
    && x in t.vars && t.vars[x] == Var({Register(RAX)}, 1)
    && t.vars.Keys - {x} <= s.vars.Keys
    && forall y {:trigger t.vars[y]} :: y in t.vars && y != x ==> y in s.vars && Moves(s.vars[y].locations, t.vars[y].locations)
  }

  lemma CallSettles(s0: RS.Rewriter, sv: RS.Rewriter, s1: RS.Rewriter, s2: RS.Rewriter, t: RS.Rewriter, g0: Run, g1: Run, x: nat)
    requires Shifted(s0, sv, g0, Register(R11)) && Settles(sv, s1) && Undisturbed(s1, s2, g1)
    requires t.where == s2.where[Register(RAX) := x] && t.vars == s2.vars[x := Var({Register(RAX)}, 1)] && x !in s2.vars
    ensures AfterTheCall(s0, t, x)
  {
    SettlesAgain(s0, sv, s1);
    SettlesAgain(s0, s1, s2);
    hide Now, Moves;
  }

  lemma R11NoArg()
    ensures forall j :: 0 <= j < |ARG_REGS| ==> Register(R11) != ForArg(j)
  {}

  lemma ArgsAtCall(s: RS.Rewriter, t: RS.Rewriter, g0: Run, g: Run, vs: seq<nat>, func: int)
    requires |vs| <= |ARG_REGS| && ArgsHold(s, g, vs, |vs|) && Undisturbed(s, t, g) && g.val == g0.val
    ensures var m := Set(Now(t, g), Register(R11), func); AtCall(m, func, vs, g0.val) && m.mem == Now(s, g).mem
  {
    hide Now;
    var m := Set(Now(t, g), Register(R11), func);
    forall i | 0 <= i < |vs| ensures vs[i] in g0.val && m.loc(ForArg(i)) == g0.val[vs[i]] {
      ArgRegsClobbered(i);
      assert Get(Now(t, g), ForArg(i)) == Get(Now(s, g), ForArg(i));
    }
  }

  /** v can be read through a floating-point register. */
  ghost predicate XmmReadable(s: RS.Rewriter, v: nat) {
    && v in s.vars && (forall l {:trigger l in s.vars[v].locations} :: l in s.vars[v].locations ==> !l.Constant?)
    && ((exists l :: l in s.vars[v].locations && l.Xmm?) || exists o :: s.vars[v].locations == {Scratch(o)})
  }

  /** The code's asserts about one live-out at commit: it is in its register, or that is free and
      the variable can be brought into it. */
  ghost predicate Restorable(s: RS.Rewriter, v: nat, l: Location) {
    && v in s.vars
    && (l in s.vars[v].locations ||
         (l !in s.where && ((l.Register? && l.reg < 16 && Readable(s, v)) || (l.Xmm? && XmmReadable(s, v)))))
  }

  /** The books once the first live-out has been given up. */
  function WithoutFirst(s: RS.Rewriter): RS.Rewriter
    requires s.liveOuts != [] && s.liveOutRegs != [] && s.liveOuts[0] in s.vars
  {
    s.(where := s.where - s.vars[s.liveOuts[0]].locations, vars := s.vars - {s.liveOuts[0]},
       liveOuts := s.liveOuts[1..], liveOutRegs := s.liveOutRegs[1..])
  }

  /** Each live-out is restorable when its turn comes, after the earlier ones have given up their
      locations. */
  ghost predicate AllRestorable(s: RS.Rewriter)
    decreases |s.liveOuts|
  {
    s.liveOuts != [] && s.liveOutRegs != [] ==>
      Restorable(s, s.liveOuts[0], s.liveOutRegs[0]) && AllRestorable(WithoutFirst(s))
  }

  /** Each live-out is restorable as things stand. */
  ghost predicate EachRestorable(s: RS.Rewriter) {
    forall i {:trigger s.liveOuts[i]} :: 0 <= i < |s.liveOuts| && i < |s.liveOutRegs| ==> Restorable(s, s.liveOuts[i], s.liveOutRegs[i])
  }

  /** Giving up a live-out never takes away what a later one needs. */
  lemma {:induction false} EachThenAll(s: RS.Rewriter)
    requires Books(s) && EachRestorable(s) && forall i, j :: 0 <= i < j < |s.liveOuts| ==> s.liveOuts[i] != s.liveOuts[j]
    ensures AllRestorable(s)
    decreases |s.liveOuts|
  {
    if s.liveOuts != [] && s.liveOutRegs != [] {
      assert Restorable(s, s.liveOuts[0], s.liveOutRegs[0]);
      var t := WithoutFirst(s);
      forall i | 0 <= i < |t.liveOuts| && i < |t.liveOutRegs| ensures Restorable(t, t.liveOuts[i], t.liveOutRegs[i]) {
        assert Restorable(s, s.liveOuts[i + 1], s.liveOutRegs[i + 1]);
        LaterRestorable(s, s.liveOuts[i + 1], s.liveOutRegs[i + 1]);
      }
      hide Restorable;
      EachThenAll(t);
    }
  }

  lemma LaterRestorable(s: RS.Rewriter, v: nat, l: Location)
    requires Books(s) && s.liveOuts != [] && s.liveOutRegs != [] && s.liveOuts[0] in s.vars && v != s.liveOuts[0]
    ensures Restorable(s, v, l) ==> Restorable(WithoutFirst(s), v, l)
    ensures Books(WithoutFirst(s))
  {
    if v in s.vars { assert WithoutFirst(s).vars[v] == s.vars[v]; }
  }

  /** Restorability is a matter of the books alone. */
  lemma {:induction false} SameRestorable(s: RS.Rewriter, t: RS.Rewriter)
    requires AllRestorable(s) && SamePlaces(s, t) && s.liveOuts == t.liveOuts && s.liveOutRegs == t.liveOutRegs
    ensures AllRestorable(t)
    decreases |s.liveOuts|
  {
    if s.liveOuts != [] && s.liveOutRegs != [] {
      assert Restorable(t, t.liveOuts[0], t.liveOutRegs[0]);
      hide Restorable;
      SameRestorable(WithoutFirst(s), WithoutFirst(t));
    }
  }

  /** t is s with the first live-out erased and its register holding the entry value. */
  ghost predicate Restored(s: RS.Rewriter, t: RS.Rewriter, g: Run) {
    && s.liveOuts != [] && s.liveOutRegs != [] && s.liveOuts[0] in s.vars
    && t.where == s.where - s.vars[s.liveOuts[0]].locations && t.vars == s.vars - {s.liveOuts[0]}
    && t.liveOuts == s.liveOuts[1..] && t.liveOutRegs == s.liveOutRegs[1..] && t.args == s.args && t.doneGuarding == s.doneGuarding
    && Now(t, g).mem == Now(s, g).mem
    && Now(t, g).loc(s.liveOutRegs[0]) == g.entry.loc(s.liveOutRegs[0])
    && (forall l {:trigger Get(Now(t, g), l)} :: l != s.liveOutRegs[0] ==> Get(Now(t, g), l) == Get(Now(s, g), l))
  }

  /** v is recorded in l in t, where s was at most extended with that. */
  ghost predicate Brought(s: RS.Rewriter, t: RS.Rewriter, g: Run, v: nat, l: Location) {
    && v in s.vars && v in t.vars && l in t.vars[v].locations
    && t.vars == s.vars[v := s.vars[v].(locations := s.vars[v].locations + {l})] && t.where == s.where[l := v]
    && (l in s.where ==> l in s.vars[v].locations)
    && t.liveOuts == s.liveOuts && t.liveOutRegs == s.liveOutRegs && t.args == s.args && t.doneGuarding == s.doneGuarding
    && Now(t, g).mem == Now(s, g).mem
    && (forall k {:trigger Get(Now(t, g), k)} :: k != l ==> Get(Now(t, g), k) == Get(Now(s, g), k))
  }

  lemma AddedPreserves(s: RS.Rewriter, v: nat, from: Location, to: Location)
    requires v in s.vars
    ensures Preserved(s, AddLocation(Emit(s, Move(Loc(from), to)), v, to), {})
  {}

  lemma InRegisterCopied(s: RS.Rewriter, t: RS.Rewriter, g: Run, v: nat, reg: nat)
    requires Ok(s, g) && Ok(t, g) && InRegister(s, t, g, v, reg) && v in s.vars && Register(reg) !in s.where
    ensures Brought(s, t, g, v, Register(reg))
  {
    hide Ok, Now;
    InRegisterHolds(s, t, g, v, reg);
    var u := s.vars[v := s.vars[v].(locations := s.vars[v].locations + {Register(reg)})];
    forall x | x in s.vars ensures t.vars[x] == u[x] {
      assert t.vars[x].uses == s.vars[x].uses;
      assert s.vars[x].locations + {} == s.vars[x].locations;
      assert t.vars[x].locations == u[x].locations;
    }
    assert t.vars == u;
  }

  lemma CopiedRestores(s: RS.Rewriter, t: RS.Rewriter, g: Run, v: nat, l: Location)
    requires Copied(s, t, g, v, l)
    ensures Brought(s, t, g, v, l)
  {
    hide Now;
  }

  lemma StaysRestored(s: RS.Rewriter, g: Run, v: nat, l: Location)
    requires Ok(s, g) && v in s.vars && l in s.vars[v].locations
    ensures Brought(s, s, g, v, l)
  {
    OkBooks(s, g);
    hide Ok, Now;
    assert s.vars[v].locations + {l} == s.vars[v].locations;
  }

  lemma RestoreDrops(s: RS.Rewriter, mid: RS.Rewriter, g: Run)
    requires Ok(s, g) && Located(s) && Ok(mid, g) && s.doneGuarding && s.liveOuts != [] && s.liveOutRegs != []
    requires s.liveOuts[0] in s.vars && s.vars[s.liveOuts[0]].uses == 1 && Brought(s, mid, g, s.liveOuts[0], s.liveOutRegs[0])
    ensures var t := DropLiveOut(mid); Ok(t, g) && Located(t) && Restored(s, t, g)
  {
    var v, l := s.liveOuts[0], s.liveOutRegs[0];
    var t := DropLiveOut(mid);
    DropLiveOutOk(mid, g);
    SameNow(mid, t, g);
    BroughtHolds(s, mid, g);
    OkJustBooks(s, g);
    hide Ok, Now;
    BroughtDrops(s, mid, g, t);
  }

  /** Bringing a dying variable somewhere and erasing it is just erasing it. */
  lemma BroughtDrops(s: RS.Rewriter, mid: RS.Rewriter, g: Run, t: RS.Rewriter)
    requires Books(s) && Located(s) && s.doneGuarding && s.liveOuts != [] && s.liveOutRegs != []
    requires s.liveOuts[0] in s.vars && s.vars[s.liveOuts[0]].uses == 1 && Brought(s, mid, g, s.liveOuts[0], s.liveOutRegs[0])
    requires t == DropLiveOut(mid)
    ensures t.where == s.where - s.vars[s.liveOuts[0]].locations && t.vars == s.vars - {s.liveOuts[0]} && Located(t)
  {
    hide Now;
    var v := s.liveOuts[0];
    assert t.where == s.where - s.vars[v].locations;
    assert t.vars == s.vars - {v};
  }

  lemma BroughtHolds(s: RS.Rewriter, mid: RS.Rewriter, g: Run)
    requires Ok(mid, g) && s.liveOuts != [] && s.liveOutRegs != [] && Brought(s, mid, g, s.liveOuts[0], s.liveOutRegs[0])
    ensures Now(mid, g).loc(s.liveOutRegs[0]) == g.entry.loc(s.liveOutRegs[0])
  {
    var v, l := s.liveOuts[0], s.liveOutRegs[0];
    OkBooks(mid, g);
    assert mid.where[l] == v && g.val[v] == g.entry.loc(l) && !l.Constant?;
  }

  lemma LiveOutsPaired(s: RS.Rewriter, g: Run)
    requires Ok(s, g)
    ensures |s.liveOuts| == |s.liveOutRegs| && forall l :: l in s.liveOutRegs ==> !l.Constant?
  {}

  /** With nothing held, a live-out's variable has that one use. */
  lemma FirstRestorable(s: RS.Rewriter, g: Run)
    requires Ok(s, g) && s.args == [] && g.held == multiset{} && AllRestorable(s) && s.liveOuts != []
    ensures s.liveOutRegs != [] && Restorable(s, s.liveOuts[0], s.liveOutRegs[0]) && s.vars[s.liveOuts[0]].uses == 1
  {
    var v := s.liveOuts[0];
    hide Books, Holds, StillEntered, Transparent, Restorable;
    assert s.liveOuts == [v] + s.liveOuts[1..];
    assert v !in s.liveOuts[1..];
    assert multiset(s.liveOuts)[v] == 1;
    assert Owners(s, g, v) == 1;
  }

  lemma RestoredOneMore(s0: RS.Rewriter, s: RS.Rewriter, t: RS.Rewriter, g: Run, i: nat)
    requires Ok(s, g) && Restored(s, t, g) && AllRestorable(s) && i < |s0.liveOutRegs| && s.liveOutRegs == s0.liveOutRegs[i..]
    requires forall l :: l in s0.liveOutRegs ==> !l.Constant?
    requires forall l :: l in s0.liveOutRegs[..i] ==> Now(s, g).loc(l) == g.entry.loc(l)
    requires forall l :: l !in s0.liveOutRegs[..i] ==> Get(Now(s, g), l) == Get(Now(s0, g), l)
    ensures Now(t, g).mem == Now(s, g).mem
    ensures AllRestorable(t) && t.liveOutRegs == s0.liveOutRegs[i + 1..] && |t.liveOuts| == |t.liveOutRegs| == |s.liveOuts| - 1
    ensures forall l :: l in s0.liveOutRegs[..i + 1] ==> Now(t, g).loc(l) == g.entry.loc(l)
    ensures forall l :: l !in s0.liveOutRegs[..i + 1] ==> Get(Now(t, g), l) == Get(Now(s0, g), l)
  {
    RestLaterRestorable(s, t, g);
    LiveOutsPaired(s, g);
    hide Ok, Now, AllRestorable, Restorable, Preserved;
    var done, l := s0.liveOutRegs[..i], s.liveOutRegs[0];
    assert l == s0.liveOutRegs[i] && s0.liveOutRegs[..i + 1] == done + [l];
    forall k | k in done + [l] ensures Now(t, g).loc(k) == g.entry.loc(k) {
      if k != l {
        assert Get(Now(t, g), k) == Get(Now(s, g), k);
        assert k in s0.liveOutRegs;
      }
    }
    forall k | k !in done + [l] ensures Get(Now(t, g), k) == Get(Now(s0, g), k) {
      assert k !in done && k != l;
    }
  }

  lemma RestLaterRestorable(s: RS.Rewriter, t: RS.Rewriter, g: Run)
    requires Restored(s, t, g) && AllRestorable(s)
    ensures AllRestorable(t)
  {
    hide Now, Restorable;
    SameRestorable(WithoutFirst(s), t);
  }

  lemma NoOwners(s: RS.Rewriter, g: Run)
    requires Ok(s, g) && s.args == [] && s.liveOuts == [] && g.held == multiset{}
    ensures s.vars == map[] && s.where == map[]
  {
    OkBooks(s, g);
    forall v ensures v !in s.vars { assert Owners(s, g, v) == 0; }
  }

  /** How a finished slot leaves: a miss finds the state as it was entered; past the end, the
      live-out registers are as on entry and the return register holds the result. */
  ghost predicate Committed(x: Exit, g: Run, regs: seq<Location>, ret: Location, result: int) {
    match x
    case Missed(m) => AsEntered(m, g)
    case PastEnd(m) => m.loc(ret) == result && forall l :: l in regs ==> m.loc(l) == g.entry.loc(l)
  }

  /** A run of the emitted code is a miss in the entry state, or it ends in the current state. */
  lemma RunOutcome(s: RS.Rewriter, g: Run)
    requires Ok(s, g)
    ensures match Machine.Run(g.callee, g.entry, s.code)
      case Missed(m) => AsEntered(m, g)
      case PastEnd(m) => m == Now(s, g)
  {
    hide Books, Uses, Holds, StillEntered, LiveValues, AsEntered, Through, RunFrom;
    NoCode(g.callee, g.entry, s.code);
    RunIsThrough(g.callee, g.entry, s.code, 0);
  }

  lemma NoCode(callee: Callee, entry: State, code: seq<Instr>)
    ensures Through(callee, entry, code[..0]) == entry
    ensures Machine.Run(callee, entry, code) == RunFrom(callee, entry, code, 0)
  {}

  lemma ReturnHeld(s: RS.Rewriter, g: Run, v: nat, reg: nat)
    requires Ok(s, g) && v in s.vars && Register(reg) in s.vars[v].locations
    ensures v in g.val && Get(Now(s, g), Register(reg)) == g.val[v]
  {
    OkBooks(s, g);
    hide Ok, Now;
  }

  /** Releasing a use keeps the machine as it is. */
  lemma ReleasedStays(s: RS.Rewriter, t: RS.Rewriter, g: Run, h: Run, v: nat)
    requires v in s.vars && t == DecUse(s, v) && h == g.(held := g.held - multiset{v})
    ensures Now(t, h) == Now(s, g) && t.args == s.args
  {
    KillKeepsNow(s, t, g, h, v);
  }

  lemma Leaves(s: RS.Rewriter, g: Run, regs: seq<Location>, ret: Location, result: int)
    requires Ok(s, g) && !ret.Constant? && Get(Now(s, g), ret) == result
    requires forall l :: l in regs ==> Now(s, g).loc(l) == g.entry.loc(l)
    ensures Committed(Machine.Run(g.callee, g.entry, s.code), g, regs, ret, result)
  {
    RunOutcome(s, g);
    hide Ok, Now, Machine.Run;
  }

  lemma CommittedSame(g: Run, h: Run, code: seq<Instr>, regs: seq<Location>, ret: Location, result: int)
    requires h == g.(held := h.held)
    requires Committed(Machine.Run(h.callee, h.entry, code), h, regs, ret, result)
    ensures Committed(Machine.Run(g.callee, g.entry, code), g, regs, ret, result)
  {}

  ghost function Entering(g: Run, v: nat, l: Location): Run
    requires !l.Constant?
  {
    g.(val := g.val[v := g.entry.loc(l)], kept := g.kept + {l})
  }

  /** What the constructor records for an argument, and for a live-out of its own. */
  ghost function EnterArg(s: RS.Rewriter, v: nat, l: Location): RS.Rewriter {
    NewVar(s, v, l).(args := s.args + [v])
  }

  ghost function EnterLiveOut(s: RS.Rewriter, v: nat, l: Location): RS.Rewriter {
    NewVar(s, v, l).(liveOuts := s.liveOuts + [v], liveOutRegs := s.liveOutRegs + [l])
  }

  ghost function ShareLiveOut(s: RS.Rewriter, l: Location): RS.Rewriter
    requires l in s.where && s.where[l] in s.vars
  {
    IncUse(s, s.where[l]).(liveOuts := s.liveOuts + [s.where[l]], liveOutRegs := s.liveOutRegs + [l])
  }

  ghost predicate OnEntry(s: RS.Rewriter) {
    !s.doneGuarding && s.code == []
  }

  /** On entry each variable is in one register, and a live-out's is its own. */
  ghost predicate OnePlace(s: RS.Rewriter) {
    forall l {:trigger l in s.where} :: l in s.where ==>
      s.where[l] in s.vars && s.vars[s.where[l]].locations == {l} && (s.where[l] in s.liveOuts ==> l in s.liveOutRegs)
  }

  /** The i-th variable is recorded in the i-th location. */
  predicate EnteredAt(where: map<Location, nat>, vs: seq<nat>, ls: seq<Location>) {
    |vs| == |ls| && forall i {:trigger vs[i]} {:trigger ls[i]} :: 0 <= i < |ls| ==> ls[i] in where && where[ls[i]] == vs[i]
  }

  lemma NoneEnteredAt(where: map<Location, nat>)
    ensures EnteredAt(where, [], [])
  {}

  lemma MoreEnteredAt(where: map<Location, nat>, after: map<Location, nat>, vs: seq<nat>, ls: seq<Location>, l: Location)
    requires EnteredAt(where, vs, ls) && l in after
    requires where == after || (after == where[l := after[l]] && l !in where)
    ensures EnteredAt(after, vs, ls) && EnteredAt(after, vs + [after[l]], ls + [l])
  {}

  /** Where the arguments arrive. */
  function ForArgs(): seq<Location> {
    seq(|ARG_REGS|, i requires 0 <= i < |ARG_REGS| => ForArg(i))
  }

  lemma ForArgsAt(i: nat)
    requires i < |ARG_REGS|
    ensures |ForArgs()| == |ARG_REGS| && ForArgs()[i] == ForArg(i)
    ensures ForArgs()[..i + 1] == ForArgs()[..i] + [ForArg(i)]
  {}

  /** Each argument's variable stands for what its register holds on entry, and a miss keeps that. */
  ghost predicate ArgsEntered(args: seq<nat>, g: Run, n: nat)
    requires n <= |ARG_REGS|
  {
    |args| == n && forall i {:trigger args[i]} :: 0 <= i < n ==>
      args[i] in g.val && g.val[args[i]] == g.entry.loc(ForArg(i)) && ForArg(i) in g.kept
  }

  ghost predicate ArgsAhead(where: map<Location, nat>, n: nat) {
    forall i :: n <= i < |ARG_REGS| ==> ForArg(i) !in where
  }

  lemma NoneEntered(args: seq<nat>, where: map<Location, nat>, g: Run)
    requires args == [] && where == map[]
    ensures ArgsEntered(args, g, 0) && ArgsAhead(where, 0)
    ensures |ForArgs()| == |ARG_REGS| && EnteredAt(where, args, ForArgs()[..0])
  {}

  lemma NextArg(args: seq<nat>, where: map<Location, nat>, g: Run, v: nat, i: nat)
    requires i < |ARG_REGS| && ArgsEntered(args, g, i) && ArgsAhead(where, i) && v !in g.val
    ensures ForArg(i) !in where && ArgsAhead(where[ForArg(i) := v], i + 1)
    ensures ArgsEntered(args + [v], Entering(g, v, ForArg(i)), i + 1)
  {}

  lemma MoreEntered(args: seq<nat>, g: Run, h: Run, n: nat)
    requires n <= |ARG_REGS| && ArgsEntered(args, g, n) && h.entry == g.entry && g.kept <= h.kept
    requires forall v :: v in g.val ==> v in h.val && h.val[v] == g.val[v]
    ensures ArgsEntered(args, h, n)
  {}

  lemma ShareIs(s: RS.Rewriter, l: Location)
    requires l in s.where && s.where[l] in s.vars
    ensures var v := s.where[l]; ShareLiveOut(s, l) == s.(vars := s.vars[v := s.vars[v].(uses := s.vars[v].uses + 1)],
      liveOuts := s.liveOuts + [v], liveOutRegs := s.liveOutRegs + [l])
  {}

  lemma EnterIs(s: RS.Rewriter, g: Run, v: nat, l: Location)
    requires !l.Constant?
    ensures EnterLiveOut(s, v, l) == s.(where := s.where[l := v], vars := s.vars[v := Var({l}, 1)],
      liveOuts := s.liveOuts + [v], liveOutRegs := s.liveOutRegs + [l])
    ensures Entering(g, v, l) == g.(val := g.val[v := g.entry.loc(l)], kept := g.kept + {l})
  {}

  lemma OnePlaceShared(s: RS.Rewriter, l: Location)
    requires OnePlace(s) && l in s.where && l !in s.liveOutRegs
    ensures s.where[l] in s.vars && s.where[l] !in s.liveOuts && OnePlace(ShareLiveOut(s, l))
  {}

  lemma EntersOnePlace(s: RS.Rewriter, g: Run, v: nat, l: Location)
    requires Ok(s, g) && OnePlace(s) && v !in g.val && l !in s.where
    ensures OnePlace(EnterArg(s, v, l)) && OnePlace(EnterLiveOut(s, v, l))
  {
    FreshVar(s, g, v);
    hide Ok, Books;
    FreshOnePlace(s, v, l);
  }

  lemma FreshOnePlace(s: RS.Rewriter, v: nat, l: Location)
    requires OnePlace(s) && v !in s.vars && v !in s.liveOuts && l !in s.where
    ensures OnePlace(EnterArg(s, v, l)) && OnePlace(EnterLiveOut(s, v, l))
  {}

  lemma EmptyOk(s: RS.Rewriter, g: Run)
    requires s.where == map[] && s.vars == map[] && OnEntry(s) && s.args == [] && s.liveOuts == [] && s.liveOutRegs == []
    requires g.held == multiset{} && g.kept == {}
    ensures Ok(s, g) && Located(s) && OnePlace(s)
  {
    assert Uses(s, g) by {
      forall v: nat ensures Owners(s, g, v) == 0 {}
    }
  }

  lemma FreshVar(s: RS.Rewriter, g: Run, v: nat)
    requires Ok(s, g) && v !in g.val
    ensures v !in s.vars && v !in s.args && v !in s.liveOuts && Books(s)
  {
    OkBooks(s, g);
    assert Owners(s, g, v) == 0;
  }

  lemma EntersLocated(s: RS.Rewriter, v: nat, l: Location)
    requires Located(s) && Books(s) && v !in s.vars && (l.Register? || l.Xmm?) && l.reg < 16 && l !in s.where
    ensures Located(NewVar(s, v, l))
  {}

  lemma EntersUses(s: RS.Rewriter, t: RS.Rewriter, g: Run, h: Run, v: nat, l: Location)
    requires Uses(s, g) && v !in s.vars && t.vars == s.vars[v := Var({l}, 1)] && h.held == g.held
    requires (t.args == s.args + [v] && t.liveOuts == s.liveOuts) || (t.args == s.args && t.liveOuts == s.liveOuts + [v])
    ensures Uses(t, h)
  {
    assert Owners(s, g, v) == 0;
    forall y: nat ensures (y in t.vars <==> Owners(t, h, y) > 0) && (y in t.vars ==> t.vars[y].uses == Owners(t, h, y)) {
      assert Owners(t, h, y) == Owners(s, g, y) + if y == v then 1 else 0;
    }
  }

  lemma EntersKeeps(s: RS.Rewriter, t: RS.Rewriter, g: Run, v: nat, l: Location)
    requires Ok(s, g) && OnEntry(s) && v !in s.vars && v !in g.val && l !in s.where && (l.Register? || l.Xmm?)
    requires t.where == s.where[l := v] && t.vars == s.vars[v := Var({l}, 1)] && OnEntry(t)
    requires (t.args == s.args + [v] && t.liveOuts == s.liveOuts) || (t.args == s.args && t.liveOuts == s.liveOuts + [v])
    ensures Books(t) && Uses(t, Entering(g, v, l)) && Holds(t, Entering(g, v, l))
    ensures StillEntered(t, Entering(g, v, l)) && Transparent(t, Entering(g, v, l))
  {
    var h := Entering(g, v, l);
    assert Books(t) by { NewVarBooks(s, v, l); }
    assert Uses(t, h) by { EntersUses(s, t, g, h, v, l); }
    hide Uses, Transparent;
    assert Transparent(t, h) by { NoGuards(t, h); }
    assert Now(t, h) == h.entry && Now(s, g) == g.entry;
  }

  lemma NoGuards(s: RS.Rewriter, g: Run)
    requires s.code == []
    ensures Transparent(s, g)
  {}

  lemma EntersOk(s: RS.Rewriter, g: Run, v: nat, l: Location)
    requires Ok(s, g) && OnEntry(s) && v !in s.vars && v !in g.val && l !in s.where && (l.Register? || l.Xmm?)
    ensures Ok(EnterArg(s, v, l), Entering(g, v, l))
  {
    EntersKeeps(s, EnterArg(s, v, l), g, v, l);
    hide Books, Uses, Holds, StillEntered, Transparent;
  }

  lemma LiveOutOk(s: RS.Rewriter, g: Run, v: nat, l: Location)
    requires Ok(s, g) && OnEntry(s) && v !in s.vars && v !in g.val && l !in s.where && (l.Register? || l.Xmm?)
    requires l !in s.liveOutRegs && v !in s.liveOuts
    ensures Ok(EnterLiveOut(s, v, l), Entering(g, v, l))
  {
    EntersKeeps(s, EnterLiveOut(s, v, l), g, v, l);
    hide Books, Uses, Holds, StillEntered, Transparent;
  }

  lemma SharedOk(s: RS.Rewriter, g: Run, l: Location)
    requires Ok(s, g) && OnEntry(s) && l in s.where && s.where[l] in s.vars && (l.Register? || l.Xmm?)
    requires l !in s.liveOutRegs && s.where[l] !in s.liveOuts
    ensures Ok(ShareLiveOut(s, l), g.(kept := g.kept + {l}))
  {
    var t, h := ShareLiveOut(s, l), g.(kept := g.kept + {l});
    SharedUses(s, g, h, l);
    hide Uses;
    SharedKeeps(s, g, l);
    hide Books, Holds, StillEntered, Transparent;
    NoGuards(t, h);
  }

  lemma SharedUses(s: RS.Rewriter, g: Run, h: Run, l: Location)
    requires Uses(s, g) && l in s.where && s.where[l] in s.vars && h.held == g.held
    ensures Uses(ShareLiveOut(s, l), h)
  {
    var v, t := s.where[l], ShareLiveOut(s, l);
    forall y: nat ensures (y in t.vars <==> Owners(t, h, y) > 0) && (y in t.vars ==> t.vars[y].uses == Owners(t, h, y)) {
      assert Owners(t, h, y) == Owners(s, g, y) + if y == v then 1 else 0;
      assert Owners(s, g, v) > 0;
    }
  }

  lemma SharedKeeps(s: RS.Rewriter, g: Run, l: Location)
    requires Books(s) && Holds(s, g) && StillEntered(s, g) && OnEntry(s) && l in s.where && s.where[l] in s.vars && (l.Register? || l.Xmm?)
    ensures var t, h := ShareLiveOut(s, l), g.(kept := g.kept + {l}); Books(t) && Holds(t, h) && StillEntered(t, h)
  {
    var t, h := ShareLiveOut(s, l), g.(kept := g.kept + {l});
    assert Now(t, h) == h.entry && Now(s, g) == g.entry;
  }

  lemma SharedLocated(s: RS.Rewriter, l: Location)
    requires Located(s) && l in s.where && s.where[l] in s.vars
    ensures Located(ShareLiveOut(s, l))
  {}
}
