/** Whole inline-cache slots, written with the operations of Rewriter2 one after the other: what a
    run of the finished code does, from any state it is entered in. */
module RewriterSlots {
  import opened Results
  import opened Machine
  import RS = RewriterState
  import opened RewriterState
  import opened Rewriter

  /** One attribute a slot checks before it commits itself. */
  datatype AttrGuard = AttrGuard(arg: nat, offset: int, val: int)

  predicate GuardsArgs(guards: seq<AttrGuard>, n: nat) {
    forall k :: 0 <= k < |guards| ==> guards[k].arg < n
  }

  /** The registers a patchpoint may want back, none of them the one the result is returned in. */
  predicate LiveOutRegs(outs: seq<Location>) {
    && (forall l {:trigger l in outs} :: l in outs ==> (l.Register? || l.Xmm?) && l.reg < 16 && l != Register(RAX))
    && forall i, j :: 0 <= i < j < |outs| ==> outs[i] != outs[j]
  }

  /** Every guarded attribute of the arguments has the expected value. */
  ghost predicate Passes(m: State, guards: seq<AttrGuard>)
    requires GuardsArgs(guards, |ARG_REGS|)
  {
    forall k {:trigger guards[k]} :: 0 <= k < |guards| ==> GuardHolds(m, guards[k])
  }

  ghost predicate GuardHolds(m: State, guard: AttrGuard)
    requires guard.arg < |ARG_REGS|
  {
    m.mem(m.loc(ForArg(guard.arg)) + guard.offset) == guard.val
  }

  /** Memory, scratch slots, arguments and live-out registers are as in the entry state. */
  ghost predicate Untouched(m: State, entry: State, n: nat, outs: seq<Location>)
    requires n <= |ARG_REGS|
  {
    && m.mem == entry.mem && (forall o :: m.loc(Scratch(o)) == entry.loc(Scratch(o)))
    && (forall i :: 0 <= i < n ==> m.loc(ForArg(i)) == entry.loc(ForArg(i)))
    && forall l :: l in outs ==> m.loc(l) == entry.loc(l)
  }

  /** What the callee finds. */
  ghost predicate CalledWith(c: State, entry: State, func: int, n: nat)
    requires n <= |ARG_REGS|
  {
    c.mem == entry.mem && c.loc(Register(R11)) == func && forall i :: 0 <= i < n ==> c.loc(ForArg(i)) == entry.loc(ForArg(i))
  }

  /** What is left when the slot is done: the callee's memory and result, and the live-outs. */
  ghost predicate Returns(m: State, after: State, entry: State, outs: seq<Location>) {
    m.mem == after.mem && m.loc(Register(RAX)) == after.loc(Register(RAX)) && forall l :: l in outs ==> m.loc(l) == entry.loc(l)
  }

  // ---- when a run is missed ---------------------------------------------------------------

  /** Some guard of the code fails in the state the code before it leads to. */
  ghost predicate Misses(callee: Callee, entry: State, code: seq<Instr>) {
    exists k: nat {:trigger code[k]} :: k < |code| && Fails(Through(callee, entry, code[..k]), code[k])
  }

  lemma {:induction false} MissesFrom(callee: Callee, entry: State, code: seq<Instr>, k: nat)
    requires k <= |code|
    ensures RunFrom(callee, Through(callee, entry, code[..k]), code, k).Missed? <==>
      exists j: nat {:trigger code[j]} :: k <= j < |code| && Fails(Through(callee, entry, code[..j]), code[j])
    decreases |code| - k
  {
    hide Fails, Machine.Step, Through;
    if k < |code| && !Fails(Through(callee, entry, code[..k]), code[k]) {
      assert code[..k + 1] == code[..k] + [code[k]];
      ThroughSnoc(callee, entry, code[..k], code[k]);
      MissesFrom(callee, entry, code, k + 1);
    }
  }

  /** A run is missed exactly when a guard fails; otherwise it falls through everything. */
  lemma RunMisses(callee: Callee, entry: State, code: seq<Instr>)
    ensures Machine.Run(callee, entry, code).Missed? <==> Misses(callee, entry, code)
    ensures Machine.Run(callee, entry, code).PastEnd? ==> Machine.Run(callee, entry, code).m == Through(callee, entry, code)
  {
    NoCode(callee, entry, code);
    MissesFrom(callee, entry, code, 0);
    RunIsThrough(callee, entry, code, 0);
  }

  lemma GrowsMisses(callee: Callee, entry: State, a: seq<Instr>, b: seq<Instr>)
    requires Grows(a, b)
    ensures Misses(callee, entry, a) <==> Misses(callee, entry, b)
  {
    forall k: nat | k < |a| ensures a[..k] == b[..k] && a[k] == b[k] {}
    if Misses(callee, entry, a) {
      var k: nat :| k < |a| && Fails(Through(callee, entry, a[..k]), a[k]);
      assert b[..k] == a[..k] && b[k] == a[k];
    }
    if Misses(callee, entry, b) {
      var k: nat :| k < |b| && Fails(Through(callee, entry, b[..k]), b[k]);
      assert b[k].Guard? && k < |a| && b[..k] == a[..k] && b[k] == a[k];
    }
  }

  lemma GuardMisses(callee: Callee, entry: State, a: seq<Instr>, b: seq<Instr>)
    requires b != [] && b[|b| - 1].Guard? && Grows(a, b[..|b| - 1])
    ensures Misses(callee, entry, b) <==> Misses(callee, entry, a) || Fails(Through(callee, entry, b), b[|b| - 1])
  {
    var c := b[..|b| - 1];
    GrowsMisses(callee, entry, a, c);
    assert Through(callee, entry, b) == Through(callee, entry, c);
    hide Through, Fails, Grows;
    assert b == c + [b[|b| - 1]];
    OneMore(callee, entry, c, b[|b| - 1]);
  }

  lemma OneMore(callee: Callee, entry: State, code: seq<Instr>, i: Instr)
    ensures Misses(callee, entry, code + [i]) <==> Misses(callee, entry, code) || Fails(Through(callee, entry, code), i)
  {
    hide Through, Fails;
    var b := code + [i];
    assert forall k: nat :: k <= |code| ==> b[..k] == code[..k];
    assert b[..|code|] == code && b[|code|] == i;
    if Misses(callee, entry, code) {
      var k: nat :| k < |code| && Fails(Through(callee, entry, code[..k]), code[k]);
      assert b[k] == code[k];
    }
  }

  // ---- the stages of a slot ---------------------------------------------------------------

  /** What a miss must find untouched is all that the slot was entered with. */
  ghost predicate Keeps(g: Run, n: nat, outs: seq<Location>, callee: Callee, entry: State)
    requires n <= |ARG_REGS|
  {
    && g.callee == callee && g.entry == entry
    && (forall i :: 0 <= i < n ==> ForArg(i) in g.kept) && forall l :: l in outs ==> l in g.kept
  }

  predicate Only(s: RS.Rewriter, v: nat, l: Location) {
    v in s.vars && s.vars[v].locations == {l}
  }

  ghost predicate ArgsIn(s: RS.Rewriter, g: Run, vs: seq<nat>, n: nat)
    requires n <= |ARG_REGS|
  {
    |vs| == n && forall i {:trigger vs[i]} :: 0 <= i < n ==>
      Only(s, vs[i], ForArg(i)) && vs[i] in g.val && g.val[vs[i]] == g.entry.loc(ForArg(i))
  }

  predicate OutsIn(s: RS.Rewriter, outs: seq<Location>) {
    && |s.liveOuts| == |outs| && s.liveOutRegs == outs
    && forall j {:trigger s.liveOuts[j]} :: 0 <= j < |outs| ==> Only(s, s.liveOuts[j], outs[j])
  }

  /** While guards are being written: everything is where it was on entry. */
  ghost predicate Entered(s: RS.Rewriter, g: Run, n: nat, outs: seq<Location>, callee: Callee, entry: State)
    requires n <= |ARG_REGS|
  {
    && Keeps(g, n, outs, callee, entry) && !s.doneGuarding && NoConstants(s) && ArgsIn(s, g, s.args, n) && OutsIn(s, outs)
  }

  /** After the guards: the arguments are held by the client only. */
  ghost predicate Guarded(s: RS.Rewriter, g: Run, vs: seq<nat>, n: nat, outs: seq<Location>, callee: Callee, entry: State)
    requires n <= |ARG_REGS|
  {
    && Keeps(g, n, outs, callee, entry) && s.doneGuarding && s.args == [] && g.held == multiset(vs) && NoConstants(s)
    && ArgsIn(s, g, vs, n) && OutsIn(s, outs)
  }

  /** After the call: its result x is in RAX, and the live-outs can be restored. */
  ghost predicate Returning(s: RS.Rewriter, g: Run, x: nat, n: nat, outs: seq<Location>, callee: Callee, entry: State, func: int)
    requires n <= |ARG_REGS|
  {
    && Keeps(g, n, outs, callee, entry) && s.doneGuarding && s.args == [] && g.held == multiset{x} && s.liveOutRegs == outs
    && x in s.vars && Register(RAX) in s.vars[x].locations && AllRestorable(DecUse(s, x)) && x in g.val
    && exists k: nat, c {:trigger callee(k, c)} ::
         CalledWith(c, entry, func, n) && Now(s, g).mem == callee(k, c).mem && g.val[x] == callee(k, c).loc(Register(RAX))
  }

  lemma EntersHere(s: RS.Rewriter, g: Run, n: nat, outs: seq<Location>, callee: Callee, entry: State)
    requires n <= |ARG_REGS| && OnEntry(s) && ArgsEntered(s.args, g, n) && s.liveOutRegs == outs && |s.liveOuts| == |outs|
    requires OnePlace(s) && EnteredAt(s.where, s.args, ForArgs()[..n]) && EnteredAt(s.where, s.liveOuts, outs)
    requires g.callee == callee && g.entry == entry && forall l :: l in outs ==> l in g.kept
    requires forall l :: l in s.where ==> l in ForArgs()[..n] || l in outs
    requires LiveOutRegs(outs)
    ensures Entered(s, g, n, outs, callee, entry)
  {
    forall i | 0 <= i < n
      ensures Only(s, s.args[i], ForArg(i)) && s.args[i] in g.val && g.val[s.args[i]] == g.entry.loc(ForArg(i)) && ForArg(i) in g.kept
    {
      assert ForArgs()[..n][i] == ForArg(i);
    }
    forall j | 0 <= j < |outs| ensures Only(s, s.liveOuts[j], outs[j]) { assert outs[j] in s.where; }
  }

  lemma StaysEntered(s: RS.Rewriter, t: RS.Rewriter, g: Run, h: Run, n: nat, outs: seq<Location>, callee: Callee, entry: State)
    requires n <= |ARG_REGS| && Entered(s, g, n, outs, callee, entry) && t.where == s.where && !t.doneGuarding
    requires forall v :: v in s.vars ==> v in t.vars && t.vars[v].locations == s.vars[v].locations
    requires t.args == s.args && t.liveOuts == s.liveOuts && t.liveOutRegs == s.liveOutRegs && h == g.(held := h.held)
    ensures Entered(t, h, n, outs, callee, entry)
  {}

  /** getArg for every argument. */
  method TakeArgs(rw: Rewriter2, n: nat, outs: seq<Location>, ghost callee: Callee, ghost entry: State) returns (vs: seq<nat>)
    requires n <= |ARG_REGS| && rw.Valid() && Entered(rw.St(), rw.g, n, outs, callee, entry) && rw.g.held == multiset{}
    modifies rw`vars, rw`g
    ensures rw.Valid() && Entered(rw.St(), rw.g, n, outs, callee, entry) && rw.g.held == multiset(vs) && vs == rw.args
  {
    hide Entered, Ok, Located;
    vs := [];
    ArgCount(rw.St(), rw.g, n, outs, callee, entry);
    for i := 0 to n
      invariant rw.Valid() && Entered(rw.St(), rw.g, n, outs, callee, entry) && !rw.doneGuarding
      invariant vs == rw.args[..i] && rw.g.held == multiset(vs)
    {
      ghost var s, h := rw.St(), rw.g;
      var v := rw.GetArg(i);
      StaysEntered(s, rw.St(), h, rw.g, n, outs, callee, entry);
      vs := vs + [v];
    }
  }

  lemma ArgCount(s: RS.Rewriter, g: Run, n: nat, outs: seq<Location>, callee: Callee, entry: State)
    requires n <= |ARG_REGS| && Entered(s, g, n, outs, callee, entry)
    ensures |s.args| == n && !s.doneGuarding && g.callee == callee && g.entry == entry
  {}

  /** addAttrGuard for every guard: the code is missed exactly when one of them does not hold. */
  method AddGuards(rw: Rewriter2, vs: seq<nat>, guards: seq<AttrGuard>, n: nat, outs: seq<Location>, ghost callee: Callee, ghost entry: State)
      returns (r: Result<()>)
    requires n <= |ARG_REGS| && GuardsArgs(guards, n) && rw.Valid() && Entered(rw.St(), rw.g, n, outs, callee, entry)
    requires vs == rw.args && rw.g.held == multiset(vs) && rw.code == []
    modifies rw`where, rw`vars, rw`code
    ensures r.Done? ==> rw.Valid() && Entered(rw.St(), rw.g, n, outs, callee, entry)
    ensures r.Done? ==> (Misses(callee, entry, rw.code) <==> !Passes(entry, guards))
  {
    hide Entered, Ok, Located, Misses, Passes, Now, GuardHolds, Grows;
    ArgCount(rw.St(), rw.g, n, outs, callee, entry);
    assert !Misses(callee, entry, rw.code) && Passes(entry, guards[..0]) by { NothingMisses(callee, entry, guards); }
    for k := 0 to |guards|
      invariant rw.Valid() && Entered(rw.St(), rw.g, n, outs, callee, entry)
      invariant rw.g.callee == callee && rw.g.entry == entry && !rw.doneGuarding
      invariant Misses(callee, entry, rw.code) <==> !Passes(entry, guards[..k])
    {
      ghost var s := rw.St();
      var guard := guards[k];
      var v := vs[guard.arg];
      ArgReadable(s, rw.g, n, outs, callee, entry, guard.arg);
      var _ :- rw.AddAttrGuard(v, guard.offset, guard.val);
      StaysEntered(s, rw.St(), rw.g, rw.g, n, outs, callee, entry);
      GuardMisses(callee, entry, s.code, rw.code);
      LastFails(rw.St(), rw.g, v, guard);
      OneGuardMore(entry, guards, k);
    }
    assert guards[..|guards|] == guards;
    return Done(());
  }

  lemma NothingMisses(callee: Callee, entry: State, guards: seq<AttrGuard>)
    requires GuardsArgs(guards, |ARG_REGS|)
    ensures !Misses(callee, entry, []) && Passes(entry, guards[..0])
  {}

  lemma OneGuardMore(entry: State, guards: seq<AttrGuard>, k: nat)
    requires GuardsArgs(guards, |ARG_REGS|) && k < |guards|
    ensures Passes(entry, guards[..k + 1]) <==> Passes(entry, guards[..k]) && GuardHolds(entry, guards[k])
  {
    var a, b := guards[..k], guards[..k + 1];
    assert b == a + [guards[k]];
    if Passes(entry, b) {
      assert GuardHolds(entry, b[k]);
      forall i | 0 <= i < |a| ensures GuardHolds(entry, a[i]) { assert b[i] == a[i]; }
    }
  }

  lemma ArgReadable(s: RS.Rewriter, g: Run, n: nat, outs: seq<Location>, callee: Callee, entry: State, i: nat)
    requires n <= |ARG_REGS| && Entered(s, g, n, outs, callee, entry) && i < n
    ensures Readable(s, s.args[i]) && s.args[i] in multiset(s.args)
    ensures s.args[i] in g.val && g.val[s.args[i]] == entry.loc(ForArg(i))
  {
    assert Only(s, s.args[i], ForArg(i));
    assert ForArg(i) in s.vars[s.args[i]].locations;
  }

  /** Before guarding is done, memory is as it was entered. */
  lemma LastFails(s: RS.Rewriter, g: Run, v: nat, guard: AttrGuard)
    requires Ok(s, g) && !s.doneGuarding && v in g.val && guard.arg < |ARG_REGS| && g.val[v] == g.entry.loc(ForArg(guard.arg))
    ensures Now(s, g) == Through(g.callee, g.entry, s.code) && Now(s, g).mem == g.entry.mem
    ensures Now(s, g).mem(g.val[v] + guard.offset) != guard.val <==> !GuardHolds(g.entry, guard)
  {}

  /** What a run of a finished slot does: it is missed with nothing touched when some guarded
      attribute differs; otherwise the callee has run once, and its result is left. */
  ghost predicate Finished(callee: Callee, entry: State, code: seq<Instr>, guards: seq<AttrGuard>, n: nat, outs: seq<Location>, func: int)
    requires n <= |ARG_REGS| && GuardsArgs(guards, n)
  {
    && (!Passes(entry, guards) ==>
          exists m :: Machine.Run(callee, entry, code) == Missed(m) && Untouched(m, entry, n, outs))
    && (Passes(entry, guards) ==>
          exists m, k: nat, c {:trigger callee(k, c), Machine.Exit.PastEnd(m)} ::
            && Machine.Run(callee, entry, code) == PastEnd(m)
            && CalledWith(c, entry, func, n) && Returns(m, callee(k, c), entry, outs))
  }

  /** A slot that checks attributes of its arguments and then calls a function with all of them. It
      is missed, with nothing touched, exactly when some attribute differs; otherwise the function
      has been called once, in the memory and with the arguments the slot was entered with, its
      result and memory are what is left, and every live-out register is as it was. */
  method GuardedCall(numArgs: nat, outs: seq<Location>, guards: seq<AttrGuard>, func: int, scratchBytes: nat,
                     ghost callee: Callee, ghost entry: State)
      returns (r: Result<seq<Instr>>)
    requires numArgs <= |ARG_REGS| && LiveOutRegs(outs) && GuardsArgs(guards, numArgs)
    ensures r.Done? ==> Finished(callee, entry, r.value, guards, numArgs, outs, func)
  {
    hide Entered, Guarded, Ok, Located, Now, Misses, Passes, Released, Finished, ArgsEntered, OnePlace, EnteredAt, ForArgs;
    var rw := new Rewriter2(numArgs, outs, RAX, scratchBytes, callee, entry);
    EntersHere(rw.St(), rw.g, numArgs, outs, callee, entry);
    var vs := TakeArgs(rw, numArgs, outs, callee, entry);
    var _ :- AddGuards(rw, vs, guards, numArgs, outs, callee, entry);
    ghost var s := rw.St();
    rw.SetDoneGuarding();
    GuardingDone(s, rw.St(), rw.g, vs, numArgs, outs, callee, entry);
    EntryMemory(s, rw.St(), rw.g, numArgs, outs, callee, entry);
    var _ :- FinishSlot(rw, vs, guards, numArgs, outs, func, callee, entry);
    return Done(rw.code);
  }

  /** The rest of the slot: the call, and committing with its result. */
  method FinishSlot(rw: Rewriter2, vs: seq<nat>, guards: seq<AttrGuard>, n: nat, outs: seq<Location>, func: int,
                    ghost callee: Callee, ghost entry: State)
      returns (r: Result<()>)
    requires n <= |ARG_REGS| && LiveOutRegs(outs) && GuardsArgs(guards, n) && rw.Valid() && rw.returnReg == RAX
    requires Guarded(rw.St(), rw.g, vs, n, outs, callee, entry) && Now(rw.St(), rw.g).mem == entry.mem
    requires Misses(callee, entry, rw.code) <==> !Passes(entry, guards)
    modifies rw
    ensures r.Done? ==> Finished(callee, entry, rw.code, guards, n, outs, func)
  {
    hide Guarded, Ok, Located, Now, Misses, Ready, AfterTheCall, AllRestorable, Returning, Passes, Committed,
      AtCall, Through, LiveOutRegs, Finished, Grows, Machine.Run, Clobbered;
    ghost var s1, g1 := rw.St(), rw.g;
    ArgsReady(s1, g1, vs, n, outs, callee, entry);
    var x :- rw.Call(func, vs);
    CallReturns(s1, rw.St(), g1, rw.g, vs, x, n, outs, callee, entry, func);
    ghost var s2, g2 := rw.St(), rw.g;
    ReturnReady(s2, g2, x, n, outs, callee, entry, func);
    var _ :- rw.CommitReturning(x);
    GrowsMisses(callee, entry, s1.code, s2.code);
    GrowsMisses(callee, entry, s2.code, rw.code);
    CodeRuns(rw.St(), rw.g);
    SlotRuns(s2, rw.code, g2, guards, x, n, outs, callee, entry, func);
    return Done(());
  }

  lemma GuardingDone(s: RS.Rewriter, t: RS.Rewriter, g: Run, vs: seq<nat>, n: nat, outs: seq<Location>, callee: Callee, entry: State)
    requires n <= |ARG_REGS| && Entered(s, g, n, outs, callee, entry) && vs == s.args && g.held == multiset(vs)
    requires Released(s, t) && t.doneGuarding && t.args == [] && t.liveOuts == s.liveOuts && t.liveOutRegs == s.liveOutRegs
    requires forall v :: v in g.held || v in t.liveOuts ==> v in t.vars
    ensures Guarded(t, g, vs, n, outs, callee, entry)
  {
    forall i | 0 <= i < n ensures Only(t, vs[i], ForArg(i)) { assert vs[i] in g.held; assert Only(s, vs[i], ForArg(i)); }
    forall j | 0 <= j < |outs| ensures Only(t, t.liveOuts[j], outs[j]) {
      assert t.liveOuts[j] in t.liveOuts;
      assert Only(s, s.liveOuts[j], outs[j]);
    }
  }

  lemma EntryMemory(s: RS.Rewriter, t: RS.Rewriter, g: Run, n: nat, outs: seq<Location>, callee: Callee, entry: State)
    requires n <= |ARG_REGS| && Entered(s, g, n, outs, callee, entry) && Ok(s, g) && t.code == s.code
    ensures Now(t, g).mem == entry.mem
  {
    SameNow(s, t, g);
  }

  lemma ReturnReady(s: RS.Rewriter, g: Run, x: nat, n: nat, outs: seq<Location>, callee: Callee, entry: State, func: int)
    requires n <= |ARG_REGS| && Returning(s, g, x, n, outs, callee, entry, func)
    ensures s.doneGuarding && s.args == [] && g.held == multiset{x} && x in s.vars && s.liveOutRegs == outs && x in g.val
    ensures Register(RAX) in s.vars[x].locations && AllRestorable(DecUse(s, x)) && g.callee == callee && g.entry == entry
  {}

  lemma CodeRuns(s: RS.Rewriter, g: Run)
    ensures Now(s, g) == Through(g.callee, g.entry, s.code)
  {}

  lemma ArgsReady(s: RS.Rewriter, g: Run, vs: seq<nat>, n: nat, outs: seq<Location>, callee: Callee, entry: State)
    requires n <= |ARG_REGS| && Guarded(s, g, vs, n, outs, callee, entry)
    ensures s.doneGuarding && |vs| == n && Ready(s, g, vs, 0)
  {
    assert vs[0..] == vs;
    forall i | 0 <= i < n ensures AtOrConstant(s, vs[i], ForArg(i)) { assert Only(s, vs[i], ForArg(i)); }
  }

  lemma CallReturns(s: RS.Rewriter, t: RS.Rewriter, g: Run, h: Run, vs: seq<nat>, x: nat, n: nat, outs: seq<Location>,
                    callee: Callee, entry: State, func: int)
    requires n <= |ARG_REGS| && LiveOutRegs(outs) && Guarded(s, g, vs, n, outs, callee, entry) && Now(s, g).mem == entry.mem
    requires AfterTheCall(s, t, x) && x !in g.val && Ok(s, g) && Ok(t, h) && t.doneGuarding
    requires t.args == s.args && t.liveOuts == s.liveOuts && t.liveOutRegs == s.liveOutRegs
    requires h == g.(held := g.held - multiset(vs) + multiset{x}, val := g.val[x := Get(Now(t, h), Register(RAX))])
    requires forall l :: l in t.where && Clobbered(l) ==> l == Register(RAX)
    requires t.code != [] && t.code[|t.code| - 1] == CallReg(Register(R11))
    requires AtCall(Through(h.callee, h.entry, t.code[..|t.code| - 1]), func, vs, g.val)
    requires Through(h.callee, h.entry, t.code[..|t.code| - 1]).mem == Now(s, g).mem
    ensures Returning(t, h, x, n, outs, callee, entry, func)
  {
    hide Ok, AfterTheCall, AllRestorable, Moves, Released, Through, Now;
    var k, c := |t.code| - 1, Through(h.callee, h.entry, t.code[..|t.code| - 1]);
    CallDone(t, h);
    OutsReturn(s, t, g, h, vs, x, n, outs, callee, entry);
    assert h.held == multiset{x};
    assert CalledWith(c, entry, func, n) by {
      forall i | 0 <= i < n ensures c.loc(ForArg(i)) == entry.loc(ForArg(i)) {
        assert vs[i] in g.val && g.val[vs[i]] == entry.loc(ForArg(i));
      }
    }
  }

  lemma CallDone(t: RS.Rewriter, h: Run)
    requires t.code != [] && t.code[|t.code| - 1].CallReg?
    ensures var c := Through(h.callee, h.entry, t.code[..|t.code| - 1]);
      Now(t, h).mem == h.callee(|t.code| - 1, c).mem && Get(Now(t, h), Register(RAX)) == h.callee(|t.code| - 1, c).loc(Register(RAX))
  {
    var k, c := |t.code| - 1, Through(h.callee, h.entry, t.code[..|t.code| - 1]);
    assert Now(t, h) == Machine.Step(h.callee, k, c, t.code[k]) by { NowIs(t, h); }
    R11Clobbered();
    assert Machine.Step(h.callee, k, c, t.code[k]) == AfterCall(c, h.callee(k, c));
    assert Now(t, h).mem == h.callee(k, c).mem;
  }

  lemma OutsReturn(s: RS.Rewriter, t: RS.Rewriter, g: Run, h: Run, vs: seq<nat>, x: nat, n: nat, outs: seq<Location>, callee: Callee, entry: State)
    requires n <= |ARG_REGS| && LiveOutRegs(outs) && Guarded(s, g, vs, n, outs, callee, entry)
    requires AfterTheCall(s, t, x) && x !in g.val && Ok(s, g) && Ok(t, h)
    requires t.liveOuts == s.liveOuts && t.liveOutRegs == s.liveOutRegs
    requires forall l :: l in t.where && Clobbered(l) ==> l == Register(RAX)
    ensures x in t.vars && Register(RAX) in t.vars[x].locations && AllRestorable(DecUse(t, x))
  {
    OkBooks(s, g);
    OkJustBooks(t, h);
    OwnersLive(t, h);
    OutsDiffer(s, g);
    ResultGoes(s, t, g, x);
    hide Ok, Now, Restorable, Moves, DecUse, AfterTheCall, Keeps;
    var u := DecUse(t, x);
    DecUseBooks(t, x);
    DecUseLists(t, x);
    forall j | 0 <= j < |u.liveOuts| && j < |u.liveOutRegs| ensures Restorable(u, u.liveOuts[j], u.liveOutRegs[j]) {
      var y := u.liveOuts[j];
      assert t.liveOuts[j] in t.liveOuts;
      assert Only(s, s.liveOuts[j], outs[j]);
      assert y in t.vars && y != x;
      assert outs[j] in outs;
      MovedRestorable(u, y, outs[j], s.vars[y].locations, t.vars[y].locations);
    }
    hide Books;
    EachThenAll(u);
  }

  /** Releasing the call's result empties RAX and leaves the other variables where they are. */
  lemma ResultGoes(s: RS.Rewriter, t: RS.Rewriter, g: Run, x: nat)
    requires AfterTheCall(s, t, x) && x !in g.val
    requires forall l :: l in t.where && Clobbered(l) ==> l == Register(RAX)
    ensures x in t.vars && Register(RAX) in t.vars[x].locations
    ensures forall l {:trigger l in DecUse(t, x).where} :: l in DecUse(t, x).where ==> !Clobbered(l)
    ensures forall y {:trigger t.vars[y]} :: y in t.vars && y != x ==>
      y in s.vars && Moves(s.vars[y].locations, t.vars[y].locations) && y in DecUse(t, x).vars && DecUse(t, x).vars[y] == t.vars[y]
  {
    hide Moves;
  }

  lemma OutsDiffer(s: RS.Rewriter, g: Run)
    requires Ok(s, g)
    ensures forall i, j :: 0 <= i < j < |s.liveOuts| ==> s.liveOuts[i] != s.liveOuts[j]
  {}

  /** A live-out that a call moved aside can come back: its register is free again. */
  lemma MovedRestorable(u: RS.Rewriter, y: nat, l: Location, a: set<Location>, b: set<Location>)
    requires y in u.vars && u.vars[y].locations == b && Moves(a, b) && a == {l} && (l.Register? || l.Xmm?) && l.reg < 16
    requires Clobbered(l) ==> l !in u.where || l in b
    ensures Restorable(u, y, l)
  {
    if b != a {
      assert l in a;
      var m :| b == {m} && Shelter(l, m);
      assert m in b;
    }
  }

  lemma SlotRuns(s: RS.Rewriter, code: seq<Instr>, g: Run, guards: seq<AttrGuard>, x: nat, n: nat, outs: seq<Location>,
                 callee: Callee, entry: State, func: int)
    requires n <= |ARG_REGS| && GuardsArgs(guards, n) && Returning(s, g, x, n, outs, callee, entry, func)
    requires Committed(Machine.Run(callee, entry, code), g, outs, Register(RAX), g.val[x])
    requires Through(callee, entry, code).mem == Now(s, g).mem && (Misses(callee, entry, code) <==> !Passes(entry, guards))
    ensures Finished(callee, entry, code, guards, n, outs, func)
  {
    RunMisses(callee, entry, code);
    hide Now, Through, Misses, AllRestorable, Machine.Run, Passes, CalledWith;
    var m := Machine.Run(callee, entry, code).m;
    if Passes(entry, guards) {
      var k: nat, c :| CalledWith(c, entry, func, n) && Now(s, g).mem == callee(k, c).mem && g.val[x] == callee(k, c).loc(Register(RAX));
      assert Returns(m, callee(k, c), entry, outs);
      assert Machine.Run(callee, entry, code) == PastEnd(m);
    }
  }

  // ---- a killing getAttr that misreads ----------------------------------------------------

  /** Guarding is done, nothing but the two held variables is left, and they are in lv and lx. */
  ghost predicate Pair(s: RS.Rewriter, g: Run, v: nat, x: nat, lv: nat, lx: nat) {
    && s.doneGuarding && v != x && s.where == map[Register(lv) := v, Register(lx) := x]
    && v in s.vars && x in s.vars && s.vars[v] == Var({Register(lv)}, 1) && s.vars[x] == Var({Register(lx)}, 1)
    && v in g.val && x in g.val && g.held == multiset{v, x}
  }

  lemma PairEntered(s: RS.Rewriter, g: Run, vs: seq<nat>, callee: Callee, entry: State)
    requires Guarded(s, g, vs, 2, [], callee, entry) && Ok(s, g)
    ensures |vs| == 2 && Pair(s, g, vs[0], vs[1], RDI, RSI)
    ensures g.val[vs[1]] == entry.loc(ForArg(1)) && g.callee == callee && g.entry == entry
  {
    OkJustBooks(s, g);
    var v, x := vs[0], vs[1];
    assert vs == [v, x] && Only(s, v, Register(RDI)) && Only(s, x, Register(RSI));
    hide Ok, Now, Books;
    assert Owners(s, g, v) == 1 && Owners(s, g, x) == 1;
    OneUse(s, g, v);
    OneUse(s, g, x);
    forall l | l in s.where ensures s.where[l] == v || s.where[l] == x { VarOwned(s, g, s.where[l]); }
    PairWhere(s, v, x);
  }

  lemma PairWhere(s: RS.Rewriter, v: nat, x: nat)
    requires Books(s) && Only(s, v, Register(RDI)) && Only(s, x, Register(RSI))
    requires forall l {:trigger l in s.where} :: l in s.where ==> s.where[l] == v || s.where[l] == x
    ensures s.where == map[Register(RDI) := v, Register(RSI) := x]
  {
    assert s.where == map[Register(RDI) := v, Register(RSI) := x];
  }

  lemma OneUse(s: RS.Rewriter, g: Run, v: nat)
    requires Ok(s, g) && v in s.vars && Owners(s, g, v) == 1
    ensures s.vars[v].uses == 1
  {}

  lemma VarOwned(s: RS.Rewriter, g: Run, v: nat)
    requires Ok(s, g) && v in s.vars && s.args == [] && s.liveOuts == []
    ensures v in g.held
  {
    assert Owners(s, g, v) > 0;
  }

  /** The constant takes the first variable's register, which moves to RBX. */
  lemma FirstSpilled(s: RS.Rewriter, t: RS.Rewriter, v: nat, x: nat, c: nat, g: Run, bytes: nat)
    requires Pair(s, g, v, x, RDI, RSI) && c !in g.val && t.doneGuarding
    ensures AllocChoice(s.where, bytes, InReg(RDI)) == Done(RDI)
    ensures SamePlaces(t, NewVar(AfterAlloc(s, bytes, InReg(RDI)), c, Register(RDI))) ==> Crossed(t, v, x, c)
  {
    assert SpillChoice(s.where) == Done(RBX);
    if SamePlaces(t, NewVar(AfterAlloc(s, bytes, InReg(RDI)), c, Register(RDI))) {
      assert t.vars[v].locations == {Register(RBX)};
    }
  }

  /** v is in RBX, x in RSI, and both have one use left. */
  predicate Crossed(s: RS.Rewriter, v: nat, x: nat, c: nat) {
    && v != x && s.where == map[Register(RSI) := x, Register(RBX) := v, Register(RDI) := c]
    && v in s.vars && x in s.vars && s.vars[v] == Var({Register(RBX)}, 1) && s.vars[x] == Var({Register(RSI)}, 1)
  }

  /** Killing v and asking for the register of x threatens the base, and there is room for all. */
  lemma CrossedThreatens(s: RS.Rewriter, v: nat, x: nat, c: nat, bytes: nat)
    requires Crossed(s, v, x, c)
    ensures Readable(s, v) && Threatened(s, v, true, InReg(RSI)) && SoleRegister(s, v) && s.where[Register(RSI)] == x
    ensures !NoAttr(s, v, true, bytes, InReg(RSI))
  {
    assert Register(RBX) in s.vars[v].locations;
    assert SpillChoice(s.where - s.vars[v].locations) == Done(RBX);
    forall p | MayPick(s, v, p) ensures AllocChoice(Based(s, v, true, p).where, bytes, InReg(RSI)).Done? {
      assert p == RBX;
      assert SpillChoice(Based(s, v, true, p).where) == Done(RBX);
    }
  }

  lemma ResultIn(s: RS.Rewriter, t: RS.Rewriter, v: nat, p: nat, bytes: nat, y: nat)
    requires v in s.vars && AttrPlaced(s, t, v, true, p, bytes, InReg(RSI), y)
    ensures Register(RSI) in t.where && t.where[Register(RSI)] == y
  {}

  method CrossAndLoad(rw: Rewriter2, v: nat, x: nat, offset: int)
    requires rw.Valid() && Pair(rw.St(), rw.g, v, x, RDI, RSI)
    modifies rw
    ensures rw.g.callee == old(rw.g).callee && rw.g.entry == old(rw.g).entry && Grows(old(rw.code), rw.code)
    ensures x in old(rw.g).val
    ensures Get(Now(rw.St(), rw.g), Register(RSI)) == Now(old(rw.St()), old(rw.g)).mem(old(rw.g).val[x] + offset)
  {
    hide Ok, Located, Now, Threatened, SoleRegister, NoAttr, AttrPlaced, AllocChoice, AfterAlloc, MayPick,
      ReadBase, Readable, Crossed, Grows, NewVar, SamePlaces, Based, SpillChoice, MustSpill;
    ghost var bytes := rw.scratchBytes;
    ghost var s, g := rw.St(), rw.g;
    FirstSpilled(s, s, v, x, rw.next, g, bytes);
    var c := rw.LoadConst(0x7fff_ffff, InReg(RDI));
    ghost var t, h := rw.St(), rw.g;
    FirstSpilled(s, t, v, x, c.value, g, bytes);
    CrossedThreatens(t, v, x, c.value, bytes);
    var got := rw.GetAttr(v, offset, true, InReg(RSI));
    ResultIn(t, rw.St(), v, got.value.1, bytes, got.value.0);
    OkBooks(rw.St(), rw.g);
    GrowsAgain(s.code, t.code, rw.code);
  }

  /** The attribute of the first argument is asked for, and the second argument's is loaded: the
      first argument has been moved to RBX to make room for a constant, and as this was its last
      use, that is where the second argument is moved when its register is wanted. This is so for
      every entry state, offset and scratch size, and none of the operations aborts. */
  method KillingGetAttrMisreads(offset: int, scratchBytes: nat, ghost callee: Callee, ghost entry: State) returns (code: seq<Instr>)
    ensures Machine.Run(callee, entry, code).PastEnd?
    ensures Machine.Run(callee, entry, code).m.loc(Register(RSI)) == entry.mem(entry.loc(ForArg(1)) + offset)
  {
    hide Ok, Located, Now, Released, Misses, Machine.Run, Grows, Pair, Through, ArgsEntered, OnePlace,
      EnteredAt, ForArgs, Entered, Guarded;
    var rw := new Rewriter2(2, [], RAX, scratchBytes, callee, entry);
    EntersHere(rw.St(), rw.g, 2, [], callee, entry);
    var vs := TakeArgs(rw, 2, [], callee, entry);
    ghost var b := rw.St();
    rw.SetDoneGuarding();
    GuardingDone(b, rw.St(), rw.g, vs, 2, [], callee, entry);
    EntryMemory(b, rw.St(), rw.g, 2, [], callee, entry);
    PairEntered(rw.St(), rw.g, vs, callee, entry);
    var v, x := vs[0], vs[1];
    ghost var before := rw.code;
    CrossAndLoad(rw, v, x, offset);
    assert Misses(callee, entry, []) == false by { NothingMisses(callee, entry, []); }
    GrowsMisses(callee, entry, before, rw.code);
    RunMisses(callee, entry, rw.code);
    CodeRuns(rw.St(), rw.g);
    return rw.code;
  }

  /** So there is a state in which the value loaded is not the attribute that was asked for. */
  method WrongAttribute(offset: int, scratchBytes: nat, ghost callee: Callee) returns (code: seq<Instr>)
    ensures exists entry {:trigger Machine.Run(callee, entry, code)} ::
      && Machine.Run(callee, entry, code).PastEnd?
      && Machine.Run(callee, entry, code).m.loc(Register(RSI)) != entry.mem(entry.loc(ForArg(0)) + offset)
  {
    hide Machine.Run;
    ghost var entry := State(l => if l == ForArg(1) then 1 else 0, a => a);
    code := KillingGetAttrMisreads(offset, scratchBytes, callee, entry);
    assert Machine.Run(callee, entry, code).m.loc(Register(RSI)) == 1 + offset;
  }
}
