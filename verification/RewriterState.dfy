/** The bookkeeping of the inline-cache writer (Rewriter2 in src/asm_writing/rewriter2.cpp) and
    its invariant: what the books say about each location is true of the machine that runs the
    code emitted so far, whatever state the slot is entered in. */
module RewriterState {
  import opened Machine

  datatype Var = Var(locations: set<Location>, uses: int)

  /** `where` is vars_by_location; variables are named by numbers. */
  datatype Rewriter = Rewriter(
    where: map<Location, nat>,
    vars: map<nat, Var>,
    doneGuarding: bool,
    args: seq<nat>,
    liveOuts: seq<nat>,
    liveOutRegs: seq<Location>,
    code: seq<Instr>)

  /** What a proof follows along a run: the slot's entry state, the callees' effects, each
      variable's value, the uses held by clients, and the registers a miss must find untouched. */
  datatype Run = Run(callee: Callee, entry: State, val: map<nat, int>, held: multiset<nat>, kept: set<Location>)

  ghost function Now(s: Rewriter, g: Run): State {
    Through(g.callee, g.entry, s.code)
  }

  /** The two indexes are inverse to each other, and every variable is somewhere. */
  ghost predicate Books(s: Rewriter) {
    && (forall l {:trigger s.where[l]} {:trigger l in s.where} :: l in s.where ==> s.where[l] in s.vars && l in s.vars[s.where[l]].locations)
    && (forall v, l {:trigger l in s.vars[v].locations} :: v in s.vars && l in s.vars[v].locations ==> l in s.where && s.where[l] == v)
    && (forall v {:trigger s.vars[v]} :: v in s.vars ==> s.vars[v].locations != {})
  }

  function Owners(s: Rewriter, g: Run, v: nat): int {
    g.held[v] + multiset(s.args)[v] + multiset(s.liveOuts)[v]
  }

  /** A variable's use count is the number of its owners, and it lives exactly while it has one. */
  ghost predicate Uses(s: Rewriter, g: Run) {
    forall v: nat {:trigger Owners(s, g, v)} ::
      (v in s.vars <==> Owners(s, g, v) > 0) && (v in s.vars ==> s.vars[v].uses == Owners(s, g, v))
  }

  /** Every location really holds its variable's value. */
  ghost predicate Holds(s: Rewriter, g: Run) {
    && (forall v {:trigger v in g.val} {:trigger v in s.vars} :: v in s.vars ==> v in g.val)
    && (forall l {:trigger l in s.where} :: l in s.where && s.where[l] in g.val ==> Get(Now(s, g), l) == g.val[s.where[l]])
  }

  /** The state m has the entry state's memory, scratch slots and kept registers. */
  ghost predicate AsEntered(m: State, g: Run) {
    && m.mem == g.entry.mem
    && (forall o :: m.loc(Scratch(o)) == g.entry.loc(Scratch(o)))
    && (forall l {:trigger l in g.kept} :: l in g.kept ==> m.loc(l) == g.entry.loc(l))
  }

  /** Until guarding is done, nothing a miss relies on has been given up. */
  ghost predicate StillEntered(s: Rewriter, g: Run) {
    (!s.doneGuarding ==>
      && AsEntered(Now(s, g), g)
      && (forall l {:trigger l in g.kept} :: l in g.kept ==> l in s.where && (s.where[l] in s.args || s.where[l] in s.liveOuts)))
    && (forall l {:trigger l in g.kept} :: l in g.kept ==> !l.Constant? && !l.Scratch?)
  }

  /** A failing guard is transparent: wherever one is, the state is as the slot was entered. */
  ghost predicate Transparent(s: Rewriter, g: Run) {
    forall k: nat {:trigger s.code[k]} :: k < |s.code| && s.code[k].Guard? ==>
      AsEntered(Through(g.callee, g.entry, s.code[..k]), g)
  }

  /** Each live-out variable stands for what its register held when the slot was entered. */
  ghost predicate LiveValues(s: Rewriter, g: Run) {
    && |s.liveOuts| == |s.liveOutRegs|
    && (forall i, j :: 0 <= i < j < |s.liveOutRegs| ==> s.liveOutRegs[i] != s.liveOutRegs[j])
    && (forall i, j :: 0 <= i < j < |s.liveOuts| ==> s.liveOuts[i] != s.liveOuts[j])
    && (forall i :: 0 <= i < |s.liveOuts| ==>
          && (s.liveOutRegs[i].Register? || s.liveOutRegs[i].Xmm?)
          && s.liveOuts[i] in g.val && g.val[s.liveOuts[i]] == g.entry.loc(s.liveOutRegs[i]))
  }

  ghost predicate Ok(s: Rewriter, g: Run) {
    Books(s) && Uses(s, g) && Holds(s, g) && StillEntered(s, g) && Transparent(s, g) && LiveValues(s, g)
  }

  // ---- elementary changes -----------------------------------------------------------------

  function Emit(s: Rewriter, i: Instr): Rewriter { s.(code := s.code + [i]) }

  function AddLocation(s: Rewriter, v: nat, l: Location): Rewriter
    requires v in s.vars
  {
    s.(where := s.where[l := v], vars := s.vars[v := s.vars[v].(locations := s.vars[v].locations + {l})])
  }

  function RemoveLocation(s: Rewriter, v: nat, l: Location): Rewriter
    requires v in s.vars
  {
    s.(where := s.where - {l}, vars := s.vars[v := s.vars[v].(locations := s.vars[v].locations - {l})])
  }

  /** createNewVar, with the one use its creator gets. */
  function NewVar(s: Rewriter, v: nat, l: Location): Rewriter {
    s.(where := s.where[l := v], vars := s.vars[v := Var({l}, 1)])
  }

  function IncUse(s: Rewriter, v: nat): Rewriter
    requires v in s.vars
  {
    s.(vars := s.vars[v := s.vars[v].(uses := s.vars[v].uses + 1)])
  }

  /** decUse: the last use erases the variable from every location. */
  function DecUse(s: Rewriter, v: nat): Rewriter
    requires v in s.vars
  {
    if s.vars[v].uses == 1 then s.(where := s.where - s.vars[v].locations, vars := s.vars - {v})
    else s.(vars := s.vars[v := s.vars[v].(uses := s.vars[v].uses - 1)])
  }

  lemma NowEmit(s: Rewriter, g: Run, i: Instr)
    ensures Now(Emit(s, i), g) == Step(g.callee, |s.code|, Now(s, g), i)
  {
    ThroughSnoc(g.callee, g.entry, s.code, i);
  }

  lemma TransparentEmit(s: Rewriter, g: Run, i: Instr)
    requires Transparent(s, g) && (i.Guard? ==> AsEntered(Now(s, g), g))
    ensures Transparent(Emit(s, i), g)
  {
    var t := Emit(s, i);
    forall k: nat | k < |t.code| && t.code[k].Guard? ensures AsEntered(Through(g.callee, g.entry, t.code[..k]), g) {
      if k < |s.code| {
        assert s.code[k] == t.code[k] && t.code[..k] == s.code[..k];
      } else {
        assert t.code[..k] == s.code;
      }
    }
  }

  /** Writing a location no variable is in keeps everything, given that a miss may find it so. */
  lemma FreeWriteOk(s: Rewriter, g: Run, i: Instr, dst: Location)
    requires Ok(s, g) && dst !in s.where && !dst.Constant?
    requires s.doneGuarding || !dst.Scratch?
    requires (i.Move? && i.dst == dst) || (i.Load? && i.dst == dst)
    ensures Ok(Emit(s, i), g)
    ensures forall l :: l != dst ==> Get(Now(Emit(s, i), g), l) == Get(Now(s, g), l)
    ensures Now(Emit(s, i), g).mem == Now(s, g).mem
  {
    hide Through, Transparent;
    NowEmit(s, g, i);
    TransparentEmit(s, g, i);
    var t := Emit(s, i);
    assert Uses(t, g) by { SameUses(s, t, g, g); }
  }

  lemma SameUses(s: Rewriter, t: Rewriter, g: Run, h: Run)
    requires Uses(s, g) && t.vars == s.vars && t.args == s.args && t.liveOuts == s.liveOuts && h.held == g.held
    ensures Uses(t, h)
  {
    forall v: nat ensures (v in t.vars <==> Owners(t, h, v) > 0) && (v in t.vars ==> t.vars[v].uses == Owners(t, h, v)) {
      assert Owners(s, g, v) == Owners(t, h, v);
    }
  }

  /** Recording one more location that holds the variable's value. */
  lemma AddLocationOk(s: Rewriter, g: Run, v: nat, l: Location)
    requires Ok(s, g) && v in s.vars && l !in s.where && Get(Now(s, g), l) == g.val[v]
    ensures Ok(AddLocation(s, v, l), g)
  {
    hide Through, Transparent, Uses, Books;
    AddLocationBooks(s, v, l);
    var t := AddLocation(s, v, l);
    assert t.code == s.code;
    assert Transparent(t, g) by { SameCode(s, t, g, g); }
    assert Uses(t, g) by { AddLocationUses(s, g, v, l); }
  }

  lemma SameCode(s: Rewriter, t: Rewriter, g: Run, h: Run)
    requires Transparent(s, g) && t.code == s.code && h.callee == g.callee && h.entry == g.entry && h.kept == g.kept
    ensures Transparent(t, h)
  {}

  lemma AddLocationUses(s: Rewriter, g: Run, v: nat, l: Location)
    requires Uses(s, g) && v in s.vars
    ensures Uses(AddLocation(s, v, l), g)
  {
    var t := AddLocation(s, v, l);
    forall x: nat ensures (x in t.vars <==> Owners(t, g, x) > 0) && (x in t.vars ==> t.vars[x].uses == Owners(t, g, x)) {
      assert Owners(s, g, x) == Owners(t, g, x);
    }
  }

  lemma RemoveLocationOk(s: Rewriter, g: Run, v: nat, l: Location)
    requires Ok(s, g) && s.doneGuarding && v in s.vars && l in s.vars[v].locations && s.vars[v].locations != {l}
    ensures Ok(RemoveLocation(s, v, l), g)
  {
    hide Through, Transparent, Uses;
    var t := RemoveLocation(s, v, l);
    assert t.code == s.code;
    assert Transparent(t, g) by { SameCode(s, t, g, g); }
    assert Uses(t, g) by { RemoveLocationUses(s, g, v, l); }
  }

  lemma RemoveLocationUses(s: Rewriter, g: Run, v: nat, l: Location)
    requires Uses(s, g) && v in s.vars
    ensures Uses(RemoveLocation(s, v, l), g)
  {
    var t := RemoveLocation(s, v, l);
    forall x: nat ensures (x in t.vars <==> Owners(t, g, x) > 0) && (x in t.vars ==> t.vars[x].uses == Owners(t, g, x)) {
      assert Owners(s, g, x) == Owners(t, g, x);
    }
  }

  lemma NewVarBooks(s: Rewriter, v: nat, l: Location)
    requires Books(s) && v !in s.vars && l !in s.where
    ensures Books(NewVar(s, v, l))
  {}

  lemma AddLocationBooks(s: Rewriter, v: nat, l: Location)
    requires Books(s) && v in s.vars && l !in s.where
    ensures Books(AddLocation(s, v, l))
  {}

  /** A new variable for a value that a free location holds. */
  lemma NewVarOk(s: Rewriter, g: Run, v: nat, l: Location, x: int)
    requires Ok(s, g) && v !in s.vars && v !in g.val && l !in s.where && Get(Now(s, g), l) == x
    ensures Ok(NewVar(s, v, l), g.(val := g.val[v := x], held := g.held + multiset{v}))
  {
    hide Through, Transparent, Uses, Books, Holds, StillEntered;
    var t, h := NewVar(s, v, l), g.(val := g.val[v := x], held := g.held + multiset{v});
    SameNow(s, t, g);
    SameCode(s, t, g, h);
    NewVarUses(s, g, v, l, x);
    NewVarBooks(s, v, l);
    NewVarKeeps(s, g, v, l, x);
  }

  lemma NewVarKeeps(s: Rewriter, g: Run, v: nat, l: Location, x: int)
    requires Books(s) && Holds(s, g) && StillEntered(s, g) && v !in s.vars && v !in g.val && l !in s.where && Get(Now(s, g), l) == x
    ensures var t, h := NewVar(s, v, l), g.(val := g.val[v := x], held := g.held + multiset{v});
      Holds(t, h) && StillEntered(t, h)
  {
    hide Through;
    var t, h := NewVar(s, v, l), g.(val := g.val[v := x], held := g.held + multiset{v});
    assert Now(t, h) == Now(s, g);
  }

  lemma NewVarUses(s: Rewriter, g: Run, v: nat, l: Location, x: int)
    requires Uses(s, g) && v !in s.vars
    ensures Uses(NewVar(s, v, l), g.(val := g.val[v := x], held := g.held + multiset{v}))
  {
    var t, h := NewVar(s, v, l), g.(val := g.val[v := x], held := g.held + multiset{v});
    assert Owners(s, g, v) == 0;
    forall y: nat ensures (y in t.vars <==> Owners(t, h, y) > 0) && (y in t.vars ==> t.vars[y].uses == Owners(t, h, y)) {
      assert Owners(t, h, y) == Owners(s, g, y) + if y == v then 1 else 0;
    }
  }

  lemma IncUseOk(s: Rewriter, g: Run, v: nat)
    requires Ok(s, g) && v in s.vars
    ensures Ok(IncUse(s, v), g.(held := g.held + multiset{v}))
  {
    hide Through, Transparent, Uses;
    var t, h := IncUse(s, v), g.(held := g.held + multiset{v});
    assert t.code == s.code && Now(t, h) == Now(s, g);
    assert Transparent(t, h) by { SameCode(s, t, g, h); }
    assert Uses(t, h) by { IncUseUses(s, g, v); }
  }

  lemma IncUseUses(s: Rewriter, g: Run, v: nat)
    requires Uses(s, g) && v in s.vars
    ensures Uses(IncUse(s, v), g.(held := g.held + multiset{v}))
  {
    var t, h := IncUse(s, v), g.(held := g.held + multiset{v});
    forall y: nat ensures (y in t.vars <==> Owners(t, h, y) > 0) && (y in t.vars ==> t.vars[y].uses == Owners(t, h, y)) {
      assert Owners(t, h, y) == Owners(s, g, y) + if y == v then 1 else 0;
      assert Owners(s, g, v) > 0;
    }
  }

  /** Giving up a client's use. Before guarding is done, the args and live-outs keep theirs. */
  lemma DecUseOk(s: Rewriter, g: Run, v: nat)
    requires Ok(s, g) && v in g.held
    ensures v in s.vars && Ok(DecUse(s, v), g.(held := g.held - multiset{v}))
  {
    hide Through, Transparent, Books, Holds, StillEntered;
    var h := g.(held := g.held - multiset{v});
    assert Owners(s, g, v) > 0;
    var t := DecUse(s, v);
    DecUseLists(s, v);
    DecUseOwners(s, t, g, h, v);
    hide DecUse, Owners;
    DecUseKeeps(s, g, v, t, h);
    SameCode(s, t, g, h);
    DecUseBooks(s, v);
    DecUseUses(s, g, v, t, h);
  }

  lemma DecUseOwners(s: Rewriter, t: Rewriter, g: Run, h: Run, v: nat)
    requires t.args == s.args && t.liveOuts == s.liveOuts && v in g.held && h.held == g.held - multiset{v}
    ensures forall y: nat :: Owners(t, h, y) == Owners(s, g, y) - if y == v then 1 else 0
  {}

  lemma DecUseUses(s: Rewriter, g: Run, v: nat, t: Rewriter, h: Run)
    requires Uses(s, g) && v in s.vars && t.vars == DecUse(s, v).vars
    requires forall y: nat :: Owners(t, h, y) == Owners(s, g, y) - if y == v then 1 else 0
    ensures Uses(t, h)
  {
    forall y: nat ensures (y in t.vars <==> Owners(t, h, y) > 0) && (y in t.vars ==> t.vars[y].uses == Owners(t, h, y)) {
      assert Owners(t, h, y) == Owners(s, g, y) - if y == v then 1 else 0;
      assert Owners(s, g, v) > 0;
    }
  }

  lemma DecUseBooks(s: Rewriter, v: nat)
    requires Books(s) && v in s.vars
    ensures Books(DecUse(s, v))
  {}

  lemma DecUseKeeps(s: Rewriter, g: Run, v: nat, t: Rewriter, h: Run)
    requires Books(s) && Holds(s, g) && StillEntered(s, g) && v in s.vars
    requires t == DecUse(s, v) && h == g.(held := g.held - multiset{v}) && Uses(s, g) && v in g.held
    ensures Holds(t, h) && StillEntered(t, h)
  {
    hide Through;
    assert Now(t, h) == Now(s, g);
    assert Owners(s, g, v) == s.vars[v].uses;
    if s.vars[v].uses == 1 {
      assert v !in s.args && v !in s.liveOuts;
    }
  }

  lemma DoneGuardingOk(s: Rewriter, g: Run)
    requires Ok(s, g)
    ensures Ok(s.(doneGuarding := true), g)
  {
    hide Through, Transparent;
    var t := s.(doneGuarding := true);
    assert t.code == s.code;
    assert Transparent(t, g) by { SameCode(s, t, g, g); }
    assert Uses(t, g) by { SameUses(s, t, g, g); }
  }

  function DropArg(s: Rewriter): Rewriter
    requires s.args != [] && s.args[0] in s.vars
  {
    DecUse(s, s.args[0]).(args := s.args[1..])
  }

  function DropLiveOut(s: Rewriter): Rewriter
    requires s.liveOuts != [] && s.liveOuts[0] in s.vars && s.liveOutRegs != []
  {
    DecUse(s, s.liveOuts[0]).(liveOuts := s.liveOuts[1..], liveOutRegs := s.liveOutRegs[1..])
  }

  lemma DropOwners(s: Rewriter, t: Rewriter, g: Run, v: nat)
    requires (s.args != [] && s.args[0] == v && t.args == s.args[1..] && t.liveOuts == s.liveOuts)
      || (s.liveOuts != [] && s.liveOuts[0] == v && t.liveOuts == s.liveOuts[1..] && t.args == s.args)
    ensures forall y: nat :: Owners(t, g, y) == Owners(s, g, y) - if y == v then 1 else 0
    ensures Owners(s, g, v) > 0
  {
    if s.args != [] && s.args[0] == v && t.args == s.args[1..] && t.liveOuts == s.liveOuts {
      assert s.args == [v] + s.args[1..];
    } else {
      assert s.liveOuts == [v] + s.liveOuts[1..];
    }
  }

  /** What giving up any owner's use keeps, once guarding is done. */
  lemma DropKeeps(s: Rewriter, t: Rewriter, g: Run, v: nat)
    requires Ok(s, g) && s.doneGuarding && v in s.vars
    requires t == DecUse(s, v).(args := t.args, liveOuts := t.liveOuts, liveOutRegs := t.liveOutRegs)
    requires forall y: nat :: Owners(t, g, y) == Owners(s, g, y) - if y == v then 1 else 0
    ensures Books(t) && Uses(t, g) && Holds(t, g) && StillEntered(t, g) && Transparent(t, g)
  {
    hide Through, Transparent, Owners, LiveValues;
    DecUseUses(s, g, v, t, g);
    DecUseBooks(s, v);
    DecUseHolds(s, g, v);
    SameCode(s, t, g, g);
    SameNow(s, t, g);
    SameHolds(DecUse(s, v), t, g);
  }

  lemma DecUseHolds(s: Rewriter, g: Run, v: nat)
    requires Holds(s, g) && v in s.vars
    ensures Holds(DecUse(s, v), g)
  {
    hide Through;
    SameNow(s, DecUse(s, v), g);
  }

  lemma SameHolds(s: Rewriter, t: Rewriter, g: Run)
    requires Holds(s, g) && t.where == s.where && t.vars == s.vars && t.code == s.code
    ensures Holds(t, g)
  {
    hide Through;
    SameNow(s, t, g);
  }

  /** setDoneGuarding gives up the use of one argument. */
  lemma DropArgOk(s: Rewriter, g: Run)
    requires Ok(s, g) && s.doneGuarding && s.args != []
    ensures s.args[0] in s.vars && Ok(DropArg(s), g)
  {
    hide Books, Holds, StillEntered, Transparent, Owners, DecUse;
    var v := s.args[0];
    DropOwners(s, s.(args := s.args[1..]), g, v);
    var t := DropArg(s);
    assert t.args == s.args[1..] && t.liveOuts == s.liveOuts && t.liveOutRegs == s.liveOutRegs by { DecUseLists(s, v); }
    DropOwners(s, t, g, v);
    DropKeeps(s, t, g, v);
  }

  /** commit gives up the use of one live-out. */
  lemma DropLiveOutOk(s: Rewriter, g: Run)
    requires Ok(s, g) && s.doneGuarding && s.liveOuts != []
    ensures s.liveOuts[0] in s.vars && Ok(DropLiveOut(s), g)
  {
    hide Books, Holds, StillEntered, Transparent, Owners, DecUse;
    var v := s.liveOuts[0];
    DropOwners(s, s.(liveOuts := s.liveOuts[1..]), g, v);
    var t := DropLiveOut(s);
    assert t.args == s.args by { DecUseLists(s, v); }
    DropOwners(s, t, g, v);
    DropKeeps(s, t, g, v);
  }

  lemma DecUseLists(s: Rewriter, v: nat)
    requires v in s.vars
    ensures var t := DecUse(s, v); t.code == s.code && t.args == s.args && t.liveOuts == s.liveOuts && t.liveOutRegs == s.liveOutRegs
  {}

  // ---- guards, stores and calls -----------------------------------------------------------

  lemma GuardOk(s: Rewriter, g: Run, i: Instr)
    requires Ok(s, g) && !s.doneGuarding && i.Guard?
    ensures Ok(Emit(s, i), g) && Now(Emit(s, i), g) == Now(s, g)
  {
    hide Through, Transparent;
    NowEmit(s, g, i);
    TransparentEmit(s, g, i);
    assert Uses(Emit(s, i), g) by { SameUses(s, Emit(s, i), g, g); }
  }

  lemma StoreOk(s: Rewriter, g: Run, i: Instr)
    requires Ok(s, g) && s.doneGuarding && i.Store?
    ensures Ok(Emit(s, i), g) && Now(Emit(s, i), g).loc == Now(s, g).loc
  {
    hide Through, Transparent;
    NowEmit(s, g, i);
    TransparentEmit(s, g, i);
    assert Uses(Emit(s, i), g) by { SameUses(s, Emit(s, i), g, g); }
  }

  /** A call leaves the books true when no variable is recorded where it may write. */
  lemma CallOk(s: Rewriter, g: Run, i: Instr)
    requires Ok(s, g) && s.doneGuarding && i.CallReg?
    requires forall l :: l in s.where ==> !Clobbered(l)
    ensures Ok(Emit(s, i), g)
  {
    hide Through, Transparent;
    NowEmit(s, g, i);
    TransparentEmit(s, g, i);
    assert Uses(Emit(s, i), g) by { SameUses(s, Emit(s, i), g, g); }
  }

  /** Copying a variable to a free location and recording it there. */
  lemma CopyOk(s: Rewriter, g: Run, v: nat, from: Location, to: Location)
    requires Ok(s, g) && v in s.vars && from in s.vars[v].locations && to !in s.where && !to.Constant?
    requires s.doneGuarding || !to.Scratch?
    ensures var t := AddLocation(Emit(s, Move(Loc(from), to)), v, to);
      Ok(t, g) && Now(t, g).mem == Now(s, g).mem && forall l :: l != to ==> Get(Now(t, g), l) == Get(Now(s, g), l)
  {
    hide Through, Transparent, Uses;
    var i := Move(Loc(from), to);
    var m := Emit(s, i);
    FreeWriteOk(s, g, i, to);
    NowEmit(s, g, i);
    assert from in s.where && s.where[from] == v && v in g.val;
    assert Get(Now(s, g), from) == g.val[v];
    assert Get(Now(m, g), to) == g.val[v];
    AddLocationOk(m, g, v, to);
  }

  /** Spilling: copy, then forget the old location. */
  lemma SpillOk(s: Rewriter, g: Run, v: nat, from: Location, to: Location)
    requires Ok(s, g) && s.doneGuarding && from in s.where && s.where[from] == v && to !in s.where && !to.Constant?
    ensures v in s.vars && from in s.vars[v].locations
    ensures var t := Spilled(s, v, from, to);
      Ok(t, g) && Now(t, g).mem == Now(s, g).mem && forall l :: l != to ==> Get(Now(t, g), l) == Get(Now(s, g), l)
  {
    hide Through, Transparent, Uses, Now;
    var m := AddLocation(Emit(s, Move(Loc(from), to)), v, to);
    CopyOk(s, g, v, from, to);
    RemoveLocationOk(m, g, v, from);
    SameNow(m, RemoveLocation(m, v, from), g);
  }

  function Spilled(s: Rewriter, v: nat, from: Location, to: Location): Rewriter
    requires v in s.vars
  {
    RemoveLocation(AddLocation(Emit(s, Move(Loc(from), to)), v, to), v, from)
  }

  lemma SameNow(s: Rewriter, t: Rewriter, g: Run)
    requires t.code == s.code
    ensures Now(t, g) == Now(s, g)
  {}
}
