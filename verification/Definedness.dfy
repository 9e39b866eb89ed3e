/** The definedness analysis as the code runs it: the visitor over a block's statements and the
    worklist loop of src/analysis/fpc.h, proved to compute the exact all-paths answer. */
module Definedness {
  import G = Graph
  import opened FixedPoint
  import opened FixedPointExact
  import opened FixedPointTermination
  import opened FunctionBody

  // ---- what it means that a block assigns a name ------------------------------------------

  /** Going from t to one tuple element after the other leads to e. */
  ghost predicate LeadsTo(t: Expr, path: seq<nat>, e: Expr)
    decreases |path|
  {
    if path == [] then t == e
    else t.Tuple? && path[0] < |t.elts| && LeadsTo(t.elts[path[0]], path[1..], e)
  }

  /** Assigning to t binds n: it is the name, or stands in the tuple at some depth. */
  ghost predicate Binds(t: Expr, n: string) {
    exists path, store {:trigger LeadsTo(t, path, Name(n, store))} :: LeadsTo(t, path, Name(n, store))
  }

  ghost predicate SomeBinds(ts: seq<Expr>, n: string) {
    exists i :: 0 <= i < |ts| && Binds(ts[i], n)
  }

  ghost predicate StmtAssigns(s: Stmt, n: string) {
    || s == ClassDef(n) || s == FunctionDef(n)
    || (s.Import? && n in s.names)
    || (s.Assign? && SomeBinds(s.targets, n))
  }

  ghost predicate IsParameter(a: Arguments, n: string) {
    a.Arguments? && (SomeBinds(a.kwarg, n) || (n == a.vararg && n != "") || SomeBinds(a.args, n))
  }

  /** Some statement of the block assigns n, or the block is the entry and n a parameter. */
  ghost predicate BlockAssigns(f: Function, b: nat, n: string) {
    b < |f.blocks| && ((exists i :: 0 <= i < |f.blocks[b].body| && StmtAssigns(f.blocks[b].body[i], n)) || (b == 0 && IsParameter(f.arguments, n)))
  }

  /** The blocks a run of the function has entered up to the end of b. */
  ghost predicate EntryRun(f: Function, p: seq<nat>, b: nat) {
    && |p| > 0 && p[0] == 0 && p[|p| - 1] == b && (forall i :: 0 <= i < |p| ==> p[i] < |f.blocks|)
    && forall i :: 0 <= i < |p| - 1 ==> p[i + 1] in f.blocks[p[i]].successors
  }

  ghost predicate RunAssigns(f: Function, p: seq<nat>, n: string) {
    exists i :: 0 <= i < |p| && BlockAssigns(f, p[i], n)
  }

  ghost predicate MayAssign(f: Function, b: nat, n: string) {
    exists p :: EntryRun(f, p, b) && RunAssigns(f, p, n)
  }

  ghost predicate MaySkip(f: Function, b: nat, n: string) {
    exists p :: EntryRun(f, p, b) && !RunAssigns(f, p, n)
  }

  /** The right answer: a map for each block a run can enter; in it a name is defined if every run
      has assigned it by the block's end, absent if none has, and potentially defined otherwise. */
  ghost predicate Answer(f: Function, states: States) {
    && (forall b :: b in states <==> exists p :: EntryRun(f, p, b))
    && forall b, n {:trigger MayAssign(f, b, n)} {:trigger MaySkip(f, b, n)} :: b in states ==>
         && (n in states[b] <==> MayAssign(f, b, n))
         && (n in states[b] ==> (states[b][n] == Defined <==> !MaySkip(f, b, n)))
  }

  // ---- the names a block sets -------------------------------------------------------------

  function TargetSets(t: Expr): set<string> {
    match t
    case Name(id, _) => {id}
    case Tuple(elts) => TargetsSet(elts)
    case Compound(_) => {}
  }

  function TargetsSet(ts: seq<Expr>): set<string> {
    if ts == [] then {} else TargetsSet(ts[..|ts| - 1]) + TargetSets(ts[|ts| - 1])
  }

  function NamesIn(names: seq<string>): set<string> {
    set n | n in names
  }

  function StmtSets(s: Stmt): set<string> {
    match s
    case Assign(targets, _) => TargetsSet(targets)
    case ClassDef(name) => {name}
    case FunctionDef(name) => {name}
    case Import(names) => NamesIn(names)
    case Evaluate(_) => {}
  }

  function BodySets(body: seq<Stmt>): set<string> {
    if body == [] then {} else BodySets(body[..|body| - 1]) + StmtSets(body[|body| - 1])
  }

  function ArgumentSets(a: Arguments): set<string> {
    match a
    case NoArguments => {}
    case Arguments(kwarg, vararg, args) =>
      TargetsSet(kwarg) + (if vararg != "" then {vararg} else {}) + TargetsSet(args)
  }

  function BlockSets(f: Function, b: nat): set<string>
    requires b < |f.blocks|
  {
    BodySets(f.blocks[b].body) + if b == 0 then ArgumentSets(f.arguments) else {}
  }

  function ProblemOf(f: Function): Problem {
    Problem(G.Graph(seq(|f.blocks|, i requires 0 <= i < |f.blocks| => f.blocks[i].successors)),
            seq(|f.blocks|, i requires 0 <= i < |f.blocks| => BlockSets(f, i)))
  }

  /** The sets the visitor computes are what the block assigns. */
  lemma {:induction false} TargetBinds(t: Expr, n: string)
    ensures n in TargetSets(t) <==> Binds(t, n)
    decreases t, 0
  {
    match t {
      case Name(id, store) =>
        if n == id { assert LeadsTo(t, [], Name(n, store)); }
      case Tuple(elts) =>
        TargetsBind(elts, n);
        if SomeBinds(elts, n) {
          var i :| 0 <= i < |elts| && Binds(elts[i], n);
          var path, store :| LeadsTo(elts[i], path, Name(n, store));
          LeadsOn(t, i, path, Name(n, store));
        }
        if Binds(t, n) {
          var path, store :| LeadsTo(t, path, Name(n, store));
          assert LeadsTo(elts[path[0]], path[1..], Name(n, store));
          assert Binds(elts[path[0]], n);
        }
      case Compound(_) =>
    }
  }

  lemma LeadsOn(t: Expr, i: nat, path: seq<nat>, e: Expr)
    requires t.Tuple? && i < |t.elts| && LeadsTo(t.elts[i], path, e)
    ensures LeadsTo(t, [i] + path, e)
  {
    var longer := [i] + path;
    assert longer[1..] == path;
  }

  lemma {:induction false} TargetsBind(ts: seq<Expr>, n: string)
    ensures n in TargetsSet(ts) <==> SomeBinds(ts, n)
    decreases ts, 1
  {
    if ts != [] {
      var k := |ts| - 1;
      TargetsBind(ts[..k], n);
      TargetBinds(ts[k], n);
      hide Binds;
      if SomeBinds(ts[..k], n) {
        var i :| 0 <= i < k && Binds(ts[..k][i], n);
        assert Binds(ts[i], n);
      }
      if SomeBinds(ts, n) && !Binds(ts[k], n) {
        var i :| 0 <= i < |ts| && Binds(ts[i], n);
        assert Binds(ts[..k][i], n);
      }
    }
  }

  lemma StmtBinds(s: Stmt, n: string)
    ensures n in StmtSets(s) <==> StmtAssigns(s, n)
  {
    if s.Assign? { TargetsBind(s.targets, n); }
    hide SomeBinds, TargetsSet;
  }

  lemma {:induction false} BodyBinds(body: seq<Stmt>, n: string)
    ensures n in BodySets(body) <==> exists i :: 0 <= i < |body| && StmtAssigns(body[i], n)
  {
    if body != [] {
      var k := |body| - 1;
      BodyBinds(body[..k], n);
      StmtBinds(body[k], n);
      hide StmtAssigns, StmtSets;
      if i :| 0 <= i < k && StmtAssigns(body[i], n) { assert StmtAssigns(body[..k][i], n); }
    }
  }

  lemma BlockSetsAssigned(f: Function, b: nat, n: string)
    requires b < |f.blocks|
    ensures n in BlockSets(f, b) <==> BlockAssigns(f, b, n)
  {
    BodyBinds(f.blocks[b].body, n);
    if f.arguments.Arguments? {
      TargetsBind(f.arguments.kwarg, n);
      TargetsBind(f.arguments.args, n);
    }
    hide SomeBinds, TargetsSet, StmtAssigns, BodySets;
  }

  /** The solver's problem is the function's: its paths are runs, and they assign the same names. */
  lemma RunsArePaths(f: Function, p: seq<nat>, b: nat, n: string)
    requires ProblemOf(f).Valid()
    ensures ProblemOf(f).g.EntryPath(p, b) <==> EntryRun(f, p, b)
    ensures EntryRun(f, p, b) ==> (ProblemOf(f).Assigns(p, n) <==> RunAssigns(f, p, n))
  {
    hide BlockAssigns, BlockSets;
    if EntryRun(f, p, b) {
      forall i | 0 <= i < |p| ensures n in ProblemOf(f).stores[p[i]] <==> BlockAssigns(f, p[i], n) { BlockSetsAssigned(f, p[i], n); }
      forall i | 0 <= i < |p| - 1 ensures ProblemOf(f).g.Edge(p[i], p[i + 1]) { assert p[i + 1] in f.blocks[p[i]].successors; }
    }
    if ProblemOf(f).g.EntryPath(p, b) {
      forall i | 0 <= i < |p| - 1 ensures p[i + 1] in f.blocks[p[i]].successors { assert ProblemOf(f).g.Edge(p[i], p[i + 1]); }
    }
  }

  lemma LevelsMean(f: Function, b: nat, n: string)
    requires ProblemOf(f).Valid()
    ensures ProblemOf(f).SomePathAssigns(b, n) <==> MayAssign(f, b, n)
    ensures ProblemOf(f).SomePathSkips(b, n) <==> MaySkip(f, b, n)
  {
    hide EntryRun, RunAssigns, ProblemOf;
    forall p ensures ProblemOf(f).g.EntryPath(p, b) <==> EntryRun(f, p, b)
      ensures EntryRun(f, p, b) ==> (ProblemOf(f).Assigns(p, n) <==> RunAssigns(f, p, n))
    {
      RunsArePaths(f, p, b, n);
    }
  }

  lemma ExactAnswers(f: Function, states: States)
    requires ProblemOf(f).Valid() && Exact(ProblemOf(f), states)
    ensures Answer(f, states)
  {
    var pr := ProblemOf(f);
    hide ProblemOf, MayAssign, MaySkip, EntryRun;
    forall b: nat ensures b in states <==> exists p :: EntryRun(f, p, b) {
      forall p ensures pr.g.EntryPath(p, b) <==> EntryRun(f, p, b) { RunsArePaths(f, p, b, ""); }
    }
    forall b, n | b in states
      ensures (n in states[b] <==> MayAssign(f, b, n)) && (n in states[b] ==> (states[b][n] == Defined <==> !MaySkip(f, b, n)))
    {
      LevelsMean(f, b, n);
      assert Lookup(states[b], n) == pr.AllPaths(b, n);
    }
  }

  // ---- DefinednessVisitor -----------------------------------------------------------------

  function SetAll(env: Env, names: set<string>): Env {
    map n | n in env.Keys + names :: if n in names then Defined else env[n]
  }

  lemma SetAllTwice(env: Env, a: set<string>, b: set<string>)
    ensures SetAll(SetAll(env, a), b) == SetAll(env, a + b)
    ensures SetAll(env, {}) == env
  {}

  method DoSet(env: Env, name: string) returns (r: Env)
    ensures r == SetAll(env, {name})
  {
    r := env[name := Defined];
  }

  method DoSetTarget(env: Env, t: Expr) returns (r: Env)
    ensures r == SetAll(env, TargetSets(t))
    ensures forall n :: Binds(t, n) ==> n in r && r[n] == Defined
    ensures forall n :: !Binds(t, n) ==> (n in r <==> n in env) && (n in r ==> r[n] == env[n])
    decreases t, 0
  {
    forall n ensures n in TargetSets(t) <==> Binds(t, n) { TargetBinds(t, n); }
    hide Binds;
    match t {
      case Name(id, _) => r := DoSet(env, id);
      case Tuple(elts) => r := DoSetTargets(env, elts);
      case Compound(_) => r := env; SetAllTwice(env, {}, {});
    }
  }

  method DoSetTargets(env: Env, ts: seq<Expr>) returns (r: Env)
    ensures r == SetAll(env, TargetsSet(ts))
    decreases ts, 1
  {
    hide SetAll;
    r := env;
    SetAllTwice(env, {}, {});
    for i := 0 to |ts|
      invariant r == SetAll(env, TargetsSet(ts[..i]))
    {
      assert ts[..i + 1][..i] == ts[..i];
      r := DoSetTarget(r, ts[i]);
      SetAllTwice(env, TargetsSet(ts[..i]), TargetSets(ts[i]));
    }
    assert ts[..|ts|] == ts;
  }

  method DoSetNames(env: Env, names: seq<string>) returns (r: Env)
    ensures r == SetAll(env, NamesIn(names))
  {
    hide SetAll;
    r := env;
    SetAllTwice(env, {}, {});
    assert NamesIn(names[..0]) == {};
    for i := 0 to |names|
      invariant r == SetAll(env, NamesIn(names[..i]))
    {
      r := DoSet(r, names[i]);
      SetAllTwice(env, NamesIn(names[..i]), {names[i]});
      assert NamesIn(names[..i + 1]) == NamesIn(names[..i]) + {names[i]};
    }
    assert names[..|names|] == names;
  }

  method VisitStmt(env: Env, s: Stmt) returns (r: Env)
    ensures r == SetAll(env, StmtSets(s))
  {
    match s {
      case Assign(targets, _) => r := DoSetTargets(env, targets);
      case ClassDef(name) => r := DoSet(env, name);
      case FunctionDef(name) => r := DoSet(env, name);
      case Import(names) => r := DoSetNames(env, names);
      case Evaluate(_) => r := env; SetAllTwice(env, {}, {});
    }
  }

  method VisitArguments(env: Env, a: Arguments) returns (r: Env)
    ensures r == SetAll(env, ArgumentSets(a))
  {
    hide SetAll, TargetsSet;
    r := env;
    SetAllTwice(env, {}, {});
    if a.Arguments? {
      r := DoSetTargets(r, a.kwarg);
      var names := TargetsSet(a.kwarg);
      if a.vararg != "" {
        r := DoSet(r, a.vararg);
        SetAllTwice(env, names, {a.vararg});
        names := names + {a.vararg};
      }
      r := DoSetTargets(r, a.args);
      SetAllTwice(env, names, TargetsSet(a.args));
      assert names + TargetsSet(a.args) == ArgumentSets(a);
    }
  }

  method VisitBody(env: Env, body: seq<Stmt>) returns (r: Env)
    ensures r == SetAll(env, BodySets(body))
  {
    hide SetAll, StmtSets;
    r := env;
    SetAllTwice(env, {}, {});
    for i := 0 to |body|
      invariant r == SetAll(env, BodySets(body[..i]))
    {
      assert body[..i + 1][..i] == body[..i];
      r := VisitStmt(r, body[i]);
      SetAllTwice(env, BodySets(body[..i]), StmtSets(body[i]));
    }
    assert body[..|body|] == body;
  }

  /** processBB: the body's statements in order, then at the entry the arguments. */
  method ProcessBB(f: Function, b: nat, starting: Env) returns (r: Env)
    requires ProblemOf(f).Valid() && b < |f.blocks|
    ensures r == Transfer(ProblemOf(f), b, starting)
    ensures forall n :: n in r <==> n in starting || BlockAssigns(f, b, n)
    ensures forall n :: n in r ==> r[n] == if BlockAssigns(f, b, n) then Defined else starting[n]
  {
    hide SetAll, Transfer, BodySets, ArgumentSets, BlockAssigns, BlockSets;
    r := VisitBody(starting, f.blocks[b].body);
    SetAllTwice(r, {}, {});
    if b == 0 {
      r := VisitArguments(r, f.arguments);
      SetAllTwice(starting, BodySets(f.blocks[b].body), ArgumentSets(f.arguments));
    }
    assert BodySets(f.blocks[b].body) + {} == BodySets(f.blocks[b].body);
    TransferSets(f, b, starting);
    TransferAssigns(f, b, starting);
  }

  lemma TransferSets(f: Function, b: nat, env: Env)
    requires ProblemOf(f).Valid() && b < |f.blocks|
    ensures Transfer(ProblemOf(f), b, env) == SetAll(env, BodySets(f.blocks[b].body) + if b == 0 then ArgumentSets(f.arguments) else {})
  {}

  lemma TransferAssigns(f: Function, b: nat, env: Env)
    requires ProblemOf(f).Valid() && b < |f.blocks|
    ensures var r := Transfer(ProblemOf(f), b, env);
      && (forall n :: n in r <==> n in env || BlockAssigns(f, b, n))
      && (forall n :: n in r ==> r[n] == if BlockAssigns(f, b, n) then Defined else env[n])
  {
    forall n ensures n in BlockSets(f, b) <==> BlockAssigns(f, b, n) { BlockSetsAssigned(f, b, n); }
    hide BlockAssigns, BlockSets;
  }

  // ---- the solver's loop ------------------------------------------------------------------

  /** Both loops over map entries in the solver, for one successor. `first` says the successor's
      map was just created empty. */
  method MergeEnding(ending: Env, existing: Env, first: bool) returns (next: Env, changed: bool)
    requires first ==> existing == map[]
    ensures next == if first then ending else MergeInto(ending, existing)
    ensures changed <==> first || next != existing
  {
    next, changed := MergeEntries(ending, existing, first);
    var rest := existing.Keys - ending.Keys;
    while rest != {}
      invariant rest <= existing.Keys - ending.Keys
      invariant next.Keys == existing.Keys + ending.Keys
      invariant forall n :: n in ending ==> next[n] == (if first then ending else MergeInto(ending, existing))[n]
      invariant forall n :: n in existing && n !in ending ==>
          next[n] == if n in rest then existing[n] else MergeBlank(existing[n])
      invariant changed <==> first || next != existing
      decreases rest
    {
      var n :| n in rest;
      rest := rest - {n};
      if MergeBlank(next[n]) != next[n] {
        next := next[n := MergeBlank(next[n])];
        changed := true;
      }
    }
    assert next == if first then ending else MergeInto(ending, existing);
  }

  method MergeEntries(ending: Env, existing: Env, first: bool) returns (next: Env, changed: bool)
    requires first ==> existing == map[]
    ensures next.Keys == existing.Keys + ending.Keys
    ensures forall n :: n in ending ==> next[n] == (if first then ending else MergeInto(ending, existing))[n]
    ensures forall n :: n in existing && n !in ending ==> next[n] == existing[n]
    ensures changed <==> first || next != existing
  {
    next, changed := existing, first;
    var rest := ending.Keys;
    while rest != {}
      invariant rest <= ending.Keys
      invariant next.Keys == existing.Keys + (ending.Keys - rest)
      invariant forall n :: n in ending && n !in rest ==>
          next[n] == (if first then ending else MergeInto(ending, existing))[n]
      invariant forall n :: n in existing && (n in rest || n !in ending) ==> next[n] == existing[n]
      invariant changed <==> first || next != existing
      decreases rest
    {
      var n :| n in rest;
      rest := rest - {n};
      if n !in next {
        changed := true;
        next := next[n := if first then ending[n] else MergeBlank(ending[n])];
      } else if Merge(ending[n], next[n]) != next[n] {
        next := next[n := Merge(ending[n], next[n])];
        changed := true;
      }
    }
  }

  /** The inner loop: merge a block's ending map into every successor and queue what changed. */
  method VisitSuccessors(states0: States, q0: seq<nat>, ending: Env, succs: seq<nat>)
    returns (states: States, q: seq<nat>)
    ensures Solver(states, q) == VisitAll(Solver(states0, q0), ending, succs)
  {
    states, q := states0, q0;
    for i := 0 to |succs|
      invariant Solver(states, q) == VisitAll(Solver(states0, q0), ending, succs[..i])
    {
      assert succs[..i + 1][..i] == succs[..i];
      var next := succs[i];
      var first := next !in states;
      var merged, changed := MergeEnding(ending, if first then map[] else states[next], first);
      states := if changed then states[next := merged] else states;
      if changed { q := q + [next]; }
    }
    assert succs[..|succs|] == succs;
  }

  /** One turn of the solver's loop. */
  method TurnOnce(f: Function, states0: States, q0: seq<nat>) returns (states: States, q: seq<nat>)
    requires ProblemOf(f).Valid() && Running(ProblemOf(f), Solver(states0, q0)) && q0 != []
    ensures Solver(states, q) == Step(ProblemOf(f), Solver(states0, q0))
  {
    hide VisitAll, Transfer;
    var block := q0[|q0| - 1];
    assert block in q0;
    var ending := ProcessBB(f, block, states0[block]);
    states, q := VisitSuccessors(states0, q0[..|q0| - 1], ending, f.blocks[block].successors);
    states := states[block := ending];
  }

  /** computeFixedPoint with the definedness analyzer: it terminates on every calm problem, and
      its result has exactly the reachable blocks, each with the exact all-paths answer. */
  method ComputeFixedPoint(f: Function) returns (states: States)
    requires Calm(ProblemOf(f))
    ensures Answer(f, states) && Exact(ProblemOf(f), states)
  {
    hide Answer, Step, ProblemOf, Witnessed, Absorbed, EndsDefined, EntryBlank, Exact, OpenLevels, Unvisited, QueueWeight;
    ghost var p := ProblemOf(f);
    states := map[0 := map[]];
    var q: seq<nat> := [0];
    StartInvariant(p);
    while |q| > 0
      invariant Invariant(p, Solver(states, q))
      decreases Unvisited(p, states), OpenLevels(p, states), QueueWeight(p, q)
    {
      ghost var before := Solver(states, q);
      StepInvariant(p, before);
      StepLowersMeasure(p, before);
      states, q := TurnOnce(f, states, q);
      assert Solver(states, q) == Step(p, before);
    }
    EmptyQueueExact(p, Solver(states, q));
    CalmIsValid(p);
    ExactAnswers(f, states);
  }

  lemma CalmIsValid(p: Problem)
    requires Calm(p)
    ensures p.Valid()
  {}
}
