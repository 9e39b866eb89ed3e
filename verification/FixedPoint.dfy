/** The generic forward solver (src/analysis/fpc.h) running the definedness analysis: its states,
    one step of its worklist, and the imperative loop itself. */
module FixedPoint {
  import opened Graph

  datatype DefinitionLevel = Undefined | PotentiallyDefined | Defined

  /** `Undefined` is never stored: it is the level of a name that is absent from the map. */
  type Stored = l: DefinitionLevel | l != Undefined witness Defined
  type Env = map<string, Stored>

  function Lookup(env: Env, n: string): DefinitionLevel {
    if n in env then env[n] else Undefined
  }

  /** The analyzer's merge of two present levels. */
  function Merge(from: Stored, into: Stored): Stored {
    if from == PotentiallyDefined || into == PotentiallyDefined then PotentiallyDefined else Defined
  }

  /** The analyzer's merge of a present level with an absent one. */
  function MergeBlank(into: Stored): Stored {
    PotentiallyDefined
  }

  /** The graph, and per block the names that processing the block sets (the entry block's
      set includes the function's arguments). */
  datatype Problem = Problem(g: Graph, stores: seq<set<string>>) {
    predicate Valid() {
      g.Valid() && |stores| == |g.succs|
    }

    function N(): nat { |g.succs| }

    function AllNames(): set<string> {
      set b, n | 0 <= b < |stores| && n in stores[b] :: n
    }

    /** Some block of the path p sets the name n. */
    predicate Assigns(p: seq<nat>, n: string) {
      exists i :: 0 <= i < |p| && p[i] < |stores| && n in stores[p[i]]
    }

    ghost predicate SomePathAssigns(b: nat, n: string)
    {
      exists p :: g.EntryPath(p, b) && Assigns(p, n)
    }

    ghost predicate SomePathSkips(b: nat, n: string)
    {
      exists p :: g.EntryPath(p, b) && !Assigns(p, n)
    }

    /** The exact answer at the end of block b over all entry paths. */
    ghost function AllPaths(b: nat, n: string): DefinitionLevel
    {
      if !SomePathAssigns(b, n) then Undefined
      else if SomePathSkips(b, n) then PotentiallyDefined
      else Defined
    }
  }

  /** processBB: every name the block sets becomes Defined. */
  function Transfer(p: Problem, b: nat, env: Env): (e: Env)
    requires p.Valid() && b < p.N()
    ensures forall n :: Lookup(e, n) == if n in p.stores[b] then Defined else Lookup(env, n)
  {
    map n | n in env.Keys + p.stores[b] :: if n in p.stores[b] then Defined else env[n]
  }

  /** Merging a block's ending map into a successor's existing map. */
  function MergeInto(from: Env, into: Env): Env {
    map n | n in from.Keys + into.Keys ::
      if n in from && n in into then Merge(from[n], into[n])
      else if n in from then MergeBlank(from[n])
      else MergeBlank(into[n])
  }

  function Join(a: DefinitionLevel, b: DefinitionLevel): DefinitionLevel {
    if a == b then a else PotentiallyDefined
  }

  lemma MergeIntoIsJoin(from: Env, into: Env, n: string)
    ensures Lookup(MergeInto(from, into), n) == Join(Lookup(from, n), Lookup(into, n))
  {}

  type States = map<nat, Env>

  datatype Solver = Solver(states: States, q: seq<nat>)

  /** One edge of the inner loop: merge into `next`, and queue it when it changed or is new. */
  function Visit(s: Solver, ending: Env, next: nat): Solver {
    if next !in s.states then
      Solver(s.states[next := ending], s.q + [next])
    else
      var merged := MergeInto(ending, s.states[next]);
      if merged == s.states[next] then s
      else Solver(s.states[next := merged], s.q + [next])
  }

  function VisitAll(s: Solver, ending: Env, succs: seq<nat>): Solver {
    if succs == [] then s
    else Visit(VisitAll(s, ending, succs[..|succs| - 1]), ending, succs[|succs| - 1])
  }

  predicate Running(p: Problem, s: Solver) {
    && p.Valid()
    && (forall b :: b in s.states ==> b < p.N())
    && (forall b :: b in s.q ==> b in s.states)
  }

  function Start(): Solver {
    Solver(map[0 := map[]], [0])
  }

  /** One turn of the worklist loop. */
  function Step(p: Problem, s: Solver): Solver
    requires Running(p, s) && s.q != []
  {
    var b := s.q[|s.q| - 1];
    var ending := Transfer(p, b, s.states[b]);
    var after := VisitAll(Solver(s.states, s.q[..|s.q| - 1]), ending, p.g.succs[b]);
    Solver(after.states[b := ending], after.q)
  }

  // ---- what visiting the successors does, block by block --------------------------------

  /** The map of block v after the successors in `succs` were visited with `ending`. */
  function After(states: States, ending: Env, succs: seq<nat>, v: nat): (e: Env)
    requires v in states || v in succs
  {
    if v !in succs then states[v]
    else if v !in states then ending
    else MergeInto(ending, states[v])
  }

  lemma MergeIdempotent(from: Env, into: Env)
    ensures MergeInto(from, MergeInto(from, into)) == MergeInto(from, into)
    ensures MergeInto(from, from) == from
  {}

  lemma {:induction false} VisitAllStates(s: Solver, ending: Env, succs: seq<nat>)
    ensures var t := VisitAll(s, ending, succs);
      && t.states.Keys == s.states.Keys + (set v | v in succs)
      && (forall v :: v in t.states ==> t.states[v] == After(s.states, ending, succs, v))
  {
    if succs != [] {
      var init, v := succs[..|succs| - 1], succs[|succs| - 1];
      assert succs == init + [v];
      VisitAllStates(s, ending, init);
      MergeIdempotent(ending, ending);
      if v in s.states { MergeIdempotent(ending, s.states[v]); }
    }
  }

  /** A block was added, or its map changed, between two collections of states. */
  predicate Touched(before: States, after: States, v: nat) {
    v in after && (v !in before || after[v] != before[v])
  }

  lemma {:induction false} VisitAllQueue(s: Solver, ending: Env, succs: seq<nat>)
    ensures var t := VisitAll(s, ending, succs);
      && s.q <= t.q
      && (forall i :: |s.q| <= i < |t.q| ==> t.q[i] in succs)
      && (forall v :: Touched(s.states, t.states, v) ==> v in t.q)
  {
    if succs != [] {
      var init, v := succs[..|succs| - 1], succs[|succs| - 1];
      assert succs == init + [v];
      VisitAllQueue(s, ending, init);
      var m, t := VisitAll(s, ending, init), VisitAll(s, ending, succs);
      forall x | Touched(s.states, t.states, x) ensures x in t.q {
        if x == v && t != m { assert t.q[|t.q| - 1] == v; }
        else { assert Touched(s.states, m.states, x); }
      }
    }
  }

  /** One step, block by block: everything the invariants need to know about it. */
  ghost predicate StepEffect(p: Problem, s: Solver, t: Solver, b: nat)
    requires Running(p, s) && b in s.states
  {
    var ending := Transfer(p, b, s.states[b]);
    var succs := p.g.succs[b];
    && t.states.Keys == s.states.Keys + (set v | v in succs)
    && t.states[b] == ending
    && (forall v :: v in t.states && v != b ==> t.states[v] == After(s.states, ending, succs, v))
    && (forall v :: v in s.q && v != b ==> v in t.q)
    && (forall v :: v in t.q ==> v in s.q || v in succs)
    && (forall v :: v != b && Touched(s.states, t.states, v) ==> v in t.q)
  }

  lemma StepEffects(p: Problem, s: Solver)
    requires Running(p, s) && s.q != []
    ensures StepEffect(p, s, Step(p, s), s.q[|s.q| - 1])
    ensures Running(p, Step(p, s))
  {
    var b, rest := s.q[|s.q| - 1], s.q[..|s.q| - 1];
    var ending := Transfer(p, b, s.states[b]);
    VisitAllStates(Solver(s.states, rest), ending, p.g.succs[b]);
    VisitAllQueue(Solver(s.states, rest), ending, p.g.succs[b]);
    var t := Step(p, s);
    assert s.q == rest + [b];
    forall v | v in t.q ensures v in t.states && (v in s.q || v in p.g.succs[b]) {
      var i :| 0 <= i < |t.q| && t.q[i] == v;
      if i < |rest| { assert v in rest; }
    }
  }
}
