/** Exactly when the solver of src/analysis/fpc.h terminates. It stores ending states in the map
    it merges into, so an edge can re-queue its target for ever: an edge into a block that
    stores a name which some entry path leaves unassigned at the edge's source. The solver
    stops if and only if these edges form no cycle. */
module FixedPointTermination {
  import opened Graph
  import opened FixedPoint
  import opened FixedPointExact

  /** The edge from u to v always changes v's stored map again. */
  ghost predicate Disturbs(p: Problem, u: nat, v: nat) {
    && u < p.N() && v < |p.stores| && p.g.Edge(u, v)
    && exists n :: n in p.stores[v] && p.SomePathSkips(u, n)
  }

  ghost function Disturbing(p: Problem): (nat, nat) -> bool {
    (u: nat, v: nat) => Disturbs(p, u, v)
  }

  ghost predicate Calm(p: Problem) {
    p.Valid() && Acyclic(Disturbing(p), p.N())
  }

  // ---- the measure ------------------------------------------------------------------------

  /** One for the block itself plus the weights of everything its disturbing edges re-queue. */
  ghost function Weight(p: Problem, u: nat): nat
    requires Calm(p) && u < p.N()
    decreases Rank(Disturbing(p), p.N(), u), |p.g.succs[u]| + 1
  {
    1 + EdgeWeights(p, u, |p.g.succs[u]|)
  }

  ghost function EdgeWeights(p: Problem, u: nat, k: nat): nat
    requires Calm(p) && u < p.N() && k <= |p.g.succs[u]|
    decreases Rank(Disturbing(p), p.N(), u), k
  {
    if k == 0 then 0
    else
      var v := p.g.succs[u][k - 1];
      EdgeWeights(p, u, k - 1) +
      if Disturbing(p)(u, v) then RankDrops(Disturbing(p), p.N(), u, v); Weight(p, v) else 0
  }

  ghost function QueueWeight(p: Problem, q: seq<nat>): nat
    requires Calm(p) && forall b :: b in q ==> b < p.N()
  {
    if q == [] then 0
    else
      var init := q[..|q| - 1];
      assert q[|q| - 1] in q && forall b :: b in init ==> b in q;
      QueueWeight(p, init) + Weight(p, q[|q| - 1])
  }

  ghost function Unvisited(p: Problem, states: States): set<nat> {
    set b: nat | b < p.N() && b !in states
  }

  /** A level that can still move for good: not yet PotentiallyDefined at a block that does not
      store the name, or still absent at a block that does. */
  predicate Open(p: Problem, states: States, b: nat, n: string)
    requires b in states && b < |p.stores|
  {
    var l := Lookup(states[b], n);
    if n in p.stores[b] then l == Undefined else l != PotentiallyDefined
  }

  ghost function OpenLevels(p: Problem, states: States): set<(nat, string)>
    requires p.Valid()
  {
    set b: nat, n | b < p.N() && n in p.AllNames() && b in states && Open(p, states, b, n) :: (b, n)
  }

  // ---- one step lowers it -----------------------------------------------------------------

  lemma StepCloses(p: Problem, s: Solver, t: Solver, b: nat, v: nat, n: string)
    requires Invariant(p, s) && b in s.states && StepEffect(p, s, t, b)
    requires v in s.states && Open(p, t.states, v, n)
    ensures Open(p, s.states, v, n)
  {
    if v != b && v in p.g.succs[b] {
      MergeIntoIsJoin(Transfer(p, b, s.states[b]), s.states[v], n);
    }
  }

  lemma OpenLevelsShrink(p: Problem, s: Solver, t: Solver, b: nat)
    requires Invariant(p, s) && b in s.states && StepEffect(p, s, t, b)
    ensures Unvisited(p, t.states) <= Unvisited(p, s.states)
    ensures Unvisited(p, t.states) == Unvisited(p, s.states) ==> OpenLevels(p, t.states) <= OpenLevels(p, s.states)
  {
    if Unvisited(p, t.states) == Unvisited(p, s.states) {
      forall v, n | (v, n) in OpenLevels(p, t.states) ensures (v, n) in OpenLevels(p, s.states) {
        assert v !in Unvisited(p, t.states);
        StepCloses(p, s, t, b, v, n);
      }
    }
  }

  lemma MapsDiffer(a: Env, b: Env) returns (n: string)
    requires a != b
    ensures Lookup(a, n) != Lookup(b, n)
  {
    if exists m :: m in a.Keys && (m !in b || a[m] != b[m]) {
      n :| n in a.Keys && (n !in b || a[n] != b[n]);
    } else {
      assert a.Keys != b.Keys;
      n :| n in b.Keys && n !in a;
    }
  }

  lemma SameOpenLevels(p: Problem, s: Solver, t: Solver, v: nat, n: string)
    requires p.Valid() && v < p.N() && v in s.states && v in t.states && n in p.AllNames()
    requires OpenLevels(p, t.states) == OpenLevels(p, s.states)
    ensures Open(p, s.states, v, n) <==> Open(p, t.states, v, n)
  {
    assert (v, n) in OpenLevels(p, s.states) <==> (v, n) in OpenLevels(p, t.states);
  }

  /** When no level closes, whatever a merge changes is changed along a disturbing edge. */
  lemma ChangeDisturbs(p: Problem, s: Solver, t: Solver, b: nat, v: nat)
    requires Invariant(p, s) && b in s.states && StepEffect(p, s, t, b)
    requires p.g.Edge(b, v) && v in s.states
    requires MergeInto(Transfer(p, b, s.states[b]), s.states[v]) != s.states[v]
    requires OpenLevels(p, t.states) == OpenLevels(p, s.states)
    ensures Disturbs(p, b, v)
  {
    var ending := Transfer(p, b, s.states[b]);
    var n := MapsDiffer(MergeInto(ending, s.states[v]), s.states[v]);
    MergeIntoIsJoin(ending, s.states[v], n);
    EndingWitnessed(p, s, b, n);
    assert LevelWitnessed(p, v, n, Lookup(s.states[v], n));
    AssignedIsNamed(p, if p.SomePathAssigns(b, n) then b else v, n);
    SameOpenLevels(p, s, t, v, n);
  }

  lemma AssignedIsNamed(p: Problem, b: nat, n: string)
    requires p.SomePathAssigns(b, n)
    ensures n in p.AllNames()
  {
    var w :| p.g.EntryPath(w, b) && p.Assigns(w, n);
    var i :| 0 <= i < |w| && w[i] < |p.stores| && n in p.stores[w[i]];
  }

  /** If every change is along a disturbing edge, the visits add at most the edges' weights. */
  lemma {:induction false} VisitsWeigh(p: Problem, m: Solver, ending: Env, b: nat, k: nat)
    requires Calm(p) && Running(p, m) && b < p.N() && k <= |p.g.succs[b]|
    requires forall v: nat :: p.g.Edge(b, v) ==> v in m.states
    requires forall v: nat :: p.g.Edge(b, v) && MergeInto(ending, m.states[v]) != m.states[v] ==> Disturbs(p, b, v)
    ensures var t := VisitAll(m, ending, p.g.succs[b][..k]);
      && (forall x :: x in t.q ==> x < p.N())
      && QueueWeight(p, t.q) <= QueueWeight(p, m.q) + EdgeWeights(p, b, k)
  {
    if k > 0 {
      var init := p.g.succs[b][..k - 1];
      var v := p.g.succs[b][k - 1];
      assert p.g.succs[b][..k] == init + [v];
      assert p.g.Edge(b, v);
      VisitsWeigh(p, m, ending, b, k - 1);
      VisitAllStates(m, ending, init);
      var h := VisitAll(m, ending, init);
      MergeIdempotent(ending, m.states[v]);
      if Visit(h, ending, v) != h {
        assert (h.q + [v])[..|h.q|] == h.q;
      }
    }
  }

  lemma StepLowersMeasure(p: Problem, s: Solver)
    requires Calm(p) && Invariant(p, s) && s.q != []
    ensures var t := Step(p, s);
      && Running(p, t)
      && Unvisited(p, t.states) <= Unvisited(p, s.states)
      && (Unvisited(p, t.states) == Unvisited(p, s.states) ==>
            && OpenLevels(p, t.states) <= OpenLevels(p, s.states)
            && (OpenLevels(p, t.states) == OpenLevels(p, s.states) ==> QueueWeight(p, t.q) < QueueWeight(p, s.q)))
  {
    var t, b := Step(p, s), s.q[|s.q| - 1];
    StepEffects(p, s);
    StepInvariant(p, s);
    OpenLevelsShrink(p, s, t, b);
    if Unvisited(p, t.states) == Unvisited(p, s.states) && OpenLevels(p, t.states) == OpenLevels(p, s.states) {
      var m := Solver(s.states, s.q[..|s.q| - 1]);
      var ending := Transfer(p, b, s.states[b]);
      forall v: nat | p.g.Edge(b, v) ensures v in m.states {
        assert v !in Unvisited(p, t.states);
      }
      forall v: nat | p.g.Edge(b, v) && MergeInto(ending, m.states[v]) != m.states[v] ensures Disturbs(p, b, v) {
        ChangeDisturbs(p, s, t, b, v);
      }
      VisitsWeigh(p, m, ending, b, |p.g.succs[b]|);
      assert p.g.succs[b][..|p.g.succs[b]|] == p.g.succs[b];
    }
  }

  // ---- runs -------------------------------------------------------------------------------

  /** The solver after k turns; an empty queue ends the loop. */
  ghost function Turns(p: Problem, s: Solver, k: nat): Solver
    decreases k
  {
    if k == 0 || s.q == [] || !Running(p, s) then s else Turns(p, Step(p, s), k - 1)
  }

  ghost predicate Halts(p: Problem) {
    exists k :: Turns(p, Start(), k).q == []
  }

  lemma {:induction false} CalmHalts(p: Problem, s: Solver) returns (k: nat)
    requires Calm(p) && Invariant(p, s)
    ensures Turns(p, s, k).q == []
    decreases Unvisited(p, s.states), OpenLevels(p, s.states), QueueWeight(p, s.q)
  {
    k := 0;
    if s.q != [] {
      StepLowersMeasure(p, s);
      StepInvariant(p, s);
      k := CalmHalts(p, Step(p, s));
      k := k + 1;
    }
  }

  lemma {:induction false} TurnsInvariant(p: Problem, s: Solver, k: nat)
    requires Invariant(p, s)
    ensures Invariant(p, Turns(p, s, k))
    decreases k
  {
    hide Step, Witnessed, Absorbed, EndsDefined, EntryBlank;
    if k > 0 && s.q != [] {
      StepInvariant(p, s);
      TurnsInvariant(p, Step(p, s), k - 1);
    }
  }

  // ---- a cycle of disturbing edges never leaves the queue --------------------------------

  /** A non-empty closed set of blocks, each with a disturbing edge to the member it maps to. */
  ghost predicate DisturbedLoop(p: Problem, next: map<nat, nat>) {
    next != map[] && forall u {:trigger Hops(p, next, u)} :: u in next ==> Hops(p, next, u)
  }

  ghost predicate Hops(p: Problem, next: map<nat, nat>, u: nat) {
    u in next && next[u] in next && Disturbs(p, u, next[u])
  }

  /** The block that follows x in the chain c. */
  ghost function Following(c: seq<nat>, x: nat): nat
    requires |c| >= 2
  {
    if c[0] == x || |c| == 2 then c[1] else Following(c[1..], x)
  }

  lemma {:induction false} FollowingFollows(R: (nat, nat) -> bool, n: nat, c: seq<nat>, u: nat, v: nat, x: nat)
    requires Chain(R, n, c, u, v) && x in c[..|c| - 1]
    ensures R(x, Following(c, x)) && Following(c, x) in c[1..]
  {
    assert R(c[0], c[1]);
    if c[0] != x && |c| > 2 {
      var d := c[1..];
      forall i | 0 <= i < |d| - 1 ensures R(d[i], d[i + 1]) {
        assert R(c[i + 1], c[i + 2]);
      }
      FollowingFollows(R, n, d, d[0], v, x);
    }
  }

  lemma CycleIsLoop(p: Problem, u: nat) returns (next: map<nat, nat>)
    requires p.Valid() && Leads(Disturbing(p), p.N(), u, u)
    ensures DisturbedLoop(p, next)
  {
    var w :| Chain(Disturbing(p), p.N(), w, u, u);
    var init := w[..|w| - 1];
    next := map x | x in init :: Following(w, x);
    assert init[0] in next;
    forall x: nat | x in next ensures Hops(p, next, x) {
      FollowingFollows(Disturbing(p), p.N(), w, u, u, x);
      var i :| 0 <= i < |w| - 1 && w[1..][i] == next[x];
      if i + 1 == |w| - 1 { assert init[0] == next[x]; }
      else { assert init[i + 1] == next[x]; }
    }
  }

  /** Once b was stepped with its final state, the block it disturbs does not hold its own. */
  lemma DisturbanceShows(p: Problem, s: Solver, t: Solver, final: States, b: nat, v: nat)
    requires Invariant(p, s) && b in s.states && StepEffect(p, s, t, b)
    requires Exact(p, final) && Disturbs(p, b, v)
    requires b in final && t.states[b] == final[b] && v in final
    ensures t.states[v] != final[v]
  {
    var n :| n in p.stores[v] && p.SomePathSkips(b, n);
    OwnStoreAssigns(p, v, n);
    assert Lookup(final[v], n) == p.AllPaths(v, n) == Defined;
    assert Lookup(final[b], n) == p.AllPaths(b, n) != Defined;
    if v in s.states {
      MergeIntoIsJoin(Transfer(p, b, s.states[b]), s.states[v], n);
    }
    assert Lookup(t.states[v], n) != Defined;
  }

  ghost predicate Finished(s: Solver, final: States, u: nat) {
    u in s.states && u in final && u !in s.q && s.states[u] == final[u]
  }

  /** Looking back from an empty queue, no loop member was ever queued. */
  lemma {:induction false} LoopNeverQueued(p: Problem, s: Solver, k: nat, next: map<nat, nat>, end: Solver)
    requires Invariant(p, s) && DisturbedLoop(p, next)
    requires end == Turns(p, s, k) && end.q == []
    requires Exact(p, end.states)
    ensures forall u :: u in next ==> Finished(s, end.states, u)
    decreases k
  {
    hide Step, Witnessed, Absorbed, EndsDefined, EntryBlank, Finished, DisturbedLoop;
    if s.q == [] {
      LoopVisitedAtEnd(p, s, next);
    } else {
      assert end == Turns(p, Step(p, s), k - 1);
      StepInvariant(p, s);
      LoopNeverQueued(p, Step(p, s), k - 1, next, end);
      LoopWasFinished(p, s, end.states, next);
    }
  }

  lemma LoopVisitedAtEnd(p: Problem, s: Solver, next: map<nat, nat>)
    requires s.q == [] && Exact(p, s.states) && DisturbedLoop(p, next)
    ensures forall u :: u in next ==> Finished(s, s.states, u)
  {
    forall u | u in next ensures u in s.states { LoopReachable(p, next, u); }
  }

  lemma LoopWasFinished(p: Problem, s: Solver, final: States, next: map<nat, nat>)
    requires Invariant(p, s) && s.q != [] && DisturbedLoop(p, next) && Exact(p, final)
    requires forall u :: u in next ==> Finished(Step(p, s), final, u)
    ensures forall u :: u in next ==> Finished(s, final, u)
  {
    var t, b := Step(p, s), s.q[|s.q| - 1];
    StepEffects(p, s);
    assert b !in next by {
      if b in next {
        assert Hops(p, next, b);
        assert Finished(t, final, b) && Finished(t, final, next[b]);
        DisturbanceShows(p, s, t, final, b, next[b]);
      }
    }
    forall u | u in next ensures Finished(s, final, u) {
      assert Finished(t, final, u);
      assert !Touched(s.states, t.states, u);
    }
  }

  lemma LoopReachable(p: Problem, next: map<nat, nat>, u: nat)
    requires DisturbedLoop(p, next) && u in next
    ensures p.g.Reachable(u)
  {
    assert Hops(p, next, u);
    var n :| n in p.stores[next[u]] && p.SomePathSkips(u, n);
    var w :| p.g.EntryPath(w, u) && !p.Assigns(w, n);
  }

  /** A loop that is never queued cannot contain the entry, and so not the first visited block. */
  lemma LoopKeepsRunning(p: Problem, k: nat, next: map<nat, nat>)
    requires p.Valid() && DisturbedLoop(p, next)
    ensures Turns(p, Start(), k).q != []
  {
    StartInvariant(p);
    var end := Turns(p, Start(), k);
    var x :| x in next;
    assert !Finished(Start(), end.states, x);
    if end.q == [] {
      TurnsInvariant(p, Start(), k);
      EmptyQueueExact(p, end);
      LoopNeverQueued(p, Start(), k, next, end);
    }
  }

  lemma HaltingIsAcyclic(p: Problem, k: nat, u: nat)
    requires p.Valid() && Turns(p, Start(), k).q == []
    ensures !Leads(Disturbing(p), p.N(), u, u)
  {
    if Leads(Disturbing(p), p.N(), u, u) {
      var next := CycleIsLoop(p, u);
      LoopKeepsRunning(p, k, next);
    }
  }

  /** The solver stops exactly when its disturbing edges form no cycle. */
  lemma HaltsIffCalm(p: Problem)
    requires p.Valid()
    ensures Halts(p) <==> Calm(p)
  {
    if Calm(p) {
      StartInvariant(p);
      var k := CalmHalts(p, Start());
    }
    if Halts(p) {
      var k :| Turns(p, Start(), k).q == [];
      forall u: nat ensures !Leads(Disturbing(p), p.N(), u, u) { HaltingIsAcyclic(p, k, u); }
    }
  }

  // ---- graphs whose cycles have headers ---------------------------------------------------

  /** A walk that comes back to the block it started from. */
  ghost predicate Cycle(g: Graph, c: seq<nat>) {
    |c| >= 2 && g.Walk(c) && c[0] == c[|c| - 1]
  }

  /** Every cycle enters some block along an edge whose source that block dominates. In
      particular this holds when some block of the cycle dominates all the others. */
  ghost predicate CyclesHaveHeaders(g: Graph) {
    forall c :: Cycle(g, c) ==> exists i :: 0 <= i < |c| - 1 && g.Dominates(c[i + 1], c[i])
  }

  lemma DominatorUndisturbed(p: Problem, u: nat, v: nat)
    requires p.Valid() && v < p.N() && p.g.Dominates(v, u)
    ensures !Disturbs(p, u, v)
  {
    forall n | n in p.stores[v] ensures !p.SomePathSkips(u, n) {
      forall w | p.g.EntryPath(w, u) ensures p.Assigns(w, n) {
        var i :| 0 <= i < |w| && w[i] == v;
      }
    }
  }

  /** With loop headers that dominate, the solver halts whatever the blocks store. */
  lemma HeadersMakeCalm(p: Problem)
    requires p.Valid() && CyclesHaveHeaders(p.g)
    ensures Calm(p)
  {
    forall u: nat, c ensures !Chain(Disturbing(p), p.N(), c, u, u) {
      HeaderBreaksChain(p, c, u);
    }
  }

  lemma ChainIsCycle(p: Problem, c: seq<nat>, u: nat)
    requires p.Valid()
    ensures Chain(Disturbing(p), p.N(), c, u, u) ==> Cycle(p.g, c)
  {
    if Chain(Disturbing(p), p.N(), c, u, u) {
      forall i | 0 <= i < |c| - 1 ensures p.g.Edge(c[i], c[i + 1]) {
        assert Disturbing(p)(c[i], c[i + 1]);
      }
    }
  }

  lemma HeaderBreaksChain(p: Problem, c: seq<nat>, u: nat)
    requires p.Valid() && CyclesHaveHeaders(p.g)
    ensures !Chain(Disturbing(p), p.N(), c, u, u)
  {
    ChainIsCycle(p, c, u);
    if Cycle(p.g, c) {
      var i :| 0 <= i < |c| - 1 && p.g.Dominates(c[i + 1], c[i]);
      DominatorUndisturbed(p, c[i], c[i + 1]);
      assert !Disturbing(p)(c[i], c[i + 1]);
    }
  }

  /** A cycle whose blocks are all dominated by one of them has a header edge. */
  lemma DominatedCycleHasHeader(g: Graph, c: seq<nat>, d: nat)
    requires Cycle(g, c) && d in c && forall x :: x in c ==> g.Dominates(d, x)
    ensures exists i :: 0 <= i < |c| - 1 && g.Dominates(c[i + 1], c[i])
  {
    var j :| 0 <= j < |c| && c[j] == d;
    var i := if j == 0 then |c| - 2 else j - 1;
    assert c[i] in c;
    assert c[i + 1] == d;
  }

  // ---- the two-entry loop -----------------------------------------------------------------

  /** Entry 0 branches to 1 and 2, which jump to each other; 1 stores a and 2 stores c. */
  function TwoEntryLoop(): Problem {
    Problem(Graph([[1, 2], [2], [1]]), [{}, {"a"}, {"c"}])
  }

  lemma TwoEntryLoopDiverges()
    ensures TwoEntryLoop().Valid() && !Halts(TwoEntryLoop())
  {
    var p := TwoEntryLoop();
    var R := Disturbing(p);
    assert p.N() == 3;
    assert p.g.EntryPath([0, 1], 1) && p.g.EntryPath([0, 2], 2);
    assert "a" != "c" by { assert "a"[0] != "c"[0]; }
    assert !p.Assigns([0, 1], "c") && !p.Assigns([0, 2], "a");
    assert "c" in p.stores[2] && "a" in p.stores[1];
    assert p.SomePathSkips(1, "c") && p.SomePathSkips(2, "a");
    assert p.g.Edge(1, 2) && p.g.Edge(2, 1);
    assert Disturbs(p, 1, 2) && Disturbs(p, 2, 1);
    assert R(1, 2) && R(2, 1);
    assert Chain(R, p.N(), [1, 2, 1], 1, 1);
    assert Leads(Disturbing(p), p.N(), 1, 1);
    HaltsIffCalm(p);
  }
}
