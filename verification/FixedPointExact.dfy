/** Whatever the solver stores is justified by entry paths, and when its queue is empty the
    stored levels are the exact all-paths answers, although merges act on ending states. */
module FixedPointExact {
  import opened Graph
  import opened FixedPoint

  /** No level claims more or less than some entry path shows. */
  ghost predicate Witnessed(p: Problem, s: Solver) {
    && (forall b :: b in s.states ==> p.g.Reachable(b))
    && (forall b, n {:trigger LevelWitnessed(p, b, n, Lookup(s.states[b], n))} :: b in s.states ==> LevelWitnessed(p, b, n, Lookup(s.states[b], n)))
  }

  ghost predicate LevelWitnessed(p: Problem, b: nat, n: string, l: DefinitionLevel) {
    && (l != Undefined ==> p.SomePathAssigns(b, n))
    && (l != Defined && b < |p.stores| && n !in p.stores[b] ==> p.SomePathSkips(b, n))
  }

  /** Block u is waiting for no further turn. */
  predicate Settled(s: Solver, u: nat) {
    u in s.states && u !in s.q
  }

  /** A settled block has its ending state: every name it stores is Defined. */
  ghost predicate EndsDefined(p: Problem, s: Solver)
    requires Running(p, s)
  {
    forall u: nat, n {:trigger Settled(s, u), n in p.stores[u]} :: Settled(s, u) && n in p.stores[u] ==> Lookup(s.states[u], n) == Defined
  }

  /** The successors of a settled block are known and have absorbed its levels. */
  ghost predicate Absorbed(p: Problem, s: Solver)
    requires Running(p, s)
  {
    && (forall u: nat, v: nat {:trigger Settled(s, u), p.g.Edge(u, v)} :: Settled(s, u) && p.g.Edge(u, v) ==> v in s.states)
    && (forall u: nat, v: nat, n {:trigger Settled(s, u), p.g.Edge(u, v), n in p.stores[v]} :: Settled(s, u) && p.g.Edge(u, v) && n !in p.stores[v] ==>
          Below(Lookup(s.states[u], n), Lookup(s.states[v], n)))
  }

  /** The entry block never loses its blank start. */
  ghost predicate EntryBlank(p: Problem, s: Solver)
    requires Running(p, s)
  {
    0 in s.states && forall n :: n !in p.stores[0] ==> Lookup(s.states[0], n) != Defined
  }

  predicate Below(a: DefinitionLevel, b: DefinitionLevel) {
    a == b || b == PotentiallyDefined
  }

  ghost predicate Invariant(p: Problem, s: Solver) {
    Running(p, s) && Witnessed(p, s) && EndsDefined(p, s) && Absorbed(p, s) && EntryBlank(p, s)
  }

  lemma StartInvariant(p: Problem)
    requires p.Valid()
    ensures Invariant(p, Start())
  {
    assert p.g.EntryPath([0], 0);
    assert !exists u: nat :: Settled(Start(), u);
    forall n | n !in p.stores[0] ensures p.SomePathSkips(0, n) {
      assert !p.Assigns([0], n);
    }
  }

  // ---- witnesses extend along edges -------------------------------------------------------

  lemma AssignsSnoc(p: Problem, w: seq<nat>, b: nat, n: string)
    ensures p.Assigns(w + [b], n) <==> p.Assigns(w, n) || (b < |p.stores| && n in p.stores[b])
  {
    var x := w + [b];
    forall i | 0 <= i < |w| ensures x[i] == w[i] {}
    if b < |p.stores| && n in p.stores[b] { assert x[|w|] == b; }
  }

  lemma AssignsExtends(p: Problem, u: nat, v: nat, n: string)
    requires p.Valid() && p.g.Edge(u, v) && p.SomePathAssigns(u, n)
    ensures p.SomePathAssigns(v, n)
  {
    var w :| p.g.EntryPath(w, u) && p.Assigns(w, n);
    EntryPathExtends(p.g, w, u, v);
    AssignsSnoc(p, w, v, n);
  }

  lemma SkipsExtends(p: Problem, u: nat, v: nat, n: string)
    requires p.Valid() && p.g.Edge(u, v) && p.SomePathSkips(u, n) && n !in p.stores[v]
    ensures p.SomePathSkips(v, n)
  {
    var w :| p.g.EntryPath(w, u) && !p.Assigns(w, n);
    EntryPathExtends(p.g, w, u, v);
    AssignsSnoc(p, w, v, n);
  }

  lemma OwnStoreAssigns(p: Problem, b: nat, n: string)
    requires p.Valid() && b < p.N() && n in p.stores[b]
    ensures p.g.Reachable(b) ==> p.SomePathAssigns(b, n)
    ensures !p.SomePathSkips(b, n)
  {
    forall w | p.g.EntryPath(w, b) ensures p.Assigns(w, n) {
      assert w[|w| - 1] == b;
    }
    if p.g.Reachable(b) { var w :| p.g.EntryPath(w, b); assert p.Assigns(w, n); }
  }

  // ---- one step keeps the invariant -------------------------------------------------------

  lemma EndingWitnessed(p: Problem, s: Solver, b: nat, n: string)
    requires Invariant(p, s) && b in s.states
    ensures LevelWitnessed(p, b, n, Lookup(Transfer(p, b, s.states[b]), n))
    ensures Lookup(Transfer(p, b, s.states[b]), n) != Defined ==> p.SomePathSkips(b, n)
  {
    if n in p.stores[b] { OwnStoreAssigns(p, b, n); }
    assert LevelWitnessed(p, b, n, Lookup(s.states[b], n));
  }

  lemma ArrivingWitnessed(p: Problem, u: nat, v: nat, n: string, l: DefinitionLevel)
    requires p.Valid() && p.g.Edge(u, v)
    requires l != Undefined ==> p.SomePathAssigns(u, n)
    requires l != Defined ==> p.SomePathSkips(u, n)
    ensures LevelWitnessed(p, v, n, l)
  {
    if l != Undefined { AssignsExtends(p, u, v, n); }
    if l != Defined && v < |p.stores| && n !in p.stores[v] { SkipsExtends(p, u, v, n); }
  }

  lemma JoinWitnessed(p: Problem, v: nat, n: string, a: DefinitionLevel, b: DefinitionLevel)
    requires LevelWitnessed(p, v, n, a) && LevelWitnessed(p, v, n, b)
    ensures LevelWitnessed(p, v, n, Join(a, b))
  {}

  lemma StepWitnessed(p: Problem, s: Solver, t: Solver, b: nat)
    requires Invariant(p, s) && b in s.states && StepEffect(p, s, t, b)
    ensures Witnessed(p, t)
  {
    var ending := Transfer(p, b, s.states[b]);
    forall v | v in t.states ensures p.g.Reachable(v) {
      if v !in s.states {
        var w :| p.g.EntryPath(w, b);
        EntryPathExtends(p.g, w, b, v);
      }
    }
    forall v, n | v in t.states ensures LevelWitnessed(p, v, n, Lookup(t.states[v], n)) {
      EndingWitnessed(p, s, b, n);
      if v != b && v in p.g.succs[b] {
        ArrivingWitnessed(p, b, v, n, Lookup(ending, n));
        if v in s.states {
          MergeIntoIsJoin(ending, s.states[v], n);
          JoinWitnessed(p, v, n, Lookup(ending, n), Lookup(s.states[v], n));
        }
      }
    }
  }

  /** Levels of names a block does not store only rise. */
  lemma StepRaises(p: Problem, s: Solver, t: Solver, b: nat, v: nat, n: string)
    requires Invariant(p, s) && b in s.states && StepEffect(p, s, t, b)
    requires v in s.states && n !in p.stores[v]
    ensures Below(Lookup(s.states[v], n), Lookup(t.states[v], n))
  {
    if v != b && v in p.g.succs[b] {
      MergeIntoIsJoin(Transfer(p, b, s.states[b]), s.states[v], n);
    }
  }

  lemma StepDelivers(p: Problem, s: Solver, t: Solver, b: nat, v: nat, n: string)
    requires Invariant(p, s) && b in s.states && StepEffect(p, s, t, b)
    requires p.g.Edge(b, v) && n !in p.stores[v]
    ensures v in t.states && Below(Lookup(t.states[b], n), Lookup(t.states[v], n))
  {
    if v != b && v in s.states {
      MergeIntoIsJoin(Transfer(p, b, s.states[b]), s.states[v], n);
    }
  }

  /** Only the block being processed can settle, and a settled block's map does not move. */
  lemma StepSettles(p: Problem, s: Solver, t: Solver, b: nat, u: nat)
    requires Running(p, s) && b in s.states && StepEffect(p, s, t, b) && Settled(t, u) && u != b
    ensures Settled(s, u) && t.states[u] == s.states[u]
  {
    assert !Touched(s.states, t.states, u);
  }

  lemma StepEndsDefined(p: Problem, s: Solver, t: Solver, b: nat)
    requires Invariant(p, s) && b in s.states && StepEffect(p, s, t, b) && Running(p, t)
    ensures EndsDefined(p, t)
  {
    forall u: nat, n | Settled(t, u) && n in p.stores[u] ensures Lookup(t.states[u], n) == Defined {
      if u != b { StepSettles(p, s, t, b, u); }
    }
  }

  lemma StepAbsorbed(p: Problem, s: Solver, t: Solver, b: nat)
    requires Invariant(p, s) && b in s.states && StepEffect(p, s, t, b) && Running(p, t)
    ensures Absorbed(p, t)
  {
    forall u: nat, v: nat | Settled(t, u) && p.g.Edge(u, v) ensures v in t.states {
      if u != b { StepSettles(p, s, t, b, u); }
    }
    forall u: nat, v: nat, n | Settled(t, u) && p.g.Edge(u, v) && n !in p.stores[v]
      ensures Below(Lookup(t.states[u], n), Lookup(t.states[v], n))
    {
      if u == b { StepDelivers(p, s, t, b, v, n); }
      else { StepSettles(p, s, t, b, u); StepRaises(p, s, t, b, v, n); }
    }
  }

  lemma StepEntryBlank(p: Problem, s: Solver, t: Solver, b: nat)
    requires Invariant(p, s) && b in s.states && StepEffect(p, s, t, b) && Running(p, t)
    ensures EntryBlank(p, t)
  {
    forall n | n !in p.stores[0] ensures Lookup(t.states[0], n) != Defined {
      StepRaises(p, s, t, b, 0, n);
    }
  }

  lemma StepInvariant(p: Problem, s: Solver)
    requires Invariant(p, s) && s.q != []
    ensures Invariant(p, Step(p, s))
  {
    StepEffects(p, s);
    var b := s.q[|s.q| - 1];
    StepWitnessed(p, s, Step(p, s), b);
    StepEndsDefined(p, s, Step(p, s), b);
    StepAbsorbed(p, s, Step(p, s), b);
    StepEntryBlank(p, s, Step(p, s), b);
  }

  // ---- an empty queue means exact answers -------------------------------------------------

  /** What one entry path says about a name, as a level that the join over paths must cover. */
  lemma {:induction false} PathCovered(p: Problem, s: Solver, w: seq<nat>, b: nat, n: string)
    requires Invariant(p, s) && s.q == [] && p.g.EntryPath(w, b)
    ensures b in s.states
    ensures if p.Assigns(w, n) then Lookup(s.states[b], n) != Undefined else Lookup(s.states[b], n) != Defined
    decreases |w|
  {
    if |w| == 1 {
      assert w == [] + [0];
      AssignsSnoc(p, [], 0, n);
      assert Settled(s, 0);
    } else {
      var k := |w| - 2;
      var w', u := w[..k + 1], w[k];
      EntryPathPrefix(p.g, w, k);
      PathCovered(p, s, w', u, n);
      assert p.g.Edge(u, b);
      assert w == w' + [b];
      AssignsSnoc(p, w', b, n);
      assert Settled(s, u) && Settled(s, b);
      if n !in p.stores[b] {
        assert Below(Lookup(s.states[u], n), Lookup(s.states[b], n));
      }
    }
  }

  /** The states hold exactly the reachable blocks, each with the exact answer for every name. */
  ghost predicate Exact(p: Problem, states: States) {
    && (forall b :: b in states <==> p.g.Reachable(b))
    && (forall b, n {:trigger p.AllPaths(b, n)} :: b in states ==> Lookup(states[b], n) == p.AllPaths(b, n))
  }

  lemma EmptyQueueExact(p: Problem, s: Solver)
    requires Invariant(p, s) && s.q == []
    ensures Exact(p, s.states)
  {
    forall b | p.g.Reachable(b) ensures b in s.states {
      var w :| p.g.EntryPath(w, b);
      PathCovered(p, s, w, b, "");
    }
    forall b, n | b in s.states ensures Lookup(s.states[b], n) == p.AllPaths(b, n) {
      LevelExact(p, s, b, n);
    }
  }

  lemma LevelExact(p: Problem, s: Solver, b: nat, n: string)
    requires Invariant(p, s) && s.q == [] && b in s.states
    ensures Lookup(s.states[b], n) == p.AllPaths(b, n)
  {
    var l := Lookup(s.states[b], n);
    assert LevelWitnessed(p, b, n, l);
    assert Settled(s, b);
    if n in p.stores[b] { OwnStoreAssigns(p, b, n); }
    if p.SomePathAssigns(b, n) {
      var w :| p.g.EntryPath(w, b) && p.Assigns(w, n);
      PathCovered(p, s, w, b, n);
    }
    if p.SomePathSkips(b, n) {
      var w :| p.g.EntryPath(w, b) && !p.Assigns(w, n);
      PathCovered(p, s, w, b, n);
    }
  }
}
