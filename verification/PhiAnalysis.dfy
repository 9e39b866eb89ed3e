/** Which names need phi nodes (PhiAnalysis in src/analysis/function_analysis.cpp). */
module PhiAnalysis {
  import opened FixedPoint
  import opened FixedPointExact
  import opened FixedPointTermination
  import opened FunctionBody
  import opened Definedness
  import opened Liveness

  /** The shape CFG lowering guarantees: dual edge lists, no critical edges. */
  predicate WellShaped(f: Function) {
    && ValidSuccessors(f)
    && (forall b, i :: 0 <= b < |f.blocks| && 0 <= i < |f.blocks[b].predecessors| ==>
          Edge(f, f.blocks[b].predecessors[i], b))
    && (forall b, i :: 0 <= b < |f.blocks| && |f.blocks[b].successors| >= 2 && 0 <= i < |f.blocks[b].successors| ==>
          |f.blocks[f.blocks[b].successors[i]].predecessors| < 2)
  }

  ghost predicate LiveAtStart(f: Function, n: string, b: nat)
    requires b < |f.blocks|
  {
    LoadsFirst(f.blocks[b], n) || (Untouched(f.blocks[b], n) && LiveAtEnd(f, n, b))
  }

  lemma TraceTail(f: Function, n: string, u: nat, p: seq<nat>)
    requires Trace(f, n, u, p) && |p| > 1
    ensures Trace(f, n, p[0], p[1..])
  {
    var q := p[1..];
    assert Edge(f, p[0], p[1]);
    forall i | 0 <= i < |q| - 1 ensures Edge(f, q[i], q[i + 1]) && Untouched(f.blocks[q[i]], n) {
      assert Edge(f, p[i + 1], p[i + 2]) && Untouched(f.blocks[p[i + 1]], n);
    }
  }

  lemma TraceCons(f: Function, n: string, u: nat, b: nat, q: seq<nat>)
    requires Edge(f, u, b) && Untouched(f.blocks[b], n) && Trace(f, n, b, q)
    ensures Trace(f, n, u, [b] + q)
  {
    var p := [b] + q;
    forall i | 0 <= i < |p| - 1 ensures Edge(f, p[i], p[i + 1]) && Untouched(f.blocks[p[i]], n) {
      if i > 0 { assert p[i] == q[i - 1] && p[i + 1] == q[i]; }
    }
  }

  lemma LiveEndIsLiveStart(f: Function, n: string, u: nat, b: nat)
    requires u < |f.blocks| && b < |f.blocks| && f.blocks[u].successors == [b] && LiveAtEnd(f, n, u)
    ensures LiveAtStart(f, n, b)
  {
    hide LoadsFirst, Untouched;
    var p :| Trace(f, n, u, p) && p[|p| - 1] < |f.blocks| && LoadsFirst(f.blocks[p[|p| - 1]], n);
    assert p[0] == b;
    if |p| > 1 {
      assert Edge(f, p[0], p[1]);
      TraceTail(f, n, u, p);
      assert p[1..][|p| - 2] == p[|p| - 1];
    }
  }

  lemma LiveStartIsLiveEnd(f: Function, n: string, u: nat, b: nat)
    requires Edge(f, u, b) && LiveAtStart(f, n, b)
    ensures LiveAtEnd(f, n, u)
  {
    hide LoadsFirst, Untouched;
    if LoadsFirst(f.blocks[b], n) {
      assert Trace(f, n, u, [b]);
    } else {
      var q :| Trace(f, n, b, q) && q[|q| - 1] < |f.blocks| && LoadsFirst(f.blocks[q[|q| - 1]], n);
      TraceCons(f, n, u, b, q);
      assert ([b] + q)[|q|] == q[|q| - 1];
    }
  }

  lemma SoleSuccessorLiveness(f: Function, n: string, u: nat, b: nat)
    requires u < |f.blocks| && b < |f.blocks| && f.blocks[u].successors == [b]
    ensures LiveAtEnd(f, n, u) <==> LiveAtStart(f, n, b)
  {
    if LiveAtEnd(f, n, u) { LiveEndIsLiveStart(f, n, u, b); }
    if LiveAtStart(f, n, b) { LiveStartIsLiveEnd(f, n, u, b); }
  }

  /** A predecessor of a join has the join as its only successor. */
  lemma JoinPredecessor(f: Function, b: nat, u: nat)
    requires WellShaped(f) && b < |f.blocks| && |f.blocks[b].predecessors| >= 2 && u in f.blocks[b].predecessors
    ensures u < |f.blocks| && f.blocks[u].successors == [b]
  {
    var i :| 0 <= i < |f.blocks[b].predecessors| && f.blocks[b].predecessors[i] == u;
    assert Edge(f, u, b);
    var j :| 0 <= j < |f.blocks[u].successors| && f.blocks[u].successors[j] == b;
  }

  /** All predecessors of a join agree on what is live at their ends. */
  lemma PredecessorsAgree(f: Function, n: string, b: nat, u: nat, v: nat)
    requires WellShaped(f) && b < |f.blocks| && |f.blocks[b].predecessors| >= 2
    requires u in f.blocks[b].predecessors && v in f.blocks[b].predecessors
    ensures LiveAtEnd(f, n, u) <==> LiveAtEnd(f, n, v)
    ensures LiveAtEnd(f, n, u) <==> LiveAtStart(f, n, b)
  {
    JoinPredecessor(f, b, u);
    JoinPredecessor(f, b, v);
    SoleSuccessorLiveness(f, n, u, b);
    SoleSuccessorLiveness(f, n, v, b);
  }

  /** A local name some run has assigned by the end of b, and that is live where b starts. */
  ghost predicate NeedsPhi(f: Function, globals: set<string>, b: nat, n: string)
    requires b < |f.blocks|
  {
    MayAssign(f, b, n) && n !in globals && LiveAtStart(f, n, b)
  }

  type RequiredPhis = map<nat, set<string>>

  /** Exactly the joins have a set, and it is exactly the names that need a phi. */
  ghost predicate PhisOf(f: Function, globals: set<string>, phis: RequiredPhis) {
    forall b: nat :: (b in phis <==> b < |f.blocks| && |f.blocks[b].predecessors| >= 2) &&
      (b in phis ==> forall n :: n in phis[b] <==> NeedsPhi(f, globals, b, n))
  }

  method LiveNames(f: Function, defined: set<string>, b: nat) returns (required: set<string>)
    requires ValidSuccessors(f) && b < |f.blocks|
    ensures forall n :: n in required <==> n in defined && LiveAtEnd(f, n, b)
  {
    required := {};
    var rest := defined;
    while rest != {}
      invariant rest <= defined
      invariant forall n :: n in required <==> n in defined && n !in rest && LiveAtEnd(f, n, b)
      decreases rest
    {
      var n :| n in rest;
      var live := IsLiveAtEnd(f, n, b);
      if live { required := required + {n}; }
      rest := rest - {n};
    }
  }

  /** The constructor: definedness first, then per join the defined local names that are live at
      the end of its first predecessor. */
  method ComputeRequiredPhis(f: Function, globals: set<string>) returns (phis: RequiredPhis)
    requires WellShaped(f) && Calm(ProblemOf(f))
    ensures PhisOf(f, globals, phis)
  {
    var states := ComputeFixedPoint(f);
    phis := map[];
    for i := 0 to |f.blocks|
      invariant forall b: nat :: (b in phis <==> b < i && |f.blocks[b].predecessors| >= 2)
      invariant forall b: nat :: b in phis ==> forall n :: n in phis[b] <==> NeedsPhi(f, globals, b, n)
    {
      if |f.blocks[i].predecessors| < 2 { continue; }
      var defined := if i in states then states[i].Keys - globals else {};
      var first := f.blocks[i].predecessors[0];
      JoinPredecessor(f, i, first);
      var required := LiveNames(f, defined, first);
      forall n ensures n in required <==> NeedsPhi(f, globals, i, n) {
        SoleSuccessorLiveness(f, n, first, i);
        DefinedNames(f, states, i, n);
      }
      phis := phis[i := required];
    }
  }

  lemma DefinedNames(f: Function, states: States, b: nat, n: string)
    requires Answer(f, states)
    ensures MayAssign(f, b, n) <==> b in states && n in states[b]
  {
    hide EntryRun, RunAssigns;
    if MayAssign(f, b, n) {
      var p :| EntryRun(f, p, b) && RunAssigns(f, p, n);
      assert b in states;
    }
  }

  predicate IsRequired(phis: RequiredPhis, n: string, b: nat) {
    b in phis && n in phis[b]
  }

  predicate IsRequiredAfter(f: Function, phis: RequiredPhis, n: string, b: nat)
    requires b < |f.blocks|
  {
    |f.blocks[b].successors| == 1 && IsRequired(phis, n, f.blocks[b].successors[0])
  }

  /** Answering "no" for a block with several successors loses no phi: along every edge,
      `IsRequiredAfter` at the source is `IsRequired` at the target. */
  lemma RequiredAfterIsRequired(f: Function, globals: set<string>, phis: RequiredPhis, n: string, u: nat, b: nat)
    requires WellShaped(f) && PhisOf(f, globals, phis) && Edge(f, u, b)
    ensures IsRequiredAfter(f, phis, n, u) <==> IsRequired(phis, n, b)
  {
    hide NeedsPhi;
    var j :| 0 <= j < |f.blocks[u].successors| && f.blocks[u].successors[j] == b;
  }
}
