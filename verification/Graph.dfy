/** Control-flow graphs as the analyses see them: block indices, successor lists, entry paths,
    dominance, and the rank of an acyclic relation. */
module Graph {
  import opened Commons

  /** `succs[b]` lists block b's successors in order; block 0 is the entry. */
  datatype Graph = Graph(succs: seq<seq<nat>>) {
    predicate Valid() {
      && |succs| > 0
      && forall b, i :: 0 <= b < |succs| && 0 <= i < |succs[b]| ==> succs[b][i] < |succs|
    }

    predicate Edge(u: nat, v: nat) {
      u < |succs| && v in succs[u]
    }

    /** Consecutive blocks of p are joined by edges. */
    ghost predicate Walk(p: seq<nat>) {
      && |p| > 0
      && (forall i :: 0 <= i < |p| ==> p[i] < |succs|)
      && (forall i :: 0 <= i < |p| - 1 ==> Edge(p[i], p[i + 1]))
    }

    /** A path from the entry block through the end of block b. */
    ghost predicate EntryPath(p: seq<nat>, b: nat) {
      Walk(p) && p[0] == 0 && p[|p| - 1] == b
    }

    ghost predicate Reachable(b: nat) {
      exists p :: EntryPath(p, b)
    }

    /** Every path from the entry to b passes through d. */
    ghost predicate Dominates(d: nat, b: nat) {
      forall p :: EntryPath(p, b) ==> d in p
    }
  }

  ghost function Blocks(g: Graph): set<nat> {
    Below(|g.succs|)
  }

  lemma EntryPathExtends(g: Graph, p: seq<nat>, u: nat, v: nat)
    requires g.Valid() && g.EntryPath(p, u) && g.Edge(u, v)
    ensures g.EntryPath(p + [v], v)
  {
    var q := p + [v];
    forall i | 0 <= i < |q| - 1 ensures g.Edge(q[i], q[i + 1]) {
      if i < |p| - 1 { assert q[i] == p[i] && q[i + 1] == p[i + 1]; }
    }
  }

  lemma EntryPathPrefix(g: Graph, p: seq<nat>, k: nat)
    requires g.Walk(p) && p[0] == 0 && k < |p|
    ensures g.EntryPath(p[..k + 1], p[k])
  {
    var q := p[..k + 1];
    forall i | 0 <= i < |q| - 1 ensures g.Edge(q[i], q[i + 1]) {
      assert q[i] == p[i] && q[i + 1] == p[i + 1];
    }
  }

  // ---- chains of a relation -------------------------------------------------------------

  /** A chain of at least one R step from u to v among the first n naturals. */
  ghost predicate Chain(R: (nat, nat) -> bool, n: nat, c: seq<nat>, u: nat, v: nat) {
    && |c| >= 2 && c[0] == u && c[|c| - 1] == v
    && (forall i :: 0 <= i < |c| ==> c[i] < n)
    && (forall i :: 0 <= i < |c| - 1 ==> R(c[i], c[i + 1]))
  }

  ghost predicate Leads(R: (nat, nat) -> bool, n: nat, u: nat, v: nat) {
    exists c :: Chain(R, n, c, u, v)
  }

  ghost predicate Acyclic(R: (nat, nat) -> bool, n: nat) {
    forall u: nat :: !Leads(R, n, u, u)
  }

  lemma LeadsPrepend(R: (nat, nat) -> bool, n: nat, u: nat, v: nat, x: nat)
    requires u < n && v < n && R(u, v)
    ensures Leads(R, n, u, v)
    ensures Leads(R, n, v, x) ==> Leads(R, n, u, x)
  {
    assert Chain(R, n, [u, v], u, v);
    if Leads(R, n, v, x) {
      var c :| Chain(R, n, c, v, x);
      var d := [u] + c;
      forall i | 0 <= i < |d| - 1 ensures R(d[i], d[i + 1]) {
        if i > 0 { assert d[i] == c[i - 1] && d[i + 1] == c[i]; }
      }
      assert Chain(R, n, d, u, x);
    }
  }

  ghost function Successors(R: (nat, nat) -> bool, n: nat, u: nat): set<nat> {
    set x: nat | x < n && Leads(R, n, u, x)
  }

  /** How many indices R leads to from u: it drops along every step of an acyclic relation. */
  ghost function Rank(R: (nat, nat) -> bool, n: nat, u: nat): nat {
    |Successors(R, n, u)|
  }

  lemma SubsetSize(a: set<nat>, b: set<nat>)
    requires a < b
    ensures |a| < |b|
  {
    assert |b| == |a| + |b - a| by { assert b == a + (b - a); }
    var x :| x in b && x !in a;
    assert x in b - a;
  }

  lemma RankDrops(R: (nat, nat) -> bool, n: nat, u: nat, v: nat)
    requires Acyclic(R, n) && u < n && v < n && R(u, v)
    ensures Rank(R, n, v) < Rank(R, n, u)
  {
    forall x | x in Successors(R, n, v) ensures x in Successors(R, n, u) {
      LeadsPrepend(R, n, u, v, x);
    }
    LeadsPrepend(R, n, u, v, v);
    assert v in Successors(R, n, u) && v !in Successors(R, n, v);
    SubsetSize(Successors(R, n, v), Successors(R, n, u));
  }
}
