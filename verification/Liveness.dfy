/** Liveness by tracing paths (src/analysis/function_analysis.cpp), and why the phi sets may ask
    only a join's first predecessor. */
module Liveness {
  import opened FunctionBody

  datatype Access = Access(name: string, store: bool)

  // ---- the accesses of a block, in the order the visitor meets them -----------------------

  function ExprAccesses(e: Expr): seq<Access> {
    match e
    case Name(id, store) => [Access(id, store)]
    case Tuple(elts) => ExprsAccesses(elts)
    case Compound(children) => ExprsAccesses(children)
  }

  function ExprsAccesses(es: seq<Expr>): seq<Access> {
    if es == [] then [] else ExprsAccesses(es[..|es| - 1]) + ExprAccesses(es[|es| - 1])
  }

  /** An assignment's value comes before its targets; a definition only stores its name. */
  function StmtAccesses(s: Stmt): seq<Access> {
    match s
    case Assign(targets, value) => ExprAccesses(value) + ExprsAccesses(targets)
    case ClassDef(name) => [Access(name, true)]
    case FunctionDef(name) => [Access(name, true)]
    case Import(_) => []
    case Evaluate(exprs) => ExprsAccesses(exprs)
  }

  function BodyAccesses(body: seq<Stmt>): seq<Access> {
    if body == [] then [] else BodyAccesses(body[..|body| - 1]) + StmtAccesses(body[|body| - 1])
  }

  /** The first access to n is an access of kind `store`. */
  predicate FirstIs(accesses: seq<Access>, n: string, store: bool) {
    exists i :: 0 <= i < |accesses| && accesses[i] == Access(n, store)
      && forall j :: 0 <= j < i ==> accesses[j].name != n
  }

  // ---- what the first access to a name is -------------------------------------------------

  /** n occurs in the expression. */
  predicate Mentions(e: Expr, n: string)
    decreases e, 0
  {
    match e
    case Name(id, _) => id == n
    case Tuple(elts) => SomeMentions(elts, n)
    case Compound(children) => SomeMentions(children, n)
  }

  predicate SomeMentions(es: seq<Expr>, n: string)
    decreases es, 1
  {
    exists i :: 0 <= i < |es| && Mentions(es[i], n)
  }

  /** The leftmost occurrence of n is one that reads it. */
  predicate ReadsFirst(e: Expr, n: string)
    decreases e, 0
  {
    match e
    case Name(id, store) => id == n && !store
    case Tuple(elts) => FirstReads(elts, n)
    case Compound(children) => FirstReads(children, n)
  }

  predicate FirstReads(es: seq<Expr>, n: string)
    decreases es, 1
  {
    exists i :: 0 <= i < |es| && ReadsFirst(es[i], n) && forall j :: 0 <= j < i ==> !Mentions(es[j], n)
  }

  predicate StmtMentions(s: Stmt, n: string) {
    match s
    case Assign(targets, value) => Mentions(value, n) || SomeMentions(targets, n)
    case ClassDef(name) => name == n
    case FunctionDef(name) => name == n
    case Import(_) => false
    case Evaluate(exprs) => SomeMentions(exprs, n)
  }

  /** An assignment evaluates its value before it stores, wherever the targets stand; definitions
      only store, and imports are not looked at. */
  predicate StmtReadsFirst(s: Stmt, n: string) {
    match s
    case Assign(targets, value) => if Mentions(value, n) then ReadsFirst(value, n) else FirstReads(targets, n)
    case ClassDef(_) => false
    case FunctionDef(_) => false
    case Import(_) => false
    case Evaluate(exprs) => FirstReads(exprs, n)
  }

  predicate BodyMentions(body: seq<Stmt>, n: string) {
    exists i :: 0 <= i < |body| && StmtMentions(body[i], n)
  }

  predicate BodyReadsFirst(body: seq<Stmt>, n: string) {
    exists i :: 0 <= i < |body| && StmtReadsFirst(body[i], n) && forall j :: 0 <= j < i ==> !StmtMentions(body[j], n)
  }

  /** The first statement of the block that mentions n reads it first. */
  predicate LoadsFirst(b: Block, n: string) { BodyReadsFirst(b.body, n) }

  /** No statement of the block mentions n. */
  predicate Untouched(b: Block, n: string) { !BodyMentions(b.body, n) }

  // ---- and that the accesses list just that -----------------------------------------------

  predicate Accesses(accesses: seq<Access>, n: string) {
    exists i :: 0 <= i < |accesses| && accesses[i].name == n
  }

  /** What comes first in two lists, one after the other. */
  lemma FirstOfTwo(a: seq<Access>, b: seq<Access>, n: string)
    ensures Accesses(a + b, n) <==> Accesses(a, n) || Accesses(b, n)
    ensures FirstIs(a + b, n, false) <==> if Accesses(a, n) then FirstIs(a, n, false) else FirstIs(b, n, false)
  {
    AccessesJoin(a, b, n);
    if Accesses(a, n) { FirstInLeft(a, b, n); } else { FirstInRight(a, b, n); }
  }

  lemma AccessesJoin(a: seq<Access>, b: seq<Access>, n: string)
    ensures Accesses(a + b, n) <==> Accesses(a, n) || Accesses(b, n)
  {
    var c := a + b;
    forall i | 0 <= i < |a| ensures c[i] == a[i] {}
    forall i | 0 <= i < |b| ensures c[|a| + i] == b[i] {}
    if i :| 0 <= i < |c| && c[i].name == n { assert c[i] == if i < |a| then a[i] else b[i - |a|]; }
  }

  lemma FirstInLeft(a: seq<Access>, b: seq<Access>, n: string)
    requires Accesses(a, n)
    ensures FirstIs(a + b, n, false) <==> FirstIs(a, n, false)
  {
    var c := a + b;
    forall i | 0 <= i < |a| ensures c[i] == a[i] {}
    if FirstIs(c, n, false) {
      var k :| 0 <= k < |a| && a[k].name == n;
      var i :| 0 <= i < |c| && c[i] == Access(n, false) && forall j :: 0 <= j < i ==> c[j].name != n;
      assert i <= k by { assert c[k].name == n; }
      assert a[i] == Access(n, false) && forall j :: 0 <= j < i ==> a[j] == c[j];
    }
    if FirstIs(a, n, false) {
      var i :| 0 <= i < |a| && a[i] == Access(n, false) && forall j :: 0 <= j < i ==> a[j].name != n;
      assert c[i] == Access(n, false) && forall j :: 0 <= j < i ==> c[j] == a[j];
    }
  }

  lemma FirstInRight(a: seq<Access>, b: seq<Access>, n: string)
    requires !Accesses(a, n)
    ensures FirstIs(a + b, n, false) <==> FirstIs(b, n, false)
  {
    var c := a + b;
    forall i | 0 <= i < |a| ensures c[i] == a[i] {}
    forall i | 0 <= i < |b| ensures c[|a| + i] == b[i] {}
    if FirstIs(c, n, false) {
      var i :| 0 <= i < |c| && c[i] == Access(n, false) && forall j :: 0 <= j < i ==> c[j].name != n;
      assert forall m :: 0 <= m < |a| ==> c[m].name != n;
      assert b[i - |a|] == Access(n, false) && forall j :: 0 <= j < i - |a| ==> b[j] == c[|a| + j];
    }
    if FirstIs(b, n, false) {
      var i :| 0 <= i < |b| && b[i] == Access(n, false) && forall j :: 0 <= j < i ==> b[j].name != n;
      assert c[|a| + i] == Access(n, false);
      forall j | 0 <= j < |a| + i ensures c[j].name != n { if j >= |a| { assert c[j] == b[j - |a|]; } }
    }
  }

  lemma {:induction false} ExprFirst(e: Expr, n: string)
    ensures Accesses(ExprAccesses(e), n) <==> Mentions(e, n)
    ensures FirstIs(ExprAccesses(e), n, false) <==> ReadsFirst(e, n)
    decreases e, 0
  {
    match e
    case Name(id, store) =>
      var l := [Access(id, store)];
      assert ExprAccesses(e) == l && l[0] == Access(id, store);
    case Tuple(elts) => ExprsFirst(elts, n);
    case Compound(children) => ExprsFirst(children, n);
  }

  lemma {:induction false} ExprsFirst(es: seq<Expr>, n: string)
    ensures Accesses(ExprsAccesses(es), n) <==> SomeMentions(es, n)
    ensures FirstIs(ExprsAccesses(es), n, false) <==> FirstReads(es, n)
    decreases es, 1
  {
    if es != [] {
      var k := |es| - 1;
      ExprsFirst(es[..k], n);
      ExprFirst(es[k], n);
      FirstOfTwo(ExprsAccesses(es[..k]), ExprAccesses(es[k]), n);
      ListGrows(es, n);
      hide Accesses, FirstIs, SomeMentions, FirstReads, Mentions, ReadsFirst;
    }
  }

  lemma {:induction false} ReadsMentions(e: Expr, n: string)
    requires ReadsFirst(e, n)
    ensures Mentions(e, n)
    decreases e
  {
    if e.Tuple? || e.Compound? {
      var es := if e.Tuple? then e.elts else e.children;
      var i :| 0 <= i < |es| && ReadsFirst(es[i], n) && forall j :: 0 <= j < i ==> !Mentions(es[j], n);
      ReadsMentions(es[i], n);
    }
  }

  /** How the two readings of a list go on with its last expression. */
  lemma ListGrows(es: seq<Expr>, n: string)
    requires es != []
    ensures var k := |es| - 1;
      && (SomeMentions(es, n) <==> SomeMentions(es[..k], n) || Mentions(es[k], n))
      && (FirstReads(es, n) <==> if SomeMentions(es[..k], n) then FirstReads(es[..k], n) else ReadsFirst(es[k], n))
  {
    MentionsGrow(es, n);
    hide Mentions, ReadsFirst;
    var k := |es| - 1;
    var init := es[..k];
    forall i | 0 <= i < k ensures init[i] == es[i] {}
    if FirstReads(es, n) {
      var i :| 0 <= i < |es| && ReadsFirst(es[i], n) && forall j :: 0 <= j < i ==> !Mentions(es[j], n);
      FirstAt(es, n, i);
    }
    if FirstReads(init, n) {
      var i :| 0 <= i < |init| && ReadsFirst(init[i], n) && forall j :: 0 <= j < i ==> !Mentions(init[j], n);
      ReadsMentions(init[i], n);
      assert ReadsFirst(es[i], n) && forall j :: 0 <= j < i ==> es[j] == init[j];
    }
    if ReadsFirst(es[k], n) && !SomeMentions(init, n) {
      forall j | 0 <= j < k ensures !Mentions(es[j], n) { assert init[j] == es[j]; }
    }
  }

  lemma MentionsGrow(es: seq<Expr>, n: string)
    requires es != []
    ensures SomeMentions(es, n) <==> SomeMentions(es[..|es| - 1], n) || Mentions(es[|es| - 1], n)
  {
    hide Mentions;
    var init := es[..|es| - 1];
    if i :| 0 <= i < |init| && Mentions(es[i], n) { assert Mentions(init[i], n); }
    if i :| 0 <= i < |init| && Mentions(init[i], n) { assert Mentions(es[i], n); }
  }

  /** The first reading stands before the last expression, or is in it. */
  lemma FirstAt(es: seq<Expr>, n: string, i: nat)
    requires i < |es| && ReadsFirst(es[i], n) && forall j :: 0 <= j < i ==> !Mentions(es[j], n)
    ensures if SomeMentions(es[..|es| - 1], n) then FirstReads(es[..|es| - 1], n) else ReadsFirst(es[|es| - 1], n)
  {
    ReadsMentions(es[i], n);
    hide Mentions, ReadsFirst;
    var init := es[..|es| - 1];
    if i < |init| {
      assert ReadsFirst(init[i], n) && Mentions(init[i], n) && forall j :: 0 <= j < i ==> init[j] == es[j];
    }
  }

  lemma StmtFirst(s: Stmt, n: string)
    ensures Accesses(StmtAccesses(s), n) <==> StmtMentions(s, n)
    ensures FirstIs(StmtAccesses(s), n, false) <==> StmtReadsFirst(s, n)
    ensures StmtReadsFirst(s, n) ==> StmtMentions(s, n)
  {
    match s
    case Assign(targets, value) =>
      ExprFirst(value, n);
      ExprsFirst(targets, n);
      FirstOfTwo(ExprAccesses(value), ExprsAccesses(targets), n);
      FirstMeets(StmtAccesses(s), n);
      hide Accesses, FirstIs, SomeMentions, FirstReads, Mentions, ReadsFirst;
    case Evaluate(exprs) =>
      ExprsFirst(exprs, n);
      FirstMeets(StmtAccesses(s), n);
      hide Accesses, FirstIs, SomeMentions, FirstReads;
    case ClassDef(name) => assert StmtAccesses(s)[0] == Access(name, true);
    case FunctionDef(name) => assert StmtAccesses(s)[0] == Access(name, true);
    case Import(_) =>
  }

  lemma FirstMeets(accesses: seq<Access>, n: string)
    ensures FirstIs(accesses, n, false) ==> Accesses(accesses, n)
  {}

  /** The first access of a block, and that there is none, in terms of its statements. */
  lemma {:induction false} BodyFirst(body: seq<Stmt>, n: string)
    ensures Accesses(BodyAccesses(body), n) <==> BodyMentions(body, n)
    ensures FirstIs(BodyAccesses(body), n, false) <==> BodyReadsFirst(body, n)
  {
    if body != [] {
      var k := |body| - 1;
      BodyFirst(body[..k], n);
      StmtFirst(body[k], n);
      FirstOfTwo(BodyAccesses(body[..k]), StmtAccesses(body[k]), n);
      BodyGrows(body, n);
      hide Accesses, FirstIs, StmtAccesses, StmtMentions, StmtReadsFirst, BodyMentions, BodyReadsFirst;
    }
  }

  lemma BodyGrows(body: seq<Stmt>, n: string)
    requires body != []
    ensures var k := |body| - 1;
      && (BodyMentions(body, n) <==> BodyMentions(body[..k], n) || StmtMentions(body[k], n))
      && (BodyReadsFirst(body, n) <==> if BodyMentions(body[..k], n) then BodyReadsFirst(body[..k], n) else StmtReadsFirst(body[k], n))
  {
    hide StmtMentions, StmtReadsFirst;
    var k := |body| - 1;
    var init := body[..k];
    forall i | 0 <= i < k ensures init[i] == body[i] {}
    if BodyMentions(body, n) && !StmtMentions(body[k], n) {
      var i :| 0 <= i < |body| && StmtMentions(body[i], n);
      assert StmtMentions(init[i], n);
    }
    if BodyMentions(init, n) {
      var i :| 0 <= i < |init| && StmtMentions(init[i], n);
      assert StmtMentions(body[i], n);
    }
    if BodyReadsFirst(body, n) {
      var i :| 0 <= i < |body| && StmtReadsFirst(body[i], n) && forall j :: 0 <= j < i ==> !StmtMentions(body[j], n);
      StmtFirst(body[i], n);
      if i < k { assert StmtReadsFirst(init[i], n) && StmtMentions(init[i], n) && forall j :: 0 <= j < i ==> !StmtMentions(init[j], n); }
    }
    if BodyReadsFirst(init, n) {
      var i :| 0 <= i < |init| && StmtReadsFirst(init[i], n) && forall j :: 0 <= j < i ==> !StmtMentions(init[j], n);
      assert StmtReadsFirst(body[i], n) && forall j :: 0 <= j < i ==> body[j] == init[j];
    }
    if StmtReadsFirst(body[k], n) && !BodyMentions(init, n) {
      forall j | 0 <= j < k ensures !StmtMentions(body[j], n) { assert init[j] == body[j]; }
    }
  }

  // ---- LivenessBBVisitor ------------------------------------------------------------------

  /** The visitor's two sets after `accesses` hold each name under the kind of its first access. */
  class LivenessBBVisitor {
    var loads: set<string>
    var stores: set<string>

    ghost predicate Saw(accesses: seq<Access>)
      reads this
    {
      && (forall n :: n in loads <==> FirstIs(accesses, n, false))
      && (forall n :: n in stores <==> FirstIs(accesses, n, true))
    }

    constructor ()
      ensures Saw([])
    {
      loads, stores := {}, {};
    }

    method DoLoad(name: string, ghost seen: seq<Access>)
      requires Saw(seen)
      modifies this
      ensures Saw(seen + [Access(name, false)])
    {
      FirstExtends(seen, Access(name, false));
      if name in stores { return; }
      loads := loads + {name};
    }

    method DoStore(name: string, ghost seen: seq<Access>)
      requires Saw(seen)
      modifies this
      ensures Saw(seen + [Access(name, true)])
    {
      FirstExtends(seen, Access(name, true));
      if name in loads { return; }
      stores := stores + {name};
    }

    method VisitExpr(e: Expr, ghost seen: seq<Access>)
      requires Saw(seen)
      modifies this
      ensures Saw(seen + ExprAccesses(e))
      decreases e, 0
    {
      match e {
        case Name(id, store) => if store { DoStore(id, seen); } else { DoLoad(id, seen); }
        case Tuple(elts) => VisitExprs(elts, seen);
        case Compound(children) => VisitExprs(children, seen);
      }
    }

    method VisitExprs(es: seq<Expr>, ghost seen: seq<Access>)
      requires Saw(seen)
      modifies this
      ensures Saw(seen + ExprsAccesses(es))
      decreases es, 1
    {
      assert seen + [] == seen;
      for i := 0 to |es|
        invariant Saw(seen + ExprsAccesses(es[..i]))
      {
        assert es[..i + 1][..i] == es[..i];
        VisitExpr(es[i], seen + ExprsAccesses(es[..i]));
        assert seen + ExprsAccesses(es[..i]) + ExprAccesses(es[i]) == seen + ExprsAccesses(es[..i + 1]);
      }
      assert es[..|es|] == es;
    }

    method VisitStmt(s: Stmt, ghost seen: seq<Access>)
      requires Saw(seen)
      modifies this
      ensures Saw(seen + StmtAccesses(s))
    {
      match s {
        case Assign(targets, value) =>
          VisitExpr(value, seen);
          VisitExprs(targets, seen + ExprAccesses(value));
          assert seen + ExprAccesses(value) + ExprsAccesses(targets) == seen + StmtAccesses(s);
        case ClassDef(name) => DoStore(name, seen);
        case FunctionDef(name) => DoStore(name, seen);
        case Import(_) => assert seen + [] == seen;
        case Evaluate(exprs) => VisitExprs(exprs, seen);
      }
    }

    method VisitBody(body: seq<Stmt>)
      requires Saw([])
      modifies this
      ensures Saw(BodyAccesses(body))
      ensures forall n :: n in loads <==> BodyReadsFirst(body, n)
      ensures forall n :: n in stores <==> BodyMentions(body, n) && !BodyReadsFirst(body, n)
    {
      for i := 0 to |body|
        invariant Saw(BodyAccesses(body[..i]))
      {
        assert body[..i + 1][..i] == body[..i];
        VisitStmt(body[i], BodyAccesses(body[..i]));
      }
      assert body[..|body|] == body;
      forall n ensures FirstIs(BodyAccesses(body), n, false) <==> BodyReadsFirst(body, n)
        ensures FirstIs(BodyAccesses(body), n, true) <==> BodyMentions(body, n) && !BodyReadsFirst(body, n)
      {
        BodyFirst(body, n);
        FirstOrNone(BodyAccesses(body), n);
        OneFirst(BodyAccesses(body), n);
      }
      hide BodyMentions, BodyReadsFirst, FirstIs;
    }
  }

  lemma OneFirst(accesses: seq<Access>, n: string)
    ensures !(FirstIs(accesses, n, true) && FirstIs(accesses, n, false))
    ensures FirstIs(accesses, n, true) ==> Accesses(accesses, n)
  {}

  /** A later access decides the first access only of a name not met before. */
  lemma FirstExtends(seen: seq<Access>, a: Access)
    ensures forall n :: FirstIs(seen + [a], n, true) <==>
      FirstIs(seen, n, true) || (a == Access(n, true) && !FirstIs(seen, n, false))
    ensures forall n :: FirstIs(seen + [a], n, false) <==>
      FirstIs(seen, n, false) || (a == Access(n, false) && !FirstIs(seen, n, true))
  {
    forall n ensures FirstIs(seen + [a], n, true) <==>
      FirstIs(seen, n, true) || (a == Access(n, true) && !FirstIs(seen, n, false))
    {
      FirstExtendsAt(seen, a, n, true);
    }
    forall n ensures FirstIs(seen + [a], n, false) <==>
      FirstIs(seen, n, false) || (a == Access(n, false) && !FirstIs(seen, n, true))
    {
      FirstExtendsAt(seen, a, n, false);
    }
  }

  lemma FirstExtendsAt(seen: seq<Access>, a: Access, n: string, store: bool)
    ensures FirstIs(seen + [a], n, store) <==>
      FirstIs(seen, n, store) || (a == Access(n, store) && !FirstIs(seen, n, !store))
  {
    var all := seen + [a];
    assert forall i :: 0 <= i < |seen| ==> all[i] == seen[i];
    assert all[|seen|] == a;
    if FirstIs(seen, n, store) {
      var i :| 0 <= i < |seen| && seen[i] == Access(n, store) && forall j :: 0 <= j < i ==> seen[j].name != n;
      assert all[i] == seen[i];
    } else if FirstIs(seen, n, !store) {
      var i :| 0 <= i < |seen| && seen[i] == Access(n, !store) && forall j :: 0 <= j < i ==> seen[j].name != n;
      assert all[i].name == n && all[i].store == !store;
    } else {
      FirstOrNone(seen, n);
    }
  }

  lemma {:induction false} FirstOrNone(accesses: seq<Access>, n: string)
    ensures FirstIs(accesses, n, true) || FirstIs(accesses, n, false) || forall i :: 0 <= i < |accesses| ==> accesses[i].name != n
  {
    if accesses != [] {
      var k := |accesses| - 1;
      var init := accesses[..k];
      FirstOrNone(init, n);
      if FirstIs(init, n, true) {
        var i :| 0 <= i < k && init[i] == Access(n, true) && forall j :: 0 <= j < i ==> init[j].name != n;
        assert accesses[i] == init[i] && forall j :: 0 <= j < i ==> accesses[j] == init[j];
      } else if FirstIs(init, n, false) {
        var i :| 0 <= i < k && init[i] == Access(n, false) && forall j :: 0 <= j < i ==> init[j].name != n;
        assert accesses[i] == init[i] && forall j :: 0 <= j < i ==> accesses[j] == init[j];
      } else {
        assert forall i :: 0 <= i < k ==> accesses[i] == init[i];
        assert accesses[k] == Access(n, accesses[k].store) || accesses[k].name != n;
      }
    }
  }

  // ---- isLiveAtEnd ------------------------------------------------------------------------

  predicate ValidSuccessors(f: Function) {
    forall b, i :: 0 <= b < |f.blocks| && 0 <= i < |f.blocks[b].successors| ==>
      f.blocks[b].successors[i] < |f.blocks|
  }

  predicate Edge(f: Function, u: nat, v: nat) {
    u < |f.blocks| && v < |f.blocks| && v in f.blocks[u].successors
  }

  /** A path from a successor of b whose blocks, the last excepted, never touch n. */
  ghost predicate Trace(f: Function, n: string, b: nat, p: seq<nat>) {
    && |p| > 0 && Edge(f, b, p[0])
    && (forall i :: 0 <= i < |p| - 1 ==> Edge(f, p[i], p[i + 1]) && Untouched(f.blocks[p[i]], n))
  }

  /** Some path leaving b reaches a block whose first access to n is a load. */
  ghost predicate LiveAtEnd(f: Function, n: string, b: nat) {
    exists p :: Trace(f, n, b, p) && p[|p| - 1] < |f.blocks| && LoadsFirst(f.blocks[p[|p| - 1]], n)
  }

  ghost predicate Traced(f: Function, n: string, b: nat, x: nat) {
    exists p :: Trace(f, n, b, p) && p[|p| - 1] == x
  }

  lemma TraceExtends(f: Function, n: string, b: nat, x: nat, y: nat)
    requires Traced(f, n, b, x) && Edge(f, x, y) && Untouched(f.blocks[x], n)
    ensures Traced(f, n, b, y)
  {
    var p :| Trace(f, n, b, p) && p[|p| - 1] == x;
    var q := p + [y];
    forall i | 0 <= i < |q| - 1 ensures Edge(f, q[i], q[i + 1]) && Untouched(f.blocks[q[i]], n) {
      if i < |p| - 1 { assert q[i] == p[i] && q[i + 1] == p[i + 1]; }
    }
    assert Trace(f, n, b, q) && q[|q| - 1] == y;
  }

  /** Blocks still to come when `visited` were expanded: none of these loads n first. */
  ghost predicate Swept(f: Function, n: string, b: nat, visited: set<nat>, q: seq<nat>) {
    && (forall x: nat :: Edge(f, b, x) ==> x in visited || x in q)
    && (forall x: nat :: x in visited ==> x < |f.blocks| && !LoadsFirst(f.blocks[x], n))
    && (forall x: nat, y: nat :: x in visited && Edge(f, x, y) && Untouched(f.blocks[x], n) ==>
          y in visited || y in q)
  }

  lemma {:induction false} SweptTrace(f: Function, n: string, b: nat, visited: set<nat>, p: seq<nat>, k: nat)
    requires Swept(f, n, b, visited, []) && Trace(f, n, b, p) && k < |p|
    ensures p[k] in visited
  {
    if k > 0 {
      SweptTrace(f, n, b, visited, p, k - 1);
      assert Edge(f, p[k - 1], p[k]);
    }
  }

  lemma SweptIsDead(f: Function, n: string, b: nat, visited: set<nat>)
    requires Swept(f, n, b, visited, [])
    ensures !LiveAtEnd(f, n, b)
  {
    forall p | Trace(f, n, b, p) ensures !(p[|p| - 1] < |f.blocks| && LoadsFirst(f.blocks[p[|p| - 1]], n)) {
      SweptTrace(f, n, b, visited, p, |p| - 1);
    }
  }

  lemma SweptSkips(f: Function, n: string, b: nat, visited: set<nat>, q: seq<nat>)
    requires Swept(f, n, b, visited, q) && q != [] && q[0] in visited
    ensures Swept(f, n, b, visited, q[1..])
  {
    assert q == [q[0]] + q[1..];
  }

  lemma SweptExpands(f: Function, n: string, b: nat, visited: set<nat>, q: seq<nat>, more: seq<nat>)
    requires Swept(f, n, b, visited, q) && q != [] && q[0] < |f.blocks| && !LoadsFirst(f.blocks[q[0]], n)
    requires more == if Untouched(f.blocks[q[0]], n) then f.blocks[q[0]].successors else []
    ensures Swept(f, n, b, visited + {q[0]}, q[1..] + more)
  {
    assert q == [q[0]] + q[1..];
  }

  lemma UntouchedIffNoFirst(b: Block, n: string)
    ensures LoadsFirst(b, n) <==> FirstIs(BodyAccesses(b.body), n, false)
    ensures Untouched(b, n) <==> !FirstIs(BodyAccesses(b.body), n, true) && !FirstIs(BodyAccesses(b.body), n, false)
  {
    BodyFirst(b.body, n);
    FirstOrNone(BodyAccesses(b.body), n);
    hide BodyMentions, BodyReadsFirst;
  }

  /** Everything waiting was reached by a trace from b. */
  ghost predicate AllTraced(f: Function, n: string, b: nat, q: seq<nat>) {
    forall x: nat :: x in q ==> x < |f.blocks| && Traced(f, n, b, x)
  }

  lemma StartTraced(f: Function, n: string, b: nat)
    requires ValidSuccessors(f) && b < |f.blocks|
    ensures AllTraced(f, n, b, f.blocks[b].successors)
  {
    forall x: nat | x in f.blocks[b].successors ensures Traced(f, n, b, x) {
      assert Trace(f, n, b, [x]) && [x][0] == x;
    }
  }

  lemma TailTraced(f: Function, n: string, b: nat, q: seq<nat>)
    requires AllTraced(f, n, b, q) && q != []
    ensures AllTraced(f, n, b, q[1..])
  {
    var rest := q[1..];
    assert forall y: nat :: y in rest ==> y in q;
  }

  lemma MoreTraced(f: Function, n: string, b: nat, q: seq<nat>, more: seq<nat>)
    requires ValidSuccessors(f) && AllTraced(f, n, b, q) && q != [] && q[0] < |f.blocks|
    requires more == if Untouched(f.blocks[q[0]], n) then f.blocks[q[0]].successors else []
    ensures AllTraced(f, n, b, q[1..] + more)
  {
    assert q[0] in q;
    forall y: nat | y in more ensures y < |f.blocks| && Traced(f, n, b, y) {
      TraceExtends(f, n, b, q[0], y);
    }
    TailTraced(f, n, b, q);
  }

  method VisitBlock(b: Block, name: string) returns (loads: bool, stores: bool)
    ensures loads <==> LoadsFirst(b, name)
    ensures !loads && !stores <==> Untouched(b, name)
  {
    var visitor := new LivenessBBVisitor();
    visitor.VisitBody(b.body);
    UntouchedIffNoFirst(b, name);
    loads := name in visitor.loads;
    stores := name in visitor.stores;
  }

  method IsLiveAtEnd(f: Function, name: string, block: nat) returns (live: bool)
    requires ValidSuccessors(f) && block < |f.blocks|
    ensures live <==> LiveAtEnd(f, name, block)
  {
    var visited: set<nat> := {};
    var q := f.blocks[block].successors;
    ghost var ids := seq(|f.blocks|, i => i);
    ghost var all := set i | i in ids;
    StartTraced(f, name, block);
    while |q| > 0
      invariant Swept(f, name, block, visited, q)
      invariant AllTraced(f, name, block, q)
      decreases all - visited, |q|
    {
      var thisblock := q[0];
      assert thisblock in q && ids[thisblock] in all;
      if thisblock in visited {
        SweptSkips(f, name, block, visited, q);
        TailTraced(f, name, block, q);
        q := q[1..];
        continue;
      }
      var loads, stores := VisitBlock(f.blocks[thisblock], name);
      if loads {
        ghost var p :| Trace(f, name, block, p) && p[|p| - 1] == thisblock;
        return true;
      }
      var more := if !stores then f.blocks[thisblock].successors else [];
      SweptExpands(f, name, block, visited, q, more);
      MoreTraced(f, name, block, q, more);
      visited := visited + {thisblock};
      q := q[1..] + more;
    }
    SweptIsDead(f, name, block, visited);
    return false;
  }
}
