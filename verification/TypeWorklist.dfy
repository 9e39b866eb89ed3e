/** The type-propagation worklist (PropagatingTypeAnalysis in src/analysis/type_analysis.cpp). What
    one pass over a block computes is a parameter; everything else is the code's. */
module TypeWorklist {
  import opened Commons
  import opened Graph

  datatype Type = Undef | Unknown | Known(id: nat)

  type TypeMap = map<string, Type>

  /** What a pass does at a node: getType forgets the old speculation, processSpeculation may
      record a new one, and the node's type is recorded. */
  datatype Event = Event(node: nat, type_: Type, speculated: Option<nat>)

  datatype Pass = Pass(ending: TypeMap, events: seq<Event>)

  type Propagator = (nat, TypeMap) -> Pass

  // ---- merging ----------------------------------------------------------------------------------

  /** What merging lhs into an entry leaves there. */
  function Merged(lhs: Type, rhs: Option<Type>): Type {
    match rhs
    case None => lhs
    case Some(prev) => if lhs.Undef? || prev.Undef? || lhs == prev then prev else Unknown
  }

  /** merge of one type into a reference. */
  method Merge(lhs: Type, rhs: Option<Type>) returns (changed: bool, next: Type)
    ensures next == Merged(lhs, rhs) && (changed <==> rhs != Some(next))
    ensures rhs.None? ==> next == lhs
    ensures rhs.Some? && (lhs.Undef? || rhs.value.Undef?) ==> next == rhs.value
    ensures rhs == Some(lhs) ==> next == lhs
    ensures rhs.Some? && !lhs.Undef? && !rhs.value.Undef? && lhs != rhs.value ==> next == Unknown
  {
    if rhs.None? { return true, lhs; }
    if lhs == Undef || rhs.value == Undef { return false, rhs.value; }
    if lhs == rhs.value { return false, rhs.value; }
    if rhs.value == Unknown { return false, rhs.value; }
    if lhs == Unknown { return true, Unknown; }
    return true, Unknown;
  }

  function Entry(m: TypeMap, n: string): Option<Type> {
    if n in m then Some(m[n]) else None
  }

  /** merge of a whole ending map into a starting map. */
  method MergeMap(ending: TypeMap, next0: TypeMap) returns (changed: bool, next: TypeMap)
    ensures next.Keys == next0.Keys + ending.Keys
    ensures forall n :: n in ending ==> next[n] == Merged(ending[n], Entry(next0, n))
    ensures forall n :: n in next0 && n !in ending ==> next[n] == next0[n]
    ensures forall n :: n in ending && n !in next0 ==> next[n] == ending[n]
    ensures forall n :: n in ending && n in next0 && (ending[n].Undef? || next0[n].Undef? || ending[n] == next0[n]) ==> next[n] == next0[n]
    ensures forall n :: n in ending && n in next0 && !ending[n].Undef? && !next0[n].Undef? && ending[n] != next0[n] ==> next[n] == Unknown
    ensures changed <==> next != next0
  {
    changed, next := false, next0;
    var todo := ending.Keys;
    while todo != {}
      invariant todo <= ending.Keys && next.Keys == next0.Keys + (ending.Keys - todo)
      invariant forall n :: n in ending && n !in todo ==> next[n] == Merged(ending[n], Entry(next0, n))
      invariant forall n :: n in next0 && (n !in ending || n in todo) ==> next[n] == next0[n]
      invariant changed <==> next != next0
      decreases todo
    {
      var n :| n in todo;
      assert Entry(next, n) == Entry(next0, n);
      var c, t := Merge(ending[n], Entry(next, n));
      if c {
        assert n in next0 ==> next0[n] != t;
      } else {
        assert next[n := t] == next;
      }
      next := next[n := t];
      changed := c || changed;
      todo := todo - {n};
    }
  }

  /** An entry may rise from nothing to a type, and from any type but undefined to unknown. */
  predicate Rises(a: Type, b: Type) {
    a == b || (b.Unknown? && !a.Undef?)
  }

  ghost predicate RisesMap(a: TypeMap, b: TypeMap) {
    forall n {:trigger n in a} :: n in a ==> n in b && Rises(a[n], b[n])
  }

  /** Merging the ending map would change nothing. */
  ghost predicate Absorbs(ending: TypeMap, start: TypeMap) {
    forall n {:trigger n in ending} :: n in ending ==>
      n in start && (ending[n] == start[n] || ending[n].Undef? || start[n].Undef? || start[n].Unknown?)
  }

  lemma MergeRises(ending: TypeMap, next0: TypeMap, next: TypeMap)
    requires next.Keys == next0.Keys + ending.Keys
    requires forall n :: n in ending ==> next[n] == Merged(ending[n], Entry(next0, n))
    requires forall n :: n in next0 && n !in ending ==> next[n] == next0[n]
    ensures RisesMap(next0, next) && Absorbs(ending, next)
  {
    forall n | n in next0 ensures n in next && Rises(next0[n], next[n]) {
      if n in ending { assert next[n] == Merged(ending[n], Entry(next0, n)); }
    }
    forall n | n in ending ensures n in next && (ending[n] == next[n] || ending[n].Undef? || next[n].Undef? || next[n].Unknown?) {
      assert next[n] == Merged(ending[n], Entry(next0, n));
    }
  }

  lemma AbsorbsRisen(ending: TypeMap, a: TypeMap, b: TypeMap)
    requires Absorbs(ending, a) && RisesMap(a, b)
    ensures Absorbs(ending, b)
  {}

  lemma RisesTwice(a: TypeMap, b: TypeMap, c: TypeMap)
    requires RisesMap(a, b) && RisesMap(b, c)
    ensures RisesMap(a, c)
  {}

  // ---- what a pass records ------------------------------------------------------------------------

  function Types(m: map<nat, Type>, events: seq<Event>): map<nat, Type> {
    if events == [] then m else Types(m, events[..|events| - 1])[events[|events| - 1].node := events[|events| - 1].type_]
  }

  function Speculations(m: map<nat, nat>, events: seq<Event>): map<nat, nat> {
    if events == [] then m
    else
      var e, before := events[|events| - 1], Speculations(m, events[..|events| - 1]);
      if e.speculated.Some? then before[e.node := e.speculated.value] else before - {e.node}
  }

  /** Running a pass's events on the two records. */
  method RunPass(events: seq<Event>, types0: map<nat, Type>, specs0: map<nat, nat>) returns (types: map<nat, Type>, specs: map<nat, nat>)
    ensures types == Types(types0, events) && specs == Speculations(specs0, events)
  {
    types, specs := types0, specs0;
    for i := 0 to |events|
      invariant types == Types(types0, events[..i]) && specs == Speculations(specs0, events[..i])
    {
      var e := events[i];
      assert events[..i + 1][..i] == events[..i];
      specs := specs - {e.node};
      if e.speculated.Some? { specs := specs[e.node := e.speculated.value]; }
      types := types[e.node := e.type_];
    }
    assert events[..|events|] == events;
  }

  ghost predicate Visits(events: seq<Event>, node: nat) {
    exists i :: 0 <= i < |events| && events[i].node == node
  }

  /** After a pass the records of the nodes it visits are its own, whatever they were before; the
      others are unchanged. */
  lemma {:induction false} PassRecords(events: seq<Event>, types: map<nat, Type>, specs: map<nat, nat>, node: nat)
    ensures Visits(events, node) ==>
      && node in Types(types, events) && node in Types(map[], events) && Types(types, events)[node] == Types(map[], events)[node]
      && SameEntry(Speculations(specs, events), Speculations(map[], events), node)
    ensures !Visits(events, node) ==>
      SameEntry(Types(types, events), types, node) && SameEntry(Speculations(specs, events), specs, node)
  {
    if events != [] {
      var before, e := events[..|events| - 1], events[|events| - 1];
      PassRecords(before, types, specs, node);
      if Visits(before, node) {
        var i :| 0 <= i < |before| && before[i].node == node;
        assert events[i].node == node;
      }
      if Visits(events, node) && e.node != node {
        var i :| 0 <= i < |events| && events[i].node == node;
        assert before[i].node == node;
      }
    }
  }

  ghost predicate SameEntry<V>(a: map<nat, V>, b: map<nat, V>, k: nat) {
    (k in a <==> k in b) && (k in a ==> a[k] == b[k])
  }

  // ---- the state of the analysis -----------------------------------------------------------------

  datatype State = State(starting: map<nat, TypeMap>, queue: seq<nat>, inQueue: set<nat>, types: map<nat, Type>, specs: map<nat, nat>)

  /** Block u's last pass started from the current map, and its ending is absorbed by every
      successor. */
  ghost predicate Settled(g: Graph, f: Propagator, s: State, u: nat)
    requires u in s.starting
  {
    forall v {:trigger g.Edge(u, v)} :: g.Edge(u, v) ==> v in s.starting && Absorbs(f(u, s.starting[u]).ending, s.starting[v])
  }

  /** Passes name only names of the function. */
  ghost predicate NamesKept(f: Propagator, names: set<string>) {
    forall b: nat, m: TypeMap {:trigger f(b, m)} :: m.Keys <= names ==> f(b, m).ending.Keys <= names
  }

  // ---- who recorded what --------------------------------------------------------------------------

  /** Every pass over a block visits the same nodes. Blocks may share nodes: both tests of a `for`
      call the same attribute node. */
  ghost predicate FixedNodes(f: Propagator) {
    forall b: nat, m: TypeMap, n: TypeMap, x: nat {:trigger Visits(f(b, m).events, x), Visits(f(b, n).events, x)} ::
      Visits(f(b, m).events, x) <==> Visits(f(b, n).events, x)
  }

  /** The last event at node x. */
  ghost predicate LastAt(events: seq<Event>, i: nat, x: nat) {
    i < |events| && events[i].node == x && forall j :: i < j < |events| ==> events[j].node != x
  }

  /** What an event at node x records for it. */
  ghost predicate RecordedOf(e: Event, types: map<nat, Type>, specs: map<nat, nat>, x: nat) {
    && x in types && types[x] == e.type_
    && (if e.speculated.Some? then x in specs && specs[x] == e.speculated.value else x !in specs)
  }

  /** Node x's records are those of the last of these events at it. */
  ghost predicate RecordedBy(events: seq<Event>, types: map<nat, Type>, specs: map<nat, nat>, x: nat) {
    exists i: nat :: LastAt(events, i, x) && RecordedOf(events[i], types, specs, x)
  }

  lemma {:induction false} LastRecords(events: seq<Event>, types: map<nat, Type>, specs: map<nat, nat>, x: nat)
    requires Visits(events, x)
    ensures RecordedBy(events, Types(types, events), Speculations(specs, events), x)
  {
    RecordsStep(events, types, specs);
    hide Types, Speculations, RecordedOf;
    var k: nat := |events| - 1;
    var before, e := events[..k], events[k];
    if e.node == x {
      assert LastAt(events, k, x) && RecordedOf(e, Types(types, events), Speculations(specs, events), x);
    } else {
      VisitsBefore(events, x);
      LastRecords(before, types, specs, x);
      var i: nat :| LastAt(before, i, x) && RecordedOf(before[i], Types(types, before), Speculations(specs, before), x);
      RecordedStays(before[i], Types(types, before), Speculations(specs, before), e, x);
      LastStays(events, i, x);
    }
  }

  lemma RecordsStep(events: seq<Event>, types: map<nat, Type>, specs: map<nat, nat>)
    requires events != []
    ensures var k := |events| - 1;
      var e, t, s := events[k], Types(types, events), Speculations(specs, events);
      && t == Types(types, events[..k])[e.node := e.type_]
      && s == (if e.speculated.Some? then Speculations(specs, events[..k])[e.node := e.speculated.value] else Speculations(specs, events[..k]) - {e.node})
      && RecordedOf(e, t, s, e.node)
  {}

  lemma VisitsBefore(events: seq<Event>, x: nat)
    requires Visits(events, x) && events[|events| - 1].node != x
    ensures Visits(events[..|events| - 1], x)
  {
    var v :| 0 <= v < |events| && events[v].node == x;
    assert events[..|events| - 1][v].node == x;
  }

  lemma LastStays(events: seq<Event>, i: nat, x: nat)
    requires events != [] && LastAt(events[..|events| - 1], i, x) && events[|events| - 1].node != x
    ensures LastAt(events, i, x) && events[i] == events[..|events| - 1][i]
  {
    forall j | i < j < |events| - 1 ensures events[j].node != x { assert events[..|events| - 1][j] == events[j]; }
  }

  lemma RecordedStays(d: Event, types: map<nat, Type>, specs: map<nat, nat>, e: Event, x: nat)
    requires RecordedOf(d, types, specs, x) && e.node != x
    ensures RecordedOf(d, types[e.node := e.type_],
              if e.speculated.Some? then specs[e.node := e.speculated.value] else specs - {e.node}, x)
  {}

  lemma RecordedVisits(events: seq<Event>, types: map<nat, Type>, specs: map<nat, nat>, x: nat)
    requires RecordedBy(events, types, specs, x)
    ensures Visits(events, x)
  {}

  lemma SameRecorded(events: seq<Event>, types: map<nat, Type>, specs: map<nat, nat>, types1: map<nat, Type>, specs1: map<nat, nat>, x: nat)
    requires RecordedBy(events, types, specs, x) && SameEntry(types1, types, x) && SameEntry(specs1, specs, x)
    ensures RecordedBy(events, types1, specs1, x)
  {}

  /** The records of node x are those of a pass over block w from its starting map. */
  ghost predicate Writes(f: Propagator, starting: map<nat, TypeMap>, types: map<nat, Type>, specs: map<nat, nat>, w: nat, x: nat) {
    w in starting && RecordedBy(f(w, starting[w]).events, types, specs, x)
  }

  ghost predicate VisitedFrom(f: Propagator, starting: map<nat, TypeMap>, w: nat, x: nat) {
    w in starting && Visits(f(w, starting[w]).events, x)
  }

  /** Every record is some block's, from that block's final starting map, and every node that is
      visited has one. */
  ghost predicate Explained(f: Propagator, starting: map<nat, TypeMap>, types: map<nat, Type>, specs: map<nat, nat>) {
    && (forall x: nat {:trigger x in types} {:trigger x in specs} :: x in types || x in specs ==> exists w :: Writes(f, starting, types, specs, w, x))
    && (forall w: nat, x: nat {:trigger VisitedFrom(f, starting, w, x)} :: VisitedFrom(f, starting, w, x) ==> x in types)
  }

  /** The same in the middle of the work: a block still queued will write again. */
  ghost predicate Tracked(f: Propagator, s: State) {
    && (forall x: nat {:trigger x in s.types} {:trigger x in s.specs} :: x in s.types || x in s.specs ==>
          exists w :: Writes(f, s.starting, s.types, s.specs, w, x) || (w in s.queue && VisitedFrom(f, s.starting, w, x)))
    && (forall w: nat, x: nat {:trigger VisitedFrom(f, s.starting, w, x)} :: VisitedFrom(f, s.starting, w, x) ==> w in s.queue || x in s.types)
  }

  ghost predicate InRange(g: Graph, s: State, names: set<string>) {
    && 0 in s.starting
    && (forall b {:trigger b in s.starting} :: b in s.starting ==> b < |g.succs| && s.starting[b].Keys <= names && g.Reachable(b))
    && (forall b {:trigger b in s.queue} :: b in s.queue ==> b in s.starting)
    && (forall b {:trigger b in s.inQueue} :: b in s.inQueue ==> b in s.queue)
  }

  ghost predicate Working(g: Graph, f: Propagator, s: State) {
    forall u {:trigger u in s.queue} {:trigger u in s.starting} :: u in s.starting ==> u in s.queue || Settled(g, f, s, u)
  }

  // ---- progress -----------------------------------------------------------------------------------

  /** The starting maps of blocks only appear, and only rise. */
  ghost predicate RisesAll(a: map<nat, TypeMap>, b: map<nat, TypeMap>) {
    forall u {:trigger u in a} :: u in a ==> u in b && RisesMap(a[u], b[u])
  }

  /** What the maps have come to say: each fact, once true, stays so. */
  datatype Fact = Entered(b: nat) | Has(b: nat, n: string) | Top(b: nat, n: string)

  ghost function Facts(st: map<nat, TypeMap>): set<Fact> {
    (set b | b in st :: Entered(b)) + (set b, n | b in st && n in st[b] :: Has(b, n))
    + (set b, n | b in st && n in st[b] && st[b][n].Unknown? :: Top(b, n))
  }

  ghost function AllFacts(blocks: set<nat>, names: set<string>): set<Fact> {
    (set b | b in blocks :: Entered(b)) + (set b, n | b in blocks && n in names :: Has(b, n))
    + (set b, n | b in blocks && n in names :: Top(b, n))
  }

  lemma FactsWithin(st: map<nat, TypeMap>, blocks: set<nat>, names: set<string>)
    requires forall b :: b in st ==> b in blocks && st[b].Keys <= names
    ensures Facts(st) <= AllFacts(blocks, names)
  {
    forall b, n | b in st && n in st[b] ensures n in names { assert n in st[b].Keys; }
  }

  /** Every real change adds a fact. */
  lemma FactsGrow(a: map<nat, TypeMap>, b: map<nat, TypeMap>)
    requires RisesAll(a, b)
    ensures Facts(a) <= Facts(b) && (a != b ==> Facts(a) != Facts(b))
  {
    forall f | f in Facts(a) ensures f in Facts(b) {
      match f
      case Entered(u) =>
      case Has(u, n) => assert n in a[u];
      case Top(u, n) => assert n in a[u];
    }
    if a != b {
      if u :| u in b && u !in a {
        assert Entered(u) in Facts(b) && Entered(u) !in Facts(a);
      } else {
        assert a.Keys == b.Keys;
        var u :| u in a && a[u] != b[u];
        assert RisesMap(a[u], b[u]);
        if n :| n in b[u] && n !in a[u] {
          assert Has(u, n) in Facts(b) && Has(u, n) !in Facts(a);
        } else {
          assert a[u].Keys == b[u].Keys;
          var n :| n in a[u] && a[u][n] != b[u][n];
          assert Top(u, n) in Facts(b) && Top(u, n) !in Facts(a);
        }
      }
    }
  }

  // ---- where entries come from --------------------------------------------------------------------

  /** The type argument n is given: that of the last parameter of this name. */
  ghost predicate ArgType(args: seq<(string, Type)>, n: string, ty: Type) {
    exists i {:trigger args[i]} :: 0 <= i < |args| && args[i] == (n, ty) && forall j :: i < j < |args| ==> args[j].0 != n
  }

  /** A pass over u, from a map that u's has risen from, ends with type ty for n. */
  ghost predicate Ends(f: Propagator, starting: map<nat, TypeMap>, u: nat, n: string, ty: Type) {
    u in starting && exists m {:trigger f(u, m)} :: RisesMap(m, starting[u]) && n in f(u, m).ending && f(u, m).ending[n] == ty
  }

  /** Block v is given type ty for n: as an argument, or from a predecessor. */
  ghost predicate Supplies(g: Graph, args: seq<(string, Type)>, f: Propagator, starting: map<nat, TypeMap>, v: nat, n: string, ty: Type) {
    (v == 0 && ArgType(args, n, ty)) || exists u :: g.Edge(u, v) && Ends(f, starting, u, n, ty)
  }

  /** An entry is a type that was given, or unknown because two different ones were. */
  ghost predicate Supplied(g: Graph, args: seq<(string, Type)>, f: Propagator, starting: map<nat, TypeMap>, v: nat, n: string, ty: Type) {
    || Supplies(g, args, f, starting, v, n, ty)
    || (ty.Unknown? && exists a, b :: a != b && Supplies(g, args, f, starting, v, n, Known(a)) && Supplies(g, args, f, starting, v, n, Known(b)))
  }

  ghost predicate AllSupplied(g: Graph, args: seq<(string, Type)>, f: Propagator, starting: map<nat, TypeMap>) {
    forall v, n {:trigger n in starting[v]} :: v in starting && n in starting[v] ==> Supplied(g, args, f, starting, v, n, starting[v][n])
  }

  /** What merging an ending map may have made of a map's entries. */
  ghost predicate Grown(ending: TypeMap, a: TypeMap, b: TypeMap) {
    forall n {:trigger n in b} :: n in b ==>
      || (n in a && b[n] == a[n])
      || (n in ending && b[n] == ending[n])
      || (n in ending && n in a && b[n].Unknown? && a[n].Known? && ending[n].Known? && a[n] != ending[n])
  }

  lemma MergeGrows(ending: TypeMap, a: TypeMap, b: TypeMap, c: TypeMap)
    requires Grown(ending, a, b) && c.Keys == b.Keys + ending.Keys
    requires forall n :: n in ending ==> c[n] == Merged(ending[n], Entry(b, n))
    requires forall n :: n in b && n !in ending ==> c[n] == b[n]
    ensures Grown(ending, a, c)
  {
    forall n | n in c
      ensures (n in a && c[n] == a[n]) || (n in ending && c[n] == ending[n])
        || (n in ending && n in a && c[n].Unknown? && a[n].Known? && ending[n].Known? && a[n] != ending[n])
    {
      if n in ending { assert c[n] == Merged(ending[n], Entry(b, n)); }
    }
  }

  /** After the merges into `done`, each map is what it was or has grown by the ending map. */
  ghost predicate Origins(ending: TypeMap, st0: map<nat, TypeMap>, st: map<nat, TypeMap>, done: seq<nat>) {
    forall v {:trigger st[v]} :: v in st ==>
      (v in st0 && st[v] == st0[v]) || (v in done && Grown(ending, if v in st0 then st0[v] else map[], st[v]))
  }

  lemma MergedFrom(ending: TypeMap, st0: map<nat, TypeMap>, st: map<nat, TypeMap>, done: seq<nat>, next: nat, before: TypeMap, after: TypeMap)
    requires Origins(ending, st0, st, done) && before == (if next in st then st[next] else map[])
    requires (forall v :: v in st0 ==> v in st) && after.Keys == before.Keys + ending.Keys
    requires forall n :: n in ending ==> after[n] == Merged(ending[n], Entry(before, n))
    requires forall n :: n in before && n !in ending ==> after[n] == before[n]
    ensures Origins(ending, st0, st[next := after], done + [next])
  {
    var a := if next in st0 then st0[next] else map[];
    assert Grown(ending, a, before) by {
      if next in st { assert st[next] == before; }
    }
    MergeGrows(ending, a, before, after);
    hide Grown, Merged;
  }

  lemma {:induction false} InitialIs(args: seq<(string, Type)>, n: string)
    ensures n in InitialTypes(args) ==> ArgType(args, n, InitialTypes(args)[n])
    ensures forall ty :: ArgType(args, n, ty) ==> n in InitialTypes(args) && InitialTypes(args)[n] == ty
  {
    if args != [] {
      var init := args[..|args| - 1];
      InitialIs(init, n);
      hide ArgType;
      if n in InitialTypes(args) { OneArgMore(args, n, InitialTypes(args)[n]); }
      forall ty | ArgType(args, n, ty) ensures n in InitialTypes(args) && InitialTypes(args)[n] == ty { OneArgMore(args, n, ty); }
    }
  }

  lemma OneArgMore(args: seq<(string, Type)>, n: string, ty: Type)
    requires args != []
    ensures var last := args[|args| - 1];
      ArgType(args, n, ty) <==> if last.0 == n then last.1 == ty else ArgType(args[..|args| - 1], n, ty)
  {
    var k := |args| - 1;
    var init := args[..k];
    if args[k].0 == n && args[k].1 == ty { assert args[k] == (n, ty); }
    if args[k].0 != n && ArgType(init, n, ty) {
      var i :| 0 <= i < k && init[i] == (n, ty) && forall j :: i < j < k ==> init[j].0 != n;
      forall j | i < j < |args| ensures args[j].0 != n { if j < k { assert init[j] == args[j]; } }
      assert args[i] == (n, ty);
    }
    if args[k].0 != n && ArgType(args, n, ty) {
      var i :| 0 <= i < |args| && args[i] == (n, ty) && forall j :: i < j < |args| ==> args[j].0 != n;
      assert init[i] == (n, ty);
      forall j | i < j < k ensures init[j].0 != n { assert init[j] == args[j]; }
    }
  }

  lemma StartSupplied(g: Graph, args: seq<(string, Type)>, f: Propagator)
    ensures AllSupplied(g, args, f, map[0 := InitialTypes(args)])
  {
    forall n | n in InitialTypes(args) ensures Supplies(g, args, f, map[0 := InitialTypes(args)], 0, n, InitialTypes(args)[n]) {
      InitialIs(args, n);
    }
  }

  /** Maps only rise, so what supplied an entry still does. */
  lemma StillSupplies(g: Graph, args: seq<(string, Type)>, f: Propagator, st0: map<nat, TypeMap>, st: map<nat, TypeMap>, v: nat, n: string, ty: Type)
    requires RisesAll(st0, st) && Supplies(g, args, f, st0, v, n, ty)
    ensures Supplies(g, args, f, st, v, n, ty)
  {
    if !(v == 0 && ArgType(args, n, ty)) {
      var u :| g.Edge(u, v) && Ends(f, st0, u, n, ty);
      var m :| RisesMap(m, st0[u]) && n in f(u, m).ending && f(u, m).ending[n] == ty;
      RisesTwice(m, st0[u], st[u]);
      assert Ends(f, st, u, n, ty);
    }
  }

  lemma StillSupplied(g: Graph, args: seq<(string, Type)>, f: Propagator, st0: map<nat, TypeMap>, st: map<nat, TypeMap>, v: nat, n: string, ty: Type)
    requires RisesAll(st0, st) && Supplied(g, args, f, st0, v, n, ty)
    ensures Supplied(g, args, f, st, v, n, ty)
  {
    hide Supplies, RisesAll;
    if Supplies(g, args, f, st0, v, n, ty) {
      StillSupplies(g, args, f, st0, st, v, n, ty);
    } else {
      var a, b :| a != b && Supplies(g, args, f, st0, v, n, Known(a)) && Supplies(g, args, f, st0, v, n, Known(b));
      StillSupplies(g, args, f, st0, st, v, n, Known(a));
      StillSupplies(g, args, f, st0, st, v, n, Known(b));
    }
  }

  lemma SupplyGrows(g: Graph, args: seq<(string, Type)>, f: Propagator, u: nat, st0: map<nat, TypeMap>, st: map<nat, TypeMap>)
    requires AllSupplied(g, args, f, st0) && RisesAll(st0, st) && u in st0 && u < |g.succs|
    requires Origins(f(u, st0[u]).ending, st0, st, g.succs[u])
    ensures AllSupplied(g, args, f, st)
  {
    var ending := f(u, st0[u]).ending;
    hide RisesMap;
    forall v, n | v in st && n in st[v] ensures Supplied(g, args, f, st, v, n, st[v][n]) {
      var a: TypeMap := if v in st0 then st0[v] else map[];
      if n in a && st[v][n] == a[n] {
        StillSupplied(g, args, f, st0, st, v, n, a[n]);
      } else {
        assert v in g.succs[u] && Grown(ending, a, st[v]) && n in ending;
        EndsNow(g, args, f, u, st0, st, v, n);
        if st[v][n] != ending[n] {
          assert Supplied(g, args, f, st0, v, n, a[n]);
          StillSupplies(g, args, f, st0, st, v, n, a[n]);
        }
      }
    }
  }

  lemma EndsNow(g: Graph, args: seq<(string, Type)>, f: Propagator, u: nat, st0: map<nat, TypeMap>, st: map<nat, TypeMap>, v: nat, n: string)
    requires u in st0 && RisesAll(st0, st) && g.Edge(u, v) && n in f(u, st0[u]).ending
    ensures Supplies(g, args, f, st, v, n, f(u, st0[u]).ending[n])
  {
    assert RisesMap(st0[u], st[u]);
    assert Ends(f, st, u, n, f(u, st0[u]).ending[n]);
  }

  // ---- the worklist -------------------------------------------------------------------------------

  /** What merging one block's ending map into its first successors has done. */
  ghost predicate Merging(g: Graph, u: nat, k: nat, ending: TypeMap, st0: map<nat, TypeMap>, st: map<nat, TypeMap>,
                          queue0: seq<nat>, queue: seq<nat>, inQueue: set<nat>)
    requires u < |g.succs| && k <= |g.succs[u]|
  {
    && RisesAll(st0, st) && queue0 <= queue && (st == st0 ==> queue == queue0)
    && (forall b {:trigger b in inQueue} :: b in inQueue ==> b in queue)
    && (forall b {:trigger b in st} :: b in st ==> b in queue || (b in st0 && st[b] == st0[b]))
    && (forall b {:trigger b in st} :: b in st ==> b in st0 || b in g.succs[u][..k])
    && (forall b {:trigger b in queue} :: b in queue ==> b in st)
    && (forall v {:trigger v in g.succs[u][..k]} :: v in g.succs[u][..k] ==> v in st && Absorbs(ending, st[v]))
  }

  ghost predicate NamesIn(st: map<nat, TypeMap>, names: set<string>) {
    forall b {:trigger st[b]} :: b in st ==> st[b].Keys <= names
  }

  /** The loop over one block's successors. */
  method MergeIntoSuccessors(g: Graph, u: nat, ending: TypeMap, st0: map<nat, TypeMap>, queue0: seq<nat>, inQueue0: set<nat>, ghost names: set<string>)
      returns (st: map<nat, TypeMap>, queue: seq<nat>, inQueue: set<nat>)
    requires u < |g.succs| && NamesIn(st0, names) && ending.Keys <= names
    requires (forall b :: b in inQueue0 ==> b in queue0) && forall b :: b in queue0 ==> b in st0
    ensures Merging(g, u, |g.succs[u]|, ending, st0, st, queue0, queue, inQueue) && NamesIn(st, names)
    ensures Origins(ending, st0, st, g.succs[u])
  {
    hide Merging, RisesAll, Absorbs, Origins, Merged;
    st, queue, inQueue := st0, queue0, inQueue0;
    NothingMerged(g, u, ending, st0, queue0, inQueue0);
    assert Origins(ending, st0, st, g.succs[u][..0]) by { SameOrigins(ending, st0); }
    for i := 0 to |g.succs[u]|
      invariant Merging(g, u, i, ending, st0, st, queue0, queue, inQueue) && NamesIn(st, names)
      invariant Origins(ending, st0, st, g.succs[u][..i]) && forall v :: v in st0 ==> v in st
    {
      var next := g.succs[u][i];
      var first := next !in st;
      var before := if first then map[] else st[next];
      var changed, after := MergeMap(ending, before);
      var push := (first || changed) && next !in inQueue;
      MergedOne(g, u, i, ending, st0, st, queue0, queue, inQueue, before, after, push);
      MergedFrom(ending, st0, st, g.succs[u][..i], next, before, after);
      assert g.succs[u][..i + 1] == g.succs[u][..i] + [next];
      st := st[next := after];
      if push {
        inQueue := inQueue + {next};
        queue := queue + [next];
      }
    }
    assert g.succs[u][..|g.succs[u]|] == g.succs[u];
  }

  lemma SameOrigins(ending: TypeMap, st: map<nat, TypeMap>)
    ensures Origins(ending, st, st, [])
  {}

  lemma NothingMerged(g: Graph, u: nat, ending: TypeMap, st: map<nat, TypeMap>, queue: seq<nat>, inQueue: set<nat>)
    requires u < |g.succs| && (forall b :: b in inQueue ==> b in queue) && forall b :: b in queue ==> b in st
    ensures Merging(g, u, 0, ending, st, st, queue, queue, inQueue)
  {}

  lemma MergedOne(g: Graph, u: nat, k: nat, ending: TypeMap, st0: map<nat, TypeMap>, st: map<nat, TypeMap>,
                  queue0: seq<nat>, queue: seq<nat>, inQueue: set<nat>, before: TypeMap, after: TypeMap, push: bool)
    requires u < |g.succs| && k < |g.succs[u]| && Merging(g, u, k, ending, st0, st, queue0, queue, inQueue)
    requires var next := g.succs[u][k];
      && before == (if next in st then st[next] else map[])
      && (push <==> (next !in st || after != before) && next !in inQueue)
    requires after.Keys == before.Keys + ending.Keys
    requires forall n :: n in ending ==> after[n] == Merged(ending[n], Entry(before, n))
    requires forall n :: n in before && n !in ending ==> after[n] == before[n]
    ensures var next := g.succs[u][k];
      Merging(g, u, k + 1, ending, st0, st[next := after], queue0, if push then queue + [next] else queue, if push then inQueue + {next} else inQueue)
  {
    var next := g.succs[u][k];
    var st1, queue1 := st[next := after], if push then queue + [next] else queue;
    MergeRises(ending, before, after);
    hide Absorbs, RisesMap, Merged;
    RisesByOne(st0, st, next, after);
    var done, more := g.succs[u][..k], g.succs[u][..k + 1];
    assert more == done + [next];
    forall v | v in more ensures v in st1 && Absorbs(ending, st1[v]) {
      if v != next { assert v in done; }
    }
    forall b | b in st1 ensures b in queue1 || (b in st0 && st1[b] == st0[b]) {
      if b == next && next in st && after == st[next] {
        assert st1 == st;
      }
    }
    if st1 == st0 {
      RisesBothWays(st0[next], st[next]);
      assert st1 == st;
    }
  }

  lemma RisesBothWays(a: TypeMap, b: TypeMap)
    requires RisesMap(a, b) && RisesMap(b, a)
    ensures a == b
  {
    assert forall n :: n in a <==> n in b;
  }

  lemma RisesByOne(st0: map<nat, TypeMap>, st: map<nat, TypeMap>, next: nat, after: TypeMap)
    requires RisesAll(st0, st) && (next in st ==> RisesMap(st[next], after))
    ensures RisesAll(st0, st[next := after])
  {
    if next in st0 { RisesTwice(st0[next], st[next], after); }
    hide RisesMap;
  }

  function InitialTypes(args: seq<(string, Type)>): TypeMap {
    if args == [] then map[] else InitialTypes(args[..|args| - 1])[args[|args| - 1].0 := args[|args| - 1].1]
  }

  /** doAnalysis. It stops whatever the passes compute. The blocks with a starting map are those
      reachable from the entry; merging any block's ending map, computed from its final starting
      map, into any successor's starting map changes nothing; every entry is a type that was given to the
      block, or is unknown because two different ones were; and the type and speculation recorded
      for a node are those of a pass, from its final starting map, over a block that visits it. */
  method DoAnalysis(g: Graph, args: seq<(string, Type)>, f: Propagator, ghost names: set<string>)
      returns (starting: map<nat, TypeMap>, types: map<nat, Type>, specs: map<nat, nat>)
    requires g.Valid() && NamesKept(f, names) && forall i :: 0 <= i < |args| ==> args[i].0 in names
    ensures forall b: nat :: b in starting <==> g.Reachable(b)
    ensures 0 in starting && forall n, ty :: ArgType(args, n, ty) ==> n in starting[0] && Rises(ty, starting[0][n])
    ensures forall u: nat, v: nat :: u in starting && g.Edge(u, v) ==>
      v in starting && Absorbs(f(u, starting[u]).ending, starting[v])
    ensures AllSupplied(g, args, f, starting)
    ensures FixedNodes(f) ==> Explained(f, starting, types, specs)
  {
    hide Merging, Origins, RisesAll, AllSupplied, ArgType, FixedNodes, Tracked, Explained, Absorbs, NamesKept, Types, Speculations, AllFacts, Facts,
      Settled, InRange, Working, RisesMap;
    var initial: TypeMap := map[];
    for i := 0 to |args|
      invariant initial == InitialTypes(args[..i]) && initial.Keys <= names
    {
      assert args[..i + 1][..i] == args[..i];
      initial := initial[args[i].0 := args[i].1];
    }
    assert args[..|args|] == args;
    starting, types, specs := map[0 := initial], map[], map[];
    var queue, inQueue := [0], {};
    StartsWorking(g, f, starting, initial, names);
    StartsTracked(f, starting);
    StartSupplied(g, args, f);
    while queue != []
      invariant InRange(g, State(starting, queue, inQueue, types, specs), names) && Working(g, f, State(starting, queue, inQueue, types, specs))
      invariant 0 in starting && RisesMap(initial, starting[0]) && AllSupplied(g, args, f, starting)
      invariant FixedNodes(f) ==> Tracked(f, State(starting, queue, inQueue, types, specs))
      decreases |AllFacts(Blocks(g), names) - Facts(starting)|, |queue|
    {
      ghost var s := State(starting, queue, inQueue, types, specs);
      var block := queue[0];
      Popped(g, f, s, names);
      queue := queue[1..];
      inQueue := inQueue - {block};
      var pass := f(block, starting[block]);
      types, specs := RunPass(pass.events, types, specs);
      starting, queue, inQueue := MergeIntoSuccessors(g, block, pass.ending, starting, queue, inQueue, names);
      ghost var t := State(starting, queue, inQueue, types, specs);
      PassSettles(g, f, s, t, names);
      RoundRises(g, f, s, t);
      SupplyGrows(g, args, f, block, s.starting, starting);
      if FixedNodes(f) { PassTracks(g, f, s, t); }
      EntryRises(g, f, s, t, initial);
      PassProgress(g, f, s, t, names);
    }
    AllSettled(g, f, State(starting, queue, inQueue, types, specs), names);
    if FixedNodes(f) { AllExplained(f, State(starting, queue, inQueue, types, specs)); }
    ArgumentsRise(args, starting[0]);
  }

  lemma RoundRises(g: Graph, f: Propagator, s: State, t: State)
    requires Round(g, f, s, t)
    ensures RisesAll(s.starting, t.starting)
  {
    hide RisesMap, Absorbs;
  }

  lemma ArgumentsRise(args: seq<(string, Type)>, m: TypeMap)
    requires RisesMap(InitialTypes(args), m)
    ensures forall n, ty :: ArgType(args, n, ty) ==> n in m && Rises(ty, m[n])
  {
    forall n, ty | ArgType(args, n, ty) ensures n in m && Rises(ty, m[n]) { InitialIs(args, n); }
  }

  lemma StartsTracked(f: Propagator, starting: map<nat, TypeMap>)
    requires starting.Keys == {0}
    ensures Tracked(f, State(starting, [0], {}, map[], map[]))
  {}

  lemma AllExplained(f: Propagator, s: State)
    requires Tracked(f, s) && s.queue == []
    ensures Explained(f, s.starting, s.types, s.specs)
  {
    hide Writes, VisitedFrom;
    forall x: nat | x in s.types || x in s.specs ensures exists w :: Writes(f, s.starting, s.types, s.specs, w, x) {
      var w :| Writes(f, s.starting, s.types, s.specs, w, x) || (w in s.queue && VisitedFrom(f, s.starting, w, x));
    }
  }

  lemma StartsWorking(g: Graph, f: Propagator, starting: map<nat, TypeMap>, initial: TypeMap, names: set<string>)
    requires g.Valid() && starting == map[0 := initial] && initial.Keys <= names
    ensures InRange(g, State(starting, [0], {}, map[], map[]), names) && Working(g, f, State(starting, [0], {}, map[], map[]))
    ensures RisesMap(initial, starting[0])
  {
    assert g.EntryPath([0], 0);
  }

  lemma Popped(g: Graph, f: Propagator, s: State, names: set<string>)
    requires InRange(g, s, names) && s.queue != [] && NamesKept(f, names)
    ensures s.queue[0] in s.starting && s.queue[0] < |g.succs| && NamesIn(s.starting, names)
    ensures f(s.queue[0], s.starting[s.queue[0]]).ending.Keys <= names
    ensures forall b :: b in s.inQueue - {s.queue[0]} ==> b in s.queue[1..]
    ensures forall b :: b in s.queue[1..] ==> b in s.starting
  {
    var rest := s.queue[1..];
    assert forall b :: b in s.queue <==> b == s.queue[0] || b in rest by { assert s.queue == [s.queue[0]] + rest; }
    assert s.queue[0] in s.queue;
    assert s.starting[s.queue[0]].Keys <= names;
  }

  /** One round of the loop: the block's pass, and the merges into its successors. */
  ghost predicate Round(g: Graph, f: Propagator, s: State, t: State) {
    && s.queue != [] && s.queue[0] in s.starting && s.queue[0] < |g.succs|
    && var block := s.queue[0];
       var pass := f(block, s.starting[block]);
       && t.types == Types(s.types, pass.events) && t.specs == Speculations(s.specs, pass.events)
       && Merging(g, block, |g.succs[block]|, pass.ending, s.starting, t.starting, s.queue[1..], t.queue, t.inQueue)
  }

  lemma PassSettles(g: Graph, f: Propagator, s: State, t: State, names: set<string>)
    requires g.Valid() && InRange(g, s, names) && Working(g, f, s) && Round(g, f, s, t) && NamesIn(t.starting, names)
    ensures InRange(g, t, names) && Working(g, f, t)
  {
    hide Types, Speculations, Settled, Absorbs, RisesMap;
    var block := s.queue[0];
    var pass, rest := f(block, s.starting[block]), s.queue[1..];
    assert s.queue == [block] + rest;
    assert g.succs[block][..|g.succs[block]|] == g.succs[block];
    forall b | b in t.starting ensures b < |g.succs| && t.starting[b].Keys <= names && g.Reachable(b) {
      if b !in s.starting {
        assert g.Edge(block, b);
        var p :| g.EntryPath(p, block);
        EntryPathExtends(g, p, block, b);
      }
    }
    forall u | u in t.starting && u !in t.queue ensures Settled(g, f, t, u) {
      assert u in s.starting && t.starting[u] == s.starting[u];
      if u == block {
        BlockSettled(g, f, s, t);
      } else {
        assert u !in rest;
        OtherSettled(g, f, s, t, u);
      }
    }
  }

  lemma BlockSettled(g: Graph, f: Propagator, s: State, t: State)
    requires Round(g, f, s, t)
    requires s.queue[0] in t.starting && t.starting[s.queue[0]] == s.starting[s.queue[0]]
    ensures Settled(g, f, t, s.queue[0])
  {
    hide Types, Speculations, Absorbs, RisesMap, Visits;
    var block := s.queue[0];
    var pass := f(block, s.starting[block]);
    assert g.succs[block][..|g.succs[block]|] == g.succs[block];
    forall v: nat | g.Edge(block, v) ensures v in t.starting && Absorbs(pass.ending, t.starting[v]) {
      assert v in g.succs[block][..|g.succs[block]|];
    }
  }

  lemma OtherSettled(g: Graph, f: Propagator, s: State, t: State, u: nat)
    requires Round(g, f, s, t) && u != s.queue[0] && u in s.starting && Settled(g, f, s, u)
    requires u in t.starting && t.starting[u] == s.starting[u]
    ensures Settled(g, f, t, u)
  {
    hide Types, Speculations, Absorbs, RisesMap, Visits;
    var last := f(u, s.starting[u]);
    forall v: nat | g.Edge(u, v) ensures v in t.starting && Absorbs(last.ending, t.starting[v]) {
      AbsorbsRisen(last.ending, s.starting[v], t.starting[v]);
    }
  }

  // ---- the records ----------------------------------------------------------------------------------

  /** A pass's nodes are its own to explain; the others' writers did not change. */
  lemma PassTracks(g: Graph, f: Propagator, s: State, t: State)
    requires FixedNodes(f) && Tracked(f, s) && Round(g, f, s, t)
    ensures Tracked(f, t)
  {
    hide Types, Speculations, Absorbs, RisesMap, Visits, Writes, VisitedFrom, FixedNodes, RecordedBy;
    var block := s.queue[0];
    forall x: nat | x in t.types || x in t.specs
      ensures exists w :: Writes(f, t.starting, t.types, t.specs, w, x) || (w in t.queue && VisitedFrom(f, t.starting, w, x))
    {
      if Visits(f(block, s.starting[block]).events, x) { OwnRecord(g, f, s, t, x); } else { OtherRecord(g, f, s, t, x); }
    }
    forall w: nat, x: nat | VisitedFrom(f, t.starting, w, x) ensures w in t.queue || x in t.types {
      if w !in t.queue { StillRecorded(g, f, s, t, w, x); }
    }
  }

  lemma OwnRecord(g: Graph, f: Propagator, s: State, t: State, x: nat)
    requires FixedNodes(f) && Round(g, f, s, t) && Visits(f(s.queue[0], s.starting[s.queue[0]]).events, x)
    ensures var block := s.queue[0];
      x in t.types && (Writes(f, t.starting, t.types, t.specs, block, x) || (block in t.queue && VisitedFrom(f, t.starting, block, x)))
  {
    hide Types, Speculations, Absorbs, RisesMap, Visits, RecordedBy;
    var block := s.queue[0];
    var events := f(block, s.starting[block]).events;
    LastRecords(events, s.types, s.specs, x);
    PassRecords(events, s.types, s.specs, x);
    assert block in t.starting;
    assert Visits(f(block, t.starting[block]).events, x);
  }

  lemma OtherRecord(g: Graph, f: Propagator, s: State, t: State, x: nat)
    requires FixedNodes(f) && Tracked(f, s) && Round(g, f, s, t) && (x in t.types || x in t.specs)
    requires !Visits(f(s.queue[0], s.starting[s.queue[0]]).events, x)
    ensures exists w :: Writes(f, t.starting, t.types, t.specs, w, x) || (w in t.queue && VisitedFrom(f, t.starting, w, x))
  {
    hide Types, Speculations, Absorbs, RisesMap, Visits;
    var block := s.queue[0];
    PassRecords(f(block, s.starting[block]).events, s.types, s.specs, x);
    var w :| Writes(f, s.starting, s.types, s.specs, w, x) || (w in s.queue && VisitedFrom(f, s.starting, w, x));
    assert Visits(f(w, s.starting[w]).events, x) by {
      if Writes(f, s.starting, s.types, s.specs, w, x) { RecordedVisits(f(w, s.starting[w]).events, s.types, s.specs, x); }
    }
    assert w != block;
    assert s.queue == [block] + s.queue[1..];
    assert w in t.starting;
    assert Visits(f(w, t.starting[w]).events, x);
    assert w in t.queue || t.starting[w] == s.starting[w];
    if Writes(f, s.starting, s.types, s.specs, w, x) {
      SameRecorded(f(w, s.starting[w]).events, s.types, s.specs, t.types, t.specs, x);
    }
    assert Writes(f, t.starting, t.types, t.specs, w, x) || (w in t.queue && VisitedFrom(f, t.starting, w, x));
  }

  lemma StillRecorded(g: Graph, f: Propagator, s: State, t: State, w: nat, x: nat)
    requires FixedNodes(f) && Tracked(f, s) && Round(g, f, s, t) && VisitedFrom(f, t.starting, w, x) && w !in t.queue
    ensures x in t.types
  {
    hide Types, Speculations, Absorbs, RisesMap, Visits;
    var block := s.queue[0];
    PassRecords(f(block, s.starting[block]).events, s.types, s.specs, x);
    assert w in s.starting && t.starting[w] == s.starting[w];
    if w != block {
      assert s.queue == [block] + s.queue[1..];
      assert VisitedFrom(f, s.starting, w, x);
    }
  }

  /** Where all blocks that visit a node record the same for it, each of them explains the record;
      in particular a node that one block alone visits has that block's record. */
  lemma AgreeingRecords(f: Propagator, starting: map<nat, TypeMap>, types: map<nat, Type>, specs: map<nat, nat>, u: nat, x: nat)
    requires Explained(f, starting, types, specs) && VisitedFrom(f, starting, u, x)
    requires forall w: nat {:trigger VisitedFrom(f, starting, w, x)} :: VisitedFrom(f, starting, w, x) ==>
      w == u || SameRecords(f(w, starting[w]).events, f(u, starting[u]).events, x)
    ensures Writes(f, starting, types, specs, u, x)
  {
    var w :| Writes(f, starting, types, specs, w, x);
    RecordedVisits(f(w, starting[w]).events, types, specs, x);
    assert VisitedFrom(f, starting, w, x);
    if w != u { SameLast(f(w, starting[w]).events, f(u, starting[u]).events, types, specs, x); }
  }

  /** Both passes leave the same type and speculation for the node. */
  ghost predicate SameRecords(a: seq<Event>, b: seq<Event>, x: nat) {
    forall i: nat, j: nat {:trigger LastAt(a, i, x), LastAt(b, j, x)} :: LastAt(a, i, x) && LastAt(b, j, x) ==>
      a[i].type_ == b[j].type_ && a[i].speculated == b[j].speculated
  }

  lemma SameLast(a: seq<Event>, b: seq<Event>, types: map<nat, Type>, specs: map<nat, nat>, x: nat)
    requires RecordedBy(a, types, specs, x) && SameRecords(a, b, x) && Visits(b, x)
    ensures RecordedBy(b, types, specs, x)
  {
    LastRecords(b, map[], map[], x);
    var i: nat :| LastAt(a, i, x) && RecordedOf(a[i], types, specs, x);
    var j: nat :| LastAt(b, j, x) && RecordedOf(b[j], Types(map[], b), Speculations(map[], b), x);
  }

  lemma EntryRises(g: Graph, f: Propagator, s: State, t: State, initial: TypeMap)
    requires Round(g, f, s, t) && 0 in s.starting && RisesMap(initial, s.starting[0])
    ensures 0 in t.starting && RisesMap(initial, t.starting[0])
  {
    RisesTwice(initial, s.starting[0], t.starting[0]) by { hide RisesMap; }
    hide RisesMap;
  }

  lemma PassProgress(g: Graph, f: Propagator, s: State, t: State, names: set<string>)
    requires Round(g, f, s, t) && InRange(g, s, names) && InRange(g, t, names)
    ensures var all := AllFacts(Blocks(g), names);
      |all - Facts(t.starting)| < |all - Facts(s.starting)| || (|all - Facts(t.starting)| == |all - Facts(s.starting)| && |t.queue| < |s.queue|)
  {
    hide RisesMap, Types, Speculations;
    var blocks := Blocks(g);
    FactsWithin(t.starting, blocks, names);
    FactsGrow(s.starting, t.starting);
    hide Facts, AllFacts;
    LessLeft(AllFacts(blocks, names), Facts(s.starting), Facts(t.starting));
  }

  lemma AllSettled(g: Graph, f: Propagator, s: State, names: set<string>)
    requires InRange(g, s, names) && Working(g, f, s) && s.queue == []
    ensures forall b: nat :: b in s.starting <==> g.Reachable(b)
    ensures forall u: nat, v: nat :: u in s.starting && g.Edge(u, v) ==>
      v in s.starting && Absorbs(f(u, s.starting[u]).ending, s.starting[v])
  {
    hide Absorbs;
    forall u: nat, v: nat | u in s.starting && g.Edge(u, v) ensures v in s.starting && Absorbs(f(u, s.starting[u]).ending, s.starting[v]) {
      assert Settled(g, f, s, u);
    }
    forall b: nat | g.Reachable(b) ensures b in s.starting {
      var p :| g.EntryPath(p, b);
      WalkStays(g, s.starting, p, |p| - 1);
    }
  }

  lemma {:induction false} WalkStays(g: Graph, starting: map<nat, TypeMap>, p: seq<nat>, k: nat)
    requires g.Walk(p) && p[0] == 0 && k < |p| && 0 in starting
    requires forall u: nat, v: nat :: u in starting && g.Edge(u, v) ==> v in starting
    ensures p[k] in starting
  {
    if k > 0 {
      WalkStays(g, starting, p, k - 1);
      assert g.Edge(p[k - 1], p[k]);
    }
  }
}
