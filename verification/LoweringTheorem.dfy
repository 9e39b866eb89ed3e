/** The whole function: what its lowered graph does is exactly what its statements do. */
module LoweringTheorem {
  import opened Commons
  import opened Source
  import opened Lowering
  import opened CfgRun
  import opened LoweringFrame
  import opened LoweringNodes
  import opened LoweringMeaning

  /** How a function's run ends when its statements end with the given outcome. */
  function EndOf(o: Outcome): Config {
    match o
    case Normal => Finished(NoneValue)
    case Returned(x) => Finished(x)
    case Starved => OutOfScript
    case Broke => Stuck
    case Continued => Stuck
  }

  /** From its entry block, the graph does what the statements do and ends as they end, on every
      script; and this is the only way a run of the graph can end. */
  lemma LoweringPreservesMeaning(inFunction: bool, body: seq<Stmt>, script: seq<int>)
    requires !ComputeCFG(inFunction, body).failed
    ensures var h, r, c := ComputeCFG(inFunction, body).heap, RunAll(body, script), Running(0, 0, NoneValue, script);
      && !r.outcome.Broke? && !r.outcome.Continued?
      && Reaches(h, c, r.events, EndOf(r.outcome))
      && forall events, d :: Reaches(h, c, events, d) && !d.Running? ==> events == r.events && d == EndOf(r.outcome)
  {
    hide Reaches, VisitAll, RunAll, PushBack;
    var start := Start(inFunction);
    var w, z := VisitAll(body, start), ComputeCFG(inFunction, body);
    var h, r, c := z.heap, RunAll(body, script), Running(0, 0, NoneValue, script);
    VisitAllFrame(body, start);
    PushFrame(w, Ret(NoOperand));
    FrameLater(w, z, w.curblock);
    HeapIncludes(z);
    IncludesEarlier(h, w, z, 0, 0, 1, 0);
    MeansAll(body, start, h, script, NoneValue);
    if r.outcome.Normal? { FallsOffTheEnd(h, w, z, r, c); }
    forall events, d | Reaches(h, c, events, d) && !d.Running? ensures events == r.events && d == EndOf(r.outcome) {
      EndIsUnique(h, c, events, d, r.events, EndOf(r.outcome));
    }
  }

  lemma HeapIncludes(z: Visitor)
    ensures Includes(z.heap, z, 0, 0)
  {}

  lemma FallsOffTheEnd(h: seq<Block>, w: Visitor, z: Visitor, r: Result, c: Config)
    requires w.curblock.Some? && ValidCur(w) && z == PushBack(w, Ret(NoOperand)) && h == z.heap
    requires Reaches(h, c, r.events, Running(w.curblock.value, |Body(w, w.curblock.value)|, NoneValue, r.rest))
    ensures Reaches(h, c, r.events, Finished(NoneValue))
  {
    hide Reaches, PushBack;
    var x := w.curblock.value;
    var d := Running(x, |Body(w, x)|, NoneValue, r.rest);
    PushNode(w, Ret(NoOperand)); PushFrame(w, Ret(NoOperand));
    HeapIncludes(z);
    NodeStays(h, z, 0, 0, x, |Body(w, x)|);
    ReachesStep(h, d);
    ReachesTrans(h, c, r.events, d, [], Finished(NoneValue));
    assert r.events + [] == r.events;
  }

  // ---- with: the exit calls match the enters ----------------------------------------------

  /** The `with` statements open after the events, innermost last, where `open` were open before;
      None if some exit call is not that of the innermost one. */
  function OpenWiths(open: seq<nat>, events: seq<Event>): Option<seq<nat>>
    decreases |events|
  {
    if events == [] then Some(open)
    else
      match events[0]
      case Did(Enter(id, _)) => OpenWiths(open + [id], events[1..])
      case Did(CallExit(id)) =>
        if open != [] && open[|open| - 1] == id then OpenWiths(open[..|open| - 1], events[1..]) else None
      case _ => OpenWiths(open, events[1..])
  }

  lemma {:induction false} OpenWithsJoin(open: seq<nat>, a: seq<Event>, b: seq<Event>)
    ensures OpenWiths(open, a + b) ==
      match OpenWiths(open, a) case Some(mid) => OpenWiths(mid, b) case None => None
    decreases |a|
  {
    if a == [] { assert [] + b == b; }
    else {
      assert (a + b)[1..] == a[1..] + b;
      match a[0]
      case Did(Enter(id, _)) => OpenWithsJoin(open + [id], a[1..], b);
      case Did(CallExit(id)) =>
        if open != [] && open[|open| - 1] == id { OpenWithsJoin(open[..|open| - 1], a[1..], b); }
      case _ => OpenWithsJoin(open, a[1..], b);
    }
  }

  /** At every moment of such a run the exit calls made so far have closed the innermost one. */
  lemma PrefixesNest(open: seq<nat>, events: seq<Event>, k: nat)
    requires k <= |events| && OpenWiths(open, events).Some?
    ensures OpenWiths(open, events[..k]).Some?
  {
    assert events == events[..k] + events[k..];
    OpenWithsJoin(open, events[..k], events[k..]);
  }

  /** The events close what they open and nothing else; if the script ran out, what was open stays
      open below what they opened. */
  ghost predicate Nests(open: seq<nat>, r: Result) {
    var after := OpenWiths(open, r.events);
    after.Some? && open <= after.value && (!r.outcome.Starved? ==> after.value == open)
  }

  lemma ThenNests(open: seq<nat>, events: seq<Event>, r: Result)
    requires OpenWiths(open, events) == Some(open) && Nests(open, r)
    ensures Nests(open, Then(events, r))
  {
    OpenWithsJoin(open, events, r.events);
  }

  /** Every `with` that was entered makes exactly one exit call, innermost first, by the time the
      statements end, however they end: normally, or through break, continue or return. */
  lemma {:induction false} EveryWithExits(open: seq<nat>, ss: seq<Stmt>, script: seq<int>)
    ensures Nests(open, RunAll(ss, script))
    decreases |script|, ss, 3
  {
    if ss != [] {
      var first := RunStmt(ss[0], script);
      StmtExits(open, ss[0], script);
      if first.outcome.Normal? {
        EveryWithExits(open, ss[1..], first.rest);
        ThenNests(open, first.events, RunAll(ss[1..], first.rest));
      }
    }
  }

  lemma {:induction false} StmtExits(open: seq<nat>, s: Stmt, script: seq<int>)
    ensures Nests(open, RunStmt(s, script))
    decreases |script|, s, 2
  {
    match s {
      case Simple(_) =>
      case Break =>
      case Continue =>
      case Return(_) =>
      case If(test, body, orelse) =>
        if script != [] {
          var arm := if script[0] != 0 then body else orelse;
          EveryWithExits(open, arm, script[1..]);
          ThenNests(open, [Tested(Test(test), script[0] != 0)], RunAll(arm, script[1..]));
        }
      case While(_, _, _) => LoopExits(open, s, script);
      case For(id, iter, _, _, _) =>
        LoopExits(open, s, script);
        ThenNests(open, [Did(MakeIter(id, iter))], RunLoop(s, script));
      case With(id, context, vars, body) => WithExits(open, s, script);
    }
  }

  lemma {:induction false} WithExits(open: seq<nat>, s: Stmt, script: seq<int>)
    requires s.With?
    ensures Nests(open, RunStmt(s, script))
    decreases |script|, s, 0
  {
    hide RunAll, OpenWiths;
    var opening := [Did(MakeContext(s.id, s.context)), Did(LoadExit(s.id)), Did(Enter(s.id, s.vars))];
    var r, exit := RunAll(s.body, script), [Did(CallExit(s.id))];
    EveryWithExits(open + [s.id], s.body, script);
    OpeningOpens(open, s);
    OpenWithsJoin(open + [s.id], r.events, exit);
    OpenWithsJoin(open, opening, r.events);
    OpenWithsJoin(open, opening, r.events + exit);
  }

  lemma OpeningOpens(open: seq<nat>, s: Stmt)
    requires s.With?
    ensures OpenWiths(open, [Did(MakeContext(s.id, s.context)), Did(LoadExit(s.id)), Did(Enter(s.id, s.vars))]) == Some(open + [s.id])
    ensures OpenWiths(open + [s.id], [Did(CallExit(s.id))]) == Some(open)
  {
    var c, l, e := Did(MakeContext(s.id, s.context)), Did(LoadExit(s.id)), Did(Enter(s.id, s.vars));
    assert [c, l, e][1..] == [l, e] && [l, e][1..] == [e] && [e][1..] == [];
    assert OpenWiths(open, [e]) == Some(open + [s.id]);
    assert OpenWiths(open, [l, e]) == Some(open + [s.id]);
    assert [Did(CallExit(s.id))][1..] == [] && (open + [s.id])[..|open|] == open;
  }

  lemma {:induction false} LoopExits(open: seq<nat>, s: Stmt, script: seq<int>)
    requires s.While? || s.For?
    ensures Nests(open, RunLoop(s, script))
    decreases |script|, s, 1
  {
    if script != [] && script[0] == 0 {
      EveryWithExits(open, s.orelse, script[1..]);
      ThenNests(open, [Tested(LoopCond(s), false)], RunAll(s.orelse, script[1..]));
    } else if script != [] {
      MoreRoundsExit(open, s, script);
    }
  }

  lemma {:induction false} MoreRoundsExit(open: seq<nat>, s: Stmt, script: seq<int>)
    requires (s.While? || s.For?) && script != [] && script[0] != 0
    ensures Nests(open, RunLoop(s, script))
    decreases |script|, s, 0
  {
    hide RunAll, RunLoop, LoopCond, RoundStart, OpenWiths;
    assert |script[1..]| < |script|;
    var round := RunAll(s.body, script[1..]);
    EveryWithExits(open, s.body, script[1..]);
    LoopUnrolls(s, script);
    if round.outcome.Normal? || round.outcome.Continued? { LoopExits(open, s, round.rest); }
    RoundExits(open, s, round);
  }

  lemma LoopUnrolls(s: Stmt, script: seq<int>)
    requires (s.While? || s.For?) && script != [] && script[0] != 0
    ensures var round := RunAll(s.body, script[1..]);
      RunLoop(s, script) == Then([Tested(LoopCond(s), true)] + RoundStart(s) + round.events, AfterRound(s, round))
  {}

  lemma RoundExits(open: seq<nat>, s: Stmt, round: Result)
    requires (s.While? || s.For?) && Nests(open, round)
    requires round.outcome.Normal? || round.outcome.Continued? ==> Nests(open, RunLoop(s, round.rest))
    ensures Nests(open, Then([Tested(LoopCond(s), true)] + RoundStart(s) + round.events, AfterRound(s, round)))
  {
    hide RunLoop, LoopCond;
    var start := [Tested(LoopCond(s), true)] + RoundStart(s);
    assert OpenWiths(open, start) == Some(open) by {
      OpenWithsJoin(open, [Tested(LoopCond(s), true)], RoundStart(s));
    }
    OpenWithsJoin(open, start, round.events);
    OpenWithsJoin(open, start + round.events, AfterRound(s, round).events);
  }

  /** The same of every finished run of the lowered graph: at each moment its exit calls have
      closed the innermost open `with`, and none is open at the end. */
  lemma GraphExitsEveryWith(inFunction: bool, body: seq<Stmt>, script: seq<int>, events: seq<Event>, d: Config)
    requires !ComputeCFG(inFunction, body).failed
    requires Reaches(ComputeCFG(inFunction, body).heap, Running(0, 0, NoneValue, script), events, d) && !d.Running?
    ensures forall k :: 0 <= k <= |events| ==> OpenWiths([], events[..k]).Some?
    ensures d != OutOfScript ==> OpenWiths([], events) == Some([])
  {
    hide Reaches, RunAll, OpenWiths;
    LoweringPreservesMeaning(inFunction, body, script);
    EveryWithExits([], body, script);
    forall k | 0 <= k <= |events| ensures OpenWiths([], events[..k]).Some? { PrefixesNest([], events, k); }
  }
}
