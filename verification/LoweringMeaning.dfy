/** Lowering preserves meaning: for every script, running the lowered graph produces the same
    events and the same result as running the statements. */
module LoweringMeaning {
  import opened Commons
  import opened Source
  import opened Lowering
  import opened CfgRun
  import opened LoweringFrame
  import opened LoweringNodes

  /** Where the graph is after the events of r, started at c, when w is the visit's final state
      and v the one it began in (v's loops and return blocks are where early exits go). */
  ghost predicate Matches(g: seq<Block>, v: Visitor, w: Visitor, r: Result, saved: Value, c: Config) {
    match r.outcome
    case Normal =>
      w.curblock.Some? && Reaches(g, c, r.events, Running(w.curblock.value, |Body(w, w.curblock.value)|, saved, r.rest))
    case Broke =>
      v.loops != [] && ExitsTo(g, w, r, saved, c, v.loops[|v.loops| - 1].breakDest)
    case Continued =>
      v.loops != [] && ExitsTo(g, w, r, saved, c, v.loops[|v.loops| - 1].continueDest)
    case Returned(x) =>
      if v.returnDests == [] then Reaches(g, c, r.events, Finished(x))
      else ExitsTo(g, w, r, x, c, v.returnDests[|v.returnDests| - 1])
    case Starved => Reaches(g, c, r.events, OutOfScript)
  }

  ghost predicate ExitsTo(g: seq<Block>, w: Visitor, r: Result, saved: Value, c: Config, dest: nat) {
    HasPredecessors(w, dest) && Reaches(g, c, r.events, Running(dest, 0, saved, r.rest))
  }

  // ---- single steps -----------------------------------------------------------------------

  lemma JumpStep(g: seq<Block>, b: nat, pos: nat, t: nat, saved: Value, script: seq<int>)
    requires NodeAt(g, b, pos, Jump(t))
    ensures Reaches(g, Running(b, pos, saved, script), [], Running(t, 0, saved, script))
  {
    ReachesStep(g, Running(b, pos, saved, script));
  }

  lemma DoStep(g: seq<Block>, b: nat, pos: nat, a: Action, saved: Value, script: seq<int>)
    requires NodeAt(g, b, pos, Do(a))
    ensures Reaches(g, Running(b, pos, saved, script), [Did(a)], Running(b, pos + 1, saved, script))
  {
    ReachesStep(g, Running(b, pos, saved, script));
  }

  lemma BranchStep(g: seq<Block>, b: nat, pos: nat, cond: Cond, t: nat, f: nat, saved: Value, script: seq<int>)
    requires NodeAt(g, b, pos, Branch(cond, t, f))
    ensures script == [] ==> Reaches(g, Running(b, pos, saved, script), [], OutOfScript)
    ensures script != [] ==> Reaches(g, Running(b, pos, saved, script), [Tested(cond, script[0] != 0)],
      Running(if script[0] != 0 then t else f, 0, saved, script[1..]))
  {
    ReachesStep(g, Running(b, pos, saved, script));
  }

  // ---- combining runs ---------------------------------------------------------------------

  /** Events before a matching run still match. */
  lemma MatchesThen(g: seq<Block>, v: Visitor, w: Visitor, r: Result, saved: Value, c: Config, before: seq<Event>, b: Config)
    requires Matches(g, v, w, r, saved, c) && Reaches(g, b, before, c)
    ensures Matches(g, v, w, Then(before, r), saved, b)
  {
    hide Reaches;
    match r.outcome {
      case Normal => ReachesTrans(g, b, before, c, r.events, Running(w.curblock.value, |Body(w, w.curblock.value)|, saved, r.rest));
      case Broke => ReachesTrans(g, b, before, c, r.events, Running(v.loops[|v.loops| - 1].breakDest, 0, saved, r.rest));
      case Continued => ReachesTrans(g, b, before, c, r.events, Running(v.loops[|v.loops| - 1].continueDest, 0, saved, r.rest));
      case Returned(x) =>
        if v.returnDests == [] { ReachesTrans(g, b, before, c, r.events, Finished(x)); }
        else { ReachesTrans(g, b, before, c, r.events, Running(v.returnDests[|v.returnDests| - 1], 0, x, r.rest)); }
      case Starved => ReachesTrans(g, b, before, c, r.events, OutOfScript);
    }
  }

  /** An early exit matches in every later state and in every state with the same scopes. */
  lemma ExitMatchesLater(g: seq<Block>, v: Visitor, w: Visitor, v': Visitor, z: Visitor, r: Result, saved: Value, c: Config)
    requires Matches(g, v, w, r, saved, c) && !r.outcome.Normal?
    requires SameScopes(v, v') && Later(w, z)
    ensures Matches(g, v', z, r, saved, c)
  {
    hide Reaches, Later;
    match r.outcome {
      case Broke => PredecessorsStay(w, z, v.loops[|v.loops| - 1].breakDest);
      case Continued => PredecessorsStay(w, z, v.loops[|v.loops| - 1].continueDest);
      case Returned(x) => if v.returnDests != [] { PredecessorsStay(w, z, v.returnDests[|v.returnDests| - 1]); }
      case Starved =>
    }
  }

  /** An arm that falls out of its last block jumps to the exit, where the construct goes on. */
  lemma ArmJoins(g: seq<Block>, b: Visitor, w: Visitor, exit: nat, allow: bool, v: Visitor, z: Visitor, lo: nat, u: nat,
                 r: Result, saved: Value, c: Config)
    requires Matches(g, b, w, r, saved, c) && SameScopes(b, v) && ValidCur(w)
    requires Later(w, JumpTo(w, exit, allow)) && Later(JumpTo(w, exit, allow), z) && !z.failed
    requires Includes(g, z, lo, u) && (w.curblock.Some? ==> w.curblock.value == u || w.curblock.value >= lo)
    requires HasPredecessors(JumpTo(w, exit, allow), exit) ==> z.curblock == Some(exit) && Body(z, exit) == []
    ensures Matches(g, v, z, r, saved, c)
  {
    hide Reaches, Later, Includes, JumpTo;
    var y := JumpTo(w, exit, allow);
    LaterTrans(w, y, z);
    if r.outcome.Normal? {
      LaterNotFailed(y, z);
      JumpsOut(g, w, exit, allow, z, lo, u, r.rest, saved);
      ReachesTrans(g, c, r.events, Running(w.curblock.value, |Body(w, w.curblock.value)|, saved, r.rest), [],
                   Running(exit, 0, saved, r.rest));
      assert r.events + [] == r.events;
    } else {
      ExitMatchesLater(g, b, w, v, z, r, saved, c);
    }
  }

  lemma LaterNotFailed(y: Visitor, z: Visitor)
    requires Later(y, z) && !z.failed
    ensures !y.failed
  {}

  lemma JumpsOut(g: seq<Block>, w: Visitor, exit: nat, allow: bool, z: Visitor, lo: nat, u: nat, script: seq<int>, saved: Value)
    requires w.curblock.Some? && ValidCur(w)
    requires Later(JumpTo(w, exit, allow), z) && !JumpTo(w, exit, allow).failed
    requires Includes(g, z, lo, u) && (w.curblock.value == u || w.curblock.value >= lo)
    ensures Reaches(g, Running(w.curblock.value, |Body(w, w.curblock.value)|, saved, script), [], Running(exit, 0, saved, script))
    ensures HasPredecessors(JumpTo(w, exit, allow), exit)
  {
    hide Reaches, Later, Includes, JumpTo;
    var y, x := JumpTo(w, exit, allow), w.curblock.value;
    JumpNode(w, exit, allow);
    IncludesEarlier(g, y, z, lo, u, lo, u);
    NodeStays(g, y, lo, u, x, |Body(w, x)|);
    JumpStep(g, x, |Body(w, x)|, exit, saved, script);
  }

  lemma StarvedMatches(g: seq<Block>, v: Visitor, w: Visitor, r: Result, saved: Value, c: Config)
    requires r.outcome.Starved? && Reaches(g, c, r.events, OutOfScript)
    ensures Matches(g, v, w, r, saved, c)
  {}

  // ---- statements -------------------------------------------------------------------------

  lemma {:induction false} MeansAll(ss: seq<Stmt>, v: Visitor, g: seq<Block>, script: seq<int>, saved: Value)
    requires v.curblock.Some? && ValidCur(v)
    requires !VisitAll(ss, v).failed && Includes(g, VisitAll(ss, v), |v.heap|, v.curblock.value)
    ensures Matches(g, v, VisitAll(ss, v), RunAll(ss, script), saved,
                    Running(v.curblock.value, |Body(v, v.curblock.value)|, saved, script))
    decreases |script|, ss, 3
  {
    hide Visit, RunStmt, Reaches, Later, Includes, Grown;
    var u, z := v.curblock.value, VisitAll(ss, v);
    var c := Running(u, |Body(v, u)|, saved, script);
    if ss == [] {
      ReachesSelf(g, c);
    } else {
      var w, first := Visit(ss[0], v), RunStmt(ss[0], script);
      VisitFrame(ss[0], v);
      VisitAllFrame(ss[1..], w);
      FrameLater(w, z, w.curblock);
      LaterNotFailed(w, z);
      IncludesEarlier(g, w, z, |v.heap|, u, |v.heap|, u);
      MeansStmt(ss[0], v, g, script, saved);
      if first.outcome.Normal? {
        LaterRefl(z);
        IncludesEarlier(g, z, z, |v.heap|, u, |w.heap|, w.curblock.value);
        MeansAll(ss[1..], w, g, first.rest, saved);
        MatchesThen(g, w, z, RunAll(ss[1..], first.rest), saved,
          Running(w.curblock.value, |Body(w, w.curblock.value)|, saved, first.rest), first.events, c);
        ScopesMatch(g, w, v, z, RunAll(ss, script), saved, c);
      } else {
        ExitMatchesLater(g, v, w, v, z, first, saved, c);
      }
    }
  }

  lemma ScopesMatch(g: seq<Block>, v: Visitor, v': Visitor, w: Visitor, r: Result, saved: Value, c: Config)
    requires Matches(g, v, w, r, saved, c) && SameScopes(v, v')
    ensures Matches(g, v', w, r, saved, c)
  {}

  lemma {:induction false} MeansStmt(s: Stmt, v: Visitor, g: seq<Block>, script: seq<int>, saved: Value)
    requires v.curblock.Some? && ValidCur(v)
    requires !Visit(s, v).failed && Includes(g, Visit(s, v), |v.heap|, v.curblock.value)
    ensures Matches(g, v, Visit(s, v), RunStmt(s, script), saved,
                    Running(v.curblock.value, |Body(v, v.curblock.value)|, saved, script))
    decreases |script|, s, 2
  {
    hide Includes, Reaches, Grown;
    match s {
      case Simple(what) => MeansSimple(what, v, g, script, saved);
      case Return(value) => MeansReturn(value, v, g, script, saved);
      case Break => MeansExit(s, v, g, script, saved);
      case Continue => MeansExit(s, v, g, script, saved);
      case If(_, _, _) => MeansIf(s, v, g, script, saved);
      case While(_, _, _) => MeansWhile(s, v, g, script, saved);
      case For(_, _, _, _, _) => MeansFor(s, v, g, script, saved);
      case With(_, _, _, _) => MeansWith(s, v, g, script, saved);
    }
  }

  lemma MeansSimple(what: nat, v: Visitor, g: seq<Block>, script: seq<int>, saved: Value)
    requires v.curblock.Some? && ValidCur(v)
    requires Includes(g, Visit(Simple(what), v), |v.heap|, v.curblock.value)
    ensures Matches(g, v, Visit(Simple(what), v), RunStmt(Simple(what), script), saved,
                    Running(v.curblock.value, |Body(v, v.curblock.value)|, saved, script))
  {
    hide Includes, Reaches;
    var u := v.curblock.value;
    NodeStays(g, Visit(Simple(what), v), |v.heap|, u, u, |Body(v, u)|);
    DoStep(g, u, |Body(v, u)|, Plain(what), saved, script);
  }

  lemma MeansExit(s: Stmt, v: Visitor, g: seq<Block>, script: seq<int>, saved: Value)
    requires (s.Break? || s.Continue?) && v.curblock.Some? && ValidCur(v)
    requires !Visit(s, v).failed && Includes(g, Visit(s, v), |v.heap|, v.curblock.value)
    ensures Matches(g, v, Visit(s, v), RunStmt(s, script), saved,
                    Running(v.curblock.value, |Body(v, v.curblock.value)|, saved, script))
  {
    hide Includes, Reaches, JumpTo;
    var u, inner := v.curblock.value, v.loops[|v.loops| - 1];
    var dest := if s.Break? then inner.breakDest else inner.continueDest;
    JumpNode(v, dest, true);
    NodeStays(g, Visit(s, v), |v.heap|, u, u, |Body(v, u)|);
    JumpStep(g, u, |Body(v, u)|, dest, saved, script);
  }

  // ---- return -----------------------------------------------------------------------------

  /** doReturn evaluates its operand exactly once, then finishes or goes on to the return block. */
  lemma DoReturnMeans(v: Visitor, o: Operand, g: seq<Block>, lo: nat, script: seq<int>, saved: Value)
    requires v.curblock.Some? && ValidCur(v)
    requires !DoReturn(v, o).failed && Includes(g, DoReturn(v, o), lo, v.curblock.value)
    ensures var c := Running(v.curblock.value, |Body(v, v.curblock.value)|, saved, script);
      match Eval(o, saved, script)
      case None => Reaches(g, c, [], OutOfScript)
      case Some((events, x, rest)) =>
        if v.returnDests == [] then Reaches(g, c, events, Finished(x))
        else
          var dest := v.returnDests[|v.returnDests| - 1];
          HasPredecessors(DoReturn(v, o), dest) && Reaches(g, c, events, Running(dest, 0, x, rest))
  {
    hide Includes, Reaches, JumpTo;
    var u, pos := v.curblock.value, |Body(v, v.curblock.value)|;
    var c := Running(u, pos, saved, script);
    if v.returnDests == [] {
      NodeStays(g, DoReturn(v, o), lo, u, u, pos);
      ReachesStep(g, c);
    } else {
      var dest := v.returnDests[|v.returnDests| - 1];
      var w := PushBack(v, Save(o));
      JumpNode(w, dest, false);
      NodeStays(g, DoReturn(v, o), lo, u, u, pos);
      NodeStays(g, DoReturn(v, o), lo, u, u, pos + 1);
      SaveThenJump(g, u, pos, o, dest, saved, script);
    }
  }

  lemma SaveThenJump(g: seq<Block>, u: nat, pos: nat, o: Operand, dest: nat, saved: Value, script: seq<int>)
    requires NodeAt(g, u, pos, Save(o)) && NodeAt(g, u, pos + 1, Jump(dest))
    ensures var c := Running(u, pos, saved, script);
      match Eval(o, saved, script)
      case None => Reaches(g, c, [], OutOfScript)
      case Some((events, x, rest)) => Reaches(g, c, events, Running(dest, 0, x, rest))
  {
    hide Reaches;
    var c := Running(u, pos, saved, script);
    ReachesStep(g, c);
    match Eval(o, saved, script) {
      case None =>
      case Some((events, x, rest)) =>
        JumpStep(g, u, pos + 1, dest, x, rest);
        ReachesTrans(g, c, events, Running(u, pos + 1, x, rest), [], Running(dest, 0, x, rest));
        assert events + [] == events;
    }
  }

  lemma MeansReturn(value: Option<nat>, v: Visitor, g: seq<Block>, script: seq<int>, saved: Value)
    requires v.curblock.Some? && ValidCur(v)
    requires !Visit(Return(value), v).failed && Includes(g, Visit(Return(value), v), |v.heap|, v.curblock.value)
    ensures Matches(g, v, Visit(Return(value), v), RunStmt(Return(value), script), saved,
                    Running(v.curblock.value, |Body(v, v.curblock.value)|, saved, script))
  {
    hide Includes, Reaches, DoReturn;
    DoReturnMeans(v, if value.None? then NoneName else Expr(value.value), g, |v.heap|, script, saved);
  }

  // ---- if ---------------------------------------------------------------------------------

  lemma {:induction false} MeansIf(s: Stmt, v: Visitor, g: seq<Block>, script: seq<int>, saved: Value)
    requires s.If? && v.curblock.Some? && ValidCur(v)
    requires !Visit(s, v).failed && Includes(g, Visit(s, v), |v.heap|, v.curblock.value)
    ensures Matches(g, v, Visit(s, v), RunStmt(s, script), saved,
                    Running(v.curblock.value, |Body(v, v.curblock.value)|, saved, script))
    decreases |script|, s, 0
  {
    hide Includes, Reaches, Later, Grown, JumpTo, IfBody, IfOrelse, CloseIf, VisitAll, PlaceBlock, Visit, RunAll, Matches;
    var t, u := StatesOfIf(s, v), v.curblock.value;
    IfNodes(s, v, g);
    var c := Running(u, |Body(v, u)|, saved, script);
    BranchStep(g, u, |Body(v, u)|, Test(s.test), |v.heap| + 1, |t.after.heap|, saved, script);
    if script == [] {
      StarvedMatches(g, v, t.z, RunStmt(s, script), saved, c);
    } else if script[0] != 0 {
      MeansIfBody(s, v, g, script[1..], saved);
      MatchesThen(g, v, t.z, RunAll(s.body, script[1..]), saved, Running(|v.heap| + 1, 0, saved, script[1..]),
                  [Tested(Test(s.test), true)], c);
    } else {
      MeansIfOrelse(s, v, g, script[1..], saved);
      MatchesThen(g, v, t.z, RunAll(s.orelse, script[1..]), saved, Running(|t.after.heap|, 0, saved, script[1..]),
                  [Tested(Test(s.test), false)], c);
    }
  }

  /** CloseIf goes on at the exit as soon as one arm jumped there. */
  lemma IfCloses(s: Stmt, v: Visitor, t: IfStates)
    requires s.If? && v.curblock.Some? && t == StatesOfIf(s, v) && Later(t.after, t.y)
    requires HasPredecessors(t.after, |v.heap|) || HasPredecessors(t.y, |v.heap|)
    ensures t.z.curblock == Some(|v.heap|)
  {
    hide VisitAll, IfOrelse, IfBody, JumpTo, PlaceBlock, Later;
    if HasPredecessors(t.after, |v.heap|) { PredecessorsStay(t.after, t.y, |v.heap|); }
  }

  lemma {:induction false} MeansIfBody(s: Stmt, v: Visitor, g: seq<Block>, script: seq<int>, saved: Value)
    requires s.If? && v.curblock.Some? && ValidCur(v)
    requires !Visit(s, v).failed && Includes(g, Visit(s, v), |v.heap|, v.curblock.value)
    ensures Matches(g, v, Visit(s, v), RunAll(s.body, script), saved, Running(|v.heap| + 1, 0, saved, script))
    decreases |script|, s, 0
  {
    hide Includes, Reaches, Later, Grown, JumpTo, IfBody, IfOrelse, CloseIf, VisitAll, PlaceBlock, Visit, RunAll, Matches;
    var t, u := StatesOfIf(s, v), v.curblock.value;
    IfNodes(s, v, g);
    LaterTrans(t.w, t.after, t.z);
    LaterNotFailed(t.w, t.z);
    IncludesEarlier(g, t.w, t.z, |v.heap|, u, |v.heap| + 2, |v.heap| + 1);
    MeansAll(s.body, IfBody(v), g, script, saved);
    if HasPredecessors(t.after, |v.heap|) {
      FrameLater(t.after, t.e, v.curblock);
      FrameLater(t.e, t.x, t.e.curblock);
      LaterTrans(t.after, t.e, t.x);
      LaterTrans(t.after, t.x, t.y);
      IfCloses(s, v, t);
    }
    ArmJoins(g, IfBody(v), t.w, |v.heap|, false, v, t.z, |v.heap|, u, RunAll(s.body, script), saved,
             Running(|v.heap| + 1, 0, saved, script));
  }

  lemma {:induction false} MeansIfOrelse(s: Stmt, v: Visitor, g: seq<Block>, script: seq<int>, saved: Value)
    requires s.If? && v.curblock.Some? && ValidCur(v)
    requires !Visit(s, v).failed && Includes(g, Visit(s, v), |v.heap|, v.curblock.value)
    ensures var t := StatesOfIf(s, v);
      Matches(g, v, Visit(s, v), RunAll(s.orelse, script), saved, Running(|t.after.heap|, 0, saved, script))
    decreases |script|, s, 0
  {
    hide Includes, Reaches, Later, Grown, JumpTo, IfBody, IfOrelse, CloseIf, VisitAll, PlaceBlock, Visit, RunAll, Matches;
    var t, u := StatesOfIf(s, v), v.curblock.value;
    IfNodes(s, v, g);
    LaterTrans(t.x, t.y, t.z);
    LaterNotFailed(t.x, t.z);
    IncludesEarlier(g, t.x, t.z, |v.heap|, u, |t.e.heap|, |t.after.heap|);
    MeansAll(s.orelse, t.e, g, script, saved);
    if HasPredecessors(t.y, |v.heap|) {
      FrameLater(t.after, t.e, v.curblock);
      FrameLater(t.e, t.x, t.e.curblock);
      LaterTrans(t.after, t.e, t.x);
      LaterTrans(t.after, t.x, t.y);
      IfCloses(s, v, t);
    }
    ArmJoins(g, t.e, t.x, |v.heap|, false, v, t.z, |v.heap|, u, RunAll(s.orelse, script), saved,
             Running(|t.after.heap|, 0, saved, script));
  }

  // ---- while ------------------------------------------------------------------------------

  lemma {:induction false} MeansWhile(s: Stmt, v: Visitor, g: seq<Block>, script: seq<int>, saved: Value)
    requires s.While? && v.curblock.Some? && ValidCur(v)
    requires !Visit(s, v).failed && Includes(g, Visit(s, v), |v.heap|, v.curblock.value)
    ensures Matches(g, v, Visit(s, v), RunStmt(s, script), saved,
                    Running(v.curblock.value, |Body(v, v.curblock.value)|, saved, script))
    decreases |script|, s, 1
  {
    hide Includes, Reaches, Later, Grown, Visit, RunLoop, Matches, WhileFrames, StatesOfWhile;
    var u, n := v.curblock.value, |v.heap|;
    WhileNodes(s, v, g);
    JumpStep(g, u, |Body(v, u)|, n, saved, script);
    MeansRounds(s, v, g, script, saved);
    MatchesThen(g, v, Visit(s, v), RunLoop(s, script), saved, Running(n, 0, saved, script), [],
                Running(u, |Body(v, u)|, saved, script));
    assert Then([], RunLoop(s, script)) == RunLoop(s, script);
  }

  /** From the test block, the graph runs the rounds of the loop. */
  lemma {:induction false} MeansRounds(s: Stmt, v: Visitor, g: seq<Block>, script: seq<int>, saved: Value)
    requires s.While? && v.curblock.Some? && ValidCur(v)
    requires !Visit(s, v).failed && Includes(g, Visit(s, v), |v.heap|, v.curblock.value)
    ensures Matches(g, v, Visit(s, v), RunLoop(s, script), saved, Running(|v.heap|, 0, saved, script))
    decreases |script|, s, 0
  {
    hide Includes, Reaches, Later, Grown, Visit, Matches, WhileFrames, StatesOfWhile, RunAll;
    var n, z := |v.heap|, Visit(s, v);
    var c := Running(n, 0, saved, script);
    WhileNodes(s, v, g);
    BranchStep(g, n, 0, Test(s.test), n + 2, |StatesOfWhile(s, v).after.heap|, saved, script);
    if script == [] {
      StarvedMatches(g, v, z, RunLoop(s, script), saved, c);
    } else if script[0] == 0 {
      MeansWhileOrelse(s, v, g, script[1..], saved);
      MatchesThen(g, v, z, RunAll(s.orelse, script[1..]), saved,
                  Running(|StatesOfWhile(s, v).after.heap|, 0, saved, script[1..]), [Tested(Test(s.test), false)], c);
    } else {
      var round := RunAll(s.body, script[1..]);
      var rest := AfterRound(s, round);
      MeansWhileBody(s, v, g, script[1..], saved);
      RoundMatches(s, v, g, script[1..], saved);
      assert script[1..] != script;
      if round.outcome.Normal? || round.outcome.Continued? {
        MeansRounds(s, v, g, round.rest, saved);
        MatchesThen(g, v, z, rest, saved, Running(n, 0, saved, round.rest), round.events,
                    Running(n + 2, 0, saved, script[1..]));
      }
      MatchesThen(g, v, z, Then(round.events, rest), saved, Running(n + 2, 0, saved, script[1..]),
                  [Tested(Test(s.test), true)], c);
      assert [Tested(Test(s.test), true)] + (round.events + rest.events)
          == [Tested(Test(s.test), true)] + [] + round.events + rest.events;
    }
  }

  /** What is left of a loop after one round. */
  function AfterRound(s: Stmt, round: Result): Result
    requires s.While? || s.For?
  {
    match round.outcome
    case Normal => RunLoop(s, round.rest)
    case Continued => RunLoop(s, round.rest)
    case Broke => Result(Normal, [], round.rest)
    case Returned(v) => Result(Returned(v), [], round.rest)
    case Starved => Result(Starved, [], round.rest)
  }

  /** A round that does not fall out of the body: `continue` reaches the loop's test, `break` its
      exit block, and a return or an exhausted script ends the loop with it. */
  lemma RoundLeaves(g: seq<Block>, s: Stmt, b: Visitor, w: Visitor, v: Visitor, z: Visitor, test: nat, exit: nat,
                    round: Result, saved: Value, c: Config)
    requires s.While? || s.For?
    requires Matches(g, b, w, round, saved, c) && !round.outcome.Normal?
    requires b.loops == v.loops + [LoopInfo(test, exit)] && b.returnDests == v.returnDests
    requires Later(w, z) && z.curblock == Some(exit) && Body(z, exit) == []
    ensures round.outcome.Continued? ==> Reaches(g, c, round.events, Running(test, 0, saved, round.rest))
    ensures !round.outcome.Continued? ==> Matches(g, v, z, Then(round.events, AfterRound(s, round)), saved, c)
  {
    hide Reaches, Later;
    assert round.events + [] == round.events;
    if round.outcome.Returned? && v.returnDests != [] {
      PredecessorsStay(w, z, v.returnDests[|v.returnDests| - 1]);
    }
  }

  lemma {:induction false} MeansWhileBody(s: Stmt, v: Visitor, g: seq<Block>, script: seq<int>, saved: Value)
    requires s.While? && v.curblock.Some? && ValidCur(v)
    requires !Visit(s, v).failed && Includes(g, Visit(s, v), |v.heap|, v.curblock.value)
    ensures var t := StatesOfWhile(s, v);
      Matches(g, t.b, t.w, RunAll(s.body, script), saved, Running(|v.heap| + 2, 0, saved, script))
    decreases |script|, s, 0
  {
    hide Includes, Reaches, Later, Grown, Visit, Matches, VisitAll, RunAll, WhileBody, WhileEndBody, WhileOrelse, WhileEnd;
    var t, n, u := StatesOfWhile(s, v), |v.heap|, v.curblock.value;
    WhileNodes(s, v, g);
    LaterTrans(t.w, t.after, t.z);
    IncludesEarlier(g, t.w, t.z, n, u, n + 3, n + 2);
    MeansAll(s.body, t.b, g, script, saved);
  }

  lemma RoundMatches(s: Stmt, v: Visitor, g: seq<Block>, script: seq<int>, saved: Value)
    requires s.While? && v.curblock.Some? && ValidCur(v)
    requires !Visit(s, v).failed && Includes(g, Visit(s, v), |v.heap|, v.curblock.value)
    requires var t := StatesOfWhile(s, v);
      Matches(g, t.b, t.w, RunAll(s.body, script), saved, Running(|v.heap| + 2, 0, saved, script))
    ensures var round, c := RunAll(s.body, script), Running(|v.heap| + 2, 0, saved, script);
      if round.outcome.Normal? || round.outcome.Continued?
      then Reaches(g, c, round.events, Running(|v.heap|, 0, saved, round.rest))
      else Matches(g, v, Visit(s, v), Then(round.events, AfterRound(s, round)), saved, c)
  {
    hide Includes, Reaches, Later, Grown, Visit, VisitAll, RunAll, RunLoop, WhileBody, WhileOrelse, WhileEnd, JumpTo;
    var t, n, u := StatesOfWhile(s, v), |v.heap|, v.curblock.value;
    var round, c := RunAll(s.body, script), Running(n + 2, 0, saved, script);
    WhileNodes(s, v, g);
    LaterTrans(t.w, t.after, t.z);
    if round.outcome.Normal? {
      WhileJumpsBack(t, n, u);
      JumpsOut(g, t.w, n, true, t.z, n, u, round.rest, saved);
      ReachesTrans(g, c, round.events, Running(t.w.curblock.value, |Body(t.w, t.w.curblock.value)|, saved, round.rest), [],
                   Running(n, 0, saved, round.rest));
      assert round.events + [] == round.events;
    } else {
      RoundLeaves(g, s, t.b, t.w, v, t.z, n, n + 1, round, saved, c);
    }
  }

  lemma WhileJumpsBack(t: LoopStates, n: nat, u: nat)
    requires t.v.curblock.Some? && WhileFrames(t) && n == |t.v.heap|
    requires t.after == WhileEndBody(t.v, t.w) && Later(t.after, t.z) && !t.after.failed
    ensures Later(JumpTo(t.w, n, true), t.z) && !JumpTo(t.w, n, true).failed
  {
    hide Grown, Later, JumpTo;
    var y := JumpTo(t.w, n, true);
    JumpFrame(t.w, n, true);
    assert Later(y, t.after) by { FrameRefl(y, None); FrameLater(y, t.after, None); }
    LaterTrans(y, t.after, t.z);
  }

  lemma {:induction false} MeansWhileOrelse(s: Stmt, v: Visitor, g: seq<Block>, script: seq<int>, saved: Value)
    requires s.While? && v.curblock.Some? && ValidCur(v)
    requires !Visit(s, v).failed && Includes(g, Visit(s, v), |v.heap|, v.curblock.value)
    ensures Matches(g, v, Visit(s, v), RunAll(s.orelse, script), saved,
                    Running(|StatesOfWhile(s, v).after.heap|, 0, saved, script))
    decreases |script|, s, 0
  {
    hide Includes, Reaches, Later, Grown, Visit, Matches, VisitAll, RunAll, WhileBody, WhileEndBody,
      WhileOrelse, JumpTo, PlaceBlock;
    var t, n, u := StatesOfWhile(s, v), |v.heap|, v.curblock.value;
    WhileNodes(s, v, g);
    IncludesEarlier(g, t.x, t.z, n, u, |t.e.heap|, |t.after.heap|);
    MeansAll(s.orelse, t.e, g, script, saved);
    WhileOrelseJumps(t, n);
    ArmJoins(g, t.e, t.x, n + 1, false, v, t.z, n, u, RunAll(s.orelse, script), saved,
             Running(|t.after.heap|, 0, saved, script));
  }

  lemma WhileOrelseJumps(t: LoopStates, n: nat)
    requires t.v.curblock.Some? && WhileFrames(t) && n == |t.v.heap| && t.z == WhileEnd(t.v, t.x)
    ensures Later(t.x, JumpTo(t.x, n + 1, false)) && Later(JumpTo(t.x, n + 1, false), t.z)
  {
    hide Grown, Later, JumpTo, PlaceBlock;
    var y := JumpTo(t.x, n + 1, false);
    JumpFrame(t.x, n + 1, false);
    FrameLater(t.x, y, t.x.curblock);
    PlaceFrame(At(y, n + 1), n + 1);
    FrameLater(y, t.z, None);
  }

  // ---- for --------------------------------------------------------------------------------

  lemma {:induction false} MeansFor(s: Stmt, v: Visitor, g: seq<Block>, script: seq<int>, saved: Value)
    requires s.For? && v.curblock.Some? && ValidCur(v)
    requires !Visit(s, v).failed && Includes(g, Visit(s, v), |v.heap|, v.curblock.value)
    ensures Matches(g, v, Visit(s, v), RunStmt(s, script), saved,
                    Running(v.curblock.value, |Body(v, v.curblock.value)|, saved, script))
    decreases |script|, s, 1
  {
    hide Includes, Reaches, Later, Grown, Visit, RunLoop, Matches, ForFrames, StatesOfFor;
    var u, n := v.curblock.value, |v.heap|;
    var pos := |Body(v, u)|;
    ForNodes(s, v, g);
    DoStep(g, u, pos, MakeIter(s.id, s.iter), saved, script);
    JumpStep(g, u, pos + 1, n, saved, script);
    ReachesTrans(g, Running(u, pos, saved, script), [Did(MakeIter(s.id, s.iter))], Running(u, pos + 1, saved, script), [],
                 Running(n, 0, saved, script));
    MeansItems(s, v, g, n, 0, n + 1, script, saved);
    MatchesThen(g, v, Visit(s, v), RunLoop(s, script), saved, Running(n, 0, saved, script),
                [Did(MakeIter(s.id, s.iter))] + [], Running(u, pos, saved, script));
    assert [Did(MakeIter(s.id, s.iter))] + [] == [Did(MakeIter(s.id, s.iter))];
  }

  lemma TestStep(g: seq<Block>, b: nat, pos: nat, id: nat, yes: nat, body: nat, orelse: nat, saved: Value, script: seq<int>)
    requires TestPoint(g, b, pos, id, yes, body, orelse)
    ensures script == [] ==> Reaches(g, Running(b, pos, saved, script), [], OutOfScript)
    ensures script != [] ==> Reaches(g, Running(b, pos, saved, script), [Tested(HasNext(id), script[0] != 0)],
      Running(if script[0] != 0 then body else orelse, 0, saved, script[1..]))
  {
    hide Reaches;
    BranchStep(g, b, pos, HasNext(id), yes, yes + 1, saved, script);
    if script != [] {
      var taken := script[0] != 0;
      var arm, dest := if taken then yes else yes + 1, if taken then body else orelse;
      JumpStep(g, arm, 0, dest, saved, script[1..]);
      ReachesTrans(g, Running(b, pos, saved, script), [Tested(HasNext(id), taken)], Running(arm, 0, saved, script[1..]), [],
                   Running(dest, 0, saved, script[1..]));
      assert [Tested(HasNext(id), taken)] + [] == [Tested(HasNext(id), taken)];
    }
  }

  /** From any test point of the loop, the first or the one after the body, the graph runs the
      loop's rounds: the inverted loop means the same as the plain one. */
  lemma {:induction false} MeansItems(s: Stmt, v: Visitor, g: seq<Block>, b: nat, pos: nat, yes: nat, script: seq<int>, saved: Value)
    requires s.For? && v.curblock.Some? && ValidCur(v)
    requires !Visit(s, v).failed && Includes(g, Visit(s, v), |v.heap|, v.curblock.value)
    requires TestPoint(g, b, pos, s.id, yes, |v.heap| + 3, |v.heap| + 5)
    ensures Matches(g, v, Visit(s, v), RunLoop(s, script), saved, Running(b, pos, saved, script))
    decreases |script|, s, 0
  {
    hide Includes, Reaches, Later, Grown, Visit, Matches, ForFrames, StatesOfFor, RunAll, TestPoint, NodeAt;
    var n, z := |v.heap|, Visit(s, v);
    var c := Running(b, pos, saved, script);
    TestStep(g, b, pos, s.id, yes, n + 3, n + 5, saved, script);
    if script == [] {
      StarvedMatches(g, v, z, RunLoop(s, script), saved, c);
    } else if script[0] == 0 {
      MeansForOrelse(s, v, g, script[1..], saved);
      MatchesThen(g, v, z, RunAll(s.orelse, script[1..]), saved, Running(n + 5, 0, saved, script[1..]),
                  [Tested(HasNext(s.id), false)], c);
    } else {
      assert |script[1..]| < |script|;
      MeansItem(s, v, g, script[1..], saved);
      ItemAfterTest(s, v, g, script, saved, c);
    }
  }

  lemma ItemAfterTest(s: Stmt, v: Visitor, g: seq<Block>, script: seq<int>, saved: Value, c: Config)
    requires s.For? && script != [] && script[0] != 0
    requires Reaches(g, c, [Tested(HasNext(s.id), true)], Running(|v.heap| + 3, 0, saved, script[1..]))
    requires var round := RunAll(s.body, script[1..]);
      Matches(g, v, Visit(s, v), Then([Did(NextItem(s.id, s.target))] + round.events, AfterRound(s, round)), saved,
              Running(|v.heap| + 3, 0, saved, script[1..]))
    ensures Matches(g, v, Visit(s, v), RunLoop(s, script), saved, c)
  {
    hide Reaches, Visit, Matches, RunAll;
    var round := RunAll(s.body, script[1..]);
    var next, rest := Did(NextItem(s.id, s.target)), AfterRound(s, round);
    MatchesThen(g, v, Visit(s, v), Then([next] + round.events, rest), saved, Running(|v.heap| + 3, 0, saved, script[1..]),
                [Tested(HasNext(s.id), true)], c);
    assert [Tested(HasNext(s.id), true)] + (([next] + round.events) + rest.events)
        == [Tested(HasNext(s.id), true)] + [next] + round.events + rest.events;
  }

  /** One round from the loop block: fetch the item, run the body, and whatever follows. */
  lemma {:induction false} MeansItem(s: Stmt, v: Visitor, g: seq<Block>, script: seq<int>, saved: Value)
    requires s.For? && v.curblock.Some? && ValidCur(v)
    requires !Visit(s, v).failed && Includes(g, Visit(s, v), |v.heap|, v.curblock.value)
    ensures var round := RunAll(s.body, script);
      Matches(g, v, Visit(s, v), Then([Did(NextItem(s.id, s.target))] + round.events, AfterRound(s, round)), saved,
              Running(|v.heap| + 3, 0, saved, script))
    decreases |script|, s, 1
  {
    hide Includes, Reaches, Later, Grown, Visit, Matches, ForFrames, StatesOfFor, RunAll, RunLoop, TestPoint;
    var n, z := |v.heap|, Visit(s, v);
    var round, c := RunAll(s.body, script), Running(n + 3, 1, saved, script);
    var rest, next := AfterRound(s, round), Did(NextItem(s.id, s.target));
    ForNodes(s, v, g);
    DoStep(g, n + 3, 0, NextItem(s.id, s.target), saved, script);
    MeansForBody(s, v, g, script, saved);
    ForRoundLeaves(s, v, g, script, saved);
    if round.outcome.Normal? {
      ForRetest(s, v, g);
      var x := StatesOfFor(s, v).w;
      var d := Running(x.curblock.value, |Body(x, x.curblock.value)|, saved, round.rest);
      MeansItems(s, v, g, x.curblock.value, |Body(x, x.curblock.value)|, |x.heap|, round.rest, saved);
      MatchesThen(g, v, z, rest, saved, d, round.events, c);
    } else if round.outcome.Continued? {
      MeansItems(s, v, g, n, 0, n + 1, round.rest, saved);
      MatchesThen(g, v, z, rest, saved, Running(n, 0, saved, round.rest), round.events, c);
    }
    MatchesThen(g, v, z, Then(round.events, rest), saved, c, [next], Running(n + 3, 0, saved, script));
    assert [next] + (round.events + rest.events) == ([next] + round.events) + rest.events;
  }

  lemma {:induction false} MeansForBody(s: Stmt, v: Visitor, g: seq<Block>, script: seq<int>, saved: Value)
    requires s.For? && v.curblock.Some? && ValidCur(v)
    requires !Visit(s, v).failed && Includes(g, Visit(s, v), |v.heap|, v.curblock.value)
    ensures var t := StatesOfFor(s, v);
      Matches(g, t.b, t.w, RunAll(s.body, script), saved, Running(|v.heap| + 3, 1, saved, script))
    decreases |script|, s, 0
  {
    hide Includes, Reaches, Later, Grown, Visit, Matches, VisitAll, RunAll, ForBody, ForEndBody, ForOrelse, ForEnd, TestPoint;
    var t, n, u := StatesOfFor(s, v), |v.heap|, v.curblock.value;
    ForNodes(s, v, g);
    LaterNotFailed(t.w, t.z);
    IncludesEarlier(g, t.w, t.z, n, u, n + 6, n + 3);
    MeansAll(s.body, t.b, g, script, saved);
  }

  /** How a round leaves the body: at its end, back at the first test, or out of the loop. */
  lemma ForRoundLeaves(s: Stmt, v: Visitor, g: seq<Block>, script: seq<int>, saved: Value)
    requires s.For? && v.curblock.Some? && ValidCur(v)
    requires !Visit(s, v).failed && Includes(g, Visit(s, v), |v.heap|, v.curblock.value)
    requires var t := StatesOfFor(s, v);
      Matches(g, t.b, t.w, RunAll(s.body, script), saved, Running(|v.heap| + 3, 1, saved, script))
    ensures var round, c, w := RunAll(s.body, script), Running(|v.heap| + 3, 1, saved, script), StatesOfFor(s, v).w;
      if round.outcome.Normal? then
        w.curblock.Some? && Reaches(g, c, round.events, Running(w.curblock.value, |Body(w, w.curblock.value)|, saved, round.rest))
      else if round.outcome.Continued? then Reaches(g, c, round.events, Running(|v.heap|, 0, saved, round.rest))
      else Matches(g, v, Visit(s, v), Then(round.events, AfterRound(s, round)), saved, c)
  {
    hide Includes, Reaches, Later, Grown, Visit, VisitAll, RunAll, RunLoop, ForBody, ForEndBody, ForOrelse, ForEnd, TestPoint;
    var t, n := StatesOfFor(s, v), |v.heap|;
    var round, c := RunAll(s.body, script), Running(n + 3, 1, saved, script);
    ForNodes(s, v, g);
    if !round.outcome.Normal? {
      RoundLeaves(g, s, t.b, t.w, v, t.z, n, n + 4, round, saved, c);
    }
  }

  lemma {:induction false} MeansForOrelse(s: Stmt, v: Visitor, g: seq<Block>, script: seq<int>, saved: Value)
    requires s.For? && v.curblock.Some? && ValidCur(v)
    requires !Visit(s, v).failed && Includes(g, Visit(s, v), |v.heap|, v.curblock.value)
    ensures Matches(g, v, Visit(s, v), RunAll(s.orelse, script), saved, Running(|v.heap| + 5, 0, saved, script))
    decreases |script|, s, 0
  {
    hide Includes, Reaches, Later, Grown, Visit, Matches, VisitAll, RunAll, ForBody, ForEndBody, ForOrelse,
      JumpTo, PlaceBlock, TestPoint;
    var t, n, u := StatesOfFor(s, v), |v.heap|, v.curblock.value;
    ForNodes(s, v, g);
    LaterNotFailed(t.x, t.z);
    IncludesEarlier(g, t.x, t.z, n, u, |t.e.heap|, n + 5);
    MeansAll(s.orelse, t.e, g, script, saved);
    ForOrelseJumps(t, n);
    ArmJoins(g, t.e, t.x, n + 4, false, v, t.z, n, u, RunAll(s.orelse, script), saved, Running(n + 5, 0, saved, script));
  }

  lemma ForOrelseJumps(t: LoopStates, n: nat)
    requires t.v.curblock.Some? && ForFrames(t) && n == |t.v.heap| && t.z == ForEnd(t.v, t.x)
    ensures Later(t.x, JumpTo(t.x, n + 4, false)) && Later(JumpTo(t.x, n + 4, false), t.z)
  {
    hide Grown, Later, JumpTo, PlaceBlock;
    var y := JumpTo(t.x, n + 4, false);
    JumpFrame(t.x, n + 4, false);
    FrameLater(t.x, y, t.x.curblock);
    PlaceFrame(y, n + 4);
    FrameLater(y, t.z, None);
  }

  // ---- with -------------------------------------------------------------------------------

  lemma {:induction false} MeansWith(s: Stmt, v: Visitor, g: seq<Block>, script: seq<int>, saved: Value)
    requires s.With? && v.curblock.Some? && ValidCur(v)
    requires !Visit(s, v).failed && Includes(g, Visit(s, v), |v.heap|, v.curblock.value)
    ensures Matches(g, v, Visit(s, v), RunStmt(s, script), saved,
                    Running(v.curblock.value, |Body(v, v.curblock.value)|, saved, script))
    decreases |script|, s, 1
  {
    hide Includes, Reaches, Later, Grown, Visit, VisitAll, Matches, RunAll, WithBody, WithExit, WithReturnExit,
      WithLoopExits, PushBack;
    var t, u := StatesOfWith(s, v), v.curblock.value;
    var pos, r := |Body(v, u)|, RunAll(s.body, script);
    WithStatesFrames(s, v);
    WithLater(s, t);
    WithEnters(s, v, g, t, script, saved);
    LaterNotFailed(t.w, t.z);
    IncludesEarlier(g, t.w, t.z, |v.heap|, u, |t.b.heap|, u);
    WithStart(s, v);
    MeansAll(s.body, t.b, g, script, saved);
    WithLeaves(s, v, g, t, r, saved, Running(u, pos + 3, saved, script));
    var opening := [Did(MakeContext(s.id, s.context)), Did(LoadExit(s.id)), Did(Enter(s.id, s.vars))];
    MatchesThen(g, v, t.z, WithResult(s, r), saved, Running(u, pos + 3, saved, script), opening, Running(u, pos, saved, script));
  }

  /** What a `with` adds to its body's run: one exit call, unless the script ran out. */
  function WithResult(s: Stmt, r: Result): Result
    requires s.With?
  {
    if r.outcome.Starved? then r else r.(events := r.events + [Did(CallExit(s.id))])
  }

  lemma WithEnters(s: Stmt, v: Visitor, g: seq<Block>, t: WithStates, script: seq<int>, saved: Value)
    requires s.With? && v.curblock.Some? && ValidCur(v) && t == StatesOfWith(s, v)
    requires Later(t.b, t.z) && Includes(g, t.z, |v.heap|, v.curblock.value)
    ensures var u, pos := v.curblock.value, |Body(v, v.curblock.value)|;
      Reaches(g, Running(u, pos, saved, script),
        [Did(MakeContext(s.id, s.context)), Did(LoadExit(s.id)), Did(Enter(s.id, s.vars))], Running(u, pos + 3, saved, script))
  {
    hide Includes, Reaches, Later, VisitAll, WithBody, WithExit, WithReturnExit, WithLoopExits, PushBack;
    var u, pos, n := v.curblock.value, |Body(v, v.curblock.value)|, |v.heap|;
    WithStart(s, v);
    IncludesEarlier(g, t.b, t.z, n, u, n, u);
    NodeStays(g, t.b, n, u, u, pos); NodeStays(g, t.b, n, u, u, pos + 1); NodeStays(g, t.b, n, u, u, pos + 2);
    DoStep(g, u, pos, MakeContext(s.id, s.context), saved, script);
    DoStep(g, u, pos + 1, LoadExit(s.id), saved, script);
    DoStep(g, u, pos + 2, Enter(s.id, s.vars), saved, script);
    var a, b, c := Did(MakeContext(s.id, s.context)), Did(LoadExit(s.id)), Did(Enter(s.id, s.vars));
    ReachesTrans(g, Running(u, pos, saved, script), [a], Running(u, pos + 1, saved, script), [b], Running(u, pos + 2, saved, script));
    ReachesTrans(g, Running(u, pos, saved, script), [a] + [b], Running(u, pos + 2, saved, script), [c], Running(u, pos + 3, saved, script));
    assert [a] + [b] + [c] == [a, b, c];
  }

  /** Every way out of the body passes exactly one exit call on its way to where it belongs. */
  lemma WithLeaves(s: Stmt, v: Visitor, g: seq<Block>, t: WithStates, r: Result, saved: Value, c: Config)
    requires s.With? && v.curblock.Some? && ValidCur(v) && t == StatesOfWith(s, v) && WithFrames(s, t)
    requires !t.z.failed && Includes(g, t.z, |v.heap|, v.curblock.value)
    requires Matches(g, t.b, t.w, r, saved, c)
    ensures Matches(g, v, t.z, WithResult(s, r), saved, c)
  {
    hide Includes, Reaches, Later, Grown, VisitAll, WithBody, WithExit, WithReturnExit, WithLoopExits, PushBack;
    match r.outcome {
      case Normal => WithFallsOut(s, v, g, t, r, saved, c);
      case Broke => WithJumpsOut(s, v, g, t, r, saved, c);
      case Continued => WithJumpsOut(s, v, g, t, r, saved, c);
      case Returned(x) => WithReturns(s, v, g, t, r, saved, c);
      case Starved =>
    }
  }

  lemma WithFallsOut(s: Stmt, v: Visitor, g: seq<Block>, t: WithStates, r: Result, saved: Value, c: Config)
    requires s.With? && v.curblock.Some? && ValidCur(v) && t == StatesOfWith(s, v) && WithFrames(s, t)
    requires !t.z.failed && Includes(g, t.z, |v.heap|, v.curblock.value)
    requires Matches(g, t.b, t.w, r, saved, c) && r.outcome.Normal?
    ensures Matches(g, v, t.z, WithResult(s, r), saved, c)
  {
    hide Includes, Reaches, Later, Grown, VisitAll, WithBody, WithExit, WithReturnExit, WithLoopExits, PushBack;
    var x, u := t.w.curblock.value, v.curblock.value;
    var pos := |Body(t.w, x)|;
    PushNode(t.w, Do(CallExit(s.id)));
    WithLater(s, t);
    WithBodyStays(s, t, x);
    IncludesEarlier(g, t.ex, t.z, |v.heap|, u, |v.heap|, u);
    NodeStays(g, t.ex, |v.heap|, u, x, pos);
    DoStep(g, x, pos, CallExit(s.id), saved, r.rest);
    ReachesTrans(g, c, r.events, Running(x, pos, saved, r.rest), [Did(CallExit(s.id))], Running(x, pos + 1, saved, r.rest));
  }

  /** A filled continue or break block makes the exit call and goes on to its original target. */
  lemma ExitBlockMeans(id: nat, g: seq<Block>, w: Visitor, dest: nat, orig: nat, z: Visitor, lo: nat, u: nat, saved: Value, script: seq<int>)
    requires HasPredecessors(w, dest) && Body(w, dest) == [] && dest >= lo
    requires Later(WithExit(id, w, dest, orig), z) && !z.failed && Includes(g, z, lo, u)
    ensures Reaches(g, Running(dest, 0, saved, script), [Did(CallExit(id))], Running(orig, 0, saved, script))
    ensures HasPredecessors(z, orig)
  {
    hide Includes, Reaches, Later, WithExit;
    var y := WithExit(id, w, dest, orig);
    WithExitNodes(id, w, dest, orig);
    LaterNotFailed(y, z);
    PredecessorsStay(y, z, orig);
    IncludesEarlier(g, y, z, lo, u, lo, u);
    NodeStays(g, y, lo, u, dest, 0); NodeStays(g, y, lo, u, dest, 1);
    DoStep(g, dest, 0, CallExit(id), saved, script);
    JumpStep(g, dest, 1, orig, saved, script);
    ReachesTrans(g, Running(dest, 0, saved, script), [Did(CallExit(id))], Running(dest, 1, saved, script), [], Running(orig, 0, saved, script));
    assert [Did(CallExit(id))] + [] == [Did(CallExit(id))];
  }

  lemma WithJumpsOut(s: Stmt, v: Visitor, g: seq<Block>, t: WithStates, r: Result, saved: Value, c: Config)
    requires s.With? && v.curblock.Some? && ValidCur(v) && t == StatesOfWith(s, v) && WithFrames(s, t)
    requires !t.z.failed && Includes(g, t.z, |v.heap|, v.curblock.value)
    requires Matches(g, t.b, t.w, r, saved, c) && (r.outcome.Broke? || r.outcome.Continued?)
    ensures Matches(g, v, t.z, WithResult(s, r), saved, c)
  {
    hide Includes, Reaches, Later, Grown, VisitAll, WithBody, WithExit, WithReturnExit, WithLoopExits, PushBack, HasPredecessors;
    var n, u, outer := |v.heap|, v.curblock.value, v.loops[|v.loops| - 1];
    var dest, orig := if r.outcome.Broke? then n + 1 else n, if r.outcome.Broke? then outer.breakDest else outer.continueDest;
    var from := if r.outcome.Broke? then t.l else t.ex;
    WithLater(s, t);
    WithDestsStayEmpty(s, v, t);
    PredecessorsStay(t.w, from, dest);
    ExitBlockMeans(s.id, g, from, dest, orig, t.z, n, u, saved, r.rest);
    ReachesTrans(g, c, r.events, Running(dest, 0, saved, r.rest), [Did(CallExit(s.id))], Running(orig, 0, saved, r.rest));
  }

  /** The return block makes the exit call and then returns the saved value further out. */
  lemma ReturnBlockMeans(id: nat, v: Visitor, g: seq<Block>, p: Visitor, lo: nat, u: nat, saved: Value, script: seq<int>)
    requires HasPredecessors(p, WithReturn(v)) && Body(p, WithReturn(v)) == [] && WithReturn(v) >= lo && SameScopes(v, p)
    requires var z := WithReturnExit(id, v, p); !z.failed && Includes(g, z, lo, u)
    ensures var c := Running(WithReturn(v), 0, saved, script);
      if v.returnDests == [] then Reaches(g, c, [Did(CallExit(id))], Finished(saved))
      else
        var outer := v.returnDests[|v.returnDests| - 1];
        HasPredecessors(WithReturnExit(id, v, p), outer) && Reaches(g, c, [Did(CallExit(id))], Running(outer, 0, saved, script))
  {
    hide Includes, Reaches, PushBack, PlaceBlock, DoReturn, Grown, Later;
    var dest := WithReturn(v);
    var a := At(PlaceBlock(p, dest), dest);
    var b := PushBack(a, Do(CallExit(id)));
    var d := DoReturn(b, SavedName);
    PlaceNode(p, dest, dest); PlaceFrame(p, dest);
    PushNode(a, Do(CallExit(id))); PushFrame(a, Do(CallExit(id)));
    DoReturnFrame(b, SavedName);
    FrameLater(b, d, Some(dest));
    var z := WithReturnExit(id, v, p);
    LaterRefl(z);
    assert Includes(g, d, lo, u) by { SameHeapIncludes(g, z, d, lo, u); }
    IncludesEarlier(g, b, d, lo, u, lo, u);
    NodeStays(g, b, lo, u, dest, 0);
    DoStep(g, dest, 0, CallExit(id), saved, script);
    SameHeapIncludes(g, d, d, lo, u);
    LaterRefl(d);
    IncludesEarlier(g, d, d, lo, u, lo, dest);
    DoReturnMeans(b, SavedName, g, lo, script, saved);
    assert [Did(CallExit(id))] + [] == [Did(CallExit(id))];
    var c, after := Running(dest, 0, saved, script), Running(dest, 1, saved, script);
    if v.returnDests == [] {
      ReachesTrans(g, c, [Did(CallExit(id))], after, [], Finished(saved));
    } else {
      ReachesTrans(g, c, [Did(CallExit(id))], after, [], Running(v.returnDests[|v.returnDests| - 1], 0, saved, script));
    }
  }

  lemma SameHeapIncludes(g: seq<Block>, z: Visitor, d: Visitor, lo: nat, u: nat)
    requires Includes(g, z, lo, u) && d.heap == z.heap
    ensures Includes(g, d, lo, u)
  {
    forall i: nat | lo <= i || i == u ensures IncludedAt(g, d, i) { assert IncludedAt(g, z, i); }
  }

  lemma WithReturns(s: Stmt, v: Visitor, g: seq<Block>, t: WithStates, r: Result, saved: Value, c: Config)
    requires s.With? && v.curblock.Some? && ValidCur(v) && t == StatesOfWith(s, v) && WithFrames(s, t)
    requires !t.z.failed && Includes(g, t.z, |v.heap|, v.curblock.value)
    requires Matches(g, t.b, t.w, r, saved, c) && r.outcome.Returned?
    ensures Matches(g, v, t.z, WithResult(s, r), saved, c)
  {
    hide Includes, Reaches, Later, Grown, VisitAll, WithBody, WithExit, WithReturnExit, WithLoopExits, PushBack;
    var x, dest := r.outcome.value, WithReturn(v);
    WithLater(s, t);
    WithDestsStayEmpty(s, v, t);
    PredecessorsStay(t.w, t.p, dest);
    ReturnBlockMeans(s.id, v, g, t.p, |v.heap|, v.curblock.value, x, r.rest);
    if v.returnDests == [] {
      ReachesTrans(g, c, r.events, Running(dest, 0, x, r.rest), [Did(CallExit(s.id))], Finished(x));
    } else {
      ReachesTrans(g, c, r.events, Running(dest, 0, x, r.rest), [Did(CallExit(s.id))], Running(v.returnDests[|v.returnDests| - 1], 0, x, r.rest));
    }
  }
}
