/** The statement language that src/core/cfg.cpp lowers, and what running it does. Expressions
    and simple statements are opaque; a script answers every test and every evaluation. */
module Source {
  import opened Commons

  /** `Simple` is any statement the visitor only appends: assignment, class and function
      definition, expression, global, import, pass, print. The `id` of a `for` or `with` stands
      for the node's address, from which its hidden names are made. */
  datatype Stmt =
    | Simple(what: nat)
    | Return(value: Option<nat>)
    | If(test: nat, body: seq<Stmt>, orelse: seq<Stmt>)
    | While(test: nat, body: seq<Stmt>, orelse: seq<Stmt>)
    | For(id: nat, iter: nat, target: nat, body: seq<Stmt>, orelse: seq<Stmt>)
    | With(id: nat, context: nat, vars: Option<nat>, body: seq<Stmt>)
    | Break
    | Continue

  /** What a basic block can do without asking the script. */
  datatype Action =
    | Plain(what: nat)
    | MakeIter(id: nat, iter: nat)
    | NextItem(id: nat, target: nat)
    | MakeContext(id: nat, context: nat)
    | LoadExit(id: nat)
    | Enter(id: nat, vars: Option<nat>)
    | CallExit(id: nat)

  datatype Cond = Test(test: nat) | HasNext(id: nat)

  datatype Event =
    | Did(action: Action)
    | Tested(cond: Cond, outcome: bool)
    | Evaluated(expr: nat, value: int)

  /** A returned value: Python's None, or what an expression evaluated to. */
  datatype Value = NoneValue | Of(v: int)

  /** How a run of statements ends; `Starved` means the script ran out first. */
  datatype Outcome = Normal | Broke | Continued | Returned(value: Value) | Starved

  datatype Result = Result(outcome: Outcome, events: seq<Event>, rest: seq<int>)

  function Then(events: seq<Event>, r: Result): Result {
    r.(events := events + r.events)
  }

  function LoopCond(s: Stmt): Cond
    requires s.While? || s.For?
  {
    if s.While? then Test(s.test) else HasNext(s.id)
  }

  /** What starts every round of the loop: a `for` fetches the next item. */
  function RoundStart(s: Stmt): seq<Event>
    requires s.While? || s.For?
  {
    if s.While? then [] else [Did(NextItem(s.id, s.target))]
  }

  function RunAll(ss: seq<Stmt>, script: seq<int>): (r: Result)
    ensures |r.rest| <= |script|
    decreases |script|, ss, 2
  {
    if ss == [] then Result(Normal, [], script)
    else
      var first := RunStmt(ss[0], script);
      if first.outcome.Normal? then Then(first.events, RunAll(ss[1..], first.rest)) else first
  }

  function RunStmt(s: Stmt, script: seq<int>): (r: Result)
    ensures |r.rest| <= |script|
    decreases |script|, s, 1
  {
    match s
    case Simple(what) => Result(Normal, [Did(Plain(what))], script)
    case Break => Result(Broke, [], script)
    case Continue => Result(Continued, [], script)
    case Return(None) => Result(Returned(NoneValue), [], script)
    case Return(Some(e)) =>
      if script == [] then Result(Starved, [], script)
      else Result(Returned(Of(script[0])), [Evaluated(e, script[0])], script[1..])
    case If(test, body, orelse) =>
      if script == [] then Result(Starved, [], script)
      else
        var taken := script[0] != 0;
        Then([Tested(Test(test), taken)], RunAll(if taken then body else orelse, script[1..]))
    case While(_, _, _) => RunLoop(s, script)
    case For(id, iter, _, _, _) => Then([Did(MakeIter(id, iter))], RunLoop(s, script))
    case With(id, context, vars, body) =>
      var r := RunAll(body, script);
      Then([Did(MakeContext(id, context)), Did(LoadExit(id)), Did(Enter(id, vars))],
           if r.outcome.Starved? then r else r.(events := r.events + [Did(CallExit(id))]))
  }

  /** The rounds of a loop: `break` skips the else arm, whose own break belongs further out. */
  function RunLoop(s: Stmt, script: seq<int>): (r: Result)
    requires s.While? || s.For?
    ensures |r.rest| <= |script|
    decreases |script|, s, 0
  {
    if script == [] then Result(Starved, [], script)
    else if script[0] == 0 then
      Then([Tested(LoopCond(s), false)], RunAll(s.orelse, script[1..]))
    else
      var round := RunAll(s.body, script[1..]);
      Then([Tested(LoopCond(s), true)] + RoundStart(s) + round.events,
           match round.outcome
           case Normal => RunLoop(s, round.rest)
           case Continued => RunLoop(s, round.rest)
           case Broke => Result(Normal, [], round.rest)
           case Returned(v) => Result(Returned(v), [], round.rest)
           case Starved => Result(Starved, [], round.rest))
  }
}
