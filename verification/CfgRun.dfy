/** Running a lowered graph: one node at a time, answered by the same script as the source. */
module CfgRun {
  import opened Commons
  import opened Source
  import opened Lowering

  /** At node `pos` of a block, holding the saved return value; or how the run ended. */
  datatype Config =
    | Running(block: nat, pos: nat, saved: Value, script: seq<int>)
    | Finished(value: Value)
    | OutOfScript
    | Stuck

  /** Evaluating an operand: its events, value and remaining script, or None without an answer. */
  function Eval(o: Operand, saved: Value, script: seq<int>): Option<(seq<Event>, Value, seq<int>)> {
    match o
    case Expr(e) => if script == [] then None else Some(([Evaluated(e, script[0])], Of(script[0]), script[1..]))
    case NoneName => Some(([], NoneValue, script))
    case SavedName => Some(([], saved, script))
    case NoOperand => Some(([], NoneValue, script))
  }

  function Step(h: seq<Block>, c: Config): (Config, seq<Event>)
    requires c.Running?
  {
    if c.block >= |h| || c.pos >= |h[c.block].body| then (Stuck, [])
    else
      match h[c.block].body[c.pos]
      case Do(action) => (c.(pos := c.pos + 1), [Did(action)])
      case Jump(target) => (c.(block := target, pos := 0), [])
      case Branch(cond, iftrue, iffalse) =>
        if c.script == [] then (OutOfScript, [])
        else
          var taken := c.script[0] != 0;
          (c.(block := if taken then iftrue else iffalse, pos := 0, script := c.script[1..]), [Tested(cond, taken)])
      case Save(o) =>
        (match Eval(o, c.saved, c.script)
         case None => (OutOfScript, [])
         case Some((events, x, rest)) => (c.(pos := c.pos + 1, saved := x, script := rest), events))
      case Ret(o) =>
        (match Eval(o, c.saved, c.script)
         case None => (OutOfScript, [])
         case Some((events, x, _)) => (Finished(x), events))
  }

  /** Up to n steps: where they lead and everything they did. */
  function Run(h: seq<Block>, c: Config, n: nat): (Config, seq<Event>)
    decreases n
  {
    if n == 0 || !c.Running? then (c, [])
    else
      var (next, now) := Step(h, c);
      var (end, later) := Run(h, next, n - 1);
      (end, now + later)
  }

  ghost predicate Reaches(h: seq<Block>, c: Config, events: seq<Event>, d: Config) {
    exists n: nat :: Run(h, c, n) == (d, events)
  }

  lemma ReachesSelf(h: seq<Block>, c: Config)
    ensures Reaches(h, c, [], c)
  {
    assert Run(h, c, 0) == (c, []);
  }

  lemma ReachesStep(h: seq<Block>, c: Config)
    requires c.Running?
    ensures Reaches(h, c, Step(h, c).1, Step(h, c).0)
  {
    var (d, e) := Step(h, c);
    assert Run(h, d, 0) == (d, []);
    assert e + [] == e;
    assert Run(h, c, 1) == (d, e);
  }

  lemma {:induction false} RunsJoin(h: seq<Block>, c: Config, m: nat, n: nat)
    ensures var (d, e) := Run(h, c, m); var (x, f) := Run(h, d, n); Run(h, c, m + n) == (x, e + f)
    decreases m
  {
    var (d, e) := Run(h, c, m);
    var (x, f) := Run(h, d, n);
    if m == 0 || !c.Running? {
      assert [] + f == f;
    } else {
      var (next, now) := Step(h, c);
      RunsJoin(h, next, m - 1, n);
      var (_, later) := Run(h, next, m - 1);
      assert now + (later + f) == (now + later) + f;
    }
  }

  lemma ReachesTrans(h: seq<Block>, c: Config, e: seq<Event>, d: Config, f: seq<Event>, x: Config)
    requires Reaches(h, c, e, d) && Reaches(h, d, f, x)
    ensures Reaches(h, c, e + f, x)
  {
    var m: nat :| Run(h, c, m) == (d, e);
    var n: nat :| Run(h, d, n) == (x, f);
    RunsJoin(h, c, m, n);
    assert Run(h, c, m + n) == (x, e + f);
  }

  /** A run that has ended ends the same way however many more steps are allowed. */
  lemma EndIsUnique(h: seq<Block>, c: Config, e: seq<Event>, d: Config, f: seq<Event>, x: Config)
    requires Reaches(h, c, e, d) && Reaches(h, c, f, x) && !d.Running? && !x.Running?
    ensures d == x && e == f
  {
    var m: nat :| Run(h, c, m) == (d, e);
    var n: nat :| Run(h, c, n) == (x, f);
    RunsJoin(h, c, m, n);
    RunsJoin(h, c, n, m);
    assert e + [] == e && f + [] == f;
  }
}
