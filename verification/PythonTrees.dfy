/** The syntax trees that Python's compile hands to src/codegen/parse_ast.py, of the node kinds that
    src/codegen/parser.cpp has a reader for, and each node's __dict__. The fields and their order are
    those of Python 2.7's abstract grammar. */
module PythonTrees {
  import opened Commons
  import K = AstKinds
  import W = Wire

  // ---- what the format has room for -------------------------------------------------------------

  type Text = s: seq<byte> | |s| < 0x1_0000

  type ListOf<T> = l: seq<T> | |l| < 0x1_0000

  type Line = n: int | 0 <= n < 0x1_0000_0000

  type Column = n: int | 0 <= n < 100000

  type Long = n: int | -0x8000_0000_0000_0000 <= n < 0x8000_0000_0000_0000

  type Double = bits: nat | bits < 0x1_0000_0000_0000_0000

  datatype Place = Place(line: Line, column: Column)

  // ---- the grammar ------------------------------------------------------------------------------

  datatype Context = Load | Store | Del | Param

  datatype BoolOperator = And | Or

  datatype Operator = Add | Sub | Mult | Div | Mod | Pow | LShift | RShift | BitOr | BitXor | BitAnd | FloorDiv

  datatype UnaryOperator = Invert | Not | UAdd | USub

  datatype Comparison = Eq | NotEq | Lt | LtE | Gt | GtE | Is | IsNot | In | NotIn

  datatype Expression =
    | BoolOp(op: BoolOperator, values: ListOf<Expression>, at: Place)
    | BinOp(left: Expression, operator: Operator, right: Expression, at: Place)
    | UnaryOp(unary: UnaryOperator, operand: Expression, at: Place)
    | Dict(entries: ListOf<Entry>, at: Place)
    | Compare(first: Expression, links: ListOf<Link>, at: Place)
    | Call(func: Expression, args: ListOf<Expression>, keywords: ListOf<Keyword>, starargs: Option<Expression>, kwargs: Option<Expression>, at: Place)
    | NumInt(n: Long, at: Place)
    | NumFloat(bits: Double, at: Place)
    | Str(s: Text, at: Place)
    | Attribute(value: Expression, attr: Text, ctx: Context, at: Place)
    | Subscript(value: Expression, slice: Slice, ctx: Context, at: Place)
    | Name(id: Text, ctx: Context, at: Place)
    | List(elts: ListOf<Expression>, ctx: Context, at: Place)
    | Tuple(elts: ListOf<Expression>, ctx: Context, at: Place)

  /** A dictionary's key and value; one operator of a comparison and what it compares with. */
  datatype Entry = Entry(key: Expression, value: Expression)

  datatype Link = Link(op: Comparison, comparator: Expression)

  datatype Slice =
    | Range(lower: Option<Expression>, upper: Option<Expression>, step: Option<Expression>)
    | Index(value: Expression)

  datatype Keyword = Keyword(arg: Text, value: Expression)

  datatype Alias = Alias(name: Text, asname: Option<Text>)

  /** Parameters; a `**kwarg` name has no place in the format. */
  datatype Arguments = Arguments(args: ListOf<Expression>, vararg: Option<Text>, defaults: ListOf<Expression>)

  datatype Statement =
    | FunctionDef(name: Text, arguments: Arguments, body: ListOf<Statement>, decorators: ListOf<Expression>, at: Place)
    | ClassDef(name: Text, bases: ListOf<Expression>, body: ListOf<Statement>, decorators: ListOf<Expression>, at: Place)
    | Return(result: Option<Expression>, at: Place)
    | Assign(targets: ListOf<Expression>, value: Expression, at: Place)
    | Print(dest: Option<Expression>, values: ListOf<Expression>, nl: bool, at: Place)
    | For(target: Expression, iter: Expression, body: ListOf<Statement>, orelse: ListOf<Statement>, at: Place)
    | While(test: Expression, body: ListOf<Statement>, orelse: ListOf<Statement>, at: Place)
    | If(test: Expression, body: ListOf<Statement>, orelse: ListOf<Statement>, at: Place)
    | With(context: Expression, vars: Option<Expression>, body: ListOf<Statement>, at: Place)
    | Import(names: ListOf<Alias>, at: Place)
    | Global(globals: ListOf<Text>, at: Place)
    | Expr(value: Expression, at: Place)
    | Pass(at: Place)
    | Break(at: Place)
    | Continue(at: Place)

  datatype Module = Module(body: ListOf<Statement>)

  // ---- the objects ------------------------------------------------------------------------------

  function OfContext(c: Context): K.Kind {
    match c
    case Load => K.Load case Store => K.Store case Del => K.Del case Param => K.Param
  }

  function OfBool(o: BoolOperator): K.Kind {
    match o
    case And => K.And case Or => K.Or
  }

  function OfOperator(o: Operator): K.Kind {
    match o
    case Add => K.Add case Sub => K.Sub case Mult => K.Mult case Div => K.Div case Mod => K.Mod case Pow => K.Pow
    case LShift => K.LShift case RShift => K.RShift case BitOr => K.BitOr case BitXor => K.BitXor
    case BitAnd => K.BitAnd case FloorDiv => K.FloorDiv
  }

  function OfUnary(o: UnaryOperator): K.Kind {
    match o
    case Invert => K.Invert case Not => K.Not case UAdd => K.UAdd case USub => K.USub
  }

  function OfComparison(o: Comparison): K.Kind {
    match o
    case Eq => K.Eq case NotEq => K.NotEq case Lt => K.Lt case LtE => K.LtE case Gt => K.Gt case GtE => K.GtE
    case Is => K.Is case IsNot => K.IsNot case In => K.In case NotIn => K.NotIn
  }

  function Field(name: string, value: W.Value): W.Attr { W.Attr(name, value) }

  function LineOf(at: Place): W.Attr { Field("lineno", W.Number(at.line)) }

  function ColumnOf(at: Place): W.Attr { Field("col_offset", W.Number(at.column)) }

  function OfText(t: Option<Text>): W.Value {
    if t.Some? then W.Value.Str(t.value) else W.Null
  }

  function OfOptional(e: Option<Expression>): W.Value {
    if e.Some? then OfExpression(e.value) else W.Null
  }

  function OfExpression(e: Expression): W.Value
    decreases e, 1
  {
    if e.BoolOp? || e.BinOp? || e.UnaryOp? || e.Dict? || e.Compare? || e.Call? then OfOperation(e) else OfAtom(e)
  }

  function OfOperation(e: Expression): W.Value
    requires e.BoolOp? || e.BinOp? || e.UnaryOp? || e.Dict? || e.Compare? || e.Call?
    decreases e, 0
  {
    match e
    case BoolOp(op, values, at) =>
      W.Node(K.BoolOp, [ColumnOf(at), LineOf(at), Field("op", W.Op(OfBool(op))), Field("values", W.Items(OfExpressions(values)))])
    case BinOp(left, op, right, at) =>
      W.Node(K.BinOp, [ColumnOf(at), Field("left", OfExpression(left)), LineOf(at), Field("op", W.Op(OfOperator(op))),
                       Field("right", OfExpression(right))])
    case UnaryOp(op, operand, at) =>
      W.Node(K.UnaryOp, [ColumnOf(at), LineOf(at), Field("op", W.Op(OfUnary(op))), Field("operand", OfExpression(operand))])
    case Dict(entries, at) =>
      W.Node(K.Dict, [ColumnOf(at), Field("keys", W.Items(OfKeys(entries))), LineOf(at), Field("values", W.Items(OfValues(entries)))])
    case Compare(first, links, at) =>
      W.Node(K.Compare, [ColumnOf(at), Field("comparators", W.Items(OfComparators(links))), Field("left", OfExpression(first)),
                         LineOf(at), Field("ops", W.Items(OfOps(links)))])
    case Call(func, args, keywords, starargs, kwargs, at) =>
      W.Node(K.Call, [Field("args", W.Items(OfExpressions(args))), ColumnOf(at), Field("func", OfExpression(func)),
                      Field("keywords", W.Items(OfKeywords(keywords))), Field("kwargs", OfOptional(kwargs)), LineOf(at),
                      Field("starargs", OfOptional(starargs))])
  }

  function OfAtom(e: Expression): W.Value
    requires !(e.BoolOp? || e.BinOp? || e.UnaryOp? || e.Dict? || e.Compare? || e.Call?)
    decreases e, 0
  {
    match e
    case NumInt(n, at) => W.Node(K.Num, [ColumnOf(at), LineOf(at), Field("n", W.Number(n))])
    case NumFloat(bits, at) => W.Node(K.Num, [ColumnOf(at), LineOf(at), Field("n", W.Real(bits))])
    case Str(s, at) => W.Node(K.Str, [ColumnOf(at), LineOf(at), Field("s", W.Value.Str(s))])
    case Attribute(value, attr, ctx, at) =>
      W.Node(K.Attribute, [Field("attr", W.Value.Str(attr)), ColumnOf(at), Field("ctx", W.Op(OfContext(ctx))), LineOf(at),
                           Field("value", OfExpression(value))])
    case Subscript(value, slice, ctx, at) =>
      W.Node(K.Subscript, [ColumnOf(at), Field("ctx", W.Op(OfContext(ctx))), LineOf(at), Field("slice", OfSlice(slice)),
                           Field("value", OfExpression(value))])
    case Name(id, ctx, at) =>
      W.Node(K.Name, [ColumnOf(at), Field("ctx", W.Op(OfContext(ctx))), Field("id", W.Value.Str(id)), LineOf(at)])
    case List(elts, ctx, at) =>
      W.Node(K.List, [ColumnOf(at), Field("ctx", W.Op(OfContext(ctx))), Field("elts", W.Items(OfExpressions(elts))), LineOf(at)])
    case Tuple(elts, ctx, at) =>
      W.Node(K.Tuple, [ColumnOf(at), Field("ctx", W.Op(OfContext(ctx))), Field("elts", W.Items(OfExpressions(elts))), LineOf(at)])
  }

  function OfExpressions(es: seq<Expression>): (r: seq<W.Value>)
    ensures |r| == |es| && forall i :: 0 <= i < |es| ==> r[i] == OfExpression(es[i])
  {
    if es == [] then [] else [OfExpression(es[0])] + OfExpressions(es[1..])
  }

  function OfKey(e: Entry): W.Value { OfExpression(e.key) }

  function OfKeys(es: seq<Entry>): (r: seq<W.Value>)
    ensures |r| == |es| && forall i :: 0 <= i < |es| ==> r[i] == OfKey(es[i])
  {
    if es == [] then [] else [OfKey(es[0])] + OfKeys(es[1..])
  }

  function OfValue(e: Entry): W.Value { OfExpression(e.value) }

  function OfValues(es: seq<Entry>): (r: seq<W.Value>)
    ensures |r| == |es| && forall i :: 0 <= i < |es| ==> r[i] == OfValue(es[i])
  {
    if es == [] then [] else [OfValue(es[0])] + OfValues(es[1..])
  }

  function OfComparator(l: Link): W.Value { OfExpression(l.comparator) }

  function OfComparators(ls: seq<Link>): (r: seq<W.Value>)
    ensures |r| == |ls| && forall i :: 0 <= i < |ls| ==> r[i] == OfComparator(ls[i])
  {
    if ls == [] then [] else [OfComparator(ls[0])] + OfComparators(ls[1..])
  }

  function OfOps(ls: seq<Link>): (r: seq<W.Value>)
    ensures |r| == |ls| && forall i :: 0 <= i < |ls| ==> r[i] == W.Op(OfComparison(ls[i].op))
  {
    if ls == [] then [] else [W.Op(OfComparison(ls[0].op))] + OfOps(ls[1..])
  }

  function OfSlice(s: Slice): W.Value {
    match s
    case Range(lower, upper, step) =>
      W.Node(K.Slice, [Field("lower", OfOptional(lower)), Field("step", OfOptional(step)), Field("upper", OfOptional(upper))])
    case Index(value) => W.Node(K.Index, [Field("value", OfExpression(value))])
  }

  function OfKeyword(k: Keyword): W.Value {
    W.Node(K.Keyword, [Field("arg", W.Value.Str(k.arg)), Field("value", OfExpression(k.value))])
  }

  function OfKeywords(ks: seq<Keyword>): (r: seq<W.Value>)
    ensures |r| == |ks| && forall i :: 0 <= i < |ks| ==> r[i] == OfKeyword(ks[i])
  {
    if ks == [] then [] else [OfKeyword(ks[0])] + OfKeywords(ks[1..])
  }

  function OfAlias(a: Alias): W.Value {
    W.Node(K.Alias, [Field("asname", OfText(a.asname)), Field("name", W.Value.Str(a.name))])
  }

  function OfAliases(l: seq<Alias>): (r: seq<W.Value>)
    ensures |r| == |l| && forall i :: 0 <= i < |l| ==> r[i] == OfAlias(l[i])
  {
    seq(|l|, i requires 0 <= i < |l| => OfAlias(l[i]))
  }

  function OfTexts(l: seq<Text>): (r: seq<W.Value>)
    ensures |r| == |l| && forall i :: 0 <= i < |l| ==> r[i] == W.Value.Str(l[i])
  {
    seq(|l|, i requires 0 <= i < |l| => W.Value.Str(l[i]))
  }

  function OfArguments(a: Arguments): W.Value {
    W.Node(K.Arguments, [Field("args", W.Items(OfExpressions(a.args))), Field("defaults", W.Items(OfExpressions(a.defaults))),
                         Field("kwarg", W.Null), Field("vararg", OfText(a.vararg))])
  }

  function OfStatement(s: Statement): W.Value
    decreases s, 1
  {
    if s.FunctionDef? || s.ClassDef? || s.For? || s.While? || s.If? || s.With? then OfCompound(s) else OfSimple(s)
  }

  function OfCompound(s: Statement): W.Value
    requires s.FunctionDef? || s.ClassDef? || s.For? || s.While? || s.If? || s.With?
    decreases s, 0
  {
    match s
    case FunctionDef(name, arguments, body, decorators, at) =>
      W.Node(K.FunctionDef, [Field("args", OfArguments(arguments)), Field("body", W.Items(OfStatements(body))), ColumnOf(at),
                             Field("decorator_list", W.Items(OfExpressions(decorators))), LineOf(at), Field("name", W.Value.Str(name))])
    case ClassDef(name, bases, body, decorators, at) =>
      W.Node(K.ClassDef, [Field("bases", W.Items(OfExpressions(bases))), Field("body", W.Items(OfStatements(body))), ColumnOf(at),
                          Field("decorator_list", W.Items(OfExpressions(decorators))), LineOf(at), Field("name", W.Value.Str(name))])
    case For(target, iter, body, orelse, at) =>
      W.Node(K.For, [Field("body", W.Items(OfStatements(body))), ColumnOf(at), Field("iter", OfExpression(iter)), LineOf(at),
                     Field("orelse", W.Items(OfStatements(orelse))), Field("target", OfExpression(target))])
    case While(test, body, orelse, at) =>
      W.Node(K.While, [Field("body", W.Items(OfStatements(body))), ColumnOf(at), LineOf(at),
                       Field("orelse", W.Items(OfStatements(orelse))), Field("test", OfExpression(test))])
    case If(test, body, orelse, at) =>
      W.Node(K.If, [Field("body", W.Items(OfStatements(body))), ColumnOf(at), LineOf(at),
                    Field("orelse", W.Items(OfStatements(orelse))), Field("test", OfExpression(test))])
    case With(context, vars, body, at) =>
      W.Node(K.With, [Field("body", W.Items(OfStatements(body))), ColumnOf(at), Field("context_expr", OfExpression(context)),
                      LineOf(at), Field("optional_vars", OfOptional(vars))])
  }

  function OfSimple(s: Statement): W.Value
    requires !(s.FunctionDef? || s.ClassDef? || s.For? || s.While? || s.If? || s.With?)
    decreases s, 0
  {
    match s
    case Return(result, at) => W.Node(K.Return, [ColumnOf(at), LineOf(at), Field("value", OfOptional(result))])
    case Assign(targets, value, at) =>
      W.Node(K.Assign, [ColumnOf(at), LineOf(at), Field("targets", W.Items(OfExpressions(targets))), Field("value", OfExpression(value))])
    case Print(dest, values, nl, at) =>
      W.Node(K.Print, [ColumnOf(at), Field("dest", OfOptional(dest)), LineOf(at), Field("nl", W.Truth(nl)),
                       Field("values", W.Items(OfExpressions(values)))])
    case Import(names, at) => W.Node(K.Import, [ColumnOf(at), LineOf(at), Field("names", W.Items(OfAliases(names)))])
    case Global(globals, at) => W.Node(K.Global, [ColumnOf(at), LineOf(at), Field("names", W.Items(OfTexts(globals)))])
    case Expr(value, at) => W.Node(K.Expr, [ColumnOf(at), LineOf(at), Field("value", OfExpression(value))])
    case Pass(at) => W.Node(K.Pass, [ColumnOf(at), LineOf(at)])
    case Break(at) => W.Node(K.Break, [ColumnOf(at), LineOf(at)])
    case Continue(at) => W.Node(K.Continue, [ColumnOf(at), LineOf(at)])
  }

  function OfStatements(ss: seq<Statement>): (r: seq<W.Value>)
    ensures |r| == |ss| && forall i :: 0 <= i < |ss| ==> r[i] == OfStatement(ss[i])
  {
    if ss == [] then [] else [OfStatement(ss[0])] + OfStatements(ss[1..])
  }

  function OfModule(m: Module): W.Value {
    W.Node(K.Module, [Field("body", W.Items(OfStatements(m.body)))])
  }
}
