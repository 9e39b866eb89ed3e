/** The wire format of the syntax tree: what convert in src/codegen/parse_ast.py writes, and what
    the read_* functions of src/codegen/parser.cpp make of a stream of bytes. */
module Wire {
  import opened Results
  import opened Commons
  import opened WireBytes
  import K = AstKinds
  import opened AttributeNames

  /** A value of a Python attribute, and what the reader puts in a field. Floats are their 64 bits. */
  datatype Value =
    | Null
    | Str(s: seq<byte>)
    | Number(n: int)
    | Real(bits: nat)
    | Truth(b: bool)
    | Items(elts: seq<Value>)
    | Op(op: K.Kind)
    | Node(kind: K.Kind, attrs: seq<Attr>)

  /** An entry of a Python object's __dict__, in no particular order. */
  datatype Attr = Attr(name: string, value: Value)

  // ---- the writer -------------------------------------------------------------------------------

  predicate Hidden(name: string) {
    name != "" && name[0] == '_'
  }

  function Visible(attrs: seq<Attr>): (r: seq<Attr>)
    ensures |r| <= |attrs| && forall a :: a in r <==> a in attrs && !Hidden(a.name)
  {
    if attrs == [] then []
    else
      assert forall a :: a in attrs <==> a == attrs[0] || a in attrs[1..];
      if Hidden(attrs[0].name) then Visible(attrs[1..]) else [attrs[0]] + Visible(attrs[1..])
  }

  function Insert(a: Attr, sorted: seq<Attr>): (r: seq<Attr>)
    ensures |r| == |sorted| + 1 && forall x :: x in r <==> x == a || x in sorted
  {
    if sorted == [] || Less(a.name, sorted[0].name) then [a] + sorted
    else
      assert forall x :: x in sorted <==> x == sorted[0] || x in sorted[1..];
      [sorted[0]] + Insert(a, sorted[1..])
  }

  /** sorted(): by name. */
  function Sorted(attrs: seq<Attr>): (r: seq<Attr>)
    ensures |r| == |attrs| && forall x :: x in r <==> x in attrs
  {
    if attrs == [] then []
    else
      assert forall x :: x in attrs <==> x == attrs[0] || x in attrs[1..];
      Insert(attrs[0], Sorted(attrs[1..]))
  }

  function InOrder(n: Value): (r: seq<Attr>)
    requires n.Node?
    ensures |r| <= |n.attrs| && forall a :: a in r ==> a in n.attrs
  {
    Sorted(Visible(n.attrs))
  }

  /** _print_str. */
  function PrintStr(s: seq<byte>): Result<seq<byte>> {
    if |s| < 0x1_0000 then Done(WireBytes.Text(s)) else Aborted
  }

  function TypeByte(k: K.Kind): Result<seq<byte>> {
    if 0 < K.TypeMap(k) < 256 then Done([K.TypeMap(k) as byte]) else Aborted
  }

  /** A number's node says first whether it is an int or a float. */
  function NumMarker(n: Value): Result<seq<byte>>
    requires n.Node?
  {
    if n.kind != K.Num then Done([])
    else if exists a :: a in n.attrs && a.name == "n" && a.value.Number? then Done([0x10])
    else if exists a :: a in n.attrs && a.name == "n" && a.value.Real? then Done([0x20])
    else Aborted
  }

  /** None stands for the empty string in two places. */
  function Blank(name: string, v: Value): Value {
    if v.Null? && (name == "vararg" || name == "asname") then Str([]) else v
  }

  /** convert: a node, an operator or None; anything else, or too long a list, is an exception. */
  function Convert(v: Value): Result<seq<byte>>
    decreases v, 3, 0
  {
    match v
    case Null => Done([0])
    case Op(k) => TypeByte(k)
    case Node(k, attrs) =>
      var code :- TypeByte(k);
      var marker :- NumMarker(v);
      var body :- ConvertAttrs(v, InOrder(v));
      Done(code + [0xae] + marker + body)
    case _ => Aborted
  }

  function ConvertAttrs(n: Value, todo: seq<Attr>): Result<seq<byte>>
    requires n.Node? && forall a :: a in todo ==> a in n.attrs
    decreases n, 2, |todo|
  {
    if todo == [] then Done([])
    else
      assert todo[0] in n.attrs;
      var first :- ConvertAttr(n.kind, todo[0].name, todo[0].value);
      var rest := todo[1..];
      assert forall a :: a in rest ==> a in todo;
      var others :- ConvertAttrs(n, rest);
      Done(first + others)
  }

  /** One attribute of a node, by the type of its value. */
  function ConvertAttr(k: K.Kind, name: string, value: Value): Result<seq<byte>>
    decreases value, 4, 0
  {
    if value.Null? then
      (if Blank(name, value).Str? then PrintStr([]) else Convert(value))
    else
      match value
      case Items(elts) =>
        var body :- ConvertItems(value, 0, k == K.Global);
        if |elts| < 0x1_0000 then Done(Short(|elts|) + body) else Aborted
      case Str(s) => PrintStr(s)
      case Truth(b) => Done([if b then 1 else 0])
      case Number(n) => if -TWO_63 <= n < TWO_63 then Done(Quad(n)) else Aborted
      case Real(bits) => if bits < TWO_64 then Done(ULL(bits)) else Aborted
      case _ => Convert(value)
  }

  function ConvertItems(l: Value, i: nat, strings: bool): Result<seq<byte>>
    requires l.Items? && i <= |l.elts|
    decreases l, 1, |l.elts| - i
  {
    if i == |l.elts| then Done([])
    else
      var first :- if strings then (if l.elts[i].Str? then PrintStr(l.elts[i].s) else Aborted) else Convert(l.elts[i]);
      var others :- ConvertItems(l, i + 1, strings);
      Done(first + others)
  }

  // ---- the reader -------------------------------------------------------------------------------

  /** What a reader function expects next. */
  datatype Shape =
    | Text | OptText | Column | Line | Flag | Int | Float
    | Code | Codes | Texts
    | Expr | Present | Misc
    | Exprs | Stmts | Stmt
    | Keyword | Keywords | Alias | Aliases

  /** Fields of the reader's structures, each called as the Python attribute is. */
  datatype FieldList = End | Then(attribute: Label, shape: Shape, rest: FieldList) {
    function Length(): nat { if End? then 0 else 1 + rest.Length() }

    function Names(): seq<string> { if End? then [] else [Spelling(attribute)] + rest.Names() }
  }

  /** The field each read_* function fills, in the order it reads them. */
  function Fields(k: K.Kind, float: bool): FieldList {
    if InGroup(k, Expressions) then ExprFields(k, float) else if InGroup(k, Statements) then StmtFields(k) else MiscFields(k)
  }

  function ExprFields(k: K.Kind, float: bool): FieldList {
    match k
    case Attribute =>
      Then(NAttr, Text, Then(NColOffset, Column, Then(NCtx, Code, Then(NLineno, Line, Then(NValue, Expr, End)))))
    case BinOp =>
      Then(NColOffset, Column, Then(NLeft, Expr, Then(NLineno, Line, Then(NOp, Code, Then(NRight, Expr, End)))))
    case BoolOp => Then(NColOffset, Column, Then(NLineno, Line, Then(NOp, Code, Then(NValues, Exprs, End))))
    case Call =>
      Then(NArgs, Exprs, Then(NColOffset, Column, Then(NFunc, Expr, Then(NKeywords, Keywords,
      Then(NKwargs, Expr, Then(NLineno, Line, Then(NStarargs, Expr, End)))))))
    case Compare =>
      Then(NColOffset, Column, Then(NComparators, Exprs, Then(NLeft, Expr, Then(NLineno, Line,
      Then(NOps, Codes, End)))))
    case Dict => Then(NColOffset, Column, Then(NKeys, Exprs, Then(NLineno, Line, Then(NValues, Exprs, End))))
    case Index => Then(NValue, Present, End)
    case List => Then(NColOffset, Column, Then(NCtx, Code, Then(NElts, Exprs, Then(NLineno, Line, End))))
    case Name => Then(NColOffset, Column, Then(NCtx, Code, Then(NId, Text, Then(NLineno, Line, End))))
    case Num => Then(NColOffset, Column, Then(NLineno, Line, Then(NN, if float then Float else Int, End)))
    case Slice => Then(NLower, Expr, Then(NStep, Expr, Then(NUpper, Expr, End)))
    case Str => Then(NColOffset, Column, Then(NLineno, Line, Then(NS, Text, End)))
    case Subscript =>
      Then(NColOffset, Column, Then(NCtx, Code, Then(NLineno, Line, Then(NSlice, Expr, Then(NValue, Expr, End)))))
    case Tuple => Then(NColOffset, Column, Then(NCtx, Code, Then(NElts, Exprs, Then(NLineno, Line, End))))
    case UnaryOp => Then(NColOffset, Column, Then(NLineno, Line, Then(NOp, Code, Then(NOperand, Expr, End))))
    case _ => End
  }

  function StmtFields(k: K.Kind): FieldList {
    match k
    case Assign => Then(NColOffset, Column, Then(NLineno, Line, Then(NTargets, Exprs, Then(NValue, Expr, End))))
    case Break => Then(NColOffset, Column, Then(NLineno, Line, End))
    case ClassDef =>
      Then(NBases, Exprs, Then(NBody, Stmts, Then(NColOffset, Column, Then(NDecoratorList, Exprs,
      Then(NLineno, Line, Then(NName, Text, End))))))
    case Continue => Then(NColOffset, Column, Then(NLineno, Line, End))
    case Expr => Then(NColOffset, Column, Then(NLineno, Line, Then(NValue, Expr, End)))
    case For =>
      Then(NBody, Stmts, Then(NColOffset, Column, Then(NIter, Expr, Then(NLineno, Line, Then(NOrelse, Stmts,
      Then(NTarget, Expr, End))))))
    case FunctionDef =>
      Then(NArgs, Misc, Then(NBody, Stmts, Then(NColOffset, Column, Then(NDecoratorList, Exprs,
      Then(NLineno, Line, Then(NName, Text, End))))))
    case Global => Then(NColOffset, Column, Then(NLineno, Line, Then(NNames, Texts, End)))
    case If =>
      Then(NBody, Stmts, Then(NColOffset, Column, Then(NLineno, Line, Then(NOrelse, Stmts, Then(NTest, Expr, End)))))
    case Import => Then(NColOffset, Column, Then(NLineno, Line, Then(NNames, Aliases, End)))
    case Pass => Then(NColOffset, Column, Then(NLineno, Line, End))
    case Print =>
      Then(NColOffset, Column, Then(NDest, Expr, Then(NLineno, Line, Then(NNl, Flag, Then(NValues, Exprs, End)))))
    case Return => Then(NColOffset, Column, Then(NLineno, Line, Then(NValue, Expr, End)))
    case While =>
      Then(NBody, Stmts, Then(NColOffset, Column, Then(NLineno, Line, Then(NOrelse, Stmts, Then(NTest, Expr, End)))))
    case With =>
      Then(NBody, Stmts, Then(NColOffset, Column, Then(NContextExpr, Expr, Then(NLineno, Line,
      Then(NOptionalVars, Expr, End)))))
    case _ => End
  }

  function MiscFields(k: K.Kind): FieldList {
    match k
    case Alias => Then(NAsname, OptText, Then(NName, Text, End))
    case Arguments => Then(NArgs, Exprs, Then(NDefaults, Exprs, Then(NKwarg, Expr, Then(NVararg, OptText, End))))
    case Keyword => Then(NArg, Text, Then(NValue, Expr, End))
    case Module => Then(NBody, Stmts, End)
    case _ => End
  }

  /** The switches of readASTExpr, readASTStmt and readASTMisc. */
  datatype Group = Expressions | Statements | Others

  predicate InGroup(k: K.Kind, g: Group) {
    match g
    case Expressions =>
      k in {K.Attribute, K.BinOp, K.BoolOp, K.Call, K.Compare, K.Dict, K.Index, K.List, K.Name, K.Num, K.Slice, K.Str,
            K.Subscript, K.Tuple, K.UnaryOp}
    case Statements =>
      k in {K.Assign, K.Break, K.ClassDef, K.Continue, K.Expr, K.For, K.FunctionDef, K.Global, K.If, K.Import, K.Pass,
            K.Print, K.Return, K.While, K.With}
    case Others => k in {K.Alias, K.Arguments, K.Keyword, K.Module}
  }

  /** The asserts between fields: as many operators as comparators, as many values as keys. */
  predicate Consistent(n: Value) {
    n.Node? &&
    match n.kind
    case Compare => |n.attrs| == 5 && n.attrs[1].value.Items? && n.attrs[4].value.Items? && |n.attrs[1].value.elts| == |n.attrs[4].value.elts|
    case Dict => |n.attrs| == 4 && n.attrs[1].value.Items? && n.attrs[3].value.Items? && |n.attrs[1].value.elts| == |n.attrs[3].value.elts|
    case _ => true
  }

  /** What a vector of the given shape holds. */
  function ElementShape(t: Shape): Shape {
    match t
    case Codes => Code
    case Texts => Text
    case Exprs => Expr
    case Stmts => Stmt
    case Keywords => Keyword
    case Aliases => Alias
    case _ => Text
  }

  function ReadField(t: Shape, s: seq<byte>): (r: Result<(Value, seq<byte>)>)
    ensures r.Done? ==> |r.value.1| < |s|
    decreases |s|, 2, 0
  {
    match t
    case Text => var a :- ReadText(s); Done((Str(a.0), a.1))
    case OptText => var a :- ReadText(s); Done((Str(a.0), a.1))
    case Column =>
      var a :- ReadULL(s);
      if 0 <= Signed32(a.0) < 100000 then Done((Number(Signed32(a.0)), a.1)) else Aborted
    case Line => var a :- ReadULL(s); Done((Number(a.0 % 0x1_0000_0000), a.1))
    case Int => var a :- ReadULL(s); Done((Number(Signed64(a.0)), a.1))
    case Float => var a :- ReadULL(s); Done((Real(a.0), a.1))
    case Flag => var a :- ReadByte(s); Done((Truth(a.0 != 0), a.1))
    case Code => var a :- ReadByte(s); Done((Op(K.AstType(a.0 as nat)), a.1))
    case Expr => ReadNode(Expressions, s)
    case Stmt => ReadNode(Statements, s)
    case Misc => ReadNode(Others, s)
    case Present => var a :- ReadNode(Expressions, s); if a.0.Null? then Aborted else Done(a)
    case Keyword => var a :- ReadNode(Others, s); if a.0.Node? && a.0.kind == K.Keyword then Done(a) else Aborted
    case Alias => var a :- ReadNode(Others, s); if a.0.Node? && a.0.kind == K.Alias then Done(a) else Aborted
    case _ =>
      var n :- ReadShort(s);
      var l :- ReadItems(ElementShape(t), n.0, n.1);
      Done((Items(l.0), l.1))
  }

  function ReadItems(t: Shape, n: nat, s: seq<byte>): (r: Result<(seq<Value>, seq<byte>)>)
    ensures r.Done? ==> |r.value.1| <= |s| && |r.value.0| == n
    decreases |s|, 3, n
  {
    if n == 0 then Done(([], s))
    else
      var a :- ReadField(t, s);
      var b :- ReadItems(t, n - 1, a.1);
      Done(([a.0] + b.0, b.1))
  }

  /** readASTExpr, readASTStmt and readASTMisc. */
  function ReadNode(g: Group, s: seq<byte>): (r: Result<(Value, seq<byte>)>)
    ensures r.Done? ==> |r.value.1| < |s| && (r.value.0.Null? || r.value.0.Node?)
    decreases |s|, 1, 0
  {
    var code :- ReadByte(s);
    if code.0 == 0 then Done((Null, code.1))
    else
      var check :- ReadByte(code.1);
      var k := K.AstType(code.0 as nat);
      if check.0 != 0xae || !InGroup(k, g) then Aborted
      else
        var m :- ReadMarker(k, check.1);
        var fields :- ReadFields(Fields(k, m.0), m.1);
        if Consistent(Node(k, fields.0)) then Done((Node(k, fields.0), fields.1)) else Aborted
  }

  function ReadMarker(k: K.Kind, s: seq<byte>): (r: Result<(bool, seq<byte>)>)
    ensures r.Done? ==> |r.value.1| <= |s|
  {
    if k != K.Num then Done((false, s))
    else
      var m :- ReadByte(s);
      if m.0 == 0x10 then Done((false, m.1)) else if m.0 == 0x20 then Done((true, m.1)) else Aborted
  }

  function ReadFields(fs: FieldList, s: seq<byte>): (r: Result<(seq<Attr>, seq<byte>)>)
    ensures r.Done? ==> |r.value.1| <= |s|
    decreases |s|, 3, fs.Length()
  {
    if fs.End? then Done(([], s))
    else
      var a :- ReadField(fs.shape, s);
      var b :- ReadFields(fs.rest, a.1);
      Done(([Attr(Spelling(fs.attribute), a.0)] + b.0, b.1))
  }
}
