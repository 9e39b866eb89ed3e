/** Python's syntax trees survive the wire format: whatever tree the parser subprocess is given, in
    whatever order its objects hold their attributes, the reader returns the same tree. */
module TreeRoundTrip {
  import opened Commons
  import opened Results
  import opened PythonTrees
  import opened WireBytes
  import W = Wire
  import O = WireOrder
  import R = WireRoundTrip
  import S = WireStreams
  import K = AstKinds
  import opened AttributeNames

  // ---- the attributes' names --------------------------------------------------------------------

  lemma Spelled0()
    ensures Spelling(NArg) == "arg" && Spelling(NArgs) == "args" && Spelling(NAsname) == "asname"
    ensures Spelling(NAttr) == "attr" && Spelling(NBases) == "bases"
  {}

  lemma Spelled1()
    ensures Spelling(NBody) == "body" && Spelling(NColOffset) == "col_offset" && Spelling(NComparators) == "comparators"
    ensures Spelling(NContextExpr) == "context_expr" && Spelling(NCtx) == "ctx"
  {}

  lemma Spelled2()
    ensures Spelling(NDecoratorList) == "decorator_list" && Spelling(NDefaults) == "defaults" && Spelling(NDest) == "dest"
    ensures Spelling(NElts) == "elts" && Spelling(NFunc) == "func"
  {}

  lemma Spelled3()
    ensures Spelling(NId) == "id" && Spelling(NIter) == "iter" && Spelling(NKeys) == "keys"
    ensures Spelling(NKeywords) == "keywords" && Spelling(NKwarg) == "kwarg"
  {}

  lemma Spelled4()
    ensures Spelling(NKwargs) == "kwargs" && Spelling(NLeft) == "left" && Spelling(NLineno) == "lineno"
    ensures Spelling(NLower) == "lower" && Spelling(NN) == "n"
  {}

  lemma Spelled5()
    ensures Spelling(NName) == "name" && Spelling(NNames) == "names" && Spelling(NNl) == "nl"
    ensures Spelling(NOp) == "op" && Spelling(NOperand) == "operand"
  {}

  lemma Spelled6()
    ensures Spelling(NOps) == "ops" && Spelling(NOptionalVars) == "optional_vars" && Spelling(NOrelse) == "orelse"
    ensures Spelling(NRight) == "right" && Spelling(NS) == "s"
  {}

  lemma Spelled7()
    ensures Spelling(NSlice) == "slice" && Spelling(NStarargs) == "starargs" && Spelling(NStep) == "step"
    ensures Spelling(NTarget) == "target" && Spelling(NTargets) == "targets"
  {}

  lemma Spelled8()
    ensures Spelling(NTest) == "test" && Spelling(NUpper) == "upper" && Spelling(NValue) == "value"
    ensures Spelling(NValues) == "values" && Spelling(NVararg) == "vararg"
  {}

  lemma Spelled()
    ensures Spelling(NArg) == "arg" && Spelling(NArgs) == "args" && Spelling(NAsname) == "asname"
    ensures Spelling(NAttr) == "attr" && Spelling(NBases) == "bases"
    ensures Spelling(NBody) == "body" && Spelling(NColOffset) == "col_offset" && Spelling(NComparators) == "comparators"
    ensures Spelling(NContextExpr) == "context_expr" && Spelling(NCtx) == "ctx"
    ensures Spelling(NDecoratorList) == "decorator_list" && Spelling(NDefaults) == "defaults" && Spelling(NDest) == "dest"
    ensures Spelling(NElts) == "elts" && Spelling(NFunc) == "func"
    ensures Spelling(NId) == "id" && Spelling(NIter) == "iter" && Spelling(NKeys) == "keys"
    ensures Spelling(NKeywords) == "keywords" && Spelling(NKwarg) == "kwarg"
    ensures Spelling(NKwargs) == "kwargs" && Spelling(NLeft) == "left" && Spelling(NLineno) == "lineno"
    ensures Spelling(NLower) == "lower" && Spelling(NN) == "n"
    ensures Spelling(NName) == "name" && Spelling(NNames) == "names" && Spelling(NNl) == "nl"
    ensures Spelling(NOp) == "op" && Spelling(NOperand) == "operand"
    ensures Spelling(NOps) == "ops" && Spelling(NOptionalVars) == "optional_vars" && Spelling(NOrelse) == "orelse"
    ensures Spelling(NRight) == "right" && Spelling(NS) == "s"
    ensures Spelling(NSlice) == "slice" && Spelling(NStarargs) == "starargs" && Spelling(NStep) == "step"
    ensures Spelling(NTarget) == "target" && Spelling(NTargets) == "targets"
    ensures Spelling(NTest) == "test" && Spelling(NUpper) == "upper" && Spelling(NValue) == "value"
    ensures Spelling(NValues) == "values" && Spelling(NVararg) == "vararg"
  {
    hide Spelling;
    Spelled0(); Spelled1(); Spelled2(); Spelled3(); Spelled4(); Spelled5(); Spelled6(); Spelled7(); Spelled8();
  }

  // ---- the reader's tables ----------------------------------------------------------------------

  function ShapesOf(fs: W.FieldList): (r: seq<W.Shape>)
    ensures |r| == |fs.Names()|
  {
    if fs.End? then [] else [fs.shape] + ShapesOf(fs.rest)
  }

  predicate Row(k: K.Kind, float: bool, names: seq<string>, shapes: seq<W.Shape>) {
    W.Fields(k, float).Names() == names && ShapesOf(W.Fields(k, float)) == shapes
  }

  lemma RowAttribute()
    ensures Row(K.Attribute, false, ["attr", "col_offset", "ctx", "lineno", "value"],
                [W.Text, W.Column, W.Code, W.Line, W.Expr])
  {
    Spelled();
    hide Spelling;
  }

  lemma RowBinOp()
    ensures Row(K.BinOp, false, ["col_offset", "left", "lineno", "op", "right"],
                [W.Column, W.Expr, W.Line, W.Code, W.Expr])
  {
    Spelled();
    hide Spelling;
  }

  lemma RowBoolOp()
    ensures Row(K.BoolOp, false, ["col_offset", "lineno", "op", "values"],
                [W.Column, W.Line, W.Code, W.Exprs])
  {
    Spelled();
    hide Spelling;
  }

  lemma RowCall()
    ensures Row(K.Call, false, ["args", "col_offset", "func", "keywords", "kwargs", "lineno", "starargs"],
                [W.Exprs, W.Column, W.Expr, W.Keywords, W.Expr, W.Line, W.Expr])
  {
    Spelled();
    hide Spelling;
  }

  lemma RowCompare()
    ensures Row(K.Compare, false, ["col_offset", "comparators", "left", "lineno", "ops"],
                [W.Column, W.Exprs, W.Expr, W.Line, W.Codes])
  {
    Spelled();
    hide Spelling;
  }

  lemma RowDict()
    ensures Row(K.Dict, false, ["col_offset", "keys", "lineno", "values"],
                [W.Column, W.Exprs, W.Line, W.Exprs])
  {
    Spelled();
    hide Spelling;
  }

  lemma RowIndex()
    ensures Row(K.Index, false, ["value"],
                [W.Present])
  {
    Spelled();
    hide Spelling;
  }

  lemma RowList()
    ensures Row(K.List, false, ["col_offset", "ctx", "elts", "lineno"],
                [W.Column, W.Code, W.Exprs, W.Line])
  {
    Spelled();
    hide Spelling;
  }

  lemma RowName()
    ensures Row(K.Name, false, ["col_offset", "ctx", "id", "lineno"],
                [W.Column, W.Code, W.Text, W.Line])
  {
    Spelled();
    hide Spelling;
  }

  lemma RowSlice()
    ensures Row(K.Slice, false, ["lower", "step", "upper"],
                [W.Expr, W.Expr, W.Expr])
  {
    Spelled();
    hide Spelling;
  }

  lemma RowStr()
    ensures Row(K.Str, false, ["col_offset", "lineno", "s"],
                [W.Column, W.Line, W.Text])
  {
    Spelled();
    hide Spelling;
  }

  lemma RowSubscript()
    ensures Row(K.Subscript, false, ["col_offset", "ctx", "lineno", "slice", "value"],
                [W.Column, W.Code, W.Line, W.Expr, W.Expr])
  {
    Spelled();
    hide Spelling;
  }

  lemma RowTuple()
    ensures Row(K.Tuple, false, ["col_offset", "ctx", "elts", "lineno"],
                [W.Column, W.Code, W.Exprs, W.Line])
  {
    Spelled();
    hide Spelling;
  }

  lemma RowUnaryOp()
    ensures Row(K.UnaryOp, false, ["col_offset", "lineno", "op", "operand"],
                [W.Column, W.Line, W.Code, W.Expr])
  {
    Spelled();
    hide Spelling;
  }

  lemma RowAssign()
    ensures Row(K.Assign, false, ["col_offset", "lineno", "targets", "value"],
                [W.Column, W.Line, W.Exprs, W.Expr])
  {
    Spelled();
    hide Spelling;
  }

  lemma RowBreak()
    ensures Row(K.Break, false, ["col_offset", "lineno"],
                [W.Column, W.Line])
  {
    Spelled();
    hide Spelling;
  }

  lemma RowClassDef()
    ensures Row(K.ClassDef, false, ["bases", "body", "col_offset", "decorator_list", "lineno", "name"],
                [W.Exprs, W.Stmts, W.Column, W.Exprs, W.Line, W.Text])
  {
    Spelled();
    hide Spelling;
  }

  lemma RowContinue()
    ensures Row(K.Continue, false, ["col_offset", "lineno"],
                [W.Column, W.Line])
  {
    Spelled();
    hide Spelling;
  }

  lemma RowExpr()
    ensures Row(K.Expr, false, ["col_offset", "lineno", "value"],
                [W.Column, W.Line, W.Expr])
  {
    Spelled();
    hide Spelling;
  }

  lemma RowFor()
    ensures Row(K.For, false, ["body", "col_offset", "iter", "lineno", "orelse", "target"],
                [W.Stmts, W.Column, W.Expr, W.Line, W.Stmts, W.Expr])
  {
    Spelled();
    hide Spelling;
  }

  lemma RowFunctionDef()
    ensures Row(K.FunctionDef, false, ["args", "body", "col_offset", "decorator_list", "lineno", "name"],
                [W.Misc, W.Stmts, W.Column, W.Exprs, W.Line, W.Text])
  {
    Spelled();
    hide Spelling;
  }

  lemma RowGlobal()
    ensures Row(K.Global, false, ["col_offset", "lineno", "names"],
                [W.Column, W.Line, W.Texts])
  {
    Spelled();
    hide Spelling;
  }

  lemma RowIf()
    ensures Row(K.If, false, ["body", "col_offset", "lineno", "orelse", "test"],
                [W.Stmts, W.Column, W.Line, W.Stmts, W.Expr])
  {
    Spelled();
    hide Spelling;
  }

  lemma RowImport()
    ensures Row(K.Import, false, ["col_offset", "lineno", "names"],
                [W.Column, W.Line, W.Aliases])
  {
    Spelled();
    hide Spelling;
  }

  lemma RowPass()
    ensures Row(K.Pass, false, ["col_offset", "lineno"],
                [W.Column, W.Line])
  {
    Spelled();
    hide Spelling;
  }

  lemma RowPrint()
    ensures Row(K.Print, false, ["col_offset", "dest", "lineno", "nl", "values"],
                [W.Column, W.Expr, W.Line, W.Flag, W.Exprs])
  {
    Spelled();
    hide Spelling;
  }

  lemma RowReturn()
    ensures Row(K.Return, false, ["col_offset", "lineno", "value"],
                [W.Column, W.Line, W.Expr])
  {
    Spelled();
    hide Spelling;
  }

  lemma RowWhile()
    ensures Row(K.While, false, ["body", "col_offset", "lineno", "orelse", "test"],
                [W.Stmts, W.Column, W.Line, W.Stmts, W.Expr])
  {
    Spelled();
    hide Spelling;
  }

  lemma RowWith()
    ensures Row(K.With, false, ["body", "col_offset", "context_expr", "lineno", "optional_vars"],
                [W.Stmts, W.Column, W.Expr, W.Line, W.Expr])
  {
    Spelled();
    hide Spelling;
  }

  lemma RowAlias()
    ensures Row(K.Alias, false, ["asname", "name"],
                [W.OptText, W.Text])
  {
    Spelled();
    hide Spelling;
  }

  lemma RowArguments()
    ensures Row(K.Arguments, false, ["args", "defaults", "kwarg", "vararg"],
                [W.Exprs, W.Exprs, W.Expr, W.OptText])
  {
    Spelled();
    hide Spelling;
  }

  lemma RowKeyword()
    ensures Row(K.Keyword, false, ["arg", "value"],
                [W.Text, W.Expr])
  {
    Spelled();
    hide Spelling;
  }

  lemma RowModule()
    ensures Row(K.Module, false, ["body"],
                [W.Stmts])
  {
    Spelled();
    hide Spelling;
  }

  lemma NumRow(float: bool)
    ensures Row(K.Num, float, ["col_offset", "lineno", "n"], [W.Column, W.Line, if float then W.Float else W.Int])
  {
    if float { assert Row(K.Num, true, ["col_offset", "lineno", "n"], [W.Column, W.Line, W.Float]); }
    else { assert Row(K.Num, false, ["col_offset", "lineno", "n"], [W.Column, W.Line, W.Int]); }
  }

  // ---- a node with its table's attributes ------------------------------------------------------

  lemma LabelsVisible(l: Label)
    ensures !W.Hidden(Spelling(l))
  {}

  lemma {:induction false} NamesVisible(fs: W.FieldList)
    ensures forall i :: 0 <= i < |fs.Names()| ==> !W.Hidden(fs.Names()[i])
  {
    hide Spelling, W.Hidden;
    if fs.Then? {
      LabelsVisible(fs.attribute);
      NamesVisible(fs.rest);
    }
  }

  lemma {:induction false} AllVisible(attrs: seq<W.Attr>)
    requires forall i :: 0 <= i < |attrs| ==> !W.Hidden(attrs[i].name)
    ensures W.Visible(attrs) == attrs
  {
    if attrs != [] { AllVisible(attrs[1..]); }
  }

  lemma AscendingDiffer(names: seq<string>)
    requires O.Ascending(names)
    ensures forall i, j :: 0 <= i < j < |names| ==> names[i] != names[j]
  {
    hide Less;
    forall i, j | 0 <= i < j < |names| ensures names[i] != names[j] {
      assert Less(names[i], names[j]);
      LessTotal(names[i], names[j]);
    }
  }

  lemma {:induction false} ShapeAt(fs: W.FieldList, i: nat)
    requires i < |fs.Names()| && forall i, j :: 0 <= i < j < |fs.Names()| ==> fs.Names()[i] != fs.Names()[j]
    ensures fs.Names()[i] in fs.Names() && R.ShapeOf(fs, fs.Names()[i]) == ShapesOf(fs)[i]
  {
    hide Spelling;
    var names := fs.Names();
    if i > 0 {
      assert names[0] != names[i];
      forall a, b | 0 <= a < b < |fs.rest.Names()| ensures fs.rest.Names()[a] != fs.rest.Names()[b] {
        assert names[a + 1] != names[b + 1];
      }
      ShapeAt(fs.rest, i - 1);
    }
  }

  /** The attributes are those of the table, each of the table's shape. */
  ghost predicate Filled(n: W.Value, names: seq<string>, shapes: seq<W.Shape>)
    requires n.Node?
  {
    && |n.attrs| == |names| == |shapes|
    && forall i {:trigger n.attrs[i]} :: 0 <= i < |names| ==> n.attrs[i].name == names[i] && R.Fits(shapes[i], n.attrs[i].value)
  }

  lemma RowFits(g: W.Group, n: W.Value, names: seq<string>, shapes: seq<W.Shape>)
    requires n.Node? && W.InGroup(n.kind, g) && R.Balanced(n) && Row(n.kind, R.IsFloat(n), names, shapes) && Filled(n, names, shapes)
    ensures R.NodeFits(g, n)
  {
    hide Less, Spelling, W.Fields, R.Fits, W.InGroup, R.Balanced, R.IsFloat, W.Hidden;
    var fs := W.Fields(n.kind, R.IsFloat(n));
    O.FieldsAscend(n.kind, R.IsFloat(n));
    AscendingDiffer(names);
    NamesVisible(fs);
    AllVisible(n.attrs);
    forall name | name in fs.Names() ensures exists a :: a in W.Visible(n.attrs) && a.name == name {
      var i :| 0 <= i < |names| && names[i] == name;
      assert n.attrs[i] in W.Visible(n.attrs) && n.attrs[i].name == name;
    }
    forall i | 0 <= i < |n.attrs| ensures n.attrs[i].name in fs.Names() && R.Fits(R.ShapeOf(fs, n.attrs[i].name), n.attrs[i].value) {
      ShapeAt(fs, i);
    }
  }

  // ---- plain data and lists ----------------------------------------------------------------------------

  lemma OperatorsFit()
    ensures forall c {:trigger OfContext(c)} :: R.Fits(W.Code, W.Op(OfContext(c)))
    ensures forall o {:trigger OfBool(o)} :: R.Fits(W.Code, W.Op(OfBool(o)))
    ensures forall o {:trigger OfOperator(o)} :: R.Fits(W.Code, W.Op(OfOperator(o)))
    ensures forall o {:trigger OfUnary(o)} :: R.Fits(W.Code, W.Op(OfUnary(o)))
    ensures forall o {:trigger OfComparison(o)} :: R.Fits(W.Code, W.Op(OfComparison(o)))
  {}

  lemma PlainFits()
    ensures forall s: Text {:trigger W.Value.Str(s)} :: R.Fits(W.Shape.Text, W.Value.Str(s))
    ensures forall t: Option<Text> {:trigger OfText(t)} :: R.Fits(W.OptText, OfText(t))
    ensures R.Fits(W.Shape.Expr, W.Null) && R.Fits(W.Flag, W.Truth(true)) && R.Fits(W.Flag, W.Truth(false))
  {}

  lemma PlaceFits(at: Place)
    ensures R.Fits(W.Line, LineOf(at).value) && R.Fits(W.Column, ColumnOf(at).value)
  {
    var l: Line, c: Column := at.line, at.column;
  }

  lemma ItemsFit(t: W.Shape, l: seq<W.Value>)
    requires t.Codes? || t.Texts? || t.Exprs? || t.Stmts? || t.Keywords? || t.Aliases?
    requires |l| < 0x1_0000 && forall i :: 0 <= i < |l| ==> R.Fits(W.ElementShape(t), l[i])
    ensures R.Fits(t, W.Items(l))
  {
    hide R.NodeFits;
  }

  lemma NodeIsFits(t: W.Shape, v: W.Value)
    requires R.NodeShape(t) && R.NodeFits(R.GroupOf(t), v)
    requires (t.Keyword? ==> v.Node? && v.kind == K.Keyword) && (t.Alias? ==> v.Node? && v.kind == K.Alias)
    ensures R.Fits(t, v)
  {
    hide R.NodeFits;
  }

  // ---- one lemma for each kind ------------------------------------------------------------------

  const EXPRESSIONS: set<K.Kind> :=
    {K.Attribute, K.BinOp, K.BoolOp, K.Call, K.Compare, K.Dict, K.Index, K.List, K.Name, K.Num, K.Slice, K.Str,
     K.Subscript, K.Tuple, K.UnaryOp}

  const STATEMENTS: set<K.Kind> :=
    {K.Assign, K.Break, K.ClassDef, K.Continue, K.Expr, K.For, K.FunctionDef, K.Global, K.If, K.Import, K.Pass,
     K.Print, K.Return, K.While, K.With}

  const OTHERS: set<K.Kind> := {K.Alias, K.Arguments, K.Keyword, K.Module}

  lemma Kinds(n: W.Value)
    requires n.Node?
    ensures n.kind != K.Num ==> !R.IsFloat(n)
    ensures n.kind != K.Compare && n.kind != K.Dict ==> R.Balanced(n)
    ensures n.kind in EXPRESSIONS ==> W.InGroup(n.kind, W.Expressions)
    ensures n.kind in STATEMENTS ==> W.InGroup(n.kind, W.Statements)
    ensures n.kind in OTHERS ==> W.InGroup(n.kind, W.Others)
  {}

  lemma CompareBalanced(e: Expression)
    requires e.Compare?
    ensures R.Balanced(OfOperation(e))
  {
    SameByIndex(OfOperation(e).attrs, 1, 4);
  }

  lemma DictBalanced(e: Expression)
    requires e.Dict?
    ensures R.Balanced(OfOperation(e))
  {
    SameByIndex(OfOperation(e).attrs, 1, 3);
  }

  /** Two lists of the same length, each the only attribute of its name. */
  lemma SameByIndex(attrs: seq<W.Attr>, i: nat, j: nat)
    requires i < |attrs| && j < |attrs| && attrs[i].value.Items? && attrs[j].value.Items?
    requires |attrs[i].value.elts| == |attrs[j].value.elts|
    requires forall k :: 0 <= k < |attrs| ==> (attrs[k].name == attrs[i].name ==> k == i) && (attrs[k].name == attrs[j].name ==> k == j)
    ensures R.SameLengths(attrs, attrs[i].name, attrs[j].name)
  {}

  lemma BoolOpFits(e: Expression)
    requires e.BoolOp? && R.Fits(W.Exprs, W.Items(OfExpressions(e.values)))
    ensures R.NodeFits(W.Expressions, OfOperation(e))
  {
    hide R.Fits, W.Fields, Spelling, W.InGroup, R.Balanced, R.IsFloat, W.Hidden;
    RowBoolOp();
    OperatorsFit(); PlainFits(); PlaceFits(e.at);
    Kinds(OfOperation(e));
    RowFits(W.Expressions, OfOperation(e), ["col_offset", "lineno", "op", "values"],
            [W.Column, W.Line, W.Code, W.Exprs]);
  }

  lemma BinOpFits(e: Expression)
    requires e.BinOp? && R.Fits(W.Shape.Expr, OfExpression(e.left)) && R.Fits(W.Shape.Expr, OfExpression(e.right))
    ensures R.NodeFits(W.Expressions, OfOperation(e))
  {
    hide R.Fits, W.Fields, Spelling, W.InGroup, R.Balanced, R.IsFloat, W.Hidden;
    RowBinOp();
    OperatorsFit(); PlainFits(); PlaceFits(e.at);
    Kinds(OfOperation(e));
    RowFits(W.Expressions, OfOperation(e), ["col_offset", "left", "lineno", "op", "right"],
            [W.Column, W.Shape.Expr, W.Line, W.Code, W.Shape.Expr]);
  }

  lemma UnaryOpFits(e: Expression)
    requires e.UnaryOp? && R.Fits(W.Shape.Expr, OfExpression(e.operand))
    ensures R.NodeFits(W.Expressions, OfOperation(e))
  {
    hide R.Fits, W.Fields, Spelling, W.InGroup, R.Balanced, R.IsFloat, W.Hidden;
    RowUnaryOp();
    OperatorsFit(); PlainFits(); PlaceFits(e.at);
    Kinds(OfOperation(e));
    RowFits(W.Expressions, OfOperation(e), ["col_offset", "lineno", "op", "operand"],
            [W.Column, W.Line, W.Code, W.Shape.Expr]);
  }

  lemma CallFits(e: Expression)
    requires e.Call? && R.Fits(W.Shape.Expr, OfExpression(e.func)) && R.Fits(W.Exprs, W.Items(OfExpressions(e.args)))
    requires R.Fits(W.Keywords, W.Items(OfKeywords(e.keywords))) && R.Fits(W.Shape.Expr, OfOptional(e.starargs)) && R.Fits(W.Shape.Expr, OfOptional(e.kwargs))
    ensures R.NodeFits(W.Expressions, OfOperation(e))
  {
    hide R.Fits, W.Fields, Spelling, W.InGroup, R.Balanced, R.IsFloat, W.Hidden;
    RowCall();
    PlainFits(); PlaceFits(e.at);
    Kinds(OfOperation(e));
    RowFits(W.Expressions, OfOperation(e), ["args", "col_offset", "func", "keywords", "kwargs", "lineno", "starargs"],
            [W.Exprs, W.Column, W.Shape.Expr, W.Keywords, W.Shape.Expr, W.Line, W.Shape.Expr]);
  }

  lemma StrFits(e: Expression)
    requires e.Str?
    ensures R.NodeFits(W.Expressions, OfAtom(e))
  {
    hide R.Fits, W.Fields, Spelling, W.InGroup, R.Balanced, R.IsFloat, W.Hidden;
    RowStr();
    PlainFits(); PlaceFits(e.at);
    Kinds(OfAtom(e));
    RowFits(W.Expressions, OfAtom(e), ["col_offset", "lineno", "s"],
            [W.Column, W.Line, W.Shape.Text]);
  }

  lemma AttributeFits(e: Expression)
    requires e.Attribute? && R.Fits(W.Shape.Expr, OfExpression(e.value))
    ensures R.NodeFits(W.Expressions, OfAtom(e))
  {
    hide R.Fits, W.Fields, Spelling, W.InGroup, R.Balanced, R.IsFloat, W.Hidden;
    RowAttribute();
    OperatorsFit(); PlainFits(); PlaceFits(e.at);
    Kinds(OfAtom(e));
    RowFits(W.Expressions, OfAtom(e), ["attr", "col_offset", "ctx", "lineno", "value"],
            [W.Shape.Text, W.Column, W.Code, W.Line, W.Shape.Expr]);
  }

  lemma SubscriptFits(e: Expression)
    requires e.Subscript? && R.Fits(W.Shape.Expr, OfExpression(e.value)) && R.Fits(W.Shape.Expr, OfSlice(e.slice))
    ensures R.NodeFits(W.Expressions, OfAtom(e))
  {
    hide R.Fits, W.Fields, Spelling, W.InGroup, R.Balanced, R.IsFloat, W.Hidden;
    RowSubscript();
    OperatorsFit(); PlainFits(); PlaceFits(e.at);
    Kinds(OfAtom(e));
    RowFits(W.Expressions, OfAtom(e), ["col_offset", "ctx", "lineno", "slice", "value"],
            [W.Column, W.Code, W.Line, W.Shape.Expr, W.Shape.Expr]);
  }

  lemma NameFits(e: Expression)
    requires e.Name?
    ensures R.NodeFits(W.Expressions, OfAtom(e))
  {
    hide R.Fits, W.Fields, Spelling, W.InGroup, R.Balanced, R.IsFloat, W.Hidden;
    RowName();
    OperatorsFit(); PlainFits(); PlaceFits(e.at);
    Kinds(OfAtom(e));
    RowFits(W.Expressions, OfAtom(e), ["col_offset", "ctx", "id", "lineno"],
            [W.Column, W.Code, W.Shape.Text, W.Line]);
  }

  lemma ListFits(e: Expression)
    requires e.List? && R.Fits(W.Exprs, W.Items(OfExpressions(e.elts)))
    ensures R.NodeFits(W.Expressions, OfAtom(e))
  {
    hide R.Fits, W.Fields, Spelling, W.InGroup, R.Balanced, R.IsFloat, W.Hidden;
    RowList();
    OperatorsFit(); PlainFits(); PlaceFits(e.at);
    Kinds(OfAtom(e));
    RowFits(W.Expressions, OfAtom(e), ["col_offset", "ctx", "elts", "lineno"],
            [W.Column, W.Code, W.Exprs, W.Line]);
  }

  lemma TupleFits(e: Expression)
    requires e.Tuple? && R.Fits(W.Exprs, W.Items(OfExpressions(e.elts)))
    ensures R.NodeFits(W.Expressions, OfAtom(e))
  {
    hide R.Fits, W.Fields, Spelling, W.InGroup, R.Balanced, R.IsFloat, W.Hidden;
    RowTuple();
    OperatorsFit(); PlainFits(); PlaceFits(e.at);
    Kinds(OfAtom(e));
    RowFits(W.Expressions, OfAtom(e), ["col_offset", "ctx", "elts", "lineno"],
            [W.Column, W.Code, W.Exprs, W.Line]);
  }

  lemma DictFits(e: Expression)
    requires e.Dict? && R.Fits(W.Exprs, W.Items(OfKeys(e.entries))) && R.Fits(W.Exprs, W.Items(OfValues(e.entries)))
    ensures R.NodeFits(W.Expressions, OfOperation(e))
  {
    hide R.Fits, W.Fields, Spelling, W.InGroup, R.Balanced, R.IsFloat, W.Hidden;
    RowDict();
    PlainFits(); PlaceFits(e.at);
    Kinds(OfOperation(e)); DictBalanced(e);
    RowFits(W.Expressions, OfOperation(e), ["col_offset", "keys", "lineno", "values"],
            [W.Column, W.Exprs, W.Line, W.Exprs]);
  }

  lemma CompareFits(e: Expression)
    requires e.Compare? && R.Fits(W.Shape.Expr, OfExpression(e.first)) && R.Fits(W.Exprs, W.Items(OfComparators(e.links)))
    requires R.Fits(W.Codes, W.Items(OfOps(e.links)))
    ensures R.NodeFits(W.Expressions, OfOperation(e))
  {
    hide R.Fits, W.Fields, Spelling, W.InGroup, R.Balanced, R.IsFloat, W.Hidden;
    RowCompare();
    OperatorsFit(); PlainFits(); PlaceFits(e.at);
    Kinds(OfOperation(e)); CompareBalanced(e);
    RowFits(W.Expressions, OfOperation(e), ["col_offset", "comparators", "left", "lineno", "ops"],
            [W.Column, W.Exprs, W.Shape.Expr, W.Line, W.Codes]);
  }

  lemma FunctionDefFits(s: Statement)
    requires s.FunctionDef? && R.Fits(W.Misc, OfArguments(s.arguments)) && R.Fits(W.Stmts, W.Items(OfStatements(s.body)))
    requires R.Fits(W.Exprs, W.Items(OfExpressions(s.decorators)))
    ensures R.NodeFits(W.Statements, OfCompound(s))
  {
    hide R.Fits, W.Fields, Spelling, W.InGroup, R.Balanced, R.IsFloat, W.Hidden;
    RowFunctionDef();
    PlainFits(); PlaceFits(s.at);
    Kinds(OfCompound(s));
    RowFits(W.Statements, OfCompound(s), ["args", "body", "col_offset", "decorator_list", "lineno", "name"],
            [W.Misc, W.Stmts, W.Column, W.Exprs, W.Line, W.Shape.Text]);
  }

  lemma ClassDefFits(s: Statement)
    requires s.ClassDef? && R.Fits(W.Exprs, W.Items(OfExpressions(s.bases))) && R.Fits(W.Stmts, W.Items(OfStatements(s.body)))
    requires R.Fits(W.Exprs, W.Items(OfExpressions(s.decorators)))
    ensures R.NodeFits(W.Statements, OfCompound(s))
  {
    hide R.Fits, W.Fields, Spelling, W.InGroup, R.Balanced, R.IsFloat, W.Hidden;
    RowClassDef();
    PlainFits(); PlaceFits(s.at);
    Kinds(OfCompound(s));
    RowFits(W.Statements, OfCompound(s), ["bases", "body", "col_offset", "decorator_list", "lineno", "name"],
            [W.Exprs, W.Stmts, W.Column, W.Exprs, W.Line, W.Shape.Text]);
  }

  lemma ReturnFits(s: Statement)
    requires s.Return? && R.Fits(W.Shape.Expr, OfOptional(s.result))
    ensures R.NodeFits(W.Statements, OfSimple(s))
  {
    hide R.Fits, W.Fields, Spelling, W.InGroup, R.Balanced, R.IsFloat, W.Hidden;
    RowReturn();
    PlainFits(); PlaceFits(s.at);
    Kinds(OfSimple(s));
    RowFits(W.Statements, OfSimple(s), ["col_offset", "lineno", "value"],
            [W.Column, W.Line, W.Shape.Expr]);
  }

  lemma AssignFits(s: Statement)
    requires s.Assign? && R.Fits(W.Exprs, W.Items(OfExpressions(s.targets))) && R.Fits(W.Shape.Expr, OfExpression(s.value))
    ensures R.NodeFits(W.Statements, OfSimple(s))
  {
    hide R.Fits, W.Fields, Spelling, W.InGroup, R.Balanced, R.IsFloat, W.Hidden;
    RowAssign();
    PlainFits(); PlaceFits(s.at);
    Kinds(OfSimple(s));
    RowFits(W.Statements, OfSimple(s), ["col_offset", "lineno", "targets", "value"],
            [W.Column, W.Line, W.Exprs, W.Shape.Expr]);
  }

  lemma PrintFits(s: Statement)
    requires s.Print? && R.Fits(W.Shape.Expr, OfOptional(s.dest)) && R.Fits(W.Exprs, W.Items(OfExpressions(s.values)))
    ensures R.NodeFits(W.Statements, OfSimple(s))
  {
    hide R.Fits, W.Fields, Spelling, W.InGroup, R.Balanced, R.IsFloat, W.Hidden;
    RowPrint();
    PlainFits(); PlaceFits(s.at);
    Kinds(OfSimple(s));
    RowFits(W.Statements, OfSimple(s), ["col_offset", "dest", "lineno", "nl", "values"],
            [W.Column, W.Shape.Expr, W.Line, W.Flag, W.Exprs]);
  }

  lemma ForFits(s: Statement)
    requires s.For? && R.Fits(W.Shape.Expr, OfExpression(s.target)) && R.Fits(W.Shape.Expr, OfExpression(s.iter))
    requires R.Fits(W.Stmts, W.Items(OfStatements(s.body))) && R.Fits(W.Stmts, W.Items(OfStatements(s.orelse)))
    ensures R.NodeFits(W.Statements, OfCompound(s))
  {
    hide R.Fits, W.Fields, Spelling, W.InGroup, R.Balanced, R.IsFloat, W.Hidden;
    RowFor();
    PlainFits(); PlaceFits(s.at);
    Kinds(OfCompound(s));
    RowFits(W.Statements, OfCompound(s), ["body", "col_offset", "iter", "lineno", "orelse", "target"],
            [W.Stmts, W.Column, W.Shape.Expr, W.Line, W.Stmts, W.Shape.Expr]);
  }

  lemma WhileFits(s: Statement)
    requires s.While? && R.Fits(W.Shape.Expr, OfExpression(s.test)) && R.Fits(W.Stmts, W.Items(OfStatements(s.body)))
    requires R.Fits(W.Stmts, W.Items(OfStatements(s.orelse)))
    ensures R.NodeFits(W.Statements, OfCompound(s))
  {
    hide R.Fits, W.Fields, Spelling, W.InGroup, R.Balanced, R.IsFloat, W.Hidden;
    RowWhile();
    PlainFits(); PlaceFits(s.at);
    Kinds(OfCompound(s));
    RowFits(W.Statements, OfCompound(s), ["body", "col_offset", "lineno", "orelse", "test"],
            [W.Stmts, W.Column, W.Line, W.Stmts, W.Shape.Expr]);
  }

  lemma IfFits(s: Statement)
    requires s.If? && R.Fits(W.Shape.Expr, OfExpression(s.test)) && R.Fits(W.Stmts, W.Items(OfStatements(s.body)))
    requires R.Fits(W.Stmts, W.Items(OfStatements(s.orelse)))
    ensures R.NodeFits(W.Statements, OfCompound(s))
  {
    hide R.Fits, W.Fields, Spelling, W.InGroup, R.Balanced, R.IsFloat, W.Hidden;
    RowIf();
    PlainFits(); PlaceFits(s.at);
    Kinds(OfCompound(s));
    RowFits(W.Statements, OfCompound(s), ["body", "col_offset", "lineno", "orelse", "test"],
            [W.Stmts, W.Column, W.Line, W.Stmts, W.Shape.Expr]);
  }

  lemma WithFits(s: Statement)
    requires s.With? && R.Fits(W.Shape.Expr, OfExpression(s.context)) && R.Fits(W.Shape.Expr, OfOptional(s.vars))
    requires R.Fits(W.Stmts, W.Items(OfStatements(s.body)))
    ensures R.NodeFits(W.Statements, OfCompound(s))
  {
    hide R.Fits, W.Fields, Spelling, W.InGroup, R.Balanced, R.IsFloat, W.Hidden;
    RowWith();
    PlainFits(); PlaceFits(s.at);
    Kinds(OfCompound(s));
    RowFits(W.Statements, OfCompound(s), ["body", "col_offset", "context_expr", "lineno", "optional_vars"],
            [W.Stmts, W.Column, W.Shape.Expr, W.Line, W.Shape.Expr]);
  }

  lemma ImportFits(s: Statement)
    requires s.Import? && R.Fits(W.Aliases, W.Items(OfAliases(s.names)))
    ensures R.NodeFits(W.Statements, OfSimple(s))
  {
    hide R.Fits, W.Fields, Spelling, W.InGroup, R.Balanced, R.IsFloat, W.Hidden;
    RowImport();
    PlainFits(); PlaceFits(s.at);
    Kinds(OfSimple(s));
    RowFits(W.Statements, OfSimple(s), ["col_offset", "lineno", "names"],
            [W.Column, W.Line, W.Aliases]);
  }

  lemma GlobalFits(s: Statement)
    requires s.Global? && R.Fits(W.Texts, W.Items(OfTexts(s.globals)))
    ensures R.NodeFits(W.Statements, OfSimple(s))
  {
    hide R.Fits, W.Fields, Spelling, W.InGroup, R.Balanced, R.IsFloat, W.Hidden;
    RowGlobal();
    PlainFits(); PlaceFits(s.at);
    Kinds(OfSimple(s));
    RowFits(W.Statements, OfSimple(s), ["col_offset", "lineno", "names"],
            [W.Column, W.Line, W.Texts]);
  }

  lemma ExprFits(s: Statement)
    requires s.Expr? && R.Fits(W.Shape.Expr, OfExpression(s.value))
    ensures R.NodeFits(W.Statements, OfSimple(s))
  {
    hide R.Fits, W.Fields, Spelling, W.InGroup, R.Balanced, R.IsFloat, W.Hidden;
    RowExpr();
    PlainFits(); PlaceFits(s.at);
    Kinds(OfSimple(s));
    RowFits(W.Statements, OfSimple(s), ["col_offset", "lineno", "value"],
            [W.Column, W.Line, W.Shape.Expr]);
  }

  lemma PassFits(s: Statement)
    requires s.Pass?
    ensures R.NodeFits(W.Statements, OfSimple(s))
  {
    hide R.Fits, W.Fields, Spelling, W.InGroup, R.Balanced, R.IsFloat, W.Hidden;
    RowPass();
    PlainFits(); PlaceFits(s.at);
    Kinds(OfSimple(s));
    RowFits(W.Statements, OfSimple(s), ["col_offset", "lineno"],
            [W.Column, W.Line]);
  }

  lemma BreakFits(s: Statement)
    requires s.Break?
    ensures R.NodeFits(W.Statements, OfSimple(s))
  {
    hide R.Fits, W.Fields, Spelling, W.InGroup, R.Balanced, R.IsFloat, W.Hidden;
    RowBreak();
    PlainFits(); PlaceFits(s.at);
    Kinds(OfSimple(s));
    RowFits(W.Statements, OfSimple(s), ["col_offset", "lineno"],
            [W.Column, W.Line]);
  }

  lemma ContinueFits(s: Statement)
    requires s.Continue?
    ensures R.NodeFits(W.Statements, OfSimple(s))
  {
    hide R.Fits, W.Fields, Spelling, W.InGroup, R.Balanced, R.IsFloat, W.Hidden;
    RowContinue();
    PlainFits(); PlaceFits(s.at);
    Kinds(OfSimple(s));
    RowFits(W.Statements, OfSimple(s), ["col_offset", "lineno"],
            [W.Column, W.Line]);
  }

  lemma NumIsFloat(e: Expression)
    requires e.NumInt? || e.NumFloat?
    ensures R.IsFloat(OfAtom(e)) <==> e.NumFloat?
  {
    var n := OfAtom(e);
    assert n.attrs[2] in n.attrs && n.attrs[2].name == "n";
  }

  lemma NumFits(e: Expression)
    requires e.NumInt? || e.NumFloat?
    ensures R.NodeFits(W.Expressions, OfAtom(e))
  {
    hide R.Fits, R.IsFloat, W.Fields, Spelling, W.InGroup, R.Balanced, W.Hidden;
    var n := OfAtom(e);
    NumIsFloat(e);
    NumRow(e.NumFloat?);
    PlaceFits(e.at);
    Kinds(n);
    NumberFits(e);
    RowFits(W.Expressions, n, ["col_offset", "lineno", "n"], [W.Column, W.Line, if e.NumFloat? then W.Float else W.Int]);
  }

  lemma NumberFits(e: Expression)
    requires e.NumInt? || e.NumFloat?
    ensures R.Fits(if e.NumFloat? then W.Float else W.Int, OfAtom(e).attrs[2].value)
  {
    if e.NumInt? { var n: Long := e.n; } else { var bits: Double := e.bits; }
  }

  lemma RangeFits(s: Slice)
    requires s.Range? && R.Fits(W.Shape.Expr, OfOptional(s.lower)) && R.Fits(W.Shape.Expr, OfOptional(s.upper))
    requires R.Fits(W.Shape.Expr, OfOptional(s.step))
    ensures R.NodeFits(W.Expressions, OfSlice(s))
  {
    hide R.Fits, W.Fields, Spelling, W.InGroup, R.Balanced, R.IsFloat, W.Hidden;
    RowSlice();
    Kinds(OfSlice(s));
    RowFits(W.Expressions, OfSlice(s), ["lower", "step", "upper"], [W.Shape.Expr, W.Shape.Expr, W.Shape.Expr]);
  }

  lemma IndexFits(s: Slice)
    requires s.Index? && R.Fits(W.Present, OfExpression(s.value))
    ensures R.NodeFits(W.Expressions, OfSlice(s))
  {
    hide R.Fits, W.Fields, Spelling, W.InGroup, R.Balanced, R.IsFloat, W.Hidden;
    RowIndex();
    Kinds(OfSlice(s));
    RowFits(W.Expressions, OfSlice(s), ["value"], [W.Present]);
  }

  lemma KeywordNodeFits(k: Keyword)
    requires R.Fits(W.Shape.Expr, OfExpression(k.value))
    ensures R.NodeFits(W.Others, OfKeyword(k))
  {
    hide R.Fits, W.Fields, Spelling, W.InGroup, R.Balanced, R.IsFloat, W.Hidden;
    RowKeyword();
    PlainFits();
    Kinds(OfKeyword(k));
    RowFits(W.Others, OfKeyword(k), ["arg", "value"], [W.Shape.Text, W.Shape.Expr]);
  }

  lemma AliasFits(a: Alias)
    ensures R.Fits(W.Shape.Alias, OfAlias(a))
  {
    hide R.Fits, W.Fields, Spelling, W.InGroup, R.Balanced, R.IsFloat, W.Hidden;
    RowAlias();
    PlainFits();
    Kinds(OfAlias(a));
    RowFits(W.Others, OfAlias(a), ["asname", "name"], [W.OptText, W.Shape.Text]);
    NodeIsFits(W.Shape.Alias, OfAlias(a));
  }

  lemma ArgumentsNodeFits(a: Arguments)
    requires R.Fits(W.Exprs, W.Items(OfExpressions(a.args))) && R.Fits(W.Exprs, W.Items(OfExpressions(a.defaults)))
    ensures R.Fits(W.Misc, OfArguments(a))
  {
    hide R.Fits, W.Fields, Spelling, W.InGroup, R.Balanced, R.IsFloat, W.Hidden;
    RowArguments();
    PlainFits();
    Kinds(OfArguments(a));
    RowFits(W.Others, OfArguments(a), ["args", "defaults", "kwarg", "vararg"], [W.Exprs, W.Exprs, W.Shape.Expr, W.OptText]);
    NodeIsFits(W.Misc, OfArguments(a));
  }

  // ---- every tree fits ----------------------------------------------------------------------------

  lemma {:induction false} ExpressionFits(e: Expression)
    ensures R.NodeFits(W.Expressions, OfExpression(e)) && R.Fits(W.Shape.Expr, OfExpression(e))
    decreases e, 2
  {
    hide R.Fits, R.NodeFits, OfOperation, OfAtom;
    if e.BoolOp? || e.BinOp? || e.UnaryOp? || e.Dict? || e.Compare? || e.Call? { OperationFits(e); } else { AtomFits(e); }
    NodeIsFits(W.Shape.Expr, OfExpression(e));
  }

  lemma {:induction false} OperationFits(e: Expression)
    requires e.BoolOp? || e.BinOp? || e.UnaryOp? || e.Dict? || e.Compare? || e.Call?
    ensures R.NodeFits(W.Expressions, OfOperation(e))
    decreases e, 1
  {
    hide R.Fits, R.NodeFits, OfOperation, OfAtom, OfExpression;
    match e
    case BoolOp(op, values, at) =>
      ExpressionsFit(values);
      BoolOpFits(e);
    case BinOp(left, op, right, at) =>
      ExpressionFits(left);
      ExpressionFits(right);
      BinOpFits(e);
    case UnaryOp(op, operand, at) =>
      ExpressionFits(operand);
      UnaryOpFits(e);
    case Dict(entries, at) =>
      EntriesFit(entries);
      DictFits(e);
    case Compare(first, links, at) =>
      ExpressionFits(first);
      LinksFit(links);
      CompareFits(e);
    case Call(func, args, keywords, starargs, kwargs, at) =>
      ExpressionFits(func);
      ExpressionsFit(args);
      KeywordsFit(keywords);
      OptionalFits(starargs);
      OptionalFits(kwargs);
      CallFits(e);
  }

  lemma {:induction false} AtomFits(e: Expression)
    requires !(e.BoolOp? || e.BinOp? || e.UnaryOp? || e.Dict? || e.Compare? || e.Call?)
    ensures R.NodeFits(W.Expressions, OfAtom(e))
    decreases e, 1
  {
    hide R.Fits, R.NodeFits, OfOperation, OfAtom, OfExpression;
    match e
    case NumInt(_, _) => NumFits(e);
    case NumFloat(_, _) => NumFits(e);
    case Str(_, _) => StrFits(e);
    case Attribute(value, _, _, _) =>
      ExpressionFits(value);
      AttributeFits(e);
    case Subscript(value, slice, _, _) =>
      ExpressionFits(value);
      SliceFits(slice);
      SubscriptFits(e);
    case Name(_, _, _) => NameFits(e);
    case List(elts, _, _) =>
      ExpressionsFit(elts);
      ListFits(e);
    case Tuple(elts, _, _) =>
      ExpressionsFit(elts);
      TupleFits(e);
  }

  lemma {:induction false} EachFits(es: seq<Expression>)
    ensures forall i :: 0 <= i < |es| ==> R.Fits(W.Shape.Expr, OfExpression(es[i]))
    decreases es, 0
  {
    hide R.Fits, OfExpression;
    forall i | 0 <= i < |es| ensures R.Fits(W.Shape.Expr, OfExpression(es[i])) { ExpressionFits(es[i]); }
  }

  lemma {:induction false} ExpressionsFit(es: ListOf<Expression>)
    ensures R.Fits(W.Exprs, W.Items(OfExpressions(es)))
    decreases es, 1
  {
    hide R.Fits, OfExpression, OfExpressions;
    EachFits(es);
    ItemsFit(W.Exprs, OfExpressions(es));
  }

  lemma {:induction false} OptionalFits(e: Option<Expression>)
    ensures R.Fits(W.Shape.Expr, OfOptional(e))
    decreases e, 3
  {
    hide R.Fits, OfExpression;
    PlainFits();
    if e.Some? { ExpressionFits(e.value); }
  }

  lemma {:induction false} EntryFits(e: Entry)
    ensures R.Fits(W.Shape.Expr, OfKey(e)) && R.Fits(W.Shape.Expr, OfValue(e))
    decreases e, 3
  {
    hide R.Fits, OfExpression;
    ExpressionFits(e.key);
    ExpressionFits(e.value);
  }

  lemma {:induction false} EntriesFit(es: ListOf<Entry>)
    ensures R.Fits(W.Exprs, W.Items(OfKeys(es))) && R.Fits(W.Exprs, W.Items(OfValues(es)))
    decreases es, 1
  {
    hide R.Fits, OfKey, OfValue, OfKeys, OfValues;
    forall i | 0 <= i < |es| ensures R.Fits(W.Shape.Expr, OfKey(es[i])) && R.Fits(W.Shape.Expr, OfValue(es[i])) { EntryFits(es[i]); }
    ItemsFit(W.Exprs, OfKeys(es));
    ItemsFit(W.Exprs, OfValues(es));
  }

  lemma {:induction false} LinkFits(l: Link)
    ensures R.Fits(W.Shape.Expr, OfComparator(l))
    decreases l, 3
  {
    hide R.Fits, OfExpression;
    ExpressionFits(l.comparator);
  }

  lemma {:induction false} LinksFit(ls: ListOf<Link>)
    ensures R.Fits(W.Exprs, W.Items(OfComparators(ls))) && R.Fits(W.Codes, W.Items(OfOps(ls)))
    decreases ls, 1
  {
    hide R.Fits, OfComparator, OfComparators, OfOps, OfComparison;
    OperatorsFit();
    forall i | 0 <= i < |ls| ensures R.Fits(W.Shape.Expr, OfComparator(ls[i])) { LinkFits(ls[i]); }
    ItemsFit(W.Exprs, OfComparators(ls));
    ItemsFit(W.Codes, OfOps(ls));
  }

  lemma {:induction false} SliceFits(s: Slice)
    ensures R.Fits(W.Shape.Expr, OfSlice(s))
    decreases s, 3
  {
    hide R.Fits, R.NodeFits, OfExpression;
    match s {
      case Range(lower, upper, step) =>
        OptionalFits(lower);
        OptionalFits(upper);
        OptionalFits(step);
        RangeFits(s);
      case Index(value) =>
        ExpressionFits(value);
        NodeIsFits(W.Present, OfExpression(value));
        IndexFits(s);
    }
    NodeIsFits(W.Shape.Expr, OfSlice(s));
  }

  lemma {:induction false} KeywordFits(k: Keyword)
    ensures R.Fits(W.Shape.Keyword, OfKeyword(k))
    decreases k, 3
  {
    hide R.Fits, R.NodeFits, OfExpression;
    ExpressionFits(k.value);
    KeywordNodeFits(k);
    NodeIsFits(W.Shape.Keyword, OfKeyword(k));
  }

  lemma {:induction false} KeywordsFit(ks: ListOf<Keyword>)
    ensures R.Fits(W.Keywords, W.Items(OfKeywords(ks)))
    decreases ks, 1
  {
    hide R.Fits, OfKeyword, OfKeywords;
    forall i | 0 <= i < |ks| ensures R.Fits(W.Shape.Keyword, OfKeyword(ks[i])) { KeywordFits(ks[i]); }
    ItemsFit(W.Keywords, OfKeywords(ks));
  }

  lemma {:induction false} ArgumentsFit(a: Arguments)
    ensures R.Fits(W.Misc, OfArguments(a))
  {
    hide R.Fits, OfArguments;
    ExpressionsFit(a.args);
    ExpressionsFit(a.defaults);
    ArgumentsNodeFits(a);
  }

  lemma {:induction false} StatementFits(s: Statement)
    ensures R.Fits(W.Shape.Stmt, OfStatement(s))
    decreases s, 2
  {
    hide R.Fits, R.NodeFits, OfCompound, OfSimple;
    if s.FunctionDef? || s.ClassDef? || s.For? || s.While? || s.If? || s.With? { CompoundFits(s); } else { SimpleFits(s); }
    NodeIsFits(W.Shape.Stmt, OfStatement(s));
  }

  lemma {:induction false} CompoundFits(s: Statement)
    requires s.FunctionDef? || s.ClassDef? || s.For? || s.While? || s.If? || s.With?
    ensures R.NodeFits(W.Statements, OfCompound(s))
    decreases s, 1
  {
    hide R.Fits, R.NodeFits, OfCompound, OfExpression, OfExpressions, OfStatements, OfArguments;
    match s
    case FunctionDef(_, arguments, body, decorators, _) =>
      ArgumentsFit(arguments);
      StatementsFit(body);
      ExpressionsFit(decorators);
      FunctionDefFits(s);
    case ClassDef(_, bases, body, decorators, _) =>
      ExpressionsFit(bases);
      StatementsFit(body);
      ExpressionsFit(decorators);
      ClassDefFits(s);
    case For(target, iter, body, orelse, _) =>
      ExpressionFits(target);
      ExpressionFits(iter);
      StatementsFit(body);
      StatementsFit(orelse);
      ForFits(s);
    case While(test, body, orelse, _) =>
      ExpressionFits(test);
      StatementsFit(body);
      StatementsFit(orelse);
      WhileFits(s);
    case If(test, body, orelse, _) =>
      ExpressionFits(test);
      StatementsFit(body);
      StatementsFit(orelse);
      IfFits(s);
    case With(context, vars, body, _) =>
      ExpressionFits(context);
      OptionalFits(vars);
      StatementsFit(body);
      WithFits(s);
  }

  lemma SimpleFits(s: Statement)
    requires !(s.FunctionDef? || s.ClassDef? || s.For? || s.While? || s.If? || s.With?)
    ensures R.NodeFits(W.Statements, OfSimple(s))
  {
    hide R.Fits, R.NodeFits, OfSimple, OfExpression, OfExpressions, OfOptional, OfAliases, OfTexts, OfAlias;
    match s
    case Return(result, _) =>
      OptionalFits(result);
      ReturnFits(s);
    case Assign(targets, value, _) =>
      ExpressionsFit(targets);
      ExpressionFits(value);
      AssignFits(s);
    case Print(dest, values, _, _) =>
      OptionalFits(dest);
      ExpressionsFit(values);
      PrintFits(s);
    case Import(names, _) =>
      forall i | 0 <= i < |names| ensures R.Fits(W.Shape.Alias, OfAlias(names[i])) { AliasFits(names[i]); }
      ItemsFit(W.Aliases, OfAliases(names));
      ImportFits(s);
    case Global(globals, _) =>
      PlainFits();
      ItemsFit(W.Texts, OfTexts(globals));
      GlobalFits(s);
    case Expr(value, _) =>
      ExpressionFits(value);
      ExprFits(s);
    case Pass(_) => PassFits(s);
    case Break(_) => BreakFits(s);
    case Continue(_) => ContinueFits(s);
  }

  lemma {:induction false} StatementsFit(ss: ListOf<Statement>)
    ensures R.Fits(W.Stmts, W.Items(OfStatements(ss)))
    decreases ss, 3
  {
    hide R.Fits, OfStatement, OfStatements;
    forall i | 0 <= i < |ss| ensures R.Fits(W.Shape.Stmt, OfStatement(ss[i])) { StatementFits(ss[i]); }
    ItemsFit(W.Stmts, OfStatements(ss));
  }

  /** Every module of the grammar is a tree that the reader supports. */
  lemma ModuleFits(m: Module)
    ensures R.NodeFits(W.Others, OfModule(m)) && OfModule(m).Node? && OfModule(m).kind == K.Module
  {
    hide R.Fits, W.Fields, Spelling, W.InGroup, R.Balanced, R.IsFloat, W.Hidden, OfStatements;
    StatementsFit(m.body);
    RowModule();
    Kinds(OfModule(m));
    RowFits(W.Others, OfModule(m), ["body"], [W.Stmts]);
  }

  // ---- objects that show a tree -------------------------------------------------------------------

  predicate Private(name: string) {
    name != "" && name[0] == '_'
  }

  /** Object n shows what v says: the same kinds and data, each attribute of v once, in any order, and
      no other but private ones. What was `read` shows no private ones, and an absent name as "". */
  ghost predicate Shows(n: W.Value, v: W.Value, read: bool)
    decreases v, 0
  {
    match v
    case Node(k, attrs) =>
      && n.Node? && n.kind == k && O.DistinctNames(n.attrs)
      && (forall i {:trigger n.attrs[i]} :: 0 <= i < |n.attrs| && (read || !Private(n.attrs[i].name)) ==> ShowsOne(n.attrs[i], attrs, read))
      && (forall j {:trigger attrs[j]} :: 0 <= j < |attrs| ==> !Private(attrs[j].name) && IsShown(n.attrs, attrs[j], read))
    case Items(elts) => n.Items? && |n.elts| == |elts| && forall i :: 0 <= i < |elts| ==> Shows(n.elts[i], elts[i], read)
    case _ => n == v
  }

  ghost predicate ShowsOne(a: W.Attr, attrs: seq<W.Attr>, read: bool)
    decreases attrs, 2
  {
    exists j {:trigger attrs[j]} :: 0 <= j < |attrs| && ShowsAttr(a, attrs[j], read)
  }

  ghost predicate IsShown(attrs: seq<W.Attr>, b: W.Attr, read: bool)
    decreases b, 2
  {
    exists i {:trigger attrs[i]} :: 0 <= i < |attrs| && ShowsAttr(attrs[i], b, read)
  }

  ghost predicate ShowsAttr(a: W.Attr, b: W.Attr, read: bool)
    decreases b, 1
  {
    && a.name == b.name
    && if read && b.value.Null? && (b.name == "vararg" || b.name == "asname") then a.value == W.Value.Str([])
       else Shows(a.value, b.value, read)
  }

  /** An object that shows a supported tree is supported. */
  lemma {:induction false} ShownFits(t: W.Shape, n: W.Value, v: W.Value)
    requires R.Fits(t, v) && Shows(n, v, false)
    ensures R.Fits(t, n)
    decreases v, 2
  {
    hide Shows;
    if R.NodeShape(t) {
      NodeOrNull(t, v);
      if v.Null? {
        PlainShown(n, v);
      } else {
        ShownNodeFits(R.GroupOf(t), n, v);
        SameKind(n, v);
        NodeIsFits(t, n);
      }
    } else if t.Codes? || t.Texts? || t.Exprs? || t.Stmts? || t.Keywords? || t.Aliases? {
      ShownItems(n, v);
      FitsItems(t, v);
      forall i | 0 <= i < |v.elts| ensures R.Fits(W.ElementShape(t), n.elts[i]) { ShownFits(W.ElementShape(t), n.elts[i], v.elts[i]); }
      ItemsFit(t, n.elts);
    } else {
      PlainShown(n, v);
    }
  }

  lemma NodeOrNull(t: W.Shape, v: W.Value)
    requires R.NodeShape(t) && R.Fits(t, v)
    ensures v.Null? || R.NodeFits(R.GroupOf(t), v)
    ensures v.Null? ==> t.Expr? || t.Stmt? || t.Misc?
    ensures (t.Keyword? ==> v.Node? && v.kind == K.Keyword) && (t.Alias? ==> v.Node? && v.kind == K.Alias)
    ensures v.Null? || v.Node?
  {}

  lemma FitsItems(t: W.Shape, v: W.Value)
    requires R.Fits(t, v) && (t.Codes? || t.Texts? || t.Exprs? || t.Stmts? || t.Keywords? || t.Aliases?)
    ensures v.Items? && |v.elts| < 0x1_0000 && forall i :: 0 <= i < |v.elts| ==> R.Fits(W.ElementShape(t), v.elts[i])
  {}

  lemma PlainShown(n: W.Value, v: W.Value)
    requires Shows(n, v, false) && !v.Node? && !v.Items?
    ensures n == v
  {}

  lemma SameKind(n: W.Value, v: W.Value)
    requires Shows(n, v, false) && v.Node?
    ensures n.Node? && n.kind == v.kind
  {}

  lemma ShownItems(n: W.Value, v: W.Value)
    requires Shows(n, v, false) && v.Items?
    ensures n.Items? && |n.elts| == |v.elts| && forall i :: 0 <= i < |v.elts| ==> Shows(n.elts[i], v.elts[i], false)
  {}

  /** The attribute of the tree that one of the object's shows, and the other way round. */
  lemma Shown(n: W.Value, v: W.Value, read: bool, i: nat) returns (j: nat)
    requires Shows(n, v, read) && v.Node? && n.Node? && i < |n.attrs| && (read || !Private(n.attrs[i].name))
    ensures j < |v.attrs| && ShowsAttr(n.attrs[i], v.attrs[j], read)
  {
    assert ShowsOne(n.attrs[i], v.attrs, read);
    j :| 0 <= j < |v.attrs| && ShowsAttr(n.attrs[i], v.attrs[j], read);
  }

  lemma Showing(n: W.Value, v: W.Value, read: bool, j: nat) returns (i: nat)
    requires Shows(n, v, read) && v.Node? && n.Node? && j < |v.attrs|
    ensures i < |n.attrs| && ShowsAttr(n.attrs[i], v.attrs[j], read) && !Private(v.attrs[j].name)
  {
    assert IsShown(n.attrs, v.attrs[j], read);
    i :| 0 <= i < |n.attrs| && ShowsAttr(n.attrs[i], v.attrs[j], read);
  }

  lemma SameForm(a: W.Attr, b: W.Attr)
    requires ShowsAttr(a, b, false)
    ensures a.name == b.name && (a.value.Real? <==> b.value.Real?) && (a.value.Items? <==> b.value.Items?)
    ensures a.value.Items? ==> |a.value.elts| == |b.value.elts|
  {}

  lemma SameFloat(n: W.Value, v: W.Value)
    requires Shows(n, v, false) && v.Node? && n.Node? && n.kind == v.kind
    ensures R.IsFloat(n) == R.IsFloat(v)
  {
    hide Shows, ShowsAttr;
    if R.IsFloat(n) {
      var a :| a in n.attrs && a.name == "n" && a.value.Real?;
      var i :| 0 <= i < |n.attrs| && n.attrs[i] == a;
      var j := Shown(n, v, false, i);
      SameForm(a, v.attrs[j]);
      assert v.attrs[j] in v.attrs;
    }
    if R.IsFloat(v) {
      var b :| b in v.attrs && b.name == "n" && b.value.Real?;
      var j :| 0 <= j < |v.attrs| && v.attrs[j] == b;
      var i := Showing(n, v, false, j);
      SameForm(n.attrs[i], b);
      assert n.attrs[i] in n.attrs;
    }
  }

  lemma SameBalance(n: W.Value, v: W.Value)
    requires Shows(n, v, false) && v.Node? && n.Node? && n.kind == v.kind && R.Balanced(v)
    ensures R.Balanced(n)
  {
    hide Shows, ShowsAttr;
    if n.kind == K.Compare { SameBalanced(n, v, "comparators", "ops"); }
    if n.kind == K.Dict { SameBalanced(n, v, "keys", "values"); }
  }

  lemma SameBalanced(n: W.Value, v: W.Value, a: string, b: string)
    requires Shows(n, v, false) && v.Node? && n.Node? && R.SameLengths(v.attrs, a, b) && !Private(a) && !Private(b)
    ensures R.SameLengths(n.attrs, a, b)
  {
    hide Shows, ShowsAttr;
    forall x, y | x in n.attrs && y in n.attrs && x.name == a && y.name == b && x.value.Items? && y.value.Items?
      ensures |x.value.elts| == |y.value.elts|
    {
      var i :| 0 <= i < |n.attrs| && n.attrs[i] == x;
      var k :| 0 <= k < |n.attrs| && n.attrs[k] == y;
      var j := Shown(n, v, false, i);
      var l := Shown(n, v, false, k);
      SameForm(x, v.attrs[j]);
      SameForm(y, v.attrs[l]);
      assert v.attrs[j] in v.attrs && v.attrs[l] in v.attrs;
    }
  }

  lemma ShownDistinct(n: W.Value, v: W.Value, read: bool)
    requires Shows(n, v, read) && v.Node?
    ensures n.Node? && n.kind == v.kind && O.DistinctNames(n.attrs)
  {}

  lemma {:induction false} ShownNodeFits(g: W.Group, n: W.Value, v: W.Value)
    requires R.NodeFits(g, v) && Shows(n, v, false)
    ensures R.NodeFits(g, n)
    decreases v, 1
  {
    hide Shows, ShowsAttr, W.Fields, Spelling, R.Fits, R.Balanced, R.IsFloat, W.InGroup;
    ShownDistinct(n, v, false);
    SameFloat(n, v);
    SameBalance(n, v);
    var fs := W.Fields(v.kind, R.IsFloat(v));
    forall a | a in W.Visible(n.attrs) ensures a.name in fs.Names() {
      var i :| 0 <= i < |n.attrs| && n.attrs[i] == a;
      var j := Shown(n, v, false, i);
      SameForm(a, v.attrs[j]);
      assert v.attrs[j] in W.Visible(v.attrs);
    }
    forall name | name in fs.Names() ensures exists a :: a in W.Visible(n.attrs) && a.name == name {
      var b :| b in W.Visible(v.attrs) && b.name == name;
      var j :| 0 <= j < |v.attrs| && v.attrs[j] == b;
      var i := Showing(n, v, false, j);
      SameForm(n.attrs[i], b);
      assert n.attrs[i] in W.Visible(n.attrs);
    }
    forall i | 0 <= i < |n.attrs| && !W.Hidden(n.attrs[i].name) && n.attrs[i].name in fs.Names()
      ensures R.Fits(R.ShapeOf(fs, n.attrs[i].name), n.attrs[i].value)
    {
      var j := Shown(n, v, false, i);
      SameForm(n.attrs[i], v.attrs[j]);
      ShownValue(n.attrs[i], v.attrs[j]);
      ShownFits(R.ShapeOf(fs, v.attrs[j].name), n.attrs[i].value, v.attrs[j].value);
    }
  }

  lemma ShownValue(a: W.Attr, b: W.Attr)
    requires ShowsAttr(a, b, false)
    ensures Shows(a.value, b.value, false)
  {}

  // ---- and what the reader makes of them --------------------------------------------------------

  /** The canonical object of one that shows a tree still shows it. */
  lemma {:induction false} CanonShows(n: W.Value, v: W.Value)
    requires Shows(n, v, false)
    ensures Shows(R.Canon(n), v, true)
    decreases v, 2
  {
    hide Shows, ShowsAttr;
    match v {
      case Items(elts) =>
        ShownItems(n, v);
        forall i | 0 <= i < |elts| ensures Shows(R.Canon(n).elts[i], elts[i], true) {
          CanonItemsAt(n, 0, i);
          CanonShows(n.elts[i], elts[i]);
        }
        ItemsShow(R.Canon(n), v);
      case Node(k, attrs) => CanonNodeShows(n, v);
      case _ =>
        PlainShown(n, v);
        R.CanonPlain(n);
        PlainShows(v);
    }
  }

  lemma PlainShows(v: W.Value)
    requires !v.Node? && !v.Items?
    ensures Shows(v, v, true)
  {}

  lemma ItemsShow(n: W.Value, v: W.Value)
    requires n.Items? && v.Items? && |n.elts| == |v.elts| && forall i :: 0 <= i < |v.elts| ==> Shows(n.elts[i], v.elts[i], true)
    ensures Shows(n, v, true)
  {}

  lemma {:induction false} CanonItemsAt(l: W.Value, i: nat, k: nat)
    requires l.Items? && i + k < |l.elts|
    ensures R.CanonItems(l, i)[k] == R.Canon(l.elts[i + k])
    decreases k
  {
    if k > 0 { CanonItemsAt(l, i + 1, k - 1); }
  }

  lemma NodeShows(n: W.Value, v: W.Value)
    requires n.Node? && v.Node? && n.kind == v.kind && O.DistinctNames(n.attrs)
    requires forall i :: 0 <= i < |n.attrs| ==> ShowsOne(n.attrs[i], v.attrs, true)
    requires forall j :: 0 <= j < |v.attrs| ==> !Private(v.attrs[j].name) && IsShown(n.attrs, v.attrs[j], true)
    ensures Shows(n, v, true)
  {}

  lemma {:induction false} CanonNodeShows(n: W.Value, v: W.Value)
    requires Shows(n, v, false) && v.Node?
    ensures Shows(R.Canon(n), v, true)
    decreases v, 1
  {
    hide Shows, ShowsAttr, ShowsOne, IsShown, Less, R.CanonAttrs, W.Sorted;
    ShownDistinct(n, v, false);
    var s := W.InOrder(n);
    var c := R.CanonAttrs(n, s);
    CanonIs(n);
    CanonDistinct(n);
    forall i | 0 <= i < |c| ensures ShowsOne(c[i], v.attrs, true) {
      R.CanonAttrsAt(n, s, i);
      assert s[i] in W.Visible(n.attrs) && s[i] in n.attrs;
      var k :| 0 <= k < |n.attrs| && n.attrs[k] == s[i];
      var j := Shown(n, v, false, k);
      CanonAttrShows(s[i], v.attrs[j]);
      ShowsAt(c[i], v.attrs, j);
    }
    forall j | 0 <= j < |v.attrs| ensures !Private(v.attrs[j].name) && IsShown(c, v.attrs[j], true) {
      var k := Showing(n, v, false, j);
      SameForm(n.attrs[k], v.attrs[j]);
      assert n.attrs[k] in W.Visible(n.attrs) && n.attrs[k] in s;
      var i :| 0 <= i < |s| && s[i] == n.attrs[k];
      R.CanonAttrsAt(n, s, i);
      CanonAttrShows(s[i], v.attrs[j]);
      ShownAt(c, v.attrs[j], i);
    }
    NodeShows(R.Canon(n), v);
  }

  lemma CanonIs(n: W.Value)
    requires n.Node?
    ensures R.Canon(n) == W.Node(n.kind, R.CanonAttrs(n, W.InOrder(n)))
  {}

  lemma ShowsAt(a: W.Attr, attrs: seq<W.Attr>, j: nat)
    requires j < |attrs| && ShowsAttr(a, attrs[j], true)
    ensures ShowsOne(a, attrs, true)
  {
    hide ShowsAttr;
  }

  lemma ShownAt(attrs: seq<W.Attr>, b: W.Attr, i: nat)
    requires i < |attrs| && ShowsAttr(attrs[i], b, true)
    ensures IsShown(attrs, b, true)
  {
    hide ShowsAttr;
  }

  lemma CanonDistinct(n: W.Value)
    requires n.Node? && O.DistinctNames(n.attrs)
    ensures O.DistinctNames(R.CanonAttrs(n, W.InOrder(n)))
  {
    hide Less, R.CanonAttrs, W.Sorted, W.Visible;
    var s := W.InOrder(n);
    O.VisibleDistinct(n.attrs);
    O.SortedAscends(W.Visible(n.attrs));
    AscendingDiffer(O.Names(s));
    forall i | 0 <= i < |s| ensures R.CanonAttrs(n, s)[i].name == O.Names(s)[i] { R.CanonAttrsAt(n, s, i); }
  }

  lemma {:induction false} CanonAttrShows(a: W.Attr, b: W.Attr)
    requires ShowsAttr(a, b, false)
    ensures ShowsAttr(W.Attr(a.name, R.CanonAttr(a.name, a.value)), b, true)
    decreases b, 0
  {
    hide Shows;
    if b.value.Null? {
      PlainShown(a.value, b.value);
      PlainShows(b.value);
    } else {
      assert !a.value.Null? by { NotNull(a.value, b.value); }
      CanonShows(a.value, b.value);
    }
  }

  lemma NotNull(n: W.Value, v: W.Value)
    requires Shows(n, v, false) && !v.Null?
    ensures !n.Null?
  {}

  // ---- the whole file -----------------------------------------------------------------------------

  /** The parser subprocess and the reader together: whatever objects show a module of the grammar,
      their bytes are written, and what the reader parses from them shows the same module. */
  lemma ModuleBack(m: Module, n: W.Value)
    requires Shows(n, OfModule(m), false)
    ensures W.Convert(n).Done? && var r := R.Parse(W.Convert(n).value); r.Done? && Shows(r.value, OfModule(m), true)
  {
    hide Shows, R.NodeFits, W.Convert, R.Parse, R.Canon, OfModule;
    ModuleFits(m);
    ShownNodeFits(W.Others, n, OfModule(m));
    SameKind(n, OfModule(m));
    R.FileBack(n);
    CanonShows(n, OfModule(m));
  }

  /** The two programs, one after the other, through the reader's sliding buffer. */
  method WriteAndParse(n: W.Value, ghost m: Module) returns (r: Result<W.Value>)
    requires Shows(n, OfModule(m), false)
    ensures r.Done? && Shows(r.value, OfModule(m), true)
  {
    hide Shows, W.Convert, R.Parse, OfModule;
    ModuleBack(m, n);
    var writer := new S.Writer();
    var written := writer.Convert(n);
    assert writer.out == W.Convert(n).value;
    var reader := new S.BufferedReader(writer.out);
    r := reader.Parse();
  }
}
