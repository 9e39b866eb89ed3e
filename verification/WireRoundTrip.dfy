/** Reading back what was written: for every syntax tree of the node kinds the reader supports, the
    reader gets the same tree and consumes exactly the bytes that were written for it. */
module WireRoundTrip {
  import opened Results
  import opened Commons
  import opened WireBytes
  import opened Wire
  import opened WireOrder
  import opened AttributeNames
  import K = AstKinds

  // ---- the trees the reader supports ------------------------------------------------------------

  predicate IsFloat(n: Value)
    requires n.Node?
  {
    n.kind == K.Num && exists a :: a in n.attrs && a.name == "n" && a.value.Real?
  }

  /** v is what a field of the given shape may hold. */
  ghost predicate Fits(t: Shape, v: Value)
    decreases v, 1
  {
    match t
    case Text => v.Str? && |v.s| < 0x1_0000
    case OptText => v.Null? || (v.Str? && |v.s| < 0x1_0000)
    case Column => v.Number? && 0 <= v.n < 100000
    case Line => v.Number? && 0 <= v.n < TWO_32
    case Int => v.Number? && -TWO_63 <= v.n < TWO_63
    case Float => v.Real? && v.bits < TWO_64
    case Flag => v.Truth?
    case Code => v.Op? && K.IsOp(v.op)
    case Expr => v.Null? || NodeFits(Expressions, v)
    case Stmt => v.Null? || NodeFits(Statements, v)
    case Misc => v.Null? || NodeFits(Others, v)
    case Present => NodeFits(Expressions, v)
    case Keyword => NodeFits(Others, v) && v.kind == K.Keyword
    case Alias => NodeFits(Others, v) && v.kind == K.Alias
    case _ => v.Items? && |v.elts| < 0x1_0000 && forall i :: 0 <= i < |v.elts| ==> Fits(ElementShape(t), v.elts[i])
  }

  /** A node of the group, with exactly the attributes its kind has, each fitting its field. */
  ghost predicate NodeFits(g: Group, n: Value)
    decreases n, 0
  {
    n.Node? && InGroup(n.kind, g) && DistinctNames(n.attrs) &&
    var fs := Fields(n.kind, IsFloat(n));
    && (forall a :: a in Visible(n.attrs) ==> a.name in fs.Names())
    && (forall name :: name in fs.Names() ==> exists a :: a in Visible(n.attrs) && a.name == name)
    && (forall i {:trigger n.attrs[i]} :: 0 <= i < |n.attrs| && !Hidden(n.attrs[i].name) && n.attrs[i].name in fs.Names() ==>
          Fits(ShapeOf(fs, n.attrs[i].name), n.attrs[i].value))
    && Balanced(n)
  }

  function ShapeOf(fs: FieldList, name: string): Shape
    requires name in fs.Names()
  {
    if Spelling(fs.attribute) == name then fs.shape else ShapeOf(fs.rest, name)
  }

  /** What Python guarantees: a comparison's operators match its comparators, a dict's values its keys. */
  predicate Balanced(n: Value)
    requires n.Node?
  {
    match n.kind
    case Compare => SameLengths(n.attrs, "comparators", "ops")
    case Dict => SameLengths(n.attrs, "keys", "values")
    case _ => true
  }

  predicate SameLengths(attrs: seq<Attr>, a: string, b: string) {
    forall x, y :: x in attrs && y in attrs && x.name == a && y.name == b && x.value.Items? && y.value.Items? ==>
      |x.value.elts| == |y.value.elts|
  }

  // ---- the tree the reader builds ---------------------------------------------------------------

  /** The same tree with its attributes in the order of their names, private ones dropped. */
  function Canon(v: Value): Value
    decreases v, 3, 0
  {
    match v
    case Items(elts) => Items(CanonItems(v, 0))
    case Node(k, attrs) => Node(k, CanonAttrs(v, InOrder(v)))
    case _ => v
  }

  function CanonItems(l: Value, i: nat): (r: seq<Value>)
    requires l.Items? && i <= |l.elts|
    ensures |r| == |l.elts| - i
    decreases l, 1, |l.elts| - i
  {
    if i == |l.elts| then [] else [Canon(l.elts[i])] + CanonItems(l, i + 1)
  }

  function CanonAttrs(n: Value, todo: seq<Attr>): (r: seq<Attr>)
    requires n.Node? && forall a :: a in todo ==> a in n.attrs
    ensures |r| == |todo|
    decreases n, 2, |todo|
  {
    if todo == [] then []
    else
      assert todo[0] in n.attrs;
      var rest := todo[1..];
      assert forall a :: a in rest ==> a in todo;
      [Attr(todo[0].name, if todo[0].value.Null? then Blank(todo[0].name, Null) else Canon(todo[0].value))] + CanonAttrs(n, rest)
  }

  function CanonAttr(name: string, v: Value): Value {
    if v.Null? then Blank(name, v) else Canon(v)
  }

  /** The canonical tree has the original's attributes, each once and in canonical form. */
  lemma {:induction false} CanonAttrsAt(n: Value, todo: seq<Attr>, i: nat)
    requires n.Node? && (forall a :: a in todo ==> a in n.attrs) && i < |todo|
    ensures CanonAttrs(n, todo)[i] == Attr(todo[i].name, CanonAttr(todo[i].name, todo[i].value))
  {
    if i > 0 {
      var rest := todo[1..];
      assert forall a :: a in rest ==> a in todo;
      CanonAttrsAt(n, rest, i - 1);
    }
  }

  lemma CanonKeeps(n: Value, a: Attr)
    requires n.Node? && a in n.attrs && !Hidden(a.name)
    ensures Attr(a.name, CanonAttr(a.name, a.value)) in Canon(n).attrs
    ensures |Canon(n).attrs| == |Visible(n.attrs)|
  {
    var s := InOrder(n);
    assert a in Visible(n.attrs);
    var i :| 0 <= i < |s| && s[i] == a;
    CanonAttrsAt(n, s, i);
  }

  // ---- the attributes in wire order -------------------------------------------------------------

  /** A supported node's attributes, in the order they are written, are those of the reader's table. */
  lemma OrderIsTable(g: Group, n: Value)
    requires NodeFits(g, n)
    ensures Names(InOrder(n)) == Fields(n.kind, IsFloat(n)).Names()
  {
    hide Less, Visible, Sorted, Fields, Fits;
    var fs := Fields(n.kind, IsFloat(n));
    VisibleDistinct(n.attrs);
    SortedAscends(Visible(n.attrs));
    FieldsAscend(n.kind, IsFloat(n));
    var a := Names(InOrder(n));
    forall name ensures name in a <==> name in fs.Names() {
      if name in a {
        var i :| 0 <= i < |a| && a[i] == name;
        assert InOrder(n)[i] in Visible(n.attrs);
      }
      if name in fs.Names() {
        var x :| x in Visible(n.attrs) && x.name == name;
        assert x in InOrder(n);
        var i :| 0 <= i < |a| && InOrder(n)[i] == x;
        assert a[i] == name;
      }
    }
    SameNames(a, fs.Names());
  }

  /** The attributes still to be written match the fields still to be read. */
  ghost predicate Aligned(todo: seq<Attr>, fs: FieldList)
  {
    if fs.End? then todo == []
    else todo != [] && todo[0].name == Spelling(fs.attribute) && Fits(fs.shape, todo[0].value) && Aligned(todo[1..], fs.rest)
  }

  lemma NodeAligned(g: Group, n: Value)
    requires NodeFits(g, n)
    ensures Aligned(InOrder(n), Fields(n.kind, IsFloat(n)))
  {
    OrderIsTable(g, n);
    FieldsAscend(n.kind, IsFloat(n));
    hide Fields, Visible, Sorted, Less;
    forall a | a in InOrder(n) ensures Fits(ShapeOf(Fields(n.kind, IsFloat(n)), a.name), a.value) {
      assert a in Visible(n.attrs) && a in n.attrs;
      var i :| 0 <= i < |n.attrs| && n.attrs[i] == a;
    }
    AlignedFrom(InOrder(n), Fields(n.kind, IsFloat(n)));
  }

  lemma {:induction false} AlignedFrom(todo: seq<Attr>, fs: FieldList)
    requires Names(todo) == fs.Names() && Ascending(fs.Names())
    requires forall a :: a in todo && a.name in fs.Names() ==> Fits(ShapeOf(fs, a.name), a.value)
    ensures Aligned(todo, fs)
  {
    hide Less, Fits, Spelling, Names;
    SplitNames(todo, fs);
    if fs.Then? {
      var rest := todo[1..];
      Tail(fs.Names());
      assert fs.Names()[1..] == fs.rest.Names();
      forall a | a in rest && a.name in fs.rest.Names() ensures Fits(ShapeOf(fs.rest, a.name), a.value) {
        assert a in todo && a.name != Spelling(fs.attribute);
      }
      assert todo[0] in todo && Fits(ShapeOf(fs, todo[0].name), todo[0].value);
      AlignedFrom(rest, fs.rest);
    }
  }

  lemma SplitNames(todo: seq<Attr>, fs: FieldList)
    requires Names(todo) == fs.Names()
    ensures fs.End? ==> todo == []
    ensures fs.Then? ==> todo != [] && todo[0].name == Spelling(fs.attribute) && Names(todo[1..]) == fs.rest.Names()
  {
    hide Less, Spelling;
    assert |todo| == |fs.Names()|;
    if fs.Then? {
      assert Names(todo)[0] == fs.Names()[0];
      var rest := todo[1..];
      forall i | 0 <= i < |rest| ensures Names(rest)[i] == fs.rest.Names()[i] { assert Names(todo)[i + 1] == fs.Names()[i + 1]; }
    }
  }

  // ---- facts about the tables ---------------------------------------------------------------------

  lemma SpellingDetermines(l: Label, m: Label)
    requires Spelling(l) == Spelling(m)
    ensures Rank(l) == Rank(m)
  {
    hide Less, Spelling;
    LessTotal(Spelling(l), Spelling(m));
    if Rank(l) < Rank(m) { RanksAscend(l, m); }
    if Rank(m) < Rank(l) { RanksAscend(m, l); }
  }

  lemma MayBeBlank(l: Label)
    ensures Spelling(l) == "vararg" || Spelling(l) == "asname" <==> l == NVararg || l == NAsname
  {
    assert Spelling(NVararg) == "vararg" && Spelling(NAsname) == "asname";
    if Spelling(l) == "vararg" {
      SpellingDetermines(l, NVararg);
      assert Rank(l) == 44;
    }
    if Spelling(l) == "asname" {
      SpellingDetermines(l, NAsname);
      assert Rank(l) == 2;
    }
  }

  // ---- one thing after another ------------------------------------------------------------------

  /** What was written for v, followed by anything, reads as w and leaves that. */
  ghost predicate ReadsBack(t: Shape, written: Result<seq<byte>>, w: Value, rest: seq<byte>) {
    written.Done? && ReadField(t, written.value + rest) == Done((w, rest))
  }

  /** A field of plain data. */
  lemma PlainBack(k: K.Kind, l: Label, t: Shape, v: Value, rest: seq<byte>)
    requires Fits(t, v) && (t.OptText? <==> l.NVararg? || l.NAsname?)
    requires t.Text? || t.OptText? || t.Column? || t.Line? || t.Int? || t.Float? || t.Flag? || t.Code?
    ensures ReadsBack(t, ConvertAttr(k, Spelling(l), v), CanonAttr(Spelling(l), v), rest)
  {
    hide Spelling, WireBytes.Text, ULL, Quad, ReadULL, ReadText, K.TypeMap, K.AstType;
    MayBeBlank(l);
    match v
    case Null => TextBack([], rest);
    case Str(s) => TextBack(s, rest);
    case Number(n) => QuadBack(n, rest);
    case Real(bits) => ULLBack(bits, rest);
    case Truth(b) => assert ([if b then 1 else 0 as byte] + rest)[1..] == rest;
    case Op(o) => OpBack(o, rest);
    case _ =>
  }

  lemma OpBack(o: K.Kind, rest: seq<byte>)
    requires K.IsOp(o)
    ensures ReadsBack(Code, Convert(Op(o)), Op(o), rest)
  {
    hide K.TypeMap, K.AstType;
    K.TablesAgree(o);
    assert ([K.TypeMap(o) as byte] + rest)[1..] == rest;
  }

  lemma {:induction false} FieldBack(k: K.Kind, l: Label, t: Shape, v: Value, rest: seq<byte>)
    requires Fits(t, v) && (t.OptText? <==> l.NVararg? || l.NAsname?)
    requires (t.Texts? ==> k.Global?) && (k.Global? ==> t.Column? || t.Line? || t.Texts?)
    ensures ReadsBack(t, ConvertAttr(k, Spelling(l), v), CanonAttr(Spelling(l), v), rest)
    decreases v, 4, 0
  {
    hide Spelling, ReadsBack, ConvertAttr, ReadField, ReadNode, ReadItems, ConvertItems, Convert, Canon, CanonItems, NodeFits;
    if t.Text? || t.OptText? || t.Column? || t.Line? || t.Int? || t.Float? || t.Flag? || t.Code? {
      PlainBack(k, l, t, v, rest);
    } else if NodeShape(t) {
      NodeBack(GroupOf(t), v, rest);
      NodeFieldBack(k, l, t, v, rest);
    } else {
      ItemsBack(ElementShape(t), v, 0, k.Global?, rest);
      ListBack(k, l, t, v, rest);
    }
  }

  predicate NodeShape(t: Shape) {
    t.Expr? || t.Present? || t.Stmt? || t.Misc? || t.Keyword? || t.Alias?
  }

  function GroupOf(t: Shape): Group {
    if t.Expr? || t.Present? then Expressions else if t.Stmt? then Statements else Others
  }

  lemma NodeFieldBack(k: K.Kind, l: Label, t: Shape, v: Value, rest: seq<byte>)
    requires NodeShape(t) && Fits(t, v) && !l.NVararg? && !l.NAsname?
    requires Convert(v).Done? && ReadNode(GroupOf(t), Convert(v).value + rest) == Done((Canon(v), rest))
    ensures ReadsBack(t, ConvertAttr(k, Spelling(l), v), CanonAttr(Spelling(l), v), rest)
  {
    hide Spelling, Convert, ReadNode, NodeFits, Fits, ConvertAttr, Canon, CanonAttr, ReadsBack;
    FitsNode(t, v);
    NodeElementBack(t, v, rest);
    NotBlank(k, l, v);
  }

  lemma NotBlank(k: K.Kind, l: Label, v: Value)
    requires (v.Null? || v.Node?) && !l.NVararg? && !l.NAsname?
    ensures ConvertAttr(k, Spelling(l), v) == Convert(v) && CanonAttr(Spelling(l), v) == Canon(v)
  {
    hide Spelling;
    MayBeBlank(l);
  }

  lemma FitsNode(t: Shape, v: Value)
    requires NodeShape(t) && Fits(t, v)
    ensures v.Null? || v.Node?
    ensures t.Present? ==> v.Node?
    ensures t.Keyword? ==> v.Node? && v.kind == K.Keyword
    ensures t.Alias? ==> v.Node? && v.kind == K.Alias
  {}

  lemma CanonShape(v: Value)
    requires v.Null? || v.Node?
    ensures v.Null? ==> Canon(v) == Null
    ensures v.Node? ==> Canon(v).Node? && Canon(v).kind == v.kind
  {}

  lemma ListBack(k: K.Kind, l: Label, t: Shape, v: Value, rest: seq<byte>)
    requires v.Items? && |v.elts| < 0x1_0000 && (t.Codes? || t.Texts? || t.Exprs? || t.Stmts? || t.Keywords? || t.Aliases?)
    requires ConvertItems(v, 0, k.Global?).Done?
    requires ReadItems(ElementShape(t), |v.elts|, ConvertItems(v, 0, k.Global?).value + rest) == Done((CanonItems(v, 0), rest))
    ensures ReadsBack(t, ConvertAttr(k, Spelling(l), v), CanonAttr(Spelling(l), v), rest)
  {
    hide ReadShort, Short, ReadItems, ConvertItems;
    var body := ConvertItems(v, 0, k.Global?).value;
    assert (Short(|v.elts|) + body) + rest == Short(|v.elts|) + (body + rest);
    ShortBack(|v.elts|, body + rest);
  }

  lemma {:induction false} ItemsBack(t: Shape, l: Value, i: nat, strings: bool, rest: seq<byte>)
    requires l.Items? && i <= |l.elts| && (strings <==> t.Text?)
    requires t.Code? || t.Text? || t.Expr? || t.Stmt? || t.Keyword? || t.Alias?
    requires forall j :: i <= j < |l.elts| ==> Fits(t, l.elts[j])
    ensures ConvertItems(l, i, strings).Done?
    ensures ReadItems(t, |l.elts| - i, ConvertItems(l, i, strings).value + rest) == Done((CanonItems(l, i), rest))
    decreases l, 2, |l.elts| - i
  {
    hide Fits, Convert, PrintStr, ReadField, Canon;
    if i < |l.elts| {
      ItemsBack(t, l, i + 1, strings, rest);
      var others := ConvertItems(l, i + 1, strings).value;
      ElementBack(t, l.elts[i], strings, others + rest);
      FitsText(t, l.elts[i]);
      ItemAssembled(t, l, i, strings, rest);
    } else {
      assert [] + rest == rest;
    }
  }

  lemma FitsText(t: Shape, v: Value)
    requires Fits(t, v)
    ensures t.Text? ==> v.Str?
  {}

  lemma ItemAssembled(t: Shape, l: Value, i: nat, strings: bool, rest: seq<byte>)
    requires l.Items? && i < |l.elts| && (strings ==> l.elts[i].Str?) && ConvertItems(l, i + 1, strings).Done?
    requires var others := ConvertItems(l, i + 1, strings).value;
      && ReadItems(t, |l.elts| - i - 1, others + rest) == Done((CanonItems(l, i + 1), rest))
      && ReadsBack(t, if strings then PrintStr(l.elts[i].s) else Convert(l.elts[i]), Canon(l.elts[i]), others + rest)
    ensures ConvertItems(l, i, strings).Done?
    ensures ReadItems(t, |l.elts| - i, ConvertItems(l, i, strings).value + rest) == Done((CanonItems(l, i), rest))
  {
    hide Convert, PrintStr, ReadField, Canon;
    var others := ConvertItems(l, i + 1, strings).value;
    var first := if strings then PrintStr(l.elts[i].s) else Convert(l.elts[i]);
    assert ConvertItems(l, i, strings).value == first.value + others;
    assert first.value + others + rest == first.value + (others + rest);
  }

  lemma {:induction false} ElementBack(t: Shape, v: Value, strings: bool, rest: seq<byte>)
    requires Fits(t, v) && (strings <==> t.Text?)
    requires t.Code? || t.Text? || t.Expr? || t.Stmt? || t.Keyword? || t.Alias?
    ensures ReadsBack(t, if strings then PrintStr(v.s) else Convert(v), Canon(v), rest)
    decreases v, 3, 0
  {
    hide NodeFits, Convert, ReadNode, Canon, PrintStr;
    if t.Code? {
      OpBack(v.op, rest);
      assert Canon(v) == v by { CanonPlain(v); }
    } else if t.Text? {
      StrBack(v.s, rest);
      CanonPlain(v);
    } else {
      NodeBack(GroupOf(t), v, rest);
      NodeElementBack(t, v, rest);
    }
  }

  lemma CanonPlain(v: Value)
    ensures !v.Items? && !v.Node? ==> Canon(v) == v
  {}

  lemma StrBack(s: seq<byte>, rest: seq<byte>)
    requires |s| < 0x1_0000
    ensures ReadsBack(Shape.Text, PrintStr(s), Str(s), rest)
  {
    hide WireBytes.Text, ReadText;
    TextBack(s, rest);
  }

  lemma NodeElementBack(t: Shape, v: Value, rest: seq<byte>)
    requires NodeShape(t) && Fits(t, v)
    requires Convert(v).Done? && ReadNode(GroupOf(t), Convert(v).value + rest) == Done((Canon(v), rest))
    ensures ReadsBack(t, Convert(v), Canon(v), rest)
  {
    hide Convert, ReadNode, NodeFits;
    FitsNode(t, v);
    CanonShape(v);
  }

  lemma {:induction false} NodeBack(g: Group, n: Value, rest: seq<byte>)
    requires n.Null? || NodeFits(g, n)
    ensures Convert(n).Done? && ReadNode(g, Convert(n).value + rest) == Done((Canon(n), rest))
    decreases n, 2, 1
  {
    if n.Null? {
      assert ([0 as byte] + rest)[1..] == rest;
    } else {
      hide Fits, NodeFits, Fields, K.TypeMap, K.AstType, Visible, Sorted, CanonAttrs, ReadFields, ConvertAttrs,
        NumMarker, ReadNode, Convert, Aligned, TableOk;
      NodeAligned(g, n);
      TablesOk(n.kind, IsFloat(n));
      AttrsBack(n, InOrder(n), Fields(n.kind, IsFloat(n)), rest);
      NodeAssembled(g, n, rest);
    }
  }

  lemma NodeAssembled(g: Group, n: Value, rest: seq<byte>)
    requires NodeFits(g, n) && ConvertAttrs(n, InOrder(n)).Done?
    requires ReadFields(Fields(n.kind, IsFloat(n)), ConvertAttrs(n, InOrder(n)).value + rest) == Done((CanonAttrs(n, InOrder(n)), rest))
    ensures Convert(n).Done? && ReadNode(g, Convert(n).value + rest) == Done((Canon(n), rest))
  {
    hide Fits, NodeFits, Fields, K.TypeMap, K.AstType, Consistent, Visible, Sorted, CanonAttrs, ReadFields,
      ConvertAttrs, NumMarker, ReadMarker, InGroup;
    KindKnown(g, n);
    MarkerBack(g, n);
    CanonConsistent(g, n);
    var marker, body := NumMarker(n).value, ConvertAttrs(n, InOrder(n)).value;
    MarkerRead(n, marker, body + rest);
    var code := K.TypeMap(n.kind) as byte;
    var all := Convert(n).value + rest;
    assert all == [code, 0xae] + (marker + (body + rest));
    assert all[1..][1..] == marker + (body + rest);
  }

  lemma KindKnown(g: Group, n: Value)
    requires NodeFits(g, n)
    ensures n.Node? && InGroup(n.kind, g) && 0 < K.TypeMap(n.kind) < 256 && K.AstType(K.TypeMap(n.kind)) == n.kind
  {
    hide K.TypeMap, K.AstType, Fields, Fits;
    assert !n.kind.Other?;
    K.TablesAgree(n.kind);
  }

  lemma MarkerBack(g: Group, n: Value)
    requires NodeFits(g, n)
    ensures NumMarker(n) == Done(if n.kind != K.Num then [] else if IsFloat(n) then [0x20] else [0x10])
  {
    hide Spelling, Fields, Visible, Fits;
    if n.kind == K.Num {
      NumShape(IsFloat(n));
      var a := AttrNamed(g, n, "n");
      FitsNumber(ShapeOf(Fields(n.kind, IsFloat(n)), "n"), a.value);
    }
  }

  lemma FitsNumber(t: Shape, v: Value)
    requires Fits(t, v)
    ensures t.Int? ==> v.Number?
    ensures t.Float? ==> v.Real?
  {}

  /** The one attribute of a name. */
  lemma AttrNamed(g: Group, n: Value, name: string) returns (a: Attr)
    requires n.Node? && NodeFits(g, n) && name in Fields(n.kind, IsFloat(n)).Names()
    ensures a in n.attrs && a.name == name && Fits(ShapeOf(Fields(n.kind, IsFloat(n)), name), a.value)
    ensures forall x :: x in n.attrs && x.name == name ==> x == a
  {
    hide Spelling, Fields, Fits, Balanced;
    a :| a in Visible(n.attrs) && a.name == name;
    var i :| 0 <= i < |n.attrs| && n.attrs[i] == a;
    forall x | x in n.attrs && x.name == name ensures x == a {
      var j :| 0 <= j < |n.attrs| && n.attrs[j] == x;
    }
  }

  lemma NumShape(float: bool)
    ensures var fs := Fields(K.Num, float); "n" in fs.Names() && ShapeOf(fs, "n") == if float then Float else Int
  {
    var fs := Fields(K.Num, float);
    assert Spelling(NN) == "n" && Spelling(NColOffset) != "n" && Spelling(NLineno) != "n";
    assert fs == Then(NColOffset, Column, Then(NLineno, Line, Then(NN, if float then Float else Int, End)));
    hide Fields, Spelling;
    assert fs.rest.rest.Names()[0] == "n" && fs.Names()[2] == "n";
  }

  lemma MarkerRead(n: Value, marker: seq<byte>, rest: seq<byte>)
    requires n.Node? && marker == if n.kind != K.Num then [] else if IsFloat(n) then [0x20] else [0x10]
    ensures ReadMarker(n.kind, marker + rest) == Done((IsFloat(n), rest))
  {
    if n.kind != K.Num {
      assert marker + rest == rest;
    } else {
      assert (marker + rest)[1..] == rest;
    }
  }

  lemma {:induction false} AttrsBack(n: Value, todo: seq<Attr>, fs: FieldList, rest: seq<byte>)
    requires n.Node? && (forall a :: a in todo ==> a in n.attrs) && Aligned(todo, fs) && TableOk(n.kind, fs)
    ensures ConvertAttrs(n, todo).Done?
    ensures ReadFields(fs, ConvertAttrs(n, todo).value + rest) == Done((CanonAttrs(n, todo), rest))
    decreases n, 1, |todo|
  {
    hide Fits, Spelling, ReadsBack, ConvertAttr, CanonAttr, ReadField, Canon, Convert;
    if fs.End? {
      assert [] + rest == rest;
    } else {
      var a, later := todo[0], todo[1..];
      assert a in todo && a in n.attrs;
      assert forall x :: x in later ==> x in todo;
      AttrsBack(n, later, fs.rest, rest);
      var others := ConvertAttrs(n, later).value;
      FieldBack(n.kind, fs.attribute, fs.shape, a.value, others + rest);
      AttrAssembled(n, todo, fs, rest);
    }
  }

  lemma AttrAssembled(n: Value, todo: seq<Attr>, fs: FieldList, rest: seq<byte>)
    requires n.Node? && fs.Then? && todo != [] && (forall a :: a in todo ==> a in n.attrs) && (forall a :: a in todo[1..] ==> a in n.attrs)
    requires todo[0].name == Spelling(fs.attribute) && ConvertAttrs(n, todo[1..]).Done?
    requires ReadFields(fs.rest, ConvertAttrs(n, todo[1..]).value + rest) == Done((CanonAttrs(n, todo[1..]), rest))
    requires ReadsBack(fs.shape, ConvertAttr(n.kind, todo[0].name, todo[0].value), CanonAttr(todo[0].name, todo[0].value),
               ConvertAttrs(n, todo[1..]).value + rest)
    ensures ConvertAttrs(n, todo).Done?
    ensures ReadFields(fs, ConvertAttrs(n, todo).value + rest) == Done((CanonAttrs(n, todo), rest))
  {
    hide ConvertAttr, ReadField, Spelling, Canon;
    var a, later := todo[0], todo[1..];
    assert a in todo;
    var first, others := ConvertAttr(n.kind, a.name, a.value), ConvertAttrs(n, later).value;
    assert ConvertAttrs(n, todo).value == first.value + others;
    assert first.value + others + rest == first.value + (others + rest);
  }

  function Drop(fs: FieldList, i: nat): FieldList
    requires i <= fs.Length()
  {
    if i == 0 then fs else Drop(fs.rest, i - 1)
  }

  lemma {:induction false} AlignedAt(todo: seq<Attr>, fs: FieldList, i: nat)
    requires Aligned(todo, fs) && i < fs.Length()
    ensures |todo| == fs.Length()
    ensures var f := Drop(fs, i); f.Then? && todo[i].name == Spelling(f.attribute) && Fits(f.shape, todo[i].value)
  {
    hide Fits, Spelling;
    if i > 0 {
      AlignedAt(todo[1..], fs.rest, i - 1);
    } else {
      AlignedLength(todo, fs);
    }
  }

  lemma {:induction false} AlignedLength(todo: seq<Attr>, fs: FieldList)
    requires Aligned(todo, fs)
    ensures |todo| == fs.Length()
  {
    hide Fits, Spelling;
    if fs.Then? { AlignedLength(todo[1..], fs.rest); }
  }

  /** The asserts of read_compare and read_dict hold of what is read back. */
  lemma CanonConsistent(g: Group, n: Value)
    requires n.Node? && NodeFits(g, n)
    ensures Consistent(Node(n.kind, CanonAttrs(n, InOrder(n))))
  {
    hide Spelling, Fields, Fits, Aligned, Visible, Sorted, InGroup, NodeFits, SameLengths;
    NodeAligned(g, n);
    IsBalanced(g, n);
    AlignedLength(InOrder(n), Fields(n.kind, IsFloat(n)));
    if n.kind == K.Compare {
      CompareTable(IsFloat(n));
      TwoLists(g, n, 1, 4);
    }
    if n.kind == K.Dict {
      DictTable(IsFloat(n));
      TwoLists(g, n, 1, 3);
    }
  }

  lemma IsBalanced(g: Group, n: Value)
    requires NodeFits(g, n)
    ensures n.Node? && Balanced(n)
  {
    hide Fits, Fields;
  }

  lemma CompareTable(float: bool)
    ensures var fs := Fields(K.Compare, float);
      && fs.Length() == 5 && Drop(fs, 1).Then? && Drop(fs, 4).Then? && Drop(fs, 1).attribute == NComparators && Drop(fs, 1).shape == Exprs
      && Drop(fs, 4).attribute == NOps && Drop(fs, 4).shape == Codes
    ensures Spelling(NComparators) == "comparators" && Spelling(NOps) == "ops"
  {}

  lemma DictTable(float: bool)
    ensures var fs := Fields(K.Dict, float);
      && fs.Length() == 4 && Drop(fs, 1).Then? && Drop(fs, 3).Then? && Drop(fs, 1).attribute == NKeys && Drop(fs, 1).shape == Exprs
      && Drop(fs, 3).attribute == NValues && Drop(fs, 3).shape == Exprs
    ensures Spelling(NKeys) == "keys" && Spelling(NValues) == "values"
  {}

  lemma TwoLists(g: Group, n: Value, i: nat, j: nat)
    requires n.Node? && NodeFits(g, n) && i < Fields(n.kind, IsFloat(n)).Length() && j < Fields(n.kind, IsFloat(n)).Length()
    requires Drop(Fields(n.kind, IsFloat(n)), i).Then? && Drop(Fields(n.kind, IsFloat(n)), i).shape == Exprs
    requires Drop(Fields(n.kind, IsFloat(n)), j).Then? && (Drop(Fields(n.kind, IsFloat(n)), j).shape.Exprs? || Drop(Fields(n.kind, IsFloat(n)), j).shape.Codes?)
    requires SameLengths(n.attrs, Spelling(Drop(Fields(n.kind, IsFloat(n)), i).attribute), Spelling(Drop(Fields(n.kind, IsFloat(n)), j).attribute))
    ensures var s := CanonAttrs(n, InOrder(n));
      && i < |s| && j < |s| && s[i].value.Items? && s[j].value.Items? && |s[i].value.elts| == |s[j].value.elts|
  {
    hide Spelling, Fields, Aligned, Visible, Sorted, InGroup, NodeFits, Fits, Drop, CanonAttrs, CanonAttr;
    var s, fs := InOrder(n), Fields(n.kind, IsFloat(n));
    NodeAligned(g, n);
    AlignedAt(s, fs, i);
    AlignedAt(s, fs, j);
    assert s[i] in n.attrs && s[j] in n.attrs;
    FitsItems(Drop(fs, i).shape, s[i].value);
    FitsItems(Drop(fs, j).shape, s[j].value);
    CanonAttrsAt(n, s, i);
    CanonAttrsAt(n, s, j);
    CanonLength(s[i].name, s[i].value);
    CanonLength(s[j].name, s[j].value);
  }

  lemma FitsItems(t: Shape, v: Value)
    requires Fits(t, v) && (t.Exprs? || t.Codes?)
    ensures v.Items?
  {}

  lemma CanonLength(name: string, v: Value)
    requires v.Items?
    ensures CanonAttr(name, v).Items? && |CanonAttr(name, v).elts| == |v.elts|
  {}

  // ---- the whole file ---------------------------------------------------------------------------

  /** parse: one module, and nothing after it. */
  function Parse(s: seq<byte>): Result<Value> {
    var m :- ReadNode(Others, s);
    if m.1 == [] && m.0.Node? && m.0.kind == K.Module then Done(m.0) else Aborted
  }

  /** The reader parses what the writer wrote of a module into the same module. */
  lemma FileBack(n: Value)
    requires NodeFits(Others, n) && n.kind == K.Module
    ensures Convert(n).Done? && Parse(Convert(n).value) == Done(Canon(n))
  {
    hide NodeFits, ReadNode, Convert, Canon;
    NodeBack(Others, n, []);
    assert Convert(n).value + [] == Convert(n).value;
    assert n.Node? by { FitsIsNode(n); }
    CanonShape(n);
  }

  lemma FitsIsNode(n: Value)
    requires NodeFits(Others, n)
    ensures n.Node?
  {}
}
