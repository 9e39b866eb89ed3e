/** The order of attributes on the wire: the writer sorts an object's attributes by name, and every
    read_* function expects them in just that order. */
module WireOrder {
  import opened Wire
  import opened AttributeNames
  import K = AstKinds

  ghost predicate Ascending(names: seq<string>) {
    forall i, j {:trigger names[i], names[j]} :: 0 <= i < j < |names| ==> Less(names[i], names[j])
  }

  function Names(attrs: seq<Attr>): (r: seq<string>)
    ensures |r| == |attrs| && forall i :: 0 <= i < |r| ==> r[i] == attrs[i].name
  {
    seq(|attrs|, i requires 0 <= i < |attrs| => attrs[i].name)
  }

  ghost predicate DistinctNames(attrs: seq<Attr>) {
    forall i, j {:trigger attrs[i], attrs[j]} :: 0 <= i < j < |attrs| ==> attrs[i].name != attrs[j].name
  }

  lemma {:induction false} InsertAscends(a: Attr, s: seq<Attr>)
    requires Ascending(Names(s)) && forall x :: x in s ==> x.name != a.name
    ensures Ascending(Names(Insert(a, s)))
  {
    if s == [] {
    } else if Less(a.name, s[0].name) {
      var r := [a] + s;
      forall i, j | 0 <= i < j < |r| ensures Less(Names(r)[i], Names(r)[j]) {
        if i == 0 && j > 1 { LessTransitive(a.name, Names(s)[0], Names(s)[j - 1]); }
        if i > 0 { assert Less(Names(s)[i - 1], Names(s)[j - 1]); }
      }
    } else {
      var t := s[1..];
      assert forall x :: x in t ==> x in s;
      forall i, j | 0 <= i < j < |t| ensures Less(Names(t)[i], Names(t)[j]) { assert Less(Names(s)[i + 1], Names(s)[j + 1]); }
      InsertAscends(a, t);
      var r, u := [s[0]] + Insert(a, t), Insert(a, t);
      assert s[0] in s;
      LessTotal(a.name, s[0].name);
      forall i, j | 0 <= i < j < |r| ensures Less(Names(r)[i], Names(r)[j]) {
        if i == 0 {
          assert r[j] == u[j - 1] && u[j - 1] in u;
          if r[j] != a {
            var k :| 0 <= k < |t| && t[k] == r[j];
            assert Less(Names(s)[0], Names(s)[k + 1]);
          }
        } else {
          assert Less(Names(u)[i - 1], Names(u)[j - 1]);
        }
      }
    }
  }

  lemma {:induction false} SortedAscends(attrs: seq<Attr>)
    requires DistinctNames(attrs)
    ensures Ascending(Names(Sorted(attrs)))
  {
    if attrs != [] {
      var t := attrs[1..];
      forall i, j | 0 <= i < j < |t| ensures t[i].name != t[j].name { assert t[i] == attrs[i + 1] && t[j] == attrs[j + 1]; }
      SortedAscends(t);
      forall x | x in Sorted(t) ensures x.name != attrs[0].name {
        var k :| 0 <= k < |t| && t[k] == x;
        assert attrs[0].name != attrs[k + 1].name;
      }
      InsertAscends(attrs[0], Sorted(t));
    }
  }

  lemma {:induction false} VisibleDistinct(attrs: seq<Attr>)
    requires DistinctNames(attrs)
    ensures DistinctNames(Visible(attrs))
  {
    if attrs != [] {
      var t := attrs[1..];
      forall i, j | 0 <= i < j < |t| ensures t[i].name != t[j].name { assert t[i] == attrs[i + 1] && t[j] == attrs[j + 1]; }
      VisibleDistinct(t);
      var v := Visible(t);
      forall k | 0 <= k < |v| ensures v[k].name != attrs[0].name {
        assert v[k] in t;
        var m :| 0 <= m < |t| && t[m] == v[k];
        assert attrs[m + 1] == t[m];
      }
    }
  }

  /** Two ascending lists of the same names are the same. */
  lemma {:induction false} SameNames(a: seq<string>, b: seq<string>)
    requires Ascending(a) && Ascending(b) && forall n :: n in a <==> n in b
    ensures a == b
  {
    if a == [] {
      assert forall i {:trigger b[i]} :: 0 <= i < |b| ==> b[i] in b;
    } else {
      assert a[0] in a && a[0] in b;
      assert b[0] in b && b[0] in a;
      Least(a, b[0]);
      Least(b, a[0]);
      LessTotal(a[0], b[0]);
      var s, t := a[1..], b[1..];
      Tail(a);
      Tail(b);
      forall n ensures n in s <==> n in t {
        LessTotal(n, n);
        assert n in a <==> n == a[0] || n in s;
        assert n in b <==> n == b[0] || n in t;
      }
      SameNames(s, t);
      assert a == [a[0]] + s && b == [b[0]] + t;
    }
  }

  lemma Least(a: seq<string>, n: string)
    requires Ascending(a) && n in a
    ensures n == a[0] || Less(a[0], n)
  {
    var i :| 0 <= i < |a| && a[i] == n;
  }

  lemma Tail(a: seq<string>)
    requires Ascending(a) && a != []
    ensures Ascending(a[1..]) && a[0] !in a[1..]
  {
    var t := a[1..];
    forall i, j | 0 <= i < j < |t| ensures Less(t[i], t[j]) { assert t[i] == a[i + 1] && t[j] == a[j + 1]; }
    forall i | 0 <= i < |t| ensures t[i] != a[0] {
      assert t[i] == a[i + 1];
      LessTotal(a[0], a[i + 1]);
    }
  }

  /** What the tables have to satisfy: the labels are in order; only `global` has a list of strings,
      and no other list; just the two attributes that may be None hold text that may be missing. */
  predicate TableOk(k: K.Kind, fs: FieldList) {
    fs.Then? ==>
      && (fs.rest.Then? ==> Rank(fs.attribute) < Rank(fs.rest.attribute))
      && (fs.shape.Texts? ==> k.Global?)
      && (k.Global? ==> fs.shape.Column? || fs.shape.Line? || fs.shape.Texts?)
      && (fs.shape.OptText? <==> fs.attribute.NVararg? || fs.attribute.NAsname?)
      && TableOk(k, fs.rest)
  }

  /** The reader's tables are in the writer's order, for every kind. */
  lemma FieldsAscend(k: K.Kind, float: bool)
    ensures Ascending(Fields(k, float).Names())
  {
    TablesOk(k, float);
    NamesAscend(k, Fields(k, float));
  }

  lemma TablesOk(k: K.Kind, float: bool)
    ensures TableOk(k, Fields(k, float))
  {
    hide TableOk, ExprFields, StmtFields, MiscFields;
    ExprTablesOk(k, float);
    StmtTablesOk(k);
    MiscTablesOk(k);
  }

  lemma ExprTablesOk(k: K.Kind, float: bool)
    ensures TableOk(k, ExprFields(k, float))
  {
    hide TableOk;
    match k
    case Index | Slice | Attribute => TableOkIndex(k, float);
    case BinOp | BoolOp => TableOkBinOp(k, float);
    case Compare | Dict => TableOkCompare(k, float);
    case List | Name => TableOkList(k, float);
    case Num | Str => TableOkNum(k, float);
    case Subscript | Tuple => TableOkSubscript(k, float);
    case UnaryOp => TableOkUnaryOp(k, float);
    case Call => TableOkCall(k, float);
    case _ => NoFields(k);
  }

  lemma StmtTablesOk(k: K.Kind)
    ensures TableOk(k, StmtFields(k))
  {
    hide TableOk;
    match k
    case Break | Continue | Pass => TableOkBreak(k);
    case Assign | Expr => TableOkAssign(k);
    case Global | If => TableOkGlobal(k);
    case Import | Print => TableOkImport(k);
    case Return | While => TableOkReturn(k);
    case With => TableOkWith(k);
    case ClassDef => TableOkClassDef(k);
    case For => TableOkFor(k);
    case FunctionDef => TableOkFunctionDef(k);
    case _ => NoFields(k);
  }

  lemma MiscTablesOk(k: K.Kind)
    ensures TableOk(k, MiscFields(k))
  {
    hide TableOk;
    match k
    case Alias | Arguments => TableOkAlias(k);
    case Keyword | Module => TableOkKeyword(k);
    case _ => NoFields(k);
  }

  lemma NoFields(k: K.Kind)
    ensures TableOk(k, End)
  {}

  lemma TableOkIndex(k: K.Kind, float: bool)
    requires k.Index? || k.Slice? || k.Attribute?
    ensures TableOk(k, ExprFields(k, float))
  {}

  lemma TableOkBinOp(k: K.Kind, float: bool)
    requires k.BinOp? || k.BoolOp?
    ensures TableOk(k, ExprFields(k, float))
  {}

  lemma TableOkCompare(k: K.Kind, float: bool)
    requires k.Compare? || k.Dict?
    ensures TableOk(k, ExprFields(k, float))
  {}

  lemma TableOkList(k: K.Kind, float: bool)
    requires k.List? || k.Name?
    ensures TableOk(k, ExprFields(k, float))
  {}

  lemma TableOkNum(k: K.Kind, float: bool)
    requires k.Num? || k.Str?
    ensures TableOk(k, ExprFields(k, float))
  {}

  lemma TableOkSubscript(k: K.Kind, float: bool)
    requires k.Subscript? || k.Tuple?
    ensures TableOk(k, ExprFields(k, float))
  {}

  lemma TableOkUnaryOp(k: K.Kind, float: bool)
    requires k.UnaryOp?
    ensures TableOk(k, ExprFields(k, float))
  {}

  lemma TableOkCall(k: K.Kind, float: bool)
    requires k.Call?
    ensures TableOk(k, ExprFields(k, float))
  {}

  lemma TableOkBreak(k: K.Kind)
    requires k.Break? || k.Continue? || k.Pass?
    ensures TableOk(k, StmtFields(k))
  {}

  lemma TableOkAssign(k: K.Kind)
    requires k.Assign? || k.Expr?
    ensures TableOk(k, StmtFields(k))
  {}

  lemma TableOkGlobal(k: K.Kind)
    requires k.Global? || k.If?
    ensures TableOk(k, StmtFields(k))
  {}

  lemma TableOkImport(k: K.Kind)
    requires k.Import? || k.Print?
    ensures TableOk(k, StmtFields(k))
  {}

  lemma TableOkReturn(k: K.Kind)
    requires k.Return? || k.While?
    ensures TableOk(k, StmtFields(k))
  {}

  lemma TableOkWith(k: K.Kind)
    requires k.With?
    ensures TableOk(k, StmtFields(k))
  {}

  lemma TableOkClassDef(k: K.Kind)
    requires k.ClassDef?
    ensures TableOk(k, StmtFields(k))
  {}

  lemma TableOkFor(k: K.Kind)
    requires k.For?
    ensures TableOk(k, StmtFields(k))
  {}

  lemma TableOkFunctionDef(k: K.Kind)
    requires k.FunctionDef?
    ensures TableOk(k, StmtFields(k))
  {}

  lemma TableOkAlias(k: K.Kind)
    requires k.Alias? || k.Arguments?
    ensures TableOk(k, MiscFields(k))
  {}

  lemma TableOkKeyword(k: K.Kind)
    requires k.Keyword? || k.Module?
    ensures TableOk(k, MiscFields(k))
  {}

  lemma {:induction false} NamesAscend(k: K.Kind, fs: FieldList)
    requires TableOk(k, fs)
    ensures Ascending(fs.Names())
  {
    hide Less, Spelling, Rank;
    if fs.Then? && fs.rest.Then? {
      NamesAscend(k, fs.rest);
      RanksAscend(fs.attribute, fs.rest.attribute);
      var a, b := fs.Names(), fs.rest.Names();
      forall i, j | 0 <= i < j < |a| ensures Less(a[i], a[j]) {
        assert a[j] == b[j - 1];
        if i > 0 {
          assert a[i] == b[i - 1];
        } else if j > 1 {
          assert Less(b[0], b[j - 1]);
          LessTransitive(a[0], b[0], b[j - 1]);
        }
      }
    }
  }
}
