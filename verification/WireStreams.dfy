/** The two programs that meet on the stream: convert of src/codegen/parse_ast.py appending to its
    output, and the readers of src/codegen/parser.cpp on a 1024-byte sliding buffer. */
module WireStreams {
  import opened Results
  import opened Commons
  import opened WireBytes
  import opened Wire
  import opened WireRoundTrip
  import opened AttributeNames
  import K = AstKinds

  /** The outcome of writing something whose bytes the format gives. */
  ghost predicate Wrote(before: seq<byte>, after: seq<byte>, r: Result<()>, bytes: Result<seq<byte>>) {
    match bytes
    case Done(b) => r.Done? && after == before + b
    case Aborted => r.Aborted?
  }

  class Writer {
    var out: seq<byte>

    constructor ()
      ensures out == []
    {
      out := [];
    }

    method Put(b: seq<byte>)
      modifies this
      ensures out == old(out) + b
    {
      out := out + b;
    }

    method PrintStr(s: seq<byte>) returns (r: Result<()>)
      modifies this
      ensures Wrote(old(out), out, r, Wire.PrintStr(s))
    {
      if |s| >= 0x1_0000 { return Aborted; }
      Put(Short(|s|));
      Put(s);
      return Done(());
    }

    /** convert. */
    method Convert(v: Value) returns (r: Result<()>)
      modifies this
      ensures Wrote(old(out), out, r, Wire.Convert(v))
      decreases v, 3, 0
    {
      hide InOrder, ConvertAttrs, ConvertAttr, NumMarker, K.TypeMap;
      match v {
        case Null =>
          Put([0]);
          return Done(());
        case Op(k) =>
          var code :- TypeByte(k);
          Put(code);
          return Done(());
        case Node(k, attrs) =>
          var code :- TypeByte(k);
          Put(code);
          Put([0xae]);
          var marker :- NumMarker(v);
          Put(marker);
          r := ConvertAttributes(v);
        case _ => return Aborted;
      }
    }

    /** The loop over a node's sorted attributes. */
    method ConvertAttributes(n: Value) returns (r: Result<()>)
      requires n.Node?
      modifies this
      ensures Wrote(old(out), out, r, ConvertAttrs(n, InOrder(n)))
      decreases n, 2, 0
    {
      hide InOrder, ConvertAttrs, ConvertAttr;
      var items := InOrder(n);
      ghost var all := ConvertAttrs(n, items);
      assert items[0..] == items;
      for i := 0 to |items|
        invariant forall a :: a in items[i..] ==> a in n.attrs
        invariant all.Done? <==> ConvertAttrs(n, items[i..]).Done?
        invariant all.Done? ==> out + ConvertAttrs(n, items[i..]).value == old(out) + all.value
      {
        AttrsStep(n, items, i);
        assert items[i] in n.attrs;
        ghost var before := out;
        var _ :- ConvertAttribute(n.kind, items[i].name, items[i].value);
        ghost var first, rest := ConvertAttr(n.kind, items[i].name, items[i].value), ConvertAttrs(n, items[i + 1..]);
        assert all.Done? ==> before + (first.value + rest.value) == out + rest.value;
      }
      AttrsEnd(n, items[|items|..]);
      return Done(());
    }

    /** One attribute, by the type of its value. */
    method ConvertAttribute(k: K.Kind, name: string, value: Value) returns (r: Result<()>)
      modifies this
      ensures Wrote(old(out), out, r, ConvertAttr(k, name, value))
      decreases value, 4, 0
    {
      hide Wire.Convert, ConvertItems, Wire.PrintStr, Quad, ULL;
      if value.Null? && (name == "vararg" || name == "asname") {
        r := PrintStr([]);
        return;
      }
      match value {
        case Items(elts) =>
          if |elts| >= 0x1_0000 { return Aborted; }
          Put(Short(|elts|));
          r := ConvertList(value, k == K.Global);
        case Str(s) => r := PrintStr(s);
        case Truth(b) =>
          Put([if b then 1 else 0]);
          return Done(());
        case Number(n) =>
          if !(-TWO_63 <= n < TWO_63) { return Aborted; }
          Put(Quad(n));
          return Done(());
        case Real(bits) =>
          if bits >= TWO_64 { return Aborted; }
          Put(ULL(bits));
          return Done(());
        case _ => r := Convert(value);
      }
    }

    method ConvertList(l: Value, strings: bool) returns (r: Result<()>)
      requires l.Items?
      modifies this
      ensures Wrote(old(out), out, r, ConvertItems(l, 0, strings))
      decreases l, 1, 0
    {
      hide Wire.Convert, Wire.PrintStr;
      ghost var all := ConvertItems(l, 0, strings);
      for i := 0 to |l.elts|
        invariant all.Done? <==> ConvertItems(l, i, strings).Done?
        invariant all.Done? ==> out + ConvertItems(l, i, strings).value == old(out) + all.value
      {
        ghost var before, rest := out, ConvertItems(l, i + 1, strings);
        ghost var first := if strings then (if l.elts[i].Str? then Wire.PrintStr(l.elts[i].s) else Aborted) else Wire.Convert(l.elts[i]);
        if strings {
          if !l.elts[i].Str? { return Aborted; }
          var _ :- PrintStr(l.elts[i].s);
        } else {
          var _ :- Convert(l.elts[i]);
        }
        assert all.Done? ==> before + (first.value + rest.value) == out + rest.value;
      }
      return Done(());
    }
  }

  lemma AttrsStep(n: Value, items: seq<Attr>, i: nat)
    requires n.Node? && i < |items| && forall a :: a in items[i..] ==> a in n.attrs
    ensures items[i] in n.attrs && forall a :: a in items[i + 1..] ==> a in n.attrs
    ensures var first, rest := ConvertAttr(n.kind, items[i].name, items[i].value), ConvertAttrs(n, items[i + 1..]);
      ConvertAttrs(n, items[i..]) == if first.Done? && rest.Done? then Done(first.value + rest.value) else Aborted
  {
    hide ConvertAttr;
    assert items[i..][0] == items[i] && items[i..][1..] == items[i + 1..];
    assert items[i] in items[i..];
    forall a | a in items[i + 1..] ensures a in n.attrs { assert a in items[i..][1..]; }
  }

  lemma AttrsEnd(n: Value, none: seq<Attr>)
    requires n.Node? && none == []
    ensures ConvertAttrs(n, none) == Done([])
  {}

  // ---- the reader -----------------------------------------------------------------------------

  const BUFSIZE: nat := 1024

  class BufferedReader {
    const buf: array<byte>
    var start: nat
    var end: nat
    /** The file, and how much of it has been read. */
    const file: seq<byte>
    var pos: nat

    ghost predicate Valid()
      reads this
    {
      buf.Length == BUFSIZE && start <= end <= BUFSIZE && pos <= |file|
    }

    /** What is still to come: the buffered bytes, then the unread part of the file. */
    ghost function Rest(): seq<byte>
      requires Valid()
      reads this, buf
    {
      buf[start..end] + file[pos..]
    }

    constructor (file: seq<byte>)
      ensures Valid() && Rest() == file && fresh(buf)
    {
      this.file := file;
      buf := new byte[BUFSIZE](_ => 0);
      start, end, pos := 0, 0, 0;
    }

    /** fread: some bytes, at least one unless the file or the room is used up. */
    method Fread(at: nat) returns (n: nat)
      requires Valid() && at <= BUFSIZE
      modifies buf, this`pos
      ensures Valid() && at + n <= BUFSIZE && pos == old(pos) + n && (n == 0 ==> at == BUFSIZE || pos == |file|)
      ensures buf[..at] == old(buf[..at]) && buf[at..at + n] == file[old(pos)..pos]
    {
      n :| n <= BUFSIZE - at && pos + n <= |file| && (n == 0 ==> at == BUFSIZE || pos == |file|) by {
        var most := if BUFSIZE - at < |file| - pos then BUFSIZE - at else |file| - pos;
        assert most <= BUFSIZE - at && pos + most <= |file|;
      }
      forall k | at <= k < at + n {
        buf[k] := file[pos + k - at];
      }
      pos := pos + n;
    }

    /** The memmove: what is buffered goes to the front. */
    method Slide()
      requires Valid()
      modifies this`start, this`end, buf
      ensures Valid() && start == 0 && end == old(end - start) && buf[..end] == old(buf[start..end])
    {
      forall k | 0 <= k < end - start {
        buf[k] := buf[k + start];
      }
      end := end - start;
      start := 0;
    }

    method Fill()
      requires Valid()
      modifies this`start, this`end, this`pos, buf
      ensures Valid() && Rest() == old(Rest()) && start == 0
      ensures end > 0 || old(Rest()) == []
    {
      Slide();
      ghost var front := buf[..end];
      var n := Fread(end);
      assert buf[0..end + n] == front + buf[end..end + n];
      assert file[old(pos)..] == file[old(pos)..pos] + file[pos..];
      end := end + n;
    }

    method BytesBuffered() returns (n: nat)
      requires Valid()
      ensures n == end - start
    {
      return end - start;
    }

    method ReadByte() returns (r: Result<byte>)
      requires Valid()
      modifies this`start, this`end, this`pos, buf
      ensures Valid() && Took(r, Rest(), WireBytes.ReadByte(old(Rest())))
    {
      if end - start < 1 { Fill(); }
      if !(end > start) { return Aborted; }
      ghost var s := Rest();
      r := Done(buf[start]);
      start := start + 1;
      assert Rest() == s[1..];
    }

    method ReadShort() returns (r: Result<nat>)
      requires Valid()
      modifies this`start, this`end, this`pos, buf
      ensures Valid() && Took(r, Rest(), WireBytes.ReadShort(old(Rest())))
    {
      var a :- ReadByte();
      var b :- ReadByte();
      return Done(a as nat * 0x100 + b as nat);
    }

    method ReadUInt() returns (r: Result<nat>)
      requires Valid()
      modifies this`start, this`end, this`pos, buf
      ensures Valid() && Took(r, Rest(), WireBytes.ReadUInt(old(Rest())))
    {
      hide WireBytes.ReadShort;
      var a :- ReadShort();
      var b :- ReadShort();
      return Done(a * 0x1_0000 + b);
    }

    method ReadULL() returns (r: Result<nat>)
      requires Valid()
      modifies this`start, this`end, this`pos, buf
      ensures Valid() && Took(r, Rest(), WireBytes.ReadULL(old(Rest())))
    {
      hide WireBytes.ReadUInt;
      var a :- ReadUInt();
      var b :- ReadUInt();
      return Done(a * TWO_32 + b);
    }

    method ReadString() returns (r: Result<seq<byte>>)
      requires Valid()
      modifies this`start, this`end, this`pos, buf
      ensures Valid() && Took(r, Rest(), ReadText(old(Rest())))
    {
      hide WireBytes.ReadShort;
      var strlen :- ReadShort();
      ghost var s := Rest();
      var chars: seq<byte> := [];
      for i := 0 to strlen
        invariant Valid() && i <= |s| && chars == s[..i] && Rest() == s[i..]
      {
        var c :- ReadByte();
        chars := chars + [c];
      }
      return Done(chars);
    }

    /** One field, by what its reader function does next. */
    method ReadField(t: Shape) returns (r: Result<Value>)
      requires Valid()
      modifies this`start, this`end, this`pos, buf
      ensures Valid() && Took(r, Rest(), Wire.ReadField(t, old(Rest())))
      decreases |Rest()|, 2, 0
    {
      hide WireBytes.ReadShort, WireBytes.ReadULL, ReadText, Wire.ReadNode, Wire.ReadItems, K.AstType;
      match t {
        case Text | OptText =>
          var s :- ReadString();
          return Done(Str(s));
        case Column =>
          var n :- ReadULL();
          if !(0 <= Signed32(n) < 100000) { return Aborted; }
          return Done(Number(Signed32(n)));
        case Line =>
          var n :- ReadULL();
          return Done(Number(n % 0x1_0000_0000));
        case Int =>
          var n :- ReadULL();
          return Done(Number(Signed64(n)));
        case Float =>
          var n :- ReadULL();
          return Done(Real(n));
        case Flag =>
          var b :- ReadByte();
          return Done(Truth(b != 0));
        case Code =>
          var b :- ReadByte();
          return Done(Op(K.AstType(b as nat)));
        case Expr => r := ReadNode(Expressions);
        case Stmt => r := ReadNode(Statements);
        case Misc => r := ReadNode(Others);
        case Present =>
          var v :- ReadNode(Expressions);
          if v.Null? { return Aborted; }
          return Done(v);
        case Keyword =>
          var v :- ReadNode(Others);
          if !(v.Node? && v.kind == K.Keyword) { return Aborted; }
          return Done(v);
        case Alias =>
          var v :- ReadNode(Others);
          if !(v.Node? && v.kind == K.Alias) { return Aborted; }
          return Done(v);
        case _ =>
          var n :- ReadShort();
          var elts :- ReadVector(ElementShape(t), n);
          return Done(Items(elts));
      }
    }

    /** readStringVector, readStmtVector, readExprVector and readMiscVector. */
    method ReadVector(t: Shape, n: nat) returns (r: Result<seq<Value>>)
      requires Valid()
      modifies this`start, this`end, this`pos, buf
      ensures Valid() && Took(r, Rest(), ReadItems(t, n, old(Rest())))
      decreases |Rest()|, 3, n
    {
      hide Wire.ReadField, ReadItems, Progress;
      ghost var all := ReadItems(t, n, Rest());
      var vec: seq<Value> := [];
      NoProgress(all);
      for i := 0 to n
        invariant Valid() && |Rest()| <= |old(Rest())| && Progress(all, vec, ReadItems(t, n - i, Rest()))
      {
        OneItem(all, vec, t, n - i, Rest());
        var v :- ReadField(t);
        vec := vec + [v];
      }
      AllItems(all, vec, t, Rest());
      return Done(vec);
    }

    /** readASTExpr, readASTStmt and readASTMisc with the read_* function they switch to. */
    method ReadNode(g: Group) returns (r: Result<Value>)
      requires Valid()
      modifies this`start, this`end, this`pos, buf
      ensures Valid() && Took(r, Rest(), Wire.ReadNode(g, old(Rest())))
      decreases |Rest()|, 1, 0
    {
      hide Wire.ReadFields, Fields, InGroup, Consistent, K.AstType;
      var code :- ReadByte();
      if code == 0 { return Done(Null); }
      var checkbyte :- ReadByte();
      if checkbyte != 0xae || !InGroup(K.AstType(code as nat), g) { return Aborted; }
      var k := K.AstType(code as nat);
      var float := false;
      if k == K.Num {
        var marker :- ReadByte();
        if marker != 0x10 && marker != 0x20 { return Aborted; }
        float := marker == 0x20;
      }
      var fields :- ReadFields(Fields(k, float));
      if !Consistent(Node(k, fields)) { return Aborted; }
      return Done(Node(k, fields));
    }

    /** The reads of one read_* function. */
    method ReadFields(fs: FieldList) returns (r: Result<seq<Attr>>)
      requires Valid()
      modifies this`start, this`end, this`pos, buf
      ensures Valid() && Took(r, Rest(), Wire.ReadFields(fs, old(Rest())))
      decreases |Rest()|, 3, fs.Length()
    {
      hide Wire.ReadField, Spelling;
      if fs.End? { return Done([]); }
      var v :- ReadField(fs.shape);
      var others :- ReadFields(fs.rest);
      return Done([Attr(Spelling(fs.attribute), v)] + others);
    }

    /** parse: one module, and nothing may follow it. */
    method Parse() returns (r: Result<Value>)
      requires Valid()
      modifies this`start, this`end, this`pos, buf
      ensures Valid() && r == WireRoundTrip.Parse(old(Rest()))
    {
      hide Wire.ReadNode;
      var rtn :- ReadNode(Others);
      Fill();
      var left := BytesBuffered();
      if left != 0 || !rtn.Node? || rtn.kind != K.Module { return Aborted; }
      return Done(rtn);
    }
  }

  /** The outcome of reading something: the value and what is left, or the process ends. */
  ghost predicate Took<T>(r: Result<T>, rest: seq<byte>, spec: Result<(T, seq<byte>)>) {
    match spec
    case Done(a) => r == Done(a.0) && rest == a.1
    case Aborted => r.Aborted?
  }

  /** Having read `vec`, what is left to read completes the whole vector. */
  ghost predicate Progress(all: Result<(seq<Value>, seq<byte>)>, vec: seq<Value>, left: Result<(seq<Value>, seq<byte>)>) {
    && (all.Done? <==> left.Done?)
    && (all.Done? ==> all.value.0 == vec + left.value.0 && all.value.1 == left.value.1)
  }

  lemma NoProgress(all: Result<(seq<Value>, seq<byte>)>)
    ensures Progress(all, [], all)
  {}

  lemma OneItem(all: Result<(seq<Value>, seq<byte>)>, vec: seq<Value>, t: Shape, n: nat, s: seq<byte>)
    requires n > 0 && Progress(all, vec, ReadItems(t, n, s))
    ensures Wire.ReadField(t, s).Aborted? ==> all.Aborted?
    ensures Wire.ReadField(t, s).Done? ==>
      var (v, rest) := Wire.ReadField(t, s).value; |rest| < |s| && Progress(all, vec + [v], ReadItems(t, n - 1, rest))
  {
    hide Wire.ReadField;
  }

  lemma AllItems(all: Result<(seq<Value>, seq<byte>)>, vec: seq<Value>, t: Shape, s: seq<byte>)
    requires Progress(all, vec, ReadItems(t, 0, s))
    ensures all == Done((vec, s))
  {
    assert vec + [] == vec;
  }
}
