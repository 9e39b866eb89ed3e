/** Numbers and strings as the parser subprocess writes them and the reader takes them off the
    byte stream (src/codegen/parse_ast.py, src/codegen/parser.cpp). */
module WireBytes {
  import opened Commons
  import opened Results

  const TWO_32: int := 0x1_0000_0000
  const TWO_63: int := 0x8000_0000_0000_0000
  const TWO_64: int := 0x1_0000_0000_0000_0000

  // ---- writing: big-endian --------------------------------------------------------------------

  function Short(n: nat): seq<byte>
    requires n < 0x1_0000
  {
    [(n / 0x100) as byte, (n % 0x100) as byte]
  }

  function UInt(n: nat): seq<byte>
    requires n < TWO_32
  {
    Short(n / 0x1_0000) + Short(n % 0x1_0000)
  }

  function High(n: nat): (h: nat)
    requires n < TWO_64
    ensures h < TWO_32 && n == h * 0x1_0000_0000 + n % 0x1_0000_0000
  {
    var i: int := n;
    assert i / 0x1_0000_0000 >= 0;
    i / 0x1_0000_0000
  }

  function ULL(n: nat): seq<byte>
    requires n < TWO_64
  {
    UInt(High(n)) + UInt(n % 0x1_0000_0000)
  }

  /** Two's complement. */
  function Unsigned64(n: int): nat
    requires -TWO_63 <= n < TWO_63
  {
    if n >= 0 then n else n + TWO_64
  }

  /** A signed 64-bit number. */
  function Quad(n: int): seq<byte>
    requires -TWO_63 <= n < TWO_63
  {
    ULL(Unsigned64(n))
  }

  function Text(s: seq<byte>): seq<byte>
    requires |s| < 0x1_0000
  {
    Short(|s|) + s
  }

  // ---- reading: every function takes what it needs off the front ------------------------------

  function ReadByte(s: seq<byte>): (r: Result<(byte, seq<byte>)>)
    ensures r.Done? ==> |r.value.1| == |s| - 1
  {
    if s == [] then Aborted else Done((s[0], s[1..]))
  }

  function ReadShort(s: seq<byte>): (r: Result<(nat, seq<byte>)>)
    ensures r.Done? ==> r.value.0 < 0x1_0000 && |r.value.1| == |s| - 2
  {
    var a :- ReadByte(s);
    var b :- ReadByte(a.1);
    Done((a.0 as nat * 0x100 + b.0 as nat, b.1))
  }

  function ReadUInt(s: seq<byte>): (r: Result<(nat, seq<byte>)>)
    ensures r.Done? ==> r.value.0 < TWO_32 && |r.value.1| == |s| - 4
  {
    var a :- ReadShort(s);
    var b :- ReadShort(a.1);
    Done((a.0 * 0x1_0000 + b.0, b.1))
  }

  function ReadULL(s: seq<byte>): (r: Result<(nat, seq<byte>)>)
    ensures r.Done? ==> r.value.0 < TWO_64 && |r.value.1| == |s| - 8
  {
    var a :- ReadUInt(s);
    var b :- ReadUInt(a.1);
    Done((a.0 * TWO_32 + b.0, b.1))
  }

  function ReadBytes(n: nat, s: seq<byte>): (r: Result<(seq<byte>, seq<byte>)>)
    ensures r.Done? ==> |r.value.0| == n && |r.value.1| == |s| - n
    ensures r == if n <= |s| then Done((s[..n], s[n..])) else Aborted
  {
    if n == 0 then Done(([], s))
    else
      var a :- ReadByte(s);
      var b :- ReadBytes(n - 1, a.1);
      assert n <= |s| ==> s[..n] == [s[0]] + s[1..][..n - 1] && s[n..] == s[1..][n - 1..];
      Done(([a.0] + b.0, b.1))
  }

  function ReadText(s: seq<byte>): (r: Result<(seq<byte>, seq<byte>)>)
    ensures r.Done? ==> |r.value.1| < |s|
  {
    var n :- ReadShort(s);
    ReadBytes(n.0, n.1)
  }

  /** The automatic conversion to a signed 64-bit number. */
  function Signed64(n: nat): int {
    if n < TWO_63 then n else n - TWO_64
  }

  /** The conversion to int. */
  function Signed32(n: nat): int {
    if n % 0x1_0000_0000 < 0x8000_0000 then n % 0x1_0000_0000 else n % 0x1_0000_0000 - TWO_32
  }

  // ---- what the bytes say -----------------------------------------------------------------------

  /** The number the bytes spell, most significant first. */
  function BigEndian(s: seq<byte>): nat {
    if s == [] then 0 else BigEndian(s[..|s| - 1]) * 0x100 + s[|s| - 1] as nat
  }

  lemma ShortSpells(n: nat)
    requires n < 0x1_0000
    ensures |Short(n)| == 2 && BigEndian(Short(n)) == n
  {
    var s := Short(n);
    assert s[..1] == [s[0]] && s[..1][..0] == [];
    assert BigEndian(s[..1]) == s[0] as nat;
  }

  lemma FollowedByShort(a: seq<byte>, n: nat)
    requires n < 0x1_0000
    ensures BigEndian(a + Short(n)) == BigEndian(a) * 0x1_0000 + n
  {
    var s := Short(n);
    var l := a + s;
    assert l[..|l| - 1] == a + [s[0]] && (a + [s[0]])[..|a|] == a;
    assert BigEndian(a + [s[0]]) == BigEndian(a) * 0x100 + s[0] as nat;
  }

  /** Numbers are written as their 2, 4 or 8 bytes, most significant first, and negative ones in
      two's complement. */
  lemma NumbersSpell(n: int)
    ensures 0 <= n < 0x1_0000 ==> |Short(n)| == 2 && BigEndian(Short(n)) == n
    ensures 0 <= n < TWO_32 ==> |UInt(n)| == 4 && BigEndian(UInt(n)) == n
    ensures 0 <= n < TWO_64 ==> |ULL(n)| == 8 && BigEndian(ULL(n)) == n
    ensures -TWO_63 <= n < TWO_63 ==> |Quad(n)| == 8 && BigEndian(Quad(n)) == n % TWO_64
  {
    hide BigEndian, Short, UInt, ULL;
    if 0 <= n < 0x1_0000 { ShortSpells(n); }
    if 0 <= n < TWO_32 { UIntSpells(n); }
    if 0 <= n < TWO_64 { ULLSpells(n); }
    if -TWO_63 <= n < TWO_63 { ULLSpells(Unsigned64(n)); }
  }

  lemma UIntSpells(n: nat)
    requires n < TWO_32
    ensures |UInt(n)| == 4 && BigEndian(UInt(n)) == n
  {
    hide Short, BigEndian;
    ShortSpells(n / 0x1_0000);
    ShortSpells(n % 0x1_0000);
    FollowedByShort(Short(n / 0x1_0000), n % 0x1_0000);
  }

  lemma ULLSpells(n: nat)
    requires n < TWO_64
    ensures |ULL(n)| == 8 && BigEndian(ULL(n)) == n
  {
    hide Short, BigEndian;
    var hi, lo := High(n), n % 0x1_0000_0000;
    UIntSpells(hi);
    UIntSpells(lo);
    var a, b := lo / 0x1_0000, lo % 0x1_0000;
    FollowedByShort(UInt(hi), a);
    FollowedByShort(UInt(hi) + Short(a), b);
    assert UInt(hi) + UInt(lo) == UInt(hi) + Short(a) + Short(b);
  }

  // ---- reading back what was written ----------------------------------------------------------

  lemma ShortBack(n: nat, rest: seq<byte>)
    requires n < 0x1_0000
    ensures ReadShort(Short(n) + rest) == Done((n, rest))
  {
    var s := Short(n) + rest;
    assert s[1..][1..] == rest;
  }

  lemma UIntBack(n: nat, rest: seq<byte>)
    requires n < TWO_32
    ensures ReadUInt(UInt(n) + rest) == Done((n, rest))
  {
    var hi, lo := n / 0x1_0000, n % 0x1_0000;
    assert UInt(n) + rest == Short(hi) + (Short(lo) + rest);
    ShortBack(hi, Short(lo) + rest);
    ShortBack(lo, rest);
  }

  lemma ULLBack(n: nat, rest: seq<byte>)
    requires n < TWO_64
    ensures ReadULL(ULL(n) + rest) == Done((n, rest))
  {
    var hi, lo := High(n), n % 0x1_0000_0000;
    assert ULL(n) + rest == UInt(hi) + (UInt(lo) + rest);
    UIntBack(hi, UInt(lo) + rest);
    UIntBack(lo, rest);
  }

  /** A written number reads back as itself; as a line number if it fits 32 bits unsigned, and as
      an int if it fits 32 bits signed. */
  lemma QuadBack(n: int, rest: seq<byte>)
    requires -TWO_63 <= n < TWO_63
    ensures ReadULL(Quad(n) + rest) == Done((Unsigned64(n), rest)) && Signed64(Unsigned64(n)) == n
    ensures 0 <= n < TWO_32 ==> Unsigned64(n) % 0x1_0000_0000 == n
    ensures -0x8000_0000 <= n < 0x8000_0000 ==> Signed32(Unsigned64(n)) == n
  {
    ULLBack(Unsigned64(n), rest);
  }

  lemma TextBack(t: seq<byte>, rest: seq<byte>)
    requires |t| < 0x1_0000
    ensures ReadText(Text(t) + rest) == Done((t, rest))
  {
    assert Text(t) + rest == Short(|t|) + (t + rest);
    ShortBack(|t|, t + rest);
    assert (t + rest)[..|t|] == t && (t + rest)[|t|..] == rest;
  }
}
