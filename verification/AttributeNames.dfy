/** The names of the attributes that are written, in alphabetical order. */
module AttributeNames {
  datatype Label =
    | NArg | NArgs | NAsname | NAttr | NBases | NBody | NColOffset | NComparators | NContextExpr | NCtx
    | NDecoratorList | NDefaults | NDest | NElts | NFunc | NId | NIter | NKeys | NKeywords | NKwarg | NKwargs
    | NLeft | NLineno | NLower | NN | NName | NNames | NNl | NOp | NOperand | NOps | NOptionalVars | NOrelse
    | NRight | NS | NSlice | NStarargs | NStep | NTarget | NTargets | NTest | NUpper | NValue | NValues
    | NVararg

  /** The place in the order. */
  function Rank(l: Label): nat {
    match l
    case NArg => 0 case NArgs => 1 case NAsname => 2 case NAttr => 3 case NBases => 4 case NBody => 5
    case NColOffset => 6 case NComparators => 7 case NContextExpr => 8 case NCtx => 9 case NDecoratorList => 10
    case NDefaults => 11 case NDest => 12 case NElts => 13 case NFunc => 14 case NId => 15 case NIter => 16
    case NKeys => 17 case NKeywords => 18 case NKwarg => 19 case NKwargs => 20 case NLeft => 21
    case NLineno => 22 case NLower => 23 case NN => 24 case NName => 25 case NNames => 26 case NNl => 27
    case NOp => 28 case NOperand => 29 case NOps => 30 case NOptionalVars => 31 case NOrelse => 32
    case NRight => 33 case NS => 34 case NSlice => 35 case NStarargs => 36 case NStep => 37 case NTarget => 38
    case NTargets => 39 case NTest => 40 case NUpper => 41 case NValue => 42 case NValues => 43
    case NVararg => 44
  }

  function Spelling(l: Label): string {
    if Rank(l) < 5 then Spelling0(l)
    else if Rank(l) < 10 then Spelling1(l)
    else if Rank(l) < 15 then Spelling2(l)
    else if Rank(l) < 20 then Spelling3(l)
    else if Rank(l) < 25 then Spelling4(l)
    else if Rank(l) < 30 then Spelling5(l)
    else if Rank(l) < 35 then Spelling6(l)
    else if Rank(l) < 40 then Spelling7(l)
    else Spelling8(l)
  }

  function Spelling0(l: Label): string {
    match l
    case NArg => "arg" case NArgs => "args" case NAsname => "asname" case NAttr => "attr"
    case NBases => "bases" case _ => ""
  }

  function Spelling1(l: Label): string {
    match l
    case NBody => "body" case NColOffset => "col_offset" case NComparators => "comparators"
    case NContextExpr => "context_expr" case NCtx => "ctx" case _ => ""
  }

  function Spelling2(l: Label): string {
    match l
    case NDecoratorList => "decorator_list" case NDefaults => "defaults" case NDest => "dest"
    case NElts => "elts" case NFunc => "func" case _ => ""
  }

  function Spelling3(l: Label): string {
    match l
    case NId => "id" case NIter => "iter" case NKeys => "keys" case NKeywords => "keywords"
    case NKwarg => "kwarg" case _ => ""
  }

  function Spelling4(l: Label): string {
    match l
    case NKwargs => "kwargs" case NLeft => "left" case NLineno => "lineno" case NLower => "lower"
    case NN => "n" case _ => ""
  }

  function Spelling5(l: Label): string {
    match l
    case NName => "name" case NNames => "names" case NNl => "nl" case NOp => "op" case NOperand => "operand"
    case _ => ""
  }

  function Spelling6(l: Label): string {
    match l
    case NOps => "ops" case NOptionalVars => "optional_vars" case NOrelse => "orelse" case NRight => "right"
    case NS => "s" case _ => ""
  }

  function Spelling7(l: Label): string {
    match l
    case NSlice => "slice" case NStarargs => "starargs" case NStep => "step" case NTarget => "target"
    case NTargets => "targets" case _ => ""
  }

  function Spelling8(l: Label): string {
    match l
    case NTest => "test" case NUpper => "upper" case NValue => "value" case NValues => "values"
    case NVararg => "vararg" case _ => ""
  }

  /** Python's order on strings. */
  predicate Less(a: string, b: string) {
    if b == "" then false
    else if a == "" then true
    else a[0] < b[0] || (a[0] == b[0] && Less(a[1..], b[1..]))
  }

  lemma {:induction false} LessTotal(a: string, b: string)
    ensures a == b || Less(a, b) || Less(b, a)
    ensures !(Less(a, b) && Less(b, a)) && !Less(a, a)
  {
    if a != "" && b != "" {
      LessTotal(a[1..], b[1..]);
      LessTotal(a[1..], a[1..]);
      assert a == [a[0]] + a[1..] && b == [b[0]] + b[1..];
    }
    if a != "" { LessTotal(a[1..], a[1..]); }
  }

  lemma {:induction false} LessTransitive(a: string, b: string, c: string)
    requires Less(a, b) && Less(b, c)
    ensures Less(a, c)
  {
    if a != "" && a[0] == b[0] == c[0] { LessTransitive(a[1..], b[1..], c[1..]); }
  }

  /** Two strings that agree up to i are in the order of their characters there. */
  lemma {:induction false} LessAt(a: string, b: string, i: nat)
    requires i < |b| && i <= |a| && (forall k :: 0 <= k < i ==> a[k] == b[k]) && (i == |a| || a[i] < b[i])
    ensures Less(a, b)
  {
    if i > 0 { LessAt(a[1..], b[1..], i - 1); }
  }

  /** The labels' order is Python's order on their spellings. */
  lemma {:induction false} RanksAscend(l: Label, m: Label)
    requires Rank(l) < Rank(m)
    ensures Less(Spelling(l), Spelling(m))
    decreases Rank(m)
  {
    hide Less, Spelling;
    if Rank(l) + 1 == Rank(m) {
      Neighbours(l, m);
    } else {
      var k := WithRank(Rank(m) - 1);
      RanksAscend(l, k);
      Neighbours(k, m);
      LessTransitive(Spelling(l), Spelling(k), Spelling(m));
    }
  }

  function WithRank(r: nat): (l: Label)
    requires r < 45
    ensures Rank(l) == r
  {
    if r < 5 then WithRank0(r)
    else if r < 10 then WithRank1(r)
    else if r < 15 then WithRank2(r)
    else if r < 20 then WithRank3(r)
    else if r < 25 then WithRank4(r)
    else if r < 30 then WithRank5(r)
    else if r < 35 then WithRank6(r)
    else if r < 40 then WithRank7(r)
    else WithRank8(r)
  }

  function WithRank0(r: nat): (l: Label)
    requires 0 <= r < 5
    ensures Rank(l) == r
  {
    match r
    case 0 => NArg case 1 => NArgs case 2 => NAsname case 3 => NAttr case _ => NBases
  }

  function WithRank1(r: nat): (l: Label)
    requires 5 <= r < 10
    ensures Rank(l) == r
  {
    match r
    case 5 => NBody case 6 => NColOffset case 7 => NComparators case 8 => NContextExpr case _ => NCtx
  }

  function WithRank2(r: nat): (l: Label)
    requires 10 <= r < 15
    ensures Rank(l) == r
  {
    match r
    case 10 => NDecoratorList case 11 => NDefaults case 12 => NDest case 13 => NElts case _ => NFunc
  }

  function WithRank3(r: nat): (l: Label)
    requires 15 <= r < 20
    ensures Rank(l) == r
  {
    match r
    case 15 => NId case 16 => NIter case 17 => NKeys case 18 => NKeywords case _ => NKwarg
  }

  function WithRank4(r: nat): (l: Label)
    requires 20 <= r < 25
    ensures Rank(l) == r
  {
    match r
    case 20 => NKwargs case 21 => NLeft case 22 => NLineno case 23 => NLower case _ => NN
  }

  function WithRank5(r: nat): (l: Label)
    requires 25 <= r < 30
    ensures Rank(l) == r
  {
    match r
    case 25 => NName case 26 => NNames case 27 => NNl case 28 => NOp case _ => NOperand
  }

  function WithRank6(r: nat): (l: Label)
    requires 30 <= r < 35
    ensures Rank(l) == r
  {
    match r
    case 30 => NOps case 31 => NOptionalVars case 32 => NOrelse case 33 => NRight case _ => NS
  }

  function WithRank7(r: nat): (l: Label)
    requires 35 <= r < 40
    ensures Rank(l) == r
  {
    match r
    case 35 => NSlice case 36 => NStarargs case 37 => NStep case 38 => NTarget case _ => NTargets
  }

  function WithRank8(r: nat): (l: Label)
    requires 40 <= r < 45
    ensures Rank(l) == r
  {
    match r
    case 40 => NTest case 41 => NUpper case 42 => NValue case 43 => NValues case _ => NVararg
  }

  lemma Neighbours(l: Label, m: Label)
    requires Rank(m) == Rank(l) + 1
    ensures Less(Spelling(l), Spelling(m))
  {
    hide Less, Spelling;
    if Rank(l) < 5 { Neighbours0(l, m); }
    else if Rank(l) < 10 { Neighbours1(l, m); }
    else if Rank(l) < 15 { Neighbours2(l, m); }
    else if Rank(l) < 20 { Neighbours3(l, m); }
    else if Rank(l) < 25 { Neighbours4(l, m); }
    else if Rank(l) < 30 { Neighbours5(l, m); }
    else if Rank(l) < 35 { Neighbours6(l, m); }
    else if Rank(l) < 40 { Neighbours7(l, m); }
    else { Neighbours8(l, m); }
  }

  lemma Neighbours0(l: Label, m: Label)
    requires 0 <= Rank(l) < 5 && Rank(m) == Rank(l) + 1
    ensures Less(Spelling(l), Spelling(m))
  {
    hide Less;
    match l
    case NArg => assert m == NArgs; LessAt("arg", "args", 3);
    case NArgs => assert m == NAsname; LessAt("args", "asname", 1);
    case NAsname => assert m == NAttr; LessAt("asname", "attr", 1);
    case NAttr => assert m == NBases; LessAt("attr", "bases", 0);
    case NBases => assert m == NBody; LessAt("bases", "body", 1);
    case _ =>
  }

  lemma Neighbours1(l: Label, m: Label)
    requires 5 <= Rank(l) < 10 && Rank(m) == Rank(l) + 1
    ensures Less(Spelling(l), Spelling(m))
  {
    hide Less;
    match l
    case NBody => assert m == NColOffset; LessAt("body", "col_offset", 0);
    case NColOffset => assert m == NComparators; LessAt("col_offset", "comparators", 2);
    case NComparators => assert m == NContextExpr; LessAt("comparators", "context_expr", 2);
    case NContextExpr => assert m == NCtx; LessAt("context_expr", "ctx", 1);
    case NCtx => assert m == NDecoratorList; LessAt("ctx", "decorator_list", 0);
    case _ =>
  }

  lemma Neighbours2(l: Label, m: Label)
    requires 10 <= Rank(l) < 15 && Rank(m) == Rank(l) + 1
    ensures Less(Spelling(l), Spelling(m))
  {
    hide Less;
    match l
    case NDecoratorList => assert m == NDefaults; LessAt("decorator_list", "defaults", 2);
    case NDefaults => assert m == NDest; LessAt("defaults", "dest", 2);
    case NDest => assert m == NElts; LessAt("dest", "elts", 0);
    case NElts => assert m == NFunc; LessAt("elts", "func", 0);
    case NFunc => assert m == NId; LessAt("func", "id", 0);
    case _ =>
  }

  lemma Neighbours3(l: Label, m: Label)
    requires 15 <= Rank(l) < 20 && Rank(m) == Rank(l) + 1
    ensures Less(Spelling(l), Spelling(m))
  {
    hide Less;
    match l
    case NId => assert m == NIter; LessAt("id", "iter", 1);
    case NIter => assert m == NKeys; LessAt("iter", "keys", 0);
    case NKeys => assert m == NKeywords; LessAt("keys", "keywords", 3);
    case NKeywords => assert m == NKwarg; LessAt("keywords", "kwarg", 1);
    case NKwarg => assert m == NKwargs; LessAt("kwarg", "kwargs", 5);
    case _ =>
  }

  lemma Neighbours4(l: Label, m: Label)
    requires 20 <= Rank(l) < 25 && Rank(m) == Rank(l) + 1
    ensures Less(Spelling(l), Spelling(m))
  {
    hide Less;
    match l
    case NKwargs => assert m == NLeft; LessAt("kwargs", "left", 0);
    case NLeft => assert m == NLineno; LessAt("left", "lineno", 1);
    case NLineno => assert m == NLower; LessAt("lineno", "lower", 1);
    case NLower => assert m == NN; LessAt("lower", "n", 0);
    case NN => assert m == NName; LessAt("n", "name", 1);
    case _ =>
  }

  lemma Neighbours5(l: Label, m: Label)
    requires 25 <= Rank(l) < 30 && Rank(m) == Rank(l) + 1
    ensures Less(Spelling(l), Spelling(m))
  {
    hide Less;
    match l
    case NName => assert m == NNames; LessAt("name", "names", 4);
    case NNames => assert m == NNl; LessAt("names", "nl", 1);
    case NNl => assert m == NOp; LessAt("nl", "op", 0);
    case NOp => assert m == NOperand; LessAt("op", "operand", 2);
    case NOperand => assert m == NOps; LessAt("operand", "ops", 2);
    case _ =>
  }

  lemma Neighbours6(l: Label, m: Label)
    requires 30 <= Rank(l) < 35 && Rank(m) == Rank(l) + 1
    ensures Less(Spelling(l), Spelling(m))
  {
    hide Less;
    match l
    case NOps => assert m == NOptionalVars; LessAt("ops", "optional_vars", 2);
    case NOptionalVars => assert m == NOrelse; LessAt("optional_vars", "orelse", 1);
    case NOrelse => assert m == NRight; LessAt("orelse", "right", 0);
    case NRight => assert m == NS; LessAt("right", "s", 0);
    case NS => assert m == NSlice; LessAt("s", "slice", 1);
    case _ =>
  }

  lemma Neighbours7(l: Label, m: Label)
    requires 35 <= Rank(l) < 40 && Rank(m) == Rank(l) + 1
    ensures Less(Spelling(l), Spelling(m))
  {
    hide Less;
    match l
    case NSlice => assert m == NStarargs; LessAt("slice", "starargs", 1);
    case NStarargs => assert m == NStep; LessAt("starargs", "step", 2);
    case NStep => assert m == NTarget; LessAt("step", "target", 0);
    case NTarget => assert m == NTargets; LessAt("target", "targets", 6);
    case NTargets => assert m == NTest; LessAt("targets", "test", 1);
    case _ =>
  }

  lemma Neighbours8(l: Label, m: Label)
    requires 40 <= Rank(l) < 45 && Rank(m) == Rank(l) + 1
    ensures Less(Spelling(l), Spelling(m))
  {
    hide Less;
    match l
    case NTest => assert m == NUpper; LessAt("test", "upper", 0);
    case NUpper => assert m == NValue; LessAt("upper", "value", 0);
    case NValue => assert m == NValues; LessAt("value", "values", 5);
    case NValues => assert m == NVararg; LessAt("values", "vararg", 2);
    case _ =>
  }
}
