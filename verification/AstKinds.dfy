/** The node kinds of the syntax tree and their numbers: TYPE_MAP in src/codegen/parse_ast.py, which
    writes them, and the enum in src/core/ast.h, which the reader switches on. */
module AstKinds {
  datatype Kind =
    | Alias | Arguments | Assert | Assign | Attribute | AugAssign | BinOp | BoolOp | Call | ClassDef | Compare
    | Comprehension | Delete | Dict | DictComp | Exec | ExceptHandler | ExtSlice | Expr | For | FunctionDef
    | GeneratorExp | Global | If | IfExp | Import | ImportFrom | Index | Keyword | Lambda | List | ListComp
    | Module | Num | Name | Pass | Pow | Print | Raise | Repr | Return | Set | Slice | Str | Subscript
    | TryExcept | TryFinally | Tuple | UnaryOp | With | While | Yield | Store | Load | Param | Not | In | Is
    | IsNot | Or | And | Eq | NotEq | NotIn | GtE | Gt | Mod | Add | Continue | Lt | LtE | Break | Sub | Del
    | Mult | Div | USub | BitAnd | BitOr | BitXor | RShift | LShift | Invert | UAdd | FloorDiv
    | Other(number: nat)

  /** TYPE_MAP, 0 for what it does not know. */
  function TypeMap(k: Kind): nat {
    match k
    case Alias => 1 case Arguments => 2 case Assert => 3 case Assign => 4 case Attribute => 5 case AugAssign => 6
    case BinOp => 7 case BoolOp => 8 case Call => 9 case ClassDef => 10 case Compare => 11
    case Comprehension => 12 case Delete => 13 case Dict => 14 case DictComp => 15 case Exec => 16
    case ExceptHandler => 17 case ExtSlice => 18 case Expr => 19 case For => 20 case FunctionDef => 21
    case GeneratorExp => 22 case Global => 23 case If => 24 case IfExp => 25 case Import => 26
    case ImportFrom => 27 case Index => 28 case Keyword => 29 case Lambda => 30 case List => 31
    case ListComp => 32 case Module => 33 case Num => 34 case Name => 35 case Pass => 37 case Pow => 38
    case Print => 39 case Raise => 40 case Repr => 41 case Return => 42 case Set => 43 case Slice => 44
    case Str => 45 case Subscript => 46 case TryExcept => 47 case TryFinally => 48 case Tuple => 49
    case UnaryOp => 50 case With => 51 case While => 52 case Yield => 53 case Store => 54 case Load => 55
    case Param => 56 case Not => 57 case In => 58 case Is => 59 case IsNot => 60 case Or => 61 case And => 62
    case Eq => 63 case NotEq => 64 case NotIn => 65 case GtE => 66 case Gt => 67 case Mod => 68 case Add => 69
    case Continue => 70 case Lt => 71 case LtE => 72 case Break => 73 case Sub => 74 case Del => 75
    case Mult => 76 case Div => 77 case USub => 78 case BitAnd => 79 case BitOr => 80 case BitXor => 81
    case RShift => 82 case LShift => 83 case Invert => 84 case UAdd => 85 case FloorDiv => 86
    case Other(_) => 0
  }

  /** The enum's name for a number read from the stream. */
  function AstType(n: nat): Kind {
    if n <= 16 then AstTypeLow(n)
    else if n <= 32 then AstTypeMiddle(n)
    else if n <= 50 then AstTypeHigh(n)
    else if n <= 69 then AstTypeOperators(n)
    else AstTypeRest(n)
  }

  function AstTypeLow(n: nat): Kind {
    match n
    case 1 => Alias case 2 => Arguments case 3 => Assert case 4 => Assign case 5 => Attribute
    case 6 => AugAssign case 7 => BinOp case 8 => BoolOp case 9 => Call case 10 => ClassDef case 11 => Compare
    case 12 => Comprehension case 13 => Delete case 14 => Dict case 15 => DictComp case 16 => Exec
    case _ => Other(n)
  }

  function AstTypeMiddle(n: nat): Kind {
    match n
    case 17 => ExceptHandler case 18 => ExtSlice case 19 => Expr case 20 => For case 21 => FunctionDef
    case 22 => GeneratorExp case 23 => Global case 24 => If case 25 => IfExp case 26 => Import
    case 27 => ImportFrom case 28 => Index case 29 => Keyword case 30 => Lambda case 31 => List
    case 32 => ListComp
    case _ => Other(n)
  }

  function AstTypeHigh(n: nat): Kind {
    match n
    case 33 => Module case 34 => Num case 35 => Name case 37 => Pass case 38 => Pow case 39 => Print
    case 40 => Raise case 41 => Repr case 42 => Return case 43 => Set case 44 => Slice case 45 => Str
    case 46 => Subscript case 47 => TryExcept case 48 => TryFinally case 49 => Tuple case 50 => UnaryOp
    case _ => Other(n)
  }

  function AstTypeOperators(n: nat): Kind {
    match n
    case 51 => With case 52 => While case 53 => Yield case 54 => Store case 55 => Load case 56 => Param
    case 57 => Not case 58 => In case 59 => Is case 60 => IsNot case 61 => Or case 62 => And case 63 => Eq
    case 64 => NotEq case 65 => NotIn case 66 => GtE case 67 => Gt case 68 => Mod case 69 => Add
    case _ => Other(n)
  }

  function AstTypeRest(n: nat): Kind {
    match n
    case 70 => Continue case 71 => Lt case 72 => LtE case 73 => Break case 74 => Sub case 75 => Del
    case 76 => Mult case 77 => Div case 78 => USub case 79 => BitAnd case 80 => BitOr case 81 => BitXor
    case 82 => RShift case 83 => LShift case 84 => Invert case 85 => UAdd case 86 => FloorDiv
    case _ => Other(n)
  }

  /** The two tables agree: every kind that is written is read back as the same. */
  lemma TablesAgree(k: Kind)
    requires !k.Other?
    ensures 0 < TypeMap(k) < 256 && AstType(TypeMap(k)) == k
  {
    AgreeLow(k);
    AgreeMiddle(k);
    AgreeHigh(k);
    AgreeOperators(k);
    AgreeRest(k);
    assert 0 < TypeMap(k) <= 86;
    hide AstTypeLow, AstTypeMiddle, AstTypeHigh, AstTypeOperators, AstTypeRest, TypeMap;
  }

  lemma AgreeLow(k: Kind)
    ensures 1 <= TypeMap(k) <= 16 ==> AstTypeLow(TypeMap(k)) == k
  {}

  lemma AgreeMiddle(k: Kind)
    ensures 17 <= TypeMap(k) <= 32 ==> AstTypeMiddle(TypeMap(k)) == k
  {}

  lemma AgreeHigh(k: Kind)
    ensures 33 <= TypeMap(k) <= 50 ==> AstTypeHigh(TypeMap(k)) == k
  {}

  lemma AgreeOperators(k: Kind)
    ensures 51 <= TypeMap(k) <= 69 ==> AstTypeOperators(TypeMap(k)) == k
  {}

  lemma AgreeRest(k: Kind)
    ensures 70 <= TypeMap(k) <= 86 ==> AstTypeRest(TypeMap(k)) == k
  {}

  /** Operators and contexts are written as their number alone. */
  predicate IsOp(k: Kind) {
    k in {Pow, Store, Load, Param, Not, In, Is, IsNot, Or, And, Eq, NotEq, NotIn, GtE, Gt, Mod, Add, Lt, LtE, Sub, Del,
          Mult, Div, USub, BitAnd, BitOr, BitXor, RShift, LShift, Invert, UAdd, FloorDiv}
  }
}
