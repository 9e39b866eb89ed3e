/** What the analyses read of a function: its blocks' statements, as the AST visitors walk them. */
module FunctionBody {
  /** An expression by its name accesses. `Compound` is any other node (attribute, subscript,
      call, ...): visitors walk its children, and assigning to one sets no name. */
  datatype Expr =
    | Name(id: string, store: bool)
    | Tuple(elts: seq<Expr>)
    | Compound(children: seq<Expr>)

  /** `Evaluate` covers the statements that only evaluate expressions: expression statements,
      print, return and branch tests, and (with none) global, pass and jump. */
  datatype Stmt =
    | Assign(targets: seq<Expr>, value: Expr)
    | ClassDef(name: string)
    | FunctionDef(name: string)
    | Import(names: seq<string>)
    | Evaluate(exprs: seq<Expr>)

  datatype Block = Block(body: seq<Stmt>, predecessors: seq<nat>, successors: seq<nat>)

  /** The function's parameters; `vararg` is empty when there is none. */
  datatype Arguments = NoArguments | Arguments(kwarg: seq<Expr>, vararg: string, args: seq<Expr>)

  datatype Function = Function(blocks: seq<Block>, arguments: Arguments)
}
