/** The syntax tree (Parsing/Expr.cs, Parsing/Stmt.cs). The resolution table is keyed by
    node identity, so every expression node carries an `id` that stands for its object
    identity; the parser gives each node it builds a new one. */
module Ast {
  import opened Tokens

  datatype Expr =
    | Assign(id: nat, name: Token, value: Expr)
    | Binary(id: nat, left: Expr, op: Token, right: Expr)
    | Call(id: nat, callee: Expr, paren: Token, arguments: seq<Expr>)
    | Get(id: nat, obj: Expr, name: Token)
    | Grouping(id: nat, expression: Expr)
    | Literal(id: nat, lit: Lit)
    | Logical(id: nat, left: Expr, op: Token, right: Expr)
    | Set(id: nat, obj: Expr, name: Token, value: Expr)
    | Super(id: nat, keyword: Token, methodName: Token)
    | This(id: nat, keyword: Token)
    | Unary(id: nat, op: Token, right: Expr)
    | Variable(id: nat, name: Token)

  /** The superclass of a class declaration is a variable reference. */
  datatype VariableRef = VariableRef(id: nat, name: Token)

  datatype FunctionDecl = FunctionDecl(name: Token, params: seq<Token>, body: seq<Stmt>)

  datatype Stmt =
    | Block(statements: seq<Stmt>)
      /** Not in Stmt.cs: shaped as the resolver uses it. */
    | Class(name: Token, superclass: Option<VariableRef>, methods: seq<FunctionDecl>)
    | Expression(expression: Expr)
    | Function(decl: FunctionDecl)
    | If(condition: Expr, thenBranch: Stmt, elseBranch: Option<Stmt>)
    | Print(expression: Expr)
    | Return(keyword: Token, value: Option<Expr>)
    | Var(name: Token, initializer: Option<Expr>)
    | While(condition: Expr, body: Stmt)
}
