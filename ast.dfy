/** The syntax trees the parser builds and the interpreter walks. */
module Ast {
  import opened Tokens

  datatype Expression =
    | Binary(left: Expression, operator: Token, right: Expression)
    | Grouping(expression: Expression)
    | Literal(value: LiteralValue)
    | Unary(operator: Token, right: Expression)
    | Variable(name: Token)

  datatype Statement =
    | Expr(expression: Expression)
    | Print(expression: Expression)
    | Var(name: Token, initializer: Expression)
}
