/** The syntax tree handed from the parser to the compiler (src/parser.h). */
module Ast {
  import opened Wrappers

  datatype Operator =
    | Unknown | Add | Subtract | Multiply | Divide
    | Gt | Gte | Lt | Lte | Eq | NotEq | Negate | And | Or | Modulo

  datatype Expr =
    | Infix(op: Operator, left: Expr, right: Expr)
    | Prefix(op: Operator, right: Expr)
    | Postfix(op: Operator, name: string)
    | IntLit(n: int)
    | Ident(name: string)
    | BoolLit(b: bool)
    | If(cond: Expr, conseq: seq<Stmt>, alt: Alternative)
    | Function(params: seq<string>, body: seq<Stmt>)
    | Call(callee: Expr, args: seq<Expr>)
    | StringLit(s: string)
    | ArrayLit(elems: seq<Expr>)
    | Index(left: Expr, index: Expr)
    | Slice(left: Expr, start: Option<Expr>, end: Option<Expr>)
    | For(init: Stmt, test: Option<Expr>, inc: Stmt, body: seq<Stmt>)
    | While(cond: Expr, body: seq<Stmt>)
    | Assign(name: string, value: Expr)
    | AssignIndex(left: Expr, index: Expr, value: Expr)

  datatype Alternative = NoElse | Else(body: seq<Stmt>)

  /** An absent `for` clause is an expression statement without a value: Empty. */
  datatype Stmt =
    | Let(name: string, init: Option<Expr>)
    | Return(result: Option<Expr>)
    | ExprStmt(e: Expr)
    | Empty
    | Break
    | Continue
}
