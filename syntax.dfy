/**
 * The abstract syntax the parser builds: the node kinds Program, If, Do,
 * Guard, Assign, BinaryOp, Number and Ident, with the fields the parser
 * fills in.
 */
module Syntax {
  datatype Expr =
    | BinaryOp(op: string, left: Expr, right: Expr)
    | Number(value: nat)
    | Ident(name: string)

  datatype Stmt =
    | If(guards: seq<Guard>)
    | Do(guards: seq<Guard>)
    | Assign(target: string, expr: Expr)

  /** A guarded command `cond -> body`. */
  datatype Guard = Guard(cond: Expr, body: seq<Stmt>)

  datatype Program = Program(body: seq<Stmt>)

  /**
   * The precedence tier of a binary operator, loosest first: 1 for `==`
   * and `!=`, 2 for `<`, `>`, `<=` and `>=`, 3 for `+` and `-`, 4 for `*`
   * and `/`. Any other text is in no tier (0).
   */
  function OpLevel(op: string): (n: nat)
    ensures n <= 4
  {
    if op == "==" || op == "!=" then 1
    else if op == "<" || op == ">" || op == "<=" || op == ">=" then 2
    else if op == "+" || op == "-" then 3
    else if op == "*" || op == "/" then 4
    else 0
  }

  /** Every operator node carries one of the ten binary operators. */
  predicate WellFormedExpr(e: Expr) {
    match e
    case BinaryOp(op, l, r) => 1 <= OpLevel(op) && WellFormedExpr(l) && WellFormedExpr(r)
    case Number(_) => true
    case Ident(_) => true
  }

  /**
   * The shapes the parser can produce: well-formed conditions, and at
   * least one guard in every `if` and `do`.
   */
  predicate WellFormedStmt(s: Stmt) {
    match s
    case If(gs) => |gs| >= 1 && WellFormedGuards(gs)
    case Do(gs) => |gs| >= 1 && WellFormedGuards(gs)
    case Assign(_, e) => WellFormedExpr(e)
  }

  predicate WellFormedGuards(gs: seq<Guard>) {
    forall i :: 0 <= i < |gs| ==> WellFormedExpr(gs[i].cond) && WellFormedStmts(gs[i].body)
  }

  predicate WellFormedStmts(ss: seq<Stmt>) {
    forall i :: 0 <= i < |ss| ==> WellFormedStmt(ss[i])
  }
}
