/**
 * The part of the ECMAScript syntax tree the transform looks at. Function
 * declarations and function expressions are the nodes it may rewrite; every
 * other node is kept only for the subtrees it holds, so that nested
 * functions can be reached.
 */
module Ast {
  import opened Wrappers

  /** Byte offsets of a node in the original source file. */
  datatype Span = Span(lo: nat, hi: nat)

  datatype Lit =
    | Str(value: string)
      /** A numeric, boolean, null, big-int, regular-expression or JSX-text literal. */
    | OtherLit(raw: string)

  datatype Expr =
    | LitExpr(lit: Lit)
    | IdentExpr(sym: string)
    | NewExpr(callee: Expr, args: NewArgs)
    | FnExprNode(fnExpr: FnExpr)
      /**
       * Code with parameters or a body that the visit reaches but never
       * transforms: a class or object method, getter, setter or constructor;
       * an arrow function with a block body, as `Function(params, Some(body))`;
       * a class static block, as `Function([], Some(body))`.
       */
    | MethodNode(func: Function)
      /**
       * Any other expression (calls, operators, arrow functions with an
       * expression body, ...) with its subexpressions; an expression that
       * holds statements is a `MethodNode` instead.
       */
    | OtherExpr(operands: seq<Expr>)

  /** The arguments of `new callee(...)`; `NoArgs` for `new callee` without parentheses (`None` in the source). */
  datatype NewArgs = NoArgs | ArgList(exprs: seq<Expr>)

  datatype Stmt =
    | ExprStmt(expr: Expr)
    | ThrowStmt(arg: Expr)
    | FnDeclStmt(decl: FnDecl)
      /** Any other statement (return, if, loops, nested blocks, ...) with its subexpressions and substatements. */
    | OtherStmt(exprs: seq<Expr>, stmts: seq<Stmt>)

  datatype Block = Block(stmts: seq<Stmt>)

  /**
   * A function: the expressions found in its parameter list (default values,
   * decorators) and its body, which is absent for an overload signature or
   * a `declare`d function.
   */
  datatype Function = Function(params: seq<Expr>, body: Option<Block>)

  /** `function name(...) { ... }` as a declaration; `span` is what `node.span()` returns. */
  datatype FnDecl = FnDecl(span: Span, func: Function)

  /** `function (...) { ... }` as an expression; `span` is what `node.span()` returns. */
  datatype FnExpr = FnExpr(span: Span, func: Function)

  /** A statement consisting of a bare string literal, such as a directive `"use strict";`. */
  predicate IsStrLitStmt(s: Stmt) {
    s.ExprStmt? && s.expr.LitExpr? && s.expr.lit.Str?
  }

  function StrLitValue(s: Stmt): string
    requires IsStrLitStmt(s)
  {
    s.expr.lit.value
  }

  /** The string-literal statement holding `value`. */
  function StrLitStmt(value: string): (s: Stmt)
    ensures IsStrLitStmt(s) && StrLitValue(s) == value
  {
    ExprStmt(LitExpr(Str(value)))
  }
}
