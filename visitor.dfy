/**
 * The traversal: `TransformVisitor` visits the whole program, and at every
 * function declaration and function expression it first rewrites the
 * children, then applies `transform_fn_body` to the function.
 */
module Visitor {
  import opened Wrappers
  import opened Text
  import opened Ast
  import opened Directive
  import opened Store
  import opened ErrorBody
  import opened Transform

  // The rewritten tree, children before parents. Only the functions of
  // declarations and of function expressions are passed to
  // `transform_fn_body`; methods are visited for what they contain.

  function RewriteExpr(subs: SubstitutionMap, parse: string -> Option<Block>, e: Expr): (r: Expr)
    ensures e.LitExpr? || e.IdentExpr? ==> r == e
    ensures r.LitExpr? <==> e.LitExpr?
    ensures e.FnExprNode? <==> r.FnExprNode?
    ensures e.FnExprNode? ==> r.fnExpr.span == e.fnExpr.span
    decreases e
  {
    match e
    case LitExpr(_) => e
    case IdentExpr(_) => e
    case NewExpr(callee, args) =>
      NewExpr(RewriteExpr(subs, parse, callee),
              if args.NoArgs? then NoArgs else ArgList(RewriteExprs(subs, parse, args.exprs)))
    case FnExprNode(fe) => FnExprNode(RewriteFnExpr(subs, parse, fe))
    case MethodNode(f) => MethodNode(RewriteChildren(subs, parse, f))
    case OtherExpr(operands) => OtherExpr(RewriteExprs(subs, parse, operands))
  }

  function RewriteExprs(subs: SubstitutionMap, parse: string -> Option<Block>, es: seq<Expr>): (r: seq<Expr>)
    ensures |r| == |es|
    ensures forall i :: 0 <= i < |es| ==> r[i] == RewriteExpr(subs, parse, es[i])
    decreases es
  {
    seq(|es|, i requires 0 <= i < |es| => RewriteExpr(subs, parse, es[i]))
  }

  function RewriteStmt(subs: SubstitutionMap, parse: string -> Option<Block>, s: Stmt): (r: Stmt)
    ensures s.FnDeclStmt? <==> r.FnDeclStmt?
    ensures s.FnDeclStmt? ==> r.decl.span == s.decl.span
    ensures s.ExprStmt? <==> r.ExprStmt?
    decreases s
  {
    match s
    case ExprStmt(e) => ExprStmt(RewriteExpr(subs, parse, e))
    case ThrowStmt(e) => ThrowStmt(RewriteExpr(subs, parse, e))
    case FnDeclStmt(d) => FnDeclStmt(RewriteFnDecl(subs, parse, d))
    case OtherStmt(exprs, stmts) => OtherStmt(RewriteExprs(subs, parse, exprs), RewriteStmts(subs, parse, stmts))
  }

  function RewriteStmts(subs: SubstitutionMap, parse: string -> Option<Block>, ss: seq<Stmt>): (r: seq<Stmt>)
    ensures |r| == |ss|
    ensures forall i :: 0 <= i < |ss| ==> r[i] == RewriteStmt(subs, parse, ss[i])
    decreases ss
  {
    seq(|ss|, i requires 0 <= i < |ss| => RewriteStmt(subs, parse, ss[i]))
  }

  /** `visit_mut_children_with` on a function: its parameter list and its body. */
  function RewriteChildren(subs: SubstitutionMap, parse: string -> Option<Block>, f: Function): (r: Function)
    ensures |r.params| == |f.params|
    ensures r.body.None? <==> f.body.None?
    ensures f.body.Some? ==> |r.body.value.stmts| == |f.body.value.stmts|
    decreases f
  {
    Function(RewriteExprs(subs, parse, f.params),
             if f.body.None? then None else Some(Block(RewriteStmts(subs, parse, f.body.value.stmts))))
  }

  function RewriteFnDecl(subs: SubstitutionMap, parse: string -> Option<Block>, d: FnDecl): (r: FnDecl)
    ensures r.span == d.span && |r.func.params| == |d.func.params|
    decreases d
  {
    var f := RewriteChildren(subs, parse, d.func);
    FnDecl(d.span, f.(body := NewBody(subs, parse, d.span, f.body)))
  }

  function RewriteFnExpr(subs: SubstitutionMap, parse: string -> Option<Block>, fe: FnExpr): (r: FnExpr)
    ensures r.span == fe.span && |r.func.params| == |fe.func.params|
    decreases fe
  {
    var f := RewriteChildren(subs, parse, fe.func);
    FnExpr(fe.span, f.(body := NewBody(subs, parse, fe.span, f.body)))
  }

  /**
   * Rewriting never turns a statement into a string literal or a string
   * literal into anything else.
   */
  lemma RewriteStmtKeepsLiterals(subs: SubstitutionMap, parse: string -> Option<Block>, s: Stmt)
    ensures IsStrLitStmt(RewriteStmt(subs, parse, s)) <==> IsStrLitStmt(s)
    ensures IsStrLitStmt(s) ==> RewriteStmt(subs, parse, s) == s
  {
  }

  /**
   * The children of a function are rewritten before it, but this leaves its
   * directive prologue as it was: prologue literals hold no functions.
   */
  lemma {:induction false} RewriteKeepsPrologue(subs: SubstitutionMap, parse: string -> Option<Block>, ss: seq<Stmt>)
    ensures Prologue(RewriteStmts(subs, parse, ss)) == Prologue(ss)
  {
    if ss != [] {
      var r := RewriteStmts(subs, parse, ss);
      RewriteStmtKeepsLiterals(subs, parse, ss[0]);
      assert r[0] == RewriteStmt(subs, parse, ss[0]);
      if IsStrLitStmt(ss[0]) {
        assert r[1..] == RewriteStmts(subs, parse, ss[1..]);
        RewriteKeepsPrologue(subs, parse, ss[1..]);
      }
    }
  }

  /**
   * Post-order: a function's own decision is taken on its already
   * rewritten children, and it is the decision its original body would
   * have got.
   */
  lemma DecisionIgnoresRewrittenChildren(subs: SubstitutionMap, parse: string -> Option<Block>, span: Span, f: Function)
    ensures Decide(subs, parse, span, RewriteChildren(subs, parse, f).body) == Decide(subs, parse, span, f.body)
  {
    if f.body.Some? && f.body.value.stmts != [] {
      var stmts := f.body.value.stmts;
      RewriteKeepsPrologue(subs, parse, stmts);
      DecideDependsOnScan(subs, parse, span, Block(RewriteStmts(subs, parse, stmts)), f.body.value);
    }
  }

  /**
   * The outcome at a function declaration: its span is kept, its parameter
   * list is rewritten, and its body is the rewritten body when it holds no
   * directive, the error body when the directive fails, and the parsed code
   * otherwise.
   */
  lemma FnDeclOutcome(subs: SubstitutionMap, parse: string -> Option<Block>, d: FnDecl)
    ensures var r := RewriteFnDecl(subs, parse, d);
            var rewritten := RewriteChildren(subs, parse, d.func);
            r.span == d.span
            && r.func.params == rewritten.params
            && match Decide(subs, parse, d.span, d.func.body)
               case Keep => r.func.body == rewritten.body
               case Fail(failure) => r.func.body == MakePromptErrorBody(Message(failure))
               case Install(block) => r.func.body == Some(block)
  {
    DecisionIgnoresRewrittenChildren(subs, parse, d.span, d.func);
  }

  /** The same outcome at a function expression. */
  lemma FnExprOutcome(subs: SubstitutionMap, parse: string -> Option<Block>, fe: FnExpr)
    ensures var r := RewriteFnExpr(subs, parse, fe);
            var rewritten := RewriteChildren(subs, parse, fe.func);
            r.span == fe.span
            && r.func.params == rewritten.params
            && match Decide(subs, parse, fe.span, fe.func.body)
               case Keep => r.func.body == rewritten.body
               case Fail(failure) => r.func.body == MakePromptErrorBody(Message(failure))
               case Install(block) => r.func.body == Some(block)
  {
    DecisionIgnoresRewrittenChildren(subs, parse, fe.span, fe.func);
  }

  // A tree in which no function declaration or function expression holds a
  // directive.

  predicate NoDirectiveExpr(e: Expr)
    decreases e
  {
    match e
    case LitExpr(_) => true
    case IdentExpr(_) => true
    case NewExpr(callee, args) =>
      NoDirectiveExpr(callee) && (args.ArgList? ==> NoDirectiveExprs(args.exprs))
    case FnExprNode(fe) => !HasDirective(fe.func.body) && NoDirectiveFunction(fe.func)
    case MethodNode(f) => NoDirectiveFunction(f)
    case OtherExpr(operands) => NoDirectiveExprs(operands)
  }

  predicate NoDirectiveExprs(es: seq<Expr>)
    decreases es
  {
    forall i :: 0 <= i < |es| ==> NoDirectiveExpr(es[i])
  }

  predicate NoDirectiveStmt(s: Stmt)
    decreases s
  {
    match s
    case ExprStmt(e) => NoDirectiveExpr(e)
    case ThrowStmt(e) => NoDirectiveExpr(e)
    case FnDeclStmt(d) => !HasDirective(d.func.body) && NoDirectiveFunction(d.func)
    case OtherStmt(exprs, stmts) => NoDirectiveExprs(exprs) && NoDirectiveStmts(stmts)
  }

  predicate NoDirectiveStmts(ss: seq<Stmt>)
    decreases ss
  {
    forall i :: 0 <= i < |ss| ==> NoDirectiveStmt(ss[i])
  }

  /** The children of `f` hold no directive. */
  predicate NoDirectiveFunction(f: Function)
    decreases f
  {
    NoDirectiveExprs(f.params) && (f.body.Some? ==> NoDirectiveStmts(f.body.value.stmts))
  }

  /** A tree without directives is left exactly as it is. */
  lemma {:induction false} NoDirectiveExprUnchanged(subs: SubstitutionMap, parse: string -> Option<Block>, e: Expr)
    requires NoDirectiveExpr(e)
    ensures RewriteExpr(subs, parse, e) == e
    decreases e, 1
  {
    match e
    case LitExpr(_) =>
    case IdentExpr(_) =>
    case NewExpr(callee, args) =>
      NoDirectiveExprUnchanged(subs, parse, callee);
      if args.ArgList? { NoDirectiveExprsUnchanged(subs, parse, args.exprs); }
    case FnExprNode(fe) =>
      NoDirectiveFunctionUnchanged(subs, parse, fe.func);
      KeepExactlyWithoutDirective(subs, parse, fe.span, fe.func.body);
    case MethodNode(f) => NoDirectiveFunctionUnchanged(subs, parse, f);
    case OtherExpr(operands) => NoDirectiveExprsUnchanged(subs, parse, operands);
  }

  lemma {:induction false} NoDirectiveExprsUnchanged(subs: SubstitutionMap, parse: string -> Option<Block>, es: seq<Expr>)
    requires NoDirectiveExprs(es)
    ensures RewriteExprs(subs, parse, es) == es
    decreases es, 0
  {
    forall i | 0 <= i < |es| ensures RewriteExprs(subs, parse, es)[i] == es[i] {
      NoDirectiveExprUnchanged(subs, parse, es[i]);
    }
  }

  lemma {:induction false} NoDirectiveStmtUnchanged(subs: SubstitutionMap, parse: string -> Option<Block>, s: Stmt)
    requires NoDirectiveStmt(s)
    ensures RewriteStmt(subs, parse, s) == s
    decreases s, 1
  {
    match s
    case ExprStmt(e) => NoDirectiveExprUnchanged(subs, parse, e);
    case ThrowStmt(e) => NoDirectiveExprUnchanged(subs, parse, e);
    case FnDeclStmt(d) =>
      NoDirectiveFunctionUnchanged(subs, parse, d.func);
      KeepExactlyWithoutDirective(subs, parse, d.span, d.func.body);
    case OtherStmt(exprs, stmts) =>
      NoDirectiveExprsUnchanged(subs, parse, exprs);
      NoDirectiveStmtsUnchanged(subs, parse, stmts);
  }

  /**
   * For all programs without a leading `use prompt:` literal in any
   * function, the transform is the identity.
   */
  lemma {:induction false} NoDirectiveStmtsUnchanged(subs: SubstitutionMap, parse: string -> Option<Block>, ss: seq<Stmt>)
    requires NoDirectiveStmts(ss)
    ensures RewriteStmts(subs, parse, ss) == ss
    decreases ss, 0
  {
    forall i | 0 <= i < |ss| ensures RewriteStmts(subs, parse, ss)[i] == ss[i] {
      NoDirectiveStmtUnchanged(subs, parse, ss[i]);
    }
  }

  lemma {:induction false} NoDirectiveFunctionUnchanged(subs: SubstitutionMap, parse: string -> Option<Block>, f: Function)
    requires NoDirectiveFunction(f)
    ensures RewriteChildren(subs, parse, f) == f
    decreases f, 0
  {
    NoDirectiveExprsUnchanged(subs, parse, f.params);
    if f.body.Some? {
      NoDirectiveStmtsUnchanged(subs, parse, f.body.value.stmts);
    }
  }

  /**
   * `TransformVisitor`: the cache, already loaded, and the fragment parser
   * `make_block_stmt_from_source`, which the model takes as given.
   */
  class TransformVisitor {
    const substitutions: SubstitutionMap
    const parseBlock: string -> Option<Block>

    constructor (substitutions: SubstitutionMap, parseBlock: string -> Option<Block>)
      ensures this.substitutions == substitutions && this.parseBlock == parseBlock
    {
      this.substitutions := substitutions;
      this.parseBlock := parseBlock;
    }

    /** `transform_fn_body`: update `func.body` in place (here: return the updated function). */
    method TransformFnBody(func: Function, span: Span) returns (result: Function)
      ensures result == func.(body := NewBody(substitutions, parseBlock, span, func.body))
    {
      result := func;
      if func.body.None? {
        return;
      }
      var body := func.body.value;
      if |body.stmts| == 0 {
        return;
      }
      var prologue := Prologue(body.stmts);
      var prompt := FirstCandidate(prologue);
      if prompt.None? {
        return;
      }
      if prompt.value.Err? {
        result := func.(body := MakePromptErrorBody(INCOMPLETE_PROMPT));
        return;
      }
      var text := prompt.value.value;
      var lo := NatToString(span.lo);
      var hi := NatToString(span.hi);
      var subst: Option<Substitution> := None;
      if lo in substitutions {
        var byEnd := substitutions[lo];
        if hi in byEnd {
          var byPrompt := byEnd[hi];
          if text in byPrompt {
            subst := Some(byPrompt[text]);
          }
        }
      }
      if subst.None? {
        result := func.(body := MakePromptErrorBody(MISSING_SUBSTITUTION));
        return;
      }
      if subst.value.imports.Some? {
        result := func.(body := MakePromptErrorBody(ImportsNeededMessage(subst.value.imports.value)));
        return;
      }
      var parsed := parseBlock(subst.value.code);
      if parsed.Some? {
        result := func.(body := Some(parsed.value));
      } else {
        result := func.(body := MakePromptErrorBody(PARSE_FAILED));
      }
    }

    /** `visit_mut_fn_decl`: the children first, then the function itself. */
    method VisitMutFnDecl(node: FnDecl) returns (result: FnDecl)
      ensures result == RewriteFnDecl(substitutions, parseBlock, node)
      decreases node
    {
      var func := VisitMutFunction(node.func);
      func := TransformFnBody(func, node.span);
      result := FnDecl(node.span, func);
    }

    /** `visit_mut_fn_expr`: the children first, then the function itself. */
    method VisitMutFnExpr(node: FnExpr) returns (result: FnExpr)
      ensures result == RewriteFnExpr(substitutions, parseBlock, node)
      decreases node
    {
      var func := VisitMutFunction(node.func);
      func := TransformFnBody(func, node.span);
      result := FnExpr(node.span, func);
    }

    /** The default visit of a function's children. */
    method VisitMutFunction(f: Function) returns (result: Function)
      ensures result == RewriteChildren(substitutions, parseBlock, f)
      decreases f
    {
      var params := VisitMutExprs(f.params);
      result := f.(params := params);
      if f.body.Some? {
        var stmts := VisitMutStmts(f.body.value.stmts);
        result := result.(body := Some(Block(stmts)));
      }
    }

    method VisitMutExpr(e: Expr) returns (result: Expr)
      ensures result == RewriteExpr(substitutions, parseBlock, e)
      decreases e
    {
      match e
      case LitExpr(_) => result := e;
      case IdentExpr(_) => result := e;
      case NewExpr(callee, args) =>
        var c := VisitMutExpr(callee);
        if args.ArgList? {
          var a := VisitMutExprs(args.exprs);
          result := NewExpr(c, ArgList(a));
        } else {
          result := NewExpr(c, NoArgs);
        }
      case FnExprNode(fe) =>
        var r := VisitMutFnExpr(fe);
        result := FnExprNode(r);
      case MethodNode(f) =>
        var r := VisitMutFunction(f);
        result := MethodNode(r);
      case OtherExpr(operands) =>
        var r := VisitMutExprs(operands);
        result := OtherExpr(r);
    }

    /** Each expression of the list in turn, updated in place. */
    method VisitMutExprs(es: seq<Expr>) returns (result: seq<Expr>)
      ensures result == RewriteExprs(substitutions, parseBlock, es)
      decreases es
    {
      result := es;
      var i := 0;
      while i < |result|
        invariant 0 <= i <= |result| == |es|
        invariant forall k :: 0 <= k < i ==> result[k] == RewriteExpr(substitutions, parseBlock, es[k])
        invariant forall k :: i <= k < |es| ==> result[k] == es[k]
      {
        var e := VisitMutExpr(result[i]);
        result := result[i := e];
        i := i + 1;
      }
    }

    method VisitMutStmt(s: Stmt) returns (result: Stmt)
      ensures result == RewriteStmt(substitutions, parseBlock, s)
      decreases s
    {
      match s
      case ExprStmt(e) =>
        var r := VisitMutExpr(e);
        result := ExprStmt(r);
      case ThrowStmt(e) =>
        var r := VisitMutExpr(e);
        result := ThrowStmt(r);
      case FnDeclStmt(d) =>
        var r := VisitMutFnDecl(d);
        result := FnDeclStmt(r);
      case OtherStmt(exprs, stmts) =>
        var es := VisitMutExprs(exprs);
        var ss := VisitMutStmts(stmts);
        result := OtherStmt(es, ss);
    }

    /** Each statement of the list in turn, updated in place; also the visit of a whole program. */
    method VisitMutStmts(ss: seq<Stmt>) returns (result: seq<Stmt>)
      ensures result == RewriteStmts(substitutions, parseBlock, ss)
      decreases ss
    {
      result := ss;
      var i := 0;
      while i < |result|
        invariant 0 <= i <= |result| == |ss|
        invariant forall k :: 0 <= k < i ==> result[k] == RewriteStmt(substitutions, parseBlock, ss[k])
        invariant forall k :: i <= k < |ss| ==> result[k] == ss[k]
      {
        var s := VisitMutStmt(result[i]);
        result := result[i := s];
        i := i + 1;
      }
    }
  }
}
