/**
 * Recognising a `"use prompt: <description>"` directive in the leading
 * string literals of a function body.
 */
module Directive {
  import opened Wrappers
  import opened Text
  import opened Ast

  const PROMPT_PREFIX: string := "use prompt:"

  /** What follows the prefix in a literal that starts with it (the source slices at byte 11). */
  function AfterPrefix(value: string): (rest: string)
    requires StartsWith(value, PROMPT_PREFIX)
    ensures value == PROMPT_PREFIX + rest
  {
    value[|PROMPT_PREFIX|..]
  }

  /**
   * A prompt read from a literal starting with the prefix: the text after
   * the prefix with surrounding whitespace removed, and not empty.
   */
  ghost predicate IsPromptOf(prompt: string, value: string) {
    StartsWith(value, PROMPT_PREFIX) && prompt != [] && IsTrimOf(prompt, AfterPrefix(value))
  }

  /** A literal starting with the prefix but holding no description after it. */
  predicate IsEmptyDirective(value: string) {
    StartsWith(value, PROMPT_PREFIX) && AllWhitespace(AfterPrefix(value))
  }

  datatype ParseMaybePromptError = NotPrompt | PromptEmpty

  /** `parse_maybe_prompt`: read the prompt out of one statement, if it is a directive. */
  function ParseMaybePrompt(stmt: Stmt): (r: Result<string, ParseMaybePromptError>)
    ensures r == Err(NotPrompt) <==> !(IsStrLitStmt(stmt) && StartsWith(StrLitValue(stmt), PROMPT_PREFIX))
    ensures r == Err(PromptEmpty) <==> IsStrLitStmt(stmt) && IsEmptyDirective(StrLitValue(stmt))
    ensures r.Ok? ==> IsStrLitStmt(stmt) && IsPromptOf(r.value, StrLitValue(stmt))
  {
    if !(stmt.ExprStmt? && stmt.expr.LitExpr?) then Err(NotPrompt)
    else match stmt.expr.lit
      case OtherLit(_) => Err(NotPrompt)
      case Str(value) =>
        if !StartsWith(value, PROMPT_PREFIX) then Err(NotPrompt)
        else
          var prompt := Trim(value[11..]);
          if prompt == [] then Err(PromptEmpty) else Ok(prompt)
  }

  /**
   * The directive prologue: the values of the longest run of string-literal
   * statements at the start of `stmts` (the `map_while` in `transform_fn_body`).
   */
  function Prologue(stmts: seq<Stmt>): (r: seq<string>)
    ensures |r| <= |stmts|
  {
    if stmts == [] || !IsStrLitStmt(stmts[0]) then []
    else [StrLitValue(stmts[0])] + Prologue(stmts[1..])
  }

  /**
   * The prologue is the longest prefix of string-literal statements: its
   * values are those of the first `|Prologue(stmts)|` statements, and the
   * statement after them, if any, is not a string literal.
   */
  lemma {:induction false} PrologueIsLongestLiteralRun(stmts: seq<Stmt>)
    ensures forall i :: 0 <= i < |Prologue(stmts)| ==> stmts[i] == StrLitStmt(Prologue(stmts)[i])
    ensures |Prologue(stmts)| < |stmts| ==> !IsStrLitStmt(stmts[|Prologue(stmts)|])
  {
    if stmts != [] && IsStrLitStmt(stmts[0]) {
      PrologueIsLongestLiteralRun(stmts[1..]);
      var r := Prologue(stmts);
      assert r == [StrLitValue(stmts[0])] + Prologue(stmts[1..]);
      forall i | 0 <= i < |r| ensures stmts[i] == StrLitStmt(r[i]) {
        if i > 0 { assert stmts[i] == stmts[1..][i - 1]; }
      }
    }
  }

  /**
   * The closure of the `filter_map` in `transform_fn_body`: `None` for a
   * literal without the prefix, `Some(Err(1))` for an empty directive,
   * `Some(Ok(prompt))` otherwise.
   */
  function Candidate(value: string): (r: Option<Result<string, int>>)
    ensures r.None? <==> !StartsWith(value, PROMPT_PREFIX)
    ensures r == Some(Err(1)) <==> IsEmptyDirective(value)
    ensures r.Some? ==> r.value.Ok? || r.value == Err(1)
    ensures r.Some? && r.value.Ok? ==> IsPromptOf(r.value.value, value)
  {
    if !StartsWith(value, PROMPT_PREFIX) then None
    else
      var prompt := Trim(value[11..]);
      if prompt == [] then Some(Err(1)) else Some(Ok(prompt))
  }

  /** `filter_map(Candidate).next()`: the first literal that yields a candidate. */
  function FirstCandidate(prologue: seq<string>): (r: Option<Result<string, int>>)
    ensures r.Some? ==> r.value == Err(1) || (r.value.Ok? && r.value.value != [] && IsTrimmed(r.value.value))
  {
    if prologue == [] then None
    else match Candidate(prologue[0])
      case Some(c) => Some(c)
      case None => FirstCandidate(prologue[1..])
  }

  /** The directive scan `transform_fn_body` performs on a body's statements. */
  function ScanPrologue(stmts: seq<Stmt>): (r: Option<Result<string, int>>)
    ensures stmts == [] || !IsStrLitStmt(stmts[0]) ==> r.None?
    ensures r.Some? ==> r.value == Err(1) || (r.value.Ok? && r.value.value != [] && IsTrimmed(r.value.value))
  {
    FirstCandidate(Prologue(stmts))
  }

  /** No directive is found exactly when no prologue literal starts with the prefix. */
  lemma {:induction false} FirstCandidateNone(prologue: seq<string>)
    ensures FirstCandidate(prologue).None?
            <==> forall i :: 0 <= i < |prologue| ==> !StartsWith(prologue[i], PROMPT_PREFIX)
  {
    if prologue != [] {
      FirstCandidateNone(prologue[1..]);
      assert forall i :: 1 <= i < |prologue| ==> prologue[i] == prologue[1..][i - 1];
    }
  }

  /** Only the first prologue literal with the prefix decides the outcome. */
  lemma {:induction false} FirstCandidateAt(prologue: seq<string>, k: nat)
    requires k < |prologue| && StartsWith(prologue[k], PROMPT_PREFIX)
    requires forall i :: 0 <= i < k ==> !StartsWith(prologue[i], PROMPT_PREFIX)
    ensures FirstCandidate(prologue) == Candidate(prologue[k])
  {
    if k > 0 {
      assert forall i :: 0 <= i < k - 1 ==> prologue[1..][i] == prologue[i + 1];
      FirstCandidateAt(prologue[1..], k - 1);
    }
  }

  /** The prologue ends at the first statement that is not a string literal. */
  lemma {:induction false} PrologueStops(pre: seq<Stmt>, s: Stmt, rest: seq<Stmt>)
    requires !IsStrLitStmt(s)
    ensures Prologue(pre + [s] + rest) == Prologue(pre)
  {
    if pre != [] {
      assert (pre + [s] + rest)[1..] == pre[1..] + [s] + rest;
      PrologueStops(pre[1..], s, rest);
    }
  }

  /** The string-literal statements holding `values`, in order. */
  function Literals(values: seq<string>): (stmts: seq<Stmt>)
    ensures |stmts| == |values|
    ensures forall i :: 0 <= i < |values| ==> stmts[i] == StrLitStmt(values[i])
  {
    if values == [] then [] else [StrLitStmt(values[0])] + Literals(values[1..])
  }

  /**
   * A directive after a statement that is not a string literal is ignored:
   * what follows the end of the prologue never affects the scan.
   */
  lemma LateDirectiveIgnored(pre: seq<Stmt>, s: Stmt, rest: seq<Stmt>)
    requires !IsStrLitStmt(s)
    ensures ScanPrologue(pre + [s] + rest) == ScanPrologue(pre)
  {
    PrologueStops(pre, s, rest);
  }

  /**
   * First match wins: after leading literals without the prefix, the first
   * literal with the prefix alone decides the scan, whatever follows it;
   * an empty first directive stays empty even if a later one is valid.
   */
  lemma {:induction false} FirstDirectiveWins(pre: seq<string>, value: string, rest: seq<Stmt>)
    requires forall i :: 0 <= i < |pre| ==> !StartsWith(pre[i], PROMPT_PREFIX)
    requires StartsWith(value, PROMPT_PREFIX)
    ensures ScanPrologue(Literals(pre) + [StrLitStmt(value)] + rest) == Candidate(value)
  {
    var stmts := Literals(pre) + [StrLitStmt(value)] + rest;
    if pre == [] {
      assert stmts == [StrLitStmt(value)] + rest;
      assert Prologue(stmts) == [value] + Prologue(rest);
    } else {
      assert stmts[0] == StrLitStmt(pre[0]);
      assert stmts[1..] == Literals(pre[1..]) + [StrLitStmt(value)] + rest;
      assert Prologue(stmts) == [pre[0]] + Prologue(stmts[1..]);
      assert Candidate(pre[0]).None?;
      FirstDirectiveWins(pre[1..], value, rest);
    }
  }

  /** `parse_maybe_prompt` folded into the scanner's outcome type. */
  function AsCandidate(r: Result<string, ParseMaybePromptError>): Option<Result<string, int>>
  {
    match r
    case Err(NotPrompt) => None
    case Err(PromptEmpty) => Some(Err(1))
    case Ok(prompt) => Some(Ok(prompt))
  }

  /**
   * A scan written with `parse_maybe_prompt` (which the source defines but
   * never calls): the first statement of the prologue it accepts.
   */
  function ScanWithParseMaybePrompt(stmts: seq<Stmt>): Option<Result<string, int>>
  {
    if stmts == [] || !IsStrLitStmt(stmts[0]) then None
    else match AsCandidate(ParseMaybePrompt(stmts[0]))
      case Some(c) => Some(c)
      case None => ScanWithParseMaybePrompt(stmts[1..])
  }

  /** `parse_maybe_prompt` classifies every prologue literal as the inline closure does. */
  lemma {:induction false} ParseMaybePromptAgrees(stmts: seq<Stmt>)
    ensures ScanWithParseMaybePrompt(stmts) == ScanPrologue(stmts)
  {
    if stmts != [] && IsStrLitStmt(stmts[0]) {
      ParseMaybePromptAgrees(stmts[1..]);
      assert AsCandidate(ParseMaybePrompt(stmts[0])) == Candidate(StrLitValue(stmts[0]));
    }
  }
}
