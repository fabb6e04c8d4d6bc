/**
 * The replacement body for a function whose prompt cannot be honoured: a
 * block that throws `new Error(msg)` when the function runs.
 */
module ErrorBody {
  import opened Wrappers
  import opened Text
  import opened Ast

  // The longer messages are written in pieces, which the verifier can unfold.
  const ROBOT: string := "\U{1F916} "
  const INCOMPLETE_PROMPT: string := ROBOT + "Incomplete prompt!"
  const MISSING_SUBSTITUTION: string := ROBOT + "Missing substitution data. " + "Whoops that's probably my fault."
  const IMPORTS_NEEDED: string := "It would appear you need " + "to add some imports.\n"
  const PARSE_FAILED: string := "Couldn't make it happen."

  /** The message naming the imports a substitution declared. */
  function ImportsNeededMessage(imports: string): (msg: string)
    ensures StartsWith(msg, IMPORTS_NEEDED) && msg[|IMPORTS_NEEDED|..] == imports
  {
    IMPORTS_NEEDED + imports
  }

  /** The statement `throw new Error(msg)`. */
  function ThrowError(msg: string): (s: Stmt)
    ensures !IsStrLitStmt(s)
    ensures s.ThrowStmt? && s.arg.NewExpr? && s.arg.callee == IdentExpr("Error")
    ensures s.arg.args == ArgList([LitExpr(Str(msg))])
  {
    ThrowStmt(NewExpr(IdentExpr("Error"), ArgList([LitExpr(Str(msg))])))
  }

  /** `make_prompt_error_body`. */
  function MakePromptErrorBody(msg: string): (body: Option<Block>)
    ensures body.Some? && body.value.stmts == [ThrowError(msg)]
  {
    Some(Block([ThrowError(msg)]))
  }

  /**
   * The message an error body throws, or `None` for a body of any other
   * shape: one statement, `throw` of `new Error(...)` with a single string
   * literal argument.
   */
  function ThrownMessage(body: Option<Block>): Option<string> {
    if body.Some? && |body.value.stmts| == 1 then
      match body.value.stmts[0]
      case ThrowStmt(NewExpr(IdentExpr("Error"), ArgList(args))) =>
        if |args| == 1 && args[0].LitExpr? && args[0].lit.Str? then Some(args[0].lit.value) else None
      case _ => None
    else None
  }

  /** The message is recovered from the error body that carries it. */
  lemma ThrownMessageOfErrorBody(msg: string)
    ensures ThrownMessage(MakePromptErrorBody(msg)) == Some(msg)
  {
  }

  /** Error bodies with different messages differ. */
  lemma ErrorBodyInjective(m1: string, m2: string)
    ensures MakePromptErrorBody(m1) == MakePromptErrorBody(m2) ==> m1 == m2
  {
    ThrownMessageOfErrorBody(m1);
    ThrownMessageOfErrorBody(m2);
  }
}
