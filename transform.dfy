/**
 * What `transform_fn_body` does to one function: the decision it takes,
 * the body it installs, and the properties of that decision.
 */
module Transform {
  import opened Wrappers
  import opened Text
  import opened Ast
  import opened Directive
  import opened Store
  import opened ErrorBody

  /** The four reasons a function's body becomes an error body. */
  datatype Failure =
    | IncompletePrompt
    | MissingSubstitution
    | ImportsNeeded(imports: string)
    | ParseFailed

  /** The text thrown for each failure. */
  function Message(f: Failure): (msg: string)
    ensures f.ImportsNeeded? ==> StartsWith(msg, IMPORTS_NEEDED) && msg[|IMPORTS_NEEDED|..] == f.imports
  {
    match f
    case IncompletePrompt => INCOMPLETE_PROMPT
    case MissingSubstitution => MISSING_SUBSTITUTION
    case ImportsNeeded(imports) => ImportsNeededMessage(imports)
    case ParseFailed => PARSE_FAILED
  }

  /** The thrown text tells the failures apart, down to the imports named. */
  lemma MessageIdentifiesFailure(f1: Failure, f2: Failure)
    ensures Message(f1) == Message(f2) ==> f1 == f2
  {
    assert INCOMPLETE_PROMPT[0] == MISSING_SUBSTITUTION[0] == '\U{1F916}';
    assert INCOMPLETE_PROMPT[2] == 'I' && MISSING_SUBSTITUTION[2] == 'M';
    assert PARSE_FAILED[0] == 'C';
    forall imports: string ensures ImportsNeededMessage(imports)[0] == 'I' {
      assert ImportsNeededMessage(imports)[0] == IMPORTS_NEEDED[0];
    }
    if Message(f1) == Message(f2) && f1.ImportsNeeded? && f2.ImportsNeeded? {
      assert f1.imports == Message(f1)[|IMPORTS_NEEDED|..];
    }
  }

  /** A body holds a directive when its prologue has a literal starting with the prefix. */
  predicate HasDirective(body: Option<Block>) {
    body.Some? && ScanPrologue(body.value.stmts).Some?
  }

  /** What happens to the body: kept, replaced by an error body, or replaced by parsed code. */
  datatype Decision = Keep | Fail(failure: Failure) | Install(block: Block)

  /**
   * The decision `transform_fn_body` takes for a function at `span` whose
   * body is `body`, given the cache and the fragment parser.
   */
  function Decide(subs: SubstitutionMap, parse: string -> Option<Block>, span: Span, body: Option<Block>): (d: Decision)
    ensures d.Keep? <==> !HasDirective(body)
    ensures d == Fail(IncompletePrompt) <==> HasDirective(body) && ScanPrologue(body.value.stmts).value.Err?
  {
    if body.None? || body.value.stmts == [] then Keep
    else match ScanPrologue(body.value.stmts)
      case None => Keep
      case Some(Err(_)) => Fail(IncompletePrompt)
      case Some(Ok(prompt)) =>
        match Lookup(subs, span, prompt)
        case None => Fail(MissingSubstitution)
        case Some(subst) =>
          if subst.imports.Some? then Fail(ImportsNeeded(subst.imports.value))
          else match parse(subst.code)
            case Some(block) => Install(block)
            case None => Fail(ParseFailed)
  }

  /** The body a decision leaves in place of `body`. */
  function Apply(d: Decision, body: Option<Block>): (r: Option<Block>)
    ensures d.Keep? ==> r == body
    ensures d.Fail? ==> ThrownMessage(r) == Some(Message(d.failure))
    ensures d.Install? ==> r == Some(d.block)
  {
    match d
    case Keep => body
    case Fail(f) => MakePromptErrorBody(Message(f))
    case Install(block) => Some(block)
  }

  /** The new value of `func.body` after `transform_fn_body`. */
  function NewBody(subs: SubstitutionMap, parse: string -> Option<Block>, span: Span, body: Option<Block>): (r: Option<Block>)
    ensures !HasDirective(body) ==> r == body
    ensures HasDirective(body) ==> r.Some?
  {
    Apply(Decide(subs, parse, span, body), body)
  }

  /**
   * A non-empty body is judged only by the outcome of its directive scan:
   * bodies with the same outcome get the same decision.
   */
  lemma DecideDependsOnScan(subs: SubstitutionMap, parse: string -> Option<Block>, span: Span,
                            b1: Block, b2: Block)
    requires b1.stmts != [] && b2.stmts != []
    requires ScanPrologue(b1.stmts) == ScanPrologue(b2.stmts)
    ensures Decide(subs, parse, span, Some(b1)) == Decide(subs, parse, span, Some(b2))
  {
  }

  /**
   * Identity cases: the body is kept exactly when it is absent or no
   * literal of its prologue starts with the prefix (an empty body has an
   * empty prologue).
   */
  lemma KeepExactlyWithoutDirective(subs: SubstitutionMap, parse: string -> Option<Block>, span: Span, body: Option<Block>)
    ensures Decide(subs, parse, span, body).Keep?
            <==> body.None? || forall i :: 0 <= i < |Prologue(body.value.stmts)| ==> !StartsWith(Prologue(body.value.stmts)[i], PROMPT_PREFIX)
    ensures Decide(subs, parse, span, body).Keep? <==> !HasDirective(body)
    ensures !HasDirective(body) ==> NewBody(subs, parse, span, body) == body
  {
    if body.Some? {
      FirstCandidateNone(Prologue(body.value.stmts));
    }
  }

  /**
   * An empty directive gives the "Incomplete prompt" error body whatever the
   * cache and the parser hold, and even when a later literal holds a valid
   * prompt: only the first literal with the prefix counts.
   */
  lemma EmptyDirectiveFails(subs: SubstitutionMap, parse: string -> Option<Block>, span: Span,
                            pre: seq<string>, value: string, rest: seq<Stmt>)
    requires forall i :: 0 <= i < |pre| ==> !StartsWith(pre[i], PROMPT_PREFIX)
    requires IsEmptyDirective(value)
    ensures NewBody(subs, parse, span, Some(Block(Literals(pre) + [StrLitStmt(value)] + rest)))
            == MakePromptErrorBody(INCOMPLETE_PROMPT)
  {
    var stmts := Literals(pre) + [StrLitStmt(value)] + rest;
    FirstDirectiveWins(pre, value, rest);
    assert Candidate(value) == Some(Err(1));
    assert stmts[|pre|] == StrLitStmt(value);
    assert Decide(subs, parse, span, Some(Block(stmts))) == Fail(IncompletePrompt);
  }

  /**
   * A valid first directive is the one looked up, whatever literals follow
   * it: the decision is the one for a body holding that directive alone.
   */
  lemma FirstValidDirectiveDecides(subs: SubstitutionMap, parse: string -> Option<Block>, span: Span,
                                   pre: seq<string>, value: string, rest: seq<Stmt>)
    requires forall i :: 0 <= i < |pre| ==> !StartsWith(pre[i], PROMPT_PREFIX)
    requires StartsWith(value, PROMPT_PREFIX)
    ensures Decide(subs, parse, span, Some(Block(Literals(pre) + [StrLitStmt(value)] + rest)))
            == Decide(subs, parse, span, Some(Block([StrLitStmt(value)])))
  {
    FirstDirectiveWins(pre, value, rest);
    FirstDirectiveWins([], value, []);
    assert Literals([]) + [StrLitStmt(value)] + [] == [StrLitStmt(value)];
    DecideDependsOnScan(subs, parse, span, Block(Literals(pre) + [StrLitStmt(value)] + rest), Block([StrLitStmt(value)]));
  }

  /**
   * A `use prompt:` literal placed after a statement that is not a string
   * literal is no directive: when no earlier statement is one, the body is
   * left as it is.
   */
  lemma LateDirectiveKeepsBody(subs: SubstitutionMap, parse: string -> Option<Block>, span: Span,
                               pre: seq<Stmt>, s: Stmt, rest: seq<Stmt>)
    requires forall i :: 0 <= i < |pre| ==> !(IsStrLitStmt(pre[i]) && StartsWith(StrLitValue(pre[i]), PROMPT_PREFIX))
    requires !IsStrLitStmt(s)
    ensures NewBody(subs, parse, span, Some(Block(pre + [s] + rest))) == Some(Block(pre + [s] + rest))
  {
    LateDirectiveIgnored(pre, s, rest);
    PrologueIsLongestLiteralRun(pre);
    var p := Prologue(pre);
    forall i | 0 <= i < |p| ensures !StartsWith(p[i], PROMPT_PREFIX) {
      assert pre[i] == StrLitStmt(p[i]);
    }
    FirstCandidateNone(p);
  }

  /**
   * The cache is consulted only through the exact key (`span.lo`,
   * `span.hi`, prompt): two caches that agree on that entry lead to the
   * same body.
   */
  lemma OnlyTheSiteEntryMatters(subs1: SubstitutionMap, subs2: SubstitutionMap, parse: string -> Option<Block>,
                                span: Span, body: Option<Block>, prompt: string)
    requires body.Some? && ScanPrologue(body.value.stmts) == Some(Ok(prompt))
    requires Lookup(subs1, span, prompt) == Lookup(subs2, span, prompt)
    ensures NewBody(subs1, parse, span, body) == NewBody(subs2, parse, span, body)
  {
  }

  /**
   * Without a cache entry for the site and the prompt the body becomes the
   * "Missing substitution data" error body, and the parser is never
   * consulted: any other parser gives the same body.
   */
  lemma MissingEntryFails(subs: SubstitutionMap, parse: string -> Option<Block>, other: string -> Option<Block>,
                          span: Span, body: Option<Block>, prompt: string)
    requires body.Some? && ScanPrologue(body.value.stmts) == Some(Ok(prompt))
    requires !HasEntry(subs, NatToString(span.lo), NatToString(span.hi), prompt)
    ensures NewBody(subs, parse, span, body) == MakePromptErrorBody(MISSING_SUBSTITUTION)
    ensures NewBody(subs, other, span, body) == NewBody(subs, parse, span, body)
  {
  }

  /**
   * An entry that declares imports gives an error body whose message ends
   * with the imports text, and its code is never parsed.
   */
  lemma DeclaredImportsFail(subs: SubstitutionMap, parse: string -> Option<Block>, other: string -> Option<Block>,
                            span: Span, body: Option<Block>, prompt: string, imports: string)
    requires body.Some? && ScanPrologue(body.value.stmts) == Some(Ok(prompt))
    requires Lookup(subs, span, prompt).Some? && Lookup(subs, span, prompt).value.imports == Some(imports)
    ensures NewBody(subs, parse, span, body) == MakePromptErrorBody(ImportsNeededMessage(imports))
    ensures ThrownMessage(NewBody(subs, parse, span, body)).value[|IMPORTS_NEEDED|..] == imports
    ensures NewBody(subs, other, span, body) == NewBody(subs, parse, span, body)
  {
    ThrownMessageOfErrorBody(ImportsNeededMessage(imports));
  }

  /**
   * An entry without imports installs the parsed code as the body, or the
   * "Couldn't make it happen." error body when the code does not parse.
   */
  lemma CodeIsParsed(subs: SubstitutionMap, parse: string -> Option<Block>, span: Span, body: Option<Block>,
                     prompt: string, code: string)
    requires body.Some? && ScanPrologue(body.value.stmts) == Some(Ok(prompt))
    requires Lookup(subs, span, prompt) == Some(Substitution(code, None))
    ensures parse(code).Some? ==> NewBody(subs, parse, span, body) == parse(code)
    ensures parse(code).None? ==> NewBody(subs, parse, span, body) == MakePromptErrorBody(PARSE_FAILED)
  {
  }

  /**
   * Every body the transform produces is the old body, an error body with
   * one of the four messages, or a block the parser returned for some code.
   */
  lemma NewBodyShape(subs: SubstitutionMap, parse: string -> Option<Block>, span: Span, body: Option<Block>)
    ensures var nb := NewBody(subs, parse, span, body);
            nb == body
            || (exists f: Failure :: nb == MakePromptErrorBody(Message(f)))
            || (nb.Some? && exists code :: parse(code) == nb)
  {
    match Decide(subs, parse, span, body)
    case Keep =>
    case Fail(f) =>
      assert NewBody(subs, parse, span, body) == MakePromptErrorBody(Message(f));
    case Install(block) =>
      var prompt := ScanPrologue(body.value.stmts).value.value;
      assert parse(Lookup(subs, span, prompt).value.code) == Some(block);
  }

  /** An error body holds no directive, so a second pass leaves it alone. */
  lemma ErrorBodyIsFixpoint(subs: SubstitutionMap, parse: string -> Option<Block>, span: Span, msg: string)
    ensures NewBody(subs, parse, span, MakePromptErrorBody(msg)) == MakePromptErrorBody(msg)
  {
    assert !IsStrLitStmt(ThrowError(msg));
    assert Prologue([ThrowError(msg)]) == [];
  }

  /** The directive `use prompt: foo` alone in a body asks for the prompt "foo". */
  lemma FooScan()
    ensures ScanPrologue([StrLitStmt("use prompt: foo")]) == Some(Ok("foo"))
  {
    var stmts := [StrLitStmt("use prompt: foo")];
    assert Prologue(stmts) == ["use prompt: foo"];
    assert AfterPrefix("use prompt: foo") == " foo";
    assert Trim(" foo") == "foo" by {
      assert TrimmedAt("foo", " foo", 1, 4);
      TrimUnique(Trim(" foo"), "foo", " foo");
    }
    assert Candidate("use prompt: foo") == Some(Ok("foo"));
  }

  /**
   * The example of a cache entry at (10, 20, "foo") whose code is
   * `return 1;`: a function at exactly that span with that directive gets
   * the parsed code; at another span it gets the missing-data error body.
   */
  lemma SiteExample(parse: string -> Option<Block>, parsed: Block, other: Span)
    requires parse("return 1;") == Some(parsed)
    requires other != Span(10, 20)
    ensures var subs := Singleton(Span(10, 20), "foo", Substitution("return 1;", None));
            var body := Some(Block([StrLitStmt("use prompt: foo")]));
            NewBody(subs, parse, Span(10, 20), body) == Some(parsed)
            && NewBody(subs, parse, other, body) == MakePromptErrorBody(MISSING_SUBSTITUTION)
  {
    FooScan();
    LookupIsExact(Span(10, 20), "foo", Substitution("return 1;", None), Span(10, 20), "foo");
    LookupIsExact(Span(10, 20), "foo", Substitution("return 1;", None), other, "foo");
  }
}
