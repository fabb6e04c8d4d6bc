# swc-plugin-use-prompt: the per-function prompt-directive transform

This project models the transform in `src/lib.rs` of swc-plugin-use-prompt, an
swc plugin. A developer marks a function with a leading string literal
`"use prompt: <description>"`. An external generator later stores code for that
description in a cache, keyed by the function's start offset, end offset and
prompt text. During compilation the plugin visits every function declaration
and function expression, children first. For each one it decides the new body:

- the body is kept when there is no directive;
- it becomes a block that throws `new Error(msg)` when the directive is empty,
  when the cache has no entry, when the entry declares imports, or when the
  entry's code does not parse;
- otherwise it becomes the parsed code.

Modules, leaf first:

- `Wrappers` (wrappers.dfy): `Option` and `Result`.
- `Text` (text.dfy): `starts_with`, `trim` with Unicode whitespace, and the
  decimal `to_string` of an offset, with its inverse.
- `Ast` (ast.dfy): a small ECMAScript tree. It has string-literal statements,
  `throw`, `new`, function declarations and function expressions (each with
  its span), methods, and "other" nodes that only carry their subtrees.
- `Directive` (directive.dfy): `parse_maybe_prompt`, the prologue
  (`map_while`) and the first-candidate scan (`filter_map(..).next()`).
- `Store` (store.dfy): `Substitution`, the three-level `SubstitutionMap` and
  the lookup.
- `ErrorBody` (error_body.dfy): `make_prompt_error_body` and the four messages.
- `Transform` (transform.dfy): the decision `transform_fn_body` takes
  (`Decide`), the body it installs (`NewBody`), and the properties of both.
- `Visitor` (visitor.dfy): the post-order rewrite of the whole tree as
  functions, and the class `TransformVisitor`. Its methods do what the Rust
  methods do, step by step, and each one is proved equal to the matching
  function.

The parser `make_block_stmt_from_source` is a parameter of the visitor:
`parseBlock: string -> Option<Block>`. `None` stands for the parser's `Err`.
The cache is an already-loaded `map<string, map<string, map<string, Substitution>>>`.

Three behaviours of this file worth stating; the first two are at src/lib.rs:205-217:

- A directive with no cache entry gets the "Missing substitution data" error
  body. It is not left untouched for a later generation.
- An entry that declares imports is always rejected with the "you need to add
  some imports" error body. There is no import hygiene and no splicing.
- Nothing checks that `span.lo < span.hi`. Offsets are used only as keys.

## Model

| member | source | states |
|---|---|---|
| Text.Trim | src/lib.rs:72 | the result is the input with surrounding whitespace cut off (whitespace on both sides, neither end whitespace), and it is empty exactly when the input is all whitespace |
| Text.TrimUnique | src/lib.rs:72 | only one string is the trim of a given string, so the trim characterization fixes the prompt text |
| Text.NatToString | src/lib.rs:197-198 | an offset's key is a canonical decimal (digits only, no leading zero), and it starts with '0' only for offset 0 |
| Text.ParseNatToString | src/lib.rs:197-198 | reading back an offset's decimal key gives the offset |
| Text.NatToStringOfParse | src/lib.rs:197-198 | every canonical decimal is the key of the number it denotes |
| Text.NatToStringInjective | src/lib.rs:197-198 | different offsets have different keys |
| Text.NatToStringOnto | src/lib.rs:197-198 | a string is the key of some offset exactly when it is a canonical decimal |
| Text.IsWhitespace | src/lib.rs:72 | the characters `trim` removes (also at line 177): the 25 code points of the Unicode White_Space property that `char::is_whitespace` tests |
| Text.StartsWith | src/lib.rs:69 | `starts_with` (also at line 174): the prefix is no longer than the string and agrees with it at every index of the prefix, so the string is the prefix followed by the rest |
| Directive.AfterPrefix | src/lib.rs:72 | dropping the first 11 characters of a prefixed literal leaves exactly what follows `use prompt:` |
| Directive.ParseMaybePrompt | src/lib.rs:57-78 | `NotPrompt` exactly when the statement is not a string-literal statement starting with `use prompt:`; `PromptEmpty` exactly when it starts with the prefix and only whitespace follows; otherwise `Ok` of the non-empty trimmed text after the prefix |
| Directive.Prologue | src/lib.rs:160-170 | the prologue never has more entries than the body has statements; what it holds is stated by the lemma below |
| Directive.PrologueIsLongestLiteralRun | src/lib.rs:160-170 | the prologue lists the values of the leading string-literal statements, in order, and the statement right after them is not a string literal |
| Directive.Candidate | src/lib.rs:173-182 | `None` exactly when the literal lacks the prefix; `Some(Err(1))` exactly when only whitespace follows the prefix; otherwise `Some(Ok(p))`, with `p` the non-empty trimmed remainder |
| Directive.FirstCandidateNone | src/lib.rs:171-187 | the scan finds nothing exactly when no prologue literal starts with the prefix |
| Directive.FirstCandidateAt | src/lib.rs:171-183 | the scan's outcome is the candidate of the first prologue literal that starts with the prefix |
| Directive.PrologueStops | src/lib.rs:160-170 | the prologue ends at the first statement that is not a string literal, whatever follows it |
| Directive.LateDirectiveIgnored | src/lib.rs:160-183 | statements after a statement that is not a string literal never change the scan |
| Directive.FirstCandidate | src/lib.rs:171-183 | the scan over the prologue values finds `None`, `Some(Err(1))` for an empty directive, or `Some(Ok(p))` with `p` non-empty and trimmed; FirstCandidateNone and FirstCandidateAt say which literal decides |
| Directive.ScanPrologue | src/lib.rs:160-183 | a body that is empty or does not start with a string-literal statement yields no candidate; otherwise the outcome has the same shape as FirstCandidate's; LateDirectiveIgnored and FirstDirectiveWins describe it further, and ParseMaybePromptAgrees relates it to `parse_maybe_prompt` |
| Directive.FirstDirectiveWins | src/lib.rs:171-183 | after leading literals without the prefix, the first prefixed literal alone decides the scan, whatever follows it |
| Directive.ParseMaybePromptAgrees | src/lib.rs:57-78 | a prologue scan built on `parse_maybe_prompt` gives the same outcome as the inline closure in `transform_fn_body` |
| Store.Substitution | src/lib.rs:131-135 | a cache entry: the generated `code`, and `imports` as an optional string, `None` when the JSON field is null or absent |
| Store.SubstitutionMap | src/lib.rs:137 | the decoded cache: start-offset key, then end-offset key, then prompt text, to an entry |
| Store.Lookup | src/lib.rs:197-203 | an entry is found exactly when the cache has the three keys `to_string(lo)`, `to_string(hi)` and the prompt, and then it is the entry stored under them; that only the exact site matches is proved by LookupIsExact with Text.NatToStringInjective |
| Store.LookupIsExact | src/lib.rs:197-203 | an entry stored for one site and prompt is found for a site and prompt exactly when both offsets and the prompt text are equal |
| Store.NonCanonicalStartKeyIgnored | src/lib.rs:197 | a start-offset key that is not a canonical decimal (such as "010") is never matched; removing it changes no lookup |
| Store.NonCanonicalEndKeyIgnored | src/lib.rs:198 | the same for end-offset keys |
| Store.EmptyStoreFindsNothing | src/lib.rs:145 | a cache file that cannot be read acts as `{}`, and then no lookup finds anything |
| ErrorBody.ImportsNeededMessage | src/lib.rs:213-215 | the imports message is the fixed sentence followed by the imports text |
| ErrorBody.ThrowError | src/lib.rs:81-94 | the statement is `throw new Error(msg)`: a throw whose argument is a `new` of `Error` with the message literal as its only argument, and it is not a string-literal statement (so it never reads as a directive) |
| ErrorBody.MakePromptErrorBody | src/lib.rs:80-99 | the error body is present and holds exactly one statement: `throw new Error(msg)` with the message as the only argument; ThrownMessageOfErrorBody reads the message back out of it |
| ErrorBody.ThrownMessageOfErrorBody | src/lib.rs:80-99 | the message can be read back out of the error body that carries it |
| ErrorBody.ErrorBodyInjective | src/lib.rs:80-99 | error bodies with different messages are different |
| Transform.Message | src/lib.rs:189-222 | the text thrown for each failure (lines 189, 206-207, 213-215 and 222); the imports message is the fixed sentence followed by exactly the imports text; MessageIdentifiesFailure proves the four messages distinct |
| Transform.MessageIdentifiesFailure | src/lib.rs:189-222 | the four failure messages are distinct, and the imports message also tells apart the imports it names |
| Transform.Decide | src/lib.rs:153-226 | the body is kept exactly when it holds no directive, and fails with "Incomplete prompt" exactly when its first directive is empty; KeepExactlyWithoutDirective, EmptyDirectiveFails, MissingEntryFails, DeclaredImportsFail and CodeIsParsed give every other case |
| Transform.Apply | src/lib.rs:153-226 | a kept body is unchanged, a failure gives an error body whose thrown message is that failure's message, and an installed block becomes the body |
| Transform.NewBody | src/lib.rs:153-226 | a body without a directive comes back unchanged and a body with one is always replaced by some block; NewBodyShape, CodeIsParsed and ErrorBodyIsFixpoint say which block |
| Transform.DecideDependsOnScan | src/lib.rs:153-226 | non-empty bodies whose scans agree get the same decision |
| Transform.KeepExactlyWithoutDirective | src/lib.rs:154-187 | the body is kept exactly when it is absent or no prologue literal starts with the prefix; an empty body is kept |
| Transform.EmptyDirectiveFails | src/lib.rs:185-191 | an empty first directive gives the "Incomplete prompt" error body, whatever the cache, the parser and any later valid directive |
| Transform.FirstValidDirectiveDecides | src/lib.rs:171-191 | a body whose first directive is followed by more literals or statements gets the decision that directive gets on its own |
| Transform.LateDirectiveKeepsBody | src/lib.rs:160-187 | a `use prompt:` literal after a statement that is not a string literal leaves the body unchanged, when no earlier statement is a directive |
| Transform.OnlyTheSiteEntryMatters | src/lib.rs:197-204 | two caches that agree on the entry for (lo, hi, prompt) give the same body |
| Transform.MissingEntryFails | src/lib.rs:205-210 | with no entry under the three keys, the body becomes the "Missing substitution data" error body, and the result does not depend on the parser |
| Transform.DeclaredImportsFail | src/lib.rs:212-217 | an entry with imports gives an error body whose thrown message ends with the imports text, and the result does not depend on the parser |
| Transform.CodeIsParsed | src/lib.rs:219-225 | an entry without imports installs the parsed code, or the "Couldn't make it happen." error body when parsing fails |
| Transform.NewBodyShape | src/lib.rs:153-226 | the new body is the old body, an error body with one of the four messages, or a block the parser returned |
| Transform.ErrorBodyIsFixpoint | src/lib.rs:160-187 | an error body holds no directive, so transforming it again leaves it as it is |
| Transform.FooScan | src/lib.rs:160-183 | a body holding only the literal `"use prompt: foo"` asks for the prompt `foo`, the text after the prefix with its space trimmed |
| Transform.SiteExample | src/lib.rs:197-220 | the cache entry (10, 20, "foo") with code `return 1;` gives the function at that exact span its parsed code, and a function at any other span the missing-data error body |
| Visitor.RewriteExpr | src/lib.rs:229-243 | literals and identifiers are unchanged, no other expression becomes a literal, and a function expression stays one with its span; NoDirectiveExprUnchanged and FnExprOutcome describe the rest |
| Visitor.RewriteExprs | src/lib.rs:231 | visiting a list of expressions keeps their number and replaces each one by its own rewrite |
| Visitor.RewriteStmt | src/lib.rs:229-243 | a function declaration stays one with its span and an expression statement stays one; RewriteStmtKeepsLiterals and NoDirectiveStmtUnchanged describe the rest |
| Visitor.RewriteStmts | src/lib.rs:231 | visiting a list of statements keeps their number and replaces each one by its own rewrite, so an empty body stays empty |
| Visitor.RewriteChildren | src/lib.rs:231 | rewriting a function's children keeps the number of parameters, whether there is a body, and the body's number of statements; RewriteKeepsPrologue and DecisionIgnoresRewrittenChildren describe the rest |
| Visitor.RewriteFnDecl | src/lib.rs:230-235 | a declaration keeps its span and its number of parameters; FnDeclOutcome gives its body |
| Visitor.RewriteFnExpr | src/lib.rs:237-242 | a function expression keeps its span and its number of parameters; FnExprOutcome gives its body |
| Visitor.RewriteStmtKeepsLiterals | src/lib.rs:229-243 | rewriting a statement keeps string-literal statements unchanged, and no other statement becomes one |
| Visitor.RewriteKeepsPrologue | src/lib.rs:229-243 | rewriting the children first leaves a body's prologue as it was |
| Visitor.DecisionIgnoresRewrittenChildren | src/lib.rs:230-242 | a function's decision, taken on its rewritten children, equals the decision its original body gets |
| Visitor.FnDeclOutcome | src/lib.rs:230-235 | a declaration keeps its span and gets rewritten parameters; its body is the rewritten body when kept, the error body for its failure, or the installed block, depending on the decision for its original body |
| Visitor.FnExprOutcome | src/lib.rs:237-242 | the same for a function expression |
| Visitor.NoDirectiveExprUnchanged | src/lib.rs:229-243 | an expression with no directive in any of its functions is not changed |
| Visitor.NoDirectiveExprsUnchanged | src/lib.rs:229-243 | the same for a list of expressions |
| Visitor.NoDirectiveStmtUnchanged | src/lib.rs:229-243 | the same for a statement |
| Visitor.NoDirectiveStmtsUnchanged | src/lib.rs:229-243 | a program with no directive in any function is not changed at all |
| Visitor.NoDirectiveFunctionUnchanged | src/lib.rs:229-243 | the children of a function with no directive below it are not changed |
| Visitor.TransformVisitor.constructor | src/lib.rs:139-151 | the visitor holds the given cache and parser |
| Visitor.TransformVisitor.TransformFnBody | src/lib.rs:153-226 | the function comes back with only its body replaced, by the body the decision gives (`NewBody`) |
| Visitor.TransformVisitor.VisitMutFnDecl | src/lib.rs:230-235 | the declaration after its children and then its own function are transformed, as `RewriteFnDecl` gives it |
| Visitor.TransformVisitor.VisitMutFnExpr | src/lib.rs:237-242 | the same for a function expression, as `RewriteFnExpr` gives it |
| Visitor.TransformVisitor.VisitMutFunction | src/lib.rs:231 | a function's parameters and body after their post-order rewrite |
| Visitor.TransformVisitor.VisitMutExpr | src/lib.rs:231 | an expression after its post-order rewrite |
| Visitor.TransformVisitor.VisitMutExprs | src/lib.rs:231 | each expression of the list is replaced in turn by its rewrite |
| Visitor.TransformVisitor.VisitMutStmt | src/lib.rs:231 | a statement after its post-order rewrite |
| Visitor.TransformVisitor.VisitMutStmts | src/lib.rs:248-250 | each statement of the list, or of the whole program, is replaced in turn by its rewrite |

## Left out

- WASI output (`write`, `fd_write`), `get_working_directory_fd`, and the
  diagnostic lines at src/lib.rs:193-196 and 223. These are raw system calls
  and do not change the tree when they succeed. `write` ends in
  `fd_write(..).expect(..)` (src/lib.rs:29), so a failed write panics and
  aborts the pass: at 193-196 for every valid directive, before the lookup,
  and at 223 after a parse failure. That abort is not modelled.
- Reading the cache file and decoding its JSON (`TransformVisitor::new`,
  src/lib.rs:144-151). The constructor takes the already-decoded map. A
  file that cannot be read, for any reason, acts as `{}`
  (Store.EmptyStoreFindsNothing). Contents that are not UTF-8 (src/lib.rs:146),
  that are not valid JSON, or that are valid JSON of the wrong shape, such as
  an entry without `code` or a number where an object is expected
  (src/lib.rs:148), make the source panic; that abort is not modelled.
- The swc parser inside `make_block_stmt_from_source` (src/lib.rs:101-129).
  The visitor takes it as the parameter `parseBlock`. The wrapping in
  `function wrapped() { ... }` is not modelled. Neither are the `unwrap`s on
  the wrapper's shape, which can panic for some inputs, nor the recoverable
  syntax errors the parser collects and the source ignores.
- Plugin registration and the fold over the program (`process_transform`,
  src/lib.rs:245-251). These are host glue. The program is modelled as its
  top-level statement list (`VisitMutStmts`).
- Import hygiene, import accumulation and module-level directive insertion.
  This file does not have them: it rejects every entry that declares imports.
- Ast: other node kinds (imports, exports, classes, arrow functions and so on)
  are collapsed into "other" nodes that keep their subtrees. An expression
  that holds statements (an arrow function with a block body, a class static
  block) is encoded as `MethodNode(Function(params, Some(body)))`, which the
  visit descends into but never transforms, as swc's default visit does for
  those nodes; an arrow function with an expression body is an `OtherExpr`. Parameters are
  reduced to the expressions they contain. Spans other than those of function
  declarations and function expressions are not kept.
- Visitor.TransformVisitor.TransformFnBody: Rust updates `func.body` through
  `&mut Function`. The model returns the updated function instead. The Rust
  borrow rules rule out aliasing, so the two are the same.
- Text.NatToString: byte offsets are `u32` in the source and unbounded `nat`
  here. `to_string` involves no arithmetic on offsets, so no wrap-around can
  occur.
- Directive.AfterPrefix: Rust slices the UTF-8 string at byte 11, and the
  model drops 11 characters. The prefix is ASCII, so these are the same.
