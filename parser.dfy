/**
 * The table-driven LL(1) parser of parser/parser.py with panic-mode recovery.
 * The parse table is a parameter, and the lexer feeding the parser is a finite
 * sequence of tokens read through a cursor, where reading past the end gives
 * `None` (the end of input, the terminal `$`).
 *
 * One iteration of the parser's loop is the function `Step` on a `Config`;
 * `Run` iterates it under a fuel bound, and the method `Parse` is the loop
 * itself over a mutable stack, proved to compute what `Run` computes.
 */
module Parser {
  import opened Wrappers
  import opened Text
  import opened Tokens

  /** Non-terminal to lookahead terminal to right-hand side. */
  type Table = map<string, map<string, seq<string>>>

  /** Category values that the grammar spells differently. */
  const TokenMap: map<string, string> := map[
    "openpar" := "lpar",
    "closepar" := "rpar",
    "opencubr" := "lcurbr",
    "closecubr" := "rcurbr",
    "opensqbr" := "lsqbr",
    "closesqbr" := "rsqbr",
    "assign" := "equal",
    "noteq" := "neq",
    "coloncolon" := "sr"
  ]

  /** Categories the parser skips. */
  const IgnoreTokens: set<TokenType> := {BlockCmt, InlineCmt}

  /** Categories the parser reports and skips. */
  const InvalidTokens: set<TokenType> := {InvalidChar, InvalidNum, InvalidCmt}

  /** The end-of-input terminal, also the bottom of the parse stack. */
  const EndMarker := "$"

  /** The derivation's first entry and the grammar's start symbol. */
  const StartSymbol := "START"

  /** The derivation entry that marks a parse with errors. */
  const IncompleteNote := "Incomplete derivation due to syntax errors."

  /** Every key of `TokenMap` is the value of a category. */
  lemma TokenMapKeysAreValues(k: string)
    requires k in TokenMap
    ensures FromValue(k).Some? && Value(FromValue(k).value) == k
  {
    if k in {"openpar", "closepar", "opencubr"} {
      assert FromValue(k) == Some(if k == "openpar" then OpenPar else if k == "closepar" then ClosePar else OpenCuBr);
    } else if k in {"closecubr", "opensqbr", "closesqbr"} {
      assert FromValue(k) == Some(if k == "closecubr" then CloseCuBr else if k == "opensqbr" then OpenSqBr else CloseSqBr);
    } else {
      assert FromValue(k) == Some(if k == "assign" then Assign else if k == "noteq" then NotEq else ColonColon);
    }
  }

  // ---------------------------------------------------------------------
  // Terminals
  // ---------------------------------------------------------------------

  /** The grammar terminal of a category: its `TokenMap` renaming, else its value. */
  function TerminalName(t: TokenType): string {
    if Value(t) in TokenMap then TokenMap[Value(t)] else Value(t)
  }

  /** `_lexer_to_terminal`: `$` at the end of input, `None` for an invalid category. */
  function LexerToTerminal(token: Option<Token>): (r: Option<string>)
    ensures token.None? ==> r == Some(EndMarker)
    ensures r.None? <==> token.Some? && token.value.tokenType in InvalidTokens
    ensures token.Some? && r.Some? ==> r.value == TerminalName(token.value.tokenType)
  {
    match token
    case None => Some(EndMarker)
    case Some(t) =>
      if t.tokenType in InvalidTokens then None else Some(TerminalName(t.tokenType))
  }

  /** No category is read as the end marker. */
  lemma TerminalNameIsNotEndMarker(t: TokenType)
    ensures TerminalName(t) != EndMarker
  {
    if Value(t) !in TokenMap {
      ValueRoundTrip(t);
      assert FromValue(EndMarker) == None;
    }
  }

  /** The lookahead is `$` exactly at the end of input. */
  lemma EndMarkerIffEndOfInput(token: Option<Token>)
    ensures LexerToTerminal(token) == Some(EndMarker) <==> token.None?
  {
    if token.Some? {
      TerminalNameIsNotEndMarker(token.value.tokenType);
    }
  }

  // ---------------------------------------------------------------------
  // The token source
  // ---------------------------------------------------------------------

  /**
   * The first token at or after `cursor` that is not a comment, and the cursor
   * just after it; `None` and the end when only comments remain.
   */
  function PullNonComment(tokens: seq<Token>, cursor: nat): (r: (Option<Token>, nat))
    requires cursor <= |tokens|
    ensures cursor <= r.1 <= |tokens|
    ensures r.0.None? ==> r.1 == |tokens| && forall k :: cursor <= k < |tokens| ==> tokens[k].tokenType in IgnoreTokens
    ensures r.0.Some? ==> cursor < r.1 && r.0.value == tokens[r.1 - 1] && r.0.value.tokenType !in IgnoreTokens
    ensures r.0.Some? ==> forall k :: cursor <= k < r.1 - 1 ==> tokens[k].tokenType in IgnoreTokens
    decreases |tokens| - cursor
  {
    if cursor == |tokens| then (None, cursor)
    else if tokens[cursor].tokenType in IgnoreTokens then PullNonComment(tokens, cursor + 1)
    else (Some(tokens[cursor]), cursor + 1)
  }

  /** The lexer as the parser sees it: tokens handed out one at a time. */
  class TokenStream {
    const tokens: seq<Token>
    var cursor: nat

    ghost predicate Valid()
      reads this
    {
      cursor <= |tokens|
    }

    constructor(tokens: seq<Token>)
      ensures this.tokens == tokens && cursor == 0 && Valid()
    {
      this.tokens := tokens;
      cursor := 0;
    }

    /** The next token, or `None` once all are handed out. */
    method GetNextToken() returns (token: Option<Token>)
      requires Valid()
      modifies this
      ensures Valid()
      ensures old(cursor) < |tokens| ==> token == Some(tokens[old(cursor)]) && cursor == old(cursor) + 1
      ensures old(cursor) == |tokens| ==> token.None? && cursor == old(cursor)
    {
      if cursor < |tokens| {
        token := Some(tokens[cursor]);
        cursor := cursor + 1;
      } else {
        token := None;
      }
    }
  }

  /** `_next_non_comment_token`: reads tokens until one is not a comment. */
  method NextNonCommentToken(lexer: TokenStream) returns (token: Option<Token>)
    requires lexer.Valid()
    modifies lexer
    ensures lexer.Valid() && (token, lexer.cursor) == PullNonComment(lexer.tokens, old(lexer.cursor))
  {
    ghost var start := lexer.cursor;
    token := lexer.GetNextToken();
    while token.Some? && token.value.tokenType in IgnoreTokens
      invariant lexer.Valid() && start <= lexer.cursor
      invariant token.None? ==> lexer.cursor == |lexer.tokens| && PullNonComment(lexer.tokens, start) == (None, lexer.cursor)
      invariant token.Some? ==> 0 < lexer.cursor && token.value == lexer.tokens[lexer.cursor - 1]
      invariant token.Some? && token.value.tokenType in IgnoreTokens ==>
        PullNonComment(lexer.tokens, start) == PullNonComment(lexer.tokens, lexer.cursor)
      invariant token.Some? && token.value.tokenType !in IgnoreTokens ==>
        PullNonComment(lexer.tokens, start) == (token, lexer.cursor)
      decreases |lexer.tokens| - lexer.cursor, token.Some?
    {
      token := lexer.GetNextToken();
    }
  }

  // ---------------------------------------------------------------------
  // Derivation helpers
  // ---------------------------------------------------------------------

  /**
   * `_apply_leftmost_step`: replaces the first occurrence of `nonTerminal` in
   * `form` with `rhs`; a form without it is returned unchanged.
   */
  function ApplyLeftmostStep(form: seq<string>, nonTerminal: string, rhs: seq<string>): (r: seq<string>)
    ensures nonTerminal !in form ==> r == form
    ensures nonTerminal in form ==> exists i :: (0 <= i < |form| && form[i] == nonTerminal
      && nonTerminal !in form[..i] && r == form[..i] + rhs + form[i + 1..])
  {
    if |form| == 0 then form
    else if form[0] == nonTerminal then
      assert form[..0] == [];
      rhs + form[1..]
    else
      var rest := ApplyLeftmostStep(form[1..], nonTerminal, rhs);
      assert nonTerminal in form ==> nonTerminal in form[1..];
      if nonTerminal in form[1..] then
        var j :| 0 <= j < |form[1..]| && form[1..][j] == nonTerminal
          && nonTerminal !in form[1..][..j] && rest == form[1..][..j] + rhs + form[1..][j + 1..];
        OccurrenceInTail(form, nonTerminal, rhs, rest, j);
        [form[0]] + rest
      else
        [form[0]] + rest
  }

  /** A first occurrence at `j` in the tail of `form` is a first occurrence at `j + 1` in `form`. */
  lemma OccurrenceInTail(form: seq<string>, nonTerminal: string, rhs: seq<string>, rest: seq<string>, j: nat)
    requires 0 < |form| && form[0] != nonTerminal && j < |form| - 1
    requires form[1..][j] == nonTerminal && nonTerminal !in form[1..][..j]
    requires rest == form[1..][..j] + rhs + form[1..][j + 1..]
    ensures form[j + 1] == nonTerminal && nonTerminal !in form[..j + 1]
    ensures [form[0]] + rest == form[..j + 1] + rhs + form[j + 2..]
  {
    assert form[..j + 1] == [form[0]] + form[1..][..j];
    assert form[j + 2..] == form[1..][j + 1..];
  }

  /** The step rewrites at the position of the first occurrence, whatever it is. */
  lemma ApplyLeftmostStepAt(prefix: seq<string>, nonTerminal: string, suffix: seq<string>, rhs: seq<string>, form: seq<string>)
    requires nonTerminal !in prefix && form == prefix + [nonTerminal] + suffix
    ensures ApplyLeftmostStep(form, nonTerminal, rhs) == prefix + rhs + suffix
  {
    assert form[|prefix|] == nonTerminal;
    var i :| 0 <= i < |form| && form[i] == nonTerminal && nonTerminal !in form[..i]
      && ApplyLeftmostStep(form, nonTerminal, rhs) == form[..i] + rhs + form[i + 1..];
    assert form[..|prefix|] == prefix && form[|prefix| + 1..] == suffix;
  }

  /** `_format_form`: the symbols joined by blanks, `epsilon` for the empty form. */
  function FormatForm(form: seq<string>): string {
    if form == [] then "epsilon" else Join(form)
  }

  /** A non-empty form of blank-free symbols can be read back from its entry. */
  lemma FormatFormRoundTrip(form: seq<string>)
    requires form != []
    requires forall k :: 0 <= k < |form| ==> IsWord(form[k])
    ensures Split(FormatForm(form)) == form
  {
    SplitJoin(form);
  }

  // ---------------------------------------------------------------------
  // Parser state
  // ---------------------------------------------------------------------

  /** What a syntax error reports; the message text is not modelled. */
  datatype ErrorKind =
    | InvalidToken
    | Mismatch(expected: string)
    | NoRule(nonTerminal: string, lookaheads: set<string>)

  /** One syntax error: the line of the current token (-1 at the end), its kind, the token. */
  datatype Diagnostic = Diagnostic(line: int, kind: ErrorKind, found: Option<Token>)

  /** `ParseResult`. */
  datatype ParseResult = ParseResult(success: bool, errors: seq<Diagnostic>, derivation: seq<string>)

  /**
   * The variables of `parse` between two iterations: the stack (top last), the
   * lexer's cursor, the current token, the errors, the derivation and the form.
   */
  datatype Config = Config(
    stack: seq<string>,
    cursor: nat,
    token: Option<Token>,
    errors: seq<Diagnostic>,
    derivation: seq<string>,
    form: seq<string>)

  function Last(s: seq<string>): string
    requires |s| > 0
  {
    s[|s| - 1]
  }

  function Pop(s: seq<string>): seq<string>
    requires |s| > 0
  {
    s[..|s| - 1]
  }

  /** `reversed(s)` */
  function Reverse(s: seq<string>): (r: seq<string>)
    ensures |r| == |s|
    ensures forall i :: 0 <= i < |s| ==> r[i] == s[|s| - 1 - i]
  {
    if s == [] then [] else [s[|s| - 1]] + Reverse(s[..|s| - 1])
  }

  /** `line_of_current` */
  function LineOf(token: Option<Token>): int {
    if token.Some? then token.value.line else -1
  }

  /** The loop condition of `parse`. */
  predicate Running(c: Config) {
    |c.stack| > 0 && Last(c.stack) != EndMarker
  }

  function Lookahead(c: Config): Option<string> {
    LexerToTerminal(c.token)
  }

  /** The lookaheads of a table entry whose rule is empty. */
  function SyncSet(productions: map<string, seq<string>>): set<string> {
    set t | t in productions && productions[t] == []
  }

  /**
   * The sync set lies inside the entry's keys, so a lookahead the entry has no
   * rule for is never in it: recovery pops exactly at the end of input.
   */
  lemma SyncSetWithinRules(productions: map<string, seq<string>>, lookahead: string)
    ensures SyncSet(productions) <= productions.Keys
    ensures lookahead !in productions ==>
      (lookahead in SyncSet(productions) || lookahead == EndMarker <==> lookahead == EndMarker)
  {
  }

  /** `advance()`: the next non-comment token becomes current. */
  function Advance(tokens: seq<Token>, c: Config): (r: Config)
    requires c.cursor <= |tokens|
    ensures r.cursor <= |tokens|
  {
    var (token, cursor) := PullNonComment(tokens, c.cursor);
    c.(token := token, cursor := cursor)
  }

  /** One iteration of the loop of `parse`. */
  function Step(table: Table, tokens: seq<Token>, c: Config): (r: Config)
    requires Running(c) && c.cursor <= |tokens|
    ensures r.cursor <= |tokens|
  {
    var top := Last(c.stack);
    var line := LineOf(c.token);
    match Lookahead(c)
    case None =>
      Advance(tokens, c.(errors := c.errors + [Diagnostic(line, InvalidToken, c.token)]))
    case Some(lookahead) =>
      if top !in table then
        if top == lookahead then
          Advance(tokens, c.(stack := Pop(c.stack)))
        else
          c.(errors := c.errors + [Diagnostic(line, Mismatch(top), c.token)], stack := Pop(c.stack))
      else
        var productions := table[top];
        if lookahead in productions then
          var rhs := productions[lookahead];
          var form := ApplyLeftmostStep(c.form, top, rhs);
          c.(stack := Pop(c.stack) + Reverse(rhs), form := form, derivation := c.derivation + [FormatForm(form)])
        else
          var errors := c.errors + [Diagnostic(line, NoRule(top, productions.Keys), c.token)];
          if lookahead in SyncSet(productions) || lookahead == EndMarker then
            c.(errors := errors, stack := Pop(c.stack))
          else
            Advance(tokens, c.(errors := errors))
  }

  /**
   * The loop of `parse` from `c`: the configuration it stops in, or `None`
   * when it needs more than `fuel` iterations.
   */
  function Run(table: Table, tokens: seq<Token>, c: Config, fuel: nat): (r: Option<Config>)
    requires c.cursor <= |tokens|
    ensures r.Some? ==> !Running(r.value) && r.value.cursor <= |tokens|
    decreases fuel
  {
    if !Running(c) then Some(c)
    else if fuel == 0 then None
    else Run(table, tokens, Step(table, tokens, c), fuel - 1)
  }

  /** The variables of `parse` before its loop, reading from `cursor`. */
  function Initial(tokens: seq<Token>, cursor: nat): (r: Config)
    requires cursor <= |tokens|
    ensures r.cursor <= |tokens|
  {
    var (token, next) := PullNonComment(tokens, cursor);
    Config([EndMarker, StartSymbol], next, token, [], [StartSymbol], [StartSymbol])
  }

  /** The result built after the loop. */
  function Finish(c: Config): ParseResult {
    ParseResult(
      |c.errors| == 0,
      c.errors,
      if |c.errors| > 0 then c.derivation + [IncompleteNote] else c.derivation)
  }

  /** `parse` on the tokens from `cursor`, with at most `fuel` iterations. */
  function ParseSpec(table: Table, tokens: seq<Token>, cursor: nat, fuel: nat): Option<ParseResult>
    requires cursor <= |tokens|
  {
    match Run(table, tokens, Initial(tokens, cursor), fuel)
    case Some(c) => Some(Finish(c))
    case None => None
  }

  /**
   * `parse`: the loop over an explicit stack. It gives up with `None` after
   * `fuel` iterations; otherwise it returns what `ParseSpec` describes and
   * leaves the lexer where the final configuration's cursor is.
   */
  method Parse(table: Table, lexer: TokenStream, fuel: nat) returns (result: Option<ParseResult>)
    requires lexer.Valid()
    modifies lexer
    ensures lexer.Valid()
    ensures result == ParseSpec(table, lexer.tokens, old(lexer.cursor), fuel)
    ensures result.Some? ==> lexer.cursor == Run(table, lexer.tokens, Initial(lexer.tokens, old(lexer.cursor)), fuel).value.cursor
  {
    ghost var tokens := lexer.tokens;
    ghost var final := Run(table, tokens, Initial(tokens, lexer.cursor), fuel);
    var stack := [EndMarker, StartSymbol];
    var errors: seq<Diagnostic> := [];
    var derivation := [StartSymbol];
    var form := [StartSymbol];

    var token := NextNonCommentToken(lexer);
    var lookahead := LexerToTerminal(token);
    var remaining := fuel;

    while |stack| > 0 && stack[|stack| - 1] != EndMarker
      invariant lexer.Valid() && lexer.tokens == tokens
      invariant lookahead == LexerToTerminal(token)
      invariant Run(table, tokens, Config(stack, lexer.cursor, token, errors, derivation, form), remaining) == final
      decreases remaining
    {
      if remaining == 0 {
        return None;
      }
      ghost var before := Config(stack, lexer.cursor, token, errors, derivation, form);
      remaining := remaining - 1;
      var top := stack[|stack| - 1];
      var line := LineOf(token);

      if lookahead.None? {
        errors := errors + [Diagnostic(line, InvalidToken, token)];
        token := NextNonCommentToken(lexer);
        lookahead := LexerToTerminal(token);
      } else if top !in table {
        if top == lookahead.value {
          stack := stack[..|stack| - 1];
          token := NextNonCommentToken(lexer);
          lookahead := LexerToTerminal(token);
        } else {
          errors := errors + [Diagnostic(line, Mismatch(top), token)];
          stack := stack[..|stack| - 1];
        }
      } else {
        var productions := table[top];
        if lookahead.value in productions {
          var rhs := productions[lookahead.value];
          stack := stack[..|stack| - 1] + Reverse(rhs);
          form := ApplyLeftmostStep(form, top, rhs);
          derivation := derivation + [FormatForm(form)];
        } else {
          errors := errors + [Diagnostic(line, NoRule(top, productions.Keys), token)];
          var syncSet := set t | t in productions && productions[t] == [];
          if lookahead.value in syncSet || lookahead.value == EndMarker {
            stack := stack[..|stack| - 1];
          } else {
            token := NextNonCommentToken(lexer);
            lookahead := LexerToTerminal(token);
          }
        }
      }
      assert Config(stack, lexer.cursor, token, errors, derivation, form) == Step(table, tokens, before);
    }

    if |errors| > 0 {
      derivation := derivation + [IncompleteNote];
    }
    result := Some(ParseResult(|errors| == 0, errors, derivation));
  }
}
