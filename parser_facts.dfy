/**
 * What one iteration of the parser's loop does in each of its branches, what
 * every iteration preserves, and what a finished parse has derived.
 */
module ParserFacts {
  import opened Wrappers
  import opened Text
  import opened Tokens
  import opened Parser

  // ---------------------------------------------------------------------
  // Bookkeeping of the input
  // ---------------------------------------------------------------------

  /** The input position up to which tokens are consumed; the current token is not. */
  function ConsumedEnd(c: Config): int {
    if c.token.Some? then c.cursor - 1 else c.cursor
  }

  /** Tokens not yet consumed, the current one included. */
  function Remaining(tokens: seq<Token>, c: Config): int {
    |tokens| - c.cursor + (if c.token.Some? then 1 else 0)
  }

  /** The terminals of the non-comment tokens in `tokens[lo..hi]`, in order. */
  function InputTerminals(tokens: seq<Token>, lo: nat, hi: nat): (r: seq<string>)
    requires lo <= hi <= |tokens|
    ensures |r| <= hi - lo
  {
    if hi == lo then []
    else if tokens[hi - 1].tokenType in IgnoreTokens then InputTerminals(tokens, lo, hi - 1)
    else InputTerminals(tokens, lo, hi - 1) + [TerminalName(tokens[hi - 1].tokenType)]
  }

  /** Comments between two positions add no terminal. */
  lemma {:induction false} CommentsAddNoTerminals(tokens: seq<Token>, from: nat, a: nat, b: nat)
    requires from <= a <= b <= |tokens|
    requires forall k :: a <= k < b ==> tokens[k].tokenType in IgnoreTokens
    ensures InputTerminals(tokens, from, b) == InputTerminals(tokens, from, a)
    decreases b
  {
    if b > a {
      CommentsAddNoTerminals(tokens, from, a, b - 1);
    }
  }

  // ---------------------------------------------------------------------
  // The configuration invariant
  // ---------------------------------------------------------------------

  /**
   * What holds of the parser's variables throughout, for a parse that started
   * reading at `start`: `$` stays at the bottom of the stack, the derivation
   * starts with `START` and ends with the current form, and the current token
   * is the one just before the cursor (`None` only at the end of input).
   */
  predicate WellFormed(tokens: seq<Token>, start: nat, c: Config) {
    |c.stack| >= 1 && c.stack[0] == EndMarker
    && |c.derivation| >= 1 && c.derivation[0] == StartSymbol
    && c.derivation[|c.derivation| - 1] == FormatForm(c.form)
    && start <= c.cursor <= |tokens|
    && (c.token.None? ==> c.cursor == |tokens|)
    && (c.token.Some? ==>
          start < c.cursor && c.token.value == tokens[c.cursor - 1] && c.token.value.tokenType !in IgnoreTokens)
  }

  lemma InitialWellFormed(tokens: seq<Token>, start: nat)
    requires start <= |tokens|
    ensures WellFormed(tokens, start, Initial(tokens, start))
  {
  }

  lemma StepKeepsWellFormed(table: Table, tokens: seq<Token>, start: nat, c: Config)
    requires WellFormed(tokens, start, c) && Running(c)
    ensures WellFormed(tokens, start, Step(table, tokens, c))
  {
    var top := Last(c.stack);
    assert |c.stack| >= 2;
    match Lookahead(c)
    case None =>
      AdvanceKeepsWellFormed(tokens, start, c.(errors := Step(table, tokens, c).errors));
    case Some(lookahead) =>
      if top !in table {
        if top == lookahead {
          AdvanceKeepsWellFormed(tokens, start, c.(stack := Pop(c.stack)));
        }
      } else if lookahead in table[top] {
        var form := ApplyLeftmostStep(c.form, top, table[top][lookahead]);
        assert Step(table, tokens, c).derivation == c.derivation + [FormatForm(form)];
      } else if !(lookahead in SyncSet(table[top]) || lookahead == EndMarker) {
        AdvanceKeepsWellFormed(tokens, start, c.(errors := Step(table, tokens, c).errors));
      }
  }

  /** `advance()` keeps the invariant of a configuration that already holds it. */
  lemma AdvanceKeepsWellFormed(tokens: seq<Token>, start: nat, c: Config)
    requires WellFormed(tokens, start, c)
    ensures WellFormed(tokens, start, Advance(tokens, c))
  {
  }

  /** The loop keeps the invariant and only ever appends errors. */
  lemma {:induction false} RunKeepsWellFormed(table: Table, tokens: seq<Token>, start: nat, c: Config, fuel: nat)
    requires WellFormed(tokens, start, c)
    ensures Run(table, tokens, c, fuel).Some? ==>
      var d := Run(table, tokens, c, fuel).value;
      WellFormed(tokens, start, d) && d.stack[|d.stack| - 1] == EndMarker
      && |c.errors| <= |d.errors| && d.errors[..|c.errors|] == c.errors
    decreases fuel
  {
    if Running(c) && fuel > 0 {
      var next := Step(table, tokens, c);
      StepKeepsWellFormed(table, tokens, start, c);
      StepAppendsAtMostOneError(table, tokens, c);
      RunKeepsWellFormed(table, tokens, start, next, fuel - 1);
    }
  }

  /** Each iteration appends at most one error and keeps the earlier ones. */
  lemma StepAppendsAtMostOneError(table: Table, tokens: seq<Token>, c: Config)
    requires Running(c) && c.cursor <= |tokens|
    ensures var r := Step(table, tokens, c);
      |c.errors| <= |r.errors| <= |c.errors| + 1 && r.errors[..|c.errors|] == c.errors
  {
  }

  // ---------------------------------------------------------------------
  // The four branches of one iteration
  // ---------------------------------------------------------------------

  /** The next non-comment token is read and nothing else about the input changes. */
  predicate ConsumesOne(tokens: seq<Token>, c: Config, r: Config)
    requires c.cursor <= |tokens|
  {
    (r.token, r.cursor) == PullNonComment(tokens, c.cursor)
  }

  /**
   * An invalid token: exactly one error, the token is consumed, the stack, the
   * form and the derivation stay as they are.
   */
  lemma StepOnInvalidToken(table: Table, tokens: seq<Token>, start: nat, c: Config)
    requires WellFormed(tokens, start, c) && Running(c) && Lookahead(c).None?
    ensures var r := Step(table, tokens, c);
      r.errors == c.errors + [Diagnostic(LineOf(c.token), InvalidToken, c.token)]
      && c.token.Some? && c.token.value.tokenType in InvalidTokens
      && ConsumesOne(tokens, c, r) && Remaining(tokens, r) < Remaining(tokens, c)
      && r.stack == c.stack && r.form == c.form && r.derivation == c.derivation
  {
  }

  /**
   * A terminal on top: when it is the lookahead it is popped and the token
   * consumed without error; otherwise one error is reported and the terminal
   * popped without consuming input.
   */
  lemma StepOnTerminal(table: Table, tokens: seq<Token>, start: nat, c: Config)
    requires WellFormed(tokens, start, c) && Running(c) && Lookahead(c).Some?
    requires Last(c.stack) !in table
    ensures var r := Step(table, tokens, c);
      r.stack == Pop(c.stack) && r.form == c.form && r.derivation == c.derivation
      && (Last(c.stack) == Lookahead(c).value ==>
            r.errors == c.errors && ConsumesOne(tokens, c, r) && Remaining(tokens, r) < Remaining(tokens, c))
      && (Last(c.stack) != Lookahead(c).value ==>
            r.errors == c.errors + [Diagnostic(LineOf(c.token), Mismatch(Last(c.stack)), c.token)]
            && r.token == c.token && r.cursor == c.cursor)
  {
    if Last(c.stack) == Lookahead(c).value {
      EndMarkerIffEndOfInput(c.token);
    }
  }

  /**
   * A non-terminal with a rule for the lookahead: the top is replaced by the
   * reversed right-hand side, the form takes one leftmost step, the derivation
   * grows by that form (`epsilon` when it is empty), and no error or input is
   * touched.
   */
  lemma StepOnExpansion(table: Table, tokens: seq<Token>, c: Config)
    requires Running(c) && c.cursor <= |tokens| && Lookahead(c).Some?
    requires Last(c.stack) in table && Lookahead(c).value in table[Last(c.stack)]
    ensures var r := Step(table, tokens, c);
      var rhs := table[Last(c.stack)][Lookahead(c).value];
      |r.stack| == |c.stack| - 1 + |rhs| && r.stack[..|c.stack| - 1] == Pop(c.stack)
      && (forall i :: 0 <= i < |rhs| ==> r.stack[|r.stack| - 1 - i] == rhs[i])
      && r.form == ApplyLeftmostStep(c.form, Last(c.stack), rhs)
      && |r.derivation| == |c.derivation| + 1 && r.derivation[..|c.derivation|] == c.derivation
      && r.derivation[|c.derivation|] == (if r.form == [] then "epsilon" else Join(r.form))
      && r.errors == c.errors && r.token == c.token && r.cursor == c.cursor
  {
    var r := Step(table, tokens, c);
    assert r.stack[..|c.stack| - 1] == Pop(c.stack);
  }

  /**
   * A non-terminal without a rule for the lookahead: exactly one error. The
   * test of the set of lookaheads with an empty rule can never succeed here
   * (the lookahead is not a key of the entry at all), so the non-terminal is
   * popped exactly when the lookahead is `$`, and otherwise one token is skipped.
   */
  lemma StepOnNoRule(table: Table, tokens: seq<Token>, start: nat, c: Config)
    requires WellFormed(tokens, start, c) && Running(c) && Lookahead(c).Some?
    requires Last(c.stack) in table && Lookahead(c).value !in table[Last(c.stack)]
    ensures Lookahead(c).value !in SyncSet(table[Last(c.stack)])
    ensures var r := Step(table, tokens, c);
      r.errors == c.errors + [Diagnostic(LineOf(c.token), NoRule(Last(c.stack), table[Last(c.stack)].Keys), c.token)]
      && r.form == c.form && r.derivation == c.derivation
      && (Lookahead(c).value == EndMarker ==> r.stack == Pop(c.stack) && r.token == c.token && r.cursor == c.cursor)
      && (Lookahead(c).value != EndMarker ==>
            r.stack == c.stack && ConsumesOne(tokens, c, r) && Remaining(tokens, r) < Remaining(tokens, c))
  {
    SyncSetWithinRules(table[Last(c.stack)], Lookahead(c).value);
    EndMarkerIffEndOfInput(c.token);
  }

  /**
   * Every iteration other than an expansion makes progress: it consumes a
   * token and keeps the stack, or pops one symbol and keeps the input, or both.
   */
  lemma StepProgress(table: Table, tokens: seq<Token>, start: nat, c: Config)
    requires WellFormed(tokens, start, c) && Running(c)
    requires !(Lookahead(c).Some? && Last(c.stack) in table && Lookahead(c).value in table[Last(c.stack)])
    ensures var r := Step(table, tokens, c);
      (Remaining(tokens, r) < Remaining(tokens, c) && |r.stack| <= |c.stack|)
      || (Remaining(tokens, r) == Remaining(tokens, c) && |r.stack| == |c.stack| - 1)
  {
    if Lookahead(c).None? {
      StepOnInvalidToken(table, tokens, start, c);
    } else if Last(c.stack) !in table {
      StepOnTerminal(table, tokens, start, c);
    } else {
      StepOnNoRule(table, tokens, start, c);
    }
  }

  // ---------------------------------------------------------------------
  // The sentential form
  // ---------------------------------------------------------------------

  /**
   * The leftmost-derivation invariant of an error-free parse: the form is the
   * terminals of the tokens consumed so far, none of them a non-terminal,
   * followed by the stack read from the top down to just above `$`.
   */
  predicate FormInvariant(table: Table, tokens: seq<Token>, start: nat, c: Config)
    requires WellFormed(tokens, start, c)
  {
    var consumed := InputTerminals(tokens, start, ConsumedEnd(c));
    c.form == consumed + Reverse(c.stack[1..])
    && forall k :: 0 <= k < |consumed| ==> consumed[k] !in table
  }

  lemma InitialFormInvariant(table: Table, tokens: seq<Token>, start: nat)
    requires start <= |tokens|
    ensures WellFormed(tokens, start, Initial(tokens, start))
    ensures FormInvariant(table, tokens, start, Initial(tokens, start))
  {
    var c := Initial(tokens, start);
    CommentsAddNoTerminals(tokens, start, start, ConsumedEnd(c));
    assert c.stack[1..] == [StartSymbol];
  }

  /** Reading the next token after a matched one adds exactly its terminal. */
  lemma ConsumeAddsTerminal(tokens: seq<Token>, start: nat, c: Config, r: Config)
    requires WellFormed(tokens, start, c) && c.token.Some? && c.token.value.tokenType !in InvalidTokens
    requires ConsumesOne(tokens, c, r)
    ensures InputTerminals(tokens, start, ConsumedEnd(r))
      == InputTerminals(tokens, start, ConsumedEnd(c)) + [TerminalName(c.token.value.tokenType)]
  {
    var e := c.cursor - 1;
    assert InputTerminals(tokens, start, c.cursor)
      == InputTerminals(tokens, start, e) + [TerminalName(c.token.value.tokenType)];
    CommentsAddNoTerminals(tokens, start, c.cursor, ConsumedEnd(r));
  }

  /** Reversal turns a concatenation around. */
  lemma ReverseAppend(a: seq<string>, b: seq<string>)
    ensures Reverse(a + b) == Reverse(b) + Reverse(a)
  {
    var r, s := Reverse(a + b), Reverse(b) + Reverse(a);
    assert |r| == |s|;
    forall i | 0 <= i < |r|
      ensures r[i] == s[i]
    {
      if i < |b| {
        assert s[i] == b[|b| - 1 - i];
      } else {
        assert s[i] == Reverse(a)[i - |b|];
      }
    }
  }

  lemma ReverseReverse(s: seq<string>)
    ensures Reverse(Reverse(s)) == s
  {
    assert forall i :: 0 <= i < |s| ==> Reverse(Reverse(s))[i] == s[i];
  }

  /** Read top down, the stack above `$` starts with its top. */
  lemma PopReverse(stack: seq<string>)
    requires |stack| >= 2
    ensures Reverse(stack[1..]) == [Last(stack)] + Reverse(Pop(stack)[1..])
  {
    assert stack[1..] == Pop(stack)[1..] + [Last(stack)];
    ReverseAppend(Pop(stack)[1..], [Last(stack)]);
  }

  /** Pushing a reversed right-hand side puts it, in order, on top. */
  lemma PushReverse(stack: seq<string>, rhs: seq<string>)
    requires |stack| >= 2
    ensures Reverse((Pop(stack) + Reverse(rhs))[1..]) == rhs + Reverse(Pop(stack)[1..])
  {
    assert (Pop(stack) + Reverse(rhs))[1..] == Pop(stack)[1..] + Reverse(rhs);
    ReverseAppend(Pop(stack)[1..], Reverse(rhs));
    ReverseReverse(rhs);
  }

  /** Matching a terminal keeps the form invariant. */
  lemma MatchKeepsFormInvariant(table: Table, tokens: seq<Token>, start: nat, c: Config)
    requires WellFormed(tokens, start, c) && FormInvariant(table, tokens, start, c) && Running(c)
    requires Lookahead(c).Some? && Last(c.stack) !in table && Last(c.stack) == Lookahead(c).value
    ensures WellFormed(tokens, start, Step(table, tokens, c))
    ensures FormInvariant(table, tokens, start, Step(table, tokens, c))
  {
    StepKeepsWellFormed(table, tokens, start, c);
    StepOnTerminal(table, tokens, start, c);
    var r := Step(table, tokens, c);
    PopReverse(c.stack);
    ConsumeAddsTerminal(tokens, start, c, r);
    var consumed := InputTerminals(tokens, start, ConsumedEnd(c));
    assert InputTerminals(tokens, start, ConsumedEnd(r)) == consumed + [Last(c.stack)];
    assert r.form == (consumed + [Last(c.stack)]) + Reverse(r.stack[1..]);
  }

  /** A form that ends with the stack read top down has the stack's top right after `consumed`. */
  lemma FormAsTop(consumed: seq<string>, stack: seq<string>)
    requires |stack| >= 2
    ensures consumed + Reverse(stack[1..]) == consumed + [Last(stack)] + Reverse(Pop(stack)[1..])
  {
    PopReverse(stack);
  }

  /** After the push, the form reads `consumed`, the right-hand side, then the rest of the stack. */
  lemma FormAfterPush(consumed: seq<string>, stack: seq<string>, rhs: seq<string>)
    requires |stack| >= 2
    ensures consumed + rhs + Reverse(Pop(stack)[1..]) == consumed + Reverse((Pop(stack) + Reverse(rhs))[1..])
  {
    PushReverse(stack, rhs);
  }

  /** One leftmost step on `consumed` followed by the stack rewrites the stack's top. */
  lemma ExpandForm(table: Table, consumed: seq<string>, stack: seq<string>, rhs: seq<string>)
    requires |stack| >= 2 && Last(stack) in table
    requires forall k :: 0 <= k < |consumed| ==> consumed[k] !in table
    ensures ApplyLeftmostStep(consumed + Reverse(stack[1..]), Last(stack), rhs)
      == consumed + Reverse((Pop(stack) + Reverse(rhs))[1..])
  {
    var top, rest := Last(stack), Reverse(Pop(stack)[1..]);
    assert top !in consumed;
    FormAsTop(consumed, stack);
    ApplyLeftmostStepAt(consumed, top, rest, rhs, consumed + Reverse(stack[1..]));
    FormAfterPush(consumed, stack, rhs);
  }

  /** Expanding a non-terminal keeps the form invariant. */
  lemma ExpansionKeepsFormInvariant(table: Table, tokens: seq<Token>, start: nat, c: Config)
    requires WellFormed(tokens, start, c) && FormInvariant(table, tokens, start, c) && Running(c)
    requires Lookahead(c).Some? && Last(c.stack) in table && Lookahead(c).value in table[Last(c.stack)]
    ensures WellFormed(tokens, start, Step(table, tokens, c))
    ensures FormInvariant(table, tokens, start, Step(table, tokens, c))
  {
    var top := Last(c.stack);
    var rhs := table[top][Lookahead(c).value];
    var form := ApplyLeftmostStep(c.form, top, rhs);
    var r := c.(stack := Pop(c.stack) + Reverse(rhs), form := form, derivation := c.derivation + [FormatForm(form)]);
    assert Step(table, tokens, c) == r;
    var consumed := InputTerminals(tokens, start, ConsumedEnd(c));
    assert WellFormed(tokens, start, r);
    assert ConsumedEnd(r) == ConsumedEnd(c);
    assert c.form == consumed + Reverse(c.stack[1..]);
    ExpandForm(table, consumed, c.stack, rhs);
    assert r.form == consumed + Reverse(r.stack[1..]);
  }

  /** An iteration that reports no error keeps the form invariant. */
  lemma StepKeepsFormInvariant(table: Table, tokens: seq<Token>, start: nat, c: Config)
    requires WellFormed(tokens, start, c) && FormInvariant(table, tokens, start, c) && Running(c)
    requires Step(table, tokens, c).errors == c.errors
    ensures WellFormed(tokens, start, Step(table, tokens, c))
    ensures FormInvariant(table, tokens, start, Step(table, tokens, c))
  {
    if Last(c.stack) in table {
      ExpansionKeepsFormInvariant(table, tokens, start, c);
    } else {
      MatchKeepsFormInvariant(table, tokens, start, c);
    }
  }

  /** A loop that reports no error keeps the form invariant to its end. */
  lemma RunKeepsFormInvariant(table: Table, tokens: seq<Token>, start: nat, c: Config, fuel: nat)
    requires WellFormed(tokens, start, c) && FormInvariant(table, tokens, start, c)
    requires Run(table, tokens, c, fuel).Some? && Run(table, tokens, c, fuel).value.errors == c.errors
    ensures WellFormed(tokens, start, Run(table, tokens, c, fuel).value)
    ensures FormInvariant(table, tokens, start, Run(table, tokens, c, fuel).value)
  {
    RunKeepsFormInvariantTo(table, tokens, start, c, fuel, Run(table, tokens, c, fuel).value);
  }

  /** A loop that is not running stops where it is. */
  lemma RunStopped(table: Table, tokens: seq<Token>, c: Config, fuel: nat)
    requires !Running(c) && c.cursor <= |tokens|
    ensures Run(table, tokens, c, fuel) == Some(c)
  {
  }

  /** `RunKeepsFormInvariant` for a run that ends in `final`, by induction on fuel. */
  lemma {:induction false} RunKeepsFormInvariantTo(table: Table, tokens: seq<Token>, start: nat, c: Config, fuel: nat, final: Config)
    requires WellFormed(tokens, start, c) && FormInvariant(table, tokens, start, c)
    requires Run(table, tokens, c, fuel) == Some(final) && final.errors == c.errors
    ensures WellFormed(tokens, start, final) && FormInvariant(table, tokens, start, final)
    decreases fuel
  {
    if Running(c) {
      var next := ErrorFreeStep(table, tokens, start, c, fuel, final);
      RunKeepsFormInvariantTo(table, tokens, start, next, fuel - 1, final);
    } else {
      RunStopped(table, tokens, c, fuel);
    }
  }

  /**
   * An iteration after which the run reports no new error keeps the form
   * invariant; `next` is the configuration after it.
   */
  lemma ErrorFreeStep(table: Table, tokens: seq<Token>, start: nat, c: Config, fuel: nat, final: Config) returns (next: Config)
    requires WellFormed(tokens, start, c) && FormInvariant(table, tokens, start, c) && Running(c)
    requires Run(table, tokens, c, fuel) == Some(final) && final.errors == c.errors
    ensures fuel > 0 && next.cursor <= |tokens|
    ensures Run(table, tokens, next, fuel - 1) == Some(final) && final.errors == next.errors
    ensures WellFormed(tokens, start, next)
    ensures FormInvariant(table, tokens, start, next)
  {
    next := Step(table, tokens, c);
    StepAppendsAtMostOneError(table, tokens, c);
    StepKeepsWellFormed(table, tokens, start, c);
    RunKeepsWellFormed(table, tokens, start, next, fuel - 1);
    assert next.errors == c.errors;
    StepKeepsFormInvariant(table, tokens, start, c);
  }

  // ---------------------------------------------------------------------
  // What a finished parse returns
  // ---------------------------------------------------------------------

  /**
   * When `parse` returns, `$` is on top of the stack, the derivation starts
   * with `START`, success means no errors, and the last derivation entry is
   * the final form after a success and the note on incompleteness otherwise.
   */
  lemma ParseOutcome(table: Table, tokens: seq<Token>, start: nat, fuel: nat)
    requires start <= |tokens| && ParseSpec(table, tokens, start, fuel).Some?
    ensures var res := ParseSpec(table, tokens, start, fuel).value;
      var c := Run(table, tokens, Initial(tokens, start), fuel).value;
      |c.stack| >= 1 && c.stack[|c.stack| - 1] == EndMarker
      && |res.derivation| >= 1 && res.derivation[0] == StartSymbol
      && (res.success <==> res.errors == [])
      && (res.success ==> res.derivation == c.derivation && res.derivation[|res.derivation| - 1] == FormatForm(c.form))
      && (!res.success ==> res.derivation == c.derivation + [IncompleteNote])
  {
    InitialWellFormed(tokens, start);
    RunKeepsWellFormed(table, tokens, start, Initial(tokens, start), fuel);
  }

  /** No right-hand side of the table pushes the end marker. */
  predicate NoEndMarkerInRules(table: Table) {
    forall nt, la :: nt in table && la in table[nt] ==> EndMarker !in table[nt][la]
  }

  /** Only the bottom of the stack is `$`. */
  predicate EndMarkerOnlyAtBottom(c: Config) {
    forall k :: 1 <= k < |c.stack| ==> c.stack[k] != EndMarker
  }

  lemma {:induction false} RunKeepsEndMarkerAtBottom(table: Table, tokens: seq<Token>, c: Config, fuel: nat)
    requires NoEndMarkerInRules(table) && EndMarkerOnlyAtBottom(c) && c.cursor <= |tokens|
    ensures Run(table, tokens, c, fuel).Some? ==> EndMarkerOnlyAtBottom(Run(table, tokens, c, fuel).value)
    decreases fuel
  {
    if Running(c) && fuel > 0 {
      var next := Step(table, tokens, c);
      assert EndMarkerOnlyAtBottom(next) by {
        if Lookahead(c).Some? && Last(c.stack) in table && Lookahead(c).value in table[Last(c.stack)] {
          var rhs := table[Last(c.stack)][Lookahead(c).value];
          assert next.stack == Pop(c.stack) + Reverse(rhs);
          assert EndMarker !in rhs;
        }
      }
      RunKeepsEndMarkerAtBottom(table, tokens, next, fuel - 1);
    }
  }

  /**
   * An accepted parse has derived the input it read: the last derivation entry
   * is the form made of the terminals of the tokens consumed, none of them a
   * non-terminal, followed by what is left on the stack above `$`. The tokens
   * from the current one on are not looked at: the loop stops as soon as `$`
   * is on top.
   */
  lemma AcceptedParseDerivesInput(table: Table, tokens: seq<Token>, start: nat, fuel: nat)
    requires start <= |tokens| && ParseSpec(table, tokens, start, fuel).Some?
    requires ParseSpec(table, tokens, start, fuel).value.success
    ensures var res := ParseSpec(table, tokens, start, fuel).value;
      var c := Run(table, tokens, Initial(tokens, start), fuel).value;
      WellFormed(tokens, start, c) && |res.derivation| >= 1
      && var consumed := InputTerminals(tokens, start, ConsumedEnd(c));
      c.form == consumed + Reverse(c.stack[1..])
      && res.derivation[|res.derivation| - 1] == FormatForm(c.form)
      && (forall k :: 0 <= k < |consumed| ==> consumed[k] !in table)
  {
    var init := Initial(tokens, start);
    InitialFormInvariant(table, tokens, start);
    RunKeepsWellFormed(table, tokens, start, init, fuel);
    RunKeepsFormInvariant(table, tokens, start, init, fuel);
    ParseOutcome(table, tokens, start, fuel);
  }

  /** With a table whose rules never push `$`, an accepted parse empties the stack and derives exactly the input read. */
  lemma AcceptedParseDerivesExactlyInput(table: Table, tokens: seq<Token>, start: nat, fuel: nat)
    requires NoEndMarkerInRules(table)
    requires start <= |tokens| && ParseSpec(table, tokens, start, fuel).Some?
    requires ParseSpec(table, tokens, start, fuel).value.success
    ensures var res := ParseSpec(table, tokens, start, fuel).value;
      var c := Run(table, tokens, Initial(tokens, start), fuel).value;
      WellFormed(tokens, start, c) && |res.derivation| >= 1
      && c.stack == [EndMarker]
      && c.form == InputTerminals(tokens, start, ConsumedEnd(c))
      && res.derivation[|res.derivation| - 1] == FormatForm(c.form)
  {
    var init := Initial(tokens, start);
    AcceptedParseDerivesInput(table, tokens, start, fuel);
    RunKeepsEndMarkerAtBottom(table, tokens, init, fuel);
    var c := Run(table, tokens, init, fuel).value;
    assert |c.stack| == 1;
    assert c.stack[1..] == [];
  }
}
