# A verified model of the compiler front end

This project models the front end of a small compiler. It has three parts.

- **The token vocabulary** (`tokens.py`). This is the closed set of lexeme categories (`TokenType`), each with its string value. It also holds the immutable `Token` record and its `[type, lexeme, line]` rendering.
- **The scanner** (`lexer.py`). Only its identifier and reserved-word branch exists. The scanner skips whitespace and reads a maximal run of letters, digits and underscores. If the run is followed by anything other than whitespace, it widens the lexeme to the next whitespace and reports an invalid identifier. Otherwise it classifies the word in one of three ways:
  - a reserved word;
  - a reserved word written in the wrong case (`invalidreservedword`);
  - an identifier.
- **The table-driven LL(1) parser with panic-mode recovery** (`parser/parser.py`). It keeps an explicit stack. It reads non-comment tokens through a cursor and maps them to grammar terminals. It records syntax errors and a leftmost derivation, step by step.

Files and modules:

| file | module | contents |
|---|---|---|
| `wrappers.dfy` | `Wrappers` | `Option` |
| `chars.dfy` | `Chars` | Python's `isspace` with its full Unicode whitespace list, and `isalpha`, `isalnum`, `upper` and `lower` on ASCII letters and digits |
| `text.dfy` | `Text` | Python's `str(int)` and `int(str)`, `" ".join` and `split(" ")`, and the bracketed three-field layout, each with its inverse |
| `tokens.dfy` | `Tokens` | `TokenType`, its values and member names with their inverse lookups, `Token`, `ToOutLexTokens` |
| `lexer.dfy` | `Lex` | the reserved words, the word classifier, the scanning functions `SkipSpaces`, `IdRunEnd`, `NextSpace` and `ScanWord`, and the class `Lexer`, whose methods are proved against those functions |
| `parser.dfy` | `Parser` | the terminal mapping, the comment skipper, the derivation helpers, one loop iteration `Step`, the iterated loop `Run`, and the method `Parse`, proved to compute `ParseSpec` |
| `parser_facts.dfy` | `ParserFacts` | what each branch of the loop does, what the loop preserves, and what an accepted parse derives |
| `parser_examples.dfy` | `ParserExamples` | three parses worked out on a one-rule table |

## Parser state

The parse table is a parameter of type `map<string, map<string, seq<string>>>`. It maps a non-terminal and a lookahead terminal to a right-hand side.

The lexer, as the parser sees it, is a `TokenStream`: a fixed sequence of tokens and a cursor. Reading past the end gives `None`, which is the end of input and maps to the terminal `$`.

A `Config` holds the variables of `parse` between two loop iterations:

- the stack, with its top last;
- the cursor;
- the current token;
- the errors;
- the derivation;
- the sentential form.

`Step` is one iteration of the loop. `Run` iterates it under a fuel bound. The method `Parse` runs the same loop over local variables and the mutable `TokenStream`.

The main proved facts about the parser:

- Each of the four branches does exactly what it is meant to do to the stack, the input, the errors and the derivation.
- Every iteration except an expansion either consumes a token or pops the stack.
- In a run that reports no error, the form equals the terminals consumed so far followed by the stack read from top to bottom. An error breaks this: after a terminal mismatch the stack is popped but nothing is consumed.
- As a consequence, when a parse is accepted with no `$` inside a rule, its last derivation entry spells exactly the terminals it consumed.

## Behaviour of the code that the proofs make explicit

- **The sync-set test never holds.** `sync_set` holds only keys of `productions` (parser/parser.py:166-170). The recovery branch runs only when the lookahead is not such a key (parser/parser.py:149, 157). So `lookahead in sync_set` is always false, and recovery pops the non-terminal if and only if the lookahead is `$`. `ParserFacts.StepOnNoRule` proves this.
- **The parser does not check that the input is used up.** The loop stops as soon as `$` is on top of the stack (parser/parser.py:119), whatever input is left. `ParserExamples.AcceptsWithTrailingInput` shows `x y` accepted by the rule `START -> id`. After `x` is matched, `advance()` (parser/parser.py:136) reads `y` as the lookahead, but `y` is never consumed or checked against the end of input.
- **The scanner's error types do not reach the parser's invalid branch.**
  - The parser sends the lexical-error categories listed in `invalid_tokens` (parser/parser.py:24-28) to its invalid branch (parser/parser.py:50-51).
  - The scanner marks bad words with two other error types, `invalidid` and `invalidreservedword` (the TODOs at lexer.py:63 and lexer.py:73). It writes them as bare strings, not as `TokenType` members.
  - In the program, such a token makes `token.type.value` raise (parser/parser.py:54). The model cannot follow the program there. It gives the two error types their own categories, so they pass through as the terminals `invalidid` and `invalidreservedword` (see "## Left out").
- **The scanner does not advance on a non-letter.** The non-letter branch returns `None` and leaves the cursor on that character (lexer.py:45-46). `Lex.Lexer.GetNextToken` states this: on a non-letter, the result is `None` and the cursor stays on the character it found.

## Model

| member | source | states |
|---|---|---|
| Chars.CaseMappingsAgree | lexer.py:71-72 | a word and its upper-cased form lower-case to the same string, and the other way round; lower-casing twice is lower-casing once |
| Chars.LowerOfLowerWord | lexer.py:72 | lower-casing a word of lower-case letters gives the word back |
| Text.NatRoundTrip | tokens.py:69 | reading back the decimal digits of a natural number gives the number |
| Text.IntRoundTrip | tokens.py:69 | `int(str(i)) == i` for every integer, and `str(i)` has no whitespace |
| Text.SplitJoin | parser/parser.py:93 | splitting the blank-joined list of non-empty blank-free words at blanks gives the list back |
| Text.BracketedRoundTrip | tokens.py:69 | the `[a, b, c]` layout can be split back into exactly its three fields when the first and last have no blank; the middle one may contain blanks |
| Tokens.ValueRoundTrip | tokens.py:4-57 | the enum lookup by value, `TokenType(v)`, recovers every category from its value |
| Tokens.ValueInjective | tokens.py:4-57 | distinct categories have distinct values |
| Tokens.NameRoundTrip | tokens.py:4-57 | the lookup by member name, `TokenType[n]`, recovers every category from its name |
| Tokens.ValueHasNoBlank | tokens.py:4-57 | every category value is a non-empty word without blanks |
| Tokens.RenderRoundTrip | tokens.py:62-69 | the `to_outlextokens` rendering of every token determines the token: category, lexeme (blanks included) and line are read back |
| Lex.KeywordNameIsUpperValue | tokens.py:34-54 | each of the 21 keyword members is named by its upper-cased value, and that value is a lower-case word |
| Lex.ReservedWordLookup | lexer.py:70-71 | for every reserved word `w`, `w` is lower case and `TokenType[w.upper()]` exists, is a keyword and has value `w` |
| Lex.KeywordIsReserved | lexer.py:5-27 | the value of every keyword category is a reserved word |
| Lex.IdOrReservedWordType | lexer.py:69-75 | the type of a word is a keyword exactly when the word is reserved, and then it is the keyword whose value is the word; it is `invalidreservedword` exactly when the word is not reserved but its lower-case form is; otherwise it is `ID` |
| Lex.IdClassIgnoresCase | lexer.py:69-75 | whether a word is read as `ID` depends only on its lower-cased form: upper- or lower-casing it never changes that, and a word that is not `ID` lower-cases to a keyword |
| Lex.SkipSpaces | lexer.py:52-54 | whitespace skipping passes only whitespace and stops at the end or at a non-whitespace character |
| Lex.IdRunEnd | lexer.py:57-59 | the identifier run covers only letters, digits and `_`, and stops at the end or at the first other character |
| Lex.NextSpace | lexer.py:80-82 | the invalid-identifier extension passes only non-whitespace and stops at the end or at whitespace |
| Lex.ScanWord | lexer.py:56-67 | the lexeme starts at the letter, is the text up to the next whitespace, and contains no whitespace; its type is `invalidid` exactly when a character after the first is not a letter, digit or `_`, and otherwise is the classifier's verdict; its line is -1 |
| Lex.ScanInvalidIdExample | lexer.py:77-83 | `x<=y z` yields the single invalid identifier `x<=y` |
| Lex.NearMissExample | lexer.py:72-73 | `IF` and `If` are reserved words in the wrong case |
| Lex.KeywordExample | lexer.py:70-71 | `if` is the keyword `IF` |
| Lex.IdExample | lexer.py:74-75 | `iffy`, a word that only begins like a reserved word, is an identifier |
| Lex.Lexer.constructor | lexer.py:29-36 | a new scanner starts at position -1 and advances once, so it is on the first character |
| Lex.Lexer.Advance | lexer.py:48-50 | `pos` grows by exactly one and `current_char` is the character there, or `None` past the end |
| Lex.Lexer.SkipWhitespace | lexer.py:52-54 | the cursor moves to where `SkipSpaces` says, and the current character is `None` or not whitespace |
| Lex.Lexer.GetNextToken | lexer.py:38-46 | on a letter, the token is `ScanWord`'s and the cursor ends on the whitespace after the lexeme, strictly further on; otherwise the result is `None` and the cursor is on that character |
| Lex.Lexer.GetIdOrReservedWordToken | lexer.py:56-67 | the maximal identifier loop, then the invalid-identifier extension or the classification, produce exactly `ScanWord`'s token and leave the cursor on the next whitespace |
| Lex.Lexer.ExhaustInvalidId | lexer.py:77-83 | the lexeme grows by the current character and everything up to the next whitespace, where the cursor stops |
| Parser.TokenMapKeysAreValues | parser/parser.py:7-17 | every key of `token_map` is the value of a category |
| Parser.LexerToTerminal | parser/parser.py:46-54 | the end of input maps to `$`, and a token maps to `None` exactly when its category is invalid; any other token maps to its `token_map` renaming or else its value |
| Parser.TerminalNameIsNotEndMarker | parser/parser.py:53-54 | no token category maps to `$` |
| Parser.EndMarkerIffEndOfInput | parser/parser.py:46-54 | the lookahead is `$` exactly at the end of input |
| Parser.PullNonComment | parser/parser.py:38-44 | the token taken is the first non-comment token from the cursor, and everything skipped before it is a comment; when only comments remain, the result is `None` at the end of the input |
| Parser.TokenStream.constructor | parser/parser.py:100 | the parser's token source starts at its first token |
| Parser.TokenStream.GetNextToken | parser/parser.py:39 | each call hands out the next token and moves past it, or returns `None` once all are handed out |
| Parser.NextNonCommentToken | parser/parser.py:38-44 | the loop returns the token `PullNonComment` describes and leaves the stream just after it |
| Parser.ApplyLeftmostStep | parser/parser.py:77-86 | with `i` the first index of the non-terminal, the result is `form[..i] + rhs + form[i+1..]`; a form without the non-terminal is returned unchanged |
| Parser.ApplyLeftmostStepAt | parser/parser.py:83-85 | when the prefix does not contain the non-terminal, the step replaces the occurrence right after the prefix |
| Parser.FormatFormRoundTrip | parser/parser.py:89-93 | the derivation entry of a non-empty form of blank-free symbols splits back into the form |
| Parser.Reverse | parser/parser.py:152 | `reversed(rhs)` has the same length, and its element `i` is `rhs[len - 1 - i]` |
| Parser.SyncSetWithinRules | parser/parser.py:166-181 | the sync set lies inside the keys of the entry's productions, so for a lookahead with no rule the recovery test `lookahead in sync_set or lookahead == "$"` holds exactly when the lookahead is `$` |
| Parser.Run | parser/parser.py:119 | when the loop finishes within its fuel, it stops with `$` on top of the stack or with an empty stack |
| Parser.Parse | parser/parser.py:100-190 | the loop over the stack returns what `ParseSpec` gives, and leaves the lexer at the final configuration's cursor; with too little fuel it returns `None` |
| ParserFacts.CommentsAddNoTerminals | parser/parser.py:41-42 | skipped comment tokens contribute no terminals to the input |
| ParserFacts.InitialWellFormed | parser/parser.py:101-108 | before the loop, the stack is `$ START`, the derivation is `START`, and the current token is the first non-comment token |
| ParserFacts.StepKeepsWellFormed | parser/parser.py:119-181 | every iteration keeps `$` at the bottom of the stack, `START` as the first derivation entry, the formatted form as the last entry, and a current token that is not a comment and sits just before the cursor |
| ParserFacts.RunKeepsWellFormed | parser/parser.py:119-181 | the loop keeps that invariant, ends with `$` on top, and only appends to the error list |
| ParserFacts.StepAppendsAtMostOneError | parser/parser.py:119-181 | one iteration appends at most one error and never alters earlier ones |
| ParserFacts.StepOnInvalidToken | parser/parser.py:122-129 | on an invalid token, exactly one error is appended and exactly one token is consumed; the stack, form and derivation are unchanged |
| ParserFacts.StepOnTerminal | parser/parser.py:131-143 | with a terminal on top, the top is popped. If it matches the lookahead, one token is consumed and no error is added; otherwise one mismatch error is added and the input is untouched |
| ParserFacts.StepOnExpansion | parser/parser.py:148-155 | with a rule for the non-terminal and the lookahead, the top is replaced by the reversed right-hand side, and the form takes one leftmost step. The derivation grows by exactly its formatted entry (`epsilon` for an empty form), and no error is added or token consumed |
| ParserFacts.StepOnNoRule | parser/parser.py:156-181 | with no rule, exactly one error naming the non-terminal and its lookaheads is appended. The sync-set test is false, so the top is popped if the lookahead is `$`; otherwise one token is consumed and the stack is untouched |
| ParserFacts.StepProgress | parser/parser.py:119-181 | every iteration other than an expansion consumes a token without growing the stack, or pops one symbol without consuming |
| ParserFacts.InitialFormInvariant | parser/parser.py:101-104 | before the loop, the form is the stack read from top to bottom, with nothing consumed |
| ParserFacts.ConsumeAddsTerminal | parser/parser.py:110-113 | consuming the current valid token adds exactly its terminal to the consumed input |
| ParserFacts.MatchKeepsFormInvariant | parser/parser.py:133-136 | a terminal match keeps the form equal to the consumed terminals followed by the stack read from top to bottom |
| ParserFacts.ExpandForm | parser/parser.py:149-155 | expanding the stack top rewrites exactly the leftmost occurrence of that non-terminal in such a form |
| ParserFacts.ExpansionKeepsFormInvariant | parser/parser.py:149-155 | an expansion keeps the form equal to the consumed terminals followed by the stack read from top to bottom |
| ParserFacts.StepKeepsFormInvariant | parser/parser.py:119-155 | every error-free iteration keeps that invariant |
| ParserFacts.RunKeepsFormInvariant | parser/parser.py:119-155 | an error-free run keeps that invariant |
| ParserFacts.ParseOutcome | parser/parser.py:183-189 | the loop ends with `$` on top, and the derivation starts with `START`; `success` holds exactly when there are no errors; the incomplete-derivation entry is appended exactly when there are errors, and otherwise the last entry is the final form |
| ParserFacts.RunKeepsEndMarkerAtBottom | parser/parser.py:119-155 | when no rule contains `$`, `$` stays only at the bottom of the stack |
| ParserFacts.AcceptedParseDerivesInput | parser/parser.py:100-190 | in an accepted parse, the final form is the consumed input terminals followed by the rest of the stack, and the last derivation entry is that form |
| ParserFacts.AcceptedParseDerivesExactlyInput | parser/parser.py:100-190 | when no rule contains `$`, an accepted parse empties the stack down to `$`, and its last derivation entry spells exactly the consumed input terminals |
| ParserExamples.AcceptsOneId | parser/parser.py:100-190 | with `START -> id`, the input `id` is accepted with the derivation `START`, `id` |
| ParserExamples.AcceptsWithTrailingInput | parser/parser.py:119 | with `START -> id`, the input `id id` is accepted; its second token is read as the lookahead but never consumed or checked against the end of input |
| ParserExamples.RejectsEmptyInput | parser/parser.py:156-184 | with `START -> id`, empty input gives one no-rule error at line -1, pops `START`, and marks the derivation incomplete |

## Left out

- `parser/parser_driver.py` is not part of this model. It discovers files, reads and writes them, and prints.
- The contents of `parser.table` are not part of this model. The table is a parameter of the parser.
- Parser.Parse: termination is not modelled. The expansion branch ends only for suitable tables, so the loop takes a fuel bound and returns `None` when the fuel runs out. `ParserFacts.StepProgress` proves progress for every other branch.
- Diagnostic text is not modelled. This covers the f-strings, `_describe_token` and the sorted list of `_expected_lookaheads` (parser/parser.py:57-70, 124-161). Each error is a `Diagnostic` record: the line of the current token (-1 at the end of input), the kind of error (with the expected terminal, or the non-terminal and the set of its lookaheads), and the token found.
- Parser.TokenStream: the parser reads a finite sequence of tokens rather than a running `Lexer`, since the scanner implements only words. Where the real scanner would return `None` early (on a non-letter), the parser would see the end of input.
- Lex.Lexer.GetNextToken: requires that the text holds a character after the whitespace and, when that character is a letter, some whitespace after the word. The code raises on `None` in both situations (lexer.py:42, 57, 61, 80), so those inputs have no result to model.
- Lex.Lexer.GetIdOrReservedWordToken: requires whitespace somewhere after the word, for the same reason (lexer.py:57, 61, 80).
- Lex.Lexer.ExhaustInvalidId: requires whitespace somewhere after the current character, for the same reason (lexer.py:80).
- Lex.ReservedWords: `set("if", ..., "main")` (lexer.py:5-27) raises a TypeError because `set` takes one argument. The model uses the 21 words evidently meant.
- Numbers, operators, comments and line counting in the scanner are not modelled: the code has none. Every word token carries line -1, as the code writes it.
- Chars.IsAlpha: Python's `isalpha`, `isalnum`, `upper` and `lower` also act on non-ASCII letters, and `isalnum` also accepts non-ASCII digits; the model's letters and digits are ASCII only.
- Parser.LexerToTerminal: passes `invalidid` and `invalidreservedword` tokens through as terminals named by those strings. In the program these tokens carry a bare `str` type, so `token.type.value` raises `AttributeError` at parser/parser.py:54, and likewise at parser/parser.py:61 and tokens.py:69.
- Tokens.TokenType: `INVALIDCHAR`, `INVALIDNUM` and `INVALIDCMT` are used by the parser (parser/parser.py:24-28) but missing from `tokens.py`. Evaluating `TokenType.INVALIDCHAR` at parser/parser.py:25 raises AttributeError as soon as parser.py is imported. `invalidid` and `invalidreservedword` are bare strings in the scanner. All five are modelled as extra categories whose values are those lower-case names.
- Token.to_flaci and Token.to_outlexerrors are stubs that return `None` (tokens.py:71-77). They are not modelled.
- All `print` output is left out, including the scanner's "Not yet implemented".
