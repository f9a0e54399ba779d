/**
 * The parser on a one-rule grammar `START -> id`. The two steps shared by the
 * accepting examples are lemmas of their own, and the token sequences are
 * parameters fixed by preconditions, which keeps each proof obligation small.
 */
module ParserExamples {
  import opened Wrappers
  import opened Tokens
  import opened Parser

  const OneRule: Table := map["START" := map["id" := ["id"]]]

  /** The first step on an identifier: `START` is expanded to `id`. */
  lemma ExpandsStartOnId(tokens: seq<Token>, c: Config)
    requires c.cursor <= |tokens| && c.stack == ["$", "START"] && c.form == ["START"]
    requires c.token.Some? && c.token.value.tokenType == Id
    ensures Step(OneRule, tokens, c) == c.(stack := ["$", "id"], form := ["id"], derivation := c.derivation + ["id"])
  {
    assert TerminalName(Id) == "id";
    assert Lookahead(c) == Some("id") && OneRule["START"]["id"] == ["id"];
    assert ApplyLeftmostStep(["START"], "START", ["id"]) == ["id"] && FormatForm(["id"]) == "id";
  }

  /** The second step on an identifier: the terminal `id` is matched and the next token read. */
  lemma MatchesId(tokens: seq<Token>, c: Config)
    requires c.cursor <= |tokens| && c.stack == ["$", "id"]
    requires c.token.Some? && c.token.value.tokenType == Id
    ensures Step(OneRule, tokens, c) == Advance(tokens, c.(stack := ["$"]))
  {
    assert TerminalName(Id) == "id";
    assert Lookahead(c) == Some("id") && "id" !in OneRule;
  }

  /** `x` is accepted with the derivation `START`, `id`. */
  lemma AcceptsOneId(tokens: seq<Token>)
    requires tokens == [Token(Id, "x", 1)]
    ensures ParseSpec(OneRule, tokens, 0, 2) == Some(ParseResult(true, [], ["START", "id"]))
  {
    var c0 := Initial(tokens, 0);
    assert c0 == Config(["$", "START"], 1, Some(Token(Id, "x", 1)), [], ["START"], ["START"]);
    ExpandsStartOnId(tokens, c0);
    var c1 := Step(OneRule, tokens, c0);
    MatchesId(tokens, c1);
    assert PullNonComment(tokens, 1) == (None, 1);
    var c2 := Step(OneRule, tokens, c1);
    assert c2 == Config(["$"], 1, None, [], ["START", "id"], ["id"]);
    assert Run(OneRule, tokens, c0, 2) == Some(c2);
  }

  /**
   * `x y` is accepted too: once `$` is on top the loop stops, and the token
   * `y`, already read as the lookahead, is never checked against the end of input.
   */
  lemma AcceptsWithTrailingInput(tokens: seq<Token>)
    requires tokens == [Token(Id, "x", 1), Token(Id, "y", 1)]
    ensures ParseSpec(OneRule, tokens, 0, 2) == Some(ParseResult(true, [], ["START", "id"]))
  {
    var c0 := Initial(tokens, 0);
    assert c0 == Config(["$", "START"], 1, Some(Token(Id, "x", 1)), [], ["START"], ["START"]);
    ExpandsStartOnId(tokens, c0);
    var c1 := Step(OneRule, tokens, c0);
    MatchesId(tokens, c1);
    assert PullNonComment(tokens, 1) == (Some(Token(Id, "y", 1)), 2);
    var c2 := Step(OneRule, tokens, c1);
    assert c2 == Config(["$"], 2, Some(Token(Id, "y", 1)), [], ["START", "id"], ["id"]);
    assert Run(OneRule, tokens, c0, 2) == Some(c2);
  }

  /** Empty input: one error at line -1, `START` is dropped, and the derivation is marked incomplete. */
  lemma RejectsEmptyInput()
    ensures ParseSpec(OneRule, [], 0, 1) == Some(ParseResult(
      false,
      [Diagnostic(-1, NoRule("START", {"id"}), None)],
      ["START", IncompleteNote]))
  {
    var c0 := Initial([], 0);
    assert c0 == Config(["$", "START"], 0, None, [], ["START"], ["START"]);
    assert OneRule["START"].Keys == {"id"};
    var c1 := Step(OneRule, [], c0);
    assert c1 == Config(["$"], 0, None, [Diagnostic(-1, NoRule("START", {"id"}), None)], ["START"], ["START"]);
    assert Run(OneRule, [], c0, 1) == Some(c1);
    assert |c1.errors| == 1;
    assert c1.derivation + [IncompleteNote] == ["START", IncompleteNote];
    assert Finish(c1) == ParseResult(false, c1.errors, ["START", IncompleteNote]);
  }
}
