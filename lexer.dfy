/**
 * The scanner of lexer.py. Only its letter branch exists in the source: it
 * skips whitespace, reads a maximal run of letters, digits and underscores,
 * widens the lexeme to the next whitespace when the run is followed by
 * anything else (an invalid identifier), and otherwise classifies the word as
 * a reserved word, a reserved word in the wrong case, or an identifier.
 */
module Lex {
  import opened Wrappers
  import opened Chars
  import opened Tokens

  /** The reserved words, all lower case. */
  const ReservedWords: set<string> := {
    "if", "then", "else", "while", "class", "integer", "float", "do", "end", "public",
    "private", "or", "and", "not", "read", "write", "return", "inherits", "local",
    "void", "main"
  }

  /*
   * Every reserved word is the value of some keyword category. The proof is
   * split into seven groups of three words (and, below, the names likewise):
   * each case compares string literals, and the solver checks a handful of
   * them cheaply but not all 21 in one obligation.
   */

  lemma ReservedGroupOne(w: string)
    requires w in {"if", "then", "else"}
    ensures exists t: TokenType :: t.IsKeyword() && Value(t) == w
  {
    if w == "if" { assert Value(KwIf) == w; }
    else if w == "then" { assert Value(KwThen) == w; }
    else { assert Value(KwElse) == w; }
  }

  lemma ReservedGroupTwo(w: string)
    requires w in {"while", "class", "integer"}
    ensures exists t: TokenType :: t.IsKeyword() && Value(t) == w
  {
    if w == "while" { assert Value(KwWhile) == w; }
    else if w == "class" { assert Value(KwClass) == w; }
    else { assert Value(KwInteger) == w; }
  }

  lemma ReservedGroupThree(w: string)
    requires w in {"float", "do", "end"}
    ensures exists t: TokenType :: t.IsKeyword() && Value(t) == w
  {
    if w == "float" { assert Value(KwFloat) == w; }
    else if w == "do" { assert Value(KwDo) == w; }
    else { assert Value(KwEnd) == w; }
  }

  lemma ReservedGroupFour(w: string)
    requires w in {"public", "private", "or"}
    ensures exists t: TokenType :: t.IsKeyword() && Value(t) == w
  {
    if w == "public" { assert Value(KwPublic) == w; }
    else if w == "private" { assert Value(KwPrivate) == w; }
    else { assert Value(KwOr) == w; }
  }

  lemma ReservedGroupFive(w: string)
    requires w in {"and", "not", "read"}
    ensures exists t: TokenType :: t.IsKeyword() && Value(t) == w
  {
    if w == "and" { assert Value(KwAnd) == w; }
    else if w == "not" { assert Value(KwNot) == w; }
    else { assert Value(KwRead) == w; }
  }

  lemma ReservedGroupSix(w: string)
    requires w in {"write", "return", "inherits"}
    ensures exists t: TokenType :: t.IsKeyword() && Value(t) == w
  {
    if w == "write" { assert Value(KwWrite) == w; }
    else if w == "return" { assert Value(KwReturn) == w; }
    else { assert Value(KwInherits) == w; }
  }

  lemma ReservedGroupSeven(w: string)
    requires w in {"local", "void", "main"}
    ensures exists t: TokenType :: t.IsKeyword() && Value(t) == w
  {
    if w == "local" { assert Value(KwLocal) == w; }
    else if w == "void" { assert Value(KwVoid) == w; }
    else { assert Value(KwMain) == w; }
  }

  /** The name of a keyword category is its value in upper case. */
  lemma KeywordNameIsUpperValue(t: TokenType)
    requires t.IsKeyword()
    ensures Name(t) == Upper(Value(t)) && IsLowerWord(Value(t))
  {
    if t.KwIf? || t.KwThen? || t.KwElse? {
      UpperValueOne(t);
    } else if t.KwWhile? || t.KwClass? || t.KwInteger? {
      UpperValueTwo(t);
    } else if t.KwFloat? || t.KwDo? || t.KwEnd? {
      UpperValueThree(t);
    } else if t.KwPublic? || t.KwPrivate? || t.KwOr? {
      UpperValueFour(t);
    } else if t.KwAnd? || t.KwNot? || t.KwRead? {
      UpperValueFive(t);
    } else if t.KwWrite? || t.KwReturn? || t.KwInherits? {
      UpperValueSix(t);
    } else {
      UpperValueSeven(t);
    }
  }

  lemma UpperValueOne(t: TokenType)
    requires t.KwIf? || t.KwThen? || t.KwElse?
    ensures Name(t) == Upper(Value(t)) && IsLowerWord(Value(t))
  {
    match t
    case KwIf => assert Upper(Value(t)) == Name(t);
    case KwThen => assert Upper(Value(t)) == Name(t);
    case KwElse => assert Upper(Value(t)) == Name(t);
  }

  lemma UpperValueTwo(t: TokenType)
    requires t.KwWhile? || t.KwClass? || t.KwInteger?
    ensures Name(t) == Upper(Value(t)) && IsLowerWord(Value(t))
  {
    match t
    case KwWhile => assert Upper(Value(t)) == Name(t);
    case KwClass => assert Upper(Value(t)) == Name(t);
    case KwInteger => assert Upper(Value(t)) == Name(t);
  }

  lemma UpperValueThree(t: TokenType)
    requires t.KwFloat? || t.KwDo? || t.KwEnd?
    ensures Name(t) == Upper(Value(t)) && IsLowerWord(Value(t))
  {
    match t
    case KwFloat => assert Upper(Value(t)) == Name(t);
    case KwDo => assert Upper(Value(t)) == Name(t);
    case KwEnd => assert Upper(Value(t)) == Name(t);
  }

  lemma UpperValueFour(t: TokenType)
    requires t.KwPublic? || t.KwPrivate? || t.KwOr?
    ensures Name(t) == Upper(Value(t)) && IsLowerWord(Value(t))
  {
    match t
    case KwPublic => assert Upper(Value(t)) == Name(t);
    case KwPrivate => assert Upper(Value(t)) == Name(t);
    case KwOr => assert Upper(Value(t)) == Name(t);
  }

  lemma UpperValueFive(t: TokenType)
    requires t.KwAnd? || t.KwNot? || t.KwRead?
    ensures Name(t) == Upper(Value(t)) && IsLowerWord(Value(t))
  {
    match t
    case KwAnd => assert Upper(Value(t)) == Name(t);
    case KwNot => assert Upper(Value(t)) == Name(t);
    case KwRead => assert Upper(Value(t)) == Name(t);
  }

  lemma UpperValueSix(t: TokenType)
    requires t.KwWrite? || t.KwReturn? || t.KwInherits?
    ensures Name(t) == Upper(Value(t)) && IsLowerWord(Value(t))
  {
    match t
    case KwWrite => assert Upper(Value(t)) == Name(t);
    case KwReturn => assert Upper(Value(t)) == Name(t);
    case KwInherits => assert Upper(Value(t)) == Name(t);
  }

  lemma UpperValueSeven(t: TokenType)
    requires t.KwLocal? || t.KwVoid? || t.KwMain?
    ensures Name(t) == Upper(Value(t)) && IsLowerWord(Value(t))
  {
    match t
    case KwLocal => assert Upper(Value(t)) == Name(t);
    case KwVoid => assert Upper(Value(t)) == Name(t);
    case KwMain => assert Upper(Value(t)) == Name(t);
  }

  /**
   * Each reserved word is lower case and is the value of the keyword category
   * that `TokenType[w.upper()]` finds.
   */
  lemma ReservedWordLookup(w: string)
    requires w in ReservedWords
    ensures Lower(w) == w
    ensures FromName(Upper(w)).Some?
    ensures FromName(Upper(w)).value.IsKeyword() && Value(FromName(Upper(w)).value) == w
  {
    if w in {"if", "then", "else"} {
      ReservedGroupOne(w);
    } else if w in {"while", "class", "integer"} {
      ReservedGroupTwo(w);
    } else if w in {"float", "do", "end"} {
      ReservedGroupThree(w);
    } else if w in {"public", "private", "or"} {
      ReservedGroupFour(w);
    } else if w in {"and", "not", "read"} {
      ReservedGroupFive(w);
    } else if w in {"write", "return", "inherits"} {
      ReservedGroupSix(w);
    } else {
      ReservedGroupSeven(w);
    }
    var t: TokenType :| t.IsKeyword() && Value(t) == w;
    KeywordNameIsUpperValue(t);
    LowerOfLowerWord(w);
    NameRoundTrip(t);
  }

  /** Conversely, the value of every keyword category is a reserved word. */
  lemma KeywordIsReserved(t: TokenType)
    requires t.IsKeyword()
    ensures Value(t) in ReservedWords
  {
  }

  /**
   * The category of a word that ends at whitespace: the keyword it spells,
   * `invalidreservedword` when only its lower-cased form is reserved, else `ID`.
   */
  function IdOrReservedWordType(w: string): (r: TokenType)
    ensures r.IsKeyword() || r == InvalidReservedWord || r == Id
    ensures r.IsKeyword() <==> w in ReservedWords
    ensures r.IsKeyword() ==> Value(r) == w
    ensures r == InvalidReservedWord <==> w !in ReservedWords && Lower(w) in ReservedWords
    ensures r == Id <==> Lower(w) !in ReservedWords
  {
    if w in ReservedWords then
      ReservedWordLookup(w);
      FromName(Upper(w)).value
    else if Lower(w) in ReservedWords && w !in ReservedWords then
      InvalidReservedWord
    else
      Id
  }

  /**
   * Whether a word is an identifier depends only on its lower-cased form: a
   * change of case never turns an identifier into a keyword or a near miss,
   * and every keyword or near miss lower-cases to a keyword.
   */
  lemma IdClassIgnoresCase(w: string)
    ensures IdOrReservedWordType(w) == Id <==> IdOrReservedWordType(Upper(w)) == Id
    ensures IdOrReservedWordType(w) == Id <==> IdOrReservedWordType(Lower(w)) == Id
    ensures IdOrReservedWordType(w) != Id <==> IdOrReservedWordType(Lower(w)).IsKeyword()
  {
    CaseMappingsAgree(w);
  }

  /** The character under a cursor: `text[pos]` inside the text, `None` past its end. */
  function CharAt(text: string, pos: nat): Option<char> {
    if pos < |text| then Some(text[pos]) else None
  }

  /** Where whitespace skipping from `i` stops: the first non-whitespace position, or the end. */
  function SkipSpaces(text: string, i: nat): (r: nat)
    requires i <= |text|
    ensures i <= r <= |text|
    ensures forall k :: i <= k < r ==> IsSpace(text[k])
    ensures r == |text| || !IsSpace(text[r])
    decreases |text| - i
  {
    if i < |text| && IsSpace(text[i]) then SkipSpaces(text, i + 1) else i
  }

  /** The first whitespace position at or after `i`, or the end of the text. */
  function NextSpace(text: string, i: nat): (r: nat)
    requires i <= |text|
    ensures i <= r <= |text|
    ensures forall k :: i <= k < r ==> !IsSpace(text[k])
    ensures r == |text| || IsSpace(text[r])
    decreases |text| - i
  {
    if i < |text| && !IsSpace(text[i]) then NextSpace(text, i + 1) else i
  }

  /** The end of the maximal run of letters, digits and underscores starting at `i`. */
  function IdRunEnd(text: string, i: nat): (r: nat)
    requires i <= |text|
    ensures i <= r <= |text|
    ensures forall k :: i <= k < r ==> IsIdChar(text[k])
    ensures r == |text| || !IsIdChar(text[r])
    decreases |text| - i
  {
    if i < |text| && IsIdChar(text[i]) then IdRunEnd(text, i + 1) else i
  }

  /** Skipping over non-whitespace does not move the next whitespace. */
  lemma {:induction false} NextSpacePast(text: string, i: nat, j: nat)
    requires i <= j <= |text|
    requires forall k :: i <= k < j ==> !IsSpace(text[k])
    ensures NextSpace(text, i) == NextSpace(text, j)
    decreases j - i
  {
    if i < j {
      NextSpacePast(text, i + 1, j);
    }
  }

  /** The identifier run from `i` ends no later than the next whitespace. */
  lemma {:induction false} IdRunWithinWord(text: string, i: nat)
    requires i <= |text|
    ensures IdRunEnd(text, i) <= NextSpace(text, i)
    decreases |text| - i
  {
    if i < |text| && IsIdChar(text[i]) {
      IdCharIsNotSpace(text[i]);
      IdRunWithinWord(text, i + 1);
    }
  }

  /**
   * When the identifier run from `s` stops at `mid` on a character that is not
   * whitespace, the invalid identifier ends at the same whitespace as the word.
   */
  lemma InvalidIdEnd(text: string, s: nat, mid: nat)
    requires s < mid < |text| && mid <= IdRunEnd(text, s + 1) && !IsSpace(text[mid])
    ensures NextSpace(text, mid + 1) == NextSpace(text, s + 1)
  {
    forall k | s + 1 <= k < mid + 1
      ensures !IsSpace(text[k])
    {
      if k < mid {
        IdCharIsNotSpace(text[k]);
      }
    }
    NextSpacePast(text, s + 1, mid + 1);
  }

  /** No identifier character is whitespace. */
  lemma IdCharIsNotSpace(c: char)
    requires IsIdChar(c)
    ensures !IsSpace(c)
  {
  }

  /**
   * The scanner's defined domain from cursor `p`: after the whitespace there is a
   * character, and a word starting there is followed, somewhere, by whitespace.
   */
  predicate CanScan(text: string, p: nat)
    requires p <= |text|
  {
    var s := SkipSpaces(text, p);
    s < |text| && (IsAlpha(text[s]) ==> NextSpace(text, s + 1) < |text|)
  }

  /**
   * The token read from the letter at `s`: its lexeme runs up to the next
   * whitespace; it is `invalidid` exactly when some character after the first
   * is not a letter, digit or underscore, and is otherwise classified as a
   * reserved word, a near miss or an identifier. Its line is always -1.
   */
  function ScanWord(text: string, s: nat): (r: Token)
    requires s < |text| && IsAlpha(text[s]) && NextSpace(text, s + 1) < |text|
    ensures 0 < |r.lexeme| && r.lexeme[0] == text[s] && r.line == -1
    ensures s + |r.lexeme| < |text| && r.lexeme == text[s..s + |r.lexeme|] && IsSpace(text[s + |r.lexeme|])
    ensures forall k :: 0 <= k < |r.lexeme| ==> !IsSpace(r.lexeme[k])
    ensures r.tokenType == InvalidId <==> exists k :: 1 <= k < |r.lexeme| && !IsIdChar(r.lexeme[k])
    ensures r.tokenType != InvalidId ==> r.tokenType == IdOrReservedWordType(r.lexeme)
  {
    var e := IdRunEnd(text, s + 1);
    var stop := NextSpace(text, s + 1);
    if e < |text| && !IsSpace(text[e]) then
      assert text[s..stop][e - s] == text[e];
      Token(InvalidId, text[s..stop], -1)
    else
      Token(IdOrReservedWordType(text[s..stop]), text[s..stop], -1)
  }

  /**
   * The invalid-identifier path of the scanner, which reads the identifier run
   * and then everything up to the next whitespace, yields `ScanWord`'s token.
   */
  lemma InvalidPathMeetsScanWord(text: string, s: nat, mid: nat, word: string)
    requires s < |text| && IsAlpha(text[s]) && NextSpace(text, s + 1) < |text|
    requires mid == IdRunEnd(text, s + 1) && mid < |text| && !IsSpace(text[mid])
    requires word == text[s..mid] + text[mid..NextSpace(text, mid + 1)]
    ensures Token(InvalidId, word, -1) == ScanWord(text, s)
  {
    InvalidIdEnd(text, s, mid);
    assert word == text[s..NextSpace(text, s + 1)];
  }

  /*
   * The examples below take the scanned text as a parameter fixed by their
   * precondition instead of writing the literal into every call: the solver
   * then unfolds the scanning functions on one symbol, which is much cheaper
   * than on repeated copies of a string literal.
   */

  /** `x<=y` is one invalid identifier: the scanner does not stop at `<`. */
  lemma ScanInvalidIdExample(text: string)
    requires text == "x<=y z"
    ensures NextSpace(text, 1) == 4
    ensures ScanWord(text, 0) == Token(InvalidId, "x<=y", -1)
  {
    assert !IsSpace(text[1]) && !IsSpace(text[2]) && !IsSpace(text[3]) && IsSpace(text[4]);
    assert IdRunEnd(text, 1) == 1;
    assert text[0..4] == "x<=y";
  }

  /** `IF` and `If` are near misses of the reserved word `if`. */
  lemma NearMissExample(w: string)
    requires w == "IF" || w == "If"
    ensures NextSpace(w + " ", 1) == 2
    ensures ScanWord(w + " ", 0).tokenType == InvalidReservedWord
  {
    var text := w + " ";
    assert !IsSpace(text[1]) && IsSpace(text[2]);
    assert IdRunEnd(text, 1) == 2;
    assert Lower(w) == "if";
  }

  /** `if` followed by whitespace is the keyword `if`. */
  lemma KeywordExample(text: string)
    requires text == "if "
    ensures NextSpace(text, 1) == 2 && ScanWord(text, 0).tokenType == KwIf
  {
    assert !IsSpace(text[1]) && IsSpace(text[2]);
    assert IdRunEnd(text, 1) == 2;
    var t := ScanWord(text, 0).tokenType;
    assert text[0..2] == "if" && Value(t) == "if";
    ValueRoundTrip(t);
    assert FromValue("if") == Some(KwIf);
  }

  /** `iffy`, which only starts like a reserved word, is an identifier. */
  lemma IdExample(text: string)
    requires text == "iffy "
    ensures NextSpace(text, 1) == 4 && ScanWord(text, 0).tokenType == Id
  {
    assert !IsSpace(text[1]) && !IsSpace(text[2]) && !IsSpace(text[3]) && IsSpace(text[4]);
    assert IdRunEnd(text, 1) == 4;
    assert text[0..4] == "iffy" && Lower("iffy") == "iffy";
  }

  /** The cursor of lexer.py: `pos` and the character under it, over a fixed text. */
  class Lexer {
    const text: string
    var pos: int
    var currentChar: Option<char>

    /** The cursor is inside the text or just past it, and `currentChar` is what lies under it. */
    ghost predicate Valid()
      reads this
    {
      0 <= pos <= |text| && currentChar == CharAt(text, pos)
    }

    /** Starts at -1 and advances once, so the cursor is on the first character. */
    constructor(text: string)
      ensures this.text == text && pos == 0 && Valid()
    {
      this.text := text;
      pos := -1;
      currentChar := None;
      new;
      Advance();
    }

    /** Moves the cursor one character on. */
    method Advance()
      requires pos >= -1
      modifies this
      ensures pos == old(pos) + 1 && currentChar == CharAt(text, pos)
    {
      pos := pos + 1;
      currentChar := if pos < |text| then Some(text[pos]) else None;
    }

    /** Consumes whitespace only, up to the next non-whitespace character or the end. */
    method SkipWhitespace()
      requires Valid()
      modifies this
      ensures Valid() && pos == SkipSpaces(text, old(pos))
      ensures currentChar.None? || !IsSpace(currentChar.value)
    {
      ghost var start := pos;
      while currentChar.Some? && IsSpace(currentChar.value)
        invariant Valid() && start <= pos
        invariant SkipSpaces(text, start) == SkipSpaces(text, pos)
        decreases |text| - pos
      {
        Advance();
      }
    }

    /**
     * Reads one token. On a letter it returns the word read by `ScanWord` and
     * leaves the cursor on the whitespace after it; on anything else it returns
     * `None` and leaves the cursor on that character.
     */
    method GetNextToken() returns (token: Option<Token>)
      requires Valid() && CanScan(text, pos)
      modifies this
      ensures Valid()
      ensures var s := SkipSpaces(text, old(pos));
        if IsAlpha(text[s]) then token == Some(ScanWord(text, s)) && pos == NextSpace(text, s + 1) > old(pos)
        else token.None? && pos == s
    {
      SkipWhitespace();
      var lexeme := [currentChar.value];
      if IsAlpha(currentChar.value) {
        Advance();
        var word := GetIdOrReservedWordToken(lexeme);
        token := Some(word);
      } else {
        token := None;
      }
    }

    /** Extends the first letter `lexeme` over the identifier run, then classifies it. */
    method GetIdOrReservedWordToken(lexeme: string) returns (token: Token)
      requires Valid() && 1 <= pos && lexeme == [text[pos - 1]] && IsAlpha(text[pos - 1])
      requires NextSpace(text, pos) < |text|
      modifies this
      ensures Valid() && token == ScanWord(text, old(pos) - 1) && pos == NextSpace(text, old(pos))
    {
      ghost var s := pos - 1;
      var word := lexeme;
      while currentChar.Some? && IsIdChar(currentChar.value)
        invariant Valid() && s < pos <= IdRunEnd(text, s + 1)
        invariant word == text[s..pos]
        decreases |text| - pos
      {
        word := word + [currentChar.value];
        Advance();
      }
      assert pos == IdRunEnd(text, s + 1);
      ghost var stop := NextSpace(text, s + 1);
      IdRunWithinWord(text, s + 1);
      if pos < |text| && !IsSpace(text[pos]) {
        ghost var mid := pos;
        InvalidIdEnd(text, s, mid);
        word := ExhaustInvalidId(word);
        InvalidPathMeetsScanWord(text, s, mid, word);
        token := Token(InvalidId, word, -1);
      } else {
        assert pos == stop;
        token := Token(IdOrReservedWordType(word), word, -1);
      }
    }

    /** Appends the current character and everything up to the next whitespace. */
    method ExhaustInvalidId(lexeme: string) returns (word: string)
      requires Valid() && pos < |text| && NextSpace(text, pos + 1) < |text|
      modifies this
      ensures Valid() && pos == NextSpace(text, old(pos) + 1)
      ensures word == lexeme + text[old(pos)..pos]
    {
      ghost var start := pos;
      word := lexeme + [currentChar.value];
      Advance();
      while currentChar.Some? && !IsSpace(currentChar.value)
        invariant Valid() && start < pos <= NextSpace(text, start + 1)
        invariant word == lexeme + text[start..pos]
        decreases |text| - pos
      {
        word := word + [currentChar.value];
        Advance();
      }
    }
  }
}
