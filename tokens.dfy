/**
 * The token vocabulary shared by the scanner and the parser: the closed set of
 * lexeme categories (`TokenType`), each with the string value it carries, and
 * the immutable token record with its `[type, lexeme, line]` rendering.
 */
module Tokens {
  import opened Wrappers
  import opened Chars
  import opened Text

  /** A lexeme category. The Python enum member `X = "x"` is the constructor for `X`. */
  datatype TokenType
    // identifiers and numbers
    = Id
    | IntNum
    | FloatNum
    // relational operators and assignment
    | Eq
    | NotEq
    | Lt
    | Gt
    | Leq
    | Geq
    | Assign
    // arithmetic operators
    | Plus
    | Minus
    | Mult
    | Div
    // punctuation
    | OpenPar
    | ClosePar
    | OpenCuBr
    | CloseCuBr
    | OpenSqBr
    | CloseSqBr
    | Semi
    | Comma
    | Dot
    | Colon
    | ColonColon
    // reserved words
    | KwIf
    | KwThen
    | KwElse
    | KwWhile
    | KwClass
    | KwInteger
    | KwFloat
    | KwDo
    | KwEnd
    | KwPublic
    | KwPrivate
    | KwOr
    | KwAnd
    | KwNot
    | KwRead
    | KwWrite
    | KwReturn
    | KwInherits
    | KwLocal
    | KwVoid
    | KwMain
    // comments
    | BlockCmt
    | InlineCmt
    // lexical errors named by the parser (parser/parser.py:24-28)
    | InvalidChar
    | InvalidNum
    | InvalidCmt
    // lexical errors the scanner emits as bare strings (lexer.py:63, lexer.py:73)
    | InvalidId
    | InvalidReservedWord
  {
    predicate IsKeyword() {
      KwIf? || KwThen? || KwElse? || KwWhile? || KwClass? || KwInteger?
      || KwFloat? || KwDo? || KwEnd? || KwPublic? || KwPrivate? || KwOr?
      || KwAnd? || KwNot? || KwRead? || KwWrite? || KwReturn? || KwInherits?
      || KwLocal? || KwVoid? || KwMain?
    }
  }

  /** The string value `t.value` of a category. */
  function Value(t: TokenType): string {
    match t
    case Id => "id"
    case IntNum => "intnum"
    case FloatNum => "floatnum"
    case Eq => "eq"
    case NotEq => "noteq"
    case Lt => "lt"
    case Gt => "gt"
    case Leq => "leq"
    case Geq => "geq"
    case Assign => "assign"
    case Plus => "plus"
    case Minus => "minus"
    case Mult => "mult"
    case Div => "div"
    case OpenPar => "openpar"
    case ClosePar => "closepar"
    case OpenCuBr => "opencubr"
    case CloseCuBr => "closecubr"
    case OpenSqBr => "opensqbr"
    case CloseSqBr => "closesqbr"
    case Semi => "semi"
    case Comma => "comma"
    case Dot => "dot"
    case Colon => "colon"
    case ColonColon => "coloncolon"
    case KwIf => "if"
    case KwThen => "then"
    case KwElse => "else"
    case KwWhile => "while"
    case KwClass => "class"
    case KwInteger => "integer"
    case KwFloat => "float"
    case KwDo => "do"
    case KwEnd => "end"
    case KwPublic => "public"
    case KwPrivate => "private"
    case KwOr => "or"
    case KwAnd => "and"
    case KwNot => "not"
    case KwRead => "read"
    case KwWrite => "write"
    case KwReturn => "return"
    case KwInherits => "inherits"
    case KwLocal => "local"
    case KwVoid => "void"
    case KwMain => "main"
    case BlockCmt => "blockcmt"
    case InlineCmt => "inlinecmt"
    case InvalidChar => "invalidchar"
    case InvalidNum => "invalidnum"
    case InvalidCmt => "invalidcmt"
    case InvalidId => "invalidid"
    case InvalidReservedWord => "invalidreservedword"
  }

  /** The enum lookup by value, `TokenType(s)`; `None` where Python raises. */
  function FromValue(s: string): Option<TokenType> {
    if s == [] then None
    else match s[0]
    case 'i' =>
      (match s
       case "id" => Some(Id)
       case "intnum" => Some(IntNum)
       case "if" => Some(KwIf)
       case "integer" => Some(KwInteger)
       case "inherits" => Some(KwInherits)
       case "inlinecmt" => Some(InlineCmt)
       case "invalidchar" => Some(InvalidChar)
       case "invalidnum" => Some(InvalidNum)
       case "invalidcmt" => Some(InvalidCmt)
       case "invalidid" => Some(InvalidId)
       case "invalidreservedword" => Some(InvalidReservedWord)
       case _ => None)
    case 'f' =>
      (match s
       case "floatnum" => Some(FloatNum)
       case "float" => Some(KwFloat)
       case _ => None)
    case 'e' =>
      (match s
       case "eq" => Some(Eq)
       case "else" => Some(KwElse)
       case "end" => Some(KwEnd)
       case _ => None)
    case 'n' =>
      (match s
       case "noteq" => Some(NotEq)
       case "not" => Some(KwNot)
       case _ => None)
    case 'l' =>
      (match s
       case "lt" => Some(Lt)
       case "leq" => Some(Leq)
       case "local" => Some(KwLocal)
       case _ => None)
    case 'g' =>
      (match s
       case "gt" => Some(Gt)
       case "geq" => Some(Geq)
       case _ => None)
    case 'a' =>
      (match s
       case "assign" => Some(Assign)
       case "and" => Some(KwAnd)
       case _ => None)
    case 'p' =>
      (match s
       case "plus" => Some(Plus)
       case "public" => Some(KwPublic)
       case "private" => Some(KwPrivate)
       case _ => None)
    case 'm' =>
      (match s
       case "minus" => Some(Minus)
       case "mult" => Some(Mult)
       case "main" => Some(KwMain)
       case _ => None)
    case 'd' =>
      (match s
       case "div" => Some(Div)
       case "dot" => Some(Dot)
       case "do" => Some(KwDo)
       case _ => None)
    case 'o' =>
      (match s
       case "openpar" => Some(OpenPar)
       case "opencubr" => Some(OpenCuBr)
       case "opensqbr" => Some(OpenSqBr)
       case "or" => Some(KwOr)
       case _ => None)
    case 'c' =>
      (match s
       case "closepar" => Some(ClosePar)
       case "closecubr" => Some(CloseCuBr)
       case "closesqbr" => Some(CloseSqBr)
       case "comma" => Some(Comma)
       case "colon" => Some(Colon)
       case "coloncolon" => Some(ColonColon)
       case "class" => Some(KwClass)
       case _ => None)
    case 's' =>
      (match s
       case "semi" => Some(Semi)
       case _ => None)
    case 't' =>
      (match s
       case "then" => Some(KwThen)
       case _ => None)
    case 'w' =>
      (match s
       case "while" => Some(KwWhile)
       case "write" => Some(KwWrite)
       case _ => None)
    case 'r' =>
      (match s
       case "read" => Some(KwRead)
       case "return" => Some(KwReturn)
       case _ => None)
    case 'v' =>
      (match s
       case "void" => Some(KwVoid)
       case _ => None)
    case 'b' =>
      (match s
       case "blockcmt" => Some(BlockCmt)
       case _ => None)
    case _ => None
  }

  /** What holds of every category: both lookups find it, and its value is one blank-free word. */
  predicate CategoryFacts(t: TokenType) {
    FromValue(Value(t)) == Some(t) && FromName(Name(t)) == Some(t) && IsWord(Value(t))
  }

  /**
   * `CategoryFacts` for every category, one group of categories at a time.
   * Each case evaluates the two lookups on string literals; the groups keep
   * each proof obligation to a few categories, which the solver handles
   * reliably, where all 53 at once sit near its resource limit.
   */
  lemma AllCategoryFacts(t: TokenType)
    ensures CategoryFacts(t)
  {
    match t
    case Id | IntNum | FloatNum | Eq | NotEq | Lt | Gt | Leq | Geq => CategoryFactsOne(t);
    case Assign | Plus | Minus | Mult | Div | OpenPar | ClosePar | OpenCuBr | CloseCuBr => CategoryFactsTwo(t);
    case OpenSqBr | CloseSqBr | Semi | Comma | Dot | Colon | ColonColon => CategoryFactsThree(t);
    case KwIf | KwThen | KwElse | KwWhile | KwClass | KwInteger | KwFloat | KwDo => CategoryFactsFour(t);
    case KwEnd | KwPublic | KwPrivate | KwOr | KwAnd | KwNot | KwRead => CategoryFactsFive(t);
    case KwWrite | KwReturn | KwInherits | KwLocal | KwVoid | KwMain => CategoryFactsSix(t);
    case BlockCmt | InlineCmt | InvalidChar | InvalidNum | InvalidCmt | InvalidId | InvalidReservedWord => CategoryFactsSeven(t);
  }

  lemma CategoryFactsOne(t: TokenType)
    requires t.Id? || t.IntNum? || t.FloatNum? || t.Eq? || t.NotEq? || t.Lt? || t.Gt? || t.Leq? || t.Geq?
    ensures CategoryFacts(t)
  {
    match t
    case Id =>
    case IntNum =>
    case FloatNum =>
    case Eq =>
    case NotEq =>
    case Lt =>
    case Gt =>
    case Leq =>
    case Geq =>
    case _ => assert false;
  }

  lemma CategoryFactsTwo(t: TokenType)
    requires t.Assign? || t.Plus? || t.Minus? || t.Mult? || t.Div? || t.OpenPar? || t.ClosePar? || t.OpenCuBr? || t.CloseCuBr?
    ensures CategoryFacts(t)
  {
    match t
    case Assign =>
    case Plus =>
    case Minus =>
    case Mult =>
    case Div =>
    case OpenPar =>
    case ClosePar =>
    case OpenCuBr =>
    case CloseCuBr =>
    case _ => assert false;
  }

  lemma CategoryFactsThree(t: TokenType)
    requires t.OpenSqBr? || t.CloseSqBr? || t.Semi? || t.Comma? || t.Dot? || t.Colon? || t.ColonColon?
    ensures CategoryFacts(t)
  {
    match t
    case OpenSqBr =>
    case CloseSqBr =>
    case Semi =>
    case Comma =>
    case Dot =>
    case Colon =>
    case ColonColon =>
    case _ => assert false;
  }

  lemma CategoryFactsFour(t: TokenType)
    requires t.KwIf? || t.KwThen? || t.KwElse? || t.KwWhile? || t.KwClass? || t.KwInteger? || t.KwFloat? || t.KwDo?
    ensures CategoryFacts(t)
  {
    match t
    case KwIf =>
    case KwThen =>
    case KwElse =>
    case KwWhile =>
    case KwClass =>
    case KwInteger =>
    case KwFloat =>
    case KwDo =>
    case _ => assert false;
  }

  lemma CategoryFactsFive(t: TokenType)
    requires t.KwEnd? || t.KwPublic? || t.KwPrivate? || t.KwOr? || t.KwAnd? || t.KwNot? || t.KwRead?
    ensures CategoryFacts(t)
  {
    match t
    case KwEnd =>
    case KwPublic =>
    case KwPrivate =>
    case KwOr =>
    case KwAnd =>
    case KwNot =>
    case KwRead =>
    case _ => assert false;
  }

  lemma CategoryFactsSix(t: TokenType)
    requires t.KwWrite? || t.KwReturn? || t.KwInherits? || t.KwLocal? || t.KwVoid? || t.KwMain?
    ensures CategoryFacts(t)
  {
    match t
    case KwWrite =>
    case KwReturn =>
    case KwInherits =>
    case KwLocal =>
    case KwVoid =>
    case KwMain =>
    case _ => assert false;
  }

  lemma CategoryFactsSeven(t: TokenType)
    requires t.BlockCmt? || t.InlineCmt? || t.InvalidChar? || t.InvalidNum? || t.InvalidCmt? || t.InvalidId? || t.InvalidReservedWord?
    ensures CategoryFacts(t)
  {
    match t
    case BlockCmt =>
    case InlineCmt =>
    case InvalidChar =>
    case InvalidNum =>
    case InvalidCmt =>
    case InvalidId =>
    case InvalidReservedWord =>
    case _ => assert false;
  }

  lemma ValueRoundTrip(t: TokenType)
    ensures FromValue(Value(t)) == Some(t)
  {
    AllCategoryFacts(t);
  }

  /**
   * All values are pairwise distinct (tokens.py:4-57), so the category can be
   * recovered from its value.
   */
  lemma ValueInjective(a: TokenType, b: TokenType)
    ensures Value(a) == Value(b) ==> a == b
  {
    ValueRoundTrip(a);
    ValueRoundTrip(b);
  }

  /** The member name of a category, as declared in tokens.py. */
  function Name(t: TokenType): string {
    match t
    case Id => "ID"
    case IntNum => "INTNUM"
    case FloatNum => "FLOATNUM"
    case Eq => "EQ"
    case NotEq => "NOTEQ"
    case Lt => "LT"
    case Gt => "GT"
    case Leq => "LEQ"
    case Geq => "GEQ"
    case Assign => "ASSIGN"
    case Plus => "PLUS"
    case Minus => "MINUS"
    case Mult => "MULT"
    case Div => "DIV"
    case OpenPar => "OPENPAR"
    case ClosePar => "CLOSEPAR"
    case OpenCuBr => "OPENCUBR"
    case CloseCuBr => "CLOSECUBR"
    case OpenSqBr => "OPENSQBR"
    case CloseSqBr => "CLOSESQBR"
    case Semi => "SEMI"
    case Comma => "COMMA"
    case Dot => "DOT"
    case Colon => "COLON"
    case ColonColon => "COLONCOLON"
    case KwIf => "IF"
    case KwThen => "THEN"
    case KwElse => "ELSE"
    case KwWhile => "WHILE"
    case KwClass => "CLASS"
    case KwInteger => "INTEGER"
    case KwFloat => "FLOAT"
    case KwDo => "DO"
    case KwEnd => "END"
    case KwPublic => "PUBLIC"
    case KwPrivate => "PRIVATE"
    case KwOr => "OR"
    case KwAnd => "AND"
    case KwNot => "NOT"
    case KwRead => "READ"
    case KwWrite => "WRITE"
    case KwReturn => "RETURN"
    case KwInherits => "INHERITS"
    case KwLocal => "LOCAL"
    case KwVoid => "VOID"
    case KwMain => "MAIN"
    case BlockCmt => "BLOCKCMT"
    case InlineCmt => "INLINECMT"
    case InvalidChar => "INVALIDCHAR"
    case InvalidNum => "INVALIDNUM"
    case InvalidCmt => "INVALIDCMT"
    case InvalidId => "INVALIDID"
    case InvalidReservedWord => "INVALIDRESERVEDWORD"
  }

  /** The enum lookup by name, `TokenType[n]`; `None` where Python raises `KeyError`. */
  function FromName(n: string): Option<TokenType> {
    if n == [] then None
    else match n[0]
    case 'I' =>
      (match n
       case "ID" => Some(Id)
       case "INTNUM" => Some(IntNum)
       case "IF" => Some(KwIf)
       case "INTEGER" => Some(KwInteger)
       case "INHERITS" => Some(KwInherits)
       case "INLINECMT" => Some(InlineCmt)
       case "INVALIDCHAR" => Some(InvalidChar)
       case "INVALIDNUM" => Some(InvalidNum)
       case "INVALIDCMT" => Some(InvalidCmt)
       case "INVALIDID" => Some(InvalidId)
       case "INVALIDRESERVEDWORD" => Some(InvalidReservedWord)
       case _ => None)
    case 'F' =>
      (match n
       case "FLOATNUM" => Some(FloatNum)
       case "FLOAT" => Some(KwFloat)
       case _ => None)
    case 'E' =>
      (match n
       case "EQ" => Some(Eq)
       case "ELSE" => Some(KwElse)
       case "END" => Some(KwEnd)
       case _ => None)
    case 'N' =>
      (match n
       case "NOTEQ" => Some(NotEq)
       case "NOT" => Some(KwNot)
       case _ => None)
    case 'L' =>
      (match n
       case "LT" => Some(Lt)
       case "LEQ" => Some(Leq)
       case "LOCAL" => Some(KwLocal)
       case _ => None)
    case 'G' =>
      (match n
       case "GT" => Some(Gt)
       case "GEQ" => Some(Geq)
       case _ => None)
    case 'A' =>
      (match n
       case "ASSIGN" => Some(Assign)
       case "AND" => Some(KwAnd)
       case _ => None)
    case 'P' =>
      (match n
       case "PLUS" => Some(Plus)
       case "PUBLIC" => Some(KwPublic)
       case "PRIVATE" => Some(KwPrivate)
       case _ => None)
    case 'M' =>
      (match n
       case "MINUS" => Some(Minus)
       case "MULT" => Some(Mult)
       case "MAIN" => Some(KwMain)
       case _ => None)
    case 'D' =>
      (match n
       case "DIV" => Some(Div)
       case "DOT" => Some(Dot)
       case "DO" => Some(KwDo)
       case _ => None)
    case 'O' =>
      (match n
       case "OPENPAR" => Some(OpenPar)
       case "OPENCUBR" => Some(OpenCuBr)
       case "OPENSQBR" => Some(OpenSqBr)
       case "OR" => Some(KwOr)
       case _ => None)
    case 'C' =>
      (match n
       case "CLOSEPAR" => Some(ClosePar)
       case "CLOSECUBR" => Some(CloseCuBr)
       case "CLOSESQBR" => Some(CloseSqBr)
       case "COMMA" => Some(Comma)
       case "COLON" => Some(Colon)
       case "COLONCOLON" => Some(ColonColon)
       case "CLASS" => Some(KwClass)
       case _ => None)
    case 'S' =>
      (match n
       case "SEMI" => Some(Semi)
       case _ => None)
    case 'T' =>
      (match n
       case "THEN" => Some(KwThen)
       case _ => None)
    case 'W' =>
      (match n
       case "WHILE" => Some(KwWhile)
       case "WRITE" => Some(KwWrite)
       case _ => None)
    case 'R' =>
      (match n
       case "READ" => Some(KwRead)
       case "RETURN" => Some(KwReturn)
       case _ => None)
    case 'V' =>
      (match n
       case "VOID" => Some(KwVoid)
       case _ => None)
    case 'B' =>
      (match n
       case "BLOCKCMT" => Some(BlockCmt)
       case _ => None)
    case _ => None
  }

  lemma NameRoundTrip(t: TokenType)
    ensures FromName(Name(t)) == Some(t)
  {
    AllCategoryFacts(t);
  }

  lemma ValueHasNoBlank(t: TokenType)
    ensures IsWord(Value(t))
  {
    AllCategoryFacts(t);
  }

  /** A scanned lexeme, immutable like the frozen dataclass it models. */
  datatype Token = Token(tokenType: TokenType, lexeme: string, line: int)

  /** `Token.to_outlextokens`: the category value, lexeme and line, bracketed. */
  function ToOutLexTokens(t: Token): string {
    Bracketed(Value(t.tokenType), t.lexeme, IntToString(t.line))
  }

  /** Reads a rendering back into a token; `None` when it is not one. */
  function FromOutLexTokens(s: string): Option<Token> {
    match SplitBracketed(s)
    case Some((v, x, n)) =>
      (match FromValue(v)
       case Some(category) => Some(Token(category, x, ParseInt(n)))
       case None => None)
    case None => None
  }

  /** The rendering of a token determines the token. */
  lemma RenderRoundTrip(t: Token)
    ensures FromOutLexTokens(ToOutLexTokens(t)) == Some(t)
  {
    var v, n := Value(t.tokenType), IntToString(t.line);
    ValueHasNoBlank(t.tokenType);
    IntRoundTrip(t.line);
    BracketedRoundTrip(v, t.lexeme, n);
    ValueRoundTrip(t.tokenType);
  }
}
