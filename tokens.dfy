/** The token record shared by the scanner and the parser (Token.cs), the kinds a
    token can have, and the entry that an error report leaves in a log. */
module Tokens {
  import opened Wrappers

  /** Every kind the scanner produces or the parser tests for. Like the C#
      enumeration it stands for, a kind is a small integer. The numbers are chosen
      here, grouped as below; nothing relies on them except that the kinds are
      distinct and that TypeName picks a kind's name by its group. */
  newtype TokenType = k: int | 0 <= k < 39

  // single-character punctuation
  const LeftParen: TokenType := 0
  const RightParen: TokenType := 1
  const LeftBrace: TokenType := 2
  const RightBrace: TokenType := 3
  const Comma: TokenType := 4
  const Dot: TokenType := 5
  const Minus: TokenType := 6
  const Plus: TokenType := 7
  const Semicolon: TokenType := 8
  const Slash: TokenType := 9
  const Star: TokenType := 10
  // one- or two-character operators
  const Bang: TokenType := 11
  const BangEqual: TokenType := 12
  const Equal: TokenType := 13
  const EqualEqual: TokenType := 14
  const Greater: TokenType := 15
  const GreaterEqual: TokenType := 16
  const Less: TokenType := 17
  const LessEqual: TokenType := 18
  // literals
  const Identifier: TokenType := 19
  const String: TokenType := 20
  const Number: TokenType := 21
  // reserved words
  const And: TokenType := 22
  const Class: TokenType := 23
  const Else: TokenType := 24
  const False: TokenType := 25
  const Fun: TokenType := 26
  const For: TokenType := 27
  const If: TokenType := 28
  const Nil: TokenType := 29
  const Or: TokenType := 30
  const Print: TokenType := 31
  const Return: TokenType := 32
  const Super: TokenType := 33
  const This: TokenType := 34
  const True: TokenType := 35
  const Var: TokenType := 36
  const While: TokenType := 37
  // end of input
  const Eof: TokenType := 38

  /** The literal a token carries: a number for NUMBER tokens, the text between the
      quotes for STRING tokens. */
  datatype TokenLiteral = NumberLiteral(number: real) | StringLiteral(text: string)

  /** A token never changes once built: a datatype value has no setters. The literal
      slot may be empty, and nothing ties the four fields to each other. */
  datatype Token = Token(tokenType: TokenType, lexeme: string, literal: Option<TokenLiteral>, line: int)

  /** The constructor keeps its four arguments as the four fields, whatever they
      are, and two tokens are the same exactly when all four fields are. */
  lemma {:induction false} TokenFields(t: TokenType, lexeme: string, literal: Option<TokenLiteral>, line: int, other: Token)
    ensures var token := Token(t, lexeme, literal, line);
      && token.tokenType == t && token.lexeme == lexeme && token.literal == literal && token.line == line
      && (other == token <==> other.tokenType == t && other.lexeme == lexeme && other.literal == literal && other.line == line)
  {
  }

  /** What one report to the error sink records: the line and the message. */
  datatype Diagnostic = Diagnostic(line: int, message: string)

  /** The text an enumeration value prints as: the member's name in the
      enumeration's own spelling. */
  function TypeName(t: TokenType): (name: string)
    ensures name != [] && ' ' !in name
  {
    if t < Bang then PunctuationName(t)
    else if t < Identifier then OperatorName(t)
    else if t < And then LiteralKindName(t)
    else if t < Eof then KeywordName(t)
    else "EOF"
  }

  /** The names of the single-character punctuation. */
  function PunctuationName(t: TokenType): (name: string)
    requires LeftParen <= t <= Star
    ensures name != [] && ' ' !in name
  {
    if t == LeftParen then "LEFT_PAREN"
    else if t == RightParen then "RIGHT_PAREN"
    else if t == LeftBrace then "LEFT_BRACE"
    else if t == RightBrace then "RIGHT_BRACE"
    else if t == Comma then "COMMA"
    else if t == Dot then "DOT"
    else if t == Minus then "MINUS"
    else if t == Plus then "PLUS"
    else if t == Semicolon then "SEMICOLON"
    else if t == Slash then "SLASH"
    else "STAR"
  }

  /** The names of the one- or two-character operators. */
  function OperatorName(t: TokenType): (name: string)
    requires Bang <= t <= LessEqual
    ensures name != [] && ' ' !in name
  {
    if t == Bang then "BANG"
    else if t == BangEqual then "BANG_EQUAL"
    else if t == Equal then "EQUAL"
    else if t == EqualEqual then "EQUAL_EQUAL"
    else if t == Greater then "GREATER"
    else if t == GreaterEqual then "GREATER_EQUAL"
    else if t == Less then "LESS"
    else "LESS_EQUAL"
  }

  /** The names of the literal kinds. */
  function LiteralKindName(t: TokenType): (name: string)
    requires Identifier <= t <= Number
    ensures name != [] && ' ' !in name
  {
    if t == Identifier then "IDENTIFIER"
    else if t == String then "STRING"
    else "NUMBER"
  }

  /** The names of the reserved words. */
  function KeywordName(t: TokenType): (name: string)
    requires And <= t <= While
    ensures name != [] && ' ' !in name
  {
    if t == And then "AND"
    else if t == Class then "CLASS"
    else if t == Else then "ELSE"
    else if t == False then "FALSE"
    else if t == Fun then "FUN"
    else if t == For then "FOR"
    else if t == If then "IF"
    else if t == Nil then "NIL"
    else if t == Or then "OR"
    else if t == Print then "PRINT"
    else if t == Return then "RETURN"
    else if t == Super then "SUPER"
    else if t == This then "THIS"
    else if t == True then "TRUE"
    else if t == Var then "VAR"
    else "WHILE"
  }

  /** How a literal interpolates into text: an absent literal prints as nothing, a
      string as itself, a number by the platform's number formatting `showNumber`. */
  function LiteralText(literal: Option<TokenLiteral>, showNumber: real -> string): string
  {
    match literal
    case None => ""
    case Some(NumberLiteral(n)) => showNumber(n)
    case Some(StringLiteral(s)) => s
  }

  /** Token.ToString: the kind's name, the lexeme and the literal, joined by single
      spaces. The printed form starts with the kind's name as its first word; what
      follows the first space is the lexeme, a space and the literal's text. */
  function ToString(token: Token, showNumber: real -> string): (text: string)
    ensures FirstWord(text) == TypeName(token.tokenType) && |text| > |FirstWord(text)|
    ensures text[|TypeName(token.tokenType)| + 1..] == token.lexeme + " " + LiteralText(token.literal, showNumber)
  {
    var name := TypeName(token.tokenType);
    var rest := token.lexeme + " " + LiteralText(token.literal, showNumber);
    FirstWordOfJoin(name, rest);
    name + " " + rest
  }

  /** The text before the first space (all of it when there is none). */
  function FirstWord(s: string): (w: string)
    ensures w <= s
    ensures ' ' !in w
    ensures |w| < |s| ==> s[|w|] == ' '
  {
    if s == [] || s[0] == ' ' then [] else [s[0]] + FirstWord(s[1..])
  }

  lemma {:induction false} FirstWordOfJoin(a: string, b: string)
    requires ' ' !in a
    ensures FirstWord(a + " " + b) == a
  {
    if a != [] {
      assert (a + " " + b)[1..] == a[1..] + " " + b;
      FirstWordOfJoin(a[1..], b);
    }
  }
}
