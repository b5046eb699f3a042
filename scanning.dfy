/** The scanner as the source has it (Scanner.cs): a cursor over the source text that
    appends tokens to a list, and here also appends each error report to a log. Every
    method is proved to do what the matching function of Lexical describes. */
module Scanning {
  import opened Wrappers
  import opened Tokens
  import opened Lexical

  class Scanner {
    const source: string
    /** The tokens scanned so far. */
    var tokens: seq<Token>
    /** The reports sent to the error sink, in order. */
    var errors: seq<Diagnostic>
    /** Where the token being scanned begins. */
    var start: nat
    /** The next character to read. */
    var current: nat
    var line: int

    ghost predicate Valid()
      reads this
    {
      start <= current <= |source|
    }

    constructor (source: string)
      ensures this.source == source && tokens == [] && errors == []
      ensures start == 0 && current == 0 && line == 1
      ensures Valid()
    {
      this.source := source;
      tokens := [];
      errors := [];
      start := 0;
      current := 0;
      line := 1;
    }

    /** Scan from the cursor to the end of the source, then append the EOF token. On a
        fresh scanner this is exactly Lex(source). */
    method ScanTokens() returns (result: seq<Token>)
      requires Valid()
      modifies this`tokens, this`errors, this`start, this`current, this`line
      ensures Valid() && current == |source|
      ensures var s := ScanFrom(source, old(current), old(line));
        && tokens == old(tokens) + s.tokens + [EofToken(s.line)]
        && errors == old(errors) + s.errors
        && line == s.line
      ensures old(tokens) == [] && old(errors) == [] && old(current) == 0 && old(line) == 1 ==>
        tokens == Lex(source).tokens && errors == Lex(source).errors
      ensures result == tokens
    {
      ghost var goal := ScanLoop(source, current, line, tokens, errors);
      ScanLoopAppends(source, current, line, tokens, errors);
      while !IsAtEnd()
        invariant Valid()
        invariant ScanLoop(source, current, line, tokens, errors) == goal
        decreases |source| - current
      {
        start := current;
        ScanToken();
      }
      tokens := tokens + [Token(Eof, "", None, line)];
      result := tokens;
    }

    /** The whole source has been consumed; the cursor then reads as '\0'. */
    predicate IsAtEnd(): (b: bool)
      reads this
      ensures Valid() ==> (b <==> current == |source|)
      ensures b ==> Peek() == '\0'
    {
      current >= |source|
    }

    /** One token's worth of input: `start` is where it begins. */
    method ScanToken()
      requires Valid() && start == current < |source|
      modifies this`tokens, this`errors, this`current, this`line
      ensures Valid()
      ensures var r := ScanOne(source, old(current), old(line));
        && current == r.next && line == r.line
        && tokens == old(tokens) + OptionToSeq(r.token)
        && errors == old(errors) + OptionToSeq(r.error)
    {
      ghost var r := ScanOne(source, current, line);
      var c := Advance();
      match c
      case '(' => AddToken(LeftParen, None);
      case ')' => AddToken(RightParen, None);
      case '{' => AddToken(LeftBrace, None);
      case '}' => AddToken(RightBrace, None);
      case ',' => AddToken(Comma, None);
      case '.' => AddToken(Dot, None);
      case '-' => AddToken(Minus, None);
      case '+' => AddToken(Plus, None);
      case ';' => AddToken(Semicolon, None);
      case '*' => AddToken(Star, None);
      case '!' =>
        var m := Match('=');
        AddToken(if m then BangEqual else Bang, None);
      case '=' =>
        var m := Match('=');
        AddToken(if m then EqualEqual else Equal, None);
      case '<' =>
        var m := Match('=');
        AddToken(if m then LessEqual else Less, None);
      case '>' =>
        var m := Match('=');
        AddToken(if m then GreaterEqual else Greater, None);
      case '/' =>
        var m := Match('/');
        if m {
          SkipComment();
        } else {
          AddToken(Slash, None);
        }
      case ' ' =>
      case '\r' =>
      case '\t' =>
      case '\n' =>
        line := line + 1;
      case '"' =>
        String();
      case _ =>
        if IsDigit(c) {
          Number();
        } else if IsAlpha(c) {
          Identifier();
        } else {
          ReportError(line, "Unexpected character.");
        }
    }

    /** The loop of ScanToken's comment case: everything up to, not including, the
        next newline is consumed. */
    method SkipComment()
      requires Valid() && start + 2 <= current
      modifies this`current
      ensures Valid() && current == LineEnd(source, old(current))
    {
      while Peek() != '\n' && !IsAtEnd()
        invariant Valid() && old(current) <= current
        invariant LineEnd(source, current) == LineEnd(source, old(current))
        decreases |source| - current
      {
        var _ := Advance();
      }
    }

    /** Consume one character and return it. */
    method Advance() returns (c: char)
      requires current < |source|
      modifies this`current
      ensures current == old(current) + 1
      ensures c == source[old(current)]
    {
      current := current + 1;
      c := source[current - 1];
    }

    /** Append a token whose lexeme is the text from `start` to the cursor; an
        IDENTIFIER spelled like a reserved word takes that word's kind. */
    method AddToken(t: TokenType, literal: Option<TokenLiteral>)
      requires Valid()
      modifies this`tokens
      ensures var text := source[start..current];
        tokens == old(tokens) + [Token(Classify(t, text), text, literal, line)]
      ensures t != Tokens.Identifier ==>
        tokens == old(tokens) + [Token(t, source[start..current], literal, line)]
    {
      var text := source[start..current];
      var t' := t;
      if t' == Tokens.Identifier && text in Keywords {
        t' := Keywords[text];
      }
      tokens := tokens + [Token(t', text, literal, line)];
    }

    /** Lox.Error: the report is appended to the error log. */
    method ReportError(line: int, message: string)
      modifies this`errors
      ensures errors == old(errors) + [Diagnostic(line, message)]
    {
      errors := errors + [Diagnostic(line, message)];
    }

    /** Consume the next character only when it is `expected`. */
    method Match(expected: char) returns (matched: bool)
      modifies this`current
      ensures matched == NextIs(source, old(current), expected)
      ensures current == if matched then old(current) + 1 else old(current)
    {
      if IsAtEnd() {
        return false;
      }
      if source[current] != expected {
        return false;
      }
      current := current + 1;
      return true;
    }

    /** The character under the cursor, '\0' at the end. */
    function Peek(): (c: char)
      reads this
      ensures current < |source| ==> c == source[current]
      ensures current >= |source| ==> c == '\0'
    {
      PeekAt(source, current)
    }

    /** The character after the one under the cursor, '\0' past the end. */
    function PeekNext(): (c: char)
      reads this
      ensures current + 1 < |source| ==> c == source[current + 1]
      ensures current + 1 >= |source| ==> c == '\0'
    {
      PeekAt(source, current + 1)
    }

    /** The body of a string literal, after its opening quote. */
    method String()
      requires Valid() && current == start + 1 <= |source| && source[start] == '"'
      modifies this`tokens, this`errors, this`current, this`line
      ensures Valid()
      ensures var r := ScanString(source, start, old(line));
        && current == r.next && line == r.line
        && tokens == old(tokens) + OptionToSeq(r.token)
        && errors == old(errors) + OptionToSeq(r.error)
    {
      SkipStringBody();
      StringStep(source, start, old(line));
      if IsAtEnd() {
        ReportError(line, "Unterminated string.");
        return;
      }

      ghost var close := current;
      assert close == QuoteEnd(source, start + 1) < |source|;
      var _ := Advance();
      var value := source[start + 1..current - 1];
      assert value == source[start + 1..close] && current == close + 1;
      AddToken(Tokens.String, Some(StringLiteral(value)));
    }

    /** The loop of String: up to the closing quote or the end of the source, counting
        the newlines passed. */
    method SkipStringBody()
      requires Valid()
      modifies this`current, this`line
      ensures Valid() && current == QuoteEnd(source, old(current))
      ensures line == old(line) + Newlines(source, old(current), current)
    {
      while Peek() != '"' && !IsAtEnd()
        invariant Valid() && old(current) <= current
        invariant QuoteEnd(source, current) == QuoteEnd(source, old(current))
        invariant line == old(line) + Newlines(source, old(current), current)
        decreases |source| - current
      {
        if Peek() == '\n' {
          line := line + 1;
        }
        var _ := Advance();
      }
    }

    /** The rest of a number literal, after its first digit. */
    method Number()
      requires Valid() && current == start + 1 <= |source| && IsDigit(source[start])
      modifies this`tokens, this`current
      ensures Valid()
      ensures var r := ScanNumber(source, start, line);
        && current == r.next && line == r.line
        && tokens == old(tokens) + OptionToSeq(r.token)
        && r.error.None?
    {
      SkipNumber();
      var value := ParseNumber(source[start..current]);
      AddToken(Tokens.Number, Some(NumberLiteral(value)));
    }

    /** The cursor moves over the digits, and over a '.' and more digits when a
        digit follows the '.'. */
    method SkipNumber()
      requires Valid() && current <= |source|
      modifies this`current
      ensures Valid() && current == NumberEnd(source, old(current))
    {
      SkipDigits();
      if Peek() == '.' && IsDigit(PeekNext()) {
        var _ := Advance();
        SkipDigits();
      }
    }

    /** The digit loop Number runs before and after the '.'. */
    method SkipDigits()
      requires Valid()
      modifies this`current
      ensures Valid() && current == DigitsEnd(source, old(current))
    {
      while IsDigit(Peek())
        invariant Valid() && old(current) <= current
        invariant DigitsEnd(source, current) == DigitsEnd(source, old(current))
        decreases |source| - current
      {
        var _ := Advance();
      }
    }

    /** The rest of an identifier or reserved word, after its first letter. */
    method Identifier()
      requires Valid() && current == start + 1 <= |source| && IsAlpha(source[start])
      modifies this`tokens, this`current
      ensures Valid()
      ensures var r := ScanIdentifier(source, start, line);
        && current == r.next && line == r.line
        && tokens == old(tokens) + OptionToSeq(r.token)
        && r.error.None?
    {
      while IsAlphaNumeric(Peek())
        modifies this`current
        invariant Valid() && start + 1 <= current
        invariant AlphaNumericEnd(source, current) == AlphaNumericEnd(source, start + 1)
        decreases |source| - current
      {
        var _ := Advance();
      }

      var text := source[start..current];
      var t := if text in Keywords then Keywords[text] else Tokens.Identifier;
      AddToken(t, None);
    }
  }
}
