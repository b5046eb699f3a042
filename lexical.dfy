/** What scanning means (Scanner.cs), as functions of the source text: which token,
    error and cursor each step produces, and what a whole scan returns. The class in
    scanning.dfy is proved to compute exactly these. */
module Lexical {
  import opened Wrappers
  import opened Tokens

  // ---------------------------------------------------------------------------
  // Character classes and the keyword table
  // ---------------------------------------------------------------------------

  predicate IsDigit(c: char) { '0' <= c <= '9' }

  /** A letter or an underscore (ASCII only). */
  predicate IsAlpha(c: char) { ('a' <= c <= 'z') || ('A' <= c <= 'Z') || c == '_' }

  predicate IsAlphaNumeric(c: char) { IsAlpha(c) || IsDigit(c) }

  const Digits: string := "0123456789"
  const Lower: string := "abcdefghijklmnopqrstuvwxyz"
  const Upper: string := "ABCDEFGHIJKLMNOPQRSTUVWXYZ"

  /** The character classes, as lists of the characters they admit: the ten digits,
      and the 52 ASCII letters with the underscore. */
  lemma {:induction false} CharacterClasses(c: char)
    ensures IsDigit(c) <==> c in Digits
    ensures IsAlpha(c) <==> c in Lower || c in Upper || c == '_'
    ensures IsAlphaNumeric(c) <==> c in Lower || c in Upper || c == '_' || c in Digits
  {
    if IsDigit(c) {
      assert Digits[(c as int) - ('0' as int)] == c;
    }
    LowerLetters(c);
    UpperLetters(c);
  }

  lemma {:induction false} LowerLetters(c: char)
    ensures 'a' <= c <= 'z' <==> c in Lower
  {
    if 'a' <= c <= 'z' {
      assert Lower[(c as int) - ('a' as int)] == c;
    }
  }

  lemma {:induction false} UpperLetters(c: char)
    ensures 'A' <= c <= 'Z' <==> c in Upper
  {
    if 'A' <= c <= 'Z' {
      assert Upper[(c as int) - ('A' as int)] == c;
    }
  }

  /** The reserved words, matched exactly and case-sensitively. */
  const Keywords: map<string, TokenType> := map[
    "and" := And, "class" := Class, "else" := Else, "false" := False,
    "for" := For, "fun" := Fun, "if" := If, "nil" := Nil,
    "or" := Or, "print" := Print, "return" := Return, "super" := Super,
    "this" := This, "true" := True, "var" := Var, "while" := While]

  /** The table gives each word a reserved-word kind, from AND to WHILE; lookup is
      exact, so a capitalised word is not reserved. KeywordsDistinct: no two words
      share a kind. */
  lemma {:induction false} KeywordKinds()
    ensures forall w :: w in Keywords ==> And <= Keywords[w] < Eof
    ensures "Nil" !in Keywords && "TRUE" !in Keywords
  {
  }

  lemma {:induction false} KeywordsDistinct()
    ensures forall v, w :: v in Keywords && w in Keywords && Keywords[v] == Keywords[w] ==> v == w
  {
  }

  /** The kind AddToken records: an IDENTIFIER whose text is a reserved word becomes
      that word's kind; every other kind is kept. */
  function Classify(t: TokenType, text: string): (k: TokenType)
    ensures k != t ==> t == Identifier && text in Keywords
    ensures t == Identifier && text in Keywords ==> k == Keywords[text]
    ensures k == t || (And <= k < Eof)
  {
    if t != Identifier then t else IdentifierKind(text)
  }

  /** The kind of a word: its reserved word's kind, else IDENTIFIER. */
  function IdentifierKind(text: string): (k: TokenType)
    ensures k == Identifier <==> text !in Keywords
    ensures text in Keywords ==> k == Keywords[text] && And <= k < Eof
  {
    KeywordKinds();
    if text in Keywords then Keywords[text] else Identifier
  }

  // ---------------------------------------------------------------------------
  // Looking at the source
  // ---------------------------------------------------------------------------

  /** The character at `i`, or '\0' past the end (Peek at `current`, PeekNext at
      `current + 1`). */
  function PeekAt(src: string, i: nat): (c: char)
    ensures i < |src| ==> c == src[i]
    ensures i >= |src| ==> c == '\0'
  {
    if i >= |src| then '\0' else src[i]
  }

  /** Whether Match would consume `c` at position `i`. */
  predicate NextIs(src: string, i: nat, c: char)
  {
    i < |src| && src[i] == c
  }

  /** Where a run of digits starting at `i` ends. */
  function DigitsEnd(src: string, i: nat): (j: nat)
    requires i <= |src|
    ensures i <= j <= |src|
    ensures !IsDigit(PeekAt(src, j))
    decreases |src| - i
  {
    if IsDigit(PeekAt(src, i)) then DigitsEnd(src, i + 1) else i
  }

  /** Where a run of letters, digits and underscores starting at `i` ends. */
  function AlphaNumericEnd(src: string, i: nat): (j: nat)
    requires i <= |src|
    ensures i <= j <= |src|
    ensures !IsAlphaNumeric(PeekAt(src, j))
    decreases |src| - i
  {
    if IsAlphaNumeric(PeekAt(src, i)) then AlphaNumericEnd(src, i + 1) else i
  }

  /** The first `stop` at or after `i`, or the end of the source: where the comment
      loop halts with `stop` a newline and the string loop with `stop` a quote. */
  function RunEnd(src: string, i: nat, stop: char): (j: nat)
    requires i <= |src|
    ensures i <= j <= |src|
    ensures j == |src| || src[j] == stop
    decreases |src| - i
  {
    if PeekAt(src, i) != stop && i < |src| then RunEnd(src, i + 1, stop) else i
  }

  /** The first newline at or after `i`, or the end of the source. */
  function LineEnd(src: string, i: nat): nat
    requires i <= |src|
  {
    RunEnd(src, i, '\n')
  }

  /** The first double quote at or after `i`, or the end of the source. */
  function QuoteEnd(src: string, i: nat): nat
    requires i <= |src|
  {
    RunEnd(src, i, '"')
  }

  /** The runs these functions find are made of what they scan for. */
  lemma {:induction false} DigitRun(src: string, i: nat)
    requires i <= |src|
    ensures forall k :: i <= k < DigitsEnd(src, i) ==> IsDigit(src[k])
    decreases |src| - i
  {
    if i < |src| {
      DigitRun(src, i + 1);
    }
  }

  lemma {:induction false} AlphaNumericRun(src: string, i: nat)
    requires i <= |src|
    ensures forall k :: i <= k < AlphaNumericEnd(src, i) ==> IsAlphaNumeric(src[k])
    decreases |src| - i
  {
    if i < |src| {
      AlphaNumericRun(src, i + 1);
    }
  }

  lemma {:induction false} LineRun(src: string, i: nat)
    requires i <= |src|
    ensures forall k :: i <= k < LineEnd(src, i) ==> src[k] != '\n'
    decreases |src| - i
  {
    if i < |src| {
      LineRun(src, i + 1);
    }
  }

  /** How many newlines lie in `src[i..j]`. */
  function Newlines(src: string, i: nat, j: nat): nat
    requires i <= j <= |src|
    decreases j - i
  {
    if i == j then 0 else Newlines(src, i, j - 1) + (if src[j - 1] == '\n' then 1 else 0)
  }

  lemma {:induction false} NewlinesSplit(src: string, i: nat, j: nat, k: nat)
    requires i <= j <= k <= |src|
    ensures Newlines(src, i, k) == Newlines(src, i, j) + Newlines(src, j, k)
    decreases k - j
  {
    if j < k {
      NewlinesSplit(src, i, j, k - 1);
    }
  }

  lemma {:induction false} NoNewlines(src: string, i: nat, j: nat)
    requires i <= j <= |src|
    requires forall k :: i <= k < j ==> src[k] != '\n'
    ensures Newlines(src, i, j) == 0
    decreases j - i
  {
    if i < j {
      NoNewlines(src, i, j - 1);
    }
  }

  // ---------------------------------------------------------------------------
  // Number values
  // ---------------------------------------------------------------------------

  /** The value of one decimal digit. */
  function DigitValue(c: char): nat
  {
    if '0' <= c <= '9' then (c as int) - ('0' as int) else 0
  }

  /** The value of the digits `s[lo..hi]`. */
  function DigitsValue(s: string, lo: nat, hi: nat): nat
    requires lo <= hi <= |s|
    decreases hi - lo
  {
    if lo == hi then 0 else DigitsValue(s, lo, hi - 1) * 10 + DigitValue(s[hi - 1])
  }

  function Pow10(n: nat): (p: nat)
    ensures p >= 1
  {
    if n == 0 then 1 else 10 * Pow10(n - 1)
  }

  /** The position of the first '.' at or after `i`, or the length when there is none. */
  function DotIndex(s: string, i: nat): (d: nat)
    requires i <= |s|
    ensures i <= d <= |s|
    ensures d < |s| ==> s[d] == '.'
    decreases |s| - i
  {
    if i == |s| || s[i] == '.' then i else DotIndex(s, i + 1)
  }

  /** The number a number lexeme denotes, exactly. (The source rounds it to the
      nearest double.) */
  function ParseNumber(text: string): (r: real)
    ensures IsNumberLexeme(text) ==>
      r == (DigitsValue(Undotted(text), 0, |Undotted(text)|) as real) / (Pow10(Places(text)) as real)
    ensures IsNumberLexeme(text) && DotIndex(text, 0) == |text| ==> r == DigitsValue(text, 0, |text|) as real
  {
    if IsNumberLexeme(text) then
      NumberMeaning(text);
      NumberValue(text, 0, 0, 0, false)
    else
      NumberValue(text, 0, 0, 0, false)
  }

  /** Walk the text: `digits` is the value of the digits read so far, `places` how
      many of them follow the '.'. */
  function NumberValue(text: string, i: nat, digits: nat, places: nat, afterDot: bool): real
    requires i <= |text|
    decreases |text| - i
  {
    if i == |text| then Shift(digits as real, places)
    else if text[i] == '.' then NumberValue(text, i + 1, digits, places, true)
    else NumberValue(text, i + 1, digits * 10 + DigitValue(text[i]), if afterDot then places + 1 else places, afterDot)
  }

  /** `x` divided by ten `places` times. */
  function Shift(x: real, places: nat): real
  {
    if places == 0 then x else Shift(x, places - 1) / 10.0
  }

  /** Dividing by ten `places` times is dividing by ten to the power `places`. */
  lemma {:induction false} ShiftDivides(x: real, places: nat)
    ensures Shift(x, places) == x / (Pow10(places) as real)
  {
    if places > 0 {
      ShiftDivides(x, places - 1);
      assert Pow10(places) as real == 10.0 * (Pow10(places - 1) as real);
    }
  }

  /** The text without its first '.'. */
  function Undotted(s: string): (t: string)
    ensures var d := DotIndex(s, 0);
      && (d == |s| ==> t == s)
      && (d < |s| ==>
            && |t| == |s| - 1
            && (forall j :: 0 <= j < d ==> t[j] == s[j])
            && (forall j :: d <= j < |t| ==> t[j] == s[j + 1]))
  {
    var d := DotIndex(s, 0);
    if d == |s| then s else s[..d] + s[d + 1..]
  }

  /** How many digits follow the first '.'. */
  function Places(s: string): nat
  {
    var d := DotIndex(s, 0);
    if d == |s| then 0 else |s| - d - 1
  }

  /** The walk before the '.': the digits read so far are a prefix of the text. */
  lemma {:induction false} WholeWalk(s: string, i: nat)
    requires i <= DotIndex(s, 0)
    requires forall k :: DotIndex(s, 0) < k < |s| ==> s[k] != '.'
    ensures NumberValue(s, i, DigitsValue(Undotted(s), 0, i), 0, false)
      == Shift(DigitsValue(Undotted(s), 0, |Undotted(s)|) as real, Places(s))
    decreases |s| - i
  {
    var d := DotIndex(s, 0);
    var t := Undotted(s);
    if i == d && d == |s| {
    } else if i == d {
      FractionWalk(s, d + 1);
    } else {
      WholeStep(s, i);
      WholeWalk(s, i + 1);
    }
  }

  /** One digit before the '.': it is also the next digit of the undotted text. */
  lemma WholeStep(s: string, i: nat)
    requires i < DotIndex(s, 0)
    ensures var v := DigitsValue(Undotted(s), 0, i);
      NumberValue(s, i, v, 0, false) == NumberValue(s, i + 1, DigitsValue(Undotted(s), 0, i + 1), 0, false)
  {
    NoDotBefore(s, 0, i);
    var t := Undotted(s);
    assert t[i] == s[i];
  }

  /** The walk after the '.': every further digit is one more place. */
  lemma {:induction false} FractionWalk(s: string, i: nat)
    requires DotIndex(s, 0) < i <= |s|
    requires forall k :: DotIndex(s, 0) < k < |s| ==> s[k] != '.'
    ensures var d := DotIndex(s, 0);
      NumberValue(s, i, DigitsValue(Undotted(s), 0, i - 1), i - d - 1, true)
      == Shift(DigitsValue(Undotted(s), 0, |Undotted(s)|) as real, Places(s))
    decreases |s| - i
  {
    var d := DotIndex(s, 0);
    var t := Undotted(s);
    if i < |s| {
      assert DigitsValue(t, 0, i) == DigitsValue(t, 0, i - 1) * 10 + DigitValue(s[i]);
      FractionWalk(s, i + 1);
    }
  }

  /** There is no '.' before the one DotIndex finds. */
  lemma {:induction false} NoDotBefore(s: string, i: nat, k: nat)
    requires i <= |s| && i <= k < DotIndex(s, i)
    ensures s[k] != '.'
    decreases k - i
  {
    if i < k {
      NoDotBefore(s, i + 1, k);
    }
  }

  /** The value of a number lexeme: its digits read as one whole number, divided by
      ten once for every digit after the '.'. So "12.5" is 125 / 10. */
  lemma {:induction false} NumberMeaning(s: string)
    requires IsNumberLexeme(s)
    ensures NumberValue(s, 0, 0, 0, false)
      == (DigitsValue(Undotted(s), 0, |Undotted(s)|) as real) / (Pow10(Places(s)) as real)
    ensures DotIndex(s, 0) == |s| ==> NumberValue(s, 0, 0, 0, false) == DigitsValue(s, 0, |s|) as real
  {
    var d := DotIndex(s, 0);
    if d < |s| {
      forall k | d < k < |s|
        ensures s[k] != '.'
      {
        assert s[d + 1..][k - d - 1] == s[k];
      }
    }
    WholeWalk(s, 0);
    ShiftDivides(DigitsValue(Undotted(s), 0, |Undotted(s)|) as real, Places(s));
  }

  // ---------------------------------------------------------------------------
  // One scanning step: what ScanToken does from `start`
  // ---------------------------------------------------------------------------

  /** The outcome of one step: at most one token, at most one error report, where the
      cursor stops and the line counter afterwards. */
  datatype Lexed = Lexed(token: Option<Token>, error: Option<Diagnostic>, next: nat, line: int)

  /** AddToken after the cursor has reached `next`: the lexeme is the source text
      from `start` to `next`. Every step passes the kind AddToken ends up recording:
      Classify changes only IDENTIFIER, and Identifier() passes IDENTIFIER only for a
      word that is not reserved. */
  function Emit(src: string, start: nat, next: nat, t: TokenType, literal: Option<TokenLiteral>, line: int): (r: Lexed)
    requires start <= next <= |src|
  {
    var text := src[start..next];
    Lexed(Some(Token(t, text, literal, line)), None, next, line)
  }

  /** A step that emits nothing. */
  function Skip(next: nat, line: int): Lexed
  {
    Lexed(None, None, next, line)
  }

  /** String(): the opening quote at `start` is consumed; the body runs to the next
      quote, and every newline in it bumps the line counter. */
  function ScanString(src: string, start: nat, line: int): (r: Lexed)
    requires start < |src| && src[start] == '"'
    ensures start < r.next <= |src| && r.line >= line
    ensures r.token.Some? ==> r.error.None? && r.token.value.lexeme == src[start..r.next]
    ensures r.token.Some? ==> r.token.value.tokenType != Eof && r.token.value.line == r.line
  {
    var close := QuoteEnd(src, start + 1);
    var line' := line + Newlines(src, start + 1, close);
    if close >= |src| then
      Lexed(None, Some(Diagnostic(line', "Unterminated string.")), close, line')
    else
      Emit(src, start, close + 1, String, Some(StringLiteral(src[start + 1..close])), line')
  }

  /** Whether a '.' followed by a digit starts at `i`: the test for a fraction. */
  predicate FractionAt(src: string, i: nat)
  {
    PeekAt(src, i) == '.' && IsDigit(PeekAt(src, i + 1))
  }

  /** Where a number whose first digit precedes `i` ends: the digit run, then a
      fraction only when a '.' is followed by a digit. */
  function NumberEnd(src: string, i: nat): (j: nat)
    requires i <= |src|
    ensures i <= j <= |src|
  {
    var whole := DigitsEnd(src, i);
    if FractionAt(src, whole) then DigitsEnd(src, whole + 1) else whole
  }

  /** Number(): digits, then a fraction only when a '.' is followed by a digit. */
  function ScanNumber(src: string, start: nat, line: int): (r: Lexed)
    requires start < |src| && IsDigit(src[start])
    ensures start < r.next <= |src| && r.line >= line
    ensures r.token.Some? ==> r.error.None? && r.token.value.lexeme == src[start..r.next]
    ensures r.token.Some? ==> r.token.value.tokenType != Eof && r.token.value.line == r.line
  {
    var end := NumberEnd(src, start + 1);
    Emit(src, start, end, Number, Some(NumberLiteral(ParseNumber(src[start..end]))), line)
  }

  /** Identifier(): the longest run of letters, digits and underscores, typed by the
      keyword table. */
  function ScanIdentifier(src: string, start: nat, line: int): (r: Lexed)
    requires start < |src| && IsAlpha(src[start])
    ensures start < r.next <= |src| && r.line >= line
    ensures r.token.Some? ==> r.error.None? && r.token.value.lexeme == src[start..r.next]
    ensures r.token.Some? ==> r.token.value.tokenType != Eof && r.token.value.line == r.line
  {
    var end := AlphaNumericEnd(src, start + 1);
    var text := src[start..end];
    Emit(src, start, end, IdentifierKind(text), None, line)
  }

  /** ScanToken: classify the character at `start` and consume the token it begins. */
  function ScanOne(src: string, start: nat, line: int): (r: Lexed)
    requires start < |src|
    ensures start < r.next <= |src|
    ensures r.token.Some? ==> r.error.None? && r.token.value.lexeme == src[start..r.next]
    ensures r.token.Some? ==> r.token.value.tokenType != Eof && r.token.value.line == r.line
    ensures r.line >= line
  {
    var c := src[start];
    match c
    case '(' => Emit(src, start, start + 1, LeftParen, None, line)
    case ')' => Emit(src, start, start + 1, RightParen, None, line)
    case '{' => Emit(src, start, start + 1, LeftBrace, None, line)
    case '}' => Emit(src, start, start + 1, RightBrace, None, line)
    case ',' => Emit(src, start, start + 1, Comma, None, line)
    case '.' => Emit(src, start, start + 1, Dot, None, line)
    case '-' => Emit(src, start, start + 1, Minus, None, line)
    case '+' => Emit(src, start, start + 1, Plus, None, line)
    case ';' => Emit(src, start, start + 1, Semicolon, None, line)
    case '*' => Emit(src, start, start + 1, Star, None, line)
    case '!' =>
      if NextIs(src, start + 1, '=') then Emit(src, start, start + 2, BangEqual, None, line)
      else Emit(src, start, start + 1, Bang, None, line)
    case '=' =>
      if NextIs(src, start + 1, '=') then Emit(src, start, start + 2, EqualEqual, None, line)
      else Emit(src, start, start + 1, Equal, None, line)
    case '<' =>
      if NextIs(src, start + 1, '=') then Emit(src, start, start + 2, LessEqual, None, line)
      else Emit(src, start, start + 1, Less, None, line)
    case '>' =>
      if NextIs(src, start + 1, '=') then Emit(src, start, start + 2, GreaterEqual, None, line)
      else Emit(src, start, start + 1, Greater, None, line)
    case '/' =>
      if NextIs(src, start + 1, '/') then Skip(LineEnd(src, start + 2), line)
      else Emit(src, start, start + 1, Slash, None, line)
    case ' ' => Skip(start + 1, line)
    case '\r' => Skip(start + 1, line)
    case '\t' => Skip(start + 1, line)
    case '\n' => Skip(start + 1, line + 1)
    case '"' => ScanString(src, start, line)
    case _ =>
      if IsDigit(c) then ScanNumber(src, start, line)
      else if IsAlpha(c) then ScanIdentifier(src, start, line)
      else Lexed(None, Some(Diagnostic(line, "Unexpected character.")), start + 1, line)
  }

  // ---------------------------------------------------------------------------
  // A whole scan: ScanTokens
  // ---------------------------------------------------------------------------

  /** Tokens and error reports, in order, and the line counter at the end. */
  datatype Scanned = Scanned(tokens: seq<Token>, errors: seq<Diagnostic>, line: int)

  /** Scanning from `pos` to the end of the source, before the EOF token is added. */
  function ScanFrom(src: string, pos: nat, line: int): (r: Scanned)
    requires pos <= |src|
    ensures r.line >= line
    ensures forall i :: 0 <= i < |r.tokens| ==> r.tokens[i].tokenType != Eof
    decreases |src| - pos
  {
    if pos >= |src| then Scanned([], [], line)
    else
      var step := ScanOne(src, pos, line);
      var rest := ScanFrom(src, step.next, step.line);
      Scanned(OptionToSeq(step.token) + rest.tokens, OptionToSeq(step.error) + rest.errors, rest.line)
  }

  /** The scanning loop with the tokens and reports gathered so far: the shape of
      ScanTokens' while loop. */
  function ScanLoop(src: string, pos: nat, line: int, tokens: seq<Token>, errors: seq<Diagnostic>): (r: Scanned)
    requires pos <= |src|
    ensures tokens <= r.tokens && errors <= r.errors && r.line >= line
    decreases |src| - pos
  {
    if pos >= |src| then Scanned(tokens, errors, line)
    else
      var step := ScanOne(src, pos, line);
      ScanLoop(src, step.next, step.line, tokens + OptionToSeq(step.token), errors + OptionToSeq(step.error))
  }

  /** The loop appends to what it was given exactly what ScanFrom scans. */
  lemma {:induction false} ScanLoopAppends(src: string, pos: nat, line: int, tokens: seq<Token>, errors: seq<Diagnostic>)
    requires pos <= |src|
    ensures var s := ScanFrom(src, pos, line);
      ScanLoop(src, pos, line, tokens, errors) == Scanned(tokens + s.tokens, errors + s.errors, s.line)
    decreases |src| - pos
  {
    if pos < |src| {
      var step := ScanOne(src, pos, line);
      var rest := ScanFrom(src, step.next, step.line);
      ScanLoopAppends(src, step.next, step.line, tokens + OptionToSeq(step.token), errors + OptionToSeq(step.error));
      AppendAssociates(tokens, OptionToSeq(step.token), rest.tokens);
      AppendAssociates(errors, OptionToSeq(step.error), rest.errors);
    }
  }

  /** The end-of-input token ScanTokens appends. */
  function EofToken(line: int): Token
  {
    Token(Eof, "", None, line)
  }

  /** ScanTokens on a fresh scanner: everything from position 0 on line 1, then EOF. */
  function Lex(src: string): (r: Scanned)
    ensures |r.tokens| >= 1 && r.tokens[|r.tokens| - 1] == EofToken(r.line) && r.line >= 1
    ensures forall i :: 0 <= i < |r.tokens| - 1 ==> r.tokens[i].tokenType != Eof
  {
    var s := ScanFrom(src, 0, 1);
    Scanned(s.tokens + [EofToken(s.line)], s.errors, s.line)
  }

  // ---------------------------------------------------------------------------
  // Properties of one step
  // ---------------------------------------------------------------------------

  /** The default branch of the switch: a quote starts a string, a digit a number, a
      letter or underscore an identifier. */
  lemma {:induction false} ScanOneDispatch(src: string, start: nat, line: int)
    requires start < |src|
    ensures src[start] == '"' ==> ScanOne(src, start, line) == ScanString(src, start, line)
    ensures IsDigit(src[start]) ==> ScanOne(src, start, line) == ScanNumber(src, start, line)
    ensures IsAlpha(src[start]) ==> ScanOne(src, start, line) == ScanIdentifier(src, start, line)
  {
    var c := src[start];
    if IsDigit(c) {
      assert '0' <= c <= '9';
    } else if IsAlpha(c) {
      assert 'a' <= c <= 'z' || 'A' <= c <= 'Z' || c == '_';
    }
  }

  /** QuoteEnd finds the first quote: any position with no quote before it that is a
      quote or the end of the source is where QuoteEnd stops. */
  lemma {:induction false} QuoteEndAt(src: string, i: nat, close: nat)
    requires i <= close <= |src|
    requires forall k :: i <= k < close ==> src[k] != '"'
    requires close == |src| || src[close] == '"'
    ensures QuoteEnd(src, i) == close
    decreases close - i
  {
    if i < close {
      QuoteEndAt(src, i + 1, close);
    }
  }

  /** Where String() stops and what it records, in terms of the closing quote. */
  lemma {:induction false} StringStep(src: string, start: nat, line: int)
    requires start < |src| && src[start] == '"'
    ensures var close := QuoteEnd(src, start + 1);
      var r := ScanString(src, start, line);
      && r.line == line + Newlines(src, start + 1, close)
      && (close < |src| ==>
            && r.next == close + 1 && r.error.None?
            && r.token == Some(Token(String, src[start..close + 1], Some(StringLiteral(src[start + 1..close])), r.line)))
      && (close == |src| ==>
            r.next == close && r.token.None? && r.error == Some(Diagnostic(r.line, "Unterminated string.")))
  {
  }

  /** The quotes around a string body hold no newline. */
  lemma {:induction false} QuoteNewlines(src: string, start: nat)
    requires start < |src| && src[start] == '"'
    ensures var close := QuoteEnd(src, start + 1);
      && Newlines(src, start, close) == Newlines(src, start + 1, close)
      && (close < |src| ==> Newlines(src, start, close + 1) == Newlines(src, start + 1, close))
  {
    var close := QuoteEnd(src, start + 1);
    NewlinesSplit(src, start, start + 1, close);
    if close < |src| {
      NewlinesSplit(src, start, close, close + 1);
    }
  }

  /** A string, closed or not, advances the line counter by the newlines it spans. */
  lemma {:induction false} StringCountsNewlines(src: string, start: nat, line: int)
    requires start < |src| && src[start] == '"'
    ensures var r := ScanString(src, start, line);
      start < r.next <= |src| && r.line == line + Newlines(src, start, r.next)
  {
    StringStep(src, start, line);
    QuoteNewlines(src, start);
  }

  /** A number lexeme is made of digits and '.'. */
  lemma {:induction false} NumberChars(src: string, start: nat)
    requires start < |src| && IsDigit(src[start])
    ensures forall k :: start <= k < NumberEnd(src, start + 1) ==> IsDigit(src[k]) || src[k] == '.'
  {
    var whole := DigitsEnd(src, start + 1);
    DigitRun(src, start + 1);
    if FractionAt(src, whole) {
      DigitRun(src, whole + 1);
    }
  }

  /** The line counter after a step has gone up by exactly the newlines the step
      consumed: each newline is counted once, wherever it occurs. */
  lemma {:induction false} ScanOneCountsNewlines(src: string, start: nat, line: int)
    requires start < |src|
    ensures var r := ScanOne(src, start, line);
      r.line == line + Newlines(src, start, r.next)
  {
    var r := ScanOne(src, start, line);
    var c := src[start];
    ScanOneDispatch(src, start, line);
    if c == '"' {
      StringCountsNewlines(src, start, line);
    } else if IsDigit(c) {
      NumberChars(src, start);
      NoNewlines(src, start, r.next);
    } else if IsAlpha(c) {
      AlphaNumericRun(src, start + 1);
      NoNewlines(src, start, r.next);
    } else if r.next == start + 1 {
      assert Newlines(src, start, start + 1) == if c == '\n' then 1 else 0;
    } else if c == '/' {
      LineRun(src, start + 2);
      NoNewlines(src, start, r.next);
    } else {
      // a two-character operator
      NoNewlines(src, start, r.next);
    }
  }

  /** The one-character kind of '!', '=', '<' and '>', and their kind when followed
      by '='. */
  function BareOperator(c: char): TokenType
  {
    match c
    case '!' => Bang
    case '=' => Equal
    case '<' => Less
    case _ => Greater
  }

  function EqualOperator(c: char): TokenType
  {
    match c
    case '!' => BangEqual
    case '=' => EqualEqual
    case '<' => LessEqual
    case _ => GreaterEqual
  }

  /** Maximal munch: '!', '=', '<' and '>' take a following '=' into a two-character
      token; otherwise the token is one character and the next one is left alone. */
  lemma {:induction false} OperatorMaximalMunch(src: string, start: nat, line: int)
    requires start < |src| && src[start] in "!=<>"
    ensures var r := ScanOne(src, start, line);
      && r.token.Some? && r.error.None? && r.line == line && r.token.value.literal.None?
      && (NextIs(src, start + 1, '=') ==>
            r.next == start + 2 && r.token.value.tokenType == EqualOperator(src[start]))
      && (!NextIs(src, start + 1, '=') ==>
            r.next == start + 1 && r.token.value.tokenType == BareOperator(src[start]))
  {
  }

  /** Blanks, newlines and comments emit nothing. A newline bumps the line counter;
      a comment runs up to, not including, the next newline. */
  lemma {:induction false} WhitespaceAndComments(src: string, start: nat, line: int)
    requires start < |src|
    requires src[start] in " \r\t\n" || (src[start] == '/' && NextIs(src, start + 1, '/'))
    ensures var r := ScanOne(src, start, line);
      && r.token.None? && r.error.None?
      && (src[start] in " \r\t" ==> r.next == start + 1 && r.line == line)
      && (src[start] == '\n' ==> r.next == start + 1 && r.line == line + 1)
      && (src[start] == '/' ==>
            && r.line == line
            && (r.next == |src| || src[r.next] == '\n')
            && forall k :: start <= k < r.next ==> src[k] != '\n')
  {
    if src[start] == '/' {
      LineRun(src, start + 2);
    }
  }

  /** A closed string: the lexeme runs from the opening quote to the first quote after
      it, the literal is the lexeme without its two quotes, and the token carries the
      line counter as it stands after the closing quote (StringCountsNewlines). */
  lemma {:induction false} TerminatedString(src: string, start: nat, line: int, close: nat)
    requires start < close < |src| && src[start] == '"' && src[close] == '"'
    requires forall k :: start < k < close ==> src[k] != '"'
    ensures var r := ScanString(src, start, line);
      && r.error.None? && r.next == close + 1 && r.token.Some?
      && var t := r.token.value;
      && t.tokenType == String
      && t.lexeme == src[start..close + 1]
      && t.literal == Some(StringLiteral(t.lexeme[1..|t.lexeme| - 1]))
      && t.line == r.line
  {
    QuoteEndAt(src, start + 1, close);
    StringStep(src, start, line);
    Unquote(src, start, close);
  }

  /** The text between two quotes is the quoted text without its first and last
      characters. */
  lemma {:induction false} Unquote(src: string, start: nat, close: nat)
    requires start < close < |src|
    ensures var lexeme := src[start..close + 1];
      lexeme[1..|lexeme| - 1] == src[start + 1..close]
  {
    var lexeme := src[start..close + 1];
    forall k | start + 1 <= k < close
      ensures lexeme[k - start] == src[k]
    {
    }
    assert lexeme[1..|lexeme| - 1] == src[start + 1..close];
  }

  /** A string that reaches the end of the input: no token, one "Unterminated string."
      report on the line the input ends on, and the rest of the input consumed. */
  lemma {:induction false} UnterminatedString(src: string, start: nat, line: int)
    requires start < |src| && src[start] == '"'
    requires forall k :: start < k < |src| ==> src[k] != '"'
    ensures var r := ScanString(src, start, line);
      && r.token.None? && r.next == |src|
      && r.error == Some(Diagnostic(line + Newlines(src, start, |src|), "Unterminated string."))
  {
    QuoteEndAt(src, start + 1, |src|);
    StringStep(src, start, line);
    StringCountsNewlines(src, start, line);
  }

  predicate AllDigits(s: string)
  {
    forall k :: 0 <= k < |s| ==> IsDigit(s[k])
  }

  /** The shape of a number lexeme: digits, or digits '.' digits. */
  predicate IsNumberLexeme(s: string)
  {
    var d := DotIndex(s, 0);
    && 0 < d && AllDigits(s[..d])
    && (d < |s| ==> d < |s| - 1 && AllDigits(s[d + 1..]))
  }

  /** DotIndex finds the first '.'. */
  lemma {:induction false} DotIndexAt(s: string, i: nat, dot: nat)
    requires i <= dot < |s| && s[dot] == '.'
    requires forall k :: i <= k < dot ==> s[k] != '.'
    ensures DotIndex(s, i) == dot
    decreases dot - i
  {
    if i < dot {
      DotIndexAt(s, i + 1, dot);
    }
  }

  /** DotIndex runs to the end of a text with no '.'. */
  lemma {:induction false} DotIndexNone(s: string, i: nat)
    requires i <= |s|
    requires forall k :: i <= k < |s| ==> s[k] != '.'
    ensures DotIndex(s, i) == |s|
    decreases |s| - i
  {
    if i < |s| {
      DotIndexNone(s, i + 1);
    }
  }

  lemma {:induction false} AllDigitsSlice(src: string, i: nat, j: nat)
    requires i <= j <= |src|
    requires forall k :: i <= k < j ==> IsDigit(src[k])
    ensures AllDigits(src[i..j])
  {
  }

  /** Digits, a '.', and digits again form a number lexeme. */
  lemma {:induction false} FractionLexeme(src: string, start: nat, dot: nat, end: nat)
    requires start < dot < end - 1 && end <= |src| && src[dot] == '.'
    requires forall k :: start <= k < dot ==> IsDigit(src[k])
    requires forall k :: dot < k < end ==> IsDigit(src[k])
    ensures IsNumberLexeme(src[start..end]) && DotIndex(src[start..end], 0) < end - start
  {
    var s := src[start..end];
    var k := dot - start;
    DotIndexAt(s, 0, k);
    AllDigitsSlice(src, start, dot);
    AllDigitsSlice(src, dot + 1, end);
    assert s[..k] == src[start..dot];
    assert s[k + 1..] == src[dot + 1..end];
  }

  /** A run of digits is a number lexeme. */
  lemma {:induction false} WholeLexeme(src: string, start: nat, end: nat)
    requires start < end <= |src|
    requires forall k :: start <= k < end ==> IsDigit(src[k])
    ensures IsNumberLexeme(src[start..end]) && DotIndex(src[start..end], 0) == end - start
  {
    var s := src[start..end];
    DotIndexNone(s, 0);
    AllDigitsSlice(src, start, end);
    assert s[..|s|] == s;
  }

  lemma {:induction false} FractionNumber(src: string, start: nat)
    requires start < |src| && IsDigit(src[start]) && FractionAt(src, DigitsEnd(src, start + 1))
    ensures var end := NumberEnd(src, start + 1);
      IsNumberLexeme(src[start..end]) && DotIndex(src[start..end], 0) < end - start
  {
    var whole := DigitsEnd(src, start + 1);
    var end := DigitsEnd(src, whole + 1);
    assert end == NumberEnd(src, start + 1);
    assert whole + 1 < end by {
      assert IsDigit(PeekAt(src, whole + 1));
    }
    DigitRun(src, start + 1);
    DigitRun(src, whole + 1);
    assert forall k :: start <= k < whole ==> IsDigit(src[k]);
    FractionLexeme(src, start, whole, end);
  }

  lemma {:induction false} WholeNumber(src: string, start: nat)
    requires start < |src| && IsDigit(src[start]) && !FractionAt(src, DigitsEnd(src, start + 1))
    ensures var end := NumberEnd(src, start + 1);
      IsNumberLexeme(src[start..end]) && end == DigitsEnd(src, start + 1)
  {
    var whole := DigitsEnd(src, start + 1);
    DigitRun(src, start + 1);
    assert whole == NumberEnd(src, start + 1);
    WholeLexeme(src, start, whole);
  }

  /** A number is the longest digit run, with a fraction only when its '.' is followed
      by a digit; a '.' without a digit after it is left for the next token. */
  lemma {:induction false} NumberToken(src: string, start: nat, line: int)
    requires start < |src| && IsDigit(src[start])
    ensures var r := ScanNumber(src, start, line);
      && r.error.None? && r.token.Some? && r.line == line
      && var t := r.token.value;
      && t.tokenType == Number && t.literal == Some(NumberLiteral(ParseNumber(t.lexeme)))
      && IsNumberLexeme(t.lexeme)
      && !IsDigit(PeekAt(src, r.next))
      && (FractionAt(src, r.next) ==> DotIndex(t.lexeme, 0) < |t.lexeme|)
  {
    if FractionAt(src, DigitsEnd(src, start + 1)) {
      FractionNumber(src, start);
    } else {
      WholeNumber(src, start);
    }
  }

  /** An identifier is the longest run of letters, digits and underscores; it is a
      reserved word's kind exactly when its text is in the table. */
  lemma {:induction false} IdentifierToken(src: string, start: nat, line: int)
    requires start < |src| && IsAlpha(src[start])
    ensures var r := ScanIdentifier(src, start, line);
      && r.error.None? && r.token.Some? && r.line == line
      && var t := r.token.value;
      && t.literal.None?
      && (forall k :: 0 <= k < |t.lexeme| ==> IsAlphaNumeric(t.lexeme[k]))
      && !IsAlphaNumeric(PeekAt(src, r.next))
      && (t.lexeme in Keywords ==> t.tokenType == Keywords[t.lexeme])
      && (t.lexeme !in Keywords ==> t.tokenType == Identifier)
  {
    AlphaNumericRun(src, start + 1);
  }

  /** Any other character is reported as "Unexpected character." on the current line,
      emits nothing, and only that character is consumed. */
  lemma {:induction false} UnexpectedCharacter(src: string, start: nat, line: int)
    requires start < |src|
    requires src[start] !in "(){},.-+;*!=<>/ \r\t\n\"" && !IsDigit(src[start]) && !IsAlpha(src[start])
    ensures ScanOne(src, start, line) == Lexed(None, Some(Diagnostic(line, "Unexpected character.")), start + 1, line)
  {
  }

  // ---------------------------------------------------------------------------
  // Properties of a whole scan
  // ---------------------------------------------------------------------------

  lemma {:induction false} ScanFromFacts(src: string, pos: nat, line: int)
    requires pos <= |src|
    ensures var r := ScanFrom(src, pos, line);
      && r.line == line + Newlines(src, pos, |src|)
      && (forall i :: 0 <= i < |r.tokens| ==> r.tokens[i].tokenType != Eof)
      && (forall i :: 0 <= i < |r.tokens| ==> line <= r.tokens[i].line <= r.line)
      && (forall i, j :: 0 <= i <= j < |r.tokens| ==> r.tokens[i].line <= r.tokens[j].line)
    decreases |src| - pos
  {
    if pos < |src| {
      var step := ScanOne(src, pos, line);
      ScanOneCountsNewlines(src, pos, line);
      ScanFromFacts(src, step.next, step.line);
      NewlinesSplit(src, pos, step.next, |src|);
    }
  }

  /** ScanTokens always ends with exactly one EOF token: empty lexeme, no literal, and
      the final line, which is one more than the number of newlines in the input. */
  lemma {:induction false} LexEndsWithEof(src: string)
    ensures var r := Lex(src);
      && |r.tokens| >= 1
      && r.tokens[|r.tokens| - 1] == Token(Eof, "", None, 1 + Newlines(src, 0, |src|))
      && forall i :: 0 <= i < |r.tokens| - 1 ==> r.tokens[i].tokenType != Eof
  {
    ScanFromFacts(src, 0, 1);
  }

  /** Tokens come out on non-decreasing lines, all between 1 and the EOF token's line. */
  lemma {:induction false} LexLinesAscend(src: string)
    ensures var r := Lex(src);
      && (forall i :: 0 <= i < |r.tokens| ==> 1 <= r.tokens[i].line <= r.line)
      && (forall i, j :: 0 <= i <= j < |r.tokens| ==> r.tokens[i].line <= r.tokens[j].line)
  {
    ScanFromFacts(src, 0, 1);
  }
}
