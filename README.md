# cs_lox in Dafny

A model of the three stages of cs_lox, a C# interpreter for Lox expressions, together with the proofs about them. The expressions cover literals, grouping, `!`, unary `-`, arithmetic, comparison and equality.

- **Tokens and trees** (Token.cs, Expr.cs) are datatypes.
  - `Tokens.Token` is the immutable token record. Its literal slot is an `Option`, because the source allows null there.
  - `Exprs.Expr` is the closed four-variant tree.
  - `Exprs.Accept` is the visitor double dispatch, written as a `match`.
- **The scanner** (Scanner.cs) is a class, `Scanning.Scanner`.
  - Its state is the source text, the cursors `start`, `current` and `line`, the token list and an error log.
  - Every method is proved to do exactly what a function of module `Lexical` says. For example, one `ScanToken` call is `Lexical.ScanOne`, and `ScanTokens` on a fresh scanner is `Lexical.Lex`.
  - The properties of scanning are lemmas about those functions: maximal munch, comments, strings, numbers, identifiers, error recovery, the final EOF token and line counting.
- **The parser** (Parser.cs) is a class, `Parsing.Parser`, with a cursor.
  - Each rule is a method returning `Option<Expr>`. `None` stands for the `ParseError` exception unwinding.
  - Each rule is proved to give the tree of the matching function in module `Grammar`, to leave the cursor where that function says, and to add exactly one report to the error log when it fails.
  - Module `Grammar` proves that every tree the rules build is well shaped.
  - Module `ParseLaws` proves associativity, precedence, prefix nesting, the error cases, and that tokens after a complete expression play no part.
- **The evaluator** (Interpreter.cs) is pure recursion over the tree, in module `Interpreting`.
  - A value is `Nil | Bool | Num | Str`.
  - A `(double)` cast of a non-number, which throws in the source, ends evaluation with the fault `NotANumber`.
  - A division by zero ends evaluation with the fault `NonFinite`.
- **Examples** (module `Examples`) are worked examples proved on small inputs, covering scanning, parsing and evaluation.

`Lox.Error(line, message)`, the shared error sink of the scanner and the parser, becomes one `Diagnostic(line, message)` appended to the `errors` field of the object that reports it.

Numbers are exact `real`s. A number lexeme denotes its exact decimal value.

## Model

| member | source | states |
|---|---|---|
| Tokens.TokenFields | Token.cs:7-19 | A token holds exactly the kind, lexeme, literal and line it was built with, and two tokens are equal exactly when all four agree. |
| Tokens.TypeName | Token.cs:24 | Every kind prints as one non-empty word without spaces. |
| Tokens.ToString | Token.cs:22-25 | The printed token's first word is its kind's name; what follows the first space is the lexeme, one space and the literal's text. |
| Tokens.PunctuationName | Token.cs:24 | The printed name of each single-character kind is one non-empty word without spaces. |
| Tokens.OperatorName | Token.cs:24 | The printed name of each operator kind is one non-empty word without spaces. |
| Tokens.LiteralKindName | Token.cs:24 | The printed name of IDENTIFIER, STRING and NUMBER is one non-empty word without spaces. |
| Tokens.KeywordName | Token.cs:24 | The printed name of each reserved-word kind is one non-empty word without spaces. |
| Exprs.Accept | Expr.cs:7-16 | A node is handed to the visitor's handler for its own variant, and that handler's result comes back unchanged. |
| Exprs.AcceptUsesOwnHandlerOnly | Expr.cs:34-93 | Two visitors that agree on the handler for a node's variant give the same result for that node; the other three handlers play no part. |
| Lexical.PeekAt | Scanner.cs:162-173 | The character at a position, or '\0' at or past the end of the source. |
| Lexical.CharacterClasses | Scanner.cs:225-241 | A digit is one of '0' to '9'. A letter is one of 'a' to 'z', 'A' to 'Z' or '_'. An alphanumeric character is a letter or a digit. |
| Lexical.KeywordKinds | Scanner.cs:7-25 | Every reserved word maps to a reserved-word kind, from AND to WHILE, never EOF. The lookup is case-sensitive: "Nil" and "TRUE" are not reserved. |
| Lexical.KeywordsDistinct | Scanner.cs:7-25 | No two reserved words share a kind. |
| Lexical.Classify | Scanner.cs:147 | AddToken keeps every kind, except that an IDENTIFIER whose text is a reserved word takes that word's kind. |
| Lexical.IdentifierKind | Scanner.cs:218-220 | The kind is IDENTIFIER exactly when the text is not a reserved word; otherwise it is that word's kind from the table. |
| Lexical.DigitsEnd | Scanner.cs:202 | The digit loop stops inside the source, at the first position whose character is not a digit. |
| Lexical.DigitRun | Scanner.cs:202 | Every character the digit loop passes is a digit. |
| Lexical.AlphaNumericEnd | Scanner.cs:216 | The identifier loop stops inside the source, at the first position that is not a letter, digit or underscore. |
| Lexical.AlphaNumericRun | Scanner.cs:216 | Every character the identifier loop passes is a letter, digit or underscore. |
| Lexical.RunEnd | Scanner.cs:179-183 | The string loop, and the comment loop with a newline in place of the quote, stops inside the source, on the stop character or at the end. |
| Lexical.LineRun | Scanner.cs:110-111 | The comment loop passes no newline. |
| Lexical.QuoteEndAt | Scanner.cs:179-183 | The string loop stops at the first double quote after the opening one, or at the end when there is none. |
| Lexical.ScanString | Scanner.cs:176-197 | A string step moves the cursor forward and never lowers the line; a token it records is not EOF, has the text from `start` to the cursor as its lexeme and carries the current line. |
| Lexical.StringStep | Scanner.cs:176-197 | A closed string records a STRING token from the opening quote through the closing quote, with the text between them as its literal. An unclosed string records "Unterminated string." and no token, with the cursor at the end. The line grows by the newlines in the body. |
| Lexical.StringCountsNewlines | Scanner.cs:179-183 | A string, closed or not, raises the line counter by exactly the newlines it spans. |
| Lexical.NumberEnd | Scanner.cs:202-208 | Where a number lexeme ends: its digits, then a fraction only when a '.' is followed by a digit. The end lies inside the source. |
| Lexical.ScanNumber | Scanner.cs:200-211 | A number step moves the cursor forward and records a non-EOF token whose lexeme is the text consumed, with no error report. |
| Lexical.NumberChars | Scanner.cs:202-208 | A number lexeme holds only digits and '.'. |
| Lexical.ParseNumber | Scanner.cs:210 | The value of a number lexeme is its digits read as one integer, divided by ten to the power of the number of digits after the '.'; without a '.' it is the integer. |
| Lexical.NumberMeaning | Scanner.cs:210 | The digit-by-digit reading of a number lexeme computes that value. |
| Lexical.ShiftDivides | Scanner.cs:210 | Dividing by ten once per place is dividing by ten to the power of the places. |
| Lexical.ScanIdentifier | Scanner.cs:214-223 | An identifier step moves the cursor forward and records a non-EOF token whose lexeme is the text consumed, with no error report. |
| Lexical.ScanOne | Scanner.cs:61-134 | One ScanToken step: it consumes at least one character and stays inside the source. A token it records is not EOF, has the consumed text as lexeme and carries the line, with no error beside it. The line never goes down. |
| Lexical.ScanOneDispatch | Scanner.cs:122-132 | A double quote starts a string, a digit a number, and a letter or underscore an identifier. |
| Lexical.ScanOneCountsNewlines | Scanner.cs:119-121 | After any step the line counter has risen by exactly the newlines the step consumed. |
| Lexical.OperatorMaximalMunch | Scanner.cs:96-106 | '!', '=', '<' and '>' take a following '=' into the two-character kind. Otherwise they are the one-character kind and the next character is left unread. |
| Lexical.WhitespaceAndComments | Scanner.cs:108-121 | Blanks, newlines and `//` comments produce no token and no error. A newline adds one to the line. A comment runs up to, but not including, the next newline. |
| Lexical.TerminatedString | Scanner.cs:193-196 | A closed string's lexeme runs from its opening quote to the first quote after it. Its literal is the lexeme without its two quotes. It carries the line of the closing quote. |
| Lexical.Unquote | Scanner.cs:195 | The text between two quotes is the quoted lexeme with its first and last characters removed. |
| Lexical.UnterminatedString | Scanner.cs:185-191 | A string that reaches the end of the input records no token. It records one "Unterminated string." report, on the line where the input ends, and consumes the rest of the input. |
| Lexical.FractionLexeme | Scanner.cs:204-208 | Digits, a '.' and more digits form a number lexeme with a fraction. |
| Lexical.WholeLexeme | Scanner.cs:202 | A run of digits alone is a number lexeme without a fraction. |
| Lexical.NumberToken | Scanner.cs:200-211 | A NUMBER token's lexeme is the longest digit run, plus a fraction only when its '.' is followed by a digit. Its literal is the lexeme's value. The next character is not a digit, and a '.' with no digit after it is left unread. |
| Lexical.IdentifierToken | Scanner.cs:214-223 | An identifier is the longest run of letters, digits and underscores. Its kind is the reserved word's kind exactly when its text is in the table, and IDENTIFIER otherwise. It has no literal. |
| Lexical.UnexpectedCharacter | Scanner.cs:125-132 | Any other character records "Unexpected character." on the current line, emits nothing and consumes only itself. |
| Lexical.ScanLoop | Scanner.cs:43-47 | The scanning loop only appends: the tokens and reports it starts with are prefixes of those it ends with, and the line never goes down. |
| Lexical.ScanFrom | Scanner.cs:43-47 | A scan of the rest of the input yields no EOF token and never lowers the line. |
| Lexical.Lex | Scanner.cs:40-52 | ScanTokens ends with the EOF token of the final line, which is at least 1, and no earlier token is EOF. |
| Lexical.ScanLoopAppends | Scanner.cs:43-47 | The scanning loop appends to the tokens and reports it is given exactly what a scan of the rest of the input yields. |
| Lexical.ScanFromFacts | Scanner.cs:43-47 | A scan of the rest of the input produces no EOF token. Its tokens' lines rise monotonically between the starting line and the final one, which is the start plus the newlines read. |
| Lexical.LexEndsWithEof | Scanner.cs:40-52 | ScanTokens ends with exactly one EOF token, with an empty lexeme, no literal, and line 1 plus the number of newlines in the input. No earlier token is EOF. |
| Lexical.LexLinesAscend | Scanner.cs:40-52 | The tokens come out on monotonically rising lines, all between 1 and the EOF token's line. |
| Scanning.Scanner.constructor | Scanner.cs:27-37 | A new scanner holds the source, no tokens and no reports, with both cursors at 0 and the line at 1. |
| Scanning.Scanner.ScanTokens | Scanner.cs:40-52 | The loop scans to the end and then appends EOF on the final line. On a fresh scanner the tokens and reports are exactly those of Lex. |
| Scanning.Scanner.IsAtEnd | Scanner.cs:55-58 | In a valid scanner, at the end exactly when the cursor has reached the length of the source; the cursor then reads '\0'. |
| Scanning.Scanner.ScanToken | Scanner.cs:61-134 | One call moves the cursor and line as ScanOne says, and appends ScanOne's token and report, if any. |
| Scanning.Scanner.SkipComment | Scanner.cs:109-111 | The comment loop leaves the cursor on the next newline or at the end. |
| Scanning.Scanner.Advance | Scanner.cs:137-141 | Consumes and returns the character under the cursor. |
| Scanning.Scanner.AddToken | Scanner.cs:144-149 | Appends one token whose lexeme is the text from `start` to the cursor, on the current line. An IDENTIFIER spelled like a reserved word takes that word's kind, and other kinds are kept. |
| Scanning.Scanner.ReportError | Scanner.cs:131 | A report appends (line, message) to the error log. |
| Scanning.Scanner.Match | Scanner.cs:152-159 | Consumes the next character exactly when it exists and is the expected one, and says whether it did. |
| Scanning.Scanner.Peek | Scanner.cs:162-166 | The character under the cursor, or '\0' at the end. |
| Scanning.Scanner.PeekNext | Scanner.cs:169-173 | The character after the cursor, or '\0' past the end. |
| Scanning.Scanner.String | Scanner.cs:176-197 | Scans a string literal as ScanString says: cursor, line, token and report. |
| Scanning.Scanner.SkipStringBody | Scanner.cs:179-183 | The loop stops at the next quote or the end, counting every newline it passes. |
| Scanning.Scanner.Number | Scanner.cs:200-211 | Scans a number literal as ScanNumber says, with no report. |
| Scanning.Scanner.SkipNumber | Scanner.cs:202-208 | The cursor moves to where NumberEnd says the lexeme ends. |
| Scanning.Scanner.SkipDigits | Scanner.cs:202 | The digit loop stops where DigitsEnd says. |
| Scanning.Scanner.Identifier | Scanner.cs:214-223 | Scans an identifier or reserved word as ScanIdentifier says, with no report. |
| Grammar.Operators | Parser.cs:40 | Each level matches at least two operator kinds, and never EOF. |
| Grammar.LevelOf | Parser.cs:40-84 | A kind belongs to at most one level's operator set, and LevelOf names that level. |
| Grammar.LiteralValue | Parser.cs:112 | The Literal node of a NUMBER or STRING token holds that token's number or text, or nil when its literal slot is empty. |
| Grammar.TreeOf | Parser.cs:16-26 | A rule yields a tree exactly when it succeeded: there is no partial tree. |
| Grammar.Logged | Parser.cs:170-174 | A successful rule leaves the log unchanged. A failing one appends one report, with the offending token's line and the message. |
| Grammar.Expression | Parser.cs:29-32 | An expression's tree ends strictly after its first token and before the end of the list; an error lies at or after it. |
| Grammar.BinaryAt | Parser.cs:35-92 | The same bounds for each binary level. |
| Grammar.Operand | Parser.cs:37 | The same bounds for each level's operand. |
| Grammar.LeftFold | Parser.cs:40-47 | The loop of a level never moves the cursor back or past the last token. |
| Grammar.Unary | Parser.cs:94-104 | The same bounds for `unary`. |
| Grammar.Primary | Parser.cs:106-122 | The same bounds for `primary`. |
| Grammar.Parse | Parser.cs:16-26 | A tree that Parse returns is well shaped, as Shaped defines it. |
| Grammar.ExpressionShaped | Parser.cs:29-32 | Every tree an expression yields is shaped. Every error is "Expect expression." or "Expect ')' after expression.". |
| Grammar.BinaryShaped | Parser.cs:35-92 | A level's tree is shaped and binds at least as tightly as the level; its binary operators come only from the level sets. |
| Grammar.OperandShaped | Parser.cs:37 | A level's operand binds more tightly than the level. |
| Grammar.FoldShaped | Parser.cs:40-45 | The loop of a level keeps its tree shaped and left-leaning: each new node's right child binds more tightly than the level. |
| Grammar.UnaryShaped | Parser.cs:94-104 | A `unary` tree is a chain of `!` and `-` nodes over a primary. |
| Grammar.PrimaryShaped | Parser.cs:106-122 | A `primary` tree is a literal or a parenthesised shaped expression. |
| ParseLaws.PrimaryAtom | Parser.cs:108-112 | `false`, `true` and `nil` become the literals false, true and nil. A NUMBER or STRING token becomes a Literal of its own literal. Each takes one token. |
| ParseLaws.UnaryNesting | Parser.cs:94-104 | k prefix operators in a row give k nested Unary nodes, in source order, around the primary after them. A failing primary fails the whole. |
| ParseLaws.PrefixedDepth | Parser.cs:98-100 | k prefix operators give a Unary path of length exactly k. |
| ParseLaws.LeftAssociative | Parser.cs:35-92 | A literal followed by a chain of one level's operators and literals parses at that level to the left-leaning tree of the chain. |
| ParseLaws.FoldChain | Parser.cs:40-45 | The loop of a level over such a chain builds the left-leaning tree and stops after the chain. |
| ParseLaws.OperandAtom | Parser.cs:103 | A literal followed by a token that no tighter level takes is the whole operand of a level. |
| ParseLaws.ChainLoose | Parser.cs:40-84 | The token that opens a chain is never taken by a tighter level. |
| ParseLaws.Lift | Parser.cs:31-37 | A level's tree, followed by a token that is no operator, is also the tree of every looser level. |
| ParseLaws.ThreeTermsLeanLeft | Parser.cs:66-78 | `a - b - c`, or any three literals joined by two operators of one level, parses to ((a op b) op c). |
| ParseLaws.TighterBindsFirst | Parser.cs:66-92 | When the second operator binds more tightly, it takes b and c first, as in 1 + 2 * 3. |
| ParseLaws.PrimaryErrorRises | Parser.cs:121 | A failing primary, at a token that is no prefix operator, fails every level with the same error. |
| ParseLaws.ExpectExpressionAt | Parser.cs:121 | A token that cannot start an expression, EOF included, gives "Expect expression." at that token. |
| ParseLaws.ExpectClosingParenAt | Parser.cs:114-118 | After `(` and a complete expression, a token other than `)` gives "Expect ')' after expression." at that token. |
| ParseLaws.ExpressionFrame | Parser.cs:29-32 | An expression's outcome depends only on the tokens up to where it stops. |
| ParseLaws.BinaryFrame | Parser.cs:35-92 | The same for each binary level. |
| ParseLaws.OperandFrame | Parser.cs:37 | The same for each level's operand. |
| ParseLaws.FoldFrame | Parser.cs:40-45 | The same for the loop of a level. |
| ParseLaws.UnaryFrame | Parser.cs:94-104 | The same for `unary`. |
| ParseLaws.PrimaryFrame | Parser.cs:106-122 | The same for `primary`. |
| ParseLaws.TrailingTokensIgnored | Parser.cs:16-20 | Parsing need not use up the list: two lists that agree up to where the expression stops parse the same. |
| Parsing.Parser.constructor | Parser.cs:10-13 | A new parser holds the token list, with the cursor on the first token and an empty log. |
| Parsing.Parser.Parse | Parser.cs:16-26 | Returns the expression's tree, or None exactly when a syntax error was reported. Leaves cursor and log as the grammar says. A tree it returns is shaped. |
| Parsing.Parser.Expression | Parser.cs:29-32 | Computes Grammar.Expression: tree, cursor and log. |
| Parsing.Parser.Equality | Parser.cs:35-48 | Computes the equality level: tree, cursor and log. |
| Parsing.Parser.EqualityTail | Parser.cs:40-47 | The loop over `!=` and `==` computes the left fold of the equality level. |
| Parsing.Parser.Comparison | Parser.cs:51-64 | Computes the comparison level: tree, cursor and log. |
| Parsing.Parser.ComparisonTail | Parser.cs:56-63 | The loop over `>`, `>=`, `<` and `<=` computes the left fold of the comparison level. |
| Parsing.Parser.Term | Parser.cs:66-78 | Computes the term level: tree, cursor and log. |
| Parsing.Parser.TermTail | Parser.cs:70-77 | The loop over `-` and `+` computes the left fold of the term level. |
| Parsing.Parser.Factor | Parser.cs:80-92 | Computes the factor level: tree, cursor and log. |
| Parsing.Parser.FactorTail | Parser.cs:84-91 | The loop over `/` and `*` computes the left fold of the factor level. |
| Parsing.Parser.Unary | Parser.cs:94-104 | Computes Grammar.Unary: tree, cursor and log. |
| Parsing.Parser.Primary | Parser.cs:106-122 | Computes Grammar.Primary: tree, cursor and log. |
| Parsing.Parser.Match | Parser.cs:124-134 | Consumes the current token exactly when it is not EOF and its kind is one of those given, and says whether it did. |
| Parsing.Parser.Check | Parser.cs:136-140 | True exactly when the current token has the kind and the kind is not EOF. |
| Parsing.Parser.Advance | Parser.cs:142-146 | Moves past the current token unless it is EOF, and returns the token just before the cursor. |
| Parsing.Parser.IsAtEnd | Parser.cs:148-151 | When the current token is not EOF, there is a later token to move onto. |
| Parsing.Parser.Peek | Parser.cs:153-156 | The current token is one of the list, and on the last one it is EOF. |
| Parsing.Parser.Previous | Parser.cs:158-161 | The token just consumed: the one immediately before the cursor. |
| Parsing.Parser.Consume | Parser.cs:163-168 | Consumes a token of the expected kind, or reports the message at the current token's line, leaves the cursor and returns None. |
| Parsing.Parser.Error | Parser.cs:170-174 | A report appends the token's line and the message to the log. |
| Interpreting.IsTruthy | Interpreter.cs:94-99 | Falsy exactly when nil or false. |
| Interpreting.IsEqual | Interpreter.cs:102-107 | Equal exactly when both are nil, or both have the same type and the same value. |
| Interpreting.UnaryResult | Interpreter.cs:19-34 | `!` negates truthiness. `-` negates a number and faults on any other value. Any other operator gives nil. |
| Interpreting.Numbers | Interpreter.cs:46 | Both operands are cast to numbers, the left first; the first one that is not a number is the fault. |
| Interpreting.BinaryResult | Interpreter.cs:37-71 | On two numbers `>`, `>=`, `<` and `<=` give the comparison, `-` and `*` the difference and product, and `/` the quotient, or the fault NonFinite when the divisor is zero. These operators fault on any other operands. `==` and `!=` are value equality and its negation. `+` adds numbers, joins strings left then right, and gives nil on any other pair. |
| Interpreting.Evaluate | Interpreter.cs:88-91 | A literal is its value and a grouping the value of what it holds. An operator node applies its operator to its operands' values, the left operand evaluated first; the first operand that faults gives the result. |
| Interpreting.VisitLiteral | Interpreter.cs:7-10 | A literal gives its stored value and never faults. |
| Interpreting.VisitGrouping | Interpreter.cs:13-16 | A grouping's outcome is that of the expression inside it. |
| Interpreting.VisitUnary | Interpreter.cs:19-34 | The operand's fault is passed up; otherwise the result is UnaryResult on the operand's value. |
| Interpreting.VisitBinary | Interpreter.cs:37-71 | The left operand's fault comes first, then the right's; otherwise the result is BinaryResult on the two values. |
| Interpreting.LiteralAndGrouping | Interpreter.cs:7-16 | A Literal is its stored value, and a Grouping is the value of what it holds. |
| Interpreting.NotNegatesTruthiness | Interpreter.cs:26-27 | `!e` is the negation of e's truthiness, so `!0` and `!""` are false. |
| Interpreting.NotEqualNegatesEqual | Interpreter.cs:53-56 | `!=` is the negation of `==` on the same operands, and the two fail alike. |
| Interpreting.LeftOperandFirst | Interpreter.cs:39-40 | The left operand is evaluated first: when it fails, its fault is the result, whatever the right operand is. |
| Interpreting.ParsedUnaryHasValue | Interpreter.cs:24-33 | A prefix node built by the parser never reaches the fall-through `return null`. |
| Interpreting.ParsedBinaryNilOnlyFromPlus | Interpreter.cs:43-70 | A binary node built by the parser evaluates to nil exactly when it is `+` on operands that are neither two numbers nor two strings. |
| Interpreting.StripPointZero | Interpreter.cs:117 | A trailing ".0" is removed, and any other text is left as it is. |
| Interpreting.StripUndoesPointZero | Interpreter.cs:117 | Removing the suffix undoes appending ".0"; "3.0" renders "3" and "2.5" stays "2.5". |
| Interpreting.Stringify | Interpreter.cs:110-122 | nil renders "nil", a number as its text without a trailing ".0", a bool as True or False, and a string as itself. |
| Interpreting.MixedPlusIsNil | Interpreter.cs:59-70 | As written, `1 + "a"` evaluates to nil. |
| Interpreting.CheckedBinaryResult | Interpreter.cs:59-62 | `+` succeeds exactly on two numbers or two strings. Every result it gives is the one the source gives, and its only extra fault is OperandsMismatch. |
| Interpreting.EvaluateChecked | Interpreter.cs:37-71 | Every value the checked evaluator gives is the one the evaluator as written gives. |
| Interpreting.CheckedOperatorsNeverNil | Interpreter.cs:69-70 | With mixed `+` reported as a fault, no operator node of a parsed tree evaluates to nil, so the line after each switch is unreachable. |
| Interpreting.CheckedAgrees | Interpreter.cs:37-71 | The checked evaluator and the one as written give the same value wherever the checked one succeeds. It faults wherever the one as written faults, and where only the checked one faults, the fault is OperandsMismatch. |
| Examples.ScanOperatorAndBadCharacter | Scanner.cs:96-131 | "!=@" scans to BANG_EQUAL and EOF, with one "Unexpected character." report. |
| Examples.NumberLexemeValue | Scanner.cs:210 | "12.5" denotes twelve and a half. |
| Examples.FactorBindsTighter | Parser.cs:66-92 | `1 + 2 * 3` parses as 1 + (2 * 3) and evaluates to 7. |
| Examples.SubtractionLeansLeft | Parser.cs:66-78 | `10 - 2 - 3` parses as (10 - 2) - 3 and evaluates to 5. |
| Examples.JoinAndEquality | Interpreter.cs:55-61 | "a" + "b" is "ab", nil == nil is true, and 1 == "1" is false. |

## Left out

- Program.cs is not part of this model. It covers the command line, file and console input, the prompt loop, exit codes and the process-wide error flag. The `Lox.Error` sink becomes the `errors` log of the scanner and the parser.
- `Interpreter.Interpret` is left out: it is console output around `Evaluate`, with a `catch` of `RuntimeError`. `RuntimeError` is never thrown by the code shown, so it has no counterpart.
- `Parser.Synchronize` is left out: no parse path calls it.
- The `TokenType` enumeration is not shown in the source. Its members are modelled as integer constants whose numbering is chosen here. Nothing depends on the numbers beyond the kinds being distinct and TypeName's grouping. `ToString` prints each kind's C# member name.
- The uncaught .NET cast exception of `(double)` on a non-number becomes the explicit fault `NotANumber`.
- Lexical.ParseNumber: a lexeme's value is exact; the source rounds it to the nearest double with `double.Parse`.
- Interpreting.BinaryResult: arithmetic is exact on reals. A division by zero ends with the fault `NonFinite`, where the source gives an IEEE infinity or NaN. The model has no NaN and no infinities at all. In the source `0/0 == 0/0` prints True, because `Equals` on two NaNs is true.
- Lexical.ScanOne: the source is read as a sequence of Unicode characters, while C# indexes UTF-16 code units. A character outside the Basic Multilingual Plane, such as an emoji, gives one "Unexpected character." report here and two in the source, one per surrogate. Inside strings and comments the difference is invisible.
- Interpreting.Stringify: number formatting (`double.ToString`) is a parameter; only the removal of ".0" is modelled.
- Tokens.ToString: the text of a number literal is a parameter, for the same reason.
- Parsing.Parser.constructor: it requires a token list that ends in EOF, as the scanner's output always does and as the only caller passes. Lists whose last token is not EOF are excluded. The source handles such a list whenever the parse stops before its last token, as on `[NUMBER, NUMBER]`. It fails with an index out of range only when the parse advances past a last token that is not EOF, as on `[NUMBER]`.
- `Evaluate` picks the `Visit*` handler with a `match` on the node (Interpreting.Evaluate), not by a call through a visitor object. `Exprs.Accept` models the dispatch itself.
- The loops of `Equality`, `Comparison`, `Term` and `Factor` are separate `…Tail` methods called right after the first operand. The comment, string, number and digit loops of the scanner are separate `Skip…` methods. Each runs the same loop at the same point.

## Findings

| source | as written | input that shows it | evidently intended | confidence | as-written member | corrected member |
|---|---|---|---|---|---|---|
| Interpreter.cs:59-70 | `+` on operands that are not two numbers or two strings leaves the switch and returns null, on the line marked unreachable | `1 + "a"` evaluates to nil | a runtime error for mismatched operands, leaving the line after the switch unreachable | not executed | Interpreting.MixedPlusIsNil | Interpreting.CheckedOperatorsNeverNil |
