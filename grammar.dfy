/** The recursive descent of Parser.cs written as functions of a token list and a
    position. Each rule gives back the tree and the position after it, or the
    position and message of the syntax error that stops the parse. The class in
    parsing.dfy is proved to compute exactly these results. */
module Grammar {
  import opened Wrappers
  import opened Tokens
  import opened Exprs

  /** A token list the parser can walk: it ends with EOF, as the scanner's output
      always does. */
  predicate EndsWithEof(toks: seq<Token>)
  {
    |toks| > 0 && toks[|toks| - 1].tokenType == Eof
  }

  /** A successful rule: the tree and the index of the first token after it. */
  datatype Parsed = Parsed(expr: Expr, next: nat)

  /** A syntax error: the index of the offending token and the message. */
  datatype Failure = Failure(at: nat, message: string)

  type Outcome = Result<Parsed, Failure>

  /** The four binary precedence levels, loosest first. */
  datatype Level = Equality | Comparison | Term | Factor

  /** The operator kinds each level's loop matches, in the order it lists them. */
  function Operators(lv: Level): (ops: set<TokenType>)
    ensures |ops| >= 2 && Eof !in ops
  {
    match lv
    case Equality => {BangEqual, EqualEqual}
    case Comparison => {Greater, GreaterEqual, Less, LessEqual}
    case Term => {Minus, Plus}
    case Factor => {Slash, Star}
  }

  /** How tightly a level binds: 1 for equality up to 4 for factor. */
  function Rank(lv: Level): nat
  {
    match lv
    case Equality => 1
    case Comparison => 2
    case Term => 3
    case Factor => 4
  }

  /** The next tighter level; factor's operands are unary expressions instead. */
  function Tighter(lv: Level): Level
    requires lv != Factor
  {
    match lv
    case Equality => Comparison
    case Comparison => Term
    case Term => Factor
  }

  /** The level whose loop matches a token kind, if any. */
  function LevelOf(t: TokenType): (r: Option<Level>)
    ensures r.Some? ==> t in Operators(r.value)
    ensures forall lv: Level :: t in Operators(lv) ==> r == Some(lv)
  {
    if t in Operators(Equality) then Some(Equality)
    else if t in Operators(Comparison) then Some(Comparison)
    else if t in Operators(Term) then Some(Term)
    else if t in Operators(Factor) then Some(Factor)
    else None
  }

  /** The prefix operators `unary` accepts. */
  const UnaryOperators: set<TokenType> := {Bang, Minus}

  // ---------------------------------------------------------------------------
  // Cursor primitives

  /** The parser stands on EOF. */
  predicate AtEnd(toks: seq<Token>, pos: nat)
    requires pos < |toks|
  {
    toks[pos].tokenType == Eof
  }

  /** `Check`: the current token has the kind, and the parser is not on EOF. */
  predicate Check(toks: seq<Token>, pos: nat, t: TokenType)
    requires pos < |toks|
  {
    !AtEnd(toks, pos) && toks[pos].tokenType == t
  }

  /** `Match`: some kind in the list passes `Check` at the current token. */
  predicate Matches(toks: seq<Token>, pos: nat, types: set<TokenType>)
    requires pos < |toks|
  {
    !AtEnd(toks, pos) && toks[pos].tokenType in types
  }

  /** The value a Literal node built from a NUMBER or STRING token holds: the
      token's literal, or nil when the slot is empty. */
  function LiteralValue(literal: Option<TokenLiteral>): (v: Value)
    ensures literal.None? <==> v.Nil?
    ensures literal.Some? && literal.value.NumberLiteral? ==> v == Num(literal.value.number)
    ensures literal.Some? && literal.value.StringLiteral? ==> v == Str(literal.value.text)
  {
    match literal
    case None => Value.Nil
    case Some(NumberLiteral(n)) => Num(n)
    case Some(StringLiteral(s)) => Str(s)
  }

  /** What a finished rule reports: the tree, or nothing while an error unwinds. */
  function TreeOf(r: Outcome): (e: Option<Expr>)
    ensures e.Some? <==> r.Ok?
  {
    match r
    case Ok(p) => Some(p.expr)
    case Err(_) => None
  }

  /** Where the cursor is left: after the tree, or on the offending token. */
  function CursorOf(r: Outcome): nat
  {
    match r
    case Ok(p) => p.next
    case Err(f) => f.at
  }

  /** The error log after a rule: unchanged when it succeeds, one more report, for
      the token where it failed, when it does not. */
  function Logged(log: seq<Diagnostic>, toks: seq<Token>, r: Outcome): (after: seq<Diagnostic>)
    requires r.Err? ==> r.error.at < |toks|
    ensures r.Ok? ==> after == log
    ensures r.Err? ==> after == log + [Diagnostic(toks[r.error.at].line, r.error.message)]
  {
    match r
    case Ok(_) => log
    case Err(f) => log + [Diagnostic(toks[f.at].line, f.message)]
  }

  /** A rule's outcome keeps the cursor inside the list and never moves it back:
      a tree ends strictly after `pos`, an error is found at or after it. */
  predicate Within(toks: seq<Token>, pos: nat, r: Outcome)
  {
    match r
    case Ok(p) => pos < p.next < |toks|
    case Err(f) => pos <= f.at < |toks|
  }

  // ---------------------------------------------------------------------------
  // Tree shape

  /** How tightly a node binds: the rank of a binary node's level, 5 for a
      prefix operator and 6 for a literal or a parenthesised expression. */
  function Prec(e: Expr): nat
  {
    match e
    case Binary(_, op, _) => if LevelOf(op.tokenType).Some? then Rank(LevelOf(op.tokenType).value) else 0
    case Unary(_, _) => 5
    case Grouping(_) => 6
    case Literal(_) => 6
  }

  /** The trees the grammar builds. A binary node's operator belongs to a level;
      its left operand binds at least as tightly as the node (left association)
      and its right operand strictly more tightly. A prefix node's operator is `!`
      or `-` and its operand is a prefix node or an atom. */
  predicate Shaped(e: Expr)
  {
    match e
    case Binary(l, op, r) =>
      && LevelOf(op.tokenType).Some?
      && Shaped(l) && Shaped(r)
      && Prec(l) >= Prec(e) && Prec(r) > Prec(e)
    case Unary(op, r) => op.tokenType in UnaryOperators && Shaped(r) && Prec(r) >= 5
    case Grouping(x) => Shaped(x)
    case Literal(_) => true
  }

  /** The two syntax errors the parser reports. */
  const ExpectExpression: string := "Expect expression."
  const ExpectClosingParen: string := "Expect ')' after expression."

  /** A rule's tree, when there is one, is shaped and binds at least as tightly as
      `min`; its error, when there is one, is one of the two syntax errors. */
  predicate Yields(r: Outcome, min: nat)
  {
    && (r.Ok? ==> Shaped(r.value.expr) && Prec(r.value.expr) >= min)
    && (r.Err? ==> r.error.message == ExpectExpression || r.error.message == ExpectClosingParen)
  }

  // ---------------------------------------------------------------------------
  // The rules. The measure is the number of tokens left, then the rule's depth in
  // the chain expression > equality > ... > factor > unary > primary.

  /** `expression`: an equality. */
  function Expression(toks: seq<Token>, pos: nat): (r: Outcome)
    requires EndsWithEof(toks) && pos < |toks|
    ensures Within(toks, pos, r)
    decreases |toks| - pos, 12
  {
    BinaryAt(toks, pos, Equality)
  }

  /** `equality`, `comparison`, `term` and `factor`: one operand, then the loop. */
  function BinaryAt(toks: seq<Token>, pos: nat, lv: Level): (r: Outcome)
    requires EndsWithEof(toks) && pos < |toks|
    ensures Within(toks, pos, r)
    decreases |toks| - pos, 11 - 2 * Rank(lv)
  {
    match Operand(toks, pos, lv)
    case Err(f) => Err(f)
    case Ok(p) => LeftFold(toks, lv, p.expr, p.next)
  }

  /** The operand of a level: the next tighter level, or `unary` below factor. */
  function Operand(toks: seq<Token>, pos: nat, lv: Level): (r: Outcome)
    requires EndsWithEof(toks) && pos < |toks|
    ensures Within(toks, pos, r)
    decreases |toks| - pos, 10 - 2 * Rank(lv)
  {
    if lv == Factor then Unary(toks, pos) else BinaryAt(toks, pos, Tighter(lv))
  }

  /** The loop of a level with `left` built so far: while the current token is one
      of the level's operators, consume it, parse an operand and make both the
      children of a new binary node. */
  function LeftFold(toks: seq<Token>, lv: Level, left: Expr, pos: nat): (r: Outcome)
    requires EndsWithEof(toks) && pos < |toks|
    ensures r.Ok? ==> pos <= r.value.next < |toks|
    ensures r.Err? ==> pos <= r.error.at < |toks|
    decreases |toks| - pos, 11 - 2 * Rank(lv)
  {
    if !Matches(toks, pos, Operators(lv)) then Ok(Parsed(left, pos))
    else
      match Operand(toks, pos + 1, lv)
      case Err(f) => Err(f)
      case Ok(p) => LeftFold(toks, lv, Binary(left, toks[pos], p.expr), p.next)
  }

  /** `unary`: a prefix operator and, recursively, its operand; else a primary. */
  function Unary(toks: seq<Token>, pos: nat): (r: Outcome)
    requires EndsWithEof(toks) && pos < |toks|
    ensures Within(toks, pos, r)
    decreases |toks| - pos, 1
  {
    if Matches(toks, pos, UnaryOperators) then
      match Unary(toks, pos + 1)
      case Err(f) => Err(f)
      case Ok(p) => Ok(Parsed(Exprs.Unary(toks[pos], p.expr), p.next))
    else Primary(toks, pos)
  }

  /** `primary`: a literal keyword, a NUMBER or STRING token, or a parenthesised
      expression closed by `)`; anything else is "Expect expression." at the
      current token. */
  function Primary(toks: seq<Token>, pos: nat): (r: Outcome)
    requires EndsWithEof(toks) && pos < |toks|
    ensures Within(toks, pos, r)
    decreases |toks| - pos, 0
  {
    if Check(toks, pos, False) then Ok(Parsed(Literal(Bool(false)), pos + 1))
    else if Check(toks, pos, True) then Ok(Parsed(Literal(Bool(true)), pos + 1))
    else if Check(toks, pos, Tokens.Nil) then Ok(Parsed(Literal(Value.Nil), pos + 1))
    else if Matches(toks, pos, {Number, String}) then
      Ok(Parsed(Literal(LiteralValue(toks[pos].literal)), pos + 1))
    else if Check(toks, pos, LeftParen) then
      match Expression(toks, pos + 1)
      case Err(f) => Err(f)
      case Ok(p) =>
        if Check(toks, p.next, RightParen) then Ok(Parsed(Grouping(p.expr), p.next + 1))
        else Err(Failure(p.next, ExpectClosingParen))
    else Err(Failure(pos, ExpectExpression))
  }

  /** `parse`: the expression from the first token, or nothing on a syntax error. */
  function Parse(toks: seq<Token>): (e: Option<Expr>)
    requires EndsWithEof(toks)
    ensures e.Some? ==> Shaped(e.value)
  {
    ExpressionShaped(toks, 0);
    TreeOf(Expression(toks, 0))
  }

  // ---------------------------------------------------------------------------
  // Every tree the rules build is shaped and every error they raise is one of the
  // two, by induction along the rules.

  lemma {:induction false} ExpressionShaped(toks: seq<Token>, pos: nat)
    requires EndsWithEof(toks) && pos < |toks|
    ensures Yields(Expression(toks, pos), 0)
    decreases |toks| - pos, 12
  {
    BinaryShaped(toks, pos, Equality);
  }

  lemma {:induction false} BinaryShaped(toks: seq<Token>, pos: nat, lv: Level)
    requires EndsWithEof(toks) && pos < |toks|
    ensures Yields(BinaryAt(toks, pos, lv), Rank(lv))
    decreases |toks| - pos, 11 - 2 * Rank(lv)
  {
    OperandShaped(toks, pos, lv);
    match Operand(toks, pos, lv)
    case Err(_) =>
    case Ok(p) => FoldShaped(toks, lv, p.expr, p.next);
  }

  lemma {:induction false} OperandShaped(toks: seq<Token>, pos: nat, lv: Level)
    requires EndsWithEof(toks) && pos < |toks|
    ensures Yields(Operand(toks, pos, lv), Rank(lv) + 1)
    decreases |toks| - pos, 10 - 2 * Rank(lv)
  {
    if lv == Factor {
      UnaryShaped(toks, pos);
    } else {
      BinaryShaped(toks, pos, Tighter(lv));
    }
  }

  /** The loop of a level keeps the tree it has built shaped: each new node's
      left child is the old tree and its right child an operand that binds more
      tightly than the level. */
  lemma {:induction false} FoldShaped(toks: seq<Token>, lv: Level, left: Expr, pos: nat)
    requires EndsWithEof(toks) && pos < |toks|
    requires Shaped(left) && Prec(left) >= Rank(lv)
    ensures Yields(LeftFold(toks, lv, left, pos), Rank(lv))
    decreases |toks| - pos, 11 - 2 * Rank(lv)
  {
    if Matches(toks, pos, Operators(lv)) {
      OperandShaped(toks, pos + 1, lv);
      match Operand(toks, pos + 1, lv)
      case Err(_) =>
      case Ok(p) =>
        var node := Binary(left, toks[pos], p.expr);
        assert Prec(node) == Rank(lv);
        FoldShaped(toks, lv, node, p.next);
    }
  }

  lemma {:induction false} UnaryShaped(toks: seq<Token>, pos: nat)
    requires EndsWithEof(toks) && pos < |toks|
    ensures Yields(Unary(toks, pos), 5)
    decreases |toks| - pos, 1
  {
    if Matches(toks, pos, UnaryOperators) {
      UnaryShaped(toks, pos + 1);
    } else {
      PrimaryShaped(toks, pos);
    }
  }

  lemma {:induction false} PrimaryShaped(toks: seq<Token>, pos: nat)
    requires EndsWithEof(toks) && pos < |toks|
    ensures Yields(Primary(toks, pos), 6)
    decreases |toks| - pos, 0
  {
    if !Check(toks, pos, False) && !Check(toks, pos, True) && !Check(toks, pos, Tokens.Nil)
      && !Matches(toks, pos, {Number, String}) && Check(toks, pos, LeftParen)
    {
      ExpressionShaped(toks, pos + 1);
    }
  }
}
