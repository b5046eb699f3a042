/** What the recursive descent of grammar.dfy does on particular token shapes:
    literal tokens, runs of prefix operators, chains of one level's operators,
    tokens that cannot start an expression, a missing `)`, and what follows a
    complete expression. */
module ParseLaws {
  import opened Wrappers
  import opened Tokens
  import opened Exprs
  import opened Grammar

  /** A token `primary` turns into a Literal node on its own. */
  predicate IsAtom(t: Token)
  {
    t.tokenType == False || t.tokenType == True || t.tokenType == Tokens.Nil
    || t.tokenType == Number || t.tokenType == String
  }

  /** The value of the Literal node built from such a token. */
  function AtomValue(t: Token): Value
  {
    if t.tokenType == False then Bool(false)
    else if t.tokenType == True then Bool(true)
    else if t.tokenType == Tokens.Nil then Value.Nil
    else LiteralValue(t.literal)
  }

  /** `false`, `true` and `nil` become the literals false, true and nil; a NUMBER
      or STRING token becomes a Literal holding its own literal; each takes one
      token. */
  lemma {:induction false} PrimaryAtom(toks: seq<Token>, pos: nat)
    requires EndsWithEof(toks) && pos < |toks| && IsAtom(toks[pos])
    ensures Primary(toks, pos) == Ok(Parsed(Literal(AtomValue(toks[pos])), pos + 1))
  {
  }

  // ---------------------------------------------------------------------------
  // Prefix operators

  /** `inner` wrapped in the prefix operators toks[pos], ..., toks[pos + k - 1],
      the first one outermost. */
  function Prefixed(toks: seq<Token>, pos: nat, k: nat, inner: Expr): Expr
    requires pos + k <= |toks|
    decreases k
  {
    if k == 0 then inner else Exprs.Unary(toks[pos], Prefixed(toks, pos + 1, k - 1, inner))
  }

  /** The number of prefix nodes on the path from the root to the first other node. */
  function UnaryDepth(e: Expr): nat
  {
    if e.Unary? then 1 + UnaryDepth(e.right) else 0
  }

  lemma {:induction false} PrefixedDepth(toks: seq<Token>, pos: nat, k: nat, inner: Expr)
    requires pos + k <= |toks| && !inner.Unary?
    ensures UnaryDepth(Prefixed(toks, pos, k, inner)) == k
    decreases k
  {
    if k > 0 {
      PrefixedDepth(toks, pos + 1, k - 1, inner);
    }
  }

  /** `unary` is right-recursive: k prefix operators in a row, followed by a token
      that is not one, give k nested Unary nodes, in source order, around whatever
      `primary` parses after them; a failing primary fails the whole. */
  lemma {:induction false} UnaryNesting(toks: seq<Token>, pos: nat, k: nat)
    requires EndsWithEof(toks) && pos + k < |toks|
    requires forall i :: pos <= i < pos + k ==> toks[i].tokenType in UnaryOperators
    requires toks[pos + k].tokenType !in UnaryOperators
    ensures match Primary(toks, pos + k)
      case Err(f) => Grammar.Unary(toks, pos) == Err(f)
      case Ok(p) =>
        && Grammar.Unary(toks, pos) == Ok(Parsed(Prefixed(toks, pos, k, p.expr), p.next))
        && UnaryDepth(Prefixed(toks, pos, k, p.expr)) == k
    decreases k
  {
    match Primary(toks, pos + k)
    case Err(f) =>
      if k > 0 {
        UnaryNesting(toks, pos + 1, k - 1);
      }
    case Ok(p) =>
      PrimaryShaped(toks, pos + k);
      PrefixedDepth(toks, pos, k, p.expr);
      if k > 0 {
        UnaryNesting(toks, pos + 1, k - 1);
      }
  }

  // ---------------------------------------------------------------------------
  // Chains of one level's operators

  /** The kind is not an operator of `lv` or of a level binding more tightly. */
  predicate EndsLevel(t: TokenType, lv: Level)
  {
    LevelOf(t).None? || Rank(LevelOf(t).value) < Rank(lv)
  }

  /** The kind is not an operator of a level binding more tightly than `lv`. */
  predicate Loose(t: TokenType, lv: Level)
  {
    LevelOf(t).None? || Rank(LevelOf(t).value) <= Rank(lv)
  }

  /** From `pos`: n times an operator of `lv` followed by a literal token, then a
      token that ends the level. */
  predicate ChainAt(toks: seq<Token>, pos: nat, lv: Level, n: nat)
    decreases n
  {
    && pos < |toks|
    && if n == 0 then EndsLevel(toks[pos].tokenType, lv)
       else
         && toks[pos].tokenType in Operators(lv)
         && pos + 1 < |toks| && IsAtom(toks[pos + 1])
         && ChainAt(toks, pos + 2, lv, n - 1)
  }

  /** The left-leaning tree of such a chain: each operator's node has everything
      before it as its left child and the one literal after it as its right. */
  function Folded(toks: seq<Token>, pos: nat, lv: Level, n: nat, left: Expr): Expr
    requires pos + 2 * n <= |toks|
    decreases n
  {
    if n == 0 then left
    else Folded(toks, pos + 2, lv, n - 1, Binary(left, toks[pos], Literal(AtomValue(toks[pos + 1]))))
  }

  /** A token kind that does not bind more tightly than `lv` is no operator of a
      tighter level. */
  lemma {:induction false} LooseSkipsTighter(t: TokenType, lv: Level, inner: Level)
    requires Loose(t, lv) && Rank(lv) < Rank(inner)
    ensures t !in Operators(inner)
  {
  }

  /** A literal token is a whole `unary`. */
  lemma {:induction false} UnaryAtom(toks: seq<Token>, pos: nat)
    requires EndsWithEof(toks) && pos < |toks| && IsAtom(toks[pos])
    ensures Grammar.Unary(toks, pos) == Ok(Parsed(Literal(AtomValue(toks[pos])), pos + 1))
  {
    PrimaryAtom(toks, pos);
  }

  /** A level's rule is its loop started on the tree of its first operand. */
  lemma {:induction false} BinaryOfOperand(toks: seq<Token>, pos: nat, lv: Level, p: Parsed)
    requires EndsWithEof(toks) && pos < |toks| && Operand(toks, pos, lv) == Ok(p)
    ensures BinaryAt(toks, pos, lv) == LeftFold(toks, lv, p.expr, p.next)
  {
  }

  /** The loop of a level stops at a token that is not one of its operators. */
  lemma {:induction false} FoldStops(toks: seq<Token>, lv: Level, left: Expr, pos: nat)
    requires EndsWithEof(toks) && pos < |toks| && toks[pos].tokenType !in Operators(lv)
    ensures LeftFold(toks, lv, left, pos) == Ok(Parsed(left, pos))
  {
  }

  /** One turn of the loop of a level: an operator and the operand after it. */
  lemma {:induction false} FoldStep(toks: seq<Token>, lv: Level, left: Expr, pos: nat, p: Parsed)
    requires EndsWithEof(toks) && pos + 1 < |toks| && toks[pos].tokenType in Operators(lv)
    requires Operand(toks, pos + 1, lv) == Ok(p)
    ensures LeftFold(toks, lv, left, pos) == LeftFold(toks, lv, Binary(left, toks[pos], p.expr), p.next)
  {
  }

  /** A literal token followed by a token that no tighter level takes is the whole
      operand of `lv`. */
  lemma {:induction false} OperandAtom(toks: seq<Token>, pos: nat, lv: Level)
    requires EndsWithEof(toks) && pos + 1 < |toks|
    requires IsAtom(toks[pos]) && Loose(toks[pos + 1].tokenType, lv)
    ensures Operand(toks, pos, lv) == Ok(Parsed(Literal(AtomValue(toks[pos])), pos + 1))
    decreases 4 - Rank(lv)
  {
    if lv == Factor {
      UnaryAtom(toks, pos);
    } else {
      var inner := Tighter(lv);
      var lit := Parsed(Literal(AtomValue(toks[pos])), pos + 1);
      OperandAtom(toks, pos, inner);
      BinaryOfOperand(toks, pos, inner, lit);
      LooseSkipsTighter(toks[pos + 1].tokenType, lv, inner);
      FoldStops(toks, inner, lit.expr, pos + 1);
    }
  }

  /** The first turn of the loop over a chain: its operator and literal. */
  lemma {:induction false} FoldChainStep(toks: seq<Token>, lv: Level, left: Expr, pos: nat, n: nat)
    requires EndsWithEof(toks) && 0 < n && ChainAt(toks, pos, lv, n)
    ensures pos + 2 < |toks| && ChainAt(toks, pos + 2, lv, n - 1)
    ensures LeftFold(toks, lv, left, pos)
      == LeftFold(toks, lv, Binary(left, toks[pos], Literal(AtomValue(toks[pos + 1]))), pos + 2)
  {
    ChainLoose(toks, pos + 2, lv, n - 1);
    OperandAtom(toks, pos + 1, lv);
    FoldStep(toks, lv, left, pos, Parsed(Literal(AtomValue(toks[pos + 1])), pos + 2));
  }

  lemma {:induction false} FoldedStep(toks: seq<Token>, pos: nat, lv: Level, n: nat, left: Expr)
    requires 0 < n && pos + 2 * n <= |toks|
    ensures Folded(toks, pos, lv, n, left)
      == Folded(toks, pos + 2, lv, n - 1, Binary(left, toks[pos], Literal(AtomValue(toks[pos + 1]))))
  {
  }

  lemma {:induction false} FoldChain(toks: seq<Token>, lv: Level, left: Expr, pos: nat, n: nat)
    requires EndsWithEof(toks) && ChainAt(toks, pos, lv, n)
    ensures pos + 2 * n < |toks|
    ensures LeftFold(toks, lv, left, pos) == Ok(Parsed(Folded(toks, pos, lv, n, left), pos + 2 * n))
    decreases n
  {
    if n == 0 {
      FoldStops(toks, lv, left, pos);
    } else {
      var node := Binary(left, toks[pos], Literal(AtomValue(toks[pos + 1])));
      FoldChainStep(toks, lv, left, pos, n);
      FoldChain(toks, lv, node, pos + 2, n - 1);
      FoldedStep(toks, pos, lv, n, left);
    }
  }

  /** The token that opens a chain is never taken by a tighter level. */
  lemma {:induction false} ChainLoose(toks: seq<Token>, pos: nat, lv: Level, n: nat)
    requires ChainAt(toks, pos, lv, n)
    ensures Loose(toks[pos].tokenType, lv)
  {
    if n > 0 {
      assert toks[pos].tokenType in Operators(lv);
    }
  }

  /** Left association: a literal followed by a chain of one level's operators and
      literals parses at that level to the left-leaning tree of the chain. */
  lemma {:induction false} LeftAssociative(toks: seq<Token>, pos: nat, lv: Level, n: nat)
    requires EndsWithEof(toks) && pos < |toks| && IsAtom(toks[pos]) && ChainAt(toks, pos + 1, lv, n)
    ensures pos + 1 + 2 * n < |toks|
    ensures BinaryAt(toks, pos, lv)
      == Ok(Parsed(Folded(toks, pos + 1, lv, n, Literal(AtomValue(toks[pos]))), pos + 1 + 2 * n))
  {
    var first := Parsed(Literal(AtomValue(toks[pos])), pos + 1);
    ChainLoose(toks, pos + 1, lv, n);
    OperandAtom(toks, pos, lv);
    BinaryOfOperand(toks, pos, lv, first);
    FoldChain(toks, lv, first.expr, pos + 1, n);
  }

  /** A level's tree followed by a token that is no operator is also the tree of
      every looser level. */
  lemma {:induction false} Lift(toks: seq<Token>, pos: nat, lv: Level, outer: Level)
    requires EndsWithEof(toks) && pos < |toks| && Rank(outer) <= Rank(lv)
    requires BinaryAt(toks, pos, lv).Ok?
    requires LevelOf(toks[BinaryAt(toks, pos, lv).value.next].tokenType).None?
    ensures BinaryAt(toks, pos, outer) == BinaryAt(toks, pos, lv)
    decreases Rank(lv) - Rank(outer)
  {
    if outer != lv {
      Lift(toks, pos, lv, Tighter(outer));
    }
  }

  /** `a - b - c`, or any three literals joined by two operators of one level and
      followed by EOF, parses to ((a op b) op c). */
  lemma {:induction false} ThreeTermsLeanLeft(a: Token, op1: Token, b: Token, op2: Token, c: Token, eof: Token, lv: Level)
    requires IsAtom(a) && IsAtom(b) && IsAtom(c) && eof.tokenType == Eof
    requires op1.tokenType in Operators(lv) && op2.tokenType in Operators(lv)
    ensures Expression([a, op1, b, op2, c, eof], 0)
      == Ok(Parsed(Binary(Binary(Literal(AtomValue(a)), op1, Literal(AtomValue(b))), op2, Literal(AtomValue(c))), 5))
  {
    var toks := [a, op1, b, op2, c, eof];
    assert ChainAt(toks, 5, lv, 0);
    assert ChainAt(toks, 3, lv, 1);
    assert ChainAt(toks, 1, lv, 2);
    LeftAssociative(toks, 0, lv, 2);
    Lift(toks, 0, lv, Equality);
  }

  /** `a op1 b op2 c` where op2 binds more tightly than op1: the tighter operator
      takes b and c first, as in 1 + 2 * 3. */
  lemma {:induction false} TighterBindsFirst(a: Token, op1: Token, b: Token, op2: Token, c: Token, eof: Token, lv1: Level, lv2: Level)
    requires IsAtom(a) && IsAtom(b) && IsAtom(c) && eof.tokenType == Eof
    requires op1.tokenType in Operators(lv1) && op2.tokenType in Operators(lv2) && Rank(lv1) < Rank(lv2)
    ensures Expression([a, op1, b, op2, c, eof], 0)
      == Ok(Parsed(Binary(Literal(AtomValue(a)), op1, Binary(Literal(AtomValue(b)), op2, Literal(AtomValue(c)))), 5))
  {
    var toks := [a, op1, b, op2, c, eof];
    var right := Binary(Literal(AtomValue(b)), op2, Literal(AtomValue(c)));
    assert ChainAt(toks, 5, lv2, 0);
    assert ChainAt(toks, 3, lv2, 1);
    LeftAssociative(toks, 2, lv2, 1);
    Lift(toks, 2, lv2, Tighter(lv1));
    assert Operand(toks, 2, lv1) == Ok(Parsed(right, 5));
    assert LevelOf(op1.tokenType) == Some(lv1);
    OperandAtom(toks, 0, lv1);
    assert LeftFold(toks, lv1, Binary(Literal(AtomValue(a)), op1, right), 5)
      == Ok(Parsed(Binary(Literal(AtomValue(a)), op1, right), 5));
    assert BinaryAt(toks, 0, lv1) == Ok(Parsed(Binary(Literal(AtomValue(a)), op1, right), 5));
    Lift(toks, 0, lv1, Equality);
  }

  // ---------------------------------------------------------------------------
  // Syntax errors

  /** The kinds an expression can start with. */
  const Starters: set<TokenType> := {Bang, Minus, False, True, Tokens.Nil, Number, String, LeftParen}

  /** A failing `primary` at a token that is not a prefix operator fails every
      level with the same error. */
  lemma {:induction false} PrimaryErrorRises(toks: seq<Token>, pos: nat, lv: Level)
    requires EndsWithEof(toks) && pos < |toks|
    requires toks[pos].tokenType !in UnaryOperators && Primary(toks, pos).Err?
    ensures Operand(toks, pos, lv) == Primary(toks, pos)
    ensures BinaryAt(toks, pos, lv) == Primary(toks, pos)
    decreases 4 - Rank(lv)
  {
    if lv != Factor {
      PrimaryErrorRises(toks, pos, Tighter(lv));
    }
  }

  /** A token that cannot start an expression (EOF among them) is reported as
      "Expect expression." at that token, and the parse fails. */
  lemma {:induction false} ExpectExpressionAt(toks: seq<Token>, pos: nat)
    requires EndsWithEof(toks) && pos < |toks| && toks[pos].tokenType !in Starters
    ensures Expression(toks, pos) == Err(Failure(pos, ExpectExpression))
  {
    PrimaryErrorRises(toks, pos, Equality);
  }

  /** After `(` and a complete expression, a token other than `)` is reported as
      "Expect ')' after expression." at that token, and the parse fails. */
  lemma {:induction false} ExpectClosingParenAt(toks: seq<Token>, pos: nat)
    requires EndsWithEof(toks) && pos < |toks| && toks[pos].tokenType == LeftParen
    requires Expression(toks, pos + 1).Ok?
    requires toks[Expression(toks, pos + 1).value.next].tokenType != RightParen
    ensures Expression(toks, pos) == Err(Failure(Expression(toks, pos + 1).value.next, ExpectClosingParen))
  {
    PrimaryErrorRises(toks, pos, Equality);
  }

  // ---------------------------------------------------------------------------
  // Tokens after a complete expression

  /** Two token lists hold the same tokens from `lo` through `hi`. */
  predicate Agree(a: seq<Token>, b: seq<Token>, lo: nat, hi: nat)
  {
    hi < |a| && hi < |b| && forall i :: lo <= i <= hi ==> a[i] == b[i]
  }

  /** A rule looks at no token beyond the one where it stops: any list that agrees
      up to there gives the same outcome. */
  lemma {:induction false} ExpressionFrame(a: seq<Token>, b: seq<Token>, pos: nat)
    requires EndsWithEof(a) && EndsWithEof(b) && pos < |a|
    requires Agree(a, b, pos, CursorOf(Expression(a, pos)))
    ensures Expression(b, pos) == Expression(a, pos)
    decreases |a| - pos, 12
  {
    BinaryFrame(a, b, pos, Equality);
  }

  lemma {:induction false} BinaryFrame(a: seq<Token>, b: seq<Token>, pos: nat, lv: Level)
    requires EndsWithEof(a) && EndsWithEof(b) && pos < |a|
    requires Agree(a, b, pos, CursorOf(BinaryAt(a, pos, lv)))
    ensures BinaryAt(b, pos, lv) == BinaryAt(a, pos, lv)
    decreases |a| - pos, 11 - 2 * Rank(lv)
  {
    match Operand(a, pos, lv)
    case Err(_) =>
      OperandFrame(a, b, pos, lv);
    case Ok(p) =>
      var whole := LeftFold(a, lv, p.expr, p.next);
      assert Agree(a, b, pos, p.next);
      OperandFrame(a, b, pos, lv);
      FoldFrame(a, b, lv, p.expr, p.next);
  }

  lemma {:induction false} OperandFrame(a: seq<Token>, b: seq<Token>, pos: nat, lv: Level)
    requires EndsWithEof(a) && EndsWithEof(b) && pos < |a|
    requires Agree(a, b, pos, CursorOf(Operand(a, pos, lv)))
    ensures Operand(b, pos, lv) == Operand(a, pos, lv)
    decreases |a| - pos, 10 - 2 * Rank(lv)
  {
    if lv == Factor {
      UnaryFrame(a, b, pos);
    } else {
      BinaryFrame(a, b, pos, Tighter(lv));
    }
  }

  lemma {:induction false} FoldFrame(a: seq<Token>, b: seq<Token>, lv: Level, left: Expr, pos: nat)
    requires EndsWithEof(a) && EndsWithEof(b) && pos < |a|
    requires Agree(a, b, pos, CursorOf(LeftFold(a, lv, left, pos)))
    ensures LeftFold(b, lv, left, pos) == LeftFold(a, lv, left, pos)
    decreases |a| - pos, 11 - 2 * Rank(lv)
  {
    assert a[pos] == b[pos];
    if Matches(a, pos, Operators(lv)) {
      match Operand(a, pos + 1, lv)
      case Err(_) =>
        OperandFrame(a, b, pos + 1, lv);
      case Ok(p) =>
        assert Agree(a, b, pos + 1, p.next);
        OperandFrame(a, b, pos + 1, lv);
        FoldFrame(a, b, lv, Binary(left, a[pos], p.expr), p.next);
    }
  }

  lemma {:induction false} UnaryFrame(a: seq<Token>, b: seq<Token>, pos: nat)
    requires EndsWithEof(a) && EndsWithEof(b) && pos < |a|
    requires Agree(a, b, pos, CursorOf(Grammar.Unary(a, pos)))
    ensures Grammar.Unary(b, pos) == Grammar.Unary(a, pos)
    decreases |a| - pos, 1
  {
    assert a[pos] == b[pos];
    if Matches(a, pos, UnaryOperators) {
      UnaryFrame(a, b, pos + 1);
    } else {
      PrimaryFrame(a, b, pos);
    }
  }

  lemma {:induction false} PrimaryFrame(a: seq<Token>, b: seq<Token>, pos: nat)
    requires EndsWithEof(a) && EndsWithEof(b) && pos < |a|
    requires Agree(a, b, pos, CursorOf(Primary(a, pos)))
    ensures Primary(b, pos) == Primary(a, pos)
    decreases |a| - pos, 0
  {
    assert a[pos] == b[pos];
    if Check(a, pos, LeftParen) {
      match Expression(a, pos + 1)
      case Err(_) =>
        ExpressionFrame(a, b, pos + 1);
      case Ok(p) =>
        assert Agree(a, b, pos + 1, p.next);
        ExpressionFrame(a, b, pos + 1);
        assert a[p.next] == b[p.next];
    }
  }

  /** Parsing does not have to use up the list: whatever follows the token where
      the expression ends has no effect on the result. */
  lemma {:induction false} TrailingTokensIgnored(a: seq<Token>, b: seq<Token>)
    requires EndsWithEof(a) && EndsWithEof(b)
    requires Agree(a, b, 0, CursorOf(Expression(a, 0)))
    ensures Parse(b) == Parse(a)
  {
    ExpressionFrame(a, b, 0);
  }
}
