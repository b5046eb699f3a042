/** The parser of Parser.cs: an object holding the token list and a cursor that
    every rule moves forward. Each rule is a method proved to produce the result
    of the matching rule in grammar.dfy, to leave the cursor where that rule says
    and to add to the error log exactly the one report of a failing rule. A syntax
    error unwinds as `None` up to `Parse`, which gives back `None` as the source
    gives back null. */
module Parsing {
  import opened Wrappers
  import opened Tokens
  import opened Exprs
  import Grammar

  class Parser {
    const tokens: seq<Token>
    var current: nat
    /** The reports made through the error sink, oldest first. */
    var errors: seq<Diagnostic>

    /** The cursor stands on a token of the list. */
    ghost predicate Valid()
      reads this
    {
      current < |tokens|
    }

    constructor(tokens: seq<Token>)
      requires Grammar.EndsWithEof(tokens)
      ensures Valid() && this.tokens == tokens && current == 0 && errors == []
    {
      this.tokens := tokens;
      current := 0;
      errors := [];
    }

    /** The whole parse: the tree of one expression starting at the cursor, or
        `None` when a syntax error was reported on the way. */
    method Parse() returns (e: Option<Expr>)
      requires Valid() && Grammar.EndsWithEof(tokens)
      modifies this`current, this`errors
      ensures Valid()
      ensures var r := Grammar.Expression(tokens, old(current));
        e == Grammar.TreeOf(r) && current == Grammar.CursorOf(r)
        && errors == Grammar.Logged(old(errors), tokens, r)
      ensures e.Some? ==> Grammar.Shaped(e.value)
    {
      Grammar.ExpressionShaped(tokens, current);
      e := Expression();
    }

    method Expression() returns (e: Option<Expr>)
      requires Valid() && Grammar.EndsWithEof(tokens)
      modifies this`current, this`errors
      ensures Valid()
      ensures var r := Grammar.Expression(tokens, old(current));
        e == Grammar.TreeOf(r) && current == Grammar.CursorOf(r)
        && errors == Grammar.Logged(old(errors), tokens, r)
      decreases |tokens| - current, 12
    {
      e := Equality();
    }

    method Equality() returns (e: Option<Expr>)
      requires Valid() && Grammar.EndsWithEof(tokens)
      modifies this`current, this`errors
      ensures Valid()
      ensures var r := Grammar.BinaryAt(tokens, old(current), Grammar.Equality);
        e == Grammar.TreeOf(r) && current == Grammar.CursorOf(r)
        && errors == Grammar.Logged(old(errors), tokens, r)
      decreases |tokens| - current, 9
    {
      var left := Comparison();
      if left.None? {
        return None;
      }
      e := EqualityTail(left.value);
    }

    /** The repetition that follows the first operand of the equality level:
        while one of its operators comes next, read another operand and
        combine to the left. */
    method EqualityTail(left: Expr) returns (e: Option<Expr>)
      requires Valid() && Grammar.EndsWithEof(tokens)
      modifies this`current, this`errors
      ensures Valid()
      ensures var r := Grammar.LeftFold(tokens, Grammar.Equality, left, old(current));
        e == Grammar.TreeOf(r) && current == Grammar.CursorOf(r)
        && errors == Grammar.Logged(old(errors), tokens, r)
      decreases |tokens| - current, 8
    {
      var expr := left;
      while true
        invariant Valid() && errors == old(errors)
        invariant Grammar.LeftFold(tokens, Grammar.Equality, expr, current)
          == Grammar.LeftFold(tokens, Grammar.Equality, left, old(current))
        decreases |tokens| - current
      {
        var matched := Match([BangEqual, EqualEqual]);
        if !matched {
          break;
        }
        var operator := Previous();
        var right := Comparison();
        if right.None? {
          return None;
        }
        expr := Binary(expr, operator, right.value);
      }
      return Some(expr);
    }

    method Comparison() returns (e: Option<Expr>)
      requires Valid() && Grammar.EndsWithEof(tokens)
      modifies this`current, this`errors
      ensures Valid()
      ensures var r := Grammar.BinaryAt(tokens, old(current), Grammar.Comparison);
        e == Grammar.TreeOf(r) && current == Grammar.CursorOf(r)
        && errors == Grammar.Logged(old(errors), tokens, r)
      decreases |tokens| - current, 7
    {
      var left := Term();
      if left.None? {
        return None;
      }
      e := ComparisonTail(left.value);
    }

    /** The repetition that follows the first operand of the comparison level:
        while one of its operators comes next, read another operand and
        combine to the left. */
    method ComparisonTail(left: Expr) returns (e: Option<Expr>)
      requires Valid() && Grammar.EndsWithEof(tokens)
      modifies this`current, this`errors
      ensures Valid()
      ensures var r := Grammar.LeftFold(tokens, Grammar.Comparison, left, old(current));
        e == Grammar.TreeOf(r) && current == Grammar.CursorOf(r)
        && errors == Grammar.Logged(old(errors), tokens, r)
      decreases |tokens| - current, 6
    {
      var expr := left;
      while true
        invariant Valid() && errors == old(errors)
        invariant Grammar.LeftFold(tokens, Grammar.Comparison, expr, current)
          == Grammar.LeftFold(tokens, Grammar.Comparison, left, old(current))
        decreases |tokens| - current
      {
        var matched := Match([Greater, GreaterEqual, Less, LessEqual]);
        if !matched {
          break;
        }
        var operator := Previous();
        var right := Term();
        if right.None? {
          return None;
        }
        expr := Binary(expr, operator, right.value);
      }
      return Some(expr);
    }

    method Term() returns (e: Option<Expr>)
      requires Valid() && Grammar.EndsWithEof(tokens)
      modifies this`current, this`errors
      ensures Valid()
      ensures var r := Grammar.BinaryAt(tokens, old(current), Grammar.Term);
        e == Grammar.TreeOf(r) && current == Grammar.CursorOf(r)
        && errors == Grammar.Logged(old(errors), tokens, r)
      decreases |tokens| - current, 5
    {
      var left := Factor();
      if left.None? {
        return None;
      }
      e := TermTail(left.value);
    }

    /** The repetition that follows the first operand of the term level:
        while one of its operators comes next, read another operand and
        combine to the left. */
    method TermTail(left: Expr) returns (e: Option<Expr>)
      requires Valid() && Grammar.EndsWithEof(tokens)
      modifies this`current, this`errors
      ensures Valid()
      ensures var r := Grammar.LeftFold(tokens, Grammar.Term, left, old(current));
        e == Grammar.TreeOf(r) && current == Grammar.CursorOf(r)
        && errors == Grammar.Logged(old(errors), tokens, r)
      decreases |tokens| - current, 4
    {
      var expr := left;
      while true
        invariant Valid() && errors == old(errors)
        invariant Grammar.LeftFold(tokens, Grammar.Term, expr, current)
          == Grammar.LeftFold(tokens, Grammar.Term, left, old(current))
        decreases |tokens| - current
      {
        var matched := Match([Minus, Plus]);
        if !matched {
          break;
        }
        var operator := Previous();
        var right := Factor();
        if right.None? {
          return None;
        }
        expr := Binary(expr, operator, right.value);
      }
      return Some(expr);
    }

    method Factor() returns (e: Option<Expr>)
      requires Valid() && Grammar.EndsWithEof(tokens)
      modifies this`current, this`errors
      ensures Valid()
      ensures var r := Grammar.BinaryAt(tokens, old(current), Grammar.Factor);
        e == Grammar.TreeOf(r) && current == Grammar.CursorOf(r)
        && errors == Grammar.Logged(old(errors), tokens, r)
      decreases |tokens| - current, 3
    {
      var left := Unary();
      if left.None? {
        return None;
      }
      e := FactorTail(left.value);
    }

    /** The repetition that follows the first operand of the factor level:
        while one of its operators comes next, read another operand and
        combine to the left. */
    method FactorTail(left: Expr) returns (e: Option<Expr>)
      requires Valid() && Grammar.EndsWithEof(tokens)
      modifies this`current, this`errors
      ensures Valid()
      ensures var r := Grammar.LeftFold(tokens, Grammar.Factor, left, old(current));
        e == Grammar.TreeOf(r) && current == Grammar.CursorOf(r)
        && errors == Grammar.Logged(old(errors), tokens, r)
      decreases |tokens| - current, 2
    {
      var expr := left;
      while true
        invariant Valid() && errors == old(errors)
        invariant Grammar.LeftFold(tokens, Grammar.Factor, expr, current)
          == Grammar.LeftFold(tokens, Grammar.Factor, left, old(current))
        decreases |tokens| - current
      {
        var matched := Match([Slash, Star]);
        if !matched {
          break;
        }
        var operator := Previous();
        var right := Unary();
        if right.None? {
          return None;
        }
        expr := Binary(expr, operator, right.value);
      }
      return Some(expr);
    }

    method Unary() returns (e: Option<Expr>)
      requires Valid() && Grammar.EndsWithEof(tokens)
      modifies this`current, this`errors
      ensures Valid()
      ensures var r := Grammar.Unary(tokens, old(current));
        e == Grammar.TreeOf(r) && current == Grammar.CursorOf(r)
        && errors == Grammar.Logged(old(errors), tokens, r)
      decreases |tokens| - current, 1
    {
      var matched := Match([Bang, Minus]);
      if matched {
        var operator := Previous();
        var right := Unary();
        if right.None? {
          return None;
        }
        return Some(Exprs.Unary(operator, right.value));
      }
      e := Primary();
    }

    method Primary() returns (e: Option<Expr>)
      requires Valid() && Grammar.EndsWithEof(tokens)
      modifies this`current, this`errors
      ensures Valid()
      ensures var r := Grammar.Primary(tokens, old(current));
        e == Grammar.TreeOf(r) && current == Grammar.CursorOf(r)
        && errors == Grammar.Logged(old(errors), tokens, r)
      decreases |tokens| - current, 0
    {
      var matched := Match([False]);
      if matched {
        return Some(Literal(Bool(false)));
      }
      matched := Match([True]);
      if matched {
        return Some(Literal(Bool(true)));
      }
      matched := Match([Tokens.Nil]);
      if matched {
        return Some(Literal(Value.Nil));
      }
      matched := Match([Number, String]);
      if matched {
        return Some(Literal(Grammar.LiteralValue(Previous().literal)));
      }
      matched := Match([LeftParen]);
      if matched {
        var inner := Expression();
        if inner.None? {
          return None;
        }
        var closing := Consume(RightParen, Grammar.ExpectClosingParen);
        if closing.None? {
          return None;
        }
        return Some(Grouping(inner.value));
      }
      Error(Peek(), Grammar.ExpectExpression);
      return None;
    }

    /** Tries the kinds in order; on the first that passes `Check`, consumes the
        token. */
    method Match(types: seq<TokenType>) returns (matched: bool)
      requires Valid() && Grammar.EndsWithEof(tokens)
      modifies this`current
      ensures Valid()
      ensures matched == (!Grammar.AtEnd(tokens, old(current)) && tokens[old(current)].tokenType in types)
      ensures current == if matched then old(current) + 1 else old(current)
    {
      for i := 0 to |types|
        invariant current == old(current)
        invariant forall j :: 0 <= j < i ==> !Check(types[j])
      {
        if Check(types[i]) {
          var _ := Advance();
          return true;
        }
      }
      return false;
    }

    /** The current token has kind `t`; never true on EOF. */
    predicate Check(t: TokenType)
      requires Valid() && Grammar.EndsWithEof(tokens)
      reads this
      ensures Check(t) ==> t != Eof && tokens[current].tokenType == t
      ensures Check(t) <== t != Eof && tokens[current].tokenType == t
    {
      if IsAtEnd() then false else Peek().tokenType == t
    }

    /** Moves past the current token unless it is EOF, and gives back the token
        just passed. */
    method Advance() returns (t: Token)
      requires Valid() && Grammar.EndsWithEof(tokens) && (current > 0 || !IsAtEnd())
      modifies this`current
      ensures Valid()
      ensures current == if old(IsAtEnd()) then old(current) else old(current) + 1
      ensures t == tokens[current - 1]
    {
      if !IsAtEnd() {
        current := current + 1;
      }
      t := Previous();
    }

    /** Not at the end means there is a token after the current one to advance to. */
    predicate IsAtEnd(): (b: bool)
      requires Valid() && Grammar.EndsWithEof(tokens)
      reads this
      ensures !b ==> current + 1 < |tokens|
    {
      Peek().tokenType == Eof
    }

    function Peek(): (t: Token)
      requires Valid() && Grammar.EndsWithEof(tokens)
      reads this
      ensures t in tokens
      ensures current == |tokens| - 1 ==> t.tokenType == Eof
    {
      tokens[current]
    }

    function Previous(): (t: Token)
      requires Valid() && Grammar.EndsWithEof(tokens) && current > 0
      reads this
      ensures t in tokens[..current] && t == tokens[current - 1]
    {
      tokens[current - 1]
    }

    /** Consumes a token of kind `t`, or reports `message` at the current token
        and gives back `None`, which the caller passes on as the error. */
    method Consume(t: TokenType, message: string) returns (consumed: Option<Token>)
      requires Valid() && Grammar.EndsWithEof(tokens)
      modifies this`current, this`errors
      ensures Valid()
      ensures Grammar.Check(tokens, old(current), t) ==> (consumed == Some(tokens[old(current)])
        && current == old(current) + 1 && errors == old(errors))
      ensures !Grammar.Check(tokens, old(current), t) ==> (consumed == None
        && current == old(current) && errors == old(errors) + [Diagnostic(tokens[current].line, message)])
    {
      if Check(t) {
        var token := Advance();
        return Some(token);
      }
      Error(Peek(), message);
      return None;
    }

    /** The error sink: records the token's line and the message. */
    method Error(token: Token, message: string)
      modifies this`errors
      ensures errors == old(errors) + [Diagnostic(token.line, message)]
    {
      errors := errors + [Diagnostic(token.line, message)];
    }
  }
}
