/** Worked examples proved on small inputs: scanning a text, parsing a token
    list and evaluating the tree. */
module Examples {
  import opened Wrappers
  import opened Tokens
  import opened Exprs
  import Lexical
  import Grammar
  import ParseLaws
  import Interpreting

  function NumberToken(text: string, n: real): Token
  {
    Token(Number, text, Some(NumberLiteral(n)), 1)
  }

  function Op(t: TokenType, text: string): Token
  {
    Token(t, text, None, 1)
  }

  const Eof1 := Token(Eof, "", None, 1)

  /** `!=` is one token; `@` is reported and scanning goes on to the end. */
  lemma {:induction false} ScanOperatorAndBadCharacter()
    ensures Lexical.Lex("!=@").tokens == [Op(BangEqual, "!="), Eof1]
    ensures Lexical.Lex("!=@").errors == [Diagnostic(1, "Unexpected character.")]
  {
    var src := "!=@";
    assert Lexical.ScanOne(src, 0, 1) == Lexical.Lexed(Some(Op(BangEqual, "!=")), None, 2, 1) by {
      assert Lexical.NextIs(src, 1, '=');
      assert src[0..2] == "!=";
    }
    assert Lexical.ScanOne(src, 2, 1) == Lexical.Lexed(None, Some(Diagnostic(1, "Unexpected character.")), 3, 1) by {
      assert !Lexical.IsDigit('@') && !Lexical.IsAlpha('@');
    }
    assert Lexical.ScanFrom(src, 3, 1) == Lexical.Scanned([], [], 1);
    assert Lexical.ScanFrom(src, 2, 1) == Lexical.Scanned([], [Diagnostic(1, "Unexpected character.")], 1);
  }

  /** "12.5" denotes twelve and a half. */
  lemma {:induction false} NumberLexemeValue()
    ensures Lexical.ParseNumber("12.5") == 12.5
  {
    var s := "12.5";
    assert Lexical.NumberValue(s, 4, 125, 1, true) == 12.5 by {
      assert Lexical.Shift(125.0, 1) == 12.5;
    }
    assert Lexical.NumberValue(s, 2, 12, 0, false) == 12.5;
    assert Lexical.NumberValue(s, 0, 0, 0, false) == Lexical.NumberValue(s, 2, 12, 0, false);
  }

  /** `1 + 2 * 3` parses as 1 + (2 * 3) and evaluates to 7. */
  lemma {:induction false} FactorBindsTighter()
    ensures var plus := Op(Plus, "+"); var star := Op(Star, "*");
      var toks := [NumberToken("1", 1.0), plus, NumberToken("2", 2.0), star, NumberToken("3", 3.0), Eof1];
      var tree := Binary(Literal(Num(1.0)), plus, Binary(Literal(Num(2.0)), star, Literal(Num(3.0))));
      && Grammar.Parse(toks) == Some(tree)
      && Interpreting.Evaluate(tree) == Ok(Num(7.0))
  {
    var plus := Op(Plus, "+");
    var star := Op(Star, "*");
    ParseLaws.TighterBindsFirst(NumberToken("1", 1.0), plus, NumberToken("2", 2.0), star, NumberToken("3", 3.0), Eof1,
      Grammar.Term, Grammar.Factor);
    var product := Binary(Literal(Num(2.0)), star, Literal(Num(3.0)));
    assert Interpreting.Evaluate(product) == Ok(Num(6.0));
  }

  /** `10 - 2 - 3` parses as (10 - 2) - 3 and evaluates to 5. */
  lemma {:induction false} SubtractionLeansLeft()
    ensures var minus := Op(Minus, "-");
      var toks := [NumberToken("10", 10.0), minus, NumberToken("2", 2.0), minus, NumberToken("3", 3.0), Eof1];
      var tree := Binary(Binary(Literal(Num(10.0)), minus, Literal(Num(2.0))), minus, Literal(Num(3.0)));
      && Grammar.Parse(toks) == Some(tree)
      && Interpreting.Evaluate(tree) == Ok(Num(5.0))
  {
    var minus := Op(Minus, "-");
    ParseLaws.ThreeTermsLeanLeft(NumberToken("10", 10.0), minus, NumberToken("2", 2.0), minus, NumberToken("3", 3.0), Eof1,
      Grammar.Term);
    var difference := Binary(Literal(Num(10.0)), minus, Literal(Num(2.0)));
    assert Interpreting.Evaluate(difference) == Ok(Num(8.0));
  }

  /** Strings join left then right; nil equals nil; a number never equals a string. */
  lemma {:induction false} JoinAndEquality()
    ensures Interpreting.Evaluate(Binary(Literal(Str("a")), Op(Plus, "+"), Literal(Str("b")))) == Ok(Str("ab"))
    ensures Interpreting.Evaluate(Binary(Literal(Value.Nil), Op(EqualEqual, "=="), Literal(Value.Nil))) == Ok(Bool(true))
    ensures Interpreting.Evaluate(Binary(Literal(Num(1.0)), Op(EqualEqual, "=="), Literal(Str("1")))) == Ok(Bool(false))
  {
    assert Interpreting.Evaluate(Literal(Str("a"))) == Ok(Str("a"));
    assert Interpreting.Evaluate(Literal(Str("b"))) == Ok(Str("b"));
    assert "a" + "b" == "ab";
    assert Interpreting.Evaluate(Literal(Value.Nil)) == Ok(Value.Nil);
    assert Interpreting.Evaluate(Literal(Num(1.0))) == Ok(Num(1.0));
    assert Interpreting.Evaluate(Literal(Str("1"))) == Ok(Str("1"));
  }
}
