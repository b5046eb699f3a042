/** The tree-walking evaluator of Interpreter.cs. It holds no state, so each
    handler is a function of the node. A `(double)` cast of a non-number, which
    throws in the source, and a division by zero, which the source leaves to
    floating point, end evaluation with a `Fault`. */
module Interpreting {
  import opened Wrappers
  import opened Tokens
  import opened Exprs
  import Grammar

  /** Why evaluation stops without a value. */
  datatype Fault =
    | NotANumber(operator: Token, operand: Value)   // a `(double)` cast of a non-number
    | NonFinite(operator: Token)                     // a division by zero
    | OperandsMismatch(operator: Token)              // `+` on mixed operands, EvaluateChecked only

  type Outcome = Result<Value, Fault>

  /** Only nil and false are falsy. */
  function IsTruthy(v: Value): (b: bool)
    ensures b <==> !(v == Value.Nil || v == Bool(false))
  {
    if v.Nil? then false
    else if v.Bool? then v.b
    else true
  }

  /** `Equals` of a boxed bool, double or string: same type and same value. */
  function ObjectEquals(a: Value, b: Value): bool
    requires !a.Nil?
  {
    match a
    case Bool(x) => b.Bool? && b.b == x
    case Num(x) => b.Num? && b.n == x
    case Str(x) => b.Str? && b.s == x
  }

  /** nil equals only nil; any other value equals a value of its own type with the
      same contents. */
  function IsEqual(a: Value, b: Value): (r: bool)
    ensures r <==> a == b
  {
    if a.Nil? && b.Nil? then true
    else if a.Nil? then false
    else ObjectEquals(a, b)
  }

  /** What a prefix operator does with its operand's value. */
  function UnaryResult(operator: Token, right: Value): (r: Outcome)
    ensures operator.tokenType == Bang ==> r == Ok(Bool(!IsTruthy(right)))
    ensures operator.tokenType == Minus ==>
      (r.Ok? <==> right.Num?) && (r.Ok? ==> r.value == Num(-right.n))
      && (r.Err? ==> r.error == NotANumber(operator, right))
    ensures operator.tokenType !in Grammar.UnaryOperators ==> r == Ok(Value.Nil)
  {
    match operator.tokenType
    case Bang => Ok(Bool(!IsTruthy(right)))
    case Minus => if right.Num? then Ok(Num(-right.n)) else Err(NotANumber(operator, right))
    case _ => Ok(Value.Nil)
  }

  /** Both operands cast to numbers, the left one first. */
  function Numbers(operator: Token, left: Value, right: Value): (r: Result<(real, real), Fault>)
    ensures r.Ok? <==> left.Num? && right.Num?
    ensures r.Ok? ==> r.value == (left.n, right.n)
    ensures !left.Num? ==> r == Err(NotANumber(operator, left))
    ensures left.Num? && !right.Num? ==> r == Err(NotANumber(operator, right))
  {
    if !left.Num? then Err(NotANumber(operator, left))
    else if !right.Num? then Err(NotANumber(operator, right))
    else Ok((left.n, right.n))
  }

  /** The operator kinds whose operands are cast to numbers. */
  const NumericOperators: set<TokenType> := {Greater, GreaterEqual, Less, LessEqual, Minus, Slash, Star}

  /** What a binary operator does with its operands' values. `+` adds numbers and
      joins strings; on any other pair it leaves the switch and gives nil. */
  function BinaryResult(operator: Token, left: Value, right: Value): (r: Outcome)
    ensures operator.tokenType in NumericOperators ==>
      && (r.Ok? <==> left.Num? && right.Num? && (operator.tokenType == Slash ==> right.n != 0.0))
      && (!left.Num? ==> r == Err(NotANumber(operator, left)))
      && (left.Num? && !right.Num? ==> r == Err(NotANumber(operator, right)))
    ensures r.Ok? && operator.tokenType in [Greater, GreaterEqual, Less, LessEqual] ==> r.value.Bool?
    ensures r.Ok? && operator.tokenType in [Minus, Slash, Star] ==> r.value.Num?
    ensures left.Num? && right.Num? ==>
      && (operator.tokenType == Greater ==> r == Ok(Bool(left.n > right.n)))
      && (operator.tokenType == GreaterEqual ==> r == Ok(Bool(left.n >= right.n)))
      && (operator.tokenType == Less ==> r == Ok(Bool(left.n < right.n)))
      && (operator.tokenType == LessEqual ==> r == Ok(Bool(left.n <= right.n)))
      && (operator.tokenType == Minus ==> r == Ok(Num(left.n - right.n)))
      && (operator.tokenType == Star ==> r == Ok(Num(left.n * right.n)))
      && (operator.tokenType == Slash && right.n != 0.0 ==> r == Ok(Num(left.n / right.n)))
      && (operator.tokenType == Slash && right.n == 0.0 ==> r == Err(NonFinite(operator)))
    ensures operator.tokenType == EqualEqual ==> r == Ok(Bool(left == right))
    ensures operator.tokenType == BangEqual ==> r == Ok(Bool(left != right))
    ensures operator.tokenType == Plus ==>
      && r.Ok?
      && (left.Num? && right.Num? ==> r.value == Num(left.n + right.n))
      && (left.Str? && right.Str? ==> r.value == Str(left.s + right.s))
      && (r.value.Nil? <==> !(left.Num? && right.Num?) && !(left.Str? && right.Str?))
  {
    match operator.tokenType
    case Greater =>
      (match Numbers(operator, left, right)
       case Err(f) => Err(f)
       case Ok((a, b)) => Ok(Bool(a > b)))
    case GreaterEqual =>
      (match Numbers(operator, left, right)
       case Err(f) => Err(f)
       case Ok((a, b)) => Ok(Bool(a >= b)))
    case Less =>
      (match Numbers(operator, left, right)
       case Err(f) => Err(f)
       case Ok((a, b)) => Ok(Bool(a < b)))
    case LessEqual =>
      (match Numbers(operator, left, right)
       case Err(f) => Err(f)
       case Ok((a, b)) => Ok(Bool(a <= b)))
    case BangEqual => Ok(Bool(!IsEqual(left, right)))
    case EqualEqual => Ok(Bool(IsEqual(left, right)))
    case Minus =>
      (match Numbers(operator, left, right)
       case Err(f) => Err(f)
       case Ok((a, b)) => Ok(Num(a - b)))
    case Plus =>
      if left.Num? && right.Num? then Ok(Num(left.n + right.n))
      else if left.Str? && right.Str? then Ok(Str(left.s + right.s))
      else Ok(Value.Nil)
    case Slash =>
      (match Numbers(operator, left, right)
       case Err(f) => Err(f)
       case Ok((a, b)) => if b == 0.0 then Err(NonFinite(operator)) else Ok(Num(a / b)))
    case Star =>
      (match Numbers(operator, left, right)
       case Err(f) => Err(f)
       case Ok((a, b)) => assert a * b == left.n * right.n; Ok(Num(a * b)))
    case _ => Ok(Value.Nil)
  }

  /** `Evaluate`: the node's own handler, as `Accept` picks it. A literal is its
      value; a grouping is what it holds; an operator node applies its operator to
      the values of its operands, left before right, and the first operand that
      faults decides the outcome. */
  function Evaluate(e: Expr): (r: Outcome)
    ensures e.Literal? ==> r == Ok(e.value)
    ensures e.Grouping? ==> r == Evaluate(e.expression)
    ensures e.Unary? ==>
      (Evaluate(e.right).Err? ==> r == Evaluate(e.right))
      && (Evaluate(e.right).Ok? ==> r == UnaryResult(e.operator, Evaluate(e.right).value))
    ensures e.Binary? ==>
      && (Evaluate(e.left).Err? ==> r == Evaluate(e.left))
      && (Evaluate(e.left).Ok? && Evaluate(e.right).Err? ==> r == Evaluate(e.right))
      && (Evaluate(e.left).Ok? && Evaluate(e.right).Ok? ==>
            r == BinaryResult(e.operator, Evaluate(e.left).value, Evaluate(e.right).value))
    decreases e, 1
  {
    match e
    case Literal(_) => VisitLiteral(e)
    case Grouping(_) => VisitGrouping(e)
    case Unary(_, _) => VisitUnary(e)
    case Binary(_, _, _) => VisitBinary(e)
  }

  /** A literal node gives back the value it stores, and never faults. */
  function VisitLiteral(e: Expr): (r: Outcome)
    requires e.Literal?
    ensures r.Ok? && r.value == e.value
  {
    Ok(e.value)
  }

  /** A grouping is transparent: its outcome is the inner expression's. */
  function VisitGrouping(e: Expr): (r: Outcome)
    requires e.Grouping?
    ensures r == Evaluate(e.expression)
    decreases e, 0
  {
    Evaluate(e.expression)
  }

  /** The operand first, then the operator on its value. */
  function VisitUnary(e: Expr): (r: Outcome)
    requires e.Unary?
    ensures Evaluate(e.right).Err? ==> r == Evaluate(e.right)
    ensures Evaluate(e.right).Ok? ==> r == UnaryResult(e.operator, Evaluate(e.right).value)
    decreases e, 0
  {
    match Evaluate(e.right)
    case Err(f) => Err(f)
    case Ok(v) => UnaryResult(e.operator, v)
  }

  /** The left operand, then the right one, then the operator on both values. */
  function VisitBinary(e: Expr): (r: Outcome)
    requires e.Binary?
    ensures Evaluate(e.left).Err? ==> r == Evaluate(e.left)
    ensures Evaluate(e.left).Ok? && Evaluate(e.right).Err? ==> r == Evaluate(e.right)
    ensures Evaluate(e.left).Ok? && Evaluate(e.right).Ok? ==>
      r == BinaryResult(e.operator, Evaluate(e.left).value, Evaluate(e.right).value)
    decreases e, 0
  {
    match Evaluate(e.left)
    case Err(f) => Err(f)
    case Ok(l) =>
      match Evaluate(e.right)
      case Err(f) => Err(f)
      case Ok(r) => BinaryResult(e.operator, l, r)
  }

  // ---------------------------------------------------------------------------
  // Rendering

  /** The text ends with ".0". */
  predicate EndsWithPointZero(text: string)
  {
    |text| >= 2 && text[|text| - 2..] == ".0"
  }

  /** Removes a trailing ".0" and changes nothing else. */
  function StripPointZero(text: string): (r: string)
    ensures EndsWithPointZero(text) ==> r + ".0" == text
    ensures !EndsWithPointZero(text) ==> r == text
  {
    if EndsWithPointZero(text) then text[..|text| - 2] else text
  }

  /** Stripping undoes appending ".0", and leaves text without that ending alone:
      "3.0" renders as "3", "2.5" stays "2.5". */
  lemma {:induction false} StripUndoesPointZero(text: string)
    ensures StripPointZero(text + ".0") == text
    ensures StripPointZero("3.0") == "3" && StripPointZero("2.5") == "2.5"
  {
    assert (text + ".0")[|text|..] == ".0";
    assert (text + ".0")[..|text|] == text;
  }

  /** `Stringify`: nil prints as "nil", a number by the platform's formatting
      `showNumber` with a trailing ".0" removed, a bool as True or False and a
      string as itself. */
  function Stringify(v: Value, showNumber: real -> string): (text: string)
    ensures v.Nil? ==> text == "nil"
    ensures v.Bool? ==> (text == "True" <==> v.b) && (text == "False" <==> !v.b)
    ensures v.Num? ==> text == StripPointZero(showNumber(v.n))
    ensures v.Str? ==> text == v.s
  {
    match v
    case Nil => "nil"
    case Num(n) => StripPointZero(showNumber(n))
    case Bool(b) => if b then "True" else "False"
    case Str(s) => s
  }

  // ---------------------------------------------------------------------------
  // Properties of evaluation

  /** A Literal is its stored value; a Grouping is the value of what it holds. */
  lemma {:induction false} LiteralAndGrouping(v: Value, inner: Expr)
    ensures Evaluate(Literal(v)) == Ok(v)
    ensures Evaluate(Grouping(inner)) == Evaluate(inner)
  {
  }

  /** `!e` is the negation of e's truthiness, so `!0` and `!""` are false. */
  lemma {:induction false} NotNegatesTruthiness(bang: Token, operand: Expr)
    requires bang.tokenType == Bang
    ensures Evaluate(Unary(bang, operand)).Ok? <==> Evaluate(operand).Ok?
    ensures Evaluate(operand).Ok? ==>
      Evaluate(Unary(bang, operand)) == Ok(Bool(!IsTruthy(Evaluate(operand).value)))
    ensures Evaluate(Unary(bang, Literal(Num(0.0)))) == Ok(Bool(false))
    ensures Evaluate(Unary(bang, Literal(Str("")))) == Ok(Bool(false))
  {
    assert Evaluate(Literal(Num(0.0))) == Ok(Num(0.0));
    assert Evaluate(Literal(Str(""))) == Ok(Str(""));
  }

  /** `!=` is always the negation of `==` on the same operands, and either both
      fail with the same fault. */
  lemma {:induction false} NotEqualNegatesEqual(ne: Token, eq: Token, left: Expr, right: Expr)
    requires ne.tokenType == BangEqual && eq.tokenType == EqualEqual
    ensures var a := Evaluate(Binary(left, eq, right)); var b := Evaluate(Binary(left, ne, right));
      && (a.Ok? <==> b.Ok?)
      && (a.Ok? ==> a.value.Bool? && b.value == Bool(!a.value.b))
      && (a.Err? ==> a.error == b.error)
  {
  }

  /** The left operand is evaluated first: when it fails, its fault is the result,
      whatever the right operand would do. */
  lemma {:induction false} LeftOperandFirst(left: Expr, operator: Token, right: Expr, other: Expr)
    requires Evaluate(left).Err?
    ensures Evaluate(Binary(left, operator, right)) == Evaluate(left)
    ensures Evaluate(Binary(left, operator, right)) == Evaluate(Binary(left, operator, other))
  {
  }

  /** In a tree the parser builds, a prefix node never falls out of the switch: its
      value, when there is one, is a bool or a number. */
  lemma {:induction false} ParsedUnaryHasValue(e: Expr)
    requires Grammar.Shaped(e) && e.Unary?
    ensures Evaluate(e).Ok? ==> Evaluate(e).value.Bool? || Evaluate(e).value.Num?
  {
    assert e.operator.tokenType in Grammar.UnaryOperators;
  }

  /** In a tree the parser builds, a binary node gives nil exactly when it is `+`
      on operands that are neither two numbers nor two strings. */
  lemma {:induction false} ParsedBinaryNilOnlyFromPlus(e: Expr)
    requires Grammar.Shaped(e) && e.Binary?
    requires Evaluate(e.left).Ok? && Evaluate(e.right).Ok?
    ensures var l := Evaluate(e.left).value; var r := Evaluate(e.right).value;
      Evaluate(e) == Ok(Value.Nil) <==>
        e.operator.tokenType == Plus && !(l.Num? && r.Num?) && !(l.Str? && r.Str?)
  {
    var t := e.operator.tokenType;
    assert Grammar.LevelOf(t).Some?;
    assert t in Grammar.Operators(Grammar.LevelOf(t).value);
  }

  // ---------------------------------------------------------------------------
  // `+` on mixed operands

  /** As written, `1 + "a"` leaves the switch and evaluates to nil, on the line the
      source marks as unreachable. */
  lemma {:induction false} MixedPlusIsNil(plus: Token)
    requires plus.tokenType == Plus
    ensures Evaluate(Binary(Literal(Num(1.0)), plus, Literal(Str("a")))) == Ok(Value.Nil)
  {
    assert Evaluate(Literal(Num(1.0))) == Ok(Num(1.0));
    assert Evaluate(Literal(Str("a"))) == Ok(Str("a"));
  }

  /** The evaluator with `+` on mixed operands reported as a fault, as the
      "unreachable" comment after the switch presumes. Whatever it computes is
      what the evaluator as written computes. */
  function EvaluateChecked(e: Expr): (r: Outcome)
    ensures r.Ok? ==> r == Evaluate(e)
  {
    match e
    case Literal(v) => Ok(v)
    case Grouping(inner) => EvaluateChecked(inner)
    case Unary(operator, right) =>
      (match EvaluateChecked(right)
       case Err(f) => Err(f)
       case Ok(v) => UnaryResult(operator, v))
    case Binary(left, operator, right) =>
      match EvaluateChecked(left)
      case Err(f) => Err(f)
      case Ok(l) =>
        match EvaluateChecked(right)
        case Err(f) => Err(f)
        case Ok(r) => CheckedBinaryResult(operator, l, r)
  }

  /** BinaryResult, except that `+` on mixed operands is a fault. */
  function CheckedBinaryResult(operator: Token, left: Value, right: Value): (r: Outcome)
    ensures operator.tokenType == Plus ==>
      (r.Ok? <==> (left.Num? && right.Num?) || (left.Str? && right.Str?))
    ensures r.Ok? ==> r == BinaryResult(operator, left, right)
    ensures operator.tokenType != Plus ==> r == BinaryResult(operator, left, right)
    ensures r.Err? && BinaryResult(operator, left, right).Ok? ==> r.error == OperandsMismatch(operator)
  {
    if operator.tokenType == Plus && !(left.Num? && right.Num?) && !(left.Str? && right.Str?)
    then Err(OperandsMismatch(operator))
    else BinaryResult(operator, left, right)
  }

  /** In the checked evaluator the line after the switch is indeed unreachable for
      parsed trees: no operator node evaluates to nil. */
  lemma {:induction false} CheckedOperatorsNeverNil(e: Expr)
    requires Grammar.Shaped(e) && (e.Binary? || e.Unary?)
    ensures EvaluateChecked(e).Ok? ==> !EvaluateChecked(e).value.Nil?
  {
    if e.Binary? {
      var t := e.operator.tokenType;
      assert Grammar.LevelOf(t).Some?;
      assert t in Grammar.Operators(Grammar.LevelOf(t).value);
    } else {
      assert e.operator.tokenType in Grammar.UnaryOperators;
    }
  }

  /** Where the checked evaluator gives a value, the evaluator as written gives the
      same one; so where the evaluator as written faults, the checked one does too. */
  lemma {:induction false} CheckedAgrees(e: Expr)
    ensures EvaluateChecked(e).Ok? ==> Evaluate(e) == EvaluateChecked(e)
    ensures Evaluate(e).Err? ==> EvaluateChecked(e).Err?
    ensures Evaluate(e).Ok? && EvaluateChecked(e).Err? ==> EvaluateChecked(e).error.OperandsMismatch?
  {
    match e
    case Literal(_) =>
    case Grouping(inner) =>
      CheckedAgrees(inner);
    case Unary(_, right) =>
      CheckedAgrees(right);
    case Binary(left, _, right) =>
      CheckedAgrees(left);
      CheckedAgrees(right);
  }
}
