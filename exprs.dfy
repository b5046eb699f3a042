/** The syntax tree (Expr.cs) and the dynamically typed values a Literal node holds
    and the evaluator produces. */
module Exprs {
  import opened Tokens

  /** A runtime value: what `object` holds at run time in the evaluator — null, a
      boxed bool, a boxed double (here an exact real) or a string. */
  datatype Value = Nil | Bool(b: bool) | Num(n: real) | Str(s: string)

  /** The four node kinds. Children are fields of the node and never change. */
  datatype Expr =
    | Binary(left: Expr, operator: Token, right: Expr)
    | Grouping(expression: Expr)
    | Literal(value: Value)
    | Unary(operator: Token, right: Expr)

  /** The closed set of variants, one per visitor handler. */
  datatype ExprKind = BinaryKind | GroupingKind | LiteralKind | UnaryKind

  function KindOf(e: Expr): ExprKind
  {
    match e
    case Binary(_, _, _) => BinaryKind
    case Grouping(_) => GroupingKind
    case Literal(_) => LiteralKind
    case Unary(_, _) => UnaryKind
  }

  /** A visitor with one handler per variant, each computing a `T` from the node. */
  datatype Visitor<T> = Visitor(
    visitBinary: Expr -> T,
    visitGrouping: Expr -> T,
    visitLiteral: Expr -> T,
    visitUnary: Expr -> T)

  /** The handler a visitor has for one kind of node. */
  function Handler<T>(v: Visitor<T>, k: ExprKind): Expr -> T
  {
    match k
    case BinaryKind => v.visitBinary
    case GroupingKind => v.visitGrouping
    case LiteralKind => v.visitLiteral
    case UnaryKind => v.visitUnary
  }

  /** Double dispatch: each node hands itself to the visitor's handler for its own
      variant and passes back what that handler returns. */
  function Accept<T>(e: Expr, v: Visitor<T>): (r: T)
    ensures r == Handler(v, KindOf(e))(e)
  {
    match e
    case Binary(_, _, _) => v.visitBinary(e)
    case Grouping(_) => v.visitGrouping(e)
    case Literal(_) => v.visitLiteral(e)
    case Unary(_, _) => v.visitUnary(e)
  }

  /** The handlers for the other three variants play no part in visiting a node. */
  lemma {:induction false} AcceptUsesOwnHandlerOnly<T>(e: Expr, v: Visitor<T>, w: Visitor<T>)
    requires Handler(v, KindOf(e)) == Handler(w, KindOf(e))
    ensures Accept(e, v) == Accept(e, w)
  {
  }
}
