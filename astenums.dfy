/**
 * The enumerations shared by the AST, the type rules and the symbols:
 * expression types, operators and expression signs, with the names that
 * the C# enum `ToString` gives them in diagnostics.
 */
module AstEnums {
  datatype ExprType = Int | Real | String | Bool | Void

  /**
   * Operators in declaration order; `Or` is used by the type rules and the
   * instruction tables but missing from the C# enum, so it is placed last.
   */
  datatype Operator =
    | Plus | Minus | Times | Divide | Less | Equals | And | Not
    | Modulus | LessOrEquals | More | MoreOrEquals | NotEquals | Or

  datatype ExprSign = PlusSign | MinusSign

  /** The value an unassigned `Operator` field holds: the first enum member. */
  const DefaultOperator: Operator := Plus

  function ExprTypeName(t: ExprType): string
  {
    match t
    case Int => "Int"
    case Real => "Real"
    case String => "String"
    case Bool => "Bool"
    case Void => "Void"
  }

  function OperatorName(op: Operator): string
  {
    match op
    case Plus => "Plus"
    case Minus => "Minus"
    case Times => "Times"
    case Divide => "Divide"
    case Less => "Less"
    case Equals => "Equals"
    case And => "And"
    case Not => "Not"
    case Modulus => "Modulus"
    case LessOrEquals => "LessOrEquals"
    case More => "More"
    case MoreOrEquals => "MoreOrEquals"
    case NotEquals => "NotEquals"
    case Or => "Or"
  }

  /** The six comparison operators. */
  predicate IsRelational(op: Operator)
  {
    op in {Equals, NotEquals, Less, LessOrEquals, More, MoreOrEquals}
  }
}
