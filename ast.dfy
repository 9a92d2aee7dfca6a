/**
 * The syntax tree (Ast.cs) as a closed family of datatypes, with the
 * constructors that build nodes from tokens, `AddParameter`, the mapping
 * from operator tokens to operators and the FIRST set of expressions.
 *
 * Besides the fields Ast.cs declares, the tree carries the annotations the
 * code generator and closure conversion read: the resolved symbol of a
 * variable, assignment, declaration or call (all `None`/empty when the
 * parser builds the node). An expression's `ty` is a `TypeInfo`, as the
 * code generator uses it.
 */
module Ast {
  import opened Wrappers
  import opened Text
  import opened AstEnums
  import opened Symbols
  import opened Tokens

  /** Line and column of the token a node was built from. */
  datatype Position = Position(line: int, column: int)

  /** A node built from a token records that token's line and column. */
  function PositionOf(tok: Token): (p: Position)
    ensures p.line == tok.line && p.column == tok.column
  {
    Position(tok.line, tok.column)
  }

  /** `SimpleType` and `ArrayType`; an array type's size is an expression, absent on generated parameters. */
  datatype TypeNode =
    | SimpleType(pos: Position, exprType: ExprType)
    | ArrayType(pos: Position, exprType: ExprType, sizeExpr: Option<Expression>)

  /** The type a type node denotes: its basic type, an array exactly for an `ArrayType` node. */
  function TypeOfNode(t: TypeNode): (ty: TypeInfo)
    ensures ty.basicType == t.exprType && (ty.isArray <==> t.ArrayType?)
  {
    TypeInfo(t.exprType, t.ArrayType?)
  }

  datatype Parameter = Parameter(identifier: string, paramType: TypeNode, referenceParameter: bool)

  /**
   * Expressions. Every constructor begins with the position, the inferred
   * type and the sign. `VariableExpr` and `ArrayVariableExpr` are the two
   * kinds of `IVariableExpr` an assignment may target.
   */
  datatype Expression =
    | VariableExpr(pos: Position, ty: TypeInfo, sign: ExprSign, identifier: string, symbol: Option<Symbol>)
    | ArrayVariableExpr(pos: Position, ty: TypeInfo, sign: ExprSign, arrayIdentifier: string,
                        subscript: Expression, symbol: Option<Symbol>)
    | BinaryExpr(pos: Position, ty: TypeInfo, sign: ExprSign, op: Operator, left: Expression, right: Expression)
    | UnaryExpr(pos: Position, ty: TypeInfo, sign: ExprSign, op: Operator, operand: Expression)
    | IntLiteralExpr(pos: Position, ty: TypeInfo, sign: ExprSign, intValue: int)
    | RealLiteralExpr(pos: Position, ty: TypeInfo, sign: ExprSign, realText: string)
    | StringLiteralExpr(pos: Position, ty: TypeInfo, sign: ExprSign, stringValue: string)
    | CallExpr(pos: Position, ty: TypeInfo, sign: ExprSign, calleeId: string, arguments: seq<Expression>,
               declaration: Option<Symbol>)
    | MemberAccessExpr(pos: Position, ty: TypeInfo, sign: ExprSign, accessed: Expression, memberId: string)

  datatype Statement =
    | BlockStmt(pos: Position, statements: seq<Statement>)
    | VarDeclarationStmt(pos: Position, identifiers: seq<string>, varType: TypeNode, varSymbols: seq<Symbol>)
    | ProcedureDeclarationStmt(pos: Position, identifier: string, parameters: seq<Parameter>,
                               block: Statement, declaration: Option<Symbol>)
    | FunctionDeclarationStmt(pos: Position, identifier: string, parameters: seq<Parameter>,
                              returnType: TypeNode, block: Statement, declaration: Option<Symbol>)
    | AssignmentStmt(pos: Position, variable: Expression, value: Expression, variableSymbol: Option<Symbol>)
    | WhileStmt(pos: Position, test: Expression, body: Statement)
    | IfStmt(pos: Position, test: Expression, trueStatement: Statement, falseStatement: Option<Statement>)
    | CallStmt(pos: Position, procedureId: string, arguments: seq<Expression>, declaration: Option<Symbol>)
    | ReturnStmt(pos: Position, returnExpression: Option<Expression>)
    | AssertStmt(pos: Position, test: Expression)
  {
    predicate IsCallableDeclaration() { ProcedureDeclarationStmt? || FunctionDeclarationStmt? }
  }

  datatype ProgramNode = ProgramNode(pos: Position, identifier: string, block: Statement)

  /** The type a new expression has until analysis assigns one. */
  const DefaultExprType: TypeInfo := TypeInfo(Void, false)

  /** The tokens an expression can begin with, in declaration order. */
  const FirstSet: seq<TokenType> :=
    [TokenType.Minus, TokenType.Plus, TokenType.Identifier, TokenType.IntLiteral,
     TokenType.RealLiteral, TokenType.StringLiteral, TokenType.LParen, TokenType.OpNot]

  lemma FirstSetMembers(t: TokenType)
    ensures t in FirstSet <==>
      t.Minus? || t.Plus? || t.Identifier? || t.IntLiteral? || t.RealLiteral? ||
      t.StringLiteral? || t.LParen? || t.OpNot?
  {
  }

  /** `AddParameter`: one parameter appended after the existing ones; nothing else changes. */
  function AddParameter(decl: Statement, identifier: string, paramType: TypeNode, referenceParameter: bool): (r: Statement)
    requires decl.IsCallableDeclaration()
    ensures r.IsCallableDeclaration() && r.ProcedureDeclarationStmt? == decl.ProcedureDeclarationStmt?
    ensures |r.parameters| == |decl.parameters| + 1
    ensures r.parameters[..|decl.parameters|] == decl.parameters
    ensures r.parameters[|decl.parameters|] == Parameter(identifier, paramType, referenceParameter)
    ensures r.(parameters := decl.parameters) == decl
  {
    decl.(parameters := decl.parameters + [Parameter(identifier, paramType, referenceParameter)])
  }

  /**
   * `SetOperatorFromToken`: the operator an operator token stands for; any
   * other token, `or` included, leaves the current operator `op` as it is.
   */
  function SetOperatorFromToken(op: Operator, tok: Token): Operator
  {
    var t := tok.tokenType;
    if t.Plus? then Operator.Plus
    else if t.Minus? then Operator.Minus
    else if t.OpMultiply? then Times
    else if t.OpDivide? then Divide
    else if t.OpModulus? then Modulus
    else if t.OpLess? then Less
    else if t.OpLessOrEquals? then LessOrEquals
    else if t.OpMore? then More
    else if t.OpMoreOrEquals? then MoreOrEquals
    else if t.OpEquals? then Equals
    else if t.OpNotEquals? then NotEquals
    else if t.OpAnd? then And
    else op
  }

  /** The token of each operator that has one; `Not` and `Or` have none in the mapping. */
  function OperatorToken(op: Operator): (t: Option<TokenType>)
    ensures t.None? <==> op == Not || op == Or
  {
    match op
    case Plus => Some(TokenType.Plus)
    case Minus => Some(TokenType.Minus)
    case Times => Some(OpMultiply)
    case Divide => Some(OpDivide)
    case Modulus => Some(OpModulus)
    case Less => Some(OpLess)
    case LessOrEquals => Some(OpLessOrEquals)
    case More => Some(OpMore)
    case MoreOrEquals => Some(OpMoreOrEquals)
    case Equals => Some(OpEquals)
    case NotEquals => Some(OpNotEquals)
    case And => Some(OpAnd)
    case Not => None
    case Or => None
  }

  /** The mapping is the inverse of `OperatorToken`, and changes `op` only for those twelve tokens. */
  lemma SetOperatorFromTokenInverse(old_op: Operator, tok: Token)
    ensures forall op :: OperatorToken(op) == Some(tok.tokenType) ==> SetOperatorFromToken(old_op, tok) == op
    ensures (forall op :: OperatorToken(op) != Some(tok.tokenType)) ==> SetOperatorFromToken(old_op, tok) == old_op
    ensures tok.tokenType == OpOr ==> SetOperatorFromToken(old_op, tok) == old_op
  {
    // each operator token is the image of its operator
    var t := tok.tokenType;
    if t.Plus? { assert OperatorToken(Operator.Plus) == Some(t); }
    else if t.Minus? { assert OperatorToken(Operator.Minus) == Some(t); }
    else if t.OpMultiply? { assert OperatorToken(Times) == Some(t); }
    else if t.OpDivide? { assert OperatorToken(Divide) == Some(t); }
    else if t.OpModulus? { assert OperatorToken(Modulus) == Some(t); }
    else if t.OpLess? { assert OperatorToken(Less) == Some(t); }
    else if t.OpLessOrEquals? { assert OperatorToken(LessOrEquals) == Some(t); }
    else if t.OpMore? { assert OperatorToken(More) == Some(t); }
    else if t.OpMoreOrEquals? { assert OperatorToken(MoreOrEquals) == Some(t); }
    else if t.OpEquals? { assert OperatorToken(Equals) == Some(t); }
    else if t.OpNotEquals? { assert OperatorToken(NotEquals) == Some(t); }
    else if t.OpAnd? { assert OperatorToken(And) == Some(t); }
  }

  /** `VariableExpr(Token)`: the identifier is the token's text. */
  function NewVariableExpr(tok: Token): (e: Expression)
    ensures e.VariableExpr? && e.pos == PositionOf(tok) && e.identifier == ContentOf(tok)
    ensures e.ty == DefaultExprType && e.sign == PlusSign && e.symbol == None
  {
    VariableExpr(PositionOf(tok), DefaultExprType, PlusSign, ContentOf(tok), None)
  }

  /** `StringLiteralExpr(Token)`: the value is the token's text, verbatim. */
  function NewStringLiteral(tok: Token): (e: Expression)
    ensures e.StringLiteralExpr? && e.pos == PositionOf(tok) && e.stringValue == ContentOf(tok)
    ensures e.ty == DefaultExprType && e.sign == PlusSign
  {
    StringLiteralExpr(PositionOf(tok), DefaultExprType, PlusSign, ContentOf(tok))
  }

  /** `RealLiteralExpr(Token)`; the floating-point value is kept as its text. */
  function NewRealLiteral(tok: Token): (e: Expression)
    ensures e.RealLiteralExpr? && e.pos == PositionOf(tok) && e.realText == ContentOf(tok)
    ensures e.ty == DefaultExprType && e.sign == PlusSign
  {
    RealLiteralExpr(PositionOf(tok), DefaultExprType, PlusSign, ContentOf(tok))
  }

  /**
   * `IntLiteralExpr(Token)`: the decimal value of the token's digit run;
   * nothing when `int.Parse` throws (no text, no digits, or more than
   * fits a 32-bit integer).
   */
  function NewIntLiteral(tok: Token): (r: Option<Expression>)
    ensures r.Some? <==>
      tok.content.Some? && |tok.content.value| > 0 && AllDigits(tok.content.value) &&
      DecimalValue(tok.content.value) <= Int32Max
    ensures r.Some? ==>
      r.value.IntLiteralExpr? && r.value.pos == PositionOf(tok) &&
      r.value.intValue == DecimalValue(tok.content.value) &&
      r.value.ty == DefaultExprType && r.value.sign == PlusSign
  {
    match tok.content
    case None => None
    case Some(s) =>
      if |s| > 0 && AllDigits(s) then
        match ParseInt32(s)
        case None => None
        case Some(v) => Some(IntLiteralExpr(PositionOf(tok), DefaultExprType, PlusSign, v))
      else None
  }

  /** An integer literal token spelling a 32-bit value gives back that value. */
  lemma IntLiteralRoundTrip(line: int, column: int, n: nat)
    requires n <= Int32Max
    ensures NewIntLiteral(TextToken(TokenType.IntLiteral, line, column, NatToString(n)))
         == Some(IntLiteralExpr(Position(line, column), DefaultExprType, PlusSign, n))
  {
    ParseInt32OfNatToString(n);
  }

  /** One more than the largest 32-bit value does not parse. */
  lemma IntLiteralOverflow(line: int, column: int)
    ensures NewIntLiteral(TextToken(TokenType.IntLiteral, line, column, NatToString(Int32Max + 1))) == None
  {
    DecimalOfNatToString(Int32Max + 1);
  }
}
