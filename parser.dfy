/**
 * The recursive-descent parser (Parser.cs). The token source is a sequence
 * of tokens followed, once it is exhausted, by `EndOfInput` for ever; the
 * parser's position is the index of its current token in that stream. Any
 * mismatch aborts the whole parse: a `Failure`, with no recovery.
 *
 * The `P...` functions are the reference semantics: from a position they
 * give the node parsed and the position after it. The class `Parser` is
 * the imperative parser with its current token, accepted token and
 * look-ahead buffer, proved against them.
 */
module Parsing {
  import opened Wrappers
  import opened Tokens
  import opened AstEnums
  import opened Ast

  /** What the token source yields once its tokens are exhausted. */
  const EndOfInput: Token := PlainToken(EOF, 0, 0)

  /** The token at index `k` of the stream. */
  function Tok(ts: seq<Token>, k: nat): (t: Token)
    ensures t.tokenType != EOF ==> k < |ts| && t == ts[k]
  {
    if k < |ts| then ts[k] else EndOfInput
  }

  /** How many real tokens are left from position `p`: the parser's measure of progress. */
  function Left(ts: seq<Token>, p: nat): nat
  {
    if p < |ts| then |ts| - p else 0
  }

  predicate At(ts: seq<Token>, p: nat, types: set<TokenType>)
  {
    Tok(ts, p).tokenType in types
  }

  /** A node and the position of the first token after it. */
  datatype Parsed<T> = Parsed(value: T, next: nat)

  const SyntaxError: string := "syntax error"

  /** `Match`: the current token must have type `t`; it is consumed. */
  function Match(ts: seq<Token>, p: nat, t: TokenType): (r: Result<Parsed<Token>>)
    ensures r.Success? <==> Tok(ts, p).tokenType == t
    ensures r.Success? ==> r.value == Parsed(Tok(ts, p), p + 1)
  {
    if Tok(ts, p).tokenType == t then Success(Parsed(Tok(ts, p), p + 1)) else Failure(SyntaxError)
  }

  /** `ParseIdentifier`: an identifier token's text. */
  function PIdentifier(ts: seq<Token>, p: nat): (r: Result<Parsed<string>>)
    ensures r.Success? <==> At(ts, p, {Identifier})
    ensures r.Success? ==> r.value == Parsed(ContentOf(Tok(ts, p)), p + 1)
  {
    var id :- Match(ts, p, Identifier);
    Success(Parsed(ContentOf(id.value), id.next))
  }

  // ---------------------------------------------------------------- types

  /** The `KnownTypes` dictionary, as a list of its entries. */
  const KnownTypes: seq<(string, ExprType)> := [("int", Int), ("real", Real), ("string", String), ("bool", Bool)]

  /** `TryGetValue` on a dictionary given by its entries. */
  function Lookup(table: seq<(string, ExprType)>, key: string): (r: Option<ExprType>)
    ensures r.Some? ==> (key, r.value) in table
    ensures r.None? ==> forall k :: 0 <= k < |table| ==> table[k].0 != key
  {
    if table == [] then None
    else if table[0].0 == key then Some(table[0].1)
    else Lookup(table[1..], key)
  }

  /** `ParseTypeName`: the type the accepted name stands for in `KnownTypes`. */
  function PTypeName(name: Token): (r: Result<ExprType>)
    ensures r.Success? ==> (ContentOf(name), r.value) in KnownTypes
  {
    match Lookup(KnownTypes, ContentOf(name))
    case Some(t) => Success(t)
    case None => Failure(SyntaxError)
  }

  /** Exactly the four names are types, each for a different non-`Void` type. */
  lemma TypeNames(name: Token)
    ensures PTypeName(name).Success? <==> ContentOf(name) in {"int", "real", "string", "bool"}
    ensures ContentOf(name) == "int" ==> PTypeName(name) == Success(Int)
    ensures ContentOf(name) == "real" ==> PTypeName(name) == Success(Real)
    ensures ContentOf(name) == "string" ==> PTypeName(name) == Success(String)
    ensures ContentOf(name) == "bool" ==> PTypeName(name) == Success(Bool)
  {
    var s := ContentOf(name);
    assert KnownTypes[0].0 == "int" && KnownTypes[1].0 == "real";
    assert KnownTypes[2].0 == "string" && KnownTypes[3].0 == "bool";
    if s !in {"int", "real", "string", "bool"} {
      assert forall k :: 0 <= k < |KnownTypes| ==> KnownTypes[k].0 != s;
    }
  }

  /** `ParseType`: a type name, or `array [ <int literal> ] of <type name>`. */
  function PType(ts: seq<Token>, p: nat): (r: Result<Parsed<TypeNode>>)
    ensures r.Success? ==> p < r.value.next
    ensures r.Success? ==> (r.value.value.SimpleType? <==> At(ts, p, {Identifier}))
    ensures r.Success? ==> r.value.value.pos == PositionOf(Tok(ts, p))
  {
    if At(ts, p, {Identifier}) then
      var ty :- PTypeName(Tok(ts, p));
      Success(Parsed(SimpleType(PositionOf(Tok(ts, p)), ty), p + 1))
    else if At(ts, p, {KwArray}) then
      var open :- Match(ts, p + 1, LBracket);
      var size :- Match(ts, p + 2, IntLiteral);
      var sizeExpr :- IntegerLiteral(size.value);
      var close :- Match(ts, p + 3, RBracket);
      var of :- Match(ts, p + 4, KwOf);
      var name :- Match(ts, p + 5, Identifier);
      var ty :- PTypeName(name.value);
      Success(Parsed(ArrayType(PositionOf(Tok(ts, p)), ty, Some(sizeExpr)), p + 6))
    else Failure(SyntaxError)
  }

  /** `: <type>`, as in variable declarations, parameters and return types. */
  function PTypeAnnotation(ts: seq<Token>, p: nat): (r: Result<Parsed<TypeNode>>)
    ensures r.Success? ==> p + 1 < r.value.next && At(ts, p, {Colon})
  {
    var colon :- Match(ts, p, Colon);
    PType(ts, p + 1)
  }

  /** `int.Parse` of an integer literal token, kept as an integer literal expression; used for array sizes and factors. */
  function IntegerLiteral(size: Token): (r: Result<Expression>)
    ensures r.Success? <==> NewIntLiteral(size).Some?
    ensures r.Success? ==> r.value == NewIntLiteral(size).value
  {
    match NewIntLiteral(size)
    case Some(e) => Success(e)
    case None => Failure(SyntaxError)
  }

  // ---------------------------------------------------------------- expressions

  const RelationalTokens: set<TokenType> := {OpLess, OpLessOrEquals, OpMore, OpMoreOrEquals, OpEquals, OpNotEquals}
  const AddingTokens: set<TokenType> := {TokenType.Plus, TokenType.Minus, OpOr}
  const MultiplyingTokens: set<TokenType> := {OpMultiply, OpDivide, OpModulus, OpAnd}

  /** A new `BinaryExpr` at the first token of its left operand, its operator set from `opToken`. */
  function NewBinary(first: Token, opToken: Token, left: Expression, right: Expression): (e: Expression)
    ensures e.BinaryExpr? && e.pos == PositionOf(first) && e.left == left && e.right == right
    ensures e.op == SetOperatorFromToken(DefaultOperator, opToken) && e.sign == PlusSign
  {
    BinaryExpr(PositionOf(first), DefaultExprType, PlusSign, SetOperatorFromToken(DefaultOperator, opToken), left, right)
  }

  function Negated(s: ExprSign): ExprSign
  {
    if s == MinusSign then PlusSign else MinusSign
  }

  /**
   * The leading sign of a simple expression applied to its first term: a
   * minus negates the term, whatever sign the term already carries.
   */
  function WithLeadingSign(e: Expression, sign: ExprSign): (r: Expression)
    ensures r.(sign := e.sign) == e
    ensures r.sign == if sign == MinusSign then Negated(e.sign) else e.sign
  {
    if sign == MinusSign then e.(sign := Negated(e.sign)) else e
  }

  /**
   * `left.Sign = termSign` as written: the term's own sign is overwritten,
   * so a parenthesised negative first term such as `(-1)` loses its minus.
   */
  function LeadingSignAsWritten(e: Expression, sign: ExprSign): (r: Expression)
    ensures r.(sign := e.sign) == e && r.sign == sign
  {
    e.(sign := sign)
  }

  /** `ParseExpression`: a simple expression, then at most one relational operator and a second one. */
  function PExpression(ts: seq<Token>, p: nat): (r: Result<Parsed<Expression>>)
    ensures r.Success? ==> p < r.value.next
    decreases Left(ts, p), 9
  {
    var left :- PSimple(ts, p);
    if At(ts, left.next, RelationalTokens) then
      var right :- PSimple(ts, left.next + 1);
      Success(Parsed(NewBinary(Tok(ts, p), Tok(ts, left.next), left.value, right.value), right.next))
    else Success(left)
  }

  /** `ParseSimpleExpression`: an optional sign for the first term, then terms joined by `+ - or`. */
  function PSimple(ts: seq<Token>, p: nat): (r: Result<Parsed<Expression>>)
    ensures r.Success? ==> p < r.value.next
    decreases Left(ts, p), 8
  {
    var signed := At(ts, p, {TokenType.Minus, TokenType.Plus});
    var sign := if signed && Tok(ts, p).tokenType == TokenType.Minus then MinusSign else PlusSign;
    var first :- PTerm(ts, if signed then p + 1 else p);
    PSimpleRest(ts, Tok(ts, p), WithLeadingSign(first.value, sign), first.next)
  }

  /** The `while (Accept(Plus, Minus, OpOr))` loop: terms folded to the left. */
  function PSimpleRest(ts: seq<Token>, first: Token, left: Expression, p: nat): (r: Result<Parsed<Expression>>)
    ensures r.Success? ==> p <= r.value.next
    decreases Left(ts, p), 7
  {
    var step :- PAddingStep(ts, first, left, p);
    match step.value
    case None => Success(Parsed(left, p))
    case Some(combined) => PSimpleRest(ts, first, combined, step.next)
  }

  /** One round of that loop: nothing without an adding operator, else `left` combined with the next term. */
  function PAddingStep(ts: seq<Token>, first: Token, left: Expression, p: nat): (r: Result<Parsed<Option<Expression>>>)
    ensures r.Success? ==> (r.value.value.Some? <==> At(ts, p, AddingTokens))
    ensures r.Success? ==> if r.value.value.Some? then p < r.value.next else r.value.next == p
    decreases Left(ts, p), 6
  {
    if At(ts, p, AddingTokens) then
      var right :- PTerm(ts, p + 1);
      Success(Parsed(Some(NewBinary(first, Tok(ts, p), left, right.value)), right.next))
    else Success(Parsed(None, p))
  }

  /** `ParseTerm`: factors joined by `* / % and`. */
  function PTerm(ts: seq<Token>, p: nat): (r: Result<Parsed<Expression>>)
    ensures r.Success? ==> p < r.value.next
    decreases Left(ts, p), 6
  {
    var first :- PFactor(ts, p);
    PTermRest(ts, Tok(ts, p), first.value, first.next)
  }

  function PTermRest(ts: seq<Token>, first: Token, left: Expression, p: nat): (r: Result<Parsed<Expression>>)
    ensures r.Success? ==> p <= r.value.next
    decreases Left(ts, p), 5
  {
    var step :- PMultiplyingStep(ts, first, left, p);
    match step.value
    case None => Success(Parsed(left, p))
    case Some(combined) => PTermRest(ts, first, combined, step.next)
  }

  /** One round of that loop: nothing without a multiplying operator, else `left` combined with the next factor. */
  function PMultiplyingStep(ts: seq<Token>, first: Token, left: Expression, p: nat): (r: Result<Parsed<Option<Expression>>>)
    ensures r.Success? ==> (r.value.value.Some? <==> At(ts, p, MultiplyingTokens))
    ensures r.Success? ==> if r.value.value.Some? then p < r.value.next else r.value.next == p
    decreases Left(ts, p), 4
  {
    if At(ts, p, MultiplyingTokens) then
      var right :- PFactor(ts, p + 1);
      Success(Parsed(Some(NewBinary(first, Tok(ts, p), left, right.value)), right.next))
    else Success(Parsed(None, p))
  }

  /** `ParseFactor`: a primary, then at most one `.member`. */
  function PFactor(ts: seq<Token>, p: nat): (r: Result<Parsed<Expression>>)
    ensures r.Success? ==> p < r.value.next
    decreases Left(ts, p), 5
  {
    var primary :- PPrimary(ts, p);
    var q := primary.next;
    if At(ts, q, {OpDot}) then
      var member :- PIdentifier(ts, q + 1);
      Success(Parsed(MemberAccessExpr(PositionOf(Tok(ts, q)), DefaultExprType, PlusSign, primary.value, member.value),
                     member.next))
    else Success(primary)
  }

  /** The alternatives of `ParseFactor`, tried in the source's order. */
  function PPrimary(ts: seq<Token>, p: nat): (r: Result<Parsed<Expression>>)
    ensures r.Success? ==> p < r.value.next
    decreases Left(ts, p), 4
  {
    var t := Tok(ts, p);
    if t.tokenType == Identifier then PCallOrVar(ts, p)
    else if t.tokenType == IntLiteral then
      var e :- IntegerLiteral(t);
      Success(Parsed(e, p + 1))
    else if t.tokenType == StringLiteral then Success(Parsed(NewStringLiteral(t), p + 1))
    else if t.tokenType == RealLiteral then Success(Parsed(NewRealLiteral(t), p + 1))
    else PParenthesisedOrNot(ts, p)
  }

  /** The last two alternatives of `ParseFactor`: `( <expression> )` and `not <factor>`. */
  function PParenthesisedOrNot(ts: seq<Token>, p: nat): (r: Result<Parsed<Expression>>)
    ensures r.Success? ==> p < r.value.next
    ensures r.Success? ==> At(ts, p, {LParen, OpNot})
    decreases Left(ts, p), 3
  {
    var t := Tok(ts, p);
    if t.tokenType == LParen then PParenthesised(ts, p + 1)
    else if t.tokenType == OpNot then
      var operand :- PFactor(ts, p + 1);
      Success(Parsed(UnaryExpr(PositionOf(t), DefaultExprType, PlusSign, Not, operand.value), operand.next))
    else Failure(SyntaxError)
  }

  /** What follows `(` in a factor: the expression itself, then `)`. */
  function PParenthesised(ts: seq<Token>, p: nat): (r: Result<Parsed<Expression>>)
    ensures r.Success? ==> p < r.value.next && At(ts, r.value.next - 1, {RParen})
    decreases Left(ts, p), 10
  {
    var inner :- PExpression(ts, p);
    var close :- Match(ts, inner.next, RParen);
    Success(Parsed(inner.value, close.next))
  }

  /** `ParseCallOrVarExpr`: a call exactly when the token after the identifier is `(`. */
  function PCallOrVar(ts: seq<Token>, p: nat): (r: Result<Parsed<Expression>>)
    ensures r.Success? ==> p < r.value.next
    ensures r.Success? ==> (r.value.value.CallExpr? <==> At(ts, p + 1, {LParen}))
    decreases Left(ts, p), 3
  {
    if At(ts, p + 1, {LParen}) then PCallExpr(ts, p) else PVariable(ts, p)
  }

  /** A call in an expression: `<name> ( <arguments> )`. */
  function PCallExpr(ts: seq<Token>, p: nat): (r: Result<Parsed<Expression>>)
    ensures r.Success? ==> p < r.value.next && r.value.value.CallExpr?
    ensures r.Success? ==> r.value.value.calleeId == ContentOf(Tok(ts, p))
    decreases Left(ts, p), 2
  {
    var id :- Match(ts, p, Identifier);
    var open :- Match(ts, p + 1, LParen);
    var args :- PArguments(ts, p + 2);
    var close :- Match(ts, args.next, RParen);
    Success(Parsed(CallExpr(PositionOf(id.value), DefaultExprType, PlusSign, ContentOf(id.value), args.value, None),
                   close.next))
  }

  /** `ParseVariable`: an identifier, subscripted when `[` follows. */
  function PVariable(ts: seq<Token>, p: nat): (r: Result<Parsed<Expression>>)
    ensures r.Success? ==> p < r.value.next && (r.value.value.VariableExpr? || r.value.value.ArrayVariableExpr?)
    ensures r.Success? ==> (r.value.value.ArrayVariableExpr? <==> At(ts, p + 1, {LBracket}))
    decreases Left(ts, p), 2
  {
    var id :- Match(ts, p, Identifier);
    if At(ts, p + 1, {LBracket}) then PSubscript(ts, id.value, p + 2)
    else Success(Parsed(NewVariableExpr(id.value), p + 1))
  }

  /** What follows `<name> [`: the subscript, then `]`. */
  function PSubscript(ts: seq<Token>, idToken: Token, p: nat): (r: Result<Parsed<Expression>>)
    ensures r.Success? ==> p < r.value.next && r.value.value.ArrayVariableExpr?
    ensures r.Success? ==> r.value.value.pos == PositionOf(idToken) && r.value.value.arrayIdentifier == ContentOf(idToken)
    decreases Left(ts, p), 10
  {
    var subscript :- PExpression(ts, p);
    var close :- Match(ts, subscript.next, RBracket);
    Success(Parsed(ArrayVariableExpr(PositionOf(idToken), DefaultExprType, PlusSign, ContentOf(idToken),
                                     subscript.value, None), close.next))
  }

  /** `ParseArguments`: nothing before `)`, otherwise comma-separated expressions. */
  function PArguments(ts: seq<Token>, p: nat): (r: Result<Parsed<seq<Expression>>>)
    ensures r.Success? ==> p <= r.value.next
    ensures At(ts, p, {RParen}) ==> r == Success(Parsed([], p))
    decreases Left(ts, p), 10
  {
    if At(ts, p, {RParen}) then Success(Parsed([], p))
    else
      var first :- PExpression(ts, p);
      PArgumentsRest(ts, [first.value], first.next)
  }

  function PArgumentsRest(ts: seq<Token>, args: seq<Expression>, p: nat): (r: Result<Parsed<seq<Expression>>>)
    ensures r.Success? ==> p <= r.value.next && args <= r.value.value
    decreases Left(ts, p), 0
  {
    if At(ts, p, {Comma}) then
      var e :- PExpression(ts, p + 1);
      PArgumentsRest(ts, args + [e.value], e.next)
    else Success(Parsed(args, p))
  }

  // ---------------------------------------------------------------- statements

  /** The tokens `StatementParsers` dispatches on. */
  const StatementStarters: set<TokenType> :=
    {KwVar, KwProcedure, KwFunction, Identifier, KwReturn, KwAssert, KwIf, KwWhile, KwBegin}

  /** The kind of statement each starting token leads to. */
  predicate Starts(t: TokenType, s: Statement)
  {
    if t.KwVar? then s.VarDeclarationStmt?
    else if t.KwProcedure? then s.ProcedureDeclarationStmt?
    else if t.KwFunction? then s.FunctionDeclarationStmt?
    else if t.Identifier? then s.AssignmentStmt? || s.CallStmt?
    else if t.KwReturn? then s.ReturnStmt?
    else if t.KwAssert? then s.AssertStmt?
    else if t.KwIf? then s.IfStmt?
    else if t.KwWhile? then s.WhileStmt?
    else if t.KwBegin? then s.BlockStmt?
    else false
  }

  /** `ParseStatement`: the parser for the current token, if the table has one. */
  function PStatement(ts: seq<Token>, p: nat): (r: Result<Parsed<Statement>>)
    ensures r.Success? ==> p < r.value.next
    ensures r.Success? ==> Starts(Tok(ts, p).tokenType, r.value.value)
    ensures !At(ts, p, StatementStarters) ==> r.Failure?
    decreases Left(ts, p), 20
  {
    var t := Tok(ts, p).tokenType;
    if t.KwVar? then PVarDeclaration(ts, p)
    else if t.KwProcedure? then PProcedure(ts, p)
    else if t.KwFunction? then PFunction(ts, p)
    else if t.Identifier? then PAssignmentOrCall(ts, p)
    else if t.KwReturn? then PReturn(ts, p)
    else if t.KwAssert? then PAssert(ts, p)
    else if t.KwIf? then PIf(ts, p)
    else if t.KwWhile? then PWhile(ts, p)
    else if t.KwBegin? then PBlock(ts, p)
    else Failure(SyntaxError)
  }

  /** `ParseBlock`: `begin`, statements separated by `;`, `end`; a `;` before `end` is allowed. */
  function PBlock(ts: seq<Token>, p: nat): (r: Result<Parsed<Statement>>)
    ensures r.Success? ==> p < r.value.next && r.value.value.BlockStmt? && |r.value.value.statements| > 0
    ensures r.Success? ==> r.value.value.pos == PositionOf(Tok(ts, p))
    decreases Left(ts, p), 15
  {
    var begin :- Match(ts, p, KwBegin);
    PBlockRest(ts, PositionOf(begin.value), [], p + 1)
  }

  /** The `while (true)` loop of `ParseBlock`, with the statements parsed so far. */
  function PBlockRest(ts: seq<Token>, pos: Position, statements: seq<Statement>, p: nat): (r: Result<Parsed<Statement>>)
    ensures r.Success? ==> p < r.value.next && r.value.value.BlockStmt? && r.value.value.pos == pos
    ensures r.Success? ==> statements < r.value.value.statements
    decreases Left(ts, p), 21
  {
    var s :- PStatement(ts, p);
    var ended :- PStatementEnd(ts, s.next);
    if ended.value then Success(Parsed(BlockStmt(pos, statements + [s.value]), ended.next))
    else PBlockRest(ts, pos, statements + [s.value], ended.next)
  }

  /**
   * What may follow a statement of a block: `; end` and `end` close the
   * block (`true`), a `;` before anything else continues it (`false`).
   */
  function PStatementEnd(ts: seq<Token>, p: nat): (r: Result<Parsed<bool>>)
    ensures r.Success? <==> At(ts, p, {LineTerm, KwEnd})
    ensures r.Success? ==> (r.value.value <==> !At(ts, p, {LineTerm}) || At(ts, p + 1, {KwEnd}))
    ensures r.Success? ==> r.value.next == if At(ts, p, {LineTerm}) && At(ts, p + 1, {KwEnd}) then p + 2 else p + 1
  {
    if At(ts, p, {LineTerm}) then
      if At(ts, p + 1, {KwEnd}) then Success(Parsed(true, p + 2)) else Success(Parsed(false, p + 1))
    else
      var end :- Match(ts, p, KwEnd);
      Success(Parsed(true, end.next))
  }

  function PVarDeclaration(ts: seq<Token>, p: nat): (r: Result<Parsed<Statement>>)
    ensures r.Success? ==> p < r.value.next && r.value.value.VarDeclarationStmt?
    ensures r.Success? ==> |r.value.value.identifiers| > 0
    decreases Left(ts, p), 15
  {
    var kw :- Match(ts, p, KwVar);
    var ids :- PIdentifiers(ts, [], p + 1);
    var ty :- PTypeAnnotation(ts, ids.next);
    Success(Parsed(VarDeclarationStmt(PositionOf(kw.value), ids.value, ty.value, []), ty.next))
  }

  /** The `do ... while (Accept(Comma))` loop over declared names. */
  function PIdentifiers(ts: seq<Token>, ids: seq<string>, p: nat): (r: Result<Parsed<seq<string>>>)
    ensures r.Success? ==> p < r.value.next && ids < r.value.value
    decreases Left(ts, p)
  {
    var id :- PIdentifier(ts, p);
    if At(ts, id.next, {Comma}) then PIdentifiers(ts, ids + [id.value], id.next + 1)
    else Success(Parsed(ids + [id.value], id.next))
  }

  /** The name and parenthesised parameter list shared by procedure and function declarations. */
  function PSignature(ts: seq<Token>, p: nat): (r: Result<Parsed<(string, seq<Parameter>)>>)
    ensures r.Success? ==> p + 2 < r.value.next
  {
    var id :- PIdentifier(ts, p);
    var params :- PParameterClause(ts, id.next);
    Success(Parsed((id.value, params.value), params.next))
  }

  /** `( <parameters> )`. */
  function PParameterClause(ts: seq<Token>, p: nat): (r: Result<Parsed<seq<Parameter>>>)
    ensures r.Success? ==> p + 1 < r.value.next
  {
    var open :- Match(ts, p, LParen);
    var params :- PParameters(ts, open.next);
    var close :- Match(ts, params.next, RParen);
    Success(Parsed(params.value, close.next))
  }

  function PProcedure(ts: seq<Token>, p: nat): (r: Result<Parsed<Statement>>)
    ensures r.Success? ==> p < r.value.next && r.value.value.ProcedureDeclarationStmt?
    decreases Left(ts, p), 15
  {
    var kw :- Match(ts, p, KwProcedure);
    PProcedureRest(ts, PositionOf(kw.value), p + 1)
  }

  /** What follows `procedure`: the signature, `;` and the body. */
  function PProcedureRest(ts: seq<Token>, pos: Position, p: nat): (r: Result<Parsed<Statement>>)
    ensures r.Success? ==> p < r.value.next && r.value.value.ProcedureDeclarationStmt?
    decreases Left(ts, p), 14
  {
    var signature :- PSignature(ts, p);
    PProcedureBody(ts, pos, signature.value, signature.next)
  }

  /** What follows a procedure's signature: `;` and the body. */
  function PProcedureBody(ts: seq<Token>, pos: Position, signature: (string, seq<Parameter>), p: nat)
    : (r: Result<Parsed<Statement>>)
    ensures r.Success? ==> p < r.value.next && r.value.value.ProcedureDeclarationStmt?
    decreases Left(ts, p), 14
  {
    var term :- Match(ts, p, LineTerm);
    var block :- PBlock(ts, p + 1);
    Success(Parsed(ProcedureDeclarationStmt(pos, signature.0, signature.1, block.value, None), block.next))
  }

  function PFunction(ts: seq<Token>, p: nat): (r: Result<Parsed<Statement>>)
    ensures r.Success? ==> p < r.value.next && r.value.value.FunctionDeclarationStmt?
    decreases Left(ts, p), 15
  {
    var kw :- Match(ts, p, KwFunction);
    PFunctionRest(ts, PositionOf(kw.value), p + 1)
  }

  /** What follows `function`: the signature, the return type and the body. */
  function PFunctionRest(ts: seq<Token>, pos: Position, p: nat): (r: Result<Parsed<Statement>>)
    ensures r.Success? ==> p < r.value.next && r.value.value.FunctionDeclarationStmt?
    decreases Left(ts, p), 14
  {
    var signature :- PSignature(ts, p);
    PFunctionBody(ts, pos, signature.value, signature.next)
  }

  /** What follows a function's signature: the return type and the body. */
  function PFunctionBody(ts: seq<Token>, pos: Position, signature: (string, seq<Parameter>), p: nat)
    : (r: Result<Parsed<Statement>>)
    ensures r.Success? ==> p < r.value.next && r.value.value.FunctionDeclarationStmt?
    decreases Left(ts, p), 14
  {
    var returnType :- PReturnType(ts, p);
    var block :- PBlock(ts, returnType.next);
    Success(Parsed(FunctionDeclarationStmt(pos, signature.0, signature.1, returnType.value, block.value, None),
                   block.next))
  }

  /** `: <type> ;` after a function's parameter list. */
  function PReturnType(ts: seq<Token>, p: nat): (r: Result<Parsed<TypeNode>>)
    ensures r.Success? ==> p + 2 < r.value.next
  {
    var returnType :- PTypeAnnotation(ts, p);
    var term :- Match(ts, returnType.next, LineTerm);
    Success(Parsed(returnType.value, term.next))
  }

  /** `ParseParameters`: nothing before `)`, otherwise comma-separated `[var] name : type`. */
  function PParameters(ts: seq<Token>, p: nat): (r: Result<Parsed<seq<Parameter>>>)
    ensures r.Success? ==> p <= r.value.next
    ensures At(ts, p, {RParen}) ==> r == Success(Parsed([], p))
  {
    if At(ts, p, {RParen}) then Success(Parsed([], p)) else PParameterList(ts, p)
  }

  /** One pass of the `do ... while (Accept(Comma))` loop over parameters, and the passes after it. */
  function PParameterList(ts: seq<Token>, p: nat): (r: Result<Parsed<seq<Parameter>>>)
    ensures r.Success? ==> p < r.value.next && |r.value.value| > 0
  {
    var first :- PParameter(ts, p, false);
    PParameterListRest(ts, [first.value], first.next)
  }

  /** The loop's condition `Accept(Comma)` and, when it holds, the next pass. */
  function PParameterListRest(ts: seq<Token>, params: seq<Parameter>, p: nat): (r: Result<Parsed<seq<Parameter>>>)
    ensures r.Success? ==> p <= r.value.next && params <= r.value.value
    ensures !At(ts, p, {Comma}) ==> r == Success(Parsed(params, p))
    decreases Left(ts, p)
  {
    if !At(ts, p, {Comma}) then Success(Parsed(params, p))
    else
      var param :- PParameter(ts, p + 1, false);
      PParameterListRest(ts, params + [param.value], param.next)
  }

  /**
   * One parameter: a `var` in front (consumed when `reference` is not yet
   * set) makes it a reference parameter.
   */
  function PParameter(ts: seq<Token>, p: nat, reference: bool): (r: Result<Parsed<Parameter>>)
    ensures r.Success? ==> p < r.value.next
    ensures r.Success? ==> (r.value.value.referenceParameter <==> reference || At(ts, p, {KwVar}))
    decreases Left(ts, p)
  {
    if !reference && At(ts, p, {KwVar}) then PParameter(ts, p + 1, true)
    else
      var id :- PIdentifier(ts, p);
      var ty :- PTypeAnnotation(ts, id.next);
      Success(Parsed(Parameter(id.value, ty.value, reference), ty.next))
  }

  function PWhile(ts: seq<Token>, p: nat): (r: Result<Parsed<Statement>>)
    ensures r.Success? ==> p < r.value.next && r.value.value.WhileStmt?
    decreases Left(ts, p), 15
  {
    var kw :- Match(ts, p, KwWhile);
    PWhileRest(ts, PositionOf(kw.value), p + 1)
  }

  /** What follows `while`: the test, `do` and the body. */
  function PWhileRest(ts: seq<Token>, pos: Position, p: nat): (r: Result<Parsed<Statement>>)
    ensures r.Success? ==> p < r.value.next && r.value.value.WhileStmt? && r.value.value.pos == pos
    decreases Left(ts, p), 14
  {
    var test :- PExpression(ts, p);
    var doToken :- Match(ts, test.next, KwDo);
    var body :- PStatement(ts, doToken.next);
    Success(Parsed(WhileStmt(pos, test.value, body.value), body.next))
  }

  /** `ParseIfStatement`: the `else` branch is taken whenever `else` follows the first branch. */
  function PIf(ts: seq<Token>, p: nat): (r: Result<Parsed<Statement>>)
    ensures r.Success? ==> p < r.value.next && r.value.value.IfStmt?
    ensures r.Success? ==> r.value.value.pos == PositionOf(Tok(ts, p))
    decreases Left(ts, p), 15
  {
    var kw :- Match(ts, p, KwIf);
    PIfRest(ts, PositionOf(kw.value), p + 1)
  }

  /** What follows `if`: the test and `then`. */
  function PIfRest(ts: seq<Token>, pos: Position, p: nat): (r: Result<Parsed<Statement>>)
    ensures r.Success? ==> p < r.value.next && r.value.value.IfStmt? && r.value.value.pos == pos
    decreases Left(ts, p), 14
  {
    var test :- PExpression(ts, p);
    var thenToken :- Match(ts, test.next, KwThen);
    PIfBranches(ts, pos, test.value, thenToken.next)
  }

  /** What follows `then`: the first branch and the optional `else` branch. */
  function PIfBranches(ts: seq<Token>, pos: Position, test: Expression, p: nat): (r: Result<Parsed<Statement>>)
    ensures r.Success? ==> p < r.value.next && r.value.value.IfStmt?
    ensures r.Success? ==> r.value.value.pos == pos && r.value.value.test == test
    decreases Left(ts, p), 22
  {
    var trueStatement :- PStatement(ts, p);
    var falseStatement :- PElse(ts, trueStatement.next);
    Success(Parsed(IfStmt(pos, test, trueStatement.value, falseStatement.value), falseStatement.next))
  }

  /** The optional `else` branch: whenever `else` follows, the statement after it is parsed. */
  function PElse(ts: seq<Token>, p: nat): (r: Result<Parsed<Option<Statement>>>)
    ensures r.Success? ==> p <= r.value.next && (r.value.value.Some? <==> At(ts, p, {KwElse}))
    decreases Left(ts, p), 21
  {
    if At(ts, p, {KwElse}) then
      var falseStatement :- PStatement(ts, p + 1);
      Success(Parsed(Some(falseStatement.value), falseStatement.next))
    else Success(Parsed(None, p))
  }

  function PAssert(ts: seq<Token>, p: nat): (r: Result<Parsed<Statement>>)
    ensures r.Success? ==> p < r.value.next && r.value.value.AssertStmt?
    decreases Left(ts, p), 15
  {
    var kw :- Match(ts, p, KwAssert);
    var test :- PExpression(ts, p + 1);
    Success(Parsed(AssertStmt(PositionOf(kw.value), test.value), test.next))
  }

  /** `ParseReturnStmt`: a value is parsed exactly when the token after `return` can start an expression. */
  function PReturn(ts: seq<Token>, p: nat): (r: Result<Parsed<Statement>>)
    ensures r.Success? ==> p < r.value.next && r.value.value.ReturnStmt?
    ensures r.Success? ==> (r.value.value.returnExpression.Some? <==> Tok(ts, p + 1).tokenType in FirstSet)
    decreases Left(ts, p), 15
  {
    var kw :- Match(ts, p, KwReturn);
    if Tok(ts, p + 1).tokenType in FirstSet then
      var value :- PExpression(ts, p + 1);
      Success(Parsed(ReturnStmt(PositionOf(kw.value), Some(value.value)), value.next))
    else Success(Parsed(ReturnStmt(PositionOf(kw.value), None), p + 1))
  }

  /** `ParseAssignmentOrCall`: a call exactly when the token after the identifier is `(`. */
  function PAssignmentOrCall(ts: seq<Token>, p: nat): (r: Result<Parsed<Statement>>)
    ensures r.Success? ==> p < r.value.next && (r.value.value.AssignmentStmt? || r.value.value.CallStmt?)
    ensures r.Success? ==> (r.value.value.CallStmt? <==> At(ts, p + 1, {LParen}))
    decreases Left(ts, p), 15
  {
    if At(ts, p + 1, {LParen}) then PCall(ts, p) else PAssignment(ts, p)
  }

  function PAssignment(ts: seq<Token>, p: nat): (r: Result<Parsed<Statement>>)
    ensures r.Success? ==> p < r.value.next && r.value.value.AssignmentStmt?
    ensures r.Success? ==> r.value.value.pos == PositionOf(Tok(ts, p))
    decreases Left(ts, p), 14
  {
    var variable :- PVariable(ts, p);
    var assign :- Match(ts, variable.next, OpAssignment);
    var value :- PExpression(ts, assign.next);
    Success(Parsed(AssignmentStmt(PositionOf(Tok(ts, p)), variable.value, value.value, None), value.next))
  }

  function PCall(ts: seq<Token>, p: nat): (r: Result<Parsed<Statement>>)
    ensures r.Success? ==> p < r.value.next && r.value.value.CallStmt?
    decreases Left(ts, p), 14
  {
    var id :- Match(ts, p, Identifier);
    var open :- Match(ts, p + 1, LParen);
    var args :- PArguments(ts, p + 2);
    var close :- Match(ts, args.next, RParen);
    Success(Parsed(CallStmt(PositionOf(id.value), ContentOf(id.value), args.value, None), close.next))
  }

  /** `Parse`: `program <name> ; <block> .`; tokens after the final `.` are not read. */
  function PProgram(ts: seq<Token>, p: nat): (r: Result<ProgramNode>)
    ensures r.Success? ==> At(ts, p, {KwProgram}) && r.value.pos == PositionOf(Tok(ts, p))
    ensures r.Success? ==> r.value.identifier == ContentOf(Tok(ts, p + 1))
    ensures r.Success? ==> r.value.block.BlockStmt? && |r.value.block.statements| > 0
  {
    var kw :- Match(ts, p, KwProgram);
    var id :- PIdentifier(ts, p + 1);
    PProgramBody(ts, PositionOf(kw.value), id.value, id.next)
  }

  /** The `;` after the program's name, the block and the final `.`. */
  function PProgramBody(ts: seq<Token>, pos: Position, identifier: string, p: nat): (r: Result<ProgramNode>)
    ensures r.Success? ==> r.value.pos == pos && r.value.identifier == identifier
    ensures r.Success? ==> r.value.block.BlockStmt? && |r.value.block.statements| > 0
  {
    var term :- Match(ts, p, LineTerm);
    var block :- PBlock(ts, p + 1);
    var dot :- Match(ts, block.next, OpDot);
    Success(ProgramNode(pos, identifier, block.value))
  }

  // ---------------------------------------------------------------- the imperative parser

  /** The scanner as the parser sees it: its tokens in order, then `EndOfInput` on every later call. */
  class TokenSource {
    const tokens: seq<Token>
    /** How many tokens have been handed out. */
    var read: nat

    constructor (tokens: seq<Token>)
      ensures this.tokens == tokens && read == 0
    {
      this.tokens := tokens;
      read := 0;
    }

    method GetNextToken() returns (t: Token)
      modifies this
      ensures t == Tok(tokens, old(read)) && read == old(read) + 1
    {
      t := Tok(tokens, read);
      read := read + 1;
    }
  }

  /**
   * The stream index `MatchPeek(offset, ...)` inspects, as written, when
   * `buffered` tokens are already queued and the current token has index
   * `at`. It is `at + offset` when nothing is queued, as every caller
   * arranges; with a non-empty queue it is one too far (`buffered > offset`)
   * or the current token (`buffered == offset`).
   */
  function PeekIndexAsWritten(at: nat, buffered: nat, offset: nat): nat
  {
    if buffered > offset then at + 1 + offset
    else if buffered == offset then at
    else at + offset
  }

  class Parser {
    const scanner: TokenSource
    var current: Token
    var accepted: Token
    /** `TokenBuffer`: tokens read from the scanner by `MatchPeek` but not yet current. */
    var buffer: seq<Token>
    /** The index of `current` in the token stream. */
    ghost var at: nat

    /** The current token and the queued ones are the stream's tokens from `at` on, and nothing more was read. */
    ghost predicate Valid()
      reads this, scanner
    {
      scanner.read == at + 1 + |buffer| &&
      current == Tok(scanner.tokens, at) &&
      forall k :: 0 <= k < |buffer| ==> buffer[k] == Tok(scanner.tokens, at + 1 + k)
    }

    /** A parse method's outcome `r`, and the state after it, agree with the reference parse `spec`. */
    ghost predicate Finished<T>(r: Result<T>, spec: Result<Parsed<T>>)
      reads this, scanner
    {
      match r
      case Success(v) => spec == Success(Parsed(v, at)) && Valid() && buffer == []
      case Failure(e) => spec == Failure(e)
    }

    /** The constructor reads the first token. */
    constructor (scanner: TokenSource)
      modifies scanner
      ensures this.scanner == scanner && Valid() && at == old(scanner.read) && buffer == []
    {
      this.scanner := scanner;
      at := scanner.read;
      buffer := [];
      accepted := EndOfInput;
      var first := scanner.GetNextToken();
      current := first;
    }

    /** `NextToken`: the queue is drained before the scanner is read again. */
    method NextToken()
      requires Valid()
      modifies this, scanner
      ensures Valid() && at == old(at) + 1 && accepted == old(accepted)
      ensures buffer == if old(buffer) == [] then [] else old(buffer)[1..]
      ensures old(buffer) != [] ==> current == old(buffer[0]) && scanner.read == old(scanner.read)
    {
      if |buffer| > 0 {
        current := buffer[0];
        buffer := buffer[1..];
      } else {
        current := scanner.GetNextToken();
      }
      at := at + 1;
    }

    /** `MatchPeek`: looks ahead, queueing what it reads, without moving the current token. */
    method MatchPeek(offset: nat, expected: seq<TokenType>) returns (b: bool)
      requires Valid()
      modifies this, scanner
      ensures Valid() && at == old(at) && current == old(current) && accepted == old(accepted)
      ensures |buffer| == if offset > |old(buffer)| then offset else |old(buffer)|
      ensures b == (Tok(scanner.tokens, PeekIndexAsWritten(old(at), |old(buffer)|, offset)).tokenType in expected)
      ensures old(buffer) == [] ==> b == (Tok(scanner.tokens, old(at) + offset).tokenType in expected)
    {
      var peeked := current;
      if |buffer| > offset {
        peeked := buffer[offset];
      }
      var remaining: int := offset - |buffer|;
      var i := 0;
      while i < remaining
        invariant Valid() && at == old(at) && current == old(current) && accepted == old(accepted)
        invariant 0 <= i && (0 < remaining ==> i <= remaining) && (remaining <= 0 ==> i == 0)
        invariant |buffer| == |old(buffer)| + i
        invariant i == 0 ==> peeked == if |old(buffer)| > offset then Tok(scanner.tokens, at + 1 + offset) else current
        invariant i > 0 ==> peeked == Tok(scanner.tokens, at + |buffer|)
      {
        peeked := scanner.GetNextToken();
        buffer := buffer + [peeked];
        i := i + 1;
      }
      b := peeked.tokenType in expected;
    }

    /** `Accept`: consumes the current token exactly when its type is expected. */
    method Accept(expected: set<TokenType>) returns (ok: bool)
      requires Valid()
      modifies this, scanner
      ensures Valid() && ok == (old(current).tokenType in expected)
      ensures ok ==> accepted == old(current) && at == old(at) + 1
      ensures ok ==> buffer == if old(buffer) == [] then [] else old(buffer)[1..]
      ensures !ok ==> at == old(at) && current == old(current) && accepted == old(accepted) && buffer == old(buffer)
    {
      if current.tokenType in expected {
        accepted := current;
        NextToken();
        return true;
      }
      return false;
    }

    /** `Match`: like `Accept` for one type, except that a mismatch aborts the parse. */
    method Match(expected: TokenType) returns (r: Result<Token>)
      requires Valid()
      modifies this, scanner
      ensures Valid() && (r.Success? <==> old(current).tokenType == expected)
      ensures r.Success? ==> r.value == old(current) && accepted == old(current) && at == old(at) + 1
      ensures r.Success? ==> buffer == if old(buffer) == [] then [] else old(buffer)[1..]
      ensures r.Failure? ==> r == Failure(SyntaxError)
    {
      if current.tokenType != expected {
        return Failure(SyntaxError);
      }
      accepted := current;
      NextToken();
      return Success(accepted);
    }

    method Parse() returns (r: Result<ProgramNode>)
      requires Valid() && buffer == []
      modifies this, scanner
      ensures r == PProgram(scanner.tokens, old(at))
    {
      var kw :- Match(KwProgram);
      var id :- ParseIdentifier();
      r := ParseProgramBody(PositionOf(kw), id);
    }

    /** `Match(LineTerm)`, the block and `Match(OpDot)` in `Parse`. */
    method ParseProgramBody(pos: Position, identifier: string) returns (r: Result<ProgramNode>)
      requires Valid() && buffer == []
      modifies this, scanner
      ensures r == PProgramBody(scanner.tokens, pos, identifier, old(at))
    {
      var term :- Match(LineTerm);
      var block :- ParseBlock();
      var dot :- Match(OpDot);
      return Success(ProgramNode(pos, identifier, block));
    }

    method ParseIdentifier() returns (r: Result<string>)
      requires Valid() && buffer == []
      modifies this, scanner
      ensures Finished(r, PIdentifier(scanner.tokens, old(at)))
    {
      var id :- Match(Identifier);
      return Success(ContentOf(accepted));
    }

    /** `ParseTypeName`, on the token last accepted. */
    method ParseTypeName() returns (r: Result<ExprType>)
      ensures r == PTypeName(accepted)
    {
      var found := Lookup(KnownTypes, ContentOf(accepted));
      if found.Some? {
        return Success(found.value);
      }
      return Failure(SyntaxError);
    }

    /** `Match(Colon)` followed by `ParseType`, as the declarations use them. */
    method ParseTypeAnnotation() returns (r: Result<TypeNode>)
      requires Valid() && buffer == []
      modifies this, scanner
      ensures Finished(r, PTypeAnnotation(scanner.tokens, old(at)))
    {
      var colon :- Match(Colon);
      r := ParseType();
    }

    method ParseType() returns (r: Result<TypeNode>)
      requires Valid() && buffer == []
      modifies this, scanner
      ensures Finished(r, PType(scanner.tokens, old(at)))
    {
      var simple := Accept({Identifier});
      if simple {
        var ty :- ParseTypeName();
        return Success(SimpleType(PositionOf(accepted), ty));
      }
      var isArray := Accept({KwArray});
      if isArray {
        var arrayToken := accepted;
        var open :- Match(LBracket);
        var size :- Match(IntLiteral);
        var sizeExpr :- IntegerLiteral(accepted);
        var close :- Match(RBracket);
        var of :- Match(KwOf);
        var name :- Match(Identifier);
        var ty :- ParseTypeName();
        return Success(ArrayType(PositionOf(arrayToken), ty, Some(sizeExpr)));
      }
      return Failure(SyntaxError);
    }


    method ParseExpression() returns (r: Result<Expression>)
      requires Valid() && buffer == []
      modifies this, scanner
      ensures Finished(r, PExpression(scanner.tokens, old(at)))
      decreases Left(scanner.tokens, at), 9
    {
      var first := current;
      var left :- ParseSimpleExpression();
      var relational := Accept(RelationalTokens);
      if relational {
        var opToken := accepted;
        var right :- ParseSimpleExpression();
        return Success(NewBinary(first, opToken, left, right));
      }
      return Success(left);
    }

    method ParseSimpleExpression() returns (r: Result<Expression>)
      requires Valid() && buffer == []
      modifies this, scanner
      ensures Finished(r, PSimple(scanner.tokens, old(at)))
      decreases Left(scanner.tokens, at), 8
    {
      var first := current;
      var sign := PlusSign;
      var signed := Accept({TokenType.Minus, TokenType.Plus});
      if signed {
        sign := if accepted.tokenType == TokenType.Minus then MinusSign else PlusSign;
      }
      var term :- ParseTerm();
      r := ParseAddingOperators(first, WithLeadingSign(term, sign));
    }

    /** The `while (Accept(Plus, Minus, OpOr))` loop of `ParseSimpleExpression`. */
    method ParseAddingOperators(first: Token, firstTerm: Expression) returns (r: Result<Expression>)
      requires Valid() && buffer == []
      modifies this, scanner
      ensures Finished(r, PSimpleRest(scanner.tokens, first, firstTerm, old(at)))
      decreases Left(scanner.tokens, at), 7
    {
      var left := firstTerm;
      while true
        invariant Valid() && buffer == [] && Left(scanner.tokens, at) <= Left(scanner.tokens, old(at))
        invariant PSimpleRest(scanner.tokens, first, left, at) == PSimpleRest(scanner.tokens, first, firstTerm, old(at))
        decreases Left(scanner.tokens, at)
      {
        var step :- ParseAddingStep(first, left);
        if step.None? {
          return Success(left);
        }
        left := step.value;
      }
    }

    /** The body of that loop. */
    method ParseAddingStep(first: Token, left: Expression) returns (r: Result<Option<Expression>>)
      requires Valid() && buffer == []
      modifies this, scanner
      ensures Finished(r, PAddingStep(scanner.tokens, first, left, old(at)))
      decreases Left(scanner.tokens, at), 6
    {
      var more := Accept(AddingTokens);
      if !more {
        return Success(None);
      }
      var opToken := accepted;
      var right :- ParseTerm();
      return Success(Some(NewBinary(first, opToken, left, right)));
    }

    method ParseTerm() returns (r: Result<Expression>)
      requires Valid() && buffer == []
      modifies this, scanner
      ensures Finished(r, PTerm(scanner.tokens, old(at)))
      decreases Left(scanner.tokens, at), 6
    {
      var first := current;
      var left :- ParseFactor();
      r := ParseMultiplyingOperators(first, left);
    }

    /** The `while (Accept(OpMultiply, OpDivide, OpModulus, OpAnd))` loop of `ParseTerm`. */
    method ParseMultiplyingOperators(first: Token, firstFactor: Expression) returns (r: Result<Expression>)
      requires Valid() && buffer == []
      modifies this, scanner
      ensures Finished(r, PTermRest(scanner.tokens, first, firstFactor, old(at)))
      decreases Left(scanner.tokens, at), 5
    {
      var left := firstFactor;
      while true
        invariant Valid() && buffer == [] && Left(scanner.tokens, at) <= Left(scanner.tokens, old(at))
        invariant PTermRest(scanner.tokens, first, left, at) == PTermRest(scanner.tokens, first, firstFactor, old(at))
        decreases Left(scanner.tokens, at)
      {
        var step :- ParseMultiplyingStep(first, left);
        if step.None? {
          return Success(left);
        }
        left := step.value;
      }
    }

    /** The body of that loop. */
    method ParseMultiplyingStep(first: Token, left: Expression) returns (r: Result<Option<Expression>>)
      requires Valid() && buffer == []
      modifies this, scanner
      ensures Finished(r, PMultiplyingStep(scanner.tokens, first, left, old(at)))
      decreases Left(scanner.tokens, at), 4
    {
      var more := Accept(MultiplyingTokens);
      if !more {
        return Success(None);
      }
      var opToken := accepted;
      var right :- ParseFactor();
      return Success(Some(NewBinary(first, opToken, left, right)));
    }

    method ParseFactor() returns (r: Result<Expression>)
      requires Valid() && buffer == []
      modifies this, scanner
      ensures Finished(r, PFactor(scanner.tokens, old(at)))
      decreases Left(scanner.tokens, at), 5
    {
      var factor :- ParsePrimary();
      var dot := Accept({OpDot});
      if dot {
        var dotToken := accepted;
        var member :- ParseIdentifier();
        return Success(MemberAccessExpr(PositionOf(dotToken), DefaultExprType, PlusSign, factor, member));
      }
      return Success(factor);
    }

    /** The chain of alternatives at the head of `ParseFactor`. */
    method ParsePrimary() returns (r: Result<Expression>)
      requires Valid() && buffer == []
      modifies this, scanner
      ensures Finished(r, PPrimary(scanner.tokens, old(at)))
      decreases Left(scanner.tokens, at), 4
    {
      if current.tokenType == Identifier {
        r := ParseCallOrVarExpr();
        return;
      }
      var isInt := Accept({IntLiteral});
      if isInt {
        r := IntegerLiteral(accepted);
        return;
      }
      var isString := Accept({StringLiteral});
      if isString {
        return Success(NewStringLiteral(accepted));
      }
      var isReal := Accept({RealLiteral});
      if isReal {
        return Success(NewRealLiteral(accepted));
      }
      r := ParseParenthesisedOrNot();
    }

    method ParseParenthesisedOrNot() returns (r: Result<Expression>)
      requires Valid() && buffer == []
      modifies this, scanner
      ensures Finished(r, PParenthesisedOrNot(scanner.tokens, old(at)))
      decreases Left(scanner.tokens, at), 3
    {
      var isParenthesised := Accept({LParen});
      if isParenthesised {
        r := ParseParenthesised();
        return;
      }
      var isNot := Accept({OpNot});
      if isNot {
        var notToken := accepted;
        var operand :- ParseFactor();
        return Success(UnaryExpr(PositionOf(notToken), DefaultExprType, PlusSign, Not, operand));
      }
      return Failure(SyntaxError);
    }

    /** `ParseExpression` and `Match(RParen)` after an accepted `(` in `ParseFactor`. */
    method ParseParenthesised() returns (r: Result<Expression>)
      requires Valid() && buffer == []
      modifies this, scanner
      ensures Finished(r, PParenthesised(scanner.tokens, old(at)))
      decreases Left(scanner.tokens, at), 10
    {
      var inner :- ParseExpression();
      var close :- Match(RParen);
      return Success(inner);
    }

    method ParseCallOrVarExpr() returns (r: Result<Expression>)
      requires Valid() && buffer == []
      modifies this, scanner
      ensures Finished(r, PCallOrVar(scanner.tokens, old(at)))
      decreases Left(scanner.tokens, at), 3
    {
      var isCall := MatchPeek(1, [LParen]);
      if isCall {
        r := ParseCallExpr();
        return;
      }
      r := ParseVariable();
    }

    /** The call branch of `ParseCallOrVarExpr`; `(` may already be queued by the peek. */
    method ParseCallExpr() returns (r: Result<Expression>)
      requires Valid() && |buffer| <= 1
      modifies this, scanner
      ensures Finished(r, PCallExpr(scanner.tokens, old(at)))
      decreases Left(scanner.tokens, at), 2
    {
      var id :- Match(Identifier);
      var open :- Match(LParen);
      var args :- ParseArguments();
      var close :- Match(RParen);
      return Success(CallExpr(PositionOf(id), DefaultExprType, PlusSign, ContentOf(id), args, None));
    }

    /** `ParseVariable`; it may start with the token after the identifier already queued by a peek. */
    method ParseVariable() returns (r: Result<Expression>)
      requires Valid() && |buffer| <= 1
      modifies this, scanner
      ensures Finished(r, PVariable(scanner.tokens, old(at)))
      decreases Left(scanner.tokens, at), 2
    {
      var idToken :- Match(Identifier);
      var subscripted := Accept({LBracket});
      if subscripted {
        r := ParseSubscript(idToken);
        return;
      }
      return Success(NewVariableExpr(idToken));
    }

    /** The subscript and `]` after an accepted `[` in `ParseVariable`. */
    method ParseSubscript(idToken: Token) returns (r: Result<Expression>)
      requires Valid() && buffer == []
      modifies this, scanner
      ensures Finished(r, PSubscript(scanner.tokens, idToken, old(at)))
      decreases Left(scanner.tokens, at), 10
    {
      var subscript :- ParseExpression();
      var close :- Match(RBracket);
      return Success(ArrayVariableExpr(PositionOf(idToken), DefaultExprType, PlusSign, ContentOf(idToken),
                                       subscript, None));
    }

    method ParseArguments() returns (r: Result<seq<Expression>>)
      requires Valid() && buffer == []
      modifies this, scanner
      ensures Finished(r, PArguments(scanner.tokens, old(at)))
      decreases Left(scanner.tokens, at), 10
    {
      if current.tokenType == RParen {
        return Success([]);
      }
      var first :- ParseExpression();
      r := ParseMoreArguments([first]);
    }

    /** The `while (Accept(Comma))` condition of `ParseArguments`' loop and the arguments after it. */
    method ParseMoreArguments(args: seq<Expression>) returns (r: Result<seq<Expression>>)
      requires Valid() && buffer == []
      modifies this, scanner
      ensures Finished(r, PArgumentsRest(scanner.tokens, args, old(at)))
      decreases Left(scanner.tokens, at), 0
    {
      var arguments := args;
      while true
        invariant Valid() && buffer == [] && Left(scanner.tokens, at) <= Left(scanner.tokens, old(at))
        invariant PArgumentsRest(scanner.tokens, arguments, at) == PArgumentsRest(scanner.tokens, args, old(at))
        decreases Left(scanner.tokens, at)
      {
        var more := Accept({Comma});
        if !more {
          return Success(arguments);
        }
        var argument :- ParseExpression();
        arguments := arguments + [argument];
      }
    }

    method ParseStatement() returns (r: Result<Statement>)
      requires Valid() && buffer == []
      modifies this, scanner
      ensures Finished(r, PStatement(scanner.tokens, old(at)))
      decreases Left(scanner.tokens, at), 20
    {
      var t := current.tokenType;
      if t.KwVar? {
        r := ParseVarDeclaration();
      } else if t.KwProcedure? {
        r := ParseProcedureDeclaration();
      } else if t.KwFunction? {
        r := ParseFunctionDeclaration();
      } else if t.Identifier? {
        r := ParseAssignmentOrCall();
      } else if t.KwReturn? {
        r := ParseReturnStmt();
      } else if t.KwAssert? {
        r := ParseAssertStmt();
      } else if t.KwIf? {
        r := ParseIfStatement();
      } else if t.KwWhile? {
        r := ParseWhileStatement();
      } else if t.KwBegin? {
        r := ParseBlock();
      } else {
        r := Failure(SyntaxError);
      }
    }

    method ParseBlock() returns (r: Result<Statement>)
      requires Valid() && buffer == []
      modifies this, scanner
      ensures Finished(r, PBlock(scanner.tokens, old(at)))
      decreases Left(scanner.tokens, at), 15
    {
      var begin :- Match(KwBegin);
      r := ParseBlockStatements(PositionOf(begin));
    }

    /** The `while (true)` loop of `ParseBlock`, up to and including `end`. */
    method ParseBlockStatements(pos: Position) returns (r: Result<Statement>)
      requires Valid() && buffer == []
      modifies this, scanner
      ensures Finished(r, PBlockRest(scanner.tokens, pos, [], old(at)))
      decreases Left(scanner.tokens, at), 21
    {
      var statements: seq<Statement> := [];
      while true
        invariant Valid() && buffer == [] && Left(scanner.tokens, at) <= Left(scanner.tokens, old(at))
        invariant PBlockRest(scanner.tokens, pos, statements, at) == PBlockRest(scanner.tokens, pos, [], old(at))
        decreases Left(scanner.tokens, at)
      {
        var s :- ParseStatement();
        statements := statements + [s];
        var ended :- ParseStatementEnd();
        if ended {
          return Success(BlockStmt(pos, statements));
        }
      }
    }

    /** The separator test at the end of `ParseBlock`'s loop body: `true` when the block is closed. */
    method ParseStatementEnd() returns (r: Result<bool>)
      requires Valid() && buffer == []
      modifies this, scanner
      ensures Finished(r, PStatementEnd(scanner.tokens, old(at)))
    {
      var separated := Accept({LineTerm});
      if separated {
        var ended := Accept({KwEnd});
        return Success(ended);
      }
      var end :- Match(KwEnd);
      return Success(true);
    }

    method ParseVarDeclaration() returns (r: Result<Statement>)
      requires Valid() && buffer == []
      modifies this, scanner
      ensures Finished(r, PVarDeclaration(scanner.tokens, old(at)))
      decreases Left(scanner.tokens, at), 15
    {
      var kw :- Match(KwVar);
      var identifiers :- ParseIdentifierList();
      var ty :- ParseTypeAnnotation();
      return Success(VarDeclarationStmt(PositionOf(kw), identifiers, ty, []));
    }

    /** The `do ... while (Accept(Comma))` loop of `ParseVarDeclaration`. */
    method ParseIdentifierList() returns (r: Result<seq<string>>)
      requires Valid() && buffer == []
      modifies this, scanner
      ensures Finished(r, PIdentifiers(scanner.tokens, [], old(at)))
    {
      var identifiers: seq<string> := [];
      while true
        invariant Valid() && buffer == []
        invariant PIdentifiers(scanner.tokens, identifiers, at) == PIdentifiers(scanner.tokens, [], old(at))
        decreases Left(scanner.tokens, at)
      {
        var id :- ParseIdentifier();
        identifiers := identifiers + [id];
        var more := Accept({Comma});
        if !more {
          return Success(identifiers);
        }
      }
    }

    method ParseProcedureDeclaration() returns (r: Result<Statement>)
      requires Valid() && buffer == []
      modifies this, scanner
      ensures Finished(r, PProcedure(scanner.tokens, old(at)))
      decreases Left(scanner.tokens, at), 15
    {
      var kw :- Match(KwProcedure);
      r := ParseProcedureRest(PositionOf(kw));
    }

    /** `ParseProcedureDeclaration` after the keyword. */
    method ParseProcedureRest(pos: Position) returns (r: Result<Statement>)
      requires Valid() && buffer == []
      modifies this, scanner
      ensures Finished(r, PProcedureRest(scanner.tokens, pos, old(at)))
      decreases Left(scanner.tokens, at), 14
    {
      var signature :- ParseSignature();
      r := ParseProcedureBody(pos, signature);
    }

    /** `Match(LineTerm)` and the body in `ParseProcedureDeclaration`. */
    method ParseProcedureBody(pos: Position, signature: (string, seq<Parameter>)) returns (r: Result<Statement>)
      requires Valid() && buffer == []
      modifies this, scanner
      ensures Finished(r, PProcedureBody(scanner.tokens, pos, signature, old(at)))
      decreases Left(scanner.tokens, at), 14
    {
      var term :- Match(LineTerm);
      var block :- ParseBlock();
      return Success(ProcedureDeclarationStmt(pos, signature.0, signature.1, block, None));
    }

    method ParseFunctionDeclaration() returns (r: Result<Statement>)
      requires Valid() && buffer == []
      modifies this, scanner
      ensures Finished(r, PFunction(scanner.tokens, old(at)))
      decreases Left(scanner.tokens, at), 15
    {
      var kw :- Match(KwFunction);
      r := ParseFunctionRest(PositionOf(kw));
    }

    /** `ParseFunctionDeclaration` after the keyword. */
    method ParseFunctionRest(pos: Position) returns (r: Result<Statement>)
      requires Valid() && buffer == []
      modifies this, scanner
      ensures Finished(r, PFunctionRest(scanner.tokens, pos, old(at)))
      decreases Left(scanner.tokens, at), 14
    {
      var signature :- ParseSignature();
      r := ParseFunctionBody(pos, signature);
    }

    /** The return type and the body in `ParseFunctionDeclaration`. */
    method ParseFunctionBody(pos: Position, signature: (string, seq<Parameter>)) returns (r: Result<Statement>)
      requires Valid() && buffer == []
      modifies this, scanner
      ensures Finished(r, PFunctionBody(scanner.tokens, pos, signature, old(at)))
      decreases Left(scanner.tokens, at), 14
    {
      var returnType :- ParseReturnType();
      var block :- ParseBlock();
      return Success(FunctionDeclarationStmt(pos, signature.0, signature.1, returnType, block, None));
    }

    /** The steps `ParseProcedureDeclaration` and `ParseFunctionDeclaration` share: `<name> ( <parameters> )`. */
    method ParseSignature() returns (r: Result<(string, seq<Parameter>)>)
      requires Valid() && buffer == []
      modifies this, scanner
      ensures Finished(r, PSignature(scanner.tokens, old(at)))
    {
      var id :- ParseIdentifier();
      var parameters :- ParseParameterClause();
      return Success((id, parameters));
    }

    /** `Match(LParen)`, `ParseParameters`, `Match(RParen)` in the declarations. */
    method ParseParameterClause() returns (r: Result<seq<Parameter>>)
      requires Valid() && buffer == []
      modifies this, scanner
      ensures Finished(r, PParameterClause(scanner.tokens, old(at)))
    {
      var open :- Match(LParen);
      var parameters :- ParseParameters();
      var close :- Match(RParen);
      return Success(parameters);
    }

    /** `: <type> ;` in `ParseFunctionDeclaration`. */
    method ParseReturnType() returns (r: Result<TypeNode>)
      requires Valid() && buffer == []
      modifies this, scanner
      ensures Finished(r, PReturnType(scanner.tokens, old(at)))
    {
      var returnType :- ParseTypeAnnotation();
      var term :- Match(LineTerm);
      return Success(returnType);
    }

    method ParseParameters() returns (r: Result<seq<Parameter>>)
      requires Valid() && buffer == []
      modifies this, scanner
      ensures Finished(r, PParameters(scanner.tokens, old(at)))
    {
      if current.tokenType == RParen {
        return Success([]);
      }
      r := ParseParameterList();
    }

    /** The `do ... while (Accept(Comma))` loop of `ParseParameters`. */
    method ParseParameterList() returns (r: Result<seq<Parameter>>)
      requires Valid() && buffer == []
      modifies this, scanner
      ensures Finished(r, PParameterList(scanner.tokens, old(at)))
    {
      var first :- ParseParameter();
      r := ParseMoreParameters([first]);
    }

    /** The `while (Accept(Comma))` condition of the loop and the passes after the first. */
    method ParseMoreParameters(params: seq<Parameter>) returns (r: Result<seq<Parameter>>)
      requires Valid() && buffer == []
      modifies this, scanner
      ensures Finished(r, PParameterListRest(scanner.tokens, params, old(at)))
    {
      var parameters := params;
      while true
        invariant Valid() && buffer == []
        invariant PParameterListRest(scanner.tokens, parameters, at) == PParameterListRest(scanner.tokens, params, old(at))
        decreases Left(scanner.tokens, at)
      {
        var more := Accept({Comma});
        if !more {
          return Success(parameters);
        }
        var parameter :- ParseParameter();
        parameters := parameters + [parameter];
      }
    }

    /** The body of `ParseParameters`' loop. */
    method ParseParameter() returns (r: Result<Parameter>)
      requires Valid() && buffer == []
      modifies this, scanner
      ensures Finished(r, PParameter(scanner.tokens, old(at), false))
    {
      var reference := Accept({KwVar});
      var identifier :- ParseIdentifier();
      var ty :- ParseTypeAnnotation();
      return Success(Parameter(identifier, ty, reference));
    }

    method ParseWhileStatement() returns (r: Result<Statement>)
      requires Valid() && buffer == []
      modifies this, scanner
      ensures Finished(r, PWhile(scanner.tokens, old(at)))
      decreases Left(scanner.tokens, at), 15
    {
      var kw :- Match(KwWhile);
      r := ParseWhileRest(PositionOf(kw));
    }

    /** `ParseWhileStatement` after the keyword. */
    method ParseWhileRest(pos: Position) returns (r: Result<Statement>)
      requires Valid() && buffer == []
      modifies this, scanner
      ensures Finished(r, PWhileRest(scanner.tokens, pos, old(at)))
      decreases Left(scanner.tokens, at), 14
    {
      var test :- ParseExpression();
      var doToken :- Match(KwDo);
      var body :- ParseStatement();
      return Success(WhileStmt(pos, test, body));
    }

    method ParseIfStatement() returns (r: Result<Statement>)
      requires Valid() && buffer == []
      modifies this, scanner
      ensures Finished(r, PIf(scanner.tokens, old(at)))
      decreases Left(scanner.tokens, at), 15
    {
      var kw :- Match(KwIf);
      r := ParseIfRest(PositionOf(kw));
    }

    /** The test and `then` in `ParseIfStatement`. */
    method ParseIfRest(pos: Position) returns (r: Result<Statement>)
      requires Valid() && buffer == []
      modifies this, scanner
      ensures Finished(r, PIfRest(scanner.tokens, pos, old(at)))
      decreases Left(scanner.tokens, at), 14
    {
      var test :- ParseExpression();
      var thenToken :- Match(KwThen);
      r := ParseIfBranches(pos, test);
    }

    /** The two branches in `ParseIfStatement`. */
    method ParseIfBranches(pos: Position, test: Expression) returns (r: Result<Statement>)
      requires Valid() && buffer == []
      modifies this, scanner
      ensures Finished(r, PIfBranches(scanner.tokens, pos, test, old(at)))
      decreases Left(scanner.tokens, at), 22
    {
      var trueStatement :- ParseStatement();
      var falseStatement :- ParseElse();
      return Success(IfStmt(pos, test, trueStatement, falseStatement));
    }

    /** `if (Accept(KwElse))` in `ParseIfStatement`. */
    method ParseElse() returns (r: Result<Option<Statement>>)
      requires Valid() && buffer == []
      modifies this, scanner
      ensures Finished(r, PElse(scanner.tokens, old(at)))
      decreases Left(scanner.tokens, at), 21
    {
      var hasElse := Accept({KwElse});
      if hasElse {
        var falseStatement :- ParseStatement();
        return Success(Some(falseStatement));
      }
      return Success(None);
    }

    method ParseAssertStmt() returns (r: Result<Statement>)
      requires Valid() && buffer == []
      modifies this, scanner
      ensures Finished(r, PAssert(scanner.tokens, old(at)))
      decreases Left(scanner.tokens, at), 15
    {
      var kw :- Match(KwAssert);
      var test :- ParseExpression();
      return Success(AssertStmt(PositionOf(kw), test));
    }

    method ParseReturnStmt() returns (r: Result<Statement>)
      requires Valid() && buffer == []
      modifies this, scanner
      ensures Finished(r, PReturn(scanner.tokens, old(at)))
      decreases Left(scanner.tokens, at), 15
    {
      var kw :- Match(KwReturn);
      var hasValue := MatchPeek(0, FirstSet);
      if hasValue {
        var value :- ParseExpression();
        return Success(ReturnStmt(PositionOf(kw), Some(value)));
      }
      return Success(ReturnStmt(PositionOf(kw), None));
    }

    method ParseAssignmentOrCall() returns (r: Result<Statement>)
      requires Valid() && buffer == []
      modifies this, scanner
      ensures Finished(r, PAssignmentOrCall(scanner.tokens, old(at)))
      decreases Left(scanner.tokens, at), 15
    {
      var isCall := MatchPeek(1, [LParen]);
      if isCall {
        r := ParseCall();
      } else {
        r := ParseAssignment();
      }
    }

    method ParseAssignment() returns (r: Result<Statement>)
      requires Valid() && |buffer| <= 1
      modifies this, scanner
      ensures Finished(r, PAssignment(scanner.tokens, old(at)))
      decreases Left(scanner.tokens, at), 14
    {
      var first := current;
      var variable :- ParseVariable();
      var assign :- Match(OpAssignment);
      var value :- ParseExpression();
      return Success(AssignmentStmt(PositionOf(first), variable, value, None));
    }

    method ParseCall() returns (r: Result<Statement>)
      requires Valid() && |buffer| <= 1
      modifies this, scanner
      ensures Finished(r, PCall(scanner.tokens, old(at)))
      decreases Left(scanner.tokens, at), 14
    {
      var id :- Match(Identifier);
      var open :- Match(LParen);
      var args :- ParseArguments();
      var close :- Match(RParen);
      return Success(CallStmt(PositionOf(id), ContentOf(id), args, None));
    }
  }

  /** Parsing a token sequence from its first token, as a fresh parser over a fresh source does. */
  method ParseTokens(tokens: seq<Token>) returns (r: Result<ProgramNode>)
    ensures r == PProgram(tokens, 0)
  {
    var source := new TokenSource(tokens);
    var parser := new Parser(source);
    r := parser.Parse();
  }
}
