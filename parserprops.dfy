/**
 * Properties of the parser's reference semantics (Parser.cs): the two
 * operator loops are left folds, a leading sign lands on the first term
 * only, a block is a run of statements separated by `;` and closed by
 * `end` or `; end`, a parameter list is a run of comma-separated
 * parameters, and a declaration can only name the four basic types.
 */
module ParsingProperties {
  import opened Wrappers
  import opened Tokens
  import opened AstEnums
  import opened Ast
  import opened Parsing
  import opened Runs

  // ---------------------------------------------------------------- operator loops

  /** Reference for both operator loops: `left op0 x0 op1 x1 ...` grouped to the left, each node at `first`. */
  function FoldLeft(first: Token, left: Expression, ops: seq<Token>, operands: seq<Expression>): (r: Expression)
    requires |ops| == |operands|
    ensures ops == [] ==> r == left
    ensures ops != [] ==> r.BinaryExpr? && r.sign == PlusSign && r.pos == PositionOf(first)
    ensures ops != [] ==> r.right == operands[|operands| - 1]
    ensures ops != [] ==> r.op == SetOperatorFromToken(DefaultOperator, ops[|ops| - 1])
    decreases |ops|
  {
    if ops == [] then left
    else FoldLeft(first, NewBinary(first, ops[0], left, operands[0]), ops[1..], operands[1..])
  }

  /** The last operator is at the root: everything before it is its left operand. */
  lemma {:induction false} FoldLeftLast(first: Token, left: Expression, ops: seq<Token>, operands: seq<Expression>,
                                        op: Token, operand: Expression)
    requires |ops| == |operands|
    ensures FoldLeft(first, left, ops + [op], operands + [operand])
         == NewBinary(first, op, FoldLeft(first, left, ops, operands), operand)
    decreases |ops|
  {
    if ops == [] {
      assert (ops + [op])[1..] == [] && (operands + [operand])[1..] == [];
    } else {
      assert (ops + [op])[0] == ops[0] && (ops + [op])[1..] == ops[1..] + [op];
      assert (operands + [operand])[0] == operands[0] && (operands + [operand])[1..] == operands[1..] + [operand];
      FoldLeftLast(first, NewBinary(first, ops[0], left, operands[0]), ops[1..], operands[1..], op, operand);
    }
  }

  /** The left operand `n` levels down. */
  function LeftSpine(e: Expression, n: nat): Expression
  {
    if n == 0 || !e.BinaryExpr? then e else LeftSpine(e.left, n - 1)
  }

  /** The first operand of the fold sits at the bottom of its left spine. */
  lemma {:induction false} FoldLeftFirst(first: Token, left: Expression, ops: seq<Token>, operands: seq<Expression>)
    requires |ops| == |operands|
    ensures LeftSpine(FoldLeft(first, left, ops, operands), |ops|) == left
    decreases |ops|
  {
    if ops != [] {
      var n := |ops| - 1;
      assert ops == ops[..n] + [ops[n]] && operands == operands[..n] + [operands[n]];
      FoldLeftLast(first, left, ops[..n], operands[..n], ops[n], operands[n]);
      FoldLeftFirst(first, left, ops[..n], operands[..n]);
    }
  }

  /**
   * From `p`: the adding operators `ops`, each followed by a term parsed as
   * the matching element of `operands`, then, at `q`, a token that is not
   * an adding operator.
   */
  predicate AddingRun(ts: seq<Token>, p: nat, ops: seq<Token>, operands: seq<Expression>, q: nat)
    decreases |ops|
  {
    |ops| == |operands| &&
    if ops == [] then q == p && !At(ts, p, AddingTokens)
    else
      At(ts, p, AddingTokens) && Tok(ts, p) == ops[0] &&
      PTerm(ts, p + 1).Success? && PTerm(ts, p + 1).value.value == operands[0] &&
      AddingRun(ts, PTerm(ts, p + 1).value.next, ops[1..], operands[1..], q)
  }

  /** The multiplying counterpart of `AddingRun`, over factors. */
  predicate MultiplyingRun(ts: seq<Token>, p: nat, ops: seq<Token>, operands: seq<Expression>, q: nat)
    decreases |ops|
  {
    |ops| == |operands| &&
    if ops == [] then q == p && !At(ts, p, MultiplyingTokens)
    else
      At(ts, p, MultiplyingTokens) && Tok(ts, p) == ops[0] &&
      PFactor(ts, p + 1).Success? && PFactor(ts, p + 1).value.value == operands[0] &&
      MultiplyingRun(ts, PFactor(ts, p + 1).value.next, ops[1..], operands[1..], q)
  }

  /** `+ - or` fold to the left over a run of terms. */
  lemma {:induction false} AddingFold(ts: seq<Token>, first: Token, left: Expression, p: nat,
                                      ops: seq<Token>, operands: seq<Expression>, q: nat)
    requires AddingRun(ts, p, ops, operands, q)
    ensures PSimpleRest(ts, first, left, p) == Success(Parsed(FoldLeft(first, left, ops, operands), q))
    decreases |ops|
  {
    if ops != [] {
      var right := PTerm(ts, p + 1).value;
      var combined := NewBinary(first, ops[0], left, operands[0]);
      assert PAddingStep(ts, first, left, p) == Success(Parsed(Some(combined), right.next));
      AddingFold(ts, first, combined, right.next, ops[1..], operands[1..], q);
    }
  }

  /** Conversely, whatever the adding loop parses is such a fold. */
  lemma {:induction false} AddingFoldComplete(ts: seq<Token>, first: Token, left: Expression, p: nat)
      returns (ops: seq<Token>, operands: seq<Expression>)
    requires PSimpleRest(ts, first, left, p).Success?
    ensures |ops| == |operands|
    ensures AddingRun(ts, p, ops, operands, PSimpleRest(ts, first, left, p).value.next)
    ensures PSimpleRest(ts, first, left, p).value.value == FoldLeft(first, left, ops, operands)
    decreases Left(ts, p)
  {
    var step := PAddingStep(ts, first, left, p).value;
    if step.value.None? {
      ops, operands := [], [];
    } else {
      var right := PTerm(ts, p + 1).value;
      var combined := NewBinary(first, Tok(ts, p), left, right.value);
      assert step == Parsed(Some(combined), right.next);
      var ops', operands' := AddingFoldComplete(ts, first, combined, right.next);
      ops, operands := [Tok(ts, p)] + ops', [right.value] + operands';
      assert ops[1..] == ops' && operands[1..] == operands';
    }
  }

  /** `* / % and` fold to the left over a run of factors. */
  lemma {:induction false} MultiplyingFold(ts: seq<Token>, first: Token, left: Expression, p: nat,
                                           ops: seq<Token>, operands: seq<Expression>, q: nat)
    requires MultiplyingRun(ts, p, ops, operands, q)
    ensures PTermRest(ts, first, left, p) == Success(Parsed(FoldLeft(first, left, ops, operands), q))
    decreases |ops|
  {
    if ops != [] {
      var right := PFactor(ts, p + 1).value;
      var combined := NewBinary(first, ops[0], left, operands[0]);
      assert PMultiplyingStep(ts, first, left, p) == Success(Parsed(Some(combined), right.next));
      MultiplyingFold(ts, first, combined, right.next, ops[1..], operands[1..], q);
    }
  }

  /** Conversely, whatever the multiplying loop parses is such a fold. */
  lemma {:induction false} MultiplyingFoldComplete(ts: seq<Token>, first: Token, left: Expression, p: nat)
      returns (ops: seq<Token>, operands: seq<Expression>)
    requires PTermRest(ts, first, left, p).Success?
    ensures |ops| == |operands|
    ensures MultiplyingRun(ts, p, ops, operands, PTermRest(ts, first, left, p).value.next)
    ensures PTermRest(ts, first, left, p).value.value == FoldLeft(first, left, ops, operands)
    decreases Left(ts, p)
  {
    var step := PMultiplyingStep(ts, first, left, p).value;
    if step.value.None? {
      ops, operands := [], [];
    } else {
      var right := PFactor(ts, p + 1).value;
      var combined := NewBinary(first, Tok(ts, p), left, right.value);
      assert step == Parsed(Some(combined), right.next);
      var ops', operands' := MultiplyingFoldComplete(ts, first, combined, right.next);
      ops, operands := [Tok(ts, p)] + ops', [right.value] + operands';
      assert ops[1..] == ops' && operands[1..] == operands';
    }
  }

  // ---------------------------------------------------------------- the leading sign

  /** The sign a simple expression starting at `p` gives its first term. */
  function LeadingSign(ts: seq<Token>, p: nat): (s: ExprSign)
    ensures s == MinusSign <==> At(ts, p, {TokenType.Minus})
  {
    if At(ts, p, {TokenType.Minus}) then MinusSign else PlusSign
  }

  /** Where the first term of a simple expression begins: after its sign, if any. */
  function FirstTermAt(ts: seq<Token>, p: nat): (q: nat)
    ensures q == p || (q == p + 1 && At(ts, p, {TokenType.Minus, TokenType.Plus}))
  {
    if At(ts, p, {TokenType.Minus, TokenType.Plus}) then p + 1 else p
  }

  /**
   * A simple expression is the adding fold over its terms, with the leading
   * sign applied to the first term alone: with any operator the whole
   * expression keeps the plus sign and the signed term is its leftmost operand.
   */
  lemma SimpleExpressionShape(ts: seq<Token>, p: nat, term: Expression, ops: seq<Token>, operands: seq<Expression>, q: nat)
    requires PTerm(ts, FirstTermAt(ts, p)).Success? && PTerm(ts, FirstTermAt(ts, p)).value.value == term
    requires AddingRun(ts, PTerm(ts, FirstTermAt(ts, p)).value.next, ops, operands, q)
    ensures PSimple(ts, p) == Success(Parsed(FoldLeft(Tok(ts, p), WithLeadingSign(term, LeadingSign(ts, p)), ops, operands), q))
    ensures ops != [] ==> PSimple(ts, p).value.value.sign == PlusSign
    ensures LeftSpine(PSimple(ts, p).value.value, |ops|) == WithLeadingSign(term, LeadingSign(ts, p))
  {
    var signed := WithLeadingSign(term, LeadingSign(ts, p));
    AddingFold(ts, Tok(ts, p), signed, PTerm(ts, FirstTermAt(ts, p)).value.next, ops, operands, q);
    FoldLeftFirst(Tok(ts, p), signed, ops, operands);
  }

  /** The token at `q` extends neither a primary (call, subscript, member) nor a term. */
  predicate EndsTerm(ts: seq<Token>, q: nat)
  {
    !At(ts, q, {LParen, LBracket, OpDot}) && !At(ts, q, MultiplyingTokens)
  }

  /** ... nor a simple expression. */
  predicate EndsSimple(ts: seq<Token>, q: nat)
  {
    EndsTerm(ts, q) && !At(ts, q, AddingTokens)
  }

  lemma RelationalEnds(ts: seq<Token>, q: nat)
    requires At(ts, q, RelationalTokens)
    ensures EndsSimple(ts, q)
  {
  }

  /** A lone identifier, not followed by anything that extends it, is a whole term. */
  lemma IdentifierTerm(ts: seq<Token>, p: nat)
    requires At(ts, p, {Identifier}) && EndsTerm(ts, p + 1)
    ensures PTerm(ts, p) == Success(Parsed(NewVariableExpr(Tok(ts, p)), p + 1))
  {
    var v := Success(Parsed(NewVariableExpr(Tok(ts, p)), p + 1));
    assert PVariable(ts, p) == v;
    assert PCallOrVar(ts, p) == v;
    assert PPrimary(ts, p) == v;
    assert PFactor(ts, p) == v;
    assert PMultiplyingStep(ts, Tok(ts, p), NewVariableExpr(Tok(ts, p)), p + 1) == Success(Parsed(None, p + 1));
    assert PTermRest(ts, Tok(ts, p), NewVariableExpr(Tok(ts, p)), p + 1) == v;
  }

  /** ... and, with no adding operator after it, a whole simple expression. */
  lemma IdentifierSimple(ts: seq<Token>, p: nat)
    requires At(ts, p, {Identifier}) && EndsSimple(ts, p + 1)
    ensures PSimple(ts, p) == Success(Parsed(NewVariableExpr(Tok(ts, p)), p + 1))
  {
    IdentifierTerm(ts, p);
    var e := NewVariableExpr(Tok(ts, p));
    assert WithLeadingSign(e, PlusSign) == e;
    assert PAddingStep(ts, Tok(ts, p), e, p + 1) == Success(Parsed(None, p + 1));
    assert PSimpleRest(ts, Tok(ts, p), e, p + 1) == Success(Parsed(e, p + 1));
  }

  /** `a - b - c` is `(a - b) - c`. */
  lemma SubtractionGroupsLeft(ts: seq<Token>, p: nat)
    requires At(ts, p, {Identifier}) && At(ts, p + 1, {TokenType.Minus}) && At(ts, p + 2, {Identifier})
    requires At(ts, p + 3, {TokenType.Minus}) && At(ts, p + 4, {Identifier}) && EndsSimple(ts, p + 5)
    ensures PSimple(ts, p) == Success(Parsed(
      NewBinary(Tok(ts, p), Tok(ts, p + 3),
                NewBinary(Tok(ts, p), Tok(ts, p + 1), NewVariableExpr(Tok(ts, p)), NewVariableExpr(Tok(ts, p + 2))),
                NewVariableExpr(Tok(ts, p + 4))),
      p + 5))
  {
    var a, b, c := NewVariableExpr(Tok(ts, p)), NewVariableExpr(Tok(ts, p + 2)), NewVariableExpr(Tok(ts, p + 4));
    IdentifierTerm(ts, p);
    SubtractionRun(ts, p);
    assert WithLeadingSign(a, PlusSign) == a;
    SimpleExpressionShape(ts, p, a, [Tok(ts, p + 1), Tok(ts, p + 3)], [b, c], p + 5);
    FoldTwo(Tok(ts, p), a, Tok(ts, p + 1), b, Tok(ts, p + 3), c);
  }

  /** The two subtractions of `a - b - c` make an adding run after `a`. */
  lemma SubtractionRun(ts: seq<Token>, p: nat)
    requires At(ts, p + 1, {TokenType.Minus}) && At(ts, p + 2, {Identifier})
    requires At(ts, p + 3, {TokenType.Minus}) && At(ts, p + 4, {Identifier}) && EndsSimple(ts, p + 5)
    ensures AddingRun(ts, p + 1, [Tok(ts, p + 1), Tok(ts, p + 3)],
                      [NewVariableExpr(Tok(ts, p + 2)), NewVariableExpr(Tok(ts, p + 4))], p + 5)
  {
    var b, c := NewVariableExpr(Tok(ts, p + 2)), NewVariableExpr(Tok(ts, p + 4));
    IdentifierTerm(ts, p + 2);
    LastSubtraction(ts, p + 3);
    AddingRunCons(ts, p + 1, b, p + 3, [Tok(ts, p + 3)], [c], p + 5);
    assert [Tok(ts, p + 1)] + [Tok(ts, p + 3)] == [Tok(ts, p + 1), Tok(ts, p + 3)] && [b] + [c] == [b, c];
  }

  /** `- c` at the end of a simple expression is an adding run of one. */
  lemma LastSubtraction(ts: seq<Token>, p: nat)
    requires At(ts, p, {TokenType.Minus}) && At(ts, p + 1, {Identifier}) && EndsSimple(ts, p + 2)
    ensures AddingRun(ts, p, [Tok(ts, p)], [NewVariableExpr(Tok(ts, p + 1))], p + 2)
  {
    IdentifierTerm(ts, p + 1);
    assert AddingRun(ts, p + 2, [], [], p + 2);
    AddingRunCons(ts, p, NewVariableExpr(Tok(ts, p + 1)), p + 2, [], [], p + 2);
  }

  /** One more operator and term in front of an adding run. */
  lemma AddingRunCons(ts: seq<Token>, p: nat, operand: Expression, next: nat,
                      ops: seq<Token>, operands: seq<Expression>, q: nat)
    requires At(ts, p, AddingTokens) && PTerm(ts, p + 1) == Success(Parsed(operand, next))
    requires AddingRun(ts, next, ops, operands, q)
    ensures AddingRun(ts, p, [Tok(ts, p)] + ops, [operand] + operands, q)
  {
    assert ([Tok(ts, p)] + ops)[1..] == ops && ([operand] + operands)[1..] == operands;
  }

  lemma FoldTwo(first: Token, a: Expression, op1: Token, b: Expression, op2: Token, c: Expression)
    ensures FoldLeft(first, a, [op1, op2], [b, c]) == NewBinary(first, op2, NewBinary(first, op1, a, b), c)
  {
    assert [op1, op2][1..] == [op2] && [b, c][1..] == [c];
    assert [op2][1..] == [] && [c][1..] == [];
  }

  // ---------------------------------------------------------------- relations

  /**
   * `assert a < b < c`: an expression holds one relational operator, so it
   * ends before the second one, which no statement continues with.
   */
  lemma ChainedComparisonRejected(ts: seq<Token>, p: nat, pos: Position, statements: seq<Statement>)
    requires At(ts, p, {KwAssert}) && At(ts, p + 1, {Identifier}) && At(ts, p + 2, RelationalTokens)
    requires At(ts, p + 3, {Identifier}) && At(ts, p + 4, RelationalTokens)
    ensures PStatement(ts, p) == Success(Parsed(AssertStmt(PositionOf(Tok(ts, p)),
      NewBinary(Tok(ts, p + 1), Tok(ts, p + 2), NewVariableExpr(Tok(ts, p + 1)), NewVariableExpr(Tok(ts, p + 3)))), p + 4))
    ensures PBlockRest(ts, pos, statements, p).Failure?
  {
    ComparisonAssert(ts, p);
    assert PStatementEnd(ts, p + 4).Failure?;
  }

  /** `assert a < b` followed by another relational operator: the statement ends after `b`. */
  lemma ComparisonAssert(ts: seq<Token>, p: nat)
    requires At(ts, p, {KwAssert}) && At(ts, p + 1, {Identifier}) && At(ts, p + 2, RelationalTokens)
    requires At(ts, p + 3, {Identifier}) && At(ts, p + 4, RelationalTokens)
    ensures PStatement(ts, p) == Success(Parsed(AssertStmt(PositionOf(Tok(ts, p)),
      NewBinary(Tok(ts, p + 1), Tok(ts, p + 2), NewVariableExpr(Tok(ts, p + 1)), NewVariableExpr(Tok(ts, p + 3)))), p + 4))
  {
    Comparison(ts, p + 1);
    AssertOf(ts, p, NewBinary(Tok(ts, p + 1), Tok(ts, p + 2), NewVariableExpr(Tok(ts, p + 1)), NewVariableExpr(Tok(ts, p + 3))), p + 4);
  }

  /** `assert` and the expression after it make an assert statement. */
  lemma AssertOf(ts: seq<Token>, p: nat, test: Expression, q: nat)
    requires At(ts, p, {KwAssert}) && PExpression(ts, p + 1) == Success(Parsed(test, q))
    ensures PStatement(ts, p) == Success(Parsed(AssertStmt(PositionOf(Tok(ts, p)), test), q))
  {
    assert PStatement(ts, p) == PAssert(ts, p);
  }

  /** `a < b` followed by another relational operator: the comparison of the two names, ending there. */
  lemma Comparison(ts: seq<Token>, p: nat)
    requires At(ts, p, {Identifier}) && At(ts, p + 1, RelationalTokens)
    requires At(ts, p + 2, {Identifier}) && At(ts, p + 3, RelationalTokens)
    ensures PExpression(ts, p) ==
      Success(Parsed(NewBinary(Tok(ts, p), Tok(ts, p + 1), NewVariableExpr(Tok(ts, p)), NewVariableExpr(Tok(ts, p + 2))), p + 3))
  {
    RelationalEnds(ts, p + 1);
    RelationalEnds(ts, p + 3);
    IdentifierSimple(ts, p);
    IdentifierSimple(ts, p + 2);
  }

  // ---------------------------------------------------------------- blocks

  /** The statement table reads the statement `s` from `p`, ending at `m`. */
  function StatementAt(ts: seq<Token>): (nat, Statement, nat) -> bool
  {
    (p: nat, s: Statement, m: nat) => PStatement(ts, p) == Success(Parsed(s, m))
  }

  /** A `;` at `m` that does not close the block. */
  function ContinuesAt(ts: seq<Token>): nat -> bool
  {
    (m: nat) => At(ts, m, {LineTerm}) && !At(ts, m + 1, {KwEnd})
  }

  /** `end`, or `; end`, at `m`, ending before `q`. */
  function ClosesAt(ts: seq<Token>): (nat, nat) -> bool
  {
    (m: nat, q: nat) => (At(ts, m, {KwEnd}) && q == m + 1) || (At(ts, m, {LineTerm}) && At(ts, m + 1, {KwEnd}) && q == m + 2)
  }

  /** The last pass of the block loop: a statement, then `end` or `; end`. */
  lemma BlockCloses(ts: seq<Token>, pos: Position, done: seq<Statement>, p: nat, s: Statement, m: nat, q: nat)
    requires StatementAt(ts)(p, s, m) && ClosesAt(ts)(m, q)
    ensures PBlockRest(ts, pos, done, p) == Success(Parsed(BlockStmt(pos, done + [s]), q))
  {
    assert PStatement(ts, p) == Success(Parsed(s, m));
    EndOfBlock(ts, m, q);
  }

  /** One pass of the block loop, read backwards from a block that was parsed. */
  lemma BlockRestStep(ts: seq<Token>, pos: Position, done: seq<Statement>, p: nat)
      returns (s: Statement, m: nat, closed: bool, q: nat)
    requires PBlockRest(ts, pos, done, p).Success?
    ensures StatementAt(ts)(p, s, m)
    ensures closed ==> ClosesAt(ts)(m, q)
    ensures !closed ==> ContinuesAt(ts)(m) && Left(ts, m + 1) < Left(ts, p) &&
                        PBlockRest(ts, pos, done + [s], m + 1) == PBlockRest(ts, pos, done, p)
  {
    var parsed := PStatement(ts, p).value;
    s, m := parsed.value, parsed.next;
    assert Tok(ts, p).tokenType in StatementStarters;
    StatementEnded(ts, m);
    var ended := PStatementEnd(ts, m).value;
    closed, q := ended.value, ended.next;
  }

  /** `end` or `; end` closes a block. */
  lemma EndOfBlock(ts: seq<Token>, m: nat, q: nat)
    requires ClosesAt(ts)(m, q)
    ensures PStatementEnd(ts, m) == Success(Parsed(true, q))
  {
    assert (At(ts, m, {KwEnd}) && q == m + 1) || (At(ts, m, {LineTerm}) && At(ts, m + 1, {KwEnd}) && q == m + 2);
    if !At(ts, m, {LineTerm}) {
      assert Match(ts, m, KwEnd) == Success(Parsed(Tok(ts, m), m + 1));
    }
  }

  /** A `;` before anything but `end` continues a block. */
  lemma NextStatement(ts: seq<Token>, m: nat)
    requires ContinuesAt(ts)(m)
    ensures PStatementEnd(ts, m) == Success(Parsed(false, m + 1))
  {
    assert At(ts, m, {LineTerm}) && !At(ts, m + 1, {KwEnd});
  }

  /** What may follow a statement: the block closes, or a `;` continues it. */
  lemma StatementEnded(ts: seq<Token>, m: nat)
    requires PStatementEnd(ts, m).Success?
    ensures PStatementEnd(ts, m).value.value ==> ClosesAt(ts)(m, PStatementEnd(ts, m).value.next)
    ensures !PStatementEnd(ts, m).value.value ==> ContinuesAt(ts)(m) && PStatementEnd(ts, m).value.next == m + 1
  {
    var e := PStatementEnd(ts, m).value;
    if e.value {
      assert (At(ts, m, {KwEnd}) && e.next == m + 1) || (At(ts, m, {LineTerm}) && At(ts, m + 1, {KwEnd}) && e.next == m + 2);
    } else {
      assert At(ts, m, {LineTerm}) && !At(ts, m + 1, {KwEnd});
    }
  }

  /** The block loop, from the statements `d` already read and the next token `p`. */
  function BlockLoop(ts: seq<Token>, pos: Position): (seq<Statement>, nat) -> Result<Parsed<Statement>>
  {
    (d: seq<Statement>, p: nat) => PBlockRest(ts, pos, d, p)
  }

  /** The block the loop returns once it has read the statements `d`, ending before `q`. */
  function BlockResult(pos: Position): (seq<Statement>, nat) -> Result<Parsed<Statement>>
  {
    (d: seq<Statement>, q: nat) => Success(Parsed(BlockStmt(pos, d), q))
  }

  function Succeeded(): Result<Parsed<Statement>> -> bool
  {
    (r: Result<Parsed<Statement>>) => r.Success?
  }

  function TokensLeft(ts: seq<Token>): nat -> nat
  {
    (p: nat) => Left(ts, p)
  }

  /** A pass that reads a statement and then a `;` hands over to the next pass. */
  lemma BlockGoesOn(ts: seq<Token>, pos: Position, done: seq<Statement>, p: nat, s: Statement, m: nat)
    requires StatementAt(ts)(p, s, m) && ContinuesAt(ts)(m)
    ensures PBlockRest(ts, pos, done, p) == PBlockRest(ts, pos, done + [s], m + 1)
  {
    assert PStatement(ts, p) == Success(Parsed(s, m));
    NextStatement(ts, m);
  }

  /** Every pass of the block loop closes it or goes on, as the generic loop lemmas need. */
  lemma BlockPassesClose(ts: seq<Token>, pos: Position)
    ensures ClosingPass(StatementAt(ts), ClosesAt(ts), BlockLoop(ts, pos), BlockResult(pos))
  {
    forall done: seq<Statement>, p: nat, x: Statement, m: nat, q: nat | StatementAt(ts)(p, x, m) && ClosesAt(ts)(m, q)
      ensures BlockLoop(ts, pos)(done, p) == BlockResult(pos)(done + [x], q)
    {
      BlockCloses(ts, pos, done, p, x, m, q);
    }
  }

  lemma BlockPassesContinue(ts: seq<Token>, pos: Position)
    ensures ContinuingPass(StatementAt(ts), ContinuesAt(ts), BlockLoop(ts, pos))
  {
    forall done: seq<Statement>, p: nat, x: Statement, m: nat | StatementAt(ts)(p, x, m) && ContinuesAt(ts)(m)
      ensures BlockLoop(ts, pos)(done, p) == BlockLoop(ts, pos)(done + [x], m + 1)
    {
      BlockGoesOn(ts, pos, done, p, x, m);
    }
  }

  lemma BlockPassesProgress(ts: seq<Token>, pos: Position)
    ensures PassesProgress(StatementAt(ts), ContinuesAt(ts), ClosesAt(ts), BlockLoop(ts, pos), Succeeded(), TokensLeft(ts))
  {
    forall done: seq<Statement>, p: nat | Succeeded()(BlockLoop(ts, pos)(done, p))
      ensures exists x: Statement, m: nat, q: nat ::
                (StatementAt(ts)(p, x, m) && (ClosesAt(ts)(m, q) || (ContinuesAt(ts)(m) && TokensLeft(ts)(m + 1) < TokensLeft(ts)(p))))
    {
      var s, m, closed, q := BlockRestStep(ts, pos, done, p);
      assert StatementAt(ts)(p, s, m) && (ClosesAt(ts)(m, q) || (ContinuesAt(ts)(m) && TokensLeft(ts)(m + 1) < TokensLeft(ts)(p)));
    }
  }

  /** The block loop over a run of statements returns them, after those already read. */
  lemma BlockRestOfRun(ts: seq<Token>, pos: Position, done: seq<Statement>, p: nat,
                       stmts: seq<Statement>, ends: seq<nat>, q: nat)
    requires Run(StatementAt(ts), ContinuesAt(ts), ClosesAt(ts), p, stmts, ends, q)
    ensures PBlockRest(ts, pos, done, p) == Success(Parsed(BlockStmt(pos, done + stmts), q))
  {
    BlockPassesClose(ts, pos);
    BlockPassesContinue(ts, pos);
    LoopOfRun(StatementAt(ts), ContinuesAt(ts), ClosesAt(ts), BlockLoop(ts, pos), BlockResult(pos), done, p, stmts, ends, q);
    assert BlockLoop(ts, pos)(done, p) == BlockResult(pos)(done + stmts, q);
  }

  /** A block loop that succeeds has read a run of statements. */
  lemma RunOfBlockRest(ts: seq<Token>, pos: Position, done: seq<Statement>, p: nat)
      returns (stmts: seq<Statement>, ends: seq<nat>, q: nat)
    requires PBlockRest(ts, pos, done, p).Success?
    ensures PBlockRest(ts, pos, done, p) == Success(Parsed(BlockStmt(pos, done + stmts), q))
    ensures Run(StatementAt(ts), ContinuesAt(ts), ClosesAt(ts), p, stmts, ends, q)
  {
    BlockPassesClose(ts, pos);
    BlockPassesContinue(ts, pos);
    BlockPassesProgress(ts, pos);
    assert Succeeded()(BlockLoop(ts, pos)(done, p));
    stmts, ends, q := RunOfLoop(StatementAt(ts), ContinuesAt(ts), ClosesAt(ts), BlockLoop(ts, pos), BlockResult(pos),
                                Succeeded(), TokensLeft(ts), done, p);
    assert BlockLoop(ts, pos)(done, p) == BlockResult(pos)(done + stmts, q);
  }

  /** From `p`: the statements `stmts` of a block, closed before `q`. */
  ghost predicate StatementsFrom(ts: seq<Token>, p: nat, stmts: seq<Statement>, q: nat)
  {
    exists ends :: Run(StatementAt(ts), ContinuesAt(ts), ClosesAt(ts), p, stmts, ends, q)
  }

  /** A run of statements closed by `end` makes a block. */
  lemma BlockOfRun(ts: seq<Token>, p: nat, stmts: seq<Statement>, ends: seq<nat>, q: nat)
    requires At(ts, p, {KwBegin}) && Run(StatementAt(ts), ContinuesAt(ts), ClosesAt(ts), p + 1, stmts, ends, q)
    ensures PBlock(ts, p) == Success(Parsed(BlockStmt(PositionOf(Tok(ts, p)), stmts), q))
  {
    BlockRestOfRun(ts, PositionOf(Tok(ts, p)), [], p + 1, stmts, ends, q);
    assert [] + stmts == stmts;
  }

  /** Every block parsed is `begin` and a run of statements closed by `end`. */
  lemma RunOfBlock(ts: seq<Token>, p: nat) returns (ends: seq<nat>)
    requires PBlock(ts, p).Success?
    ensures var r := PBlock(ts, p).value;
      At(ts, p, {KwBegin}) && r.value == BlockStmt(PositionOf(Tok(ts, p)), r.value.statements) &&
      Run(StatementAt(ts), ContinuesAt(ts), ClosesAt(ts), p + 1, r.value.statements, ends, r.next)
  {
    assert PBlock(ts, p) == PBlockRest(ts, PositionOf(Tok(ts, p)), [], p + 1);
    var stmts, q;
    stmts, ends, q := RunOfBlockRest(ts, PositionOf(Tok(ts, p)), [], p + 1);
    assert [] + stmts == stmts;
  }

  /** A block is exactly `begin`, a run of statements, and its closing `end`. */
  lemma BlockIsRun(ts: seq<Token>, p: nat, stmts: seq<Statement>, q: nat)
    ensures PBlock(ts, p) == Success(Parsed(BlockStmt(PositionOf(Tok(ts, p)), stmts), q))
        <==> At(ts, p, {KwBegin}) && StatementsFrom(ts, p + 1, stmts, q)
  {
    if At(ts, p, {KwBegin}) && StatementsFrom(ts, p + 1, stmts, q) {
      var ends :| Run(StatementAt(ts), ContinuesAt(ts), ClosesAt(ts), p + 1, stmts, ends, q);
      BlockOfRun(ts, p, stmts, ends, q);
    }
    if PBlock(ts, p) == Success(Parsed(BlockStmt(PositionOf(Tok(ts, p)), stmts), q)) {
      var ends := RunOfBlock(ts, p);
    }
  }

  // ---------------------------------------------------------------- parameters

  /** A value parameter `x` read from `p`, ending at `m`. */
  function ParameterAt(ts: seq<Token>): (nat, Parameter, nat) -> bool
  {
    (p: nat, x: Parameter, m: nat) => PParameter(ts, p, false) == Success(Parsed(x, m))
  }

  /** A comma at `m`. */
  function CommaAt(ts: seq<Token>): nat -> bool
  {
    (m: nat) => At(ts, m, {Comma})
  }

  /** No comma at `m`, where the list ends. */
  function ListEndsAt(ts: seq<Token>): (nat, nat) -> bool
  {
    (m: nat, q: nat) => !At(ts, m, {Comma}) && q == m
  }

  /** One pass of the parameter loop, read forwards: a comma, a parameter and what follows it. */
  lemma ListRestUnfold(ts: seq<Token>, done: seq<Parameter>, p: nat, x: Parameter, m: nat, q: nat)
    requires At(ts, p, {Comma}) && ParameterAt(ts)(p + 1, x, m)
    ensures ListEndsAt(ts)(m, q) ==> PParameterListRest(ts, done, p) == Success(Parsed(done + [x], q))
    ensures CommaAt(ts)(m) ==> PParameterListRest(ts, done, p) == PParameterListRest(ts, done + [x], m)
  {
    assert PParameter(ts, p + 1, false) == Success(Parsed(x, m));
    assert ListEndsAt(ts)(m, q) <==> !At(ts, m, {Comma}) && q == m;
    assert CommaAt(ts)(m) <==> At(ts, m, {Comma});
  }

  /** One pass of the parameter loop, read backwards from a list that was parsed. */
  lemma ListRestStep(ts: seq<Token>, done: seq<Parameter>, p: nat) returns (x: Parameter, m: nat)
    requires PParameterListRest(ts, done, p).Success? && At(ts, p, {Comma})
    ensures ParameterAt(ts)(p + 1, x, m) && Left(ts, m) < Left(ts, p)
    ensures CommaAt(ts)(m) || ListEndsAt(ts)(m, m)
  {
    var parsed := PParameter(ts, p + 1, false).value;
    x, m := parsed.value, parsed.next;
    assert ParameterAt(ts)(p + 1, x, m);
    assert CommaAt(ts)(m) <==> At(ts, m, {Comma});
    assert ListEndsAt(ts)(m, m) <==> !At(ts, m, {Comma});
  }

  lemma {:induction false} ListRestOfRun(ts: seq<Token>, done: seq<Parameter>, p: nat,
                                         params: seq<Parameter>, ends: seq<nat>, q: nat)
    requires At(ts, p, {Comma}) && Run(ParameterAt(ts), CommaAt(ts), ListEndsAt(ts), p + 1, params, ends, q)
    ensures PParameterListRest(ts, done, p) == Success(Parsed(done + params, q))
    decreases |params|
  {
    var x, m, rest, restEnds := Split(ParameterAt(ts), CommaAt(ts), ListEndsAt(ts), p + 1, params, ends, q);
    ListRestUnfold(ts, done, p, x, m, q);
    if rest != [] {
      assert At(ts, m, {Comma});
      ListRestOfRun(ts, done + [x], m, rest, restEnds, q);
      ConcatAssoc(done, [x], rest);
    }
  }

  lemma {:induction false} RunOfListRest(ts: seq<Token>, done: seq<Parameter>, p: nat)
      returns (params: seq<Parameter>, ends: seq<nat>, q: nat)
    requires PParameterListRest(ts, done, p).Success? && At(ts, p, {Comma})
    ensures PParameterListRest(ts, done, p) == Success(Parsed(done + params, q))
    ensures Run(ParameterAt(ts), CommaAt(ts), ListEndsAt(ts), p + 1, params, ends, q)
    decreases Left(ts, p)
  {
    var x, m := ListRestStep(ts, done, p);
    ListRestUnfold(ts, done, p, x, m, m);
    if ListEndsAt(ts)(m, m) {
      params, ends, q := [x], [m], m;
      One(ParameterAt(ts), CommaAt(ts), ListEndsAt(ts), p + 1, x, m, q);
    } else {
      assert At(ts, m, {Comma});
      var rest, restEnds;
      rest, restEnds, q := RunOfListRest(ts, done + [x], m);
      params, ends := [x] + rest, [m] + restEnds;
      ConcatAssoc(done, [x], rest);
      Cons(ParameterAt(ts), CommaAt(ts), ListEndsAt(ts), p + 1, x, m, rest, restEnds, q);
    }
  }

  /** From `p`: the parameters `params` of a non-empty list, ending at `q`. */
  ghost predicate ParametersFrom(ts: seq<Token>, p: nat, params: seq<Parameter>, q: nat)
  {
    exists ends :: Run(ParameterAt(ts), CommaAt(ts), ListEndsAt(ts), p, params, ends, q)
  }

  /** A parameter list is nothing before `)`, or else a comma-separated run of parameters. */
  lemma ParametersAreRun(ts: seq<Token>, p: nat, params: seq<Parameter>, q: nat)
    ensures PParameters(ts, p) == Success(Parsed(params, q))
        <==> (At(ts, p, {RParen}) && params == [] && q == p) || (!At(ts, p, {RParen}) && ParametersFrom(ts, p, params, q))
  {
    if !At(ts, p, {RParen}) {
      if ParametersFrom(ts, p, params, q) {
        var ends :| Run(ParameterAt(ts), CommaAt(ts), ListEndsAt(ts), p, params, ends, q);
        ParametersOfRun(ts, p, params, ends, q);
      }
      if PParameters(ts, p) == Success(Parsed(params, q)) {
        var ends := RunOfParameters(ts, p);
      }
    }
  }

  /** The first parameter of a list that does not start with `)`. */
  lemma ParametersUnfold(ts: seq<Token>, p: nat, x: Parameter, m: nat)
    requires !At(ts, p, {RParen}) && ParameterAt(ts)(p, x, m)
    ensures PParameters(ts, p) == PParameterListRest(ts, [x], m)
  {
    assert PParameter(ts, p, false) == Success(Parsed(x, m));
  }

  lemma ParametersOfRun(ts: seq<Token>, p: nat, params: seq<Parameter>, ends: seq<nat>, q: nat)
    requires !At(ts, p, {RParen}) && Run(ParameterAt(ts), CommaAt(ts), ListEndsAt(ts), p, params, ends, q)
    ensures PParameters(ts, p) == Success(Parsed(params, q))
  {
    var x, m, rest, restEnds := Split(ParameterAt(ts), CommaAt(ts), ListEndsAt(ts), p, params, ends, q);
    ParametersUnfold(ts, p, x, m);
    if rest != [] {
      assert At(ts, m, {Comma});
      ListRestOfRun(ts, [x], m, rest, restEnds, q);
    } else {
      assert !At(ts, m, {Comma}) && q == m;
    }
  }

  lemma RunOfParameters(ts: seq<Token>, p: nat) returns (ends: seq<nat>)
    requires !At(ts, p, {RParen}) && PParameters(ts, p).Success?
    ensures Run(ParameterAt(ts), CommaAt(ts), ListEndsAt(ts), p, PParameters(ts, p).value.value, ends, PParameters(ts, p).value.next)
  {
    var parsed := PParameter(ts, p, false).value;
    var x, m := parsed.value, parsed.next;
    assert ParameterAt(ts)(p, x, m);
    ParametersUnfold(ts, p, x, m);
    if At(ts, m, {Comma}) {
      var rest, restEnds, q := RunOfListRest(ts, [x], m);
      assert CommaAt(ts)(m);
      Cons(ParameterAt(ts), CommaAt(ts), ListEndsAt(ts), p, x, m, rest, restEnds, q);
      ends := [m] + restEnds;
    } else {
      ends := [m];
      assert ListEndsAt(ts)(m, m);
      One(ParameterAt(ts), CommaAt(ts), ListEndsAt(ts), p, x, m, m);
    }
  }

  /**
   * A declared type is one of the four basic types, never `Void`: the name
   * of a simple type, or the element name of `array [ <int> ] of <name>`,
   * with the integer literal as its size.
   */
  lemma DeclaredTypes(ts: seq<Token>, p: nat)
    requires PType(ts, p).Success?
    ensures var t := PType(ts, p).value.value;
      t.exprType in {Int, Real, String, Bool} &&
      (t.SimpleType? ==> PTypeName(Tok(ts, p)) == Success(t.exprType) && PType(ts, p).value.next == p + 1) &&
      (t.ArrayType? ==> At(ts, p, {KwArray}) && PTypeName(Tok(ts, p + 5)) == Success(t.exprType) &&
                        t.sizeExpr == NewIntLiteral(Tok(ts, p + 2)) && PType(ts, p).value.next == p + 6)
  {
    var t := PType(ts, p).value.value;
    if t.SimpleType? {
      TypeNames(Tok(ts, p));
    } else {
      TypeNames(Tok(ts, p + 5));
    }
  }

  // ---------------------------------------------------------------- programs

  /** A program is `program <name> ;`, a block and `.`; nothing else is accepted. */
  lemma ProgramShape(ts: seq<Token>, p: nat)
    ensures PProgram(ts, p).Success? <==>
      At(ts, p, {KwProgram}) && At(ts, p + 1, {Identifier}) && At(ts, p + 2, {LineTerm}) &&
      PBlock(ts, p + 3).Success? && At(ts, PBlock(ts, p + 3).value.next, {OpDot})
    ensures PProgram(ts, p).Success? ==>
      PProgram(ts, p).value == ProgramNode(PositionOf(Tok(ts, p)), ContentOf(Tok(ts, p + 1)), PBlock(ts, p + 3).value.value)
  {
    if At(ts, p, {KwProgram}) && At(ts, p + 1, {Identifier}) {
      assert PProgram(ts, p) == PProgramBody(ts, PositionOf(Tok(ts, p)), ContentOf(Tok(ts, p + 1)), p + 2);
      ProgramBodyShape(ts, PositionOf(Tok(ts, p)), ContentOf(Tok(ts, p + 1)), p + 2);
    }
  }

  /** After the program's name: `;`, a block, and the final `.`. */
  lemma ProgramBodyShape(ts: seq<Token>, pos: Position, identifier: string, p: nat)
    ensures PProgramBody(ts, pos, identifier, p).Success? <==>
      At(ts, p, {LineTerm}) && PBlock(ts, p + 1).Success? && At(ts, PBlock(ts, p + 1).value.next, {OpDot})
    ensures PProgramBody(ts, pos, identifier, p).Success? ==>
      PProgramBody(ts, pos, identifier, p).value == ProgramNode(pos, identifier, PBlock(ts, p + 1).value.value)
  {
    if At(ts, p, {LineTerm}) && PBlock(ts, p + 1).Success? {
      var block := PBlock(ts, p + 1).value;
      assert PProgramBody(ts, pos, identifier, p) ==
        if At(ts, block.next, {OpDot}) then Success(ProgramNode(pos, identifier, block.value)) else Failure(SyntaxError);
    }
  }

  // ---------------------------------------------------------------- a parenthesised negative first term

  /** The tokens of `( - <int> )` at `p`, followed by nothing that extends it into a bigger term. */
  predicate NegativeParenthesisedAt(ts: seq<Token>, p: nat)
  {
    At(ts, p, {LParen}) && At(ts, p + 1, {TokenType.Minus}) && At(ts, p + 2, {IntLiteral}) &&
    NewIntLiteral(Tok(ts, p + 2)).Some? &&
    At(ts, p + 3, {RParen}) && !At(ts, p + 4, {OpDot}) && !At(ts, p + 4, MultiplyingTokens)
  }

  /** The literal inside, negated. */
  function NegatedLiteral(ts: seq<Token>, p: nat): (e: Expression)
    requires NegativeParenthesisedAt(ts, p)
    ensures e.IntLiteralExpr? && e.sign == MinusSign
    ensures e.intValue == NewIntLiteral(Tok(ts, p + 2)).value.intValue
  {
    WithLeadingSign(NewIntLiteral(Tok(ts, p + 2)).value, MinusSign)
  }

  /** What is inside the parentheses: a signed simple expression that keeps its minus. */
  lemma NegativeInner(ts: seq<Token>, p: nat)
    requires NegativeParenthesisedAt(ts, p)
    ensures PParenthesised(ts, p + 1) == Success(Parsed(NegatedLiteral(ts, p), p + 4))
  {
    var e := NewIntLiteral(Tok(ts, p + 2)).value;
    var lit := Success(Parsed(e, p + 3));
    assert IntegerLiteral(Tok(ts, p + 2)) == Success(e);
    assert PPrimary(ts, p + 2) == lit;
    assert PFactor(ts, p + 2) == lit;
    assert PMultiplyingStep(ts, Tok(ts, p + 2), e, p + 3) == Success(Parsed(None, p + 3));
    assert PTermRest(ts, Tok(ts, p + 2), e, p + 3) == lit;
    assert PTerm(ts, p + 2) == lit;
    var neg := NegatedLiteral(ts, p);
    var inner := Success(Parsed(neg, p + 3));
    assert PAddingStep(ts, Tok(ts, p + 1), neg, p + 3) == Success(Parsed(None, p + 3));
    assert PSimpleRest(ts, Tok(ts, p + 1), neg, p + 3) == inner;
    assert PSimple(ts, p + 1) == inner;
    assert PExpression(ts, p + 1) == inner;
  }

  /** `( - <int> )` as a term: the literal with a minus sign. */
  lemma NegativeParenthesised(ts: seq<Token>, p: nat)
    requires NegativeParenthesisedAt(ts, p)
    ensures PTerm(ts, p) == Success(Parsed(NegatedLiteral(ts, p), p + 4))
  {
    NegativeInner(ts, p);
    var neg := NegatedLiteral(ts, p);
    var r := Success(Parsed(neg, p + 4));
    assert PParenthesisedOrNot(ts, p) == r;
    assert PPrimary(ts, p) == r;
    assert PFactor(ts, p) == r;
    assert PMultiplyingStep(ts, Tok(ts, p), neg, p + 4) == Success(Parsed(None, p + 4));
    assert PTermRest(ts, Tok(ts, p), neg, p + 4) == r;
  }

  /**
   * As written, `left.Sign = termSign` overwrites that minus with the plus
   * of the unsigned simple expression, so `( - 1 )` means `1`.
   */
  lemma NegativeParenthesisedAsWritten(ts: seq<Token>, p: nat)
    requires NegativeParenthesisedAt(ts, p)
    ensures PTerm(ts, p).Success? && PTerm(ts, p).value.value.sign == MinusSign
    ensures LeadingSign(ts, p) == PlusSign
    ensures LeadingSignAsWritten(PTerm(ts, p).value.value, LeadingSign(ts, p)).sign == PlusSign
  {
    NegativeParenthesised(ts, p);
  }

  /** With the sign combined instead, `( - 1 )` as a simple expression keeps its minus. */
  lemma NegativeParenthesisedKept(ts: seq<Token>, p: nat)
    requires NegativeParenthesisedAt(ts, p) && !At(ts, p + 4, AddingTokens)
    ensures PSimple(ts, p) == Success(Parsed(NegatedLiteral(ts, p), p + 4))
    ensures PSimple(ts, p).value.value.sign == MinusSign
  {
    NegativeParenthesised(ts, p);
    var neg := NegatedLiteral(ts, p);
    assert WithLeadingSign(neg, PlusSign) == neg;
    assert AddingRun(ts, p + 4, [], [], p + 4);
    SimpleExpressionShape(ts, p, neg, [], [], p + 4);
  }
}
