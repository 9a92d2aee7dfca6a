/**
 * Closure conversion (LambdaLifter.cs): every free variable of a procedure
 * or function becomes an extra by-reference parameter of it, and every call
 * statement passes the matching variable as an extra argument. The lifter
 * descends only into blocks and callable bodies.
 *
 * `LiftStmt` is the reference semantics over the syntax tree; the class
 * `LambdaLifter` is the visitor, proved against it. A missing or
 * non-callable declaration symbol on a visited node is the
 * `NullReferenceException` of the source, modelled as a `Failure`.
 */
module LambdaLifting {
  import opened Wrappers
  import opened AstEnums
  import opened Symbols
  import opened Ast

  /** Nodes the lifter creates carry line and column 0. */
  const Generated: Position := Position(0, 0)

  /** The free variables of a declaration symbol, when there is a callable one. */
  function FreeVariablesOf(declaration: Option<Symbol>): (r: Result<seq<Symbol>>)
    ensures r.Success? <==> declaration.Some? && declaration.value.IsCallable()
    ensures r.Success? ==> r.value == declaration.value.kind.freeVariables
  {
    if declaration.Some? && declaration.value.IsCallable() then Success(declaration.value.kind.freeVariables)
    else Failure("null declaration symbol")
  }

  /** The parameter a free variable becomes: by reference, with its name, basic type and array-ness. */
  function ParameterFor(v: Symbol): (p: Parameter)
    ensures p.identifier == v.name && p.referenceParameter
    ensures TypeOfNode(p.paramType) == v.ty && p.paramType.pos == Generated
    ensures p.paramType.ArrayType? ==> p.paramType.sizeExpr.None?
  {
    var t := if v.ty.isArray then ArrayType(Generated, v.ty.basicType, None) else SimpleType(Generated, v.ty.basicType);
    Parameter(v.name, t, true)
  }

  /** The argument a call passes for a free variable: a fresh, unresolved use of its name. */
  function ArgumentFor(v: Symbol): (e: Expression)
    ensures e.VariableExpr? && e.identifier == v.name && e.pos == Generated
    ensures e.ty == DefaultExprType && e.sign == PlusSign && e.symbol.None?
  {
    VariableExpr(Generated, DefaultExprType, PlusSign, v.name, None)
  }

  function AddedParameters(free: seq<Symbol>): (ps: seq<Parameter>)
    ensures |ps| == |free| && forall k :: 0 <= k < |free| ==> ps[k] == ParameterFor(free[k])
  {
    if free == [] then [] else AddedParameters(free[..|free| - 1]) + [ParameterFor(free[|free| - 1])]
  }

  function AddedArguments(free: seq<Symbol>): (args: seq<Expression>)
    ensures |args| == |free| && forall k :: 0 <= k < |free| ==> args[k] == ArgumentFor(free[k])
  {
    if free == [] then [] else AddedArguments(free[..|free| - 1]) + [ArgumentFor(free[|free| - 1])]
  }

  /**
   * A statement after closure conversion. Blocks and callable bodies are
   * descended into; a call gains its arguments; `if`, `while` and every
   * other statement are left as they are. Each statement keeps its kind.
   */
  function LiftStmt(s: Statement): (r: Result<Statement>)
    ensures r.Success? ==> r.value.BlockStmt? == s.BlockStmt? && r.value.CallStmt? == s.CallStmt?
    ensures r.Success? ==> r.value.ProcedureDeclarationStmt? == s.ProcedureDeclarationStmt?
    ensures r.Success? ==> r.value.FunctionDeclarationStmt? == s.FunctionDeclarationStmt?
    decreases s, 1
  {
    match s
    case BlockStmt(pos, ss) =>
      var lifted :- LiftStmts(ss);
      Success(BlockStmt(pos, lifted))
    case ProcedureDeclarationStmt(_, _, _, _, _) => LiftCallable(s)
    case FunctionDeclarationStmt(_, _, _, _, _, _) => LiftCallable(s)
    case CallStmt(_, _, arguments, declaration) =>
      var free :- FreeVariablesOf(declaration);
      Success(s.(arguments := arguments + AddedArguments(free)))
    case _ => Success(s)
  }

  /** The parameters first, then the body. */
  function LiftCallable(s: Statement): (r: Result<Statement>)
    requires s.IsCallableDeclaration()
    ensures r.Success? ==> r.value.ProcedureDeclarationStmt? == s.ProcedureDeclarationStmt?
    ensures r.Success? ==> r.value.FunctionDeclarationStmt? == s.FunctionDeclarationStmt?
    decreases s, 0
  {
    var free :- FreeVariablesOf(s.declaration);
    var block :- LiftStmt(s.block);
    Success(s.(parameters := s.parameters + AddedParameters(free), block := block))
  }

  /** The statements in order; the first failure ends the walk. */
  function LiftStmts(ss: seq<Statement>): (r: Result<seq<Statement>>)
    ensures r.Success? ==> |r.value| == |ss|
    decreases ss
  {
    if ss == [] then Success([])
    else
      var front :- LiftStmts(ss[..|ss| - 1]);
      var last :- LiftStmt(ss[|ss| - 1]);
      Success(front + [last])
  }

  function LiftProgram(p: ProgramNode): Result<ProgramNode>
  {
    var block :- LiftStmt(p.block);
    Success(p.(block := block))
  }

  // ---------------------------------------------------------------- properties

  /**
   * A lifted callable keeps its parameters and then has one by-reference
   * parameter per free variable, in order, with the variable's name and type.
   */
  lemma LiftedCallableParameters(s: Statement)
    requires s.IsCallableDeclaration() && LiftStmt(s).Success?
    requires s.declaration.Some? && s.declaration.value.IsCallable()
    ensures var free, lifted := s.declaration.value.kind.freeVariables, LiftStmt(s).value;
            && |lifted.parameters| == |s.parameters| + |free|
            && lifted.parameters[..|s.parameters|] == s.parameters
            && forall k :: 0 <= k < |free| ==>
                 var p := lifted.parameters[|s.parameters| + k];
                 p.identifier == free[k].name && p.referenceParameter && TypeOfNode(p.paramType) == free[k].ty
    ensures LiftStmt(s).value.identifier == s.identifier && LiftStmt(s).value.pos == s.pos
    ensures LiftStmt(s).value.declaration == s.declaration
  {
    var free := s.declaration.value.kind.freeVariables;
    var lifted := LiftStmt(s).value;
    assert lifted.parameters == s.parameters + AddedParameters(free);
  }

  /** A lifted call keeps its arguments and then passes each free variable of its callee, in order. */
  lemma LiftedCallArguments(s: Statement)
    requires s.CallStmt? && LiftStmt(s).Success?
    requires s.declaration.Some? && s.declaration.value.IsCallable()
    ensures var free, lifted := s.declaration.value.kind.freeVariables, LiftStmt(s).value;
            && |lifted.arguments| == |s.arguments| + |free|
            && lifted.arguments[..|s.arguments|] == s.arguments
            && forall k :: 0 <= k < |free| ==> lifted.arguments[|s.arguments| + k] == ArgumentFor(free[k])
    ensures LiftStmt(s).value.(arguments := s.arguments) == s
  {
    var free := s.declaration.value.kind.freeVariables;
    assert LiftStmt(s).value.arguments == s.arguments + AddedArguments(free);
  }

  /**
   * A call and the declaration it resolves to gain the same number of
   * parameters and arguments, and the `k`-th new argument names the
   * variable the `k`-th new parameter stands for, so a call whose arity
   * agreed with its callee still does.
   */
  lemma LiftedCallFitsCallee(decl: Statement, call: Statement)
    requires decl.IsCallableDeclaration() && call.CallStmt? && call.declaration == decl.declaration
    requires LiftStmt(decl).Success? && LiftStmt(call).Success?
    requires decl.declaration.Some? && decl.declaration.value.IsCallable()
    ensures var d, c := LiftStmt(decl).value, LiftStmt(call).value;
            |d.parameters| - |decl.parameters| == |c.arguments| - |call.arguments|
    ensures var d, c := LiftStmt(decl).value, LiftStmt(call).value;
            forall j :: |decl.parameters| <= j < |d.parameters| ==>
              var a := c.arguments[j - |decl.parameters| + |call.arguments|];
              d.parameters[j].identifier == a.identifier && d.parameters[j].referenceParameter && a.VariableExpr?
    ensures |call.arguments| == |decl.parameters| ==>
              |LiftStmt(call).value.arguments| == |LiftStmt(decl).value.parameters|
  {
    var free := decl.declaration.value.kind.freeVariables;
    var d, c := LiftStmt(decl).value, LiftStmt(call).value;
    LiftedCallableParameters(decl);
    LiftedCallArguments(call);
    forall j | |decl.parameters| <= j < |d.parameters|
      ensures var a := c.arguments[j - |decl.parameters| + |call.arguments|];
              d.parameters[j].identifier == a.identifier && d.parameters[j].referenceParameter && a.VariableExpr?
    {
      LiftedArgumentFits(decl, call, j);
    }
  }

  /** The `j`-th parameter of a lifted declaration and the matching argument of a lifted call to it. */
  lemma LiftedArgumentFits(decl: Statement, call: Statement, j: int)
    requires decl.IsCallableDeclaration() && call.CallStmt? && call.declaration == decl.declaration
    requires LiftStmt(decl).Success? && LiftStmt(call).Success?
    requires decl.declaration.Some? && decl.declaration.value.IsCallable()
    requires |decl.parameters| <= j < |LiftStmt(decl).value.parameters|
    ensures var d, c := LiftStmt(decl).value, LiftStmt(call).value;
            var i := j - |decl.parameters| + |call.arguments|;
            0 <= i < |c.arguments| &&
            d.parameters[j].identifier == c.arguments[i].identifier && d.parameters[j].referenceParameter &&
            c.arguments[i].VariableExpr?
  {
    var free := decl.declaration.value.kind.freeVariables;
    var d, c := LiftStmt(decl).value, LiftStmt(call).value;
    LiftedCallableParameters(decl);
    LiftedCallArguments(call);
    var k := j - |decl.parameters|;
    assert j == |decl.parameters| + k && 0 <= k < |free|;
    var param := d.parameters[|decl.parameters| + k];
    assert param.identifier == free[k].name && param.referenceParameter;
    var arg := c.arguments[|call.arguments| + k];
    assert arg == ArgumentFor(free[k]);
  }

  /** Statements the lifter does not visit (if, while, assignment, declarations, return, assert) are unchanged. */
  lemma UnvisitedStatementsUnchanged(s: Statement)
    requires !s.BlockStmt? && !s.IsCallableDeclaration() && !s.CallStmt?
    ensures LiftStmt(s) == Success(s)
  {
  }

  /** A call inside an `if` or `while` is not lifted, even when its callee has free variables. */
  lemma NestedCallNotLifted(test: Expression, call: Statement)
    requires call.CallStmt? && LiftStmt(call).Success?
    requires call.declaration.Some? && call.declaration.value.IsCallable()
    requires call.declaration.value.kind.freeVariables != []
    ensures LiftStmt(call) != Success(call)
    ensures LiftStmt(WhileStmt(Generated, test, call)) == Success(WhileStmt(Generated, test, call))
    ensures LiftStmt(IfStmt(Generated, test, call, None)) == Success(IfStmt(Generated, test, call, None))
  {
    LiftedCallArguments(call);
    assert |LiftStmt(call).value.arguments| != |call.arguments|;
  }

  /** Every callable and call the lifter reaches resolves to a callable without free variables. */
  ghost predicate Closed(s: Statement)
    decreases s, 1
  {
    match s
    case BlockStmt(_, ss) => ClosedAll(ss)
    case ProcedureDeclarationStmt(_, _, _, block, declaration) =>
      FreeVariablesOf(declaration) == Success([]) && Closed(block)
    case FunctionDeclarationStmt(_, _, _, _, block, declaration) =>
      FreeVariablesOf(declaration) == Success([]) && Closed(block)
    case CallStmt(_, _, _, declaration) => FreeVariablesOf(declaration) == Success([])
    case _ => true
  }

  ghost predicate ClosedAll(ss: seq<Statement>)
    decreases ss
  {
    forall k :: 0 <= k < |ss| ==> Closed(ss[k])
  }

  /** A tree without free variables comes out of closure conversion unchanged. */
  lemma {:induction false} ClosedUnchanged(s: Statement)
    requires Closed(s)
    ensures LiftStmt(s) == Success(s)
    decreases s, 1
  {
    match s
    case BlockStmt(_, ss) => ClosedAllUnchanged(ss);
    case ProcedureDeclarationStmt(_, _, ps, block, _) =>
      ClosedUnchanged(block);
      assert ps + AddedParameters([]) == ps;
    case FunctionDeclarationStmt(_, _, ps, _, block, _) =>
      ClosedUnchanged(block);
      assert ps + AddedParameters([]) == ps;
    case CallStmt(_, _, args, _) =>
      assert args + AddedArguments([]) == args;
    case _ =>
  }

  lemma {:induction false} ClosedAllUnchanged(ss: seq<Statement>)
    requires ClosedAll(ss)
    ensures LiftStmts(ss) == Success(ss)
    decreases ss
  {
    if ss != [] {
      var front := ss[..|ss| - 1];
      assert ClosedAll(front) by {
        forall k | 0 <= k < |front| ensures Closed(front[k]) {
          assert front[k] == ss[k];
        }
      }
      ClosedAllUnchanged(front);
      assert Closed(ss[|ss| - 1]);
      ClosedUnchanged(ss[|ss| - 1]);
      assert front + [ss[|ss| - 1]] == ss;
    }
  }

  // ---------------------------------------------------------------- the visitor

  class LambdaLifter {
    var program: ProgramNode

    constructor (program: ProgramNode)
      ensures this.program == program
    {
      this.program := program;
    }

    /** The program's block is converted; on a failure the program is left as it was. */
    method LiftLambdas() returns (r: Result<ProgramNode>)
      modifies this
      ensures r == LiftProgram(old(program))
      ensures program == if r.Success? then r.value else old(program)
    {
      var block := VisitStmt(program.block);
      if block.Failure? {
        return Failure(block.error);
      }
      program := program.(block := block.value);
      r := Success(program);
    }

    /** The dynamic dispatch of `Visit`: blocks, callables and calls have their own visitor. */
    method VisitStmt(s: Statement) returns (r: Result<Statement>)
      ensures r == LiftStmt(s)
      decreases s, 2
    {
      match s
      case BlockStmt(_, _) => r := VisitBlock(s);
      case ProcedureDeclarationStmt(_, _, _, _, _) => r := VisitCallable(s);
      case FunctionDeclarationStmt(_, _, _, _, _, _) => r := VisitCallable(s);
      case CallStmt(_, _, _, _) => r := VisitCall(s);
      case _ => r := Success(s);
    }

    method VisitBlock(s: Statement) returns (r: Result<Statement>)
      requires s.BlockStmt?
      ensures r == LiftStmt(s)
      decreases s, 1
    {
      var lifted: seq<Statement> := [];
      var i := 0;
      while i < |s.statements|
        invariant 0 <= i <= |s.statements|
        invariant LiftStmts(s.statements[..i]) == Success(lifted)
      {
        var statement := s.statements[i];
        assert s.statements[..i + 1][..i] == s.statements[..i];
        var one := VisitStmt(statement);
        if one.Failure? {
          FailureStops(s.statements, i + 1);
          return Failure(one.error);
        }
        lifted := lifted + [one.value];
        i := i + 1;
      }
      assert s.statements[..i] == s.statements;
      r := Success(BlockStmt(s.pos, lifted));
    }

    /** One by-reference parameter per free variable, then the callable's block. */
    method VisitCallable(s: Statement) returns (r: Result<Statement>)
      requires s.IsCallableDeclaration()
      ensures r == LiftStmt(s)
      decreases s, 1
    {
      var free := FreeVariablesOf(s.declaration);
      if free.Failure? {
        return Failure(free.error);
      }
      var statement := AddFreeParameters(s, free.value);
      var block := VisitStmt(s.block);
      if block.Failure? {
        return Failure(block.error);
      }
      r := Success(statement.(block := block.value));
    }

    /** The loop of `VisitCallable` that appends a parameter for each free variable. */
    method AddFreeParameters(s: Statement, free: seq<Symbol>) returns (statement: Statement)
      requires s.IsCallableDeclaration()
      ensures statement == s.(parameters := s.parameters + AddedParameters(free))
    {
      statement := s;
      var i := 0;
      while i < |free|
        invariant 0 <= i <= |free|
        invariant statement == s.(parameters := s.parameters + AddedParameters(free[..i]))
      {
        var variable := free[i];
        assert free[..i + 1][..i] == free[..i];
        var paramType := if variable.ty.isArray then ArrayType(Generated, variable.ty.basicType, None)
                         else SimpleType(Generated, variable.ty.basicType);
        statement := AddParameter(statement, variable.name, paramType, true);
        i := i + 1;
      }
      assert free[..i] == free;
    }

    /** One argument per free variable of the callee, after the call's own arguments. */
    method VisitCall(s: Statement) returns (r: Result<Statement>)
      requires s.CallStmt?
      ensures r == LiftStmt(s)
    {
      var free := FreeVariablesOf(s.declaration);
      if free.Failure? {
        return Failure(free.error);
      }
      var arguments := s.arguments;
      var i := 0;
      while i < |free.value|
        invariant 0 <= i <= |free.value|
        invariant arguments == s.arguments + AddedArguments(free.value[..i])
      {
        assert free.value[..i + 1][..i] == free.value[..i];
        arguments := arguments + [VariableExpr(Generated, DefaultExprType, PlusSign, free.value[i].name, None)];
        i := i + 1;
      }
      assert free.value[..i] == free.value;
      r := Success(s.(arguments := arguments));
    }
  }

  /** Once a statement fails, every longer prefix fails with the first failure. */
  lemma {:induction false} FailureStops(ss: seq<Statement>, n: nat)
    requires 0 < n <= |ss| && LiftStmts(ss[..n - 1]).Success? && LiftStmt(ss[n - 1]).Failure?
    ensures LiftStmts(ss[..n]) == Failure(LiftStmt(ss[n - 1]).error)
    ensures LiftStmts(ss) == Failure(LiftStmt(ss[n - 1]).error)
    decreases |ss| - n
  {
    assert ss[..n][..n - 1] == ss[..n - 1];
    if n < |ss| {
      FailurePersists(ss, n, LiftStmt(ss[n - 1]).error);
    } else {
      assert ss[..n] == ss;
    }
  }

  lemma {:induction false} FailurePersists(ss: seq<Statement>, n: nat, error: string)
    requires 0 < n <= |ss| && LiftStmts(ss[..n]) == Failure(error)
    ensures LiftStmts(ss) == Failure(error)
    decreases |ss| - n
  {
    if n < |ss| {
      assert ss[..n + 1][..n] == ss[..n];
      FailurePersists(ss, n + 1, error);
    } else {
      assert ss[..n] == ss;
    }
  }
}
