/**
 * The semantic analyser (SemanticAnalyzer.cs): one walk over the tree that
 * opens a scope per block, resolves names in the symbol table, infers the
 * type of every expression through a type stack and reports semantic
 * errors. A `Void` type is poison: a test, operand or argument of type
 * `Void` has already been reported and draws no further error.
 *
 * `ExprCheck` and `StmtCheck` are the reference semantics: the type an
 * expression pushes, and the state (symbol table, return-type stack,
 * error queue) a statement leaves. The class `SemanticAnalyzer` is the
 * imperative visitor, proved against them.
 */
module Semantics {
  import opened Wrappers
  import opened Text
  import opened AstEnums
  import opened Symbols
  import opened SymbolTables
  import opened ErrorHandling
  import opened Ast
  import opened TypeChecker

  /** What the analysis carries from statement to statement; the top of the return-type stack is last. */
  datatype AState = AState(table: TableState, returnTypes: seq<TypeInfo>, errors: seq<Error>)

  const VoidType: TypeInfo := TypeInfo(Void, false)

  predicate IsNotVoid(t: TypeInfo)
  {
    t.basicType != Void
  }

  function Diagnostic(message: string): Error
  {
    Error(message, SemanticError)
  }

  // ---------------------------------------------------------------- messages

  function AlreadyDeclared(name: string): string { "'" + name + "' is already declared in current scope" }
  function UndeclaredProcedure(name: string): string { "Undeclared procedure '" + name + "'" }
  function NotCallable(name: string): string { "'" + name + "' is not defined as a function or a procedure" }
  function UndeclaredFunction(name: string): string { "Undeclared function '" + name + "'" }
  function NotAFunction(name: string): string { "'" + name + "' is not defined as a function" }
  function UndeclaredVariable(name: string): string { "Undeclared variable '" + name + "'" }
  function NotAnArray(name: string): string { "Variable '" + name + "' is not declared as an array" }
  const SubscriptNotInt: string := "Array subscript expression has to be of type Int"
  const IfNotBool: string := "If test expression has to be of type Bool"
  const WhileNotBool: string := "While condition expression has to be of type Bool"
  const AssertNotBool: string := "Assertion expression has to be of type Bool"
  const ValueInProcedure: string := "Can't return a value in a procedure"
  const EmptyReturnInFunction: string := "Return statement can't be empty in a function"

  function ArityMismatch(name: string, expected: nat, given: nat): string
  {
    "'" + name + "' takes " + NatToString(expected) + " arguments, " + NatToString(given) + " given"
  }

  function ArgumentTypeMismatch(name: string, index: nat, paramType: TypeInfo, argType: TypeInfo): string
  {
    "'" + name + "' argument " + NatToString(index) + " expects a parameter of type " +
    TypeInfoToString(paramType) + ", " + TypeInfoToString(argType) + " given"
  }

  function ArgumentNotVariable(name: string, index: nat, argType: TypeInfo): string
  {
    "'" + name + "' argument " + NatToString(index) + " expects a variable of type " + TypeInfoToString(argType)
  }

  function ReturnMismatch(returnType: TypeInfo, expected: TypeInfo): string
  {
    "Can't return a value of type " + TypeInfoToString(returnType) + " in a function of type " + TypeInfoToString(expected)
  }

  function BinaryMismatch(op: Operator, type1: TypeInfo, type2: TypeInfo): string
  {
    "Can't apply operator " + OperatorName(op) + " on types " + TypeInfoToString(type1) + " and " + TypeInfoToString(type2)
  }

  function UnaryMismatch(op: Operator, t: TypeInfo): string
  {
    "Can't apply operator " + OperatorName(op) + " on type " + TypeInfoToString(t)
  }

  function NoSuchMember(accessed: TypeInfo, member: string): string
  {
    TypeInfoToString(accessed) + " has no member '" + member + "'"
  }

  function AssignMismatch(valueType: TypeInfo, varType: TypeInfo): string
  {
    "Can't assign a value of type " + TypeInfoToString(valueType) + " in a variable of type " + TypeInfoToString(varType)
  }

  // ---------------------------------------------------------------- expressions

  /** Only a variable or an array element can be passed by reference. */
  predicate IsVariable(e: Expression)
  {
    e.VariableExpr? || e.ArrayVariableExpr?
  }

  predicate IsReferenceParameter(p: Symbol)
  {
    p.kind.ParameterKind? && p.kind.isReference
  }

  /** The errors an argument of type `argType` draws at 1-based position `index`. */
  function ArgErrors(name: string, index: nat, param: Symbol, arg: Expression, argType: TypeInfo): seq<Error>
  {
    if IsNotVoid(argType) then
      (if !TypeCheckAssign(param.ty, argType)
       then [Diagnostic(ArgumentTypeMismatch(name, index, param.ty, argType))] else []) +
      (if !IsVariable(arg) && IsReferenceParameter(param)
       then [Diagnostic(ArgumentNotVariable(name, index, argType))] else [])
    else []
  }

  /**
   * The type an expression pushes and the errors it reports, in order.
   * Expressions never change the table. A `Void` operand of a binary,
   * unary or member-access expression makes the expression `Void`.
   */
  function ExprCheck(e: Expression, t: TableState): (TypeInfo, seq<Error>)
    decreases e, 2
  {
    match e
    case VariableExpr(_, _, _, id, _) =>
      (match Find(t, id)
       case Some(s) => (s.ty, [])
       case None => (VoidType, [Diagnostic(UndeclaredVariable(id))]))
    case ArrayVariableExpr(_, _, _, id, sub, _) =>
      (match Find(t, id)
       case None => (VoidType, [Diagnostic(UndeclaredVariable(id))])
       case Some(s) =>
         var subCheck := ExprCheck(sub, t);
         var subType, subErrors := subCheck.0, subCheck.1;
         if !s.ty.isArray then (VoidType, subErrors + [Diagnostic(NotAnArray(id))])
         else if IsNotVoid(subType) && !SameAs(subType, TypeInfo(Int, false))
         then (VoidType, subErrors + [Diagnostic(SubscriptNotInt)])
         else (TypeInfo(s.ty.basicType, false), subErrors))
    case BinaryExpr(_, _, _, op, left, right) =>
      var leftCheck := ExprCheck(left, t);
      var leftType, leftErrors := leftCheck.0, leftCheck.1;
      var rightCheck := ExprCheck(right, t);
      var rightType, rightErrors := rightCheck.0, rightCheck.1;
      // the right operand's type is on top of the stack, so it is popped first
      if IsNotVoid(rightType) && IsNotVoid(leftType) then
        var opType := FindOpProductionType(rightType, leftType, op);
        (TypeInfo(opType, false),
         leftErrors + rightErrors +
         (if opType == Void then [Diagnostic(BinaryMismatch(op, rightType, leftType))] else []))
      else (VoidType, leftErrors + rightErrors)
    case UnaryExpr(_, _, _, op, operand) =>
      var operandCheck := ExprCheck(operand, t);
      var operandType, operandErrors := operandCheck.0, operandCheck.1;
      if IsNotVoid(operandType) then
        var opType := FindUnaryOpProductionType(operandType, op);
        (TypeInfo(opType, false),
         operandErrors + (if opType == Void then [Diagnostic(UnaryMismatch(op, operandType))] else []))
      else (VoidType, operandErrors)
    case IntLiteralExpr(_, _, _, _) => (TypeInfo(Int, false), [])
    case RealLiteralExpr(_, _, _, _) => (TypeInfo(Real, false), [])
    case StringLiteralExpr(_, _, _, _) => (TypeInfo(String, false), [])
    case CallExpr(_, _, _, id, args, _) =>
      (match Find(t, id)
       case None => (VoidType, [Diagnostic(UndeclaredFunction(id))])
       case Some(s) =>
         if !s.kind.FunctionKind? then (VoidType, [Diagnostic(NotAFunction(id))])
         else (s.ty, CallCheck(s, args, t)))
    case MemberAccessExpr(_, _, _, accessed, member) =>
      var accessedCheck := ExprCheck(accessed, t);
      var accessedType, accessedErrors := accessedCheck.0, accessedCheck.1;
      if IsNotVoid(accessedType) then
        if accessedType.isArray && member == "size" then (TypeInfo(Int, false), accessedErrors)
        else (VoidType, accessedErrors + [Diagnostic(NoSuchMember(accessedType, member))])
      else (VoidType, accessedErrors)
  }

  /** `CheckCallParameters`: a wrong number of arguments is reported once and the arguments are not visited. */
  function CallCheck(callable: Symbol, args: seq<Expression>, t: TableState): seq<Error>
    requires callable.IsCallable()
    decreases args, 1
  {
    if |args| != |callable.Parameters()| then
      [Diagnostic(ArityMismatch(callable.name, |callable.Parameters()|, |args|))]
    else ArgsCheck(callable.name, callable.Parameters(), args, t)
  }

  /** The arguments visited left to right, each checked against its parameter. */
  function ArgsCheck(name: string, params: seq<Symbol>, args: seq<Expression>, t: TableState): seq<Error>
    requires |args| <= |params|
    decreases args, 0
  {
    if args == [] then []
    else
      var k := |args| - 1;
      var argCheck := ExprCheck(args[k], t);
      var argType, argErrors := argCheck.0, argCheck.1;
      ArgsCheck(name, params, args[..k], t) + argErrors + ArgErrors(name, k + 1, params[k], args[k], argType)
  }

  // ---------------------------------------------------------------- statements

  /** A condition of `if`, `while` or `assert`: its own errors, then `message` when it is neither Bool nor poison. */
  function TestErrors(test: Expression, message: string, t: TableState): seq<Error>
  {
    var testCheck := ExprCheck(test, t);
    var testType, testErrors := testCheck.0, testCheck.1;
    testErrors + (if IsNotVoid(testType) && testType.basicType != Bool then [Diagnostic(message)] else [])
  }

  function TestCheck(test: Expression, message: string, st: AState): (r: AState)
    ensures r.table == st.table && r.returnTypes == st.returnTypes && st.errors <= r.errors
  {
    st.(errors := st.errors + TestErrors(test, message, st.table))
  }

  /** The target, then the value; a mismatch is reported only when neither side is poison. */
  function AssignErrors(variable: Expression, value: Expression, t: TableState): seq<Error>
  {
    var varCheck := ExprCheck(variable, t);
    var varType, varErrors := varCheck.0, varCheck.1;
    var valueCheck := ExprCheck(value, t);
    var valueType, valueErrors := valueCheck.0, valueCheck.1;
    varErrors + valueErrors +
    (if IsNotVoid(varType) && IsNotVoid(valueType) && !TypeCheckAssign(varType, valueType)
     then [Diagnostic(AssignMismatch(valueType, varType))] else [])
  }

  function CallStmtErrors(id: string, args: seq<Expression>, t: TableState): seq<Error>
  {
    match Find(t, id)
    case None => [Diagnostic(UndeclaredProcedure(id))]
    case Some(s) =>
      if !s.IsCallable() then [Diagnostic(NotCallable(id))]
      else CallCheck(s, args, t)
  }

  function ReturnErrors(value: Option<Expression>, expected: TypeInfo, t: TableState): seq<Error>
  {
    if value.Some? && expected.basicType == Void then [Diagnostic(ValueInProcedure)]
    else if value.None? then
      if IsNotVoid(expected) then [Diagnostic(EmptyReturnInFunction)] else []
    else
      var returnCheck := ExprCheck(value.value, t);
      var returnType, returnErrors := returnCheck.0, returnCheck.1;
      returnErrors + (if !TypeCheckAssign(expected, returnType)
                      then [Diagnostic(ReturnMismatch(returnType, expected))] else [])
  }

  /** The symbol of a parameter, in the callable's own scope. */
  function ParameterSymbolOf(p: Parameter, scope: int): Symbol
  {
    var ty := TypeOfNode(p.paramType);
    ParameterSymbol(p.identifier, ty.basicType, ty.isArray, p.referenceParameter, scope)
  }

  /** Each parameter added to the table in turn; a duplicate is not added, but is still a parameter. */
  function ParamsCheck(ps: seq<Parameter>, scope: int, t: TableState): (r: (seq<Symbol>, TableState))
    ensures |r.0| == |ps| && forall k :: 0 <= k < |ps| ==> r.0[k] == ParameterSymbolOf(ps[k], scope)
    ensures r.1.scopeStack == t.scopeStack && r.1.newScopeId == t.newScopeId
  {
    if ps == [] then ([], t)
    else
      var frontResult := ParamsCheck(ps[..|ps| - 1], scope, t);
      var front, t1 := frontResult.0, frontResult.1;
      var p := ParameterSymbolOf(ps[|ps| - 1], scope);
      (front + [p], Add(t1, p.name, p.ty, p.kind).1)
  }

  /** Each identifier of a declaration added in turn; a name already in the current scope is reported. */
  function VarsCheck(ids: seq<string>, ty: TypeInfo, st: AState): (r: AState)
    ensures r.table.scopeStack == st.table.scopeStack && r.table.newScopeId == st.table.newScopeId
    ensures r.returnTypes == st.returnTypes && st.errors <= r.errors
  {
    if ids == [] then st
    else
      var mid := VarsCheck(ids[..|ids| - 1], ty, st);
      var id := ids[|ids| - 1];
      var addedResult := Add(mid.table, id, ty, VariableKind);
      var added, t1 := addedResult.0, addedResult.1;
      AState(t1, mid.returnTypes, mid.errors + (if added then [] else [Diagnostic(AlreadyDeclared(id))]))
  }

  /**
   * The state a statement leaves. The scope stack and the return-type stack
   * are as the statement found them, and errors are only appended.
   */
  function StmtCheck(s: Statement, st: AState): (r: AState)
    requires |st.returnTypes| > 0
    ensures r.table.scopeStack == st.table.scopeStack && r.returnTypes == st.returnTypes
    ensures st.errors <= r.errors
    decreases s, 1
  {
    match s
    case BlockStmt(_, ss) =>
      var t1 := Enter(st.table).1;
      var inner := StmtsCheck(ss, st.(table := t1));
      inner.(table := Leave(inner.table))
    case VarDeclarationStmt(_, ids, ty, _) => VarsCheck(ids, TypeOfNode(ty), st)
    case ProcedureDeclarationStmt(_, _, _, _, _) => CallableCheck(s, st)
    case FunctionDeclarationStmt(_, _, _, _, _, _) => CallableCheck(s, st)
    case AssignmentStmt(_, variable, value, _) =>
      st.(errors := st.errors + AssignErrors(variable, value, st.table))
    case WhileStmt(_, test, body) =>
      StmtCheck(body, TestCheck(test, WhileNotBool, st))
    case IfStmt(_, test, trueStatement, falseStatement) =>
      var afterTrue := StmtCheck(trueStatement, TestCheck(test, IfNotBool, st));
      if falseStatement.Some? then StmtCheck(falseStatement.value, afterTrue) else afterTrue
    case CallStmt(_, id, args, _) =>
      st.(errors := st.errors + CallStmtErrors(id, args, st.table))
    case ReturnStmt(_, value) =>
      st.(errors := st.errors + ReturnErrors(value, st.returnTypes[|st.returnTypes| - 1], st.table))
    case AssertStmt(_, test) => TestCheck(test, AssertNotBool, st)
  }

  /**
   * A procedure or function declaration: a new scope holds the parameters,
   * the body is checked against the declared return type, and only then is
   * the callable's symbol added to the enclosing scope.
   */
  function CallableCheck(s: Statement, st: AState): (r: AState)
    requires s.IsCallableDeclaration() && |st.returnTypes| > 0
    ensures r.table.scopeStack == st.table.scopeStack && r.returnTypes == st.returnTypes
    ensures st.errors <= r.errors
    decreases s, 0
  {
    if DeclaredInCurrent(st.table, s.identifier) then
      st.(errors := st.errors + [Diagnostic(AlreadyDeclared(s.identifier))])
    else
      var scopeResult := Enter(st.table);
      var scope, t1 := scopeResult.0, scopeResult.1;
      var returnType := if s.ProcedureDeclarationStmt? then VoidType else TypeOfNode(s.returnType);
      var paramsResult := ParamsCheck(s.parameters, scope, t1);
      var params, t2 := paramsResult.0, paramsResult.1;
      var body := StmtCheck(s.block, AState(t2, st.returnTypes + [returnType], st.errors));
      var t3 := Leave(body.table);
      var symbol := if s.ProcedureDeclarationStmt? then ProcedureSymbol(s.identifier, params, Current(t3))
                    else FunctionSymbol(s.identifier, returnType.basicType, returnType.isArray, params, Current(t3));
      AState(Add(t3, symbol.name, symbol.ty, symbol.kind).1, st.returnTypes, body.errors)
  }

  function StmtsCheck(ss: seq<Statement>, st: AState): (r: AState)
    requires |st.returnTypes| > 0
    ensures r.table.scopeStack == st.table.scopeStack && r.returnTypes == st.returnTypes
    ensures st.errors <= r.errors
    decreases ss
  {
    if ss == [] then st
    else StmtCheck(ss[|ss| - 1], StmtsCheck(ss[..|ss| - 1], st))
  }

  /** The whole analysis: the program's block, with the top level checked like a procedure body. */
  function Analysis(p: ProgramNode, errors: seq<Error>): AState
  {
    StmtCheck(p.block, AState(InitialTable, [VoidType], errors))
  }

  // ---------------------------------------------------------------- the visitor

  class SemanticAnalyzer {
    const program: ProgramNode
    const errors: ErrorHandler
    const symbols: SymbolTable
    /** The types of the expressions visited and not yet consumed; the top is last. */
    var typeStack: seq<TypeInfo>
    var returnTypeStack: seq<TypeInfo>

    function Model(): AState
      reads this, symbols, errors
    {
      AState(symbols.Model(), returnTypeStack, errors.errors)
    }

    /** A fresh table, an empty type stack, and `Void` as the return type of the top level. */
    constructor (program: ProgramNode, errors: ErrorHandler)
      ensures this.program == program && this.errors == errors && fresh(symbols)
      ensures Model() == AState(InitialTable, [VoidType], errors.errors) && typeStack == []
    {
      this.program := program;
      this.errors := errors;
      symbols := new SymbolTable();
      typeStack := [];
      returnTypeStack := [VoidType];
    }

    /** `Analyze`: the program's block is visited and the table handed back. */
    method Analyze() returns (table: SymbolTable)
      requires |returnTypeStack| > 0
      modifies this, symbols, errors
      ensures table == symbols && typeStack == old(typeStack)
      ensures Model() == StmtCheck(program.block, old(Model()))
    {
      VisitStmt(program.block);
      table := symbols;
    }

    method PushType(t: TypeInfo)
      modifies this
      ensures typeStack == old(typeStack) + [t] && returnTypeStack == old(returnTypeStack)
    {
      typeStack := typeStack + [t];
    }

    method PopType() returns (t: TypeInfo)
      requires |typeStack| > 0
      modifies this
      ensures typeStack == old(typeStack)[..|old(typeStack)| - 1] && t == old(typeStack)[|old(typeStack)| - 1]
      ensures returnTypeStack == old(returnTypeStack)
    {
      t := typeStack[|typeStack| - 1];
      typeStack := typeStack[..|typeStack| - 1];
    }

    method AddError(message: string)
      modifies errors
      ensures errors.errors == old(errors.errors) + [Diagnostic(message)]
    {
      errors.AddError(message, SemanticError);
    }

    /** The expression visitors: each pushes exactly one type. */
    method VisitExpr(e: Expression)
      modifies this, errors
      ensures typeStack == old(typeStack) + [ExprCheck(e, symbols.Model()).0]
      ensures errors.errors == old(errors.errors) + ExprCheck(e, symbols.Model()).1
      ensures returnTypeStack == old(returnTypeStack)
      decreases e, 3
    {
      match e
      case VariableExpr(_, _, _, _, _) => VisitVariable(e);
      case ArrayVariableExpr(_, _, _, _, _, _) => VisitArrayVariable(e);
      case BinaryExpr(_, _, _, _, _, _) => VisitBinary(e);
      case UnaryExpr(_, _, _, _, _) => VisitUnary(e);
      case IntLiteralExpr(_, _, _, _) => PushType(TypeInfo(Int, false));
      case RealLiteralExpr(_, _, _, _) => PushType(TypeInfo(Real, false));
      case StringLiteralExpr(_, _, _, _) => PushType(TypeInfo(String, false));
      case CallExpr(_, _, _, _, _, _) => VisitCallExpr(e);
      case MemberAccessExpr(_, _, _, _, _) => VisitMemberAccess(e);
    }

    method VisitVariable(e: Expression)
      requires e.VariableExpr?
      modifies this, errors
      ensures typeStack == old(typeStack) + [ExprCheck(e, symbols.Model()).0]
      ensures errors.errors == old(errors.errors) + ExprCheck(e, symbols.Model()).1
      ensures returnTypeStack == old(returnTypeStack)
    {
      var symbol := symbols.Lookup(e.identifier);
      if symbol.Some? {
        PushType(symbol.value.ty);
      } else {
        AddError(UndeclaredVariable(e.identifier));
        PushType(VoidType);
      }
    }

    method VisitArrayVariable(e: Expression)
      requires e.ArrayVariableExpr?
      modifies this, errors
      ensures typeStack == old(typeStack) + [ExprCheck(e, symbols.Model()).0]
      ensures errors.errors == old(errors.errors) + ExprCheck(e, symbols.Model()).1
      ensures returnTypeStack == old(returnTypeStack)
      decreases e, 2
    {
      var symbol := symbols.Lookup(e.arrayIdentifier);
      if symbol.Some? {
        VisitExpr(e.subscript);
        var subscriptType := PopType();
        if !symbol.value.ty.isArray {
          AddError(NotAnArray(e.arrayIdentifier));
          PushType(VoidType);
        } else if IsNotVoid(subscriptType) && !SameAs(subscriptType, TypeInfo(Int, false)) {
          AddError(SubscriptNotInt);
          PushType(VoidType);
        } else {
          PushType(TypeInfo(symbol.value.ty.basicType, false));
        }
      } else {
        AddError(UndeclaredVariable(e.arrayIdentifier));
        PushType(VoidType);
      }
    }

    method VisitBinary(e: Expression)
      requires e.BinaryExpr?
      modifies this, errors
      ensures typeStack == old(typeStack) + [ExprCheck(e, symbols.Model()).0]
      ensures errors.errors == old(errors.errors) + ExprCheck(e, symbols.Model()).1
      ensures returnTypeStack == old(returnTypeStack)
      decreases e, 2
    {
      ghost var t := symbols.Model();
      ghost var errors0 := errors.errors;
      VisitExpr(e.left);
      VisitExpr(e.right);
      var type1 := PopType();
      var type2 := PopType();
      ghost var own := PushBinaryResult(e.op, type1, type2);
      ConcatAssoc(errors0, ExprCheck(e.left, t).1, ExprCheck(e.right, t).1);
      ConcatAssoc(errors0, ExprCheck(e.left, t).1 + ExprCheck(e.right, t).1, own);
    }

    /** The type of a binary operation on the two popped types, the right operand's first, and its error. */
    method PushBinaryResult(op: Operator, type1: TypeInfo, type2: TypeInfo) returns (ghost own: seq<Error>)
      modifies this, errors
      ensures typeStack == old(typeStack) +
        [if IsNotVoid(type1) && IsNotVoid(type2) then TypeInfo(FindOpProductionType(type1, type2, op), false) else VoidType]
      ensures own == if IsNotVoid(type1) && IsNotVoid(type2) && FindOpProductionType(type1, type2, op) == Void
                     then [Diagnostic(BinaryMismatch(op, type1, type2))] else []
      ensures errors.errors == old(errors.errors) + own
      ensures returnTypeStack == old(returnTypeStack)
    {
      own := [];
      if IsNotVoid(type1) && IsNotVoid(type2) {
        var opType := FindOpProductionType(type1, type2, op);
        if opType == Void {
          AddError(BinaryMismatch(op, type1, type2));
          own := [Diagnostic(BinaryMismatch(op, type1, type2))];
        }
        PushType(TypeInfo(opType, false));
      } else {
        PushType(VoidType);
      }
    }

    method VisitUnary(e: Expression)
      requires e.UnaryExpr?
      modifies this, errors
      ensures typeStack == old(typeStack) + [ExprCheck(e, symbols.Model()).0]
      ensures errors.errors == old(errors.errors) + ExprCheck(e, symbols.Model()).1
      ensures returnTypeStack == old(returnTypeStack)
      decreases e, 2
    {
      VisitExpr(e.operand);
      var operandType := PopType();
      if IsNotVoid(operandType) {
        var opType := FindUnaryOpProductionType(operandType, e.op);
        if opType == Void {
          AddError(UnaryMismatch(e.op, operandType));
        }
        PushType(TypeInfo(opType, false));
      } else {
        PushType(VoidType);
      }
    }

    method VisitCallExpr(e: Expression)
      requires e.CallExpr?
      modifies this, errors
      ensures typeStack == old(typeStack) + [ExprCheck(e, symbols.Model()).0]
      ensures errors.errors == old(errors.errors) + ExprCheck(e, symbols.Model()).1
      ensures returnTypeStack == old(returnTypeStack)
      decreases e, 2
    {
      var symbol := symbols.Lookup(e.calleeId);
      if symbol.None? {
        AddError(UndeclaredFunction(e.calleeId));
        PushType(VoidType);
      } else if !symbol.value.kind.FunctionKind? {
        AddError(NotAFunction(e.calleeId));
        PushType(VoidType);
      } else {
        CheckCallParameters(symbol.value, e.arguments);
        PushType(symbol.value.ty);
      }
    }

    method VisitMemberAccess(e: Expression)
      requires e.MemberAccessExpr?
      modifies this, errors
      ensures typeStack == old(typeStack) + [ExprCheck(e, symbols.Model()).0]
      ensures errors.errors == old(errors.errors) + ExprCheck(e, symbols.Model()).1
      ensures returnTypeStack == old(returnTypeStack)
      decreases e, 2
    {
      VisitExpr(e.accessed);
      var accessedType := PopType();
      if IsNotVoid(accessedType) {
        if accessedType.isArray && e.memberId == "size" {
          PushType(TypeInfo(Int, false));
        } else {
          AddError(NoSuchMember(accessedType, e.memberId));
          PushType(VoidType);
        }
      } else {
        PushType(VoidType);
      }
    }

    method CheckCallParameters(callable: Symbol, args: seq<Expression>)
      requires callable.IsCallable()
      modifies this, errors
      ensures typeStack == old(typeStack) && returnTypeStack == old(returnTypeStack)
      ensures errors.errors == old(errors.errors) + CallCheck(callable, args, symbols.Model())
      decreases args, 1
    {
      var params := callable.Parameters();
      if |args| != |params| {
        AddError(ArityMismatch(callable.name, |params|, |args|));
        return;
      }
      ghost var t := symbols.Model();
      ghost var errors0 := errors.errors;
      var index := 0;
      while index < |args|
        invariant 0 <= index <= |args| && symbols.Model() == t
        invariant typeStack == old(typeStack) && returnTypeStack == old(returnTypeStack)
        invariant errors.errors == errors0 + ArgsCheck(callable.name, params, args[..index], t)
      {
        var argument := args[index];
        assert args[..index + 1][..index] == args[..index];
        ghost var before := ArgsCheck(callable.name, params, args[..index], t);
        CheckArgument(callable.name, index + 1, params[index], argument);
        ghost var argErrors := ArgErrors(callable.name, index + 1, params[index], argument, ExprCheck(argument, t).0);
        ConcatAssoc(errors0, before, ExprCheck(argument, t).1);
        ConcatAssoc(errors0, before + ExprCheck(argument, t).1, argErrors);
        index := index + 1;
      }
      assert args[..index] == args;
    }

    /** One argument: visited, its type popped, and checked against its parameter. */
    method CheckArgument(name: string, index: nat, parameter: Symbol, argument: Expression)
      modifies this, errors
      ensures typeStack == old(typeStack) && returnTypeStack == old(returnTypeStack)
      ensures var argumentCheck := ExprCheck(argument, symbols.Model());
        errors.errors == old(errors.errors) + argumentCheck.1 +
                         ArgErrors(name, index, parameter, argument, argumentCheck.0)
      decreases argument, 4
    {
      VisitExpr(argument);
      var argumentType := PopType();
      if IsNotVoid(argumentType) {
        if !TypeCheckAssign(parameter.ty, argumentType) {
          AddError(ArgumentTypeMismatch(name, index, parameter.ty, argumentType));
        }
        if !IsVariable(argument) && IsReferenceParameter(parameter) {
          AddError(ArgumentNotVariable(name, index, argumentType));
        }
      }
    }

    /** The statement visitors: the type stack is left as it was found. */
    method VisitStmt(s: Statement)
      requires |returnTypeStack| > 0
      modifies this, symbols, errors
      ensures Model() == StmtCheck(s, old(Model())) && typeStack == old(typeStack)
      decreases s, 1
    {
      match s
      case BlockStmt(_, ss) =>
        var scope := symbols.EnterScope();
        VisitStmts(ss);
        symbols.LeaveScope();
      case VarDeclarationStmt(_, ids, ty, _) =>
        VisitVarDecl(ids, TypeOfNode(ty));
      case ProcedureDeclarationStmt(_, _, _, _, _) =>
        VisitCallable(s);
      case FunctionDeclarationStmt(_, _, _, _, _, _) =>
        VisitCallable(s);
      case AssignmentStmt(_, variable, value, _) =>
        VisitAssignment(variable, value);
      case WhileStmt(_, test, body) =>
        CheckTest(test, WhileNotBool);
        VisitStmt(body);
      case IfStmt(_, test, trueStatement, falseStatement) =>
        CheckTest(test, IfNotBool);
        VisitStmt(trueStatement);
        if falseStatement.Some? {
          VisitStmt(falseStatement.value);
        }
      case CallStmt(_, id, args, _) =>
        VisitCall(id, args);
      case ReturnStmt(_, value) =>
        VisitReturn(value);
      case AssertStmt(_, test) =>
        CheckTest(test, AssertNotBool);
    }

    method VisitStmts(ss: seq<Statement>)
      requires |returnTypeStack| > 0
      modifies this, symbols, errors
      ensures Model() == StmtsCheck(ss, old(Model())) && typeStack == old(typeStack)
      decreases ss
    {
      ghost var st0 := Model();
      var i := 0;
      while i < |ss|
        invariant 0 <= i <= |ss| && typeStack == old(typeStack)
        invariant Model() == StmtsCheck(ss[..i], st0)
      {
        assert ss[..i + 1][..i] == ss[..i];
        VisitStmt(ss[i]);
        i := i + 1;
      }
      assert ss[..i] == ss;
    }

    /** A procedure or function declaration. */
    method VisitCallable(s: Statement)
      requires s.IsCallableDeclaration() && |returnTypeStack| > 0
      modifies this, symbols, errors
      ensures Model() == CallableCheck(s, old(Model())) && typeStack == old(typeStack)
      decreases s, 0
    {
      if !symbols.ExistsInCurrentScope(s.identifier) {
        ghost var st0 := Model();
        var procedureScope := symbols.EnterScope();
        ghost var t1 := symbols.Model();
        var returnType := if s.ProcedureDeclarationStmt? then VoidType else TypeOfNode(s.returnType);
        returnTypeStack := returnTypeStack + [returnType];
        var parameterSymbols := DeclareParameters(s.parameters, procedureScope);
        ghost var inner := Model();
        assert inner == AState(ParamsCheck(s.parameters, procedureScope, t1).1, st0.returnTypes + [returnType], st0.errors);
        VisitStmt(s.block);
        ghost var body := Model();
        assert body == StmtCheck(s.block, inner);
        symbols.LeaveScope();
        returnTypeStack := returnTypeStack[..|returnTypeStack| - 1];
        assert returnTypeStack == st0.returnTypes;
        var symbol := if s.ProcedureDeclarationStmt? then ProcedureSymbol(s.identifier, parameterSymbols, symbols.CurrentScope())
                      else FunctionSymbol(s.identifier, returnType.basicType, returnType.isArray, parameterSymbols, symbols.CurrentScope());
        var added := symbols.AddSymbol(symbol.name, symbol.ty, symbol.kind);
      } else {
        AddError(AlreadyDeclared(s.identifier));
      }
    }

    /** Each parameter of a callable added to the table in its own scope, in order. */
    method DeclareParameters(ps: seq<Parameter>, scope: int) returns (parameterSymbols: seq<Symbol>)
      modifies symbols
      ensures (parameterSymbols, symbols.Model()) == ParamsCheck(ps, scope, old(symbols.Model()))
    {
      ghost var t := symbols.Model();
      parameterSymbols := [];
      var i := 0;
      while i < |ps|
        invariant 0 <= i <= |ps|
        invariant (parameterSymbols, symbols.Model()) == ParamsCheck(ps[..i], scope, t)
      {
        assert ps[..i + 1][..i] == ps[..i];
        var parameterSymbol := ParameterSymbolOf(ps[i], scope);
        var added := symbols.AddSymbol(parameterSymbol.name, parameterSymbol.ty, parameterSymbol.kind);
        parameterSymbols := parameterSymbols + [parameterSymbol];
        i := i + 1;
      }
      assert ps[..i] == ps;
    }

    method VisitVarDecl(ids: seq<string>, ty: TypeInfo)
      modifies symbols, errors
      ensures Model() == VarsCheck(ids, ty, old(Model()))
    {
      ghost var st0 := Model();
      var i := 0;
      while i < |ids|
        invariant 0 <= i <= |ids|
        invariant Model() == VarsCheck(ids[..i], ty, st0)
      {
        assert ids[..i + 1][..i] == ids[..i];
        var added := symbols.AddSymbol(ids[i], ty, VariableKind);
        if !added {
          AddError(AlreadyDeclared(ids[i]));
        }
        i := i + 1;
      }
      assert ids[..i] == ids;
    }

    method VisitAssignment(variable: Expression, value: Expression)
      modifies this, errors
      ensures typeStack == old(typeStack) && returnTypeStack == old(returnTypeStack)
      ensures errors.errors == old(errors.errors) + AssignErrors(variable, value, symbols.Model())
    {
      ghost var t := symbols.Model();
      ghost var errors0 := errors.errors;
      VisitExpr(variable);
      var varType := PopType();
      VisitExpr(value);
      var valType := PopType();
      ghost var own: seq<Error> := [];
      if IsNotVoid(varType) && IsNotVoid(valType) && !TypeCheckAssign(varType, valType) {
        AddError(AssignMismatch(valType, varType));
        own := [Diagnostic(AssignMismatch(valType, varType))];
      }
      ConcatAssoc(errors0, ExprCheck(variable, t).1, ExprCheck(value, t).1);
      ConcatAssoc(errors0, ExprCheck(variable, t).1 + ExprCheck(value, t).1, own);
    }

    method CheckTest(test: Expression, message: string)
      modifies this, errors
      ensures typeStack == old(typeStack) && returnTypeStack == old(returnTypeStack)
      ensures errors.errors == old(errors.errors) + TestErrors(test, message, symbols.Model())
    {
      VisitExpr(test);
      var testType := PopType();
      if IsNotVoid(testType) && testType.basicType != Bool {
        AddError(message);
      }
    }

    method VisitCall(id: string, args: seq<Expression>)
      modifies this, errors
      ensures typeStack == old(typeStack) && returnTypeStack == old(returnTypeStack)
      ensures errors.errors == old(errors.errors) + CallStmtErrors(id, args, symbols.Model())
    {
      var symbol := symbols.Lookup(id);
      if symbol.None? {
        AddError(UndeclaredProcedure(id));
        return;
      }
      if !symbol.value.IsCallable() {
        AddError(NotCallable(id));
        return;
      }
      CheckCallParameters(symbol.value, args);
    }

    method VisitReturn(value: Option<Expression>)
      requires |returnTypeStack| > 0
      modifies this, errors
      ensures typeStack == old(typeStack) && returnTypeStack == old(returnTypeStack)
      ensures errors.errors == old(errors.errors) +
        ReturnErrors(value, returnTypeStack[|returnTypeStack| - 1], symbols.Model())
    {
      var expectedType := returnTypeStack[|returnTypeStack| - 1];
      if value.Some? && expectedType.basicType == Void {
        AddError(ValueInProcedure);
        return;
      }
      if value.None? {
        if IsNotVoid(expectedType) {
          AddError(EmptyReturnInFunction);
        }
        return;
      }
      VisitExpr(value.value);
      var returnType := PopType();
      if !TypeCheckAssign(expectedType, returnType) {
        AddError(ReturnMismatch(returnType, expectedType));
      }
    }
  }
}
