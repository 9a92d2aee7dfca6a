/**
 * Properties of the semantic analysis (`Semantics.StmtCheck` and
 * `Semantics.ExprCheck`): block scoping, the poison rule for `Void`, the
 * checks on calls, returns and declarations, and the messages the checks
 * report.
 */
module SemanticProperties {
  import opened Wrappers
  import opened AstEnums
  import opened Symbols
  import opened SymbolTables
  import opened ErrorHandling
  import opened Ast
  import opened TypeChecker
  import opened Semantics

  // ---------------------------------------------------------------- block scoping

  /** `after` extends `before`, and every binding added is in scope `current` or in a scope issued after `issued`. */
  ghost predicate ListGrows(before: seq<Symbol>, after: seq<Symbol>, current: int, issued: int)
  {
    before <= after &&
    forall k :: |before| <= k < |after| ==> after[k].scope == current || after[k].scope > issued
  }

  /** From `t` to `r` bindings are only appended, each in scope `current` or in a scope issued after `issued`. */
  ghost predicate AddsOnly(t: TableState, r: TableState, current: int, issued: int)
  {
    r.newScopeId >= t.newScopeId &&
    forall n :: ListGrows(Bindings(t, n), Bindings(r, n), current, issued)
  }

  lemma SameBindingsAddsOnly(t: TableState, r: TableState, current: int, issued: int)
    requires r.symbols == t.symbols && r.newScopeId >= t.newScopeId
    ensures AddsOnly(t, r, current, issued)
  {
    forall n ensures ListGrows(Bindings(t, n), Bindings(r, n), current, issued) {
      assert Bindings(r, n) == Bindings(t, n);
    }
  }

  /** `Add` appends at most one binding, in the current scope. */
  lemma AddAddsOnly(t: TableState, name: string, ty: TypeInfo, kind: SymbolKind)
    ensures AddsOnly(t, Add(t, name, ty, kind).1, Current(t), t.newScopeId)
  {
    var r := Add(t, name, ty, kind).1;
    forall n ensures ListGrows(Bindings(t, n), Bindings(r, n), Current(t), t.newScopeId) {
      if n == name && !DeclaredInCurrent(t, name) {
        assert Bindings(r, n) == Bindings(t, n) + [Symbol(name, ty, Current(t), kind)];
      } else {
        assert Bindings(r, n) == Bindings(t, n);
      }
    }
  }

  lemma AddsOnlyTrans(a: TableState, b: TableState, c: TableState, c1: int, i1: int, c2: int, i2: int,
                      current: int, issued: int)
    requires AddsOnly(a, b, c1, i1) && AddsOnly(b, c, c2, i2)
    requires (c1 == current || c1 > issued) && i1 >= issued
    requires (c2 == current || c2 > issued) && i2 >= issued
    ensures AddsOnly(a, c, current, issued)
  {
    forall n ensures ListGrows(Bindings(a, n), Bindings(c, n), current, issued) {
      var x, y, z := Bindings(a, n), Bindings(b, n), Bindings(c, n);
      assert ListGrows(x, y, c1, i1) && ListGrows(y, z, c2, i2);
      forall k | |x| <= k < |z| ensures z[k].scope == current || z[k].scope > issued {
        if k < |y| {
          assert z[k] == y[k];
        }
      }
    }
  }

  lemma {:induction false} VarsAddsOnly(ids: seq<string>, ty: TypeInfo, st: AState)
    ensures AddsOnly(st.table, VarsCheck(ids, ty, st).table, Current(st.table), st.table.newScopeId)
  {
    var t, c, n := st.table, Current(st.table), st.table.newScopeId;
    if ids == [] {
      SameBindingsAddsOnly(t, t, c, n);
    } else {
      var mid := VarsCheck(ids[..|ids| - 1], ty, st);
      VarsAddsOnly(ids[..|ids| - 1], ty, st);
      AddAddsOnly(mid.table, ids[|ids| - 1], ty, VariableKind);
      AddsOnlyTrans(t, mid.table, VarsCheck(ids, ty, st).table, c, n, c, n, c, n);
    }
  }

  lemma {:induction false} ParamsAddsOnly(ps: seq<Parameter>, scope: int, t: TableState)
    ensures AddsOnly(t, ParamsCheck(ps, scope, t).1, Current(t), t.newScopeId)
  {
    var c, n := Current(t), t.newScopeId;
    if ps == [] {
      SameBindingsAddsOnly(t, t, c, n);
    } else {
      var t1 := ParamsCheck(ps[..|ps| - 1], scope, t).1;
      var p := ParameterSymbolOf(ps[|ps| - 1], scope);
      ParamsAddsOnly(ps[..|ps| - 1], scope, t);
      AddAddsOnly(t1, p.name, p.ty, p.kind);
      AddsOnlyTrans(t, t1, ParamsCheck(ps, scope, t).1, c, n, c, n, c, n);
    }
  }

  /** A statement adds bindings only to the current scope and to scopes it opens itself. */
  lemma {:induction false} StmtAddsOnly(s: Statement, st: AState)
    requires |st.returnTypes| > 0
    ensures AddsOnly(st.table, StmtCheck(s, st).table, Current(st.table), st.table.newScopeId)
    decreases s, 3
  {
    var t, c, n := st.table, Current(st.table), st.table.newScopeId;
    match s
    case BlockStmt(_, _) =>
      BlockAddsFresh(s, st);
      SameBindingsAddsOnly(t, t, c, n);
      AddsOnlyTrans(t, t, StmtCheck(s, st).table, c, n, n + 1, n, c, n);
    case VarDeclarationStmt(_, ids, ty, _) => VarsAddsOnly(ids, TypeOfNode(ty), st);
    case ProcedureDeclarationStmt(_, _, _, _, _) => CallableAddsOnly(s, st);
    case FunctionDeclarationStmt(_, _, _, _, _, _) => CallableAddsOnly(s, st);
    case WhileStmt(_, test, body) => StmtAddsOnly(body, TestCheck(test, WhileNotBool, st));
    case IfStmt(_, test, trueStatement, falseStatement) =>
      var st1 := TestCheck(test, IfNotBool, st);
      StmtAddsOnly(trueStatement, st1);
      if falseStatement.Some? {
        var st2 := StmtCheck(trueStatement, st1);
        StmtAddsOnly(falseStatement.value, st2);
        AddsOnlyTrans(t, st2.table, StmtCheck(falseStatement.value, st2).table, c, n, c, st2.table.newScopeId, c, n);
      }
    case AssignmentStmt(_, _, _, _) => SameBindingsAddsOnly(t, t, c, n);
    case CallStmt(_, _, _, _) => SameBindingsAddsOnly(t, t, c, n);
    case ReturnStmt(_, _) => SameBindingsAddsOnly(t, t, c, n);
    case AssertStmt(_, _) => SameBindingsAddsOnly(t, t, c, n);
  }

  /** Everything a block adds is in a scope issued after the block began. */
  lemma {:induction false} BlockAddsFresh(s: Statement, st: AState)
    requires s.BlockStmt? && |st.returnTypes| > 0
    ensures AddsOnly(st.table, StmtCheck(s, st).table, st.table.newScopeId + 1, st.table.newScopeId)
    decreases s, 1
  {
    var t, n := st.table, st.table.newScopeId;
    var t1 := Enter(t).1;
    var inner := StmtsCheck(s.statements, st.(table := t1));
    StmtsAddsOnly(s.statements, st.(table := t1));
    SameBindingsAddsOnly(t, t1, n + 1, n);
    AddsOnlyTrans(t, t1, inner.table, n + 1, n, n + 1, n + 1, n + 1, n);
    SameBindingsAddsOnly(inner.table, Leave(inner.table), n + 1, n);
    AddsOnlyTrans(t, inner.table, Leave(inner.table), n + 1, n, n + 1, n, n + 1, n);
  }

  lemma {:induction false} StmtsAddsOnly(ss: seq<Statement>, st: AState)
    requires |st.returnTypes| > 0
    ensures AddsOnly(st.table, StmtsCheck(ss, st).table, Current(st.table), st.table.newScopeId)
    decreases ss
  {
    var t, c, n := st.table, Current(st.table), st.table.newScopeId;
    if ss == [] {
      SameBindingsAddsOnly(t, t, c, n);
    } else {
      var mid := StmtsCheck(ss[..|ss| - 1], st);
      StmtsAddsOnly(ss[..|ss| - 1], st);
      StmtAddsOnly(ss[|ss| - 1], mid);
      AddsOnlyTrans(t, mid.table, StmtsCheck(ss, st).table, c, n, c, mid.table.newScopeId, c, n);
    }
  }

  /** Leaving a scope changes no binding. */
  lemma LeaveAddsOnly(a: TableState, b: TableState, current: int, issued: int)
    requires AddsOnly(a, b, current, issued) && |b.scopeStack| > 0
    ensures AddsOnly(a, Leave(b), current, issued)
  {
    SameBindingsAddsOnly(b, Leave(b), current, issued);
    AddsOnlyTrans(a, b, Leave(b), current, issued, current, issued, current, issued);
  }

  /** The table once an undeclared callable's scope is entered and its parameters are declared. */
  ghost function CallableParams(s: Statement, st: AState): TableState
    requires s.IsCallableDeclaration()
  {
    var scopeResult := Enter(st.table);
    ParamsCheck(s.parameters, scopeResult.0, scopeResult.1).1
  }

  /** The checked body of an undeclared callable, before its scope is left. */
  ghost function CallableBody(s: Statement, st: AState): AState
    requires s.IsCallableDeclaration() && |st.returnTypes| > 0
  {
    var returnType := if s.ProcedureDeclarationStmt? then VoidType else TypeOfNode(s.returnType);
    StmtCheck(s.block, AState(CallableParams(s, st), st.returnTypes + [returnType], st.errors))
  }

  /** The parameters go into the callable's own scope, which is issued fresh. */
  lemma CallableParamsAddsOnly(s: Statement, st: AState)
    requires s.IsCallableDeclaration()
    ensures AddsOnly(st.table, CallableParams(s, st), st.table.newScopeId + 1, st.table.newScopeId)
  {
    var t, n := st.table, st.table.newScopeId;
    var scopeResult := Enter(t);
    SameBindingsAddsOnly(t, scopeResult.1, n + 1, n);
    ParamsAddsOnly(s.parameters, scopeResult.0, scopeResult.1);
    AddsOnlyTrans(t, scopeResult.1, CallableParams(s, st), n + 1, n, n + 1, n + 1, n + 1, n);
  }

  /** The parameters and the body add only to the callable's own scope and to scopes issued after it. */
  lemma {:induction false} CallableBodyAddsOnly(s: Statement, st: AState)
    requires s.IsCallableDeclaration() && |st.returnTypes| > 0
    ensures AddsOnly(st.table, Leave(CallableBody(s, st).table), Current(st.table), st.table.newScopeId)
    decreases s, 1
  {
    var p, b := CallableParams(s, st), CallableBody(s, st).table;
    CallableParamsAddsOnly(s, st);
    CallableBlockAddsOnly(s, st);
    ScopeBodyAddsOnly(st.table, p, b, st.table.newScopeId);
  }

  /** The body adds only to the callable's own scope and to scopes issued after it, and leaves that scope open. */
  lemma {:induction false} CallableBlockAddsOnly(s: Statement, st: AState)
    requires s.IsCallableDeclaration() && |st.returnTypes| > 0
    ensures var n := st.table.newScopeId;
      AddsOnly(CallableParams(s, st), CallableBody(s, st).table, n + 1, n + 1) &&
      |CallableBody(s, st).table.scopeStack| > 0
    decreases s, 0
  {
    var returnType := if s.ProcedureDeclarationStmt? then VoidType else TypeOfNode(s.returnType);
    var bodyState := AState(CallableParams(s, st), st.returnTypes + [returnType], st.errors);
    CallableScopeIssued(s, st);
    StmtAddsOnly(s.block, bodyState);
  }

  /** A scope `n + 1` opened over `t`, then filled by a body and left, adds only to `t`'s current scope and fresh ones. */
  lemma ScopeBodyAddsOnly(t: TableState, p: TableState, b: TableState, n: int)
    requires AddsOnly(t, p, n + 1, n) && AddsOnly(p, b, n + 1, n + 1) && |b.scopeStack| > 0
    ensures AddsOnly(t, Leave(b), Current(t), n)
  {
    AddsOnlyTrans(t, p, b, n + 1, n, n + 1, n + 1, Current(t), n);
    LeaveAddsOnly(t, b, Current(t), n);
  }

  /** A callable's parameters go into the scope it opens, the last one issued. */
  lemma CallableScopeIssued(s: Statement, st: AState)
    requires s.IsCallableDeclaration()
    ensures Current(CallableParams(s, st)) == st.table.newScopeId + 1
    ensures CallableParams(s, st).newScopeId == st.table.newScopeId + 1
    ensures |CallableParams(s, st).scopeStack| > 0
  {
    var scopeResult := Enter(st.table);
    assert CallableParams(s, st) == ParamsCheck(s.parameters, scopeResult.0, scopeResult.1).1;
  }

  lemma {:induction false} CallableAddsOnly(s: Statement, st: AState)
    requires s.IsCallableDeclaration() && |st.returnTypes| > 0
    ensures AddsOnly(st.table, StmtCheck(s, st).table, Current(st.table), st.table.newScopeId)
    decreases s, 2
  {
    var t, c, n := st.table, Current(st.table), st.table.newScopeId;
    if DeclaredInCurrent(t, s.identifier) {
      SameBindingsAddsOnly(t, t, c, n);
    } else {
      var body := CallableBody(s, st);
      var t3 := Leave(body.table);
      assert t3.scopeStack == t.scopeStack by {
        assert body.table.scopeStack == t.scopeStack + [Enter(t).0];
      }
      var params := ParamsCheck(s.parameters, Enter(t).0, Enter(t).1).0;
      var returnType := if s.ProcedureDeclarationStmt? then VoidType else TypeOfNode(s.returnType);
      var symbol := if s.ProcedureDeclarationStmt? then ProcedureSymbol(s.identifier, params, Current(t3))
                    else FunctionSymbol(s.identifier, returnType.basicType, returnType.isArray, params, Current(t3));
      var r := Add(t3, symbol.name, symbol.ty, symbol.kind).1;
      assert r == StmtCheck(s, st).table;
      CallableBodyAddsOnly(s, st);
      AddAfterScope(t, t3, symbol.name, symbol.ty, symbol.kind, n);
    }
  }

  /** Adding to a table that only gained bindings, with the current scope back in place, only adds too. */
  lemma AddAfterScope(t: TableState, t3: TableState, name: string, ty: TypeInfo, kind: SymbolKind, n: int)
    requires AddsOnly(t, t3, Current(t), n) && t3.scopeStack == t.scopeStack && n <= t.newScopeId
    ensures AddsOnly(t, Add(t3, name, ty, kind).1, Current(t), n)
  {
    AddAddsOnly(t3, name, ty, kind);
    AddsOnlyTrans(t, t3, Add(t3, name, ty, kind).1, Current(t), n, Current(t), t3.newScopeId, Current(t), n);
  }

  /** Bindings in scopes that are not on the stack and not predefined change no lookup. */
  lemma {:induction false} LookupIgnoresFresh(list: seq<Symbol>, extra: seq<Symbol>, stack: seq<int>, issued: int)
    requires issued >= 0
    requires forall k :: 0 <= k < |extra| ==> extra[k].scope > issued
    requires forall k :: 0 <= k < |stack| ==> stack[k] <= issued
    ensures LastLive(list + extra, stack) == LastLive(list, stack)
    ensures LastPredefined(list + extra) == LastPredefined(list)
    decreases |extra|
  {
    if extra == [] {
      assert list + extra == list;
    } else {
      var all := list + extra;
      var front := extra[..|extra| - 1];
      assert all[..|all| - 1] == list + front;
      assert all[|all| - 1] == extra[|extra| - 1];
      var lastScope := extra[|extra| - 1].scope;
      forall k | 0 <= k < |stack| ensures stack[k] != lastScope {
      }
      assert lastScope !in stack;
      LookupIgnoresFresh(list, front, stack, issued);
    }
  }

  /** A table that only gained bindings in scopes issued after `issued` resolves every name as before. */
  lemma LookupUnchanged(t: TableState, r: TableState, issued: int, name: string)
    requires issued >= 0 && forall k :: 0 <= k < |t.scopeStack| ==> t.scopeStack[k] <= issued
    requires AddsOnly(t, r, issued + 1, issued) && r.scopeStack == t.scopeStack
    ensures Find(r, name) == Find(t, name)
  {
    var before, after := Bindings(t, name), Bindings(r, name);
    assert ListGrows(before, after, issued + 1, issued);
    var extra := after[|before|..];
    assert after == before + extra;
    forall k | 0 <= k < |extra| ensures extra[k].scope > issued {
      assert extra[k] == after[|before| + k];
    }
    LookupIgnoresFresh(before, extra, t.scopeStack, issued);
  }

  /**
   * What a block declares is invisible once the block ends: every name
   * resolves exactly as it did before the block.
   */
  lemma BlockHidesInnerNames(s: Statement, st: AState, name: string)
    requires s.BlockStmt? && |st.returnTypes| > 0 && WellScoped(st.table)
    ensures Find(StmtCheck(s, st).table, name) == Find(st.table, name)
  {
    BlockAddsFresh(s, st);
    LookupUnchanged(st.table, StmtCheck(s, st).table, st.table.newScopeId, name);
  }

  /** A newly opened scope holds nothing, so any name may be declared again inside a block. */
  lemma FreshScopeIsEmpty(t: TableState, name: string)
    requires WellScoped(t)
    ensures !DeclaredInCurrent(Enter(t).1, name)
  {
    var t1 := Enter(t).1;
    if name in t.symbols {
      assert BindingsWellScoped(t.symbols[name], name, t);
    }
    assert Bindings(t1, name) == Bindings(t, name);
  }

  // ---------------------------------------------------------------- expressions

  /**
   * The right operand is popped first and named first in the message, but
   * the operand order does not change the resulting type.
   */
  lemma BinaryOperandOrder(e: Expression, t: TableState)
    requires e.BinaryExpr?
    ensures var l, r := ExprCheck(e.left, t), ExprCheck(e.right, t);
            IsNotVoid(l.0) && IsNotVoid(r.0) ==>
              && ExprCheck(e, t).0 == TypeInfo(FindOpProductionType(l.0, r.0, e.op), false)
              && (FindOpProductionType(l.0, r.0, e.op) == Void ==>
                    ExprCheck(e, t).1 == l.1 + r.1 + [Diagnostic(BinaryMismatch(e.op, r.0, l.0))])
              && (FindOpProductionType(l.0, r.0, e.op) != Void ==> ExprCheck(e, t).1 == l.1 + r.1)
  {
    var l, r := ExprCheck(e.left, t), ExprCheck(e.right, t);
    FindCommonTypeCases(l.0.basicType, r.0.basicType);
  }

  /** A `Void` operand draws no further error: the expression is `Void` and reports only its operands' errors. */
  lemma VoidOperandIsPoison(e: Expression, t: TableState)
    ensures e.BinaryExpr? && (!IsNotVoid(ExprCheck(e.left, t).0) || !IsNotVoid(ExprCheck(e.right, t).0)) ==>
              ExprCheck(e, t) == (VoidType, ExprCheck(e.left, t).1 + ExprCheck(e.right, t).1)
    ensures e.UnaryExpr? && !IsNotVoid(ExprCheck(e.operand, t).0) ==>
              ExprCheck(e, t) == (VoidType, ExprCheck(e.operand, t).1)
    ensures e.MemberAccessExpr? && !IsNotVoid(ExprCheck(e.accessed, t).0) ==>
              ExprCheck(e, t) == (VoidType, ExprCheck(e.accessed, t).1)
  {
  }

  /** A `Void` condition, assignment side or argument draws no further error either. */
  lemma VoidStatementPartIsPoison(test: Expression, variable: Expression, value: Expression, message: string,
                                  t: TableState)
    ensures !IsNotVoid(ExprCheck(test, t).0) ==> TestErrors(test, message, t) == ExprCheck(test, t).1
    ensures !IsNotVoid(ExprCheck(variable, t).0) || !IsNotVoid(ExprCheck(value, t).0) ==>
              AssignErrors(variable, value, t) == ExprCheck(variable, t).1 + ExprCheck(value, t).1
    ensures forall name, index, param :: ArgErrors(name, index, param, value, VoidType) == []
  {
    assert ExprCheck(test, t).1 + [] == ExprCheck(test, t).1;
    assert ExprCheck(variable, t).1 + ExprCheck(value, t).1 + [] == ExprCheck(variable, t).1 + ExprCheck(value, t).1;
  }

  /** A name resolves to its symbol's type; an unresolved name is `Void` with exactly one error. */
  lemma VariableResolution(e: Expression, t: TableState)
    requires e.VariableExpr?
    ensures ExprCheck(e, t).1 == [] <==> Find(t, e.identifier).Some?
    ensures Find(t, e.identifier).Some? ==> ExprCheck(e, t).0 == Find(t, e.identifier).value.ty
    ensures Find(t, e.identifier).None? ==> ExprCheck(e, t) == (VoidType, [Diagnostic(UndeclaredVariable(e.identifier))])
  {
  }

  /**
   * An element of an array is never itself an array, and it is well typed
   * exactly when the name is a declared array and the subscript is an Int
   * (or poison).
   */
  lemma ArrayElementType(e: Expression, t: TableState)
    requires e.ArrayVariableExpr?
    ensures !ExprCheck(e, t).0.isArray
    ensures var found, sub := Find(t, e.arrayIdentifier), ExprCheck(e.subscript, t);
            (found.Some? && ExprCheck(e, t).1 == sub.1) <==>
              found.Some? && found.value.ty.isArray && (!IsNotVoid(sub.0) || sub.0 == TypeInfo(Int, false))
    ensures var found := Find(t, e.arrayIdentifier);
            found.Some? && found.value.ty.isArray && ExprCheck(e, t).1 == ExprCheck(e.subscript, t).1 ==>
              ExprCheck(e, t).0 == TypeInfo(found.value.ty.basicType, false)
  {
    var sub := ExprCheck(e.subscript, t);
    SameAsIsEquality(sub.0, TypeInfo(Int, false));
    assert |sub.1 + [Diagnostic(NotAnArray(e.arrayIdentifier))]| != |sub.1|;
    assert |sub.1 + [Diagnostic(SubscriptNotInt)]| != |sub.1|;
  }

  /** `size` is the one member there is, on arrays only; any other access to a typed value is one error. */
  lemma MemberAccessRule(e: Expression, t: TableState)
    requires e.MemberAccessExpr? && IsNotVoid(ExprCheck(e.accessed, t).0)
    ensures var a := ExprCheck(e.accessed, t);
            ExprCheck(e, t) == (TypeInfo(Int, false), a.1) <==> a.0.isArray && e.memberId == "size"
    ensures var a := ExprCheck(e.accessed, t);
            !(a.0.isArray && e.memberId == "size") ==>
              ExprCheck(e, t) == (VoidType, a.1 + [Diagnostic(NoSuchMember(a.0, e.memberId))])
  {
  }

  // ---------------------------------------------------------------- calls

  /** A wrong number of arguments is one error, whatever the arguments are: none of them is checked. */
  lemma ArityReportedOnce(callable: Symbol, args: seq<Expression>, others: seq<Expression>, t: TableState)
    requires callable.IsCallable() && |args| != |callable.Parameters()| && |others| == |args|
    ensures |CallCheck(callable, args, t)| == 1
    ensures CallCheck(callable, args, t) == CallCheck(callable, others, t)
  {
  }

  /** The argument `arg` in position `k` draws no error of its own and fits its parameter. */
  predicate ArgumentClean(name: string, k: nat, param: Symbol, arg: Expression, t: TableState)
  {
    ExprCheck(arg, t).1 == [] && ArgErrors(name, k + 1, param, arg, ExprCheck(arg, t).0) == []
  }

  /** The arguments draw no error exactly when each argument is clean and fits its parameter. */
  lemma ArgumentsClean(name: string, params: seq<Symbol>, args: seq<Expression>, t: TableState)
    requires |args| <= |params|
    ensures ArgsCheck(name, params, args, t) == [] <==>
      forall k :: 0 <= k < |args| ==> ArgumentClean(name, k, params[k], args[k], t)
  {
    if ArgsCheck(name, params, args, t) == [] {
      CleanArgumentsEach(name, params, args, t);
    }
    if forall k :: 0 <= k < |args| ==> ArgumentClean(name, k, params[k], args[k], t) {
      EachArgumentClean(name, params, args, t);
    }
  }

  lemma {:induction false} CleanArgumentsEach(name: string, params: seq<Symbol>, args: seq<Expression>, t: TableState)
    requires |args| <= |params| && ArgsCheck(name, params, args, t) == []
    ensures forall k :: 0 <= k < |args| ==> ArgumentClean(name, k, params[k], args[k], t)
  {
    if args != [] {
      var last := |args| - 1;
      var front := args[..last];
      LastArgumentClean(name, params, args, t);
      CleanArgumentsEach(name, params, front, t);
      CleanFrontExtends(name, params, args, t);
    }
  }

  /** Clean arguments before the last, and a clean last one, make clean arguments. */
  lemma CleanFrontExtends(name: string, params: seq<Symbol>, args: seq<Expression>, t: TableState)
    requires 0 < |args| <= |params|
    requires forall k :: 0 <= k < |args| - 1 ==> ArgumentClean(name, k, params[k], args[..|args| - 1][k], t)
    requires ArgumentClean(name, |args| - 1, params[|args| - 1], args[|args| - 1], t)
    ensures forall k :: 0 <= k < |args| ==> ArgumentClean(name, k, params[k], args[k], t)
  {
    forall k | 0 <= k < |args| ensures ArgumentClean(name, k, params[k], args[k], t) {
      if k < |args| - 1 {
        assert args[..|args| - 1][k] == args[k];
      }
    }
  }

  lemma {:induction false} EachArgumentClean(name: string, params: seq<Symbol>, args: seq<Expression>, t: TableState)
    requires |args| <= |params|
    requires forall k :: 0 <= k < |args| ==> ArgumentClean(name, k, params[k], args[k], t)
    ensures ArgsCheck(name, params, args, t) == []
  {
    if args != [] {
      var last := |args| - 1;
      var front := args[..last];
      forall k | 0 <= k < |front| ensures ArgumentClean(name, k, params[k], front[k], t) {
        assert front[k] == args[k];
      }
      EachArgumentClean(name, params, front, t);
      assert ArgumentClean(name, last, params[last], args[last], t);
      LastArgumentClean(name, params, args, t);
    }
  }

  /** The arguments draw no error exactly when those before the last draw none and neither does the last. */
  lemma LastArgumentClean(name: string, params: seq<Symbol>, args: seq<Expression>, t: TableState)
    requires 0 < |args| <= |params|
    ensures var k := |args| - 1;
      ArgsCheck(name, params, args, t) == [] <==>
        ArgsCheck(name, params, args[..k], t) == [] && ExprCheck(args[k], t).1 == [] &&
        ArgErrors(name, k + 1, params[k], args[k], ExprCheck(args[k], t).0) == []
  {
    var k := |args| - 1;
    var front, own := ArgsCheck(name, params, args[..k], t), ExprCheck(args[k], t).1;
    var fit := ArgErrors(name, k + 1, params[k], args[k], ExprCheck(args[k], t).0);
    assert ArgsCheck(name, params, args, t) == front + own + fit;
    assert |front + own + fit| == |front| + |own| + |fit|;
  }

  /** Every error of the `k`-th argument against its parameter is reported, with the 1-based position `k + 1`. */
  lemma ArgumentErrorsReported(name: string, params: seq<Symbol>, args: seq<Expression>,
                                  t: TableState, k: nat)
    requires k < |args| <= |params|
    ensures forall err :: err in ArgErrors(name, k + 1, params[k], args[k], ExprCheck(args[k], t).0) ==>
              err in ArgsCheck(name, params, args, t)
  {
    var upto := args[..k + 1];
    assert upto[..k] == args[..k] && upto[k] == args[k];
    var own := ArgErrors(name, k + 1, params[k], args[k], ExprCheck(args[k], t).0);
    var partial := ArgsCheck(name, params, upto, t);
    assert partial == ArgsCheck(name, params, args[..k], t) + ExprCheck(args[k], t).1 + own;
    ArgsPrefixKept(name, params, args, k + 1, t);
    forall err | err in own ensures err in ArgsCheck(name, params, args, t) {
      assert err in partial;
    }
  }

  /** The errors of the first `m` arguments are a prefix of the errors of all of them. */
  lemma {:induction false} ArgsPrefixKept(name: string, params: seq<Symbol>, args: seq<Expression>, m: nat,
                                          t: TableState)
    requires m <= |args| <= |params|
    ensures ArgsCheck(name, params, args[..m], t) <= ArgsCheck(name, params, args, t)
    decreases |args| - m
  {
    if m < |args| {
      ArgsPrefixKept(name, params, args, m + 1, t);
      assert args[..m + 1][..m] == args[..m];
    } else {
      assert args[..m] == args;
    }
  }

  // ---------------------------------------------------------------- declarations

  /** After a declaration, exactly its names and those declared before are in the current scope. */
  lemma {:induction false} DeclaredAfterVars(ids: seq<string>, ty: TypeInfo, st: AState, x: string)
    ensures DeclaredInCurrent(VarsCheck(ids, ty, st).table, x) <==> DeclaredInCurrent(st.table, x) || x in ids
  {
    if ids != [] {
      var front := ids[..|ids| - 1];
      var id := ids[|ids| - 1];
      var mid := VarsCheck(front, ty, st);
      DeclaredAfterVars(front, ty, st, x);
      assert x in ids <==> x in front || x == id;
      AddDeclares(mid.table, id, ty, VariableKind, x);
    }
  }

  /** `Add` puts `name` in the current scope and leaves every other name as it was there. */
  lemma AddDeclares(t: TableState, name: string, ty: TypeInfo, kind: SymbolKind, x: string)
    ensures DeclaredInCurrent(Add(t, name, ty, kind).1, x) <==> DeclaredInCurrent(t, x) || x == name
  {
    var r := Add(t, name, ty, kind).1;
    if !DeclaredInCurrent(t, name) {
      if x == name {
        var list := Bindings(r, x);
        assert list[|list| - 1].scope == Current(r);
      } else {
        assert Bindings(r, x) == Bindings(t, x);
      }
      if DeclaredInCurrent(t, x) {
        var k :| 0 <= k < |Bindings(t, x)| && Bindings(t, x)[k].scope == Current(t);
        assert Bindings(r, x)[k] == Bindings(t, x)[k];
      }
    }
  }

  /**
   * A declaration draws no error exactly when its names are pairwise
   * distinct and none is already declared in the current scope.
   */
  lemma {:induction false} DeclarationClean(ids: seq<string>, ty: TypeInfo, st: AState)
    ensures VarsCheck(ids, ty, st).errors == st.errors <==>
      (forall i, j :: 0 <= i < j < |ids| ==> ids[i] != ids[j]) &&
      (forall i :: 0 <= i < |ids| ==> !DeclaredInCurrent(st.table, ids[i]))
  {
    if ids != [] {
      var front := ids[..|ids| - 1];
      var id := ids[|ids| - 1];
      var mid := VarsCheck(front, ty, st);
      DeclarationClean(front, ty, st);
      DeclaredAfterVars(front, ty, st, id);
      assert forall i :: 0 <= i < |front| ==> front[i] == ids[i];
      assert id in front <==> exists i :: 0 <= i < |front| && ids[i] == id;
      assert |mid.errors + [Diagnostic(AlreadyDeclared(id))]| != |st.errors|;
    }
  }

  /** A name declared twice in one declaration is reported. */
  lemma {:induction false} DuplicateReported(ids: seq<string>, ty: TypeInfo, st: AState, i: nat, j: nat)
    requires i < j < |ids| && ids[i] == ids[j]
    ensures Diagnostic(AlreadyDeclared(ids[j])) in VarsCheck(ids, ty, st).errors
  {
    var front := ids[..j];
    var pre := ids[..j + 1];
    assert pre[..|pre| - 1] == front && pre[|pre| - 1] == ids[j];
    assert front[i] == ids[j];
    DeclaredAfterVars(front, ty, st, ids[j]);
    var mid := VarsCheck(front, ty, st);
    var e1 := VarsCheck(pre, ty, st).errors;
    assert e1 == mid.errors + [Diagnostic(AlreadyDeclared(ids[j]))];
    PrefixErrorsKept(ids, j + 1, ty, st);
    var all := VarsCheck(ids, ty, st).errors;
    assert all[|e1| - 1] == e1[|e1| - 1];
  }

  /** The errors after a prefix of a declaration are a prefix of the errors after all of it. */
  lemma {:induction false} PrefixErrorsKept(ids: seq<string>, m: nat, ty: TypeInfo, st: AState)
    requires m <= |ids|
    ensures VarsCheck(ids[..m], ty, st).errors <= VarsCheck(ids, ty, st).errors
    decreases |ids| - m
  {
    if m < |ids| {
      PrefixErrorsKept(ids, m + 1, ty, st);
      assert ids[..m + 1][..m] == ids[..m];
    } else {
      assert ids[..m] == ids;
    }
  }

  // ---------------------------------------------------------------- returns and whole programs

  /**
   * A value may not be returned where `Void` is expected (and is then not
   * checked), an empty return is wrong exactly in a function, and a value
   * must be assignable to the declared return type.
   */
  lemma ReturnRules(value: Option<Expression>, expected: TypeInfo, t: TableState)
    ensures value.None? ==> (ReturnErrors(value, expected, t) == [] <==> !IsNotVoid(expected))
    ensures value.Some? && !IsNotVoid(expected) ==> ReturnErrors(value, expected, t) == [Diagnostic(ValueInProcedure)]
    ensures value.Some? && IsNotVoid(expected) ==>
              (ReturnErrors(value, expected, t) == ExprCheck(value.value, t).1 <==>
               TypeCheckAssign(expected, ExprCheck(value.value, t).0))
  {
    if value.Some? && IsNotVoid(expected) {
      var r := ExprCheck(value.value, t);
      assert |r.1 + [Diagnostic(ReturnMismatch(r.0, expected))]| != |r.1|;
    }
  }

  const Origin: Position := Position(0, 0)

  /** A program whose block holds `ss`. */
  function ProgramOf(ss: seq<Statement>): ProgramNode
  {
    ProgramNode(Origin, "p", BlockStmt(Origin, ss))
  }

  function One(): Expression
  {
    IntLiteralExpr(Origin, DefaultExprType, PlusSign, 1)
  }

  /** The state in which the statements of `ProgramOf(ss)` are checked. */
  const ProgramScope: AState := AState(Enter(InitialTable).1, [VoidType], [])

  lemma BlockOfOne(a: Statement, st: AState)
    requires |st.returnTypes| > 0
    ensures StmtCheck(BlockStmt(Origin, [a]), st).errors == StmtCheck(a, st.(table := Enter(st.table).1)).errors
  {
    var inner := st.(table := Enter(st.table).1);
    assert [a][..0] == [];
    assert StmtsCheck([a], inner) == StmtCheck(a, StmtsCheck([], inner));
  }

  lemma BlockOfTwo(a: Statement, b: Statement, st: AState)
    requires |st.returnTypes| > 0
    ensures var inner := st.(table := Enter(st.table).1);
            StmtCheck(BlockStmt(Origin, [a, b]), st).errors == StmtCheck(b, StmtCheck(a, inner)).errors
  {
    var inner := st.(table := Enter(st.table).1);
    StmtsOfTwo(a, b, inner);
  }

  lemma StmtsOfTwo(a: Statement, b: Statement, inner: AState)
    requires |inner.returnTypes| > 0
    ensures StmtsCheck([a, b], inner) == StmtCheck(b, StmtCheck(a, inner))
  {
    assert [a, b][..1] == [a] && [a][..0] == [];
    assert StmtsCheck([a], inner) == StmtCheck(a, StmtsCheck([], inner));
  }

  lemma ProgramOfOne(a: Statement)
    ensures Analysis(ProgramOf([a]), []).errors == StmtCheck(a, ProgramScope).errors
  {
    BlockOfOne(a, AState(InitialTable, [VoidType], []));
  }

  lemma ProgramOfTwo(a: Statement, b: Statement)
    ensures Analysis(ProgramOf([a, b]), []).errors == StmtCheck(b, StmtCheck(a, ProgramScope)).errors
  {
    BlockOfTwo(a, b, AState(InitialTable, [VoidType], []));
  }

  /** The program's own block is checked like a procedure body: an empty return is fine, a value is not. */
  lemma TopLevelIsProcedureBody()
    ensures Analysis(ProgramOf([ReturnStmt(Origin, None)]), []).errors == []
    ensures Analysis(ProgramOf([ReturnStmt(Origin, Some(One()))]), []).errors == [Diagnostic(ValueInProcedure)]
  {
    ProgramOfOne(ReturnStmt(Origin, None));
    ProgramOfOne(ReturnStmt(Origin, Some(One())));
  }

  /**
   * A callable is added to the table only after its body is checked, so a
   * procedure that calls itself is reported as calling an undeclared one.
   */
  lemma SelfCallIsUndeclared()
    ensures var body := BlockStmt(Origin, [CallStmt(Origin, "q", [], None)]);
            Analysis(ProgramOf([ProcedureDeclarationStmt(Origin, "q", [], body, None)]), []).errors
              == [Diagnostic(UndeclaredProcedure("q"))]
  {
    var call := CallStmt(Origin, "q", [], None);
    var body := BlockStmt(Origin, [call]);
    var proc := ProcedureDeclarationStmt(Origin, "q", [], body, None);
    ProgramOfOne(proc);
    var inBody := SelfCallBodyState(proc);
    SelfCallBody(call, inBody);
  }

  /** The procedure `q` at the top of a program: its body is checked in `q`'s own scope. */
  lemma SelfCallBodyState(proc: Statement) returns (inBody: AState)
    requires proc.ProcedureDeclarationStmt? && proc.identifier == "q" && proc.parameters == []
    ensures inBody == AState(Enter(ProgramScope.table).1, [VoidType, VoidType], [])
    ensures StmtCheck(proc, ProgramScope).errors == StmtCheck(proc.block, inBody).errors
  {
    var t1 := ProgramScope.table;
    assert "q" !in t1.symbols;
    assert !DeclaredInCurrent(t1, "q");
    var t2 := Enter(t1).1;
    assert ParamsCheck([], 2, t2).1 == t2;
    inBody := AState(t2, [VoidType, VoidType], []);
    assert Enter(t1) == (2, t2);
    assert ProgramScope.returnTypes + [VoidType] == [VoidType, VoidType];
    assert CallableCheck(proc, ProgramScope).errors == StmtCheck(proc.block, inBody).errors;
  }

  /** Inside `q`'s body, `q` is not yet declared. */
  lemma SelfCallBody(call: Statement, inBody: AState)
    requires call == CallStmt(Origin, "q", [], None)
    requires inBody == AState(Enter(ProgramScope.table).1, [VoidType, VoidType], [])
    ensures StmtCheck(BlockStmt(Origin, [call]), inBody).errors == [Diagnostic(UndeclaredProcedure("q"))]
  {
    var t3 := Enter(inBody.table).1;
    BlockOfOne(call, inBody);
    assert "q" !in ProgramScope.table.symbols;
    assert Bindings(t3, "q") == [];
    assert StmtCheck(call, inBody.(table := t3)).errors == CallStmtErrors("q", [], t3);
  }

  /** `writeln` is predefined without parameters, so a call with an argument is an arity error. */
  lemma WritelnTakesNoArguments()
    ensures Analysis(ProgramOf([CallStmt(Origin, "writeln", [One()], None)]), []).errors
              == [Diagnostic(ArityMismatch("writeln", 0, 1))]
  {
    var call := CallStmt(Origin, "writeln", [One()], None);
    ProgramOfOne(call);
    assert StmtCheck(call, ProgramScope).errors == CallStmtErrors("writeln", [One()], ProgramScope.table);
    WritelnCallErrors();
  }

  lemma WritelnCallErrors()
    ensures CallStmtErrors("writeln", [One()], ProgramScope.table) == [Diagnostic(ArityMismatch("writeln", 0, 1))]
  {
    InitialTableContents();
    assert Bindings(ProgramScope.table, "writeln") == [WritelnSymbol];
  }

  const DeclareX: Statement := VarDeclarationStmt(Origin, ["x"], SimpleType(Origin, Int), [])

  /** `var x` at the top of a program draws no error and declares `x` in the program's scope. */
  lemma DeclareXFirst()
    ensures StmtCheck(DeclareX, ProgramScope).errors == []
    ensures DeclaredInCurrent(StmtCheck(DeclareX, ProgramScope).table, "x")
    ensures WellScoped(StmtCheck(DeclareX, ProgramScope).table)
  {
    var ty := TypeInfo(Int, false);
    assert "x" !in ProgramScope.table.symbols;
    DeclarationClean(["x"], ty, ProgramScope);
    DeclaredAfterVars(["x"], ty, ProgramScope, "x");
    DeclareXWellScoped();
  }

  /** The table after `var x` at the top of a program is well scoped. */
  lemma DeclareXWellScoped()
    ensures WellScoped(StmtCheck(DeclareX, ProgramScope).table)
  {
    var ty := TypeInfo(Int, false);
    InitialTableContents();
    EnterKeepsWellScoped(InitialTable);
    assert ["x"][..0] == [];
    assert VarsCheck(["x"], ty, ProgramScope).table == Add(ProgramScope.table, "x", ty, VariableKind).1;
    AddKeepsWellScoped(ProgramScope.table, "x", ty, VariableKind);
  }

  /** Declaring a name twice in one scope is reported. */
  lemma SameScopeRedeclaration()
    ensures Analysis(ProgramOf([DeclareX, DeclareX]), []).errors == [Diagnostic(AlreadyDeclared("x"))]
  {
    ProgramOfTwo(DeclareX, DeclareX);
    DeclareXFirst();
    var afterX := StmtCheck(DeclareX, ProgramScope);
    assert ["x"][..0] == [];
    assert VarsCheck(["x"], TypeInfo(Int, false), afterX).errors == afterX.errors + [Diagnostic(AlreadyDeclared("x"))];
  }

  /** A name may be declared again in an inner block. */
  lemma InnerScopeRedeclaration()
    ensures Analysis(ProgramOf([DeclareX, BlockStmt(Origin, [DeclareX])]), []).errors == []
  {
    ProgramOfTwo(DeclareX, BlockStmt(Origin, [DeclareX]));
    DeclareXFirst();
    var afterX := StmtCheck(DeclareX, ProgramScope);
    BlockOfOne(DeclareX, afterX);
    FreshScopeIsEmpty(afterX.table, "x");
    DeclarationClean(["x"], TypeInfo(Int, false), afterX.(table := Enter(afterX.table).1));
  }

  /** A predefined name may be declared again: it belongs to scope 0, not to the program's scope. */
  lemma PredefinedRedeclaration()
    ensures Analysis(ProgramOf([VarDeclarationStmt(Origin, ["true"], SimpleType(Origin, Int), [])]), []).errors == []
  {
    ProgramOfOne(VarDeclarationStmt(Origin, ["true"], SimpleType(Origin, Int), []));
    assert Bindings(ProgramScope.table, "true") == [TrueSymbol];
    DeclarationClean(["true"], TypeInfo(Int, false), ProgramScope);
  }
}
