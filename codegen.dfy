/**
 * Lowering (CodeGenerator.cs): the statement and expression visitors that
 * emit abstract CIL into the current method's stream. Reflection.Emit's
 * builders become numbered references: a method is an index into
 * `methods`, a field an index into `fieldNames`, a local a slot of its
 * method. The `CILField`/`CILLocal`/`CILParameter`/`CILMethod` properties
 * the generator sets on symbols become the maps of `Slots`, keyed by symbol.
 *
 * The pure functions (`ExprCode`, `StmtGen`, ...) are the reference; the
 * class `CodeGenerator` performs the same emission step by step and is
 * proved to end in the state they compute. An exception the generator
 * would raise (a null slot, an unexpected symbol kind, a node without a
 * visitor) is a `Failure`.
 */
module CodeGeneration {
  import opened Wrappers
  import opened AstEnums
  import opened Symbols
  import opened Ast
  import opened Cil
  import SymbolTables

  /** One method under construction: its name, its IL stream and its local and label counters. */
  datatype MethodBody = MethodBody(name: string, code: seq<Instr>, localCount: nat, labelCount: nat)

  /** The storage the generator has assigned to symbols so far. */
  datatype Slots = Slots(
    fieldOf: map<Symbol, FieldRef>,
    localOf: map<Symbol, LocalRef>,
    parameterOf: map<Symbol, int>,
    methodOf: map<Symbol, CallTarget>)

  datatype GenState = GenState(methods: seq<MethodBody>, methodStack: seq<nat>, fieldNames: seq<string>, slots: Slots)

  /** There is a current method, and every method on the stack exists. */
  predicate GenValid(st: GenState)
  {
    |st.methodStack| > 0 && forall k :: 0 <= k < |st.methodStack| ==> st.methodStack[k] < |st.methods|
  }

  function Top(st: GenState): nat
    requires GenValid(st)
  {
    st.methodStack[|st.methodStack| - 1]
  }

  function CurrentCode(st: GenState): seq<Instr>
    requires GenValid(st)
  {
    st.methods[Top(st)].code
  }

  /** `il.Emit`: append to the current method's stream. */
  function Emit(st: GenState, code: seq<Instr>): (r: GenState)
    requires GenValid(st)
    ensures GenValid(r) && Top(r) == Top(st) && CurrentCode(r) == CurrentCode(st) + code
    ensures |r.methods| == |st.methods| && r.methodStack == st.methodStack
    ensures r.slots == st.slots && r.fieldNames == st.fieldNames
    ensures forall m :: 0 <= m < |st.methods| && m != Top(st) ==> r.methods[m] == st.methods[m]
    ensures r.methods[Top(st)].localCount == st.methods[Top(st)].localCount
    ensures r.methods[Top(st)].labelCount == st.methods[Top(st)].labelCount
  {
    var m := Top(st);
    st.(methods := st.methods[m := st.methods[m].(code := st.methods[m].code + code)])
  }

  lemma EmitEmit(st: GenState, a: seq<Instr>, b: seq<Instr>)
    requires GenValid(st)
    ensures Emit(Emit(st, a), b) == Emit(st, a + b)
  {
    var m := Top(st);
    assert st.methods[m].code + a + b == st.methods[m].code + (a + b);
  }

  lemma EmitNothing(st: GenState)
    requires GenValid(st)
    ensures Emit(st, []) == st
  {
    var m := Top(st);
    assert st.methods[m].code + [] == st.methods[m].code;
  }

  /** `DefineLabel` on the current method's generator: the next label number. */
  function DefineLabel(st: GenState): (r: (Label, GenState))
    requires GenValid(st)
    ensures GenValid(r.1) && r.0 == Label(st.methods[Top(st)].labelCount)
    ensures r.1.methodStack == st.methodStack && |r.1.methods| == |st.methods| && CurrentCode(r.1) == CurrentCode(st)
    ensures r.1.slots == st.slots && r.1.fieldNames == st.fieldNames
    ensures r.1.methods[Top(st)].labelCount == st.methods[Top(st)].labelCount + 1
    ensures forall k :: 0 <= k < |st.methods| && k != Top(st) ==> r.1.methods[k] == st.methods[k]
  {
    var m := Top(st);
    (Label(st.methods[m].labelCount), st.(methods := st.methods[m := st.methods[m].(labelCount := st.methods[m].labelCount + 1)]))
  }

  /** `DeclareLocal` on the current method: the next slot of that method. */
  function DeclareLocal(st: GenState): (r: (LocalRef, GenState))
    requires GenValid(st)
    ensures GenValid(r.1) && r.0 == LocalRef(Top(st), st.methods[Top(st)].localCount)
    ensures r.1.methodStack == st.methodStack && |r.1.methods| == |st.methods| && CurrentCode(r.1) == CurrentCode(st)
    ensures r.1.slots == st.slots && r.1.fieldNames == st.fieldNames
    ensures r.1.methods[Top(st)].labelCount == st.methods[Top(st)].labelCount
    ensures forall k :: 0 <= k < |st.methods| && k != Top(st) ==> r.1.methods[k] == st.methods[k]
  {
    var m := Top(st);
    (LocalRef(m, st.methods[m].localCount), st.(methods := st.methods[m := st.methods[m].(localCount := st.methods[m].localCount + 1)]))
  }

  /** `DefineField` on the program's type: the next field. */
  function DefineField(st: GenState, name: string): (r: (FieldRef, GenState))
    ensures r.0 == FieldRef(|st.fieldNames|) && r.1.fieldNames == st.fieldNames + [name]
    ensures r.1.methods == st.methods && r.1.methodStack == st.methodStack && r.1.slots == st.slots
  {
    (FieldRef(|st.fieldNames|), st.(fieldNames := st.fieldNames + [name]))
  }

  // ---------------------------------------------------------------- expressions

  /** `ApplyExprSign`: `neg` iff the sign is Minus. */
  function SignCode(e: Expression): seq<Instr>
  {
    if e.sign == MinusSign then [Neg] else []
  }

  /** The widening after an operand of a binary expression: `conv.r8` iff the expression is Real and the operand is not. */
  function ConvCode(e: Expression, operand: Expression): seq<Instr>
  {
    if SameAs(e.ty, TypeInfo(Real, false)) && !SameAs(e.ty, operand.ty) then [ConvR8] else []
  }

  /** The load of a variable, chosen by its symbol's kind. */
  function LoadCode(symbol: Option<Symbol>, sl: Slots): Result<seq<Instr>>
  {
    if symbol.None? then Failure("Unexpected symboltype")
    else
      var s := symbol.value;
      match s.kind
      case GlobalKind => if s in sl.fieldOf then Success([Ldsfld(sl.fieldOf[s])]) else Failure("null field")
      case VariableKind => if s in sl.localOf then Success([Ldloc(sl.localOf[s])]) else Failure("null local")
      case ParameterKind(_) =>
        if s in sl.parameterOf then Success([Ldarg(sl.parameterOf[s] - 1)]) else Failure("null parameter")
      case _ => Failure("Unexpected symboltype")
  }

  /** The store into a scalar variable, chosen by its symbol's kind. */
  function StoreCode(s: Symbol, sl: Slots): Result<seq<Instr>>
  {
    match s.kind
    case GlobalKind => if s in sl.fieldOf then Success([Stsfld(sl.fieldOf[s])]) else Failure("null field")
    case VariableKind => if s in sl.localOf then Success([Stloc(sl.localOf[s])]) else Failure("null local")
    case ParameterKind(_) =>
      if s in sl.parameterOf then Success([Starg(sl.parameterOf[s] - 1)]) else Failure("null parameter")
    case _ => Failure("Unexpected symboltype")
  }

  /** `CILType.GetElementType()` of a symbol's type: only arrays have one. */
  function ElementType(t: TypeInfo): Result<ExprType>
  {
    if t.isArray then Success(t.basicType) else Failure("null element type")
  }

  /** `EmitExprOperation`, throwing where the table has no entry. */
  function OperationCode(op: Operator, t: TypeInfo): Result<seq<Instr>>
  {
    match ExprOperation(op, t)
    case None => Failure("no operation")
    case Some(code) => Success(code)
  }

  /** The method a call refers to: its declaration's `CILMethod`. */
  function MethodTarget(declaration: Option<Symbol>, sl: Slots): Result<CallTarget>
  {
    if declaration.Some? && declaration.value in sl.methodOf then Success(sl.methodOf[declaration.value])
    else Failure("null method")
  }

  /** `Visit(CallExpr)` as written: the arguments and the call, with no sign applied. */
  function CallExprCodeAsWritten(e: Expression, argsCode: seq<Instr>, target: CallTarget): seq<Instr>
    requires e.CallExpr?
  {
    argsCode + [Call(target)]
  }

  /** `Visit(CallExpr)` corrected: the call's result is negated like every other numeric operand. */
  function CallExprCode(e: Expression, argsCode: seq<Instr>, target: CallTarget): seq<Instr>
    requires e.CallExpr?
  {
    argsCode + [Call(target)] + SignCode(e)
  }

  /** The instructions the visitor of `e` emits. */
  function ExprCode(e: Expression, sl: Slots): Result<seq<Instr>>
    decreases e
  {
    match e
    case VariableExpr(_, _, _, _, symbol) =>
      var load :- LoadCode(symbol, sl);
      Success(load + SignCode(e))
    case ArrayVariableExpr(_, _, _, _, subscript, symbol) =>
      var load :- LoadCode(symbol, sl);
      var sub :- ExprCode(subscript, sl);
      var elem :- ElementType(symbol.value.ty);
      Success(load + sub + [Ldelem(elem)] + SignCode(e))
    case BinaryExpr(_, _, _, op, left, right) =>
      var l :- ExprCode(left, sl);
      var r :- ExprCode(right, sl);
      var opCode :- OperationCode(op, left.ty);
      Success(l + ConvCode(e, left) + r + ConvCode(e, right) + opCode + SignCode(e))
    case UnaryExpr(_, _, _, op, operand) =>
      var c :- ExprCode(operand, sl);
      var opCode :- OperationCode(op, operand.ty);
      Success(c + opCode)
    case IntLiteralExpr(_, _, _, v) => Success([LdcI4(v)] + SignCode(e))
    case RealLiteralExpr(_, _, _, text) => Success([LdcR8(text)] + SignCode(e))
    case StringLiteralExpr(_, _, _, v) => Success([Ldstr(v)])
    case CallExpr(_, _, _, _, args, declaration) =>
      var a :- ArgsCode(args, sl);
      var target :- MethodTarget(declaration, sl);
      Success(CallExprCode(e, a, target))
    case MemberAccessExpr(_, _, _, accessed, memberId) =>
      var c :- ExprCode(accessed, sl);
      Success(if memberId == "size" then c + [Ldlen] + SignCode(e) else c)
  }

  /** The code of a list of arguments, left to right. */
  function ArgsCode(args: seq<Expression>, sl: Slots): Result<seq<Instr>>
    decreases args
  {
    if args == [] then Success([])
    else
      var front :- ArgsCode(args[..|args| - 1], sl);
      var last :- ExprCode(args[|args| - 1], sl);
      Success(front + last)
  }

  // ---------------------------------------------------------------- statements

  /** A statement's generation leaves the method stack as it found it and only adds methods. */
  predicate Preserves(st: GenState, r: GenState)
    requires GenValid(st)
  {
    GenValid(r) && r.methodStack == st.methodStack && |r.methods| >= |st.methods| &&
    CurrentCode(st) <= CurrentCode(r) &&
    r.methods[Top(st)].labelCount >= st.methods[Top(st)].labelCount &&
    forall k :: 0 <= k < |st.methods| && k != Top(st) ==> r.methods[k] == st.methods[k]
  }

  lemma PreservesTrans(a: GenState, b: GenState, c: GenState)
    requires GenValid(a) && Preserves(a, b) && Preserves(b, c)
    ensures Preserves(a, c)
  {
  }

  lemma EmitPreserves(st: GenState, code: seq<Instr>)
    requires GenValid(st)
    ensures Preserves(st, Emit(st, code))
  {
  }

  lemma DefineLabelPreserves(st: GenState)
    requires GenValid(st)
    ensures Preserves(st, DefineLabel(st).1)
  {
  }

  /** A call pushes a result, to be popped, iff its callee's type is not the non-array Void. */
  predicate ReturnsValue(t: TypeInfo)
  {
    !SameAs(t, TypeInfo(Void, false))
  }

  /** One variable of an array declaration: new storage holding a new array of the size in `tmp`. */
  function ArrayVarGen(s: Symbol, tmp: LocalRef, ty: TypeInfo, st: GenState): (r: GenState)
    requires GenValid(st)
    ensures Preserves(st, r) && |r.methods| == |st.methods|
    ensures s.kind.GlobalKind? || s.kind.VariableKind? ==>
      var c := CurrentCode(r);
      |c| == |CurrentCode(st)| + 3 && (c[|c| - 1].Stsfld? || c[|c| - 1].Stloc?) &&
      c == CurrentCode(st) + [Ldloc(tmp), Newarr(ty.basicType), c[|c| - 1]]
    ensures !(s.kind.GlobalKind? || s.kind.VariableKind?) ==> r == st
  {
    match s.kind
    case GlobalKind =>
      var f := DefineField(st, s.name);
      var st1 := f.1.(slots := f.1.slots.(fieldOf := f.1.slots.fieldOf[s := f.0]));
      Emit(st1, [Ldloc(tmp), Newarr(ty.basicType), Stsfld(f.0)])
    case VariableKind =>
      var l := DeclareLocal(st);
      var st1 := l.1.(slots := l.1.slots.(localOf := l.1.slots.localOf[s := l.0]));
      Emit(st1, [Ldloc(tmp), Newarr(ty.basicType), Stloc(l.0)])
    case _ => st
  }

  function ArrayVarsGen(syms: seq<Symbol>, tmp: LocalRef, ty: TypeInfo, st: GenState): (r: GenState)
    requires GenValid(st)
    ensures Preserves(st, r) && |r.methods| == |st.methods|
  {
    if syms == [] then st
    else ArrayVarGen(syms[|syms| - 1], tmp, ty, ArrayVarsGen(syms[..|syms| - 1], tmp, ty, st))
  }

  /** One variable of a scalar declaration: a field for a global, a local for a variable. */
  function ScalarVarGen(s: Symbol, st: GenState): (r: Result<GenState>)
    requires GenValid(st)
    ensures r.Success? ==> Preserves(st, r.value) && |r.value.methods| == |st.methods|
  {
    match s.kind
    case GlobalKind =>
      var f := DefineField(st, s.name);
      Success(f.1.(slots := f.1.slots.(fieldOf := f.1.slots.fieldOf[s := f.0])))
    case VariableKind =>
      var l := DeclareLocal(st);
      Success(l.1.(slots := l.1.slots.(localOf := l.1.slots.localOf[s := l.0])))
    case _ => Failure("Unexpected symboltype")
  }

  function ScalarVarsGen(syms: seq<Symbol>, st: GenState): (r: Result<GenState>)
    requires GenValid(st)
    ensures r.Success? ==> Preserves(st, r.value) && |r.value.methods| == |st.methods|
  {
    if syms == [] then Success(st)
    else
      var st1 :- ScalarVarsGen(syms[..|syms| - 1], st);
      ScalarVarGen(syms[|syms| - 1], st1)
  }

  function VarDeclGen(s: Statement, st: GenState): (r: Result<GenState>)
    requires s.VarDeclarationStmt? && GenValid(st)
    ensures r.Success? ==> Preserves(st, r.value)
  {
    var ty := TypeOfNode(s.varType);
    if s.varType.ArrayType? then
      var l := DeclareLocal(st);
      if s.varType.sizeExpr.None? then Failure("null size expression")
      else
        var size :- ExprCode(s.varType.sizeExpr.value, l.1.slots);
        Success(ArrayVarsGen(s.varSymbols, l.0, ty, Emit(l.1, size + [Stloc(l.0)])))
    else ScalarVarsGen(s.varSymbols, st)
  }

  function AssignGen(s: Statement, st: GenState): (r: Result<GenState>)
    requires s.AssignmentStmt? && GenValid(st)
    ensures r.Success? ==> Preserves(st, r.value)
  {
    if s.variableSymbol.None? then Failure("null variable symbol")
    else
      var sym := s.variableSymbol.value;
      if sym.ty.isArray then
        if !s.variable.ArrayVariableExpr? then Failure("null array variable")
        else
          var load :- LoadCode(s.variableSymbol, st.slots);
          var sub :- ExprCode(s.variable.subscript, st.slots);
          var value :- ExprCode(s.value, st.slots);
          Success(Emit(st, load + sub + value + [Stelem(sym.ty.basicType)]))
      else
        var value :- ExprCode(s.value, st.slots);
        var store :- StoreCode(sym, st.slots);
        Success(Emit(st, value + store))
  }

  /** `ReturnStmt`: the value, if any, then `ret`. */
  function ReturnGen(s: Statement, st: GenState): (r: Result<GenState>)
    requires s.ReturnStmt? && GenValid(st)
    ensures r.Success? ==> Preserves(st, r.value)
  {
    var value :- if s.returnExpression.Some? then ExprCode(s.returnExpression.value, st.slots) else Success([]);
    Success(Emit(st, value + [Ret]))
  }

  /** The boxed arguments of `writeln`, stored one by one into the argument array `arr`. */
  function PrintArgsCode(args: seq<Expression>, arr: LocalRef, sl: Slots): Result<seq<Instr>>
  {
    if args == [] then Success([])
    else
      var front :- PrintArgsCode(args[..|args| - 1], arr, sl);
      var last := args[|args| - 1];
      var c :- ExprCode(last, sl);
      Success(front + [Ldloc(arr), LdcI4(|args| - 1)] + c + [Box(last.ty), StelemRef])
  }

  /** `EmitPrintCall` with arguments: an object array of them, joined by a space and written as one line. */
  function PrintCode(args: seq<Expression>, arr: LocalRef, sl: Slots): Result<seq<Instr>>
  {
    var items :- PrintArgsCode(args, arr, sl);
    Success([LdcI4(|args|), NewarrObject, Stloc(arr)] + items +
      [Ldstr(" "), Ldloc(arr), Call(Library(StringJoin)), Call(Library(ConsoleWriteLineString))])
  }

  /** `EmitPrintCall`: a temporary array for a non-empty argument list, the plain `WriteLine()` otherwise. */
  function PrintGen(s: Statement, st: GenState): (r: Result<GenState>)
    requires s.CallStmt? && GenValid(st)
    ensures r.Success? ==> Preserves(st, r.value)
  {
    if |s.arguments| > 0 then
      var l := DeclareLocal(st);
      var code :- PrintCode(s.arguments, l.0, l.1.slots);
      Success(Emit(l.1, code))
    else Success(Emit(st, [Call(Library(ConsoleWriteLine))]))
  }

  /** The conversion of the line read for a variable of type `t`; strings and arrays get none. */
  function ParseCode(t: TypeInfo): seq<Instr>
  {
    if SameAs(t, TypeInfo(Int, false)) then [Call(Library(IntParse))]
    else if SameAs(t, TypeInfo(Real, false)) then [Call(Library(DoubleParse))]
    else if SameAs(t, TypeInfo(Bool, false)) then [Call(Library(BoolParse))]
    else []
  }

  /** The store of a value read: only into a global or a local; any other symbol gets no store. */
  function ReadStoreCode(symbol: Option<Symbol>, sl: Slots): Result<seq<Instr>>
  {
    if symbol.None? then Success([])
    else
      var s := symbol.value;
      match s.kind
      case GlobalKind => if s in sl.fieldOf then Success([Stsfld(sl.fieldOf[s])]) else Failure("null field")
      case VariableKind => if s in sl.localOf then Success([Stloc(sl.localOf[s])]) else Failure("null local")
      case _ => Success([])
  }

  function ReadArgsCode(args: seq<Expression>, sl: Slots): Result<seq<Instr>>
  {
    if args == [] then Success([])
    else
      var front :- ReadArgsCode(args[..|args| - 1], sl);
      var a := args[|args| - 1];
      if !a.VariableExpr? then Failure("invalid cast to VariableExpr")
      else
        var store :- ReadStoreCode(a.symbol, sl);
        Success(front + [Call(Library(ConsoleReadLine))] + ParseCode(a.ty) + store)
  }

  /** `EmitReadCall`. */
  function ReadGen(s: Statement, st: GenState): (r: Result<GenState>)
    requires s.CallStmt? && GenValid(st)
    ensures r.Success? ==> Preserves(st, r.value)
  {
    var code :- ReadArgsCode(s.arguments, st.slots);
    Success(Emit(st, code))
  }

  /** The predefined procedures are the scope-0 symbols. */
  predicate IsPredefined(s: Symbol, name: string)
  {
    s.scope == 0 && s.name == name
  }

  function CallStmtGen(s: Statement, st: GenState): (r: Result<GenState>)
    requires s.CallStmt? && GenValid(st)
    ensures r.Success? ==> Preserves(st, r.value)
  {
    if s.declaration.None? then Failure("null declaration symbol")
    else
      var callee := s.declaration.value;
      if IsPredefined(callee, "writeln") then PrintGen(s, st)
      else if IsPredefined(callee, "read") then ReadGen(s, st)
      else
        var code :- UserCallCode(s, st.slots);
        Success(Emit(st, code))
  }

  /** A call of a declared procedure or function: the arguments, the call, and `pop` iff the callee is not Void. */
  function UserCallCode(s: Statement, sl: Slots): Result<seq<Instr>>
    requires s.CallStmt? && s.declaration.Some?
  {
    var a :- ArgsCode(s.arguments, sl);
    var target :- MethodTarget(s.declaration, sl);
    Success(a + [Call(target)] + (if ReturnsValue(s.declaration.value.ty) then [Pop] else []))
  }

  /** `DefineParameter(index, ...)` as written: `index` stays 1, so every parameter gets position 1. */
  function DefineParametersAsWritten(ps: seq<Symbol>, positions: map<Symbol, int>): map<Symbol, int>
  {
    if ps == [] then positions
    else DefineParametersAsWritten(ps[..|ps| - 1], positions)[ps[|ps| - 1] := 1]
  }

  /** `DefineParameter` with the index advanced: the k-th parameter (from 0) gets position k + 1. */
  function DefineParameters(ps: seq<Symbol>, positions: map<Symbol, int>): map<Symbol, int>
  {
    if ps == [] then positions
    else DefineParameters(ps[..|ps| - 1], positions)[ps[|ps| - 1] := |ps|]
  }

  /** A procedure or function: a new method, its parameters, its body's statements, and `ret` after a procedure's body. */
  function CallableGen(s: Statement, st: GenState): (r: Result<GenState>)
    requires s.IsCallableDeclaration() && GenValid(st)
    ensures r.Success? ==> Preserves(st, r.value)
    decreases s, 1
  {
    if s.declaration.None? || !s.declaration.value.IsCallable() then Failure("null declaration symbol")
    else if !s.block.BlockStmt? then Failure("null procedure block")
    else
      var sym := s.declaration.value;
      var m := |st.methods|;
      var target := UserMethod(m, |sym.Parameters()|, ReturnsValue(sym.ty));
      var st1 := GenState(st.methods + [MethodBody(s.identifier, [], 0, 0)], st.methodStack + [m], st.fieldNames,
        st.slots.(methodOf := st.slots.methodOf[sym := target],
                  parameterOf := DefineParameters(sym.Parameters(), st.slots.parameterOf)));
      var st2 :- StmtsGen(s.block.statements, st1);
      var st3 := if s.ProcedureDeclarationStmt? then Emit(st2, [Ret]) else st2;
      Success(st3.(methodStack := st.methodStack))
  }

  /** `while`: br C; B: body; C: test; brtrue B. */
  function WhileGen(s: Statement, st: GenState): (r: Result<GenState>)
    requires s.WhileStmt? && GenValid(st)
    ensures r.Success? ==> Preserves(st, r.value)
    decreases s, 1
  {
    var b := DefineLabel(st);
    var c := DefineLabel(b.1);
    var st1 := Emit(c.1, [Br(c.0), MarkLabel(b.0)]);
    var st2 :- StmtGen(s.body, st1);
    var test :- ExprCode(s.test, st2.slots);
    Success(Emit(st2, [MarkLabel(c.0)] + test + [Brtrue(b.0)]))
  }

  /** `if`: test; brfalse F; then; br D; F: else or nop; D: */
  function IfGen(s: Statement, st: GenState): (r: Result<GenState>)
    requires s.IfStmt? && GenValid(st)
    ensures r.Success? ==> Preserves(st, r.value)
    decreases s, 1
  {
    var f := DefineLabel(st);
    var d := DefineLabel(f.1);
    var test :- ExprCode(s.test, d.1.slots);
    var st1 := Emit(d.1, test + [Brfalse(f.0)]);
    var r :- IfBranches(s, st1, f.0, d.0);
    assert Preserves(st, st1) by {
      DefineLabelPreserves(st);
      DefineLabelPreserves(f.1);
      PreservesTrans(st, f.1, d.1);
      EmitPreserves(d.1, test + [Brfalse(f.0)]);
      PreservesTrans(st, d.1, st1);
    }
    assert Preserves(st, r) by { PreservesTrans(st, st1, r); }
    Success(r)
  }

  /** The part of `if` after the test's branch: then; br D; F: else or nop; D: */
  function IfBranches(s: Statement, st1: GenState, f: Label, d: Label): (r: Result<GenState>)
    requires s.IfStmt? && GenValid(st1)
    ensures r.Success? ==> Preserves(st1, r.value)
    decreases s, 0
  {
    var st2 :- StmtGen(s.trueStatement, st1);
    var st3 := Emit(st2, [Br(d), MarkLabel(f)]);
    var st4 :- if s.falseStatement.Some? then StmtGen(s.falseStatement.value, st3) else Success(Emit(st3, [Nop]));
    assert Preserves(st1, st4) by {
      EmitPreserves(st2, [Br(d), MarkLabel(f)]);
      PreservesTrans(st1, st2, st3);
      if s.falseStatement.None? { EmitPreserves(st3, [Nop]); }
      PreservesTrans(st1, st3, st4);
    }
    assert Preserves(st1, Emit(st4, [MarkLabel(d)])) by {
      EmitPreserves(st4, [MarkLabel(d)]);
      PreservesTrans(st1, st4, Emit(st4, [MarkLabel(d)]));
    }
    Success(Emit(st4, [MarkLabel(d)]))
  }

  /** The visitor of a statement; an assertion has none. */
  function StmtGen(s: Statement, st: GenState): (r: Result<GenState>)
    requires GenValid(st)
    ensures r.Success? ==> Preserves(st, r.value)
    decreases s, 2
  {
    match s
    case BlockStmt(_, ss) =>
      var st1 :- StmtsGen(ss, Emit(st, [BeginScope]));
      Success(Emit(st1, [EndScope]))
    case VarDeclarationStmt(_, _, _, _) => VarDeclGen(s, st)
    case ProcedureDeclarationStmt(_, _, _, _, _) => CallableGen(s, st)
    case FunctionDeclarationStmt(_, _, _, _, _, _) => CallableGen(s, st)
    case AssignmentStmt(_, _, _, _) => AssignGen(s, st)
    case WhileStmt(_, _, _) => WhileGen(s, st)
    case IfStmt(_, _, _, _) => IfGen(s, st)
    case CallStmt(_, _, _, _) => CallStmtGen(s, st)
    case ReturnStmt(_, _) => ReturnGen(s, st)
    case AssertStmt(_, _) => Failure("no visitor for AssertStmt")
  }

  /** A statement list, first to last. */
  function StmtsGen(ss: seq<Statement>, st: GenState): (r: Result<GenState>)
    requires GenValid(st)
    ensures r.Success? ==> Preserves(st, r.value)
    decreases ss
  {
    if ss == [] then Success(st)
    else
      var st1 :- StmtsGen(ss[..|ss| - 1], st);
      StmtGen(ss[|ss| - 1], st1)
  }

  // ---------------------------------------------------------------- stack discipline of expressions

  /** Code that, on any stack, leaves exactly one more value and never reaches below its start. */
  predicate PushesOne(code: seq<Instr>)
  {
    Delta(code) == 1 && Runs(code, 0)
  }

  /** Code that replaces the top value by another. */
  predicate MapsTop(code: seq<Instr>)
  {
    Delta(code) == 0 && Runs(code, 1)
  }

  /** Straight-line code with net effect `delta` that needs `need` values on the stack to start. */
  predicate Fits(code: seq<Instr>, delta: int, need: int)
  {
    Delta(code) == delta && Runs(code, need)
  }

  lemma FitsAppend(a: seq<Instr>, da: int, na: int, b: seq<Instr>, db: int, nb: int)
    requires Fits(a, da, na) && Fits(b, db, nb) && nb <= na + da
    ensures Fits(a + b, da + db, na)
  {
    DeltaAppend(a, b);
    RunsDeeper(b, nb, na + da);
    RunsAppend(a, b, na);
  }

  lemma FitsSingle(i: Instr)
    ensures Fits([i], Pushes(i) - Pops(i), Pops(i))
  {
    Single(i, Pops(i));
  }

  /** A call to `t` with `n` arguments takes them all and leaves one result. */
  predicate CallFits(t: CallTarget, n: nat)
  {
    Pops(Call(t)) == n && Pushes(Call(t)) == 1
  }

  /**
   * What analysis establishes about an expression before it is lowered:
   * a unary operator is `not`, a binary operator is not, and a called
   * function takes as many arguments as are passed and returns a value.
   */
  predicate Lowerable(e: Expression, sl: Slots)
    decreases e
  {
    match e
    case ArrayVariableExpr(_, _, _, _, subscript, _) => Lowerable(subscript, sl)
    case BinaryExpr(_, _, _, op, left, right) => op != Not && Lowerable(left, sl) && Lowerable(right, sl)
    case UnaryExpr(_, _, _, op, operand) => op == Not && Lowerable(operand, sl)
    case CallExpr(_, _, _, _, args, declaration) =>
      (declaration.Some? && declaration.value in sl.methodOf ==> CallFits(sl.methodOf[declaration.value], |args|)) &&
      AllLowerable(args, sl)
    case MemberAccessExpr(_, _, _, accessed, _) => Lowerable(accessed, sl)
    case _ => true
  }

  predicate AllLowerable(args: seq<Expression>, sl: Slots)
    decreases args
  {
    args == [] || (AllLowerable(args[..|args| - 1], sl) && Lowerable(args[|args| - 1], sl))
  }

  lemma PushThenMap(p: seq<Instr>, t: seq<Instr>)
    requires PushesOne(p) && MapsTop(t)
    ensures PushesOne(p + t)
  {
    DeltaAppend(p, t);
    RunsAppend(p, t, 0);
  }

  lemma PushPushCombine(p: seq<Instr>, q: seq<Instr>, op: seq<Instr>)
    requires PushesOne(p) && PushesOne(q) && Delta(op) == -1 && Runs(op, 2)
    ensures PushesOne(p + q + op)
  {
    DeltaAppend(p, q);
    RunsDeeper(q, 0, 1);
    RunsAppend(p, q, 0);
    DeltaAppend(p + q, op);
    RunsAppend(p + q, op, 0);
  }

  lemma PushesOneSingle(i: Instr)
    requires Pops(i) == 0 && Pushes(i) == 1
    ensures PushesOne([i])
  {
    Single(i, 0);
  }

  lemma MapsTopSingle(i: Instr)
    requires Pops(i) == 1 && Pushes(i) == 1
    ensures MapsTop([i])
  {
    Single(i, 1);
  }

  lemma SignMapsTop(e: Expression)
    ensures MapsTop(SignCode(e))
  {
    if e.sign == MinusSign { MapsTopSingle(Neg); }
  }

  lemma ConvMapsTop(e: Expression, operand: Expression)
    ensures MapsTop(ConvCode(e, operand))
  {
    if ConvCode(e, operand) != [] { MapsTopSingle(ConvR8); }
  }

  lemma LoadPushesOne(symbol: Option<Symbol>, sl: Slots)
    requires LoadCode(symbol, sl).Success?
    ensures PushesOne(LoadCode(symbol, sl).value)
  {
    PushesOneSingle(LoadCode(symbol, sl).value[0]);
  }

  /** Every expression the generator lowers leaves exactly its one value on the stack. */
  lemma {:induction false} ExprCodePushesOne(e: Expression, sl: Slots)
    requires ExprCode(e, sl).Success? && Lowerable(e, sl)
    ensures PushesOne(ExprCode(e, sl).value)
    decreases e
  {
    match e
    case VariableExpr(_, _, _, _, symbol) =>
      LoadPushesOne(symbol, sl);
      SignMapsTop(e);
      PushThenMap(LoadCode(symbol, sl).value, SignCode(e));
    case ArrayVariableExpr(_, _, _, _, subscript, symbol) =>
      ExprCodePushesOne(subscript, sl);
      ArrayElementPushesOne(e, sl);
    case BinaryExpr(_, _, _, op, left, right) =>
      ExprCodePushesOne(left, sl);
      ExprCodePushesOne(right, sl);
      BinaryPushesOne(e, sl);
    case UnaryExpr(_, _, _, op, operand) =>
      ExprCodePushesOne(operand, sl);
      OperationStackEffect(op, operand.ty);
      PushThenMap(ExprCode(operand, sl).value, OperationCode(op, operand.ty).value);
    case IntLiteralExpr(_, _, _, v) =>
      PushesOneSingle(LdcI4(v));
      SignMapsTop(e);
      PushThenMap([LdcI4(v)], SignCode(e));
    case RealLiteralExpr(_, _, _, text) =>
      PushesOneSingle(LdcR8(text));
      SignMapsTop(e);
      PushThenMap([LdcR8(text)], SignCode(e));
    case StringLiteralExpr(_, _, _, v) =>
      PushesOneSingle(Ldstr(v));
    case CallExpr(_, _, _, _, args, declaration) =>
      ArgsCodePushesEach(args, sl);
      CallPushesOne(e, sl);
    case MemberAccessExpr(_, _, _, accessed, memberId) =>
      ExprCodePushesOne(accessed, sl);
      if memberId == "size" {
        var c := ExprCode(accessed, sl).value;
        MapsTopSingle(Ldlen);
        SignMapsTop(e);
        PushThenMap(c, [Ldlen]);
        PushThenMap(c + [Ldlen], SignCode(e));
      }
  }

  lemma ArrayElementPushesOne(e: Expression, sl: Slots)
    requires e.ArrayVariableExpr? && ExprCode(e, sl).Success?
    requires PushesOne(ExprCode(e.subscript, sl).value)
    ensures PushesOne(ExprCode(e, sl).value)
  {
    var load := LoadCode(e.symbol, sl).value;
    var sub := ExprCode(e.subscript, sl).value;
    var elem := ElementType(e.symbol.value.ty).value;
    LoadPushesOne(e.symbol, sl);
    Single(Ldelem(elem), 2);
    PushPushCombine(load, sub, [Ldelem(elem)]);
    SignMapsTop(e);
    PushThenMap(load + sub + [Ldelem(elem)], SignCode(e));
  }

  lemma BinaryPushesOne(e: Expression, sl: Slots)
    requires e.BinaryExpr? && e.op != Not && ExprCode(e, sl).Success?
    requires PushesOne(ExprCode(e.left, sl).value) && PushesOne(ExprCode(e.right, sl).value)
    ensures PushesOne(ExprCode(e, sl).value)
  {
    var l := ExprCode(e.left, sl).value;
    var r := ExprCode(e.right, sl).value;
    var opCode := OperationCode(e.op, e.left.ty).value;
    var core := l + ConvCode(e, e.left) + r + ConvCode(e, e.right) + opCode;
    assert ExprCode(e, sl).value == core + SignCode(e);
    OperandsPushOne(e, l, r, opCode);
    SignMapsTop(e);
    PushThenMap(core, SignCode(e));
  }

  /** Two operands, each converted, and the operator leave one value. */
  lemma OperandsPushOne(e: Expression, l: seq<Instr>, r: seq<Instr>, opCode: seq<Instr>)
    requires e.BinaryExpr? && e.op != Not && OperationCode(e.op, e.left.ty) == Success(opCode)
    requires PushesOne(l) && PushesOne(r)
    ensures PushesOne(l + ConvCode(e, e.left) + r + ConvCode(e, e.right) + opCode)
  {
    var cl := ConvCode(e, e.left);
    var cr := ConvCode(e, e.right);
    ConvMapsTop(e, e.left);
    ConvMapsTop(e, e.right);
    PushThenMap(l, cl);
    PushThenMap(r, cr);
    OperationStackEffect(e.op, e.left.ty);
    PushPushCombine(l + cl, r + cr, opCode);
    assert l + cl + r + cr + opCode == (l + cl) + (r + cr) + opCode;
  }

  lemma CallPushesOne(e: Expression, sl: Slots)
    requires e.CallExpr? && ExprCode(e, sl).Success? && Lowerable(e, sl)
    requires Delta(ArgsCode(e.arguments, sl).value) == |e.arguments| && Runs(ArgsCode(e.arguments, sl).value, 0)
    ensures PushesOne(ExprCode(e, sl).value)
  {
    var a := ArgsCode(e.arguments, sl).value;
    var target := MethodTarget(e.declaration, sl).value;
    Single(Call(target), |e.arguments|);
    DeltaAppend(a, [Call(target)]);
    RunsAppend(a, [Call(target)], 0);
    SignMapsTop(e);
    PushThenMap(a + [Call(target)], SignCode(e));
  }

  /** The arguments of a call leave one value each, in order. */
  lemma {:induction false} ArgsCodePushesEach(args: seq<Expression>, sl: Slots)
    requires ArgsCode(args, sl).Success? && AllLowerable(args, sl)
    ensures Delta(ArgsCode(args, sl).value) == |args| && Runs(ArgsCode(args, sl).value, 0)
    decreases args
  {
    if args != [] {
      var front := ArgsCode(args[..|args| - 1], sl).value;
      var last := ExprCode(args[|args| - 1], sl).value;
      ArgsCodePushesEach(args[..|args| - 1], sl);
      ExprCodePushesOne(args[|args| - 1], sl);
      DeltaAppend(front, last);
      RunsDeeper(last, 0, |args| - 1);
      RunsAppend(front, last, 0);
    }
  }

  // ---------------------------------------------------------------- sign, widening and storage

  /** The expressions whose visitor ends with `ApplyExprSign`. */
  predicate SignApplies(e: Expression)
  {
    !(e.StringLiteralExpr? || e.UnaryExpr? || (e.MemberAccessExpr? && e.memberId != "size"))
  }

  /**
   * A Minus sign adds exactly one trailing `neg` to the code of the same
   * expression with a Plus sign, where the visitor applies the sign; where
   * it does not (string literals, unary expressions, members other than
   * `size`), the sign changes nothing.
   */
  lemma SignNegatesValue(e: Expression, sl: Slots)
    ensures var minus := ExprCode(e.(sign := MinusSign), sl);
            var plus := ExprCode(e.(sign := PlusSign), sl);
            minus.Success? == plus.Success? &&
            (minus.Success? ==> if SignApplies(e) then minus.value == plus.value + [Neg] else minus.value == plus.value)
  {
  }

  /** `neg` turns the value on top of the stack into its opposite. */
  lemma NegNegates(stack: seq<int>, v: int)
    ensures Exec([Neg], stack + [v]) == Some(stack + [-v])
  {
    ExecSingle(Neg, stack + [v]);
    assert (stack + [v])[..|stack + [v]| - 1] == stack;
  }

  /** The widening after an operand is `conv.r8` or nothing, and `conv.r8` exactly when a Real expression has an operand of another type. */
  lemma WideningExactlyWhenTypesDiffer(e: Expression, operand: Expression)
    ensures ConvCode(e, operand) == [ConvR8] || ConvCode(e, operand) == []
    ensures ConvCode(e, operand) == [ConvR8] <==>
      e.ty == TypeInfo(Real, false) && operand.ty != TypeInfo(Real, false)
  {
  }

  /** In an Int/Real binary expression of type Real, exactly the Int operand is widened. */
  lemma MixedOperandsWidenTheInt(e: Expression)
    requires e.BinaryExpr? && e.ty == TypeInfo(Real, false)
    requires (e.left.ty == TypeInfo(Int, false) && e.right.ty == TypeInfo(Real, false)) ||
             (e.left.ty == TypeInfo(Real, false) && e.right.ty == TypeInfo(Int, false))
    ensures e.left.ty == TypeInfo(Int, false) <==> ConvCode(e, e.left) == [ConvR8]
    ensures e.right.ty == TypeInfo(Int, false) <==> ConvCode(e, e.right) == [ConvR8]
    ensures ConvCode(e, e.left) + ConvCode(e, e.right) == [ConvR8]
  {
  }

  /**
   * Loads and stores choose the same storage by the symbol's kind: a field
   * for a global, a local for a variable, argument `Position - 1` for a
   * parameter; any other kind, and a symbol without storage, fails.
   */
  lemma LoadStoreByKind(s: Symbol, sl: Slots)
    ensures LoadCode(Some(s), sl).Success? <==> StoreCode(s, sl).Success?
    ensures LoadCode(Some(s), sl).Success? <==>
      (s.kind.GlobalKind? && s in sl.fieldOf) || (s.kind.VariableKind? && s in sl.localOf) ||
      (s.kind.ParameterKind? && s in sl.parameterOf)
    ensures s.kind.GlobalKind? && s in sl.fieldOf ==>
      LoadCode(Some(s), sl).value == [Ldsfld(sl.fieldOf[s])] && StoreCode(s, sl).value == [Stsfld(sl.fieldOf[s])]
    ensures s.kind.VariableKind? && s in sl.localOf ==>
      LoadCode(Some(s), sl).value == [Ldloc(sl.localOf[s])] && StoreCode(s, sl).value == [Stloc(sl.localOf[s])]
    ensures s.kind.ParameterKind? && s in sl.parameterOf ==>
      LoadCode(Some(s), sl).value == [Ldarg(sl.parameterOf[s] - 1)] &&
      StoreCode(s, sl).value == [Starg(sl.parameterOf[s] - 1)]
  {
  }

  // ---------------------------------------------------------------- parameter positions

  /** The corrected numbering: the k-th of distinct parameters is at position k + 1; other keys keep theirs. */
  lemma {:induction false} ParameterPositions(ps: seq<Symbol>, positions: map<Symbol, int>)
    requires forall i, j :: 0 <= i < j < |ps| ==> ps[i] != ps[j]
    ensures forall k :: 0 <= k < |ps| ==>
      ps[k] in DefineParameters(ps, positions) && DefineParameters(ps, positions)[ps[k]] == k + 1
    ensures forall s :: s in positions && s !in ps ==>
      s in DefineParameters(ps, positions) && DefineParameters(ps, positions)[s] == positions[s]
  {
    if ps != [] {
      var front := ps[..|ps| - 1];
      var last := ps[|ps| - 1];
      ParameterPositions(front, positions);
      var m := DefineParameters(front, positions);
      assert DefineParameters(ps, positions) == m[last := |ps|];
      forall k | 0 <= k < |ps|
        ensures ps[k] in m[last := |ps|] && m[last := |ps|][ps[k]] == k + 1
      {
        if k < |ps| - 1 {
          assert front[k] == ps[k];
          assert ps[k] != last;
        }
      }
      forall s | s in positions && s !in ps
        ensures s in m[last := |ps|] && m[last := |ps|][s] == positions[s]
      {
      }
    }
  }

  /** As written, every parameter is defined at position 1. */
  lemma {:induction false} ParameterPositionsAsWritten(ps: seq<Symbol>, positions: map<Symbol, int>)
    ensures forall k :: 0 <= k < |ps| ==>
      ps[k] in DefineParametersAsWritten(ps, positions) && DefineParametersAsWritten(ps, positions)[ps[k]] == 1
  {
    if ps != [] {
      var front := ps[..|ps| - 1];
      ParameterPositionsAsWritten(front, positions);
      forall k | 0 <= k < |ps| - 1
        ensures ps[k] in DefineParametersAsWritten(ps, positions) && DefineParametersAsWritten(ps, positions)[ps[k]] == 1
      {
        assert front[k] == ps[k];
      }
    }
  }

  /** Corrected: a load of the k-th parameter reads argument k. */
  lemma ParameterLoadReadsItsArgument(ps: seq<Symbol>, sl: Slots, k: int)
    requires forall i, j :: 0 <= i < j < |ps| ==> ps[i] != ps[j]
    requires 0 <= k < |ps| && ps[k].kind.ParameterKind?
    ensures LoadCode(Some(ps[k]), sl.(parameterOf := DefineParameters(ps, sl.parameterOf))) == Success([Ldarg(k)])
  {
    ParameterPositions(ps, sl.parameterOf);
  }

  /** As written, two different parameters both load argument 0. */
  lemma ParameterLoadAsWrittenCollides(a: Symbol, b: Symbol, sl: Slots)
    requires a != b && a.kind.ParameterKind? && b.kind.ParameterKind?
    ensures var sl1 := sl.(parameterOf := DefineParametersAsWritten([a, b], sl.parameterOf));
      LoadCode(Some(a), sl1) == Success([Ldarg(0)]) && LoadCode(Some(b), sl1) == Success([Ldarg(0)])
  {
    ParameterPositionsAsWritten([a, b], sl.parameterOf);
    assert [a, b][0] == a && [a, b][1] == b;
  }

  // ---------------------------------------------------------------- calls and their sign

  /** As written, a call's sign is dropped: `-f(x)` and `f(x)` give the same code, ending in the call. */
  lemma CallSignAsWrittenIgnored(pos: Position, ty: TypeInfo, callee: string, args: seq<Expression>,
                                 declaration: Option<Symbol>, argsCode: seq<Instr>, target: CallTarget)
    ensures var minus := CallExpr(pos, ty, MinusSign, callee, args, declaration);
            var plus := CallExpr(pos, ty, PlusSign, callee, args, declaration);
            var c := CallExprCodeAsWritten(minus, argsCode, target);
            c == CallExprCodeAsWritten(plus, argsCode, target) && c[|c| - 1] == Call(target)
  {
  }

  /** Corrected: a negated call ends with `neg` after the call, so its result is negated. */
  lemma CallSignApplied(pos: Position, ty: TypeInfo, callee: string, args: seq<Expression>,
                        declaration: Option<Symbol>, argsCode: seq<Instr>, target: CallTarget)
    ensures var minus := CallExpr(pos, ty, MinusSign, callee, args, declaration);
            var plus := CallExpr(pos, ty, PlusSign, callee, args, declaration);
            CallExprCode(minus, argsCode, target) == CallExprCode(plus, argsCode, target) + [Neg] &&
            CallExprCode(plus, argsCode, target) == argsCode + [Call(target)]
  {
  }

  // ---------------------------------------------------------------- statement lowering

  /**
   * `while` lowers to: br C; B: body; C: test; brtrue B, with B and C the
   * next two labels of the method, so the test runs before the body does.
   */
  lemma WhileLowering(s: Statement, st: GenState) returns (bodyStart: GenState, body: seq<Instr>, testSlots: Slots)
    requires s.WhileStmt? && GenValid(st) && WhileGen(s, st).Success?
    ensures GenValid(bodyStart) && StmtGen(s.body, bodyStart).Success?
    ensures CurrentCode(StmtGen(s.body, bodyStart).value) == CurrentCode(bodyStart) + body
    ensures ExprCode(s.test, testSlots).Success?
    ensures var n := st.methods[Top(st)].labelCount;
      CurrentCode(WhileGen(s, st).value) ==
        CurrentCode(st) + [Br(Label(n + 1)), MarkLabel(Label(n))] + body +
        [MarkLabel(Label(n + 1))] + ExprCode(s.test, testSlots).value + [Brtrue(Label(n))]
  {
    var n := st.methods[Top(st)].labelCount;
    var b := DefineLabel(st);
    var c := DefineLabel(b.1);
    assert b.0 == Label(n) && c.0 == Label(n + 1);
    bodyStart := Emit(c.1, [Br(c.0), MarkLabel(b.0)]);
    var st2 := StmtGen(s.body, bodyStart).value;
    body := CurrentCode(st2)[|CurrentCode(bodyStart)|..];
    CodeExtends(CurrentCode(bodyStart), CurrentCode(st2));
    testSlots := st2.slots;
    var test := ExprCode(s.test, testSlots).value;
    assert WhileGen(s, st).value == Emit(st2, [MarkLabel(c.0)] + test + [Brtrue(b.0)]);
    TailInOrder(CurrentCode(st) + [Br(c.0), MarkLabel(b.0)] + body, MarkLabel(c.0), test, Brtrue(b.0));
  }

  /** Code that extends `a` is `a` and what was appended. */
  lemma CodeExtends(a: seq<Instr>, b: seq<Instr>)
    requires a <= b
    ensures b == a + b[|a|..]
  {
  }

  lemma TailInOrder(before: seq<Instr>, mark: Instr, test: seq<Instr>, jump: Instr)
    ensures before + ([mark] + test + [jump]) == before + [mark] + test + [jump]
  {
  }

  /** The branches of `if`: then; br D; F: else or nop; D: */
  lemma IfBranchesLowering(s: Statement, st1: GenState, f: Label, d: Label)
    returns (thenCode: seq<Instr>, elseStart: GenState, elseCode: seq<Instr>)
    requires s.IfStmt? && GenValid(st1) && IfBranches(s, st1, f, d).Success?
    ensures StmtGen(s.trueStatement, st1).Success?
    ensures CurrentCode(StmtGen(s.trueStatement, st1).value) == CurrentCode(st1) + thenCode
    ensures s.falseStatement.None? ==> elseCode == [Nop]
    ensures s.falseStatement.Some? ==>
      GenValid(elseStart) && StmtGen(s.falseStatement.value, elseStart).Success? &&
      CurrentCode(StmtGen(s.falseStatement.value, elseStart).value) == CurrentCode(elseStart) + elseCode
    ensures CurrentCode(IfBranches(s, st1, f, d).value) ==
      CurrentCode(st1) + thenCode + [Br(d), MarkLabel(f)] + elseCode + [MarkLabel(d)]
  {
    var st2 := StmtGen(s.trueStatement, st1).value;
    thenCode := CurrentCode(st2)[|CurrentCode(st1)|..];
    elseStart := Emit(st2, [Br(d), MarkLabel(f)]);
    if s.falseStatement.Some? {
      var st4 := StmtGen(s.falseStatement.value, elseStart).value;
      elseCode := CurrentCode(st4)[|CurrentCode(elseStart)|..];
    } else {
      elseCode := [Nop];
    }
  }

  /**
   * `if` lowers to: test; brfalse F; then; br D; F: else; D:, with F and D
   * the next two labels of the method and `nop` as the missing else branch.
   */
  lemma IfLowering(s: Statement, st: GenState)
    returns (thenStart: GenState, thenCode: seq<Instr>, elseStart: GenState, elseCode: seq<Instr>)
    requires s.IfStmt? && GenValid(st) && IfGen(s, st).Success?
    ensures ExprCode(s.test, st.slots).Success?
    ensures GenValid(thenStart) && StmtGen(s.trueStatement, thenStart).Success?
    ensures CurrentCode(StmtGen(s.trueStatement, thenStart).value) == CurrentCode(thenStart) + thenCode
    ensures s.falseStatement.None? ==> elseCode == [Nop]
    ensures s.falseStatement.Some? ==>
      GenValid(elseStart) && StmtGen(s.falseStatement.value, elseStart).Success? &&
      CurrentCode(StmtGen(s.falseStatement.value, elseStart).value) == CurrentCode(elseStart) + elseCode
    ensures var n := st.methods[Top(st)].labelCount;
      CurrentCode(IfGen(s, st).value) ==
        CurrentCode(st) + ExprCode(s.test, st.slots).value + [Brfalse(Label(n))] + thenCode +
        [Br(Label(n + 1)), MarkLabel(Label(n))] + elseCode + [MarkLabel(Label(n + 1))]
  {
    var f := DefineLabel(st);
    var d := DefineLabel(f.1);
    var test := ExprCode(s.test, d.1.slots).value;
    thenStart := Emit(d.1, test + [Brfalse(f.0)]);
    thenCode, elseStart, elseCode := IfBranchesLowering(s, thenStart, f.0, d.0);
    var n := st.methods[Top(st)].labelCount;
    assert f.0 == Label(n) && d.0 == Label(n + 1);
    assert d.1.slots == st.slots;
    assert IfGen(s, st) == IfBranches(s, thenStart, f.0, d.0);
    assert CurrentCode(thenStart) == CurrentCode(st) + test + [Brfalse(f.0)];
  }

  /** The code of one boxed `writeln` argument stored into the array: it leaves the stack as it found it. */
  lemma PrintItemBalanced(arr: LocalRef, k: int, c: seq<Instr>, t: TypeInfo)
    requires PushesOne(c)
    ensures Fits([Ldloc(arr), LdcI4(k)] + c + [Box(t), StelemRef], 0, 0)
  {
    FitsSingle(Ldloc(arr));
    FitsSingle(LdcI4(k));
    FitsAppend([Ldloc(arr)], 1, 0, [LdcI4(k)], 1, 0);
    assert [Ldloc(arr)] + [LdcI4(k)] == [Ldloc(arr), LdcI4(k)];
    FitsAppend([Ldloc(arr), LdcI4(k)], 2, 0, c, 1, 0);
    FitsSingle(Box(t));
    FitsSingle(StelemRef);
    FitsAppend([Ldloc(arr), LdcI4(k)] + c, 3, 0, [Box(t)], 0, 1);
    FitsAppend([Ldloc(arr), LdcI4(k)] + c + [Box(t)], 3, 0, [StelemRef], -3, 3);
    assert [Ldloc(arr), LdcI4(k)] + c + [Box(t)] + [StelemRef] == [Ldloc(arr), LdcI4(k)] + c + [Box(t), StelemRef];
  }

  lemma {:induction false} PrintArgsBalanced(args: seq<Expression>, arr: LocalRef, sl: Slots)
    requires PrintArgsCode(args, arr, sl).Success? && AllLowerable(args, sl)
    ensures Delta(PrintArgsCode(args, arr, sl).value) == 0 && Runs(PrintArgsCode(args, arr, sl).value, 0)
  {
    if args != [] {
      var front := PrintArgsCode(args[..|args| - 1], arr, sl).value;
      var last := args[|args| - 1];
      var c := ExprCode(last, sl).value;
      PrintArgsBalanced(args[..|args| - 1], arr, sl);
      ExprCodePushesOne(last, sl);
      PrintItemBalanced(arr, |args| - 1, c, last.ty);
      var item := [Ldloc(arr), LdcI4(|args| - 1)] + c + [Box(last.ty), StelemRef];
      assert PrintArgsCode(args, arr, sl).value == front + item;
      FitsAppend(front, 0, 0, item, 0, 0);
    }
  }

  /** The array construction before the arguments of `writeln`. */
  lemma PrintHeadBalanced(n: int, arr: LocalRef)
    ensures Fits([LdcI4(n), NewarrObject, Stloc(arr)], 0, 0)
  {
    FitsSingle(LdcI4(n));
    FitsSingle(NewarrObject);
    FitsSingle(Stloc(arr));
    FitsAppend([LdcI4(n)], 1, 0, [NewarrObject], 0, 1);
    FitsAppend([LdcI4(n)] + [NewarrObject], 1, 0, [Stloc(arr)], -1, 1);
    assert [LdcI4(n)] + [NewarrObject] + [Stloc(arr)] == [LdcI4(n), NewarrObject, Stloc(arr)];
  }

  /** The join and the write after the arguments of `writeln`. */
  lemma PrintTailBalanced(arr: LocalRef)
    ensures Fits([Ldstr(" "), Ldloc(arr), Call(Library(StringJoin)), Call(Library(ConsoleWriteLineString))], 0, 0)
  {
    var join := Call(Library(StringJoin));
    var write := Call(Library(ConsoleWriteLineString));
    FitsSingle(Ldstr(" "));
    FitsSingle(Ldloc(arr));
    FitsSingle(join);
    FitsSingle(write);
    FitsAppend([Ldstr(" ")], 1, 0, [Ldloc(arr)], 1, 0);
    FitsAppend([Ldstr(" ")] + [Ldloc(arr)], 2, 0, [join], -1, 2);
    FitsAppend([Ldstr(" ")] + [Ldloc(arr)] + [join], 1, 0, [write], -1, 1);
    assert [Ldstr(" ")] + [Ldloc(arr)] + [join] + [write] == [Ldstr(" "), Ldloc(arr), join, write];
  }

  /**
   * `writeln(a1, ..., an)` builds an n-element object array in the
   * temporary, stores each boxed argument at its index, joins the array
   * with a space and writes the line; the whole leaves the stack balanced.
   */
  lemma PrintLowering(args: seq<Expression>, arr: LocalRef, sl: Slots)
    requires PrintCode(args, arr, sl).Success? && AllLowerable(args, sl)
    ensures var code := PrintCode(args, arr, sl).value;
      Fits(code, 0, 0) &&
      code[..3] == [LdcI4(|args|), NewarrObject, Stloc(arr)] &&
      code[|code| - 4..] == [Ldstr(" "), Ldloc(arr), Call(Library(StringJoin)), Call(Library(ConsoleWriteLineString))]
  {
    var items := PrintArgsCode(args, arr, sl).value;
    var head := [LdcI4(|args|), NewarrObject, Stloc(arr)];
    var tail := [Ldstr(" "), Ldloc(arr), Call(Library(StringJoin)), Call(Library(ConsoleWriteLineString))];
    PrintArgsBalanced(args, arr, sl);
    PrintHeadBalanced(|args|, arr);
    PrintTailBalanced(arr);
    FitsAppend(head, 0, 0, items, 0, 0);
    FitsAppend(head + items, 0, 0, tail, 0, 0);
    var code := head + items + tail;
    assert code[..3] == head;
    assert code[|code| - 4..] == tail;
  }

  /** A call statement whose callee takes its arguments pops the result iff there is one, so it leaves the stack balanced. */
  lemma UserCallBalanced(s: Statement, sl: Slots)
    requires s.CallStmt? && s.declaration.Some? && UserCallCode(s, sl).Success? && AllLowerable(s.arguments, sl)
    requires var t := MethodTarget(s.declaration, sl).value;
      t.UserMethod? && t.parameterCount == |s.arguments| && t.returnsValue == ReturnsValue(s.declaration.value.ty)
    ensures Delta(UserCallCode(s, sl).value) == 0 && Runs(UserCallCode(s, sl).value, 0)
  {
    var a := ArgsCode(s.arguments, sl).value;
    var t := MethodTarget(s.declaration, sl).value;
    ArgsCodePushesEach(s.arguments, sl);
    CallThenPop(a, Call(t), if ReturnsValue(s.declaration.value.ty) then [Pop] else []);
  }

  /** Code leaving the callee's arguments, the call, and a pop of its result when there is one. */
  lemma CallThenPop(a: seq<Instr>, call: Instr, pop: seq<Instr>)
    requires Delta(a) == Pops(call) && Runs(a, 0)
    requires pop == [] <==> Pushes(call) == 0
    requires pop == [] || (pop == [Pop] && Pushes(call) == 1)
    ensures Delta(a + [call] + pop) == 0 && Runs(a + [call] + pop, 0)
  {
    Single(call, Pops(call));
    DeltaAppend(a, [call]);
    RunsAppend(a, [call], 0);
    if pop == [] {
      assert a + [call] + pop == a + [call];
    } else {
      Single(Pop, 1);
    }
    DeltaAppend(a + [call], pop);
    RunsAppend(a + [call], pop, 0);
  }

  /** Reading into a global or a local stores the converted line; nothing is left on the stack. */
  lemma ReadIntoStorageBalanced(a: Expression, sl: Slots)
    requires a.VariableExpr? && a.symbol.Some? && ReadArgsCode([a], sl).Success?
    requires a.symbol.value.kind.GlobalKind? || a.symbol.value.kind.VariableKind?
    ensures Delta(ReadArgsCode([a], sl).value) == 0 && Runs(ReadArgsCode([a], sl).value, 0)
  {
    ReadArgBalance(a, sl);
  }

  /** Reading into a parameter emits no store: the line read stays on the stack. */
  lemma ReadIntoParameterLeavesValue(a: Expression, sl: Slots)
    requires a.VariableExpr? && a.symbol.Some? && a.symbol.value.kind.ParameterKind?
    ensures ReadArgsCode([a], sl).Success?
    ensures Delta(ReadArgsCode([a], sl).value) == 1
  {
    ReadArgBalance(a, sl);
  }

  lemma ReadArgBalance(a: Expression, sl: Slots)
    requires a.VariableExpr? && ReadArgsCode([a], sl).Success?
    ensures var store := ReadStoreCode(a.symbol, sl).value;
      var code := ReadArgsCode([a], sl).value;
      Delta(code) == 1 - |store| && (|store| <= 1 ==> Runs(code, 0))
  {
    assert [a][..0] == [];
    assert ReadArgsCode([a], sl).value == [] + [Call(Library(ConsoleReadLine))] + ParseCode(a.ty) + ReadStoreCode(a.symbol, sl).value;
    StoreTakesOne(a.symbol, sl);
    ReadLineParseStore(ParseCode(a.ty), ReadStoreCode(a.symbol, sl).value);
  }

  /** One more argument read: `Console.ReadLine`, its parse and its store, after the code of those before it. */
  lemma ReadArgsStep(args: seq<Expression>, sl: Slots, i: nat)
    requires i < |args| && ReadArgsCode(args[..i], sl).Success?
    requires args[i].VariableExpr? && ReadStoreCode(args[i].symbol, sl).Success?
    ensures ReadArgsCode(args[..i + 1], sl) == Success(ReadArgsCode(args[..i], sl).value +
      ([Call(Library(ConsoleReadLine))] + ParseCode(args[i].ty) + ReadStoreCode(args[i].symbol, sl).value))
  {
    assert args[..i + 1][..i] == args[..i];
    assert args[..i + 1][i] == args[i];
    var before, rl, parse, store := ReadArgsCode(args[..i], sl).value, Call(Library(ConsoleReadLine)),
                                    ParseCode(args[i].ty), ReadStoreCode(args[i].symbol, sl).value;
    assert before + ([rl] + parse + store) == before + [rl] + parse + store;
  }

  /** The store of a value read is nothing, or one instruction that takes the value. */
  lemma StoreTakesOne(symbol: Option<Symbol>, sl: Slots)
    requires ReadStoreCode(symbol, sl).Success?
    ensures var store := ReadStoreCode(symbol, sl).value;
      store == [] || (|store| == 1 && Pops(store[0]) == 1 && Pushes(store[0]) == 0)
  {
  }

  /** `Console.ReadLine`, the parse of its text, and the store of the value. */
  lemma ReadLineParseStore(parse: seq<Instr>, store: seq<Instr>)
    requires parse == [] || (|parse| == 1 && Pops(parse[0]) == 1 && Pushes(parse[0]) == 1)
    requires store == [] || (|store| == 1 && Pops(store[0]) == 1 && Pushes(store[0]) == 0)
    ensures var code := [] + [Call(Library(ConsoleReadLine))] + parse + store;
      Delta(code) == 1 - |store| && Runs(code, 0)
  {
    var rl := Call(Library(ConsoleReadLine));
    Single(rl, 0);
    DeltaAppend([rl], parse);
    RunsAppend([rl], parse, 0);
    if parse != [] { MapsTopSingle(parse[0]); }
    DeltaAppend([rl] + parse, store);
    RunsAppend([rl] + parse, store, 0);
    if store != [] { Single(store[0], 1); }
    assert [] + [rl] + parse + store == [rl] + parse + store;
  }

  // ---------------------------------------------------------------- array declarations

  /** How many of the declared symbols get storage: the globals and the variables. */
  function StoredCount(syms: seq<Symbol>): nat
  {
    if syms == [] then 0
    else
      var last := syms[|syms| - 1];
      StoredCount(syms[..|syms| - 1]) + (if last.kind.GlobalKind? || last.kind.VariableKind? then 1 else 0)
  }

  /** What `ArrayVarsGen` appends: three instructions per stored symbol, each a new array of the size in `tmp`. */
  predicate Allocations(code: seq<Instr>, count: nat, tmp: LocalRef, elem: ExprType)
  {
    |code| == 3 * count &&
    forall k :: 0 <= k < count ==>
      code[3 * k] == Ldloc(tmp) && code[3 * k + 1] == Newarr(elem) &&
      (code[3 * k + 2].Stsfld? || code[3 * k + 2].Stloc?)
  }

  lemma AllocationsExtend(a: seq<Instr>, count: nat, tmp: LocalRef, elem: ExprType, triple: seq<Instr>)
    requires Allocations(a, count, tmp, elem)
    requires |triple| == 3 && triple[0] == Ldloc(tmp) && triple[1] == Newarr(elem)
    requires triple[2].Stsfld? || triple[2].Stloc?
    ensures Allocations(a + triple, count + 1, tmp, elem)
  {
    var code := a + triple;
    forall k | 0 <= k < count + 1
      ensures code[3 * k] == Ldloc(tmp) && code[3 * k + 1] == Newarr(elem)
      ensures code[3 * k + 2].Stsfld? || code[3 * k + 2].Stloc?
    {
      if k < count {
        assert code[3 * k] == a[3 * k] && code[3 * k + 1] == a[3 * k + 1] && code[3 * k + 2] == a[3 * k + 2];
      } else {
        assert code[3 * k] == triple[0] && code[3 * k + 1] == triple[1] && code[3 * k + 2] == triple[2];
      }
    }
  }

  lemma StoredAllocations(a: seq<Instr>, count: nat, tmp: LocalRef, elem: ExprType, added: seq<Instr>)
    requires Allocations(a, count, tmp, elem)
    requires added == [] || (|added| == 3 && added[0] == Ldloc(tmp) && added[1] == Newarr(elem) &&
                             (added[2].Stsfld? || added[2].Stloc?))
    ensures Allocations(a + added, count + |added| / 3, tmp, elem)
  {
    if added == [] {
      assert a + added == a;
    } else {
      AllocationsExtend(a, count, tmp, elem, added);
    }
  }

  lemma {:induction false} ArrayVarsAllocateEach(syms: seq<Symbol>, tmp: LocalRef, ty: TypeInfo, st: GenState)
    returns (alloc: seq<Instr>)
    requires GenValid(st)
    ensures CurrentCode(ArrayVarsGen(syms, tmp, ty, st)) == CurrentCode(st) + alloc
    ensures Allocations(alloc, StoredCount(syms), tmp, ty.basicType)
  {
    if syms == [] {
      alloc := [];
    } else {
      var front := syms[..|syms| - 1];
      var last := syms[|syms| - 1];
      var mid := ArrayVarsGen(front, tmp, ty, st);
      var a := ArrayVarsAllocateEach(front, tmp, ty, st);
      var r := ArrayVarsGen(syms, tmp, ty, st);
      assert r == ArrayVarGen(last, tmp, ty, mid);
      var cm := CurrentCode(mid);
      var c := CurrentCode(r);
      assert cm <= c;
      var added := c[|cm|..];
      assert c == cm + added;
      alloc := a + added;
      ConcatAssoc(CurrentCode(st), a, added);
      assert added == [] || (|added| == 3 && added[0] == Ldloc(tmp) && added[1] == Newarr(ty.basicType) &&
                             (added[2].Stsfld? || added[2].Stloc?));
      assert StoredCount(syms) == StoredCount(front) + |added| / 3;
      StoredAllocations(a, StoredCount(front), tmp, ty.basicType, added);
    }
  }

  /**
   * An array declaration evaluates its size once, into the temporary it
   * declares first, and then allocates one array of that size for each
   * global or local it declares.
   */
  lemma ArrayDeclLowering(s: Statement, st: GenState) returns (size: seq<Instr>)
    requires s.VarDeclarationStmt? && s.varType.ArrayType? && GenValid(st) && VarDeclGen(s, st).Success?
    ensures s.varType.sizeExpr.Some? && ExprCode(s.varType.sizeExpr.value, st.slots) == Success(size)
    ensures var tmp := LocalRef(Top(st), st.methods[Top(st)].localCount);
      var code := CurrentCode(VarDeclGen(s, st).value);
      var n := |CurrentCode(st)| + |size| + 1;
      n <= |code| && code[..n] == CurrentCode(st) + size + [Stloc(tmp)] &&
      Allocations(code[n..], StoredCount(s.varSymbols), tmp, s.varType.exprType)
  {
    var l := DeclareLocal(st);
    size := ExprCode(s.varType.sizeExpr.value, l.1.slots).value;
    var st2 := Emit(l.1, size + [Stloc(l.0)]);
    var alloc := ArrayVarsAllocateEach(s.varSymbols, l.0, TypeOfNode(s.varType), st2);
    var n := |CurrentCode(st)| + |size| + 1;
    assert CurrentCode(VarDeclGen(s, st).value) == CurrentCode(st) + size + [Stloc(l.0)] + alloc;
    assert (CurrentCode(st) + size + [Stloc(l.0)] + alloc)[n..] == alloc;
  }

  // ---------------------------------------------------------------- failure of a prefix

  lemma {:induction false} ArgsCodePrefixFails(args: seq<Expression>, sl: Slots, i: nat)
    requires i <= |args| && ArgsCode(args[..i], sl).Failure?
    ensures ArgsCode(args, sl).Failure?
    decreases |args| - i
  {
    if i < |args| {
      assert args[..i + 1][..i] == args[..i];
      ArgsCodePrefixFails(args, sl, i + 1);
    } else {
      assert args[..i] == args;
    }
  }

  lemma {:induction false} PrintArgsPrefixFails(args: seq<Expression>, arr: LocalRef, sl: Slots, i: nat)
    requires i <= |args| && PrintArgsCode(args[..i], arr, sl).Failure?
    ensures PrintArgsCode(args, arr, sl).Failure?
    decreases |args| - i
  {
    if i < |args| {
      assert args[..i + 1][..i] == args[..i];
      PrintArgsPrefixFails(args, arr, sl, i + 1);
    } else {
      assert args[..i] == args;
    }
  }

  lemma {:induction false} ReadArgsPrefixFails(args: seq<Expression>, sl: Slots, i: nat)
    requires i <= |args| && ReadArgsCode(args[..i], sl).Failure?
    ensures ReadArgsCode(args, sl).Failure?
    decreases |args| - i
  {
    if i < |args| {
      assert args[..i + 1][..i] == args[..i];
      ReadArgsPrefixFails(args, sl, i + 1);
    } else {
      assert args[..i] == args;
    }
  }

  /** One more statement of a prefix that generated: the prefix's state, then that statement. */
  lemma StmtsGenStep(ss: seq<Statement>, st: GenState, i: nat)
    requires GenValid(st) && i < |ss| && StmtsGen(ss[..i], st).Success?
    ensures GenValid(StmtsGen(ss[..i], st).value)
    ensures StmtsGen(ss[..i + 1], st) == StmtGen(ss[i], StmtsGen(ss[..i], st).value)
  {
    assert ss[..i + 1][..i] == ss[..i];
  }

  lemma {:induction false} StmtsGenPrefixFails(ss: seq<Statement>, st: GenState, i: nat)
    requires GenValid(st) && i <= |ss| && StmtsGen(ss[..i], st).Failure?
    ensures StmtsGen(ss, st).Failure?
    decreases |ss| - i
  {
    if i < |ss| {
      assert ss[..i + 1][..i] == ss[..i];
      StmtsGenPrefixFails(ss, st, i + 1);
    } else {
      assert ss[..i] == ss;
    }
  }

  lemma {:induction false} ScalarVarsPrefixFails(syms: seq<Symbol>, st: GenState, i: nat)
    requires GenValid(st) && i <= |syms| && ScalarVarsGen(syms[..i], st).Failure?
    ensures ScalarVarsGen(syms, st).Failure?
    decreases |syms| - i
  {
    if i < |syms| {
      assert syms[..i + 1][..i] == syms[..i];
      ScalarVarsPrefixFails(syms, st, i + 1);
    } else {
      assert syms[..i] == syms;
    }
  }

  // ---------------------------------------------------------------- the generator

  /** The storage of the predefined `true` and `false`: the first two static fields. */
  const PredefinedSlots: Slots := Slots(map[SymbolTables.TrueSymbol := FieldRef(0), SymbolTables.FalseSymbol := FieldRef(1)], map[], map[], map[])

  /** The start of the main method: `true` holds 1 and `false` holds 0. */
  const PredefinedPrologue: seq<Instr> := [LdcI4_1, Stsfld(FieldRef(0)), LdcI4_0, Stsfld(FieldRef(1))]

  /** `true` and `false` load from their own fields, assigning to them stores into those fields, and the prologue leaves the stack empty. */
  lemma PredefinedBooleansLoad()
    ensures LoadCode(Some(SymbolTables.TrueSymbol), PredefinedSlots) == Success([Ldsfld(FieldRef(0))])
    ensures LoadCode(Some(SymbolTables.FalseSymbol), PredefinedSlots) == Success([Ldsfld(FieldRef(1))])
    ensures StoreCode(SymbolTables.TrueSymbol, PredefinedSlots) == Success([Stsfld(FieldRef(0))])
    ensures StoreCode(SymbolTables.FalseSymbol, PredefinedSlots) == Success([Stsfld(FieldRef(1))])
    ensures Fits(PredefinedPrologue, 0, 0)
  {
    FitsSingle(LdcI4_1);
    FitsSingle(Stsfld(FieldRef(0)));
    FitsSingle(LdcI4_0);
    FitsSingle(Stsfld(FieldRef(1)));
    FitsAppend([LdcI4_1], 1, 0, [Stsfld(FieldRef(0))], -1, 1);
    FitsAppend([LdcI4_0], 1, 0, [Stsfld(FieldRef(1))], -1, 1);
    assert [LdcI4_1] + [Stsfld(FieldRef(0))] + ([LdcI4_0] + [Stsfld(FieldRef(1))]) == PredefinedPrologue;
    FitsAppend([LdcI4_1] + [Stsfld(FieldRef(0))], 0, 0, [LdcI4_0] + [Stsfld(FieldRef(1))], 0, 0);
  }

  /**
   * `CodeGenerator`: the methods under construction, the stack of methods
   * being generated, the program type's fields and the storage assigned to
   * symbols. Each visitor emits step by step and ends in the state the
   * corresponding function computes; on an exception (`ok` false) the
   * generation is abandoned.
   */
  class CodeGenerator {
    var methods: seq<MethodBody>
    var methodStack: seq<nat>
    var fieldNames: seq<string>
    var slots: Slots

    function Model(): GenState
      reads this
    {
      GenState(methods, methodStack, fieldNames, slots)
    }

    /**
     * The generator positioned in the program's main method: the two static
     * fields of `true` and `false` are defined, both named `_true`, and the
     * main method starts by storing 1 and 0 in them.
     */
    constructor (mainName: string)
      ensures Model() == GenState([MethodBody(mainName, PredefinedPrologue, 0, 0)], [0], ["_true", "_true"], PredefinedSlots)
      ensures GenValid(Model())
    {
      methods := [MethodBody(mainName, [], 0, 0)];
      methodStack := [0];
      fieldNames := [];
      slots := Slots(map[], map[], map[], map[]);
      new;
      var trueField := NewField("_true");
      var falseField := NewField("_true");
      assert trueField == FieldRef(0) && falseField == FieldRef(1);
      slots := slots.(fieldOf := slots.fieldOf[SymbolTables.TrueSymbol := trueField][SymbolTables.FalseSymbol := falseField]);
      assert [] + PredefinedPrologue == PredefinedPrologue;
      EmitCode([LdcI4_1, Stsfld(trueField), LdcI4_0, Stsfld(falseField)]);
    }

    /** `il.Emit` on the current method. */
    method EmitCode(code: seq<Instr>)
      requires GenValid(Model())
      modifies this
      ensures Model() == Emit(old(Model()), code)
    {
      var m := methodStack[|methodStack| - 1];
      methods := methods[m := methods[m].(code := methods[m].code + code)];
    }

    method NewLabel() returns (l: Label)
      requires GenValid(Model())
      modifies this
      ensures (l, Model()) == DefineLabel(old(Model()))
    {
      var m := methodStack[|methodStack| - 1];
      l := Label(methods[m].labelCount);
      methods := methods[m := methods[m].(labelCount := methods[m].labelCount + 1)];
    }

    method NewLocal() returns (l: LocalRef)
      requires GenValid(Model())
      modifies this
      ensures (l, Model()) == DeclareLocal(old(Model()))
    {
      var m := methodStack[|methodStack| - 1];
      l := LocalRef(m, methods[m].localCount);
      methods := methods[m := methods[m].(localCount := methods[m].localCount + 1)];
    }

    method NewField(name: string) returns (f: FieldRef)
      modifies this
      ensures (f, Model()) == DefineField(old(Model()), name)
    {
      f := FieldRef(|fieldNames|);
      fieldNames := fieldNames + [name];
    }

    /** The expression visitors. */
    method VisitExpr(e: Expression) returns (ok: bool)
      requires GenValid(Model())
      modifies this
      ensures ok <==> ExprCode(e, old(slots)).Success?
      ensures ok ==> Model() == Emit(old(Model()), ExprCode(e, old(slots)).value)
      decreases e
    {
      ghost var st0 := Model();
      match e
      case VariableExpr(_, _, _, _, symbol) =>
        var load := LoadCode(symbol, slots);
        if load.Failure? { return false; }
        EmitCode(load.value);
        EmitCode(SignCode(e));
        EmitEmit(st0, load.value, SignCode(e));
        ok := true;
      case ArrayVariableExpr(_, _, _, _, subscript, symbol) =>
        var load := LoadCode(symbol, slots);
        if load.Failure? { return false; }
        EmitCode(load.value);
        ok := VisitExpr(subscript);
        if !ok { return; }
        var elem := ElementType(symbol.value.ty);
        if elem.Failure? { return false; }
        EmitCode([Ldelem(elem.value)]);
        EmitCode(SignCode(e));
        EmitEmit(st0, load.value, ExprCode(subscript, st0.slots).value);
        EmitEmit(st0, load.value + ExprCode(subscript, st0.slots).value, [Ldelem(elem.value)]);
        EmitEmit(st0, load.value + ExprCode(subscript, st0.slots).value + [Ldelem(elem.value)], SignCode(e));
      case BinaryExpr(_, _, _, op, left, right) =>
        ok := VisitExpr(left);
        if !ok { return; }
        ghost var l := ExprCode(left, st0.slots).value;
        EmitCode(ConvCode(e, left));
        ok := VisitExpr(right);
        if !ok { return; }
        ghost var r := ExprCode(right, st0.slots).value;
        EmitCode(ConvCode(e, right));
        var opCode := OperationCode(op, left.ty);
        if opCode.Failure? { return false; }
        EmitCode(opCode.value);
        EmitCode(SignCode(e));
        EmitEmit(st0, l, ConvCode(e, left));
        EmitEmit(st0, l + ConvCode(e, left), r);
        EmitEmit(st0, l + ConvCode(e, left) + r, ConvCode(e, right));
        EmitEmit(st0, l + ConvCode(e, left) + r + ConvCode(e, right), opCode.value);
        EmitEmit(st0, l + ConvCode(e, left) + r + ConvCode(e, right) + opCode.value, SignCode(e));
      case UnaryExpr(_, _, _, op, operand) =>
        ok := VisitExpr(operand);
        if !ok { return; }
        var opCode := OperationCode(op, operand.ty);
        if opCode.Failure? { return false; }
        EmitCode(opCode.value);
        EmitEmit(st0, ExprCode(operand, st0.slots).value, opCode.value);
      case IntLiteralExpr(_, _, _, v) =>
        EmitCode([LdcI4(v)]);
        EmitCode(SignCode(e));
        EmitEmit(st0, [LdcI4(v)], SignCode(e));
        ok := true;
      case RealLiteralExpr(_, _, _, text) =>
        EmitCode([LdcR8(text)]);
        EmitCode(SignCode(e));
        EmitEmit(st0, [LdcR8(text)], SignCode(e));
        ok := true;
      case StringLiteralExpr(_, _, _, v) =>
        EmitCode([Ldstr(v)]);
        ok := true;
      case CallExpr(_, _, _, _, args, declaration) =>
        ok := VisitArgs(args);
        if !ok { return; }
        var target := MethodTarget(declaration, slots);
        if target.Failure? { return false; }
        EmitCode([Call(target.value)]);
        EmitCode(SignCode(e));
        EmitEmit(st0, ArgsCode(args, st0.slots).value, [Call(target.value)]);
        EmitEmit(st0, ArgsCode(args, st0.slots).value + [Call(target.value)], SignCode(e));
      case MemberAccessExpr(_, _, _, accessed, memberId) =>
        ok := VisitExpr(accessed);
        if !ok { return; }
        if memberId == "size" {
          EmitCode([Ldlen]);
          EmitCode(SignCode(e));
          EmitEmit(st0, ExprCode(accessed, st0.slots).value, [Ldlen]);
          EmitEmit(st0, ExprCode(accessed, st0.slots).value + [Ldlen], SignCode(e));
        }
    }

    /** The arguments of a call, left to right. */
    method VisitArgs(args: seq<Expression>) returns (ok: bool)
      requires GenValid(Model())
      modifies this
      ensures ok <==> ArgsCode(args, old(slots)).Success?
      ensures ok ==> Model() == Emit(old(Model()), ArgsCode(args, old(slots)).value)
      decreases args
    {
      ghost var st0 := Model();
      EmitNothing(st0);
      var i := 0;
      while i < |args|
        invariant 0 <= i <= |args| && slots == st0.slots
        invariant ArgsCode(args[..i], st0.slots).Success?
        invariant Model() == Emit(st0, ArgsCode(args[..i], st0.slots).value)
      {
        assert args[..i + 1][..i] == args[..i];
        ghost var before := ArgsCode(args[..i], st0.slots).value;
        ok := VisitExpr(args[i]);
        if !ok {
          ArgsCodePrefixFails(args, st0.slots, i + 1);
          return;
        }
        EmitEmit(st0, before, ExprCode(args[i], st0.slots).value);
        i := i + 1;
      }
      assert args[..i] == args;
      ok := true;
    }
  
    /** The statement visitors. */
    method VisitStmt(s: Statement) returns (ok: bool)
      requires GenValid(Model())
      modifies this
      ensures ok <==> StmtGen(s, old(Model())).Success?
      ensures ok ==> Model() == StmtGen(s, old(Model())).value
      decreases s, 2
    {
      match s
      case BlockStmt(_, _) => ok := VisitBlock(s);
      case VarDeclarationStmt(_, _, _, _) => ok := VisitVarDecl(s);
      case ProcedureDeclarationStmt(_, _, _, _, _) => ok := VisitCallable(s);
      case FunctionDeclarationStmt(_, _, _, _, _, _) => ok := VisitCallable(s);
      case AssignmentStmt(_, _, _, _) => ok := VisitAssignment(s);
      case WhileStmt(_, _, _) => ok := VisitWhile(s);
      case IfStmt(_, _, _, _) => ok := VisitIf(s);
      case CallStmt(_, _, _, _) => ok := VisitCall(s);
      case ReturnStmt(_, _) => ok := VisitReturn(s);
      case AssertStmt(_, _) => ok := false;
    }

    /** A block: its statements inside a scope of their own. */
    method VisitBlock(s: Statement) returns (ok: bool)
      requires s.BlockStmt? && GenValid(Model())
      modifies this
      ensures ok <==> StmtGen(s, old(Model())).Success?
      ensures ok ==> Model() == StmtGen(s, old(Model())).value
      decreases s, 1
    {
      EmitCode([BeginScope]);
      ok := VisitStmts(s.statements);
      if ok { EmitCode([EndScope]); }
    }

    /** A statement list, first to last. */
    method VisitStmts(ss: seq<Statement>) returns (ok: bool)
      requires GenValid(Model())
      modifies this
      ensures ok <==> StmtsGen(ss, old(Model())).Success?
      ensures ok ==> Model() == StmtsGen(ss, old(Model())).value
      decreases ss
    {
      ghost var st0 := Model();
      var i := 0;
      while i < |ss|
        invariant 0 <= i <= |ss|
        invariant StmtsGen(ss[..i], st0).Success? && Model() == StmtsGen(ss[..i], st0).value
      {
        StmtsGenStep(ss, st0, i);
        ok := VisitStmt(ss[i]);
        if !ok {
          StmtsGenPrefixFails(ss, st0, i + 1);
          return;
        }
        i := i + 1;
      }
      assert ss[..i] == ss;
      ok := true;
    }

    /** One variable of an array declaration. */
    method AllocateArrayVar(s: Symbol, tmp: LocalRef, ty: TypeInfo)
      requires GenValid(Model())
      modifies this
      ensures Model() == ArrayVarGen(s, tmp, ty, old(Model()))
    {
      match s.kind
      case GlobalKind =>
        var f := NewField(s.name);
        slots := slots.(fieldOf := slots.fieldOf[s := f]);
        EmitCode([Ldloc(tmp), Newarr(ty.basicType), Stsfld(f)]);
      case VariableKind =>
        var l := NewLocal();
        slots := slots.(localOf := slots.localOf[s := l]);
        EmitCode([Ldloc(tmp), Newarr(ty.basicType), Stloc(l)]);
      case _ =>
    }

    /** One variable of a scalar declaration. */
    method DeclareScalarVar(s: Symbol) returns (ok: bool)
      requires GenValid(Model())
      modifies this
      ensures ok <==> ScalarVarGen(s, old(Model())).Success?
      ensures ok ==> Model() == ScalarVarGen(s, old(Model())).value
    {
      match s.kind
      case GlobalKind =>
        var f := NewField(s.name);
        slots := slots.(fieldOf := slots.fieldOf[s := f]);
        ok := true;
      case VariableKind =>
        var l := NewLocal();
        slots := slots.(localOf := slots.localOf[s := l]);
        ok := true;
      case _ => ok := false;
    }

    method VisitVarDecl(s: Statement) returns (ok: bool)
      requires s.VarDeclarationStmt? && GenValid(Model())
      modifies this
      ensures ok <==> VarDeclGen(s, old(Model())).Success?
      ensures ok ==> Model() == VarDeclGen(s, old(Model())).value
    {
      if s.varType.ArrayType? {
        ok := DeclareArrays(s);
      } else {
        ok := DeclareScalars(s.varSymbols);
      }
    }

    /** An array declaration: the size into a temporary, then one new array per variable. */
    method DeclareArrays(s: Statement) returns (ok: bool)
      requires s.VarDeclarationStmt? && s.varType.ArrayType? && GenValid(Model())
      modifies this
      ensures ok <==> VarDeclGen(s, old(Model())).Success?
      ensures ok ==> Model() == VarDeclGen(s, old(Model())).value
    {
      var syms := s.varSymbols;
      var tmp := NewLocal();
      ghost var st1 := Model();
      if s.varType.sizeExpr.None? { return false; }
      ok := VisitExpr(s.varType.sizeExpr.value);
      if !ok { return; }
      EmitCode([Stloc(tmp)]);
      EmitEmit(st1, ExprCode(s.varType.sizeExpr.value, st1.slots).value, [Stloc(tmp)]);
      AllocateArrayVars(syms, tmp, TypeOfNode(s.varType));
    }

    /** The loop of `DeclareArrays`: one array per variable, all of the size held in `tmp`. */
    method AllocateArrayVars(syms: seq<Symbol>, tmp: LocalRef, ty: TypeInfo)
      requires GenValid(Model())
      modifies this
      ensures Model() == ArrayVarsGen(syms, tmp, ty, old(Model()))
    {
      ghost var st2 := Model();
      var i := 0;
      while i < |syms|
        invariant 0 <= i <= |syms| && Model() == ArrayVarsGen(syms[..i], tmp, ty, st2)
        invariant GenValid(Model())
      {
        ghost var next := syms[..i + 1];
        assert next[..i] == syms[..i] && next[i] == syms[i];
        AllocateArrayVar(syms[i], tmp, ty);
        i := i + 1;
      }
      assert syms[..i] == syms;
    }

    /** A scalar declaration: storage for each variable in turn. */
    method DeclareScalars(syms: seq<Symbol>) returns (ok: bool)
      requires GenValid(Model())
      modifies this
      ensures ok <==> ScalarVarsGen(syms, old(Model())).Success?
      ensures ok ==> Model() == ScalarVarsGen(syms, old(Model())).value
    {
      ghost var st0 := Model();
      var i := 0;
      while i < |syms|
        invariant 0 <= i <= |syms|
        invariant ScalarVarsGen(syms[..i], st0).Success? && Model() == ScalarVarsGen(syms[..i], st0).value
      {
        assert syms[..i + 1][..i] == syms[..i];
        ok := DeclareScalarVar(syms[i]);
        if !ok {
          ScalarVarsPrefixFails(syms, st0, i + 1);
          return;
        }
        i := i + 1;
      }
      assert syms[..i] == syms;
      ok := true;
    }

    method VisitAssignment(s: Statement) returns (ok: bool)
      requires s.AssignmentStmt? && GenValid(Model())
      modifies this
      ensures ok <==> AssignGen(s, old(Model())).Success?
      ensures ok ==> Model() == AssignGen(s, old(Model())).value
    {
      ghost var st0 := Model();
      if s.variableSymbol.None? { return false; }
      var sym := s.variableSymbol.value;
      if sym.ty.isArray {
        if !s.variable.ArrayVariableExpr? { return false; }
        var load := LoadCode(s.variableSymbol, slots);
        if load.Failure? { return false; }
        EmitCode(load.value);
        ok := VisitExpr(s.variable.subscript);
        if !ok { return; }
        ghost var sub := ExprCode(s.variable.subscript, st0.slots).value;
        ok := VisitExpr(s.value);
        if !ok { return; }
        ghost var value := ExprCode(s.value, st0.slots).value;
        EmitCode([Stelem(sym.ty.basicType)]);
        EmitEmit(st0, load.value, sub);
        EmitEmit(st0, load.value + sub, value);
        EmitEmit(st0, load.value + sub + value, [Stelem(sym.ty.basicType)]);
      } else {
        ok := VisitExpr(s.value);
        if !ok { return; }
        var store := StoreCode(sym, slots);
        if store.Failure? { return false; }
        EmitCode(store.value);
        EmitEmit(st0, ExprCode(s.value, st0.slots).value, store.value);
      }
    }

    method VisitReturn(s: Statement) returns (ok: bool)
      requires s.ReturnStmt? && GenValid(Model())
      modifies this
      ensures ok <==> ReturnGen(s, old(Model())).Success?
      ensures ok ==> Model() == ReturnGen(s, old(Model())).value
    {
      ghost var st0 := Model();
      ghost var value: seq<Instr> := [];
      EmitNothing(st0);
      if s.returnExpression.Some? {
        ok := VisitExpr(s.returnExpression.value);
        if !ok { return; }
        value := ExprCode(s.returnExpression.value, st0.slots).value;
      }
      EmitCode([Ret]);
      EmitEmit(st0, value, [Ret]);
      ok := true;
    }

    /** `EmitPrintCall`. */
    method EmitPrintCall(s: Statement) returns (ok: bool)
      requires s.CallStmt? && GenValid(Model())
      modifies this
      ensures ok <==> PrintGen(s, old(Model())).Success?
      ensures ok ==> Model() == PrintGen(s, old(Model())).value
    {
      var args := s.arguments;
      if |args| == 0 {
        EmitCode([Call(Library(ConsoleWriteLine))]);
        return true;
      }
      var arr := NewLocal();
      ghost var st1 := Model();
      var head := [LdcI4(|args|), NewarrObject, Stloc(arr)];
      var tail := [Ldstr(" "), Ldloc(arr), Call(Library(StringJoin)), Call(Library(ConsoleWriteLineString))];
      EmitCode(head);
      ok := EmitPrintItems(args, arr);
      if !ok { return; }
      EmitCode(tail);
      ghost var items := PrintArgsCode(args, arr, st1.slots).value;
      EmitEmit(st1, head, items);
      EmitEmit(st1, head + items, tail);
    }

    /** Each argument of `writeln`, boxed and stored at its index of the array in `arr`. */
    method EmitPrintItems(args: seq<Expression>, arr: LocalRef) returns (ok: bool)
      requires GenValid(Model())
      modifies this
      ensures ok <==> PrintArgsCode(args, arr, old(slots)).Success?
      ensures ok ==> Model() == Emit(old(Model()), PrintArgsCode(args, arr, old(slots)).value)
    {
      ghost var st0 := Model();
      EmitNothing(st0);
      var i := 0;
      while i < |args|
        invariant 0 <= i <= |args| && slots == st0.slots
        invariant PrintArgsCode(args[..i], arr, st0.slots).Success?
        invariant Model() == Emit(st0, PrintArgsCode(args[..i], arr, st0.slots).value)
      {
        assert args[..i + 1][..i] == args[..i];
        assert args[..i + 1][i] == args[i];
        ghost var before := PrintArgsCode(args[..i], arr, st0.slots).value;
        EmitCode([Ldloc(arr), LdcI4(i)]);
        ok := VisitExpr(args[i]);
        if !ok {
          PrintArgsPrefixFails(args, arr, st0.slots, i + 1);
          return;
        }
        ghost var c := ExprCode(args[i], st0.slots).value;
        EmitCode([Box(args[i].ty), StelemRef]);
        EmitEmit(st0, before, [Ldloc(arr), LdcI4(i)]);
        EmitEmit(st0, before + [Ldloc(arr), LdcI4(i)], c);
        EmitEmit(st0, before + [Ldloc(arr), LdcI4(i)] + c, [Box(args[i].ty), StelemRef]);
        i := i + 1;
      }
      assert args[..i] == args;
      ok := true;
    }

    /** `EmitReadCall`. */
    method EmitReadCall(s: Statement) returns (ok: bool)
      requires s.CallStmt? && GenValid(Model())
      modifies this
      ensures ok <==> ReadGen(s, old(Model())).Success?
      ensures ok ==> Model() == ReadGen(s, old(Model())).value
    {
      ghost var st0 := Model();
      var args := s.arguments;
      EmitNothing(st0);
      var i := 0;
      while i < |args|
        invariant 0 <= i <= |args| && slots == st0.slots
        invariant ReadArgsCode(args[..i], st0.slots).Success?
        invariant Model() == Emit(st0, ReadArgsCode(args[..i], st0.slots).value)
      {
        assert args[..i + 1][..i] == args[..i];
        var a := args[i];
        if !a.VariableExpr? {
          ReadArgsPrefixFails(args, st0.slots, i + 1);
          return false;
        }
        var store := ReadStoreCode(a.symbol, slots);
        if store.Failure? {
          ReadArgsPrefixFails(args, st0.slots, i + 1);
          return false;
        }
        ghost var before := ReadArgsCode(args[..i], st0.slots).value;
        EmitCode([Call(Library(ConsoleReadLine))] + ParseCode(a.ty) + store.value);
        EmitEmit(st0, before, [Call(Library(ConsoleReadLine))] + ParseCode(a.ty) + store.value);
        ReadArgsStep(args, st0.slots, i);
        i := i + 1;
      }
      assert args[..i] == args;
      ok := true;
    }

    method VisitCall(s: Statement) returns (ok: bool)
      requires s.CallStmt? && GenValid(Model())
      modifies this
      ensures ok <==> CallStmtGen(s, old(Model())).Success?
      ensures ok ==> Model() == CallStmtGen(s, old(Model())).value
    {
      ghost var st0 := Model();
      if s.declaration.None? { return false; }
      var callee := s.declaration.value;
      if IsPredefined(callee, "writeln") {
        ok := EmitPrintCall(s);
      } else if IsPredefined(callee, "read") {
        ok := EmitReadCall(s);
      } else {
        ok := VisitArgs(s.arguments);
        if !ok { return; }
        var target := MethodTarget(s.declaration, slots);
        if target.Failure? { return false; }
        ghost var a := ArgsCode(s.arguments, st0.slots).value;
        EmitCode([Call(target.value)]);
        EmitEmit(st0, a, [Call(target.value)]);
        if ReturnsValue(callee.ty) {
          EmitCode([Pop]);
          EmitEmit(st0, a + [Call(target.value)], [Pop]);
        } else {
          assert a + [Call(target.value)] + [] == a + [Call(target.value)];
        }
      }
    }

    method VisitWhile(s: Statement) returns (ok: bool)
      requires s.WhileStmt? && GenValid(Model())
      modifies this
      ensures ok <==> WhileGen(s, old(Model())).Success?
      ensures ok ==> Model() == WhileGen(s, old(Model())).value
      decreases s, 1
    {
      var body := NewLabel();
      var cond := NewLabel();
      EmitCode([Br(cond), MarkLabel(body)]);
      ok := VisitStmt(s.body);
      if !ok { return; }
      ok := EmitWhileTest(s.test, body, cond);
    }

    /** The end of a `while`: the condition's label, the test, and the jump back to the body while it holds. */
    method EmitWhileTest(test: Expression, body: Label, cond: Label) returns (ok: bool)
      requires GenValid(Model())
      modifies this
      ensures ok <==> ExprCode(test, old(slots)).Success?
      ensures ok ==> Model() == Emit(old(Model()), [MarkLabel(cond)] + ExprCode(test, old(slots)).value + [Brtrue(body)])
    {
      ghost var st2 := Model();
      EmitCode([MarkLabel(cond)]);
      ok := VisitExpr(test);
      if !ok { return; }
      EmitCode([Brtrue(body)]);
      EmitEmit(st2, [MarkLabel(cond)], ExprCode(test, st2.slots).value);
      EmitEmit(st2, [MarkLabel(cond)] + ExprCode(test, st2.slots).value, [Brtrue(body)]);
    }

    method VisitIf(s: Statement) returns (ok: bool)
      requires s.IfStmt? && GenValid(Model())
      modifies this
      ensures ok <==> IfGen(s, old(Model())).Success?
      ensures ok ==> Model() == IfGen(s, old(Model())).value
      decreases s, 1
    {
      var f := NewLabel();
      var d := NewLabel();
      ghost var st0 := Model();
      ok := VisitExpr(s.test);
      if !ok { return; }
      EmitCode([Brfalse(f)]);
      EmitEmit(st0, ExprCode(s.test, st0.slots).value, [Brfalse(f)]);
      ok := VisitIfBranches(s, f, d);
    }

    /** The two branches of an `if`, after its test: then; br D; F: else or nop; D: */
    method VisitIfBranches(s: Statement, f: Label, d: Label) returns (ok: bool)
      requires s.IfStmt? && GenValid(Model())
      modifies this
      ensures ok <==> IfBranches(s, old(Model()), f, d).Success?
      ensures ok ==> Model() == IfBranches(s, old(Model()), f, d).value
      decreases s, 0
    {
      ghost var st1 := Model();
      ok := VisitStmt(s.trueStatement);
      if !ok { return; }
      EmitCode([Br(d), MarkLabel(f)]);
      if s.falseStatement.Some? {
        ok := VisitStmt(s.falseStatement.value);
        if !ok { return; }
      } else {
        EmitCode([Nop]);
      }
      EmitCode([MarkLabel(d)]);
      assert Model() == IfBranches(s, st1, f, d).value;
    }

    /** A procedure or function declaration: a new method, generated while it is on top of the stack. */
    method VisitCallable(s: Statement) returns (ok: bool)
      requires s.IsCallableDeclaration() && GenValid(Model())
      modifies this
      ensures ok <==> CallableGen(s, old(Model())).Success?
      ensures ok ==> Model() == CallableGen(s, old(Model())).value
      decreases s, 1
    {
      ghost var st0 := Model();
      if s.declaration.None? || !s.declaration.value.IsCallable() { return false; }
      if !s.block.BlockStmt? { return false; }
      var sym := s.declaration.value;
      var ps := sym.Parameters();
      var m := |methods|;
      methods := methods + [MethodBody(s.identifier, [], 0, 0)];
      slots := slots.(methodOf := slots.methodOf[sym := UserMethod(m, |ps|, ReturnsValue(sym.ty))]);
      var outer := methodStack;
      methodStack := methodStack + [m];
      var index := 1;
      var i := 0;
      while i < |ps|
        invariant 0 <= i <= |ps| && index == i + 1
        invariant methods == st0.methods + [MethodBody(s.identifier, [], 0, 0)] && methodStack == outer + [m]
        invariant slots == st0.slots.(methodOf := st0.slots.methodOf[sym := UserMethod(m, |ps|, ReturnsValue(sym.ty))],
                                      parameterOf := DefineParameters(ps[..i], st0.slots.parameterOf))
        invariant fieldNames == st0.fieldNames
      {
        assert ps[..i + 1][..i] == ps[..i];
        slots := slots.(parameterOf := slots.parameterOf[ps[i] := index]);
        index := index + 1;
        i := i + 1;
      }
      assert ps[..i] == ps;
      ok := VisitStmts(s.block.statements);
      if !ok { return; }
      if s.ProcedureDeclarationStmt? {
        EmitCode([Ret]);
      }
      methodStack := outer;
    }
  }
}
