/**
 * Emitted code (CILHelper.cs): an abstract CIL instruction set with the
 * stack transitions section III of ECMA-335 gives each opcode, and the
 * (basic type, operator) table of instruction sequences `EmitExprOperation`
 * emits.
 */
module Cil {
  import opened Wrappers
  import opened AstEnums
  import opened Symbols
  import TypeChecker

  /** The library methods the generated code calls. */
  datatype LibraryMethod =
    | StringConcat | StringEquals | StringCompare | StringJoin
    | ConsoleWriteLineString | ConsoleWriteLine | ConsoleReadLine
    | IntParse | DoubleParse | BoolParse

  /** A call target: a library method, or a method the compiler defined, with its signature. */
  datatype CallTarget =
    | Library(libraryMethod: LibraryMethod)
    | UserMethod(index: nat, parameterCount: nat, returnsValue: bool)

  /** A label of one method's IL stream, numbered in order of definition. */
  datatype Label = Label(id: nat)

  /** A static field of the program's type, numbered in order of definition. */
  datatype FieldRef = FieldRef(fieldIndex: nat)

  /** A local variable slot of the method `owner`. */
  datatype LocalRef = LocalRef(owner: nat, slot: nat)

  /**
   * Instructions, named after their opcodes; `MarkLabel`, `BeginScope` and
   * `EndScope` are the ILGenerator's markers, which occupy no code bytes.
   */
  datatype Instr =
    | Add | Sub | Mul | Div | Rem | And | Or | Ceq | Cgt | Clt | Neg | ConvR8
    | LdcI4(value: int) | LdcI4_0 | LdcI4_1 | LdcR8(realText: string) | Ldstr(text: string)
    | Ldsfld(field: FieldRef) | Stsfld(field: FieldRef)
    | Ldloc(local: LocalRef) | Stloc(local: LocalRef)
    | Ldarg(argIndex: int) | Starg(argIndex: int)
    | Ldelem(elementType: ExprType) | Stelem(elementType: ExprType) | StelemRef
    | Newarr(elementType: ExprType) | NewarrObject | Ldlen | Box(boxedType: TypeInfo)
    | Call(target: CallTarget)
    | Br(lbl: Label) | Brfalse(lbl: Label) | Brtrue(lbl: Label) | MarkLabel(lbl: Label)
    | Nop | Ret | Pop | BeginScope | EndScope

  function LibraryParameterCount(m: LibraryMethod): nat
  {
    match m
    case StringConcat => 2
    case StringEquals => 2
    case StringCompare => 2
    case StringJoin => 2
    case ConsoleWriteLineString => 1
    case ConsoleWriteLine => 0
    case ConsoleReadLine => 0
    case IntParse => 1
    case DoubleParse => 1
    case BoolParse => 1
  }

  predicate LibraryReturnsValue(m: LibraryMethod)
  {
    !(m.ConsoleWriteLineString? || m.ConsoleWriteLine?)
  }

  /** How many values an instruction takes off the evaluation stack (`ret` is treated on its own). */
  function Pops(i: Instr): nat
  {
    match i
    case Add => 2
    case Sub => 2
    case Mul => 2
    case Div => 2
    case Rem => 2
    case And => 2
    case Or => 2
    case Ceq => 2
    case Cgt => 2
    case Clt => 2
    case Ldelem(_) => 2
    case Stelem(_) => 3
    case StelemRef => 3
    case Neg => 1
    case ConvR8 => 1
    case Newarr(_) => 1
    case NewarrObject => 1
    case Ldlen => 1
    case Box(_) => 1
    case Stsfld(_) => 1
    case Stloc(_) => 1
    case Starg(_) => 1
    case Pop => 1
    case Brfalse(_) => 1
    case Brtrue(_) => 1
    case Call(t) => if t.Library? then LibraryParameterCount(t.libraryMethod) else t.parameterCount
    case _ => 0
  }

  /** How many values an instruction leaves on the evaluation stack. */
  function Pushes(i: Instr): nat
  {
    match i
    case Add => 1
    case Sub => 1
    case Mul => 1
    case Div => 1
    case Rem => 1
    case And => 1
    case Or => 1
    case Ceq => 1
    case Cgt => 1
    case Clt => 1
    case Ldelem(_) => 1
    case Neg => 1
    case ConvR8 => 1
    case Newarr(_) => 1
    case NewarrObject => 1
    case Ldlen => 1
    case Box(_) => 1
    case LdcI4(_) => 1
    case LdcI4_0 => 1
    case LdcI4_1 => 1
    case LdcR8(_) => 1
    case Ldstr(_) => 1
    case Ldsfld(_) => 1
    case Ldloc(_) => 1
    case Ldarg(_) => 1
    case Call(t) =>
      if (if t.Library? then LibraryReturnsValue(t.libraryMethod) else t.returnsValue) then 1 else 0
    case _ => 0
  }

  /** The net change of the stack depth over a straight-line sequence. */
  function Delta(code: seq<Instr>): int
  {
    if code == [] then 0 else Pushes(code[0]) - Pops(code[0]) + Delta(code[1..])
  }

  /** Run in a straight line from depth `d`, the code never takes more values than the stack holds. */
  predicate Runs(code: seq<Instr>, d: int)
  {
    if code == [] then d >= 0
    else d >= Pops(code[0]) && Runs(code[1..], d - Pops(code[0]) + Pushes(code[0]))
  }

  lemma {:induction false} DeltaAppend(a: seq<Instr>, b: seq<Instr>)
    ensures Delta(a + b) == Delta(a) + Delta(b)
  {
    if a != [] {
      assert (a + b)[0] == a[0];
      assert (a + b)[1..] == a[1..] + b;
      DeltaAppend(a[1..], b);
    } else {
      assert a + b == b;
    }
  }

  lemma {:induction false} RunsAppend(a: seq<Instr>, b: seq<Instr>, d: int)
    ensures Runs(a + b, d) <==> Runs(a, d) && Runs(b, d + Delta(a))
  {
    if a == [] {
      assert a + b == b;
      RunsNonNegative(b, d);
    } else {
      assert (a + b)[1..] == a[1..] + b;
      RunsAppend(a[1..], b, d - Pops(a[0]) + Pushes(a[0]));
    }
  }

  lemma {:induction false} RunsNonNegative(code: seq<Instr>, d: int)
    ensures Runs(code, d) ==> d >= 0
  {
    if code != [] {
      RunsNonNegative(code[1..], d - Pops(code[0]) + Pushes(code[0]));
    }
  }

  /** More values underneath never hurt. */
  lemma {:induction false} RunsDeeper(code: seq<Instr>, d: int, e: int)
    requires Runs(code, d) && d <= e
    ensures Runs(code, e)
  {
    if code != [] {
      RunsDeeper(code[1..], d - Pops(code[0]) + Pushes(code[0]), e - Pops(code[0]) + Pushes(code[0]));
    }
  }

  /** `EmitNot`: compare with zero. */
  const NotCode: seq<Instr> := [LdcI4_0, Ceq]

  /** The numeric table, shared by Int and Real. */
  function NumberAction(op: Operator): Option<seq<Instr>>
  {
    match op
    case Plus => Some([Add])
    case Minus => Some([Sub])
    case Times => Some([Mul])
    case Divide => Some([Div])
    case Modulus => Some([Rem])
    case Equals => Some([Ceq])
    case NotEquals => Some([Ceq] + NotCode)
    case Less => Some([Clt])
    case LessOrEquals => Some([Cgt] + NotCode)
    case More => Some([Cgt])
    case MoreOrEquals => Some([Clt] + NotCode)
    case _ => None
  }

  function StringAction(op: Operator): Option<seq<Instr>>
  {
    var compare := Call(Library(StringCompare));
    match op
    case Plus => Some([Call(Library(StringConcat))])
    case Equals => Some([Call(Library(StringEquals))])
    case NotEquals => Some([Call(Library(StringEquals))] + NotCode)
    case Less => Some([compare, LdcI4_0, Clt])
    case LessOrEquals => Some([compare, LdcI4_0, Cgt] + NotCode)
    case More => Some([compare, LdcI4_0, Cgt])
    case MoreOrEquals => Some([compare, LdcI4_0, Clt] + NotCode)
    case _ => None
  }

  function BooleanAction(op: Operator): Option<seq<Instr>>
  {
    match op
    case And => Some([Instr.And])
    case Or => Some([Instr.Or])
    case Not => Some(NotCode)
    case Equals => Some([Ceq])
    case NotEquals => Some([Ceq] + NotCode)
    case Less => Some([Clt])
    case LessOrEquals => Some([Cgt] + NotCode)
    case More => Some([Cgt])
    case MoreOrEquals => Some([Clt] + NotCode)
    case _ => None
  }

  /**
   * `EmitExprOperation`: the sequence for the operator in the table of the
   * type's basic type, chosen without looking at the array flag; `None`
   * where the dictionary lookup would throw.
   */
  function ExprOperation(op: Operator, t: TypeInfo): Option<seq<Instr>>
  {
    match t.basicType
    case Int => NumberAction(op)
    case Real => NumberAction(op)
    case String => StringAction(op)
    case Bool => BooleanAction(op)
    case Void => None
  }

  /** Int and Real share one table. */
  lemma NumbersShareTable(op: Operator, a: bool, b: bool)
    ensures ExprOperation(op, TypeInfo(Int, a)) == ExprOperation(op, TypeInfo(Real, b))
  {
  }

  /**
   * Code exists exactly for the operations the type rules give a type, with
   * one exception: the shared numeric table has a Real `%` that the Real
   * type table lacks. There is no Void row.
   */
  lemma OperationCodeMatchesTypeRules(op: Operator, t: TypeInfo)
    ensures t.basicType == Void ==> ExprOperation(op, t).None?
    ensures t.basicType in {Int, String, Bool} ==>
      (ExprOperation(op, t).Some? <==> op in TypeChecker.TypeBindings[t.basicType])
    ensures t.basicType == Real ==>
      (ExprOperation(op, t).Some? <==> op in TypeChecker.RealTypeBindings || op == Modulus)
  {
  }

  /** `<>`, `<=` and `>=` are the code of `=`, `>` and `<` followed by `EmitNot`, in every table. */
  lemma NegatedComparisons(t: TypeInfo)
    requires t.basicType != Void
    ensures ExprOperation(NotEquals, t) == Some(ExprOperation(Equals, t).value + NotCode)
    ensures ExprOperation(LessOrEquals, t) == Some(ExprOperation(More, t).value + NotCode)
    ensures ExprOperation(MoreOrEquals, t) == Some(ExprOperation(Less, t).value + NotCode)
  {
  }

  /** The effect of a sequence of one instruction. */
  lemma Single(i: Instr, d: int)
    ensures Delta([i]) == Pushes(i) - Pops(i)
    ensures Runs([i], d) <==> d >= Pops(i) && d - Pops(i) + Pushes(i) >= 0
  {
    assert [i][1..] == [];
  }

  /** A binary opcode, on its own or negated by `EmitNot`, takes two values and leaves one. */
  lemma BinaryEntryEffect(x: Instr, negated: bool)
    requires Pops(x) == 2 && Pushes(x) == 1
    ensures var code := if negated then [x] + NotCode else [x];
      Delta(code) == -1 && Runs(code, 2)
  {
    Single(x, 2);
    if negated {
      NotCodeEffect();
      DeltaAppend([x], NotCode);
      RunsAppend([x], NotCode, 2);
    }
  }

  lemma NotCodeEffect()
    ensures Delta(NotCode) == 0 && Runs(NotCode, 1)
  {
    assert NotCode == [LdcI4_0] + [Ceq];
    Single(LdcI4_0, 1);
    Single(Ceq, 2);
    DeltaAppend([LdcI4_0], [Ceq]);
    RunsAppend([LdcI4_0], [Ceq], 1);
  }

  /** `String.Compare`, then zero, then the opcode: two strings in, one truth value out. */
  lemma CompareBaseEffect(x: Instr)
    requires Pops(x) == 2 && Pushes(x) == 1
    ensures var base := [Call(Library(StringCompare)), LdcI4_0, x];
      Delta(base) == -1 && Runs(base, 2)
  {
    var c := Call(Library(StringCompare));
    assert Pops(c) == 2 && Pushes(c) == 1;
    var base := [c, LdcI4_0, x];
    assert base[1..] == [LdcI4_0, x] && base[1..][1..] == [x];
    Single(x, 2);
  }

  /** The same, possibly negated by `EmitNot`. */
  lemma CompareEntryEffect(x: Instr, negated: bool)
    requires Pops(x) == 2 && Pushes(x) == 1
    ensures var base := [Call(Library(StringCompare)), LdcI4_0, x];
      var code := if negated then base + NotCode else base;
      Delta(code) == -1 && Runs(code, 2)
  {
    var base := [Call(Library(StringCompare)), LdcI4_0, x];
    CompareBaseEffect(x);
    if negated {
      NotCodeEffect();
      DeltaAppend(base, NotCode);
      RunsAppend(base, NotCode, 2);
    }
  }

  /**
   * Every table entry for a binary operator takes the two operands and
   * leaves one result; `not` takes one value and leaves one.
   */
  lemma OperationStackEffect(op: Operator, t: TypeInfo)
    requires ExprOperation(op, t).Some?
    ensures op != Not ==> Delta(ExprOperation(op, t).value) == -1 && Runs(ExprOperation(op, t).value, 2)
    ensures op == Not ==> Delta(ExprOperation(op, t).value) == 0 && Runs(ExprOperation(op, t).value, 1)
  {
    match t.basicType
    case Int => NumberActionEffect(op);
    case Real => NumberActionEffect(op);
    case String => StringActionEffect(op);
    case Bool => BooleanActionEffect(op);
  }

  lemma NumberActionEffect(op: Operator)
    requires NumberAction(op).Some?
    ensures Delta(NumberAction(op).value) == -1 && Runs(NumberAction(op).value, 2)
  {
    match op
    case Plus => BinaryEntryEffect(Add, false);
    case Minus => BinaryEntryEffect(Sub, false);
    case Times => BinaryEntryEffect(Mul, false);
    case Divide => BinaryEntryEffect(Div, false);
    case Modulus => BinaryEntryEffect(Rem, false);
    case Equals => BinaryEntryEffect(Ceq, false);
    case NotEquals => BinaryEntryEffect(Ceq, true);
    case Less => BinaryEntryEffect(Clt, false);
    case LessOrEquals => BinaryEntryEffect(Cgt, true);
    case More => BinaryEntryEffect(Cgt, false);
    case MoreOrEquals => BinaryEntryEffect(Clt, true);
  }

  lemma StringActionEffect(op: Operator)
    requires StringAction(op).Some?
    ensures Delta(StringAction(op).value) == -1 && Runs(StringAction(op).value, 2)
  {
    match op
    case Plus => BinaryEntryEffect(Call(Library(StringConcat)), false);
    case Equals => BinaryEntryEffect(Call(Library(StringEquals)), false);
    case NotEquals => BinaryEntryEffect(Call(Library(StringEquals)), true);
    case Less => CompareEntryEffect(Clt, false);
    case LessOrEquals => CompareEntryEffect(Cgt, true);
    case More => CompareEntryEffect(Cgt, false);
    case MoreOrEquals => CompareEntryEffect(Clt, true);
  }

  lemma BooleanActionEffect(op: Operator)
    requires BooleanAction(op).Some?
    ensures op != Not ==> Delta(BooleanAction(op).value) == -1 && Runs(BooleanAction(op).value, 2)
    ensures op == Not ==> Delta(BooleanAction(op).value) == 0 && Runs(BooleanAction(op).value, 1)
  {
    match op
    case And => BinaryEntryEffect(Instr.And, false);
    case Or => BinaryEntryEffect(Instr.Or, false);
    case Not => NotCodeEffect();
    case Equals => BinaryEntryEffect(Ceq, false);
    case NotEquals => BinaryEntryEffect(Ceq, true);
    case Less => BinaryEntryEffect(Clt, false);
    case LessOrEquals => BinaryEntryEffect(Cgt, true);
    case More => BinaryEntryEffect(Cgt, false);
    case MoreOrEquals => BinaryEntryEffect(Clt, true);
  }

  /** The integer meaning of a truth value in CIL. */
  function BoolValue(b: bool): int { if b then 1 else 0 }

  /**
   * A reference meaning for the arithmetic and comparison opcodes over
   * integer values, the stack top last: `None` for any other instruction or
   * a stack too shallow. `and` and `or` are given only on truth values.
   */
  function Step(i: Instr, stack: seq<int>): Option<seq<int>>
  {
    if i.LdcI4_0? then Some(stack + [0])
    else if i.LdcI4_1? then Some(stack + [1])
    else if i.LdcI4? then Some(stack + [i.value])
    else if i.Neg? && |stack| >= 1 then Some(stack[..|stack| - 1] + [-stack[|stack| - 1]])
    else if (i.Add? || i.Sub? || i.Mul? || i.Ceq? || i.Cgt? || i.Clt? || i.And? || i.Or?) && |stack| >= 2 then
      var a, b := stack[|stack| - 2], stack[|stack| - 1];
      var rest := stack[..|stack| - 2];
      if i.Add? then Some(rest + [a + b])
      else if i.Sub? then Some(rest + [a - b])
      else if i.Mul? then Some(rest + [a * b])
      else if i.Ceq? then Some(rest + [BoolValue(a == b)])
      else if i.Cgt? then Some(rest + [BoolValue(a > b)])
      else if i.Clt? then Some(rest + [BoolValue(a < b)])
      else if a in {0, 1} && b in {0, 1} then
        if i.And? then Some(rest + [BoolValue(a == 1 && b == 1)])
        else Some(rest + [BoolValue(a == 1 || b == 1)])
      else None
    else None
  }

  function Exec(code: seq<Instr>, stack: seq<int>): Option<seq<int>>
  {
    if code == [] then Some(stack)
    else match Step(code[0], stack)
      case None => None
      case Some(next) => Exec(code[1..], next)
  }

  lemma {:induction false} ExecAppend(a: seq<Instr>, b: seq<Instr>, stack: seq<int>)
    ensures Exec(a + b, stack) == if Exec(a, stack).None? then None else Exec(b, Exec(a, stack).value)
  {
    if a == [] {
      assert a + b == b;
    } else {
      assert (a + b)[0] == a[0];
      assert (a + b)[1..] == a[1..] + b;
      if Step(a[0], stack).Some? {
        ExecAppend(a[1..], b, Step(a[0], stack).value);
      }
    }
  }

  lemma ExecSingle(i: Instr, stack: seq<int>)
    ensures Exec([i], stack) == Step(i, stack)
  {
    assert [i][1..] == [];
  }

  /** A binary opcode on a stack of exactly two values. */
  lemma StepOnPair(i: Instr, a: int, b: int)
    requires i.Add? || i.Sub? || i.Mul? || i.Ceq? || i.Cgt? || i.Clt?
    ensures i.Add? ==> Step(i, [a, b]) == Some([a + b])
    ensures i.Sub? ==> Step(i, [a, b]) == Some([a - b])
    ensures i.Mul? ==> Step(i, [a, b]) == Some([a * b])
    ensures i.Ceq? ==> Step(i, [a, b]) == Some([BoolValue(a == b)])
    ensures i.Cgt? ==> Step(i, [a, b]) == Some([BoolValue(a > b)])
    ensures i.Clt? ==> Step(i, [a, b]) == Some([BoolValue(a < b)])
  {
    var s := [a, b];
    assert s[|s| - 2] == a && s[|s| - 1] == b;
    var r := if i.Add? then a + b else if i.Sub? then a - b else if i.Mul? then a * b
      else if i.Ceq? then BoolValue(a == b) else if i.Cgt? then BoolValue(a > b) else BoolValue(a < b);
    assert s[..|s| - 2] + [r] == [r];
  }

  /** `EmitNot` turns a truth value into its negation. */
  lemma NotCodeNegates(b: bool)
    ensures Exec(NotCode, [BoolValue(b)]) == Some([BoolValue(!b)])
  {
    assert NotCode == [LdcI4_0] + [Ceq];
    ExecSingle(LdcI4_0, [BoolValue(b)]);
    assert [BoolValue(b)] + [0] == [BoolValue(b), 0];
    ExecSingle(Ceq, [BoolValue(b), 0]);
    StepOnPair(Ceq, BoolValue(b), 0);
    ExecAppend([LdcI4_0], [Ceq], [BoolValue(b)]);
  }

  /** The comparison each relational operator means. */
  predicate Compares(op: Operator, x: int, y: int)
    requires IsRelational(op)
  {
    match op
    case Equals => x == y
    case NotEquals => x != y
    case Less => x < y
    case LessOrEquals => x <= y
    case More => x > y
    case MoreOrEquals => x >= y
  }

  /** A binary opcode applied to the operands [x, y], possibly negated by `EmitNot`. */
  lemma BinaryEntryComputes(x: Instr, negated: bool, a: int, b: int, r: bool)
    requires Step(x, [a, b]) == Some([BoolValue(r)])
    ensures Exec(if negated then [x] + NotCode else [x], [a, b]) == Some([BoolValue(r != negated)])
  {
    ExecSingle(x, [a, b]);
    if negated {
      ExecAppend([x], NotCode, [a, b]);
      NotCodeNegates(r);
    }
  }

  /** With the left operand pushed first, the numeric and bool tables compute each comparison. */
  lemma ComparisonCodeComputes(op: Operator, t: TypeInfo, x: int, y: int)
    requires IsRelational(op) && (t.basicType == Int || t.basicType == Bool)
    ensures Exec(ExprOperation(op, t).value, [x, y]) == Some([BoolValue(Compares(op, x, y))])
  {
    match op
    case Equals => StepOnPair(Ceq, x, y); BinaryEntryComputes(Ceq, false, x, y, x == y);
    case NotEquals => StepOnPair(Ceq, x, y); BinaryEntryComputes(Ceq, true, x, y, x == y);
    case Less => StepOnPair(Clt, x, y); BinaryEntryComputes(Clt, false, x, y, x < y);
    case LessOrEquals => StepOnPair(Cgt, x, y); BinaryEntryComputes(Cgt, true, x, y, x > y);
    case More => StepOnPair(Cgt, x, y); BinaryEntryComputes(Cgt, false, x, y, x > y);
    case MoreOrEquals => StepOnPair(Clt, x, y); BinaryEntryComputes(Clt, true, x, y, x < y);
  }

  /** `+ - *` of the numeric table compute sum, difference and product (32-bit overflow not modelled). */
  lemma ArithmeticCodeComputes(x: int, y: int)
    ensures Exec(NumberAction(Plus).value, [x, y]) == Some([x + y])
    ensures Exec(NumberAction(Minus).value, [x, y]) == Some([x - y])
    ensures Exec(NumberAction(Times).value, [x, y]) == Some([x * y])
  {
    ExecSingle(Add, [x, y]);
    ExecSingle(Sub, [x, y]);
    ExecSingle(Mul, [x, y]);
    StepOnPair(Add, x, y);
    StepOnPair(Sub, x, y);
    StepOnPair(Mul, x, y);
  }

  /** On truth values, `and`, `or` and `not` of the bool table are conjunction, disjunction and negation. */
  lemma BooleanCodeComputes(p: bool, q: bool)
    ensures Exec(BooleanAction(Operator.And).value, [BoolValue(p), BoolValue(q)]) == Some([BoolValue(p && q)])
    ensures Exec(BooleanAction(Operator.Or).value, [BoolValue(p), BoolValue(q)]) == Some([BoolValue(p || q)])
    ensures Exec(BooleanAction(Not).value, [BoolValue(p)]) == Some([BoolValue(!p)])
  {
    var pair := [BoolValue(p), BoolValue(q)];
    assert pair[|pair| - 2] == BoolValue(p) && pair[|pair| - 1] == BoolValue(q);
    assert pair[..|pair| - 2] + [BoolValue(p && q)] == [BoolValue(p && q)];
    assert pair[..|pair| - 2] + [BoolValue(p || q)] == [BoolValue(p || q)];
    ExecSingle(Instr.And, [BoolValue(p), BoolValue(q)]);
    ExecSingle(Instr.Or, [BoolValue(p), BoolValue(q)]);
    NotCodeNegates(p);
  }
}
