/**
 * The type rules (TypeChecker.cs): the per-type operator tables, the common
 * type of two basic types with Int widening to Real, the result type of a
 * binary or unary operation, and assignment compatibility.
 */
module TypeChecker {
  import opened AstEnums
  import opened Symbols

  const IntTypeBindings: map<Operator, ExprType> := map[
    Plus := Int, Minus := Int, Divide := Real, Modulus := Int, Times := Int,
    Equals := Bool, NotEquals := Bool, Less := Bool, LessOrEquals := Bool,
    More := Bool, MoreOrEquals := Bool]

  const RealTypeBindings: map<Operator, ExprType> := map[
    Plus := Real, Minus := Real, Divide := Real, Times := Real,
    Equals := Bool, NotEquals := Bool, Less := Bool, LessOrEquals := Bool,
    More := Bool, MoreOrEquals := Bool]

  const BoolTypeBindings: map<Operator, ExprType> := map[
    Equals := Bool, NotEquals := Bool, And := Bool, Or := Bool, Not := Bool,
    Less := Bool, LessOrEquals := Bool, More := Bool, MoreOrEquals := Bool]

  const StringTypeBindings: map<Operator, ExprType> := map[
    Plus := String, Equals := Bool, NotEquals := Bool, Less := Bool,
    LessOrEquals := Bool, More := Bool, MoreOrEquals := Bool]

  /** The table of each basic type; `Void` has none. */
  const TypeBindings: map<ExprType, map<Operator, ExprType>> := map[
    Int := IntTypeBindings, Real := RealTypeBindings,
    Bool := BoolTypeBindings, String := StringTypeBindings]

  /**
   * The implicit conversions of the language, as an independent reference for
   * the rules below: a value of `from` may stand where a non-`Void` `to` is
   * expected when the types are equal or `from` is Int and `to` is Real.
   */
  predicate Converts(from: ExprType, to: ExprType)
  {
    to != Void && (from == to || (from == Int && to == Real))
  }

  /**
   * The least type both operands convert to, or `Void` when there is none.
   */
  function FindCommonType(type1: ExprType, type2: ExprType): (r: ExprType)
    ensures r != Void ==> Converts(type1, r) && Converts(type2, r)
    ensures r != Void ==> forall d :: Converts(type1, d) && Converts(type2, d) ==> Converts(r, d)
    ensures r == Void ==> forall d :: !(Converts(type1, d) && Converts(type2, d))
  {
    if type1 == type2 then type1
    else if (type1 == Int && type2 == Real) || (type1 == Real && type2 == Int) then Real
    else Void
  }

  lemma FindCommonTypeCases(t: ExprType, u: ExprType)
    ensures FindCommonType(t, t) == t
    ensures FindCommonType(Int, Real) == Real && FindCommonType(Real, Int) == Real
    ensures FindCommonType(t, u) == FindCommonType(u, t)
    ensures t != u && {t, u} != {Int, Real} ==> FindCommonType(t, u) == Void
  {
  }

  /** Result type of `type1 op type2`. */
  function FindOpProductionType(type1: TypeInfo, type2: TypeInfo, op: Operator): (r: ExprType)
    ensures type1.basicType == Void || type2.basicType == Void || type1.isArray || type2.isArray ==> r == Void
    ensures r != Void ==> exists c :: c in TypeBindings && c == FindCommonType(type1.basicType, type2.basicType)
                                      && op in TypeBindings[c] && TypeBindings[c][op] == r
    ensures var c := FindCommonType(type1.basicType, type2.basicType);
            !type1.isArray && !type2.isArray && c in TypeBindings && op in TypeBindings[c] ==>
              r == TypeBindings[c][op] && r != Void
  {
    if type1.basicType == Void || type2.basicType == Void || type1.isArray || type2.isArray then Void
    else
      var common := FindCommonType(type1.basicType, type2.basicType);
      if common != Void && op in TypeBindings[common] then TypeBindings[common][op] else Void
  }

  /** Result type of the unary `op type`, looked up in the operand's own table. */
  function FindUnaryOpProductionType(t: TypeInfo, op: Operator): (r: ExprType)
    ensures t.basicType == Void || t.isArray ==> r == Void
    ensures r != Void ==> t.basicType in TypeBindings && op in TypeBindings[t.basicType]
                          && TypeBindings[t.basicType][op] == r
    ensures !t.isArray && t.basicType in TypeBindings && op in TypeBindings[t.basicType] ==>
              r == TypeBindings[t.basicType][op] && r != Void
  {
    if t.basicType == Void || t.isArray then Void
    else
      assert t.basicType.Int? || t.basicType.Real? || t.basicType.Bool? || t.basicType.String?;
      if op in TypeBindings[t.basicType] then TypeBindings[t.basicType][op]
      else Void
  }

  /**
   * Whether a value of `valueType` may be assigned to a variable of
   * `varType`: arrays only to the very same type, scalars by `Converts`.
   */
  function TypeCheckAssign(varType: TypeInfo, valueType: TypeInfo): (r: bool)
    ensures varType.isArray || valueType.isArray ==> (r <==> SameAs(varType, valueType))
    ensures !varType.isArray && !valueType.isArray ==> (r <==> Converts(valueType.basicType, varType.basicType))
  {
    if varType.isArray || valueType.isArray then SameAs(varType, valueType)
    else
      var common := FindCommonType(varType.basicType, valueType.basicType);
      common != Void && varType.basicType == common
  }

  lemma BinaryExamples()
    ensures FindOpProductionType(TypeInfo(Int, false), TypeInfo(Int, false), Divide) == Real
    ensures FindOpProductionType(TypeInfo(Int, false), TypeInfo(Real, false), Less) == Bool
    ensures FindOpProductionType(TypeInfo(Real, false), TypeInfo(Int, false), Modulus) == Void
    ensures FindOpProductionType(TypeInfo(Int, false), TypeInfo(Real, false), Modulus) == Void
    ensures FindOpProductionType(TypeInfo(String, false), TypeInfo(String, false), Plus) == String
  {
  }

  /** Comparisons of two operands with a common type always give Bool. */
  lemma RelationalsGiveBool(t: TypeInfo, u: TypeInfo, op: Operator)
    requires IsRelational(op) && !t.isArray && !u.isArray
    requires FindCommonType(t.basicType, u.basicType) != Void
    ensures FindOpProductionType(t, u, op) == Bool
  {
  }

  /** `not` applies to a non-array Bool alone, and gives Bool. */
  lemma NotOnlyOnBool(t: TypeInfo)
    ensures FindUnaryOpProductionType(t, Not) != Void <==> t == TypeInfo(Bool, false)
    ensures FindUnaryOpProductionType(t, Not) != Void ==> FindUnaryOpProductionType(t, Not) == Bool
  {
  }

  lemma AssignExamples()
    ensures TypeCheckAssign(TypeInfo(Real, false), TypeInfo(Int, false))
    ensures !TypeCheckAssign(TypeInfo(Int, false), TypeInfo(Real, false))
    ensures !TypeCheckAssign(TypeInfo(Int, false), TypeInfo(String, false))
    ensures !TypeCheckAssign(TypeInfo(Int, true), TypeInfo(Int, false))
    ensures TypeCheckAssign(TypeInfo(Int, true), TypeInfo(Int, true))
  {
  }
}
