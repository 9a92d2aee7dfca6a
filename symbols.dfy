/**
 * Types and symbols (Symbol.cs). `TypeInfo` is a basic type with an array
 * flag; the symbol classes become one datatype whose `kind` tells them apart.
 */
module Symbols {
  import opened AstEnums

  datatype TypeInfo = TypeInfo(basicType: ExprType, isArray: bool)

  /** The `TypeInfo` constructor, whose array flag defaults to false. */
  function NewTypeInfo(basicType: ExprType, isArray: bool := false): (t: TypeInfo)
    ensures t.basicType == basicType && t.isArray == isArray
  {
    TypeInfo(basicType, isArray)
  }

  /** Field-wise comparison; since a `TypeInfo` is nothing but these fields, this is equality. */
  predicate SameAs(t: TypeInfo, comp: TypeInfo)
  {
    t.basicType == comp.basicType && t.isArray == comp.isArray
  }

  function TypeInfoToString(t: TypeInfo): string
  {
    if t.isArray then ExprTypeName(t.basicType) + "[]" else ExprTypeName(t.basicType)
  }

  lemma SameAsIsEquality(a: TypeInfo, b: TypeInfo)
    ensures SameAs(a, b) <==> a == b
    ensures SameAs(a, a)
    ensures SameAs(a, b) <==> SameAs(b, a)
  {
  }

  lemma {:induction false} TypeInfoToStringShape(t: TypeInfo)
    ensures t.isArray ==> TypeInfoToString(t) == ExprTypeName(t.basicType) + "[]"
    ensures !t.isArray ==> TypeInfoToString(t) == ExprTypeName(t.basicType)
    ensures TypeInfoToString(TypeInfo(Int, true)) == "Int[]"
  {
  }

  /** Different types are always printed differently in diagnostics. */
  lemma TypeInfoToStringInjective(a: TypeInfo, b: TypeInfo)
    requires TypeInfoToString(a) == TypeInfoToString(b)
    ensures a == b
  {
    var sa, sb := TypeInfoToString(a), TypeInfoToString(b);
    // the first letter tells the basic type, a closing ']' tells an array
    assert sa[0] == sb[0];
    assert sa[|sa| - 1] == sb[|sb| - 1];
  }

  /**
   * What kind of symbol it is. `GlobalKind` is the code generator's
   * `GlobalSymbol`, a variable stored in a static field; callables carry
   * their parameter symbols and the free variables closure conversion adds.
   */
  datatype SymbolKind =
    | VariableKind
    | GlobalKind
    | ProcedureKind(parameters: seq<Symbol>, freeVariables: seq<Symbol>)
    | FunctionKind(parameters: seq<Symbol>, freeVariables: seq<Symbol>)
    | ParameterKind(isReference: bool)

  datatype Symbol = Symbol(name: string, ty: TypeInfo, scope: int, kind: SymbolKind)
  {
    predicate IsCallable() { kind.ProcedureKind? || kind.FunctionKind? }

    predicate IsVariable() { kind.VariableKind? || kind.GlobalKind? || kind.ParameterKind? }

    function Parameters(): seq<Symbol>
      requires IsCallable()
    {
      kind.parameters
    }
  }

  function VariableSymbol(name: string, basicType: ExprType, isArrayType: bool, scope: int): (s: Symbol)
    ensures s.kind == VariableKind && s.name == name && s.scope == scope
    ensures s.ty == NewTypeInfo(basicType, isArrayType)
  {
    Symbol(name, TypeInfo(basicType, isArrayType), scope, VariableKind)
  }

  /** A procedure returns nothing: its type is always the non-array `Void`. */
  function ProcedureSymbol(name: string, parameters: seq<Symbol>, scope: int): (s: Symbol)
    ensures s.kind.ProcedureKind? && s.IsCallable() && s.Parameters() == parameters
    ensures s.name == name && s.scope == scope && s.ty == NewTypeInfo(Void)
    ensures s.kind.freeVariables == []
  {
    Symbol(name, TypeInfo(Void, false), scope, ProcedureKind(parameters, []))
  }

  function FunctionSymbol(name: string, returnType: ExprType, isArrayType: bool, parameters: seq<Symbol>, scope: int): (s: Symbol)
    ensures s.kind.FunctionKind? && s.IsCallable() && s.Parameters() == parameters
    ensures s.name == name && s.scope == scope && s.ty == NewTypeInfo(returnType, isArrayType)
    ensures s.kind.freeVariables == []
  {
    Symbol(name, TypeInfo(returnType, isArrayType), scope, FunctionKind(parameters, []))
  }

  /** A parameter keeps the by-reference flag it was declared with. */
  function ParameterSymbol(name: string, basicType: ExprType, isArrayType: bool, isReference: bool, scope: int): (s: Symbol)
    ensures s.kind.ParameterKind? && s.kind.isReference == isReference
    ensures s.name == name && s.scope == scope && s.ty == NewTypeInfo(basicType, isArrayType)
  {
    Symbol(name, TypeInfo(basicType, isArrayType), scope, ParameterKind(isReference))
  }
}
