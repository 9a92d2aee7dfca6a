/**
 * The scoped symbol table (SymbolTable.cs): a counter issuing scope ids, a
 * stack of the live scopes and, per name, the list of its bindings. Scope 0
 * holds the predefined names and is never pushed.
 *
 * `TableState` and the functions over it are the reference semantics; the
 * class `SymbolTable` is the imperative table, proved against them.
 */
module SymbolTables {
  import opened Wrappers
  import opened AstEnums
  import opened Symbols

  /** Abstract state of a table; the top of the scope stack is the last element. */
  datatype TableState = TableState(newScopeId: int, scopeStack: seq<int>, symbols: map<string, seq<Symbol>>)

  /** The scope of the stack top; an empty stack counts as the predefined scope 0. */
  function Current(t: TableState): int
  {
    if |t.scopeStack| == 0 then 0 else t.scopeStack[|t.scopeStack| - 1]
  }

  function Bindings(t: TableState, name: string): seq<Symbol>
  {
    if name in t.symbols then t.symbols[name] else []
  }

  predicate DeclaredInCurrent(t: TableState, name: string)
  {
    exists k :: 0 <= k < |Bindings(t, name)| && Bindings(t, name)[k].scope == Current(t)
  }

  predicate Live(t: TableState, scope: int)
  {
    scope != 0 && scope in t.scopeStack
  }

  /** The last binding of `list` made in a scope that is still on `stack`. */
  function LastLive(list: seq<Symbol>, stack: seq<int>): (r: Option<Symbol>)
    ensures r.Some? ==> r.value in list && r.value.scope != 0 && r.value.scope in stack
    ensures r.None? ==> forall k :: 0 <= k < |list| ==> list[k].scope == 0 || list[k].scope !in stack
  {
    if list == [] then None
    else if list[|list| - 1].scope != 0 && list[|list| - 1].scope in stack then Some(list[|list| - 1])
    else LastLive(list[..|list| - 1], stack)
  }

  /** The last binding of `list` made in the predefined scope. */
  function LastPredefined(list: seq<Symbol>): (r: Option<Symbol>)
    ensures r.Some? ==> r.value in list && r.value.scope == 0
    ensures r.None? ==> forall k :: 0 <= k < |list| ==> list[k].scope != 0
  {
    if list == [] then None
    else if list[|list| - 1].scope == 0 then Some(list[|list| - 1])
    else LastPredefined(list[..|list| - 1])
  }

  /** What `Lookup` finds: a live binding if there is one, else a predefined one. */
  function Find(t: TableState, name: string): (r: Option<Symbol>)
    ensures r.Some? ==> r.value in Bindings(t, name) && (Live(t, r.value.scope) || r.value.scope == 0)
    ensures r.None? <==> forall k :: 0 <= k < |Bindings(t, name)| ==> !Live(t, Bindings(t, name)[k].scope) && Bindings(t, name)[k].scope != 0
  {
    var best := LastLive(Bindings(t, name), t.scopeStack);
    if best.Some? then best else LastPredefined(Bindings(t, name))
  }

  /** `AddSymbol`, with the new binding appended to the name's list. */
  function Add(t: TableState, name: string, ty: TypeInfo, kind: SymbolKind): (r: (bool, TableState))
    ensures !r.0 <==> DeclaredInCurrent(t, name)
    ensures !r.0 ==> r.1 == t
    ensures r.0 ==> r.1.symbols == t.symbols[name := Bindings(t, name) + [Symbol(name, ty, Current(t), kind)]]
    ensures r.1.scopeStack == t.scopeStack && r.1.newScopeId == t.newScopeId
  {
    if DeclaredInCurrent(t, name) then (false, t)
    else (true, t.(symbols := t.symbols[name := Bindings(t, name) + [Symbol(name, ty, Current(t), kind)]]))
  }

  /**
   * `AddSymbol` as written: after the duplicate check, the name's whole list
   * is replaced by the one new binding, so older bindings are lost.
   */
  function AddAsWritten(t: TableState, name: string, ty: TypeInfo, kind: SymbolKind): (r: (bool, TableState))
    ensures !r.0 <==> DeclaredInCurrent(t, name)
    ensures !r.0 ==> r.1 == t
    ensures r.0 ==> Bindings(r.1, name) == [Symbol(name, ty, Current(t), kind)]
    ensures r.0 ==> forall n :: n != name ==> Bindings(r.1, n) == Bindings(t, n)
    ensures r.1.scopeStack == t.scopeStack && r.1.newScopeId == t.newScopeId
  {
    if DeclaredInCurrent(t, name) then (false, t)
    else (true, t.(symbols := t.symbols[name := [Symbol(name, ty, Current(t), kind)]]))
  }

  /** `EnterScope`: issue the next id and push it. */
  function Enter(t: TableState): (r: (int, TableState))
    ensures r.0 == t.newScopeId + 1 && r.1.newScopeId == r.0
    ensures r.1.scopeStack == t.scopeStack + [r.0] && Current(r.1) == r.0
    ensures r.1.symbols == t.symbols
  {
    (t.newScopeId + 1, t.(newScopeId := t.newScopeId + 1, scopeStack := t.scopeStack + [t.newScopeId + 1]))
  }

  /** `LeaveScope`: pop the top scope; the bindings are kept. */
  function Leave(t: TableState): (r: TableState)
    requires |t.scopeStack| > 0
    ensures r.scopeStack == t.scopeStack[..|t.scopeStack| - 1]
    ensures r.symbols == t.symbols && r.newScopeId == t.newScopeId
  {
    t.(scopeStack := t.scopeStack[..|t.scopeStack| - 1])
  }

  /**
   * The table the constructor builds: four predefined names in scope 0.
   * `true` and `false` are variables held in static fields, the code
   * generator's `GlobalSymbol`.
   */
  const TrueSymbol: Symbol := Symbol("true", TypeInfo(Bool, false), 0, GlobalKind)
  const FalseSymbol: Symbol := Symbol("false", TypeInfo(Bool, false), 0, GlobalKind)
  const WritelnSymbol: Symbol := Symbol("writeln", TypeInfo(Void, false), 0, ProcedureKind([], []))
  const ReadSymbol: Symbol := Symbol("read", TypeInfo(Void, false), 0, ProcedureKind([], []))

  const InitialTable: TableState := TableState(0, [], map[
    "true" := [TrueSymbol], "false" := [FalseSymbol],
    "writeln" := [WritelnSymbol], "read" := [ReadSymbol]])

  /**
   * The invariant the table keeps: the live scopes are increasing from the
   * bottom of the stack, every id in use has been issued, and within each
   * name's list the live bindings appear in the order of their scopes.
   */
  ghost predicate WellScoped(t: TableState)
  {
    && t.newScopeId >= 0
    && (forall i, j :: 0 <= i < j < |t.scopeStack| ==> t.scopeStack[i] < t.scopeStack[j])
    && (forall i :: 0 <= i < |t.scopeStack| ==> 1 <= t.scopeStack[i] <= t.newScopeId)
    && (forall n :: n in t.symbols ==> BindingsWellScoped(t.symbols[n], n, t))
  }

  ghost predicate BindingsWellScoped(list: seq<Symbol>, name: string, t: TableState)
  {
    && (forall k :: 0 <= k < |list| ==> list[k].name == name && 0 <= list[k].scope <= t.newScopeId)
    && (forall i, j :: 0 <= i < j < |list| && Live(t, list[i].scope) && Live(t, list[j].scope) ==>
          list[i].scope < list[j].scope)
  }

  /** Adding the four predefined names to an empty table in scope 0 gives `InitialTable`. */
  lemma PredefinedByAdding()
    ensures var t0 := TableState(0, [], map[]);
            var t1 := Add(t0, "true", TypeInfo(Bool, false), GlobalKind).1;
            var t2 := Add(t1, "false", TypeInfo(Bool, false), GlobalKind).1;
            var t3 := Add(t2, "writeln", TypeInfo(Void, false), ProcedureKind([], [])).1;
            Add(t3, "read", TypeInfo(Void, false), ProcedureKind([], [])).1 == InitialTable
  {
    var t0 := TableState(0, [], map[]);
    AddFresh(t0, "true", TypeInfo(Bool, false), GlobalKind);
    var t1 := Add(t0, "true", TypeInfo(Bool, false), GlobalKind).1;
    AddFresh(t1, "false", TypeInfo(Bool, false), GlobalKind);
    var t2 := Add(t1, "false", TypeInfo(Bool, false), GlobalKind).1;
    AddFresh(t2, "writeln", TypeInfo(Void, false), ProcedureKind([], []));
    var t3 := Add(t2, "writeln", TypeInfo(Void, false), ProcedureKind([], [])).1;
    AddFresh(t3, "read", TypeInfo(Void, false), ProcedureKind([], []));
  }

  /** Declaring a name that has no entry yet always succeeds with a one-element list. */
  lemma AddFresh(t: TableState, name: string, ty: TypeInfo, kind: SymbolKind)
    requires name !in t.symbols
    ensures Add(t, name, ty, kind) == (true, t.(symbols := t.symbols[name := [Symbol(name, ty, Current(t), kind)]]))
  {
    assert Bindings(t, name) + [Symbol(name, ty, Current(t), kind)] == [Symbol(name, ty, Current(t), kind)];
  }

  /** Construction registers `true`/`false` as Bool variables in static fields and `writeln`/`read` as Void procedures. */
  lemma InitialTableContents()
    ensures WellScoped(InitialTable)
    ensures Find(InitialTable, "true") == Some(TrueSymbol) && Find(InitialTable, "false") == Some(FalseSymbol)
    ensures Find(InitialTable, "writeln") == Some(WritelnSymbol) && Find(InitialTable, "read") == Some(ReadSymbol)
    ensures TrueSymbol.ty == FalseSymbol.ty == TypeInfo(Bool, false) && TrueSymbol.kind == FalseSymbol.kind == GlobalKind
    ensures WritelnSymbol.ty == ReadSymbol.ty == TypeInfo(Void, false)
    ensures WritelnSymbol.kind.ProcedureKind? && ReadSymbol.kind.ProcedureKind?
  {
    assert Bindings(InitialTable, "true") == [TrueSymbol];
    assert Bindings(InitialTable, "false") == [FalseSymbol];
    assert Bindings(InitialTable, "writeln") == [WritelnSymbol];
    assert Bindings(InitialTable, "read") == [ReadSymbol];
  }

  lemma {:induction false} EnterKeepsWellScoped(t: TableState)
    requires WellScoped(t)
    ensures WellScoped(Enter(t).1)
  {
    var (id, t') := Enter(t);
    forall n | n in t'.symbols ensures BindingsWellScoped(t'.symbols[n], n, t') {
      var list := t.symbols[n];
      assert BindingsWellScoped(list, n, t);
      forall k | 0 <= k < |list| && Live(t', list[k].scope) ensures Live(t, list[k].scope) {
        assert list[k].scope != id;
      }
    }
  }

  lemma LeaveKeepsWellScoped(t: TableState)
    requires WellScoped(t) && |t.scopeStack| > 0
    ensures WellScoped(Leave(t))
  {
    var t' := Leave(t);
    forall n | n in t'.symbols ensures BindingsWellScoped(t'.symbols[n], n, t') {
      assert BindingsWellScoped(t.symbols[n], n, t);
    }
  }

  lemma AddKeepsWellScoped(t: TableState, name: string, ty: TypeInfo, kind: SymbolKind)
    requires WellScoped(t)
    ensures WellScoped(Add(t, name, ty, kind).1)
  {
    var (ok, t') := Add(t, name, ty, kind);
    if ok {
      var list := Bindings(t, name);
      var list' := list + [Symbol(name, ty, Current(t), kind)];
      assert name in t.symbols ==> BindingsWellScoped(list, name, t);
      forall i, j | 0 <= i < j < |list'| && Live(t', list'[i].scope) && Live(t', list'[j].scope)
        ensures list'[i].scope < list'[j].scope
      {
        if j == |list| {
          // the new binding is in the top scope and no earlier binding is
          var top := |t.scopeStack| - 1;
          assert list'[i].scope != Current(t);
          var p :| 0 <= p < |t.scopeStack| && t.scopeStack[p] == list'[i].scope;
          assert p < top;
        }
      }
      assert BindingsWellScoped(list', name, t');
    }
  }

  /** A name without an entry is not found. */
  lemma FindUnknown(t: TableState, name: string)
    requires name !in t.symbols
    ensures Find(t, name) == None
  {
  }

  /**
   * A binding in a live scope wins over a predefined one; a predefined
   * binding is found only when no binding of the name is live.
   */
  lemma FindPrefersLive(t: TableState, name: string)
    ensures (exists k :: 0 <= k < |Bindings(t, name)| && Live(t, Bindings(t, name)[k].scope)) ==>
              Find(t, name).Some? && Live(t, Find(t, name).value.scope)
    ensures Find(t, name).Some? && Find(t, name).value.scope == 0 ==>
              forall k :: 0 <= k < |Bindings(t, name)| ==> !Live(t, Bindings(t, name)[k].scope)
    ensures Find(t, name).Some? ==> Find(t, name).value in Bindings(t, name)
    ensures Find(t, name).Some? ==> Live(t, Find(t, name).value.scope) || Find(t, name).value.scope == 0
  {
  }

  /** In a well-scoped table the binding found is the one of the innermost live scope. */
  lemma FindIsInnermost(t: TableState, name: string)
    requires WellScoped(t)
    requires Find(t, name).Some? && Live(t, Find(t, name).value.scope)
    ensures forall k :: 0 <= k < |Bindings(t, name)| && Live(t, Bindings(t, name)[k].scope) ==>
              Bindings(t, name)[k].scope <= Find(t, name).value.scope
  {
    var list := Bindings(t, name);
    assert name in t.symbols;
    assert BindingsWellScoped(list, name, t);
    var i := LastLiveIsLastIndex(list, t.scopeStack);
  }

  /** The binding `LastLive` finds sits at an index `i` after which no binding is live. */
  lemma {:induction false} LastLiveIsLastIndex(list: seq<Symbol>, stack: seq<int>) returns (i: nat)
    requires LastLive(list, stack).Some?
    ensures i < |list| && list[i] == LastLive(list, stack).value
    ensures forall k :: i < k < |list| ==> list[k].scope == 0 || list[k].scope !in stack
  {
    var last := |list| - 1;
    if list[last].scope != 0 && list[last].scope in stack {
      i := last;
    } else {
      var front := list[..last];
      assert LastLive(list, stack) == LastLive(front, stack);
      i := LastLiveIsLastIndex(front, stack);
      assert list[i] == front[i];
      forall k | i < k < |list|
        ensures list[k].scope == 0 || list[k].scope !in stack
      {
        if k < last {
          assert list[k] == front[k];
        }
      }
    }
  }

  /**
   * Block scoping: a name declared in a scope entered and then left is, after
   * leaving, looked up exactly as before it was declared.
   */
  lemma {:induction false} InnerDeclarationVanishes(t: TableState, name: string, ty: TypeInfo, kind: SymbolKind)
    requires WellScoped(t)
    ensures var inner := Enter(t).1;
            Find(Leave(Add(inner, name, ty, kind).1), name) == Find(t, name)
  {
    var inner := Enter(t).1;
    var id := Enter(t).0;
    var after := Leave(Add(inner, name, ty, kind).1);
    assert after.scopeStack == t.scopeStack;
    var list := Bindings(t, name);
    assert !DeclaredInCurrent(inner, name) by {
      if name in t.symbols {
        assert BindingsWellScoped(t.symbols[name], name, t);
      }
    }
    assert Bindings(after, name) == list + [Symbol(name, ty, id, kind)];
    assert id !in t.scopeStack;
    assert LastLive(Bindings(after, name), after.scopeStack) == LastLive(list, t.scopeStack) by {
      assert Bindings(after, name)[..|list|] == list;
    }
    assert LastPredefined(Bindings(after, name)) == LastPredefined(list) by {
      assert Bindings(after, name)[..|list|] == list;
    }
  }

  /**
   * Block scoping with `AddAsWritten`: a name declared in a scope entered and
   * then left is, after leaving, not found at all, whatever it named before;
   * every other name is looked up as before.
   */
  lemma InnerDeclarationVanishesAsWritten(t: TableState, name: string, ty: TypeInfo, kind: SymbolKind)
    requires WellScoped(t)
    ensures var after := Leave(AddAsWritten(Enter(t).1, name, ty, kind).1);
            && after.scopeStack == t.scopeStack
            && Find(after, name) == None
            && forall n :: n != name ==> Find(after, n) == Find(t, n)
  {
    var inner := Enter(t).1;
    var id := Enter(t).0;
    assert !DeclaredInCurrent(inner, name) by {
      if name in t.symbols {
        assert BindingsWellScoped(t.symbols[name], name, t);
      }
    }
    var after := Leave(AddAsWritten(inner, name, ty, kind).1);
    assert Bindings(after, name) == [Symbol(name, ty, id, kind)];
    assert id !in t.scopeStack;
  }

  /** A successful declaration is immediately what `Lookup` finds, and other names are unaffected. */
  lemma AddThenFind(t: TableState, name: string, ty: TypeInfo, kind: SymbolKind)
    requires WellScoped(t) && |t.scopeStack| > 0
    requires Add(t, name, ty, kind).0
    ensures Find(Add(t, name, ty, kind).1, name) == Some(Symbol(name, ty, Current(t), kind))
    ensures forall n :: n != name ==> Find(Add(t, name, ty, kind).1, n) == Find(t, n)
  {
  }

  /** `x : int` declared in the program block, scope 1. */
  const OuterX: Symbol := Symbol("x", TypeInfo(Int, false), 1, VariableKind)

  /** The table inside the program block once `x` is declared there, by either version of `AddSymbol`. */
  const OuterScopeWithX: TableState := TableState(1, [1], InitialTable.symbols["x" := [OuterX]])

  lemma OuterScopeWithXReached()
    ensures Add(Enter(InitialTable).1, "x", TypeInfo(Int, false), VariableKind).1 == OuterScopeWithX
    ensures AddAsWritten(Enter(InitialTable).1, "x", TypeInfo(Int, false), VariableKind).1 == OuterScopeWithX
    ensures Find(OuterScopeWithX, "x") == Some(OuterX)
  {
    AddFresh(Enter(InitialTable).1, "x", TypeInfo(Int, false), VariableKind);
    assert Bindings(OuterScopeWithX, "x") == [OuterX];
  }

  /**
   * The consequence of `AddAsWritten`: a variable redeclared in an inner
   * block is, once that block is left, no longer found in the outer one.
   */
  lemma ShadowingLosesOuterBinding()
    ensures Find(Leave(AddAsWritten(Enter(OuterScopeWithX).1, "x", TypeInfo(Int, false), VariableKind).1), "x") == None
  {
    var inner := Enter(OuterScopeWithX).1;
    assert !DeclaredInCurrent(inner, "x") by {
      assert Bindings(inner, "x") == [OuterX];
    }
    var after := Leave(AddAsWritten(inner, "x", TypeInfo(Int, false), VariableKind).1);
    assert Bindings(after, "x") == [Symbol("x", TypeInfo(Int, false), 2, VariableKind)];
    assert after.scopeStack == [1];
  }

  /** With the corrected `Add`, the outer variable is found again after the inner block. */
  lemma ShadowingKeepsOuterBinding()
    ensures Find(Leave(Add(Enter(OuterScopeWithX).1, "x", TypeInfo(Int, false), VariableKind).1), "x") == Some(OuterX)
  {
    InitialTableContents();
    EnterKeepsWellScoped(InitialTable);
    AddKeepsWellScoped(Enter(InitialTable).1, "x", TypeInfo(Int, false), VariableKind);
    OuterScopeWithXReached();
    InnerDeclarationVanishes(OuterScopeWithX, "x", TypeInfo(Int, false), VariableKind);
  }

  class SymbolTable {
    var newScopeId: int
    var scopeStack: seq<int>
    var symbols: map<string, seq<Symbol>>

    function Model(): TableState
      reads this
    {
      TableState(newScopeId, scopeStack, symbols)
    }

    ghost predicate Valid()
      reads this
    {
      WellScoped(Model())
    }

    /** Registers `true`, `false`, `writeln` and `read` in scope 0. */
    constructor ()
      ensures Valid() && Model() == InitialTable
    {
      newScopeId := 0;
      scopeStack := [];
      symbols := map[];
      new;
      var ok := AddSymbol("true", TypeInfo(Bool, false), GlobalKind);
      ok := AddSymbol("false", TypeInfo(Bool, false), GlobalKind);
      ok := AddSymbol("writeln", TypeInfo(Void, false), ProcedureKind([], []));
      ok := AddSymbol("read", TypeInfo(Void, false), ProcedureKind([], []));
      PredefinedByAdding();
      InitialTableContents();
    }

    function CurrentScope(): (s: int)
      reads this
      ensures s == Current(Model())
    {
      if |scopeStack| == 0 then 0 else scopeStack[|scopeStack| - 1]
    }

    predicate ExistsInCurrentScope(name: string)
      reads this
    {
      DeclaredInCurrent(Model(), name)
    }

    method AddSymbol(name: string, ty: TypeInfo, kind: SymbolKind) returns (added: bool)
      modifies this
      ensures (added, Model()) == Add(old(Model()), name, ty, kind)
      ensures old(Valid()) ==> Valid()
    {
      ghost var t := Model();
      var current := CurrentScope();
      if name in symbols {
        var list := symbols[name];
        var found := false;
        var k := 0;
        while k < |list|
          invariant 0 <= k <= |list|
          invariant found <==> exists j :: 0 <= j < k && list[j].scope == current
        {
          if list[k].scope == current {
            found := true;
          }
          k := k + 1;
        }
        assert Bindings(t, name) == list;
        assert found <==> DeclaredInCurrent(t, name);
        if found {
          assert Add(t, name, ty, kind) == (false, t);
          return false;
        }
        symbols := symbols[name := list + [Symbol(name, ty, current, kind)]];
      } else {
        assert !DeclaredInCurrent(t, name);
        assert Bindings(t, name) + [Symbol(name, ty, current, kind)] == [Symbol(name, ty, current, kind)];
        symbols := symbols[name := [Symbol(name, ty, current, kind)]];
      }
      added := true;
      if old(Valid()) {
        AddKeepsWellScoped(t, name, ty, kind);
      }
    }

    method Lookup(name: string) returns (r: Option<Symbol>)
      ensures r == Find(Model(), name)
    {
      if name !in symbols {
        return None;
      }
      var list := symbols[name];
      var predefined: Option<Symbol> := None;
      var best: Option<Symbol> := None;
      var i := 0;
      while i < |list|
        invariant 0 <= i <= |list|
        invariant predefined == LastPredefined(list[..i])
        invariant best == LastLive(list[..i], scopeStack)
      {
        var symbol := list[i];
        assert list[..i + 1][..i] == list[..i];
        if symbol.scope == 0 {
          predefined := Some(symbol);
        } else {
          // the stack is enumerated from its top down
          var j := |scopeStack|;
          var matched := false;
          while j > 0
            invariant 0 <= j <= |scopeStack|
            invariant !matched ==> symbol.scope !in scopeStack[j..]
            invariant matched ==> symbol.scope in scopeStack
          {
            var stackedScope := scopeStack[j - 1];
            if symbol.scope == stackedScope {
              best := Some(symbol);
              matched := true;
              break;
            } else if best.Some? && symbol.scope == stackedScope {
              break;
            }
            j := j - 1;
          }
          assert matched <==> symbol.scope in scopeStack;
          assert !matched ==> best == LastLive(list[..i + 1], scopeStack);
        }
        i := i + 1;
      }
      assert list[..i] == list;
      if best.Some? {
        return best;
      } else if predefined.Some? {
        return predefined;
      }
      return None;
    }

    method EnterScope() returns (id: int)
      modifies this
      ensures (id, Model()) == Enter(old(Model()))
      ensures old(Valid()) ==> Valid()
    {
      ghost var t := Model();
      newScopeId := newScopeId + 1;
      scopeStack := scopeStack + [newScopeId];
      id := newScopeId;
      if old(Valid()) {
        EnterKeepsWellScoped(t);
      }
    }

    /** Pops the current scope; popping an empty stack throws, so callers keep enter and leave paired. */
    method LeaveScope()
      requires |scopeStack| > 0
      modifies this
      ensures Model() == Leave(old(Model()))
      ensures old(Valid()) ==> Valid()
    {
      ghost var t := Model();
      scopeStack := scopeStack[..|scopeStack| - 1];
      if old(Valid()) {
        LeaveKeepsWellScoped(t);
      }
    }
  }
}
