# MiniPascalCompiler in Dafny

MiniPascalCompiler compiles Mini-Pascal programs to .NET CIL. It runs as a pipeline of stages:

- **Scanner** (over a buffered `SourceReader`) turns the text into tokens. It reports lexical errors to an `ErrorHandler` and carries on.
- **Parser** is recursive descent with one token of lookahead. It builds the AST, or throws on the first syntax error.
- **SemanticAnalyzer** walks the AST with a `SymbolTable` of nested scopes and a stack of expression types. It reports semantic errors using the `TypeChecker` rules.
- **LambdaLifter** adds every free variable of a nested procedure or function as an extra by-reference parameter. It adds the same variables as extra arguments at every call of it.
- **CodeGenerator** (with `CILHelper`) emits stack-machine code for the checked tree.

This project models every stage in Dafny, one module per C# file:

| module | C# file | modelled as |
|---|---|---|
| `Tokens`, `Text` | `Scanner.cs` (token type and class), decimal text of `int` | datatypes and functions |
| `SourceReading` | `Scanner.cs` (`SourceReader`) | class `SourceReader` over a character stream, proved against value-level functions over `Reader` |
| `Scanning` | `Scanner.cs` (`Scanner`) | class `Scanner`: one method per loop of the source, each proved against a function (`SkipCommentsFrom`, `StringLoop`, `LexToken`, `NextToken`, …) |
| `ScanningProperties` | | lemmas about those functions |
| `AstEnums`, `Ast` | `Ast.cs` | datatypes for nodes, with constructors as functions |
| `Parsing` | `Parser.cs` | class `Parser` over a `TokenSource`: one method per parse routine, each proved against a reference parse function `P…` over the token sequence |
| `ParsingProperties`, `Runs` | | lemmas about the reference parser: left-assoc folds, block and parameter-list loops as runs |
| `Symbols` | `Symbol.cs` | `TypeInfo`, `Symbol` datatypes and factory functions |
| `TypeChecker` | `TypeChecker.cs` | binding tables and functions |
| `ErrorHandling` | `ErrorHandler.cs` | class `ErrorHandler` with an error list |
| `SymbolTables` | `SymbolTable.cs` | class `SymbolTable` (map to binding lists, scope stack, counter) proved against functions over `TableState` |
| `Semantics`, `SemanticProperties` | `SemanticAnalyzer.cs` | class `SemanticAnalyzer` whose visitors are proved against `ExprCheck`/`StmtCheck`/…, plus lemmas |
| `LambdaLifting` | `LambdaLifter.cs` | class `LambdaLifter` proved against `LiftStmt`, plus lemmas |
| `Cil` | `CILHelper.cs` | instruction datatype, operation tables, stack-effect and evaluation semantics |
| `CodeGeneration` | `CodeGenerator.cs` | class `CodeGenerator` over methods under construction, proved against `…Gen` functions, plus lowering lemmas |

Some conventions hold throughout:

- A method that the source writes as mutating an object is a `method` of a Dafny `class`. It has `modifies`, and its `ensures` equates the new state with a reference function of the old state.
- The properties are proved about those reference functions.
- An exception in the source is a `Failure` of a `Result`. There are three exceptions to this, each listed under "## Left out":
  - the empty-stack `Peek` of the symbol table;
  - the Void-operand pop of the analyzer;
  - the `"\` escape at the end of the text, whose corrected handling (see "## Findings") the scanner uses.
- For each of the five defects under "## Findings", the model has the as-written member and the corrected one. The rest of the model runs on the corrected definition. Every member affected by that choice has a line under "## Left out".

## Model

| member | source | states |
|---|---|---|
| Tokens.PlainToken | MiniPascalCompiler/Scanner.cs:343-348 | a token built without content has the given type, line and column and no content |
| Tokens.TextToken | MiniPascalCompiler/Scanner.cs:350-356 | a token built with content keeps type, line, column and that content |
| Tokens.ContentOf | MiniPascalCompiler/Scanner.cs:339 | the content of a token, the empty string when it has none |
| Text.ParseInt32 | MiniPascalCompiler/Ast.cs:279-282 | `int.Parse` of a digit string succeeds exactly when its decimal value fits in 32 bits, and gives that value |
| Text.ParseInt32OfNatToString | MiniPascalCompiler/Ast.cs:279-282 | parsing the decimal text of any number up to `Int32.MaxValue` gives that number back |
| Text.NatToString | MiniPascalCompiler/SemanticAnalyzer.cs:76-77 | the decimal text of a count that goes into an error message is non-empty, all digits, and has no leading zero |
| Symbols.NewTypeInfo | MiniPascalCompiler/Symbol.cs:46-50 | a type info has the given basic type and array flag |
| Symbols.SameAsIsEquality | MiniPascalCompiler/Symbol.cs:52-55 | `SameAs` holds exactly for equal type infos, so it is reflexive and symmetric |
| Symbols.TypeInfoToStringShape | MiniPascalCompiler/Symbol.cs:57-64 | the text of a type is its basic type's name, followed by `[]` exactly for arrays (so `Int[]` for an int array) |
| Symbols.TypeInfoToStringInjective | MiniPascalCompiler/Symbol.cs:57-64 | two type infos with the same text are equal |
| Symbols.VariableSymbol | MiniPascalCompiler/Symbol.cs:17-20 | a variable symbol records name, scope and the declared (array) type |
| Symbols.ProcedureSymbol | MiniPascalCompiler/Symbol.cs:22-25 | a procedure symbol is callable, has type Void, carries the given parameters and no free variables yet |
| Symbols.FunctionSymbol | MiniPascalCompiler/Symbol.cs:27-30 | a function symbol is callable, has the return type, carries the given parameters and no free variables yet |
| Symbols.ParameterSymbol | MiniPascalCompiler/Symbol.cs:32-39 | a parameter symbol keeps whether it is passed by reference, its name, type and scope |
| TypeChecker.FindCommonType | MiniPascalCompiler/TypeChecker.cs:132-147 | a non-Void result is the least type both operand types convert to; Void means they have no common type |
| TypeChecker.FindCommonTypeCases | MiniPascalCompiler/TypeChecker.cs:132-147 | a type is common with itself, Int and Real meet at Real in both orders, the function is symmetric, every other pair gives Void |
| TypeChecker.FindOpProductionType | MiniPascalCompiler/TypeChecker.cs:77-96 | a Void or array operand gives Void; for scalar operands whose common type has an entry for the operator, the result is exactly that entry (never Void); any other non-Void result is such an entry |
| TypeChecker.FindUnaryOpProductionType | MiniPascalCompiler/TypeChecker.cs:98-111 | a Void or array operand gives Void; for a scalar operand whose type's table has the operator, the result is exactly that entry (never Void); any other non-Void result is such an entry |
| TypeChecker.TypeCheckAssign | MiniPascalCompiler/TypeChecker.cs:113-130 | arrays assign only to the same array type; scalars assign exactly when the value type converts to the variable type |
| TypeChecker.BinaryExamples | MiniPascalCompiler/TypeChecker.cs:19-96 | int / int is Real, int < real is Bool, `%` with a real operand is an error in both orders, string + string is String |
| TypeChecker.RelationalsGiveBool | MiniPascalCompiler/TypeChecker.cs:19-96 | every relational operator on scalars with a common type yields Bool |
| TypeChecker.NotOnlyOnBool | MiniPascalCompiler/TypeChecker.cs:46-111 | `not` is defined exactly on a scalar Bool and yields Bool |
| TypeChecker.AssignExamples | MiniPascalCompiler/TypeChecker.cs:113-147 | an int may be assigned to a real variable but not the reverse; a string never to an int; arrays only to the identical array type |
| ErrorHandling.ErrorToString | MiniPascalCompiler/ErrorHandler.cs:43-46 | an error prints as its type's name, `": "` and its message |
| ErrorHandling.ErrorToStringInjective | MiniPascalCompiler/ErrorHandler.cs:43-46 | two errors that print the same are the same error |
| ErrorHandling.ErrorHandler.constructor | MiniPascalCompiler/ErrorHandler.cs:13-19 | a new handler holds no errors |
| ErrorHandling.ErrorHandler.AddError | MiniPascalCompiler/ErrorHandler.cs:21-24 | adding appends exactly that error at the end, after which the handler has errors |
| ErrorHandling.ErrorHandler.GetErrors | MiniPascalCompiler/ErrorHandler.cs:26-29 | the errors are returned in the order they were added |
| SymbolTables.LastLive | MiniPascalCompiler/SymbolTable.cs:48-70 | the chosen binding is a non-predefined one in an open scope; none means no such binding exists |
| SymbolTables.LastPredefined | MiniPascalCompiler/SymbolTable.cs:48-70 | the chosen binding is a predefined one (scope 0); none means there is none |
| SymbolTables.Add | MiniPascalCompiler/SymbolTable.cs:28-41 | corrected (SymbolTable.cs:39 replaces the list, see Findings): adding fails and changes nothing exactly when the name is already declared in the current scope; otherwise the new symbol is appended to the name's bindings |
| SymbolTables.AddAsWritten | MiniPascalCompiler/SymbolTable.cs:28-41 | as written: a successful add replaces the name's whole binding list by the new symbol and leaves other names alone |
| SymbolTables.Enter | MiniPascalCompiler/SymbolTable.cs:83-87 | entering issues the next scope id, pushes it and makes it current, bindings unchanged |
| SymbolTables.Leave | MiniPascalCompiler/SymbolTable.cs:89-92 | leaving pops the innermost scope and changes nothing else |
| SymbolTables.PredefinedByAdding | MiniPascalCompiler/SymbolTable.cs:20-26 | the initial table is exactly what adding `true`, `false`, `writeln`, `read` to an empty table gives |
| SymbolTables.AddFresh | MiniPascalCompiler/SymbolTable.cs:28-41 | adding a name never seen before succeeds and binds it to just the new symbol |
| SymbolTables.InitialTableContents | MiniPascalCompiler/SymbolTable.cs:20-26 | the initial table is well scoped and finds the Bool variables `true`/`false` (held in static fields) and the procedures `writeln`/`read` |
| SymbolTables.EnterKeepsWellScoped | MiniPascalCompiler/SymbolTable.cs:83-87 | entering a scope keeps the table well scoped: the stack increases strictly, ids are issued and bindings are correctly scoped |
| SymbolTables.LeaveKeepsWellScoped | MiniPascalCompiler/SymbolTable.cs:89-92 | leaving keeps the table well scoped |
| SymbolTables.AddKeepsWellScoped | MiniPascalCompiler/SymbolTable.cs:28-41 | adding keeps the table well scoped |
| SymbolTables.FindUnknown | MiniPascalCompiler/SymbolTable.cs:43-81 | looking up a name never added finds nothing |
| SymbolTables.FindPrefersLive | MiniPascalCompiler/SymbolTable.cs:48-78 | a binding in an open scope wins over a predefined one; what is found is one of the name's bindings, in an open scope or predefined |
| SymbolTables.FindIsInnermost | MiniPascalCompiler/SymbolTable.cs:57-68 | the binding found lies in the innermost open scope that has a binding of the name |
| SymbolTables.LastLiveIsLastIndex | MiniPascalCompiler/SymbolTable.cs:49-70 | the binding found is the last one in the list whose scope is open and not predefined |
| SymbolTables.InnerDeclarationVanishes | MiniPascalCompiler/SymbolTable.cs:43-92 | corrected (with `Add`): after declaring a name in an inner scope and closing it, lookup of the name gives what it gave before |
| SymbolTables.InnerDeclarationVanishesAsWritten | MiniPascalCompiler/SymbolTable.cs:28-41 | as written (the list is replaced at line 39): after a block that redeclares a name fresh to the table, the name is not found at all; the scope stack and the lookup of every other name are as before |
| SymbolTables.AddThenFind | MiniPascalCompiler/SymbolTable.cs:28-81 | after a successful add the name finds the new symbol, and every other name finds what it found before |
| SymbolTables.Find | MiniPascalCompiler/SymbolTable.cs:43-81 | a symbol found is one of the name's bindings, in a live scope or the global scope 0; nothing is found exactly when no binding is in such a scope |
| SymbolTables.OuterScopeWithXReached | MiniPascalCompiler/SymbolTable.cs:28-41 | declaring `x` in a first block gives the same table under both versions of add, and finds the outer `x` |
| SymbolTables.ShadowingLosesOuterBinding | MiniPascalCompiler/SymbolTable.cs:39 | as written: shadowing `x` in an inner block and closing it leaves `x` undeclared |
| SymbolTables.ShadowingKeepsOuterBinding | MiniPascalCompiler/SymbolTable.cs:37-40 | corrected: after the inner block closes, `x` finds the outer binding again |
| SymbolTables.SymbolTable.constructor | MiniPascalCompiler/SymbolTable.cs:20-26 | a new table is the initial table and is well scoped |
| SymbolTables.SymbolTable.CurrentScope | MiniPascalCompiler/SymbolTable.cs:10 | the current scope is the innermost open scope, 0 before any is entered |
| SymbolTables.SymbolTable.AddSymbol | MiniPascalCompiler/SymbolTable.cs:28-41 | corrected (with `Add`): the result and the new table are those of `Add`, and well-scopedness is kept |
| SymbolTables.SymbolTable.Lookup | MiniPascalCompiler/SymbolTable.cs:43-81 | the result is `Find` on the current table |
| SymbolTables.SymbolTable.EnterScope | MiniPascalCompiler/SymbolTable.cs:83-87 | the id and the new table are those of `Enter`, and well-scopedness is kept |
| SymbolTables.SymbolTable.LeaveScope | MiniPascalCompiler/SymbolTable.cs:89-92 | the new table is `Leave` of the old, and well-scopedness is kept |
| Ast.PositionOf | MiniPascalCompiler/Ast.cs:28-32 | a node built from a token takes the token's line and column |
| Ast.TypeOfNode | MiniPascalCompiler/Ast.cs:68-119 | a type node's type info has its basic type, and is an array exactly for array type nodes |
| Ast.FirstSetMembers | MiniPascalCompiler/Ast.cs:78-82 | the tokens that can start an expression are exactly `-`, `+`, identifiers, the three literals, `(` and `not` |
| Ast.AddParameter | MiniPascalCompiler/Ast.cs:62-65 | adding a parameter appends exactly it to the parameter list and changes nothing else |
| Ast.OperatorToken | MiniPascalCompiler/Ast.cs:242-259 | every operator except `not` and `or` has a token that sets it |
| Ast.SetOperatorFromTokenInverse | MiniPascalCompiler/Ast.cs:242-259 | an operator token sets its operator; any other token (including `or`) leaves the old operator |
| Ast.NewVariableExpr | MiniPascalCompiler/Ast.cs:174-177 | a variable expression takes the token's position and text, with the default type, a plus sign and no symbol |
| Ast.NewStringLiteral | MiniPascalCompiler/Ast.cs:293-296 | a string literal keeps the token's position and content |
| Ast.NewRealLiteral | MiniPascalCompiler/Ast.cs:307-310 | a real literal keeps the token's position and text |
| Ast.NewIntLiteral | MiniPascalCompiler/Ast.cs:279-282 | an integer literal is built exactly when the token's digits fit in 32 bits, and holds their value |
| Ast.IntLiteralRoundTrip | MiniPascalCompiler/Ast.cs:279-282 | the literal built from the decimal text of any number up to `Int32.MaxValue` holds that number |
| Ast.IntLiteralOverflow | MiniPascalCompiler/Ast.cs:279-282 | the literal `2147483648` cannot be built |
| SourceReading.Open | MiniPascalCompiler/Scanner.cs:233-249 | a new reader has no current character, an empty buffer, the whole text unread, reader line 1 and column 0 |
| SourceReading.ReadFromSource | MiniPascalCompiler/Scanner.cs:304-322 | reading from the stream takes at most one character; the line counts up after a newline, and the column restarts there and counts each character read |
| SourceReading.ReadFromSourceChars | MiniPascalCompiler/Scanner.cs:304-322 | the character read is the first unread one of the text, and the rest stays unread |
| SourceReading.Advance | MiniPascalCompiler/Scanner.cs:251-267 | moving on consumes input; a buffered character always becomes current; at the end nothing changes |
| SourceReading.AdvanceChars | MiniPascalCompiler/Scanner.cs:251-267 | the new current character is the first upcoming one (buffer, then stream), and it is removed from the upcoming text |
| SourceReading.Fill | MiniPascalCompiler/Scanner.cs:287-301 | filling the buffer leaves the current character and its position alone; a found character means the buffer holds more than `n` |
| SourceReading.FillChars | MiniPascalCompiler/Scanner.cs:287-301 | filling returns the `n`-th unread stream character, or none, and does not change the upcoming text |
| SourceReading.Peeked | MiniPascalCompiler/Scanner.cs:280-302 | peeking never moves the current character or its position |
| SourceReading.PeekedChars | MiniPascalCompiler/Scanner.cs:280-302 | peeking at `offset` returns the upcoming character at that offset (none past the end) and leaves the upcoming text unchanged |
| SourceReading.CurrentAndNext | MiniPascalCompiler/Scanner.cs:241-244 | the text starts with the current character and the reader is the one after peeking once |
| SourceReading.CurrentAndNextChars | MiniPascalCompiler/Scanner.cs:241-244 | the text is the current character followed by the next one, if any |
| SourceReading.ReadRun | MiniPascalCompiler/Scanner.cs:269-278 | collecting a run only consumes input |
| SourceReading.ReadWhileFrom | MiniPascalCompiler/Scanner.cs:269-278 | `ReadWhile` only consumes input |
| SourceReading.ReadRunMaximal | MiniPascalCompiler/Scanner.cs:269-278 | the characters collected are the longest prefix of the upcoming text that passes the test, and the reader stops at its last character |
| SourceReading.ReadRunStops | MiniPascalCompiler/Scanner.cs:269-278 | when the next character fails the test nothing is collected and nothing moves |
| SourceReading.ReadRunStep | MiniPascalCompiler/Scanner.cs:269-278 | when the next character passes, the run continues from one character further with that character collected |
| SourceReading.SourceReader.constructor | MiniPascalCompiler/Scanner.cs:246-249 | a new reader is `Open` of its text |
| SourceReading.SourceReader.ReadNextFromSource | MiniPascalCompiler/Scanner.cs:304-322 | the character and new state are those of `ReadFromSource` |
| SourceReading.SourceReader.ReadNext | MiniPascalCompiler/Scanner.cs:251-267 | the new state is `Advance` of the old and the result is the new current character |
| SourceReading.SourceReader.Peek | MiniPascalCompiler/Scanner.cs:280-302 | the character and new state are those of `Peeked` |
| SourceReading.SourceReader.ReadAhead | MiniPascalCompiler/Scanner.cs:287-301 | the character and new state are those of `Fill` |
| SourceReading.SourceReader.CurrentAndPeek | MiniPascalCompiler/Scanner.cs:241-244 | the text and new state are those of `CurrentAndNext` |
| SourceReading.SourceReader.ReadWhile | MiniPascalCompiler/Scanner.cs:269-278 | the text and new state are those of `ReadWhileFrom` |
| SourceReading.SourceReader.Read | MiniPascalCompiler/Scanner.cs:311-315 | `TextReader.Read` removes and returns the first unread character, none at the end |
| Scanning.SymbolToken | MiniPascalCompiler/Scanner.cs:21-40 | only texts of one or two characters are symbols |
| ScanningProperties.SymbolTableEntries | MiniPascalCompiler/Scanner.cs:21-40 | the one-character symbols are exactly `( ) [ ] + - / * % < > = . ; : ,`, and the two-character ones exactly `<=`, `>=`, `<>`, `:=`; each two-character symbol starts with a one-character symbol, which is what the longest match at Scanner.cs:87-96 relies on; only `:=` gives the assignment token |
| Scanning.SkipWhitespaceFrom | MiniPascalCompiler/Scanner.cs:169-173 | skipping whitespace stops at the end or at a non-whitespace character |
| Scanning.SkipToLineEnd | MiniPascalCompiler/Scanner.cs:181-184 | skipping a line comment consumes input unless it is already at a newline |
| Scanning.BlockLoop | MiniPascalCompiler/Scanner.cs:190-203 | each turn of the block-comment loop while nested consumes input |
| Scanning.SkipComment | MiniPascalCompiler/Scanner.cs:179-211 | skipping one comment always consumes input |
| Scanning.CommentStart | MiniPascalCompiler/Scanner.cs:177 | a comment can only start at `/`, and at the end of input there is none |
| Scanning.SkipCommentsFrom | MiniPascalCompiler/Scanner.cs:175-215 | skipping comments only consumes input, and does nothing at the end |
| Scanning.EscapeFor | MiniPascalCompiler/Scanner.cs:134-147 | corrected: the escape found agrees with the source's lookup wherever the source does not throw |
| Scanning.EscapeAsWritten | MiniPascalCompiler/Scanner.cs:134-147 | as written: the lookup throws exactly when there is no character after the backslash; otherwise it finds an escape exactly for the five characters `"`, `'`, `n`, `t`, `\`, and `\n` gives a newline |
| Scanning.StringGoesOn | MiniPascalCompiler/Scanner.cs:132 | the string loop continues only with a character buffered to read |
| Scanning.StringStep | MiniPascalCompiler/Scanner.cs:134-152 | with the corrected end-of-text escape: each character or escape of a string literal consumes input |
| Scanning.StringLoop | MiniPascalCompiler/Scanner.cs:132-153 | with the corrected end-of-text escape: the string loop only consumes input |
| Scanning.BuildString | MiniPascalCompiler/Scanner.cs:129-167 | with the corrected end-of-text escape: building a string literal only consumes input |
| Scanning.LexToken | MiniPascalCompiler/Scanner.cs:87-118 | with the corrected end-of-text escape: a token is positioned at the character it starts with; no token means one character was looked at and no error |
| Scanning.LexLiteral | MiniPascalCompiler/Scanner.cs:97-118 | a literal or word is positioned at its first character; when none starts here, nothing moves and no error is reported |
| Scanning.Trivia | MiniPascalCompiler/Scanner.cs:78-81 | skipping whitespace and comments only consumes input, and does nothing at the end |
| Scanning.Scanner.constructor | MiniPascalCompiler/Scanner.cs:17-64 | the scanner reads from the given reader and reports to the given handler |
| Scanning.Scanner.SkipWhitespace | MiniPascalCompiler/Scanner.cs:169-173 | the reader ends in the state `SkipWhitespaceFrom` gives |
| Scanning.Scanner.SkipLineComment | MiniPascalCompiler/Scanner.cs:181-184 | the reader ends in the state `SkipToLineEnd` gives |
| Scanning.Scanner.SkipBlockComment | MiniPascalCompiler/Scanner.cs:188-211 | the reader and the nesting depth end as `BlockLoop` gives |
| Scanning.Scanner.SkipOneComment | MiniPascalCompiler/Scanner.cs:179-212 | the reader state and the appended errors are those of `SkipComment` |
| Scanning.Scanner.AtComment | MiniPascalCompiler/Scanner.cs:177 | the answer and reader state are those of `CommentStart` |
| Scanning.Scanner.SkipComments | MiniPascalCompiler/Scanner.cs:175-215 | the reader state and the appended errors are those of `SkipCommentsFrom` |
| Scanning.Scanner.StringContinues | MiniPascalCompiler/Scanner.cs:132 | the answer and reader state are those of `StringGoesOn` |
| Scanning.Scanner.StringUnit | MiniPascalCompiler/Scanner.cs:134-152 | with the corrected end-of-text escape: content, reader state and appended errors are those of `StringStep` |
| Scanning.Scanner.StringBody | MiniPascalCompiler/Scanner.cs:132-153 | with the corrected end-of-text escape: content, reader state and appended errors are those of `StringLoop` |
| Scanning.Scanner.BuildStringLiteral | MiniPascalCompiler/Scanner.cs:129-167 | with the corrected end-of-text escape: content, reader state and appended errors are those of `BuildString` |
| Scanning.Scanner.LexCurrent | MiniPascalCompiler/Scanner.cs:85-118 | with the corrected end-of-text escape: token, reader state and appended errors are those of `LexToken` |
| Scanning.Scanner.SkipTrivia | MiniPascalCompiler/Scanner.cs:78-81 | reader state and appended errors are those of `Trivia` |
| Scanning.Scanner.GetNextToken | MiniPascalCompiler/Scanner.cs:76-127 | with the corrected end-of-text escape: token, reader state and appended errors are those of `NextToken` |
| ScanningProperties.NoTokenExactly | MiniPascalCompiler/Scanner.cs:87-126 | no token is lexed exactly when the character starts no symbol, is not a digit or letter, and is not `"` |
| ScanningProperties.TwoCharacterSymbol | MiniPascalCompiler/Scanner.cs:87-92 | a two-character symbol gives its token at the first character's position and consumes both |
| ScanningProperties.OneCharacterSymbol | MiniPascalCompiler/Scanner.cs:93-96 | otherwise a one-character symbol gives its token; the next character stays upcoming, and at the end of text the current one is read past |
| ScanningProperties.RunCollected | MiniPascalCompiler/Scanner.cs:269-278 | `ReadWhile` from a run's first character collects exactly the run and stops on its last character |
| ScanningProperties.LexLiteralBranch | MiniPascalCompiler/Scanner.cs:97-118 | a digit, letter or `"` goes to the literal branch after the symbol peek |
| ScanningProperties.IntegerLiteralLexes | MiniPascalCompiler/Scanner.cs:97-101 | a maximal run of digits lexes to one integer-literal token with that text and no error |
| ScanningProperties.WordLexes | MiniPascalCompiler/Scanner.cs:102-113 | a maximal word lexes to its keyword token if it is a keyword, else to an identifier with that text |
| ScanningProperties.IfIsIdentifier | MiniPascalCompiler/Scanner.cs:41-58 | `if` lexes as an identifier, since the keyword table has no entry for it |
| ScanningProperties.KeywordsAreWords | MiniPascalCompiler/Scanner.cs:41-58 | every keyword has the shape of an identifier, so the word branch can reach it |
| ScanningProperties.LexTokenNotEof | MiniPascalCompiler/Scanner.cs:87-118 | lexing a character never produces the EOF token |
| ScanningProperties.UnknownCharacterSkipped | MiniPascalCompiler/Scanner.cs:119-126 | an unknown character produces one lexical error at its position, and the token returned is the next one after it |
| ScanningProperties.StringGoesOnChars | MiniPascalCompiler/Scanner.cs:132 | the string loop continues exactly when a next character exists and is neither `"` nor a newline |
| ScanningProperties.StringStepChars | MiniPascalCompiler/Scanner.cs:134-152 | the first three cases as written; corrected for the last: a plain character is appended; a known escape appends its meaning; an unknown one reports an error; a `\` at the end reports an error |
| ScanningProperties.StringLoopStops | MiniPascalCompiler/Scanner.cs:132-153 | at `"`, a newline or the end, the loop appends nothing |
| ScanningProperties.StringLoopGoes | MiniPascalCompiler/Scanner.cs:132-153 | otherwise the loop is one step followed by the rest of the loop, errors in order |
| ScanningProperties.StringLoopEscaped | MiniPascalCompiler/Scanner.cs:132-153 | the loop over the escaped form of any string yields that string with no errors |
| ScanningProperties.BuildStringEnd | MiniPascalCompiler/Scanner.cs:154-165 | a string closed by `"` ends on the quote; otherwise an end-of-line error is added |
| ScanningProperties.StringLiteralLexes | MiniPascalCompiler/Scanner.cs:114-118 | a quoted escaped string lexes back to the original string with no errors (round trip) |
| ScanningProperties.UnclosedStringReported | MiniPascalCompiler/Scanner.cs:158-165 | a string cut off by a newline or the end is still returned, with exactly one end-of-line error |
| ScanningProperties.BackslashAtEndThrows | MiniPascalCompiler/Scanner.cs:134-147 | as written: for `"\` at the end of text the escape lookup is reached with no current character and fails |
| ScanningProperties.BackslashAtEndReported | MiniPascalCompiler/Scanner.cs:134-147 | corrected: `"\` at the end gives an empty string token with an escape error and an end-of-line error |
| ScanningProperties.TokenAtEof | MiniPascalCompiler/Scanner.cs:82-83 | EOF is only produced with the input exhausted, at the reader's position |
| ScanningProperties.EofRepeats | MiniPascalCompiler/Scanner.cs:76-83 | after EOF, asking again gives the same EOF token with no errors |
| ScanningProperties.EndOfText | MiniPascalCompiler/Scanner.cs:82-83 | with nothing left to read, the next token is EOF with no errors |
| ScanningProperties.WhitespaceSkipped | MiniPascalCompiler/Scanner.cs:169-173 | skipping a run of whitespace stops on the first character after it |
| ScanningProperties.LineEndReached | MiniPascalCompiler/Scanner.cs:181-184 | a line comment is skipped up to the newline, which stays current |
| ScanningProperties.CommentStartChars | MiniPascalCompiler/Scanner.cs:177 | a comment starts exactly at `//` or `/*`, and detecting one moves nothing |
| ScanningProperties.LineCommentSkipped | MiniPascalCompiler/Scanner.cs:179-185 | `//` up to a newline is skipped with no error |
| ScanningProperties.BlockLoopChars | MiniPascalCompiler/Scanner.cs:190-203 | the block-comment loop consumes exactly what the nesting reference `Unnest` consumes, and reaches the same depth |
| ScanningProperties.BlockCommentSkipped | MiniPascalCompiler/Scanner.cs:186-212 | a closed block comment is skipped with no error; an unclosed one consumes everything and reports one error at its start |
| ScanningProperties.OpeningStarCloses | MiniPascalCompiler/Scanner.cs:190-203 | the star of `/*` can also close it, so `/*/` is a complete comment |
| ScanningProperties.NestedCommentCloses | MiniPascalCompiler/Scanner.cs:188-203 | a comment nested inside a comment needs its own `*/`, and the outer one closes at the second `*/` |
| ScanningProperties.UnclosedCommentOpen | MiniPascalCompiler/Scanner.cs:205-211 | a comment with no `*/` stays open at depth 1 |
| ScanningProperties.PositionsCounted | MiniPascalCompiler/Scanner.cs:304-322 | in `"\n x"` the identifier `x` is reported at line 2, column 2 |
| ScanningProperties.ExampleStart | MiniPascalCompiler/Scanner.cs:76-81 | on that text, skipping trivia stops on `x` at line 2, column 2 with nothing after it |
| Parsing.Tok | MiniPascalCompiler/Parser.cs:57-67 | any token other than EOF read at an index is the token at that index |
| Parsing.Match | MiniPascalCompiler/Parser.cs:96-105 | matching succeeds exactly on the expected token type, returns it and moves past it |
| Parsing.PIdentifier | MiniPascalCompiler/Parser.cs:142-146 | an identifier parses exactly at an identifier token, giving its text |
| Parsing.Lookup | MiniPascalCompiler/Parser.cs:18-24 | a found type is the one listed for the name; none means the name is not listed |
| Parsing.PTypeName | MiniPascalCompiler/Parser.cs:339-348 | a type name resolves only to the type listed for it |
| Parsing.TypeNames | MiniPascalCompiler/Parser.cs:339-348 | exactly `int`, `real`, `string`, `bool` are type names, mapped to Int, Real, String, Bool |
| Parsing.PType | MiniPascalCompiler/Parser.cs:315-337 | a type is simple exactly when it starts with an identifier, and sits at its first token |
| Parsing.PTypeAnnotation | MiniPascalCompiler/Parser.cs:310-311 | a type annotation starts with `:` and a type follows |
| Parsing.IntegerLiteral | MiniPascalCompiler/Parser.cs:328 | an array size parses exactly when the literal fits in 32 bits |
| Parsing.NewBinary | MiniPascalCompiler/Parser.cs:357-359 | a binary node sits at the first token, with the two operands, a plus sign and the operator the token sets |
| Parsing.WithLeadingSign | MiniPascalCompiler/Parser.cs:366-375 | corrected: a leading `-` flips the term's own sign instead of overwriting it; nothing else changes |
| Parsing.LeadingSignAsWritten | MiniPascalCompiler/Parser.cs:366-375 | as written: the term's sign is overwritten by the leading sign |
| Parsing.PExpression | MiniPascalCompiler/Parser.cs:350-364 | with the corrected sign rule: a parsed expression consumes at least one token |
| Parsing.PSimple | MiniPascalCompiler/Parser.cs:366-385 | with the corrected sign rule: a parsed simple expression consumes at least one token |
| Parsing.PSimpleRest | MiniPascalCompiler/Parser.cs:376-383 | the adding-operator loop never moves back |
| Parsing.PAddingStep | MiniPascalCompiler/Parser.cs:376-383 | the loop takes a step exactly at `+`, `-` or `or`, and a step consumes tokens |
| Parsing.PTerm | MiniPascalCompiler/Parser.cs:387-400 | a parsed term consumes at least one token |
| Parsing.PTermRest | MiniPascalCompiler/Parser.cs:391-398 | the multiplying-operator loop never moves back |
| Parsing.PMultiplyingStep | MiniPascalCompiler/Parser.cs:391-398 | the loop takes a step exactly at `*`, `/`, `%` or `and`, and a step consumes tokens |
| Parsing.PFactor | MiniPascalCompiler/Parser.cs:402-444 | a parsed factor consumes at least one token |
| Parsing.PPrimary | MiniPascalCompiler/Parser.cs:405-420 | a parsed primary consumes at least one token |
| Parsing.PParenthesisedOrNot | MiniPascalCompiler/Parser.cs:421-433 | this branch is taken only at `(` or `not` |
| Parsing.PParenthesised | MiniPascalCompiler/Parser.cs:421-426 | a parenthesised expression ends with `)` |
| Parsing.PCallOrVar | MiniPascalCompiler/Parser.cs:446-459 | an identifier followed by `(` is a call, otherwise a variable |
| Parsing.PCallExpr | MiniPascalCompiler/Parser.cs:448-456 | a call expression is named by its first token |
| Parsing.PVariable | MiniPascalCompiler/Parser.cs:259-272 | a variable is an array access exactly when `[` follows the identifier |
| Parsing.PSubscript | MiniPascalCompiler/Parser.cs:263-270 | an array access sits at its identifier and names it |
| Parsing.PArguments | MiniPascalCompiler/Parser.cs:285-299 | `)` right away gives the empty argument list, which stands for the source's `null` (see "## Left out") |
| Parsing.PArgumentsRest | MiniPascalCompiler/Parser.cs:285-299 | the argument loop only appends to the arguments so far |
| Parsing.PStatement | MiniPascalCompiler/Parser.cs:208-217 | the statement kind follows its first token, a token that starts no statement is a syntax error, and a statement consumes tokens |
| Parsing.PBlock | MiniPascalCompiler/Parser.cs:185-206 | a block holds at least one statement and sits at `begin` |
| Parsing.PBlockRest | MiniPascalCompiler/Parser.cs:189-204 | the block loop keeps the statements so far and adds at least one |
| Parsing.PStatementEnd | MiniPascalCompiler/Parser.cs:189-204 | after a statement only `;` or `end` may follow; `end`, or `;` then `end`, closes the block, and `;` alone continues it |
| Parsing.PVarDeclaration | MiniPascalCompiler/Parser.cs:301-313 | a declaration names at least one variable |
| Parsing.PIdentifiers | MiniPascalCompiler/Parser.cs:305-309 | the identifier list keeps what it had and adds at least one |
| Parsing.PSignature | MiniPascalCompiler/Parser.cs:152-155 | a signature spans the name, `(`, parameters and `)` |
| Parsing.PParameterClause | MiniPascalCompiler/Parser.cs:152-155 | a parameter clause is enclosed in parentheses |
| Parsing.PProcedure | MiniPascalCompiler/Parser.cs:148-159 | a procedure declaration parses to a procedure node |
| Parsing.PProcedureRest | MiniPascalCompiler/Parser.cs:148-159 | the rest of a procedure declaration parses to a procedure node |
| Parsing.PProcedureBody | MiniPascalCompiler/Parser.cs:148-159 | a procedure body completes a procedure node |
| Parsing.PFunction | MiniPascalCompiler/Parser.cs:107-120 | a function declaration parses to a function node |
| Parsing.PFunctionRest | MiniPascalCompiler/Parser.cs:107-120 | the rest of a function declaration parses to a function node |
| Parsing.PFunctionBody | MiniPascalCompiler/Parser.cs:107-120 | a function body completes a function node |
| Parsing.PReturnType | MiniPascalCompiler/Parser.cs:107-120 | a return type is `:`, a type, then `;` |
| Parsing.PParameters | MiniPascalCompiler/Parser.cs:122-140 | `)` right away gives the empty parameter list, which stands for the source's `null` (see "## Left out") |
| Parsing.PParameterList | MiniPascalCompiler/Parser.cs:122-140 | a parameter list has at least one parameter |
| Parsing.PParameterListRest | MiniPascalCompiler/Parser.cs:122-140 | the list only grows, and stops where no `,` follows |
| Parsing.PParameter | MiniPascalCompiler/Parser.cs:122-140 | a parameter is by reference exactly when it is marked `var` |
| Parsing.PWhile | MiniPascalCompiler/Parser.cs:161-169 | a while statement parses to a while node |
| Parsing.PWhileRest | MiniPascalCompiler/Parser.cs:161-169 | the while node sits at its keyword |
| Parsing.PIf | MiniPascalCompiler/Parser.cs:171-183 | an if statement parses to an if node at its keyword |
| Parsing.PIfRest | MiniPascalCompiler/Parser.cs:171-183 | the if node sits at its keyword |
| Parsing.PIfBranches | MiniPascalCompiler/Parser.cs:171-183 | the if node keeps the parsed test |
| Parsing.PElse | MiniPascalCompiler/Parser.cs:171-183 | there is an else branch exactly when `else` follows |
| Parsing.PAssert | MiniPascalCompiler/Parser.cs:219-225 | an assert statement parses to an assert node |
| Parsing.PReturn | MiniPascalCompiler/Parser.cs:227-236 | a return carries a value exactly when the next token can start an expression |
| Parsing.PAssignmentOrCall | MiniPascalCompiler/Parser.cs:238-248 | a statement starting with an identifier is a call exactly when `(` follows, else an assignment |
| Parsing.PAssignment | MiniPascalCompiler/Parser.cs:250-257 | an assignment sits at its first token |
| Parsing.PCall | MiniPascalCompiler/Parser.cs:274-283 | a call statement parses to a call node |
| Parsing.PProgram | MiniPascalCompiler/Parser.cs:46-55 | a program starts with `program`, is named by the next token and has a nonempty block |
| Parsing.PProgramBody | MiniPascalCompiler/Parser.cs:51-54 | the program keeps its name and position and has a nonempty block |
| Parsing.TokenSource.GetNextToken | MiniPascalCompiler/Parser.cs:65 | the scanner hands out the tokens in order, EOF after the last |
| Parsing.Parser.constructor | MiniPascalCompiler/Parser.cs:26-44 | the parser starts on the scanner's first token with empty lookahead |
| Parsing.Parser.NextToken | MiniPascalCompiler/Parser.cs:57-67 | the parser moves one token on, taking it from the lookahead buffer when that is not empty |
| Parsing.Parser.MatchPeek | MiniPascalCompiler/Parser.cs:69-83 | peeking fills the buffer to the offset and tests the token at the index as written; with an empty buffer, the token `offset` ahead |
| Parsing.Parser.Accept | MiniPascalCompiler/Parser.cs:85-94 | accepting succeeds exactly on an expected type, then records the token and moves on; otherwise nothing changes |
| Parsing.Parser.Match | MiniPascalCompiler/Parser.cs:96-105 | matching returns the current token and moves on exactly when it has the expected type, else a syntax error |
| Parsing.Parser.Parse | MiniPascalCompiler/Parser.cs:46-55 | with the corrected sign rule: the program parsed equals the reference parse `PProgram` of the scanner's tokens |
| Parsing.Parser.ParseProgramBody | MiniPascalCompiler/Parser.cs:51-54 | result equals `PProgramBody` |
| Parsing.Parser.ParseIdentifier | MiniPascalCompiler/Parser.cs:142-146 | result and new position equal those of `PIdentifier` |
| Parsing.Parser.ParseTypeName | MiniPascalCompiler/Parser.cs:339-348 | result is `PTypeName` of the accepted token |
| Parsing.Parser.ParseTypeAnnotation | MiniPascalCompiler/Parser.cs:310-311 | result and new position equal those of `PTypeAnnotation` |
| Parsing.Parser.ParseType | MiniPascalCompiler/Parser.cs:315-337 | result and new position equal those of `PType` |
| Parsing.Parser.ParseExpression | MiniPascalCompiler/Parser.cs:350-364 | with the corrected sign rule: result and new position equal those of `PExpression` |
| Parsing.Parser.ParseSimpleExpression | MiniPascalCompiler/Parser.cs:366-385 | with the corrected sign rule: result and new position equal those of `PSimple` |
| Parsing.Parser.ParseAddingOperators | MiniPascalCompiler/Parser.cs:376-383 | result and new position equal those of `PSimpleRest` |
| Parsing.Parser.ParseAddingStep | MiniPascalCompiler/Parser.cs:376-383 | result and new position equal those of `PAddingStep` |
| Parsing.Parser.ParseTerm | MiniPascalCompiler/Parser.cs:387-400 | result and new position equal those of `PTerm` |
| Parsing.Parser.ParseMultiplyingOperators | MiniPascalCompiler/Parser.cs:391-398 | result and new position equal those of `PTermRest` |
| Parsing.Parser.ParseMultiplyingStep | MiniPascalCompiler/Parser.cs:391-398 | result and new position equal those of `PMultiplyingStep` |
| Parsing.Parser.ParseFactor | MiniPascalCompiler/Parser.cs:402-444 | result and new position equal those of `PFactor` |
| Parsing.Parser.ParsePrimary | MiniPascalCompiler/Parser.cs:405-420 | result and new position equal those of `PPrimary` |
| Parsing.Parser.ParseParenthesisedOrNot | MiniPascalCompiler/Parser.cs:421-433 | result and new position equal those of `PParenthesisedOrNot` |
| Parsing.Parser.ParseParenthesised | MiniPascalCompiler/Parser.cs:421-426 | result and new position equal those of `PParenthesised` |
| Parsing.Parser.ParseCallOrVarExpr | MiniPascalCompiler/Parser.cs:446-459 | result and new position equal those of `PCallOrVar` |
| Parsing.Parser.ParseCallExpr | MiniPascalCompiler/Parser.cs:448-456 | result and new position equal those of `PCallExpr` |
| Parsing.Parser.ParseVariable | MiniPascalCompiler/Parser.cs:259-272 | result and new position equal those of `PVariable` |
| Parsing.Parser.ParseSubscript | MiniPascalCompiler/Parser.cs:263-270 | result and new position equal those of `PSubscript` |
| Parsing.Parser.ParseArguments | MiniPascalCompiler/Parser.cs:285-299 | result and new position equal those of `PArguments` |
| Parsing.Parser.ParseMoreArguments | MiniPascalCompiler/Parser.cs:289-298 | result and new position equal those of `PArgumentsRest` |
| Parsing.Parser.ParseStatement | MiniPascalCompiler/Parser.cs:208-217 | result and new position equal those of `PStatement` |
| Parsing.Parser.ParseBlock | MiniPascalCompiler/Parser.cs:185-206 | result and new position equal those of `PBlock` |
| Parsing.Parser.ParseBlockStatements | MiniPascalCompiler/Parser.cs:189-204 | result and new position equal those of `PBlockRest` from no statements |
| Parsing.Parser.ParseStatementEnd | MiniPascalCompiler/Parser.cs:196-203 | result and new position equal those of `PStatementEnd` |
| Parsing.Parser.ParseVarDeclaration | MiniPascalCompiler/Parser.cs:301-313 | result and new position equal those of `PVarDeclaration` |
| Parsing.Parser.ParseIdentifierList | MiniPascalCompiler/Parser.cs:305-309 | result and new position equal those of `PIdentifiers` from no identifiers |
| Parsing.Parser.ParseProcedureDeclaration | MiniPascalCompiler/Parser.cs:148-159 | result and new position equal those of `PProcedure` |
| Parsing.Parser.ParseProcedureRest | MiniPascalCompiler/Parser.cs:148-159 | result and new position equal those of `PProcedureRest` |
| Parsing.Parser.ParseProcedureBody | MiniPascalCompiler/Parser.cs:148-159 | result and new position equal those of `PProcedureBody` |
| Parsing.Parser.ParseFunctionDeclaration | MiniPascalCompiler/Parser.cs:107-120 | result and new position equal those of `PFunction` |
| Parsing.Parser.ParseFunctionRest | MiniPascalCompiler/Parser.cs:107-120 | result and new position equal those of `PFunctionRest` |
| Parsing.Parser.ParseFunctionBody | MiniPascalCompiler/Parser.cs:107-120 | result and new position equal those of `PFunctionBody` |
| Parsing.Parser.ParseSignature | MiniPascalCompiler/Parser.cs:152-155 | result and new position equal those of `PSignature` |
| Parsing.Parser.ParseParameterClause | MiniPascalCompiler/Parser.cs:152-155 | result and new position equal those of `PParameterClause` |
| Parsing.Parser.ParseReturnType | MiniPascalCompiler/Parser.cs:107-120 | result and new position equal those of `PReturnType` |
| Parsing.Parser.ParseParameters | MiniPascalCompiler/Parser.cs:122-140 | result and new position equal those of `PParameters` |
| Parsing.Parser.ParseParameterList | MiniPascalCompiler/Parser.cs:122-140 | result and new position equal those of `PParameterList` |
| Parsing.Parser.ParseMoreParameters | MiniPascalCompiler/Parser.cs:122-140 | result and new position equal those of `PParameterListRest` |
| Parsing.Parser.ParseParameter | MiniPascalCompiler/Parser.cs:122-140 | result and new position equal those of `PParameter` |
| Parsing.Parser.ParseWhileStatement | MiniPascalCompiler/Parser.cs:161-169 | result and new position equal those of `PWhile` |
| Parsing.Parser.ParseWhileRest | MiniPascalCompiler/Parser.cs:161-169 | result and new position equal those of `PWhileRest` |
| Parsing.Parser.ParseIfStatement | MiniPascalCompiler/Parser.cs:171-183 | result and new position equal those of `PIf` |
| Parsing.Parser.ParseIfRest | MiniPascalCompiler/Parser.cs:171-183 | result and new position equal those of `PIfRest` |
| Parsing.Parser.ParseIfBranches | MiniPascalCompiler/Parser.cs:171-183 | result and new position equal those of `PIfBranches` |
| Parsing.Parser.ParseElse | MiniPascalCompiler/Parser.cs:171-183 | result and new position equal those of `PElse` |
| Parsing.Parser.ParseAssertStmt | MiniPascalCompiler/Parser.cs:219-225 | result and new position equal those of `PAssert` |
| Parsing.Parser.ParseReturnStmt | MiniPascalCompiler/Parser.cs:227-236 | result and new position equal those of `PReturn` |
| Parsing.Parser.ParseAssignmentOrCall | MiniPascalCompiler/Parser.cs:238-248 | result and new position equal those of `PAssignmentOrCall` |
| Parsing.Parser.ParseAssignment | MiniPascalCompiler/Parser.cs:250-257 | result and new position equal those of `PAssignment` |
| Parsing.Parser.ParseCall | MiniPascalCompiler/Parser.cs:274-283 | result and new position equal those of `PCall` |
| Parsing.ParseTokens | MiniPascalCompiler/Parser.cs:26-55 | with the corrected sign rule: a parser built on a token sequence parses it like `PProgram` from its first token |
| ParsingProperties.FoldLeftLast | MiniPascalCompiler/Parser.cs:376-398 | folding one more operator and operand puts the whole earlier fold on the left of a new binary node |
| ParsingProperties.FoldLeftFirst | MiniPascalCompiler/Parser.cs:376-398 | the leftmost leaf of a fold is the first operand |
| ParsingProperties.AddingFold | MiniPascalCompiler/Parser.cs:376-383 | a run of adding operators and terms parses to their left-nested fold |
| ParsingProperties.AddingFoldComplete | MiniPascalCompiler/Parser.cs:376-383 | every successful adding loop is such a run, and its result is that fold |
| ParsingProperties.MultiplyingFold | MiniPascalCompiler/Parser.cs:391-398 | a run of multiplying operators and factors parses to their left-nested fold |
| ParsingProperties.MultiplyingFoldComplete | MiniPascalCompiler/Parser.cs:391-398 | every successful multiplying loop is such a run, and its result is that fold |
| ParsingProperties.SimpleExpressionShape | MiniPascalCompiler/Parser.cs:366-385 | corrected sign rule (`WithLeadingSign`): a simple expression is the fold over its terms, with the leading sign applied to the first term only |
| ParsingProperties.SubtractionGroupsLeft | MiniPascalCompiler/Parser.cs:376-383 | `a - b - c` parses as `(a - b) - c` |
| ParsingProperties.ChainedComparisonRejected | MiniPascalCompiler/Parser.cs:350-364 | in `assert a < b < c` the assert ends after `a < b`, and the block containing it fails at the second comparison |
| ParsingProperties.Comparison | MiniPascalCompiler/Parser.cs:350-364 | an expression takes at most one relational operator |
| ParsingProperties.BlockCloses | MiniPascalCompiler/Parser.cs:189-204 | a statement followed by a closing ending completes the block |
| ParsingProperties.EndOfBlock | MiniPascalCompiler/Parser.cs:196-203 | a closing ending is read as closing |
| ParsingProperties.NextStatement | MiniPascalCompiler/Parser.cs:196-203 | a continuing `;` is read as continuing |
| ParsingProperties.StatementEnded | MiniPascalCompiler/Parser.cs:189-204 | every statement ending is closing or continuing |
| ParsingProperties.BlockOfRun | MiniPascalCompiler/Parser.cs:185-206 | `begin` followed by a run of separated statements parses to the block of those statements |
| ParsingProperties.RunOfBlock | MiniPascalCompiler/Parser.cs:185-206 | every parsed block is `begin` followed by such a run |
| ParsingProperties.BlockIsRun | MiniPascalCompiler/Parser.cs:185-206 | a block parses to given statements exactly when they form a run after `begin` |
| ParsingProperties.ParametersAreRun | MiniPascalCompiler/Parser.cs:122-140 | a parameter list parses to given parameters exactly when it is empty before `)` or a run of comma-separated parameters |
| ParsingProperties.ParametersOfRun | MiniPascalCompiler/Parser.cs:122-140 | a run of comma-separated parameters parses to those parameters |
| ParsingProperties.RunOfParameters | MiniPascalCompiler/Parser.cs:122-140 | every parsed nonempty parameter list is such a run |
| ParsingProperties.DeclaredTypes | MiniPascalCompiler/Parser.cs:315-348 | a parsed type is one of the four basic types; an array type is `array [ size ] of name` |
| ParsingProperties.ProgramShape | MiniPascalCompiler/Parser.cs:46-55 | a program parses exactly when it is `program name ;`, then a block, then `.`, and the node holds these |
| ParsingProperties.ProgramBodyShape | MiniPascalCompiler/Parser.cs:51-54 | the program body parses exactly when it is `;`, a block and `.` |
| ParsingProperties.NegativeParenthesised | MiniPascalCompiler/Parser.cs:421-426 | `( - 1 )` parses to the literal 1 with a minus sign |
| ParsingProperties.NegativeParenthesisedAsWritten | MiniPascalCompiler/Parser.cs:375 | as written: the outer simple expression then overwrites that minus with plus |
| ParsingProperties.NegativeParenthesisedKept | MiniPascalCompiler/Parser.cs:366-385 | corrected: `( - 1 )` as a whole expression keeps its minus sign |
| Semantics.TestCheck | MiniPascalCompiler/SemanticAnalyzer.cs:127-140 | checking a condition only appends errors |
| Semantics.ParamsCheck | MiniPascalCompiler/SemanticAnalyzer.cs:38-44 | over the corrected `Add`: every parameter becomes a parameter symbol in the callable's scope, in order, and scopes are untouched |
| Semantics.VarsCheck | MiniPascalCompiler/SemanticAnalyzer.cs:325-335 | over the corrected `Add`: declaring variables touches no scope and only appends errors |
| Semantics.StmtCheck | MiniPascalCompiler/SemanticAnalyzer.cs:291-352 | over the corrected `Add`: checking a statement restores the scope stack and return types and only appends errors |
| Semantics.CallableCheck | MiniPascalCompiler/SemanticAnalyzer.cs:32-54 | over the corrected `Add`: checking a declaration restores the scope stack and return types and only appends errors |
| Semantics.StmtsCheck | MiniPascalCompiler/SemanticAnalyzer.cs:294-297 | over the corrected `Add`: checking statements in sequence restores the scope stack and only appends errors |
| Semantics.SemanticAnalyzer.constructor | MiniPascalCompiler/SemanticAnalyzer.cs:18-24 | the analyzer starts with the initial table, an empty type stack and Void as the top-level return type |
| Semantics.SemanticAnalyzer.Analyze | MiniPascalCompiler/SemanticAnalyzer.cs:26-30 | over the corrected `Add`: analysis checks the program block as `StmtCheck` does and returns the table |
| Semantics.SemanticAnalyzer.PushType | MiniPascalCompiler/SemanticAnalyzer.cs:14 | pushing puts the type on top of the type stack |
| Semantics.SemanticAnalyzer.PopType | MiniPascalCompiler/SemanticAnalyzer.cs:14 | popping returns and removes the top type |
| Semantics.SemanticAnalyzer.AddError | MiniPascalCompiler/SemanticAnalyzer.cs:354-357 | a semantic error with that message is appended |
| Semantics.SemanticAnalyzer.VisitExpr | MiniPascalCompiler/SemanticAnalyzer.cs:142-268 | visiting an expression pushes exactly its type under `ExprCheck` and appends exactly its errors |
| Semantics.SemanticAnalyzer.VisitVariable | MiniPascalCompiler/SemanticAnalyzer.cs:241-253 | likewise for a variable |
| Semantics.SemanticAnalyzer.VisitArrayVariable | MiniPascalCompiler/SemanticAnalyzer.cs:178-206 | likewise for an array access |
| Semantics.SemanticAnalyzer.VisitBinary | MiniPascalCompiler/SemanticAnalyzer.cs:142-157 | likewise for a binary expression |
| Semantics.SemanticAnalyzer.PushBinaryResult | MiniPascalCompiler/SemanticAnalyzer.cs:148-156 | with both operands non-Void, pushes the production type and reports a mismatch when it is Void; with a Void operand, pushes Void silently |
| Semantics.SemanticAnalyzer.VisitUnary | MiniPascalCompiler/SemanticAnalyzer.cs:255-268 | likewise for a unary expression |
| Semantics.SemanticAnalyzer.VisitCallExpr | MiniPascalCompiler/SemanticAnalyzer.cs:159-176 | likewise for a call |
| Semantics.SemanticAnalyzer.VisitMemberAccess | MiniPascalCompiler/SemanticAnalyzer.cs:213-229 | likewise for a member access |
| Semantics.SemanticAnalyzer.CheckCallParameters | MiniPascalCompiler/SemanticAnalyzer.cs:72-101 | the errors appended are exactly `CallCheck`'s, and the type stack is restored |
| Semantics.SemanticAnalyzer.CheckArgument | MiniPascalCompiler/SemanticAnalyzer.cs:83-98 | the argument's own errors are appended, then its type and by-reference errors |
| Semantics.SemanticAnalyzer.VisitStmt | MiniPascalCompiler/SemanticAnalyzer.cs:291-299 | over the corrected `Add`: visiting a statement changes table, return types and errors exactly as `StmtCheck` |
| Semantics.SemanticAnalyzer.VisitStmts | MiniPascalCompiler/SemanticAnalyzer.cs:294-297 | over the corrected `Add`: the statements of a block are visited as `StmtsCheck` |
| Semantics.SemanticAnalyzer.VisitCallable | MiniPascalCompiler/SemanticAnalyzer.cs:32-54 | over the corrected `Add`: visiting a procedure or function declaration is `CallableCheck` |
| Semantics.SemanticAnalyzer.DeclareParameters | MiniPascalCompiler/SemanticAnalyzer.cs:38-44 | over the corrected `Add`: the parameter symbols and the new table are those of `ParamsCheck` |
| Semantics.SemanticAnalyzer.VisitVarDecl | MiniPascalCompiler/SemanticAnalyzer.cs:325-335 | over the corrected `Add`: declaring variables is `VarsCheck` |
| Semantics.SemanticAnalyzer.VisitAssignment | MiniPascalCompiler/SemanticAnalyzer.cs:342-352 | exactly the assignment's errors are appended |
| Semantics.SemanticAnalyzer.CheckTest | MiniPascalCompiler/SemanticAnalyzer.cs:129-134 | exactly the condition's errors are appended |
| Semantics.SemanticAnalyzer.VisitCall | MiniPascalCompiler/SemanticAnalyzer.cs:56-70 | exactly the call statement's errors are appended |
| Semantics.SemanticAnalyzer.VisitReturn | MiniPascalCompiler/SemanticAnalyzer.cs:103-125 | exactly the return's errors against the innermost return type are appended |
| SemanticProperties.StmtAddsOnly | MiniPascalCompiler/SemanticAnalyzer.cs:291-299 | corrected (over `Add`; false of SymbolTable.cs:39): a statement only appends bindings, in the current scope or in scopes it opens itself |
| SemanticProperties.BlockAddsFresh | MiniPascalCompiler/SemanticAnalyzer.cs:291-299 | corrected (over `Add`; false of SymbolTable.cs:39): a block only appends bindings in scopes it opens itself |
| SemanticProperties.CallableAddsOnly | MiniPascalCompiler/SemanticAnalyzer.cs:32-54 | corrected (over `Add`; false of SymbolTable.cs:39): a declaration adds its own symbol in the current scope and everything else in new scopes |
| SemanticProperties.LookupUnchanged | MiniPascalCompiler/SemanticAnalyzer.cs:291-299 | bindings added only in scopes issued later do not change any lookup |
| SemanticProperties.BlockHidesInnerNames | MiniPascalCompiler/SemanticAnalyzer.cs:291-299 | corrected (over `Add`; false of SymbolTable.cs:39): after a block, every name finds what it found before the block |
| SemanticProperties.FreshScopeIsEmpty | MiniPascalCompiler/SemanticAnalyzer.cs:293 | a newly entered scope declares no name |
| SemanticProperties.BinaryOperandOrder | MiniPascalCompiler/SemanticAnalyzer.cs:142-157 | left errors come before right errors; the type is the production type; a mismatch is reported with the operand types in popped order (right, left) |
| SemanticProperties.VoidOperandIsPoison | MiniPascalCompiler/SemanticAnalyzer.cs:142-268 | a Void operand makes the expression Void and adds no error of its own |
| SemanticProperties.VoidStatementPartIsPoison | MiniPascalCompiler/SemanticAnalyzer.cs:127-140 | a Void condition, assigned variable or value, or argument adds no error beyond its own |
| SemanticProperties.VariableResolution | MiniPascalCompiler/SemanticAnalyzer.cs:241-253 | a variable is clean exactly when it is found, gets the found type, and otherwise is Void with one error |
| SemanticProperties.ArrayElementType | MiniPascalCompiler/SemanticAnalyzer.cs:178-206 | an access is clean exactly for an array with an int (or Void) subscript, and then has the element type |
| SemanticProperties.MemberAccessRule | MiniPascalCompiler/SemanticAnalyzer.cs:213-229 | `.size` of an array is Int; any other member is Void with one error |
| SemanticProperties.ArityReportedOnce | MiniPascalCompiler/SemanticAnalyzer.cs:72-79 | a wrong argument count gives exactly one error, whatever the arguments are |
| SemanticProperties.ArgumentsClean | MiniPascalCompiler/SemanticAnalyzer.cs:72-101 | the arguments give no error exactly when each argument is clean against its parameter |
| SemanticProperties.ArgumentErrorsReported | MiniPascalCompiler/SemanticAnalyzer.cs:80-100 | every error about an argument appears among the call's errors |
| SemanticProperties.DeclaredAfterVars | MiniPascalCompiler/SemanticAnalyzer.cs:325-335 | after a declaration, a name is in the current scope exactly when it was before or is declared |
| SemanticProperties.AddDeclares | MiniPascalCompiler/SemanticAnalyzer.cs:329 | after adding, a name is in the current scope exactly when it was before or is the added name |
| SemanticProperties.DeclarationClean | MiniPascalCompiler/SemanticAnalyzer.cs:325-335 | a declaration reports nothing exactly when its names are distinct and new to the current scope |
| SemanticProperties.DuplicateReported | MiniPascalCompiler/SemanticAnalyzer.cs:325-335 | a name repeated in one declaration is reported as already declared |
| SemanticProperties.ReturnRules | MiniPascalCompiler/SemanticAnalyzer.cs:103-125 | a bare return is fine exactly in a procedure; a value in a procedure is one error; a value in a function is clean exactly when it is assignable to the return type |
| SemanticProperties.TopLevelIsProcedureBody | MiniPascalCompiler/SemanticAnalyzer.cs:23 | at the top level a bare return is accepted and a return with a value is an error |
| SemanticProperties.SelfCallIsUndeclared | MiniPascalCompiler/SemanticAnalyzer.cs:32-54 | a procedure calling itself gets "undeclared procedure", since it is added only after its body |
| SemanticProperties.SelfCallBody | MiniPascalCompiler/SemanticAnalyzer.cs:56-70 | inside that body the call finds nothing |
| SemanticProperties.WritelnTakesNoArguments | MiniPascalCompiler/SemanticAnalyzer.cs:72-79 | `writeln(1)` is reported as an argument-count mismatch, since writeln is registered with no parameters |
| SemanticProperties.WritelnCallErrors | MiniPascalCompiler/SemanticAnalyzer.cs:72-79 | the same at the call level |
| SemanticProperties.DeclareXFirst | MiniPascalCompiler/SemanticAnalyzer.cs:325-335 | declaring `x` at the top level is clean and declares it |
| SemanticProperties.DeclareXWellScoped | MiniPascalCompiler/SemanticAnalyzer.cs:325-335 | the table after it is well scoped |
| SemanticProperties.SameScopeRedeclaration | MiniPascalCompiler/SemanticAnalyzer.cs:325-335 | declaring `x` twice in one scope gives exactly one "already declared" error |
| SemanticProperties.InnerScopeRedeclaration | MiniPascalCompiler/SemanticAnalyzer.cs:291-299 | redeclaring `x` in an inner block is allowed |
| SemanticProperties.PredefinedRedeclaration | MiniPascalCompiler/SemanticAnalyzer.cs:325-335 | a program may declare its own `true` |
| LambdaLifting.FreeVariablesOf | MiniPascalCompiler/LambdaLifter.cs:35-36 | free variables are available exactly for a callable declaration symbol, and are its recorded ones |
| LambdaLifting.ParameterFor | MiniPascalCompiler/LambdaLifter.cs:40-50 | a free variable becomes a by-reference parameter of the same name and type, with no array size |
| LambdaLifting.ArgumentFor | MiniPascalCompiler/LambdaLifter.cs:61 | a free variable becomes a variable argument of the same name |
| LambdaLifting.AddedParameters | MiniPascalCompiler/LambdaLifter.cs:36-52 | one parameter per free variable, in order |
| LambdaLifting.AddedArguments | MiniPascalCompiler/LambdaLifter.cs:59-67 | one argument per free variable, in order |
| LambdaLifting.LiftStmt | MiniPascalCompiler/LambdaLifter.cs:25-70 | lifting keeps the kind of every block, call and declaration |
| LambdaLifting.LiftCallable | MiniPascalCompiler/LambdaLifter.cs:33-54 | lifting a declaration keeps it a procedure or function |
| LambdaLifting.LiftStmts | MiniPascalCompiler/LambdaLifter.cs:25-31 | lifting a block keeps its number of statements |
| LambdaLifting.LiftedCallableParameters | MiniPascalCompiler/LambdaLifter.cs:33-54 | a lifted declaration keeps its parameters and appends one by-reference parameter per free variable, with its name and type |
| LambdaLifting.LiftedCallArguments | MiniPascalCompiler/LambdaLifter.cs:56-68 | a lifted call keeps its arguments and appends one variable argument per free variable, and changes nothing else |
| LambdaLifting.LiftedCallFitsCallee | MiniPascalCompiler/LambdaLifter.cs:33-68 | a call and its declaration gain the same number of items, those items match by name, and a call that fit still fits |
| LambdaLifting.LiftedArgumentFits | MiniPascalCompiler/LambdaLifter.cs:33-68 | each added parameter lines up with the added argument of the same name |
| LambdaLifting.UnvisitedStatementsUnchanged | MiniPascalCompiler/LambdaLifter.cs:70 | statements other than blocks, declarations and calls are left as they are |
| LambdaLifting.NestedCallNotLifted | MiniPascalCompiler/LambdaLifter.cs:25-31 | a call directly under `while` or `if` is not lifted, even when its callee gains parameters |
| LambdaLifting.ClosedUnchanged | MiniPascalCompiler/LambdaLifter.cs:33-68 | a statement whose declarations and calls have no free variables is unchanged by lifting |
| LambdaLifting.ClosedAllUnchanged | MiniPascalCompiler/LambdaLifter.cs:25-31 | likewise for a list of statements |
| LambdaLifting.LambdaLifter.constructor | MiniPascalCompiler/LambdaLifter.cs:14-18 | the lifter holds the given program |
| LambdaLifting.LambdaLifter.LiftLambdas | MiniPascalCompiler/LambdaLifter.cs:20-23 | the result is the lifted program, which replaces the held one on success; on a failure (a callable or call without its symbol) the model keeps the old program, where the source has already updated the nodes visited before the null dereference |
| LambdaLifting.LambdaLifter.VisitStmt | MiniPascalCompiler/LambdaLifter.cs:29 | the result is `LiftStmt` |
| LambdaLifting.LambdaLifter.VisitBlock | MiniPascalCompiler/LambdaLifter.cs:25-31 | the result is `LiftStmt` of the block |
| LambdaLifting.LambdaLifter.VisitCallable | MiniPascalCompiler/LambdaLifter.cs:33-54 | the result is `LiftStmt` of the declaration |
| LambdaLifting.LambdaLifter.AddFreeParameters | MiniPascalCompiler/LambdaLifter.cs:36-52 | the declaration gets exactly the added parameters appended |
| LambdaLifting.LambdaLifter.VisitCall | MiniPascalCompiler/LambdaLifter.cs:56-68 | the result is `LiftStmt` of the call |
| Cil.NumbersShareTable | MiniPascalCompiler/CILHelper.cs:82-88 | Int and Real operands select the same instruction sequences |
| Cil.OperationCodeMatchesTypeRules | MiniPascalCompiler/CILHelper.cs:82-94 | code exists for an operator at a type exactly when the type checker allows it there; Real also gets `%` |
| Cil.NegatedComparisons | MiniPascalCompiler/CILHelper.cs:20-81 | `<>`, `<=`, `>=` are `=`, `>`, `<` followed by a negation |
| Cil.OperationStackEffect | MiniPascalCompiler/CILHelper.cs:20-94 | every binary operation's code takes two values and leaves one; `not` replaces one |
| Cil.NumberActionEffect | MiniPascalCompiler/CILHelper.cs:20-33 | every number operation takes two values and leaves one |
| Cil.StringActionEffect | MiniPascalCompiler/CILHelper.cs:34-69 | every string operation takes two values and leaves one |
| Cil.BooleanActionEffect | MiniPascalCompiler/CILHelper.cs:70-81 | every boolean operation takes two values and leaves one; `not` replaces one |
| Cil.NotCodeEffect | MiniPascalCompiler/CILHelper.cs:96-100 | the negation code replaces the top value |
| Cil.NotCodeNegates | MiniPascalCompiler/CILHelper.cs:96-100 | the negation code turns true into false and back |
| Cil.ComparisonCodeComputes | MiniPascalCompiler/CILHelper.cs:20-81 | on integers and booleans, every comparison's code leaves the truth of that comparison |
| Cil.ArithmeticCodeComputes | MiniPascalCompiler/CILHelper.cs:22-26 | `+`, `-`, `*` code leaves the sum, difference and product |
| Cil.BooleanCodeComputes | MiniPascalCompiler/CILHelper.cs:72-74 | `and`, `or`, `not` code computes conjunction, disjunction and negation |
| CodeGeneration.Emit | MiniPascalCompiler/CodeGenerator.cs:21-22 | emitting appends the code to the current method only |
| CodeGeneration.DefineLabel | MiniPascalCompiler/CodeGenerator.cs:357-358 | a new label is the current method's next label number, with no code emitted |
| CodeGeneration.DeclareLocal | MiniPascalCompiler/CodeGenerator.cs:94 | a new local is the current method's next local slot, with no code emitted |
| CodeGeneration.DefineField | MiniPascalCompiler/CodeGenerator.cs:102 | a new static field is appended to the type's fields, methods untouched |
| CodeGeneration.ArrayVarGen | MiniPascalCompiler/CodeGenerator.cs:103-117 | a global or local array variable gets load size, `newarr`, store; any other symbol emits nothing |
| CodeGeneration.ArrayVarsGen | MiniPascalCompiler/CodeGenerator.cs:103-118 | allocating the arrays only appends code to the current method |
| CodeGeneration.ScalarVarGen | MiniPascalCompiler/CodeGenerator.cs:123-138 | declaring a scalar only appends to the current method |
| CodeGeneration.ScalarVarsGen | MiniPascalCompiler/CodeGenerator.cs:121-139 | declaring scalars only appends to the current method |
| CodeGeneration.VarDeclGen | MiniPascalCompiler/CodeGenerator.cs:88-140 | a declaration only appends to the current method |
| CodeGeneration.AssignGen | MiniPascalCompiler/CodeGenerator.cs:142-201 | an assignment only appends to the current method |
| CodeGeneration.ReturnGen | MiniPascalCompiler/CodeGenerator.cs:309-316 | a return only appends to the current method |
| CodeGeneration.PrintGen | MiniPascalCompiler/CodeGenerator.cs:423-451 | a `writeln` only appends to the current method |
| CodeGeneration.ReadGen | MiniPascalCompiler/CodeGenerator.cs:453-484 | a `read` only appends to the current method |
| CodeGeneration.CallStmtGen | MiniPascalCompiler/CodeGenerator.cs:318-342 | a call statement only appends to the current method |
| CodeGeneration.CallableGen | MiniPascalCompiler/CodeGenerator.cs:281-307 | with corrected parameter positions 1..n: a declaration adds its own method and returns to the enclosing one unchanged |
| CodeGeneration.WhileGen | MiniPascalCompiler/CodeGenerator.cs:375-386 | a while loop only appends to the current method |
| CodeGeneration.IfGen | MiniPascalCompiler/CodeGenerator.cs:354-373 | an if statement only appends to the current method |
| CodeGeneration.IfBranches | MiniPascalCompiler/CodeGenerator.cs:359-372 | the branches only append to the current method |
| CodeGeneration.StmtGen | MiniPascalCompiler/CodeGenerator.cs:78-386 | with corrected parameter positions and call signs: every statement only appends code and methods and leaves the method stack as it found it |
| CodeGeneration.StmtsGen | MiniPascalCompiler/CodeGenerator.cs:78-86 | with corrected parameter positions and call signs: a block's statements together only append |
| CodeGeneration.ExprCodePushesOne | MiniPascalCompiler/CodeGenerator.cs:203-279 | every expression's code runs on an empty stack and leaves exactly one value |
| CodeGeneration.ArgsCodePushesEach | MiniPascalCompiler/CodeGenerator.cs:332-335 | arguments' code leaves one value per argument |
| CodeGeneration.SignNegatesValue | MiniPascalCompiler/CodeGenerator.cs:415-421 | corrected for calls (CodeGenerator.cs:344-352 never applies the sign, see `CallSignAsWrittenIgnored`): code generation succeeds for a minus sign exactly when it does for a plus sign; the minus adds one trailing `neg` for every expression except string literals, unary expressions and members other than `.size`, and changes nothing for those |
| CodeGeneration.NegNegates | MiniPascalCompiler/CodeGenerator.cs:419 | `neg` replaces the top value by its negation |
| CodeGeneration.WideningExactlyWhenTypesDiffer | MiniPascalCompiler/CodeGenerator.cs:261-269 | an operand is widened by `conv.r8` exactly when the result is real and the operand is not |
| CodeGeneration.MixedOperandsWidenTheInt | MiniPascalCompiler/CodeGenerator.cs:261-269 | in a mixed int/real operation exactly the int operand is widened, once |
| CodeGeneration.LoadStoreByKind | MiniPascalCompiler/CodeGenerator.cs:142-227 | globals use `ldsfld`/`stsfld`, locals `ldloc`/`stloc`, parameters `ldarg`/`starg` at position - 1; loads and stores exist for the same symbols |
| CodeGeneration.ParameterPositions | MiniPascalCompiler/CodeGenerator.cs:294-299 | corrected: the k-th of distinct parameters gets position k + 1, and others keep theirs |
| CodeGeneration.ParameterPositionsAsWritten | MiniPascalCompiler/CodeGenerator.cs:294-299 | as written: every parameter gets position 1 |
| CodeGeneration.ParameterLoadReadsItsArgument | MiniPascalCompiler/CodeGenerator.cs:294-299 | corrected: the k-th parameter loads argument k |
| CodeGeneration.ParameterLoadAsWrittenCollides | MiniPascalCompiler/CodeGenerator.cs:294-299 | as written: two different parameters both load argument 0 |
| CodeGeneration.CallSignAsWrittenIgnored | MiniPascalCompiler/CodeGenerator.cs:344-352 | as written: `-f()` and `f()` give the same code, ending in the call |
| CodeGeneration.CallSignApplied | MiniPascalCompiler/CodeGenerator.cs:344-352 | corrected: `-f()` is the call followed by `neg` |
| CodeGeneration.WhileLowering | MiniPascalCompiler/CodeGenerator.cs:375-386 | a while loop becomes jump to the test, body label, body, test label, test, branch-if-true back |
| CodeGeneration.IfBranchesLowering | MiniPascalCompiler/CodeGenerator.cs:359-372 | the branches become then-code, jump to done, false label, else-code (or `nop`), done label |
| CodeGeneration.IfLowering | MiniPascalCompiler/CodeGenerator.cs:354-373 | an if becomes test, branch-if-false, then-code, jump, false label, else-code or `nop`, done label, with two fresh labels |
| CodeGeneration.PrintLowering | MiniPascalCompiler/CodeGenerator.cs:423-451 | `writeln` with arguments builds an object array of their count, joins it with `" "` and prints it, leaving the stack balanced |
| CodeGeneration.PrintArgsBalanced | MiniPascalCompiler/CodeGenerator.cs:432-440 | storing all arguments into the array leaves the stack as it was |
| CodeGeneration.PrintItemBalanced | MiniPascalCompiler/CodeGenerator.cs:434-438 | storing one boxed argument leaves the stack as it was |
| CodeGeneration.PrintHeadBalanced | MiniPascalCompiler/CodeGenerator.cs:428-431 | creating the array leaves the stack as it was |
| CodeGeneration.PrintTailBalanced | MiniPascalCompiler/CodeGenerator.cs:441-444 | joining and printing leaves the stack as it was |
| CodeGeneration.UserCallBalanced | MiniPascalCompiler/CodeGenerator.cs:330-341 | a call statement whose arguments fit the callee leaves the stack as it was, popping a returned value |
| CodeGeneration.ReadIntoStorageBalanced | MiniPascalCompiler/CodeGenerator.cs:456-483 | reading into a global or local leaves the stack as it was |
| CodeGeneration.ReadIntoParameterLeavesValue | MiniPascalCompiler/CodeGenerator.cs:456-483 | reading into a parameter stores nothing and leaves the value on the stack |
| CodeGeneration.ReadArgBalance | MiniPascalCompiler/CodeGenerator.cs:456-483 | each read leaves one value less per store emitted |
| CodeGeneration.ArrayDeclLowering | MiniPascalCompiler/CodeGenerator.cs:92-118 | an array declaration stores the size in a new local, then allocates one array per stored variable |
| CodeGeneration.ArrayVarsAllocateEach | MiniPascalCompiler/CodeGenerator.cs:103-118 | the allocation code is one load-size, `newarr`, store triple per global or local variable |
| CodeGeneration.CodeGenerator.constructor | MiniPascalCompiler/CodeGenerator.cs:60-69 | the generator starts in the main method with the two static fields of `true` and `false` defined (both named `_true`) and assigned to those symbols, and with the main method's code storing 1 and 0 in them |
| CodeGeneration.PredefinedBooleansLoad | MiniPascalCompiler/CodeGenerator.cs:60-69 | with that starting storage, `true` and `false` load with `ldsfld` from their own fields and store with `stsfld` into them, and the starting code leaves the stack empty |
| CodeGeneration.CodeGenerator.EmitCode | MiniPascalCompiler/CodeGenerator.cs:21-22 | the new state is `Emit` of the old |
| CodeGeneration.CodeGenerator.NewLabel | MiniPascalCompiler/CodeGenerator.cs:357-358 | label and new state are those of `DefineLabel` |
| CodeGeneration.CodeGenerator.NewLocal | MiniPascalCompiler/CodeGenerator.cs:94 | local and new state are those of `DeclareLocal` |
| CodeGeneration.CodeGenerator.NewField | MiniPascalCompiler/CodeGenerator.cs:102 | field and new state are those of `DefineField` |
| CodeGeneration.CodeGenerator.VisitExpr | MiniPascalCompiler/CodeGenerator.cs:203-279 | with the corrected call sign: succeeds exactly when `ExprCode` does, and then emits exactly that code |
| CodeGeneration.CodeGenerator.VisitArgs | MiniPascalCompiler/CodeGenerator.cs:332-335 | with the corrected call sign: succeeds exactly when `ArgsCode` does, and then emits exactly that code |
| CodeGeneration.CodeGenerator.VisitStmt | MiniPascalCompiler/CodeGenerator.cs:78-386 | with corrected parameter positions and call signs: succeeds exactly when `StmtGen` does, and then reaches its state |
| CodeGeneration.CodeGenerator.VisitBlock | MiniPascalCompiler/CodeGenerator.cs:78-86 | with corrected parameter positions and call signs: likewise for a block |
| CodeGeneration.CodeGenerator.VisitStmts | MiniPascalCompiler/CodeGenerator.cs:80-84 | with corrected parameter positions and call signs: succeeds exactly when `StmtsGen` does, and then reaches its state |
| CodeGeneration.CodeGenerator.AllocateArrayVar | MiniPascalCompiler/CodeGenerator.cs:103-117 | the new state is `ArrayVarGen` of the old |
| CodeGeneration.CodeGenerator.DeclareScalarVar | MiniPascalCompiler/CodeGenerator.cs:123-138 | succeeds exactly when `ScalarVarGen` does, and then reaches its state |
| CodeGeneration.CodeGenerator.VisitVarDecl | MiniPascalCompiler/CodeGenerator.cs:88-140 | succeeds exactly when `VarDeclGen` does, and then reaches its state |
| CodeGeneration.CodeGenerator.DeclareArrays | MiniPascalCompiler/CodeGenerator.cs:92-118 | likewise for an array declaration |
| CodeGeneration.CodeGenerator.AllocateArrayVars | MiniPascalCompiler/CodeGenerator.cs:103-118 | the new state is `ArrayVarsGen` of the old |
| CodeGeneration.CodeGenerator.DeclareScalars | MiniPascalCompiler/CodeGenerator.cs:121-139 | succeeds exactly when `ScalarVarsGen` does, and then reaches its state |
| CodeGeneration.CodeGenerator.VisitAssignment | MiniPascalCompiler/CodeGenerator.cs:142-201 | succeeds exactly when `AssignGen` does, and then reaches its state |
| CodeGeneration.CodeGenerator.VisitReturn | MiniPascalCompiler/CodeGenerator.cs:309-316 | succeeds exactly when `ReturnGen` does, and then reaches its state |
| CodeGeneration.CodeGenerator.EmitPrintCall | MiniPascalCompiler/CodeGenerator.cs:423-451 | succeeds exactly when `PrintGen` does, and then reaches its state |
| CodeGeneration.CodeGenerator.EmitPrintItems | MiniPascalCompiler/CodeGenerator.cs:432-440 | succeeds exactly when `PrintArgsCode` does, and then emits exactly that code |
| CodeGeneration.CodeGenerator.EmitReadCall | MiniPascalCompiler/CodeGenerator.cs:453-484 | succeeds exactly when `ReadGen` does, and then reaches its state |
| CodeGeneration.CodeGenerator.VisitCall | MiniPascalCompiler/CodeGenerator.cs:318-342 | succeeds exactly when `CallStmtGen` does, and then reaches its state |
| CodeGeneration.CodeGenerator.VisitWhile | MiniPascalCompiler/CodeGenerator.cs:375-386 | succeeds exactly when `WhileGen` does, and then reaches its state |
| CodeGeneration.CodeGenerator.EmitWhileTest | MiniPascalCompiler/CodeGenerator.cs:382-385 | emits the test label, the test's code and the branch back, exactly when the test has code |
| CodeGeneration.CodeGenerator.VisitIf | MiniPascalCompiler/CodeGenerator.cs:354-373 | succeeds exactly when `IfGen` does, and then reaches its state |
| CodeGeneration.CodeGenerator.VisitIfBranches | MiniPascalCompiler/CodeGenerator.cs:361-372 | succeeds exactly when `IfBranches` does, and then reaches its state |
| CodeGeneration.CodeGenerator.VisitCallable | MiniPascalCompiler/CodeGenerator.cs:281-307 | with corrected parameter positions 1..n: succeeds exactly when `CallableGen` does, and then reaches its state |

## Left out

- Program.cs (the command line, reading the file, writing the assembly) is I/O and is not part of this model. The source text is a parameter of `SourceReading.Open`.
- `Visit(ProgramNode)` and `Generate` in CodeGenerator.cs:31-76 create the assembly, module and type through `System.Reflection.Emit` and save the result. That part is not modelled. The part of CodeGenerator.cs:60-69 that defines the two static fields of `true` and `false` (both named `_true`) and stores 1 and 0 in them is modelled by `CodeGeneration.CodeGenerator.constructor`. The code after the program's block (the `ret` and the type's creation) is not modelled.
- `symbols.ResetScope()` in the CodeGenerator constructor is not modelled: the generator takes the symbols recorded on the tree as input.
- .NET library behaviour (`Console.ReadLine`, `Console.WriteLine`, `int.Parse`, `double.Parse`, `bool.Parse`, `String.Join`, `String.Compare`) is modelled as named call targets with their stack effect only. `Cil.Exec` evaluates integer and boolean code; strings and floating-point values are not evaluated.
- Real literals are kept as their text. Floating-point arithmetic is not modelled.
- `Cil.ArithmeticCodeComputes`: does not model 32-bit wrap-around of `add`, `sub` and `mul`, because the model's stack holds unbounded integers. Literals are limited to 32 bits (`Ast.NewIntLiteral`).
- `Scanner.GetTokens` (Scanner.cs:66-74) is left out because the enumerator in the source never ends: EOF is a token, not `null`. `ScanningProperties.EofRepeats` shows that EOF repeats forever.
- Character classes are ASCII (letters, digits, whitespace). .NET's Unicode `char.IsLetter` and `char.IsWhiteSpace` are not modelled.
- Dynamic dispatch (`Visit((dynamic)node)`) is a `match` on the node's constructor. An exception the source throws or lets escape is a `Failure` of the stage's `Result`, except in three places: the empty-stack `Peek` (`SymbolTables.SymbolTable.CurrentScope`), the Void-operand pop (`Semantics.SemanticAnalyzer.PushBinaryResult`) and the `"\` escape at the end of the text (`Scanning.StringStep`). The model replaces each of them by the behaviour stated in its line.
- AST nodes are values. The source's in-place annotations (`DeclarationSymbol`, `Type`, `CILLocal`…) are fields already present in the input trees of the lambda lifter and the code generator. Aliasing between nodes is not modelled.
- The SemanticAnalyzer in the source never writes these annotations back to the tree. The model keeps that: `Semantics` computes types, errors and the table, and the later stages take annotated trees as input.
- `Symbol.cs` and `SymbolTable.cs` define two `Symbol` classes. They are merged into one datatype with a `SymbolKind`. The callables' `parameters` and `freeVariables` are in neither class. They come from the later revision that CodeGenerator.cs:284-295 (`funcSymbol.Parameters`) and LambdaLifter.cs:36 and :59 (`symbol.FreeVariables`) are written against, and `Symbols.ProcedureSymbol` and `Symbols.FunctionSymbol` carry them.
- Several files are written against a later revision of the AST and symbol classes than Ast.cs, Symbol.cs and SymbolTable.cs. The model bridges the gaps as follows:
  - Parser.cs:113, :154, :280 and :454 store a `ParameterList` or `ArgumentList`, where Ast.cs:57, :211 and :316 declare `List<…>` fields. The model stores the list itself.
  - Parser.cs:328 and :332 set `node.Size` and `node.Type` of an array type, where Ast.cs:112-116 has `SizeExpr` and `ExprType`. The model has the size expression and the element type.
  - `new TypeInfo(TypeNode)` (SemanticAnalyzer.cs:306, CodeGenerator.cs:90) has no constructor in Symbol.cs. It is `Ast.TypeOfNode`.
  - `GlobalSymbol` (CodeGenerator.cs:100, :207) and `Predefined` (CodeGenerator.cs:322) are in neither Symbol.cs nor SymbolTable.cs. They are `GlobalKind` and scope 0.
- `Parsing.PArguments`: for `(` followed at once by `)`, Parser.cs:289 returns `null`, and the model returns the empty list. The source then dereferences that `null` at SemanticAnalyzer.cs:74 (`arguments.Count`) and LambdaLifter.cs:61 (`call.Arguments.Add`). So a call such as `writeln()` would crash the source unless the later revision's `ArgumentList` conversion turns `null` into an empty list. The model accepts such a call as having no arguments.
- `Parsing.Parser.ParseArguments`: equals `PArguments`, so it gives the empty list where Parser.cs:289 gives `null`.
- `Parsing.PParameters`: for `()` in a declaration, Parser.cs:126 returns `null`, and the model returns the empty list. The source would dereference it in the `foreach` at SemanticAnalyzer.cs:39 and :308, so `procedure p();` would crash it. The model declares a procedure with no parameters.
- `Parsing.Parser.ParseParameters`: equals `PParameters`, so it gives the empty list where Parser.cs:126 gives `null`.
- `SymbolTables.SymbolTable.constructor`: SymbolTable.cs:22-23 registers `true` and `false` as `SymbolType.Variable`. The model registers them as `GlobalKind` variables, so they are variables for the analyzer (`IsVariable`) and static fields for the code generator. CodeGenerator.cs:62-63 gives them a `CILField`, and CodeGenerator.cs:207-210 loads a field only for a `GlobalSymbol`.
- `ErrorHandler.AddError` is called by the analyzer with a line and a column. Those two numbers are not part of the modelled error, whose constructor takes a message and a type.
- `SymbolTables.SymbolTable.CurrentScope`: with no scope entered, the source reads the top of an empty stack, and `Stack.Peek` throws. The source's own constructor therefore throws on its first `AddSymbol` (SymbolTable.cs:10 and 20-26). The model gives 0 (the predefined scope) there, and the constructor adds the predefined names in scope 0. `ExistsInCurrentScope` and an `EnterScope` that returns the new id are written out, since the analyzer calls them.
- `Semantics.SemanticAnalyzer.PushBinaryResult`: the source pushes no type when an operand of a binary expression is Void (SemanticAnalyzer.cs:148-156), and the enclosing expression then pops an empty stack. The model pushes Void instead, so a Void operand poisons the enclosing expression silently.
- `Semantics.SemanticAnalyzer.VisitUnary`: the source pushes no type when the operand of a unary expression is Void (SemanticAnalyzer.cs:259-267). The model pushes Void, as for a binary expression.
- `Semantics.SemanticAnalyzer.VisitMemberAccess`: the source pushes no type when the accessed expression is Void (SemanticAnalyzer.cs:217-228). The model pushes Void, as for a binary expression.
- `Ast.SetOperatorFromTokenInverse`: the `or` token sets no operator, so `a or b` keeps the default operator (`Plus`). This is as written.
- `ScanningProperties.IfIsIdentifier`: the keyword table has no entry for `if`, so `if` lexes as an identifier and the parser cannot read an if statement from text. This is as written.
- `ScanningProperties.OpeningStarCloses`: `/*/` closes a comment, as written.
- `ScanningProperties.OneCharacterSymbol`: a one-character symbol at the end of the text still reads one character past it, as written.
- `SymbolTables.InitialTableContents`: `writeln` and `read` are registered with no parameters, so any call with arguments is an arity error (`SemanticProperties.WritelnTakesNoArguments`). This is as written.
- `Semantics.TestCheck`: a condition of type Bool array passes, because only the basic type is compared. This is as written.
- `Semantics.ParamsCheck`: a duplicate parameter name is not added to the table but stays in the callable's parameter list. This is as written.
- `Parsing.Parser.MatchPeek`: with a non-empty lookahead buffer the source tests the buffered token at the index it computes. That index is kept as written (`PeekIndexAsWritten`), and the parse routines only peek with an empty buffer or one token ahead.
- `SourceReading.ReadFromSource`: the reader line is bumped on every read while the current character is a newline. This is as written.
- `SemanticProperties.ReturnRules`: a Void (already reported) return value in a function still reports a type mismatch. The rule is kept as written.
- `LambdaLifting.LambdaLifter.LiftLambdas`: the source updates nodes in place. When a callable or call has no symbol, the nodes visited before it are already lifted when the null dereference escapes. The model returns a `Failure` and keeps the old program whole.

The following lines name every member that runs on a corrected definition from "## Findings" rather than on the source as written. The as-written behaviour is stated by the as-written member of each finding.

Symbol table: SymbolTable.cs:39 replaces a name's binding list by the new symbol. `SymbolTables.Add` appends to the list instead. Under the source's table, a name redeclared in a closed block is not found at all afterwards (`SymbolTables.InnerDeclarationVanishesAsWritten`).

- `SymbolTables.Add`: appends the new binding, where SymbolTable.cs:39 replaces the list.
- `SymbolTables.InnerDeclarationVanishes`: holds for `Add` only. Under SymbolTable.cs:39 the name is not found after the block (`SymbolTables.InnerDeclarationVanishesAsWritten`).
- `SymbolTables.SymbolTable.AddSymbol`: is proved equal to `Add`, not to `AddAsWritten`.
- `Semantics.ParamsCheck`: declares parameters through `Add`. In the source, a parameter that shadows an outer name removes that outer binding.
- `Semantics.VarsCheck`: declares through `Add`. After a block that shadowed `x`, the source accepts a new outer `var x` and the model reports it as already declared.
- `Semantics.CallableCheck`: adds the callable and its parameters through `Add`.
- `Semantics.StmtCheck`: threads the table built by `Add`. After a shadowing block, lookups differ from the source's.
- `Semantics.StmtsCheck`: threads the table built by `Add`.
- `Semantics.SemanticAnalyzer.Analyze`: equals `StmtCheck` over `Add`.
- `Semantics.SemanticAnalyzer.VisitStmt`: equals `StmtCheck` over `Add`.
- `Semantics.SemanticAnalyzer.VisitStmts`: equals `StmtsCheck` over `Add`.
- `Semantics.SemanticAnalyzer.VisitCallable`: equals `CallableCheck` over `Add`.
- `Semantics.SemanticAnalyzer.DeclareParameters`: equals `ParamsCheck` over `Add`.
- `Semantics.SemanticAnalyzer.VisitVarDecl`: equals `VarsCheck` over `Add`.
- `SemanticProperties.StmtAddsOnly`: the append-only invariant holds only for `Add`. SymbolTable.cs:39 overwrites binding lists.
- `SemanticProperties.BlockAddsFresh`: holds only for `Add`.
- `SemanticProperties.CallableAddsOnly`: holds only for `Add`.
- `SemanticProperties.BlockHidesInnerNames`: holds only for `Add`. In the source, a name shadowed in the block is undeclared after it (`SymbolTables.ShadowingLosesOuterBinding`).

Scanner: for `"\` at the end of the text, Scanner.cs:139 throws an uncaught `InvalidOperationException` (`Scanning.EscapeAsWritten`, `ScanningProperties.BackslashAtEndThrows`). The model reports an escape error and goes on (`Scanning.EscapeFor`, `ScanningProperties.BackslashAtEndReported`).

- `Scanning.StringStep`: uses `EscapeFor`, so a `\` with no character after it is reported instead of throwing.
- `Scanning.StringLoop`: inherits `StringStep`'s end-of-text escape.
- `Scanning.BuildString`: inherits it, and gives a token where the source throws.
- `Scanning.LexToken`: for `"\` at the end, gives a string token with two errors where the source throws.
- `Scanning.LexLiteral`: inherits it through `BuildString`.
- `Scanning.NextToken`: inherits it through `LexToken`.
- `Scanning.Scanner.StringUnit`: uses `EscapeFor`, like `StringStep`.
- `Scanning.Scanner.StringBody`: inherits it.
- `Scanning.Scanner.BuildStringLiteral`: inherits it.
- `Scanning.Scanner.LexCurrent`: inherits it.
- `Scanning.Scanner.GetNextToken`: returns a token for `"\` at the end, where the exception escapes in the source.
- `ScanningProperties.StringStepChars`: its last case states the corrected report for a `\` at the end.

Parser: Parser.cs:375 overwrites the first term's sign with the leading sign. `Parsing.WithLeadingSign` flips it instead. So `x := ( - 1 )` keeps its minus in the model and loses it in the source (`ParsingProperties.NegativeParenthesisedAsWritten`).

- `Parsing.PSimple`: applies `WithLeadingSign`, not `LeadingSignAsWritten`.
- `Parsing.PExpression`: is built on `PSimple`, as is every parse routine that reaches an expression.
- `Parsing.Parser.ParseSimpleExpression`: applies `WithLeadingSign`.
- `Parsing.Parser.ParseExpression`: equals `PExpression`.
- `Parsing.Parser.Parse`: equals `PProgram`, which reaches `PSimple`.
- `Parsing.ParseTokens`: parses like `PProgram`.
- `ParsingProperties.SimpleExpressionShape`: states the shape with `WithLeadingSign`.

Code generator: two corrections are on the main path.

- CodeGenerator.cs:294-299 never increments `index`, so every parameter sits at position 1 (`CodeGeneration.ParameterPositionsAsWritten`, `CodeGeneration.ParameterLoadAsWrittenCollides`).
- CodeGenerator.cs:344-352 never applies a call's sign (`CodeGeneration.CallSignAsWrittenIgnored`).

The model uses `DefineParameters` (positions 1..n) and `CallExprCode` (sign applied).

- `CodeGeneration.CallableGen`: uses `DefineParameters`, not `DefineParametersAsWritten`.
- `CodeGeneration.CodeGenerator.VisitCallable`: its loop advances the parameter index.
- `CodeGeneration.ExprCode`: uses `CallExprCode`, not `CallExprCodeAsWritten`. So does every member that emits an expression's code: `AssignGen`, `ReturnGen`, `PrintGen`, `ReadGen`, `CallStmtGen`, `WhileGen`, `IfGen` and their methods.
- `CodeGeneration.SignNegatesValue`: counts calls among the expressions whose sign is applied.
- `CodeGeneration.StmtGen`: reaches both corrections.
- `CodeGeneration.StmtsGen`: reaches both corrections.
- `CodeGeneration.CodeGenerator.VisitExpr`: emits `neg` after a negated call.
- `CodeGeneration.CodeGenerator.VisitArgs`: emits `neg` after a negated call argument.
- `CodeGeneration.CodeGenerator.VisitStmt`: equals `StmtGen`.
- `CodeGeneration.CodeGenerator.VisitBlock`: equals `StmtGen` of the block.
- `CodeGeneration.CodeGenerator.VisitStmts`: equals `StmtsGen`.

## Findings

| source | as written | input that shows it | evidently intended | confidence | as-written member | corrected member |
|---|---|---|---|---|---|---|
| MiniPascalCompiler/SymbolTable.cs:39 | after appending to an existing binding list, the list is replaced by one holding only the new symbol | `var x : int;` then a block that declares `x` again; after the block, `x` is undeclared | the new symbol is appended and outer bindings are kept | high, not executed | SymbolTables.ShadowingLosesOuterBinding | SymbolTables.ShadowingKeepsOuterBinding |
| MiniPascalCompiler/Parser.cs:375 | the leading sign of a simple expression overwrites the sign already set on the first term | `( - 1 )`: the inner `-1` parses with a minus sign, then the outer expression resets it to plus | a leading `-` negates the term's sign and no sign is lost | high, not executed | ParsingProperties.NegativeParenthesisedAsWritten | ParsingProperties.NegativeParenthesisedKept |
| MiniPascalCompiler/CodeGenerator.cs:294-299 | `index` is never incremented, so every parameter is defined at position 1 | `procedure p(a : int; b : int)`: loading `a` and loading `b` both emit `ldarg 0` | the k-th parameter is defined at position k + 1 and loads argument k | high, not executed | CodeGeneration.ParameterLoadAsWrittenCollides | CodeGeneration.ParameterLoadReadsItsArgument |
| MiniPascalCompiler/CodeGenerator.cs:344-352 | a call expression never applies its sign | `-f()` compiles to the same code as `f()` | a minus sign negates the returned value, as for every other expression | high, not executed | CodeGeneration.CallSignAsWrittenIgnored | CodeGeneration.CallSignApplied |
| MiniPascalCompiler/Scanner.cs:134-147 | `EscapeCharacters[Source.CurrentChar.Value]` is reached with no current character; the `InvalidOperationException` is not caught | the text `"\` ending the input | an unterminated escape is reported as a lexical error like an unknown escape | high, not executed | ScanningProperties.BackslashAtEndThrows | ScanningProperties.BackslashAtEndReported |
