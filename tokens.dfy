/**
 * Tokens (Scanner.cs): the token kinds and a token's kind, position and
 * optional text. Only identifiers, integer literals and string literals
 * carry text.
 */
module Tokens {
  import opened Wrappers

  /**
   * The token kinds in declaration order. `KwIf` is not declared by the
   * enum, although the parser's statement table and `ParseIf` use it; it
   * is placed last.
   */
  datatype TokenType =
    | Identifier | IntLiteral | LParen | RParen | Plus | Minus | KwVar
    | OpAssignment | OpRange | StringLiteral | KwWhile | KwEnd | KwIn | KwDo
    | KwAssert | OpMultiply | OpDivide | OpLess | OpEquals | OpAnd | OpNot
    | LineTerm | Colon | EOF | KwProgram | KwProcedure | KwFunction | KwArray
    | KwOf | KwBegin | KwReturn | KwThen | KwElse | OpOr | Comma | LBracket
    | RBracket | OpModulus | OpDot | OpMore | OpLessOrEquals | OpMoreOrEquals
    | OpNotEquals | RealLiteral
    | KwIf

  datatype Token = Token(tokenType: TokenType, line: int, column: int, content: Option<string>)

  /** The three-argument constructor: a token without text. */
  function PlainToken(tokenType: TokenType, line: int, column: int): (t: Token)
    ensures t.tokenType == tokenType && t.line == line && t.column == column
    ensures t.content == None
  {
    Token(tokenType, line, column, None)
  }

  /** The four-argument constructor: a token carrying its lexeme. */
  function TextToken(tokenType: TokenType, line: int, column: int, content: string): (t: Token)
    ensures t.tokenType == tokenType && t.line == line && t.column == column
    ensures t.content == Some(content)
  {
    Token(tokenType, line, column, Some(content))
  }

  /** `Content`, reading a missing text as the empty string. */
  function ContentOf(t: Token): (s: string)
    ensures t.content.Some? ==> s == t.content.value
    ensures t.content.None? ==> s == ""
  {
    if t.content.Some? then t.content.value else ""
  }
}
