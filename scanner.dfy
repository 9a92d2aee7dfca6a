/**
 * The lexer (`Scanner`, Scanner.cs): turns the characters of a
 * `SourceReader` into tokens, one per `GetNextToken`, reporting lexical
 * errors to the error handler and going on after them.
 *
 * Each step of `GetNextToken` is a function of the reader's state that
 * returns the new state and the errors it reported; the class `Scanner`
 * performs the same steps on a `SourceReader` and an `ErrorHandler`.
 * Character classes are the ASCII ones: `char.IsLetter`, `char.IsNumber`,
 * `char.IsDigit` and `char.IsWhiteSpace` beyond ASCII are not modelled.
 */
module Scanning {
  import opened Wrappers
  import opened Text
  import opened Tokens
  import opened ErrorHandling
  import opened SourceReading

  /** `SymbolTokens`: the one- and two-character symbols. */
  function SymbolToken(s: string): (t: Option<TokenType>)
    ensures t.Some? ==> 1 <= |s| <= 2
  {
    if |s| == 1 then SingleSymbol(s[0])
    else if |s| == 2 then DoubleSymbol(s[0], s[1])
    else None
  }

  /** The one-character entries of `SymbolTokens`. */
  function SingleSymbol(c: char): Option<TokenType>
  {
    if c == '(' then Some(LParen)
    else if c == ')' then Some(RParen)
    else if c == '[' then Some(LBracket)
    else if c == ']' then Some(RBracket)
    else if c == '+' then Some(Plus)
    else if c == '-' then Some(Minus)
    else if c == '/' then Some(OpDivide)
    else if c == '*' then Some(OpMultiply)
    else if c == '%' then Some(OpModulus)
    else if c == '<' then Some(OpLess)
    else if c == '>' then Some(OpMore)
    else if c == '=' then Some(OpEquals)
    else if c == '.' then Some(OpDot)
    else if c == ';' then Some(LineTerm)
    else if c == ':' then Some(Colon)
    else if c == ',' then Some(Comma)
    else None
  }

  /** The two-character entries of `SymbolTokens`: `<=`, `>=`, `<>` and `:=`. */
  function DoubleSymbol(c: char, d: char): Option<TokenType>
  {
    if c == '<' && d == '=' then Some(OpLessOrEquals)
    else if c == '>' && d == '=' then Some(OpMoreOrEquals)
    else if c == '<' && d == '>' then Some(OpNotEquals)
    else if c == ':' && d == '=' then Some(OpAssignment)
    else None
  }

  /** `KeywordTokens`: the reserved words, looked up by length first. There is no entry for `if`. */
  function KeywordToken(s: string): Option<TokenType>
  {
    if |s| == 2 then
      if s == "in" then Some(KwIn)
      else if s == "do" then Some(KwDo)
      else if s == "of" then Some(KwOf)
      else if s == "or" then Some(OpOr)
      else None
    else if |s| == 3 then
      if s == "var" then Some(KwVar)
      else if s == "end" then Some(KwEnd)
      else if s == "not" then Some(OpNot)
      else if s == "and" then Some(OpAnd)
      else None
    else if |s| == 4 then
      if s == "then" then Some(KwThen)
      else if s == "else" then Some(KwElse)
      else None
    else if |s| == 5 then
      if s == "while" then Some(KwWhile)
      else if s == "array" then Some(KwArray)
      else if s == "begin" then Some(KwBegin)
      else None
    else if |s| == 6 then
      if s == "assert" then Some(KwAssert)
      else if s == "return" then Some(KwReturn)
      else None
    else if s == "program" then Some(KwProgram)
    else if s == "function" then Some(KwFunction)
    else if s == "procedure" then Some(KwProcedure)
    else None
  }

  /** `EscapeCharacters`: the character a backslash followed by `c` stands for. */
  function EscapeCharacter(c: char): Option<char>
  {
    if c == '"' then Some('"')
    else if c == '\'' then Some('\'')
    else if c == 'n' then Some('\n')
    else if c == 't' then Some('\t')
    else if c == '\\' then Some('\\')
    else None
  }

  predicate IsWhiteSpace(c: char) { c == ' ' || '\t' <= c <= '\r' }

  predicate IsLetter(c: char) { 'a' <= c <= 'z' || 'A' <= c <= 'Z' }

  /** The characters an identifier continues with: letters, digits and `_`. */
  predicate IsIdentifierChar(c: char) { IsLetter(c) || IsDigit(c) || c == '_' }

  function AtPosition(line: int, column: int): string
  {
    "line " + IntToString(line) + " column " + IntToString(column)
  }

  function UnknownTokenMessage(c: char, line: int, column: int): string
  {
    "Unknown token '" + [c] + "' at " + AtPosition(line, column)
  }

  function EscapeMessage(c: Option<char>, line: int, column: int): string
  {
    "Unrecognized escape sequence '\\" + OptChars(c) + "' at " + AtPosition(line, column)
  }

  function EolMessage(line: int, column: int): string
  {
    "EOL while scanning string literal at " + AtPosition(line, column)
  }

  function CommentMessage(line: int, column: int): string
  {
    "EOF while scanning comment beginning at " + AtPosition(line, column)
  }

  function LexicalErrorOf(message: string): Error
  {
    Error(message, LexicalError)
  }

  /** The reader after a step of the scanner, with the errors the step reported, oldest first. */
  datatype Skipped = Skipped(reader: Reader, errors: seq<Error>)

  /** A value the scanner computed, with the reader afterwards and the errors reported meanwhile. */
  datatype Scanned<T> = Scanned(value: T, reader: Reader, errors: seq<Error>)

  /** `SkipWhitespace`: reads on while the current character is white space. */
  function SkipWhitespaceFrom(r: Reader): (n: Reader)
    ensures Measure(n) <= Measure(r)
    ensures Settled(r) ==> Settled(n)
    ensures r.currentChar.None? ==> n == r
    ensures n.currentChar.None? || !IsWhiteSpace(n.currentChar.value)
    decreases Measure(r)
  {
    if r.currentChar.Some? && IsWhiteSpace(r.currentChar.value) then SkipWhitespaceFrom(Advance(r)) else r
  }

  /** The loop of a `//` comment: reads on until the current character is a newline or there is none. */
  function SkipToLineEnd(r: Reader): (n: Reader)
    ensures Measure(n) <= Measure(r)
    ensures r.currentChar.Some? && r.currentChar != Some('\n') ==> Measure(n) < Measure(r)
    ensures Settled(r) ==> Settled(n)
    decreases Measure(r)
  {
    if r.currentChar.Some? && r.currentChar != Some('\n') then SkipToLineEnd(Advance(r)) else r
  }

  /** A block comment loop's state: the reader and how many comments are open. */
  datatype Nesting = Nesting(reader: Reader, depth: int)

  /**
   * The loop of a block comment: each read character may open a nested
   * comment (`/` before `*`) or close one (`*` before `/`), the second
   * character of the pair being read as well; it stops when the depth
   * reaches zero or the text ends.
   */
  function BlockLoop(r: Reader, depth: int): (s: Nesting)
    ensures Measure(s.reader) <= Measure(r)
    ensures r.currentChar.Some? && depth > 0 ==> Measure(s.reader) < Measure(r)
    decreases Measure(r)
  {
    if !(r.currentChar.Some? && depth > 0) then Nesting(r, depth)
    else
      var n := Advance(r);
      if n.currentChar == Some('/') then
        var p := Peeked(n, 0);
        if p.ch == Some('*') then BlockLoop(Advance(p.reader), depth + 1) else BlockLoop(p.reader, depth)
      else if n.currentChar == Some('*') then
        var p := Peeked(n, 0);
        if p.ch == Some('/') then BlockLoop(Advance(p.reader), depth - 1) else BlockLoop(p.reader, depth)
      else BlockLoop(n, depth)
  }

  /**
   * One pass of `SkipComments`' loop, at a `/` that starts a comment: a
   * `//` comment up to the end of its line, or a block comment and the
   * character after it, reporting a block comment the text ends in at its
   * opening position.
   */
  function SkipComment(r: Reader): (s: Skipped)
    requires r.currentChar == Some('/')
    ensures Measure(s.reader) < Measure(r)
    ensures Settled(s.reader)
  {
    var p := Peeked(r, 0);
    if p.ch == Some('/') then Skipped(SkipToLineEnd(p.reader), [])
    else
      var beginLine, beginColumn := p.reader.currentLine, p.reader.currentColumn;
      var b := BlockLoop(p.reader, 1);
      var n := Advance(b.reader);
      Skipped(n, if b.depth > 0 then [LexicalErrorOf(CommentMessage(beginLine, beginColumn))] else [])
  }

  /** A reader's state and the outcome of a test the reader made. */
  datatype Flagged = Flagged(reader: Reader, flag: bool)

  /**
   * The condition of `SkipComments`' loop: `CurrentAndPeek` is a line comment's
   * opening, or, read a second time, a block comment's.
   */
  function CommentStart(r: Reader): (s: Flagged)
    ensures s.flag ==> s.reader.currentChar == Some('/')
    ensures Measure(s.reader) <= Measure(r)
    ensures Settled(r) ==> Settled(s.reader)
    ensures Exhausted(r) ==> s == Flagged(r, false)
  {
    var a := CurrentAndNext(r);
    if a.text == "//" then Flagged(a.reader, true)
    else
      var b := CurrentAndNext(a.reader);
      Flagged(b.reader, b.text == "/*")
  }

  /** `SkipComments`: skips comments, and the white space after each, while the text ahead starts one. */
  function SkipCommentsFrom(r: Reader): (s: Skipped)
    ensures Measure(s.reader) <= Measure(r)
    ensures Settled(r) ==> Settled(s.reader)
    ensures Exhausted(r) ==> s == Skipped(r, [])
    decreases Measure(r)
  {
    var a := CommentStart(r);
    if !a.flag then Skipped(a.reader, [])
    else
      var c := SkipComment(a.reader);
      var w := SkipWhitespaceFrom(c.reader);
      var rest := SkipCommentsFrom(w);
      Skipped(rest.reader, c.errors + rest.errors)
  }

  /** The lookup `EscapeCharacters[CurrentChar.Value]` as written: it throws when there is no current character. */
  function EscapeAsWritten(c: Option<char>): (r: Result<Option<char>>)
    ensures r.Failure? <==> c.None?
    ensures r.Success? ==> (r.value.Some? <==> c.value in "\"'nt\\")
    ensures r == Success(Some('\n')) <==> c == Some('n')
  {
    if c.None? then Failure("InvalidOperationException") else Success(EscapeCharacter(c.value))
  }

  /** The lookup of an escape, with no current character read as an unrecognized escape. */
  function EscapeFor(c: Option<char>): (e: Option<char>)
    ensures EscapeAsWritten(c).Success? ==> e == EscapeAsWritten(c).value
  {
    if c.None? then None else EscapeCharacter(c.value)
  }

  /**
   * The condition of `BuildStringLiteral`'s loop, peeking three times: the
   * character ahead is not a quote, not a newline, and there is one.
   */
  function StringGoesOn(r: Reader): (s: Flagged)
    ensures s.flag ==> |s.reader.charBuffer| > 0
    ensures Measure(s.reader) <= Measure(r)
    ensures Settled(r) ==> Settled(s.reader)
  {
    var p1 := Peeked(r, 0);
    if p1.ch == Some('"') then Flagged(p1.reader, false)
    else
      var p2 := Peeked(p1.reader, 0);
      if p2.ch == Some('\n') then Flagged(p2.reader, false)
      else
        var p3 := Peeked(p2.reader, 0);
        Flagged(p3.reader, p3.ch.Some?)
  }

  /**
   * The body of `BuildStringLiteral`'s loop: a character is read and
   * appended, a backslash and the character after it as the escape they
   * spell; an unrecognized escape is reported and dropped.
   */
  function StringStep(r: Reader, content: string): (s: Scanned<string>)
    requires |r.charBuffer| > 0
    ensures Measure(s.reader) < Measure(r)
    ensures Settled(s.reader)
  {
    var n := Advance(r);
    if n.currentChar == Some('\\') then
      var m := Advance(n);
      match EscapeFor(m.currentChar)
      case Some(e) => Scanned(content + [e], m, [])
      case None => Scanned(content, m, [LexicalErrorOf(EscapeMessage(m.currentChar, m.currentLine, m.currentColumn))])
    else Scanned(content + OptChars(n.currentChar), n, [])
  }

  /** The loop of `BuildStringLiteral`, appending to `content`. */
  function StringLoop(r: Reader, content: string): (s: Scanned<string>)
    ensures Measure(s.reader) <= Measure(r)
    ensures Settled(r) ==> Settled(s.reader)
    decreases Measure(r)
  {
    var g := StringGoesOn(r);
    if !g.flag then Scanned(content, g.reader, [])
    else
      var step := StringStep(g.reader, content);
      var rest := StringLoop(step.reader, step.value);
      Scanned(rest.value, rest.reader, step.errors + rest.errors)
  }

  /**
   * `BuildStringLiteral`, at the opening quote: the decoded text up to the
   * closing quote, which becomes current; without one, the character that
   * ends the literal becomes current and an error is reported at it.
   */
  function BuildString(r: Reader): (s: Scanned<string>)
    ensures Measure(s.reader) <= Measure(r)
    ensures Settled(s.reader)
  {
    var body := StringLoop(r, "");
    var p := Peeked(body.reader, 0);
    if p.ch == Some('"') then Scanned(body.value, Advance(p.reader), body.errors)
    else
      var n := Advance(p.reader);
      Scanned(body.value, n, body.errors + [LexicalErrorOf(EolMessage(n.currentLine, n.currentColumn))])
  }

  /**
   * The branches of `GetNextToken` after the skipping, for the current
   * character: a two-character symbol, a one-character symbol, or a
   * literal or word; nothing when no token starts with the character.
   */
  function LexToken(r: Reader): (s: Scanned<Option<Token>>)
    requires r.currentChar.Some?
    ensures Measure(s.reader) <= Measure(r)
    ensures Settled(s.reader)
    ensures s.value.Some? ==> s.value.value.line == r.currentLine && s.value.value.column == r.currentColumn
    ensures s.value.None? ==> s.reader == Peeked(r, 0).reader && s.errors == []
  {
    var c := r.currentChar.value;
    var a := CurrentAndNext(r);
    if SymbolToken(a.text).Some? then
      Scanned(Some(PlainToken(SymbolToken(a.text).value, r.currentLine, r.currentColumn)), Advance(a.reader), [])
    else if SymbolToken([c]).Some? then
      Scanned(Some(PlainToken(SymbolToken([c]).value, r.currentLine, r.currentColumn)), a.reader, [])
    else LexLiteral(a.reader)
  }

  /**
   * The branches of `GetNextToken` for a current character that is not a
   * symbol: an integer literal, a keyword or identifier, a string literal,
   * or nothing. The token is at the current character.
   */
  function LexLiteral(r: Reader): (s: Scanned<Option<Token>>)
    requires r.currentChar.Some?
    ensures Measure(s.reader) <= Measure(r)
    ensures Settled(s.reader)
    ensures s.value.Some? ==> s.value.value.line == r.currentLine && s.value.value.column == r.currentColumn
    ensures s.value.None? ==> s.reader == r && s.errors == []
  {
    var c := r.currentChar.value;
    var line, column := r.currentLine, r.currentColumn;
    if IsDigit(c) then
      var w := ReadWhileFrom(r, IsDigit);
      Scanned(Some(TextToken(IntLiteral, line, column, w.text)), w.reader, [])
    else if IsLetter(c) then
      var w := ReadWhileFrom(r, IsIdentifierChar);
      match KeywordToken(w.text)
      case Some(k) => Scanned(Some(PlainToken(k, line, column)), w.reader, [])
      case None => Scanned(Some(TextToken(Identifier, line, column, w.text)), w.reader, [])
    else if c == '"' then
      var b := BuildString(r);
      Scanned(Some(TextToken(StringLiteral, line, column, b.value)), b.reader, b.errors)
    else Scanned(None, r, [])
  }

  /** The skipping `GetNextToken` begins with: white space, comments, white space. */
  function Trivia(r: Reader): (s: Skipped)
    ensures Measure(s.reader) <= Measure(r)
    ensures Settled(r) ==> Settled(s.reader)
    ensures Exhausted(r) ==> s == Skipped(r, [])
  {
    var w := SkipWhitespaceFrom(r);
    var c := SkipCommentsFrom(w);
    Skipped(SkipWhitespaceFrom(c.reader), c.errors)
  }

  /**
   * `GetNextToken` after its first read: at the end of the text an EOF
   * token at the cursor; otherwise the token at the current character, or,
   * when none starts there, an error and the token after it.
   */
  function TokenAt(r: Reader): (s: Scanned<Token>)
    decreases Measure(r)
  {
    var c := Trivia(r);
    var v := c.reader;
    if v.currentChar.None? then Scanned(PlainToken(EOF, v.currentLine, v.currentColumn), v, c.errors)
    else
      var t := LexToken(v);
      if t.value.Some? then Scanned(t.value.value, t.reader, c.errors + t.errors)
      else
        var error := LexicalErrorOf(UnknownTokenMessage(v.currentChar.value, v.currentLine, v.currentColumn));
        var next := TokenAt(Advance(t.reader));
        Scanned(next.value, next.reader, c.errors + [error] + next.errors)
  }

  /** `GetNextToken`: read the next character, then scan from it. */
  function NextToken(r: Reader): Scanned<Token>
  {
    TokenAt(Advance(r))
  }

  lemma ErrorsAssoc(a: seq<Error>, b: seq<Error>, c: seq<Error>)
    ensures a + b + c == a + (b + c)
  {
  }

  class Scanner {
    const source: SourceReader
    const errorHandler: ErrorHandler

    constructor (source: SourceReader, errorHandler: ErrorHandler)
      ensures this.source == source && this.errorHandler == errorHandler
    {
      this.source := source;
      this.errorHandler := errorHandler;
    }

    method SkipWhitespace()
      modifies source
      ensures source.State() == SkipWhitespaceFrom(old(source.State()))
    {
      while source.currentChar.Some? && IsWhiteSpace(source.currentChar.value)
        invariant SkipWhitespaceFrom(source.State()) == SkipWhitespaceFrom(old(source.State()))
        decreases Measure(source.State())
      {
        var _ := source.ReadNext();
      }
    }

    method SkipLineComment()
      modifies source
      ensures source.State() == SkipToLineEnd(old(source.State()))
    {
      while source.currentChar.Some? && source.currentChar != Some('\n')
        invariant SkipToLineEnd(source.State()) == SkipToLineEnd(old(source.State()))
        decreases Measure(source.State())
      {
        var _ := source.ReadNext();
      }
    }

    method SkipBlockComment(depth0: int) returns (depth: int)
      modifies source
      ensures Nesting(source.State(), depth) == BlockLoop(old(source.State()), depth0)
    {
      depth := depth0;
      while source.currentChar.Some? && depth > 0
        invariant BlockLoop(source.State(), depth) == BlockLoop(old(source.State()), depth0)
        decreases Measure(source.State())
      {
        var _ := source.ReadNext();
        if source.currentChar == Some('/') {
          var p := source.Peek(0);
          if p == Some('*') {
            depth := depth + 1;
            var _ := source.ReadNext();
          }
        } else if source.currentChar == Some('*') {
          var p := source.Peek(0);
          if p == Some('/') {
            depth := depth - 1;
            var _ := source.ReadNext();
          }
        }
      }
    }

    /** One pass of `SkipComments`' loop, without the white space after the comment. */
    method SkipOneComment()
      requires source.currentChar == Some('/')
      modifies source, errorHandler
      ensures var s := SkipComment(old(source.State()));
        source.State() == s.reader && errorHandler.errors == old(errorHandler.errors) + s.errors
    {
      var p := source.Peek(0);
      if p == Some('/') {
        SkipLineComment();
      } else {
        var commentDepth := 1;
        var commentBeginLine, commentBeginColumn := source.currentLine, source.currentColumn;
        commentDepth := SkipBlockComment(commentDepth);
        var _ := source.ReadNext();
        if commentDepth > 0 {
          errorHandler.AddError(CommentMessage(commentBeginLine, commentBeginColumn), LexicalError);
        }
      }
    }

    /** The condition of `SkipComments`' loop. */
    method AtComment() returns (isComment: bool)
      modifies source
      ensures Flagged(source.State(), isComment) == CommentStart(old(source.State()))
    {
      var ahead := source.CurrentAndPeek();
      isComment := ahead == "//";
      if !isComment {
        ahead := source.CurrentAndPeek();
        isComment := ahead == "/*";
      }
    }

    method SkipComments()
      modifies source, errorHandler
      ensures var s := SkipCommentsFrom(old(source.State()));
        source.State() == s.reader && errorHandler.errors == old(errorHandler.errors) + s.errors
    {
      ghost var target := SkipCommentsFrom(source.State());
      while true
        invariant SkipCommentsFrom(source.State()).reader == target.reader
        invariant errorHandler.errors + SkipCommentsFrom(source.State()).errors == old(errorHandler.errors) + target.errors
        decreases Measure(source.State())
      {
        ghost var errorsBefore := errorHandler.errors;
        ghost var before := source.State();
        var isComment := AtComment();
        if !isComment {
          return;
        }
        ghost var c := SkipComment(source.State());
        SkipOneComment();
        SkipWhitespace();
        ghost var rest := SkipCommentsFrom(source.State());
        assert SkipCommentsFrom(before) == Skipped(rest.reader, c.errors + rest.errors);
        ErrorsAssoc(errorsBefore, c.errors, rest.errors);
      }
    }

    /** The condition of `BuildStringLiteral`'s loop. */
    method StringContinues() returns (goesOn: bool)
      modifies source
      ensures Flagged(source.State(), goesOn) == StringGoesOn(old(source.State()))
    {
      var p := source.Peek(0);
      if p == Some('"') { return false; }
      p := source.Peek(0);
      if p == Some('\n') { return false; }
      p := source.Peek(0);
      goesOn := p.Some?;
    }

    /** The body of `BuildStringLiteral`'s loop. */
    method StringUnit(content0: string) returns (content: string)
      requires |source.charBuffer| > 0
      modifies source, errorHandler
      ensures var s := StringStep(old(source.State()), content0);
        content == s.value && source.State() == s.reader && errorHandler.errors == old(errorHandler.errors) + s.errors
    {
      content := content0;
      var c := source.ReadNext();
      if c == Some('\\') {
        var _ := source.ReadNext();
        var e := EscapeFor(source.currentChar);
        if e.Some? {
          content := content + [e.value];
        } else {
          errorHandler.AddError(EscapeMessage(source.currentChar, source.currentLine, source.currentColumn), LexicalError);
        }
      } else {
        content := content + OptChars(source.currentChar);
      }
    }

    /** The loop of `BuildStringLiteral`. */
    method StringBody() returns (content: string)
      modifies source, errorHandler
      ensures var s := StringLoop(old(source.State()), "");
        content == s.value && source.State() == s.reader && errorHandler.errors == old(errorHandler.errors) + s.errors
    {
      ghost var target := StringLoop(source.State(), "");
      content := "";
      while true
        invariant StringLoop(source.State(), content).value == target.value
        invariant StringLoop(source.State(), content).reader == target.reader
        invariant errorHandler.errors + StringLoop(source.State(), content).errors == old(errorHandler.errors) + target.errors
        decreases Measure(source.State())
      {
        ghost var errorsBefore := errorHandler.errors;
        ghost var before := source.State();
        ghost var contentBefore := content;
        var goesOn := StringContinues();
        if !goesOn {
          return;
        }
        ghost var step := StringStep(source.State(), content);
        content := StringUnit(content);
        ghost var rest := StringLoop(source.State(), content);
        assert StringLoop(before, contentBefore) == Scanned(rest.value, rest.reader, step.errors + rest.errors);
        ErrorsAssoc(errorsBefore, step.errors, rest.errors);
      }
    }

    method BuildStringLiteral() returns (content: string)
      modifies source, errorHandler
      ensures var s := BuildString(old(source.State()));
        content == s.value && source.State() == s.reader && errorHandler.errors == old(errorHandler.errors) + s.errors
    {
      content := StringBody();
      var p := source.Peek(0);
      if p == Some('"') {
        var _ := source.ReadNext();
      } else {
        var _ := source.ReadNext();
        errorHandler.AddError(EolMessage(source.currentLine, source.currentColumn), LexicalError);
      }
    }

    /** The branches of `GetNextToken` after the skipping; nothing when no token starts at the current character. */
    method LexCurrent() returns (t: Option<Token>)
      requires source.currentChar.Some?
      modifies source, errorHandler
      ensures var s := LexToken(old(source.State()));
        t == s.value && source.State() == s.reader && errorHandler.errors == old(errorHandler.errors) + s.errors
    {
      var c := source.currentChar.value;
      var newTokenLine, newTokenColumn := source.currentLine, source.currentColumn;
      var ahead := source.CurrentAndPeek();
      if SymbolToken(ahead).Some? {
        var newTokenType := SymbolToken(ahead).value;
        var _ := source.ReadNext();
        return Some(PlainToken(newTokenType, newTokenLine, newTokenColumn));
      } else if SymbolToken([c]).Some? {
        return Some(PlainToken(SymbolToken([c]).value, newTokenLine, newTokenColumn));
      } else if IsDigit(c) {
        var tokenContent := source.ReadWhile(IsDigit);
        return Some(TextToken(IntLiteral, newTokenLine, newTokenColumn, tokenContent));
      } else if IsLetter(c) {
        var tokenContent := source.ReadWhile(IsIdentifierChar);
        if KeywordToken(tokenContent).Some? {
          return Some(PlainToken(KeywordToken(tokenContent).value, newTokenLine, newTokenColumn));
        } else {
          return Some(TextToken(Identifier, newTokenLine, newTokenColumn, tokenContent));
        }
      } else if c == '"' {
        var stringToken := BuildStringLiteral();
        return Some(TextToken(StringLiteral, newTokenLine, newTokenColumn, stringToken));
      }
      return None;
    }

    /** The skipping `GetNextToken` begins with. */
    method SkipTrivia()
      modifies source, errorHandler
      ensures var s := Trivia(old(source.State()));
        source.State() == s.reader && errorHandler.errors == old(errorHandler.errors) + s.errors
    {
      SkipWhitespace();
      SkipComments();
      SkipWhitespace();
    }

    method GetNextToken() returns (t: Token)
      modifies source, errorHandler
      ensures var s := NextToken(old(source.State()));
        t == s.value && source.State() == s.reader && errorHandler.errors == old(errorHandler.errors) + s.errors
      decreases Measure(source.State())
    {
      ghost var r1 := Advance(source.State());
      ghost var errors0 := errorHandler.errors;
      var _ := source.ReadNext();
      ghost var c := Trivia(r1);
      SkipTrivia();
      if source.currentChar.None? {
        assert TokenAt(r1) == Scanned(PlainToken(EOF, c.reader.currentLine, c.reader.currentColumn), c.reader, c.errors);
        return PlainToken(EOF, source.currentLine, source.currentColumn);
      }
      ghost var errors1 := errorHandler.errors;
      ghost var lexed := LexToken(c.reader);
      var token := LexCurrent();
      if token.Some? {
        assert TokenAt(r1) == Scanned(token.value, lexed.reader, c.errors + lexed.errors);
        ErrorsAssoc(errors0, c.errors, lexed.errors);
        return token.value;
      }
      assert lexed.errors == [];
      ghost var error := LexicalErrorOf(UnknownTokenMessage(source.currentChar.value, source.currentLine, source.currentColumn));
      errorHandler.AddError(UnknownTokenMessage(source.currentChar.value, source.currentLine, source.currentColumn), LexicalError);
      assert errorHandler.errors == errors0 + (c.errors + [error]);
      assert Measure(source.State()) < Measure(old(source.State()));
      ghost var next := NextToken(lexed.reader);
      assert TokenAt(r1) == Scanned(next.value, next.reader, c.errors + [error] + next.errors);
      t := GetNextToken();
      ErrorsAssoc(old(errorHandler.errors), c.errors + [error], next.errors);
    }
  }
}
