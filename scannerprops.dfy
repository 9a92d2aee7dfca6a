/**
 * What the lexer does with the text ahead of it: which token each kind of
 * text becomes, which text the token spans, and what is reported when the
 * text is malformed.  The statements are about the text as `Upcoming` and
 * `Lookahead` see it, independently of how the reader buffers it.
 */
module ScanningProperties {
  import opened Wrappers
  import opened Text
  import opened Tokens
  import opened ErrorHandling
  import opened SourceReading
  import opened Scanning

  /** A two-character symbol extends a one-character one. */
  lemma SymbolPrefix(s: string)
    requires SymbolToken(s).Some?
    ensures SymbolToken([s[0]]).Some?
  {
  }

  /**
   * The lexer finds no token exactly at a character that is neither a
   * symbol, a digit, a letter nor a quote; it then consumes nothing and
   * reports nothing itself.
   */
  lemma NoTokenExactly(r: Reader)
    requires r.currentChar.Some?
    ensures var c := r.currentChar.value;
      LexToken(r).value.None? <==> SymbolToken([c]).None? && !IsDigit(c) && !IsLetter(c) && c != '"'
  {
    var a := CurrentAndNext(r);
    if SymbolToken(a.text).Some? {
      SymbolPrefix(a.text);
    }
  }

  /** The symbol table: its one- and two-character entries, each two-character one extending a one-character one. */
  lemma SymbolTableEntries(s: string)
    ensures |s| == 1 ==> (SymbolToken(s).Some? <==> s[0] in "()[]+-/*%<>=.;:,")
    ensures |s| == 2 ==> (SymbolToken(s).Some? <==> (s[0], s[1]) in {('<', '='), ('>', '='), ('<', '>'), (':', '=')})
    ensures |s| == 2 && SymbolToken(s).Some? ==> SymbolToken(s[..1]).Some?
    ensures SymbolToken(s) == Some(OpAssignment) <==> s == ":="
  {
  }

  /** A symbol made of the current character and the one ahead becomes one token, both characters consumed. */
  lemma TwoCharacterSymbol(r: Reader)
    requires r.currentChar.Some? && |Upcoming(r)| > 0
    requires SymbolToken([r.currentChar.value, Upcoming(r)[0]]).Some?
    ensures var s := LexToken(r);
      s.value == Some(PlainToken(SymbolToken([r.currentChar.value, Upcoming(r)[0]]).value, r.currentLine, r.currentColumn)) &&
      s.errors == [] && s.reader.currentChar == Some(Upcoming(r)[0]) && Upcoming(s.reader) == Upcoming(r)[1..]
  {
    CurrentAndNextChars(r);
    var a := CurrentAndNext(r);
    assert a.text == [r.currentChar.value, Upcoming(r)[0]];
    PeekedChars(r, 0);
    AdvanceChars(a.reader);
  }

  /**
   * A symbol character that does not start a two-character symbol with the
   * next one is a token by itself. At the end of the text the lexer still
   * reads past it, as it does after a two-character symbol.
   */
  lemma OneCharacterSymbol(r: Reader)
    requires r.currentChar.Some? && SymbolToken([r.currentChar.value]).Some?
    requires |Upcoming(r)| == 0 || SymbolToken([r.currentChar.value, Upcoming(r)[0]]).None?
    ensures var s := LexToken(r);
      s.value == Some(PlainToken(SymbolToken([r.currentChar.value]).value, r.currentLine, r.currentColumn)) &&
      s.errors == [] && Upcoming(s.reader) == Upcoming(r) &&
      s.reader.currentChar == (if |Upcoming(r)| == 0 then None else r.currentChar)
  {
    CurrentAndNextChars(r);
    var a := CurrentAndNext(r);
    PeekedChars(r, 0);
    if |Upcoming(r)| == 0 {
      assert a.text == [r.currentChar.value];
      AdvanceChars(a.reader);
    } else {
      assert a.text == [r.currentChar.value, Upcoming(r)[0]];
    }
  }

  /**
   * `ReadWhile` on a text that starts with the run `w[1..]` of characters
   * passing `test`, followed by one failing it or by the end, collects `w`
   * from its current character `w[0]` and stops on the run's last character.
   */
  lemma RunCollected(r: Reader, test: char -> bool, w: string, rest: string)
    requires |w| > 0 && r.currentChar == Some(w[0])
    requires forall i :: 1 <= i < |w| ==> test(w[i])
    requires Upcoming(r) == w[1..] + rest && (rest == [] || !test(rest[0]))
    ensures var t := ReadWhileFrom(r, test);
      t.text == w && Upcoming(t.reader) == rest && t.reader.currentChar == Some(w[|w| - 1])
  {
    var k := ReadRunMaximal(r, test, OptChars(r.currentChar));
    RunSplit(Upcoming(r), test, w, rest, k);
    assert [w[0]] + w[1..] == w;
  }

  /** The longest prefix of `w[1..] + rest` passing `test` is `w[1..]` when `rest` does not start with a passing character. */
  lemma RunSplit(u: seq<char>, test: char -> bool, w: string, rest: string, k: nat)
    requires |w| > 0 && u == w[1..] + rest && (rest == [] || !test(rest[0]))
    requires forall i :: 1 <= i < |w| ==> test(w[i])
    requires k <= |u| && (forall i :: 0 <= i < k ==> test(u[i])) && (k < |u| ==> !test(u[k]))
    ensures k == |w| - 1 && u[..k] == w[1..] && u[k..] == rest && (k > 0 ==> u[k - 1] == w[|w| - 1])
  {
    assert rest != [] ==> u[|w| - 1] == rest[0];
    assert k == |w| - 1 by {
      if k < |w| - 1 {
        assert false;
      }
      if k > |w| - 1 {
        assert false;
      }
    }
    assert u[..k] == w[1..];
  }

  /** At a digit, a letter or a quote, no symbol starts and the lexer reads a literal or word, from the reader `CurrentAndPeek` leaves. */
  lemma LexLiteralBranch(r: Reader)
    requires r.currentChar.Some?
    requires var c := r.currentChar.value; IsDigit(c) || IsLetter(c) || c == '"'
    ensures LexToken(r) == LexLiteral(Peeked(r, 0).reader)
  {
    var a := CurrentAndNext(r);
    assert SymbolToken(a.text).None?;
    assert SymbolToken([r.currentChar.value]).None?;
    assert a.reader == Peeked(r, 0).reader;
  }

  /**
   * A maximal run of digits is one integer literal holding exactly those
   * digits; the reader stops on the last digit.
   */
  lemma IntegerLiteralLexes(r: Reader, digits: string, rest: string)
    requires |digits| > 0 && AllDigits(digits) && r.currentChar == Some(digits[0])
    requires Upcoming(r) == digits[1..] + rest && (rest == [] || !IsDigit(rest[0]))
    ensures var s := LexToken(r);
      s.value == Some(TextToken(IntLiteral, r.currentLine, r.currentColumn, digits)) &&
      s.errors == [] && Upcoming(s.reader) == rest && s.reader.currentChar == Some(digits[|digits| - 1])
  {
    LexLiteralBranch(r);
    PeekedChars(r, 0);
    RunCollected(Peeked(r, 0).reader, IsDigit, digits, rest);
  }

  /**
   * A maximal run of letters, digits and underscores that starts with a
   * letter is one token: the keyword it spells, or else an identifier
   * holding the word.
   */
  lemma WordLexes(r: Reader, w: string, rest: string)
    requires |w| > 0 && IsLetter(w[0]) && r.currentChar == Some(w[0])
    requires forall i :: 1 <= i < |w| ==> IsIdentifierChar(w[i])
    requires Upcoming(r) == w[1..] + rest && (rest == [] || !IsIdentifierChar(rest[0]))
    ensures var s := LexToken(r);
      s.value == Some(match KeywordToken(w)
                      case Some(k) => PlainToken(k, r.currentLine, r.currentColumn)
                      case None => TextToken(Identifier, r.currentLine, r.currentColumn, w)) &&
      s.errors == [] && Upcoming(s.reader) == rest && s.reader.currentChar == Some(w[|w| - 1])
  {
    LexLiteralBranch(r);
    PeekedChars(r, 0);
    RunCollected(Peeked(r, 0).reader, IsIdentifierChar, w, rest);
  }

  /** There is no `if` keyword: the word `if` is an identifier. */
  lemma IfIsIdentifier(r: Reader, rest: string)
    requires r.currentChar == Some('i') && Upcoming(r) == "f" + rest
    requires rest == [] || !IsIdentifierChar(rest[0])
    ensures LexToken(r).value == Some(TextToken(Identifier, r.currentLine, r.currentColumn, "if"))
  {
    assert "if"[1..] == "f";
    assert KeywordToken("if").None?;
    WordLexes(r, "if", rest);
  }

  /** Every reserved word is a word: it starts with a letter and is made of letters. */
  lemma KeywordsAreWords(w: string)
    requires KeywordToken(w).Some?
    ensures |w| > 0 && IsLetter(w[0]) && forall i :: 1 <= i < |w| ==> IsIdentifierChar(w[i])
  {
  }

  /** No token the lexer makes at a character is an end-of-file token. */
  lemma LexTokenNotEof(r: Reader)
    requires r.currentChar.Some?
    ensures LexToken(r).value.Some? ==> LexToken(r).value.value.tokenType != EOF
  {
  }

  /**
   * A character no token starts with is reported as an unknown token at its
   * own position, and the token returned is the one scanned from the text
   * after it.
   */
  lemma UnknownCharacterSkipped(r: Reader)
    requires Trivia(r).reader.currentChar.Some?
    requires var c := Trivia(r).reader.currentChar.value;
      SymbolToken([c]).None? && !IsDigit(c) && !IsLetter(c) && c != '"'
    ensures var v := Trivia(r).reader; var n := Advance(Peeked(v, 0).reader);
      Lookahead(n) == Lookahead(v)[1..] &&
      TokenAt(r) == Scanned(TokenAt(n).value, TokenAt(n).reader,
        Trivia(r).errors + [LexicalErrorOf(UnknownTokenMessage(v.currentChar.value, v.currentLine, v.currentColumn))] +
        TokenAt(n).errors)
  {
    var v := Trivia(r).reader;
    NoTokenExactly(v);
    PeekedChars(v, 0);
    AdvanceLookahead(Peeked(v, 0).reader);
  }

  /** The text of a string literal standing for `s`: quotes, backslashes and newlines escaped, other characters as they are. */
  function Escaped(s: string): string
  {
    if s == [] then [] else EscapedChar(s[0]) + Escaped(s[1..])
  }

  function EscapedChar(c: char): string
  {
    if c == '"' then "\\\"" else if c == '\\' then "\\\\" else if c == '\n' then "\\n" else [c]
  }

  /** The loop of a string literal goes on exactly while a character that is neither a quote nor a newline is ahead. */
  lemma StringGoesOnChars(r: Reader)
    ensures var g := StringGoesOn(r);
      g.flag == (|Upcoming(r)| > 0 && Upcoming(r)[0] != '"' && Upcoming(r)[0] != '\n') &&
      Upcoming(g.reader) == Upcoming(r) && g.reader.currentChar == r.currentChar
  {
    var p1 := Peeked(r, 0);
    PeekedChars(r, 0);
    var p2 := Peeked(p1.reader, 0);
    PeekedChars(p1.reader, 0);
    PeekedChars(p2.reader, 0);
  }

  /**
   * One pass of the loop of a string literal: a character other than a
   * backslash is kept; a backslash and the character after it are replaced
   * by the escape they spell, or dropped and reported when they spell none.
   */
  lemma StringStepChars(r: Reader, content: string)
    requires |r.charBuffer| > 0
    ensures |Upcoming(r)| > 0
    ensures var st := StringStep(r, content); var u := Upcoming(r);
      (u[0] != '\\' ==>
         st.value == content + [u[0]] && st.errors == [] && Upcoming(st.reader) == u[1..]) &&
      (u[0] == '\\' && |u| > 1 && EscapeCharacter(u[1]).Some? ==>
         st.value == content + [EscapeCharacter(u[1]).value] && st.errors == [] && Upcoming(st.reader) == u[2..]) &&
      (u[0] == '\\' && |u| > 1 && EscapeCharacter(u[1]).None? ==>
         st.value == content && Upcoming(st.reader) == u[2..] && st.reader.currentChar == Some(u[1]) &&
         st.errors == [LexicalErrorOf(EscapeMessage(Some(u[1]), st.reader.currentLine, st.reader.currentColumn))]) &&
      (u == ['\\'] ==>
         st.value == content && Exhausted(st.reader) &&
         st.errors == [LexicalErrorOf(EscapeMessage(None, st.reader.currentLine, st.reader.currentColumn))])
  {
    var n := Advance(r);
    AdvanceChars(r);
    AdvanceChars(n);
  }

  /** Before a quote, a newline or the end, the loop of a string literal stops. */
  lemma StringLoopStops(r: Reader, content: string)
    requires Upcoming(r) == [] || Upcoming(r)[0] == '"' || Upcoming(r)[0] == '\n'
    ensures var l := StringLoop(r, content);
      l.value == content && l.errors == [] && Upcoming(l.reader) == Upcoming(r)
  {
    StringGoesOnChars(r);
  }

  /** Before any other character, the loop of a string literal makes one pass and goes on. */
  lemma StringLoopGoes(r: Reader, content: string) returns (st: Scanned<string>)
    requires Upcoming(r) != [] && Upcoming(r)[0] != '"' && Upcoming(r)[0] != '\n'
    ensures |StringGoesOn(r).reader.charBuffer| > 0 && st == StringStep(StringGoesOn(r).reader, content)
    ensures Upcoming(StringGoesOn(r).reader) == Upcoming(r)
    ensures var rest := StringLoop(st.reader, st.value);
      StringLoop(r, content) == Scanned(rest.value, rest.reader, st.errors + rest.errors)
  {
    StringGoesOnChars(r);
    st := StringStep(StringGoesOn(r).reader, content);
  }

  /** A pass of the loop over the escaped form of `x` appends `x`. */
  lemma EscapedStep(r: Reader, x: char, content: string, more: string)
    requires |r.charBuffer| > 0 && Upcoming(r) == EscapedChar(x) + more
    ensures var st := StringStep(r, content);
      st.value == content + [x] && st.errors == [] && Upcoming(st.reader) == more
  {
    StringStepChars(r, content);
    var u := Upcoming(r);
    if x == '"' || x == '\\' || x == '\n' {
      var y := if x == '"' then '"' else if x == '\\' then '\\' else 'n';
      assert EscapedChar(x) == ['\\', y];
      assert u[0] == '\\' && u[1] == y && EscapeCharacter(y) == Some(x);
      assert u[2..] == more;
    } else {
      assert EscapedChar(x) == [x];
      assert u[0] == x && u[1..] == more;
    }
  }

  lemma AppendFirst(content: string, s: string)
    requires |s| > 0
    ensures content + [s[0]] + s[1..] == content + s
  {
    assert [s[0]] + s[1..] == s;
  }

  lemma DropFirst(c: char, s: string)
    ensures ([c] + s)[0] == c && ([c] + s)[1..] == s
  {
  }

  lemma EmptyPrefix(s: string)
    ensures "" + s == s
  {
  }

  /** The loop of a string literal decodes an escaped text, stopping before a quote, a newline or the end. */
  lemma {:induction false} StringLoopEscaped(r: Reader, s: string, content: string, tail: string)
    requires Upcoming(r) == Escaped(s) + tail
    requires tail == [] || tail[0] == '"' || tail[0] == '\n'
    ensures var l := StringLoop(r, content);
      l.value == content + s && l.errors == [] && Upcoming(l.reader) == tail
    decreases |s|
  {
    if s == [] {
      assert Upcoming(r) == tail;
      StringLoopStops(r, content);
    } else {
      var e := EscapedChar(s[0]);
      assert Upcoming(r) == e + (Escaped(s[1..]) + tail);
      assert Upcoming(r)[0] == e[0];
      var st := StringLoopGoes(r, content);
      EscapedStep(StringGoesOn(r).reader, s[0], content, Escaped(s[1..]) + tail);
      StringLoopEscaped(st.reader, s[1..], st.value, tail);
      AppendFirst(content, s);
    }
  }

  /**
   * After the loop, `BuildStringLiteral` reads the closing quote; failing
   * that it reads on and reports the end of the literal at the character
   * it reads.
   */
  lemma BuildStringEnd(r: Reader)
    ensures var body := StringLoop(r, ""); var v := Upcoming(body.reader); var b := BuildString(r);
      b.value == body.value &&
      (v != [] && v[0] == '"' ==>
         b.errors == body.errors && b.reader.currentChar == Some('"') && Upcoming(b.reader) == v[1..]) &&
      (v == [] || v[0] != '"' ==>
         b.errors == body.errors + [LexicalErrorOf(EolMessage(b.reader.currentLine, b.reader.currentColumn))] &&
         b.reader.currentChar == (if v == [] then None else Some(v[0])) &&
         Upcoming(b.reader) == (if v == [] then [] else v[1..]))
  {
    var body := StringLoop(r, "");
    PeekedChars(body.reader, 0);
    AdvanceChars(Peeked(body.reader, 0).reader);
  }

  /** At a quote, the token is the string literal `BuildStringLiteral` builds, at the quote. */
  lemma LexQuoteBranch(r: Reader)
    requires r.currentChar == Some('"')
    ensures var b := BuildString(r);
      LexLiteral(r) == Scanned(Some(TextToken(StringLiteral, r.currentLine, r.currentColumn, b.value)), b.reader, b.errors)
  {
  }

  /** A closed string literal is one token holding the text its escapes spell; the closing quote becomes current. */
  lemma StringLiteralLexes(r: Reader, s: string, rest: string)
    requires r.currentChar == Some('"') && Upcoming(r) == Escaped(s) + ['"'] + rest
    ensures var l := LexToken(r);
      l.value == Some(TextToken(StringLiteral, r.currentLine, r.currentColumn, s)) && l.errors == [] &&
      l.reader.currentChar == Some('"') && Upcoming(l.reader) == rest
  {
    var p := StringStart(r);
    ClosedBody(p, s, rest);
  }

  /** `BuildStringLiteral` on the escaped text of `s` and a closing quote. */
  lemma ClosedBody(p: Reader, s: string, rest: string)
    requires Upcoming(p) == Escaped(s) + ['"'] + rest
    ensures var b := BuildString(p);
      b.value == s && b.errors == [] && b.reader.currentChar == Some('"') && Upcoming(b.reader) == rest
  {
    assert Upcoming(p) == Escaped(s) + (['"'] + rest);
    StringLoopEscaped(p, s, "", ['"'] + rest);
    EmptyPrefix(s);
    var body := StringLoop(p, "");
    assert body.value == s && body.errors == [] && Upcoming(body.reader) == ['"'] + rest;
    DropFirst('"', rest);
    BuildStringEnd(p);
  }

  /** At a quote, the lexer builds a string literal from the reader `CurrentAndPeek` leaves, at the same position with the same text ahead. */
  lemma StringStart(r: Reader) returns (p: Reader)
    requires r.currentChar == Some('"')
    ensures p.currentChar == r.currentChar && Upcoming(p) == Upcoming(r)
    ensures var b := BuildString(p);
      LexToken(r) == Scanned(Some(TextToken(StringLiteral, r.currentLine, r.currentColumn, b.value)), b.reader, b.errors)
  {
    LexLiteralBranch(r);
    p := Peeked(r, 0).reader;
    PeekedChars(r, 0);
    LexQuoteBranch(p);
  }

  /**
   * A string literal a newline or the end of the text interrupts holds the
   * text decoded so far; the newline becomes current and the error is
   * reported at it, or at the end.
   */
  lemma UnclosedStringReported(r: Reader, s: string, rest: string)
    requires r.currentChar == Some('"') && Upcoming(r) == Escaped(s) + rest
    requires rest == [] || rest[0] == '\n'
    ensures var l := LexToken(r);
      l.value == Some(TextToken(StringLiteral, r.currentLine, r.currentColumn, s)) &&
      l.errors == [LexicalErrorOf(EolMessage(l.reader.currentLine, l.reader.currentColumn))] &&
      l.reader.currentChar == (if rest == [] then None else Some('\n')) &&
      Upcoming(l.reader) == (if rest == [] then [] else rest[1..])
  {
    var p := StringStart(r);
    StringLoopEscaped(p, s, "", rest);
    EmptyPrefix(s);
    var body := StringLoop(p, "");
    assert body.value == s && body.errors == [] && Upcoming(body.reader) == rest;
    BuildStringEnd(p);
  }

  /**
   * A quote followed by a backslash at the end of the text: the loop reads
   * the backslash, and the character after it, which the lookup as written
   * takes from a current character that is absent.
   */
  lemma BackslashAtEndThrows(r: Reader)
    requires r.currentChar == Some('"') && Upcoming(r) == ['\\']
    ensures var g := StringGoesOn(Peeked(r, 0).reader);
      g.flag && |g.reader.charBuffer| > 0 && Advance(g.reader).currentChar == Some('\\') &&
      EscapeAsWritten(Advance(Advance(g.reader)).currentChar).Failure?
  {
    var p := Peeked(r, 0).reader;
    PeekedChars(r, 0);
    var g := StringGoesOn(p);
    StringGoesOnChars(p);
    AdvanceChars(g.reader);
    AdvanceChars(Advance(g.reader));
  }

  /** With the lookup corrected, the dangling backslash is an unrecognized escape and the literal an unclosed one. */
  lemma BackslashAtEndReported(r: Reader)
    requires r.currentChar == Some('"') && Upcoming(r) == ['\\']
    ensures var l := LexToken(r);
      l.value == Some(TextToken(StringLiteral, r.currentLine, r.currentColumn, "")) && Exhausted(l.reader) &&
      l.errors == [LexicalErrorOf(EscapeMessage(None, l.reader.currentLine, l.reader.currentColumn)),
                   LexicalErrorOf(EolMessage(l.reader.currentLine, l.reader.currentColumn))]
  {
    var p := StringStart(r);
    DanglingBody(p);
  }

  /** `BuildStringLiteral` on a lone backslash, with the lookup corrected. */
  lemma DanglingBody(p: Reader)
    requires Upcoming(p) == ['\\']
    ensures var b := BuildString(p);
      b.value == "" && Exhausted(b.reader) &&
      b.errors == [LexicalErrorOf(EscapeMessage(None, b.reader.currentLine, b.reader.currentColumn)),
                   LexicalErrorOf(EolMessage(b.reader.currentLine, b.reader.currentColumn))]
  {
    var st := StringLoopGoes(p, "");
    StringStepChars(StringGoesOn(p).reader, "");
    assert st.value == "" && Upcoming(st.reader) == [];
    StringLoopStops(st.reader, st.value);
    var body := StringLoop(p, "");
    assert body.value == "" && Upcoming(body.reader) == [] && body.errors == st.errors;
    BuildStringEnd(p);
  }

  /** An end-of-file token leaves the reader past the end of the text, and the token is at the reader's position. */
  lemma {:induction false} TokenAtEof(r: Reader)
    requires Settled(r)
    ensures var t := TokenAt(r);
      t.value.tokenType == EOF ==> Exhausted(t.reader) && t.value == PlainToken(EOF, t.reader.currentLine, t.reader.currentColumn)
    decreases Measure(r)
  {
    var v := Trivia(r).reader;
    if v.currentChar.Some? {
      LexTokenNotEof(v);
      var t := LexToken(v);
      if t.value.None? {
        TokenAtEof(Advance(t.reader));
      }
    }
  }

  /** Once `GetNextToken` has returned an end-of-file token it returns the same one again, reporting nothing. */
  lemma EofRepeats(r: Reader)
    ensures var t := NextToken(r);
      t.value.tokenType == EOF ==> NextToken(t.reader) == Scanned(t.value, t.reader, [])
  {
    TokenAtEof(Advance(r));
  }

  /** With nothing left ahead, `GetNextToken` returns an end-of-file token and reports nothing. */
  lemma EndOfText(r: Reader)
    requires Upcoming(r) == []
    ensures NextToken(r).value.tokenType == EOF && NextToken(r).errors == []
  {
    AdvanceChars(r);
  }

  /**
   * Skipping white space from a current character leaves the first
   * character that is not white space current, or nothing at the end.
   */
  lemma {:induction false} WhitespaceSkipped(r: Reader, ws: string, rest: string)
    requires r.currentChar.Some? && Lookahead(r) == ws + rest
    requires (forall i :: 0 <= i < |ws| ==> IsWhiteSpace(ws[i])) && (rest == [] || !IsWhiteSpace(rest[0]))
    ensures var n := SkipWhitespaceFrom(r);
      n.currentChar == (if rest == [] then None else Some(rest[0])) &&
      Upcoming(n) == (if rest == [] then [] else rest[1..])
    decreases |ws|
  {
    if ws == [] {
      LookaheadStop(r, rest);
    } else {
      LookaheadAdvance(r, ws, rest);
      if Upcoming(r) != [] {
        WhitespaceSkipped(Advance(r), ws[1..], rest);
      }
    }
  }

  /** With a current character, the text from it on starts with that character. */
  lemma LookaheadStop(r: Reader, rest: string)
    requires r.currentChar.Some? && Lookahead(r) == rest
    ensures rest != [] && rest[0] == r.currentChar.value && Upcoming(r) == rest[1..]
  {
  }

  /** Reading on moves the text from the current character on by one. */
  lemma LookaheadAdvance(r: Reader, x: string, rest: string)
    requires r.currentChar.Some? && Lookahead(r) == x + rest && |x| > 0
    ensures r.currentChar.value == x[0]
    ensures Upcoming(r) == [] ==> |x| == 1 && rest == [] && Advance(r).currentChar.None? && Upcoming(Advance(r)) == []
    ensures Upcoming(r) != [] ==> Advance(r).currentChar.Some? && Lookahead(Advance(r)) == x[1..] + rest
  {
    assert (x + rest)[0] == x[0];
    assert Upcoming(r) == (x + rest)[1..] == x[1..] + rest;
    AdvanceChars(r);
    AdvanceLookahead(r);
  }

  /**
   * The loop of a line comment stops at the first newline of the text from
   * the current character on, which stays current, or at the end.
   */
  lemma {:induction false} LineEndReached(r: Reader, line: string, rest: string)
    requires r.currentChar.Some? && Lookahead(r) == line + rest
    requires (forall i :: 0 <= i < |line| ==> line[i] != '\n') && (rest == [] || rest[0] == '\n')
    ensures var n := SkipToLineEnd(r);
      n.currentChar == (if rest == [] then None else Some('\n')) &&
      Upcoming(n) == (if rest == [] then [] else rest[1..])
    decreases |line|
  {
    if line == [] {
      LookaheadStop(r, rest);
    } else {
      LookaheadAdvance(r, line, rest);
      if Upcoming(r) != [] {
        LineEndReached(Advance(r), line[1..], rest);
      }
    }
  }

  /** A comment starts exactly at a slash followed by a slash or a star; the test consumes nothing. */
  lemma CommentStartChars(r: Reader)
    requires r.currentChar.Some?
    ensures var u := Upcoming(r);
      CommentStart(r).flag <==> r.currentChar == Some('/') && |u| > 0 && (u[0] == '/' || u[0] == '*')
    ensures CommentStart(r).reader.currentChar == r.currentChar && Upcoming(CommentStart(r).reader) == Upcoming(r)
  {
    var a := CurrentAndNext(r);
    CurrentAndNextChars(r);
    PeekedChars(r, 0);
    assert Lookahead(a.reader) == Lookahead(r);
    CurrentAndNextChars(a.reader);
    PeekedChars(a.reader, 0);
    assert CurrentAndNext(a.reader).text == a.text;
    var c, u := r.currentChar.value, Upcoming(r);
    if |u| > 0 {
      assert a.text == [c, u[0]];
    } else {
      assert a.text == [c];
    }
  }

  /**
   * A line comment is skipped up to the newline ending it, which becomes
   * current, or to the end of the text; nothing is reported.
   */
  lemma LineCommentSkipped(r: Reader, body: string, rest: string)
    requires r.currentChar == Some('/') && Upcoming(r) == ['/'] + body + rest
    requires (forall i :: 0 <= i < |body| ==> body[i] != '\n') && (rest == [] || rest[0] == '\n')
    ensures var c := SkipComment(r);
      c.errors == [] && c.reader.currentChar == (if rest == [] then None else Some('\n')) &&
      Upcoming(c.reader) == (if rest == [] then [] else rest[1..])
  {
    var p := Peeked(r, 0);
    PeekedChars(r, 0);
    assert Lookahead(p.reader) == ['/', '/'] + body + rest;
    LineEndReached(p.reader, ['/', '/'] + body, rest);
  }

  /** How far the loop of a block comment gets: the characters it consumes and the nesting depth it stops at. */
  datatype Nest = Nest(consumed: nat, depth: int)

  /**
   * Block comment nesting over the text after the current character: a
   * slash and a star open a comment, a star and a slash close one (either
   * pair counted once), until the depth is zero or the text ends.
   */
  function Unnest(u: seq<char>, depth: int): (e: Nest)
    ensures e.consumed <= |u|
    ensures e.depth > 0 ==> e.consumed == |u|
  {
    if depth <= 0 || u == [] then Nest(0, depth)
    else if |u| >= 2 && u[0] == '/' && u[1] == '*' then
      var inner := Unnest(u[2..], depth + 1);
      Nest(inner.consumed + 2, inner.depth)
    else if |u| >= 2 && u[0] == '*' && u[1] == '/' then
      var inner := Unnest(u[2..], depth - 1);
      Nest(inner.consumed + 2, inner.depth)
    else
      var inner := Unnest(u[1..], depth);
      Nest(inner.consumed + 1, inner.depth)
  }

  /**
   * The loop of a block comment follows `Unnest`: it stops at the depth
   * `Unnest` gives, with the rest of the text ahead, and past the end of
   * the text when the comments are not all closed.
   */
  lemma {:induction false} BlockLoopChars(r: Reader, depth: int)
    requires r.currentChar.Some?
    ensures var b := BlockLoop(r, depth); var e := Unnest(Upcoming(r), depth);
      b.depth == e.depth && Upcoming(b.reader) == Upcoming(r)[e.consumed..] &&
      (e.depth > 0 ==> b.reader.currentChar.None?)
    decreases |Upcoming(r)|
  {
    var u := Upcoming(r);
    if depth > 0 {
      if u == [] {
        AdvanceChars(r);
      } else if |u| >= 2 && ((u[0] == '/' && u[1] == '*') || (u[0] == '*' && u[1] == '/')) {
        var d := if u[0] == '/' then depth + 1 else depth - 1;
        var n := BlockLoopPair(r, depth);
        BlockLoopChars(n, d);
        UnnestStep(u, depth, 2, d);
      } else {
        var n := BlockLoopSingle(r, depth);
        BlockLoopChars(n, depth);
        UnnestStep(u, depth, 1, depth);
      }
    }
  }

  /** One step of `Unnest`: `k` characters read, going on at depth `d`. */
  lemma UnnestStep(u: seq<char>, depth: int, k: nat, d: int)
    requires depth > 0 && 1 <= k <= 2 && k <= |u|
    requires k == 2 <==> |u| >= 2 && ((u[0] == '/' && u[1] == '*') || (u[0] == '*' && u[1] == '/'))
    requires k == 2 ==> d == if u[0] == '/' then depth + 1 else depth - 1
    requires k == 1 ==> d == depth
    ensures var e := Unnest(u[k..], d);
      Unnest(u, depth) == Nest(e.consumed + k, e.depth) && u[k..][e.consumed..] == u[e.consumed + k..]
  {
  }

  /** A pair that opens or closes a comment is read as a whole. */
  lemma BlockLoopPair(r: Reader, depth: int) returns (n: Reader)
    requires r.currentChar.Some? && depth > 0
    requires var u := Upcoming(r); |u| >= 2 && ((u[0] == '/' && u[1] == '*') || (u[0] == '*' && u[1] == '/'))
    ensures BlockLoop(r, depth) == BlockLoop(n, if Upcoming(r)[0] == '/' then depth + 1 else depth - 1)
    ensures n.currentChar == Some(Upcoming(r)[1]) && Upcoming(n) == Upcoming(r)[2..]
  {
    var u := Upcoming(r);
    var m := Advance(r);
    AdvanceChars(r);
    var p := Peeked(m, 0);
    PeekedChars(m, 0);
    n := Advance(p.reader);
    AdvanceChars(p.reader);
    assert u[1..][1..] == u[2..];
  }

  /** Any other character is read by itself. */
  lemma BlockLoopSingle(r: Reader, depth: int) returns (n: Reader)
    requires r.currentChar.Some? && depth > 0
    requires var u := Upcoming(r); |u| >= 1 && !(|u| >= 2 && ((u[0] == '/' && u[1] == '*') || (u[0] == '*' && u[1] == '/')))
    ensures BlockLoop(r, depth) == BlockLoop(n, depth)
    ensures n.currentChar == Some(Upcoming(r)[0]) && Upcoming(n) == Upcoming(r)[1..]
  {
    var m := Advance(r);
    AdvanceChars(r);
    if m.currentChar == Some('/') || m.currentChar == Some('*') {
      n := Peeked(m, 0).reader;
      PeekedChars(m, 0);
    } else {
      n := m;
    }
  }

  /** After `ReadNext`, the current character and those ahead are what was ahead before. */
  lemma AdvanceLookahead(r: Reader)
    ensures Lookahead(Advance(r)) == Upcoming(r)
  {
    AdvanceChars(r);
    if Upcoming(r) != [] {
      assert [Upcoming(r)[0]] + Upcoming(r)[1..] == Upcoming(r);
    }
  }

  /**
   * A block comment: when `Unnest` closes it, nothing is reported and the
   * character after it becomes current; otherwise the text ends in it and
   * it is reported at its opening slash.
   */
  lemma BlockCommentSkipped(r: Reader)
    requires r.currentChar == Some('/') && |Upcoming(r)| > 0 && Upcoming(r)[0] == '*'
    ensures var e := Unnest(Upcoming(r), 1); var c := SkipComment(r);
      (e.depth > 0 ==> Exhausted(c.reader) && c.errors == [LexicalErrorOf(CommentMessage(r.currentLine, r.currentColumn))]) &&
      (e.depth <= 0 ==> c.errors == [] && Lookahead(c.reader) == Upcoming(r)[e.consumed..])
  {
    var p := BlockCommentStart(r);
    BlockLoopChars(p, 1);
    var b := BlockLoop(p, 1);
    AdvanceLookahead(b.reader);
    AdvanceChars(b.reader);
  }

  /** At a block comment's opening, the loop starts from the reader the peek leaves, at the same place. */
  lemma BlockCommentStart(r: Reader) returns (p: Reader)
    requires r.currentChar == Some('/') && |Upcoming(r)| > 0 && Upcoming(r)[0] == '*'
    ensures p.currentChar == r.currentChar && Upcoming(p) == Upcoming(r)
    ensures var b := BlockLoop(p, 1);
      SkipComment(r) == Skipped(Advance(b.reader), if b.depth > 0 then [LexicalErrorOf(CommentMessage(r.currentLine, r.currentColumn))] else [])
  {
    p := Peeked(r, 0).reader;
    PeekedChars(r, 0);
  }

  /** A block comment closed by the text after it is skipped whatever that text is (a quirk: the opening star may close it). */
  lemma OpeningStarCloses(rest: string)
    ensures Unnest("*/" + rest, 1) == Nest(2, 0)
  {
    UnnestClose(rest, 1);
  }

  /** A run without slashes and stars leaves the nesting as it is. */
  lemma {:induction false} UnnestPlain(t: string, rest: string, depth: int)
    requires depth > 0 && forall i :: 0 <= i < |t| ==> t[i] != '/' && t[i] != '*'
    ensures Unnest(t + rest, depth) == Nest(|t| + Unnest(rest, depth).consumed, Unnest(rest, depth).depth)
    decreases |t|
  {
    if t != [] {
      assert (t + rest)[1..] == t[1..] + rest;
      UnnestPlain(t[1..], rest, depth);
    } else {
      assert t + rest == rest;
    }
  }

  /** A pair opening a comment deepens the nesting by one. */
  lemma UnnestOpen(rest: string, depth: int)
    requires depth > 0
    ensures Unnest("/*" + rest, depth) == Nest(2 + Unnest(rest, depth + 1).consumed, Unnest(rest, depth + 1).depth)
  {
    assert ("/*" + rest)[2..] == rest;
  }

  /** A pair closing a comment makes the nesting shallower by one. */
  lemma UnnestClose(rest: string, depth: int)
    requires depth > 0
    ensures Unnest("*/" + rest, depth) == Nest(2 + Unnest(rest, depth - 1).consumed, Unnest(rest, depth - 1).depth)
  {
    assert ("*/" + rest)[2..] == rest;
  }

  /** The opening star followed by anything but a slash is an ordinary character. */
  lemma UnnestStar(t: string, depth: int)
    requires depth > 0 && (t == [] || t[0] != '/')
    ensures Unnest("*" + t, depth) == Nest(1 + Unnest(t, depth).consumed, Unnest(t, depth).depth)
  {
    assert ("*" + t)[1..] == t;
  }

  lemma NestedShape(a: string, b: string, c: string, rest: string)
    ensures "*" + a + "/*" + b + "*/" + c + "*/" + rest == "*" + (a + ("/*" + (b + ("*/" + (c + ("*/" + rest))))))
  {
  }

  /**
   * A comment with one nested comment inside closes at its own end: nesting
   * is counted. The text before the nested comment must not be empty, or
   * the opening star and its slash would close the outer comment.
   */
  lemma NestedCommentCloses(a: string, b: string, c: string, rest: string)
    requires |a| > 0
    requires forall i :: 0 <= i < |a| ==> a[i] != '/' && a[i] != '*'
    requires forall i :: 0 <= i < |b| ==> b[i] != '/' && b[i] != '*'
    requires forall i :: 0 <= i < |c| ==> c[i] != '/' && c[i] != '*'
    ensures Unnest("*" + a + "/*" + b + "*/" + c + "*/" + rest, 1) == Nest(1 + |a| + 2 + |b| + 2 + |c| + 2, 0)
  {
    var t3 := "*/" + rest;
    var t2 := "*/" + (c + t3);
    var t1 := "/*" + (b + t2);
    NestedShape(a, b, c, rest);
    UnnestClose(rest, 1);
    UnnestPlain(c, t3, 1);
    UnnestClose(c + t3, 2);
    UnnestPlain(b, t2, 2);
    UnnestOpen(b + t2, 1);
    UnnestPlain(a, t1, 1);
    assert (a + t1)[0] == a[0];
    UnnestStar(a + t1, 1);
  }

  /** A comment the text ends in before it is closed keeps a positive depth. */
  lemma UnclosedCommentOpen(t: string)
    requires forall i :: 0 <= i < |t| ==> t[i] != '/' && t[i] != '*'
    ensures Unnest("*" + t, 1).depth == 1
  {
    UnnestStar(t, 1);
    UnnestPlain(t, [], 1);
    assert t + [] == t;
  }

  /**
   * Positions: columns count from 1, a newline moves the next character to
   * column 1 of the next line, and a token is at its first character.
   */
  lemma PositionsCounted()
    ensures NextToken(Open("\n x")).value == TextToken(Identifier, 2, 2, "x")
  {
    var r1 := ExampleStart();
    var v := Trivia(r1).reader;
    WordLexes(v, "x", []);
    NotKeyword("x");
  }

  lemma NotKeyword(s: string)
    requires |s| < 2
    ensures KeywordToken(s).None?
  {
  }

  /** The first read of the example text, and the skipping after it, which leaves `x` current. */
  lemma ExampleStart() returns (r1: Reader)
    ensures r1 == Advance(Open("\n x"))
    ensures var t := Trivia(r1);
      t.errors == [] && t.reader.currentChar == Some('x') && t.reader.currentLine == 2 &&
      t.reader.currentColumn == 2 && Upcoming(t.reader) == []
  {
    r1 := Advance(Open("\n x"));
    assert r1 == Reader(" x", 1, 1, [], Some('\n'), 1, 1);
    var r2 := Advance(r1);
    assert r2 == Reader("x", 1, 2, [], Some(' '), 1, 2);
    var r3 := Advance(r2);
    assert r3 == Reader("", 2, 2, [], Some('x'), 2, 2);
    assert SkipWhitespaceFrom(r1) == r3;
    assert Upcoming(r3) == [];
    CommentStartChars(r3);
    assert SkipCommentsFrom(r3) == Skipped(CommentStart(r3).reader, []);
  }
}
