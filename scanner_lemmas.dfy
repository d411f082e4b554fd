/** What the scanner guarantees, proved about the functions in `Lexer`. */
module LexerFacts {
  import opened Tokens
  import opened Lexer

  /* ---------------------------------------------------------------------
   * Counting line feeds
   * --------------------------------------------------------------------- */

  lemma {:induction false} NewlineCountAppend(a: string, b: string)
    ensures NewlineCount(a + b) == NewlineCount(a) + NewlineCount(b)
    decreases |b|
  {
    if b == [] {
      assert a + b == a;
    } else {
      var b' := b[..|b| - 1];
      assert (a + b)[..|a + b| - 1] == a + b';
      NewlineCountAppend(a, b');
    }
  }

  lemma {:induction false} NewlineCountNone(s: string)
    requires forall k | 0 <= k < |s| :: s[k] != '\n'
    ensures NewlineCount(s) == 0
    decreases |s|
  {
    if s != [] {
      NewlineCountNone(s[..|s| - 1]);
    }
  }

  /** The line-feed count of `source[i..k]` splits at any `j` between. */
  lemma NewlineCountSplit(source: string, i: nat, j: nat, k: nat)
    requires i <= j <= k <= |source|
    ensures NewlineCount(source[i..k]) == NewlineCount(source[i..j]) + NewlineCount(source[j..k])
  {
    assert source[i..k] == source[i..j] + source[j..k];
    NewlineCountAppend(source[i..j], source[j..k]);
  }

  /* ---------------------------------------------------------------------
   * One step of `scan_token`
   * --------------------------------------------------------------------- */

  /** Whether a character is handled by the single-character token table. */
  predicate SingleCharacter(c: char) {
    c in {'(', ')', '{', '}', ',', '.', '-', '+', ';', '*'}
  }

  /** Steps that consume no line feed leave `line` alone. */
  lemma StepLinesNoFeed(source: string, keywords: map<string, TokenType>, parseNumber: string -> real, st: ScanState)
    requires st.start == st.current && !AtEnd(source, st.current)
    requires source[st.current] != '\n' && source[st.current] != '"'
    ensures var r := Step(source, keywords, parseNumber, st);
            r.line == st.line && forall k | st.current <= k < r.current :: source[k] != '\n'
  {
    var c := source[st.current];
    if c == '/' {
      SlashLinesNoFeed(source, keywords, parseNumber, st);
    } else if IsDigit(c) {
      NumberLinesNoFeed(source, keywords, parseNumber, st);
    } else if IsIdentifierStart(c) && !SingleCharacter(c) {
      IdentifierLinesNoFeed(source, keywords, parseNumber, st);
    } else {
      OtherLinesNoFeed(source, keywords, parseNumber, st);
    }
  }

  lemma SlashLinesNoFeed(source: string, keywords: map<string, TokenType>, parseNumber: string -> real, st: ScanState)
    requires st.start == st.current && !AtEnd(source, st.current)
    requires source[st.current] == '/'
    ensures var r := Step(source, keywords, parseNumber, st);
            r.line == st.line && forall k | st.current <= k < r.current :: source[k] != '\n'
  {
  }

  lemma NumberLinesNoFeed(source: string, keywords: map<string, TokenType>, parseNumber: string -> real, st: ScanState)
    requires st.start == st.current && !AtEnd(source, st.current)
    requires IsDigit(source[st.current])
    ensures var r := Step(source, keywords, parseNumber, st);
            r.line == st.line && forall k | st.current <= k < r.current :: source[k] != '\n'
  {
    var i := st.current;
    var d := DigitsEnd(source, i + 1);
    var r := Step(source, keywords, parseNumber, st);
    assert r.current == FractionEnd(source, d);
    forall k | i <= k < r.current ensures source[k] != '\n' {
      if k >= d {
      }
    }
  }

  lemma IdentifierLinesNoFeed(source: string, keywords: map<string, TokenType>, parseNumber: string -> real, st: ScanState)
    requires st.start == st.current && !AtEnd(source, st.current)
    requires IsIdentifierStart(source[st.current]) && !SingleCharacter(source[st.current])
    ensures var r := Step(source, keywords, parseNumber, st);
            r.line == st.line && forall k | st.current <= k < r.current :: source[k] != '\n'
  {
  }

  lemma OtherLinesNoFeed(source: string, keywords: map<string, TokenType>, parseNumber: string -> real, st: ScanState)
    requires st.start == st.current && !AtEnd(source, st.current)
    requires var c := source[st.current];
             c !in {'\n', '"', '/'} && !IsDigit(c) && !(IsIdentifierStart(c) && !SingleCharacter(c))
    ensures var r := Step(source, keywords, parseNumber, st);
            r.line == st.line && forall k | st.current <= k < r.current :: source[k] != '\n'
  {
  }

  /** A step on a quote is `string`. */
  lemma StepOnQuote(source: string, keywords: map<string, TokenType>, parseNumber: string -> real, st: ScanState)
    requires st.start == st.current && !AtEnd(source, st.current)
    requires source[st.current] == '"'
    ensures Step(source, keywords, parseNumber, st) == StringStep(source, st.(current := st.current + 1))
  {
  }

  /** `string` counts the line feeds it passes over, the closing quote being none. */
  lemma StringStepLines(source: string, st: ScanState)
    requires st.start < st.current < |source|
    ensures var r := StringStep(source, st);
            st.current <= r.current && r.line == st.line + NewlineCount(source[st.current..r.current])
  {
    var end := SkipUntil(source, st.current, '"');
    if !AtEnd(source, end) {
      NewlineCountExtend(source, st.current, end);
    }
  }

  /** A string step counts the line feeds between the quotes. */
  lemma StepLinesString(source: string, keywords: map<string, TokenType>, parseNumber: string -> real, st: ScanState)
    requires st.start == st.current && !AtEnd(source, st.current)
    requires source[st.current] == '"'
    ensures var r := Step(source, keywords, parseNumber, st);
            r.line == st.line + NewlineCount(source[st.current..r.current])
  {
    var i := st.current;
    var inner := st.(current := i + 1);
    StepOnQuote(source, keywords, parseNumber, st);
    StringStepLines(source, inner);
    var r := StringStep(source, inner);
    NewlineCountExtend(source, i, i);
    assert source[i..i] == [];
    NewlineCountSplit(source, i, i + 1, r.current);
  }

  /**
   * `line` grows by exactly the line feeds the step consumed: a top-level
   * line feed, or those inside a string literal.  No other lexeme contains one.
   */
  lemma StepCountsLines(source: string, keywords: map<string, TokenType>, parseNumber: string -> real, st: ScanState)
    requires st.start == st.current && !AtEnd(source, st.current)
    ensures var r := Step(source, keywords, parseNumber, st);
            r.line == st.line + NewlineCount(source[st.current..r.current])
  {
    var r := Step(source, keywords, parseNumber, st);
    var i := st.current;
    if source[i] == '\n' {
      assert source[i..r.current] == ['\n'];
      assert NewlineCount(['\n']) == NewlineCount([]) + 1;
    } else if source[i] == '"' {
      StepLinesString(source, keywords, parseNumber, st);
    } else {
      StepLinesNoFeed(source, keywords, parseNumber, st);
      NewlineCountNone(source[i..r.current]);
    }
  }

  /** Given a keyword table without the end-of-input kind, a step never emits `Eof`. */
  lemma StepEmitsNoEof(source: string, keywords: map<string, TokenType>, parseNumber: string -> real, st: ScanState)
    requires st.start == st.current && !AtEnd(source, st.current)
    requires KeywordTableOk(keywords)
    ensures var r := Step(source, keywords, parseNumber, st);
            forall i | |st.tokens| <= i < |r.tokens| :: r.tokens[i].tokenType != Eof
  {
    var c := source[st.current];
    if c == '"' {
      StringEmitsNoEof(source, keywords, parseNumber, st);
    } else if IsDigit(c) {
      NumberEmitsNoEof(source, keywords, parseNumber, st);
    } else if IsIdentifierStart(c) && !SingleCharacter(c) {
      IdentifierEmitsNoEof(source, keywords, parseNumber, st);
    } else {
      OtherEmitsNoEof(source, keywords, parseNumber, st);
    }
  }

  lemma StringEmitsNoEof(source: string, keywords: map<string, TokenType>, parseNumber: string -> real, st: ScanState)
    requires st.start == st.current && !AtEnd(source, st.current)
    requires source[st.current] == '"'
    ensures var r := Step(source, keywords, parseNumber, st);
            forall i | |st.tokens| <= i < |r.tokens| :: r.tokens[i].tokenType != Eof
  {
  }

  lemma NumberEmitsNoEof(source: string, keywords: map<string, TokenType>, parseNumber: string -> real, st: ScanState)
    requires st.start == st.current && !AtEnd(source, st.current)
    requires IsDigit(source[st.current])
    ensures var r := Step(source, keywords, parseNumber, st);
            forall i | |st.tokens| <= i < |r.tokens| :: r.tokens[i].tokenType != Eof
  {
  }

  lemma IdentifierEmitsNoEof(source: string, keywords: map<string, TokenType>, parseNumber: string -> real, st: ScanState)
    requires st.start == st.current && !AtEnd(source, st.current)
    requires KeywordTableOk(keywords)
    requires IsIdentifierStart(source[st.current]) && !SingleCharacter(source[st.current])
    ensures var r := Step(source, keywords, parseNumber, st);
            forall i | |st.tokens| <= i < |r.tokens| :: r.tokens[i].tokenType != Eof
  {
  }

  lemma OtherEmitsNoEof(source: string, keywords: map<string, TokenType>, parseNumber: string -> real, st: ScanState)
    requires st.start == st.current && !AtEnd(source, st.current)
    requires var c := source[st.current]; c != '"' && !IsDigit(c) && !(IsIdentifierStart(c) && !SingleCharacter(c))
    ensures var r := Step(source, keywords, parseNumber, st);
            forall i | |st.tokens| <= i < |r.tokens| :: r.tokens[i].tokenType != Eof
  {
    if source[st.current] in {'=', '!', '<', '>', '/'} {
      OperatorEmitsNoEof(source, keywords, parseNumber, st);
    } else {
      SimpleEmitsNoEof(source, keywords, parseNumber, st);
    }
  }

  lemma OperatorEmitsNoEof(source: string, keywords: map<string, TokenType>, parseNumber: string -> real, st: ScanState)
    requires st.start == st.current && !AtEnd(source, st.current)
    requires source[st.current] in {'=', '!', '<', '>', '/'}
    ensures var r := Step(source, keywords, parseNumber, st);
            forall i | |st.tokens| <= i < |r.tokens| :: r.tokens[i].tokenType != Eof
  {
  }

  lemma SimpleEmitsNoEof(source: string, keywords: map<string, TokenType>, parseNumber: string -> real, st: ScanState)
    requires st.start == st.current && !AtEnd(source, st.current)
    requires var c := source[st.current];
             c !in {'"', '=', '!', '<', '>', '/'} && !IsDigit(c) && !(IsIdentifierStart(c) && !SingleCharacter(c))
    ensures var r := Step(source, keywords, parseNumber, st);
            forall i | |st.tokens| <= i < |r.tokens| :: r.tokens[i].tokenType != Eof
  {
  }

  /**
   * The two-character operators: a directly following `=` gives the
   * two-character kind and consumes both characters; otherwise only the
   * single-character kind is emitted and one character consumed.
   */
  lemma OperatorLookahead(source: string, keywords: map<string, TokenType>, parseNumber: string -> real, st: ScanState,
                          single: TokenType, double: TokenType)
    requires st.start == st.current && !AtEnd(source, st.current)
    requires (source[st.current], single, double) in
      {('=', Equal, EqualEqual), ('!', Bang, BangEqual), ('<', Less, LessEqual), ('>', Greater, GreaterEqual)}
    ensures var r := Step(source, keywords, parseNumber, st);
            var i := st.current;
            && r.errors == st.errors && r.line == st.line
            && (if !AtEnd(source, i + 1) && source[i + 1] == '='
                then r.current == i + 2 && r.tokens == st.tokens + [Token(double, source[i..i + 2], st.line, None)]
                else r.current == i + 1 && r.tokens == st.tokens + [Token(single, [source[i]], st.line, None)])
  {
    var i := st.current;
    assert source[i..i + 1] == [source[i]];
  }

  /** A `//` comment emits nothing and stops before the next line feed, or at the end. */
  lemma CommentSkipped(source: string, keywords: map<string, TokenType>, parseNumber: string -> real, st: ScanState)
    requires st.start == st.current && !AtEnd(source, st.current + 1)
    requires source[st.current] == '/' && source[st.current + 1] == '/'
    ensures var r := Step(source, keywords, parseNumber, st);
            && r.tokens == st.tokens && r.errors == st.errors && r.line == st.line
            && st.current + 2 <= r.current
            && (forall k | st.current + 2 <= k < r.current :: source[k] != '\n')
            && (AtEnd(source, r.current) || source[r.current] == '\n')
  {
  }

  /**
   * A terminated string literal: its lexeme runs from quote to quote and its
   * literal is the text strictly between them.  An unterminated one emits no
   * token and reports an error at the line it reached.
   */
  lemma StringLiteralScanned(source: string, keywords: map<string, TokenType>, parseNumber: string -> real, st: ScanState)
    requires st.start == st.current && !AtEnd(source, st.current)
    requires source[st.current] == '"'
    ensures var r := Step(source, keywords, parseNumber, st);
            var i := st.current;
            if |r.tokens| == |st.tokens| + 1 then
              var t := r.tokens[|st.tokens|];
              && i + 2 <= r.current
              && t.tokenType == String
              && t.lexeme == source[i..r.current]
              && t.lexeme[0] == '"' && t.lexeme[|t.lexeme| - 1] == '"'
              && t.literal == Str(source[i + 1..r.current - 1])
              && (forall k | i + 1 <= k < r.current - 1 :: source[k] != '"')
              && r.errors == st.errors
            else
              && r.tokens == st.tokens
              && AtEnd(source, r.current)
              && r.errors == st.errors + [LexError(r.line, UnterminatedString)]
  {
  }

  /** A number lexeme starts with a digit and holds only digits and dots. */
  lemma NumberLexeme(source: string, keywords: map<string, TokenType>, parseNumber: string -> real, st: ScanState)
    requires st.start == st.current && !AtEnd(source, st.current)
    requires IsDigit(source[st.current])
    ensures var r := Step(source, keywords, parseNumber, st);
            var t := r.tokens[|st.tokens|];
            && |r.tokens| == |st.tokens| + 1
            && t.tokenType == Number
            && t.lexeme == source[st.current..r.current]
            && IsDigit(t.lexeme[0])
            && (forall k | 0 <= k < |t.lexeme| :: IsDigit(t.lexeme[k]) || t.lexeme[k] == '.')
            && t.literal == Float(parseNumber(t.lexeme))
  {
    var i := st.current;
    var d := DigitsEnd(source, i + 1);
    var end := FractionEnd(source, d);
    forall k | i <= k < end ensures IsDigit(source[k]) || source[k] == '.' {
      if i < k < d {
      }
    }
  }

  /** Blanks and unexpected characters emit no token; scanning goes on one character later. */
  lemma SkippedCharacter(source: string, keywords: map<string, TokenType>, parseNumber: string -> real, st: ScanState)
    requires st.start == st.current && !AtEnd(source, st.current)
    requires var c := source[st.current];
             c in {' ', '\r', '\t'} ||
             !(SingleCharacter(c) || c in {'=', '!', '<', '>', '/', '\n', '"'} || IsDigit(c) || IsIdentifierStart(c))
    ensures var r := Step(source, keywords, parseNumber, st);
            && r.tokens == st.tokens && r.current == st.current + 1 && r.line == st.line
            && r.errors == (if source[st.current] in {' ', '\r', '\t'} then st.errors
                            else st.errors + [LexError(st.line, UnexpectedCharacter)])
  {
  }

  /** `{` is scanned as `RightBrace` and `}` as `LeftBrace`. */
  lemma BracesSwapped(source: string, keywords: map<string, TokenType>, parseNumber: string -> real, st: ScanState)
    requires st.start == st.current && !AtEnd(source, st.current)
    requires source[st.current] in {'{', '}'}
    ensures var r := Step(source, keywords, parseNumber, st);
            r.tokens == st.tokens + [Token(if source[st.current] == '{' then RightBrace else LeftBrace,
                                          [source[st.current]], st.line, None)]
  {
    assert source[st.current..st.current + 1] == [source[st.current]];
  }

  /** An identifier may start with `_` but stops at the first `_` after its first character. */
  lemma UnderscoreStartsButEndsIdentifier(source: string, keywords: map<string, TokenType>, parseNumber: string -> real,
                                          st: ScanState)
    requires st.start == st.current && !AtEnd(source, st.current)
    requires IsIdentifierStart(source[st.current])
    ensures var r := Step(source, keywords, parseNumber, st);
            && |r.tokens| == |st.tokens| + 1
            && (forall k | st.current < k < r.current :: source[k] != '_')
            && (r.current < |source| - 1 ==> !IsAlphaNumeric(source[r.current]))
  {
  }

  /**
   * An identifier's kind comes from the keyword table: the kind the table
   * gives its lexeme, or `Identifier` when the lexeme is no keyword; its
   * literal is `None`.
   */
  lemma IdentifierKind(source: string, keywords: map<string, TokenType>, parseNumber: string -> real, st: ScanState)
    requires st.start == st.current && !AtEnd(source, st.current)
    requires IsIdentifierStart(source[st.current])
    ensures var r := Step(source, keywords, parseNumber, st);
            && |r.tokens| == |st.tokens| + 1
            && var t := r.tokens[|st.tokens|];
               && t.lexeme == source[st.current..r.current]
               && t.tokenType == (if t.lexeme in keywords then keywords[t.lexeme] else Identifier)
               && t.literal == None
  {
  }

  /* ---------------------------------------------------------------------
   * The whole of `scan_tokens`
   * --------------------------------------------------------------------- */

  /** The state the main loop keeps: `line` is one more than the line feeds consumed. */
  ghost predicate LinesCounted(source: string, st: ScanState) {
    st.current <= |source| && st.line == 1 + NewlineCount(source[..st.current])
  }

  /** No token scanned so far is the end-of-input token. */
  ghost predicate NoEof(tokens: seq<Token>) {
    forall i | 0 <= i < |tokens| :: tokens[i].tokenType != Eof
  }

  lemma {:induction false} ScanFromKeepsInvariants(source: string, keywords: map<string, TokenType>,
                                                   parseNumber: string -> real, st: ScanState)
    requires st.current < |source|
    requires KeywordTableOk(keywords)
    requires LinesCounted(source, st) && NoEof(st.tokens)
    ensures var r := ScanFrom(source, keywords, parseNumber, st);
            LinesCounted(source, r) && NoEof(r.tokens) && r.line >= st.line && st.tokens <= r.tokens
    decreases |source| - st.current
  {
    if !AtEnd(source, st.current) {
      var s0 := st.(start := st.current);
      var s1 := Step(source, keywords, parseNumber, s0);
      StepCountsLines(source, keywords, parseNumber, s0);
      StepEmitsNoEof(source, keywords, parseNumber, s0);
      NewlineCountSplit(source, 0, st.current, s1.current);
      assert source[..s1.current] == source[0..s1.current];
      assert source[..st.current] == source[0..st.current];
      assert LinesCounted(source, s1);
      assert NoEof(s1.tokens) by {
        forall i | 0 <= i < |s1.tokens| ensures s1.tokens[i].tokenType != Eof {
          if i < |st.tokens| {
            assert s1.tokens[i] == s1.tokens[..|st.tokens|][i];
          }
        }
      }
      ScanFromKeepsInvariants(source, keywords, parseNumber, s1);
    }
  }

  /**
   * `scan_tokens` on a non-empty source: the result ends with exactly one
   * `Eof` token, with an empty lexeme, the `Nil` literal and the final line;
   * the loop stopped at the last character, which was never scanned; and the
   * final line is one more than the line feeds before that character.
   */
  lemma ScanEndsWithEof(source: string, keywords: map<string, TokenType>, parseNumber: string -> real)
    requires |source| > 0 && KeywordTableOk(keywords)
    ensures var (tokens, st) := Scan(source, keywords, parseNumber);
            && |tokens| >= 1
            && tokens[|tokens| - 1] == Token(Eof, "", st.line, LiteralValue.Nil)
            && (forall i | 0 <= i < |tokens| - 1 :: tokens[i].tokenType != Eof)
            && st.current == |source| - 1
            && st.line == 1 + NewlineCount(source[..|source| - 1])
  {
    assert source[..0] == [];
    ScanFromKeepsInvariants(source, keywords, parseNumber, Initial);
  }

  /* ---------------------------------------------------------------------
   * Whole-source examples of the scanner's quirks
   * --------------------------------------------------------------------- */

  /** `1.2.3` is one number lexeme: the `.` loop repeats. */
  lemma DottedNumberIsOneLexeme(parseNumber: string -> real)
    ensures Scan("1.2.3\n", Keywords, parseNumber).0 ==
      [Token(Number, "1.2.3", 1, Float(parseNumber("1.2.3"))), EofToken(1)]
  {
    var source := "1.2.3\n";
    assert DigitsEnd(source, 1) == 1;
    assert DigitsEnd(source, 2) == 3;
    assert DigitsEnd(source, 4) == 5;
    assert FractionEnd(source, 3) == 5;
    assert FractionEnd(source, 1) == 5;
    var st := Step(source, Keywords, parseNumber, Initial);
    assert st.current == 5;
    assert source[0..5] == "1.2.3";
    assert st.tokens == [Token(Number, "1.2.3", 1, Float(parseNumber("1.2.3")))];
  }

  /** Without a trailing line feed the last character is lost: `ab` scans as `a`. */
  lemma LastCharacterNotScanned(parseNumber: string -> real)
    ensures Scan("ab", Keywords, parseNumber).0 == [Token(Identifier, "a", 1, None), EofToken(1)]
  {
    var source := "ab";
    assert IdentifierEnd(source, 1) == 1;
    assert "a" !in Keywords;
    assert source[0..1] == "a";
    var st := Step(source, Keywords, parseNumber, Initial);
    assert st.tokens == [Token(Identifier, "a", 1, None)];
  }
}
