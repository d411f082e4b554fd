/**
 * The scanner (src/scanner/scanner.rs): a cursor state machine over the
 * source characters.  The first half of this module states, as functions,
 * what one step of the scanner does to its state; the class `Scanner` below
 * performs the same steps in place and is proved to agree with them.
 *
 * The end test is `current >= |source| - 1`, exactly as in the source, so
 * the last source character is never scanned and an empty source is refused.
 */
module Lexer {
  import opened Tokens

  /** A lexical diagnostic, as reported with its line. */
  datatype LexError = LexError(line: nat, message: string)

  const UnexpectedCharacter: string := "Unexpected Character"
  const UnterminatedString: string := "rlox:: Undeterminated String"

  /** The scanner's fields other than the source. */
  datatype ScanState = ScanState(start: nat, current: nat, line: nat, tokens: seq<Token>, errors: seq<LexError>)

  /* ---------------------------------------------------------------------
   * Character classes and the cursor tests
   * --------------------------------------------------------------------- */

  predicate IsDigit(c: char) { '0' <= c <= '9' }

  /** The characters that may continue an identifier (`_` is not one of them). */
  predicate IsAlphaNumeric(c: char) { 'a' <= c <= 'z' || 'A' <= c <= 'Z' || IsDigit(c) }

  /** The characters that may start an identifier. */
  predicate IsIdentifierStart(c: char) { 'a' <= c <= 'z' || 'A' <= c <= 'Z' || c == '_' }

  /** `is_at_end`: the cursor has reached the last character (which is never scanned). */
  predicate AtEnd(source: string, current: nat)
    ensures 0 < |source| && current == |source| - 1 ==> AtEnd(source, current)
  {
    current >= |source| - 1
  }

  /** `peek`: the character under the cursor, or NUL at the end. */
  function Peek(source: string, current: nat): (c: char)
    ensures c != '\0' ==> current < |source| - 1 && c == source[current]
  {
    if AtEnd(source, current) then '\0' else source[current]
  }

  /** `peek_next`: the character after the cursor, or NUL past the source. */
  function PeekNext(source: string, current: nat): (c: char)
    ensures current + 1 >= |source| ==> c == '\0'
    ensures c != '\0' ==> current + 1 < |source| && c == source[current + 1]
  {
    if current + 1 >= |source| then '\0' else source[current + 1]
  }

  /** `match_token`'s test: the cursor is not at the end and shows `expected`. */
  predicate MatchNext(source: string, current: nat, expected: char) {
    !AtEnd(source, current) && source[current] == expected
  }

  /** The number of line feeds in `s`. */
  function NewlineCount(s: string): nat {
    if s == [] then 0 else NewlineCount(s[..|s| - 1]) + (if s[|s| - 1] == '\n' then 1 else 0)
  }

  /** Counting one more character of `source[i..j]`. */
  lemma NewlineCountExtend(source: string, i: nat, j: nat)
    requires i <= j < |source|
    ensures NewlineCount(source[i..j + 1]) == NewlineCount(source[i..j]) + (if source[j] == '\n' then 1 else 0)
  {
    assert source[i..j + 1][..j - i] == source[i..j];
  }

  /* ---------------------------------------------------------------------
   * Where each of the scanner's inner loops stops
   * --------------------------------------------------------------------- */

  /** The loop `while peek() is a digit { advance() }`, started at `current`. */
  function DigitsEnd(source: string, current: nat): (end: nat)
    requires current < |source|
    ensures current <= end < |source|
    ensures forall k | current <= k < end :: IsDigit(source[k])
    ensures !IsDigit(Peek(source, end))
    decreases |source| - current
  {
    if IsDigit(Peek(source, current)) then DigitsEnd(source, current + 1) else current
  }

  /** The loop over `.` followed by a digit, then more digits; a `while`, so it may repeat. */
  function FractionEnd(source: string, current: nat): (end: nat)
    requires current < |source|
    ensures current <= end < |source|
    ensures forall k | current <= k < end :: IsDigit(source[k]) || source[k] == '.'
    ensures !(Peek(source, end) == '.' && IsDigit(PeekNext(source, end)))
    decreases |source| - current
  {
    if Peek(source, current) == '.' && IsDigit(PeekNext(source, current)) then
      FractionEnd(source, DigitsEnd(source, current + 1))
    else
      current
  }

  /** `identifier`'s loop: letters and digits only. */
  function IdentifierEnd(source: string, current: nat): (end: nat)
    requires current < |source|
    ensures current <= end < |source|
    ensures forall k | current <= k < end :: IsAlphaNumeric(source[k])
    ensures !IsAlphaNumeric(Peek(source, end))
    decreases |source| - current
  {
    if IsAlphaNumeric(Peek(source, current)) then IdentifierEnd(source, current + 1) else current
  }

  /**
   * The loops of a `//` comment and of `string`: up to, not including, the
   * next `stop` character (a line feed or a quote), or to the end.
   */
  function SkipUntil(source: string, current: nat, stop: char): (end: nat)
    requires current < |source|
    ensures current <= end < |source|
    ensures forall k | current <= k < end :: source[k] != stop
    ensures AtEnd(source, end) || source[end] == stop
    decreases |source| - current
  {
    if Peek(source, current) != stop && !AtEnd(source, current) then SkipUntil(source, current + 1, stop) else current
  }

  /* ---------------------------------------------------------------------
   * One call of `scan_token`, and the whole of `scan_tokens`
   * --------------------------------------------------------------------- */

  /**
   * How a step may change the state, from `st0` to `st`: the cursor moves
   * forward within the source, `line` does not decrease, and the token
   * vector is unchanged or has one token more, whose lexeme is the text from
   * `start` to the new cursor and whose line is the new line.
   */
  predicate Scanned(source: string, st0: ScanState, st: ScanState) {
    && st.start == st0.start && st0.current <= st.current < |source| && st.line >= st0.line
    && (st.tokens == st0.tokens ||
        (&& |st.tokens| == |st0.tokens| + 1 && st.tokens[..|st0.tokens|] == st0.tokens
         && st0.start <= st.current
         && st.tokens[|st0.tokens|].lexeme == source[st0.start..st.current]
         && st.tokens[|st0.tokens|].line == st.line))
  }

  /** What `add_token` does: append a token whose lexeme is `source[start..current]`. */
  function Appended(source: string, st: ScanState, kind: TokenType, literal: LiteralValue): (r: ScanState)
    requires st.start <= st.current < |source|
    ensures Scanned(source, st, r)
    ensures r.tokens == st.tokens + [Token(kind, source[st.start..st.current], st.line, literal)]
    ensures r.(tokens := st.tokens) == st
  {
    st.(tokens := st.tokens + [Token(kind, source[st.start..st.current], st.line, literal)])
  }

  /** The four `scan_*_equal_token` helpers: a following `=` selects the two-character kind. */
  function OneOrTwo(source: string, st: ScanState, single: TokenType, double: TokenType): (r: ScanState)
    requires st.start <= st.current < |source|
    ensures Scanned(source, st, r)
  {
    if MatchNext(source, st.current, '=') then Appended(source, st.(current := st.current + 1), double, None)
    else Appended(source, st, single, None)
  }

  /** `scan_slash_token`: a second `/` starts a comment, which adds no token. */
  function SlashStep(source: string, st: ScanState): (r: ScanState)
    requires st.start <= st.current < |source|
    ensures Scanned(source, st, r)
  {
    if MatchNext(source, st.current, '/') then st.(current := SkipUntil(source, st.current + 1, '\n'))
    else Appended(source, st, Slash, None)
  }

  /** `string`: a terminated literal keeps its quotes in the lexeme; an unterminated one only reports. */
  function StringStep(source: string, st: ScanState): (r: ScanState)
    requires st.start < st.current < |source|
    ensures Scanned(source, st, r)
  {
    var end := SkipUntil(source, st.current, '"');
    var line := st.line + NewlineCount(source[st.current..end]);
    if AtEnd(source, end) then
      st.(current := end, line := line, errors := st.errors + [LexError(line, UnterminatedString)])
    else
      Appended(source, st.(current := end + 1, line := line), String, Str(source[st.start + 1..end]))
  }

  /** `number`: the lexeme's value comes from the given number reader. */
  function NumberStep(source: string, parseNumber: string -> real, st: ScanState): (r: ScanState)
    requires st.start <= st.current < |source|
    ensures Scanned(source, st, r)
  {
    var end := FractionEnd(source, DigitsEnd(source, st.current));
    Appended(source, st.(current := end), Number, Float(parseNumber(source[st.start..end])))
  }

  /** `identifier`: keywords become their own kind, everything else `Identifier`. */
  function IdentifierStep(source: string, keywords: map<string, TokenType>, st: ScanState): (r: ScanState)
    requires st.start <= st.current < |source|
    ensures Scanned(source, st, r)
  {
    var end := IdentifierEnd(source, st.current);
    var text := source[st.start..end];
    Appended(source, st.(current := end), if text in keywords then keywords[text] else Identifier, None)
  }

  /** `scan_token`, entered with `start == current` and not at the end. */
  function Step(source: string, keywords: map<string, TokenType>, parseNumber: string -> real, st0: ScanState): (st: ScanState)
    requires st0.start == st0.current && !AtEnd(source, st0.current)
    ensures st0.current < st.current && Scanned(source, st0, st)
  {
    var c := source[st0.current];
    var st := st0.(current := st0.current + 1);
    match c
    case '(' => Appended(source, st, LeftParen, None)
    case ')' => Appended(source, st, RightParen, None)
    case '{' => Appended(source, st, RightBrace, None)
    case '}' => Appended(source, st, LeftBrace, None)
    case ',' => Appended(source, st, Comma, None)
    case '.' => Appended(source, st, Dot, None)
    case '-' => Appended(source, st, Minus, None)
    case '+' => Appended(source, st, Plus, None)
    case ';' => Appended(source, st, Semicolon, None)
    case '*' => Appended(source, st, Star, None)
    case '=' => OneOrTwo(source, st, Equal, EqualEqual)
    case '!' => OneOrTwo(source, st, Bang, BangEqual)
    case '<' => OneOrTwo(source, st, Less, LessEqual)
    case '>' => OneOrTwo(source, st, Greater, GreaterEqual)
    case '/' => SlashStep(source, st)
    case ' ' => st
    case '\r' => st
    case '\t' => st
    case '\n' => st.(line := st.line + 1)
    case '"' => StringStep(source, st)
    case _ =>
      if IsDigit(c) then NumberStep(source, parseNumber, st)
      else if IsIdentifierStart(c) then IdentifierStep(source, keywords, st)
      else st.(errors := st.errors + [LexError(st.line, UnexpectedCharacter)])
  }

  /** The main loop of `scan_tokens`, from state `st` until the end test holds. */
  function ScanFrom(source: string, keywords: map<string, TokenType>, parseNumber: string -> real, st: ScanState): (r: ScanState)
    requires st.current < |source|
    ensures r.current == |source| - 1 || (r == st && AtEnd(source, st.current))
    decreases |source| - st.current
  {
    if AtEnd(source, st.current) then st
    else ScanFrom(source, keywords, parseNumber, Step(source, keywords, parseNumber, st.(start := st.current)))
  }

  /** The scanner's state right after `Scanner::new`. */
  const Initial: ScanState := ScanState(0, 0, 1, [], [])

  /** The end-of-input token appended once the loop is done. */
  function EofToken(line: nat): Token {
    Token(Eof, "", line, LiteralValue.Nil)
  }

  /** What `scan_tokens` returns for a non-empty source, together with the final state. */
  function Scan(source: string, keywords: map<string, TokenType>, parseNumber: string -> real): (r: (seq<Token>, ScanState))
    requires |source| > 0
    ensures |r.0| > 0 && r.0[|r.0| - 1] == Token(Eof, "", r.1.line, LiteralValue.Nil)
    ensures r.0[..|r.0| - 1] == r.1.tokens
    ensures r.1.current == |source| - 1
  {
    var st := ScanFrom(source, keywords, parseNumber, Initial);
    (st.tokens + [EofToken(st.line)], st)
  }

  /* ---------------------------------------------------------------------
   * The scanner object
   * --------------------------------------------------------------------- */

  /**
   * `Scanner`: the source, the keyword table and the number reader are fixed;
   * the cursor fields, the token vector and the reported errors change in place.
   */
  class Scanner {
    const source: string
    const keywords: map<string, TokenType>
    const parseNumber: string -> real
    var tokens: seq<Token>
    var start: nat
    var current: nat
    var line: nat
    var errors: seq<LexError>

    /** The mutable fields as one value. */
    function State(): ScanState
      reads this
    {
      ScanState(start, current, line, tokens, errors)
    }

    /** The cursor lies inside the source. */
    predicate Valid()
      reads this
    {
      start <= current < |source|
    }

    /** `Scanner::new`. */
    constructor (source: string, keywords: map<string, TokenType>, parseNumber: string -> real)
      ensures this.source == source && this.keywords == keywords && this.parseNumber == parseNumber
      ensures State() == Initial
      ensures |source| > 0 ==> Valid()
    {
      this.source := source;
      this.keywords := keywords;
      this.parseNumber := parseNumber;
      tokens := [];
      start := 0;
      current := 0;
      line := 1;
      errors := [];
    }

    /** `scan_tokens`: scan to the end test, then append the end-of-input token. */
    method ScanTokens() returns (result: seq<Token>)
      requires Valid()
      modifies this
      ensures var st := ScanFrom(source, keywords, parseNumber, old(State()));
              State() == st.(tokens := st.tokens + [EofToken(st.line)])
      ensures result == tokens
    {
      while !AtEnd(source, current)
        invariant Valid()
        invariant ScanFrom(source, keywords, parseNumber, State()) == ScanFrom(source, keywords, parseNumber, old(State()))
        decreases |source| - current
      {
        start := current;
        ScanToken();
      }
      tokens := tokens + [EofToken(line)];
      result := tokens;
    }

    /** `advance`: the character under the cursor; the cursor moves unless at the end. */
    method Advance() returns (c: char)
      requires current < |source|
      modifies this`current
      ensures c == source[old(current)]
      ensures current == if AtEnd(source, old(current)) then old(current) else old(current) + 1
    {
      c := source[current];
      if !AtEnd(source, current) {
        current := current + 1;
      }
    }

    /** `add_token`. */
    method AddToken(kind: TokenType, literal: LiteralValue)
      requires start <= current < |source|
      modifies this`tokens
      ensures State() == Appended(source, old(State()), kind, literal)
    {
      tokens := tokens + [Token(kind, source[start..current], line, literal)];
    }

    /** `match_token`: consume the character under the cursor when it is `expected`. */
    method MatchToken(expected: char) returns (matched: bool)
      modifies this`current
      ensures matched == MatchNext(source, old(current), expected)
      ensures current == if matched then old(current) + 1 else old(current)
    {
      if AtEnd(source, current) {
        return false;
      }
      if source[current] != expected {
        return false;
      }
      current := current + 1;
      return true;
    }

    /** `scan_token`. */
    method ScanToken()
      requires Valid() && start == current && !AtEnd(source, current)
      modifies this
      ensures State() == Step(source, keywords, parseNumber, old(State()))
    {
      var c := Advance();
      match c
      case '(' => AddToken(LeftParen, None);
      case ')' => AddToken(RightParen, None);
      case '{' => AddToken(RightBrace, None);
      case '}' => AddToken(LeftBrace, None);
      case ',' => AddToken(Comma, None);
      case '.' => AddToken(Dot, None);
      case '-' => AddToken(Minus, None);
      case '+' => AddToken(Plus, None);
      case ';' => AddToken(Semicolon, None);
      case '*' => AddToken(Star, None);
      case '=' => ScanEqualEqualToken();
      case '!' => ScanBangEqualToken();
      case '<' => ScanLessEqualToken();
      case '>' => ScanGreaterEqualToken();
      case '/' => ScanSlashToken();
      case ' ' =>
      case '\r' =>
      case '\t' =>
      case '\n' => line := line + 1;
      case '"' => StringLiteral();
      case _ =>
        if IsDigit(c) {
          Number();
        } else if IsIdentifierStart(c) {
          Identifier();
        } else {
          errors := errors + [LexError(line, UnexpectedCharacter)];
        }
    }

    /** `identifier`. */
    method Identifier()
      requires start <= current < |source|
      modifies this
      ensures State() == IdentifierStep(source, keywords, old(State()))
    {
      while IsAlphaNumeric(Peek(source, current))
        modifies this`current
        invariant old(current) <= current < |source|
        invariant IdentifierEnd(source, current) == IdentifierEnd(source, old(current))
        decreases |source| - current
      {
        var _ := Advance();
      }
      var text := source[start..current];
      AddToken(if text in keywords then keywords[text] else TokenType.Identifier, None);
    }

    /** `scan_slash_token`. */
    method ScanSlashToken()
      requires start <= current < |source|
      modifies this
      ensures State() == SlashStep(source, old(State()))
    {
      var comment := MatchToken('/');
      if comment {
        while Peek(source, current) != '\n' && !AtEnd(source, current)
          modifies this`current
          invariant old(current) <= current < |source|
          invariant SkipUntil(source, current, '\n') == SkipUntil(source, old(current) + 1, '\n')
          decreases |source| - current
        {
          var _ := Advance();
        }
      } else {
        AddToken(Slash, None);
      }
    }

    /** `number`: digits, then `.`-and-digits groups for as long as they follow. */
    method Number()
      requires start <= current < |source|
      modifies this
      ensures State() == NumberStep(source, parseNumber, old(State()))
    {
      while IsDigit(Peek(source, current))
        modifies this`current
        invariant old(current) <= current < |source|
        invariant DigitsEnd(source, current) == DigitsEnd(source, old(current))
        decreases |source| - current
      {
        var _ := Advance();
      }
      while Peek(source, current) == '.' && IsDigit(PeekNext(source, current))
        modifies this`current
        invariant old(current) <= current < |source|
        invariant FractionEnd(source, current) == FractionEnd(source, DigitsEnd(source, old(current)))
        decreases |source| - current
      {
        var _ := Advance();
        ghost var afterDot := current;
        while IsDigit(Peek(source, current))
          modifies this`current
          invariant afterDot <= current < |source|
          invariant DigitsEnd(source, current) == DigitsEnd(source, afterDot)
          decreases |source| - current
        {
          var _ := Advance();
        }
      }
      AddToken(TokenType.Number, Float(parseNumber(source[start..current])));
    }

    /** `string`: counts the line feeds it passes; reports an unterminated literal. */
    method StringLiteral()
      requires start < current < |source|
      modifies this
      ensures State() == StringStep(source, old(State()))
    {
      StringBody();
      if AtEnd(source, current) {
        errors := errors + [LexError(line, UnterminatedString)];
        return;
      }
      var _ := Advance();
      var value := source[start + 1..current - 1];
      AddToken(String, Str(value));
    }

    /** The loop of `string`: up to the closing quote or the end, counting line feeds. */
    method StringBody()
      requires current < |source|
      modifies this`current, this`line
      ensures current == SkipUntil(source, old(current), '"')
      ensures line == old(line) + NewlineCount(source[old(current)..current])
    {
      while Peek(source, current) != '"' && !AtEnd(source, current)
        invariant old(current) <= current < |source|
        invariant SkipUntil(source, current, '"') == SkipUntil(source, old(current), '"')
        invariant line == old(line) + NewlineCount(source[old(current)..current])
        decreases |source| - current
      {
        if Peek(source, current) == '\n' {
          line := line + 1;
        }
        NewlineCountExtend(source, old(current), current);
        var _ := Advance();
      }
    }

    /** `scan_equal_equal_token`. */
    method ScanEqualEqualToken()
      requires start <= current < |source|
      modifies this
      ensures State() == OneOrTwo(source, old(State()), Equal, EqualEqual)
    {
      var two := MatchToken('=');
      if two { AddToken(EqualEqual, None); } else { AddToken(Equal, None); }
    }

    /** `scan_bang_equal_token`. */
    method ScanBangEqualToken()
      requires start <= current < |source|
      modifies this
      ensures State() == OneOrTwo(source, old(State()), Bang, BangEqual)
    {
      var two := MatchToken('=');
      if two { AddToken(BangEqual, None); } else { AddToken(Bang, None); }
    }

    /** `scan_less_equal_token`. */
    method ScanLessEqualToken()
      requires start <= current < |source|
      modifies this
      ensures State() == OneOrTwo(source, old(State()), Less, LessEqual)
    {
      var two := MatchToken('=');
      if two { AddToken(LessEqual, None); } else { AddToken(Less, None); }
    }

    /** `scan_greater_equal_token`. */
    method ScanGreaterEqualToken()
      requires start <= current < |source|
      modifies this
      ensures State() == OneOrTwo(source, old(State()), Greater, GreaterEqual)
    {
      var two := MatchToken('=');
      if two { AddToken(GreaterEqual, None); } else { AddToken(Greater, None); }
    }
  }
}
