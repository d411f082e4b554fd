/**
 * The parser (src/parser/parser.rs): a token cursor with recursive-descent
 * rules from `expression` down to `primary`.  The functions below state what
 * each rule returns and where it leaves the cursor when started at position
 * `p`; the class `Parser` runs the same rules in place, with the loops of the
 * source, and is proved to agree with them.
 *
 * As in the source, `equality`, `comparison` and `term` build their Binary
 * chain and then return only their first operand, and `unary` takes `/` and
 * `*` (not `!` and `-`) as prefix operators.
 */
module Parsing {
  import opened Tokens
  import opened Ast
  import opened Wrappers

  /** The error a failed rule returns (its message). */
  datatype ParsingError = ParsingError(message: string)

  const ExpectRightParen: string := "Expect ')' after expression."
  const ExpectedExpression: string := "expected expression"

  /** What a rule returns, together with the cursor position it leaves behind. */
  datatype Parsed = Success(expr: Expression, pos: nat) | Failure(error: ParsingError, pos: nat)

  /** A rule method's result and final cursor, as a `Parsed`. */
  function Outcome(r: Result<Expression, ParsingError>, pos: nat): Parsed {
    match r
    case Ok(e) => Success(e, pos)
    case Err(error) => Failure(error, pos)
  }

  /** A diagnostic `lox_parser_error` reports: the offending token and the message. */
  datatype ParseReport = ParseReport(token: Token, message: string)

  /** `primary` reports "Expected expression" but returns "expected expression". */
  const ReportedExpectedExpression: string := "Expected expression"

  /**
   * The diagnostics a rule reports: none when it succeeds, and exactly one,
   * about the token where it stopped, when it fails.
   */
  function ReportsOf(tokens: seq<Token>, r: Parsed): (reports: seq<ParseReport>)
    requires r.pos < |tokens|
    ensures |reports| == if r.Success? then 0 else 1
    ensures r.Failure? ==> reports[0].token == tokens[r.pos]
  {
    match r
    case Success(_, _) => []
    case Failure(error, _) =>
      var message := if error.message == ExpectedExpression then ReportedExpectedExpression else error.message;
      [ParseReport(tokens[r.pos], message)]
  }

  /* ---------------------------------------------------------------------
   * The cursor over a token sequence
   * --------------------------------------------------------------------- */

  /** The parser's input: non-empty and ending with the end-of-input token. */
  predicate ValidTokens(tokens: seq<Token>) {
    |tokens| > 0 && tokens[|tokens| - 1].tokenType == Eof
  }

  /** `is_at_end`: the token under the cursor is `Eof`. */
  predicate AtEof(tokens: seq<Token>, p: nat)
    requires p < |tokens|
  {
    tokens[p].tokenType == Eof
  }

  /** `check`: not at the end and the token under the cursor has kind `kind`. */
  predicate CheckAt(tokens: seq<Token>, p: nat, kind: TokenType)
    requires p < |tokens|
    ensures CheckAt(tokens, p, kind) ==> tokens[p].tokenType == kind
    ensures kind == Eof ==> !CheckAt(tokens, p, kind)
  {
    !AtEof(tokens, p) && tokens[p].tokenType == kind
  }

  /** `match_token_type`'s test: some kind in the list passes `check`. */
  predicate MatchesAt(tokens: seq<Token>, p: nat, kinds: seq<TokenType>)
    requires p < |tokens|
  {
    !AtEof(tokens, p) && tokens[p].tokenType in kinds
  }

  /** Where `advance` leaves the cursor: one further on, unless at `Eof`. */
  function AdvanceFrom(tokens: seq<Token>, p: nat): (q: nat)
    requires ValidTokens(tokens) && p < |tokens|
    ensures q < |tokens|
    ensures AtEof(tokens, p) ==> q == p
    ensures !AtEof(tokens, p) ==> q == p + 1
  {
    if AtEof(tokens, p) then p else p + 1
  }

  /** The kinds at which `sync` stops. */
  const SyncKinds: set<TokenType> := {Class, If, TokenType.Var, For, While, TokenType.Print, Return}

  /** `sync`'s loop, started at `p`: skip tokens until a statement keyword or the end. */
  function SyncFrom(tokens: seq<Token>, p: nat): (q: nat)
    requires ValidTokens(tokens) && p < |tokens|
    ensures p <= q < |tokens|
    ensures AtEof(tokens, q) || tokens[q].tokenType in SyncKinds
    ensures forall k | p <= k < q :: tokens[k].tokenType != Eof && tokens[k].tokenType !in SyncKinds
    decreases |tokens| - p
  {
    if AtEof(tokens, p) || tokens[p].tokenType in SyncKinds then p else SyncFrom(tokens, p + 1)
  }

  /* ---------------------------------------------------------------------
   * The grammar rules, one function per rule and one per operator loop.
   * Every rule leaves the cursor on a token at or after where it started,
   * and a rule that succeeds has consumed at least one token.
   * --------------------------------------------------------------------- */

  /** `expression`. */
  function ExpressionAt(tokens: seq<Token>, p: nat): (r: Parsed)
    requires ValidTokens(tokens) && p < |tokens|
    ensures p <= r.pos < |tokens| && (r.Success? ==> p < r.pos)
    decreases |tokens| - p, 10
  {
    EqualityAt(tokens, p)
  }

  /** `equality`: the operator loop runs, but the first operand is returned. */
  function EqualityAt(tokens: seq<Token>, p: nat): (r: Parsed)
    requires ValidTokens(tokens) && p < |tokens|
    ensures p <= r.pos < |tokens| && (r.Success? ==> p < r.pos)
    decreases |tokens| - p, 9
  {
    var first := ComparisonAt(tokens, p);
    if first.Failure? then first
    else
      var chain := EqualityLoop(tokens, first.pos, first.expr);
      if chain.Failure? then chain else Success(first.expr, chain.pos)
  }

  /** `equality`'s loop over `==` and `!=`, with `acc` the chain built so far. */
  function EqualityLoop(tokens: seq<Token>, p: nat, acc: Expression): (r: Parsed)
    requires ValidTokens(tokens) && p < |tokens|
    ensures p <= r.pos < |tokens| && (r.Failure? ==> p < r.pos)
    decreases |tokens| - p, 8
  {
    if MatchesAt(tokens, p, [EqualEqual, BangEqual]) then
      var right := ComparisonAt(tokens, p + 1);
      if right.Failure? then right
      else EqualityLoop(tokens, right.pos, Binary(acc, tokens[p], right.expr))
    else
      Success(acc, p)
  }

  /** `comparison`: the operator loop runs, but the first operand is returned. */
  function ComparisonAt(tokens: seq<Token>, p: nat): (r: Parsed)
    requires ValidTokens(tokens) && p < |tokens|
    ensures p <= r.pos < |tokens| && (r.Success? ==> p < r.pos)
    decreases |tokens| - p, 7
  {
    var first := TermAt(tokens, p);
    if first.Failure? then first
    else
      var chain := ComparisonLoop(tokens, first.pos, first.expr);
      if chain.Failure? then chain else Success(first.expr, chain.pos)
  }

  /** `comparison`'s loop over `>`, `>=`, `<` and `<=`. */
  function ComparisonLoop(tokens: seq<Token>, p: nat, acc: Expression): (r: Parsed)
    requires ValidTokens(tokens) && p < |tokens|
    ensures p <= r.pos < |tokens| && (r.Failure? ==> p < r.pos)
    decreases |tokens| - p, 6
  {
    if MatchesAt(tokens, p, [Greater, GreaterEqual, Less, LessEqual]) then
      var right := TermAt(tokens, p + 1);
      if right.Failure? then right
      else ComparisonLoop(tokens, right.pos, Binary(acc, tokens[p], right.expr))
    else
      Success(acc, p)
  }

  /** `term`: the operator loop runs, but the first operand is returned. */
  function TermAt(tokens: seq<Token>, p: nat): (r: Parsed)
    requires ValidTokens(tokens) && p < |tokens|
    ensures p <= r.pos < |tokens| && (r.Success? ==> p < r.pos)
    decreases |tokens| - p, 5
  {
    var first := FactorAt(tokens, p);
    if first.Failure? then first
    else
      var chain := TermLoop(tokens, first.pos, first.expr);
      if chain.Failure? then chain else Success(first.expr, chain.pos)
  }

  /** `term`'s loop over `-` and `+`. */
  function TermLoop(tokens: seq<Token>, p: nat, acc: Expression): (r: Parsed)
    requires ValidTokens(tokens) && p < |tokens|
    ensures p <= r.pos < |tokens| && (r.Failure? ==> p < r.pos)
    decreases |tokens| - p, 4
  {
    if MatchesAt(tokens, p, [Minus, Plus]) then
      var right := FactorAt(tokens, p + 1);
      if right.Failure? then right
      else TermLoop(tokens, right.pos, Binary(acc, tokens[p], right.expr))
    else
      Success(acc, p)
  }

  /** `factor`: the one binary level that returns the chain its loop built. */
  function FactorAt(tokens: seq<Token>, p: nat): (r: Parsed)
    requires ValidTokens(tokens) && p < |tokens|
    ensures p <= r.pos < |tokens| && (r.Success? ==> p < r.pos)
    decreases |tokens| - p, 3
  {
    var first := UnaryAt(tokens, p);
    if first.Failure? then first
    else FactorLoop(tokens, first.pos, first.expr)
  }

  /** `factor`'s loop over `/` and `*`. */
  function FactorLoop(tokens: seq<Token>, p: nat, acc: Expression): (r: Parsed)
    requires ValidTokens(tokens) && p < |tokens|
    ensures p <= r.pos < |tokens| && (r.Failure? ==> p < r.pos)
    decreases |tokens| - p, 2
  {
    if MatchesAt(tokens, p, [Slash, Star]) then
      var right := UnaryAt(tokens, p + 1);
      if right.Failure? then right
      else FactorLoop(tokens, right.pos, Binary(acc, tokens[p], right.expr))
    else
      Success(acc, p)
  }

  /** One turn of `equality`'s loop, once the operator has matched. */
  lemma EqualityLoopStep(tokens: seq<Token>, p: nat, acc: Expression)
    requires ValidTokens(tokens) && p < |tokens| && MatchesAt(tokens, p, [EqualEqual, BangEqual])
    ensures var right := ComparisonAt(tokens, p + 1);
            EqualityLoop(tokens, p, acc)
            == if right.Failure? then right else EqualityLoop(tokens, right.pos, Binary(acc, tokens[p], right.expr))
  {
  }

  /** One turn of `comparison`'s loop, once the operator has matched. */
  lemma ComparisonLoopStep(tokens: seq<Token>, p: nat, acc: Expression)
    requires ValidTokens(tokens) && p < |tokens| && MatchesAt(tokens, p, [Greater, GreaterEqual, Less, LessEqual])
    ensures var right := TermAt(tokens, p + 1);
            ComparisonLoop(tokens, p, acc)
            == if right.Failure? then right else ComparisonLoop(tokens, right.pos, Binary(acc, tokens[p], right.expr))
  {
  }

  /** One turn of `term`'s loop, once the operator has matched. */
  lemma TermLoopStep(tokens: seq<Token>, p: nat, acc: Expression)
    requires ValidTokens(tokens) && p < |tokens| && MatchesAt(tokens, p, [Minus, Plus])
    ensures var right := FactorAt(tokens, p + 1);
            TermLoop(tokens, p, acc)
            == if right.Failure? then right else TermLoop(tokens, right.pos, Binary(acc, tokens[p], right.expr))
  {
  }

  /** One turn of `factor`'s loop, once the operator has matched. */
  lemma FactorLoopStep(tokens: seq<Token>, p: nat, acc: Expression)
    requires ValidTokens(tokens) && p < |tokens| && MatchesAt(tokens, p, [Slash, Star])
    ensures var right := UnaryAt(tokens, p + 1);
            FactorLoop(tokens, p, acc)
            == if right.Failure? then right else FactorLoop(tokens, right.pos, Binary(acc, tokens[p], right.expr))
  {
  }

  /** `unary`: prefix `/` and `*`, then `primary`. */
  function UnaryAt(tokens: seq<Token>, p: nat): (r: Parsed)
    requires ValidTokens(tokens) && p < |tokens|
    ensures p <= r.pos < |tokens| && (r.Success? ==> p < r.pos)
    decreases |tokens| - p, 1
  {
    if MatchesAt(tokens, p, [Slash, Star]) then
      var right := UnaryAt(tokens, p + 1);
      if right.Failure? then right
      else Success(Unary(tokens[p], right.expr), right.pos)
    else
      PrimaryAt(tokens, p)
  }

  /**
   * The literal a `Number` or `String` token contributes: a number or a
   * text is passed on, any other literal becomes `None`.
   */
  function TokenLiteral(t: Token): (v: LiteralValue)
    ensures t.literal.Float? || t.literal.Str? ==> v == t.literal
    ensures !(t.literal.Float? || t.literal.Str?) ==> v == LiteralValue.None
  {
    match t.literal
    case Str(s) => Str(s)
    case Float(n) => Float(n)
    case _ => LiteralValue.None
  }

  /** The token kinds `primary` turns into a literal. */
  const LiteralKinds: set<TokenType> := {False, True, TokenType.Nil, Number, String}

  /**
   * The literal `primary` makes of a one-token literal: `false`, `true` and
   * `nil` their own value, a `Number` or `String` token what the scanner
   * attached to it.
   */
  function LiteralOf(t: Token): LiteralValue {
    match t.tokenType
    case False => Boolean(false)
    case True => Boolean(true)
    case Nil => LiteralValue.Nil
    case _ => TokenLiteral(t)
  }

  /**
   * `primary`: it consumes exactly one token exactly when that token is of
   * a literal kind, and then returns the literal it stands for; a group
   * consumes at least three tokens.
   */
  function PrimaryAt(tokens: seq<Token>, p: nat): (r: Parsed)
    requires ValidTokens(tokens) && p < |tokens|
    ensures p <= r.pos < |tokens| && (r.Success? ==> p < r.pos)
    ensures (r.Success? && r.pos == p + 1) <==> tokens[p].tokenType in LiteralKinds
    ensures r.Success? && r.pos == p + 1 ==> r.expr == Literal(LiteralOf(tokens[p]))
    decreases |tokens| - p, 0
  {
    if MatchesAt(tokens, p, [False]) then Success(Literal(Boolean(false)), p + 1)
    else if MatchesAt(tokens, p, [True]) then Success(Literal(Boolean(true)), p + 1)
    else if MatchesAt(tokens, p, [TokenType.Nil]) then Success(Literal(LiteralValue.Nil), p + 1)
    else if MatchesAt(tokens, p, [Number, String]) then Success(Literal(TokenLiteral(tokens[p])), p + 1)
    else if MatchesAt(tokens, p, [LeftParen]) then
      var inner := ExpressionAt(tokens, p + 1);
      if inner.Failure? then inner
      else if CheckAt(tokens, inner.pos, RightParen) then Success(Grouping(inner.expr), inner.pos + 1)
      else Failure(ParsingError(ExpectRightParen), inner.pos)
    else
      Failure(ParsingError(ExpectedExpression), p)
  }

  /** `primary` on an opening parenthesis. */
  lemma PrimaryGroupingStep(tokens: seq<Token>, p: nat)
    requires ValidTokens(tokens) && p < |tokens| && MatchesAt(tokens, p, [LeftParen])
    ensures var inner := ExpressionAt(tokens, p + 1);
            PrimaryAt(tokens, p)
            == if inner.Failure? then inner
               else if CheckAt(tokens, inner.pos, RightParen) then Success(Grouping(inner.expr), inner.pos + 1)
               else Failure(ParsingError(ExpectRightParen), inner.pos)
  {
  }

  /** `parse`: one expression from the start; `None` exactly when it fails. */
  function ParseTokens(tokens: seq<Token>): (r: Option<Expression>)
    requires ValidTokens(tokens)
    ensures r.None? <==> ExpressionAt(tokens, 0).Failure?
    ensures r.Some? ==> r.value == ExpressionAt(tokens, 0).expr
  {
    match ExpressionAt(tokens, 0)
    case Success(e, _) => Some(e)
    case Failure(_, _) => Option.None
  }

  /* ---------------------------------------------------------------------
   * The parser object
   * --------------------------------------------------------------------- */

  /** `Parser`: the tokens are fixed, the cursor `current` moves. */
  class Parser {
    const tokens: seq<Token>
    var current: nat
    /** The diagnostics printed so far. */
    var reports: seq<ParseReport>

    /** The tokens end with `Eof` and the cursor is on one of them. */
    predicate Valid()
      reads this
    {
      ValidTokens(tokens) && current < |tokens|
    }

    /** `Parser::new`. */
    constructor (tokens: seq<Token>)
      ensures this.tokens == tokens && current == 0 && reports == []
      ensures ValidTokens(tokens) ==> Valid()
    {
      this.tokens := tokens;
      current := 0;
      reports := [];
    }

    /** `peek`. */
    function Peek(): Token
      reads this
      requires current < |tokens|
    {
      tokens[current]
    }

    /** `previous`. */
    function Previous(): Token
      reads this
      requires 0 < current <= |tokens|
    {
      tokens[current - 1]
    }

    /** `parse`. */
    method Parse() returns (r: Option<Expression>)
      requires Valid()
      modifies this`current, this`reports
      ensures Valid()
      ensures reports == old(reports) + ReportsOf(tokens, ExpressionAt(tokens, old(current)))
      ensures r.None? <==> ExpressionAt(tokens, old(current)).Failure?
      ensures r.Some? ==> r.value == ExpressionAt(tokens, old(current)).expr
      ensures current == ExpressionAt(tokens, old(current)).pos
    {
      var e := Expression();
      match e
      case Ok(expression) => return Some(expression);
      case Err(_) => return Option.None;
    }

    /** `sync`: one `advance`, then skip to a statement keyword or the end. */
    method Sync()
      requires Valid() && (current > 0 || !AtEof(tokens, current))
      modifies this`current
      ensures Valid()
      ensures current == SyncFrom(tokens, AdvanceFrom(tokens, old(current)))
    {
      var _ := Advance();
      while !AtEof(tokens, current)
        invariant Valid() && current > 0
        invariant SyncFrom(tokens, current) == SyncFrom(tokens, AdvanceFrom(tokens, old(current)))
        decreases |tokens| - current
      {
        // The source tests the previous token for `;` here and does nothing
        // with the answer: the loop only stops at a keyword or at `Eof`.
        if Previous().tokenType == Semicolon {
        }
        if Peek().tokenType in SyncKinds {
          return;
        }
        var _ := Advance();
      }
    }

    /** `expression`. */
    method Expression() returns (r: Result<Expression, ParsingError>)
      requires Valid()
      modifies this`current, this`reports
      ensures Valid() && Outcome(r, current) == ExpressionAt(tokens, old(current))
      ensures reports == old(reports) + ReportsOf(tokens, Outcome(r, current))
      decreases |tokens| - current, 10
    {
      r := Equality();
    }

    /** `equality`: builds the chain but returns its first operand. */
    method Equality() returns (r: Result<Expression, ParsingError>)
      requires Valid()
      modifies this`current, this`reports
      ensures Valid() && Outcome(r, current) == EqualityAt(tokens, old(current))
      ensures reports == old(reports) + ReportsOf(tokens, Outcome(r, current))
      decreases |tokens| - current, 9
    {
      var first := Comparison();
      if first.Err? {
        return first;
      }
      ghost var chainAt := current;
      var chain := EqualityOperators(first.value);
      assert EqualityLoop(tokens, chainAt, first.value) == Outcome(chain, current);
      if chain.Err? {
        return chain;
      }
      return first;
    }

    /**
     * The operator loop of `equality` over `==` and `!=`, starting from its first
     * operand `expression` (the chain it builds is dropped by `equality`).
     */
    method EqualityOperators(expression: Expression) returns (r: Result<Expression, ParsingError>)
      requires Valid()
      modifies this`current, this`reports
      ensures Valid() && Outcome(r, current) == EqualityLoop(tokens, old(current), expression)
      ensures reports == old(reports) + ReportsOf(tokens, Outcome(r, current))
      decreases |tokens| - current, 8
    {
      var mutableExpression := expression;
      while true
        invariant Valid() && old(current) <= current && reports == old(reports)
        invariant EqualityLoop(tokens, current, mutableExpression) == EqualityLoop(tokens, old(current), expression)
        decreases |tokens| - current
      {
        ghost var operatorAt := current;
        var matched := MatchTokenType([EqualEqual, BangEqual]);
        if !matched {
          assert EqualityLoop(tokens, operatorAt, mutableExpression) == Success(mutableExpression, operatorAt);
          break;
        }
        var operator := Previous();
        assert operator == tokens[operatorAt];
        ghost var operandAt := current;
        assert operandAt == operatorAt + 1;
        var right := Comparison();
        assert ComparisonAt(tokens, operandAt) == Outcome(right, current);
        EqualityLoopStep(tokens, operatorAt, mutableExpression);
        if right.Err? {
          return Err(right.error);
        }
        mutableExpression := Binary(mutableExpression, operator, right.value);
      }
      return Ok(mutableExpression);
    }

    /** `comparison`: builds the chain but returns its first operand. */
    method Comparison() returns (r: Result<Expression, ParsingError>)
      requires Valid()
      modifies this`current, this`reports
      ensures Valid() && Outcome(r, current) == ComparisonAt(tokens, old(current))
      ensures reports == old(reports) + ReportsOf(tokens, Outcome(r, current))
      decreases |tokens| - current, 7
    {
      var first := Term();
      if first.Err? {
        return first;
      }
      ghost var chainAt := current;
      var chain := ComparisonOperators(first.value);
      assert ComparisonLoop(tokens, chainAt, first.value) == Outcome(chain, current);
      if chain.Err? {
        return chain;
      }
      return first;
    }

    /**
     * The operator loop of `comparison` over `>`, `>=`, `<` and `<=`, starting from its first
     * operand `expression` (the chain it builds is dropped by `comparison`).
     */
    method ComparisonOperators(expression: Expression) returns (r: Result<Expression, ParsingError>)
      requires Valid()
      modifies this`current, this`reports
      ensures Valid() && Outcome(r, current) == ComparisonLoop(tokens, old(current), expression)
      ensures reports == old(reports) + ReportsOf(tokens, Outcome(r, current))
      decreases |tokens| - current, 6
    {
      var mutableExpression := expression;
      while true
        invariant Valid() && old(current) <= current && reports == old(reports)
        invariant ComparisonLoop(tokens, current, mutableExpression) == ComparisonLoop(tokens, old(current), expression)
        decreases |tokens| - current
      {
        ghost var operatorAt := current;
        var matched := MatchTokenType([Greater, GreaterEqual, Less, LessEqual]);
        if !matched {
          assert ComparisonLoop(tokens, operatorAt, mutableExpression) == Success(mutableExpression, operatorAt);
          break;
        }
        var operator := Previous();
        assert operator == tokens[operatorAt];
        ghost var operandAt := current;
        assert operandAt == operatorAt + 1;
        var right := Term();
        assert TermAt(tokens, operandAt) == Outcome(right, current);
        ComparisonLoopStep(tokens, operatorAt, mutableExpression);
        if right.Err? {
          return Err(right.error);
        }
        mutableExpression := Binary(mutableExpression, operator, right.value);
      }
      return Ok(mutableExpression);
    }

    /** `term`: builds the chain but returns its first operand. */
    method Term() returns (r: Result<Expression, ParsingError>)
      requires Valid()
      modifies this`current, this`reports
      ensures Valid() && Outcome(r, current) == TermAt(tokens, old(current))
      ensures reports == old(reports) + ReportsOf(tokens, Outcome(r, current))
      decreases |tokens| - current, 5
    {
      var first := Factor();
      if first.Err? {
        return first;
      }
      ghost var chainAt := current;
      var chain := TermOperators(first.value);
      assert TermLoop(tokens, chainAt, first.value) == Outcome(chain, current);
      if chain.Err? {
        return chain;
      }
      return first;
    }

    /**
     * The operator loop of `term` over `-` and `+`, starting from its first
     * operand `expression` (the chain it builds is dropped by `term`).
     */
    method TermOperators(expression: Expression) returns (r: Result<Expression, ParsingError>)
      requires Valid()
      modifies this`current, this`reports
      ensures Valid() && Outcome(r, current) == TermLoop(tokens, old(current), expression)
      ensures reports == old(reports) + ReportsOf(tokens, Outcome(r, current))
      decreases |tokens| - current, 4
    {
      var mutableExpression := expression;
      while true
        invariant Valid() && old(current) <= current && reports == old(reports)
        invariant TermLoop(tokens, current, mutableExpression) == TermLoop(tokens, old(current), expression)
        decreases |tokens| - current
      {
        ghost var operatorAt := current;
        var matched := MatchTokenType([Minus, Plus]);
        if !matched {
          assert TermLoop(tokens, operatorAt, mutableExpression) == Success(mutableExpression, operatorAt);
          break;
        }
        var operator := Previous();
        assert operator == tokens[operatorAt];
        ghost var operandAt := current;
        assert operandAt == operatorAt + 1;
        var right := Factor();
        assert FactorAt(tokens, operandAt) == Outcome(right, current);
        TermLoopStep(tokens, operatorAt, mutableExpression);
        if right.Err? {
          return Err(right.error);
        }
        mutableExpression := Binary(mutableExpression, operator, right.value);
      }
      return Ok(mutableExpression);
    }

    /** `factor`: returns the left-deep chain it built. */
    method Factor() returns (r: Result<Expression, ParsingError>)
      requires Valid()
      modifies this`current, this`reports
      ensures Valid() && Outcome(r, current) == FactorAt(tokens, old(current))
      ensures reports == old(reports) + ReportsOf(tokens, Outcome(r, current))
      decreases |tokens| - current, 3
    {
      var first := Unary();
      if first.Err? {
        return first;
      }
      ghost var chainAt := current;
      r := FactorOperators(first.value);
      assert FactorLoop(tokens, chainAt, first.value) == Outcome(r, current);
    }

    /**
     * The operator loop of `factor` over `/` and `*`, starting from its first
     * operand `expression` (`factor` returns the chain it builds).
     */
    method FactorOperators(expression: Expression) returns (r: Result<Expression, ParsingError>)
      requires Valid()
      modifies this`current, this`reports
      ensures Valid() && Outcome(r, current) == FactorLoop(tokens, old(current), expression)
      ensures reports == old(reports) + ReportsOf(tokens, Outcome(r, current))
      decreases |tokens| - current, 2
    {
      var mutableExpression := expression;
      while true
        invariant Valid() && old(current) <= current && reports == old(reports)
        invariant FactorLoop(tokens, current, mutableExpression) == FactorLoop(tokens, old(current), expression)
        decreases |tokens| - current
      {
        ghost var operatorAt := current;
        var matched := MatchTokenType([Slash, Star]);
        if !matched {
          assert FactorLoop(tokens, operatorAt, mutableExpression) == Success(mutableExpression, operatorAt);
          break;
        }
        var operator := Previous();
        assert operator == tokens[operatorAt];
        ghost var operandAt := current;
        assert operandAt == operatorAt + 1;
        var right := Unary();
        assert UnaryAt(tokens, operandAt) == Outcome(right, current);
        FactorLoopStep(tokens, operatorAt, mutableExpression);
        if right.Err? {
          return Err(right.error);
        }
        mutableExpression := Binary(mutableExpression, operator, right.value);
      }
      return Ok(mutableExpression);
    }

    /** `unary`. */
    method Unary() returns (r: Result<Expression, ParsingError>)
      requires Valid()
      modifies this`current, this`reports
      ensures Valid() && Outcome(r, current) == UnaryAt(tokens, old(current))
      ensures reports == old(reports) + ReportsOf(tokens, Outcome(r, current))
      decreases |tokens| - current, 1
    {
      var matched := MatchTokenType([Slash, Star]);
      if matched {
        var operator := Previous();
        ghost var operandAt := current;
        var right := Unary();
        assert UnaryAt(tokens, operandAt) == Outcome(right, current);
        match right
        case Ok(rightExpression) => return Ok(Ast.Unary(operator, rightExpression));
        case Err(error) => return Err(error);
      }
      r := Primary();
    }

    /** `primary`. */
    method Primary() returns (r: Result<Expression, ParsingError>)
      requires Valid()
      modifies this`current, this`reports
      ensures Valid() && Outcome(r, current) == PrimaryAt(tokens, old(current))
      ensures reports == old(reports) + ReportsOf(tokens, Outcome(r, current))
      decreases |tokens| - current, 0
    {
      ghost var start := current;
      var matched := MatchTokenType([False]);
      if matched {
        return Ok(Literal(Boolean(false)));
      }
      matched := MatchTokenType([True]);
      if matched {
        return Ok(Literal(Boolean(true)));
      }
      matched := MatchTokenType([TokenType.Nil]);
      if matched {
        return Ok(Literal(LiteralValue.Nil));
      }
      matched := MatchTokenType([Number, String]);
      if matched {
        return Ok(Literal(TokenLiteral(Previous())));
      }
      matched := MatchTokenType([LeftParen]);
      if matched {
        r := Parenthesized();
        return;
      }
      assert PrimaryAt(tokens, start) == Failure(ParsingError(ExpectedExpression), start);
      reports := reports + [ParseReport(Peek(), ReportedExpectedExpression)];
      return Err(ParsingError(ExpectedExpression));
    }

    /**
     * The `(` branch of `primary`, entered just after the parenthesis: an
     * expression, then the closing `)`.
     */
    method Parenthesized() returns (r: Result<Expression, ParsingError>)
      requires Valid() && current > 0 && MatchesAt(tokens, current - 1, [LeftParen])
      modifies this`current, this`reports
      ensures Valid() && Outcome(r, current) == PrimaryAt(tokens, old(current) - 1)
      ensures reports == old(reports) + ReportsOf(tokens, Outcome(r, current))
      decreases |tokens| - current, 11
    {
      ghost var innerAt := current;
      var inner := Expression();
      assert ExpressionAt(tokens, innerAt) == Outcome(inner, current);
      PrimaryGroupingStep(tokens, innerAt - 1);
      if inner.Err? {
        return inner;
      }
      var closing := Consume(RightParen, ExpectRightParen);
      if closing.Err? {
        return Err(closing.error);
      }
      return Ok(Grouping(inner.value));
    }

    /**
     * `match_token_type`: advances exactly one token when the current token
     * is not `Eof` and its kind is in the list; otherwise changes nothing.
     */
    method MatchTokenType(kinds: seq<TokenType>) returns (matched: bool)
      requires Valid()
      modifies this`current
      ensures Valid()
      ensures reports == old(reports)
      ensures matched == MatchesAt(tokens, old(current), kinds)
      ensures current == if matched then old(current) + 1 else old(current)
    {
      for i := 0 to |kinds|
        invariant current == old(current)
        invariant forall j | 0 <= j < i :: !CheckAt(tokens, current, kinds[j])
      {
        if CheckAt(tokens, current, kinds[i]) {
          var _ := Advance();
          return true;
        }
      }
      return false;
    }

    /** `advance`: moves unless at `Eof`, and returns the token before the cursor. */
    method Advance() returns (t: Token)
      requires Valid() && (current > 0 || !AtEof(tokens, current))
      modifies this`current
      ensures Valid()
      ensures current == AdvanceFrom(tokens, old(current))
      ensures current > 0 && t == tokens[current - 1]
    {
      if !AtEof(tokens, current) {
        current := current + 1;
      }
      return Previous();
    }

    /**
     * `consume`: Ok with the token, one token further on, exactly when the
     * current token has the expected kind; otherwise Err with the message and
     * the cursor where it was.
     */
    method Consume(kind: TokenType, message: string) returns (r: Result<Token, ParsingError>)
      requires Valid()
      modifies this`current, this`reports
      ensures Valid()
      ensures r.Ok? <==> CheckAt(tokens, old(current), kind)
      ensures r.Ok? ==> r.value == tokens[old(current)] && current == old(current) + 1
      ensures r.Err? ==> r.error == ParsingError(message) && current == old(current)
      ensures reports == old(reports) + (if r.Ok? then [] else [ParseReport(tokens[current], message)])
    {
      if CheckAt(tokens, current, kind) {
        var t := Advance();
        return Ok(t);
      }
      reports := reports + [ParseReport(Peek(), message)];
      return Err(ParsingError(message));
    }
  }
}
