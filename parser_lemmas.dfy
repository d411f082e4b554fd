/** What the parser guarantees, proved about the rule functions of `Parsing`. */
module ParsingFacts {
  import opened Tokens
  import opened Ast
  import opened Wrappers
  import opened Parsing
  import AstPrinter

  /* ---------------------------------------------------------------------
   * The cursor never passes the end-of-input token
   * --------------------------------------------------------------------- */

  /** None of the tokens from `p` up to (not including) `q` is `Eof`. */
  predicate NoEofIn(tokens: seq<Token>, p: nat, q: nat)
    requires p <= q <= |tokens|
  {
    forall k | p <= k < q :: tokens[k].tokenType != Eof
  }

  /** Two adjacent stretches without `Eof` make one. */
  lemma NoEofJoin(tokens: seq<Token>, p: nat, q: nat, r: nat)
    requires p <= q <= r <= |tokens|
    requires NoEofIn(tokens, p, q) && NoEofIn(tokens, q, r)
    ensures NoEofIn(tokens, p, r)
  {
  }

  /**
   * The trees the parser can build: since `equality`, `comparison` and
   * `term` drop their chains and `unary` only knows `/` and `*`, every
   * Binary and Unary node carries `/` or `*`; and since `primary` has no
   * case for identifiers, there is no variable reference.
   */
  predicate FactorTree(e: Expression) {
    match e
    case Binary(left, operator, right) =>
      operator.tokenType in {Slash, Star} && FactorTree(left) && FactorTree(right)
    case Grouping(inner) => FactorTree(inner)
    case Unary(operator, right) => operator.tokenType in {Slash, Star} && FactorTree(right)
    case Literal(_) => true
    case Variable(_) => false
  }

  /*
   * One lemma per rule, by simultaneous induction over the rules: a rule
   * consumes no `Eof` token, and what it returns has only `/` and `*` nodes.
   */

  lemma {:induction false} ExpressionSound(tokens: seq<Token>, p: nat)
    requires ValidTokens(tokens) && p < |tokens|
    ensures var r := ExpressionAt(tokens, p);
            NoEofIn(tokens, p, r.pos) && (r.Success? ==> FactorTree(r.expr))
    decreases |tokens| - p, 10
  {
    EqualitySound(tokens, p);
  }

  lemma {:induction false} EqualitySound(tokens: seq<Token>, p: nat)
    requires ValidTokens(tokens) && p < |tokens|
    ensures var r := EqualityAt(tokens, p);
            NoEofIn(tokens, p, r.pos) && (r.Success? ==> FactorTree(r.expr))
    decreases |tokens| - p, 9
  {
    var first := ComparisonAt(tokens, p);
    ComparisonSound(tokens, p);
    if first.Success? {
      EqualityLoopSound(tokens, first.pos, first.expr);
    }
  }

  lemma {:induction false} EqualityLoopSound(tokens: seq<Token>, p: nat, acc: Expression)
    requires ValidTokens(tokens) && p < |tokens|
    ensures NoEofIn(tokens, p, EqualityLoop(tokens, p, acc).pos)
    decreases |tokens| - p, 8
  {
    if MatchesAt(tokens, p, [EqualEqual, BangEqual]) {
      var right := ComparisonAt(tokens, p + 1);
      ComparisonSound(tokens, p + 1);
      if right.Success? {
        EqualityLoopSound(tokens, right.pos, Binary(acc, tokens[p], right.expr));
      }
    }
  }

  lemma {:induction false} ComparisonSound(tokens: seq<Token>, p: nat)
    requires ValidTokens(tokens) && p < |tokens|
    ensures var r := ComparisonAt(tokens, p);
            NoEofIn(tokens, p, r.pos) && (r.Success? ==> FactorTree(r.expr))
    decreases |tokens| - p, 7
  {
    var first := TermAt(tokens, p);
    TermSound(tokens, p);
    if first.Success? {
      ComparisonLoopSound(tokens, first.pos, first.expr);
    }
  }

  lemma {:induction false} ComparisonLoopSound(tokens: seq<Token>, p: nat, acc: Expression)
    requires ValidTokens(tokens) && p < |tokens|
    ensures NoEofIn(tokens, p, ComparisonLoop(tokens, p, acc).pos)
    decreases |tokens| - p, 6
  {
    if MatchesAt(tokens, p, [Greater, GreaterEqual, Less, LessEqual]) {
      var right := TermAt(tokens, p + 1);
      TermSound(tokens, p + 1);
      if right.Success? {
        ComparisonLoopSound(tokens, right.pos, Binary(acc, tokens[p], right.expr));
      }
    }
  }

  lemma {:induction false} TermSound(tokens: seq<Token>, p: nat)
    requires ValidTokens(tokens) && p < |tokens|
    ensures var r := TermAt(tokens, p);
            NoEofIn(tokens, p, r.pos) && (r.Success? ==> FactorTree(r.expr))
    decreases |tokens| - p, 5
  {
    var first := FactorAt(tokens, p);
    FactorSound(tokens, p);
    if first.Success? {
      TermLoopSound(tokens, first.pos, first.expr);
    }
  }

  lemma {:induction false} TermLoopSound(tokens: seq<Token>, p: nat, acc: Expression)
    requires ValidTokens(tokens) && p < |tokens|
    ensures NoEofIn(tokens, p, TermLoop(tokens, p, acc).pos)
    decreases |tokens| - p, 4
  {
    if MatchesAt(tokens, p, [Minus, Plus]) {
      var right := FactorAt(tokens, p + 1);
      FactorSound(tokens, p + 1);
      if right.Success? {
        TermLoopSound(tokens, right.pos, Binary(acc, tokens[p], right.expr));
      }
    }
  }

  lemma {:induction false} FactorSound(tokens: seq<Token>, p: nat)
    requires ValidTokens(tokens) && p < |tokens|
    ensures var r := FactorAt(tokens, p);
            NoEofIn(tokens, p, r.pos) && (r.Success? ==> FactorTree(r.expr))
    decreases |tokens| - p, 3
  {
    var first := UnaryAt(tokens, p);
    UnarySound(tokens, p);
    if first.Success? {
      FactorLoopSound(tokens, first.pos, first.expr);
    }
  }

  lemma {:induction false} FactorLoopSound(tokens: seq<Token>, p: nat, acc: Expression)
    requires ValidTokens(tokens) && p < |tokens|
    ensures var r := FactorLoop(tokens, p, acc);
            NoEofIn(tokens, p, r.pos) && (r.Success? && FactorTree(acc) ==> FactorTree(r.expr))
    decreases |tokens| - p, 2
  {
    if MatchesAt(tokens, p, [Slash, Star]) {
      FactorLoopStep(tokens, p, acc);
      var right := UnaryAt(tokens, p + 1);
      UnarySound(tokens, p + 1);
      NoEofJoin(tokens, p, p + 1, right.pos);
      if right.Success? {
        var next := Binary(acc, tokens[p], right.expr);
        FactorLoopSound(tokens, right.pos, next);
        NoEofJoin(tokens, p, right.pos, FactorLoop(tokens, right.pos, next).pos);
        assert FactorTree(acc) ==> FactorTree(next);
      }
    } else {
      assert FactorLoop(tokens, p, acc) == Success(acc, p);
    }
  }

  lemma {:induction false} UnarySound(tokens: seq<Token>, p: nat)
    requires ValidTokens(tokens) && p < |tokens|
    ensures var r := UnaryAt(tokens, p);
            NoEofIn(tokens, p, r.pos) && (r.Success? ==> FactorTree(r.expr))
    decreases |tokens| - p, 1
  {
    if MatchesAt(tokens, p, [Slash, Star]) {
      UnarySound(tokens, p + 1);
    } else {
      PrimarySound(tokens, p);
    }
  }

  lemma {:induction false} PrimarySound(tokens: seq<Token>, p: nat)
    requires ValidTokens(tokens) && p < |tokens|
    ensures var r := PrimaryAt(tokens, p);
            NoEofIn(tokens, p, r.pos) && (r.Success? ==> FactorTree(r.expr))
    decreases |tokens| - p, 0
  {
    if MatchesAt(tokens, p, [LeftParen]) {
      ExpressionSound(tokens, p + 1);
    }
  }

  /**
   * `parse` on a token sequence ending in `Eof`: the expression it returns
   * has only `/` and `*` operators, and the cursor stops at or before the
   * first `Eof`.
   */
  lemma ParseSound(tokens: seq<Token>)
    requires ValidTokens(tokens)
    ensures var r := ExpressionAt(tokens, 0);
            && (forall k | 0 <= k < r.pos :: tokens[k].tokenType != Eof)
            && (ParseTokens(tokens).Some? ==> FactorTree(ParseTokens(tokens).value))
  {
    ExpressionSound(tokens, 0);
  }

  /** A tree the parser builds is one the printer knows how to print. */
  lemma {:induction false} FactorTreePrintable(e: Expression)
    requires FactorTree(e)
    ensures AstPrinter.Printable(e)
  {
    match e
    case Binary(left, _, right) =>
      FactorTreePrintable(left);
      FactorTreePrintable(right);
    case Grouping(inner) =>
      FactorTreePrintable(inner);
    case Unary(_, right) =>
      FactorTreePrintable(right);
    case Literal(_) =>
  }

  /** The printer accepts every expression `parse` returns. */
  lemma ParsedIsPrintable(tokens: seq<Token>)
    requires ValidTokens(tokens)
    ensures ParseTokens(tokens).Some? ==> AstPrinter.Printable(ParseTokens(tokens).value)
  {
    ParseSound(tokens);
    if ParseTokens(tokens).Some? {
      FactorTreePrintable(ParseTokens(tokens).value);
    }
  }

  /* ---------------------------------------------------------------------
   * `equality`, `comparison` and `term` keep only their first operand
   * --------------------------------------------------------------------- */

  /**
   * Whatever the operators after it, a successful `expression` returns the
   * tree `factor` built at the same position: the three upper levels consume
   * their operator/operand pairs but return their first operand.
   */
  lemma ExpressionIsFactor(tokens: seq<Token>, p: nat)
    requires ValidTokens(tokens) && p < |tokens|
    ensures ExpressionAt(tokens, p).Success? ==> FactorAt(tokens, p).Success?
    ensures ExpressionAt(tokens, p).Success? ==> ExpressionAt(tokens, p).expr == FactorAt(tokens, p).expr
    ensures FactorAt(tokens, p).pos <= ExpressionAt(tokens, p).pos
  {
    var f := FactorAt(tokens, p);
    var t := TermAt(tokens, p);
    var c := ComparisonAt(tokens, p);
    var e := EqualityAt(tokens, p);
    if f.Failure? {
      assert t == f && c == t && e == c;
    } else {
      assert f.pos <= t.pos;
      assert t.Success? ==> t.expr == f.expr;
      if t.Failure? {
        assert c == t && e == c;
      } else {
        assert t.pos <= c.pos;
        assert c.Success? ==> c.expr == t.expr;
        if c.Failure? {
          assert e == c;
        } else {
          assert c.pos <= e.pos;
        }
      }
    }
  }

  /** Three tokens for `1 + 2` followed by `Eof`. */
  function OnePlusTwo(): seq<Token> {
    [Token(Number, "1", 1, Float(1.0)), Token(Plus, "+", 1, LiteralValue.None),
     Token(Number, "2", 1, Float(2.0)), Token(Eof, "", 1, LiteralValue.Nil)]
  }

  /** `term` on `1 + 2` consumes all three tokens and returns `Literal 1`. */
  lemma TermOnePlusTwo()
    ensures ValidTokens(OnePlusTwo())
    ensures TermAt(OnePlusTwo(), 0) == Success(Literal(Float(1.0)), 3)
    ensures ParseTokens(OnePlusTwo()) == Some(Literal(Float(1.0)))
  {
    var tokens := OnePlusTwo();
    assert PrimaryAt(tokens, 0) == Success(Literal(Float(1.0)), 1);
    assert FactorLoop(tokens, 1, Literal(Float(1.0))) == Success(Literal(Float(1.0)), 1);
    assert PrimaryAt(tokens, 2) == Success(Literal(Float(2.0)), 3);
    assert FactorAt(tokens, 2) == Success(Literal(Float(2.0)), 3);
    TermLoopStep(tokens, 1, Literal(Float(1.0)));
    assert TermLoop(tokens, 3, Binary(Literal(Float(1.0)), tokens[1], Literal(Float(2.0)))).pos == 3;
    assert TermAt(tokens, 0) == Success(Literal(Float(1.0)), 3);
    assert ComparisonAt(tokens, 0) == Success(Literal(Float(1.0)), 3);
  }

  /* ---------------------------------------------------------------------
   * `factor` builds a left-deep chain
   * --------------------------------------------------------------------- */

  /**
   * `e` is `acc` extended by zero or more Binary nodes on the left spine,
   * none of whose right operands is itself a Binary node.
   */
  predicate LeftDeepOver(e: Expression, acc: Expression) {
    e == acc || (e.Binary? && !e.right.Binary? && LeftDeepOver(e.left, acc))
  }

  /** What `unary` returns is never a Binary node. */
  lemma UnaryNotBinary(tokens: seq<Token>, p: nat)
    requires ValidTokens(tokens) && p < |tokens|
    ensures UnaryAt(tokens, p).Success? ==> !UnaryAt(tokens, p).expr.Binary?
  {
  }

  /** Every turn of `factor`'s loop hangs the new operand to the right of the chain so far. */
  lemma {:induction false} FactorLoopLeftDeep(tokens: seq<Token>, p: nat, acc: Expression)
    requires ValidTokens(tokens) && p < |tokens|
    ensures var r := FactorLoop(tokens, p, acc);
            r.Success? ==> LeftDeepOver(r.expr, acc)
    decreases |tokens| - p
  {
    if MatchesAt(tokens, p, [Slash, Star]) {
      var right := UnaryAt(tokens, p + 1);
      if right.Success? {
        UnaryNotBinary(tokens, p + 1);
        var next := Binary(acc, tokens[p], right.expr);
        FactorLoopLeftDeep(tokens, right.pos, next);
        var r := FactorLoop(tokens, right.pos, next);
        if r.Success? {
          LeftDeepOverTrans(r.expr, next, acc);
        }
      }
    }
  }

  /** A left-deep extension of a one-step left-deep extension of `acc` is one of `acc`. */
  lemma {:induction false} LeftDeepOverTrans(e: Expression, mid: Expression, acc: Expression)
    requires LeftDeepOver(e, mid)
    requires mid.Binary? && !mid.right.Binary? && mid.left == acc
    ensures LeftDeepOver(e, acc)
  {
    if e != mid {
      LeftDeepOverTrans(e.left, mid, acc);
    }
  }

  /** Four tokens for `1 * 2 / 3` followed by `Eof`. */
  function TimesThenDivide(): seq<Token> {
    [Token(Number, "1", 1, Float(1.0)), Token(Star, "*", 1, LiteralValue.None),
     Token(Number, "2", 1, Float(2.0)), Token(Slash, "/", 1, LiteralValue.None),
     Token(Number, "3", 1, Float(3.0)), Token(Eof, "", 1, LiteralValue.Nil)]
  }

  /** `factor` on `1 * 2 / 3` groups to the left: `(1 * 2) / 3`. */
  lemma FactorGroupsLeft()
    ensures ValidTokens(TimesThenDivide())
    ensures var tokens := TimesThenDivide();
            FactorAt(tokens, 0)
            == Success(Binary(Binary(Literal(Float(1.0)), tokens[1], Literal(Float(2.0))), tokens[3], Literal(Float(3.0))), 5)
  {
    var tokens := TimesThenDivide();
    var one, two, three := Literal(Float(1.0)), Literal(Float(2.0)), Literal(Float(3.0));
    assert UnaryAt(tokens, 0) == Success(one, 1);
    assert UnaryAt(tokens, 2) == Success(two, 3);
    assert UnaryAt(tokens, 4) == Success(three, 5);
    FactorLoopStep(tokens, 1, one);
    FactorLoopStep(tokens, 3, Binary(one, tokens[1], two));
    assert FactorLoop(tokens, 5, Binary(Binary(one, tokens[1], two), tokens[3], three))
        == Success(Binary(Binary(one, tokens[1], two), tokens[3], three), 5);
  }

  /* ---------------------------------------------------------------------
   * Which tokens can start an expression
   * --------------------------------------------------------------------- */

  /** The kinds `unary` and `primary` accept as the first token. */
  const ExpressionStarts: set<TokenType> := {Slash, Star, False, True, TokenType.Nil, Number, String, LeftParen}

  /**
   * `primary`'s last branch: a rule fails without consuming anything exactly
   * when the first token cannot start an expression (`Eof`, `-`, `!`, …),
   * and that failure is `expected expression`, reported as
   * "Expected expression" on that token.
   */
  lemma {:induction false} ExpectedExpressionAt(tokens: seq<Token>, p: nat)
    requires ValidTokens(tokens) && p < |tokens|
    ensures var r := ExpressionAt(tokens, p);
            (r.Failure? && r.pos == p) <==> tokens[p].tokenType !in ExpressionStarts
    ensures var r := ExpressionAt(tokens, p);
            r.Failure? && r.pos == p ==>
              r.error == ParsingError(ExpectedExpression)
              && ReportsOf(tokens, r) == [ParseReport(tokens[p], ReportedExpectedExpression)]
  {
    var u := UnaryAt(tokens, p);
    var f := FactorAt(tokens, p);
    assert u.Failure? && u.pos == p ==> f == u;
    assert f.Failure? && f.pos == p ==> f == u;
    var t := TermAt(tokens, p);
    assert t.Failure? && t.pos == p ==> t == f;
    assert f.Failure? && f.pos == p ==> t == f;
    var c := ComparisonAt(tokens, p);
    assert c.Failure? && c.pos == p ==> c == t;
    assert t.Failure? && t.pos == p ==> c == t;
    var e := EqualityAt(tokens, p);
    assert e.Failure? && e.pos == p ==> e == c;
    assert c.Failure? && c.pos == p ==> e == c;
    if tokens[p].tokenType !in ExpressionStarts {
      assert PrimaryAt(tokens, p) == Failure(ParsingError(ExpectedExpression), p);
      assert u == Failure(ParsingError(ExpectedExpression), p);
    } else if tokens[p].tokenType == LeftParen {
      PrimaryGroupingStep(tokens, p);
    }
  }

  /** A leading `-` or `!`: `unary` does not know them, so nothing parses. */
  lemma LeadingMinusOrBang(tokens: seq<Token>)
    requires ValidTokens(tokens) && tokens[0].tokenType in {Minus, Bang}
    ensures ExpressionAt(tokens, 0) == Failure(ParsingError(ExpectedExpression), 0)
    ensures ParseTokens(tokens).None?
  {
    ExpectedExpressionAt(tokens, 0);
  }

  /** `/ 1` followed by `Eof`. */
  function SlashOne(): seq<Token> {
    [Token(Slash, "/", 1, LiteralValue.None), Token(Number, "1", 1, Float(1.0)), Token(Eof, "", 1, LiteralValue.Nil)]
  }

  /** `/` in front of a number is a prefix operator: `/ 1` parses to a Unary node. */
  lemma SlashIsPrefix()
    ensures ValidTokens(SlashOne())
    ensures ParseTokens(SlashOne()) == Some(Unary(SlashOne()[0], Literal(Float(1.0))))
  {
    var tokens := SlashOne();
    var e := Unary(tokens[0], Literal(Float(1.0)));
    assert UnaryAt(tokens, 1) == Success(Literal(Float(1.0)), 2);
    assert UnaryAt(tokens, 0) == Success(e, 2);
    LoneOperand(tokens, 0, e, 2);
  }

  /* ---------------------------------------------------------------------
   * `primary`
   * --------------------------------------------------------------------- */

  /** The binary operators of the four operator loops. */
  const BinaryOperators: set<TokenType> :=
    {Slash, Star, Minus, Plus, Greater, GreaterEqual, Less, LessEqual, EqualEqual, BangEqual}

  /**
   * An operand followed by a token that is no binary operator is the whole
   * expression: every operator loop stops at once.
   */
  lemma LoneOperand(tokens: seq<Token>, p: nat, e: Expression, q: nat)
    requires ValidTokens(tokens) && p < q < |tokens|
    requires UnaryAt(tokens, p) == Success(e, q) && tokens[q].tokenType !in BinaryOperators
    ensures ExpressionAt(tokens, p) == Success(e, q)
  {
    assert FactorLoop(tokens, q, e) == Success(e, q);
    assert FactorAt(tokens, p) == Success(e, q);
    assert TermLoop(tokens, q, e) == Success(e, q);
    assert TermAt(tokens, p) == Success(e, q);
    assert ComparisonLoop(tokens, q, e) == Success(e, q);
    assert ComparisonAt(tokens, p) == Success(e, q);
    assert EqualityLoop(tokens, q, e) == Success(e, q);
  }

  /** `( 1` followed by `Eof`. */
  function UnclosedGroup(): seq<Token> {
    [Token(LeftParen, "(", 1, LiteralValue.None), Token(Number, "1", 1, Float(1.0)),
     Token(Eof, "", 1, LiteralValue.Nil)]
  }

  /**
   * A missing `)` is an error reported on the token found instead, and it
   * reaches `parse`, which then returns `None`.
   */
  lemma MissingRightParen()
    ensures ValidTokens(UnclosedGroup())
    ensures ExpressionAt(UnclosedGroup(), 0) == Failure(ParsingError(ExpectRightParen), 2)
    ensures ReportsOf(UnclosedGroup(), ExpressionAt(UnclosedGroup(), 0))
            == [ParseReport(Token(Eof, "", 1, LiteralValue.Nil), ExpectRightParen)]
    ensures ParseTokens(UnclosedGroup()).None?
  {
    var tokens := UnclosedGroup();
    assert UnaryAt(tokens, 1) == Success(Literal(Float(1.0)), 2);
    LoneOperand(tokens, 1, Literal(Float(1.0)), 2);
    PrimaryGroupingStep(tokens, 0);
    assert !CheckAt(tokens, 2, RightParen);
    assert PrimaryAt(tokens, 0) == Failure(ParsingError(ExpectRightParen), 2);
    assert UnaryAt(tokens, 0) == PrimaryAt(tokens, 0);
  }

  /** `( 1 )` followed by `Eof`. */
  function ClosedGroupTokens(): seq<Token> {
    [Token(LeftParen, "(", 1, LiteralValue.None), Token(Number, "1", 1, Float(1.0)),
     Token(RightParen, ")", 1, LiteralValue.None), Token(Eof, "", 1, LiteralValue.Nil)]
  }

  /** `( 1 )` parses to a Grouping of the literal, consuming the three tokens. */
  lemma ClosedGroup()
    ensures ValidTokens(ClosedGroupTokens())
    ensures ExpressionAt(ClosedGroupTokens(), 0) == Success(Grouping(Literal(Float(1.0))), 3)
  {
    var tokens := ClosedGroupTokens();
    ClosedGroupOperand();
    assert tokens[3].tokenType !in BinaryOperators;
    LoneOperand(tokens, 0, Grouping(Literal(Float(1.0))), 3);
  }

  /** `unary` on `( 1 )`: the parenthesised expression, then the `)`. */
  lemma ClosedGroupOperand()
    ensures ValidTokens(ClosedGroupTokens())
    ensures UnaryAt(ClosedGroupTokens(), 0) == Success(Grouping(Literal(Float(1.0))), 3)
  {
    var tokens := ClosedGroupTokens();
    assert UnaryAt(tokens, 1) == Success(Literal(Float(1.0)), 2);
    LoneOperand(tokens, 1, Literal(Float(1.0)), 2);
    PrimaryGroupingStep(tokens, 0);
    assert CheckAt(tokens, 2, RightParen);
    assert PrimaryAt(tokens, 0) == Success(Grouping(Literal(Float(1.0))), 3);
  }

  /* ---------------------------------------------------------------------
   * `sync`
   * --------------------------------------------------------------------- */

  /**
   * `sync` ends at `Eof` or on a statement keyword, skipping only tokens
   * that are neither, and moves at least one token unless it starts at `Eof`.
   */
  lemma SyncProgress(tokens: seq<Token>, p: nat)
    requires ValidTokens(tokens) && p < |tokens|
    ensures var q := SyncFrom(tokens, AdvanceFrom(tokens, p));
            && (AtEof(tokens, p) <==> q == p)
            && (!AtEof(tokens, p) ==> p < q)
            && (AtEof(tokens, q) || tokens[q].tokenType in SyncKinds)
  {
  }
}
