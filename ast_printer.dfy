/**
 * The AST printer: an expression tree as parenthesised prefix text, such as
 * `(* (group 1) 2)`.  Number rendering is the host's float formatting and
 * is a parameter `floatText`.
 */
module AstPrinter {
  import opened Tokens
  import opened Ast
  import opened Wrappers

  /**
   * The trees the printer knows: its `match` has no case for a variable
   * reference, which the expression type it was written against lacks.
   */
  predicate Printable(e: Expression) {
    match e
    case Binary(left, _, right) => Printable(left) && Printable(right)
    case Grouping(inner) => Printable(inner)
    case Literal(_) => true
    case Unary(_, right) => Printable(right)
    case Variable(_) => false
  }

  /** How a literal prints: strings without quotes, `true`/`false`, `nil`, and nothing for `None`. */
  function LiteralText(v: LiteralValue, floatText: real -> string): (s: string)
    ensures v.Str? ==> s == v.s
    ensures v.Float? ==> s == floatText(v.n)
    ensures v.Boolean? ==> s == (if v.b then "true" else "false")
    ensures v.Nil? ==> s == "nil"
    ensures v.None? ==> s == ""
  {
    match v
    case Str(text) => text
    case Float(n) => floatText(n)
    case Boolean(b) => if b then "true" else "false"
    case Nil => "nil"
    case None => ""
  }

  /** The loop of `parenthesize`: a space, then each printed operand, in order. */
  function Spaced(parts: seq<string>): (s: string)
    ensures |parts| == 0 ==> s == ""
    ensures |parts| > 0 ==> s == Spaced(parts[..|parts| - 1]) + " " + parts[|parts| - 1]
  {
    if |parts| == 0 then "" else Spaced(parts[..|parts| - 1]) + " " + parts[|parts| - 1]
  }

  /** `parenthesize`: `(`, the name, the spaced operands, `)`. */
  function Parenthesize(name: string, parts: seq<string>): (s: string)
    ensures |s| == |name| + |Spaced(parts)| + 2
    ensures s[0] == '(' && s[|s| - 1] == ')'
    ensures s[1..|s| - 1] == name + Spaced(parts)
  {
    var inner := name + Spaced(parts);
    "(" + inner + ")"
  }

  /** `visit` / `print_tree`: literals print as their text, every other node parenthesised. */
  function Print(e: Expression, floatText: real -> string): (s: string)
    requires Printable(e)
    ensures e.Literal? ==> s == LiteralText(e.value, floatText)
    ensures !e.Literal? ==> |s| >= 2 && s[0] == '(' && s[|s| - 1] == ')'
  {
    match e
    case Unary(operator, right) => Parenthesize(operator.lexeme, [Print(right, floatText)])
    case Literal(value) => LiteralText(value, floatText)
    case Binary(left, operator, right) =>
      Parenthesize(operator.lexeme, [Print(left, floatText), Print(right, floatText)])
    case Grouping(inner) => Parenthesize("group", [Print(inner, floatText)])
  }

  /* ---------------------------------------------------------------------
   * The printed forms of the three compound nodes
   * --------------------------------------------------------------------- */

  lemma SpacedOne(x: string)
    ensures Spaced([x]) == " " + x
  {
    assert [x][..0] == [];
  }

  lemma SpacedTwo(x: string, y: string)
    ensures Spaced([x, y]) == " " + x + " " + y
  {
    assert [x, y][..1] == [x];
    SpacedOne(x);
  }

  /** A Binary node: operator, then left and right operand, each after a space. */
  lemma PrintBinary(left: Expression, operator: Token, right: Expression, floatText: real -> string)
    requires Printable(left) && Printable(right)
    ensures Print(Binary(left, operator, right), floatText)
            == "(" + operator.lexeme + " " + Print(left, floatText) + " " + Print(right, floatText) + ")"
  {
    var l, r := Print(left, floatText), Print(right, floatText);
    SpacedTwo(l, r);
    var name := operator.lexeme;
    assert Print(Binary(left, operator, right), floatText) == "(" + (name + (" " + l + " " + r)) + ")";
    ConcatAssoc(name, " " + l + " ", r);
    ConcatAssoc(name, " " + l, " ");
    ConcatAssoc(name, " ", l);
    var y := name + " " + l + " " + r;
    assert name + (" " + l + " " + r) == y;
    ConcatAssoc("(", name + " " + l + " ", r);
    ConcatAssoc("(", name + " " + l, " ");
    ConcatAssoc("(", name + " ", l);
    ConcatAssoc("(", name, " ");
    assert "(" + y == "(" + name + " " + l + " " + r;
  }

  /** `parenthesize` with one operand. */
  lemma ParenthesizeOne(name: string, x: string)
    ensures Parenthesize(name, [x]) == "(" + name + " " + x + ")"
  {
    SpacedOne(x);
    assert Parenthesize(name, [x]) == "(" + (name + (" " + x)) + ")";
    ConcatAssoc(name, " ", x);
    ConcatAssoc("(", name + " ", x);
    ConcatAssoc("(", name, " ");
  }

  /** A Unary node: operator, then its operand after a space. */
  lemma PrintUnary(operator: Token, right: Expression, floatText: real -> string)
    requires Printable(right)
    ensures Print(Unary(operator, right), floatText) == "(" + operator.lexeme + " " + Print(right, floatText) + ")"
  {
    ParenthesizeOne(operator.lexeme, Print(right, floatText));
  }

  /** A Grouping: `group`, then the inner expression after a space. */
  lemma PrintGrouping(inner: Expression, floatText: real -> string)
    requires Printable(inner)
    ensures Print(Grouping(inner), floatText) == "(group " + Print(inner, floatText) + ")"
  {
    var g := Print(inner, floatText);
    ParenthesizeOne("group", g);
    GroupPrefix();
  }

  /** The text that opens a printed Grouping. */
  lemma GroupPrefix()
    ensures "(" + "group" + " " == "(group "
  {
  }

  /* ---------------------------------------------------------------------
   * Balanced parentheses
   * --------------------------------------------------------------------- */

  /** How often `c` occurs in `s`. */
  function Count(s: string, c: char): (n: nat)
    ensures n <= |s|
  {
    if |s| == 0 then 0 else (if s[0] == c then 1 else 0) + Count(s[1..], c)
  }

  lemma {:induction false} CountAppend(a: string, b: string, c: char)
    ensures Count(a + b, c) == Count(a, c) + Count(b, c)
  {
    if |a| > 0 {
      assert (a + b)[0] == a[0];
      assert (a + b)[1..] == a[1..] + b;
      CountAppend(a[1..], b, c);
    } else {
      assert a + b == b;
    }
  }

  /** A prefix holds no more occurrences than the whole. */
  lemma CountPrefix(s: string, k: nat, c: char)
    requires k <= |s|
    ensures Count(s[..k], c) <= Count(s, c)
  {
    assert s == s[..k] + s[k..];
    CountAppend(s[..k], s[k..], c);
  }

  /** As many `(` as `)`, and no prefix closes more than it opened. */
  predicate Balanced(s: string) {
    && Count(s, '(') == Count(s, ')')
    && forall k | 0 <= k <= |s| :: Count(s[..k], ')') <= Count(s[..k], '(')
  }

  predicate ParenFree(s: string) {
    Count(s, '(') == 0 && Count(s, ')') == 0
  }

  lemma ParenFreeBalanced(s: string)
    requires ParenFree(s)
    ensures Balanced(s)
  {
    forall k | 0 <= k <= |s|
      ensures Count(s[..k], ')') <= Count(s[..k], '(')
    {
      CountPrefix(s, k, ')');
    }
  }

  lemma BalancedConcat(a: string, b: string)
    requires Balanced(a) && Balanced(b)
    ensures Balanced(a + b)
  {
    CountAppend(a, b, '(');
    CountAppend(a, b, ')');
    forall k | 0 <= k <= |a + b|
      ensures Count((a + b)[..k], ')') <= Count((a + b)[..k], '(')
    {
      if k <= |a| {
        assert (a + b)[..k] == a[..k];
      } else {
        assert (a + b)[..k] == a + b[..k - |a|];
        CountAppend(a, b[..k - |a|], '(');
        CountAppend(a, b[..k - |a|], ')');
        assert Count(b[..k - |a|], ')') <= Count(b[..k - |a|], '(');
      }
    }
  }

  /** Wrapping a balanced text in one pair of parentheses keeps it balanced. */
  lemma BalancedWrap(x: string)
    requires Balanced(x)
    ensures Balanced("(" + x + ")")
    ensures Count("(" + x + ")", '(') == Count(x, '(') + 1
  {
    var w := "(" + x + ")";
    CountAppend("(" + x, ")", '(');
    CountAppend("(" + x, ")", ')');
    CountAppend("(", x, '(');
    CountAppend("(", x, ')');
    forall k | 0 <= k <= |w|
      ensures Count(w[..k], ')') <= Count(w[..k], '(')
    {
      if 0 < k <= |x| + 1 {
        assert w[..k] == "(" + x[..k - 1];
        CountAppend("(", x[..k - 1], '(');
        CountAppend("(", x[..k - 1], ')');
        assert Count(x[..k - 1], ')') <= Count(x[..k - 1], '(');
      } else if k == 0 {
        assert w[..k] == [];
      } else {
        assert w[..k] == w;
      }
    }
  }

  /**
   * No leaf and no operator text of the tree contains a parenthesis: its
   * strings, its rendered numbers and its operator lexemes.
   */
  predicate ParenFreeLeaves(e: Expression, floatText: real -> string) {
    match e
    case Binary(left, operator, right) =>
      ParenFree(operator.lexeme) && ParenFreeLeaves(left, floatText) && ParenFreeLeaves(right, floatText)
    case Grouping(inner) => ParenFreeLeaves(inner, floatText)
    case Literal(value) => ParenFree(LiteralText(value, floatText))
    case Unary(operator, right) => ParenFree(operator.lexeme) && ParenFreeLeaves(right, floatText)
    case Variable(name) => ParenFree(name.lexeme)
  }

  /** The Binary, Grouping and Unary nodes of a tree. */
  function CompoundNodes(e: Expression): nat {
    match e
    case Binary(left, _, right) => 1 + CompoundNodes(left) + CompoundNodes(right)
    case Grouping(inner) => 1 + CompoundNodes(inner)
    case Literal(_) => 0
    case Unary(_, right) => 1 + CompoundNodes(right)
    case Variable(_) => 0
  }

  /**
   * When no leaf or operator contains a parenthesis, the printed text is
   * balanced and opens exactly one parenthesis per compound node.
   */
  lemma {:induction false} PrintBalanced(e: Expression, floatText: real -> string)
    requires Printable(e) && ParenFreeLeaves(e, floatText)
    ensures Balanced(Print(e, floatText))
    ensures Count(Print(e, floatText), '(') == CompoundNodes(e)
  {
    match e
    case Literal(value) =>
      ParenFreeBalanced(Print(e, floatText));
    case Unary(operator, right) =>
      PrintBalanced(right, floatText);
      OneSpacedBalanced(Print(right, floatText));
      ParenthesizeBalanced(operator.lexeme, Spaced([Print(right, floatText)]));
    case Grouping(g) =>
      PrintBalanced(g, floatText);
      OneSpacedBalanced(Print(g, floatText));
      assert ParenFree("group");
      ParenthesizeBalanced("group", Spaced([Print(g, floatText)]));
    case Binary(left, operator, right) =>
      PrintBalanced(left, floatText);
      PrintBalanced(right, floatText);
      TwoSpacedBalanced(Print(left, floatText), Print(right, floatText));
      ParenthesizeBalanced(operator.lexeme, Spaced([Print(left, floatText), Print(right, floatText)]));
  }

  /** `parenthesize` around balanced operands with a parenthesis-free name. */
  lemma ParenthesizeBalanced(name: string, body: string)
    requires ParenFree(name) && Balanced(body)
    ensures Balanced("(" + (name + body) + ")")
    ensures Count("(" + (name + body) + ")", '(') == 1 + Count(body, '(')
  {
    ParenFreeBalanced(name);
    BalancedConcat(name, body);
    CountAppend(name, body, '(');
    BalancedWrap(name + body);
  }

  lemma OneSpacedBalanced(x: string)
    requires Balanced(x)
    ensures Balanced(Spaced([x])) && Count(Spaced([x]), '(') == Count(x, '(')
  {
    SpacedOne(x);
    assert ParenFree(" ");
    ParenFreeBalanced(" ");
    BalancedConcat(" ", x);
    CountAppend(" ", x, '(');
  }

  lemma TwoSpacedBalanced(x: string, y: string)
    requires Balanced(x) && Balanced(y)
    ensures Balanced(Spaced([x, y])) && Count(Spaced([x, y]), '(') == Count(x, '(') + Count(y, '(')
  {
    SpacedTwo(x, y);
    OneSpacedBalanced(x);
    OneSpacedBalanced(y);
    SpacedOne(x);
    SpacedOne(y);
    assert " " + x + " " + y == (" " + x) + (" " + y);
    BalancedConcat(" " + x, " " + y);
    CountAppend(" " + x, " " + y, '(');
  }
}
