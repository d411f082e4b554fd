/**
 * The tree-walking interpreter: expression evaluation over the value type,
 * with its truthiness and equality rules, and statement execution against
 * the environment.
 *
 * Evaluation reads the bindings and never changes them, so it is the
 * function `Eval` of the bindings.  Runtime errors are reported and
 * evaluation goes on with the `None` value; `todo!()` panics are the
 * outcome `Panic`.  A Grouping evaluates an identical Grouping again, which
 * never returns: the fuel `Eval` takes is spent only there.
 */
module Interpreting {
  import opened Tokens
  import opened Ast
  import opened Wrappers
  import opened Environments

  /* ---------------------------------------------------------------------
   * Values
   * --------------------------------------------------------------------- */

  /** `is_truthy`: only `false` and the `None` marker are falsy; `nil` is truthy. */
  function IsTruthy(v: LiteralValue): (b: bool)
    ensures !b <==> v == Boolean(false) || v == LiteralValue.None
  {
    match v
    case Boolean(value) => value
    case None => false
    case _ => true
  }

  /** `is_equal`: `None` equals only `None`; otherwise the same variant with the same payload. */
  function IsEqual(l: LiteralValue, r: LiteralValue): (b: bool)
    ensures b <==> l == r
  {
    if l == LiteralValue.None && r == LiteralValue.None then true
    else if l == LiteralValue.None then false
    else l == r
  }

  /** Values of different variants are never equal, and `is_equal` always answers. */
  lemma NoCrossTypeEquality(l: LiteralValue, r: LiteralValue)
    requires l.Float? != r.Float? || l.Boolean? != r.Boolean? || l.Str? != r.Str? || l.Nil? != r.Nil?
    ensures !IsEqual(l, r)
  {
  }

  /** The operators `evaluate_arithmetic_op` is used for. */
  const ArithmeticOperators: set<TokenType> := {Minus, Star, Slash}

  /** The operators `evaluate_boolean_op` is used for. */
  const ComparisonOperators: set<TokenType> := {Less, LessEqual, Greater, GreaterEqual}

  /**
   * The quotient of two numbers.  IEEE division by zero gives an infinity
   * or NaN, which the model's numbers do not have; it yields 0 here.
   */
  function Quotient(a: real, b: real): (q: real)
    ensures b != 0.0 ==> q * b == a
  {
    if b == 0.0 then 0.0 else a / b
  }

  /** `evaluate_arithmetic_op`: defined for two numbers only (anything else reaches `todo!()`). */
  function Arithmetic(kind: TokenType, l: LiteralValue, r: LiteralValue): (v: LiteralValue)
    requires kind in ArithmeticOperators && l.Float? && r.Float?
    ensures v.Float?
    ensures kind == Minus ==> v.n == l.n - r.n
    ensures kind == Star ==> v.n == l.n * r.n
    ensures kind == Slash && r.n != 0.0 ==> v.n * r.n == l.n
  {
    match kind
    case Minus => Float(l.n - r.n)
    case Star => Float(l.n * r.n)
    case Slash => Float(Quotient(l.n, r.n))
  }

  /** `evaluate_boolean_op`: defined for two numbers only (anything else reaches `todo!()`). */
  function Comparison(kind: TokenType, l: LiteralValue, r: LiteralValue): (v: LiteralValue)
    requires kind in ComparisonOperators && l.Float? && r.Float?
    ensures v.Boolean?
    ensures kind == Less ==> (v.b <==> l.n < r.n)
    ensures kind == LessEqual ==> (v.b <==> l.n <= r.n)
    ensures kind == Greater ==> (v.b <==> l.n > r.n)
    ensures kind == GreaterEqual ==> (v.b <==> l.n >= r.n)
  {
    match kind
    case Less => Boolean(l.n < r.n)
    case LessEqual => Boolean(l.n <= r.n)
    case Greater => Boolean(l.n > r.n)
    case GreaterEqual => Boolean(l.n >= r.n)
  }

  /* ---------------------------------------------------------------------
   * Expressions
   * --------------------------------------------------------------------- */

  /**
   * How an evaluation ends: with a value, with a panic, or not at all; in
   * each case with the runtime errors reported before it ended.
   */
  datatype Evaluation =
    | Value(value: LiteralValue, reports: seq<RuntimeReport>)
    | Panic(reports: seq<RuntimeReport>)
    | OutOfFuel(reports: seq<RuntimeReport>)

  /** `r`, after the runtime errors `earlier` that were reported before it. */
  function After(earlier: seq<RuntimeReport>, r: Evaluation): (e: Evaluation)
    ensures e.reports == earlier + r.reports
    ensures e.Value? == r.Value? && e.Panic? == r.Panic?
    ensures e.Value? ==> e.value == r.value
  {
    match r
    case Value(v, reports) => Value(v, earlier + reports)
    case Panic(reports) => Panic(earlier + reports)
    case OutOfFuel(reports) => OutOfFuel(earlier + reports)
  }

  const AdditionMessage: string := "Addition can be done between string and numbers"

  /** `+`: concatenation of two strings, sum of two numbers, otherwise an error and `None`. */
  function Add(operator: Token, l: LiteralValue, r: LiteralValue): (e: Evaluation)
    ensures e.Value?
    ensures l.Str? && r.Str? ==> e == Value(Str(l.s + r.s), [])
    ensures l.Float? && r.Float? ==> e == Value(Float(l.n + r.n), [])
    ensures !(l.Str? && r.Str?) && !(l.Float? && r.Float?) ==>
              e == Value(LiteralValue.None, [RuntimeReport(operator, AdditionMessage)])
  {
    match (l, r)
    case (Str(a), Str(b)) => Value(Str(a + b), [])
    case (Float(a), Float(b)) => Value(Float(a + b), [])
    case _ => Value(LiteralValue.None, [RuntimeReport(operator, AdditionMessage)])
  }

  /** The message for negating a value that is not a number. */
  function NegateMessage(v: LiteralValue): string
    requires !v.Float?
  {
    match v
    case Boolean(_) => "Tried to negate boolean"
    case Str(_) => "Tried to negate string"
    case Nil => "Tried to negate nil"
    case None => "None value cannot be used, that is really strange"
  }

  /**
   * The unary operators on an evaluated operand: `!` negates truthiness,
   * `-` negates a number and reports any other value, yielding `None`;
   * every other operator yields `nil`.
   */
  function ApplyUnary(operator: Token, v: LiteralValue): (e: Evaluation)
    ensures e.Value?
    ensures operator.tokenType == Bang ==> e == Value(Boolean(!IsTruthy(v)), [])
    ensures operator.tokenType == Minus && v.Float? ==> e == Value(Float(-v.n), [])
    ensures operator.tokenType == Minus && !v.Float? ==>
              e.value == LiteralValue.None && |e.reports| == 1 && e.reports[0].token == operator
    ensures operator.tokenType !in {Bang, Minus} ==> e == Value(LiteralValue.Nil, [])
  {
    match operator.tokenType
    case Bang => Value(Boolean(!IsTruthy(v)), [])
    case Minus =>
      if v.Float? then Value(Float(-v.n), [])
      else Value(LiteralValue.None, [RuntimeReport(operator, NegateMessage(v))])
    case _ => Value(LiteralValue.Nil, [])
  }

  /**
   * The binary operators on two evaluated operands: arithmetic and
   * comparison on numbers (a panic otherwise), `+`, `==` and `!=`; any other
   * operator is a panic.
   */
  function ApplyBinary(operator: Token, l: LiteralValue, r: LiteralValue): (e: Evaluation)
    ensures operator.tokenType == EqualEqual ==> e == Value(Boolean(IsEqual(l, r)), [])
    ensures operator.tokenType == BangEqual ==> e == Value(Boolean(!IsEqual(l, r)), [])
    ensures operator.tokenType in ArithmeticOperators && l.Float? && r.Float? ==>
              e == Value(Arithmetic(operator.tokenType, l, r), [])
    ensures operator.tokenType in ComparisonOperators && l.Float? && r.Float? ==>
              e == Value(Comparison(operator.tokenType, l, r), [])
    ensures operator.tokenType == Plus ==> e == Add(operator, l, r)
    ensures e.Panic? ==> e.reports == []
    ensures e.Panic? <==>
              if operator.tokenType in ArithmeticOperators + ComparisonOperators then !(l.Float? && r.Float?)
              else operator.tokenType !in {Plus, EqualEqual, BangEqual}
  {
    var kind := operator.tokenType;
    if kind in ArithmeticOperators then
      if l.Float? && r.Float? then Value(Arithmetic(kind, l, r), []) else Panic([])
    else if kind == Plus then Add(operator, l, r)
    else if kind in ComparisonOperators then
      if l.Float? && r.Float? then Value(Comparison(kind, l, r), []) else Panic([])
    else if kind == BangEqual then Value(Boolean(!IsEqual(l, r)), [])
    else if kind == EqualEqual then Value(Boolean(IsEqual(l, r)), [])
    else Panic([])
  }

  /** Whether a Grouping occurs anywhere in the tree. */
  predicate ContainsGrouping(e: Expression) {
    match e
    case Binary(left, _, right) => ContainsGrouping(left) || ContainsGrouping(right)
    case Grouping(_) => true
    case Unary(_, right) => ContainsGrouping(right)
    case Literal(_) => false
    case Variable(_) => false
  }

  /**
   * `evaluate`: operands left to right, reports in that order; a panic or
   * a non-returning operand ends the evaluation, after the reports printed
   * before it.  A Grouping spends one unit of fuel and evaluates itself
   * again.
   */
  function Eval(e: Expression, values: map<string, LiteralValue>, fuel: nat): (r: Evaluation)
    ensures r.OutOfFuel? ==> ContainsGrouping(e)
    decreases fuel, e
  {
    match e
    case Literal(value) => Value(value, [])
    case Variable(name) =>
      var found := GetOutcome(values, name);
      Value(found.value, found.reports)
    case Unary(operator, right) =>
      var operand := Eval(right, values, fuel);
      if !operand.Value? then operand
      else
        After(operand.reports, ApplyUnary(operator, operand.value))
    case Binary(left, operator, right) =>
      var l := Eval(left, values, fuel);
      if !l.Value? then l
      else
        var r := Eval(right, values, fuel);
        if !r.Value? then After(l.reports, r)
        else After(l.reports + r.reports, ApplyBinary(operator, l.value, r.value))
    case Grouping(inner) =>
      if fuel == 0 then OutOfFuel([]) else Eval(Grouping(inner), values, fuel - 1)
  }

  /** A Grouping never yields a value, however much fuel it is given. */
  lemma {:induction false} GroupingNeverReturns(inner: Expression, values: map<string, LiteralValue>, fuel: nat)
    ensures Eval(Grouping(inner), values, fuel) == OutOfFuel([])
  {
    if fuel > 0 {
      GroupingNeverReturns(inner, values, fuel - 1);
    }
  }

  /**
   * An expression with a Grouping anywhere in it never yields a value: it
   * runs out of fuel, or panics on an operand evaluated before the group.
   */
  lemma {:induction false} GroupingBlocksValue(e: Expression, values: map<string, LiteralValue>, fuel: nat)
    requires ContainsGrouping(e)
    ensures !Eval(e, values, fuel).Value?
  {
    match e
    case Grouping(inner) =>
      GroupingNeverReturns(inner, values, fuel);
    case Unary(_, right) =>
      GroupingBlocksValue(right, values, fuel);
    case Binary(left, _, right) =>
      if ContainsGrouping(left) {
        GroupingBlocksValue(left, values, fuel);
      } else {
        GroupingBlocksValue(right, values, fuel);
      }
  }

  /**
   * Since only a Grouping spends fuel and a Grouping never returns, the
   * outcome of an evaluation does not depend on the fuel.
   */
  lemma {:induction false} FuelIrrelevant(e: Expression, values: map<string, LiteralValue>, f1: nat, f2: nat)
    ensures Eval(e, values, f1) == Eval(e, values, f2)
    decreases e
  {
    match e
    case Literal(_) =>
    case Variable(_) =>
    case Unary(_, right) =>
      FuelIrrelevant(right, values, f1, f2);
    case Binary(left, _, right) =>
      FuelIrrelevant(left, values, f1, f2);
      FuelIrrelevant(right, values, f1, f2);
    case Grouping(inner) =>
      GroupingNeverReturns(inner, values, f1);
      GroupingNeverReturns(inner, values, f2);
  }

  /** `!=` yields the negation of `==` on the same operands, with the same reports. */
  lemma NotEqualNegatesEqual(left: Expression, ne: Token, eq: Token, right: Expression,
                             values: map<string, LiteralValue>, fuel: nat)
    requires ne.tokenType == BangEqual && eq.tokenType == EqualEqual
    ensures var a, b := Eval(Binary(left, ne, right), values, fuel), Eval(Binary(left, eq, right), values, fuel);
            (a.Value? <==> b.Value?)
            && (a.Value? ==> a.value.Boolean? && b.value.Boolean? && a.value.b == !b.value.b && a.reports == b.reports)
  {
  }

  /**
   * `a + b` on two string literals is their concatenation; on a string and
   * a number it reports the operator and yields `None`.
   */
  lemma AddLiterals(a: string, b: string, n: real, plus: Token, values: map<string, LiteralValue>, fuel: nat)
    requires plus.tokenType == Plus
    ensures Eval(Binary(Literal(Str(a)), plus, Literal(Str(b))), values, fuel) == Value(Str(a + b), [])
    ensures Eval(Binary(Literal(Str(a)), plus, Literal(Float(n))), values, fuel)
            == Value(LiteralValue.None, [RuntimeReport(plus, AdditionMessage)])
  {
  }

  /**
   * The runtime errors the left operand reported stay reported, whatever
   * happens after it; and when it does not yield a value, neither does the
   * whole expression, which ends as the operand did.
   */
  lemma LeftReportsKept(left: Expression, operator: Token, right: Expression,
                        values: map<string, LiteralValue>, fuel: nat)
    ensures var l, e := Eval(left, values, fuel), Eval(Binary(left, operator, right), values, fuel);
            l.reports <= e.reports && (!l.Value? ==> e == l)
  {
  }

  /**
   * `("a" + 1) - 1`: the addition reports its error and yields `None`, and
   * the subtraction then panics; the report stays with the panic.
   */
  lemma AdditionErrorThenPanic(a: string, n: real, m: real, plus: Token, minus: Token,
                               values: map<string, LiteralValue>, fuel: nat)
    requires plus.tokenType == Plus && minus.tokenType == Minus
    ensures Eval(Binary(Binary(Literal(Str(a)), plus, Literal(Float(n))), minus, Literal(Float(m))), values, fuel)
            == Panic([RuntimeReport(plus, AdditionMessage)])
  {
    AddLiterals(a, a, n, plus, values, fuel);
    assert Eval(Literal(Float(m)), values, fuel) == Value(Float(m), []);
    assert ApplyBinary(minus, LiteralValue.None, Float(m)) == Panic([]);
    assert [RuntimeReport(plus, AdditionMessage)] + [] == [RuntimeReport(plus, AdditionMessage)];
  }

  /** A variable with no binding reports "Undefined variable <name>" and evaluates to `None`. */
  lemma UnboundVariable(name: Token, values: map<string, LiteralValue>, fuel: nat)
    requires name.lexeme !in values
    ensures Eval(Variable(name), values, fuel)
            == Value(LiteralValue.None, [RuntimeReport(name, "Undefined variable " + name.lexeme)])
  {
  }

  /* ---------------------------------------------------------------------
   * Statements
   * --------------------------------------------------------------------- */

  /** An expression evaluator over the bindings; the interpreter's is `Evaluate(fuel)`. */
  type Evaluator = (Expression, map<string, LiteralValue>) -> Evaluation

  /** `evaluate` with the given fuel, as an evaluator. */
  function Evaluate(fuel: nat): Evaluator {
    (e, values) => Eval(e, values, fuel)
  }

  /** How a statement ends: it completed, or its evaluation panicked or never returned. */
  datatype Status = Completed | Panicked | Diverged

  /** The status an evaluation that did not yield a value stands for. */
  function Halt(r: Evaluation): Status
    requires !r.Value?
  {
    if r.Panic? then Panicked else Diverged
  }

  /** What executing one statement does: new bindings, values printed, errors reported. */
  datatype Effect = Effect(status: Status, values: map<string, LiteralValue>, printed: seq<LiteralValue>,
                           reports: seq<RuntimeReport>)

  /**
   * The statement `visit`: an expression statement evaluates; `print`
   * evaluates and prints the value; `var` with a literal initializer binds
   * the name to the literal (`None` included), and with any other
   * initializer does nothing at all.
   */
  function ExecSpec(s: Statement, values: map<string, LiteralValue>, eval: Evaluator): (r: Effect)
    ensures r.status == Completed || r.values == values
    ensures s.Var? && s.initializer.Literal? ==>
              r == Effect(Completed, values[s.name.lexeme := s.initializer.value], [], [])
    ensures s.Var? && !s.initializer.Literal? ==> r == Effect(Completed, values, [], [])
    ensures !s.Var? ==> r.values == values
    ensures !s.Var? ==> (r.status == Completed <==> eval(s.expression, values).Value?)
    ensures !s.Var? ==> r.reports == eval(s.expression, values).reports
    ensures s.Print? && r.status == Completed ==> r.printed == [eval(s.expression, values).value]
    ensures !(s.Print? && r.status == Completed) ==> r.printed == []
  {
    match s
    case Expr(expression) =>
      var v := eval(expression, values);
      if v.Value? then Effect(Completed, values, [], v.reports) else Effect(Halt(v), values, [], v.reports)
    case Print(expression) =>
      var v := eval(expression, values);
      if v.Value? then Effect(Completed, values, [v.value], v.reports) else Effect(Halt(v), values, [], v.reports)
    case Var(name, initializer) =>
      match initializer
      case Literal(value) => Effect(Completed, values[name.lexeme := value], [], [])
      case _ => Effect(Completed, values, [], [])
  }

  /**
   * `interpet`: the statements in order, each against the bindings the
   * ones before it left, up to the first that does not complete.
   */
  function RunSpec(statements: seq<Statement>, values: map<string, LiteralValue>, eval: Evaluator): (r: Effect)
    ensures |statements| == 0 ==> r == Effect(Completed, values, [], [])
    decreases |statements|
  {
    if |statements| == 0 then Effect(Completed, values, [], [])
    else
      var first := ExecSpec(statements[0], values, eval);
      if first.status != Completed then first
      else
        var rest := RunSpec(statements[1..], first.values, eval);
        Effect(rest.status, rest.values, first.printed + rest.printed, first.reports + rest.reports)
  }

  /** Running `a` then `b` is running `a + b`, as long as `a` completes. */
  lemma {:induction false} RunAppend(a: seq<Statement>, b: seq<Statement>, values: map<string, LiteralValue>, eval: Evaluator)
    ensures var ra := RunSpec(a, values, eval);
            ra.status == Completed ==>
              var rb := RunSpec(b, ra.values, eval);
              RunSpec(a + b, values, eval)
              == Effect(rb.status, rb.values, ra.printed + rb.printed, ra.reports + rb.reports)
    ensures RunSpec(a, values, eval).status != Completed ==> RunSpec(a + b, values, eval) == RunSpec(a, values, eval)
    decreases |a|
  {
    if |a| > 0 {
      assert (a + b)[0] == a[0];
      assert (a + b)[1..] == a[1..] + b;
      var first := ExecSpec(a[0], values, eval);
      if first.status == Completed {
        RunAppend(a[1..], b, first.values, eval);
        var rest := RunSpec(a[1..], first.values, eval);
        var restb := RunSpec(a[1..] + b, first.values, eval);
        assert RunSpec(a + b, values, eval)
               == Effect(restb.status, restb.values, first.printed + restb.printed, first.reports + restb.reports);
        if rest.status == Completed {
          var rb := RunSpec(b, rest.values, eval);
          ConcatAssoc(first.printed, rest.printed, rb.printed);
          ConcatAssoc(first.reports, rest.reports, rb.reports);
        } else {
          assert restb == rest;
        }
      } else {
        assert RunSpec(a + b, values, eval) == first;
      }
    } else {
      assert a + b == b;
    }
  }

  /** A run of one statement is that statement's execution. */
  lemma RunOne(s: Statement, values: map<string, LiteralValue>, eval: Evaluator)
    ensures RunSpec([s], values, eval) == ExecSpec(s, values, eval)
  {
    assert [s][1..] == [];
    var first := ExecSpec(s, values, eval);
    if first.status == Completed {
      assert RunSpec([], first.values, eval) == Effect(Completed, first.values, [], []);
      assert first.printed + [] == first.printed;
      assert first.reports + [] == first.reports;
    }
  }

  /**
   * Running `a` and then one more statement `s`: when `a` completes, `s`
   * runs against the bindings `a` left, and its output follows `a`'s.
   */
  lemma RunSnoc(a: seq<Statement>, s: Statement, values: map<string, LiteralValue>, eval: Evaluator)
    requires RunSpec(a, values, eval).status == Completed
    ensures var ra := RunSpec(a, values, eval);
            var rs := ExecSpec(s, ra.values, eval);
            RunSpec(a + [s], values, eval)
            == Effect(rs.status, rs.values, ra.printed + rs.printed, ra.reports + rs.reports)
  {
    RunAppend(a, [s], values, eval);
    RunOne(s, RunSpec(a, values, eval).values, eval);
  }

  /**
   * One more statement of a run: the prefix up to `i` completed, so the
   * prefix up to `i + 1` adds statement `i`'s effect; when that statement
   * does not complete, the whole run ends as the longer prefix does.
   */
  lemma RunStep(statements: seq<Statement>, i: nat, values: map<string, LiteralValue>, eval: Evaluator)
    requires i < |statements|
    requires RunSpec(statements[..i], values, eval).status == Completed
    ensures var ra := RunSpec(statements[..i], values, eval);
            var rs := ExecSpec(statements[i], ra.values, eval);
            RunSpec(statements[..i + 1], values, eval)
            == Effect(rs.status, rs.values, ra.printed + rs.printed, ra.reports + rs.reports)
    ensures RunSpec(statements[..i + 1], values, eval).status != Completed ==>
              RunSpec(statements, values, eval) == RunSpec(statements[..i + 1], values, eval)
  {
    assert statements[..i + 1] == statements[..i] + [statements[i]];
    RunSnoc(statements[..i], statements[i], values, eval);
    RunAppend(statements[..i + 1], statements[i + 1..], values, eval);
    assert statements[..i + 1] + statements[i + 1..] == statements;
  }

  /** The bindings after a run: only `var` statements with a literal initializer bind, in order. */
  function Bindings(statements: seq<Statement>): seq<(string, LiteralValue)> {
    if |statements| == 0 then []
    else
      var s := statements[|statements| - 1];
      Bindings(statements[..|statements| - 1])
      + if s.Var? && s.initializer.Literal? then [(s.name.lexeme, s.initializer.value)] else []
  }

  /** Replaying one more binding updates the map the earlier ones built. */
  lemma ReplaySnoc(defines: seq<(string, LiteralValue)>, d: (string, LiteralValue))
    ensures Replay(defines + [d]) == Replay(defines)[d.0 := d.1]
  {
    assert (defines + [d])[..|defines|] == defines;
  }

  /**
   * A run that completes on a new environment leaves exactly the bindings
   * its `var` statements with literal initializers define, in order.
   */
  lemma {:induction false} RunBindings(statements: seq<Statement>, eval: Evaluator)
    ensures RunSpec(statements, map[], eval).status == Completed ==>
              RunSpec(statements, map[], eval).values == Replay(Bindings(statements))
    decreases |statements|
  {
    if |statements| > 0 {
      var init := statements[..|statements| - 1];
      var last := statements[|statements| - 1];
      assert statements == init + [last];
      var ri := RunSpec(init, map[], eval);
      if ri.status == Completed {
        RunSnoc(init, last, map[], eval);
        RunBindings(init, eval);
        if last.Var? && last.initializer.Literal? {
          ReplaySnoc(Bindings(init), (last.name.lexeme, last.initializer.value));
        } else {
          assert Bindings(statements) == Bindings(init) + [];
          assert Bindings(init) + [] == Bindings(init);
        }
      } else {
        RunAppend(init, [last], map[], eval);
      }
    }
  }

  /* ---------------------------------------------------------------------
   * The interpreter object
   * --------------------------------------------------------------------- */

  /** `Interpreter`: an environment, plus the values printed and errors reported so far. */
  class Interpreter {
    const environment: Environment
    var printed: seq<LiteralValue>
    var reports: seq<RuntimeReport>

    /** `Interpreter::new`: a new, empty environment. */
    constructor ()
      ensures fresh(environment) && environment.values == map[]
      ensures printed == [] && reports == []
    {
      environment := new Environment();
      printed := [];
      reports := [];
    }

    /** `execute`: one statement, as `ExecSpec` says. */
    method Execute(s: Statement, fuel: nat) returns (status: Status)
      modifies this`printed, this`reports, environment`values
      ensures var r := ExecSpec(s, old(environment.values), Evaluate(fuel));
              && status == r.status
              && environment.values == r.values
              && printed == old(printed) + r.printed
              && reports == old(reports) + r.reports
    {
      match s
      case Expr(expression) =>
        var v := Eval(expression, environment.values, fuel);
        reports := reports + v.reports;
        if !v.Value? {
          return Halt(v);
        }
        return Completed;
      case Print(expression) =>
        var v := Eval(expression, environment.values, fuel);
        reports := reports + v.reports;
        if !v.Value? {
          return Halt(v);
        }
        printed := printed + [v.value];
        return Completed;
      case Var(name, initializer) =>
        if initializer.Literal? {
          environment.Define(name.lexeme, initializer.value);
        }
        return Completed;
    }

    /**
     * One turn of `interpet`'s loop: the statements before `i` have run and
     * completed; statement `i` runs next, and when it does not complete the
     * run ends there.
     */
    method ExecuteNext(statements: seq<Statement>, i: nat, fuel: nat, ghost start: map<string, LiteralValue>,
                       ghost printed0: seq<LiteralValue>, ghost reports0: seq<RuntimeReport>) returns (status: Status)
      requires i < |statements|
      requires RunSpec(statements[..i], start, Evaluate(fuel)).status == Completed
      requires environment.values == RunSpec(statements[..i], start, Evaluate(fuel)).values
      requires printed == printed0 + RunSpec(statements[..i], start, Evaluate(fuel)).printed
      requires reports == reports0 + RunSpec(statements[..i], start, Evaluate(fuel)).reports
      modifies this`printed, this`reports, environment`values
      ensures var r := RunSpec(statements[..i + 1], start, Evaluate(fuel));
              && status == r.status
              && environment.values == r.values
              && printed == printed0 + r.printed
              && reports == reports0 + r.reports
      ensures status != Completed ==> RunSpec(statements, start, Evaluate(fuel)) == RunSpec(statements[..i + 1], start, Evaluate(fuel))
    {
      RunStep(statements, i, start, Evaluate(fuel));
      ghost var ra := RunSpec(statements[..i], start, Evaluate(fuel));
      ghost var rs := ExecSpec(statements[i], ra.values, Evaluate(fuel));
      status := Execute(statements[i], fuel);
      ConcatAssoc(printed0, ra.printed, rs.printed);
      ConcatAssoc(reports0, ra.reports, rs.reports);
    }

    /** `interpet`: executes the statements in order until one does not complete. */
    method Interpret(statements: seq<Statement>, fuel: nat) returns (status: Status)
      modifies this`printed, this`reports, environment`values
      ensures var r := RunSpec(statements, old(environment.values), Evaluate(fuel));
              && status == r.status
              && environment.values == r.values
              && printed == old(printed) + r.printed
              && reports == old(reports) + r.reports
    {
      ghost var start, printed0, reports0 := environment.values, printed, reports;
      status := Completed;
      for i := 0 to |statements|
        invariant status == Completed == RunSpec(statements[..i], start, Evaluate(fuel)).status
        invariant environment.values == RunSpec(statements[..i], start, Evaluate(fuel)).values
        invariant printed == printed0 + RunSpec(statements[..i], start, Evaluate(fuel)).printed
        invariant reports == reports0 + RunSpec(statements[..i], start, Evaluate(fuel)).reports
      {
        status := ExecuteNext(statements, i, fuel, start, printed0, reports0);
        if status != Completed {
          return;
        }
      }
      assert statements[..|statements|] == statements;
    }
  }
}
