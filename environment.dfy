/**
 * The interpreter's environment: one flat table from variable names to
 * values, with `define` and `get`.
 */
module Environments {
  import opened Tokens
  import opened Wrappers

  /** A runtime error as reported: the token it is about and its message. */
  datatype RuntimeReport = RuntimeReport(token: Token, message: string)

  /** What `get` returns for `name` against `values`, and what it reports. */
  datatype Lookup = Lookup(value: LiteralValue, reports: seq<RuntimeReport>)

  /** The message `get` reports for a name with no binding. */
  function UndefinedMessage(name: string): string {
    "Undefined variable " + name
  }

  /**
   * `get`: the bound value and no report when the name is bound; otherwise
   * the `None` value that the runtime-error helper returns, and one report.
   */
  function GetOutcome(values: map<string, LiteralValue>, name: Token): (r: Lookup)
    ensures name.lexeme in values <==> r.reports == []
    ensures name.lexeme in values ==> r.value == values[name.lexeme]
    ensures name.lexeme !in values ==>
              r.value == LiteralValue.None && r.reports == [RuntimeReport(name, UndefinedMessage(name.lexeme))]
  {
    if name.lexeme in values then Lookup(values[name.lexeme], [])
    else Lookup(LiteralValue.None, [RuntimeReport(name, UndefinedMessage(name.lexeme))])
  }

  /** `Environment`: the bindings are a map the methods update in place. */
  class Environment {
    var values: map<string, LiteralValue>

    /** `Environment::new`: no bindings. */
    constructor ()
      ensures values == map[]
    {
      values := map[];
    }

    /** `get`: reads the bindings and changes nothing. */
    method Get(name: Token) returns (value: LiteralValue, reports: seq<RuntimeReport>)
      ensures Lookup(value, reports) == GetOutcome(values, name)
      ensures name.lexeme in values ==> value == values[name.lexeme] && reports == []
      ensures name.lexeme !in values ==>
                value == LiteralValue.None && reports == [RuntimeReport(name, UndefinedMessage(name.lexeme))]
    {
      if name.lexeme in values {
        return values[name.lexeme], [];
      }
      return LiteralValue.None, [RuntimeReport(name, UndefinedMessage(name.lexeme))];
    }

    /** `define`: binds `name` to `value`, replacing any earlier binding. */
    method Define(name: string, value: LiteralValue)
      modifies this`values
      ensures values == old(values)[name := value]
    {
      values := values[name := value];
    }
  }

  /* ---------------------------------------------------------------------
   * `define` followed by `get`
   * --------------------------------------------------------------------- */

  /**
   * After `define(n, v)`, `get` of `n` is `v` without a report, and `get`
   * of any other name answers as before.
   */
  lemma DefineThenGet(values: map<string, LiteralValue>, n: string, v: LiteralValue, name: Token)
    ensures name.lexeme == n ==> GetOutcome(values[n := v], name) == Lookup(v, [])
    ensures name.lexeme != n ==> GetOutcome(values[n := v], name) == GetOutcome(values, name)
  {
  }

  /** A second `define` of the same name overwrites the first. */
  lemma DefineOverwrites(values: map<string, LiteralValue>, n: string, v1: LiteralValue, v2: LiteralValue)
    ensures values[n := v1][n := v2] == values[n := v2]
  {
  }

  /** The bindings after a run of `define` calls on a new environment, in order. */
  function Replay(defines: seq<(string, LiteralValue)>): (values: map<string, LiteralValue>)
    ensures forall n | n in values :: exists i | 0 <= i < |defines| :: defines[i].0 == n
  {
    if |defines| == 0 then map[]
    else
      var last := defines[|defines| - 1];
      Replay(defines[..|defines| - 1])[last.0 := last.1]
  }

  /** The value of the last `define` of `n` in the run, if any. */
  function LastDefinition(defines: seq<(string, LiteralValue)>, n: string): (r: Option<LiteralValue>)
    ensures r.None? <==> forall i | 0 <= i < |defines| :: defines[i].0 != n
    ensures r.Some? ==> exists i | 0 <= i < |defines| :: defines[i] == (n, r.value)
  {
    if |defines| == 0 then Option.None
    else if defines[|defines| - 1].0 == n then Some(defines[|defines| - 1].1)
    else LastDefinition(defines[..|defines| - 1], n)
  }

  /**
   * `get` after a run of `define` calls on a new environment returns the
   * value of the last `define` of that name, and reports the name as
   * undefined when the run never defined it.
   */
  lemma {:induction false} GetAfterDefines(defines: seq<(string, LiteralValue)>, name: Token)
    ensures var last := LastDefinition(defines, name.lexeme);
            GetOutcome(Replay(defines), name)
            == if last.Some? then Lookup(last.value, [])
               else Lookup(LiteralValue.None, [RuntimeReport(name, UndefinedMessage(name.lexeme))])
  {
    if |defines| > 0 {
      GetAfterDefines(defines[..|defines| - 1], name);
    }
  }
}
