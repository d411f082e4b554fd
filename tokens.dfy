/** Lexical units: token kinds, literal values and tokens. */
module Tokens {

  /** Every lexical category the scanner can produce. */
  datatype TokenType =
    // single-character tokens
    | LeftParen | RightParen | LeftBrace | RightBrace
    | Comma | Dot | Minus | Plus | Semicolon | Slash | Star
    // one- or two-character tokens
    | Bang | BangEqual | Equal | EqualEqual
    | Greater | GreaterEqual | Less | LessEqual
    // literals
    | Identifier | String | Number
    // keywords
    | And | Class | Else | False | Fun | For | If | Nil | Or
    | Print | Return | Super | This | True | Var | While
    | Eof

  /**
   * The language's values. `Float` carries an abstract number (a `real`
   * stands in for the host's 64-bit float); `None` is the internal
   * "no value" marker, distinct from the language's `Nil`.
   */
  datatype LiteralValue =
    | Float(n: real)
    | Boolean(b: bool)
    | Str(s: string)
    | Nil
    | None

  /** A scanned token: its kind, the exact source text, its line and its literal. */
  datatype Token = Token(tokenType: TokenType, lexeme: string, line: nat, literal: LiteralValue)

  /** The keyword table the scanner consults for identifier lexemes. */
  const Keywords: map<string, TokenType> := map[
    "and" := And, "class" := Class, "else" := Else, "false" := False,
    "fun" := Fun, "for" := For, "if" := If, "nil" := TokenType.Nil,
    "or" := Or, "print" := Print, "return" := Return, "super" := Super,
    "this" := This, "true" := True, "var" := Var, "while" := While
  ]

  /** A keyword table never maps a word to the end-of-input kind. */
  ghost predicate KeywordTableOk(keywords: map<string, TokenType>) {
    forall w | w in keywords :: keywords[w] != Eof
  }
}
