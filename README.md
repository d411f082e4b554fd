# Lox front end and tree-walking interpreter, modelled in Dafny

This project models the core of a Rust implementation of the Lox language. The model has five parts:

- **Scanner** (`scanner.dfy`, `scanner_lemmas.dfy`). It turns source text into tokens. Its cursor stops at the last character, so that character is never scanned. Braces come out swapped. `_` may start an identifier but cannot continue one. `1.2.3` is a single number. The scanner reports unexpected characters and unterminated strings.
- **Parser** (`parser.dfy`, `parser_lemmas.dfy`). It is a recursive-descent parser over the token vector, with a moving cursor and the diagnostics it reports. `equality`, `comparison` and `term` run their operator loops but return only their first operand. `unary` accepts only `/` and `*` as prefix operators. `primary` has no case for identifiers. `sync` skips to the next statement keyword.
- **AST printer** (`ast_printer.dfy`). It renders a tree as parenthesised prefix text.
- **Environment** (`environment.dfy`). It is one flat table from names to values, with `define` and `get`.
- **Interpreter** (`interpreter.dfy`). It covers:
  - truthiness and equality of values;
  - arithmetic, comparison and `+`;
  - unary operators;
  - the `todo!()` panics;
  - the three statement kinds;
  - the `interpet` loop over a statement list.

Modules:

- `Wrappers`: `Option`, `Result` and sequence associativity.
- `Tokens`: token kinds, literal values, tokens and the keyword table.
- `Ast`: expressions and statements.
- `Lexer`, `LexerFacts`, `Parsing`, `ParsingFacts`, `AstPrinter`, `Environments`, `Interpreting`.

Each stateful Rust struct (`Scanner`, `Parser`, `Environment`, `Interpreter`) becomes a Dafny `class`, and its methods update the fields. Every method is proved equal to a pure function of the old state. The lemmas about those functions carry the properties.

The following are parameters of the model:

- The keyword table.
- The conversion from a number lexeme to a number (`parseNumber`).
- The rendering of a number as text (`floatText`).

The interpreter's console output and error reports are sequences the interpreter appends to (`printed`, `reports`). The scanner's error reports are a list inside its state, and the parser's diagnostics are its `reports` field.

## Model

| member | source | states |
|---|---|---|
| Lexer.Peek | src/scanner/scanner.rs:189-195 | a non-NUL answer lies before the last character and is the character under the cursor |
| Lexer.PeekNext | src/scanner/scanner.rs:196-202 | past the source the answer is NUL; a non-NUL answer is the character after the cursor, which lies inside the source |
| Lexer.AtEnd | src/scanner/scanner.rs:42-44 | a cursor on the last character already counts as the end, so that character is never scanned (see `LastCharacterNotScanned`) |
| Lexer.DigitsEnd | src/scanner/scanner.rs:130-132 | the digit loop ends inside the source, passes only digits, and stops on a non-digit |
| Lexer.FractionEnd | src/scanner/scanner.rs:134-139 | the `.`-digits loop passes only digits and dots and stops where no `.` followed by a digit remains |
| Lexer.IdentifierEnd | src/scanner/scanner.rs:107-109 | the identifier loop passes only ASCII letters and digits and stops on anything else |
| Lexer.SkipUntil | src/scanner/scanner.rs:119-155 | the comment loop (stop = line feed) and the string loop (stop = quote) pass no stop character and end on one, or at the end |
| Lexer.Appended | src/scanner/scanner.rs:56-60 | adding a token appends exactly one token, with the given kind and literal, the source from `start` to the cursor as lexeme, and the current line; nothing else in the state changes |
| Lexer.OneOrTwo | src/scanner/scanner.rs:165-188 | an operator step keeps the earlier tokens and appends at most one token, with the lexeme it consumed |
| Lexer.SlashStep | src/scanner/scanner.rs:119-127 | the slash step keeps the earlier tokens; any token it adds has the consumed text as its lexeme |
| Lexer.StringStep | src/scanner/scanner.rs:149-163 | the string step moves forward, never lowers the line, and adds at most one token |
| Lexer.NumberStep | src/scanner/scanner.rs:129-147 | the number step moves forward within the source and adds at most one token, lexeme = consumed text |
| Lexer.IdentifierStep | src/scanner/scanner.rs:106-117 | the identifier step moves forward within the source and adds at most one token, lexeme = consumed text |
| Lexer.Step | src/scanner/scanner.rs:74-100 | every `scan_token` call consumes at least one character and changes the state only as `Scanned` allows |
| Lexer.ScanFrom | src/scanner/scanner.rs:28-32 | the main loop ends exactly at the last character (or had already ended) |
| Lexer.Scan | src/scanner/scanner.rs:28-40 | `scan_tokens` returns the main loop's tokens followed by one `Eof` (empty lexeme, `Nil` literal, final line), and the loop stops on the last character (see `ScanEndsWithEof`) |
| Lexer.Scanner.constructor | src/scanner/scanner.rs:14-26 | a new scanner is at line 1, cursor 0, with no tokens and no errors |
| Lexer.Scanner.ScanTokens | src/scanner/scanner.rs:28-40 | the tokens are those of the main loop from the current state, followed by one `Eof` at the final line |
| Lexer.Scanner.Advance | src/scanner/scanner.rs:46-54 | returns the character under the cursor and moves the cursor unless at the end |
| Lexer.Scanner.AddToken | src/scanner/scanner.rs:56-60 | the new state is `Appended` of the old |
| Lexer.Scanner.MatchToken | src/scanner/scanner.rs:62-72 | answers whether the cursor shows the expected character (not at the end), and consumes it exactly then |
| Lexer.Scanner.ScanToken | src/scanner/scanner.rs:74-100 | the new state is `Step` of the old |
| Lexer.Scanner.Identifier | src/scanner/scanner.rs:106-117 | the new state is `IdentifierStep` of the old |
| Lexer.Scanner.ScanSlashToken | src/scanner/scanner.rs:119-127 | the new state is `SlashStep` of the old |
| Lexer.Scanner.Number | src/scanner/scanner.rs:129-147 | the new state is `NumberStep` of the old |
| Lexer.Scanner.StringLiteral | src/scanner/scanner.rs:149-163 | the new state is `StringStep` of the old |
| Lexer.Scanner.StringBody | src/scanner/scanner.rs:150-155 | the loop stops at `SkipUntil` of a quote, and the line grows by the number of line feeds it passed |
| Lexer.Scanner.ScanEqualEqualToken | src/scanner/scanner.rs:165-170 | `=` followed by `=` gives `EqualEqual`, otherwise `Equal` (via `OneOrTwo`) |
| Lexer.Scanner.ScanLessEqualToken | src/scanner/scanner.rs:171-176 | `<` followed by `=` gives `LessEqual`, otherwise `Less` |
| Lexer.Scanner.ScanBangEqualToken | src/scanner/scanner.rs:177-182 | `!` followed by `=` gives `BangEqual`, otherwise `Bang` |
| Lexer.Scanner.ScanGreaterEqualToken | src/scanner/scanner.rs:183-188 | `>` followed by `=` gives `GreaterEqual`, otherwise `Greater` |
| LexerFacts.StepCountsLines | src/scanner/scanner.rs:74-100 | after one step, the line is the old line plus the line feeds consumed by that step |
| LexerFacts.StepEmitsNoEof | src/scanner/scanner.rs:74-117 | no step ever emits an `Eof` token, given a keyword table without `Eof` |
| LexerFacts.OperatorLookahead | src/scanner/scanner.rs:165-188 | with `=` next, the two-character kind is emitted and two characters consumed; otherwise the one-character kind and one character |
| LexerFacts.CommentSkipped | src/scanner/scanner.rs:119-127 | `//` emits nothing and stops at the next line feed or at the end |
| LexerFacts.StringLiteralScanned | src/scanner/scanner.rs:149-163 | a terminated string's lexeme runs quote to quote and its literal is the text between; an unterminated one only reports an error at the line reached |
| LexerFacts.NumberLexeme | src/scanner/scanner.rs:129-147 | a number lexeme starts with a digit and holds only digits and dots |
| LexerFacts.SkippedCharacter | src/scanner/scanner.rs:93-98 | blanks and unexpected characters emit no token and move one character on; an unexpected one is reported |
| LexerFacts.BracesSwapped | src/scanner/scanner.rs:80-81 | `{` is scanned as `RightBrace` and `}` as `LeftBrace` |
| LexerFacts.IdentifierKind | src/scanner/scanner.rs:106-117 | an identifier token's kind is the keyword table's entry for its lexeme, or `Identifier` when the lexeme is no keyword; its literal is `None` |
| LexerFacts.UnderscoreStartsButEndsIdentifier | src/scanner/scanner.rs:97-109 | an identifier may start with `_` but ends at the first later `_` |
| LexerFacts.ScanFromKeepsInvariants | src/scanner/scanner.rs:28-32 | the main loop keeps "line = 1 + line feeds consumed" and "no `Eof` token yet" |
| LexerFacts.ScanEndsWithEof | src/scanner/scanner.rs:28-44 | the result ends with exactly one `Eof` (empty lexeme, `Nil` literal, final line); the loop stopped at the last character; the final line is 1 + the line feeds before it |
| LexerFacts.DottedNumberIsOneLexeme | src/scanner/scanner.rs:134-139 | `1.2.3` scans as one number token |
| LexerFacts.LastCharacterNotScanned | src/scanner/scanner.rs:42-44 | `ab` scans as the identifier `a` followed by `Eof` |
| Parsing.ReportsOf | src/parser/parser.rs:283-291 | a rule that succeeds reports nothing; one that fails reports once, about the token where it stopped |
| Parsing.AdvanceFrom | src/parser/parser.rs:261-266 | `advance` moves one token on, except at `Eof` |
| Parsing.CheckAt | src/parser/parser.rs:254-259 | a true answer means the token under the cursor has that kind; `check(Eof)` is always false |
| Parsing.AtEof | src/parser/parser.rs:268-273 | the parser is at its end iff the token under the cursor is `Eof` |
| Parsing.SyncFrom | src/parser/parser.rs:44-65 | `sync`'s loop stops at `Eof` or a statement keyword and skips only tokens that are neither |
| Parsing.ExpressionAt | src/parser/parser.rs:67-69 | the cursor never moves back or past the tokens, and success consumes at least one token |
| Parsing.EqualityAt | src/parser/parser.rs:71-94 | same bounds as `ExpressionAt` (that the first operand is returned is `ExpressionIsFactor`) |
| Parsing.EqualityLoop | src/parser/parser.rs:75-89 | the loop never moves back or past the tokens; a failure inside it has consumed an operator |
| Parsing.ComparisonAt | src/parser/parser.rs:96-124 | same bounds as `ExpressionAt` |
| Parsing.ComparisonLoop | src/parser/parser.rs:100-119 | same bounds as `EqualityLoop` |
| Parsing.TermAt | src/parser/parser.rs:126-149 | same bounds as `ExpressionAt` |
| Parsing.TermLoop | src/parser/parser.rs:130-144 | same bounds as `EqualityLoop` |
| Parsing.FactorAt | src/parser/parser.rs:151-174 | same bounds as `ExpressionAt` |
| Parsing.FactorLoop | src/parser/parser.rs:155-169 | same bounds as `EqualityLoop` |
| Parsing.UnaryAt | src/parser/parser.rs:176-191 | same bounds as `ExpressionAt` |
| Parsing.TokenLiteral | src/parser/parser.rs:209-217 | a number or string token gives its own literal; any other gives `None` |
| Parsing.PrimaryAt | src/parser/parser.rs:193-236 | same bounds; exactly one token is consumed iff it is `false`, `true`, `nil`, a number or a string, and the result is then that literal |
| Parsing.ParseTokens | src/parser/parser.rs:37-42 | `parse` is `None` exactly when `expression` fails from the start, and otherwise its tree |
| Parsing.Parser.constructor | src/parser/parser.rs:33-35 | the cursor starts at 0 with no diagnostics |
| Parsing.Parser.Parse | src/parser/parser.rs:37-42 | result, cursor and diagnostics are those of `ExpressionAt` |
| Parsing.Parser.Sync | src/parser/parser.rs:44-65 | the cursor ends at `SyncFrom` of one `advance` |
| Parsing.Parser.Expression | src/parser/parser.rs:67-69 | result and cursor are `ExpressionAt`; one diagnostic exactly on failure |
| Parsing.Parser.Equality | src/parser/parser.rs:71-94 | result and cursor are `EqualityAt`; diagnostics as `ReportsOf` |
| Parsing.Parser.EqualityOperators | src/parser/parser.rs:75-89 | result and cursor are `EqualityLoop` |
| Parsing.Parser.Comparison | src/parser/parser.rs:96-124 | result and cursor are `ComparisonAt` |
| Parsing.Parser.ComparisonOperators | src/parser/parser.rs:100-119 | result and cursor are `ComparisonLoop` |
| Parsing.Parser.Term | src/parser/parser.rs:126-149 | result and cursor are `TermAt` |
| Parsing.Parser.TermOperators | src/parser/parser.rs:130-144 | result and cursor are `TermLoop` |
| Parsing.Parser.Factor | src/parser/parser.rs:151-174 | result and cursor are `FactorAt` |
| Parsing.Parser.FactorOperators | src/parser/parser.rs:155-169 | result and cursor are `FactorLoop` |
| Parsing.Parser.Unary | src/parser/parser.rs:176-191 | result and cursor are `UnaryAt` |
| Parsing.Parser.Primary | src/parser/parser.rs:193-236 | result and cursor are `PrimaryAt` |
| Parsing.Parser.Parenthesized | src/parser/parser.rs:218-233 | after an opening parenthesis, result and cursor are `PrimaryAt` from that parenthesis |
| Parsing.Parser.MatchTokenType | src/parser/parser.rs:244-252 | answers whether a listed kind is under the cursor (never `Eof`) and consumes it exactly then |
| Parsing.Parser.Advance | src/parser/parser.rs:261-266 | moves as `AdvanceFrom` and returns the token before the new cursor |
| Parsing.Parser.Peek | src/parser/parser.rs:275-277 | the token under the cursor |
| Parsing.Parser.Previous | src/parser/parser.rs:279-281 | the token before the cursor; it requires a cursor above 0, where Rust's index would underflow |
| Parsing.Parser.Consume | src/parser/parser.rs:283-291 | succeeds iff the expected kind is under the cursor, returning that token and moving on; otherwise reports the message on the current token and stays |
| ParsingFacts.ExpressionSound | src/parser/parser.rs:67-69 | `expression` consumes no `Eof` and returns only `/`/`*` trees |
| ParsingFacts.EqualitySound | src/parser/parser.rs:71-94 | `equality` consumes no `Eof` and returns only `/`/`*` trees |
| ParsingFacts.EqualityLoopSound | src/parser/parser.rs:75-89 | `equality`'s loop consumes no `Eof` |
| ParsingFacts.ComparisonSound | src/parser/parser.rs:96-124 | `comparison` consumes no `Eof` and returns only `/`/`*` trees |
| ParsingFacts.ComparisonLoopSound | src/parser/parser.rs:100-119 | `comparison`'s loop consumes no `Eof` |
| ParsingFacts.TermSound | src/parser/parser.rs:126-149 | `term` consumes no `Eof` and returns only `/`/`*` trees |
| ParsingFacts.TermLoopSound | src/parser/parser.rs:130-144 | `term`'s loop consumes no `Eof` |
| ParsingFacts.FactorSound | src/parser/parser.rs:151-174 | `factor` consumes no `Eof` and returns only `/`/`*` trees |
| ParsingFacts.FactorLoopSound | src/parser/parser.rs:155-169 | `factor`'s loop consumes no `Eof` and keeps a `/`/`*` tree one |
| ParsingFacts.UnarySound | src/parser/parser.rs:176-191 | `unary` consumes no `Eof` and returns only `/`/`*` trees |
| ParsingFacts.PrimarySound | src/parser/parser.rs:193-236 | `primary` consumes no `Eof` and returns only `/`/`*` trees, never a variable |
| ParsingFacts.ParseSound | src/parser/parser.rs:37-42 | a parsed tree has only `/` and `*` operators, and parsing stops at or before the first `Eof` |
| ParsingFacts.FactorTreePrintable | src/parser/ast_printer.rs:7-28 | every tree of that shape is one the printer can print |
| ParsingFacts.ParsedIsPrintable | src/parser/parser.rs:37-42 | every tree `parse` returns can be printed |
| ParsingFacts.ExpressionIsFactor | src/parser/parser.rs:71-149 | a successful `expression` returns the tree `factor` built at the same position, having consumed at least as much |
| ParsingFacts.TermOnePlusTwo | src/parser/parser.rs:126-149 | `1 + 2` consumes all three tokens but parses to `1` |
| ParsingFacts.UnaryNotBinary | src/parser/parser.rs:176-191 | `unary` never returns a Binary node |
| ParsingFacts.FactorLoopLeftDeep | src/parser/parser.rs:155-169 | `factor`'s loop extends its chain on the left spine only |
| ParsingFacts.FactorGroupsLeft | src/parser/parser.rs:151-174 | `1 * 2 / 3` parses to `(1 * 2) / 3` |
| ParsingFacts.ExpectedExpressionAt | src/parser/parser.rs:234-235 | `expression` fails without consuming anything iff the first token cannot start an expression, and that failure is `expected expression`, reported once on that token |
| ParsingFacts.LeadingMinusOrBang | src/parser/parser.rs:176-191 | a leading `-` or `!` fails with `expected expression` at 0, and `parse` is `None` |
| ParsingFacts.SlashIsPrefix | src/parser/parser.rs:176-191 | `/ 1` parses to a Unary node |
| ParsingFacts.LoneOperand | src/parser/parser.rs:71-174 | an operand followed by a non-operator token is the whole expression |
| ParsingFacts.MissingRightParen | src/parser/parser.rs:218-233 | `( 1` fails with the missing-`)` error at `Eof`, reported on `Eof`, and `parse` is `None` |
| ParsingFacts.ClosedGroup | src/parser/parser.rs:218-233 | `( 1 )` parses to a Grouping of `1`, consuming three tokens |
| ParsingFacts.ClosedGroupOperand | src/parser/parser.rs:176-233 | `unary` on `( 1 )` returns the Grouping and consumes three tokens |
| ParsingFacts.SyncProgress | src/parser/parser.rs:44-65 | `sync` ends at `Eof` or on a statement keyword, skips only other tokens, and moves unless it starts at `Eof` |
| AstPrinter.LiteralText | src/parser/ast_printer.rs:12-18 | a string prints without quotes; booleans as `true`/`false`; `nil`; nothing for `None`; a number as the host renders it |
| AstPrinter.Parenthesize | src/parser/ast_printer.rs:39-49 | the text opens with `(`, closes with `)`, and is the name plus the spaced operands in between |
| AstPrinter.Print | src/parser/ast_printer.rs:7-37 | a literal prints as its text; every other node is parenthesised |
| AstPrinter.PrintBinary | src/parser/ast_printer.rs:19-23 | a Binary node prints as `(op left right)` |
| AstPrinter.PrintUnary | src/parser/ast_printer.rs:9-11 | a Unary node prints as `(op right)` |
| AstPrinter.PrintGrouping | src/parser/ast_printer.rs:24-26 | a Grouping prints as `(group inner)` |
| AstPrinter.PrintBalanced | src/parser/ast_printer.rs:7-49 | with parenthesis-free leaves, the printed text is balanced and opens one parenthesis per compound node |
| Environments.GetOutcome | src/interpreter/environment.rs:16-21 | a bound name gives its value and no report; an unbound one gives `None` and one "Undefined variable" report on the name |
| Environments.Environment.constructor | src/interpreter/environment.rs:10-14 | a new environment has no bindings |
| Environments.Environment.Get | src/interpreter/environment.rs:16-21 | answers as `GetOutcome` and leaves the bindings alone |
| Environments.Environment.Define | src/interpreter/environment.rs:23-25 | binds the name to the value, replacing any earlier binding, and changes nothing else |
| Environments.DefineThenGet | src/interpreter/environment.rs:16-25 | after `define(n, v)`, `get(n)` is `v` without a report; other names answer as before |
| Environments.DefineOverwrites | src/interpreter/environment.rs:23-25 | a second `define` of a name overwrites the first |
| Environments.Replay | src/interpreter/environment.rs:23-25 | after a run of `define`s, every bound name was defined by one of them |
| Environments.GetAfterDefines | src/interpreter/environment.rs:10-25 | after a run of `define`s on a new environment, `get` returns the last value defined for the name, or reports it undefined |
| Interpreting.IsTruthy | src/interpreter/interpreter.rs:188-194 | a value is falsy iff it is `false` or `None` (`nil` is truthy) |
| Interpreting.IsEqual | src/interpreter/interpreter.rs:196-204 | two values are equal iff they are the same variant with the same payload |
| Interpreting.NoCrossTypeEquality | src/interpreter/interpreter.rs:196-204 | values of different variants are never equal |
| Interpreting.Arithmetic | src/interpreter/interpreter.rs:166-176 | on two numbers, `-` and `*` give the difference and product, and `/` by a non-zero number gives the quotient |
| Interpreting.Quotient | src/interpreter/interpreter.rs:96-100 | for a non-zero divisor, the quotient times the divisor gives back the dividend |
| Interpreting.Comparison | src/interpreter/interpreter.rs:177-187 | on two numbers, each comparison gives the boolean of that order relation |
| Interpreting.Add | src/interpreter/interpreter.rs:101-112 | `+` concatenates two strings and adds two numbers; otherwise it reports on the operator and gives `None` |
| Interpreting.ApplyUnary | src/interpreter/interpreter.rs:49-75 | `!` negates truthiness; `-` negates a number and otherwise reports and gives `None`; any other operator gives `nil` |
| Interpreting.ApplyBinary | src/interpreter/interpreter.rs:77-135 | on two numbers, `-`, `*`, `/` give `Arithmetic` and `<`, `<=`, `>`, `>=` give `Comparison`; `+` is `Add`; `==`/`!=` compare with `is_equal`; it panics, with no report of its own, iff arithmetic or comparison gets a non-number, or the operator is unknown |
| Interpreting.Eval | src/interpreter/interpreter.rs:47-141 | an evaluation runs out of fuel only when the expression contains a Grouping; its other facts are the lemmas below (`GroupingNeverReturns`, `FuelIrrelevant`, `LeftReportsKept`, `NotEqualNegatesEqual`) |
| Interpreting.GroupingNeverReturns | src/interpreter/interpreter.rs:136-138 | evaluating a Grouping never yields a value |
| Interpreting.GroupingBlocksValue | src/interpreter/interpreter.rs:47-141 | no expression that contains a Grouping yields a value |
| Interpreting.FuelIrrelevant | src/interpreter/interpreter.rs:47-141 | the outcome of an evaluation does not depend on the fuel bound |
| Interpreting.NotEqualNegatesEqual | src/interpreter/interpreter.rs:127-132 | `!=` gives the negation of `==` on the same operands, with the same reports |
| Interpreting.AddLiterals | src/interpreter/interpreter.rs:101-112 | string + string concatenates; string + number reports and gives `None` |
| Interpreting.LeftReportsKept | src/interpreter/interpreter.rs:77-83 | the left operand's runtime errors stay reported whatever follows, and a left operand that does not yield a value ends the whole expression |
| Interpreting.AdditionErrorThenPanic | src/interpreter/interpreter.rs:86-112 | `("a" + 1) - 1` panics after reporting the addition error, and the report is kept |
| Interpreting.UnboundVariable | src/interpreter/interpreter.rs:139 | an unbound variable reports "Undefined variable" and gives `None` |
| Interpreting.ExecSpec | src/interpreter/interpreter.rs:19-44 | only a `var` with a literal initializer changes the bindings, to that literal, and a `var` with any other initializer does nothing; an expression or `print` statement completes iff its evaluation yields a value, keeps every runtime error the evaluation reported (also when it halts), and only a completed `print` prints, exactly its value |
| Interpreting.RunSpec | src/interpreter/interpreter.rs:151-155 | running no statements completes and changes nothing |
| Interpreting.RunAppend | src/interpreter/interpreter.rs:151-155 | running `a` then `b` is running `a + b` when `a` completes, and is `a`'s run when it does not |
| Interpreting.RunBindings | src/interpreter/interpreter.rs:151-155 | a completed run on a new environment leaves exactly the bindings of its literal `var` statements, in order |
| Interpreting.Interpreter.constructor | src/interpreter/interpreter.rs:145-149 | a new interpreter has a new, empty environment and has printed and reported nothing |
| Interpreting.Interpreter.Execute | src/interpreter/interpreter.rs:157-159 | bindings, output and reports change exactly as `ExecSpec` says, so reports printed before a panic are kept |
| Interpreting.Interpreter.ExecuteNext | src/interpreter/interpreter.rs:152-154 | one loop turn extends the state from the run of statements `..i` to the run of `..i+1` |
| Interpreting.Interpreter.Interpret | src/interpreter/interpreter.rs:151-155 | bindings, output, reports and status are those of `RunSpec` over the statements, including the reports of the statement that halts |

## Left out

- Numbers are unbounded reals, not IEEE `f64`. There are no infinities, NaN or rounding.
- Interpreting.Quotient: gives 0 for division by zero, where Rust gives an infinity or NaN. Its contract only covers a non-zero divisor.
- Interpreting.Arithmetic: for `/`, the contract covers only a non-zero divisor.
- Number parsing is the parameter `parseNumber`. This includes the fallback value for a lexeme Rust cannot parse, because real-number parsing is not modelled.
- Number rendering is the parameter `floatText`, standing for Rust's float formatting.
- The keyword table is a parameter, because `utils::reserved_words` is not part of this model. Scanner lemmas require only that the table maps no word to `Eof`. The examples use the usual Lox keyword table (`Tokens.Keywords`).
- Source text is a sequence of characters; byte offsets and UTF-8 are not modelled. The Rust code collects `chars()` on every call, which gives the same result.
- Console output is modelled as the sequences that collect it:
  - the interpreter's `printed` list;
  - the interpreter's, environment's and parser's `reports`;
  - the scanner's error list.
  `Display` formatting is not modelled, and neither is the `println!` debug line in the unary case.
- Printed values and runtime reports are two separate lists. In Rust both go to standard output through `println!`, one after another; the model does not keep how the two are interleaved.
- Lexer.Scan: requires a non-empty source. On an empty source, `is_at_end` computes `len() - 1` and underflows a `usize`, which panics.
- Parsing.Parser.Sync: requires that the cursor is not 0 while it is on `Eof`. There, `previous()` underflows its index and panics.
- `todo!()` panics in the interpreter are the outcome `Panic`, which carries the runtime errors reported before it. They are not a Rust abort.
- A Grouping evaluates an identical Grouping again and never returns. `Eval` takes a fuel bound that only a Grouping spends; `FuelIrrelevant` proves the bound changes no outcome.
- `LiteralValue` has no `PartialEq` in the Rust code. Equality is modelled structurally, as `is_equal`'s match states it.
- The printer's `match` has no `Variable` case, so `Print` requires `Printable`. `ParsedIsPrintable` shows that every parsed tree meets it.
- `main.rs`, the REPL and file runner, the visitor traits and the `Box` plumbing are not modelled: they are driver code and dispatch.
- `parse` returns one expression, as the Rust code does; no statement parser exists in it. The interpreter's statements come from elsewhere and are taken as input.
