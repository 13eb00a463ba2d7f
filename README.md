# RPN calculator — a verified model

This project models the core of a small Reverse Polish Notation calculator
written in Rust. The model has two pieces.

- **The operand-stack machine** (`rust-1/src/rpn.rs`), in module `Rpn`.
  A `Stack` holds a list of `Item`s: 32-bit integers or booleans.
  `Push`, `Pop` and `IsEmpty` are its primitives. `Eval` applies one of the
  seven operators `Add`, `Eq`, `Neg`, `Swap`, `Rand`, `Cond` and `Quit`.
  Each operator pops its operands one by one and returns at the first
  error. Operands already popped stay popped.
  `Apply` specifies each operator as a function of the stack before it.
  `Stack.Eval` and one method per operator arm follow the source's pops and
  pushes, and each is proved to agree with `Apply`.
- **The line evaluator** (`rust-1/src/parser.rs`), in module `Parser`.
  A line is trimmed and split on whitespace. `Classify` reads each token as
  an `i32` literal first, then as a `bool` literal, then as an operator
  symbol, and otherwise rejects it as a syntax error.
  `RunTokens` specifies the line as a left-to-right fold over the tokens
  that stops at the first error. `EvaluateLine` is the source's `for` loop
  and is proved to compute that fold.
  The check `rpn_repl` runs after each line is `Finish` / `FinishLine`:
  pop once, and succeed only if the stack is then empty.

Module `Text` models the parts of Rust's standard library that the
evaluator relies on, over `string = seq<char>`:

- `char::is_whitespace`;
- `str::trim` and `str::split_whitespace`;
- `i32` and `bool` parsing;
- decimal printing.

`RpnProperties`, `TextProperties` and `ParserProperties` hold the lemmas.

Modelling decisions:

- **Random numbers.** `rand::thread_rng().gen_range(0, a)` becomes an
  oracle argument `draw`, and the result is `draw % a`. Every value in
  `[0, a)` can be produced (`RpnProperties.RandReachable`). A line takes
  one draw per token; only a `#` token reads its draw.
- **Panics.** `gen_range` panics when `a <= 0`. The model reports this as
  the status `Panic`, which is distinct from every `Error` value.
- **Overflow.** `i32` addition is modelled with two's-complement
  wrap-around (`WrapAdd`). This is the release-build behaviour; a debug
  build panics instead. Within the `i32` range the result is the exact sum.

Two behaviours of the code worth knowing:

- **Leading `+`.** Rust's `i32` parser accepts a leading `+`, so `+5` is
  the literal 5 (`TextProperties.ParsePlus`).
- **Errors end the session.** The `?` at rust-1/src/parser.rs:27 and :30
  returns from `rpn_repl` on any error, so an error ends the session. The
  model describes one line and the check after it, and returns the error as
  the code does.

## Model

| member | source | states |
|---|---|---|
| `Rpn.WrapAdd` | rust-1/src/rpn.rs:92 | the `i32` sum is the exact sum when in range and is congruent to it modulo 2^32 otherwise |
| `Rpn.Stack.constructor` | rust-1/src/rpn.rs:51-53 | a new stack holds no items |
| `Rpn.Stack.IsEmpty` | rust-1/src/rpn.rs:56-58 | `empty` is true exactly when the stack holds no items |
| `Rpn.Stack.Push` | rust-1/src/rpn.rs:61-64 | push always succeeds and appends the item on top, everything below unchanged |
| `Rpn.Stack.Pop` | rust-1/src/rpn.rs:67-73 | on an empty stack it returns `Empty` and changes nothing; otherwise it returns the top item and removes exactly that item |
| `Rpn.PushThenPop` | rust-1/src/rpn.rs:61-73 | a pop right after a push returns the pushed item and restores the stack as it was before the push |
| `Rpn.Apply` | rust-1/src/rpn.rs:82-168 | the meaning of each operator as a function of the stack before it and the generator's answer; its rules are stated by `ApplyFrame` and the per-operator lemmas below |
| `Rpn.Stack.Eval` | rust-1/src/rpn.rs:82-168 | the result status and the new stack are exactly those `Apply` gives for the operator on the old stack |
| `Rpn.Stack.EvalAdd` | rust-1/src/rpn.rs:87-97 | the `Add` arm, with its two pops and early returns, computes `Apply(Add, ..)` |
| `Rpn.Stack.EvalEq` | rust-1/src/rpn.rs:98-112 | the `Eq` arm computes `Apply(Eq, ..)` |
| `Rpn.Stack.EvalNeg` | rust-1/src/rpn.rs:113-123 | the `Neg` arm computes `Apply(Neg, ..)` |
| `Rpn.Stack.EvalSwap` | rust-1/src/rpn.rs:124-131 | the `Swap` arm computes `Apply(Swap, ..)` |
| `Rpn.Stack.EvalRand` | rust-1/src/rpn.rs:132-147 | the `Rand` arm, given the generator's answer `draw`, computes `Apply(Rand, .., draw)` |
| `Rpn.Stack.EvalCond` | rust-1/src/rpn.rs:148-163 | the `Cond` arm, popping `a`, `b`, `c` in that order, computes `Apply(Cond, ..)` |
| `RpnProperties.ApplyFrame` | rust-1/src/rpn.rs:82-168 | every operator consumes its operands before it can fail: too few operands gives `Empty` and an emptied stack; otherwise the part below the operands is kept, a failure leaves exactly that part, and a success adds the operator's result count on top |
| `RpnProperties.AddInts` | rust-1/src/rpn.rs:87-94 | `[.., Int b, Int a]` becomes `[.., Int(a+b)]` (wrapped), and exactly `a+b` when the sum is in range |
| `RpnProperties.AddTypeError` | rust-1/src/rpn.rs:95 | `Add` with a boolean operand is `Type` with both operands consumed |
| `RpnProperties.EqSemantics` | rust-1/src/rpn.rs:98-111 | two integers or two booleans push `Bool(a == b)`; mixed variants give `Type` with both consumed |
| `RpnProperties.EqReflexive` | rust-1/src/rpn.rs:98-111 | `x x =` always pushes `Bool(true)` |
| `RpnProperties.NegInvolutive` | rust-1/src/rpn.rs:113-123 | `~` on `Bool v` gives `Bool(!v)`, and applying it twice restores the stack |
| `RpnProperties.NegTypeError` | rust-1/src/rpn.rs:117-121 | `~` on an integer is `Type` with the integer consumed |
| `RpnProperties.SwapExchanges` | rust-1/src/rpn.rs:124-131 | `[.., b, a]` becomes `[.., a, b]` with deeper items untouched |
| `RpnProperties.SwapInvolutive` | rust-1/src/rpn.rs:124-131 | swapping twice restores any stack of at least two items |
| `RpnProperties.SwapSingle` | rust-1/src/rpn.rs:125-126 | with a single item, `Swap` reports `Empty` and that item is gone |
| `RpnProperties.RandRange` | rust-1/src/rpn.rs:137-143 | on `Int a` with `a > 0` the top is replaced by an integer in `[0, a)`, the length unchanged and the rest kept |
| `RpnProperties.RandReachable` | rust-1/src/rpn.rs:141-142 | every value in `[0, a)` is a possible result of `#` |
| `RpnProperties.RandRejects` | rust-1/src/rpn.rs:138-146 | `#` on a boolean is `Type` with the operand consumed; on a bound of zero or less the generator panics |
| `RpnProperties.CondSemantics` | rust-1/src/rpn.rs:148-163 | on `[.., c, b, a]`, `c` true gives `[.., b]`, `c` false gives `[.., a]`, and an integer `c` gives `Type` with all three consumed |
| `RpnProperties.QuitAlways` | rust-1/src/rpn.rs:164-166 | `Quit` always reports `Quit` and leaves the stack unchanged |
| `RpnProperties.ResultVariant` | rust-1/src/rpn.rs:87-163 | a successful `Add` or `Rand` pushes an integer, `Eq` or `Neg` a boolean, and `Cond` one of its two value operands unchanged |
| `Text.IsWhitespace` | rust-1/src/parser.rs:41 | the Unicode `White_Space` characters that `trim` and `split_whitespace` separate on; the `Trim*`/`Split*` lemmas are stated over it |
| `Text.Trim` | rust-1/src/parser.rs:41 | `str::trim`, that is `trim_end` after `trim_start`; `SplitTrim` shows it changes no token |
| `Text.TrimStart` | rust-1/src/parser.rs:41 | `trim_start` drops a whitespace-only prefix and leaves a suffix that does not start with whitespace |
| `Text.TrimEnd` | rust-1/src/parser.rs:41 | `trim_end` drops a whitespace-only suffix and leaves a prefix that does not end with whitespace |
| `Text.WordEnd` | rust-1/src/parser.rs:41 | the first word runs up to, and not including, the first whitespace character |
| `Text.SplitWhitespace` | rust-1/src/parser.rs:41 | every word `split_whitespace` yields is non-empty and contains no whitespace |
| `Text.ParseI32` | rust-1/src/parser.rs:54 | an accepted token is an optional `+` or `-` followed by at least one decimal digit |
| `Text.ParseBool` | rust-1/src/parser.rs:56 | exactly `true` parses as true and exactly `false` as false; every other token fails |
| `Text.NatDigits` | rust-1/src/parser.rs:54 | the decimal spelling of a number is never empty and starts with `0` only for zero (it only spells test tokens for the parser) |
| `TextProperties.DigitsRoundTrip` | rust-1/src/parser.rs:54 | the decimal spelling of `m` consists of digits that read back as `m` |
| `TextProperties.ParseUnsigned` | rust-1/src/parser.rs:54 | a digit string whose value is at most `i32::MAX` parses to that value |
| `TextProperties.ParseMinus` | rust-1/src/parser.rs:54 | `-` and a digit string parse to minus its value, down to `i32::MIN` |
| `TextProperties.ParsePlus` | rust-1/src/parser.rs:54 | `+` and a digit string parse to its value |
| `TextProperties.ParseRoundTrip` | rust-1/src/parser.rs:54 | every `i32`, printed in decimal, parses back to itself |
| `TextProperties.ParseLoneSign` | rust-1/src/parser.rs:54 | a lone `+` or `-` is not an integer |
| `TextProperties.ParseOutOfRange` | rust-1/src/parser.rs:54 | any digit string, leading zeros allowed, whose value is above `i32::MAX` is rejected bare or after `+`, and above `-i32::MIN` after `-`; nothing wraps |
| `TextProperties.WordEndStops` | rust-1/src/parser.rs:41 | the first word of `a + [c] + b` with `c` whitespace is the first word of `a` |
| `TextProperties.SplitJoin` | rust-1/src/parser.rs:41 | splitting at a whitespace character splits the word list there |
| `TextProperties.OneWord` | rust-1/src/parser.rs:41 | a non-empty whitespace-free string splits into itself |
| `TextProperties.SplitUnwords` | rust-1/src/parser.rs:41 | words joined by single spaces split back into exactly those words |
| `TextProperties.SplitTrimStart` | rust-1/src/parser.rs:41 | leading whitespace does not change the words |
| `TextProperties.SplitTrimEnd` | rust-1/src/parser.rs:41 | trailing whitespace does not change the words |
| `TextProperties.SplitTrim` | rust-1/src/parser.rs:41 | the `trim` before `split_whitespace` changes no token |
| `TextProperties.SplitBlank` | rust-1/src/parser.rs:41 | a line has no words exactly when it is all whitespace |
| `TextProperties.LettersAppend` | rust-1/src/parser.rs:41 | the non-whitespace characters of `a + b` are those of `a` followed by those of `b` |
| `TextProperties.LettersOfWord` | rust-1/src/parser.rs:41 | a whitespace-free string is its own non-whitespace characters |
| `TextProperties.SplitLetters` | rust-1/src/parser.rs:41 | the words, concatenated, are exactly the non-whitespace characters of the line: nothing is lost or reordered |
| `Parser.Tokens` | rust-1/src/parser.rs:41 | every token of a line is non-empty and whitespace-free; `TokensUnwords`, `TokensAppend` and `BlankLine` give the token list itself |
| `Parser.OpOf` | rust-1/src/parser.rs:59-66 | a token names an operator only if it is that operator's symbol, and a token naming none differs from every symbol |
| `Parser.Classify` | rust-1/src/parser.rs:54-67 | the `i32` parse first, then `bool`, then the symbol table; `ClassifyInt`, `ClassifyNegative`, `ClassifyBool`, `ClassifySymbol` and `UnknownToken` state each outcome |
| `Parser.Step` | rust-1/src/parser.rs:54-68 | one token's effect: a literal is pushed, a symbol applies its operator, anything else is `Syntax` with the stack unchanged; stated by `LiteralStep`, `OperatorStep`, `UnknownToken` and `StepDraw` |
| `Parser.RunTokens` | rust-1/src/parser.rs:49-71 | the loop as a left-to-right fold that stops at the first failing step; stated by `RunTokensAppend`, `RunTokensStops` and `FirstFailure` |
| `Parser.EvalLine` | rust-1/src/parser.rs:39-72 | `evaluate_line` as a function of the line and the old stack; `EvaluateLine` is proved to compute it and `EvalLineAppend` splits it at a space |
| `Parser.RunTokensAppend` | rust-1/src/parser.rs:49-71 | running `t1 + t2` runs `t1` and, only if that succeeded, `t2` on the stack it left; otherwise the result of `t1` |
| `Parser.RunTokensSnoc` | rust-1/src/parser.rs:49-70 | one more token extends a run by exactly one step, unless the run has already failed |
| `Parser.RunTokensStops` | rust-1/src/parser.rs:55-67 | once a prefix of the tokens has failed, the tokens after it are ignored |
| `Parser.Finish` | rust-1/src/parser.rs:30-35 | an empty stack gives `Empty`; exactly one item gives that item and leaves the stack empty; more than one gives `Extra`, with the top item popped in both non-empty cases |
| `Parser.EvalToken` | rust-1/src/parser.rs:54-68 | one pass of the loop leaves the status and stack that `Step` gives for the token |
| `Parser.EvaluateLine` | rust-1/src/parser.rs:39-72 | the loop returns the status and leaves the stack that the fold `EvalLine` gives for the line and the old stack |
| `Parser.FinishLine` | rust-1/src/parser.rs:30-35 | the pop, `empty` test and `Extra` of `rpn_repl` compute `Finish` of the old stack |
| `ParserProperties.SymbolTable` | rust-1/src/parser.rs:59-66 | a token names an operator exactly when it is that operator's symbol (`+ = ~ <-> # ? quit`) |
| `ParserProperties.ClassifySymbol` | rust-1/src/parser.rs:54-66 | no operator symbol reads as a literal, so each symbol reaches its own operator |
| `ParserProperties.ClassifyInt` | rust-1/src/parser.rs:54-55 | every `i32` in decimal is read as an integer literal of that value |
| `ParserProperties.ClassifyNegative` | rust-1/src/parser.rs:54-55 | integer parsing is tried first, so `-3` is the literal -3 |
| `ParserProperties.ClassifyBool` | rust-1/src/parser.rs:56-57 | a token is the boolean literal `b` exactly when it is spelt `true` or `false` accordingly |
| `ParserProperties.UnknownToken` | rust-1/src/parser.rs:67 | a token that is neither literal nor symbol is a syntax error that leaves the stack alone |
| `ParserProperties.BlankLine` | rust-1/src/parser.rs:41-71 | a whitespace-only line has no tokens and succeeds with the stack unchanged |
| `ParserProperties.TokensAppend` | rust-1/src/parser.rs:41 | the tokens of `s1 + " " + s2` are those of `s1` followed by those of `s2` |
| `ParserProperties.EvalLineAppend` | rust-1/src/parser.rs:41-71 | evaluating `s1 + " " + s2` is evaluating `s1` and, if that succeeded, `s2` on the stack it left; an error in `s1` is the result of the whole line |
| `ParserProperties.FirstFailure` | rust-1/src/parser.rs:55-67 | the first failing token's outcome is the outcome of the line, whatever follows, with earlier effects kept |
| `ParserProperties.OperatorStep` | rust-1/src/parser.rs:59-66 | an operator's symbol as a token does exactly what the operator does |
| `ParserProperties.LiteralStep` | rust-1/src/parser.rs:54-55 | an `i32` in decimal as a token pushes that integer |
| `ParserProperties.QuitStep` | rust-1/src/parser.rs:66 | the token `quit` stops with `Quit` and leaves the stack alone |
| `ParserProperties.QuitStops` | rust-1/src/parser.rs:66 | after a successful prefix, `quit` ends the line with `Quit`, whatever follows |
| `ParserProperties.QuitNeverSucceeds` | rust-1/src/parser.rs:66 | a line containing `quit` never succeeds, whatever the stack |
| `ParserProperties.RunTokensDepth` | rust-1/src/parser.rs:49-71 | a successful line changes the stack depth by the sum of its tokens' net effects |
| `ParserProperties.SingleToken` | rust-1/src/parser.rs:41 | a single word is a line of one token |
| `ParserProperties.DecimalIsWord` | rust-1/src/parser.rs:41-54 | a decimal literal is a non-empty whitespace-free word |
| `ParserProperties.RunTokensCons` | rust-1/src/parser.rs:49-70 | when the first token succeeds, the run continues with the rest on the stack it left |
| `ParserProperties.TokensUnwords` | rust-1/src/parser.rs:41 | words joined by single spaces are, as a line, exactly those tokens |
| `ParserProperties.StepDraw` | rust-1/src/parser.rs:54-68 | only `#` consults the random-number generator: any other token does the same whatever it would answer |
| `ParserProperties.RunTokensDraws` | rust-1/src/parser.rs:49-71 | a line without `#` gives the same outcome for every sequence of generator answers |
| `ParserProperties.AddRun` | rust-1/src/parser.rs:49-71 | the tokens `m n +` push exactly the wrapped sum of `m` and `n`, whatever the generator would answer |
| `ParserProperties.AddLineTokens` | rust-1/src/parser.rs:41 | the line `m n +` is the three tokens `m`, `n`, `+` |
| `ParserProperties.AddLine` | rust-1/src/parser.rs:30-71 | for all `i32` `m` and `n` and any generator answers, the line `m n +` pushes their sum on any stack, so `3 4 +` pushes `Int(7)`, and on a fresh stack the post-line check reports it with nothing left |
| `ParserProperties.AddThenLiteral` | rust-1/src/parser.rs:49-71 | the tokens `m n + k` push the wrapped sum of `m` and `n` and then `k`, whatever the generator would answer |
| `ParserProperties.SumTokens` | rust-1/src/parser.rs:49-71 | the tokens `3 4 + 5` leave `7 5` on an empty stack, whatever the generator would answer |
| `ParserProperties.SumLineTokens` | rust-1/src/parser.rs:41 | the line `3 4 + 5` is the four tokens `3`, `4`, `+`, `5` |
| `ParserProperties.SumRun` | rust-1/src/parser.rs:41-71 | any line whose tokens are `3 4 + 5` leaves `7 5` on an empty stack |
| `ParserProperties.SumExample` | rust-1/src/parser.rs:30-71 | the line `3 4 + 5` has those four tokens and leaves `7 5`, which the post-line check reports as `Extra` |
| `ParserProperties.TypeErrorTokens` | rust-1/src/parser.rs:54-60 | the tokens `true 1 +` are a type error whatever the generator would answer; `Add` consumes both pushes, leaving the stack before them |
| `ParserProperties.TypeErrorLineTokens` | rust-1/src/parser.rs:41 | the line `true 1 +` is the three tokens `true`, `1`, `+` |
| `ParserProperties.TypeErrorRun` | rust-1/src/parser.rs:41-60 | any line whose tokens are `true 1 +` is a type error that leaves the stack as it was before the line |
| `ParserProperties.TypeErrorExample` | rust-1/src/parser.rs:41-60 | the line `true 1 +` has those three tokens and is a type error that leaves the stack as it was before the line |
| `ParserProperties.SyntaxExample` | rust-1/src/parser.rs:41-67 | the line `foo` is one token and a syntax error that changes nothing |

## Left out

- The terminal plumbing of `rpn_repl` is not modelled (rust-1/src/parser.rs:12-28, 32, 36). This covers the prompt, `flush`, `read_line`, `println!` and the loop around lines. Only the post-line check at lines 30-35 is modelled, as `Finish` / `FinishLine`.
- `Error::IO` carries no payload. An I/O error is only produced by that plumbing.
- The random number generator is an oracle argument. The model does not describe its uniformity or its state.
- `Rpn.WrapAdd`: fixes the release-build wrap-around for `i32` overflow. A debug build panics on overflow; the model does not describe that panic.
- `Text.ParseI32`: returns `None` for every rejected token. It does not say which of Rust's `ParseIntError` kinds applies, because the evaluator only asks whether parsing succeeded.
- `Text.IsWhitespace` is the fixed Unicode `White_Space` set on characters. Strings are sequences of code points; UTF-8 byte offsets are not modelled.
- `Item`'s derived `Eq`, `PartialEq`, `Ord`, `PartialOrd` and `Debug`, and the derived `Debug` of `Error`, `Op` and `Stack`, are not modelled; the logic does not use them. `Apply(Eq, ..)` compares two items of the same variant, which is the same as comparing their payloads, as rust-1/src/rpn.rs:101-107 does.
- The `Result<()>` that `push` returns is not modelled: `push` cannot fail, so `Push` returns nothing.
