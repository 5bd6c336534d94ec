# sc — an RPN calculator, modelled in Dafny

`sc` is a small interactive reverse-Polish calculator written in Rust. This
project models its three engines and proves what each of them promises:

- **The expression engine** (`src/expr.rs`, module `Expressions`, class
  `Expressions.Expr`). `Expr::parse` splits a line on white space. It classifies
  every token: first as one of the symbols `+ - * / !`, then as a number. It
  stops with `InvalidTerm("invalid token found: <token>")` at the first token that
  is neither. It stores the terms reversed. `Expr::evaluate` pops the terms back
  off, so it sees them in input order, and reduces them on a stack that is new on
  every call. A binary operator pops the right operand, then the left one, and
  pushes `op(left, right)`. If only one operand is there, that operand is pushed
  back unchanged. If there is none, evaluation fails. A unary operator panics.
- **The persistent value stack** (`src/lib.rs`, class `Calculator.Stack`). Values
  stay on it across input lines. `op` looks a symbol up in `get_op_fn` and then
  runs `bin_op`. `bin_op` pops the top `r` and the value `l` beneath it, and
  pushes `f(l, r)`. On underflow it fails, and a value it already popped is lost.
- **The command parser** (`src/command.rs`, module `Commands`): the letters
  `s`, `c`, `p` and `h`, read both by `Command::parse` and by `is_command`.

How the model is built:

- **Numbers** (`Numbers.Num`) are symbolic. A value is a literal, or one of the
  four operations applied to a left and a right value. Every fact proved here
  therefore holds for any reading of `+`, `-`, `*` and `/`. The real-number
  reading (`Numbers.Value`) is used only to state results such as "1 2 + is 3".
- **The float reader** `str::parse::<f64>` is not defined here. Every parsing
  member takes it as a parameter `parseNum: string -> Option<real>`.
- **`split_whitespace`** is modelled exactly (`Whitespace.SplitWhitespace`),
  with Rust's `char::is_whitespace` table (the Unicode White_Space characters).
- **`Expr` and `Stack`** are classes. Their vectors are `seq` fields that the
  methods reassign. `Expr.Parse` and `Expr.Evaluate` keep the source's loops.
  Each is proved against a specification function: `ParseTerms` for parsing and
  `Run` for the evaluation loop. The lemmas about those functions carry the
  properties. `EvalLeftToRight` is an independent definition that reads the terms
  in input order. `RunIsLeftToRight` proves that popping the reversed terms
  computes the same thing.
- **A panic** (`unimplemented!()` on a unary operator) is the outcome
  `Expressions.Outcome.Panicked`.

What this revision of the code does, and the model with it:

- `evaluate` works on a local stack that it creates on every call. Nothing
  persists between calls, so "1 2 + +" evaluates to 1 + 2
  (`ExpressionExamples.PassThroughLine`).
- The result is returned only. It is not pushed onto any stack.
- Unary operators are parsed but not implemented: evaluating one panics
  (`ExpressionExamples.OneFactorial`).
- Errors are plain strings: "stack empty", "not enough items on stack" and
  "empty stack". There are no error kinds.

## Model

| member | source | states |
|---|---|---|
| `Whitespace.SplitEmptyIffAllWs` | src/expr.rs:18 | a line yields no tokens exactly when it is empty or all white space |
| `Whitespace.SplitYieldsWords` | src/expr.rs:18 | every token `split_whitespace` yields is non-empty and contains no white space |
| `Whitespace.SplitJoin` | src/expr.rs:18 | splitting a line of words joined by single spaces gives back exactly those words, in order |
| `Expressions.Term.IsOp` | src/expr.rs:102-107 | `Term::is_op`: the term is a binary or a unary operator |
| `Expressions.Term.IsNumber` | src/expr.rs:109-114 | `Term::is_number`: the term is a number |
| `Expressions.IsNumber` | src/expr.rs:134-136 | the free `is_number`: the token reads as a float |
| `Expressions.GetBinOp` | src/expr.rs:138-145 | `get_bin_op`: Add, Sub, Mul and Div stand for `l + r`, `l - r`, `l * r` and `l / r`, left operand first |
| `Expressions.Classify` | src/expr.rs:19-37 | one token of `Expr::parse`: the five operator symbols first, then a number, and no term for any other token |
| `Expressions.ClassifyOrder` | src/expr.rs:19-36 | `+ - * /` map to Add, Sub, Mul, Div and `!` to Fact whatever the float reader says; any other token is `Number(f)` exactly when it reads as `f`, and bad otherwise |
| `Expressions.ClassifyKinds` | src/expr.rs:101-136 | a token is accepted iff it is an operator symbol or `is_number` holds; an accepted term `is_op` iff its token is an operator symbol, and `is_op` iff not `is_number` |
| `Expressions.ClassifyAllOk` | src/expr.rs:18-40 | classifying a token list succeeds iff every token is good, and then gives one term per token in input order |
| `Expressions.ClassifyAllFirstError` | src/expr.rs:26-35 | a failed classification reports `InvalidTerm("invalid token found: " + t)` for the first bad token `t` (all tokens before it are good) |
| `Expressions.ParseTermsOk` | src/expr.rs:15-44 | `Expr::parse` succeeds iff every whitespace-separated token is good; the stored vector has one term per token and is the reverse of the tokens' terms |
| `Expressions.ParseTermsErr` | src/expr.rs:28-35 | a failed `Expr::parse` names the first bad token of the line |
| `Expressions.ParseBlank` | src/expr.rs:15-44 | an empty or all-white-space line parses to an expression with no terms |
| `Expressions.Expr.constructor` | src/expr.rs:44 | the new expression stores exactly the given terms |
| `Expressions.Expr.Parse` | src/expr.rs:15-45 | the loop's result is the first-bad-token error, or a new `Expr` storing the reversed terms (`ParseTerms`) |
| `Expressions.Expr.Evaluate` | src/expr.rs:47-80 | no terms: "stack empty", nothing changed; otherwise the outcome and the terms left unpopped are those of the loop `Run` from an empty local stack; on success no stored term is left |
| `Expressions.ApplyBinOp` | src/expr.rs:59-68 | one binary operator on the local stack: with two values, pop right then left and push `op(left, right)`; with one, push it back; with none, fail |
| `Expressions.Run` | src/expr.rs:54-73 | the evaluation loop: pop the last stored term; push a number, apply a binary operator, stop on underflow, stop as a panic on a unary operator |
| `Expressions.RunIsLeftToRight` | src/expr.rs:54-58 | popping the reversed terms from the end processes them in original left-to-right order |
| `Expressions.ParsedRunsInInputOrder` | src/expr.rs:39-58 | after a successful parse, evaluation processes the line's tokens' terms in input order |
| `Expressions.NeverUnderflow` | src/expr.rs:54-72 | once a value is on the local stack, evaluation never fails with "not enough items on stack"; it panics iff some remaining term is a unary operator, and otherwise ends with a non-empty stack |
| `Expressions.UnderflowOnlyAtStart` | src/expr.rs:47-79 | for a non-empty expression, evaluation fails with "not enough items on stack" iff its first term is a binary operator, panics iff the first term is not binary and some term is unary, and never reports "empty stack" |
| `Expressions.OperandOrder` | src/expr.rs:59-65 | "a b op" leaves exactly `op(a, b)`: the first operand is the left one |
| `Expressions.BinOpUnderflow` | src/expr.rs:64-68 | a binary operator facing one value leaves it in place; facing none, evaluation fails with "not enough items on stack" |
| `ExpressionExamples.BinaryLine` | src/expr.rs:15-80 | a line "x y op" of two numbers and an operator parses to `[op, y, x]` and evaluates to `op(x, y)` |
| `ExpressionExamples.OnePlusTwo` | src/expr.rs:151-157 | "1 2 +" parses to `[Add, 2, 1]` and evaluates to `1 + 2`, whose value is 3 |
| `ExpressionExamples.FiveMinusThree` | src/expr.rs:138-145 | "5 3 -" evaluates to `5 - 3`, whose value is 2 |
| `ExpressionExamples.BadSecondToken` | src/expr.rs:18-35 | a line whose second token is bad fails on that token even when a later token is good |
| `ExpressionExamples.InvalidMiddleToken` | src/expr.rs:28-35 | "1 foo +" fails with `InvalidTerm("invalid token found: foo")` |
| `ExpressionExamples.LoneOperator` | src/expr.rs:66-67 | "+" parses, and evaluating it fails with "not enough items on stack" |
| `ExpressionExamples.RepeatedOperatorLine` | src/expr.rs:15-80 | a line "x y op op" parses to `[op, op, y, x]`, and the second operator passes the first one's result through, so the line evaluates to `op(x, y)` |
| `ExpressionExamples.RepeatedOperatorPassesThrough` | src/expr.rs:54-68 | evaluating `[a, b, op, op]` in input order from an empty local stack leaves exactly `op(a, b)`: the second operator finds one value and passes it through |
| `ExpressionExamples.PassThroughLine` | src/expr.rs:64-66 | "1 2 + +" parses to `[Add, Add, 2, 1]` and evaluates to `1 + 2`: the second `+` passes the sum through |
| `ExpressionExamples.UnaryLine` | src/expr.rs:25-70 | a line "x u" of a number and a unary operator parses to `[u, x]`, and evaluating it panics |
| `ExpressionExamples.OneFactorial` | src/expr.rs:25-70 | "1 !" parses to `[Fact, 1]`, and evaluating it panics |
| `Calculator.Stack.constructor` | src/lib.rs:17-19 | a new stack is empty |
| `Calculator.Stack.Pop` | src/lib.rs:38-39 | `Vec::pop` on the stack: the top value and the stack without it, or nothing and the stack unchanged when it is empty |
| `Calculator.Stack.Push` | src/lib.rs:21-23 | the value becomes the new top and every existing value is unchanged |
| `Calculator.Stack.Op` | src/lib.rs:25-32 | an unknown symbol gives "unknown operator" and changes nothing; a known one behaves as `bin_op` with its function; on success the result is the new top |
| `Calculator.Stack.BinOp` | src/lib.rs:34-49 | with two or more values: pops `r` and `l`, pushes and returns `f(l, r)`, the stack is one shorter and the values below are untouched; with fewer: "not enough items on the stack" and the stack is left empty |
| `Calculator.IsOp` | src/lib.rs:68-73 | `is_op`: the symbols `+ - * /` |
| `Calculator.GetOpFn` | src/lib.rs:77-85 | `get_op_fn`: `+ - * /` stand for `l + r`, `l - r`, `l * r` and `l / r`, left operand first; any other symbol has no function |
| `Calculator.IsOpIffKnown` | src/lib.rs:68-85 | `is_op(s)` holds exactly when `get_op_fn(s)` is `Some` |
| `Calculator.OperatorTablesAgree` | src/lib.rs:77-84 | each symbol `is_op` accepts means the same arithmetic, with the same operand order, in the stack and in the expression engine |
| `Calculator.PushPushOp` | src/lib.rs:38-45 | after pushing a and b, `op` returns `op(a, b)`, and that is the only value left |
| `Calculator.LoneValueIsLost` | src/lib.rs:38-47 | after pushing one value, `op` fails and the stack is empty: the lone operand is not restored |
| `Commands.Parse` | src/command.rs:10-18 | `Command::parse`: "s", "c", "p" and "h" give the four commands, anything else "unknown command" |
| `Commands.IsCommand` | src/command.rs:21-26 | `is_command`: the strings "s", "c", "p" and "h" |
| `Commands.ParseLetters` | src/command.rs:11-15 | "s", "c", "p" and "h" parse to Stack, Clear, Print and Help |
| `Commands.ParseRejects` | src/command.rs:16 | every other string, "" and longer strings included, gives "unknown command" |
| `Commands.IsCommandIffParses` | src/command.rs:10-26 | `is_command(s)` holds iff `Command::parse(s)` is `Ok` |
| `Commands.ParseLetterRoundTrip` | src/command.rs:11-15 | each command's letter parses to that command, and no other string does |
| `Commands.ParseInjective` | src/command.rs:11-15 | distinct accepted strings parse to distinct commands |

## Left out

- src/main.rs, the rustyline REPL: reading lines, printing, and interrupt and end-of-input handling. It is I/O around `is_op`, `Stack::op` and `Stack::push`.
- src/config.rs and the `Config`/`Mode` copy in src/lib.rs:52-66: plain data with a default and no behaviour.
- IEEE f64 arithmetic. Values are symbolic terms. `Numbers.Value` reads them as reals and gives no value once a division by zero occurs. Infinities, NaN, rounding and overflow are not modelled.
- The grammar of `str::parse::<f64>`. It is foreign code, so it is the parameter `parseNum`. Because it returns a `real`, the non-finite literals "inf" and "NaN" cannot be represented.
- The mathematics of the unary operators. The source never implements them: a unary term ends evaluation as `Panicked`.
- The `None => unimplemented!()` arm of `evaluate` (src/expr.rs:71). The loop pops only from a non-empty vector, so it cannot be reached.
- `ParseErrorKind::InvalidOperator`: declared, never constructed.
- The commented-out `IDiv` (src/expr.rs:24) and the unused `Op` enum of src/lib.rs:7-14: no reachable behaviour.
- Nothing in src/lib.rs or src/main.rs declares `mod expr`, so in this revision the expression engine is not part of the built program. It is modelled on its own.
