# CalculatorBrain, modelled in Dafny

This project models the engine of a pocket calculator app, `CalculatorBrain`
(Calculator/CalculatorBrain.swift), and proves properties of it. The engine
evaluates immediately. It keeps two pieces of state:

- a cache of the current number (`accumulator`) and the text that describes it (`descriptionAccumulator`);
- at most one binary operation waiting for its second operand (`pendingBinaryOperation`).

Callers drive the engine with three mutators:

- `setOperand(x)`;
- `performOperation(symbol)`, which looks the symbol up in a fixed table of nullary, constant, unary and binary operations and `=`;
- `clear()`.

They read it through three derived views: `result`, `resultIsPending` and `description`.

Files and modules:

- `wrappers.dfy` (`Wrappers`): Swift's optional type.
- `platform.dfy` (`Platform`): what the engine borrows from the platform, passed in as a value of type `Primitives`:
  - `sqrt`, `cos`, `sin` and `tan`;
  - `Double.pi` and `M_E`;
  - the IEEE quotient of a division by zero;
  - the number formatter.

  Also here: `Divide` (the `÷` operation) and `RandomFraction` (the `Rand` operation for a given `arc4random()` draw).
- `operations.dfy` (`CalculatorOperations`):
  - the `Operation` kinds, the operation table and `PendingBinaryOperation` with `Perform` and `PerformDescription`;
  - a reference meaning for every symbol, with lemmas tying the table to those meanings.
- `state.dfy` (`CalculatorState`):
  - the engine's state as a value (`BrainState`) with its views `Result`, `ResultIsPending` and `Description`;
  - the invariant `Valid` (a number always comes with its description);
  - one transition function per mutator.
- `calculator.dfy` (`Calculator`): the class `CalculatorBrain`. It has the source's fields and imperative mutators, and each mutator is proved to make exactly the transition of the same name.
- `properties.dfy` (`CalculatorProperties`):
  - the effect of every kind of button;
  - runs of inputs;
  - the theorem that a chain `x0 op1 x1 … opN xN =` is evaluated strictly left to right, with no precedence and an unparenthesised description.

Numbers are Dafny `real`s.

## Model

| member | source | states |
|---|---|---|
| Platform.Divide | Calculator/CalculatorBrain.swift:57 | `÷` is exact division for a nonzero divisor (`r * y == x`); a zero divisor yields the platform's value for `x / 0` |
| Platform.RandomFraction | Calculator/CalculatorBrain.swift:46 | `Rand` yields a number in [0, 1]; it is 0 exactly for a zero draw and 1 exactly for the draw `UInt32.max` |
| CalculatorOperations.TableKeys | Calculator/CalculatorBrain.swift:44-61 | the `operations` dictionary (`OperationTable`) knows exactly the fifteen symbols Rand, π, e, √, %, cos, sin, tg, ±, x², ×, ÷, +, -, = |
| CalculatorOperations.NullaryAndEqualsEntries | Calculator/CalculatorBrain.swift:46-60 | `Rand` is the nullary operation that produces the drawn fraction and is described as `rand()`; `=` is the equals marker |
| CalculatorOperations.UnaryEntry | Calculator/CalculatorBrain.swift:49-55 | each unary symbol computes its reference function (√, x/100, cos, sin, tan, negation, square); its description is `symbol(inner)`, or `(inner)²` for x² |
| CalculatorOperations.BinaryEntry | Calculator/CalculatorBrain.swift:56-59 | ×, ÷, + and - compute product, quotient, sum and difference and use the default description |
| CalculatorOperations.ConstantEntry | Calculator/CalculatorBrain.swift:47-48 | π and e are constants holding `Double.pi` and `M_E` |
| CalculatorState.Initial | Calculator/CalculatorBrain.swift:13-35 | a new engine has no result, nothing pending and no description, and satisfies the invariant |
| CalculatorState.OperandText | Calculator/CalculatorBrain.swift:129 | the text recorded for an operand is the formatter's text, or "" when the formatter gives none |
| CalculatorState.SetOperand | Calculator/CalculatorBrain.swift:126-131 | the result becomes the operand and the description accumulator its formatted text (or "" when the formatter gives none); the pending operation is untouched; the invariant holds |
| CalculatorState.Clear | Calculator/CalculatorBrain.swift:133-136 | afterwards there is no result, nothing is pending and the description is a single space |
| CalculatorState.PerformPendingBinaryOperation | Calculator/CalculatorBrain.swift:100-106 | with an operation pending and a number present, the result becomes `f(first, number)` and the description the operation's text of both operands, and nothing is pending; otherwise nothing changes; the invariant is kept |
| CalculatorState.PerformOperation | Calculator/CalculatorBrain.swift:63-98 | every button keeps the invariant that makes the forced unwraps safe; an unknown symbol changes nothing |
| Calculator.CalculatorBrain.constructor | Calculator/CalculatorBrain.swift:11-13 | a new engine starts in the initial state with the fixed operation table |
| Calculator.CalculatorBrain.PerformOperation | Calculator/CalculatorBrain.swift:63-98 | the in-place update of cache and pending operation is exactly the transition `PerformOperation` and keeps the invariant; an unknown symbol changes nothing |
| Calculator.CalculatorBrain.PerformPendingBinaryOperation | Calculator/CalculatorBrain.swift:100-106 | the in-place update is exactly the transition `PerformPendingBinaryOperation` |
| Calculator.CalculatorBrain.SetOperand | Calculator/CalculatorBrain.swift:126-131 | the in-place update is exactly `SetOperand`: the result is the operand and the pending operation is unchanged |
| Calculator.CalculatorBrain.Clear | Calculator/CalculatorBrain.swift:133-136 | afterwards there is no result, nothing is pending and the description is " " |
| CalculatorProperties.SetOperandDescription | Calculator/CalculatorBrain.swift:15-23 | after `setOperand(x)` the description is the text of x, or, while an operation is pending, that operation's text completed by the text of x |
| CalculatorProperties.ConstantButton | Calculator/CalculatorBrain.swift:70-71 | a constant sets the cache to its value and its own symbol and leaves the pending operation alone |
| CalculatorProperties.RandomButton | Calculator/CalculatorBrain.swift:67-68 | `Rand` caches `Double(draw) / Double(UInt32.max)` (a number in [0, 1]) described as `rand()` and leaves the pending operation alone |
| CalculatorProperties.UnaryWithoutOperand | Calculator/CalculatorBrain.swift:73-74 | a unary button with no number changes nothing |
| CalculatorProperties.UnaryWithOperand | Calculator/CalculatorBrain.swift:73-80 | a unary button applies its function to the number and wraps the description as `symbol(inner)` or `(inner)²`; the pending operation is kept |
| CalculatorProperties.BinaryWithoutOperand | Calculator/CalculatorBrain.swift:83-85 | a binary button with no number changes nothing, so a second operator in a row is ignored |
| CalculatorProperties.BinaryWithOperand | Calculator/CalculatorBrain.swift:83-91 | a binary button with a number first completes any pending operation; it then parks the completed number and description as the first operand of the new pending operation (which computes the symbol's function and uses the `a SYMBOL b` description) and empties the cache |
| CalculatorProperties.EqualsButton | Calculator/CalculatorBrain.swift:93-94 | `=` completes a pending operation with the current number; with nothing pending or no number it changes nothing |
| CalculatorProperties.EqualsIdempotent | Calculator/CalculatorBrain.swift:100-106 | pressing `=` twice is the same as pressing it once |
| CalculatorProperties.DescriptionExists | Calculator/CalculatorBrain.swift:15-23 | in every valid state the description exists when an operation is pending or a number is present |
| CalculatorProperties.EqualsKeepsDescription | Calculator/CalculatorBrain.swift:15-23 | the `description` shown while an operation is pending is exactly the one `=` commits: pressing `=` never changes `description` |
| CalculatorProperties.PendingPerform | Calculator/CalculatorBrain.swift:117-119 | `perform(with: y)` of the operation a binary button parks is that button's function of the parked first operand and `y` |
| CalculatorProperties.PendingPerformDescription | Calculator/CalculatorBrain.swift:121-123 | `performDescription(with: d)` of the operation a binary button parks is `first symbol d` |
| CalculatorProperties.ResultLifecycle | Calculator/CalculatorBrain.swift:25-29 | `result` becomes nil only through a binary button or `clear`, and becomes non-nil only through an operand, a constant or `Rand` |
| CalculatorProperties.PendingLifecycle | Calculator/CalculatorBrain.swift:31-35 | `resultIsPending` changes only at a binary button, `=` or `clear`; a binary button with a number always sets it, `=` with a number and `clear` always reset it |
| CalculatorProperties.Run | Calculator/CalculatorBrain.swift:63-136 | every state reached by any sequence of `setOperand`, `performOperation` and `clear` calls satisfies the invariant |
| CalculatorProperties.KeystrokesState | Calculator/CalculatorBrain.swift:83-91 | after `x0 op1 x1 … opN xN` the last number is cached and `opN` is pending, with the left-to-right value and the transcript of the earlier part as its first operand |
| CalculatorProperties.EvaluatesLeftToRight | Calculator/CalculatorBrain.swift:83-106 | after `x0 op1 x1 … opN xN =` the result is `(…(x0 op1 x1) …) opN xN` and the description is `x0 op1 x1 … opN xN`, with nothing pending |
| CalculatorProperties.NoPrecedence | Calculator/CalculatorBrain.swift:84-94 | `2 + 3 × 4 =` gives 20 and the description `2 + 3 × 4` |
| CalculatorProperties.PendingAfterOperator | Calculator/CalculatorBrain.swift:15-35 | after `2 +` there is no result, an operation is pending and the description is the text of 2 followed by " + " |

## Left out

- Calculator/ViewController.swift: the display label, digit entry, backspace and button wiring are presentation code. `Run` over `Enter`, `Press` and `Reset` inputs stands in for the view controller's calls to `setOperand`, `performOperation` and `clear`.
- The number formatter (Calculator/CalculatorBrain.swift:139-147): locale-dependent formatting is an uninterpreted `Primitives.format: real -> Option<string>`.
- Foreign numeric functions: `sqrt`, `cos`, `sin`, `tan`, `Double.pi` and `M_E` are uninterpreted fields of `Primitives`.
- `arc4random()`: the drawn value is a parameter of `PerformOperation`.
- Floating point: `Double` is modelled as `real`, so rounding, overflow, infinities and NaN are not modelled. Division by zero yields the uninterpreted `Primitives.divideByZero(x)`.
- Value semantics: `CalculatorBrain` is a Swift struct; here it is a class, which is a difference only when a copy of the engine is made.
- The operation table is a `var` in the source but is never reassigned, so the class holds it as a constant.
- The engine has no instruction log, undo, variables, validators or precedence-driven parentheses; it evaluates immediately and never parenthesises.
