/**
 * The operation table of the calculator engine and the deferred binary
 * operation (`CalculatorBrain.Operation`, `CalculatorBrain.operations`,
 * `CalculatorBrain.PendingBinaryOperation`).
 */
module CalculatorOperations {
  import opened Wrappers
  import opened Platform

  /** The five kinds of operation a button symbol can name. */
  datatype Operation =
    | NullaryOperation(produce: u32 -> real, descriptionValue: string)
    | Constant(value: real)
    | UnaryOperation(fn: real -> real, unaryDescription: Option<string -> string>)
    | BinaryOperation(combine: (real, real) -> real, binaryDescription: Option<(string, string) -> string>)
    | Equals

  /** The description of a unary operation that brings none of its own: `symbol(inner)`. */
  function DefaultUnaryDescription(symbol: string): string -> string {
    inner => symbol + "(" + inner + ")"
  }

  /** The description of a binary operation that brings none of its own: `a symbol b`. */
  function DefaultBinaryDescription(symbol: string): (string, string) -> string {
    (first, second) => first + " " + symbol + " " + second
  }

  /** The description `x²` brings: `(inner)²`. */
  function SquareDescription(): string -> string {
    inner => "(" + inner + ")²"
  }

  /** The fixed table from button symbol to operation. */
  function OperationTable(env: Primitives): map<string, Operation> {
    map[
      "Rand" := NullaryOperation(RandomFraction, "rand()"),
      "π" := Constant(env.pi),
      "e" := Constant(env.e),
      "√" := UnaryOperation(env.sqrt, None),
      "%" := UnaryOperation(x => x / 100.0, None),
      "cos" := UnaryOperation(env.cos, None),
      "sin" := UnaryOperation(env.sin, None),
      "tg" := UnaryOperation(env.tan, None),
      "±" := UnaryOperation(x => -x, None),
      "x²" := UnaryOperation(x => x * x, Some(SquareDescription())),
      "×" := BinaryOperation((x, y) => x * y, None),
      "÷" := BinaryOperation((x, y) => Divide(env, x, y), None),
      "+" := BinaryOperation((x, y) => x + y, None),
      "-" := BinaryOperation((x, y) => x - y, None),
      "=" := Equals
    ]
  }

  /** A binary operation waiting for its second operand. */
  datatype PendingBinaryOperation = PendingBinaryOperation(
    combine: (real, real) -> real,
    firstOperand: real,
    descriptionFunction: (string, string) -> string,
    descriptionFirstOperand: string)
  {
    function Perform(secondOperand: real): real {
      combine(firstOperand, secondOperand)
    }

    function PerformDescription(descriptionSecondOperand: string): string {
      descriptionFunction(descriptionFirstOperand, descriptionSecondOperand)
    }
  }

  // ---------------------------------------------------------------------
  // Reference definitions of what each symbol means, written independently
  // of the table, and the lemmas that tie the table to them.
  // ---------------------------------------------------------------------

  predicate IsUnarySymbol(symbol: string) {
    symbol in {"√", "%", "cos", "sin", "tg", "±", "x²"}
  }

  predicate IsBinarySymbol(symbol: string) {
    symbol in {"×", "÷", "+", "-"}
  }

  predicate IsConstantSymbol(symbol: string) {
    symbol in {"π", "e"}
  }

  /** The value a unary button gives for `x`. */
  function UnaryValue(env: Primitives, symbol: string, x: real): real
    requires IsUnarySymbol(symbol)
  {
    match symbol
    case "√" => env.sqrt(x)
    case "%" => x / 100.0
    case "cos" => env.cos(x)
    case "sin" => env.sin(x)
    case "tg" => env.tan(x)
    case "±" => -x
    case "x²" => x * x
  }

  /** The text a unary button wraps around the description `inner`. */
  function UnaryText(symbol: string, inner: string): string {
    if symbol == "x²" then "(" + inner + ")²" else symbol + "(" + inner + ")"
  }

  /** The value a binary button gives for `x` and `y`. */
  function BinaryValue(env: Primitives, symbol: string, x: real, y: real): real
    requires IsBinarySymbol(symbol)
  {
    match symbol
    case "×" => x * y
    case "÷" => Divide(env, x, y)
    case "+" => x + y
    case "-" => x - y
  }

  /** The value a constant button gives. */
  function ConstantValue(env: Primitives, symbol: string): real
    requires IsConstantSymbol(symbol)
  {
    if symbol == "π" then env.pi else env.e
  }

  /** The table knows exactly fifteen symbols: one nullary, two constants, seven unary, four binary and `=`. */
  lemma TableKeys(env: Primitives)
    ensures OperationTable(env).Keys ==
      {"Rand", "=", "π", "e", "√", "%", "cos", "sin", "tg", "±", "x²", "×", "÷", "+", "-"}
  {
  }

  /** `Rand` is the nullary operation producing the drawn fraction, described as `rand()`; `=` is the equals marker. */
  lemma NullaryAndEqualsEntries(env: Primitives, draw: u32)
    ensures "Rand" in OperationTable(env) && OperationTable(env)["Rand"].NullaryOperation?
    ensures OperationTable(env)["Rand"].descriptionValue == "rand()"
    ensures OperationTable(env)["Rand"].produce(draw) == RandomFraction(draw)
    ensures "=" in OperationTable(env) && OperationTable(env)["="].Equals?
  {
  }

  /** Every unary symbol names a unary operation that computes `UnaryValue` and describes as `UnaryText`. */
  lemma UnaryEntry(env: Primitives, symbol: string, x: real, inner: string)
    requires IsUnarySymbol(symbol)
    ensures symbol in OperationTable(env)
    ensures OperationTable(env)[symbol].UnaryOperation?
    ensures OperationTable(env)[symbol].fn(x) == UnaryValue(env, symbol, x)
    ensures (match OperationTable(env)[symbol].unaryDescription
             case Some(describe) => describe(inner)
             case None => DefaultUnaryDescription(symbol)(inner)) == UnaryText(symbol, inner)
  {
  }

  /** Every binary symbol names a binary operation with the default description that computes `BinaryValue`. */
  lemma BinaryEntry(env: Primitives, symbol: string, x: real, y: real)
    requires IsBinarySymbol(symbol)
    ensures symbol in OperationTable(env)
    ensures OperationTable(env)[symbol].BinaryOperation?
    ensures OperationTable(env)[symbol].binaryDescription.None?
    ensures OperationTable(env)[symbol].combine(x, y) == BinaryValue(env, symbol, x, y)
  {
  }

  /** The two constants. */
  lemma ConstantEntry(env: Primitives, symbol: string)
    requires IsConstantSymbol(symbol)
    ensures symbol in OperationTable(env)
    ensures OperationTable(env)[symbol] == Constant(ConstantValue(env, symbol))
  {
  }
}
