/**
 * What the engine promises, proved about the transitions of `CalculatorState`:
 * the effect of each kind of button, the invariant every mutator keeps, and
 * strict left-to-right evaluation of a chain of binary operations.
 */
module CalculatorProperties {
  import opened Wrappers
  import opened Platform
  import opened CalculatorOperations
  import opened CalculatorState

  // ---------------------------------------------------------------------
  // One button at a time
  // ---------------------------------------------------------------------

  /** `setOperand` leaves the pending operation alone, so the description shows it completed by the new number. */
  lemma SetOperandDescription(env: Primitives, s: BrainState, x: real)
    ensures SetOperand(env, s, x).ResultIsPending() == s.ResultIsPending()
    ensures !s.ResultIsPending() ==> SetOperand(env, s, x).Description() == Some(OperandText(env, x))
    ensures s.ResultIsPending() ==>
      SetOperand(env, s, x).Description() == Some(s.pendingBinaryOperation.value.PerformDescription(OperandText(env, x)))
  {
  }

  /** A constant replaces the cache with its value and its own symbol and keeps the pending operation. */
  lemma ConstantButton(env: Primitives, s: BrainState, symbol: string, draw: u32)
    requires s.Valid() && IsConstantSymbol(symbol)
    ensures PerformOperation(env, s, symbol, draw) ==
      s.(cache := Cache(Some(ConstantValue(env, symbol)), Some(symbol)))
  {
    ConstantEntry(env, symbol);
  }

  /** `Rand` caches the drawn fraction, a number in [0, 1], described as `rand()` and keeps the pending operation. */
  lemma RandomButton(env: Primitives, s: BrainState, draw: u32)
    requires s.Valid()
    ensures var r := PerformOperation(env, s, "Rand", draw);
      && r.Result() == Some(RandomFraction(draw))
      && 0.0 <= r.Result().value <= 1.0
      && r.cache.descriptionAccumulator == Some("rand()")
      && r.pendingBinaryOperation == s.pendingBinaryOperation
  {
    var r := PerformOperation(env, s, "Rand", draw);
    assert r.Result() == Some(RandomFraction(draw));
  }

  /** A unary button with no number does nothing. */
  lemma UnaryWithoutOperand(env: Primitives, s: BrainState, symbol: string, draw: u32)
    requires s.Valid() && IsUnarySymbol(symbol) && s.Result().None?
    ensures PerformOperation(env, s, symbol, draw) == s
  {
    UnaryEntry(env, symbol, 0.0, "");
  }

  /**
   * A unary button with a number applies its function to the number and wraps
   * the description as `symbol(inner)`, or `(inner)²` for `x²`; nothing else changes.
   */
  lemma UnaryWithOperand(env: Primitives, s: BrainState, symbol: string, draw: u32)
    requires s.Valid() && IsUnarySymbol(symbol) && s.Result().Some?
    ensures var r := PerformOperation(env, s, symbol, draw);
      && r.Result() == Some(UnaryValue(env, symbol, s.Result().value))
      && r.cache.descriptionAccumulator == Some(UnaryText(symbol, s.cache.descriptionAccumulator.value))
      && r.pendingBinaryOperation == s.pendingBinaryOperation
  {
    UnaryEntry(env, symbol, s.Result().value, s.cache.descriptionAccumulator.value);
  }

  /** A binary button with no number does nothing: the pending operation, if any, stays as it was. */
  lemma BinaryWithoutOperand(env: Primitives, s: BrainState, symbol: string, draw: u32)
    requires s.Valid() && IsBinarySymbol(symbol) && s.Result().None?
    ensures PerformOperation(env, s, symbol, draw) == s
  {
    BinaryEntry(env, symbol, 0.0, 0.0);
  }

  /**
   * A binary button with a number first completes any pending operation, then
   * parks the (completed) number and its description as the first operand of
   * a new pending operation and empties the cache.
   */
  lemma BinaryWithOperand(env: Primitives, s: BrainState, symbol: string, draw: u32)
    requires s.Valid() && IsBinarySymbol(symbol) && s.Result().Some?
    ensures var r := PerformOperation(env, s, symbol, draw);
      var x := s.Result().value;
      var d := s.cache.descriptionAccumulator.value;
      && r.ResultIsPending()
      && r.cache == Cache(None, None)
      && r.pendingBinaryOperation.value.descriptionFunction == DefaultBinaryDescription(symbol)
      && (forall y :: r.pendingBinaryOperation.value.Perform(y) == BinaryValue(env, symbol, r.pendingBinaryOperation.value.firstOperand, y))
      && (!s.ResultIsPending() ==>
            && r.pendingBinaryOperation.value.firstOperand == x
            && r.pendingBinaryOperation.value.descriptionFirstOperand == d)
      && (s.ResultIsPending() ==>
            && r.pendingBinaryOperation.value.firstOperand == s.pendingBinaryOperation.value.Perform(x)
            && r.pendingBinaryOperation.value.descriptionFirstOperand == s.pendingBinaryOperation.value.PerformDescription(d))
  {
    var r := PerformOperation(env, s, symbol, draw);
    forall y ensures r.pendingBinaryOperation.value.Perform(y) == BinaryValue(env, symbol, r.pendingBinaryOperation.value.firstOperand, y) {
      BinaryEntry(env, symbol, r.pendingBinaryOperation.value.firstOperand, y);
    }
  }

  /**
   * `=` completes the pending operation with the current number: the result
   * is the operation applied to both operands, the description its text, and
   * nothing is pending afterwards. With nothing pending or no number it does nothing.
   */
  lemma EqualsButton(env: Primitives, s: BrainState, draw: u32)
    requires s.Valid()
    ensures var r := PerformOperation(env, s, "=", draw);
      && (s.ResultIsPending() && s.Result().Some? ==>
            && !r.ResultIsPending()
            && r.Result() == Some(s.pendingBinaryOperation.value.Perform(s.Result().value))
            && r.Description() == Some(s.pendingBinaryOperation.value.PerformDescription(s.cache.descriptionAccumulator.value)))
      && (!(s.ResultIsPending() && s.Result().Some?) ==> r == s)
  {
  }

  /** Pressing `=` twice is the same as pressing it once. */
  lemma EqualsIdempotent(env: Primitives, s: BrainState, draw: u32, draw': u32)
    requires s.Valid()
    ensures PerformOperation(env, PerformOperation(env, s, "=", draw), "=", draw') == PerformOperation(env, s, "=", draw)
  {
    EqualsButton(env, s, draw);
    EqualsButton(env, PerformOperation(env, s, "=", draw), draw');
  }

  /** While an operation is pending the description always exists; so does it whenever there is a number. */
  lemma DescriptionExists(s: BrainState)
    requires s.Valid()
    ensures s.ResultIsPending() || s.Result().Some? ==> s.Description().Some?
  {
  }

  /**
   * The description shown while an operation is pending is the one `=` commits:
   * pressing `=` never changes the description.
   */
  lemma EqualsKeepsDescription(env: Primitives, s: BrainState, draw: u32)
    requires s.Valid()
    ensures PerformOperation(env, s, "=", draw).Description() == s.Description()
  {
    EqualsButton(env, s, draw);
  }

  /** The operation parked by a binary button computes that button's function of its first operand and the next number. */
  lemma PendingPerform(env: Primitives, s: BrainState, symbol: string, draw: u32, y: real)
    requires s.Valid() && IsBinarySymbol(symbol) && s.Result().Some?
    ensures var p := PerformOperation(env, s, symbol, draw).pendingBinaryOperation.value;
      p.Perform(y) == BinaryValue(env, symbol, p.firstOperand, y)
  {
    BinaryWithOperand(env, s, symbol, draw);
  }

  /** The operation parked by a binary button describes itself as `first symbol second`. */
  lemma PendingPerformDescription(env: Primitives, s: BrainState, symbol: string, draw: u32, d: string)
    requires s.Valid() && IsBinarySymbol(symbol) && s.Result().Some?
    ensures var p := PerformOperation(env, s, symbol, draw).pendingBinaryOperation.value;
      p.PerformDescription(d) == p.descriptionFirstOperand + " " + symbol + " " + d
  {
    BinaryWithOperand(env, s, symbol, draw);
  }

  // ---------------------------------------------------------------------
  // Sequences of buttons
  // ---------------------------------------------------------------------

  /** What a caller does to the engine: enter a number, press an operation button, or press cancel. */
  datatype Input = Enter(operand: real) | Press(symbol: string, draw: u32) | Reset

  function Step(env: Primitives, s: BrainState, input: Input): (r: BrainState)
    requires s.Valid()
    ensures r.Valid()
  {
    match input
    case Enter(x) => SetOperand(env, s, x)
    case Press(symbol, draw) => PerformOperation(env, s, symbol, draw)
    case Reset => Clear(s)
  }

  /** The state after a sequence of inputs; every state reached keeps the invariant. */
  function Run(env: Primitives, s: BrainState, inputs: seq<Input>): (r: BrainState)
    requires s.Valid()
    ensures r.Valid()
    decreases |inputs|
  {
    if inputs == [] then s
    else Step(env, Run(env, s, inputs[..|inputs| - 1]), inputs[|inputs| - 1])
  }

  lemma {:induction false} RunSnoc(env: Primitives, s: BrainState, inputs: seq<Input>, last: Input)
    requires s.Valid()
    ensures Run(env, s, inputs + [last]) == Step(env, Run(env, s, inputs), last)
  {
    assert (inputs + [last])[..|inputs|] == inputs;
  }

  /**
   * `result` disappears only when a binary button takes the number or the engine
   * is cleared, and appears only when a number is entered or a constant or
   * `Rand` is pressed.
   */
  lemma ResultLifecycle(env: Primitives, s: BrainState, input: Input)
    requires s.Valid()
    ensures s.Result().Some? && Step(env, s, input).Result().None? ==>
      input.Reset? || (input.Press? && IsBinarySymbol(input.symbol))
    ensures s.Result().None? && Step(env, s, input).Result().Some? ==>
      input.Enter? || (input.Press? && (IsConstantSymbol(input.symbol) || input.symbol == "Rand"))
  {
    if input.Press? && input.symbol in OperationTable(env) {
      var symbol := input.symbol;
      if IsUnarySymbol(symbol) {
        UnaryEntry(env, symbol, 0.0, "");
      } else if IsBinarySymbol(symbol) {
        BinaryEntry(env, symbol, 0.0, 0.0);
      } else if IsConstantSymbol(symbol) {
        ConstantEntry(env, symbol);
      }
    }
  }

  /**
   * `resultIsPending` changes only at a binary button, `=` or cancel: a binary
   * button with a number always leaves an operation pending, `=` with a number
   * and cancel never do.
   */
  lemma PendingLifecycle(env: Primitives, s: BrainState, input: Input)
    requires s.Valid()
    ensures Step(env, s, input).ResultIsPending() != s.ResultIsPending() ==>
      input.Reset? || (input.Press? && (IsBinarySymbol(input.symbol) || input.symbol == "="))
    ensures input.Press? && IsBinarySymbol(input.symbol) && s.Result().Some? ==> Step(env, s, input).ResultIsPending()
    ensures input.Press? && input.symbol == "=" && s.Result().Some? ==> !Step(env, s, input).ResultIsPending()
    ensures input.Reset? ==> !Step(env, s, input).ResultIsPending()
  {
    if input.Press? && input.symbol in OperationTable(env) {
      var symbol := input.symbol;
      if IsUnarySymbol(symbol) {
        UnaryEntry(env, symbol, 0.0, "");
      } else if IsBinarySymbol(symbol) {
        if s.Result().Some? {
          BinaryWithOperand(env, s, symbol, input.draw);
        }
        BinaryEntry(env, symbol, 0.0, 0.0);
      } else if IsConstantSymbol(symbol) {
        ConstantEntry(env, symbol);
      }
    }
  }

  /** A binary button followed by a number. */
  datatype Term = Term(symbol: string, operand: real)

  predicate AllBinary(terms: seq<Term>) {
    forall i :: 0 <= i < |terms| ==> IsBinarySymbol(terms[i].symbol)
  }

  /** The inputs `x0 op1 x1 … opN xN`. */
  function Keystrokes(x0: real, terms: seq<Term>): seq<Input> {
    if terms == [] then [Enter(x0)]
    else
      var last := terms[|terms| - 1];
      Keystrokes(x0, terms[..|terms| - 1]) + [Press(last.symbol, 0), Enter(last.operand)]
  }

  /** Reference meaning of `x0 op1 x1 … opN xN`: strictly left to right, with no precedence. */
  function LeftToRight(env: Primitives, x0: real, terms: seq<Term>): real
    requires AllBinary(terms)
  {
    if terms == [] then x0
    else
      var last := terms[|terms| - 1];
      BinaryValue(env, last.symbol, LeftToRight(env, x0, terms[..|terms| - 1]), last.operand)
  }

  /** Reference text of `x0 op1 x1 … opN xN`: the operands' texts joined by the symbols, with no parentheses. */
  function Transcript(env: Primitives, x0: real, terms: seq<Term>): string {
    if terms == [] then OperandText(env, x0)
    else
      var last := terms[|terms| - 1];
      Transcript(env, x0, terms[..|terms| - 1]) + " " + last.symbol + " " + OperandText(env, last.operand)
  }

  /** A binary button then a number, from a state that holds a number. */
  lemma OperatorThenOperand(env: Primitives, t: BrainState, symbol: string, x: real)
    requires t.Valid() && IsBinarySymbol(symbol) && t.Result().Some?
    ensures var r := SetOperand(env, PerformOperation(env, t, symbol, 0), x);
      var p := PerformPendingBinaryOperation(t);
      && r.cache == Cache(Some(x), Some(OperandText(env, x)))
      && r.pendingBinaryOperation == Some(PendingBinaryOperation(OperationTable(env)[symbol].combine,
                                          p.Result().value, DefaultBinaryDescription(symbol),
                                          p.cache.descriptionAccumulator.value))
  {
    BinaryEntry(env, symbol, 0.0, 0.0);
  }

  /** After `x0 op1 x1 … opN xN`, N > 0, completing the pending `opN` gives the left-to-right value and the transcript. */
  lemma {:induction false} CompleteChain(env: Primitives, t: BrainState, x0: real, terms: seq<Term>)
    requires t.Valid() && AllBinary(terms) && terms != []
    requires var last := terms[|terms| - 1];
      var init := terms[..|terms| - 1];
      && t.cache == Cache(Some(last.operand), Some(OperandText(env, last.operand)))
      && t.ResultIsPending()
      && t.pendingBinaryOperation.value == PendingBinaryOperation(OperationTable(env)[last.symbol].combine,
                                           LeftToRight(env, x0, init), DefaultBinaryDescription(last.symbol),
                                           Transcript(env, x0, init))
    ensures PerformPendingBinaryOperation(t).Result() == Some(LeftToRight(env, x0, terms))
    ensures PerformPendingBinaryOperation(t).cache.descriptionAccumulator == Some(Transcript(env, x0, terms))
    ensures !PerformPendingBinaryOperation(t).ResultIsPending()
  {
    var last := terms[|terms| - 1];
    assert IsBinarySymbol(last.symbol);
    BinaryEntry(env, last.symbol, LeftToRight(env, x0, terms[..|terms| - 1]), last.operand);
  }

  lemma AllBinaryPrefix(terms: seq<Term>, n: nat)
    requires AllBinary(terms) && n <= |terms|
    ensures AllBinary(terms[..n])
  {
    forall i | 0 <= i < n ensures IsBinarySymbol(terms[..n][i].symbol) {
      assert terms[..n][i] == terms[i];
    }
  }

  /**
   * After `x0 op1 x1 … opN xN` (from a state with nothing pending) the cache
   * holds `xN` and, for N > 0, `opN` is pending with the left-to-right value
   * and the transcript of everything before it as its first operand.
   */
  lemma {:induction false} KeystrokesState(env: Primitives, s: BrainState, x0: real, terms: seq<Term>)
    requires s.Valid() && !s.ResultIsPending() && AllBinary(terms)
    ensures var r := Run(env, s, Keystrokes(x0, terms));
      && (terms == [] ==>
            && r.cache == Cache(Some(x0), Some(OperandText(env, x0)))
            && !r.ResultIsPending())
      && (terms != [] ==>
            var last := terms[|terms| - 1];
            var init := terms[..|terms| - 1];
            && r.cache == Cache(Some(last.operand), Some(OperandText(env, last.operand)))
            && r.ResultIsPending()
            && r.pendingBinaryOperation.value == PendingBinaryOperation(OperationTable(env)[last.symbol].combine,
                                                 LeftToRight(env, x0, init), DefaultBinaryDescription(last.symbol),
                                                 Transcript(env, x0, init)))
  {
    if terms == [] {
      assert Keystrokes(x0, terms) == [] + [Enter(x0)];
      RunSnoc(env, s, [], Enter(x0));
    } else {
      var last := terms[|terms| - 1];
      var init := terms[..|terms| - 1];
      AllBinaryPrefix(terms, |terms| - 1);
      var before := Keystrokes(x0, init);
      KeystrokesState(env, s, x0, init);
      var t := Run(env, s, before);
      assert Keystrokes(x0, terms) == (before + [Press(last.symbol, 0)]) + [Enter(last.operand)];
      RunSnoc(env, s, before, Press(last.symbol, 0));
      RunSnoc(env, s, before + [Press(last.symbol, 0)], Enter(last.operand));
      OperatorThenOperand(env, t, last.symbol, last.operand);
      if init != [] {
        AllBinaryPrefix(init, |init| - 1);
        CompleteChain(env, t, x0, init);
      }
    }
  }

  /**
   * Strict left-to-right evaluation: after `x0 op1 x1 … opN xN =` the result
   * is `(…((x0 op1 x1) op2 x2) …) opN xN`, the description is the plain
   * transcript `x0 op1 x1 … opN xN`, and nothing is pending.
   */
  lemma {:induction false} EvaluatesLeftToRight(env: Primitives, s: BrainState, x0: real, terms: seq<Term>, draw: u32)
    requires s.Valid() && !s.ResultIsPending() && AllBinary(terms)
    ensures var r := Run(env, s, Keystrokes(x0, terms) + [Press("=", draw)]);
      && r.Result() == Some(LeftToRight(env, x0, terms))
      && r.Description() == Some(Transcript(env, x0, terms))
      && !r.ResultIsPending()
  {
    KeystrokesState(env, s, x0, terms);
    RunSnoc(env, s, Keystrokes(x0, terms), Press("=", draw));
    var t := Run(env, s, Keystrokes(x0, terms));
    if terms != [] {
      CompleteChain(env, t, x0, terms);
    }
  }

  /** `2 + 3 × 4 =` gives 20, described as `2 + 3 × 4`: there is no precedence. */
  lemma NoPrecedence(env: Primitives, s: BrainState)
    requires s.Valid() && !s.ResultIsPending()
    ensures var r := Run(env, s, [Enter(2.0), Press("+", 0), Enter(3.0), Press("×", 0), Enter(4.0), Press("=", 0)]);
      && r.Result() == Some(20.0)
      && r.Description() == Some(OperandText(env, 2.0) + " + " + OperandText(env, 3.0) + " × " + OperandText(env, 4.0))
  {
    var terms := [Term("+", 3.0), Term("×", 4.0)];
    assert terms[..1] == [Term("+", 3.0)];
    assert terms[..1][..0] == [];
    assert Keystrokes(2.0, terms) + [Press("=", 0)] ==
      [Enter(2.0), Press("+", 0), Enter(3.0), Press("×", 0), Enter(4.0), Press("=", 0)];
    EvaluatesLeftToRight(env, s, 2.0, terms, 0);
    assert LeftToRight(env, 2.0, terms[..1]) == 5.0;
    assert LeftToRight(env, 2.0, terms) == 20.0;
    var two, three, four := OperandText(env, 2.0), OperandText(env, 3.0), OperandText(env, 4.0);
    assert Transcript(env, 2.0, terms[..1][..0]) == two;
    assert Transcript(env, 2.0, terms[..1]) == two + " " + "+" + " " + three;
    assert Transcript(env, 2.0, terms) == two + " " + "+" + " " + three + " " + "×" + " " + four;
    assert two + " " + "+" + " " + three + " " + "×" + " " + four == two + " + " + three + " × " + four;
  }

  /** After `2 +` the number is consumed, the operation is pending and the description reads `2 + `. */
  lemma PendingAfterOperator(env: Primitives, s: BrainState)
    requires s.Valid() && !s.ResultIsPending()
    ensures var r := Run(env, s, [Enter(2.0), Press("+", 0)]);
      && r.ResultIsPending()
      && r.Result() == None
      && r.Description() == Some(OperandText(env, 2.0) + " + ")
  {
    assert [Enter(2.0), Press("+", 0)] == ([] + [Enter(2.0)]) + [Press("+", 0)];
    RunSnoc(env, s, [], Enter(2.0));
    RunSnoc(env, s, [Enter(2.0)], Press("+", 0));
    var t := Run(env, s, [Enter(2.0)]);
    BinaryWithOperand(env, t, "+", 0);
    var r := Run(env, s, [Enter(2.0), Press("+", 0)]);
    assert r.Description() == Some(OperandText(env, 2.0) + " " + "+" + " " + "");
    assert OperandText(env, 2.0) + " " + "+" + " " + "" == OperandText(env, 2.0) + " + ";
  }
}
