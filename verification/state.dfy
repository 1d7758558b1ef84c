/**
 * The state of the calculator engine as a value, its three derived views and
 * its transitions. `CalculatorBrain` (calculator.dfy) updates the same state in
 * place and is proved to follow these transitions step for step.
 */
module CalculatorState {
  import opened Wrappers
  import opened Platform
  import opened CalculatorOperations

  /** The pair the engine caches: the current number and the text that describes it. */
  datatype Cache = Cache(accumulator: Option<real>, descriptionAccumulator: Option<string>)

  datatype BrainState = BrainState(cache: Cache, pendingBinaryOperation: Option<PendingBinaryOperation>)
  {
    /** `result`: the current number, if any. */
    function Result(): Option<real> {
      cache.accumulator
    }

    /** `resultIsPending`: a binary operation is waiting for its second operand. */
    predicate ResultIsPending() {
      pendingBinaryOperation.Some?
    }

    /** `description`: the cached text, or the pending operation applied to what is typed so far. */
    function Description(): Option<string> {
      if !ResultIsPending() then cache.descriptionAccumulator
      else Some(pendingBinaryOperation.value.PerformDescription(cache.descriptionAccumulator.GetOr("")))
    }

    /**
     * The engine's invariant: a number always comes with its description.
     * It is what makes the engine's forced unwraps of the description safe.
     */
    predicate Valid() {
      cache.accumulator.Some? ==> cache.descriptionAccumulator.Some?
    }
  }

  /** The state of a newly made engine: nothing cached, nothing pending. */
  function Initial(): (s: BrainState)
    ensures s.Valid()
    ensures s.Result() == None && !s.ResultIsPending() && s.Description() == None
  {
    BrainState(Cache(None, None), None)
  }

  /** The text `setOperand` records for a number: the formatter's text, or "" when it has none. */
  function OperandText(env: Primitives, x: real): (r: string)
    ensures env.format(x) == Some(r) || (env.format(x) == None && r == "")
  {
    env.format(x).GetOr("")
  }

  /** `setOperand(operand)`. */
  function SetOperand(env: Primitives, s: BrainState, operand: real): (r: BrainState)
    ensures r.Valid()
    ensures r.Result() == Some(operand)
    ensures r.cache.descriptionAccumulator == Some(OperandText(env, operand))
    ensures r.pendingBinaryOperation == s.pendingBinaryOperation
  {
    var cache := s.cache.(accumulator := Some(operand));
    BrainState(cache.(descriptionAccumulator := Some(OperandText(env, operand))), s.pendingBinaryOperation)
  }

  /** `clear()`. */
  function Clear(s: BrainState): (r: BrainState)
    ensures r.Valid()
    ensures r.Result() == None && !r.ResultIsPending() && r.Description() == Some(" ")
  {
    BrainState(Cache(None, Some(" ")), None)
  }

  /** `performPendingBinaryOperation()`: completes the pending operation with the current number. */
  function PerformPendingBinaryOperation(s: BrainState): (r: BrainState)
    requires s.Valid()
    ensures r.Valid()
    ensures s.ResultIsPending() && s.Result().Some? ==>
      && !r.ResultIsPending()
      && r.Result() == Some(s.pendingBinaryOperation.value.Perform(s.Result().value))
      && r.Description() ==
         Some(s.pendingBinaryOperation.value.PerformDescription(s.cache.descriptionAccumulator.value))
    ensures !(s.ResultIsPending() && s.Result().Some?) ==> r == s
  {
    if s.ResultIsPending() && s.cache.accumulator.Some? then
      var pending := s.pendingBinaryOperation.value;
      var cache := s.cache.(accumulator := Some(pending.Perform(s.cache.accumulator.value)));
      var cache' := cache.(descriptionAccumulator := Some(pending.PerformDescription(s.cache.descriptionAccumulator.value)));
      BrainState(cache', None)
    else
      s
  }

  /** The description function a unary operation uses: its own, or `symbol(inner)`. */
  function UnaryDescriptionFunction(symbol: string, own: Option<string -> string>): string -> string {
    match own
    case Some(describe) => describe
    case None => DefaultUnaryDescription(symbol)
  }

  /** The description function a binary operation uses: its own, or `a symbol b`. */
  function BinaryDescriptionFunction(symbol: string, own: Option<(string, string) -> string>): (string, string) -> string {
    match own
    case Some(describe) => describe
    case None => DefaultBinaryDescription(symbol)
  }

  /**
   * `performOperation(symbol)`; `draw` is the value `arc4random()` would return
   * if the symbol names the random-number operation.
   */
  function PerformOperation(env: Primitives, s: BrainState, symbol: string, draw: u32): (r: BrainState)
    requires s.Valid()
    ensures r.Valid()
    ensures symbol !in OperationTable(env) ==> r == s
  {
    var operations := OperationTable(env);
    if symbol !in operations then s
    else
      match operations[symbol]
      case NullaryOperation(produce, descriptionValue) =>
        s.(cache := Cache(Some(produce(draw)), Some(descriptionValue)))
      case Constant(value) =>
        s.(cache := Cache(Some(value), Some(symbol)))
      case UnaryOperation(fn, own) =>
        if s.cache.accumulator.Some? then
          var describe := UnaryDescriptionFunction(symbol, own);
          s.(cache := Cache(Some(fn(s.cache.accumulator.value)), Some(describe(s.cache.descriptionAccumulator.value))))
        else
          s
      case BinaryOperation(combine, own) =>
        var t := PerformPendingBinaryOperation(s);
        if t.cache.accumulator.Some? then
          var pending := PendingBinaryOperation(combine, t.cache.accumulator.value,
                                                BinaryDescriptionFunction(symbol, own),
                                                t.cache.descriptionAccumulator.value);
          BrainState(Cache(None, None), Some(pending))
        else
          t
      case Equals =>
        PerformPendingBinaryOperation(s)
  }
}
