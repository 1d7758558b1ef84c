/**
 * `CalculatorBrain`: the engine as an object whose mutators overwrite its
 * cache and its pending operation in place. Each mutator is proved to make
 * exactly the transition of the same name in `CalculatorState`, so the
 * properties proved there hold of the object.
 */
module Calculator {
  import opened Wrappers
  import opened Platform
  import opened CalculatorOperations
  import CalculatorState

  class CalculatorBrain {
    /** The platform primitives the operations and the formatter use. */
    const env: Primitives
    /** The operation table, fixed when the engine is made. */
    const operations: map<string, Operation>

    var cache: CalculatorState.Cache
    var pendingBinaryOperation: Option<PendingBinaryOperation>

    /** The engine's state as a value. */
    function State(): CalculatorState.BrainState
      reads this
    {
      CalculatorState.BrainState(cache, pendingBinaryOperation)
    }

    ghost predicate Valid()
      reads this
    {
      operations == OperationTable(env) && State().Valid()
    }

    function Description(): Option<string>
      reads this
    {
      State().Description()
    }

    function Result(): Option<real>
      reads this
    {
      State().Result()
    }

    predicate ResultIsPending()
      reads this
    {
      State().ResultIsPending()
    }

    constructor (env: Primitives)
      ensures Valid() && this.env == env
      ensures State() == CalculatorState.Initial()
    {
      this.env := env;
      operations := OperationTable(env);
      cache := CalculatorState.Cache(None, None);
      pendingBinaryOperation := None;
    }

    method PerformOperation(symbol: string, draw: u32)
      requires Valid()
      modifies this
      ensures Valid()
      ensures State() == CalculatorState.PerformOperation(env, old(State()), symbol, draw)
      ensures symbol !in operations ==> cache == old(cache) && pendingBinaryOperation == old(pendingBinaryOperation)
    {
      if symbol in operations {
        match operations[symbol]
        case NullaryOperation(produce, descriptionValue) =>
          cache := CalculatorState.Cache(Some(produce(draw)), Some(descriptionValue));
        case Constant(value) =>
          cache := CalculatorState.Cache(Some(value), Some(symbol));
        case UnaryOperation(fn, descriptionFunction) =>
          if cache.accumulator.Some? {
            cache := cache.(accumulator := Some(fn(cache.accumulator.value)));
            var describe := descriptionFunction;
            if describe.None? {
              describe := Some(DefaultUnaryDescription(symbol));
            }
            cache := cache.(descriptionAccumulator := Some(describe.value(cache.descriptionAccumulator.value)));
          }
        case BinaryOperation(combine, descriptionFunction) =>
          PerformPendingBinaryOperation();
          if cache.accumulator.Some? {
            var describe := descriptionFunction;
            if describe.None? {
              describe := Some(DefaultBinaryDescription(symbol));
            }
            pendingBinaryOperation := Some(PendingBinaryOperation(combine, cache.accumulator.value,
                                                                  describe.value, cache.descriptionAccumulator.value));
            cache := CalculatorState.Cache(None, None);
          }
        case Equals =>
          PerformPendingBinaryOperation();
      }
    }

    method PerformPendingBinaryOperation()
      requires Valid()
      modifies this
      ensures Valid()
      ensures State() == CalculatorState.PerformPendingBinaryOperation(old(State()))
    {
      if ResultIsPending() && cache.accumulator.Some? {
        cache := cache.(accumulator := Some(pendingBinaryOperation.value.Perform(cache.accumulator.value)));
        cache := cache.(descriptionAccumulator :=
                          Some(pendingBinaryOperation.value.PerformDescription(cache.descriptionAccumulator.value)));
        pendingBinaryOperation := None;
      }
    }

    method SetOperand(operand: real)
      requires Valid()
      modifies this
      ensures Valid()
      ensures State() == CalculatorState.SetOperand(env, old(State()), operand)
      ensures Result() == Some(operand) && pendingBinaryOperation == old(pendingBinaryOperation)
    {
      cache := cache.(accumulator := Some(operand));
      if cache.accumulator.Some? {
        var value := cache.accumulator.value;
        cache := cache.(descriptionAccumulator := Some(env.format(value).GetOr("")));
      }
    }

    method Clear()
      requires Valid()
      modifies this
      ensures Valid()
      ensures State() == CalculatorState.Clear(old(State()))
      ensures Result() == None && !ResultIsPending() && Description() == Some(" ")
    {
      cache := CalculatorState.Cache(None, Some(" "));
      pendingBinaryOperation := None;
    }
  }
}
