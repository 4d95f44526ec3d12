/** The strategy signal that the decision engine emits and the regions filter.
    The signal class itself lives outside the modelled files: only the fields
    the core reads are kept, and its `base_time()` bucket is a parameter. */
module Signals {

  /** The kind of an exit signal, the only kind this strategy emits. */
  const SIGNAL_EXIT: int := -1

  /** A strategy signal: kind (> 0 entry, < 0 exit), direction (1 long, -1 short),
      timeframe, emission timestamp and price. */
  datatype Signal = Signal(kind: int, dir: int, tf: real, timestamp: real, price: real)
  {
    predicate IsEntry() { kind > 0 }
    predicate IsExit() { kind < 0 }
  }

  /** The bucket a signal belongs to, computed from its timeframe and timestamp.
      Its definition is not part of this model, so it is passed in. */
  type BaseTime = (real, real) -> real

  function BaseTimeOf(s: Signal, baseTime: BaseTime): real
  {
    baseTime(s.tf, s.timestamp)
  }
}
