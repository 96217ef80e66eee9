/**
 * Shared vocabulary of the dimension-label data-query layer: optional values,
 * results, the two kinds of failure the layer reports, and the unsigned 64-bit
 * arithmetic the sort scan is written in.
 */
module Common {

  datatype Option<T> = None | Some(value: T)

  datatype Result<T> = Ok(value: T) | Err(error: Error)

  /** The outcome of an operation that returns nothing but may throw. */
  datatype Outcome = Pass | Fail(error: Error)

  /** Which of the two arrays backing a dimension label a delegated query targets. */
  datatype ArrayKind = IndexedArray | LabelledArray

  /** A call this layer makes on the query engine that can fail. */
  datatype EngineCall = InitCall | ProcessCall

  datatype Error =
    /** A `DimensionLabelDataQueryStatusException` raised by this layer. */
    | DataQueryStatusError(message: string)
    /** A failing status from the query engine, propagated by `throw_if_not_ok`. */
    | EngineError(target: ArrayKind, call: EngineCall)

  const LabelsNotInOrderMessage: string :=
    "Failed to create dimension label query. The label data is not in the expected order."

  const SingleRangeMessage: string :=
    "Failed to create dimension label query. Dimension label writes can only be set for a single range."

  const UpdateRangesOnWriteMessage: string :=
    "Updating index ranges is not supported on writes."

  const U64Modulus: int := 0x1_0000_0000_0000_0000

  newtype uint64 = x: int | 0 <= x < 0x1_0000_0000_0000_0000

  /** Subtraction of `uint64_t` values in C++: wraps around modulo 2^64. */
  function Sub64(a: uint64, b: uint64): (r: uint64)
    ensures r as int == (a as int - b as int) % U64Modulus
  {
    if a >= b then a - b else ((a as int - b as int + U64Modulus) as uint64)
  }
}
