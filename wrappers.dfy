/** Errors raised while decoding a data file, and the failure-compatible result type. */
module Wrappers {

  /** The record constructor that rejected its input. */
  datatype RecordKind =
    | TimeRecord
    | MetaDataRecord
    | SummaryDataRecord
    | MeanDataRecord
    | RunDataPointRecord
    | FullDataHeadersRecord

  /** The two exceptions the decoder can raise. */
  datatype Error =
    /** ValueError: a record constructor was given a slice whose length is not its format size. */
    | LengthMismatch(record: RecordKind, expected: nat, actual: nat)
    /** struct.error: `struct.unpack` was given a buffer whose length is not the format size. */
    | UnpackSizeMismatch(expected: nat, actual: nat)

  datatype Result<+T> = Ok(value: T) | Err(error: Error) {
    predicate IsFailure() { Err? }

    function PropagateFailure<U>(): Result<U>
      requires Err?
    {
      Err(error)
    }

    function Extract(): T
      requires Ok?
    {
      value
    }
  }
}
