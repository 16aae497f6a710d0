/** Error values and the failure-carrying result type shared by every entry
    point of the matrix profile package. Each `Error` constructor stands for
    one kind of error the Go source returns (several call sites may share
    one), or for a run-time panic. */
module Results {

  /** Go's `math.MaxInt64`, the "no neighbour yet" sentinel of a profile index. */
  const MaxInt64: int := 0x7FFF_FFFF_FFFF_FFFF

  datatype Option<+T> = None | Some(value: T)

  datatype Error =
    | EmptyData              // zNormalize: slice does not have any data
    | ZeroStd                // zNormalize: standard deviation is zero
    | WindowTooShort         // movstd: m <= 1
    | WindowTooLong          // movstd: m >= len(ts)
    | QueryTooShort          // slidingDotProduct / Mass: query shorter than 2
    | QueryTooLong           // slidingDotProduct / Mass: 2*m >= n
    | LengthMismatch         // multComplexSlice: operands of different lengths
    | StdDotMismatch         // Mass: rolling std and dot product lengths differ
    | IndexOutOfRange        // distanceProfile: idx+m beyond the end of a
    | EmptyFirst             // Stmp / Stamp: first series nil or empty
    | EmptySecond            // Stmp / Stamp: second series non-nil but empty
    | ProfileLengthMismatch  // Stmp / Stamp: distance profile and matrix profile lengths differ
    | ZeroSample             // Stamp: sample == 0
    | Panic                  // a Go run-time panic: negative make length, slice or index out of range

  datatype Result<+T> = Success(value: T) | Failure(error: Error) {
    predicate IsFailure() { Failure? }

    function PropagateFailure<U>(): Result<U>
      requires Failure?
    {
      Failure(error)
    }

    function Extract(): T
      requires Success?
    {
      value
    }
  }
}
