/** Go and gRPC plumbing shared by every module: optional values, results with
    an error, the error values the handlers build and compare, bytes and the
    uint32 conversion used in responses. */
module Base {

  datatype Option<+T> = None | Some(value: T)

  /** A Go pair `(T, error)`: exactly one of the two is meaningful. */
  datatype Result<+T> = Success(value: T) | Failure(error: Error)

  /** The gRPC status codes this service returns (google.golang.org/grpc/codes). */
  datatype Code = Unknown | InvalidArgument | NotFound | AlreadyExists | Internal

  /** Go error values. The text of a message is not modelled, only what a
      caller can test: the status code, identity with a sentinel, wrapping. */
  datatype Error =
    | Status(code: Code)                      // status.Errorf(code, "...")
    | ErrAlreadyExists                        // the sentinel repository.ErrAlreadyExists
    | Opaque(reason: string)                  // an error made by a collaborator outside the model
    | Wrapped(context: string, cause: Error)  // fmt.Errorf("context: %w", cause)

  /** errors.Is: `err` is `target` or wraps it, directly or through a chain of `%w`. */
  predicate Is(err: Error, target: Error)
  {
    err == target || (err.Wrapped? && Is(err.cause, target))
  }

  newtype byte = x: int | 0 <= x < 256

  const UINT32_MODULUS: nat := 0x1_0000_0000

  /** Go's conversion `uint32(x)` of a non-negative int: keep the low 32 bits. */
  function Uint32(x: nat): (r: nat)
    ensures r < UINT32_MODULUS
    ensures x < UINT32_MODULUS ==> r == x
  {
    x % UINT32_MODULUS
  }
}
