/**
 * The gRPC status vocabulary the RPC layer borrows from tonic: `tonic::Code`
 * with its wire numbers, and `tonic::Status` (a code and a message).
 */
module Tonic {
  import opened Primitives

  datatype Code =
    | Ok | Cancelled | Unknown | InvalidArgument | DeadlineExceeded | NotFound
    | AlreadyExists | PermissionDenied | ResourceExhausted | FailedPrecondition
    | Aborted | OutOfRange | Unimplemented | Internal | Unavailable | DataLoss
    | Unauthenticated

  /** `code as i32`: the canonical gRPC number of a code. */
  function ToI32(c: Code): (n: int32)
    ensures 0 <= n <= 16
    ensures n == 0 <==> c == Ok
  {
    match c
    case Ok => 0
    case Cancelled => 1
    case Unknown => 2
    case InvalidArgument => 3
    case DeadlineExceeded => 4
    case NotFound => 5
    case AlreadyExists => 6
    case PermissionDenied => 7
    case ResourceExhausted => 8
    case FailedPrecondition => 9
    case Aborted => 10
    case OutOfRange => 11
    case Unimplemented => 12
    case Internal => 13
    case Unavailable => 14
    case DataLoss => 15
    case Unauthenticated => 16
  }

  /** `Code::from_i32`: a number outside 0..16 reads as Unknown. */
  function FromI32(n: int32): (c: Code)
    ensures 0 <= n <= 16 ==> ToI32(c) == n
    ensures !(0 <= n <= 16) ==> c == Unknown
    ensures c == Ok <==> n == 0
  {
    if n == 0 then Ok
    else if n == 1 then Cancelled
    else if n == 2 then Unknown
    else if n == 3 then InvalidArgument
    else if n == 4 then DeadlineExceeded
    else if n == 5 then NotFound
    else if n == 6 then AlreadyExists
    else if n == 7 then PermissionDenied
    else if n == 8 then ResourceExhausted
    else if n == 9 then FailedPrecondition
    else if n == 10 then Aborted
    else if n == 11 then OutOfRange
    else if n == 12 then Unimplemented
    else if n == 13 then Internal
    else if n == 14 then Unavailable
    else if n == 15 then DataLoss
    else if n == 16 then Unauthenticated
    else Unknown
  }

  /** A code survives the trip through its number. */
  lemma CodeRoundTrip(c: Code)
    ensures FromI32(ToI32(c)) == c
  {
  }

  datatype Status = Status(code: Code, message: string)
}
