/**
 * The gRPC status model: the fixed code enumeration with its wire numbers,
 * structured detail records and the status an RPC call ends with.
 */
module Rpc {

  /** The gRPC status codes, in wire-number order (OK is 0, Unauthenticated is 16). */
  datatype Code =
    | OK | Canceled | Unknown | InvalidArgument | DeadlineExceeded | NotFound
    | AlreadyExists | PermissionDenied | ResourceExhausted | FailedPrecondition
    | Aborted | OutOfRange | Unimplemented | Internal | Unavailable | DataLoss
    | Unauthenticated

  const CodeTable: seq<Code> := [
    OK, Canceled, Unknown, InvalidArgument, DeadlineExceeded, NotFound,
    AlreadyExists, PermissionDenied, ResourceExhausted, FailedPrecondition,
    Aborted, OutOfRange, Unimplemented, Internal, Unavailable, DataLoss,
    Unauthenticated]

  /** The wire number of a code. */
  function CodeNumber(c: Code): (n: nat)
    ensures n < |CodeTable| && CodeTable[n] == c
  {
    match c
    case OK => 0               case Canceled => 1          case Unknown => 2
    case InvalidArgument => 3  case DeadlineExceeded => 4  case NotFound => 5
    case AlreadyExists => 6    case PermissionDenied => 7  case ResourceExhausted => 8
    case FailedPrecondition => 9  case Aborted => 10       case OutOfRange => 11
    case Unimplemented => 12   case Internal => 13         case Unavailable => 14
    case DataLoss => 15        case Unauthenticated => 16
  }

  /** The code a wire number stands for; a number outside the enumeration reads as Unknown. */
  function CodeFromNumber(n: int): (c: Code)
    ensures 0 <= n < |CodeTable| ==> CodeNumber(c) == n
    ensures !(0 <= n < |CodeTable|) ==> c == Unknown
  {
    if 0 <= n < |CodeTable| then CodeTable[n] else Unknown
  }

  /** Every code survives the trip through its wire number. */
  lemma CodeNumberRoundTrip(c: Code)
    ensures CodeFromNumber(CodeNumber(c)) == c
  {
  }

  /**
   * A structured detail record attached to a failing status (a `google.rpc`
   * message packed in an `Any`). Error-info carries its metadata map;
   * resource-info its three descriptive fields; anything else stays opaque.
   */
  datatype Detail =
    | ErrorInfo(metadata: map<string, string>)
    | ResourceInfo(resourceType: string, resourceName: string, owner: string)
    | Opaque(typeUrl: string, value: seq<bv8>)

  /** What the client reads back from `status.FromError(err)`. */
  datatype Status = Status(code: Code, message: string, details: seq<Detail>)

  /** A nil error: code OK, no message, no details. */
  const OkStatus := Status(OK, "", [])

  /** An error status carrying no detail records. */
  function Error(code: Code, message: string): Status {
    Status(code, message, [])
  }
}
