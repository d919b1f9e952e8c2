/**
 * The pieces of the gRPC runtime the services observe: status codes and
 * status errors, the state of a request context, one receive on a stream,
 * and the shape of a Go map iteration order.
 */
module Grpc {
  import opened Wrappers

  /** The status codes the services return (a subset of gRPC's codes). */
  datatype Code =
    | OK
    | Canceled
    | Unknown
    | InvalidArgument
    | DeadlineExceeded
    | NotFound
    | AlreadyExists
    | PermissionDenied
    | Internal
    | Unauthenticated

  /** A status error as built by `status.Errorf`: a code and its message. */
  datatype Status = Status(code: Code, message: string)

  /** `codes.Code.String()`. */
  function CodeName(code: Code): string
  {
    match code
    case OK => "OK"
    case Canceled => "Canceled"
    case Unknown => "Unknown"
    case InvalidArgument => "InvalidArgument"
    case DeadlineExceeded => "DeadlineExceeded"
    case NotFound => "NotFound"
    case AlreadyExists => "AlreadyExists"
    case PermissionDenied => "PermissionDenied"
    case Internal => "Internal"
    case Unauthenticated => "Unauthenticated"
  }

  /** A status error printed with `%v`. */
  function ErrorText(s: Status): string
  {
    "rpc error: code = " + CodeName(s.code) + " desc = " + s.message
  }

  /** What `ctx.Err()` reports at the moment a handler looks at it. */
  datatype ContextState = Live | ContextCanceled | ContextDeadlineExceeded

  /** The result of one `stream.Recv()`: a message, end of stream, or another error. */
  datatype Recv<T> = Msg(msg: T) | EOF | RecvError(reason: string)

  /** Reading position `i` of a finite stream; everything past its end reads as EOF. */
  function RecvAt<T>(stream: seq<Recv<T>>, i: nat): Recv<T>
  {
    if i < |stream| then stream[i] else EOF
  }

  /** The index of the first failing call among the first n (`fails(i)` is the error of call i), or n when none fails. */
  function FirstFailure(fails: nat -> Option<string>, n: nat): (k: nat)
    ensures k <= n
    ensures forall i :: 0 <= i < k ==> fails(i).None?
    ensures k < n ==> fails(k).Some?
  {
    if n == 0 then 0
    else
      var k := FirstFailure(fails, n - 1);
      if k < n - 1 then k else if fails(n - 1).None? then n else n - 1
  }

  /** Every listed key is in the map. */
  predicate AllIn<K, V>(data: map<K, V>, keys: seq<K>)
  {
    forall i :: 0 <= i < |keys| ==> keys[i] in data
  }

  /** The metadata key that carries the access token. */
  const AuthorizationKey := "authorization"

  /** Each key listed at most once, as in a Go map iteration order. */
  predicate Distinct(keys: seq<string>)
  {
    forall i, j :: 0 <= i < j < |keys| ==> keys[i] != keys[j]
  }
}

/** Decimal rendering of a natural number, as `%d` prints it. */
module Fmt {
  function NatToString(n: nat): string
    decreases n
  {
    if n < 10 then ["0123456789"[n]] else NatToString(n / 10) + ["0123456789"[n % 10]]
  }
}

/** The store-level errors of package `service` (`ErrAlreadyExists` and wrapped failures). */
module StoreErrors {
  datatype Error = ErrAlreadyExists | Failed(message: string)

  /** The error's text, as `%v` prints it. */
  function Text(e: Error): string
  {
    match e
    case ErrAlreadyExists => "record already exists"
    case Failed(m) => m
  }
}
