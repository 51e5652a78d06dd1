/** Results, errors and dispositions exchanged between the HTTP client layers. */
module HttpTypes {
  import opened Base

  datatype Protocol = Http1 | Http2

  /** What is known about the peer having acted on a request. */
  datatype Disposition = NotSent | NotProcessed | PossiblyProcessed

  datatype ErrorCode =
    | Eof | ConnectionReset | ConnectionRefused | ConnectionAborted
    | NetworkUnreachable | HostUnreachable | BrokenPipe
    | TimedOut | OperationAborted | Http2StreamError | Http2ConnectionError
    | ResourceLimitExceeded | InvalidConfiguration | OtherError

  datatype Http2Info = Http2Info(code: nat, streamId: nat)

  datatype NetError = NetError(code: ErrorCode, http2: Option<Http2Info>)

  datatype Result = Result(
    error: Option<NetError>,
    status: nat,
    body: seq<char>,
    trailers: seq<char>,
    protocol: Protocol,
    disposition: Disposition)

  const REFUSED_STREAM := 7
  const NO_ERROR := 0
  const MAX_STREAM_ID := 0x7fff_ffff

  function Aborted(): NetError { NetError(OperationAborted, None) }

  function Deadline(): NetError { NetError(TimedOut, None) }

  /** A result that says the request never left the client. */
  function Unsent(error: NetError, protocol: Protocol): Result {
    Result(Some(error), 0, [], [], protocol, NotSent)
  }
}
