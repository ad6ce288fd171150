/**
 * CallLocal, the peer-facing call that hands an internal invoke request to the
 * local application through the app channel.
 */
module CallLocal {
  import opened Wrappers
  import opened Rpc
  import opened InvokeResponse

  /** An internal invoke request; its inner message may be absent. */
  datatype InternalInvokeRequest = InternalInvokeRequest(message: Option<InvokeRequest>)

  /** A status that `status.Error` turns into an error: its code is not OK (an OK status makes a nil error). */
  type ErrorStatus = s: Status | s.code != OK witness Status(Unknown, "", [])

  /** An error from the app channel: a gRPC status error, or any other error with its text. */
  datatype ChannelError = StatusError(status: ErrorStatus) | PlainError(text: string)

  /** The app channel's InvokeMethod. */
  type AppChannel = InvokeRequest -> Result<InvokeMethodResponse, ChannelError>

  /** How gRPC reports an error a handler returns: a status error as it is, any other as Unknown with its text. */
  function ChannelErrorStatus(e: ChannelError): (s: Status)
    ensures e.StatusError? ==> s == e.status
    ensures e.PlainError? ==> s.code == Unknown && s.message == e.text
    ensures s.code != OK
  {
    match e
    case StatusError(status) => status
    case PlainError(text) => Error(Unknown, text)
  }

  /**
   * No app channel: Internal. No inner message: InvalidArgument. Otherwise the
   * channel's response is returned unchanged, and a channel error surfaces with
   * the status gRPC gives it.
   */
  function CallLocal(appChannel: Option<AppChannel>, req: InternalInvokeRequest)
    : (r: Result<InvokeMethodResponse, Status>)
    ensures appChannel.None? ==> r.Failure? && r.error.code == Internal
    ensures appChannel.Some? && req.message.None? ==> r.Failure? && r.error.code == InvalidArgument
    ensures r.Failure? ==> r.error.code != OK
    ensures appChannel.Some? && req.message.Some? ==>
      match appChannel.value(req.message.value)
      case Success(resp) => r == Success(resp)
      case Failure(e) => r == Failure(ChannelErrorStatus(e))
  {
    match appChannel
    case None => Failure(Error(Internal, ""))
    case Some(channel) =>
      match req.message
      case None => Failure(Error(InvalidArgument, ""))
      case Some(m) =>
        match channel(m)
        case Success(resp) => Success(resp)
        case Failure(e) => Failure(ChannelErrorStatus(e))
  }

  /** A malformed request is refused before the channel is called: its outcome does not depend on the channel. */
  lemma MalformedRequestIgnoresChannel(c1: AppChannel, c2: AppChannel, req: InternalInvokeRequest)
    requires req.message.None?
    ensures CallLocal(Some(c1), req) == CallLocal(Some(c2), req)
  {
  }

  /** A channel error surfaces with its own code and message; one that is not a status error as Unknown. */
  lemma ChannelErrorSurfaces(channel: AppChannel, m: InvokeRequest)
    requires channel(m).Failure?
    ensures var r := CallLocal(Some(channel), InternalInvokeRequest(Some(m)));
      && r.Failure?
      && (channel(m).error.StatusError? ==>
            r.error.code == channel(m).error.status.code && r.error.message == channel(m).error.status.message)
      && (channel(m).error.PlainError? ==> r.error.code == Unknown && r.error.message == channel(m).error.text)
  {
  }

  /** The three subtests of `TestCallLocal`. */
  lemma TestCallLocalCases()
    ensures var request := InternalInvokeRequest(Some(InvokeRequest("method", "")));
      var failing: AppChannel := _ => Failure(StatusError(Error(Unknown, "unknown error")));
      && CallLocal(None, request).error.code == Internal
      && CallLocal(Some(failing), InternalInvokeRequest(None)).error.code == InvalidArgument
      && CallLocal(Some(failing), request).error.code == Unknown
  {
  }
}
