/**
 * The API-token gate: a unary interceptor that `startDaprAPIServer` installs
 * only when the configured token is non-empty, and that admits a call only
 * when the incoming metadata key `dapr-api-token` carries exactly that token.
 */
module ApiToken {
  import opened Wrappers
  import opened Rpc

  /** Incoming gRPC metadata: each key with its list of values. */
  type Metadata = map<string, seq<string>>

  const ApiTokenHeader := "dapr-api-token"

  /** The interceptor exists only for a non-empty configured token. */
  predicate GateInstalled(apiToken: string) {
    apiToken != ""
  }

  /** The first value the caller sent under the token key, if any. */
  function PresentedToken(md: Metadata): Option<string> {
    if ApiTokenHeader in md && |md[ApiTokenHeader]| > 0 then Some(md[ApiTokenHeader][0]) else None
  }

  /**
   * The gate's verdict: None lets the call through to its handler; Some(status)
   * rejects it with that status.
   */
  function Authenticate(apiToken: string, md: Metadata): (rejection: Option<Status>)
    ensures rejection.Some? ==> rejection.value.code == Unauthenticated
  {
    if !GateInstalled(apiToken) then None
    else match PresentedToken(md)
      case None => Some(Error(Unauthenticated, ""))
      case Some(t) => if t == apiToken then None else Some(Error(Unauthenticated, ""))
  }

  /** With a token configured, a call passes exactly when the first value it sends under the token key is that token. */
  lemma AdmitsExactlyTheToken(apiToken: string, md: Metadata)
    requires GateInstalled(apiToken)
    ensures Authenticate(apiToken, md).None?
        <==> ApiTokenHeader in md && |md[ApiTokenHeader]| > 0 && md[ApiTokenHeader][0] == apiToken
  {
  }

  /** The gate reads only the token key: any other metadata entry leaves its verdict unchanged. */
  lemma OnlyTokenKeyMatters(apiToken: string, md: Metadata, k: string, v: seq<string>)
    requires k != ApiTokenHeader
    ensures Authenticate(apiToken, md[k := v]) == Authenticate(apiToken, md)
  {
    assert PresentedToken(md[k := v]) == PresentedToken(md);
  }

  /** With no token configured, no gate is installed and every call passes. */
  lemma NoTokenNoGate(md: Metadata)
    ensures Authenticate("", md).None?
  {
  }

  /** The three metadata situations of `TestAPIToken`, against the token "1234". */
  lemma TestApiTokenCases()
    ensures Authenticate("1234", map[ApiTokenHeader := ["1234"]]).None?
    ensures Authenticate("1234", map[ApiTokenHeader := ["4567"]]).Some?
    ensures Authenticate("1234", map[]).Some?
  {
  }
}
