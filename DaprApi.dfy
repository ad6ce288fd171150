/**
 * The Dapr API server as `TestAPIToken` and the InvokeService tests drive it:
 * the token gate in front of InvokeService, which forwards to direct
 * messaging and translates the response it gets back.
 */
module DaprApi {
  import opened Wrappers
  import opened Rpc
  import opened InvokeResponse
  import opened ApiToken

  /** One recorded call of direct messaging: destination app id and request. */
  datatype Call = Call(appId: string, request: InvokeRequest)

  /**
   * The direct-messaging double of the tests: it answers every Invoke with the
   * response it was set up with and records each call.
   */
  class MockDirectMessaging {
    var calls: seq<Call>
    const response: InvokeMethodResponse

    constructor (response: InvokeMethodResponse)
      ensures this.response == response && calls == []
    {
      this.response := response;
      calls := [];
    }

    /** `mockDirectMessaging.Calls = nil`. */
    method ResetCalls()
      modifies this
      ensures calls == []
    {
      calls := [];
    }

    method Invoke(appId: string, request: InvokeRequest) returns (resp: InvokeMethodResponse)
      modifies this
      ensures calls == old(calls) + [Call(appId, request)]
      ensures resp == response
    {
      calls := calls + [Call(appId, request)];
      resp := response;
    }

    /** `AssertNumberOfCalls(t, "Invoke", n)` checks this count. */
    function NumberOfCalls(): nat
      reads this
    {
      |calls|
    }
  }

  datatype InvokeServiceRequest = InvokeServiceRequest(id: string, message: InvokeRequest)

  /** A server started by `startDaprAPIServer(port, api, token)`. */
  class DaprApiServer {
    const apiToken: string
    const directMessaging: MockDirectMessaging

    constructor (apiToken: string, directMessaging: MockDirectMessaging)
      ensures this.apiToken == apiToken && this.directMessaging == directMessaging
    {
      this.apiToken := apiToken;
      this.directMessaging := directMessaging;
    }

    /**
     * An admitted call reaches direct messaging exactly once, with the
     * request's app id and message, and the client sees the translated
     * response; a rejected call is Unauthenticated, returns no payload, sets no header and leaves
     * direct messaging untouched.
     */
    method InvokeService(md: Metadata, req: InvokeServiceRequest) returns (out: InvokeOutcome)
      modifies directMessaging
      ensures Authenticate(apiToken, md).None? ==>
        && directMessaging.calls == old(directMessaging.calls) + [Call(req.id, req.message)]
        && out == InvokeServiceOutcome(directMessaging.response)
      ensures Authenticate(apiToken, md).Some? ==>
        && directMessaging.calls == old(directMessaging.calls)
        && out.status.code == Unauthenticated
        && out.data.None? && out.httpStatusHeader.None?
    {
      var rejection := Authenticate(apiToken, md);
      if rejection.Some? {
        out := InvokeOutcome(rejection.value, None, None);
      } else {
        var resp := directMessaging.Invoke(req.id, req.message);
        out := InvokeServiceOutcome(resp);
      }
    }
  }

  /** The 404 response every `TestAPIToken` subtest sets up. */
  const FakeNotFoundResponse: InvokeMethodResponse :=
    InvokeMethodResponse(404, "NotFound", [], "fakeDirectMessageResponse")

  const FakeRequest: InvokeServiceRequest :=
    InvokeServiceRequest("fakeAppID", InvokeRequest("fakeMethod", "testData"))

  /**
   * Runs one `TestAPIToken` subtest: a server with token "1234", a fresh call
   * log, one InvokeService call with the given metadata; returns the status
   * and the number of direct-messaging calls afterwards.
   */
  method RunApiTokenCase(md: Metadata) returns (status: Status, calls: nat)
    ensures PresentedToken(md) == Some("1234") ==>
      calls == 1 && status == Status(NotFound, "Not Found",
        [ErrorInfo(map[HttpCodeKey := "404", HttpErrorMessageKey := "fakeDirectMessageResponse"])])
    ensures PresentedToken(md) != Some("1234") ==> calls == 0 && status.code == Unauthenticated
  {
    var dm := new MockDirectMessaging(FakeNotFoundResponse);
    var server := new DaprApiServer("1234", dm);
    dm.ResetCalls();
    var out := server.InvokeService(md, FakeRequest);
    NotFoundTranslation(FakeNotFoundResponse);
    status, calls := out.status, dm.NumberOfCalls();
  }

  /** Valid token "1234": one backend call, NotFound "Not Found" with one error-info record. */
  method ValidTokenCase() returns (status: Status, calls: nat)
    ensures calls == 1 && status.code == NotFound && status.message == "Not Found"
    ensures |status.details| == 1 && status.details[0].ErrorInfo?
    ensures status.details[0].metadata
         == map[HttpCodeKey := "404", HttpErrorMessageKey := "fakeDirectMessageResponse"]
  {
    status, calls := RunApiTokenCase(map[ApiTokenHeader := ["1234"]]);
  }

  /** Invalid token "4567": Unauthenticated, no backend call. */
  method InvalidTokenCase() returns (status: Status, calls: nat)
    ensures calls == 0 && status.code == Unauthenticated
  {
    status, calls := RunApiTokenCase(map[ApiTokenHeader := ["4567"]]);
  }

  /** No token metadata: Unauthenticated, no backend call. */
  method MissingTokenCase() returns (status: Status, calls: nat)
    ensures calls == 0 && status.code == Unauthenticated
  {
    status, calls := RunApiTokenCase(map[]);
  }

  /**
   * A server started with the empty token (as the InvokeService tests do)
   * installs no gate: any metadata reaches direct messaging once and the
   * client sees the translated response.
   */
  method NoTokenCase(md: Metadata, response: InvokeMethodResponse) returns (out: InvokeOutcome, calls: nat)
    ensures calls == 1 && out == InvokeServiceOutcome(response)
  {
    var dm := new MockDirectMessaging(response);
    var server := new DaprApiServer("", dm);
    dm.ResetCalls();
    out := server.InvokeService(md, FakeRequest);
    calls := dm.NumberOfCalls();
  }
}
