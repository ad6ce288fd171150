/**
 * How an InvokeService call turns the invocation response returned by direct
 * messaging into the gRPC status the client sees and the response header that
 * carries the original HTTP status.
 *
 * A response whose status code is 100 or more is read as HTTP-style (the callee
 * spoke HTTP); a smaller code is a gRPC code number from a gRPC-native callee.
 */
module InvokeResponse {
  import opened Wrappers
  import Decimal
  import opened Rpc

  /** The request message handed on to the callee: method name and payload. */
  datatype InvokeRequest = InvokeRequest(methodName: string, data: string)

  /**
   * An invocation response: its numeric status code and status message, the
   * callee's own detail records, and the raw payload read as text.
   */
  datatype InvokeMethodResponse = InvokeMethodResponse(
    statusCode: int, statusMessage: string, details: seq<Detail>, data: string)

  /**
   * What the client observes: the status of the call, the response payload
   * (gRPC hands a payload to the client only with an OK status), and the HTTP
   * status header, if one was set.
   */
  datatype InvokeOutcome = InvokeOutcome(status: Status, data: Option<string>, httpStatusHeader: Option<string>)

  /** The payload reaches the client exactly when the status is OK. */
  function Respond(status: Status, payload: string, header: Option<string>): InvokeOutcome {
    InvokeOutcome(status, if status.code == OK then Some(payload) else None, header)
  }

  /** Name of the response header that carries the callee's HTTP status. */
  const DaprHttpStatusHeader := "dapr-http-status"

  const HttpCodeKey := "http.code"
  const HttpErrorMessageKey := "http.error_message"

  /**
   * The rule that tells the two kinds of callee apart: no gRPC wire number is
   * read as HTTP-style, and every HTTP status of RFC 7231 (100 to 599) is.
   */
  predicate IsHttpResponse(r: InvokeMethodResponse): (b: bool)
    ensures 0 <= r.statusCode < |CodeTable| ==> !b
    ensures 100 <= r.statusCode <= 599 ==> b
  {
    r.statusCode >= 100
  }

  /** The 2xx class of RFC 7231 section 6.3. */
  predicate IsHttpSuccess(code: int) {
    200 <= code < 300
  }

  /** HTTP status to gRPC code; only 404 has an entry here, every other code reads as Unknown. */
  function HttpToRpcCode(code: int): (c: Code)
    ensures c != OK
    ensures code == 404 ==> c == NotFound
  {
    if code == 404 then NotFound else Unknown
  }

  /**
   * The standard reason phrase of an HTTP status (RFC 7231 section 6.5.4 for
   * 404); codes without an entry get the empty text.
   */
  function StatusText(code: int): string {
    if code == 404 then "Not Found" else ""
  }

  /** The error-info record synthesized for a failing HTTP status. */
  function HttpErrorInfo(code: nat, payload: string): Detail {
    ErrorInfo(map[HttpCodeKey := Decimal.FromNat(code), HttpErrorMessageKey := payload])
  }

  /** `ErrorFromHTTPResponseCode`: nil for 2xx, otherwise a status with one error-info record. */
  function ErrorFromHttpResponseCode(code: nat, payload: string): (s: Status)
    ensures s.code == OK <==> IsHttpSuccess(code)
  {
    if IsHttpSuccess(code) then OkStatus
    else Status(HttpToRpcCode(code), StatusText(code), [HttpErrorInfo(code, payload)])
  }

  /** `ErrorFromInternalStatus`: the callee's gRPC status as it is; an OK code is a nil error. */
  function ErrorFromInternalStatus(code: int, message: string, details: seq<Detail>): (s: Status)
    ensures s.code == CodeFromNumber(code)
  {
    if CodeFromNumber(code) == OK then OkStatus
    else Status(CodeFromNumber(code), message, details)
  }

  /** The translation InvokeService applies to the response of direct messaging. */
  function InvokeServiceOutcome(r: InvokeMethodResponse): (out: InvokeOutcome)
    ensures out.httpStatusHeader.Some? <==> IsHttpResponse(r)
    ensures IsHttpResponse(r) ==> (out.status.code == OK <==> IsHttpSuccess(r.statusCode))
    ensures !IsHttpResponse(r) ==> out.status.code == CodeFromNumber(r.statusCode)
    ensures out.status.code == OK ==> out.data == Some(r.data)
    ensures out.status.code != OK ==> out.data.None?
  {
    if IsHttpResponse(r) then
      Respond(ErrorFromHttpResponseCode(r.statusCode, r.data), r.data,
              Some(Decimal.FromNat(r.statusCode)))
    else
      Respond(ErrorFromInternalStatus(r.statusCode, r.statusMessage, r.details), r.data, None)
  }

  /**
   * Every 2xx status is OK with an empty message and no details, whatever the
   * status text; the payload is returned and the header still carries the status.
   */
  lemma SuccessIsOk(r: InvokeMethodResponse)
    requires IsHttpSuccess(r.statusCode)
    ensures InvokeServiceOutcome(r).status == OkStatus
    ensures InvokeServiceOutcome(r).data == Some(r.data)
    ensures InvokeServiceOutcome(r).httpStatusHeader == Some(Decimal.FromNat(r.statusCode))
  {
  }

  /**
   * A failing HTTP status carries exactly one detail, an error-info record
   * holding the status as a decimal string and the payload as the error
   * message; the callee's own detail records are not passed on.
   */
  lemma HttpErrorHasOneErrorInfo(r: InvokeMethodResponse)
    requires IsHttpResponse(r) && !IsHttpSuccess(r.statusCode)
    ensures var s := InvokeServiceOutcome(r).status;
      && s.code != OK
      && |s.details| == 1
      && s.details[0].ErrorInfo?
      && s.details[0].metadata.Keys == {HttpCodeKey, HttpErrorMessageKey}
      && s.details[0].metadata[HttpCodeKey] == Decimal.FromNat(r.statusCode)
      && s.details[0].metadata[HttpErrorMessageKey] == r.data
  {
  }

  /** A 404 becomes NotFound with the reason phrase "Not Found", not the response's own status text. */
  lemma NotFoundTranslation(r: InvokeMethodResponse)
    requires r.statusCode == 404
    ensures InvokeServiceOutcome(r).status
         == Status(NotFound, "Not Found", [ErrorInfo(map[HttpCodeKey := "404", HttpErrorMessageKey := r.data])])
  {
    assert Decimal.FromNat(404) == "404";
  }

  /** A gRPC-native failure passes code, message and details through untouched, returns no payload and sets no HTTP header. */
  lemma NativePassThrough(r: InvokeMethodResponse)
    requires !IsHttpResponse(r) && CodeFromNumber(r.statusCode) != OK
    ensures InvokeServiceOutcome(r)
         == InvokeOutcome(Status(CodeFromNumber(r.statusCode), r.statusMessage, r.details), None, None)
  {
  }

  /**
   * Exactly one detail form per outcome: no details, the single synthesized
   * error-info record (HTTP-style), or the callee's records unchanged
   * (gRPC-native); never both.
   */
  lemma OneDetailForm(r: InvokeMethodResponse)
    ensures var d := InvokeServiceOutcome(r).status.details;
      || d == []
      || (IsHttpResponse(r) && d == [HttpErrorInfo(r.statusCode, r.data)])
      || (!IsHttpResponse(r) && d == r.details)
  {
  }

  /** A caller can recover the original HTTP status from the header, on success and failure alike. */
  lemma HeaderRecoversStatus(r: InvokeMethodResponse)
    requires IsHttpResponse(r)
    ensures var h := InvokeServiceOutcome(r).httpStatusHeader;
      h.Some? && Decimal.ParseNat(h.value) == Some(r.statusCode)
  {
    Decimal.ParseFromNat(r.statusCode);
  }

  /** The table of `TestInvokeServiceFromHTTPResponse`: 200, 201, 204 and 404. */
  lemma HttpResponseTable()
    ensures InvokeServiceOutcome(InvokeMethodResponse(200, "OK", [], ""))
         == InvokeOutcome(OkStatus, Some(""), Some("200"))
    ensures InvokeServiceOutcome(InvokeMethodResponse(201, "Accepted", [], ""))
         == InvokeOutcome(OkStatus, Some(""), Some("201"))
    ensures InvokeServiceOutcome(InvokeMethodResponse(204, "No Content", [], ""))
         == InvokeOutcome(OkStatus, Some(""), Some("204"))
    ensures InvokeServiceOutcome(InvokeMethodResponse(404, "NotFound", [], "fakeDirectMessageResponse"))
         == InvokeOutcome(
              Status(NotFound, "Not Found",
                     [ErrorInfo(map[HttpCodeKey := "404", HttpErrorMessageKey := "fakeDirectMessageResponse"])]),
              None, Some("404"))
  {
    assert Decimal.FromNat(200) == "200";
    assert Decimal.FromNat(201) == "201";
    assert Decimal.FromNat(204) == "204";
    assert Decimal.FromNat(404) == "404";
  }

  /** `TestInvokeServiceFromGRPCResponse`: code 12 with one resource-info record. */
  lemma GrpcResponseCase()
    ensures var info := ResourceInfo("sidecar", "invoke/service", "Dapr");
      InvokeServiceOutcome(InvokeMethodResponse(12, "Unimplemented", [info], "fakeDirectMessageResponse")).status
      == Status(Unimplemented, "Unimplemented", [info])
  {
  }
}
