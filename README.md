# Dapr gRPC API request handling, modelled in Dafny

This project models the request-handling decisions of Dapr's gRPC API
(`pkg/grpc`) as the test file `pkg/grpc/api_test.go` pins them down: the
API-token gate in front of the Dapr API server, the translation of a
direct-messaging response into the gRPC status InvokeService returns, the
per-store secret access policy of GetSecret, the validation of PublishEvent,
the error mapping of CallLocal, and the span-context serialization the file
itself implements. The handlers (`api.go`), the interceptor and `config` are
not part of this model; what is modelled is what the assertions of the test
file require of them.

Modules:

- `Wrappers`: `Option` and `Result`.
- `Decimal`: the decimal rendering of `strconv.Itoa` and `%d` for non-negative numbers, and its inverse.
- `Rpc`: gRPC codes with their wire numbers, detail records (error-info, resource-info, opaque), statuses.
- `SpanContext`: `SerializeSpanContext` with a parser proved to invert it, and `ExtractSpanContext`, whose bytes are tied to the serialized text character by character.
- `InvokeResponse`: HTTP-style and gRPC-native invocation responses and their translation.
- `ApiToken`: the token gate as a function of the configured token and the incoming metadata.
- `DaprApi`: the direct-messaging test double as a class with a call log, and the server whose InvokeService runs the gate and then forwards; plus one method per `TestAPIToken` subtest.
- `SecretAccess`: the secret scopes, the access decision and GetSecret.
- `Publish`: PublishEvent validation.
- `CallLocal`: CallLocal's error mapping.

Collaborators are parameters. The publish function, the secret store's lookup and the app channel are Dafny function values, so "the collaborator is not called" becomes "the outcome is the same whatever the collaborator does". Direct messaging is a class whose `Invoke` appends to a call log. This matches how the tests count calls with `AssertNumberOfCalls`.

Modelling choices where the tests leave room:

- The secret policy checks the denied list first, then a non-empty allowed list (which is exclusive), then the default. The tests force the exclusive allowed list: `store3` has default allow and allowed list `{"good-key"}`, yet `"random"` is refused (`pkg/grpc/api_test.go:646-649`, `:686-693`), so a non-empty allowed list never falls back to the default. No store sets both lists and no denied key is ever requested, so deny-over-allow precedence is a choice, not something the tests decide.
- A response status code of 100 or more is taken as HTTP-style and anything smaller as a gRPC code number. The tests show 200, 201, 204, 404 and 12 only; the dividing rule is a choice.
- Only the 2xx class counts as HTTP success. 1xx and 3xx statuses are read as failures: 302 gives Unknown with one error-info record. No test shows either class.
- The `dapr-http-status` header is set for HTTP-style responses only; the tests read it only there.
- CallLocal checks for the app channel before it checks the request; the two tests that reach those errors change one condition each, so either order fits them. A channel error that is a gRPC status error surfaces with its own code and message; any other error surfaces as Unknown with its text, which is how gRPC reports a plain error returned by a handler.
- A publish function error reaches the caller as Unknown with its text; the tests only use a publish function that succeeds.

## Model

| member | source | states |
|---|---|---|
| Decimal.FromNat | pkg/grpc/api_test.go:551 | the decimal text of a status is non-empty, all digits, and has no leading zero; it is one digit exactly for numbers below ten |
| Decimal.ParseFromNat | pkg/grpc/api_test.go:550-551 | reading the decimal text of a number back gives that number |
| Decimal.ParseNatSound | pkg/grpc/api_test.go:550-551 | a numeral that parses is exactly the rendering of the number it denotes |
| Decimal.FromNatInjective | pkg/grpc/api_test.go:551 | distinct numbers have distinct decimal texts |
| Rpc.CodeNumber | pkg/grpc/api_test.go:576 | each gRPC code has its wire number, the position of the code in the fixed code list (Unimplemented is 12) |
| Rpc.CodeFromNumber | pkg/grpc/api_test.go:575-576 | a wire number inside the enumeration names the code with that number; any other number reads as Unknown |
| Rpc.CodeNumberRoundTrip | pkg/grpc/api_test.go:575-576 | every code survives the trip through its wire number |
| SpanContext.SerializeSpanContext | pkg/grpc/api_test.go:105-108 | the text is non-empty and its `;`-separated fields are exactly the span id, the trace id and the decimal trace options |
| SpanContext.ParseSerialize | pkg/grpc/api_test.go:105-108 | the serialized text parses back to the same span context |
| SpanContext.SerializeParse | pkg/grpc/api_test.go:105-108 | every text the parser accepts is the serialization of the span context it yields |
| SpanContext.SerializeInjective | pkg/grpc/api_test.go:105-108 | distinct span contexts serialize to distinct texts |
| SpanContext.ExtractSpanContext | pkg/grpc/api_test.go:100-103 | the bytes are the character codes of the serialized text, one per character, and never empty (what the tracing tests at lines 230 and 247 rely on) |
| InvokeResponse.IsHttpResponse | pkg/grpc/api_test.go:575-576 | the rule separating the two kinds of callee: no gRPC wire number (0 to 16, such as the 12 at line 576) is read as HTTP-style, and every HTTP status from 100 to 599 is |
| InvokeResponse.HttpToRpcCode | pkg/grpc/api_test.go:503-507 | a failing HTTP status never maps to OK, and 404 maps to NotFound |
| InvokeResponse.StatusText | pkg/grpc/api_test.go:507 | the reason phrase of 404 is "Not Found" |
| InvokeResponse.ErrorFromHttpResponseCode | pkg/grpc/api_test.go:471-511 | an HTTP status yields code OK exactly when it is 2xx |
| InvokeResponse.ErrorFromInternalStatus | pkg/grpc/api_test.go:575-625 | a gRPC-native status keeps the code its wire number names |
| InvokeResponse.InvokeServiceOutcome | pkg/grpc/api_test.go:543-553 | the HTTP status header is set exactly for HTTP-style responses; an HTTP-style response is OK exactly when 2xx; a gRPC-native one keeps its code; the callee's payload is returned exactly when the status is OK |
| InvokeResponse.SuccessIsOk | pkg/grpc/api_test.go:479-502 | every 2xx status gives OK with empty message and no details, whatever the status text; the payload is returned and the header carries the status |
| InvokeResponse.HttpErrorHasOneErrorInfo | pkg/grpc/api_test.go:555-560 | a non-2xx HTTP status gives a non-OK code and exactly one detail, an error-info record whose `http.code` is the status in decimal and whose `http.error_message` is the payload; the callee's own details are dropped |
| InvokeResponse.NotFoundTranslation | pkg/grpc/api_test.go:503-510 | 404 gives NotFound with message "Not Found" (not the response's "NotFound") and the single error-info record with `http.code` "404" |
| InvokeResponse.NativePassThrough | pkg/grpc/api_test.go:616-625 | a failing gRPC-native response passes code, message and details through untouched, returns no payload and sets no HTTP header |
| InvokeResponse.OneDetailForm | pkg/grpc/api_test.go:555-560 | the details are empty, or the one synthesized error-info record for an HTTP-style response, or the callee's records for a gRPC-native one; never both forms |
| InvokeResponse.HeaderRecoversStatus | pkg/grpc/api_test.go:550-551 | for every HTTP-style response the header parses back to the original status, on success and failure alike |
| InvokeResponse.HttpResponseTable | pkg/grpc/api_test.go:471-561 | the four rows of the HTTP test table: 200, 201 and 204 are OK with their (empty) payload and headers "200", "201", "204"; 404 is NotFound "Not Found" with its error-info record and header "404" |
| InvokeResponse.GrpcResponseCase | pkg/grpc/api_test.go:575-625 | code 12 "Unimplemented" with one resource-info record gives Unimplemented, message "Unimplemented", and that record alone |
| ApiToken.GateInstalled | pkg/grpc/api_test.go:186-190 | the gate exists exactly for a non-empty configured token |
| ApiToken.OnlyTokenKeyMatters | pkg/grpc/api_test.go:188 | the gate reads only the fixed key `dapr-api-token`: adding or changing any other metadata entry leaves its verdict unchanged |
| ApiToken.Authenticate | pkg/grpc/api_test.go:186-190 | a rejected call is always Unauthenticated |
| ApiToken.AdmitsExactlyTheToken | pkg/grpc/api_test.go:410-418 | with a token configured, a call passes exactly when the first value under `dapr-api-token` in its metadata equals that token |
| ApiToken.NoTokenNoGate | pkg/grpc/api_test.go:186-190 | with the empty token no gate is installed and every call passes |
| ApiToken.TestApiTokenCases | pkg/grpc/api_test.go:331-459 | against "1234": metadata "1234" passes, "4567" is rejected, no token is rejected |
| DaprApi.MockDirectMessaging.constructor | pkg/grpc/api_test.go:323 | a new double holds the canned response and an empty call log |
| DaprApi.MockDirectMessaging.ResetCalls | pkg/grpc/api_test.go:338 | the call log is emptied |
| DaprApi.MockDirectMessaging.Invoke | pkg/grpc/api_test.go:339-342 | the call is appended to the log and the canned response returned |
| DaprApi.MockDirectMessaging.NumberOfCalls | pkg/grpc/api_test.go:367 | the count `AssertNumberOfCalls` checks (lines 367, 415, 455) is the length of the call log |
| DaprApi.DaprApiServer.constructor | pkg/grpc/api_test.go:182-204 | the server keeps the configured token and its direct messaging |
| DaprApi.DaprApiServer.InvokeService | pkg/grpc/api_test.go:364-367 | an admitted call reaches direct messaging exactly once with the request's app id and message and returns the translated response; a rejected call is Unauthenticated, returns no payload, sets no header and leaves the call log as it was |
| DaprApi.RunApiTokenCase | pkg/grpc/api_test.go:331-459 | with token "1234" and a fresh log: presenting "1234" leaves one call and NotFound "Not Found" with the 404 error-info record; anything else leaves zero calls and Unauthenticated |
| DaprApi.ValidTokenCase | pkg/grpc/api_test.go:331-377 | one call; NotFound, "Not Found", one error-info detail with `http.code` "404" and `http.error_message` "fakeDirectMessageResponse" |
| DaprApi.InvalidTokenCase | pkg/grpc/api_test.go:379-419 | zero calls; Unauthenticated |
| DaprApi.MissingTokenCase | pkg/grpc/api_test.go:421-459 | zero calls; Unauthenticated |
| DaprApi.NoTokenCase | pkg/grpc/api_test.go:527-547 | with the empty token any metadata leads to one call and the translated response |
| SecretAccess.IsSecretAllowed | pkg/grpc/api_test.go:637-650 | a scope allows a key only when it is not denied and, for a non-empty allowed list, is on it; it refuses only a denied key, a key under a non-empty allowed list, or a key under default deny |
| SecretAccess.IsAllowed | pkg/grpc/api_test.go:651-655 | a store without a scope allows every key; a configured store gives its scope's verdict |
| SecretAccess.UnconfiguredStoreAllowsAll | pkg/grpc/api_test.go:655 | a store without a scope allows every key |
| SecretAccess.DeniedKeyIsRefused | pkg/grpc/api_test.go:638-641 | a key on the store's denied list is refused |
| SecretAccess.AllowListIsExclusive | pkg/grpc/api_test.go:646-649 | a non-empty allowed list admits exactly its members among keys not denied, even when the default is allow |
| SecretAccess.DefaultDecides | pkg/grpc/api_test.go:638-641 | without an allowed list, a key not denied is allowed exactly when the default is allow (store1's good-key); no test has a default-deny store without an allowed list, since store2's refusal of random comes from its allowed list |
| SecretAccess.GetSecret | pkg/grpc/api_test.go:735-743 | the call fails exactly when the policy refuses the key, then with PermissionDenied and no details; otherwise it returns the store's data for the key unchanged |
| SecretAccess.RefusedLookupIgnoresStore | pkg/grpc/api_test.go:740-743 | a refused lookup has the same outcome whatever the store holds, so the store is not consulted |
| SecretAccess.TestGetSecretCases | pkg/grpc/api_test.go:657-745 | the test table: good-key from store4, store1 and store3 gives "life is good"; random from store3 and store2 gives PermissionDenied |
| Publish.PublishEvent | pkg/grpc/api_test.go:813-825 | a missing pub/sub name or topic gives InvalidArgument; the call is OK exactly when both are set and the publish function, given the request's name, topic and data, returns no error; that function's error reaches the caller as Unknown with its text |
| Publish.ValidationPrecedesPublish | pkg/grpc/api_test.go:813-819 | an incomplete request has the same outcome whatever the publish function does, so it is not called |
| Publish.TestPublishTopicCases | pkg/grpc/api_test.go:799-826 | the empty request fails, the request with only a pub/sub name fails, the complete one is OK |
| CallLocal.ChannelErrorStatus | pkg/grpc/api_test.go:296 | a status error keeps its status, whose code is never OK (an OK status makes no error); any other error becomes Unknown with its text |
| CallLocal.CallLocal | pkg/grpc/api_test.go:250-311 | no app channel gives Internal; a missing inner message gives InvalidArgument; otherwise the channel's response is returned unchanged and its error surfaces with the status gRPC gives it |
| CallLocal.MalformedRequestIgnoresChannel | pkg/grpc/api_test.go:270-290 | a request without inner message has the same outcome whatever the channel does |
| CallLocal.ChannelErrorSurfaces | pkg/grpc/api_test.go:292-311 | a failing channel call fails CallLocal with the channel's own code and message, or with Unknown and the error text for an error that is not a status |
| CallLocal.TestCallLocalCases | pkg/grpc/api_test.go:250-311 | the three subtests: Internal, InvalidArgument, Unknown |

## Left out

- Server and client plumbing (listeners, goroutines, sleeps, free ports, dialing) at `pkg/grpc/api_test.go:115-212`: I/O and concurrency. A server is a `DaprApiServer` object and a call is a method call.
- The trace exporter and the tracing interceptor (`pkg/grpc/api_test.go:110-113`, `:126-129`): library code. Span and trace ids are taken as already rendered lowercase hex of 8 and 16 bytes.
- The `mockGRPCAPI` handlers (`pkg/grpc/api_test.go:52-98`) and the tests that only reach them (SaveState, GetState, DeleteState, InvokeBinding, ExecuteStateTransaction, the two tracing tests): they return empty successes unconditionally and constrain no decision. The state-transaction translator is not modelled, and neither is the unused state-options fixture at `:882-895`.
- `api.go`, the interceptor and `config` are not part of this model. Only their observable decisions are modelled, as the tests show them.
- InvokeResponse.HttpToRpcCode: only 404 has an entry, and every other failing HTTP status reads as Unknown. The tests show no other entry of the HTTP-to-gRPC table.
- InvokeResponse.StatusText: only the 404 reason phrase is modelled. Other codes get the empty text, which is what Go's `http.StatusText` gives a code it does not know.
- Error-info records keep only their metadata map. The reason and domain fields are never asserted.
- Protobuf `Any` packing of details (`mustMarshalAny`, `pkg/grpc/api_test.go:314-320`): library code. Details are values of a datatype.
- Response payloads are text. The byte/string conversions in the tests are identities on the ASCII data they use.
- The messages of the Unauthenticated, InvalidArgument, Internal and PermissionDenied errors the model produces are empty, because no test reads them.
- GetSecret when the named store is not registered, and a secret store that returns an error: every test store is registered and no test asks the store for a key that fails. The model is given the named store's lookup.
- InvokeService when direct messaging itself returns an error, or when the request has no message: the tests never produce either.
- PublishEvent when no publish function is configured: every test configures one.
- The default access of a scope is two-valued. The text form of that setting, and how unrecognised text is read, belong to `config`.
- Metadata key case-folding: the token key is already lower case.
- Cancellation and deadlines: nothing in the tests exercises them.
