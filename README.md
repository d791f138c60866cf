# RFC 7807 error-translating middleware, modelled in Dafny

This project models the goa middleware in `middleware/rfc7807_handler.go`. The middleware
runs the next handler. When that handler returns an error, the middleware turns the error into
an RFC 7807 "Problem Details for HTTP APIs" response (section 3.1 of RFC 7807).

- **Cause unwrapping.** `cause` follows `Cause()` links. It stops at an error that is not a
  causer, or whose cause is nil.
- **Classification.** Suppose the root cause is a `goa.ServiceError`. Then it keeps its own
  status and is itself the body. Its token becomes the response `ErrorCode`, and the
  Content-Type is `application/problem+json`. Any other root cause gives status 500, with the
  outer error's text as a `text/plain` body.
- **The 500 path.**
  - It reuses the request id from the context, or stores a fresh one.
  - It logs one "uncaught error" record.
  - When not verbose, it replaces the body with a problem record. That record's detail is
    `Internal Server Error [<id>]`, and its `TraceID` is the response `ErrorCode` when that is
    non-empty.
- **Send.** The status and the body go to `Send`, and `Send`'s error is returned.

Files:

- `errors.dfy` (module `Errors`) holds the following.
  - Go error values as an inductive datatype. It records the text, the `%+v` rendering,
    whether the error is a service error and whether it is a causer, so a cause chain is always
    finite.
  - The cause chain and the root cause as functions.
  - `FindCause`, the unwrap loop, proved equal to the root cause.
  - Lemmas about the chain.
- `rfc7807_handler.dfy` (module `Rfc7807Handler`) holds the following.
  - The `Rfc7807Response` record, the bodies, the log records and the `Send` calls.
  - The class `RequestState`. Its fields are the request id in the context, the shared
    response's `ErrorCode`, the Content-Type header, the log and the `Send` calls. Its
    `Translate` method is the handler closure, written step by step as the source is. It is
    proved equal to the specification function `Handle`.
  - Lemmas about `Handle` / `HandleError` for each rule above.

The collaborators the model does not contain are parameters of type `Env`:

- the id `shortID()` returns;
- the `TraceID` that `goa.ErrInternal` puts in a new record;
- the error `service.Send` returns.

### Behaviour worth knowing

- **Client `TraceID` versus logged id.** After redaction, the client's `TraceID` is never taken
  from the logged request id. Line 76 sets it to the response `ErrorCode`: this error's token on
  the service path, and whatever an earlier stage left on the opaque path. When `ErrorCode` is
  empty, it stays as `goa.ErrInternal` made it. The logged id is certain to reach the client
  only inside `detail`.
  - `RedactedDetailNamesLoggedId` proves that the detail names the logged id.
  - `TraceIdCanDifferFromLoggedId` exhibits a case where `TraceID` and the logged id differ.
- **`ErrorCode` on the opaque path.** Only the service-error branch writes `ErrorCode`. On the
  opaque 500 path, line 75 reads whatever an earlier stage left in the shared response, and the
  model does the same.
- **Cyclic cause chains.** The Go loop has no guard against a cyclic cause chain and would not
  terminate on one. The inductive datatype cannot express such a chain.

## Model

| member | source | states |
|---|---|---|
| `Errors.RootCause` | middleware/rfc7807_handler.go:96-111 | the result is an error at which unwrapping stops (not a causer, or nil cause); an argument at which unwrapping stops is returned unchanged |
| `Errors.FindCause` | middleware/rfc7807_handler.go:100-110 | the `for` loop following `Cause()` returns the root cause, and that result lies on the input's cause chain |
| `Errors.CauseIdempotent` | middleware/rfc7807_handler.go:96-111 | unwrapping the result of unwrapping gives the same error |
| `Errors.RootCauseEndsChain` | middleware/rfc7807_handler.go:100-110 | the root cause is the last error of the cause chain; every earlier error on it is a causer with a non-nil cause, so the loop stops at the first stopping point |
| `Errors.WrapperIsSeenThrough` | middleware/rfc7807_handler.go:101-109 | a causer with a non-nil cause has the root cause of that cause, even when the wrapper is itself a service error |
| `Errors.RootCauseOfWrap` | middleware/rfc7807_handler.go:96-111 | under any number of wrapping layers the root cause is that of the inner error, while the outer error keeps its own text |
| `Rfc7807Handler.Classify` | middleware/rfc7807_handler.go:50-61 | a status other than 500 arises only from a service-error root; a token is recorded exactly when the root is a service error; the content type is `application/problem+json` exactly then; a service-error root gives its own `ResponseStatus()`, itself as the body and its `Token()`; a root that is not a service error gives status 500, `text/plain` and the OUTER error's text as the body |
| `Rfc7807Handler.RequestState.Translate` | middleware/rfc7807_handler.go:45-81 | the new request id, `ErrorCode`, Content-Type, log and `Send` calls, and the returned error, are those of `Handle` on the old state |
| `Rfc7807Handler.RequestState.LogError` | middleware/rfc7807_handler.go:68 | appends exactly one log record with the given tag, formatted error, id and body |
| `Rfc7807Handler.RequestState.Send` | middleware/rfc7807_handler.go:80 | records one call with the context's request id, the status and the body, and returns the sender's error |
| `Rfc7807Handler.NilIsNoOp` | middleware/rfc7807_handler.go:46-49 | a nil error from the wrapped handler returns nil and leaves id, `ErrorCode`, Content-Type, log and sends unchanged |
| `Rfc7807Handler.SendCalledOnce` | middleware/rfc7807_handler.go:80 | for every non-nil error `Send` is called exactly once, after all earlier calls, with the classified status and the context's id, and its error is returned |
| `Rfc7807Handler.ServiceErrorKeepsStatus` | middleware/rfc7807_handler.go:53-69 | a service-error root's `ResponseStatus()` is the status sent and its `Token()` becomes the response `ErrorCode`, in both verbosity modes; with status 500 the service error itself is the logged body, and when verbose also the sent body |
| `Rfc7807Handler.ServiceErrorPassesThrough` | middleware/rfc7807_handler.go:53-62 | a service-error root with a status other than 500 is sent as the body itself under `application/problem+json`, with nothing logged |
| `Rfc7807Handler.OpaqueErrorIsInternal` | middleware/rfc7807_handler.go:51-68 | a root that is not a service error gives status 500; the logged body is the outer error's `Error()` text; `ErrorCode` is untouched; when verbose that text is sent as `text/plain` |
| `Rfc7807Handler.NonInternalIsNotLogged` | middleware/rfc7807_handler.go:62-80 | any status other than 500 creates no request id, logs nothing, and sends the classified body and content type unchanged |
| `Rfc7807Handler.InternalIsLoggedOnce` | middleware/rfc7807_handler.go:62-68 | status 500 reuses the context's id or stores the fresh one, appends exactly one "uncaught error" record holding the formatted outer error, that id and the pre-redaction body, and passes that id to `Send` |
| `Rfc7807Handler.RedactedDetailNamesLoggedId` | middleware/rfc7807_handler.go:69-77 | status 500 without verbosity sends a status-500 problem record under `application/problem+json`; its detail is `Internal Server Error [<id>]` with the very id logged; its `TraceID` is a non-empty `ErrorCode`, else left as `goa.ErrInternal` made it |
| `Rfc7807Handler.VerboseSendsClassifiedBody` | middleware/rfc7807_handler.go:69-80 | status 500 with verbosity sends the classified body and content type unmodified |
| `Rfc7807Handler.RedactionHidesMessage` | middleware/rfc7807_handler.go:69-72 | without verbosity, two non-service errors yield identical sends and content type, so nothing of their text reaches the client |
| `Rfc7807Handler.TraceIdCanDifferFromLoggedId` | middleware/rfc7807_handler.go:73-77 | a 500 service error with token "db_down" in a context with id "r1" logs "r1" yet sends `TraceID` "db_down" |
| `Rfc7807Handler.PlainErrorScenario` | middleware/rfc7807_handler.go:45-80 | "disk full", not verbose, no id in context: one log record with the message and the fresh id, and a 500 problem record whose detail is `Internal Server Error [<that id>]` |
| `Rfc7807Handler.NotFoundScenario` | middleware/rfc7807_handler.go:45-80 | a 404 service error with token "not_found": sent itself with status 404 under `application/problem+json`, token recorded, nothing logged, no id created |
| `Rfc7807Handler.WrappedInternalScenario` | middleware/rfc7807_handler.go:45-80 | "failed to save" wrapping a 500 service error, verbose: the inner error is sent unmodified with 500 and the log holds the outer wrapper's rendering |

## Left out

- Content negotiation and the JSON/XML/form serialisation done by `service.Send` are not modelled. This includes the `json:"tye"` tag of `Type` and the `Meta` map. `Send` only records `(request id, status, body)` and returns an error that is given to it.
- The internals of the `goa.LogError` sink are not modelled. The log is an append-only sequence of records.
- `shortID()` is not modelled. The id it would return is the parameter `Env.freshId`.
- `fmt.Sprintf("%+v", e)` is not modelled. Its rendering of an error is the `detailed` field of the error value.
- `goa.ErrInternal` is not modelled beyond its result, because its concrete type is not part of this model.
  - Line 76 asserts that its result is an `Rfc7807Response`. The model assumes this, and the runtime panic a failed assertion would cause is not modelled.
  - Its `Type`, `Title` and `Instance` are taken as empty.
  - Its `TraceID` is the parameter `Env.internalTraceId`.
  - Its `Status` is taken to be 500 and its `Detail` to be the message it is given. `RedactedDetailNamesLoggedId` relies on both assumptions.
- `Errors.RootCause` and `Errors.FindCause`: a cyclic cause chain is not modelled. On such a chain the Go loop in lines 100-110 never terminates, but the inductive error datatype cannot express a cycle.
- `Rfc7807Handler.RequestState.Translate`: `context.WithValue` (line 66) rebinds a local `ctx`, which only this call's `LogError` and `Send` see. The model keeps the id in the state's `reqId` field, so callers of the model see it too.
- Of the `http.ResponseWriter`, only the Content-Type header is modelled. Other context keys are not.
- The unused constant `Rfc7807XmlMediaIdentifier` (line 14) is not modelled.
- The middleware's construction (`Rfc7807Handler(service, verbose)` returning a closure) is reduced to the `verbose` parameter. The wrapped handler `h` is reduced to the error it returns, so its own effects are not modelled.
- Concurrent request handling is not modelled. The middleware holds no state shared across requests.
