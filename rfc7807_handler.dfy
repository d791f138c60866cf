/** The error-translating middleware of middleware/rfc7807_handler.go: a handler's
    error becomes an RFC 7807 problem response (or plain text), with one
    "uncaught error" log record for every failure that ends in status 500. */
module Rfc7807Handler {

  import opened Errors

  const ProblemJson := "application/problem+json"
  const TextPlain := "text/plain"
  const StatusInternalServerError := 500
  /** `http.StatusText(500)`, the reason phrase of section 6.6.1 of RFC 7231. */
  const InternalServerErrorText := "Internal Server Error"
  const UncaughtError := "uncaught error"

  /** The problem details record (section 3.1 of RFC 7807) plus the trace id;
      the `Meta` map is not modelled. */
  datatype Rfc7807Response = Rfc7807Response(
    typeUri: string,
    title: string,
    status: int,
    detail: string,
    instance: string,
    traceId: string)

  /** What is handed to `Send` as the response body: the service error itself,
      the text of an opaque error, or a problem record built by the middleware. */
  datatype Body = ServiceBody(err: Error) | TextBody(text: string) | ProblemBody(problem: Rfc7807Response)

  /** One `goa.LogError` call: the event tag and the "err", "id" and "msg" values. */
  datatype LogRecord = LogRecord(event: string, err: string, id: string, msg: Body)

  /** One `service.Send` call: the request id the context carried, the status and the body. */
  datatype Sent = Sent(reqId: Option<string>, status: int, body: Body)

  /** The answers of collaborators the model does not contain: the id `shortID()`
      returns, the `TraceID` that `goa.ErrInternal` gives a fresh record, and the
      error `service.Send` returns. */
  datatype Env = Env(freshId: string, internalTraceId: string, sendResult: Option<Error>)

  /** The request-scoped state the middleware reads and writes. */
  datatype Snapshot = Snapshot(
    reqId: Option<string>,
    errorCode: string,
    contentType: string,
    log: seq<LogRecord>,
    sent: seq<Sent>)

  /** The outcome of classifying an error (lines 50-61). */
  datatype Classified = Classified(status: int, body: Body, token: Option<string>, contentType: string)

  /** The record `goa.ErrInternal(msg)` is asserted to be (line 76). Assumed: its
      status is 500 and its detail is `msg`; its type, title and instance are empty;
      its trace id is whatever the error class assigns (`traceId`). */
  function ErrInternal(msg: string, traceId: string): Rfc7807Response
  {
    Rfc7807Response("", "", StatusInternalServerError, msg, "", traceId)
  }

  /** `fmt.Sprintf("%s [%s]", http.StatusText(500), reqID)`. */
  function RedactedDetail(id: string): string
  {
    InternalServerErrorText + " [" + id + "]"
  }

  /** Lines 50-61: a service error at the root keeps its own status and body and
      gives its token; anything else is a 500 with the OUTER error's text. */
  function Classify(e: Error): (c: Classified)
    ensures c.status != StatusInternalServerError ==> RootCause(e).service.Some?
    ensures c.token.Some? <==> RootCause(e).service.Some?
    ensures c.contentType == ProblemJson <==> RootCause(e).service.Some?
    ensures RootCause(e).service.None? ==>
      c.status == StatusInternalServerError && c.contentType == TextPlain && c.body == TextBody(e.text)
    ensures RootCause(e).service.Some? ==>
      c.status == RootCause(e).service.value.status && c.body == ServiceBody(RootCause(e))
      && c.token == Some(RootCause(e).service.value.token)
  {
    var root := RootCause(e);
    match root.service
    case Some(si) => Classified(si.status, ServiceBody(root), Some(si.token), ProblemJson)
    case None => Classified(StatusInternalServerError, TextBody(e.text), None, TextPlain)
  }

  /** The id the 500 path uses: the one already in the context, else the fresh one. */
  function RequestId(s: Snapshot, env: Env): string
  {
    if s.reqId.Some? then s.reqId.value else env.freshId
  }

  /** The body sent on the redacted 500 path (lines 70-77), given the request id
      and the response `ErrorCode` at that point. */
  function Redacted(id: string, errorCode: string, env: Env): Rfc7807Response
  {
    var p := ErrInternal(RedactedDetail(id), env.internalTraceId);
    if errorCode != "" then p.(traceId := errorCode) else p
  }

  /** Lines 62-79, entered only for status 500: take or create the request id, log
      once, and unless verbose replace the body by the redacted problem record. */
  function Report(s: Snapshot, e: Error, body: Body, verbose: bool, env: Env): (Snapshot, Body)
  {
    var id := RequestId(s, env);
    var s' := s.(reqId := Some(id), log := s.log + [LogRecord(UncaughtError, e.detailed, id, body)]);
    if verbose then (s', body)
    else (s'.(contentType := ProblemJson), ProblemBody(Redacted(id, s.errorCode, env)))
  }

  /** The whole handler closure (lines 45-81) on the request state: the new state
      and the error the closure returns, for the error `e` the wrapped handler returned. */
  function Handle(s: Snapshot, e: Option<Error>, verbose: bool, env: Env): (Snapshot, Option<Error>)
  {
    match e
    case None => (s, None)
    case Some(err) => HandleError(s, err, verbose, env)
  }

  /** Lines 50-80: the closure once the wrapped handler has returned the non-nil error `err`. */
  function HandleError(s: Snapshot, err: Error, verbose: bool, env: Env): (Snapshot, Option<Error>)
  {
    var c := Classify(err);
    var s1 := s.(errorCode := if c.token.Some? then c.token.value else s.errorCode,
                 contentType := c.contentType);
    var out := if c.status == StatusInternalServerError then Report(s1, err, c.body, verbose, env)
               else (s1, c.body);
    (out.0.(sent := out.0.sent + [Sent(out.0.reqId, c.status, out.1)]), env.sendResult)
  }

  /** The request context (its request id), the shared response's `ErrorCode`,
      the `Content-Type` header, the log sink and the calls made to `Send`. */
  class RequestState {
    var reqId: Option<string>
    var errorCode: string
    var contentType: string
    var log: seq<LogRecord>
    var sent: seq<Sent>

    constructor (reqId: Option<string>, errorCode: string, contentType: string)
      ensures this.reqId == reqId && this.errorCode == errorCode && this.contentType == contentType
      ensures log == [] && sent == []
    {
      this.reqId := reqId;
      this.errorCode := errorCode;
      this.contentType := contentType;
      log := [];
      sent := [];
    }

    function View(): Snapshot
      reads this
    {
      Snapshot(reqId, errorCode, contentType, log, sent)
    }

    /** `goa.LogError`: appends one record. */
    method LogError(event: string, err: string, id: string, msg: Body)
      modifies this`log
      ensures log == old(log) + [LogRecord(event, err, id, msg)]
    {
      log := log + [LogRecord(event, err, id, msg)];
    }

    /** `service.Send`: records the call and returns the sender's error. */
    method Send(status: int, body: Body, sendResult: Option<Error>) returns (r: Option<Error>)
      modifies this`sent
      ensures sent == old(sent) + [Sent(reqId, status, body)]
      ensures r == sendResult
    {
      sent := sent + [Sent(reqId, status, body)];
      r := sendResult;
    }

    /** The handler closure of `Rfc7807Handler` (lines 45-81), run on the error `e`
        that the wrapped handler returned. */
    method Translate(e: Option<Error>, verbose: bool, env: Env) returns (r: Option<Error>)
      modifies this
      ensures (View(), r) == Handle(old(View()), e, verbose, env)
    {
      if e.None? {
        return None;
      }
      var err := e.value;
      var root := FindCause(err);
      var status := StatusInternalServerError;
      var respBody: Body;
      if root.service.Some? {
        status := root.service.value.status;
        respBody := ServiceBody(root);
        errorCode := root.service.value.token;
        contentType := ProblemJson;
      } else {
        respBody := TextBody(err.text);
        contentType := TextPlain;
      }
      if status == StatusInternalServerError {
        var id: string;
        if reqId.None? {
          id := env.freshId;
          reqId := Some(id);
        } else {
          id := reqId.value;
        }
        LogError(UncaughtError, err.detailed, id, respBody);
        if !verbose {
          contentType := ProblemJson;
          var problem := ErrInternal(RedactedDetail(id), env.internalTraceId);
          if errorCode != "" {
            problem := problem.(traceId := errorCode);
          }
          respBody := ProblemBody(problem);
        }
      }
      r := Send(status, respBody, env.sendResult);
    }
  }

  // ---------------------------------------------------------------------------
  // Properties of the handler

  /** A nil error from the wrapped handler: nil is returned and nothing changes. */
  lemma NilIsNoOp(s: Snapshot, verbose: bool, env: Env)
    ensures Handle(s, None, verbose, env) == (s, None)
  {
  }

  /** Every non-nil error: `Send` is called exactly once, with the classified
      status, and its error is returned. */
  lemma SendCalledOnce(s: Snapshot, e: Error, verbose: bool, env: Env)
    ensures HandleError(s, e, verbose, env).1 == env.sendResult
    ensures var s' := HandleError(s, e, verbose, env).0;
      && |s'.sent| == |s.sent| + 1
      && s'.sent[..|s.sent|] == s.sent
      && s'.sent[|s.sent|].status == Classify(e).status
      && s'.sent[|s.sent|].reqId == s'.reqId
  {
  }

  /** A root cause that is a service error: its status is sent and its token
      becomes the response `ErrorCode`, in both verbosity modes; with status 500 the
      error itself is the logged body, and when verbose also the sent body. */
  lemma ServiceErrorKeepsStatus(s: Snapshot, e: Error, verbose: bool, env: Env)
    requires RootCause(e).service.Some?
    ensures HandleError(s, e, verbose, env).0.sent[|s.sent|].status == RootCause(e).service.value.status
    ensures HandleError(s, e, verbose, env).0.errorCode == RootCause(e).service.value.token
    ensures RootCause(e).service.value.status == StatusInternalServerError ==>
      HandleError(s, e, verbose, env).0.log[|s.log|].msg == ServiceBody(RootCause(e))
    ensures RootCause(e).service.value.status == StatusInternalServerError && verbose ==>
      HandleError(s, e, verbose, env).0.sent[|s.sent|].body == ServiceBody(RootCause(e))
  {
  }

  /** A root cause that is a service error with a status other than 500: the error
      itself is the body, under `application/problem+json`, in both verbosity modes. */
  lemma ServiceErrorPassesThrough(s: Snapshot, e: Error, verbose: bool, env: Env)
    requires RootCause(e).service.Some? && RootCause(e).service.value.status != StatusInternalServerError
    ensures HandleError(s, e, verbose, env).0.contentType == ProblemJson
    ensures HandleError(s, e, verbose, env).0.log == s.log
    ensures HandleError(s, e, verbose, env).0.sent == s.sent + [Sent(s.reqId, RootCause(e).service.value.status, ServiceBody(RootCause(e)))]
  {
  }

  /** A root cause that is not a service error: status 500, and the body before
      redaction (the one logged) is the text of the OUTER error, not of its cause. */
  lemma OpaqueErrorIsInternal(s: Snapshot, e: Error, verbose: bool, env: Env)
    requires RootCause(e).service.None?
    ensures var s' := HandleError(s, e, verbose, env).0;
      && s'.sent[|s'.sent| - 1].status == StatusInternalServerError
      && s'.log[|s'.log| - 1].msg == TextBody(e.text)
      && s'.errorCode == s.errorCode
      && (verbose ==> s'.contentType == TextPlain && s'.sent[|s'.sent| - 1].body == TextBody(e.text))
  {
  }

  /** Any status other than 500: no request id is created, nothing is logged, and
      the classified body and content type go to `Send` unchanged. */
  lemma NonInternalIsNotLogged(s: Snapshot, e: Error, verbose: bool, env: Env)
    requires Classify(e).status != StatusInternalServerError
    ensures var s' := HandleError(s, e, verbose, env).0;
      && s'.reqId == s.reqId
      && s'.log == s.log
      && s'.contentType == Classify(e).contentType
      && s'.sent == s.sent + [Sent(s.reqId, Classify(e).status, Classify(e).body)]
  {
  }

  /** Status 500: the request id already in the context is reused, otherwise the
      fresh one is stored; exactly one "uncaught error" record is appended, with
      the formatted outer error, that id and the body before redaction. */
  lemma InternalIsLoggedOnce(s: Snapshot, e: Error, verbose: bool, env: Env)
    requires Classify(e).status == StatusInternalServerError
    ensures var s' := HandleError(s, e, verbose, env).0;
      var id := if s.reqId.Some? then s.reqId.value else env.freshId;
      && s'.reqId == Some(id)
      && s'.log == s.log + [LogRecord(UncaughtError, e.detailed, id, Classify(e).body)]
      && s'.sent[|s'.sent| - 1].reqId == Some(id)
  {
  }

  /** Status 500, not verbose: the client gets a problem record under
      `application/problem+json` whose detail names the very id that was logged;
      its `TraceID` is the response `ErrorCode` when that is non-empty, and is left
      as `goa.ErrInternal` made it otherwise. */
  lemma RedactedDetailNamesLoggedId(s: Snapshot, e: Error, env: Env)
    requires Classify(e).status == StatusInternalServerError
    ensures var s' := HandleError(s, e, false, env).0;
      var body := s'.sent[|s'.sent| - 1].body;
      && s'.contentType == ProblemJson
      && body.ProblemBody?
      && body.problem.status == StatusInternalServerError
      && body.problem.detail == RedactedDetail(s'.log[|s'.log| - 1].id)
      && body.problem.traceId == (if s'.errorCode != "" then s'.errorCode else env.internalTraceId)
  {
  }

  /** Status 500, verbose: the body and content type of classification are sent
      unmodified. */
  lemma VerboseSendsClassifiedBody(s: Snapshot, e: Error, env: Env)
    requires Classify(e).status == StatusInternalServerError
    ensures var s' := HandleError(s, e, true, env).0;
      && s'.contentType == Classify(e).contentType
      && s'.sent[|s'.sent| - 1].body == Classify(e).body
  {
  }

  /** Redaction hides the error: without verbosity, two opaque errors produce the
      same response, whatever their texts. */
  lemma RedactionHidesMessage(s: Snapshot, e1: Error, e2: Error, env: Env)
    requires RootCause(e1).service.None? && RootCause(e2).service.None?
    ensures HandleError(s, e1, false, env).0.sent == HandleError(s, e2, false, env).0.sent
    ensures HandleError(s, e1, false, env).0.contentType == HandleError(s, e2, false, env).0.contentType
  {
  }

  /** The client-visible `TraceID` is not always the logged id: a service error
      with status 500 and a token puts the token there, while the log holds the
      request id. */
  lemma TraceIdCanDifferFromLoggedId()
    ensures var e := Error("db down", "db down", Some(ServiceInfo(500, "db_down")), NotCauser);
      var s := Snapshot(Some("r1"), "", "", [], []);
      var s' := HandleError(s, e, false, Env("fresh", "", None)).0;
      && s'.log[0].id == "r1"
      && s'.sent[0].body.problem.traceId == "db_down"
  {
  }

  /** A plain error "disk full" without verbosity, in a context with no request id:
      a 500 problem record naming the fresh id, and one log record holding the
      message and that same id. */
  lemma PlainErrorScenario()
    ensures var e := Error("disk full", "disk full", None, NotCauser);
      var s := Snapshot(None, "", "", [], []);
      var s' := HandleError(s, e, false, Env("abc", "", None)).0;
      && s'.contentType == ProblemJson
      && s'.reqId == Some("abc")
      && s'.log == [LogRecord(UncaughtError, "disk full", "abc", TextBody("disk full"))]
      && s'.sent == [Sent(Some("abc"), 500, ProblemBody(ErrInternal("Internal Server Error [abc]", "")))]
  {
    assert RedactedDetail("abc") == "Internal Server Error [abc]";
  }

  /** A service error with status 404 and token "not_found", without verbosity:
      the error itself is sent with status 404 and nothing is logged. */
  lemma NotFoundScenario()
    ensures var e := Error("not found", "not found", Some(ServiceInfo(404, "not_found")), NotCauser);
      var s := Snapshot(None, "", "", [], []);
      var s' := HandleError(s, e, false, Env("abc", "", None)).0;
      && s'.contentType == ProblemJson
      && s'.errorCode == "not_found"
      && s'.reqId == None
      && s'.log == []
      && s'.sent == [Sent(None, 404, ServiceBody(e))]
  {
  }

  /** "failed to save" wrapping a service error with status 500, verbose: the
      inner service error is sent unmodified with status 500, and the log record
      holds the rendering of the outer wrapper. */
  lemma WrappedInternalScenario()
    ensures var inner := Error("db down", "db down", Some(ServiceInfo(500, "db_down")), NotCauser);
      var e := Error("failed to save: db down", "failed to save: db down", None, Causer(Some(inner)));
      var s := Snapshot(Some("r1"), "", "", [], []);
      var s' := HandleError(s, e, true, Env("abc", "", None)).0;
      && s'.contentType == ProblemJson
      && s'.log == [LogRecord(UncaughtError, "failed to save: db down", "r1", ServiceBody(inner))]
      && s'.sent == [Sent(Some("r1"), 500, ServiceBody(inner))]
  {
  }
}
