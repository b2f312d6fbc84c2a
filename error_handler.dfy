/**
 * The classification of a thrown error into an HTTP status and JSON body that
 * every route's `catch` performs (src/utils/errorHandler.js).
 */
module ErrorHandler {
  import opened Wrappers
  import opened Js

  /** What `res.status(status).json(body)` sends. */
  datatype HttpResponse = HttpResponse(status: int, body: Value)

  /**
   * `f instanceof C`, under the SDK's class hierarchy: every SDK error is an
   * APIError, a timeout is also a connection error, and everything is an Error.
   */
  predicate InstanceOf(f: Fault, c: ErrorClass) {
    match c
    case APIErrorClass => f.cls != PlainError
    case ConnectionErrorClass => f.cls == ConnectionErrorClass || f.cls == TimeoutErrorClass
    case TimeoutErrorClass => f.cls == TimeoutErrorClass
    case PlainError => true
  }

  /** `error.status || 500`. */
  function StatusOr500(f: Fault): int {
    if f.status.Some? && f.status.value != 0 then f.status.value else 500
  }

  function ApiErrorResponse(f: Fault): HttpResponse {
    HttpResponse(StatusOr500(f), Obj(map[
      "error" := Str(if f.name != "" then f.name else "APIError"),
      "message" := Str(f.message),
      "request_id" := if f.requestId.Some? then Str(f.requestId.value) else Undefined]))
  }

  function ConnectionResponse(f: Fault): HttpResponse {
    HttpResponse(503, Obj(map[
      "error" := Str("ConnectionError"),
      "message" := Str("Falha na conexão com a API do Claude"),
      "details" := Str(f.message)]))
  }

  function TimeoutResponse(f: Fault): HttpResponse {
    HttpResponse(504, Obj(map[
      "error" := Str("TimeoutError"),
      "message" := Str("Timeout na conexão com a API do Claude"),
      "details" := Str(f.message)]))
  }

  function InternalResponse(f: Fault): HttpResponse {
    HttpResponse(500, Obj(map[
      "error" := Str("InternalServerError"),
      "message" := Str("Erro interno do servidor"),
      "details" := Str(f.message)]))
  }

  /** The handler as written: the `instanceof` tests in their order, most general class first. */
  function HandleErrorAsWritten(f: Fault): (r: HttpResponse)
    ensures r.status == if f.cls == PlainError then 500 else StatusOr500(f)
    ensures r.body.Obj? && "error" in r.body.fields && "message" in r.body.fields
    ensures r.body.fields["error"] ==
            if f.cls == PlainError then Str("InternalServerError") else Str(if f.name != "" then f.name else "APIError")
    ensures r.body.fields.Keys == if f.cls == PlainError then {"error", "message", "details"} else {"error", "message", "request_id"}
  {
    if InstanceOf(f, APIErrorClass) then ApiErrorResponse(f)
    else if InstanceOf(f, ConnectionErrorClass) then ConnectionResponse(f)
    else if InstanceOf(f, TimeoutErrorClass) then TimeoutResponse(f)
    else InternalResponse(f)
  }

  /**
   * Since the first test already holds for every SDK error, the connection and
   * timeout branches of the handler as written are dead: a connection failure
   * is reported as an APIError with status 500.
   */
  lemma AsWrittenNeverReportsConnectionOrTimeout(f: Fault)
    ensures HandleErrorAsWritten(f) == (if f.cls == PlainError then InternalResponse(f) else ApiErrorResponse(f))
    ensures f.cls == ConnectionErrorClass && f.status.None? ==> HandleErrorAsWritten(f).status == 500
  {
  }

  /** A connection failure without a status, as the SDK throws it when the network is unreachable. */
  lemma AsWrittenConnectionFailureIs500()
    ensures var f := Fault(ConnectionErrorClass, None, "Error", "Connection error.", None);
            && HandleErrorAsWritten(f) == ApiErrorResponse(f)
            && HandleErrorAsWritten(f).status == 500
            && HandleErrorAsWritten(f).body.fields["error"] == Str("Error")
            && HandleError(f).status == 503
  {
  }

  /**
   * The handler with the tests ordered from the most specific class to the
   * most general, so that each branch is reachable; the routes use this one.
   */
  function HandleError(f: Fault): (r: HttpResponse)
    ensures r.status == match f.cls
      case TimeoutErrorClass => 504
      case ConnectionErrorClass => 503
      case APIErrorClass => (if f.status.Some? && f.status.value != 0 then f.status.value else 500)
      case PlainError => 500
    ensures r.body.Obj? && "error" in r.body.fields && "message" in r.body.fields
    ensures f.cls == APIErrorClass ==> r.body.fields["message"] == Str(f.message)
    ensures f.cls != APIErrorClass ==> r.body.fields.Keys == {"error", "message", "details"} && r.body.fields["details"] == Str(f.message)
    ensures r.body.fields["error"] == match f.cls
      case TimeoutErrorClass => Str("TimeoutError")
      case ConnectionErrorClass => Str("ConnectionError")
      case APIErrorClass => Str(if f.name != "" then f.name else "APIError")
      case PlainError => Str("InternalServerError")
    ensures f.cls != APIErrorClass ==> r.body.fields["message"] == match f.cls
      case TimeoutErrorClass => Str("Timeout na conexão com a API do Claude")
      case ConnectionErrorClass => Str("Falha na conexão com a API do Claude")
      case _ => Str("Erro interno do servidor")
    ensures f.cls == APIErrorClass ==>
      && r.body.fields.Keys == {"error", "message", "request_id"}
      && r.body.fields["request_id"] == (if f.requestId.Some? then Str(f.requestId.value) else Undefined)
  {
    if InstanceOf(f, TimeoutErrorClass) then TimeoutResponse(f)
    else if InstanceOf(f, ConnectionErrorClass) then ConnectionResponse(f)
    else if InstanceOf(f, APIErrorClass) then ApiErrorResponse(f)
    else InternalResponse(f)
  }

  /** The corrected handler differs from the one as written only on connection and timeout errors. */
  lemma HandleErrorAgreesOutsideConnectionErrors(f: Fault)
    ensures !InstanceOf(f, ConnectionErrorClass) <==> HandleError(f) == HandleErrorAsWritten(f)
  {
    if InstanceOf(f, ConnectionErrorClass) {
      assert HandleError(f).status != HandleErrorAsWritten(f).status || HandleError(f).body != HandleErrorAsWritten(f).body by {
        var a := HandleError(f).body.fields;
        var b := HandleErrorAsWritten(f).body.fields;
        assert "details" in a && "details" !in b;
      }
    }
  }
}
