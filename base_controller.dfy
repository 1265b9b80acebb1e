/**
  The result envelopes and the JSON response bodies that every controller
  builds through app/Http/Controllers/BaseController.php.

  Internal services answer with an "array" envelope (arrayStatus,
  arrayMessage, arrayResponse) or a "query" envelope (queryStatus,
  queryMessage, queryResponse); controllers answer the HTTP client with a
  success body or an error body whose `code` is also the HTTP status.
  Logging is not modelled: it has no effect on any returned value.
*/
module BaseController {
  import opened Wrappers

  /** A PHP value as it can appear in an associative array or a JSON body.
      PHP arrays are either lists or string-keyed maps; floats are not modelled. */
  datatype Value =
    | VNull
    | VBool(b: bool)
    | VInt(i: int)
    | VStr(s: string)
    | VList(items: seq<Value>)
    | VMap(entries: map<string, Value>)

  /** The empty PHP array `[]`. */
  const EmptyArray: Value := VList([])

  /** PHP's falsy values, the ones `?:` replaces by its right operand. */
  predicate Falsy(v: Value) {
    match v
    case VNull => true
    case VBool(b) => !b
    case VInt(i) => i == 0
    case VStr(s) => s == "" || s == "0"
    case VList(items) => items == []
    case VMap(entries) => entries == map[]
  }

  /** `$x ?: []` */
  function OrEmpty(v: Value): (r: Value)
    ensures !Falsy(v) ==> r == v
    ensures Falsy(v) ==> r == EmptyArray
  {
    if Falsy(v) then EmptyArray else v
  }

  // ---------------------------------------------------------------------
  // Envelopes for internal services
  // ---------------------------------------------------------------------

  datatype ArrayEnvelope<T> = ArrayEnvelope(arrayStatus: bool, arrayMessage: string, arrayResponse: T)

  datatype QueryEnvelope<T> = QueryEnvelope(queryStatus: bool, queryMessage: string, queryResponse: T)

  /** A successful service result: status true, message and payload passed through. */
  function HandleArrayResponse<T(==)>(response: T, message: string := "Process success"): (r: ArrayEnvelope<T>)
    ensures r.arrayStatus
    ensures r.arrayMessage == message && r.arrayResponse == response
  {
    ArrayEnvelope(true, message, response)
  }

  /** A failed service result: status false, message and payload passed through. */
  function HandleArrayErrorResponse<T(==)>(response: T, message: string := "Process failed"): (r: ArrayEnvelope<T>)
    ensures !r.arrayStatus
    ensures r.arrayMessage == message && r.arrayResponse == response
  {
    ArrayEnvelope(false, message, response)
  }

  /** A successful query result: status true, message and payload passed through. */
  function HandleQueryArrayResponse<T(==)>(response: T, message: string := "Query success"): (r: QueryEnvelope<T>)
    ensures r.queryStatus
    ensures r.queryMessage == message && r.queryResponse == response
  {
    QueryEnvelope(true, message, response)
  }

  /** A failed query result: status false, message and payload passed through. */
  function HandleQueryErrorArrayResponse<T(==)>(response: T, message: string := "Query failed"): (r: QueryEnvelope<T>)
    ensures !r.queryStatus
    ensures r.queryMessage == message && r.queryResponse == response
  {
    QueryEnvelope(false, message, response)
  }

  /** The two array envelopes built from the same payload and message differ
      in their status alone, so a caller may branch on `arrayStatus` only. */
  lemma ArrayEnvelopesDifferOnlyInStatus<T>(response: T, message: string)
    ensures HandleArrayErrorResponse(response, message) == HandleArrayResponse(response, message).(arrayStatus := false)
    ensures HandleArrayResponse(response, message) != HandleArrayErrorResponse(response, message)
  {
  }

  /** Likewise for the two query envelopes. */
  lemma QueryEnvelopesDifferOnlyInStatus<T>(response: T, message: string)
    ensures HandleQueryErrorArrayResponse(response, message) == HandleQueryArrayResponse(response, message).(queryStatus := false)
    ensures HandleQueryArrayResponse(response, message) != HandleQueryErrorArrayResponse(response, message)
  {
  }

  // ---------------------------------------------------------------------
  // JSON bodies for the HTTP client
  // ---------------------------------------------------------------------

  /** The ambient values a response body draws on: the uuid of the
      authenticated user, if any, and the request number and timestamp that
      the source draws from `uniqid()`/`rand()` and the clock. */
  datatype ResponseContext = ResponseContext(requesterUuid: Option<string>, requestNo: string, timestamp: string)

  /** A success or error body; `code` is also the HTTP status it is sent with. */
  datatype ResponseBody = ResponseBody(
    success: string,
    code: int,
    requestNo: string,
    timestamp: string,
    message: string,
    title: Option<string>,
    data: Value,
    params: map<string, Value>)

  const KnownErrorCodes: set<int> := {400, 401, 403, 404, 422, 429, 500}

  /** The short title for an HTTP status code; total, with "Error" for every
      code outside the table. */
  function GetErrorTitle(code: int): (title: string)
    ensures code == 400 ==> title == "Bad Request"
    ensures code == 401 ==> title == "Unauthorized"
    ensures code == 403 ==> title == "Forbidden"
    ensures code == 404 ==> title == "Not Found"
    ensures code == 422 ==> title == "Unprocessable Entity"
    ensures code == 429 ==> title == "Too Many Requests"
    ensures code == 500 ==> title == "Internal Server Error"
    ensures title == "Error" <==> code !in KnownErrorCodes
  {
    match code
    case 400 => "Bad Request"
    case 401 => "Unauthorized"
    case 403 => "Forbidden"
    case 404 => "Not Found"
    case 422 => "Unprocessable Entity"
    case 429 => "Too Many Requests"
    case 500 => "Internal Server Error"
    case _ => "Error"
  }

  /** No error title is "OK", so a client can tell a success body from an
      error body by its `success` field alone. */
  lemma ErrorTitleIsNeverOk(code: int)
    ensures GetErrorTitle(code) != "OK"
  {
  }

  /** Who made the request: the authenticated user's uuid, or "public". */
  function RequesterIdentifier(uuid: Option<string>): (id: string)
    ensures uuid.Some? ==> id == uuid.value
    ensures uuid.None? ==> id == "public"
  {
    uuid.GetOr("public")
  }

  /** The `params` of a body: the given parameters (or `[]`) with
      `requested` always overwritten by the requester identifier. */
  function ResponseParams(params: Option<map<string, Value>>, requesterUuid: Option<string>): (p: map<string, Value>)
    ensures "requested" in p && p["requested"] == VStr(RequesterIdentifier(requesterUuid))
    ensures forall k :: k != "requested" ==> (k in p <==> params.Some? && k in params.value)
    ensures forall k :: k != "requested" && k in p ==> p[k] == params.value[k]
  {
    params.GetOr(map[])["requested" := VStr(RequesterIdentifier(requesterUuid))]
  }

  /** The success body. */
  function HandleResponse(
    ctx: ResponseContext, result: Value, message: string,
    params: Option<map<string, Value>> := None, title: Option<string> := None, code: int := 200): (b: ResponseBody)
    ensures b.success == "OK" && b.code == code
    ensures b.message == message && b.title == title
    ensures b.requestNo == ctx.requestNo && b.timestamp == ctx.timestamp
    ensures !Falsy(result) ==> b.data == result
    ensures Falsy(result) ==> b.data == EmptyArray
    ensures b.params == ResponseParams(params, ctx.requesterUuid)
  {
    ResponseBody("OK", code, ctx.requestNo, ctx.timestamp, message, title, OrEmpty(result),
                 ResponseParams(params, ctx.requesterUuid))
  }

  /** The error body; its `success` field carries the error title of its code. */
  function HandleError(
    ctx: ResponseContext, result: Value := EmptyArray, message: string := "Error occurred",
    params: Option<map<string, Value>> := None, title: Option<string> := None, code: int := 404): (b: ResponseBody)
    ensures b.success == GetErrorTitle(code) && b.code == code
    ensures b.message == message && b.title == title
    ensures b.requestNo == ctx.requestNo && b.timestamp == ctx.timestamp
    ensures !Falsy(result) ==> b.data == result
    ensures Falsy(result) ==> b.data == EmptyArray
    ensures b.params == ResponseParams(params, ctx.requesterUuid)
  {
    ResponseBody(GetErrorTitle(code), code, ctx.requestNo, ctx.timestamp, message, title, OrEmpty(result),
                 ResponseParams(params, ctx.requesterUuid))
  }

  /** An error body and a success body built from the same arguments differ
      in their `success` field alone. */
  lemma ErrorBodyIsSuccessBodyWithErrorTitle(
    ctx: ResponseContext, result: Value, message: string,
    params: Option<map<string, Value>>, title: Option<string>, code: int)
    ensures HandleError(ctx, result, message, params, title, code)
         == HandleResponse(ctx, result, message, params, title, code).(success := GetErrorTitle(code))
    ensures HandleError(ctx, result, message, params, title, code).success
         != HandleResponse(ctx, result, message, params, title, code).success
  {
    ErrorTitleIsNeverOk(code);
  }

  /** With every argument left at its default, an error body is a 404
      "Not Found" with an empty `data` and only `requested` in `params`. */
  lemma DefaultErrorIsNotFound(ctx: ResponseContext)
    ensures HandleError(ctx).code == 404 && HandleError(ctx).success == "Not Found"
    ensures HandleError(ctx).message == "Error occurred" && HandleError(ctx).data == EmptyArray
    ensures HandleError(ctx).params.Keys == {"requested"}
  {
  }
}
