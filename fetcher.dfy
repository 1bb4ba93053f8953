/**
 * The shared API client's response handling (frontend/src/api/fetcher.ts):
 * the runtime checks on the backend's error body and the message and
 * result each response turns into.
 */
module Fetcher {
  import opened Wrappers
  import opened Strings
  import opened Json

  /** `typeof v === "string" || typeof v === "number"`. */
  predicate IsLocPart(v: Json) {
    v.JStr? || v.JNum?
  }

  /** `isErrorDetail`: `loc` an array of strings and numbers, `msg` and `type` strings. */
  predicate IsErrorDetail(j: Json) {
    j != JNull &&
    var loc, msg, ty := Get(j, "loc"), Get(j, "msg"), Get(j, "type");
    loc.Some? && loc.value.JArr? && (forall v :: v in loc.value.items ==> IsLocPart(v)) &&
    msg.Some? && msg.value.JStr? &&
    ty.Some? && ty.value.JStr?
  }

  /** `isErrorType`: a non-null body whose `detail` is a string or an array of error details. */
  predicate IsErrorType(j: Json) {
    if j == JNull then false
    else
      var d := Get(j, "detail");
      if d.Some? && d.value.JStr? then true
      else d.Some? && d.value.JArr? && forall e :: e in d.value.items ==> IsErrorDetail(e)
  }

  /** One element of `loc` as a template literal writes it. */
  function LocPart(v: Json): string {
    match v
    case JStr(s) => s
    case JNum(n) => IntToString(n)
    case _ => ""
  }

  function LocParts(items: seq<Json>): (r: seq<string>)
    ensures |r| == |items| && forall i :: 0 <= i < |items| ==> r[i] == LocPart(items[i])
  {
    if items == [] then [] else [LocPart(items[0])] + LocParts(items[1..])
  }

  function StrOf(o: Option<Json>): string {
    if o.Some? && o.value.JStr? then o.value.s else ""
  }

  /** One detail as the line `msg (type) at loc.join(".")`. */
  function DetailLine(d: Json): string {
    var loc := Get(d, "loc");
    StrOf(Get(d, "msg")) + " (" + StrOf(Get(d, "type")) + ") at "
      + Join(LocParts(if loc.Some? && loc.value.JArr? then loc.value.items else []), ".")
  }

  function DetailLines(ds: seq<Json>): (r: seq<string>)
    ensures |r| == |ds| && forall i :: 0 <= i < |ds| ==> r[i] == DetailLine(ds[i])
  {
    if ds == [] then [] else [DetailLine(ds[0])] + DetailLines(ds[1..])
  }

  /** The message of a well-shaped error body. */
  function ErrorMessage(j: Json): string {
    var d := Get(j, "detail");
    if d.Some? && d.value.JArr? then Join(DetailLines(d.value.items), "\n")
    else if d.Some? && d.value.JStr? then d.value.s
    else "API request failed"
  }

  /** An `ApiError`: a message and the HTTP status. */
  datatype ApiError = ApiError(message: string, status: int)

  /** `ApiResult<T>`: `{ok: true, data}` or `{ok: false, error}`. */
  datatype ApiResult = Success(data: Json) | Failure(error: ApiError)

  /** The body of a response: JSON, or text that is not JSON ("" when unreadable). */
  datatype Body = JsonBody(json: Json) | TextBody(text: string)

  datatype Response = Response(ok: bool, status: int, body: Body)

  /** What `apiFetch` does after the request: returns a result, or rejects. */
  datatype Outcome = Returned(result: ApiResult) | Rejected

  const InvalidErrorResponse := "Invalid error response"

  /** The failure for a JSON error body: its detail when well shaped, otherwise the body itself. */
  function JsonFailure(j: Json, status: int, render: Json -> string): (e: ApiError)
    ensures e.status == status
    ensures IsErrorType(j) ==> e.message == ErrorMessage(j)
    ensures !IsErrorType(j) ==> e.message == "Unexpected error shape: " + render(j)
  {
    if !IsErrorType(j) then ApiError("Unexpected error shape: " + render(j), status)
    else ApiError(ErrorMessage(j), status)
  }

  /**
   * `apiFetch` once the response has arrived. `render` is `JSON.stringify`.
   * Every failure carries the response's status; a success returns the
   * parsed body, and a successful response whose body is not JSON rejects.
   * An error body that is not JSON always gives "Invalid error response":
   * `res.json()` has already consumed the body when it throws, so the
   * `res.text()` in the `catch` rejects and its fallback `""` is used.
   */
  function ApiFetch(res: Response, render: Json -> string): (r: Outcome)
    ensures res.ok && res.body.JsonBody? <==> r.Returned? && r.result.Success?
    ensures r.Returned? && r.result.Success? ==> r.result.data == res.body.json
    ensures !res.ok <==> r.Returned? && r.result.Failure?
    ensures !res.ok ==> r.result.error.status == res.status
    ensures r.Rejected? <==> res.ok && res.body.TextBody?
  {
    if !res.ok then
      match res.body
      case TextBody(_) => Returned(Failure(ApiError(InvalidErrorResponse, res.status)))
      case JsonBody(j) => Returned(Failure(JsonFailure(j, res.status, render)))
    else
      match res.body
      case JsonBody(j) => Returned(Success(j))
      case TextBody(_) => Rejected
  }

  /**
   * The failure message: "Invalid error response" when the body is not
   * JSON, an "Unexpected error shape" message for JSON of the wrong shape,
   * and the rendered detail otherwise.
   */
  lemma FailureMessages(res: Response, render: Json -> string)
    requires !res.ok
    ensures var m := ApiFetch(res, render).result.error.message;
      && (res.body.TextBody? ==> m == InvalidErrorResponse)
      && (res.body.JsonBody? && !IsErrorType(res.body.json) ==>
            StartsWith(m, "Unexpected error shape: "))
      && (res.body.JsonBody? && IsErrorType(res.body.json) ==> m == ErrorMessage(res.body.json))
  {
    if res.body.JsonBody? && !IsErrorType(res.body.json) {
      assert "Unexpected error shape: " <= ApiFetch(res, render).result.error.message;
    }
  }

  /**
   * `apiFetch` as its `catch` intends: the error body is read once as text
   * and parsed, so a body that is not JSON gives its own text as the
   * message. It agrees with `ApiFetch` on every other response.
   */
  function ApiFetchTextOnce(res: Response, render: Json -> string): (r: Outcome)
    ensures !res.ok && res.body.TextBody? ==>
      r == Returned(Failure(ApiError(if res.body.text != "" then res.body.text else InvalidErrorResponse, res.status)))
    ensures res.ok || res.body.JsonBody? ==> r == ApiFetch(res, render)
  {
    if !res.ok && res.body.TextBody? then
      Returned(Failure(ApiError(if res.body.text != "" then res.body.text else InvalidErrorResponse, res.status)))
    else ApiFetch(res, render)
  }

  /**
   * A plain-text error such as a proxy's "Bad Gateway" page reaches the
   * caller as "Invalid error response"; read once, its text is kept.
   */
  lemma ErrorTextIsLost(text: string, status: int, render: Json -> string)
    requires text != "" && text != InvalidErrorResponse
    ensures ApiFetch(Response(false, status, TextBody(text)), render).result.error.message == InvalidErrorResponse
    ensures ApiFetchTextOnce(Response(false, status, TextBody(text)), render).result.error.message == text
    ensures ApiFetch(Response(false, status, TextBody(text)), render)
      != ApiFetchTextOnce(Response(false, status, TextBody(text)), render)
  {
  }

  /** A string `detail` is passed through as the message. */
  lemma StringDetail(detail: string)
    ensures IsErrorType(JObj([("detail", JStr(detail))]))
    ensures ErrorMessage(JObj([("detail", JStr(detail))])) == detail
  {
  }

  /** An array `detail` of error details gives one line per detail, joined by newlines. */
  lemma ArrayDetail(details: seq<Json>)
    requires forall e :: e in details ==> IsErrorDetail(e)
    ensures IsErrorType(JObj([("detail", JArr(details))]))
    ensures ErrorMessage(JObj([("detail", JArr(details))])) == Join(DetailLines(details), "\n")
  {
  }

  /** An empty `detail` array is a valid error shape with an empty message. */
  lemma EmptyDetailArray()
    ensures IsErrorType(JObj([("detail", JArr([]))]))
    ensures ErrorMessage(JObj([("detail", JArr([]))])) == ""
  {
  }

  /** A detail `{loc, msg, type}` renders as `msg (type) at loc.join(".")`. */
  lemma DetailLineShape(locs: seq<Json>, msg: string, ty: string)
    ensures var d := JObj([("loc", JArr(locs)), ("msg", JStr(msg)), ("type", JStr(ty))]);
      DetailLine(d) == msg + " (" + ty + ") at " + Join(LocParts(locs), ".")
  {
    var d := JObj([("loc", JArr(locs)), ("msg", JStr(msg)), ("type", JStr(ty))]);
    var front := [("loc", JArr(locs)), ("msg", JStr(msg))];
    assert d.fields[..2] == front && front[..1] == [("loc", JArr(locs))];
    assert "type"[0] != "msg"[0] && "type"[0] != "loc"[0] && "msg"[0] != "loc"[0];
    assert Get(d, "msg") == LastValue(front, "msg");
    assert Get(d, "loc") == LastValue(front, "loc") == LastValue([("loc", JArr(locs))], "loc");
  }

  /** Null and a body without `detail` are not error shapes. */
  lemma NotErrorShapes()
    ensures !IsErrorType(JNull)
    ensures !IsErrorType(JObj([("unexpected", JStr("Oops"))]))
    ensures !IsErrorType(JObj([("detail", JNum(3))]))
  {
  }

  /**
   * Three failure responses: a string detail, an unexpected shape, and a
   * body that is not JSON.
   */
  lemma SampleFailures(render: Json -> string)
    ensures ApiFetch(Response(false, 500, JsonBody(JObj([("detail", JStr("Database error: constraint failed"))]))), render)
      == Returned(Failure(ApiError("Database error: constraint failed", 500)))
    ensures var r := ApiFetch(Response(false, 400, JsonBody(JObj([("unexpected", JStr("Oops"))]))), render);
      r.Returned? && r.result.Failure? && StartsWith(r.result.error.message, "Unexpected error shape")
    ensures ApiFetch(Response(false, 500, TextBody("Internal Server Error")), render)
      == Returned(Failure(ApiError(InvalidErrorResponse, 500)))
  {
    StringDetail("Database error: constraint failed");
    NotErrorShapes();
    var r := ApiFetch(Response(false, 400, JsonBody(JObj([("unexpected", JStr("Oops"))]))), render);
    assert StartsWith(r.result.error.message, "Unexpected error shape: ");
    assert "Unexpected error shape" <= "Unexpected error shape: ";
  }
}
