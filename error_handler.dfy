/** The client's error classifier, `ApiErrorHandler` in
    `client/src/services/errorHandler.ts`, over a model of JavaScript values. The code
    as written throws a `TypeError` for some inputs; `HandleErrorAsWritten` keeps that
    behaviour and `HandleError` is the classifier that never throws. */
module ApiErrors {
  import opened Wrappers

  /** A JavaScript value: the primitives and objects. `fields` holds every property
      visible to `in` and to a property read, those inherited through the prototype
      chain included (`'message' in new Error()` holds through `Error.prototype`). */
  datatype JsValue =
    | Undefined
    | Null
    | Bool(b: bool)
    | Num(x: real)
    | Str(s: string)
    | Obj(fields: map<string, JsValue>)

  /** The exception the as-written code can raise. */
  datatype TypeError = TypeError

  predicate Nullish(v: JsValue)
  {
    v.Undefined? || v.Null?
  }

  /** JavaScript truthiness. */
  predicate Truthy(v: JsValue)
  {
    match v
    case Undefined => false
    case Null => false
    case Bool(b) => b
    case Num(x) => x != 0.0
    case Str(s) => s != []
    case Obj(_) => true
  }

  /** Reading property `k` of a value that is not `null` or `undefined`. */
  function Get(v: JsValue, k: string): (r: JsValue)
    requires !Nullish(v)
    ensures !v.Obj? ==> r == Undefined
  {
    if v.Obj? && k in v.fields then v.fields[k] else Undefined
  }

  /** `error.response?.data` on a value that is not `null` or `undefined`. */
  function ResponseData(v: JsValue): JsValue
    requires !Nullish(v)
  {
    var response := Get(v, "response");
    if Nullish(response) then Undefined else Get(response, "data")
  }

  /** The default result for a value whose `message` property reads as `message`. */
  function DefaultError(message: JsValue): (r: JsValue)
    ensures r.Obj? && r.fields.Keys == {"error", "message", "code"}
    ensures r.fields["error"] == Str("Unknown Error") && r.fields["code"] == Str("UNKNOWN_ERROR")
    ensures r.fields["message"] == if Truthy(message) then message else Str("An unexpected error occurred")
  {
    Obj(map["error" := Str("Unknown Error"),
            "message" := (if Truthy(message) then message else Str("An unexpected error occurred")),
            "code" := Str("UNKNOWN_ERROR")])
  }

  /** `isApiError` as written: a falsy input is not an API error, an object is one when
      it has both a `code` and a `message` property, and `in` on any other value throws. */
  function IsApiErrorAsWritten(v: JsValue): (r: Result<bool, TypeError>)
    ensures Nullish(v) ==> r == Ok(false)
    ensures r.Err? <==> Truthy(v) && !v.Obj?
  {
    if !Truthy(v) then Ok(false)
    else if v.Obj? then Ok("code" in v.fields && "message" in v.fields)
    else Err(TypeError)
  }

  /** `handleError` as written: after `isApiError` fails, `error.response` is read even
      when `error` is `null` or `undefined`. An object never makes it throw. */
  function HandleErrorAsWritten(v: JsValue): (r: Result<JsValue, TypeError>)
    ensures Nullish(v) ==> r == Err(TypeError)
    ensures v.Obj? ==> r.Ok?
  {
    match IsApiErrorAsWritten(v)
    case Err(e) => Err(e)
    case Ok(isApi) =>
      if isApi then Ok(v)
      else if Nullish(v) then Err(TypeError)
      else if Truthy(ResponseData(v)) then Ok(ResponseData(v))
      else Ok(DefaultError(Get(v, "message")))
  }

  /** The as-written classifier throws for exactly the `null` and `undefined` inputs and
      the truthy primitives. */
  lemma AsWrittenThrowsExactly(v: JsValue)
    ensures HandleErrorAsWritten(v).Err? <==> Nullish(v) || (Truthy(v) && !v.Obj?)
  {
  }

  /** `handleError(null)` and `handleError("timeout")` throw instead of returning the
      default error. */
  lemma AsWrittenThrowsOnNull()
    ensures HandleErrorAsWritten(Null) == Err(TypeError)
    ensures HandleErrorAsWritten(Undefined) == Err(TypeError)
    ensures HandleErrorAsWritten(Str("timeout")) == Err(TypeError)
  {
  }

  /** `isApiError` that never throws: only an object with both properties qualifies. */
  function IsApiError(v: JsValue): (r: bool)
    ensures Nullish(v) ==> !r
    ensures IsApiErrorAsWritten(v).Ok? ==> IsApiErrorAsWritten(v).value == r
    ensures IsApiErrorAsWritten(v).Err? ==> !r
  {
    v.Obj? && "code" in v.fields && "message" in v.fields
  }

  /** `handleError` that never throws: the input itself when it is an API error, else a
      truthy `response.data`, else the default error carrying the input's truthy
      `message` or the generic text. */
  function HandleError(v: JsValue): (r: JsValue)
    ensures IsApiError(v) ==> r == v
    ensures !IsApiError(v) && !Nullish(v) && Truthy(ResponseData(v)) ==> r == ResponseData(v)
    ensures !IsApiError(v) && (Nullish(v) || !Truthy(ResponseData(v))) ==>
              r == DefaultError(if Nullish(v) then Undefined else Get(v, "message"))
    ensures Nullish(v) ==> r == DefaultError(Undefined)
  {
    if IsApiError(v) then v
    else if !Nullish(v) && Truthy(ResponseData(v)) then ResponseData(v)
    else DefaultError(if Nullish(v) then Undefined else Get(v, "message"))
  }

  /** Wherever the as-written classifier returns, the corrected one returns the same. */
  lemma CorrectedAgreesWhereAsWrittenReturns(v: JsValue)
    ensures HandleErrorAsWritten(v).Ok? ==> HandleErrorAsWritten(v).value == HandleError(v)
  {
  }

  /** The API-error check comes first: an object with `code` and `message` is returned
      unchanged even when it also carries `response.data`. */
  lemma ApiErrorTakesPriority(code: JsValue, message: JsValue, data: JsValue)
    requires Truthy(data)
    ensures var v := Obj(map["code" := code, "message" := message,
                             "response" := Obj(map["data" := data])]);
            HandleError(v) == v && HandleErrorAsWritten(v) == Ok(v)
  {
  }

  /** An axios-style error without `code` yields its `response.data`. */
  lemma ResponseDataScenario(data: JsValue)
    requires Truthy(data)
    ensures HandleError(Obj(map["message" := Str("Request failed"),
                                "response" := Obj(map["data" := data])])) == data
  {
    var v := Obj(map["message" := Str("Request failed"), "response" := Obj(map["data" := data])]);
    assert ResponseData(v) == data;
  }
}
