/** The response helpers every API controller inherits: success/failure
    bodies that drop nil values, error bodies with a default status of 400,
    and the blanket `rescue_from Exception` that renders any escaped
    exception. */
module ApiController {
  import opened JsonValues

  /** A rendered JSON body. */
  type Body = map<string, Json>

  /** A raised Ruby exception; only its message reaches a response. */
  datatype Exception = Exception(message: string)

  /** How a request ends: the action rendered a body, an exception escaped,
      or a `before_action` rendered a body with an HTTP status and so halted
      the request before the action ran. */
  datatype Outcome =
    | Rendered(body: Body)
    | Raised(exception: Exception)
    | Halted(body: Body, httpStatus: int)

  const DefaultErrorStatus: int := 400
  const NotAuthorizedMessage: string := "You are not authorized to perform this action."

  /** `Hash#compact`: drop every pair whose value is nil. */
  function Compact(m: Body): (r: Body)
    ensures r.Keys <= m.Keys
    ensures forall k :: k in r ==> r[k] == m[k] && r[k] != JNull
    ensures forall k :: k in m && m[k] != JNull ==> k in r
  {
    map k | k in m && m[k] != JNull :: m[k]
  }

  /** `json_success(data = nil)`: `{success: true, doc: data}.compact`. */
  function JsonSuccess(data: Json): (r: Body)
    ensures "success" in r && r["success"] == JBool(true)
    ensures "doc" in r <==> data != JNull
    ensures "doc" in r ==> r["doc"] == data
    ensures r.Keys <= {"success", "doc"}
    ensures data == JNull ==> r == map["success" := JBool(true)]
  {
    Compact(map["success" := JBool(true), "doc" := data])
  }

  /** `json_fail(msg)`: `{success: false, error: msg}.compact`. */
  function JsonFail(msg: Json): (r: Body)
    ensures "success" in r && r["success"] == JBool(false)
    ensures "error" in r <==> msg != JNull
    ensures "error" in r ==> r["error"] == msg
    ensures r.Keys <= {"success", "error"}
  {
    Compact(map["success" := JBool(false), "error" := msg])
  }

  /** `render_error_msg(msg, code = nil)`: status is `code || 400`; the body
      is not compacted, so a nil message is kept. */
  function RenderErrorMsg(msg: Json, code: Json): (r: Body)
    ensures r.Keys == {"success", "error", "status"}
    ensures r["success"] == JBool(false) && r["error"] == msg
    ensures !Truthy(code) ==> r["status"] == JNum(DefaultErrorStatus)
    ensures Truthy(code) ==> r["status"] == code
  {
    map["success" := JBool(false), "error" := msg, "status" := Or(code, JNum(DefaultErrorStatus))]
  }

  /** `render_error(exception)`: the exception's message, and `params[:code] || 400`. */
  function RenderError(e: Exception, params: map<string, Json>): (r: Body)
    ensures r.Keys == {"success", "error", "status"}
    ensures r["success"] == JBool(false) && r["error"] == JStr(e.message)
    ensures !Truthy(Get(params, "code")) ==> r["status"] == JNum(DefaultErrorStatus)
    ensures Truthy(Get(params, "code")) ==> r["status"] == params["code"]
  {
    map["success" := JBool(false), "error" := JStr(e.message),
        "status" := Or(Get(params, "code"), JNum(DefaultErrorStatus))]
  }

  /** `user_not_authorized`: a failure body with the fixed message. */
  function UserNotAuthorized(): (r: Body)
    ensures r == map["success" := JBool(false), "error" := JStr(NotAuthorizedMessage)]
  {
    JsonFail(JStr(NotAuthorizedMessage))
  }

  /** `rescue_from Exception, with: :render_error`: the body the client gets
      for an action's outcome. */
  function Respond(outcome: Outcome, params: map<string, Json>): (r: Body)
    ensures !outcome.Raised? ==> r == outcome.body
    ensures outcome.Raised? ==> r.Keys == {"success", "error", "status"}
    ensures outcome.Raised? ==> r["success"] == JBool(false) && r["error"] == JStr(outcome.exception.message)
    ensures outcome.Raised? && !Truthy(Get(params, "code")) ==> r["status"] == JNum(DefaultErrorStatus)
    ensures outcome.Raised? && Truthy(Get(params, "code")) ==> r["status"] == params["code"]
  {
    match outcome
    case Rendered(body) => body
    case Halted(body, _) => body
    case Raised(e) => RenderError(e, params)
  }
}
