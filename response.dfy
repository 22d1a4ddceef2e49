/** The uniform responses of backend/src/utils/response.ts: a status code, the JSON
    content type with three fixed CORS headers, and a JSON body. */
module Responses {
  import opened Wrappers
  import opened Json

  /** An API Gateway proxy result. The body is the JSON value that is serialized. */
  datatype ApiResponse = ApiResponse(statusCode: int, headers: map<string, string>, body: JsonValue)

  const CorsHeaders: map<string, string> := map[
    "Access-Control-Allow-Origin" := "*",
    "Access-Control-Allow-Methods" := "GET,POST,PUT,DELETE,OPTIONS",
    "Access-Control-Allow-Headers" := "Content-Type,Authorization"
  ]

  const ResponseHeaders: map<string, string> := map["Content-Type" := "application/json"] + CorsHeaders

  /** The headers every response carries, and no others. */
  predicate HasStandardHeaders(r: ApiResponse) {
    && r.headers.Keys == {"Content-Type", "Access-Control-Allow-Origin",
                          "Access-Control-Allow-Methods", "Access-Control-Allow-Headers"}
    && r.headers["Content-Type"] == "application/json"
    && r.headers["Access-Control-Allow-Origin"] == "*"
    && r.headers["Access-Control-Allow-Methods"] == "GET,POST,PUT,DELETE,OPTIONS"
    && r.headers["Access-Control-Allow-Headers"] == "Content-Type,Authorization"
  }

  /** The message of an error body, if the body is an object with a string `error`. */
  function ErrorText(r: ApiResponse): Option<string> {
    if r.body.JObj? && "error" in r.body.fields && r.body.fields["error"].JStr?
    then Some(r.body.fields["error"].s)
    else None
  }

  /** `success(data, statusCode = 200)`. */
  function Success(data: JsonValue, statusCode: int := 200): (r: ApiResponse)
    ensures r.statusCode == statusCode && r.body == data
    ensures HasStandardHeaders(r)
  {
    ApiResponse(statusCode, ResponseHeaders, data)
  }

  /** `error(message, statusCode = 400, details)`: the body is `{error: message, ...details}`,
      so a `details.error` entry overrides the message. An omitted `details` is the empty map. */
  function Error(message: string, statusCode: int := 400, details: map<string, JsonValue> := map[]): (r: ApiResponse)
    ensures r.statusCode == statusCode && HasStandardHeaders(r)
    ensures r.body.JObj? && r.body.fields.Keys == {"error"} + details.Keys
    ensures forall k :: k in details ==> r.body.fields[k] == details[k]
    ensures "error" !in details ==> ErrorText(r) == Some(message)
  {
    ApiResponse(statusCode, ResponseHeaders, JObj(map["error" := JStr(message)] + details))
  }

  /** The body of an error response without details: `{error: message}`. */
  predicate IsError(r: ApiResponse, statusCode: int, message: string) {
    && r.statusCode == statusCode
    && HasStandardHeaders(r)
    && r.body == JObj(map["error" := JStr(message)])
  }

  function Unauthorized(message: string := "Unauthorized"): (r: ApiResponse)
    ensures IsError(r, 401, message) && ErrorText(r) == Some(message)
  {
    Error(message, 401)
  }

  function Forbidden(message: string := "Forbidden"): (r: ApiResponse)
    ensures IsError(r, 403, message) && ErrorText(r) == Some(message)
  {
    Error(message, 403)
  }

  function NotFound(message: string := "Not Found"): (r: ApiResponse)
    ensures IsError(r, 404, message) && ErrorText(r) == Some(message)
  {
    Error(message, 404)
  }

  /** The one helper without a default message. */
  function BadRequest(message: string): (r: ApiResponse)
    ensures IsError(r, 400, message) && ErrorText(r) == Some(message)
  {
    Error(message, 400)
  }

  function ServerError(message: string := "Internal Server Error"): (r: ApiResponse)
    ensures IsError(r, 500, message) && ErrorText(r) == Some(message)
  {
    Error(message, 500)
  }

  function MethodNotAllowed(message: string := "Method Not Allowed"): (r: ApiResponse)
    ensures IsError(r, 405, message) && ErrorText(r) == Some(message)
  {
    Error(message, 405)
  }

  /** The defaults of the named helpers. */
  lemma DefaultMessages()
    ensures ErrorText(Unauthorized()) == Some("Unauthorized")
    ensures ErrorText(Forbidden()) == Some("Forbidden")
    ensures ErrorText(NotFound()) == Some("Not Found")
    ensures ErrorText(ServerError()) == Some("Internal Server Error")
    ensures ErrorText(MethodNotAllowed()) == Some("Method Not Allowed")
    ensures Success(JNull).statusCode == 200 && Error("").statusCode == 400
  {
  }
}
