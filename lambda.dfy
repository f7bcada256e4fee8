/** What the two serverless functions share: the response object a Netlify function returns, and its header sets. */
module Lambda {

  /** The object a handler returns; `isBase64Encoded` is false where the source leaves it out. */
  datatype LambdaResponse = LambdaResponse(statusCode: int, headers: map<string, string>, body: string, isBase64Encoded: bool)

  const AllowOrigin := "Access-Control-Allow-Origin"
  const AllowHeaders := "Access-Control-Allow-Headers"
  const AllowMethods := "Access-Control-Allow-Methods"
  const ContentType := "Content-Type"
  const ContentDisposition := "Content-Disposition"

  /** `JSON.stringify({ message: m })` for a message with no quote, backslash or control character. */
  function MessageJson(m: string): string {
    "{\"message\":\"" + m + "\"}"
  }

  /** The headers of a preflight reply that allows `methods`. */
  function PreflightHeaders(methods: string): map<string, string> {
    map[AllowOrigin := "*", AllowHeaders := "Content-Type", AllowMethods := methods]
  }

  /** The headers of a JSON reply from either function's error paths. */
  function JsonHeaders(): map<string, string> {
    map[ContentType := "application/json", AllowOrigin := "*"]
  }

  /** The reply to OPTIONS: 200, no body, permissive CORS headers. */
  function Preflight(methods: string): (r: LambdaResponse)
    ensures r.statusCode == 200 && r.body == "" && !r.isBase64Encoded
    ensures AllowMethods in r.headers && r.headers[AllowMethods] == methods
    ensures AllowOrigin in r.headers && r.headers[AllowOrigin] == "*"
  {
    LambdaResponse(200, PreflightHeaders(methods), "", false)
  }

  /** A JSON reply `{ message }` with status `status`, from an error path. */
  function JsonError(status: int, message: string): (r: LambdaResponse)
    ensures r.statusCode == status && r.body == MessageJson(message) && !r.isBase64Encoded
    ensures AllowOrigin in r.headers && r.headers[AllowOrigin] == "*"
    ensures ContentType in r.headers && r.headers[ContentType] == "application/json"
  {
    LambdaResponse(status, JsonHeaders(), MessageJson(message), false)
  }
}
