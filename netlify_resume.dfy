/**
 * The serverless resume download (netlify/functions/resume.js): dispatch on
 * the HTTP method, then 404, 200 with the file as base 64, or 500.
 */
module NetlifyResume {
  import opened Wrappers
  import opened Lambda
  import Base64

  /** What the file system gives: no file, its bytes, or a read that throws. */
  datatype FileRead = Missing | Contents(bytes: seq<Base64.byte>) | ReadFails

  const AttachmentDisposition := "attachment; filename=\"resume.pdf\""

  /** The reply carrying the file: PDF attachment headers and the base 64 of its bytes. */
  function FileResponse(bytes: seq<Base64.byte>): LambdaResponse {
    LambdaResponse(
      200,
      map[ContentType := "application/pdf", ContentDisposition := AttachmentDisposition,
          AllowOrigin := "*", AllowHeaders := "Content-Type", AllowMethods := "GET, OPTIONS"],
      Base64.Encode(bytes),
      true)
  }

  /** `exports.handler`, with the outcome of reading the file as an input. */
  function Handler(httpMethod: string, file: FileRead): (r: LambdaResponse)
    ensures r.statusCode in {200, 404, 405, 500}
    ensures r.isBase64Encoded <==> httpMethod == "GET" && file.Contents?
  {
    if httpMethod == "OPTIONS" then Preflight("GET, OPTIONS")
    else if httpMethod != "GET" then JsonError(405, "Method not allowed")
    else
      match file
      case Missing => JsonError(404, "Resume not found")
      case Contents(bytes) => FileResponse(bytes)
      case ReadFails => JsonError(500, "Error downloading resume")
  }

  /** OPTIONS: 200, no body, GET and OPTIONS allowed. */
  lemma PreflightReply(file: FileRead)
    ensures Handler("OPTIONS", file) == LambdaResponse(200, PreflightHeaders("GET, OPTIONS"), "", false)
  {
  }

  /** Any method but OPTIONS and GET: 405 "Method not allowed". */
  lemma OtherMethodsRefused(httpMethod: string, file: FileRead)
    requires httpMethod != "OPTIONS" && httpMethod != "GET"
    ensures Handler(httpMethod, file) == JsonError(405, "Method not allowed")
  {
  }

  /** A GET with no file: 404 "Resume not found". */
  lemma MissingFileNotFound()
    ensures Handler("GET", Missing) == JsonError(404, "Resume not found")
  {
  }

  /** A read that throws: 500 "Error downloading resume". */
  lemma ReadFailureReported()
    ensures Handler("GET", ReadFails) == JsonError(500, "Error downloading resume")
  {
  }

  /** A GET with the file: an attachment whose body, base 64 decoded, is exactly the file. */
  lemma DownloadIsTheFile(bytes: seq<Base64.byte>)
    ensures var r := Handler("GET", Contents(bytes));
      r.statusCode == 200 && r.isBase64Encoded &&
      r.headers[ContentType] == "application/pdf" && r.headers[ContentDisposition] == AttachmentDisposition &&
      Base64.Decode(r.body) == Some(bytes)
  {
    Base64.DecodeEncode(bytes);
  }

  /** Every reply but the preflight allows any origin. */
  lemma CorsOnEveryReply(httpMethod: string, file: FileRead)
    ensures AllowOrigin in Handler(httpMethod, file).headers
    ensures httpMethod != "OPTIONS" ==> Handler(httpMethod, file).headers[AllowOrigin] == "*"
  {
  }
}
