/** The request hooks and the error handler of the HTTP server's security
    setup. */
module Security {
  import opened Wrappers
  import opened JsText

  /** `config.security.maxPayloadSize`: 5 MiB. */
  const MaxPayloadSize: int := 5 * 1024 * 1024

  /** `parseInt(request.headers['content-length'] || 0)`: a missing or empty
      header reads as 0; `None` is `NaN`. */
  function ContentLength(header: Option<string>): (n: Option<int>)
    ensures !Truthy(header) ==> n == Some(0)
  {
    if Truthy(header) then ParseInt(header.value) else Some(0)
  }

  /** The payload-size hook: throws "Payload too large" exactly when the
      parsed length exceeds the limit; `NaN` compares false and passes. */
  function CheckPayload(header: Option<string>): (r: Result<()>)
    ensures r.Err? <==> ContentLength(header).Some? && ContentLength(header).value > MaxPayloadSize
    ensures r.Err? ==> r.error == "Payload too large"
  {
    var contentLength := ContentLength(header);
    if contentLength.Some? && contentLength.value > MaxPayloadSize then Err("Payload too large") else Ok(())
  }

  /** The thrown error as the handler sees it. */
  datatype ServerError = ServerError(statusCode: Option<int>, message: string, stack: Option<string>)

  datatype ErrorBody = ErrorBody(error: string, statusCode: int, stack: Option<string>)

  datatype ErrorReply = ErrorReply(status: int, body: ErrorBody)

  /** The error handler: the status is the error's non-zero `statusCode`,
      else 500; a 500 hides the message; the stack is sent only when
      `NODE_ENV` is "development". */
  function HandleError(e: ServerError, nodeEnv: Option<string>): (r: ErrorReply)
    ensures r.status == r.body.statusCode
    ensures r.status == (if e.statusCode.Some? && e.statusCode.value != 0 then e.statusCode.value else 500)
    ensures r.body.error == (if r.status == 500 then "Internal Server Error" else e.message)
    ensures r.body.stack.Some? ==> nodeEnv == Some("development")
    ensures nodeEnv == Some("development") ==> r.body.stack == e.stack
  {
    var statusCode := if e.statusCode.Some? && e.statusCode.value != 0 then e.statusCode.value else 500;
    var error := if statusCode == 500 then "Internal Server Error" else e.message;
    ErrorReply(statusCode, ErrorBody(error, statusCode, if nodeEnv == Some("development") then e.stack else None))
  }

  /** The header hook: the three security headers are set, replacing any
      earlier value, and no other header changes. Header names are compared
      exactly as written here; Fastify lower-cases them, so an earlier
      header differing only in case would be replaced there, which cannot
      arise in an `onRequest` hook that runs before any handler sets one. */
  function WithSecurityHeaders(headers: map<string, string>): (h: map<string, string>)
    ensures h.Keys == headers.Keys + {"X-Content-Type-Options", "X-Frame-Options", "X-XSS-Protection"}
    ensures h["X-Content-Type-Options"] == "nosniff"
    ensures h["X-Frame-Options"] == "DENY"
    ensures h["X-XSS-Protection"] == "1; mode=block"
    ensures forall k :: k in headers && k !in {"X-Content-Type-Options", "X-Frame-Options", "X-XSS-Protection"} ==>
      k in h && h[k] == headers[k]
  {
    headers["X-Content-Type-Options" := "nosniff"]["X-Frame-Options" := "DENY"]["X-XSS-Protection" := "1; mode=block"]
  }

  // ---------------------------------------------------------------------
  // Properties

  /** A length written in decimal is accepted exactly when it is at most
      the limit: the limit itself passes, one byte more does not. */
  lemma LimitIsInclusive(n: nat)
    ensures CheckPayload(Some(NatToDecimal(n))).Ok? <==> n <= MaxPayloadSize
  {
    DecimalRoundTrip(n);
  }

  /** A missing header is accepted. */
  lemma MissingHeaderAccepted()
    ensures CheckPayload(None) == Ok(())
    ensures CheckPayload(Some("")) == Ok(())
  {
  }

  /** An oversized payload reaches the client as a plain 500: the thrown
      error carries no status code, so its message is hidden. */
  lemma OversizeIsInternalError(header: Option<string>, stack: Option<string>, nodeEnv: Option<string>)
    requires CheckPayload(header).Err?
    ensures var r := HandleError(ServerError(None, CheckPayload(header).error, stack), nodeEnv);
      r.status == 500 && r.body == ErrorBody("Internal Server Error", 500, if nodeEnv == Some("development") then stack else None)
  {
  }

  /** Any error with a status other than 500 shows its own message. */
  lemma ClientErrorShowsMessage(e: ServerError, nodeEnv: Option<string>)
    requires e.statusCode.Some? && e.statusCode.value != 0 && e.statusCode.value != 500
    ensures HandleError(e, nodeEnv).body.error == e.message
  {
  }
}
