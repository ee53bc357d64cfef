/**
 The error records handlers pass to `next`, the replies a handler can produce,
 and the application-level 404 fallback and global error handler of `index.js`.
 */
module Http {

  /** The `code` property of an error object. Handlers set a numeric HTTP
      status; multer sets a symbolic code such as "LIMIT_FILE_SIZE"; a plain
      `Error` has none. */
  datatype ErrorCode = NoCode | Status(n: int) | Symbolic(name: string)

  /** `HttpError(message, code)`, and every other error object, reduced to the
      two properties the error handler reads. */
  datatype HttpError = HttpError(message: string, code: ErrorCode)

  /** The value handed to `res.status`: a number, or a code string passed on verbatim. */
  datatype StatusValue = Numeric(n: int) | Verbatim(s: string)

  /** What the global error handler does with an error. */
  datatype HandlerOutcome =
    | Forward(error: HttpError)                       // `return next(error)`: no body written
    | Respond(status: StatusValue, message: string)   // `res.status(..).json({message})`

  /** What a route handler does: send a JSON body itself, pass an error to
      `next`, or throw outside any `try` (an async handler whose rejection
      Express does not catch: no response at all). */
  datatype Reply<B> = Sent(status: int, body: B) | Passed(error: HttpError) | Uncaught

  /** The response the client finally sees for a reply. */
  datatype Delivered<B> =
    | Body(status: StatusValue, json: B)
    | ErrorBody(status: StatusValue, message: string)
    | NoResponse

  const LimitFileSize := "LIMIT_FILE_SIZE"
  const FileTooLargeMessage := "File size too large!"
  const UnknownErrorMessage := "An unknown error occurred"
  const RouteNotFoundMessage := "Could not find this route."
  const InvalidInputsMessage := "Invalid inputs passed, please check your data"

  /** JavaScript truthiness of `error.code`: `undefined`, `0` and `""` are falsy. */
  predicate CodeIsSet(c: ErrorCode) {
    match c
    case NoCode => false
    case Status(n) => n != 0
    case Symbolic(name) => name != ""
  }

  /** The status an error's own code names, when it names one. */
  function OwnStatus(c: ErrorCode): StatusValue
    requires CodeIsSet(c)
  {
    match c
    case Status(n) => Numeric(n)
    case Symbolic(name) => Verbatim(name)
  }

  /** The error every request that matches no route is turned into. */
  function RouteNotFound(): (e: HttpError)
    ensures e.code == Status(404) && e.message == RouteNotFoundMessage
  {
    HttpError(RouteNotFoundMessage, Status(404))
  }

  /** The global error-handling middleware. `headerSent` is the truthiness of
      the property `res.headerSent` the middleware reads. Express 4 and later do
      not define that property (the defined one is `headersSent`), so it reads
      as undefined and the forwarding branch is never taken. */
  function HandleError(e: HttpError, headerSent: bool): (r: HandlerOutcome)
    // the file-size check comes first, even when headers were already sent
    ensures e.code == Symbolic(LimitFileSize) ==> r == Respond(Numeric(413), FileTooLargeMessage)
    // forwarding happens exactly when a response is already under way
    ensures r.Forward? <==> headerSent && e.code != Symbolic(LimitFileSize)
    ensures r.Forward? ==> r.error == e
    // otherwise the error's own code and message are used, falling back to 500 and a fixed text
    ensures r.Respond? && e.code != Symbolic(LimitFileSize) ==>
              && (CodeIsSet(e.code) ==> r.status == OwnStatus(e.code))
              && (!CodeIsSet(e.code) ==> r.status == Numeric(500))
              && (e.message != "" ==> r.message == e.message)
              && (e.message == "" ==> r.message == UnknownErrorMessage)
  {
    if e.code == Symbolic(LimitFileSize) then
      Respond(Numeric(413), FileTooLargeMessage)
    else if headerSent then
      Forward(e)
    else
      Respond(if CodeIsSet(e.code) then OwnStatus(e.code) else Numeric(500),
              if e.message != "" then e.message else UnknownErrorMessage)
  }

  /** A handler reply turned into the client's response. `res.headerSent` is
      undefined, so the error handler is always given `false`. */
  function Deliver<B>(reply: Reply<B>): (d: Delivered<B>)
    ensures reply.Sent? ==> d == Body(Numeric(reply.status), reply.body)
    ensures reply.Passed? ==> d.ErrorBody?
    ensures d.NoResponse? <==> reply.Uncaught?
  {
    match reply
    case Sent(status, body) => Body(Numeric(status), body)
    case Passed(e) =>
      var o := HandleError(e, false);
      if o.Respond? then ErrorBody(o.status, o.message) else NoResponse
    case Uncaught => NoResponse
  }

  /** An `HttpError` built with a message and a non-zero numeric status comes
      back to the client exactly as it was built. */
  lemma HttpErrorRoundTrip<B>(message: string, n: int)
    requires message != "" && n != 0
    ensures Deliver<B>(Passed(HttpError(message, Status(n)))) == ErrorBody(Numeric(n), message)
  {
  }

  /** An unmatched route answers 404 with the fixed message. */
  lemma UnmatchedRouteAnswers404<B>()
    ensures Deliver<B>(Passed(RouteNotFound())) == ErrorBody(Numeric(404), RouteNotFoundMessage)
  {
  }

  /** An error without a code, or with code 0, is answered with 500. */
  lemma UncodedErrorAnswers500<B>(message: string, c: ErrorCode)
    requires !CodeIsSet(c)
    ensures Deliver<B>(Passed(HttpError(message, c))).status == Numeric(500)
  {
  }
}
