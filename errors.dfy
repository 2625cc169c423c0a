/** The centralised error middleware (`errorHandler`) and the `ExpressError` class it reads. */
module Errors {
  import opened Wrappers

  const DefaultStatus := 500
  const DefaultMessage := "Internal Server Error"

  /** An error as it reaches the error middleware: a plain `Error` has no `status`,
      an `ExpressError` carries one. JavaScript treats a `status` of 0 as absent. */
  datatype Error = Error(message: string, status: Option<int>)

  /** `new Error(message)`. */
  function PlainError(message: string): (e: Error)
    ensures e.message == message && e.status.None?
  {
    Error(message, None)
  }

  /** `new ExpressError(message, status)`: it carries exactly the message and status it
      was constructed with. */
  function ExpressError(message: string, status: int): (e: Error)
    ensures e.message == message && e.status == Some(status)
  {
    Error(message, Some(status))
  }

  /** The `stack` member of the JSON body: the trace in development, `{}` otherwise. */
  datatype StackField = Trace(text: string) | EmptyObject

  datatype Envelope = Envelope(success: bool, status: int, message: string, stack: StackField)

  datatype ErrorResponse = ErrorResponse(httpStatus: int, body: Envelope)

  /** `error.status || 500` */
  function StatusOf(e: Error): int {
    if e.status.Some? && e.status.value != 0 then e.status.value else DefaultStatus
  }

  /** `error.message || "Internal Server Error"` */
  function MessageOf(e: Error): string {
    if e.message != "" then e.message else DefaultMessage
  }

  /** The response the error middleware writes for `e`. `trace` is the runtime's stack
      trace of `e` and `nodeEnv` the value of `NODE_ENV`, if set. The envelope always says
      `success: false`, its `status` is the status sent: the error's own when it is truthy,
      500 otherwise; the message is the error's own when non-empty, the default otherwise;
      and the trace is exposed only in the `dev` environment. */
  function ErrorHandler(e: Error, trace: string, nodeEnv: Option<string>): (r: ErrorResponse)
    ensures !r.body.success
    ensures r.body.status == r.httpStatus && r.httpStatus != 0
    ensures e.status.Some? && e.status.value != 0 ==> r.httpStatus == e.status.value
    ensures (e.status.None? || e.status.value == 0) ==> r.httpStatus == DefaultStatus
    ensures r.body.message != ""
    ensures e.message != "" ==> r.body.message == e.message
    ensures e.message == "" ==> r.body.message == DefaultMessage
    ensures r.body.stack.Trace? <==> nodeEnv == Some("dev")
    ensures r.body.stack.Trace? ==> r.body.stack.text == trace
  {
    var status := StatusOf(e);
    ErrorResponse(status, Envelope(false, status, MessageOf(e),
                                   if nodeEnv == Some("dev") then Trace(trace) else EmptyObject))
  }

  /** An `ExpressError` is reported with its own status unless that status is 0, which
      becomes 500, and with its own message unless that message is empty, which becomes
      the default one. */
  lemma ExpressErrorReported(message: string, status: int, trace: string, nodeEnv: Option<string>)
    ensures ErrorHandler(ExpressError(message, status), trace, nodeEnv).httpStatus ==
              if status != 0 then status else DefaultStatus
    ensures ErrorHandler(ExpressError(message, status), trace, nodeEnv).body.message ==
              if message != "" then message else DefaultMessage
  {
  }

  /** A plain `Error` is always reported as 500, with its own message unless that message
      is empty, which becomes the default one. */
  lemma PlainErrorDefaults(message: string, trace: string, nodeEnv: Option<string>)
    ensures ErrorHandler(PlainError(message), trace, nodeEnv).httpStatus == DefaultStatus
    ensures ErrorHandler(PlainError(message), trace, nodeEnv).body.message ==
              if message != "" then message else DefaultMessage
  {
  }
}
