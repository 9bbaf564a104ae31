/** The final error middleware (middlewares/error.js): chooses a status and a
    message for an error by a fixed precedence of rules, masks internal
    messages in production and includes the stack trace only in development.
    The log line it writes first is not modelled. */
module ErrorHandler {
  import opened Wrappers
  import opened Json
  import opened Errors

  /** The value of `NODE_ENV`. */
  datatype Env = Development | Production | OtherEnv

  /** What the handler does: pass the error on (the response was already
      started) or answer. */
  datatype Handling = Forward(error: Error) | Respond(response: Response)

  const InternalMessage: string := "Internal server error"

  /** The status and message of the first rule that matches `e`:
      a ValidationError, then a CastError, then the duplicate-key code 11000,
      then a truthy `status` of the error's own, and otherwise 500. */
  function Classify(e: Error): (r: (int, string))
    ensures e.name == "ValidationError" ==> r == (400, "Validation failed")
    ensures e.name != "ValidationError" && e.name == "CastError" ==> r == (400, "Invalid ID format")
    ensures e.name != "ValidationError" && e.name != "CastError" && e.code == NumCode(11000) ==>
              r == (409, "Duplicate entry")
    ensures e.name != "ValidationError" && e.name != "CastError" && e.code != NumCode(11000) ==>
              (HasStatus(e) ==> r == (e.status.value, e.message)) &&
              (!HasStatus(e) ==> r == (500, InternalMessage))
  {
    if e.name == "ValidationError" then (400, "Validation failed")
    else if e.name == "CastError" then (400, "Invalid ID format")
    else if e.code == NumCode(11000) then (409, "Duplicate entry")
    else if HasStatus(e) then (e.status.value, e.message)
    else (500, InternalMessage)
  }

  /** The message sent: a 500's message is replaced in production. */
  function Masked(status: int, message: string, env: Env): (m: string)
    ensures status == 500 && env == Production ==> m == InternalMessage
    ensures !(status == 500 && env == Production) ==> m == message
  {
    if status == 500 && env == Production then InternalMessage else message
  }

  /** `{ ok: false, error: { message, stack? } }`, the stack only in development. */
  function ErrorResponseBody(message: string, e: Error, env: Env): Json {
    JObj([("ok", JBool(false)),
          ("error", JObj([("message", JStr(message))] + if env == Development then [("stack", JStr(e.stack))] else []))])
  }

  /** errorHandler. */
  function Handle(e: Error, headersSent: bool, env: Env): (h: Handling)
    ensures headersSent <==> h == Forward(e)
    ensures !headersSent ==>
              var (status, message) := Classify(e);
              h == Respond(Response(status, ErrorResponseBody(Masked(status, message, env), e, env)))
  {
    if headersSent then Forward(e)
    else
      var (status, message) := Classify(e);
      Respond(Response(status, ErrorResponseBody(Masked(status, message, env), e, env)))
  }

  /** The message of an answered error, and whether it carries a stack. */
  function SentMessage(h: Handling): Option<string> {
    if h.Respond? && h.response.body.JObj? && |h.response.body.fields| == 2 &&
       h.response.body.fields[1].1.JObj? && |h.response.body.fields[1].1.fields| >= 1 &&
       h.response.body.fields[1].1.fields[0].1.JStr?
    then Some(h.response.body.fields[1].1.fields[0].1.s)
    else None
  }

  function HasStack(h: Handling): bool {
    h.Respond? && h.response.body.JObj? && |h.response.body.fields| == 2 &&
    h.response.body.fields[1].1.JObj? && |h.response.body.fields[1].1.fields| == 2
  }

  /** Every answer says `ok: false`, carries a message, and carries the stack
      trace exactly in development. */
  lemma BodyShape(e: Error, env: Env)
    ensures var h := Handle(e, false, env);
            h.Respond? && h.response.body.JObj? && Field(h.response.body.fields, "ok") == Some(JBool(false)) &&
            SentMessage(h).Some? && (HasStack(h) <==> env == Development)
  {
  }

  /** The errors the services throw with a status (such as their 404s) reach the
      client with that status and their own message, unless the message is an
      internal 500 in production. */
  lemma ServiceStatusReachesClient(message: string, env: Env)
    ensures var h := Handle(NotFound(message), false, env);
            h.Respond? && h.response.status == 404 && SentMessage(h) == Some(message)
  {
  }

  /** In production no 500 answer reveals anything but the generic message,
      whatever the error said. */
  lemma ProductionMasksInternal(e: Error)
    ensures var h := Handle(e, false, Production);
            h.Respond? && (h.response.status == 500 ==> SentMessage(h) == Some(InternalMessage))
  {
  }

  /** In development a status-500 error's own message is shown. */
  lemma DevelopmentShowsMessage(e: Error)
    requires e.name != "ValidationError" && e.name != "CastError" && e.code != NumCode(11000)
    requires e.status == Some(500)
    ensures SentMessage(Handle(e, false, Development)) == Some(e.message)
  {
  }

  /** The name checks come first: a ValidationError is a 400 even when it also
      has the duplicate-key code and a status of its own. */
  lemma ValidationPrecedes(e: Error, env: Env)
    requires e.name == "ValidationError"
    ensures var h := Handle(e, false, env);
            h.Respond? && h.response.status == 400 && SentMessage(h) == Some("Validation failed")
  {
  }

  /** Every status sent is one of the fixed ones or the error's own. */
  lemma StatusRange(e: Error, env: Env)
    ensures var h := Handle(e, false, env);
            h.Respond? && (h.response.status in {400, 409, 500} || (HasStatus(e) && h.response.status == e.status.value))
  {
  }
}
