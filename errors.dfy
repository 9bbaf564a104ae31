/** The shape of a thrown JavaScript error, as far as the retry predicates, the
    services and the error-to-HTTP mapping inspect it. */
module Errors {
  import opened Wrappers

  /** `err.code`: absent, numeric (MongoDB's 11000) or textual (`ECONNRESET`). */
  datatype ErrorCode = NoCode | NumCode(n: int) | StrCode(s: string)

  datatype Error = Error(name: string, message: string, code: ErrorCode, status: Option<int>, stack: string)

  /** `err.status` is truthy: present and not zero. */
  predicate HasStatus(e: Error) {
    e.status.Some? && e.status.value != 0
  }

  /** `Object.assign(new Error(message), { status: 404 })`, as the services throw it.
      The stack trace is not modelled and is left empty. */
  function NotFound(message: string): (e: Error)
    ensures e.name == "Error" && e.message == message
    ensures e.code == NoCode && e.status == Some(404) && HasStatus(e)
  {
    Error("Error", message, NoCode, Some(404), "")
  }
}
