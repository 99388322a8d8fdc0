/** Error values: the two machine-readable codes and the constructor that attaches
    a code and, when one is given, a cause to a message. */
module ErrorHelper {
  import opened Wrappers
  import opened Json

  const EXCHANGE_SERVER_ERROR: string := "exchange_server_error"
  const MODULE_ERROR: string := "internal_module_error"

  /** The original error data an error may carry: an opaque native error (a transport
      failure, a JSON syntax error), a plain string, or the error built from the
      exchange's `error` array (its message is that array in JSON text). */
  datatype Cause =
    | Native(detail: string)
    | Text(text: string)
    | ExchangeMessages(messages: seq<string>)

  /** Truthiness of an `errorCause` argument: undefined, null and '' are falsy. */
  predicate TruthyCause(c: Option<Cause>) {
    match c
    case None => false
    case Some(Text(t)) => t != ""
    case Some(_) => true
  }

  /** A native `Error` with the properties the adapter attaches to it. `errorMessages` is
      set only for an exchange error array; `responseBody` only for an unexpected
      Ledgers reply, as the JSON value whose `JSON.stringify` text the source attaches. */
  datatype Error = Error(
    message: string,
    code: string,
    cause: Option<Cause>,
    errorMessages: Option<seq<string>>,
    responseBody: Option<Json>)

  /** What a callback receives as its error argument: an `Error`, a bare string
      (the missing-credentials case), or an exception the source leaves uncaught,
      such as a property read on `undefined`. */
  datatype Failure =
    | Raised(error: Error)
    | Message(text: string)
    | Thrown(context: string)

  /** `constructError(message, errorCode, errorCause)`. */
  function Create(message: string, errorCode: string, errorCause: Option<Cause>): (e: Error)
    ensures e.message == message && e.code == errorCode
    ensures e.cause.Some? <==> TruthyCause(errorCause)
    ensures e.cause.Some? ==> e.cause == errorCause
    ensures e.errorMessages.None? && e.responseBody.None?
  {
    Error(message, errorCode, if TruthyCause(errorCause) then errorCause else None, None, None)
  }

  lemma CodesAreDistinct()
    ensures EXCHANGE_SERVER_ERROR != MODULE_ERROR
  {
    assert EXCHANGE_SERVER_ERROR[0] != MODULE_ERROR[0];
  }

  /** Passing `null` (or an empty string) as the cause leaves `cause` unset. */
  lemma NullCauseIsAbsent(message: string, errorCode: string)
    ensures Create(message, errorCode, None).cause.None?
    ensures Create(message, errorCode, Some(Text(""))).cause.None?
  {
  }
}
