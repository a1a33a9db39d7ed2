/**
 * The central error translator: chooses the response status from the status
 * already set on the response and the error's own status code, and builds
 * the JSON error envelope.
 */
module ErrorHandler {
  import opened Common

  /** An error reaching the handler: its message, optional `statusCode`, and optional stack trace. */
  datatype AppError = AppError(message: string, statusCode: Option<int>, stack: Option<string>)

  /** The JSON body of every error response. */
  datatype ErrorEnvelope = ErrorEnvelope(status: string, message: string, stack: Option<string>)

  /** The status a response has before any handler sets one. */
  const DefaultStatus: int := 200

  /** A status set before the error was raised wins when it is an error status (400 or more). */
  predicate PresetIsError(preset: int) {
    preset != 0 && preset >= 400
  }

  /** The final status code. */
  function FinalStatus(preset: int, err: AppError): (code: int)
    ensures PresetIsError(preset) ==> code == preset
    ensures !PresetIsError(preset) && err.statusCode.Some? && err.statusCode.value != 0 ==> code == err.statusCode.value
    ensures !PresetIsError(preset) && (err.statusCode.None? || err.statusCode == Some(0)) ==> code == 500
  {
    if PresetIsError(preset) then preset
    else if err.statusCode.Some? && err.statusCode.value != 0 then err.statusCode.value
    else 500
  }

  /**
   * The final status is an error status exactly when the preset status is one,
   * or the error has no usable status code of its own, or its own code is one.
   */
  lemma FinalStatusIsErrorIff(preset: int, err: AppError)
    ensures FinalStatus(preset, err) >= 400 <==>
      (preset >= 400 || err.statusCode.None? || err.statusCode == Some(0) || err.statusCode.value >= 400)
  {
  }

  /** When nothing sets a status on the way, the response is a server error. */
  lemma UnsetStatusIsServerError(msg: string, stack: Option<string>)
    ensures FinalStatus(DefaultStatus, AppError(msg, None, stack)) == 500
  {
  }

  /** The error response: its status and its body. Stack traces are withheld in production. */
  function Handle(preset: int, err: AppError, production: bool): (r: (int, ErrorEnvelope))
    ensures r.0 == FinalStatus(preset, err)
    ensures r.1.status == "error" && r.1.message == err.message
    ensures r.1.stack.Some? <==> !production && err.stack.Some?
    ensures r.1.stack.Some? ==> r.1.stack == err.stack
  {
    (FinalStatus(preset, err), ErrorEnvelope("error", err.message, if production then None else err.stack))
  }
}
