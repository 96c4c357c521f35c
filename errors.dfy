/** Errors raised by the pattern compilers and the engine session. */
module HapticxError {

  datatype HapticxError =
    | DeviceNotSupported
    | EngineNotInitialized
    | StartFailed
    | PlayFailed
    | InvalidPattern(reason: string)

  /** What pattern creation can throw: one of the library's own errors, or
      the platform rejecting the native pattern it was asked to build. */
  datatype PatternError = Haptic(error: HapticxError) | NativeRejected

  datatype Result<+T> = Ok(value: T) | Err(error: PatternError)

  /** The outcome of an engine operation that returns nothing or throws. */
  datatype Outcome = Pass | Fail(error: HapticxError)

  datatype Option<+T> = None | Some(value: T)
}
