/** What the client raises, one constructor per kind of failure a caller can
    observe (exchange_rate_client/exceptions.py and the bare exceptions of
    exchange_rate_client/_client.py). */
module Exceptions {
  import Json
  import Commons

  /** The four API error classes the client raises by name. */
  datatype ApiErrorKind = UnsupportedCode | InvalidKey | InactiveAccount | QuotaReached

  datatype Failure =
      /** UnsupportedCodeError, InvalidKeyError, InactiveAccountError or
          QuotaReachedError, with its message. */
    | ApiError(kind: ApiErrorKind, message: string)
      /** The bare exception "Unexpected error type: ..." raised for an
          `error-type` no branch recognises; it carries the raw value. */
    | UnexpectedErrorType(errorType: Json.Value)
      /** Any other bare exception, with its message. */
    | Error(message: string)
      /** ValueError, raised for a negative amount. */
    | ValueError(message: string)
      /** The TypeError or ValueError Python raises when `supported_codes`
          cannot be unpacked as `code, _` pairs. */
    | MalformedCodeList
      /** The validation error of a record constructor: every failed field. */
    | ValidationError(errors: seq<Commons.FieldError>)
}
