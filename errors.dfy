/** Failure-carrying values shared by the whole model. Python raises
    exceptions; here every operation that can raise returns a `Result`
    whose `Failure` names the exception class. */
module Errors {

  datatype Option<+T> = None | Some(value: T)

  /** The exception classes the modelled code can raise. `UpstreamError`
      stands for any failure of the language-model provider (network,
      credentials, malformed tool call), which this model does not look inside. */
  datatype Error =
    | KeyError
    | AttributeError
    | TypeError
    | ValueError
    | IndexError
    | UpstreamError(reason: string)

  datatype Result<+T> = Success(value: T) | Failure(error: Error)
}
