/** `PipelineError(message, phase)`, and the result of an operation that may raise it. */
module Errors {
  import opened Wrappers

  datatype PipelineError = PipelineError(message: string, phase: Option<nat>)

  datatype Result<+T> = Ok(value: T) | Fail(error: PipelineError)
}
