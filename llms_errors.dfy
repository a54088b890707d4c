/**
 * The values shared with the provider-independent `llms` package: the
 * structured error a provider call can fail with and the tool definitions
 * a request may carry.
 */
module Llms {
  import opened Wrappers

  newtype byte = x: int | 0 <= x < 256

  /** `llms.LLMError`: a provider failure with its status code and raw body. */
  datatype LLMError = LLMError(
    message: string,
    errorMessage: string,
    statusCode: int,
    errorType: string,
    rawResponse: seq<byte>)
  {
    /** The text of the error, as Go's `Error()` method returns it. */
    function Error(): string {
      message
    }
  }

  /**
   * The function part of `llms.Tool`; `S` stands for the JSON schema of the
   * parameters, which is passed through without inspection.
   */
  datatype FunctionDefinition<S> = FunctionDefinition(name: string, description: string, parameters: S)

  /** `llms.Tool`; `definition` is `None` where Go's pointer is nil. */
  datatype Tool<S> = Tool(typ: string, definition: Option<FunctionDefinition<S>>)
}
