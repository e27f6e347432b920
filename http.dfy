/** What the serverless handlers answer with, and why a request can end in status 500. */
module Http {

  /** Why a handler's `try` block was left through its `catch`. */
  datatype Fault =
    | ContextNotDefined      // a helper called `context.log.warn`, but `context` is not in its scope: ReferenceError
    | UpstreamFailure        // an Azure SDK call rejected; its message is not modelled
    | Thrown(message: string) // an explicit `throw new Error(message)`

  /** `context.res`: status 200 with a body, status 400 with `{error}`, or status 500 with
      `{error: prefix + the fault's message}` (`{error: prefix, details: message}` for the topology). */
  datatype Response<T> =
    | Success(body: T)
    | BadRequest(error: string)
    | ServerError(prefix: string, fault: Fault)
}
