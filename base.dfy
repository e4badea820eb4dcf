/** Values shared by every component: optional values, results, and the
    failures that the engine's collaborators can raise. */
module Base {

  datatype Option<T> = None | Some(value: T)

  datatype Result<T> = Ok(value: T) | Err(error: Failure)

  /** The exception classes the engine reacts to.  Each comes from Python
      itself, the HTTP client or the cloud SDK; the model only needs to tell
      them apart. */
  datatype FailureKind =
    | ValueErr            // ValueError: bad mode or provider token
    | RuntimeErr          // RuntimeError: missing credential
    | AttributeErr        // AttributeError: a JSON null or non-object where a dict was expected
    | DecodeErr           // json.JSONDecodeError: a body that is not JSON
    | ConnectErr          // httpx.ConnectError
    | ReadTimeout         // httpx.ReadTimeout
    | HttpStatusErr       // httpx.HTTPStatusError from raise_for_status
    | OtherHttpErr        // any other httpx.HTTPError (write/pool/connect timeouts, ...)
    | ApiConnectionErr    // openai.APIConnectionError (and its timeout subclass)
    | AuthenticationErr   // openai.AuthenticationError
    | RateLimitErr        // openai.RateLimitError
    | ApiErr              // any other openai.APIError

  /** A raised exception: its class and what `str(error)` gives. */
  datatype Failure = Failure(kind: FailureKind, message: string)
}
