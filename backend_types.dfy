/**
 * What the FastAPI backend's handlers exchange with each other and with the
 * services they call: chat messages, the results of service calls, and the
 * `HTTPException`s they raise.
 */
module BackendTypes {
  import opened Wrappers
  import JsValues

  /**
   * A `{"role": ..., "content": ...}` message of the conversation cache and of
   * the model calls. The content is `None` where the code stores a `None`
   * system prompt.
   */
  datatype Message = Message(role: string, content: Option<string>)

  /**
   * The outcome of a call into a service that is not modelled (the database,
   * the model APIs, the document and web-search services, the page fetch):
   * the value it returned, or `str(e)` of the exception it raised.
   */
  datatype Fallible<T> = Returned(value: T) | Raised(message: string)

  /** An `HTTPException`: status code and detail. */
  datatype HttpError = HttpError(status: nat, detail: string)

  /** What a handler answers: a JSON body, or the `HTTPException` it raises. */
  datatype Answer<T> = Ok(body: T) | Failed(error: HttpError)

  /** `str(e)` of an `HTTPException`: the status code, a colon and a space, then the detail. */
  function ErrorText(e: HttpError): (r: string)
    ensures |r| >= 3 + |e.detail| && r[|r| - |e.detail|..] == e.detail
  {
    JsValues.NatToDecimal(e.status) + ": " + e.detail
  }

  /** The two model services the backend can call. */
  datatype Service = Gemini | Groq

  /**
   * Which service answers: Groq for `groq-llama`, Gemini for every other name
   * (lines 140-143 for titles, 250-255 for chats).
   */
  function ServiceFor(model: string): Service
  {
    if model == "groq-llama" then Groq else Gemini
  }
}
