/**
 * The HTTP exchanges of the API client (src/services/api.ts), with `fetch`
 * replaced by data: what each request asks for, and the reply the backend
 * (or the network) gave.
 */
module ApiHttp {
  import opened Wrappers
  import opened JsValues
  import opened ModelNames

  /** The body of a response: what `response.json()` resolves to, or what it rejects with. */
  datatype Body = Json(value: Value) | Malformed(reason: Value)

  /** A fetch that settled with a status (`ok` is `response.ok`), or one that rejected. */
  datatype Reply = Response(ok: bool, body: Body) | FetchRejected(reason: Value)

  /** A file chosen for upload; only its name reaches the model. */
  datatype File = File(name: string)

  /** The requests whose order or contents the model tracks. */
  datatype Request =
    | UploadDocumentRequest(fileName: string, chatId: string)
    | ChatRequest(model: string, message: string, conversationId: Option<string>, systemPrompt: Option<string>)
    | CreateChatRequest(id: string, title: string, model: string, systemPrompt: Option<string>)
}
