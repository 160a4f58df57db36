/**
 * The client operations of src/services/api.ts that issue requests whose
 * order or contents matter: `uploadDocument`, `createChat` and
 * `sendMessage`, which uploads every attached file, one after the other,
 * before it posts the message.
 */
module ApiSend {
  import opened Wrappers
  import opened JsValues
  import opened ApiErrors
  import opened ApiHttp
  import opened ModelNames

  // ---------------------------------------------------------- uploadDocument

  /** The upload request: `chatId || Date.now().toString()` names the chat. */
  function UploadRequestFor(file: File, chatId: string, clock: string): (r: Request)
    ensures r.UploadDocumentRequest? && r.fileName == file.name
    ensures chatId != "" ==> r.chatId == chatId
  {
    UploadDocumentRequest(file.name, if chatId != "" then chatId else clock)
  }

  /**
   * `uploadDocument` given the reply to its request (lines 266-295). A failed
   * status is turned into an Error carrying the server's message (a body
   * that is not JSON counts as `{}`); whatever is thrown inside the `try` is
   * rethrown as `new Error(extractErrorMessage(error))`.
   */
  function UploadDocument(reply: Reply): (r: Completion<Value>)
    ensures r.Throw? ==> r.thrown.ErrorObj?
    ensures reply.Response? && reply.ok && reply.body.Json? ==> r == Normal(reply.body.value)
  {
    match reply
    case FetchRejected(reason) => Throw(Rethrown(reason))
    case Response(ok, body) =>
      if !ok then
        var errorData := if body.Json? then body.value else Obj([]);
        match ServerErrorMessage(errorData, "Failed to upload document")
        case Throw(t) => Throw(Rethrown(t))
        case Normal(m) => Throw(Rethrown(NewError(m)))
      else
        match body
        case Json(result) => Normal(result)
        case Malformed(reason) => Throw(Rethrown(reason))
  }

  /**
   * A failed upload whose error body gives the message `m` rejects with
   * that message behind one "Error: " (the `catch` of `uploadDocument` wraps
   * the Error it threw itself).
   */
  lemma UploadFailureWith(body: Body, m: string)
    requires m != ""
    requires ServerErrorMessage(if body.Json? then body.value else Obj([]), "Failed to upload document") == Normal(m)
    ensures UploadDocument(Response(false, body)) == Throw(NewError("Error: " + m))
  {
    RethrownPrefixesName(m);
  }

  /** A failed upload whose body carries a `detail` message rejects with that message. */
  lemma UploadFailureMessage(detail: string)
    requires detail != ""
    ensures UploadDocument(Response(false, Json(Obj([Prop("detail", Str(detail))])))) ==
            Throw(NewError("Error: " + detail))
  {
    UploadFailureWith(Json(Obj([Prop("detail", Str(detail))])), detail);
  }

  /**
   * A failed upload whose body is not JSON reads as `{}`, which is truthy, so
   * the message is `String({})`, "[object Object]".
   */
  lemma UploadFailureMalformed(reason: Value)
    ensures UploadDocument(Response(false, Malformed(reason))) == Throw(NewError("Error: " + "[object Object]"))
  {
    UploadFailureWith(Malformed(reason), "[object Object]");
  }

  /** Only a falsy JSON body such as `""` reaches the fixed text. */
  lemma UploadFailureFallback()
    ensures UploadDocument(Response(false, Json(Str("")))) == Throw(NewError("Error: " + "Failed to upload document"))
  {
    UploadFailureWith(Json(Str("")), "Failed to upload document");
  }

  // -------------------------------------------------------------- createChat

  /** The body `createChat` posts: a timestamp id and a model from the allow-list (lines 92-109). */
  function CreateChatRequestFor(model: string, title: string, systemPrompt: Option<string>, clock: string): (r: Request)
    ensures r.CreateChatRequest? && r.model in SupportedModels
    ensures r.model == SafeModel(model) && r.title == title && r.id == clock
  {
    CreateChatRequest(clock, title, SafeModel(model), systemPrompt)
  }

  /**
   * `createChat` given the reply (lines 111-119): a failed status rejects
   * with the fixed "Failed to create chat"; anything else thrown is rethrown
   * unchanged.
   */
  function CreateChat(reply: Reply): (r: Completion<Value>)
    ensures reply.FetchRejected? ==> r == Throw(reply.reason)
    ensures reply.Response? && !reply.ok ==> r == Throw(NewError("Failed to create chat"))
    ensures reply.Response? && reply.ok ==>
              r == (match reply.body case Json(v) => Normal(v) case Malformed(e) => Throw(e))
  {
    match reply
    case FetchRejected(reason) => Throw(reason)
    case Response(ok, body) =>
      if !ok then Throw(NewError("Failed to create chat"))
      else
        match body
        case Json(v) => Normal(v)
        case Malformed(reason) => Throw(reason)
  }

  // ------------------------------------------------------------- sendMessage

  /** Where the uploads of `sendMessage` go: `conversationId || 'temp'`. */
  function UploadTarget(conversationId: string): (r: string)
    ensures r != ""
  {
    if conversationId != "" then conversationId else "temp"
  }

  /** The `/chat` request; `conversationId || undefined` drops an empty id. */
  function ChatRequestFor(conversationId: string, message: string, model: string, systemPrompt: Option<string>): (r: Request)
    ensures r.ChatRequest? && r.model in SupportedModels && r.model == SafeModel(model)
    ensures r.conversationId == (if conversationId == "" then None else Some(conversationId))
  {
    ChatRequest(SafeModel(model), message, if conversationId == "" then None else Some(conversationId), systemPrompt)
  }

  /** One upload request per file, in array order. */
  function UploadRequests(files: seq<File>, chatId: string): (r: seq<Request>)
    ensures |r| == |files|
    ensures forall i :: 0 <= i < |files| ==> r[i] == UploadDocumentRequest(files[i].name, chatId)
  {
    seq(|files|, i requires 0 <= i < |files| => UploadDocumentRequest(files[i].name, chatId))
  }

  lemma UploadRequestsSnoc(files: seq<File>, chatId: string, i: nat)
    requires i < |files|
    ensures UploadRequests(files[..i + 1], chatId) ==
            UploadRequests(files[..i], chatId) + [UploadDocumentRequest(files[i].name, chatId)]
  {
  }

  /**
   * The reply to the `/chat` POST (lines 54-85): a failed status rejects with
   * the server's message; a truthy non-string `content` is replaced by its
   * JSON text; whatever is thrown is rethrown by the `catch` at line 88.
   */
  function FinishSend(reply: Reply): (r: Completion<Value>)
    ensures r.Throw? ==> r.thrown.ErrorObj?
    ensures reply.FetchRejected? || (reply.Response? && (!reply.ok || reply.body.Malformed?)) ==> r.Throw?
    ensures r.Normal? ==> r.value.Null? || r.value.Undefined? || Get(r.value, "content").value.Str? ||
                          !Truthy(Get(r.value, "content").value)
  {
    match reply
    case FetchRejected(reason) => Throw(Rethrown(reason))
    case Response(ok, body) =>
      match body
      case Malformed(reason) => Throw(Rethrown(reason))
      case Json(data) =>
        if !ok then
          match ServerErrorMessage(data, "Failed to send message")
          case Throw(t) => Throw(Rethrown(t))
          case Normal(m) => Throw(Rethrown(NewError(m)))
        else
          match Get(data, "content")
          case Throw(t) => Throw(Rethrown(t))
          case Normal(content) =>
            if Truthy(content) && !content.Str? then Normal(WithContent(data, Str(Stringify(content))))
            else Normal(data)
  }

  /**
   * `data.content = text`. A truthy `content` was read from `data`, so `data`
   * is an object; other values are returned as they are.
   */
  function WithContent(data: Value, text: Value): (r: Value)
    ensures data.Obj? ==> r.Obj? && Lookup(r.props, "content") == text
  {
    match data
    case Obj(props) =>
      LookupSetSame(props, "content", text);
      Obj(SetProp(props, "content", text))
    case _ => data
  }

  /**
   * A successful reply whose `content` is truthy and not a string gets the
   * JSON text of that content; every other field is kept.
   */
  lemma FinishSendStringifiesContent(props: seq<Prop>)
    requires Truthy(Lookup(props, "content")) && !Lookup(props, "content").Str?
    ensures FinishSend(Response(true, Json(Obj(props)))) ==
            Normal(Obj(SetProp(props, "content", Str(Stringify(Lookup(props, "content"))))))
  {
  }

  /**
   * Every other successful reply is returned as it is: an object whose
   * `content` is a string or falsy, and any JSON value that is not an object
   * and not `null`.
   */
  lemma FinishSendKeepsReply(data: Value)
    requires !data.Null? && !data.Undefined?
    requires data.Obj? ==> Lookup(data.props, "content").Str? || !Truthy(Lookup(data.props, "content"))
    ensures FinishSend(Response(true, Json(data))) == Normal(data)
  {
  }

  /** A successful reply of `null` fails on `data.content`, and the `catch` wraps the TypeError. */
  lemma FinishSendNullData()
    ensures FinishSend(Response(true, Json(Null))) ==
            Throw(NewError("TypeError: " + "Cannot read " + "properties of null " + "(reading '" + "content" + "')"))
  {
    var message := "Cannot read " + "properties of null " + "(reading '" + "content" + "')";
    assert Get(Null, "content") == Throw(ErrorObj("TypeError", message));
    RethrownTypeError(message);
  }

  /**
   * A failed `/chat` POST whose error data gives the message `m` rejects with
   * that message behind one "Error: " (the `catch` wraps the Error thrown
   * inside the `try`).
   */
  lemma FinishSendFailureWith(data: Value, m: string)
    requires m != ""
    requires ServerErrorMessage(data, "Failed to send message") == Normal(m)
    ensures FinishSend(Response(false, Json(data))) == Throw(NewError("Error: " + m))
  {
    RethrownPrefixesName(m);
  }

  /** A failed `/chat` POST with a `detail` message rejects with it behind one "Error: ". */
  lemma FinishSendFailureMessage(detail: string)
    requires detail != ""
    ensures FinishSend(Response(false, Json(Obj([Prop("detail", Str(detail))])))) ==
            Throw(NewError("Error: " + detail))
  {
    FinishSendFailureWith(Obj([Prop("detail", Str(detail))]), detail);
  }

  /**
   * A failed upload reaches the caller of `sendMessage` through two `catch`
   * layers, so the server's `detail` arrives behind "Error: Error: ".
   */
  lemma SendMessageUploadErrorText(detail: string)
    requires detail != ""
    ensures Rethrown(UploadDocument(Response(false, Json(Obj([Prop("detail", Str(detail))])))).thrown) ==
            NewError("Error: " + "Error: " + detail)
  {
    UploadFailureMessage(detail);
    RethrownPrefixesName("Error: " + detail);
    assert "Error: " + ("Error: " + detail) == "Error: " + "Error: " + detail;
  }

  /** What the `k`-th upload of `sendMessage` settles to. */
  function UploadOutcome(files: seq<File>, target: string, clock: string,
                         server: (nat, Request) -> Reply, k: nat): Completion<Value>
    requires k < |files|
  {
    UploadDocument(server(k, UploadRequestFor(files[k], target, clock)))
  }

  /** The first `n` uploads all succeed. */
  predicate UploadsSucceed(files: seq<File>, target: string, clock: string,
                           server: (nat, Request) -> Reply, n: nat)
    requires n <= |files|
  {
    forall k :: 0 <= k < n ==> UploadOutcome(files, target, clock, server, k).Normal?
  }

  lemma UploadsSucceedExtend(files: seq<File>, target: string, clock: string,
                             server: (nat, Request) -> Reply, n: nat)
    requires n < |files| && UploadsSucceed(files, target, clock, server, n)
    requires UploadOutcome(files, target, clock, server, n).Normal?
    ensures UploadsSucceed(files, target, clock, server, n + 1)
  {
  }

  /**
   * `sendMessage(conversationId, message, model, systemPrompt, files)`.
   * `server(i, request)` is the reply to the `i`-th request issued; `sent`
   * lists the requests in the order they are issued. Every file is uploaded,
   * in array order and to `conversationId || 'temp'`, before the `/chat`
   * POST; the first failed upload ends the call, so the POST is never issued,
   * and its error is rethrown by the `catch` at line 88.
   */
  method SendMessage(conversationId: string, message: string, model: string, systemPrompt: Option<string>,
                     files: seq<File>, clock: string, server: (nat, Request) -> Reply)
    returns (result: Completion<Value>, sent: seq<Request>)
    ensures var target := UploadTarget(conversationId);
            var post := ChatRequestFor(conversationId, message, model, systemPrompt);
            UploadsSucceed(files, target, clock, server, |files|) ==>
              sent == UploadRequests(files, target) + [post] &&
              result == FinishSend(server(|files|, post))
    ensures var target := UploadTarget(conversationId);
            !UploadsSucceed(files, target, clock, server, |files|) ==>
              exists k :: 0 <= k < |files| && UploadsSucceed(files, target, clock, server, k) &&
                UploadOutcome(files, target, clock, server, k).Throw? &&
                sent == UploadRequests(files[..k + 1], target) &&
                result == Throw(Rethrown(UploadOutcome(files, target, clock, server, k).thrown))
    ensures result.Throw? ==> result.thrown.ErrorObj?
    ensures forall i :: 0 <= i < |sent| && sent[i].ChatRequest? ==> sent[i].model in SupportedModels
  {
    var target := UploadTarget(conversationId);
    sent := [];
    var i := 0;
    while i < |files|
      invariant 0 <= i <= |files|
      invariant sent == UploadRequests(files[..i], target)
      invariant UploadsSucceed(files, target, clock, server, i)
    {
      var request := UploadRequestFor(files[i], target, clock);
      var outcome := UploadDocument(server(|sent|, request));
      assert outcome == UploadOutcome(files, target, clock, server, i);
      if outcome.Normal? {
        UploadsSucceedExtend(files, target, clock, server, i);
      }
      UploadRequestsSnoc(files, target, i);
      sent := sent + [request];
      if outcome.Throw? {
        result := Throw(Rethrown(outcome.thrown));
        assert !UploadsSucceed(files, target, clock, server, |files|);
        return;
      }
      i := i + 1;
    }
    var post := ChatRequestFor(conversationId, message, model, systemPrompt);
    result := FinishSend(server(|sent|, post));
    sent := sent + [post];
  }
}
