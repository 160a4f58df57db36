/**
 * The response-shape coercion of the API client's best-effort reads:
 * `getChats`, `getChatHistory` and `generateTitle` in src/services/api.ts.
 * Each maps one reply to a value and never fails: whatever would throw inside
 * their `try` (a rejected fetch, a non-ok status, a body that is not JSON, a
 * property read on `null`) gives the default instead.
 */
module ApiNormalise {
  import opened JsValues
  import opened ApiHttp

  /** `typeof v === 'string' ? v : fallback`. */
  function StringOr(v: Value, fallback: Value): Value
  {
    if v.Str? then v else fallback
  }

  /** The body of a reply that settled with an ok status and parsed as JSON. */
  predicate IsOkJson(reply: Reply)
  {
    reply.Response? && reply.ok && reply.body.Json?
  }

  // ---------------------------------------------------------------- getChats

  /** What every chat summary handed to the caller looks like. */
  predicate IsChatSummary(c: Value)
  {
    c.Obj? &&
    Lookup(c.props, "title").Str? &&
    Lookup(c.props, "model").Str? &&
    (Lookup(c.props, "system_prompt").Str? || Lookup(c.props, "system_prompt").Undefined?)
  }

  /** `{...chat, title: ..., model: ..., system_prompt: ...}` for one list element (lines 135-140). */
  function NormaliseChat(chat: Value): (r: Completion<Value>)
    ensures r.Throw? <==> chat.Null? || chat.Undefined?
    ensures r.Normal? ==> IsChatSummary(r.value)
  {
    if chat.Null? || chat.Undefined? then Throw(Get(chat, "title").thrown)
    else
      ChatPropsFields(chat);
      Normal(Obj(ChatProps(chat)))
  }

  /** The properties of the literal, for a `chat` that is neither `null` nor `undefined`. */
  function ChatProps(chat: Value): seq<Prop>
    requires !chat.Null? && !chat.Undefined?
  {
    SetProp(SetProp(SetProp(Spread(chat),
      "title", StringOr(Get(chat, "title").value, Str("New Chat"))),
      "model", StringOr(Get(chat, "model").value, Str("gemini-2.0-flash"))),
      "system_prompt", StringOr(Get(chat, "system_prompt").value, Undefined))
  }

  /**
   * One normalised chat: a string title (else "New Chat"), a string model
   * (else "gemini-2.0-flash"), a string system prompt (else `undefined`), and
   * for an object every other property as it was.
   */
  lemma ChatPropsFields(chat: Value)
    requires !chat.Null? && !chat.Undefined?
    ensures Lookup(ChatProps(chat), "title") == StringOr(Get(chat, "title").value, Str("New Chat"))
    ensures Lookup(ChatProps(chat), "model") == StringOr(Get(chat, "model").value, Str("gemini-2.0-flash"))
    ensures Lookup(ChatProps(chat), "system_prompt") == StringOr(Get(chat, "system_prompt").value, Undefined)
    ensures chat.Obj? ==> forall k :: k != "title" && k != "model" && k != "system_prompt" ==>
              Lookup(ChatProps(chat), k) == Lookup(chat.props, k)
  {
    var title := StringOr(Get(chat, "title").value, Str("New Chat"));
    var model := StringOr(Get(chat, "model").value, Str("gemini-2.0-flash"));
    var prompt := StringOr(Get(chat, "system_prompt").value, Undefined);
    var p1 := SetProp(Spread(chat), "title", title);
    var p2 := SetProp(p1, "model", model);
    LookupSetSame(p2, "system_prompt", prompt);
    LookupSetOther(p2, "system_prompt", prompt, "model");
    LookupSetSame(p1, "model", model);
    LookupSetOther(p2, "system_prompt", prompt, "title");
    LookupSetOther(p1, "model", model, "title");
    LookupSetSame(Spread(chat), "title", title);
    forall k | k != "title" && k != "model" && k != "system_prompt"
      ensures Lookup(ChatProps(chat), k) == Lookup(Spread(chat), k)
    {
      LookupSetOther(p2, "system_prompt", prompt, k);
      LookupSetOther(p1, "model", model, k);
      LookupSetOther(Spread(chat), "title", title, k);
    }
  }

  /**
   * `items.map(f)` for a callback that may throw (the `chats.map(...)` and
   * `messages.map(...)` of lines 135 and 160): the elements in order, and the
   * first element whose callback throws ends the map.
   */
  function MapOrThrow(f: Value -> Completion<Value>, items: seq<Value>): (r: Completion<seq<Value>>)
    ensures r.Throw? <==> exists i :: 0 <= i < |items| && f(items[i]).Throw?
    ensures r.Normal? ==> |r.value| == |items|
    ensures r.Normal? ==> forall i :: 0 <= i < |items| ==> f(items[i]) == Normal(r.value[i])
  {
    if items == [] then Normal([])
    else
      match f(items[0])
      case Throw(t) => Throw(t)
      case Normal(first) =>
        match MapOrThrow(f, items[1..])
        case Throw(t) =>
          ghost var i :| 0 <= i < |items[1..]| && f(items[1..][i]).Throw?;
          assert f(items[i + 1]).Throw?;
          Throw(t)
        case Normal(rest) =>
          assert forall i :: 0 <= i < |items| - 1 ==> items[1..][i] == items[i + 1];
          Normal([first] + rest)
  }

  /** `getChats()` given the reply to `GET /chats` (lines 122-145). */
  function GetChats(reply: Reply): (r: seq<Value>)
    ensures !IsOkJson(reply) ==> r == []
    ensures forall i :: 0 <= i < |r| ==> IsChatSummary(r[i])
  {
    match reply
    case FetchRejected(_) => []
    case Response(ok, body) =>
      if !ok then []
      else
        match body
        case Malformed(_) => []
        case Json(data) =>
          match Get(data, "chats")
          case Throw(_) => []
          case Normal(chats) =>
            if !chats.Arr? then []
            else
              match MapOrThrow(NormaliseChat, chats.items)
              case Throw(_) => []
              case Normal(summaries) => summaries
  }

  /**
   * A `chats` array without `null`/`undefined` elements comes back with the
   * same length, each element normalised at its own index; a non-array
   * `chats` gives `[]`, and so does a body that is not an object (`null.chats`
   * throws, and any other value has no `chats`).
   */
  lemma GetChatsOfList(data: Value)
    ensures !data.Obj? ==> GetChats(Response(true, Json(data))) == []
    ensures data.Obj? ==> var chats := Lookup(data.props, "chats");
      && (!chats.Arr? ==> GetChats(Response(true, Json(data))) == [])
      && (chats.Arr? && (forall i :: 0 <= i < |chats.items| ==> !chats.items[i].Null? && !chats.items[i].Undefined?) ==>
            |GetChats(Response(true, Json(data)))| == |chats.items| &&
            forall i :: 0 <= i < |chats.items| ==>
              NormaliseChat(chats.items[i]) == Normal(GetChats(Response(true, Json(data)))[i]))
  {
  }

  /** One `null` element makes the whole list fail, so the caller gets `[]`. */
  lemma GetChatsNullElement(data: Value, i: nat)
    requires data.Obj? && Lookup(data.props, "chats").Arr?
    requires i < |Lookup(data.props, "chats").items| && Lookup(data.props, "chats").items[i].Null?
    ensures GetChats(Response(true, Json(data))) == []
  {
  }

  /** A wrongly typed title is replaced, a string one passes through. */
  lemma ChatTitleExamples()
    ensures Lookup(NormaliseChat(Obj([Prop("title", Num(123))])).value.props, "title") == Str("New Chat")
    ensures Lookup(NormaliseChat(Obj([Prop("title", Str("Trip"))])).value.props, "title") == Str("Trip")
  {
    ChatPropsFields(Obj([Prop("title", Num(123))]));
    ChatPropsFields(Obj([Prop("title", Str("Trip"))]));
  }

  // ---------------------------------------------------------- getChatHistory

  /**
   * `typeof c === 'string' ? c : typeof c === 'object' ? JSON.stringify(c) : String(c || '')`:
   * the content of one history message as a string.
   */
  function ContentText(c: Value): string
  {
    if c.Str? then c.s
    else if IsObjectType(c) then Stringify(c)
    else ToStr(if Truthy(c) then c else Str(""))
  }

  /** A string is kept, an object serialised, and a missing `content` or a `0`/`false` is "". */
  lemma ContentTextCases(c: Value)
    ensures c.Str? ==> ContentText(c) == c.s
    ensures c.Null? ==> ContentText(c) == "null"
    ensures (c.Obj? || c.Arr?) ==> ContentText(c) == Stringify(c)
    ensures (c.Undefined? || c == Num(0) || c == Bool(false)) ==> ContentText(c) == ""
    ensures c.Num? && c.n != 0 ==> ContentText(c) == IntToDecimal(c.n)
  {
  }

  /** What every history message handed to the caller looks like. */
  predicate IsChatMessage(m: Value)
  {
    m.Obj? && Lookup(m.props, "content").Str? && Lookup(m.props, "role").Str?
  }

  /** `{...msg, content: ..., role: ...}` for one history element (lines 160-166). */
  function NormaliseMessage(msg: Value): (r: Completion<Value>)
    ensures r.Throw? <==> msg.Null? || msg.Undefined?
    ensures r.Normal? ==> IsChatMessage(r.value)
  {
    if msg.Null? || msg.Undefined? then Throw(Get(msg, "content").thrown)
    else
      MessagePropsFields(msg);
      Normal(Obj(MessageProps(msg)))
  }

  function MessageProps(msg: Value): seq<Prop>
    requires !msg.Null? && !msg.Undefined?
  {
    SetProp(SetProp(Spread(msg),
      "content", Str(ContentText(Get(msg, "content").value))),
      "role", StringOr(Get(msg, "role").value, Str("user")))
  }

  /**
   * One normalised message: its content as a string (by `ContentText`), a
   * string role (else "user"), and for an object every other property as it was.
   */
  lemma MessagePropsFields(msg: Value)
    requires !msg.Null? && !msg.Undefined?
    ensures Lookup(MessageProps(msg), "content") == Str(ContentText(Get(msg, "content").value))
    ensures Lookup(MessageProps(msg), "role") == StringOr(Get(msg, "role").value, Str("user"))
    ensures msg.Obj? ==> forall k :: k != "content" && k != "role" ==>
              Lookup(MessageProps(msg), k) == Lookup(msg.props, k)
  {
    var content := Str(ContentText(Get(msg, "content").value));
    var role := StringOr(Get(msg, "role").value, Str("user"));
    var p1 := SetProp(Spread(msg), "content", content);
    LookupSetSame(p1, "role", role);
    LookupSetOther(p1, "role", role, "content");
    LookupSetSame(Spread(msg), "content", content);
    forall k | k != "content" && k != "role"
      ensures Lookup(MessageProps(msg), k) == Lookup(Spread(msg), k)
    {
      LookupSetOther(p1, "role", role, k);
      LookupSetOther(Spread(msg), "content", content, k);
    }
  }

  /**
   * `getChatHistory(chatId, limit)` given the reply to `GET /chats/{id}`
   * (lines 147-171); the id and the limit only shape the URL.
   */
  function GetChatHistory(reply: Reply): (r: seq<Value>)
    ensures !IsOkJson(reply) ==> r == []
    ensures forall i :: 0 <= i < |r| ==> IsChatMessage(r[i])
  {
    match reply
    case FetchRejected(_) => []
    case Response(ok, body) =>
      if !ok then []
      else
        match body
        case Malformed(_) => []
        case Json(data) =>
          match Get(data, "messages")
          case Throw(_) => []
          case Normal(messages) =>
            if !messages.Arr? then []
            else
              match MapOrThrow(NormaliseMessage, messages.items)
              case Throw(_) => []
              case Normal(normalised) => normalised
  }

  /**
   * A `messages` array without `null`/`undefined` elements comes back with
   * the same length, each element normalised at its own index; a non-array
   * gives `[]`, and so do an array holding a `null` and a body that is not
   * an object.
   */
  lemma GetChatHistoryOfList(data: Value)
    ensures !data.Obj? ==> GetChatHistory(Response(true, Json(data))) == []
    ensures data.Obj? ==> var msgs := Lookup(data.props, "messages");
      && (!msgs.Arr? ==> GetChatHistory(Response(true, Json(data))) == [])
      && (msgs.Arr? && Null in msgs.items ==> GetChatHistory(Response(true, Json(data))) == [])
      && (msgs.Arr? && (forall i :: 0 <= i < |msgs.items| ==> !msgs.items[i].Null? && !msgs.items[i].Undefined?) ==>
            |GetChatHistory(Response(true, Json(data)))| == |msgs.items| &&
            forall i :: 0 <= i < |msgs.items| ==>
              NormaliseMessage(msgs.items[i]) == Normal(GetChatHistory(Response(true, Json(data)))[i]))
  {
    if data.Obj? && Lookup(data.props, "messages").Arr? && Null in Lookup(data.props, "messages").items {
      var msgs := Lookup(data.props, "messages");
      var i :| 0 <= i < |msgs.items| && msgs.items[i] == Null;
      assert NormaliseMessage(msgs.items[i]).Throw?;
    }
  }

  // ----------------------------------------------------------- generateTitle

  /** `{ title: 'New Chat' }`, the answer whenever anything fails. */
  const DefaultTitle: Value := Obj([Prop("title", Str("New Chat"))])

  /** `generateTitle(content, model)` given the reply to `POST /generate-title` (lines 237-264). */
  function GenerateTitle(reply: Reply): (r: Value)
    ensures r.Obj? && Lookup(r.props, "title").Str?
    ensures !IsOkJson(reply) ==> r == DefaultTitle
    ensures IsOkJson(reply) && (reply.body.value.Null? || reply.body.value.Undefined?) ==> r == DefaultTitle
  {
    match reply
    case FetchRejected(_) => DefaultTitle
    case Response(ok, body) =>
      if !ok then DefaultTitle
      else
        match body
        case Malformed(_) => DefaultTitle
        case Json(data) =>
          match Get(data, "title")
          case Throw(_) => DefaultTitle
          case Normal(title) =>
            LookupSetSame(Spread(data), "title", StringOr(title, Str("New Chat")));
            Obj(SetProp(Spread(data), "title", StringOr(title, Str("New Chat"))))
  }

  /** An object body keeps all its properties; only a non-string `title` is replaced by "New Chat". */
  lemma GenerateTitleOfObject(data: Value)
    requires data.Obj?
    ensures var r := GenerateTitle(Response(true, Json(data)));
      && Lookup(r.props, "title") == StringOr(Lookup(data.props, "title"), Str("New Chat"))
      && forall k :: k != "title" ==> Lookup(r.props, k) == Lookup(data.props, k)
  {
    var t := StringOr(Lookup(data.props, "title"), Str("New Chat"));
    LookupSetSame(data.props, "title", t);
    forall k | k != "title" ensures Lookup(SetProp(data.props, "title", t), k) == Lookup(data.props, k) {
      LookupSetOther(data.props, "title", t, k);
    }
  }
}
