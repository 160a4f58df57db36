/**
 * The backend's conversation cache: a dictionary from chat id to the message
 * list sent to the model, which `chat`, `delete_chat` and
 * `update_system_prompt` change in place. The database, the model APIs and
 * the document and web-search services are parameters.
 */
module ChatBackend {
  import opened Wrappers
  import opened PyStrings
  import opened BackendTypes
  import opened ModelNames

  /**
   * The system prompt of a conversation that has none (lines 185 and 190).
   * Long texts are written as sums of short literals throughout the model,
   * which keeps the verifier's reasoning about them cheap.
   */
  const DefaultSystemPrompt: string :=
    "You are a helpful " + "AI assistant that " + "provides " + "informative, " +
    "engaging responses " + "with appropriate " + "emojis. Always be " + "comprehensive and " +
    "knowledgeable in " + "your analysis."

  /** Appended to the reply when it used an agent's web search. */
  const WebSearchNote: string := "\n\n\U{1F916} *This response " + "includes real-time " + "information from " + "web search.*"

  // ---------------------------------------------------------- cache entries

  /** Lines 204-205: a list of more than 16 messages keeps its first message and its last 15. */
  function Trim(l: seq<Message>): (r: seq<Message>)
    ensures |l| <= 16 ==> r == l
    ensures |l| > 16 ==> |r| == 16 && r[0] == l[0] && r[1..] == l[|l| - 15..]
  {
    if |l| > 16 then [l[0]] + l[|l| - 15..] else l
  }

  /** Trimming never leaves more than 16 messages and keeps the first one. */
  lemma TrimBounds(l: seq<Message>)
    requires l != []
    ensures 1 <= |Trim(l)| <= 16 && Trim(l)[0] == l[0]
    ensures Trim(Trim(l)) == Trim(l)
  {
  }

  /** The messages of `history` whose role is not `"system"`, in order. */
  function NonSystem(history: seq<Message>): seq<Message>
  {
    if history == [] then []
    else
      var last := history[|history| - 1];
      NonSystem(history[..|history| - 1]) + (if last.role == "system" then [] else [last])
  }

  /** Dropping system messages is a filter: it distributes over concatenation... */
  lemma {:induction false} NonSystemAppend(a: seq<Message>, b: seq<Message>)
    ensures NonSystem(a + b) == NonSystem(a) + NonSystem(b)
    decreases |b|
  {
    if b == [] {
      assert a + b == a;
    } else {
      var b' := b[..|b| - 1];
      assert (a + b)[..|a + b| - 1] == a + b';
      NonSystemAppend(a, b');
    }
  }

  /** It keeps exactly the messages of `history` that are not system messages. */
  lemma {:induction false} NonSystemMembers(history: seq<Message>)
    ensures forall m :: m in NonSystem(history) <==> m in history && m.role != "system"
  {
    if history != [] {
      var init := history[..|history| - 1];
      NonSystemMembers(init);
      InitAndLast(history);
    }
  }

  /** One more message of the history: it is kept unless it is a system message. */
  lemma NonSystemSnoc(history: seq<Message>, i: nat)
    requires i < |history|
    ensures NonSystem(history[..i + 1]) == NonSystem(history[..i]) + (if history[i].role == "system" then [] else [history[i]])
  {
    assert history[..i + 1][..i] == history[..i];
  }

  /** A non-empty sequence is its prefix without the last element, then that element. */
  lemma InitAndLast<T>(s: seq<T>)
    requires s != []
    ensures s[..|s| - 1] + [s[|s| - 1]] == s
  {
  }

  /** A history without system messages is kept whole. */
  lemma {:induction false} NonSystemKeepsOthers(history: seq<Message>)
    requires forall i :: 0 <= i < |history| ==> history[i].role != "system"
    ensures NonSystem(history) == history
  {
    if history != [] {
      var n := |history| - 1;
      var init := history[..n];
      forall i | 0 <= i < n ensures init[i].role != "system" {
        assert init[i] == history[i];
      }
      NonSystemKeepsOthers(init);
      InitAndLast(history);
    }
  }

  /**
   * What the database says about a chat: `None` when there is no such chat,
   * otherwise the value its `system_prompt` key holds (`None` when missing or
   * null).
   */
  type ChatRecord = Option<Option<string>>

  /** Line 190: the stored prompt of an existing chat, the default prompt when there is none. */
  function StoredSystemPrompt(record: ChatRecord): Option<string>
  {
    match record
    case None => Some(DefaultSystemPrompt)
    case Some(prompt) => prompt
  }

  /** Lines 192-202: the entry rebuilt from the database, one system message then the history without its system messages. */
  function RebuiltEntry(record: ChatRecord, history: seq<Message>): (r: seq<Message>)
    ensures |r| >= 1 && r[0] == Message("system", StoredSystemPrompt(record))
    ensures r[1..] == NonSystem(history)
  {
    [Message("system", StoredSystemPrompt(record))] + NonSystem(history)
  }

  /** Lines 183-186: a new conversation starts with its system prompt, or the default one when it is empty. */
  function OpeningEntry(systemPrompt: Option<string>): (r: seq<Message>)
    ensures |r| == 1 && r[0].role == "system" && r[0].content.Some?
    ensures systemPrompt.Some? && systemPrompt.value != "" ==> r[0].content == systemPrompt
    ensures systemPrompt.None? || systemPrompt == Some("") ==> r[0].content == Some(DefaultSystemPrompt)
  {
    var prompt := match systemPrompt case Some(p) => (if p == "" then DefaultSystemPrompt else p) case None => DefaultSystemPrompt;
    [Message("system", Some(prompt))]
  }

  /** The position of the first system message, if any. */
  function FirstSystemIndex(l: seq<Message>): (r: Option<nat>)
    ensures r.Some? ==> r.value < |l| && l[r.value].role == "system"
    ensures r.Some? ==> forall j :: 0 <= j < r.value ==> l[j].role != "system"
    ensures r.None? ==> forall j :: 0 <= j < |l| ==> l[j].role != "system"
  {
    if l == [] then None
    else if l[0].role == "system" then Some(0)
    else match FirstSystemIndex(l[1..])
      case None => None
      case Some(k) => Some(k + 1)
  }

  /**
   * Lines 344-349: the first system message gets the new prompt as its
   * content; without one, a system message with the prompt is put first.
   */
  function WithSystemPrompt(l: seq<Message>, prompt: Option<string>): (r: seq<Message>)
    ensures FirstSystemIndex(l).Some? ==> |r| == |l| && r[FirstSystemIndex(l).value] == Message("system", prompt)
    ensures FirstSystemIndex(l).Some? ==> forall j :: 0 <= j < |l| && j != FirstSystemIndex(l).value ==> r[j] == l[j]
    ensures FirstSystemIndex(l).None? ==> |r| == |l| + 1 && r[0] == Message("system", prompt) && r[1..] == l
  {
    match FirstSystemIndex(l)
    case Some(k) => l[k := Message("system", prompt)]
    case None => [Message("system", prompt)] + l
  }

  /** After the update there is a system message, and the first one carries the new prompt. */
  lemma WithSystemPromptInstalls(l: seq<Message>, prompt: Option<string>)
    ensures var r := WithSystemPrompt(l, prompt);
      FirstSystemIndex(r).Some? && r[FirstSystemIndex(r).value].content == prompt
  {
    var r := WithSystemPrompt(l, prompt);
    match FirstSystemIndex(l)
    case Some(k) =>
      assert forall j :: 0 <= j < k ==> r[j] == l[j];
    case None =>
  }

  /** Setting the prompt twice is setting it once, with the second prompt. */
  lemma WithSystemPromptTwice(l: seq<Message>, p: Option<string>, q: Option<string>)
    ensures WithSystemPrompt(WithSystemPrompt(l, p), q) == WithSystemPrompt(l, q)
  {
    var r := WithSystemPrompt(l, p);
    match FirstSystemIndex(l)
    case Some(k) =>
      assert forall j :: 0 <= j < k ==> r[j] == l[j];
      assert FirstSystemIndex(r) == Some(k) by {
        FirstSystemIndexAt(r, k);
      }
    case None =>
      FirstSystemIndexAt(r, 0);
  }

  lemma {:induction false} FirstSystemIndexAt(l: seq<Message>, k: nat)
    requires k < |l| && l[k].role == "system" && forall j :: 0 <= j < k ==> l[j].role != "system"
    ensures FirstSystemIndex(l) == Some(k)
  {
    if k > 0 {
      FirstSystemIndexAt(l[1..], k - 1);
    }
  }

  /** What the cache holds for every conversation between requests. */
  predicate WellFormedEntry(l: seq<Message>)
  {
    1 <= |l| <= 18 && l[0].role == "system"
  }

  /** A well-formed entry has its system message first, so the update rewrites that message in place. */
  lemma WithSystemPromptOnWellFormed(l: seq<Message>, prompt: Option<string>)
    requires WellFormedEntry(l)
    ensures WithSystemPrompt(l, prompt) == l[0 := Message("system", prompt)]
    ensures WellFormedEntry(WithSystemPrompt(l, prompt))
  {
    assert FirstSystemIndex(l) == Some(0);
  }

  // ---------------------------------------------------------------- requests

  /** The body of `POST /api/chat`. */
  datatype ChatRequest = ChatRequest(model: string, message: string, conversationId: Option<string>, systemPrompt: Option<string>)

  /** The reply of `POST /api/chat`. */
  datatype ChatResponse = ChatResponse(role: string, content: string, conversationId: string, modelUsed: string, agentResponse: bool)

  /**
   * What the document and web-search routing of lines 207-239 decided: the
   * message to send, whether a web search was used, whether its agent answered.
   */
  datatype Routing = Routing(enhancedMessage: string, usedWebSearch: bool, agentResponse: bool)

  /** The value the body of `PATCH /api/chats/{id}/system-prompt` gives `system_prompt`. */
  datatype PromptField = Absent | Given(prompt: Option<string>)

  /** Line 340: a missing key reads as the empty prompt; a JSON null stays `None`. */
  function PromptOf(field: PromptField): Option<string>
  {
    match field
    case Absent => Some("")
    case Given(p) => p
  }

  /** The services `chat`, `delete_chat` and `update_system_prompt` call. */
  datatype Services = Services(
    createChat: (string, string, Option<string>) -> Fallible<string>,   // model, title, system prompt: the new id
    chatHistory: (string, nat) -> Fallible<seq<Message>>,            // id, limit
    chatById: string -> Fallible<ChatRecord>,
    route: (string, string) -> Fallible<Routing>,                      // message, conversation id
    saveMessage: (string, string, string) -> Fallible<bool>,           // id, role, content
    ask: (Service, seq<Message>) -> Fallible<string>,
    deleteChat: string -> Fallible<bool>,
    updateSystemPrompt: (string, Option<string>) -> Fallible<bool>)

  type Cache = map<string, seq<Message>>

  /** Line 266, as the outer handler of line 289 reports it. */
  function ModelUnavailable(model: string): HttpError
  {
    HttpError(500, ErrorText(HttpError(500, "Model " + model + " is currently " + "unavailable. Please " + "try again or switch " + "to a different " + "model.")))
  }

  /** Line 258: the note is appended only when an agent's web search was used. */
  function WithNote(reply: string, routing: Routing): string
  {
    if routing.usedWebSearch && routing.agentResponse then reply + WebSearchNote else reply
  }

  /** Lines 176-202: the conversation's id and its entry before trimming. */
  function Resolve(cache: Cache, req: ChatRequest, model: string, svc: Services): Fallible<(string, seq<Message>)>
  {
    match req.conversationId
    case None => Create(req, model, svc)
    case Some(id) =>
      if id == "" then Create(req, model, svc)
      else if id in cache then Returned((id, cache[id]))
      else
        match svc.chatHistory(id, 20)
        case Raised(e) => Raised(e)
        case Returned(history) =>
          match svc.chatById(id)
          case Raised(e) => Raised(e)
          case Returned(record) => Returned((id, RebuiltEntry(record, history)))
  }

  function Create(req: ChatRequest, model: string, svc: Services): Fallible<(string, seq<Message>)>
  {
    match svc.createChat(model, Take(req.message, 30), req.systemPrompt)
    case Raised(e) => Raised(e)
    case Returned(id) => Returned((id, OpeningEntry(req.systemPrompt)))
  }

  /** `chat`: the new cache and the answer, for a request against `cache`. */
  function ChatOutcome(cache: Cache, req: ChatRequest, svc: Services): (Cache, Answer<ChatResponse>)
  {
    var model := SafeModel(req.model);
    match Resolve(cache, req, model, svc)
    case Raised(e) => (cache, Failed(HttpError(500, e)))
    case Returned((id, entry)) =>
      var (after, answer) := Converse(id, Trim(entry), req, model, svc);
      (cache[id := after], answer)
  }

  /**
   * Lines 207-284, for the trimmed entry `entry` of conversation `id`: the
   * entry as the request leaves it, and the answer.
   */
  function Converse(id: string, entry: seq<Message>, req: ChatRequest, model: string, svc: Services): (seq<Message>, Answer<ChatResponse>)
  {
    match svc.route(req.message, id)
    case Raised(e) => (entry, Failed(HttpError(500, e)))
    case Returned(routing) =>
      var asked := entry + [Message("user", Some(routing.enhancedMessage))];
      match svc.saveMessage(id, "user", req.message)
      case Raised(e) => (asked, Failed(HttpError(500, e)))
      case Returned(_) =>
        match svc.ask(ServiceFor(model), asked)
        case Raised(_) => (asked, Failed(ModelUnavailable(model)))
        case Returned(reply) =>
          var text := WithNote(reply, routing);
          var answered := asked + [Message("assistant", Some(text))];
          match svc.saveMessage(id, "assistant", text)
          case Raised(e) => (answered, Failed(HttpError(500, e)))
          case Returned(_) =>
            (answered, Ok(ChatResponse("assistant", text, id, model, routing.agentResponse || routing.usedWebSearch)))
  }

  /** A request only appends to the conversation's entry: at most the user's message and the reply. */
  lemma ConverseAppends(id: string, entry: seq<Message>, req: ChatRequest, model: string, svc: Services)
    ensures var after := Converse(id, entry, req, model, svc).0;
      |entry| <= |after| <= |entry| + 2 && after[..|entry|] == entry
  {
  }

  predicate WellFormedCache(cache: Cache)
  {
    forall id :: id in cache ==> WellFormedEntry(cache[id])
  }

  /** The entry `chat` works on starts with a system message. */
  lemma ResolvedEntryStartsWithSystem(cache: Cache, req: ChatRequest, model: string, svc: Services)
    requires WellFormedCache(cache)
    ensures Resolve(cache, req, model, svc).Returned? ==>
              var entry := Resolve(cache, req, model, svc).value.1; entry != [] && entry[0].role == "system"
  {
  }

  /**
   * Every request leaves each cached conversation with at most 18 messages,
   * its system message first.
   */
  lemma ChatKeepsCacheWellFormed(cache: Cache, req: ChatRequest, svc: Services)
    requires WellFormedCache(cache)
    ensures WellFormedCache(ChatOutcome(cache, req, svc).0)
  {
    var model := SafeModel(req.model);
    ResolvedEntryStartsWithSystem(cache, req, model, svc);
    match Resolve(cache, req, model, svc)
    case Raised(_) =>
    case Returned((id, entry)) =>
      TrimBounds(entry);
      ConverseAppends(id, Trim(entry), req, model, svc);
      var after := Converse(id, Trim(entry), req, model, svc).0;
      assert after[0] == Trim(entry)[0];
  }

  /** A request changes at most one entry of the cache: the conversation it is about. */
  lemma ChatChangesOneEntry(cache: Cache, req: ChatRequest, svc: Services)
    ensures var after := ChatOutcome(cache, req, svc).0;
      after == cache || exists id :: id in after && after == cache[id := after[id]]
  {
    var model := SafeModel(req.model);
    match Resolve(cache, req, model, svc)
    case Raised(_) =>
    case Returned((id, entry)) =>
      var after := ChatOutcome(cache, req, svc).0;
      assert id in after && after == cache[id := after[id]];
  }

  /**
   * An answered request was answered by a supported model, and the cache
   * entry of its conversation ends with the message sent and the reply
   * received, which carries the web-search note exactly when an agent's
   * search was used.
   */
  lemma ChatAnswered(cache: Cache, req: ChatRequest, svc: Services)
    requires WellFormedCache(cache)
    requires ChatOutcome(cache, req, svc).1.Ok?
    ensures var (after, answer) := ChatOutcome(cache, req, svc);
      var r := answer.body;
      r.role == "assistant" && r.modelUsed == SafeModel(req.model) && r.modelUsed in SupportedModels &&
      r.conversationId in after && |after[r.conversationId]| >= 3 &&
      after[r.conversationId][|after[r.conversationId]| - 1] == Message("assistant", Some(r.content)) &&
      svc.route(req.message, r.conversationId).Returned? &&
      after[r.conversationId][|after[r.conversationId]| - 2] ==
        Message("user", Some(svc.route(req.message, r.conversationId).value.enhancedMessage))
    ensures var answer := ChatOutcome(cache, req, svc).1;
      req.conversationId.Some? && req.conversationId.value != "" ==> answer.body.conversationId == req.conversationId.value
  {
    var model := SafeModel(req.model);
    match Resolve(cache, req, model, svc)
    case Returned((id, entry)) =>
      TrimOfResolved(cache, req, model, svc);
  }

  lemma TrimOfResolved(cache: Cache, req: ChatRequest, model: string, svc: Services)
    requires WellFormedCache(cache)
    requires Resolve(cache, req, model, svc).Returned?
    ensures Trim(Resolve(cache, req, model, svc).value.1) != []
    ensures req.conversationId.Some? && req.conversationId.value != "" ==>
              Resolve(cache, req, model, svc).value.0 == req.conversationId.value
  {
  }

  /**
   * When the model call raises, the client gets a 500 naming the model, and
   * the cache keeps the user's message as the entry's last.
   */
  lemma ChatModelFailure(cache: Cache, req: ChatRequest, svc: Services, id: string, entry: seq<Message>, routing: Routing)
    requires Resolve(cache, req, SafeModel(req.model), svc) == Returned((id, entry))
    requires svc.route(req.message, id) == Returned(routing)
    requires svc.saveMessage(id, "user", req.message).Returned?
    requires svc.ask(ServiceFor(SafeModel(req.model)), Trim(entry) + [Message("user", Some(routing.enhancedMessage))]).Raised?
    ensures ChatOutcome(cache, req, svc).1 == Failed(ModelUnavailable(SafeModel(req.model)))
    ensures ChatOutcome(cache, req, svc).0 == cache[id := Trim(entry) + [Message("user", Some(routing.enhancedMessage))]]
  {
  }

  /**
   * A conversation that is not cached is rebuilt from the database: when the
   * whole request succeeds its entry is the trimmed rebuilt list followed by
   * the user's message and the reply.
   */
  lemma ChatRebuildsUncached(cache: Cache, req: ChatRequest, svc: Services, history: seq<Message>, record: ChatRecord)
    requires req.conversationId.Some? && req.conversationId.value != "" && req.conversationId.value !in cache
    requires svc.chatHistory(req.conversationId.value, 20) == Returned(history)
    requires svc.chatById(req.conversationId.value) == Returned(record)
    requires ChatOutcome(cache, req, svc).1.Ok?
    ensures var id := req.conversationId.value;
      var after := ChatOutcome(cache, req, svc).0;
      id in after && |after[id]| >= 2 && after[id][..|after[id]| - 2] == Trim(RebuiltEntry(record, history))
  {
  }

  /** `chat` as the steps its handler takes: resolve the conversation, store and trim its entry, converse. */
  lemma ChatOutcomeOfResolve(cache: Cache, req: ChatRequest, svc: Services)
    ensures var model := SafeModel(req.model);
      var r := Resolve(cache, req, model, svc);
      (r.Raised? ==> ChatOutcome(cache, req, svc) == (cache, Failed(HttpError(500, r.message)))) &&
      (r.Returned? ==>
         var after := cache[r.value.0 := r.value.1][r.value.0 := Trim(r.value.1)];
         var (entry, answer) := Converse(r.value.0, after[r.value.0], req, model, svc);
         ChatOutcome(cache, req, svc) == (after[r.value.0 := entry], answer))
  {
    var model := SafeModel(req.model);
    var r := Resolve(cache, req, model, svc);
    if r.Returned? {
      var id := r.value.0;
      assert cache[id := r.value.1][id := Trim(r.value.1)][id := Converse(id, Trim(r.value.1), req, model, svc).0]
        == cache[id := Converse(id, Trim(r.value.1), req, model, svc).0];
    }
  }

  // ----------------------------------------------------------------- server

  /** The backend process's in-memory state. */
  class ChatServer {
    /** `conversations_cache`. */
    var cache: Cache

    predicate Valid()
      reads this
    {
      WellFormedCache(cache)
    }

    constructor()
      ensures cache == map[] && Valid()
    {
      cache := map[];
    }

    /** `POST /api/chat`: lines 158-289. */
    method Chat(req: ChatRequest, svc: Services) returns (answer: Answer<ChatResponse>)
      requires Valid()
      modifies this
      ensures Valid()
      ensures (cache, answer) == ChatOutcome(old(cache), req, svc)
    {
      ChatKeepsCacheWellFormed(cache, req, svc);
      ChatOutcomeOfResolve(cache, req, svc);
      var model := SafeModel(req.model);
      var resolved := OpenConversation(req, model, svc);
      if resolved.Raised? {
        return Failed(HttpError(500, resolved.message));
      }
      var id := resolved.value;
      TrimEntry(id);
      answer := Respond(id, req, model, svc);
    }

    /** Lines 204-205: an entry of more than 16 messages keeps its first and its last 15. */
    method TrimEntry(id: string)
      requires id in cache
      modifies this
      ensures cache == old(cache)[id := Trim(old(cache)[id])]
    {
      if |cache[id]| > 16 {
        cache := cache[id := [cache[id][0]] + cache[id][|cache[id]| - 15..]];
      } else {
        assert cache == cache[id := cache[id]];
      }
    }

    /** Lines 176-202: find, create or rebuild the conversation's entry. */
    method OpenConversation(req: ChatRequest, model: string, svc: Services) returns (resolved: Fallible<string>)
      modifies this
      ensures var r := Resolve(old(cache), req, model, svc);
        (r.Raised? ==> resolved == Raised(r.message) && cache == old(cache)) &&
        (r.Returned? ==> resolved == Returned(r.value.0) && cache == old(cache)[r.value.0 := r.value.1])
    {
      if req.conversationId == None || req.conversationId == Some("") {
        var created := svc.createChat(model, Take(req.message, 30), req.systemPrompt);
        if created.Raised? {
          return Raised(created.message);
        }
        cache := cache[created.value := OpeningEntry(req.systemPrompt)];
        return Returned(created.value);
      }
      var id := req.conversationId.value;
      if id in cache {
        assert cache == cache[id := cache[id]];
        return Returned(id);
      }
      var history := svc.chatHistory(id, 20);
      if history.Raised? {
        return Raised(history.message);
      }
      var record := svc.chatById(id);
      if record.Raised? {
        return Raised(record.message);
      }
      Rebuild(id, StoredSystemPrompt(record.value), history.value);
      resolved := Returned(id);
    }

    /**
     * Lines 192-202: the system message with `prompt` first, then each
     * non-system message of the history, appended in order.
     */
    method Rebuild(id: string, prompt: Option<string>, messages: seq<Message>)
      modifies this
      ensures cache == old(cache)[id := [Message("system", prompt)] + NonSystem(messages)]
    {
      cache := cache[id := [Message("system", prompt)]];
      var i := 0;
      assert messages[..0] == [];
      while i < |messages|
        invariant 0 <= i <= |messages|
        invariant id in cache && cache == old(cache)[id := cache[id]]
        invariant cache[id] == [Message("system", prompt)] + NonSystem(messages[..i])
      {
        var msg := messages[i];
        NonSystemSnoc(messages, i);
        if msg.role != "system" {
          cache := cache[id := cache[id] + [Message(msg.role, msg.content)]];
        }
        i := i + 1;
      }
      assert messages[..i] == messages;
    }

    /** Lines 207-284, once the conversation's entry is in the cache and trimmed. */
    method Respond(id: string, req: ChatRequest, model: string, svc: Services) returns (answer: Answer<ChatResponse>)
      requires id in cache
      modifies this
      ensures id in cache && cache == old(cache)[id := cache[id]]
      ensures (cache[id], answer) == Converse(id, old(cache)[id], req, model, svc)
    {
      var routing := svc.route(req.message, id);
      if routing.Raised? {
        assert cache == old(cache)[id := cache[id]];
        return Failed(HttpError(500, routing.message));
      }
      cache := cache[id := cache[id] + [Message("user", Some(routing.value.enhancedMessage))]];
      var saved := svc.saveMessage(id, "user", req.message);
      if saved.Raised? {
        return Failed(HttpError(500, saved.message));
      }
      var reply := svc.ask(ServiceFor(model), cache[id]);
      if reply.Raised? {
        return Failed(ModelUnavailable(model));
      }
      var text := reply.value;
      if routing.value.usedWebSearch && routing.value.agentResponse {
        text := text + WebSearchNote;
      }
      assert text == WithNote(reply.value, routing.value);
      cache := cache[id := cache[id] + [Message("assistant", Some(text))]];
      var savedReply := svc.saveMessage(id, "assistant", text);
      if savedReply.Raised? {
        return Failed(HttpError(500, savedReply.message));
      }
      answer := Ok(ChatResponse("assistant", text, id, model, routing.value.agentResponse || routing.value.usedWebSearch));
    }

    /** `DELETE /api/chats/{id}`: lines 327-335. */
    method DeleteChat(chatId: string, svc: Services) returns (answer: Answer<bool>)
      requires Valid()
      modifies this
      ensures Valid()
      ensures svc.deleteChat(chatId).Raised? ==>
                answer == Failed(HttpError(500, svc.deleteChat(chatId).message)) && cache == old(cache)
      ensures svc.deleteChat(chatId).Returned? ==> answer == Ok(svc.deleteChat(chatId).value)
      ensures svc.deleteChat(chatId) == Returned(true) ==> cache == old(cache) - {chatId}
      ensures svc.deleteChat(chatId) != Returned(true) ==> cache == old(cache)
    {
      var deleted := svc.deleteChat(chatId);
      if deleted.Raised? {
        return Failed(HttpError(500, deleted.message));
      }
      if deleted.value && chatId in cache {
        cache := cache - {chatId};
      }
      answer := Ok(deleted.value);
    }

    /** `PATCH /api/chats/{id}/system-prompt`: lines 337-353. */
    method UpdateSystemPrompt(chatId: string, field: PromptField, svc: Services) returns (answer: Answer<bool>)
      modifies this
      ensures old(Valid()) ==> Valid()
      ensures var outcome := svc.updateSystemPrompt(chatId, PromptOf(field));
        (outcome.Raised? ==> answer == Failed(HttpError(500, outcome.message)) && cache == old(cache)) &&
        (outcome.Returned? ==> answer == Ok(outcome.value)) &&
        (outcome == Returned(true) && chatId in old(cache) ==>
           cache == old(cache)[chatId := WithSystemPrompt(old(cache)[chatId], PromptOf(field))]) &&
        (outcome != Returned(true) || chatId !in old(cache) ==> cache == old(cache))
    {
      var prompt := PromptOf(field);
      var updated := svc.updateSystemPrompt(chatId, prompt);
      if updated.Raised? {
        return Failed(HttpError(500, updated.message));
      }
      if updated.value && chatId in cache {
        if Valid() {
          WithSystemPromptOnWellFormed(cache[chatId], prompt);
        }
        var entry := cache[chatId];
        var index := FirstSystemIndex(entry);
        if index.Some? {
          cache := cache[chatId := entry[index.value := Message(entry[index.value].role, prompt)]];
        } else {
          cache := cache[chatId := [Message("system", prompt)] + entry];
        }
      }
      answer := Ok(updated.value);
    }
  }
}
