/**
 * The `POST /chat` handler of Program.cs (lines 81-135): the cache key, the
 * load of the stored history, the history steps of module History, the call
 * to the completion gateway and the write-back.
 *
 * The cache is a key/value store of strings; the JSON serializer is an
 * abstract Codec whose round-trip is stated by `Faithful` and required only
 * by the lemmas that need it; the completion gateway is a function from the
 * messages it is sent to its outcome.
 */
module ChatEndpoint {
  import opened Wrappers
  import opened Messages
  import opened History

  const KeyPrefix: string := "chat:"

  /** The cache key: "chat:" and then the conversation id, an absent id read as "". */
  function ConversationKey(id: Option<string>): (key: string)
    ensures |key| == |KeyPrefix| + |id.GetOr("")|
    ensures key[..|KeyPrefix|] == KeyPrefix
    ensures key[|KeyPrefix|..] == id.GetOr("")
  {
    KeyPrefix + id.GetOr("")
  }

  /** Two requests share a stored history exactly when their ids agree, an absent id counting as "". */
  lemma ConversationKeyInjective(a: Option<string>, b: Option<string>)
    ensures ConversationKey(a) == ConversationKey(b) <==> a.GetOr("") == b.GetOr("")
  {
    if ConversationKey(a) == ConversationKey(b) {
      assert ConversationKey(a)[|KeyPrefix|..] == ConversationKey(b)[|KeyPrefix|..];
    }
  }

  /** Every request without an id shares the one conversation stored under "chat:". */
  lemma AbsentIdSharesEmptyKey()
    ensures ConversationKey(None) == ConversationKey(Some("")) == "chat:"
  {
  }

  /** What deserializing a non-empty cached string gives: a list, the JSON `null`, or an exception. */
  datatype Decoded = Parsed(history: seq<Message>) | NullLiteral | Malformed

  /** The serializer pair, kept abstract. */
  datatype Codec = Codec(encode: seq<Message> -> string, decode: string -> Decoded)

  /** A serializer that round-trips every history and never writes an empty string (a JSON list never is). */
  ghost predicate Faithful(codec: Codec) {
    forall h :: codec.encode(h) != "" && codec.decode(codec.encode(h)) == Parsed(h)
  }

  /** What the gateway call comes back with. */
  datatype Completion = Completed(text: string) | Faulted | Canceled

  /** Why a call fails; on each the store is left as it was. */
  datatype ChatError = CorruptHistory | GatewayFaulted | RequestCanceled

  /** The cache read: the stored string, if any. */
  function Lookup(entries: map<string, string>, key: string): (r: Option<string>)
    ensures r.Some? <==> key in entries
    ensures r.Some? ==> r.value == entries[key]
  {
    if key in entries then Some(entries[key]) else None
  }

  /**
   * The starting history. An absent or empty string is an empty history and
   * is not decoded; a decoded JSON `null` is an empty history too; an
   * undecodable string is not caught, so the call fails.
   */
  function LoadHistory(cached: Option<string>, codec: Codec): (r: Result<seq<Message>, ChatError>)
    ensures (cached.None? || cached == Some("")) ==> r == Success([])
    ensures r.Failure? <==> cached.Some? && cached.value != "" && codec.decode(cached.value).Malformed?
    ensures r.Failure? ==> r.error == CorruptHistory
    ensures cached.Some? && cached.value != "" && codec.decode(cached.value).Parsed? ==>
      r == Success(codec.decode(cached.value).history)
    ensures cached.Some? && cached.value != "" && codec.decode(cached.value).NullLiteral? ==> r == Success([])
  {
    match cached
    case None => Success([])
    case Some(text) =>
      if text == "" then Success([])
      else
        match codec.decode(text)
        case Parsed(history) => Success(history)
        case NullLiteral => Success([])
        case Malformed => Failure(CorruptHistory)
  }

  /** A string the handler wrote loads back as the history it encoded. */
  lemma LoadEncoded(codec: Codec, history: seq<Message>)
    requires Faithful(codec)
    ensures LoadHistory(Some(codec.encode(history)), codec) == Success(history)
  {
  }

  /** The reply of one call together with the store after it. */
  datatype ChatOutcome = ChatOutcome(reply: Result<Message, ChatError>, entries: map<string, string>)

  /** The messages the gateway is sent for a loaded history. */
  function Prompt(loaded: seq<Message>, request: ChatRequest): seq<ChatMessage> {
    ToGatewayMessages(AppendUser(Normalize(loaded), request.message))
  }

  /**
   * One call of the handler on a store. The store is written only when the
   * history loaded and the gateway completed, and then only under the
   * request's key; the reply is always an Assistant message.
   */
  function ChatStep(entries: map<string, string>, codec: Codec, gateway: seq<ChatMessage> -> Completion,
                    request: ChatRequest): (r: ChatOutcome)
    ensures r.reply.Failure? ==> r.entries == entries
    ensures r.reply.Success? <==>
      var loaded := LoadHistory(Lookup(entries, ConversationKey(request.conversationId)), codec);
      loaded.Success? && gateway(Prompt(loaded.value, request)).Completed?
    ensures r.reply.Success? ==> r.reply.value.role == AssistantRole
    ensures r.entries.Keys == entries.Keys + (if r.reply.Success? then {ConversationKey(request.conversationId)} else {})
    ensures forall k :: k in entries && k != ConversationKey(request.conversationId) ==> r.entries[k] == entries[k]
  {
    var key := ConversationKey(request.conversationId);
    match LoadHistory(Lookup(entries, key), codec)
    case Failure(e) => ChatOutcome(Failure(e), entries)
    case Success(loaded) =>
      var history := AppendUser(Normalize(loaded), request.message);
      match gateway(ToGatewayMessages(history))
      case Faulted => ChatOutcome(Failure(GatewayFaulted), entries)
      case Canceled => ChatOutcome(Failure(RequestCanceled), entries)
      case Completed(text) =>
        var reply := AssistantReply(text);
        ChatOutcome(Success(reply), entries[key := codec.encode(history + [reply])])
  }

  /** The history stored under `key`, as the handler would load it. */
  function StoredHistory(entries: map<string, string>, codec: Codec, key: string): Result<seq<Message>, ChatError> {
    LoadHistory(Lookup(entries, key), codec)
  }

  /**
   * After a successful call the key holds the normalised history, then the
   * user message if any, then the reply; the returned message is the last
   * one stored; and the gateway was sent exactly the normalised history with
   * the user message, in its own roles.
   */
  lemma ChatStepStoresTurn(entries: map<string, string>, codec: Codec, gateway: seq<ChatMessage> -> Completion,
                           request: ChatRequest)
    requires Faithful(codec)
    requires ChatStep(entries, codec, gateway, request).reply.Success?
    ensures var key := ConversationKey(request.conversationId);
      var loaded := StoredHistory(entries, codec, key).value;
      var r := ChatStep(entries, codec, gateway, request);
      && gateway(Prompt(loaded, request)) == Completed(r.reply.value.content)
      && StoredHistory(r.entries, codec, key) == Success(Turn(loaded, request.message, r.reply.value.content))
      && Turn(loaded, request.message, r.reply.value.content)[|Turn(loaded, request.message, r.reply.value.content)| - 1] == r.reply.value
  {
    var key := ConversationKey(request.conversationId);
    var loaded := StoredHistory(entries, codec, key).value;
    var text := gateway(Prompt(loaded, request)).text;
    var stored := Turn(loaded, request.message, text);
    ChatStepSuccess(entries, codec, gateway, request);
    assert Lookup(entries[key := codec.encode(stored)], key) == Some(codec.encode(stored));
    LoadEncoded(codec, stored);
    TurnShape(loaded, request.message, text);
  }

  /** A successful call, unfolded: the reply built from the gateway's text and the one write. */
  lemma ChatStepSuccess(entries: map<string, string>, codec: Codec, gateway: seq<ChatMessage> -> Completion,
                        request: ChatRequest)
    requires ChatStep(entries, codec, gateway, request).reply.Success?
    ensures var key := ConversationKey(request.conversationId);
      var loaded := StoredHistory(entries, codec, key);
      && loaded.Success?
      && gateway(Prompt(loaded.value, request)).Completed?
      && var text := gateway(Prompt(loaded.value, request)).text;
         ChatStep(entries, codec, gateway, request)
         == ChatOutcome(Success(AssistantReply(text)), entries[key := codec.encode(Turn(loaded.value, request.message, text))])
  {
  }

  /**
   * Growth of one successful call on a history that already has its System
   * message: two more messages with a user message, one without.
   */
  lemma ChatStepGrowth(entries: map<string, string>, codec: Codec, gateway: seq<ChatMessage> -> Completion,
                       request: ChatRequest)
    requires Faithful(codec)
    requires ChatStep(entries, codec, gateway, request).reply.Success?
    requires var loaded := StoredHistory(entries, codec, ConversationKey(request.conversationId));
      loaded.Success? && HasSystem(loaded.value)
    ensures var key := ConversationKey(request.conversationId);
      var before := StoredHistory(entries, codec, key).value;
      var after := StoredHistory(ChatStep(entries, codec, gateway, request).entries, codec, key);
      && after.Success?
      && |after.value| == |before| + (if request.message.Some? then 2 else 1)
      && after.value[..|before|] == before
  {
    var key := ConversationKey(request.conversationId);
    var before := StoredHistory(entries, codec, key).value;
    ChatStepStoresTurn(entries, codec, gateway, request);
    TurnGrowth(before, request.message, ChatStep(entries, codec, gateway, request).reply.value.content);
  }

  /**
   * Two successful calls in a row on one conversation: the second stores
   * what the first stored followed by its own additions, and nothing else.
   */
  lemma SequentialCallsAppend(entries: map<string, string>, codec: Codec,
                              gateway1: seq<ChatMessage> -> Completion, request1: ChatRequest,
                              gateway2: seq<ChatMessage> -> Completion, request2: ChatRequest)
    requires Faithful(codec)
    requires request1.conversationId.GetOr("") == request2.conversationId.GetOr("")
    requires ChatStep(entries, codec, gateway1, request1).reply.Success?
    requires ChatStep(ChatStep(entries, codec, gateway1, request1).entries, codec, gateway2, request2).reply.Success?
    ensures var key := ConversationKey(request1.conversationId);
      var first := ChatStep(entries, codec, gateway1, request1);
      var second := ChatStep(first.entries, codec, gateway2, request2);
      && StoredHistory(second.entries, codec, key).Success?
      && StoredHistory(second.entries, codec, key).value
         == StoredHistory(first.entries, codec, key).value + Additions(request2.message, second.reply.value.content)
  {
    var key := ConversationKey(request1.conversationId);
    ConversationKeyInjective(request1.conversationId, request2.conversationId);
    var first := ChatStep(entries, codec, gateway1, request1);
    var second := ChatStep(first.entries, codec, gateway2, request2);
    ChatStepStoresTurn(entries, codec, gateway1, request1);
    ChatStepStoresTurn(first.entries, codec, gateway2, request2);
    var mid := StoredHistory(first.entries, codec, key).value;
    TurnShape(StoredHistory(entries, codec, key).value, request1.message, first.reply.value.content);
    TurnAppends(mid, request2.message, second.reply.value.content);
  }

  /** Every stored history loads and begins with a System message. */
  ghost predicate HistoriesStartWithSystem(entries: map<string, string>, codec: Codec) {
    forall k :: k in entries ==>
      var h := LoadHistory(Some(entries[k]), codec);
      h.Success? && |h.value| > 0 && h.value[0].role == SystemRole
  }

  /** A store in which every history begins with a System message stays so: the handler keeps the invariant. */
  lemma ChatStepKeepsSystemFirst(entries: map<string, string>, codec: Codec, gateway: seq<ChatMessage> -> Completion,
                                 request: ChatRequest)
    requires Faithful(codec)
    requires HistoriesStartWithSystem(entries, codec)
    ensures HistoriesStartWithSystem(ChatStep(entries, codec, gateway, request).entries, codec)
  {
    var r := ChatStep(entries, codec, gateway, request);
    if r.reply.Success? {
      var key := ConversationKey(request.conversationId);
      var loaded := StoredHistory(entries, codec, key).value;
      ChatStepStoresTurn(entries, codec, gateway, request);
      TurnStartsWithSystem(loaded, request.message, r.reply.value.content);
    }
  }

  /**
   * A fresh conversation "abc", the user message "hi" and a gateway that
   * answers "hello": the reply is Assistant "hello" and the stored history
   * is the System prompt, the user message and the reply.
   */
  lemma FreshConversationScenario(entries: map<string, string>, codec: Codec, gateway: seq<ChatMessage> -> Completion)
    requires Faithful(codec)
    requires "chat:abc" !in entries
    requires forall messages :: gateway(messages) == Completed("hello")
    ensures var r := ChatStep(entries, codec, gateway, ChatRequest(Some("abc"), Some(Message("User", "hi"))));
      && r.reply == Success(Message("Assistant", "hello"))
      && StoredHistory(r.entries, codec, "chat:abc")
         == Success([Message("System", "You are a helpful assistant."), Message("User", "hi"), Message("Assistant", "hello")])
  {
    var request := ChatRequest(Some("abc"), Some(Message("User", "hi")));
    assert ConversationKey(request.conversationId) == "chat:abc";
    assert StoredHistory(entries, codec, "chat:abc") == Success([]);
    assert Normalize([]) == [SystemPrompt()];
    assert Turn([], request.message, "hello") == [SystemPrompt(), request.message.value, AssistantReply("hello")];
    ChatStepStoresTurn(entries, codec, gateway, request);
  }

  /** A gateway that always fails: the call fails and a fresh key is never written. */
  lemma GatewayFailureScenario(entries: map<string, string>, codec: Codec, gateway: seq<ChatMessage> -> Completion,
                               request: ChatRequest)
    requires ConversationKey(request.conversationId) !in entries
    requires forall messages :: gateway(messages) == Faulted
    ensures var r := ChatStep(entries, codec, gateway, request);
      r.reply == Failure(GatewayFaulted) && ConversationKey(request.conversationId) !in r.entries
  {
  }

  /** The distributed cache the handler reads and writes: a map from key to string. */
  class DistributedCache {
    var entries: map<string, string>

    /** An empty cache. */
    constructor ()
      ensures entries == map[]
    {
      entries := map[];
    }

    /** `GetStringAsync`: the stored string, or nothing for a missing key. */
    method GetString(key: string) returns (cached: Option<string>)
      ensures cached == Lookup(entries, key)
    {
      if key in entries {
        cached := Some(entries[key]);
      } else {
        cached := None;
      }
    }

    /** `SetStringAsync`: stores the string under the key, replacing any earlier one. */
    method SetString(key: string, value: string)
      modifies this
      ensures entries == old(entries)[key := value]
    {
      entries := entries[key := value];
    }
  }

  /**
   * The handler itself, step by step on a local history as the source does.
   * It returns what ChatStep says and leaves the cache as ChatStep says: on
   * any failure untouched, on success changed under the request's key only.
   */
  method HandleChat(cache: DistributedCache, codec: Codec, gateway: seq<ChatMessage> -> Completion,
                    request: ChatRequest) returns (result: Result<Message, ChatError>)
    modifies cache
    ensures result == ChatStep(old(cache.entries), codec, gateway, request).reply
    ensures cache.entries == ChatStep(old(cache.entries), codec, gateway, request).entries
    ensures result.Failure? ==> cache.entries == old(cache.entries)
    ensures forall k :: k in old(cache.entries) && k != ConversationKey(request.conversationId) ==>
      k in cache.entries && cache.entries[k] == old(cache.entries)[k]
  {
    var conversationId := request.conversationId.GetOr("");
    var cacheKey := KeyPrefix + conversationId;
    var chatHistory: seq<Message>;
    assert cacheKey == ConversationKey(request.conversationId);

    var cached := cache.GetString(cacheKey);
    if cached.Some? && cached.value != "" {
      match codec.decode(cached.value)
      case Parsed(history) => chatHistory := history;
      case NullLiteral => chatHistory := [];
      case Malformed => return Failure(CorruptHistory);
    } else {
      chatHistory := [];
    }
    ghost var loaded := chatHistory;
    assert LoadHistory(cached, codec) == Success(loaded);

    if !HasSystem(chatHistory) {
      chatHistory := [SystemPrompt()] + chatHistory;
    }
    assert chatHistory == Normalize(loaded);

    if request.message.Some? {
      chatHistory := chatHistory + [request.message.value];
    }
    assert chatHistory == AppendUser(Normalize(loaded), request.message);

    var chatMessages := ToGatewayMessages(chatHistory);
    var response := gateway(chatMessages);
    if response.Faulted? {
      return Failure(GatewayFaulted);
    } else if response.Canceled? {
      return Failure(RequestCanceled);
    }

    var assistantMsg := AssistantReply(response.text);
    chatHistory := chatHistory + [assistantMsg];

    var serialized := codec.encode(chatHistory);
    cache.SetString(cacheKey, serialized);
    return Success(assistantMsg);
  }
}
