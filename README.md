# ChatDemo core, modelled in Dafny

This project models the server-side core of ChatDemo, a small ASP.NET chat
demo that holds a history for each conversation in a distributed cache and
forwards it to a hosted language model. It models three endpoints:

- `POST /chat`. It builds the cache key `chat:<conversationId>` and loads
  the stored history, or starts with an empty one. It puts the constant
  System instruction in front when the history has no System message, and
  appends the user's message when the request has one. It then sends the
  history to the completion gateway with the roles translated, appends the
  Assistant reply, writes the history back under the same key and returns
  the reply.
- `POST /recommendations`. It draws a count with `Random.Next(2, 6)` and
  returns that many entries of the 9-entry catalog in shuffled order.
- `GET /welcome`. It returns a constant greeting with five suggestions.

Files:

- `wrappers.dfy`: `Option` and `Result`.
- `messages.dfy`: module `Messages`. It holds the stored `Message`, the `ChatRequest` body (both fields optional), and the translation of roles into the gateway's `User`/`Assistant` roles.
- `history.dfy`: module `History`. It holds the history steps of one call (normalisation, user message, reply) and what a series of calls does to one conversation.
- `chat_endpoint.dfy`: module `ChatEndpoint`. It holds the cache key, the loading of the history, the function `ChatStep` that specifies one whole call, the `DistributedCache` class (a `map<string, string>` field), the imperative `HandleChat` method, and the lemmas about stored state.
- `recommendations.dfy`: module `Recommendations`. It holds the welcome payload and the sampler.

Abstractions:

- The JSON serializer is a `Codec` value with two function fields, `encode`
  and `decode`. Decoding a non-empty string gives one of three results: a
  list, the JSON `null`, or `Malformed` (the serializer would throw). The
  predicate `Faithful` says that every history round-trips and that no
  history encodes to the empty string. Only the lemmas that need this
  property require it. Nothing assumes it.
- The completion gateway is a function from the messages it receives to a
  `Completion`: `Completed(text)`, `Faulted` or `Canceled`. Because of this,
  the contracts can say exactly which messages the gateway was sent.
- `Random` is made explicit. `NextInt` maps a raw sample into
  `[minValue, maxValue)`. The random `OrderBy` is modelled as a permutation
  `order` of the catalog indices, passed in as an input.

A malformed cached string is not treated as a cache miss. `Deserialize`
(Program.cs:95) is not guarded, so the request fails
(`ChatError.CorruptHistory`) and nothing is written. Only an absent or empty
string, or a decoded JSON `null`, gives an empty history.

Two behaviours of the code are modelled as written:

- Every role other than `"User"`, including `"System"`, is sent to the
  gateway as Assistant (`Messages.GatewayRole`).
- A request without an id shares the conversation stored under `chat:`
  (`ChatEndpoint.AbsentIdSharesEmptyKey`).

## Model

| member | source | states |
|---|---|---|
| Messages.GatewayRole | Program.cs:121 | The gateway role is User exactly when the stored role is the string "User"; every other role is Assistant |
| Messages.ToGatewayMessages | Program.cs:120-121 | The translated list has the same length and order; position by position it is the message with its content unchanged and only its role translated |
| Messages.ToGatewayMessagesAppend | Program.cs:120-121 | Translating a concatenation gives the concatenation of the translations |
| Messages.GatewayRoles | Program.cs:120-121 | At every position the gateway gets the stored content, with role User iff the stored role is "User" and Assistant iff it is anything else, "System" included |
| History.Normalize | Program.cs:102-111 | The result has a System message. It equals the input iff the input already had one. Otherwise exactly one message is added, in front: the constant System prompt. The input is always the result's suffix |
| History.NormalizeIdempotent | Program.cs:103-111 | Normalising twice gives the same result as normalising once |
| History.AppendUser | Program.cs:113-117 | A present message is appended last and an absent one adds nothing; all earlier messages keep their order and content |
| History.Additions | Program.cs:113-128 | One call adds 2 messages with a user message and 1 without; the last one is the Assistant reply |
| History.HasSystemAppend | Program.cs:103 | A history with a System message keeps it after anything is appended |
| History.TurnShape | Program.cs:102-128 | The stored history is the normalised history followed by that call's additions. Its last element is the reply, and it contains a System message |
| History.TurnGrowth | Program.cs:113-128 | If the history already had a System message, one call lengthens it by exactly 2 (1 with no user message) and keeps the old history as a prefix |
| History.TurnAppends | Program.cs:103-128 | If the history already had a System message, one call only appends that call's additions |
| History.TurnStartsWithSystem | Program.cs:102-111 | If the history had no System message, or began with one, the stored history begins with a System message |
| History.AllAdditionsLength | Program.cs:113-128 | Over a series of calls, the appended messages number 2 per call with a user message and 1 per call without |
| History.ConversationAppends | Program.cs:103-128 | Once a history has a System message, any series of calls only appends each call's additions in order; no second prompt is inserted |
| History.ConversationHistory | Program.cs:103-128 | After any non-empty series of calls, the history is the normalised starting history followed by every call's additions, so the prompt is inserted at most once. The length grows by exactly 2 or 1 per call |
| ChatEndpoint.ConversationKey | Program.cs:87-88 | The key is "chat:" followed by the conversation id; an absent id counts as "" |
| ChatEndpoint.ConversationKeyInjective | Program.cs:87-88 | Two requests get the same key iff their ids agree, with absent counted as "" |
| ChatEndpoint.AbsentIdSharesEmptyKey | Program.cs:87-88 | An absent id and the empty id both give the key "chat:" |
| ChatEndpoint.Lookup | Program.cs:92 | The cache read returns a string iff the key is present, and then the stored string |
| ChatEndpoint.LoadHistory | Program.cs:92-100 | An absent or empty string gives the empty history without decoding. Loading fails iff a non-empty string is malformed (the exception is not caught). A non-empty result is exactly what was decoded; a decoded null gives the empty history |
| ChatEndpoint.LoadEncoded | Program.cs:95-131 | With a round-tripping serializer, loading what the handler wrote gives back the history it serialized |
| ChatEndpoint.ChatStep | Program.cs:81-135 | The call succeeds iff the history loads and the gateway completes on the prepared messages. On failure the store is unchanged. On success only the request's key is added or replaced, and the reply has role Assistant |
| ChatEndpoint.ChatStepStoresTurn | Program.cs:120-134 | After success the gateway was sent the prepared history translated, and it answered with the reply's text. The key then loads as the normalised history, the user message if any, and the reply, whose last element is the returned message |
| ChatEndpoint.ChatStepGrowth | Program.cs:113-132 | If the stored history already had a System message, the stored history grows by exactly 2 (1 with no user message) and keeps the old one as a prefix |
| ChatEndpoint.SequentialCallsAppend | Program.cs:87-132 | Two successful calls on the same id: the second stores what the first stored, followed by its own additions |
| ChatEndpoint.ChatStepKeepsSystemFirst | Program.cs:102-132 | If every stored history loads and begins with a System message, that stays true after any call |
| ChatEndpoint.FreshConversationScenario | Program.cs:87-134 | On a fresh id "abc", with message User "hi" and a gateway that answers "hello": the reply is Assistant "hello" and the store holds [System prompt, User "hi", Assistant "hello"] |
| ChatEndpoint.GatewayFailureScenario | Program.cs:124-132 | If the gateway fails, the call fails with GatewayFaulted and a key that was absent is still absent |
| ChatEndpoint.DistributedCache.constructor | Program.cs:22 | The in-memory cache starts empty |
| ChatEndpoint.DistributedCache.GetString | Program.cs:92 | Returns the stored string iff the key is present |
| ChatEndpoint.DistributedCache.SetString | Program.cs:132 | Replaces or adds the entry for the key, and changes no other entry |
| ChatEndpoint.HandleChat | Program.cs:81-135 | The imperative handler returns, and leaves in the cache, exactly what ChatStep gives from the old cache. On any failure the cache is unchanged. Keys other than the request's are never touched |
| Recommendations.WelcomePayload | Program.cs:34-49 | The welcome text is the fixed greeting; its suggestions are exactly the first five catalog entries |
| Recommendations.CatalogDistinct | Program.cs:141-152 | No entry occurs twice in the 9-entry catalog |
| Recommendations.NextInt | Program.cs:154 | Random.Next(min, max) lies in [min, max), with the upper bound excluded, or is min when the bounds are equal |
| Recommendations.NextIntCovers | Program.cs:154 | Every value of [min, max) is drawn by some sample |
| Recommendations.ShuffleDistinct | Program.cs:155 | Shuffling a list without repeats gives a list without repeats |
| Recommendations.Recommend | Program.cs:138-157 | Returns 2 to 5 entries, with no duplicates, all from the catalog: a prefix of the shuffled catalog |
| Recommendations.RecommendCounts | Program.cs:154-155 | Each count from 2 to 5 is produced by some draw |
| Recommendations.WelcomeIsUnshuffledSample | Program.cs:39-46 | The sampler with the catalog unshuffled and count 5 returns exactly the welcome suggestions |

## Left out

- The language-model client and the function-invocation middleware (Program.cs:12-19) are network and library calls. The gateway is an opaque function parameter.
- The tool lambdas (Program.cs:51-79) are canned strings plus a wall-clock call. The tool list passed with each gateway call is not modelled.
- The JSON serializer internals (Program.cs:95, 131) are not modelled; the serializer is an abstract pair. Elements that decode as `null` inside a list, and a `null` Role or Content, are not modelled. `Message` is taken to be a record of two strings; Message.cs is not part of this model.
- Cancellation is modelled only at the gateway call (`Completion.Canceled`). A cancellation seen by the cache read or the cache write is not modelled, and neither is a failing cache write.
- `Random` (Program.cs:153-155) is replaced by explicit inputs. Ties between random `OrderBy` keys are not modelled: any order is one permutation of the catalog.
- Concurrent requests on the same key (last writer wins) are not modelled; only single sequential calls are.
- ASP.NET hosting is not modelled: static files, the fallback file, HTTPS redirection, OpenAPI, dependency injection, HTTP status codes. The `/recommendations` request body is ignored by the source and is not modelled.
- The browser client (wwwroot/chat.js) is UI and browser I/O.
- Cache expiry and eviction are not modelled.
