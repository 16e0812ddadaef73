/**
 * Chat messages as the /chat endpoint stores them, the inbound request body,
 * and the translation of stored messages into the completion gateway's
 * role-tagged messages (the `Select` of Program.cs, lines 120-121).
 */
module Messages {
  import opened Wrappers

  /** A stored chat message: a free-form role string and its text. */
  datatype Message = Message(role: string, content: string)

  /** The body of `POST /chat`: both fields may be missing. */
  datatype ChatRequest = ChatRequest(conversationId: Option<string>, message: Option<Message>)

  const SystemRole: string := "System"
  const UserRole: string := "User"
  const AssistantRole: string := "Assistant"

  /** The only two roles the handler ever hands to the gateway. */
  datatype ChatRole = User | Assistant

  /** A message in the gateway's own vocabulary. */
  datatype ChatMessage = ChatMessage(role: ChatRole, text: string)

  /** The role translation: exactly the string "User" becomes User, anything else Assistant. */
  function GatewayRole(role: string): (r: ChatRole)
    ensures r == User <==> role == UserRole
  {
    if role == UserRole then User else Assistant
  }

  /** One stored message in the gateway's vocabulary. */
  function ToChatMessage(m: Message): ChatMessage {
    ChatMessage(GatewayRole(m.role), m.content)
  }

  /**
   * The whole history in the gateway's vocabulary: same length, same order,
   * the content of every message kept and only its role translated.
   */
  function ToGatewayMessages(history: seq<Message>): (r: seq<ChatMessage>)
    ensures |r| == |history|
    ensures forall i :: 0 <= i < |history| ==> r[i] == ToChatMessage(history[i])
  {
    if history == [] then [] else [ToChatMessage(history[0])] + ToGatewayMessages(history[1..])
  }

  /** Translating a concatenation is concatenating the translations. */
  lemma ToGatewayMessagesAppend(a: seq<Message>, b: seq<Message>)
    ensures ToGatewayMessages(a + b) == ToGatewayMessages(a) + ToGatewayMessages(b)
  {
  }

  /**
   * Position by position, the gateway sees the stored content unchanged, with
   * role User exactly where the stored role is "User"; every other role,
   * "System" included, is sent as Assistant.
   */
  lemma GatewayRoles(history: seq<Message>, i: nat)
    requires i < |history|
    ensures ToGatewayMessages(history)[i].text == history[i].content
    ensures ToGatewayMessages(history)[i].role == User <==> history[i].role == UserRole
    ensures ToGatewayMessages(history)[i].role == Assistant <==> history[i].role != UserRole
  {
  }
}
