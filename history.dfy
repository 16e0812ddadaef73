/**
 * The in-memory history steps of the /chat handler (Program.cs, lines
 * 102-128): the System-message normalisation, the optional user message and
 * the assistant reply, and what repeated calls do to one conversation.
 */
module History {
  import opened Wrappers
  import opened Messages

  const SystemInstruction: string := "You are a helpful assistant."

  /** The System message the handler inserts into a history that has none. */
  function SystemPrompt(): Message {
    Message(SystemRole, SystemInstruction)
  }

  /** The `Any(m => m.Role == "System")` test. */
  predicate HasSystem(history: seq<Message>) {
    exists i :: 0 <= i < |history| && history[i].role == SystemRole
  }

  /**
   * Normalisation: a history without a System message gets the constant one
   * in front; a history that has one, anywhere, is left exactly as it is.
   * Either way the original history is what follows the (at most one)
   * inserted message.
   */
  function Normalize(history: seq<Message>): (r: seq<Message>)
    ensures HasSystem(r)
    ensures r == history <==> HasSystem(history)
    ensures |history| <= |r| <= |history| + 1
    ensures r[|r| - |history|..] == history
    ensures r != history ==> r[0] == SystemPrompt()
  {
    if HasSystem(history) then history
    else
      assert ([SystemPrompt()] + history)[0].role == SystemRole;
      [SystemPrompt()] + history
  }

  /** Normalising twice is normalising once. */
  lemma NormalizeIdempotent(history: seq<Message>)
    ensures Normalize(Normalize(history)) == Normalize(history)
  {
  }

  /** The `request.Message != null` step: the message goes last, earlier ones unchanged. */
  function AppendUser(history: seq<Message>, message: Option<Message>): (r: seq<Message>)
    ensures |r| == |history| + (if message.Some? then 1 else 0)
    ensures r[..|history|] == history
    ensures message.Some? ==> r[|history|] == message.value
  {
    match message
    case None => history
    case Some(m) => history + [m]
  }

  /** The message built from the gateway's text (line 127). */
  function AssistantReply(text: string): Message {
    Message(AssistantRole, text)
  }

  /** The messages one successful call adds after the normalised history. */
  function Additions(message: Option<Message>, reply: string): (r: seq<Message>)
    ensures |r| == (if message.Some? then 2 else 1)
    ensures r[|r| - 1] == AssistantReply(reply)
  {
    AppendUser([], message) + [AssistantReply(reply)]
  }

  /** The history one successful call stores, from the history it loaded. */
  function Turn(history: seq<Message>, message: Option<Message>, reply: string): seq<Message> {
    AppendUser(Normalize(history), message) + [AssistantReply(reply)]
  }

  /** Any System message survives appending. */
  lemma HasSystemAppend(a: seq<Message>, b: seq<Message>)
    requires HasSystem(a)
    ensures HasSystem(a + b)
  {
    var i :| 0 <= i < |a| && a[i].role == SystemRole;
    assert (a + b)[i] == a[i];
  }

  /**
   * What one call stores: the normalised history followed by the additions;
   * the last message is the reply; and the result has a System message.
   */
  lemma TurnShape(history: seq<Message>, message: Option<Message>, reply: string)
    ensures Turn(history, message, reply) == Normalize(history) + Additions(message, reply)
    ensures |Turn(history, message, reply)| == |Normalize(history)| + |Additions(message, reply)|
    ensures Turn(history, message, reply)[|Turn(history, message, reply)| - 1] == AssistantReply(reply)
    ensures HasSystem(Turn(history, message, reply))
  {
    HasSystemAppend(Normalize(history), Additions(message, reply));
  }

  /**
   * Growth of one call: relative to a history that already has a System
   * message, the stored history is longer by exactly 2 (1 without a user
   * message), and the old history is a prefix of the new one.
   */
  lemma TurnGrowth(history: seq<Message>, message: Option<Message>, reply: string)
    requires HasSystem(history)
    ensures |Turn(history, message, reply)| == |history| + (if message.Some? then 2 else 1)
    ensures Turn(history, message, reply)[..|history|] == history
  {
    TurnShape(history, message, reply);
  }

  /**
   * A stored history that starts with a System message still does after a
   * call, and so does the one stored for a history in which normalisation
   * inserts the prompt.
   */
  lemma TurnStartsWithSystem(history: seq<Message>, message: Option<Message>, reply: string)
    requires !HasSystem(history) || (|history| > 0 && history[0].role == SystemRole)
    ensures Turn(history, message, reply)[0].role == SystemRole
  {
    TurnShape(history, message, reply);
  }

  /** One successful call: the optional user message and the gateway's text. */
  datatype Exchange = Exchange(message: Option<Message>, reply: string)

  /** The history after a series of successful calls on one conversation, in order. */
  function Conversation(history: seq<Message>, calls: seq<Exchange>): seq<Message>
    decreases |calls|
  {
    if calls == [] then history
    else Conversation(Turn(history, calls[0].message, calls[0].reply), calls[1..])
  }

  /** Everything a series of calls appends, call by call. */
  function AllAdditions(calls: seq<Exchange>): seq<Message>
    decreases |calls|
  {
    if calls == [] then []
    else Additions(calls[0].message, calls[0].reply) + AllAdditions(calls[1..])
  }

  /** Each call adds 2 messages, or 1 when it carries no user message. */
  function ExpectedGrowth(calls: seq<Exchange>): nat
    decreases |calls|
  {
    if calls == [] then 0
    else (if calls[0].message.Some? then 2 else 1) + ExpectedGrowth(calls[1..])
  }

  lemma {:induction false} AllAdditionsLength(calls: seq<Exchange>)
    ensures |AllAdditions(calls)| == ExpectedGrowth(calls)
    decreases |calls|
  {
    if calls != [] {
      AllAdditionsLength(calls[1..]);
    }
  }

  /** A call on a history that has a System message appends its additions and nothing else. */
  lemma TurnAppends(history: seq<Message>, message: Option<Message>, reply: string)
    requires HasSystem(history)
    ensures Turn(history, message, reply) == history + Additions(message, reply)
    ensures HasSystem(history + Additions(message, reply))
  {
    TurnShape(history, message, reply);
  }

  /** Once a history has a System message, calls only append to it. */
  lemma {:induction false} ConversationAppends(history: seq<Message>, calls: seq<Exchange>)
    requires HasSystem(history)
    ensures Conversation(history, calls) == history + AllAdditions(calls)
    decreases |calls|
  {
    if calls == [] {
      assert history + [] == history;
    } else {
      var added := Additions(calls[0].message, calls[0].reply);
      var rest := AllAdditions(calls[1..]);
      assert (history + added) + rest == history + (added + rest);
      TurnAppends(history, calls[0].message, calls[0].reply);
      ConversationAppends(history + added, calls[1..]);
    }
  }

  /**
   * Over any non-empty series of calls the System prompt is inserted at most
   * once, by the first call: the final history is the normalised starting
   * history followed by each call's additions in order, so its length grows
   * by exactly 2 per call with a user message and 1 per call without.
   */
  lemma {:induction false} ConversationHistory(history: seq<Message>, calls: seq<Exchange>)
    requires calls != []
    ensures Conversation(history, calls) == Normalize(history) + AllAdditions(calls)
    ensures |Conversation(history, calls)| == |Normalize(history)| + ExpectedGrowth(calls)
  {
    var added := Additions(calls[0].message, calls[0].reply);
    var rest := AllAdditions(calls[1..]);
    TurnShape(history, calls[0].message, calls[0].reply);
    ConversationAppends(Normalize(history) + added, calls[1..]);
    calc {
      Conversation(history, calls);
      Conversation(Normalize(history) + added, calls[1..]);
      (Normalize(history) + added) + rest;
      { assert (Normalize(history) + added) + rest == Normalize(history) + (added + rest); }
      Normalize(history) + (added + rest);
      Normalize(history) + AllAdditions(calls);
    }
    AllAdditionsLength(calls);
  }
}
