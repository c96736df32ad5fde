/** Translation between the agent's messages and the messages of Ollama's chat
    wire format. Only the user role is translated: any other agent role has no
    wire counterpart (a nil pointer), and any other wire role comes back as the
    zero-value agent message.
 */
module Messages {
  import opened Wrappers

  /** The agent library's role is a plain string; its user role is "user". */
  type Role = string

  const UserMessageRole: Role := "user"

  /** An agent-side message, reduced to the two fields the adapter reads. */
  datatype Message = Message(role: Role, content: string)

  /** Go's zero-value `message.Message{}`: empty role and empty content. */
  const ZeroMessage: Message := Message("", "")

  type OllamaMessageRole = string

  const OllamaUserMessageRole: OllamaMessageRole := "user"
  const OllamaAIMessageRole: OllamaMessageRole := "ai"

  /** A message as it travels to and from the Ollama server. */
  datatype OllamaMessage = OllamaMessage(role: OllamaMessageRole, content: string)

  /** Agent message to wire message; None stands for the nil pointer returned for non-user roles. */
  function ToOllamaMessage(m: Message): (r: Option<OllamaMessage>)
    ensures r.Some? <==> m.role == UserMessageRole
    ensures r.Some? ==> r.value.role == OllamaUserMessageRole && r.value.content == m.content
  {
    if m.role == UserMessageRole then Some(OllamaMessage(OllamaUserMessageRole, m.content)) else None
  }

  /** Wire message to agent message; every non-user role collapses to the zero value. */
  function FromOllamaMessage(w: OllamaMessage): (r: Message)
    ensures w.role == OllamaUserMessageRole ==> r.role == UserMessageRole && r.content == w.content
    ensures w.role != OllamaUserMessageRole ==> r.role == "" && r.content == ""
  {
    if w.role == OllamaUserMessageRole then Message(UserMessageRole, w.content) else ZeroMessage
  }

  /** Converts a whole conversation position by position; non-user messages leave
      a None in their slot instead of being dropped. */
  function ToOllamaMessages(ms: seq<Message>): (r: seq<Option<OllamaMessage>>)
    ensures |r| == |ms|
    ensures forall i :: 0 <= i < |ms| ==> r[i] == ToOllamaMessage(ms[i])
  {
    if |ms| == 0 then [] else [ToOllamaMessage(ms[0])] + ToOllamaMessages(ms[1..])
  }

  /** Every user message survives the trip to the wire and back unchanged. */
  lemma UserRoundTrip(m: Message)
    requires m.role == UserMessageRole
    ensures ToOllamaMessage(m).Some?
    ensures FromOllamaMessage(ToOllamaMessage(m).value) == m
  {
  }

  /** A wire message survives the trip to the agent and back exactly when its role is "user";
      otherwise the return trip yields no wire message at all. */
  lemma WireRoundTrip(w: OllamaMessage)
    ensures ToOllamaMessage(FromOllamaMessage(w)) == Some(w) <==> w.role == OllamaUserMessageRole
    ensures w.role != OllamaUserMessageRole ==> ToOllamaMessage(FromOllamaMessage(w)) == None
  {
  }

  /** A wire message carrying the adapter's otherwise unused `OllamaAIMessageRole` is not
      translated back: it becomes the zero message. */
  lemma AIMessageIsDropped(content: string)
    ensures FromOllamaMessage(OllamaMessage(OllamaAIMessageRole, content)) == ZeroMessage
  {
  }

  /** Converting a concatenation converts each part. */
  lemma ToOllamaMessagesAppend(a: seq<Message>, b: seq<Message>)
    ensures ToOllamaMessages(a + b) == ToOllamaMessages(a) + ToOllamaMessages(b)
  {
  }
}
