/** The per-call record that the call registry, the LLM service and the
    transcript route share. Values read from the environment may be absent,
    so the two messages are optional. */
module CallContexts {
  import opened Common

  /** One entry of a conversation history: `{"role", "content", "name"}`. */
  datatype ChatEntry = ChatEntry(role: string, content: Option<string>, name: Option<string>)

  datatype CallContext = CallContext(
    streamSid: Option<string>,
    callSid: Option<string>,
    callEnded: bool,
    userContext: seq<ChatEntry>,
    systemMessage: Option<string>,
    initialMessage: Option<string>)

  /** `CallContext()`: no identifiers, an empty history and empty messages. */
  function NewCallContext(): (c: CallContext)
    ensures c.callSid.None? && c.userContext == []
    ensures c.systemMessage == Some("") && c.initialMessage == Some("")
  {
    CallContext(None, None, false, [], Some(""), Some(""))
  }

  /** The history an LLM service starts a call with: a dummy user turn and
      the call's greeting as the assistant's first turn. */
  function Greeting(initialMessage: Option<string>): (h: seq<ChatEntry>)
    ensures |h| == 2 && h[0].role == "user" && h[1].role == "assistant"
    ensures h[1].content == initialMessage
  {
    [ChatEntry("user", Some("Hello"), None), ChatEntry("assistant", initialMessage, None)]
  }
}
