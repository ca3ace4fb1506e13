/** The messages of one conversation, and the list object the turn, the window and the cache share. */
module Messages {
  import opened Wrappers

  type Time = real

  datatype Role = System | User | Assistant | Tool

  datatype ToolCall = ToolCall(id: string, name: string, arguments: string)

  datatype Message = Message(
    role: Role,
    content: string,
    toolCalls: seq<ToolCall>,
    toolCallId: Option<string>,
    untrusted: bool,
    createdAt: Option<Time>)

  function Say(role: Role, content: string, untrusted: bool, at: Time): Message {
    Message(role, content, [], None, untrusted, Some(at))
  }

  predicate Tainted(messages: seq<Message>) {
    exists i :: 0 <= i < |messages| && messages[i].untrusted
  }

  predicate IsCall(m: Message) { m.role == Assistant && m.toolCalls != [] }

  predicate IsPlain(m: Message) { m.role == User || (m.role == Assistant && m.toolCalls == []) }

  /** Results that answer these calls, in order. */
  predicate Answers(results: seq<Message>, calls: seq<ToolCall>) {
    && |results| == |calls|
    && forall i :: 0 <= i < |calls| ==> results[i].role == Tool && results[i].toolCallId == Some(calls[i].id)
  }

  /** Plain messages, and assistant calls each followed by exactly its results. */
  predicate Dialogue(s: seq<Message>)
    decreases |s|
  {
    if s == [] then true
    else if IsCall(s[0]) then
      var n := |s[0].toolCalls|;
      |s| > n && Answers(s[1..n+1], s[0].toolCalls) && Dialogue(s[n+1..])
    else
      IsPlain(s[0]) && Dialogue(s[1..])
  }

  /** A conversation as the provider accepts it: the system message, then a dialogue. */
  predicate Conversation(s: seq<Message>) {
    s != [] && s[0].role == System && Dialogue(s[1..])
  }

  /** A list object; several holders see the same changes. */
  class MessageList {
    var items: seq<Message>

    constructor (initial: seq<Message>)
      ensures items == initial
    {
      items := initial;
    }
  }
}
