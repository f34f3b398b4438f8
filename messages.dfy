/** The conversation history of one audit run and the shapes of the entries in it
    (agent.py, lines 56-59, 72 and 113-117). */
module Messages {

  datatype Option<+T> = None | Some(value: T)

  /** One tool call requested by the model: the identifier the model generated, the
      tool's name and its arguments. The arguments are forwarded to the tool gateway
      unchanged and never inspected; each value is held as its JSON text. */
  datatype ToolCall = ToolCall(id: string, name: string, args: map<string, string>)

  /** An entry of the history that is replayed to the model on every iteration. */
  datatype Message =
    | SystemMessage(content: string)
    | HumanMessage(content: string)
    | AssistantMessage(content: string, toolCalls: seq<ToolCall>)
    | ToolMessage(content: string, toolCallId: string, name: string)

  /** What one invocation of the model gives back: a reply, or the exception it raised. */
  datatype ModelReply =
    | Reply(content: string, toolCalls: seq<ToolCall>)
    | Failed(error: string)

  /** `m` is the result message for `call`: it echoes the call's identifier and name. */
  predicate Answers(m: Message, call: ToolCall)
  {
    m.ToolMessage? && m.toolCallId == call.id && m.name == call.name
  }

  /** `s` is a sequence of exchanges: each assistant reply is followed by exactly one
      answering ToolMessage per tool call it made, in the order of the calls, and a reply
      that makes no tool call can only be the very last message. */
  predicate ValidExchanges(s: seq<Message>)
    decreases |s|
  {
    s == [] ||
    (s[0].AssistantMessage? &&
     var calls := s[0].toolCalls;
     (calls == [] ==> |s| == 1) &&
     1 + |calls| <= |s| &&
     (forall i :: 0 <= i < |calls| ==> Answers(s[1 + i], calls[i])) &&
     ValidExchanges(s[1 + |calls|..]))
  }

  /** An assistant reply with tool calls, followed by one answering message per call in
      order, extends a sequence of valid exchanges. */
  lemma ExchangeStep(reply: Message, results: seq<Message>, rest: seq<Message>)
    requires reply.AssistantMessage? && reply.toolCalls != [] && |results| == |reply.toolCalls|
    requires forall i :: 0 <= i < |results| ==> Answers(results[i], reply.toolCalls[i])
    requires ValidExchanges(rest)
    ensures ValidExchanges([reply] + results + rest)
  {
  }

  /** The number of assistant messages, that is of model replies, in `h`. */
  function AssistantCount(h: seq<Message>): nat
  {
    if h == [] then 0
    else (if h[0].AssistantMessage? then 1 else 0) + AssistantCount(h[1..])
  }

  lemma {:induction false} AssistantCountAppend(a: seq<Message>, b: seq<Message>)
    ensures AssistantCount(a + b) == AssistantCount(a) + AssistantCount(b)
  {
    if a != [] {
      assert (a + b)[1..] == a[1..] + b;
      AssistantCountAppend(a[1..], b);
    } else {
      assert a + b == b;
    }
  }
}
