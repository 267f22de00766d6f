/** Provider-agnostic chat messages, and what it means for tool calls and tool results to belong together. */
module ChatMessages {
  import opened Prelude

  datatype Role = System | User | Assistant | Tool

  datatype ToolCall = ToolCall(id: string, name: string, arguments: string, thoughtSignature: Option<string>)

  /** Absent (or null), plain text, or structured parts held as their JSON text. */
  datatype Content = NoContent | Text(text: string) | Parts(json: string)

  datatype ChatMessage = ChatMessage(
    role: Role,
    content: Content,
    name: Option<string>,
    toolCallId: Option<string>,
    toolCalls: Option<seq<ToolCall>>,
    reasoningContent: Option<string>)

  /** The call ids an assistant message opens. */
  function CalledIds(m: ChatMessage): set<string>
  {
    if m.role == Assistant && m.toolCalls.Some? then set c | c in m.toolCalls.value :: c.id else {}
  }

  /** All of `ms[from..to]` are tool results. */
  ghost predicate ToolsBetween(ms: seq<ChatMessage>, from: nat, to: nat)
    requires to <= |ms|
  {
    forall k :: from <= k < to ==> ms[k].role == Tool
  }

  /** `ms[j]` is the assistant turn that `ms[i]` answers, with nothing but tool results in between. */
  ghost predicate Answers(ms: seq<ChatMessage>, j: nat, i: nat)
    requires i < |ms|
  {
    j < i && ms[i].role == Tool && ms[i].toolCallId.Some? &&
    ms[i].toolCallId.value in CalledIds(ms[j]) && ToolsBetween(ms, j + 1, i)
  }

  /** The tool result `ms[i]` has its call. */
  ghost predicate HasCall(ms: seq<ChatMessage>, i: nat)
    requires i < |ms|
  {
    exists j: nat :: j < i && Answers(ms, j, i)
  }

  /** The call `id` opened by `ms[j]` has its result. */
  ghost predicate HasResult(ms: seq<ChatMessage>, j: nat, id: string)
  {
    exists i: nat :: j < i < |ms| && Answers(ms, j, i) && ms[i].toolCallId == Some(id)
  }

  /** Every tool result follows the assistant turn that called it: what model APIs insist on. */
  ghost predicate ResultsPaired(ms: seq<ChatMessage>)
  {
    forall i :: 0 <= i < |ms| && ms[i].role == Tool ==> HasCall(ms, i)
  }

  /** Every call has its result in the run of tool results behind it. */
  ghost predicate CallsAnswered(ms: seq<ChatMessage>)
  {
    forall j, id :: 0 <= j < |ms| && id in CalledIds(ms[j]) ==> HasResult(ms, j, id)
  }

  /** No two assistant turns use the same call id. */
  ghost predicate UniqueCallIds(ms: seq<ChatMessage>)
  {
    forall j, k :: 0 <= j < k < |ms| ==> CalledIds(ms[j]) !! CalledIds(ms[k])
  }

  /** The shape of a transcript that no provider rejects. */
  ghost predicate WellFormed(ms: seq<ChatMessage>)
  {
    ResultsPaired(ms) && CallsAnswered(ms) && UniqueCallIds(ms)
  }
}
