/** The provider-independent conversation history that the encoders translate. */
module History {
  import opened Wrappers
  import opened Json

  const MAX_REQUEST_BYTES: nat := 128 * 1024 * 1024
  const MAX_MESSAGE_BYTES: nat := 4 * 1024 * 1024
  const MAX_MESSAGES_BYTES: nat := 16 * 1024 * 1024

  datatype Image = Image(mediaType: string, data: string)

  datatype ToolCall = ToolCall(id: string, name: string, arguments: Json)

  datatype Message =
    | System(content: string)
    | User(content: string, images: seq<Image>)
    | Assistant(reasoning: Option<string>, answer: Option<string>, calls: seq<ToolCall>, replay: Option<Json>)
    | Tool(callId: string, content: string, images: seq<Image>, failed: bool)

  datatype ErrorKind =
    | InvalidParameters
    | InvalidToolDefinition
    | InvalidMessages
    | ResponseInvalid
    | ResponseIncomplete
    | ResponseTooLarge

  datatype ApiFormat = ChatCompletions | Messages | Responses {
    function AsStr(): string {
      match this
      case ChatCompletions => "chat_completions"
      case Messages => "messages"
      case Responses => "responses"
    }
  }

  /** The ids of a batch of calls, in call order. */
  function Ids(calls: seq<ToolCall>): (ids: seq<string>)
    ensures |ids| == |calls|
  {
    if calls == [] then [] else [calls[0].id] + Ids(calls[1..])
  }

  lemma {:induction false} IdsByIndex(calls: seq<ToolCall>)
    ensures forall k :: 0 <= k < |calls| ==> Ids(calls)[k] == calls[k].id
  {
    if calls != [] {
      IdsByIndex(calls[1..]);
    }
  }

  predicate AllTools(messages: seq<Message>) {
    messages == [] || (messages[0].Tool? && AllTools(messages[1..]))
  }

  /** The call ids answered by a run of tool messages, in message order. */
  function Answers(messages: seq<Message>): (ids: seq<string>)
    requires AllTools(messages)
    ensures |ids| == |messages|
  {
    if messages == [] then [] else [messages[0].callId] + Answers(messages[1..])
  }

  /** The calls an assistant message makes; other messages make none. */
  function CallsOf(message: Message): seq<ToolCall> {
    if message.Assistant? then message.calls else []
  }

  /** `results` are exactly one tool result for each call of `head`, in any order. */
  predicate IsBatch(head: Message, results: seq<Message>) {
    && !head.Tool?
    && AllTools(results)
    && multiset(Ids(CallsOf(head))) == multiset(Answers(results))
  }

  /**
   The grammar of answered histories: every assistant's calls are followed at once by exactly one
   tool result for each of them, in any order, and tool results occur nowhere else.
   */
  predicate Answered(history: seq<Message>) {
    history == [] ||
    ( var n := |CallsOf(history[0])|;
      n < |history| && IsBatch(history[0], history[1..n + 1]) && Answered(history[n + 1..]))
  }

  /** The ids of every tool call of a history, in order. */
  function AllCallIds(history: seq<Message>): seq<string> {
    if history == [] then [] else Ids(CallsOf(history[0])) + AllCallIds(history[1..])
  }

  ghost predicate Distinct<T>(s: seq<T>) {
    forall i, j :: 0 <= i < j < |s| ==> s[i] != s[j]
  }
}
