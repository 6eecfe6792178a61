/** Provider events: the fragments they emit and the decoder state they act on. */
module Provider {
  import opened Wrappers
  import opened Json
  import opened History
  import opened Sse

  datatype StopReason = Completed | ToolCalls | Length | ContentFilter | Other(value: string)

  function ToStopReason(value: string): StopReason {
    if value in {"stop", "end_turn", "stop_sequence"} then Completed
    else if value in {"tool_calls", "tool_use"} then ToolCalls
    else if value in {"length", "max_tokens", "max_output_tokens", "model_context_window_exceeded"} then Length
    else if value in {"content_filter", "refusal"} then ContentFilter
    else Other(value)
  }

  datatype Usage = Usage(inputTokens: nat, outputTokens: nat, cacheHitTokens: Option<nat>)

  /** How a replay fragment changes the stored replay item at its index. */
  datatype ReplayEdit = StartItem(item: Json) | ReplaceItem(item: Json) | AppendField(field: string, value: string)

  datatype Fragment =
    | Content(text: string)
    | Reasoning(text: string)
    | ToolCallDelta(index: nat, id: Option<string>, name: Option<string>, arguments: string)
    | Replay(format: ApiFormat, index: nat, edit: ReplayEdit)
    | UsageUpdate(usage: Usage)
    | Finished(reason: StopReason)

  datatype BlockKind = TextBlock | Thinking | RedactedThinking | ToolUse | MessageItem | ReasoningItem | FunctionCall {
    function Name(): string {
      match this
      case TextBlock => "text"
      case Thinking => "thinking"
      case RedactedThinking => "redacted_thinking"
      case ToolUse => "tool_use"
      case MessageItem => "message"
      case ReasoningItem => "reasoning"
      case FunctionCall => "function_call"
    }
  }

  /** A content block or output item.  The three digests are the exact text hashed: no collisions. */
  datatype Block = Block(
    kind: BlockKind, id: string, name: string, closed: bool,
    text: string, reasoning: string, arguments: string, hasArguments: bool, encrypted: Option<Json>)

  function NewBlock(kind: BlockKind): Block {
    Block(kind, "", "", false, "", "", "", false, None)
  }

  /** The decoder state that events change. */
  datatype Core = Core(
    started: bool, terminal: bool, reason: Option<StopReason>, blocks: map<nat, Block>, usage: Usage, refused: bool)

  const EMPTY_CORE := Core(false, false, None, map[], Usage(0, 0, None), false)

  type StepResult = Result<(Core, seq<Fragment>), ErrorKind>

  /** JSON parsing and printing and UTF-8 decoding, which are not modelled. */
  datatype Codec = Codec(parse: seq<byte> -> Option<Json>, text: seq<byte> -> Option<string>, render: Json -> string)

  ghost predicate AllClosed(core: Core) {
    forall i :: i in core.blocks ==> core.blocks[i].closed
  }

  function OrInvalid<T>(value: Option<T>): Result<T, ErrorKind> {
    match value
    case None => Err(ResponseInvalid)
    case Some(v) => Ok(v)
  }

  function EventString(value: Json, key: string): Result<string, ErrorKind> {
    OrInvalid(value.At(key).AsStr())
  }

  function EventIndex(value: Json, key: string): (r: Result<nat, ErrorKind>)
    ensures r.Ok? ==> r.value < 256
  {
    match value.At(key).AsU64()
    case Some(index) => if index < 256 then Ok(index) else Err(ResponseInvalid)
    case None => Err(ResponseInvalid)
  }

  /** An optional token count: an absent one stays absent, a malformed one is an error. */
  function OptionalCount(value: Option<Json>): Result<Option<nat>, ErrorKind> {
    match value
    case None => Ok(None)
    case Some(count) => if count.AsU64().Some? then Ok(count.AsU64()) else Err(ResponseInvalid)
  }

  /** An optional string field: an absent one stays absent, a malformed one is an error. */
  function OptionalString(value: Option<Json>): Result<Option<string>, ErrorKind> {
    match value
    case None => Ok(None)
    case Some(text) => if text.Str? then Ok(Some(text.text)) else Err(ResponseInvalid)
  }

  function OrElse<T>(first: Option<T>, second: Option<T>): Option<T> {
    if first.Some? then first else second
  }

  function NonNull(value: Option<Json>): Option<Json> {
    if value == Some(Null) then None else value
  }
}
