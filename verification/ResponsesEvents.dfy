/** The Responses event machine. */
module ResponsesEvents {
  import opened Wrappers
  import opened Json
  import opened History
  import opened Provider

  datatype Kind =
    | Created
    | InProgress
    | ItemAdded
    | OutputTextDelta
    | RefusalDelta
    | SummaryTextDelta
    | ReasoningTextDelta
    | ArgumentsDelta
    | ArgumentsDone
    | ItemDone
    | Terminated(status: string)
    | Redundant
    | Unknown

  function KindOf(kind: string): Kind {
    if kind == "response.created" then Created
    else if kind == "response.in_progress" then InProgress
    else if kind == "response.output_item.added" then ItemAdded
    else if kind == "response.output_text.delta" then OutputTextDelta
    else if kind == "response.refusal.delta" then RefusalDelta
    else if kind == "response.reasoning_summary_text.delta" then SummaryTextDelta
    else if kind == "response.reasoning_text.delta" then ReasoningTextDelta
    else if kind == "response.function_call_arguments.delta" then ArgumentsDelta
    else if kind == "response.function_call_arguments.done" then ArgumentsDone
    else if kind == "response.output_item.done" then ItemDone
    else if kind == "response.completed" then Terminated("completed")
    else if kind == "response.incomplete" then Terminated("incomplete")
    else if kind in {
      "response.content_part.added", "response.content_part.done", "response.output_text.done",
      "response.reasoning_summary_part.added", "response.reasoning_summary_part.done",
      "response.reasoning_summary_text.done", "response.reasoning_text.done", "response.refusal.done"
    } then Redundant
    else Unknown
  }

  /** Whether a list field of an initial item, if present, is the empty list. */
  predicate AbsentOrEmpty(item: Json, key: string) {
    item.Get(key).None? || item.Get(key).value == Arr([])
  }

  /** The block that `output_item.added` opens and the fragments it emits. */
  function OpenItem(index: nat, item: Json): Result<(Block, seq<Fragment>), ErrorKind> {
    var kind :- EventString(item, "type");
    if !AbsentOrEmpty(item, "content") || !AbsentOrEmpty(item, "summary") then Err(ResponseInvalid)
    else if kind == MessageItem.Name() then Ok((NewBlock(MessageItem), []))
    else if kind == ReasoningItem.Name() then
      var id :- EventString(item, "id");
      Ok((NewBlock(ReasoningItem).(id := id, encrypted := item.Get("encrypted_content")), []))
    else if kind == FunctionCall.Name() then
      var id :- EventString(item, "call_id");
      var name :- EventString(item, "name");
      var arguments :- EventString(item, "arguments");
      Ok((NewBlock(FunctionCall).(id := id, name := name, arguments := arguments),
          [ToolCallDelta(index, Some(id), Some(name), arguments)]))
    else Err(ResponseInvalid)
  }

  /** The open item that an event names. */
  function OpenItemAt(core: Core, value: Json): (r: Result<(nat, Block), ErrorKind>)
    ensures r.Ok? ==> r.value.0 in core.blocks && core.blocks[r.value.0] == r.value.1 && !r.value.1.closed
  {
    var index :- EventIndex(value, "output_index");
    if index in core.blocks && !core.blocks[index].closed then Ok((index, core.blocks[index])) else Err(ResponseInvalid)
  }

  /** The four text deltas: two for messages and two for reasoning items. */
  function TextDelta(core: Core, kind: Kind, value: Json): StepResult {
    var (index, block) :- OpenItemAt(core, value);
    var reasoning := kind.SummaryTextDelta? || kind.ReasoningTextDelta?;
    if (reasoning && !block.kind.ReasoningItem?) || (!reasoning && !block.kind.MessageItem?) then Err(ResponseInvalid)
    else
      var text :- EventString(value, "delta");
      var next := if kind.ReasoningTextDelta? then block.(reasoning := block.reasoning + text)
                  else block.(text := block.text + text);
      Ok((core.(blocks := core.blocks[index := next], refused := core.refused || kind.RefusalDelta?),
          [if reasoning then Reasoning(text) else Content(text)]))
  }

  /** The text field of a completed part in a channel of an item. */
  function PartField(kind: BlockKind, channel: string, part: string): Result<string, ErrorKind> {
    if kind.MessageItem? && channel == "content" && part == "output_text" then Ok("text")
    else if kind.MessageItem? && channel == "content" && part == "refusal" then Ok("refusal")
    else if kind.ReasoningItem? && channel == "summary" && part == "summary_text" then Ok("text")
    else if kind.ReasoningItem? && channel == "content" && part == "reasoning_text" then Ok("text")
    else Err(ResponseInvalid)
  }

  function PartsText(kind: BlockKind, channel: string, parts: seq<Json>): Result<string, ErrorKind> {
    if parts == [] then Ok("")
    else
      var part :- EventString(parts[0], "type");
      var field :- PartField(kind, channel, part);
      var text :- EventString(parts[0], field);
      var rest :- PartsText(kind, channel, parts[1..]);
      Ok(text + rest)
  }

  /** The text of the completed parts of a channel; an absent channel has none. */
  function CompletedText(kind: BlockKind, item: Json, channel: string): Result<string, ErrorKind> {
    match item.Get(channel)
    case None => Ok("")
    case Some(Arr(parts)) => PartsText(kind, channel, parts)
    case Some(_) => Err(ResponseInvalid)
  }

  /** Whether a completed item agrees with what was streamed for it. */
  function Agrees(block: Block, item: Json): Result<(), ErrorKind> {
    match block.kind
    case FunctionCall =>
      if item.At("call_id") == Str(block.id) && item.At("name") == Str(block.name) &&
          item.At("arguments") == Str(block.arguments)
      then Ok(()) else Err(ResponseInvalid)
    case MessageItem =>
      var content :- CompletedText(block.kind, item, "content");
      if content == block.text then Ok(()) else Err(ResponseInvalid)
    case ReasoningItem =>
      var summary :- CompletedText(block.kind, item, "summary");
      var content :- CompletedText(block.kind, item, "content");
      if summary == block.text && content == block.reasoning && item.At("id") == Str(block.id)
      then Ok(()) else Err(ResponseInvalid)
    case _ => Ok(())
  }

  function ReplayItem(block: Block, item: Json): Json {
    var base := map["type" := Str("reasoning"), "id" := Str(block.id), "summary" := item.Get("summary").GetOr(Arr([]))];
    var content := item.Get("content");
    var encrypted := OrElse(item.Get("encrypted_content"), block.encrypted);
    Obj(base + (if content.Some? then map["content" := content.value] else map[])
             + (if encrypted.Some? then map["encrypted_content" := encrypted.value] else map[]))
  }

  function ItemDoneEvent(core: Core, value: Json): StepResult {
    var (index, block) :- OpenItemAt(core, value);
    var item := value.At("item");
    if item.At("type") != Str(block.kind.Name()) then Err(ResponseInvalid)
    else
      var _ :- Agrees(block, item);
      var output := if block.kind.ReasoningItem? then [Replay(Responses, index, ReplaceItem(ReplayItem(block, item)))]
          else [];
      Ok((core.(blocks := core.blocks[index := block.(closed := true)]), output))
  }

  function TerminalReason(core: Core, status: string, response: Json): Result<StopReason, ErrorKind> {
    if status == "incomplete" then
      var reason :- EventString(response.At("incomplete_details"), "reason");
      Ok(ToStopReason(reason))
    else if core.refused then Ok(ContentFilter)
    else if exists i :: i in core.blocks && core.blocks[i].kind.FunctionCall? then Ok(ToolCalls)
    else Ok(Completed)
  }

  function TerminalUsage(response: Json): Result<seq<Fragment>, ErrorKind> {
    match NonNull(response.Get("usage"))
    case None => Ok([])
    case Some(usage) =>
      var input :- OrInvalid(usage.At("input_tokens").AsU64());
      var output :- OrInvalid(usage.At("output_tokens").AsU64());
      var cached :- OptionalCount(usage.At("input_tokens_details").Get("cached_tokens"));
      Ok([UsageUpdate(Usage(input, output, cached))])
  }

  function TerminalEvent(core: Core, status: string, value: Json): StepResult {
    var response := value.At("response");
    if exists i :: i in core.blocks && !core.blocks[i].closed then Err(ResponseIncomplete)
    else if response.At("status") != Str(status) then Err(ResponseInvalid)
    else
      var reason :- TerminalReason(core, status, response);
      var usage :- TerminalUsage(response);
      Ok((core.(terminal := true), usage + [Finished(reason)]))
  }

  function ResponsesEvent(core: Core, kind: Kind, value: Json): StepResult {
    if kind.Created? then
      if core.started then Err(ResponseInvalid) else Ok((core.(started := true), []))
    else if !core.started then Err(ResponseInvalid)
    else
      match kind
      case InProgress => Ok((core, []))
      case ItemAdded =>
        var index :- EventIndex(value, "output_index");
        var (block, output) :- OpenItem(index, value.At("item"));
        if index in core.blocks then Err(ResponseInvalid)
        else Ok((core.(blocks := core.blocks[index := block]), output))
      case ArgumentsDelta =>
        var (index, block) :- OpenItemAt(core, value);
        if !block.kind.FunctionCall? then Err(ResponseInvalid)
        else
          var arguments :- EventString(value, "delta");
          Ok((core.(blocks := core.blocks[index := block.(arguments := block.arguments + arguments)]),
              [ToolCallDelta(index, None, None, arguments)]))
      case ArgumentsDone =>
        var (_, block) :- OpenItemAt(core, value);
        if block.kind.FunctionCall? && value.At("arguments") == Str(block.arguments) then Ok((core, []))
        else Err(ResponseInvalid)
      case ItemDone => ItemDoneEvent(core, value)
      case Terminated(status) => TerminalEvent(core, status, value)
      case Redundant =>
        var _ :- OpenItemAt(core, value);
        Ok((core, []))
      case Unknown => Err(ResponseInvalid)
      case _ => TextDelta(core, kind, value)
  }
}
