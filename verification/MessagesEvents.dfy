/** The Messages event machine. */
module MessagesEvents {
  import opened Wrappers
  import opened Json
  import opened History
  import opened Provider

  datatype Kind = Ping | MessageStart | BlockStart | BlockDelta | BlockStop | MessageDelta | MessageStop | Unknown

  function KindOf(kind: string): Kind {
    if kind == "ping" then Ping
    else if kind == "message_start" then MessageStart
    else if kind == "content_block_start" then BlockStart
    else if kind == "content_block_delta" then BlockDelta
    else if kind == "content_block_stop" then BlockStop
    else if kind == "message_delta" then MessageDelta
    else if kind == "message_stop" then MessageStop
    else Unknown
  }

  function CheckedSum(a: nat, b: nat, c: nat): Result<nat, ErrorKind> {
    if a + b + c <= USIZE_MAX then Ok(a + b + c) else Err(ResponseInvalid)
  }

  /** `messages_usage`: counts accumulate, and a new input count absorbs the cache counts. */
  function UsageEvent(core: Core, value: Json): (r: StepResult)
    ensures r.Ok? ==>
              && r.value.0 == core.(usage := r.value.0.usage)
              && r.value.1 == [UsageUpdate(r.value.0.usage)]
  {
    if !value.Obj? then Err(ResponseInvalid)
    else
      var input :- OptionalCount(value.Get("input_tokens"));
      var output :- OptionalCount(value.Get("output_tokens"));
      var cached :- OptionalCount(value.Get("cache_read_input_tokens"));
      var hits := OrElse(cached, core.usage.cacheHitTokens);
      var total :- match input
                   case None => Ok(core.usage.inputTokens)
                   case Some(tokens) => (
                     var created :- OptionalCount(value.Get("cache_creation_input_tokens"));
                     CheckedSum(tokens, hits.GetOr(0), created.GetOr(0)));
      var usage := Usage(total, output.GetOr(core.usage.outputTokens), hits);
      Ok((core.(usage := usage), [UsageUpdate(usage)]))
  }

  /** The block that `content_block_start` opens and the fragments it emits. */
  function OpenBlock(codec: Codec, index: nat, block: Json): Result<(Block, seq<Fragment>), ErrorKind> {
    var kind :- EventString(block, "type");
    if kind == TextBlock.Name() then
      var text :- EventString(block, "text");
      Ok((NewBlock(TextBlock), [Content(text)]))
    else if kind == Thinking.Name() then
      var thinking :- EventString(block, "thinking");
      var signature := block.At("signature").AsStr().GetOr("");
      var item := Obj(map["type" := Str("thinking"), "thinking" := Str(thinking), "signature" := Str(signature)]);
      Ok((NewBlock(Thinking), [Reasoning(thinking), Replay(Messages, index, StartItem(item))]))
    else if kind == RedactedThinking.Name() then
      var data :- EventString(block, "data");
      var item := Obj(map["type" := Str("redacted_thinking"), "data" := Str(data)]);
      Ok((NewBlock(RedactedThinking), [Replay(Messages, index, StartItem(item))]))
    else if kind == ToolUse.Name() then
      var id :- EventString(block, "id");
      var name :- EventString(block, "name");
      if !block.At("input").Obj? then Err(ResponseInvalid)
      else
        var empty := block.At("input").fields == map[];
        var arguments := if empty then "" else codec.render(block.At("input"));
        Ok((NewBlock(ToolUse).(id := id, name := name, hasArguments := !empty),
            [ToolCallDelta(index, Some(id), Some(name), arguments)]))
    else Err(ResponseInvalid)
  }

  function DeltaEvent(block: Block, index: nat, delta: Json): Result<(Block, seq<Fragment>), ErrorKind> {
    var kind :- EventString(delta, "type");
    if kind == "text_delta" && block.kind.TextBlock? then
      var text :- EventString(delta, "text");
      Ok((block, [Content(text)]))
    else if kind == "thinking_delta" && block.kind.Thinking? then
      var text :- EventString(delta, "thinking");
      Ok((block, [Reasoning(text), Replay(Messages, index, AppendField("thinking", text))]))
    else if kind == "signature_delta" && block.kind.Thinking? then
      var text :- EventString(delta, "signature");
      Ok((block, [Replay(Messages, index, AppendField("signature", text))]))
    else if kind == "input_json_delta" && block.kind.ToolUse? then
      var arguments :- EventString(delta, "partial_json");
      Ok((block.(hasArguments := true), [ToolCallDelta(index, None, None, arguments)]))
    else Err(ResponseInvalid)
  }

  /** The open block that an event names. */
  function OpenBlockAt(core: Core, value: Json): (r: Result<(nat, Block), ErrorKind>)
    ensures r.Ok? ==> r.value.0 in core.blocks && core.blocks[r.value.0] == r.value.1 && !r.value.1.closed
  {
    var index :- EventIndex(value, "index");
    if index in core.blocks && !core.blocks[index].closed then Ok((index, core.blocks[index])) else Err(ResponseInvalid)
  }

  function MessagesEvent(codec: Codec, core: Core, kind: Kind, value: Json): StepResult {
    match kind
    case Ping => Ok((core, []))
    case MessageStart =>
      var message := value.At("message");
      if core.started || message.At("role") != Str("assistant") ||
          message.At("content") != Arr([]) then Err(ResponseInvalid)
      else UsageEvent(core.(started := true), message.At("usage"))
    case _ => if core.started then StartedEvent(codec, core, kind, value) else Err(ResponseInvalid)
  }

  function StartedEvent(codec: Codec, core: Core, kind: Kind, value: Json): StepResult {
    match kind
    case BlockStart =>
      if core.reason.Some? then Err(ResponseInvalid)
      else
        var index :- EventIndex(value, "index");
        var (block, output) :- OpenBlock(codec, index, value.At("content_block"));
        if index in core.blocks then Err(ResponseInvalid)
        else Ok((core.(blocks := core.blocks[index := block]), output))
    case BlockDelta =>
      var (index, block) :- OpenBlockAt(core, value);
      var (next, output) :- DeltaEvent(block, index, value.At("delta"));
      Ok((core.(blocks := core.blocks[index := next]), output))
    case BlockStop =>
      var (index, block) :- OpenBlockAt(core, value);
      var output := if block.kind.ToolUse? && !block.hasArguments then [ToolCallDelta(index, None, None, "{}")] else [];
      Ok((core.(blocks := core.blocks[index := block.(closed := true)]), output))
    case MessageDelta =>
      if core.reason.Some? || exists i :: i in core.blocks && !core.blocks[i].closed then Err(ResponseInvalid)
      else
        var reason :- EventString(value.At("delta"), "stop_reason");
        UsageEvent(core.(reason := Some(ToStopReason(reason))), value.At("usage"))
    case MessageStop =>
      if core.reason.None? || exists i :: i in core.blocks && !core.blocks[i].closed then Err(ResponseIncomplete)
      else Ok((core.(terminal := true), [Finished(core.reason.value)]))
    case _ => Err(ResponseInvalid)
  }
}
