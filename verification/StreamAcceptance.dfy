/** Exactly which payloads the three event machines accept, and with which error they refuse the others. */
module StreamAcceptance {
  import opened Wrappers
  import opened Json
  import opened History
  import opened Sse
  import opened Provider
  import opened Dispatch
  import opened StreamReading
  import ChatEvents
  import MessagesEvents
  import ResponsesEvents
  import Chat = ChatStream
  import M = MessagesStream
  import R = ResponsesStream

  // ---------------------------------------------------------------- fields

  predicate Count(value: Json) {
    value.Int? && 0 <= value.number <= 0xFFFF_FFFF_FFFF_FFFF
  }

  predicate CountIfThere(value: Json, key: string) {
    Has(value, key) ==> Count(value.At(key))
  }

  predicate TextIfThere(value: Json, key: string) {
    Has(value, key) ==> value.At(key).Str?
  }

  /** Absent and `null` are the same here. */
  predicate TextOrNull(value: Json, key: string) {
    value.At(key) == Null || value.At(key).Str?
  }

  predicate IndexOk(value: Json, key: string) {
    value.At(key).Int? && 0 <= value.At(key).number < 256
  }

  // ---------------------------------------------------------------- Chat

  predicate ChatUsageOk(usage: Json) {
    && (if Has(usage, "prompt_tokens") then Count(usage.At("prompt_tokens")) else Count(usage.At("input_tokens")))
    && (if Has(usage, "completion_tokens") then Count(usage.At("completion_tokens"))
        else Count(usage.At("output_tokens")))
    && (if Has(usage.At("prompt_tokens_details"), "cached_tokens")
        then Count(usage.At("prompt_tokens_details").At("cached_tokens"))
        else if Has(usage.At("input_tokens_details"), "cached_tokens")
        then Count(usage.At("input_tokens_details").At("cached_tokens"))
        else CountIfThere(usage, "prompt_cache_hit_tokens"))
  }

  predicate ChatCallOk(call: Json) {
    && IndexOk(call, "index") && TextIfThere(call, "id")
    && TextIfThere(call.At("function"), "name") && TextIfThere(call.At("function"), "arguments")
  }

  predicate ChatDeltaOk(delta: Json) {
    && (if Has(delta, "reasoning_content") then TextOrNull(delta, "reasoning_content")
        else TextOrNull(delta, "reasoning"))
    && TextOrNull(delta, "content")
    && (delta.At("tool_calls") != Null ==>
          delta.At("tool_calls").Arr? &&
          forall k :: 0 <= k < |delta.At("tool_calls").items| ==> ChatCallOk(delta.At("tool_calls").items[k]))
  }

  /** What a delta may still hold after the finish reason: the role, and otherwise nothing. */
  predicate ChatDeltaSpent(delta: Json) {
    && delta.Obj?
    && forall key :: key in delta.fields ==>
         || delta.fields[key] == Null
         || (delta.fields[key] == Str("") && key in ["content", "reasoning", "reasoning_content"])
         || (delta.fields[key] == Str("assistant") && key == "role")
         || (delta.fields[key] == Arr([]) && key == "tool_calls")
  }

  predicate ChatChoiceOk(core: Core, choice: Json) {
    var delta := if Has(choice, "delta") then choice.At("delta") else choice.At("message");
    var reason := choice.At("finish_reason");
    && (Has(choice, "index") ==> choice.At("index") == Int(0))
    && (Has(choice, "delta") || Has(choice, "message"))
    && (reason == Null || reason.Str?)
    && if core.reason.None? then ChatDeltaOk(delta)
       else ChatDeltaSpent(delta) && (reason.Str? ==> Means(reason.text, core.reason.value))
  }

  predicate ChatAccepts(core: Core, value: Json) {
    && !Has(value, "error")
    && (value.At("usage") != Null ==> ChatUsageOk(value.At("usage")))
    && value.At("choices").Arr? && |value.At("choices").items| <= 1
    && (value.At("choices").items != [] ==> ChatChoiceOk(core, value.At("choices").items[0]))
  }

  lemma {:induction false} ChatCallsDecided(calls: seq<Json>)
    ensures ChatEvents.CallDeltas(calls).Ok? <==> forall k :: 0 <= k < |calls| ==> ChatCallOk(calls[k])
    ensures ChatEvents.CallDeltas(calls).Err? ==> ChatEvents.CallDeltas(calls).error == ResponseInvalid
  {
    if calls != [] {
      ChatCallsDecided(calls[1..]);
      assert ChatEvents.CallDelta(calls[0]).Ok? <==> ChatCallOk(calls[0]);
      assert forall k :: 0 < k < |calls| ==> calls[k] == calls[1..][k - 1];
      hide ChatCallOk;
    }
  }

  lemma ChatUsageDecided(usage: Json)
    ensures ChatEvents.ChatUsage(usage).Ok? <==> ChatUsageOk(usage)
    ensures ChatEvents.ChatUsage(usage).Err? ==> ChatEvents.ChatUsage(usage).error == ResponseInvalid
  {
  }

  lemma ChatDeltaDecided(delta: Json)
    ensures ChatEvents.DeltaFragments(delta).Ok? <==> ChatDeltaOk(delta)
    ensures ChatEvents.DeltaFragments(delta).Err? ==> ChatEvents.DeltaFragments(delta).error == ResponseInvalid
  {
    if delta.At("tool_calls").Arr? {
      ChatCallsDecided(delta.At("tool_calls").items);
    }
    hide ChatEvents.CallDeltas;
    hide ChatCallOk;
  }

  lemma SpentIsEmpty(delta: Json)
    ensures ChatEvents.EmptyDelta(Some(delta)) <==> ChatDeltaSpent(delta)
    ensures !ChatEvents.EmptyDelta(None)
  {
  }

  lemma MeansOne(text: string, reason: StopReason)
    ensures Means(text, reason) <==> ToStopReason(text) == reason
  {
  }

  lemma ChatReasonDecided(choice: Json)
    ensures var reason, read := choice.At("finish_reason"), ChatEvents.FinishReason(choice);
            && (read.Ok? <==> reason == Null || reason.Str?)
            && (read.Ok? ==> read.value == if reason.Str? then Some(ToStopReason(reason.text)) else None)
            && (read.Err? ==> read.error == ResponseInvalid)
  {
    hide ToStopReason;
  }

  lemma ChatChoiceDecided(core: Core, choice: Json)
    ensures ChatEvents.ChoiceEvent(core, choice).Ok? <==> ChatChoiceOk(core, choice)
    ensures ChatEvents.ChoiceEvent(core, choice).Err? ==>
              ChatEvents.ChoiceEvent(core, choice).error == ResponseInvalid
    ensures ChatEvents.ChoiceEvent(core, choice).Ok? ==> ChatEvents.ChoiceEvent(core, choice).value.0.started
  {
    hide ChatEvents.DeltaFragments;
    hide ChatEvents.EmptyDelta;
    hide ChatDeltaOk;
    hide ChatDeltaSpent;
    hide ChatEvents.FinishReason;
    hide Means;
    hide ToStopReason;
    var delta := if Has(choice, "delta") then choice.At("delta") else choice.At("message");
    ChatDeltaDecided(delta);
    SpentIsEmpty(delta);
    ChatReasonDecided(choice);
    if core.reason.Some? && choice.At("finish_reason").Str? {
      MeansOne(choice.At("finish_reason").text, core.reason.value);
    }
  }

  lemma ChatDecided(core: Core, value: Json)
    ensures ChatEvents.ChatEvent(core, value).Ok? <==> ChatAccepts(core, value)
    ensures ChatEvents.ChatEvent(core, value).Err? ==> ChatEvents.ChatEvent(core, value).error == ResponseInvalid
    ensures ChatEvents.ChatEvent(core, value).Ok? ==>
              (ChatEvents.ChatEvent(core, value).value.0.started <==>
                 core.started || value.At("choices").items != [])
  {
    ChatUsageDecided(value.At("usage"));
    if value.At("choices").Arr? && value.At("choices").items != [] {
      ChatChoiceDecided(core, value.At("choices").items[0]);
    }
    hide ChatEvents.ChoiceEvent;
    hide ChatEvents.ChatUsage;
    hide ChatUsageOk;
    hide ChatChoiceOk;
  }

  /**
   Exactly which Chat payloads are accepted: `[DONE]` once a choice and its finish reason came, and otherwise an
   object without an error, with at most one choice, whose fields are of their types.
   */
  lemma ChatStepDecided(codec: Codec, core: Core, payload: Payload)
    ensures var step := Step(ChatCompletions, codec, core, payload);
            var ends := payload.data == [91, 68, 79, 78, 69, 93];
            && (step.Ok? <==>
                  && !core.terminal
                  && if ends then core.started && core.reason.Some?
                     else codec.parse(payload.data).Some? && ChatAccepts(core, codec.parse(payload.data).value))
            && (step.Err? ==> step.error == if ends && !core.terminal then ResponseIncomplete else ResponseInvalid)
            && (step.Ok? && !ends ==>
                  (step.value.0.started <==>
                     core.started || codec.parse(payload.data).value.At("choices").items != []))
  {
    if codec.parse(payload.data).Some? {
      ChatDecided(core, codec.parse(payload.data).value);
    }
    hide ChatEvents.ChatEvent;
    hide ChatAccepts;
  }

  // ---------------------------------------------------------------- payloads with a type

  /** The type is there, the event name agrees with it, and it reports no failure. */
  predicate TypeOk(codec: Codec, payload: Payload, value: Json) {
    && value.At("type").Str?
    && (payload.event == [] || codec.text(payload.event) == Some(value.At("type").text))
    && value.At("type").text != "error" && value.At("type").text != "response.failed"
  }

  ghost predicate SomeOpen(core: Core) {
    exists i :: i in core.blocks && !core.blocks[i].closed
  }

  predicate OpenAt(core: Core, value: Json, key: string) {
    IndexOk(value, key) && value.At(key).number in core.blocks && !core.blocks[value.At(key).number].closed
  }

  // ---------------------------------------------------------------- Messages

  predicate ReportOk(usage: Usage, report: Json) {
    && report.Obj?
    && CountIfThere(report, "input_tokens") && CountIfThere(report, "output_tokens")
    && CountIfThere(report, "cache_read_input_tokens")
    && (Has(report, "input_tokens") ==>
          && CountIfThere(report, "cache_creation_input_tokens")
          && report.At("input_tokens").number
             + (if Has(report, "cache_read_input_tokens") then report.At("cache_read_input_tokens").number
                else if usage.cacheHitTokens.Some? then usage.cacheHitTokens.value else 0)
             + (if Has(report, "cache_creation_input_tokens") then report.At("cache_creation_input_tokens").number
                else 0)
             <= 0xFFFF_FFFF_FFFF_FFFF)
  }

  predicate BlockOk(block: Json) {
    || (M.Typed(block, "text") && block.At("text").Str?)
    || (M.Typed(block, "thinking") && block.At("thinking").Str?)
    || (M.Typed(block, "redacted_thinking") && block.At("data").Str?)
    || (M.Typed(block, "tool_use") && block.At("id").Str? && block.At("name").Str? && block.At("input").Obj?)
  }

  predicate DeltaOk(kind: BlockKind, delta: Json) {
    || (M.Typed(delta, "text_delta") && kind.TextBlock? && delta.At("text").Str?)
    || (M.Typed(delta, "thinking_delta") && kind.Thinking? && delta.At("thinking").Str?)
    || (M.Typed(delta, "signature_delta") && kind.Thinking? && delta.At("signature").Str?)
    || (M.Typed(delta, "input_json_delta") && kind.ToolUse? && delta.At("partial_json").Str?)
  }

  ghost predicate MessagesAccepts(core: Core, value: Json) {
    || M.Typed(value, "ping")
    || (M.Typed(value, "message_start") && !core.started
        && value.At("message").At("role") == Str("assistant") && value.At("message").At("content") == Arr([])
        && ReportOk(core.usage, value.At("message").At("usage")))
    || (core.started
        && ( || (M.Typed(value, "content_block_start") && core.reason.None? && IndexOk(value, "index")
                 && value.At("index").number !in core.blocks && BlockOk(value.At("content_block")))
             || (M.Typed(value, "content_block_delta") && OpenAt(core, value, "index")
                 && DeltaOk(core.blocks[value.At("index").number].kind, value.At("delta")))
             || (M.Typed(value, "content_block_stop") && OpenAt(core, value, "index"))
             || (M.Typed(value, "message_delta") && core.reason.None? && !SomeOpen(core)
                 && value.At("delta").At("stop_reason").Str? && ReportOk(core.usage, value.At("usage")))
             || (M.Typed(value, "message_stop") && core.reason.Some? && !SomeOpen(core))))
  }

  lemma ReportDecided(core: Core, report: Json)
    ensures MessagesEvents.UsageEvent(core, report).Ok? <==> ReportOk(core.usage, report)
    ensures MessagesEvents.UsageEvent(core, report).Err? ==>
              MessagesEvents.UsageEvent(core, report).error == ResponseInvalid
  {
  }

  lemma BlockDecided(codec: Codec, index: nat, block: Json)
    ensures MessagesEvents.OpenBlock(codec, index, block).Ok? <==> BlockOk(block)
    ensures MessagesEvents.OpenBlock(codec, index, block).Err? ==>
              MessagesEvents.OpenBlock(codec, index, block).error == ResponseInvalid
  {
    M.NamesDistinct();
  }

  lemma DeltaDecided(block: Block, index: nat, delta: Json)
    ensures MessagesEvents.DeltaEvent(block, index, delta).Ok? <==> DeltaOk(block.kind, delta)
    ensures MessagesEvents.DeltaEvent(block, index, delta).Err? ==>
              MessagesEvents.DeltaEvent(block, index, delta).error == ResponseInvalid
  {
    assert "text_delta"[1] == 'e' && "thinking_delta"[1] == 'h' && "signature_delta"[1] == 'i';
    assert "input_json_delta"[1] == 'n';
  }

  /** A step is accepted exactly when `accepts`, and refused with `error`. */
  ghost predicate Decides(step: StepResult, accepts: bool, error: ErrorKind) {
    (step.Ok? <==> accepts) && (step.Err? ==> step.error == error)
  }

  lemma BlockStartDecided(codec: Codec, core: Core, value: Json)
    ensures Decides(MessagesEvents.StartedEvent(codec, core, MessagesEvents.BlockStart, value),
                    core.reason.None? && IndexOk(value, "index") && value.At("index").number !in core.blocks &&
                    BlockOk(value.At("content_block")), ResponseInvalid)
  {
    if IndexOk(value, "index") {
      BlockDecided(codec, value.At("index").number, value.At("content_block"));
    }
    hide MessagesEvents.OpenBlock;
    hide BlockOk;
  }

  lemma BlockDeltaDecided(codec: Codec, core: Core, value: Json)
    ensures Decides(MessagesEvents.StartedEvent(codec, core, MessagesEvents.BlockDelta, value),
                    OpenAt(core, value, "index") &&
                    DeltaOk(core.blocks[value.At("index").number].kind, value.At("delta")), ResponseInvalid)
  {
    if OpenAt(core, value, "index") {
      var index := value.At("index").number;
      DeltaDecided(core.blocks[index], index, value.At("delta"));
    }
    hide MessagesEvents.DeltaEvent;
    hide DeltaOk;
  }

  lemma BlockStopDecided(codec: Codec, core: Core, value: Json)
    ensures Decides(MessagesEvents.StartedEvent(codec, core, MessagesEvents.BlockStop, value),
                    OpenAt(core, value, "index"), ResponseInvalid)
  {
  }

  lemma MessageDeltaDecided(codec: Codec, core: Core, value: Json)
    ensures Decides(MessagesEvents.StartedEvent(codec, core, MessagesEvents.MessageDelta, value),
                    core.reason.None? && !SomeOpen(core) && value.At("delta").At("stop_reason").Str? &&
                    ReportOk(core.usage, value.At("usage")), ResponseInvalid)
  {
    if value.At("delta").At("stop_reason").Str? {
      ReportDecided(core.(reason := Some(ToStopReason(value.At("delta").At("stop_reason").text))), value.At("usage"));
    }
    hide MessagesEvents.UsageEvent;
    hide ReportOk;
  }

  lemma MessageStopDecided(codec: Codec, core: Core, value: Json)
    ensures Decides(MessagesEvents.StartedEvent(codec, core, MessagesEvents.MessageStop, value),
                    core.reason.Some? && !SomeOpen(core), ResponseIncomplete)
  {
  }

  lemma UnknownDecided(codec: Codec, core: Core, value: Json)
    ensures MessagesEvents.StartedEvent(codec, core, MessagesEvents.Unknown, value) == Err(ResponseInvalid)
  {
  }

  lemma MessageStartDecided(codec: Codec, core: Core, value: Json)
    ensures Decides(MessagesEvents.MessagesEvent(codec, core, MessagesEvents.MessageStart, value),
                    !core.started && value.At("message").At("role") == Str("assistant") &&
                    value.At("message").At("content") == Arr([]) &&
                    ReportOk(core.usage, value.At("message").At("usage")), ResponseInvalid)
  {
    ReportDecided(core.(started := true), value.At("message").At("usage"));
    hide MessagesEvents.UsageEvent;
    hide ReportOk;
  }

  lemma OneType(value: Json, a: string, b: string)
    requires M.Typed(value, a) && M.Typed(value, b)
    ensures a == b
  {
  }

  lemma StartedKept(codec: Codec, core: Core, kind: MessagesEvents.Kind, value: Json)
    requires MessagesEvents.MessagesEvent(codec, core, kind, value).Ok?
    ensures MessagesEvents.MessagesEvent(codec, core, kind, value).value.0.started <==>
              core.started || kind.MessageStart?
  {
    hide MessagesEvents.UsageEvent;
    hide MessagesEvents.OpenBlock;
    hide MessagesEvents.DeltaEvent;
  }

  /** A `message_stop` that comes too early is the one thing that is incomplete rather than invalid. */
  lemma MessagesDecided(codec: Codec, core: Core, value: Json)
    requires value.At("type").Str?
    ensures var event := MessagesEvents.MessagesEvent(codec, core, MessagesEvents.KindOf(value.At("type").text), value);
            && Decides(event, MessagesAccepts(core, value),
                       if M.Typed(value, "message_stop") && core.started then ResponseIncomplete else ResponseInvalid)
            && (event.Ok? ==> (event.value.0.started <==> core.started || M.Typed(value, "message_start")))
  {
    hide MessagesEvents.StartedEvent;
    hide MessagesEvents.UsageEvent;
    hide MessagesEvents.KindOf;
    hide OpenAt;
    hide SomeOpen;
    hide ReportOk;
    hide BlockOk;
    hide DeltaOk;
    M.EventTypes(value);
    var kind := MessagesEvents.KindOf(value.At("type").text);
    MessageStartDecided(codec, core, value);
    BlockStartDecided(codec, core, value);
    BlockDeltaDecided(codec, core, value);
    BlockStopDecided(codec, core, value);
    MessageDeltaDecided(codec, core, value);
    MessageStopDecided(codec, core, value);
    UnknownDecided(codec, core, value);
    if MessagesEvents.MessagesEvent(codec, core, kind, value).Ok? {
      StartedKept(codec, core, kind, value);
    }
    AcceptsKind(core, value, kind);
    hide MessagesAccepts;
  }

  /** Only one of the cases of `MessagesAccepts` is about the type at hand. */
  lemma AcceptsKind(core: Core, value: Json, kind: MessagesEvents.Kind)
    requires value.At("type").Str? && kind == MessagesEvents.KindOf(value.At("type").text)
    ensures MessagesAccepts(core, value) <==>
            match kind
            case Ping => true
            case MessageStart =>
              !core.started && value.At("message").At("role") == Str("assistant") &&
              value.At("message").At("content") == Arr([]) && ReportOk(core.usage, value.At("message").At("usage"))
            case BlockStart =>
              core.started && core.reason.None? && IndexOk(value, "index") &&
              value.At("index").number !in core.blocks && BlockOk(value.At("content_block"))
            case BlockDelta =>
              core.started && OpenAt(core, value, "index") &&
              DeltaOk(core.blocks[value.At("index").number].kind, value.At("delta"))
            case BlockStop => core.started && OpenAt(core, value, "index")
            case MessageDelta =>
              core.started && core.reason.None? && !SomeOpen(core) && value.At("delta").At("stop_reason").Str? &&
              ReportOk(core.usage, value.At("usage"))
            case MessageStop => core.started && core.reason.Some? && !SomeOpen(core)
            case Unknown => false
  {
    hide SomeOpen;
    hide ReportOk;
    hide BlockOk;
    hide DeltaOk;
    M.EventTypes(value);
    hide MessagesEvents.KindOf;
  }

  lemma MessagesStepDecided(codec: Codec, core: Core, payload: Payload)
    ensures var step := Step(Messages, codec, core, payload);
            && (step.Ok? <==>
                  && !core.terminal && codec.parse(payload.data).Some?
                  && TypeOk(codec, payload, codec.parse(payload.data).value)
                  && MessagesAccepts(core, codec.parse(payload.data).value))
            && (step.Err? ==>
                  step.error == ResponseInvalid ||
                  (step.error == ResponseIncomplete && M.Typed(M.Parsed(codec, payload), "message_stop")))
  {
    if codec.parse(payload.data).Some? && codec.parse(payload.data).value.At("type").Str? {
      MessagesDecided(codec, core, codec.parse(payload.data).value);
    }
    hide MessagesEvents.MessagesEvent;
    hide MessagesAccepts;
  }

  // ---------------------------------------------------------------- Responses

  predicate NoPartsYet(item: Json, key: string) {
    Has(item, key) ==> item.At(key) == Arr([])
  }

  predicate ItemOk(item: Json) {
    && NoPartsYet(item, "content") && NoPartsYet(item, "summary")
    && (|| R.Typed(item, "message")
        || (R.Typed(item, "reasoning") && item.At("id").Str?)
        || (R.Typed(item, "function_call") && item.At("call_id").Str? && item.At("name").Str?
            && item.At("arguments").Str?))
  }

  predicate ResponseUsageOk(usage: Json) {
    && Count(usage.At("input_tokens")) && Count(usage.At("output_tokens"))
    && CountIfThere(usage.At("input_tokens_details"), "cached_tokens")
  }

  predicate DeltaFits(value: Json, kind: BlockKind) {
    || (kind.MessageItem?
        && (R.Typed(value, "response.output_text.delta") || R.Typed(value, "response.refusal.delta")))
    || (kind.ReasoningItem?
        && (R.Typed(value, "response.reasoning_summary_text.delta") || R.Typed(value, "response.reasoning_text.delta")))
    || (kind.FunctionCall? && R.Typed(value, "response.function_call_arguments.delta"))
  }

  ghost predicate TerminalOk(core: Core, value: Json) {
    var response := value.At("response");
    && !SomeOpen(core)
    && (response.At("usage") != Null ==> ResponseUsageOk(response.At("usage")))
    && (R.Typed(value, "response.completed") ==> response.At("status") == Str("completed"))
    && (R.Typed(value, "response.incomplete") ==>
          response.At("status") == Str("incomplete") && response.At("incomplete_details").At("reason").Str?)
  }

  /** The block that an event names, if the event names one. */
  function BlockIn(core: Core, value: Json): Block {
    if OpenAt(core, value, "output_index") then core.blocks[value.At("output_index").number] else NewBlock(TextBlock)
  }

  ghost predicate ResponsesAccepts(core: Core, value: Json) {
    || (R.Typed(value, "response.created") && !core.started)
    || (core.started
        && ( || R.Typed(value, "response.in_progress")
             || (R.Typed(value, "response.output_item.added") && IndexOk(value, "output_index")
                 && value.At("output_index").number !in core.blocks && ItemOk(value.At("item")))
             || (OpenAt(core, value, "output_index") && DeltaFits(value, BlockIn(core, value).kind)
                 && value.At("delta").Str?)
             || (R.Typed(value, "response.function_call_arguments.done") && OpenAt(core, value, "output_index")
                 && BlockIn(core, value).kind.FunctionCall?
                 && value.At("arguments") == Str(BlockIn(core, value).arguments))
             || (R.Typed(value, "response.output_item.done") && OpenAt(core, value, "output_index")
                 && ItemAgrees(BlockIn(core, value), value.At("item")))
             || ((R.Typed(value, "response.completed") || R.Typed(value, "response.incomplete"))
                 && TerminalOk(core, value))
             || (R.Repeats(value) && OpenAt(core, value, "output_index"))))
  }

  /** The text of the completed parts in one channel of an item: each part of a known type, and their texts joined. */
  predicate PartsSay(parts: seq<Json>, types: map<string, string>, text: string)
    decreases |parts|
  {
    if parts == [] then text == ""
    else
      var part := parts[0];
      && part.At("type").Str? && part.At("type").text in types
      && part.At(types[part.At("type").text]).Str?
      && part.At(types[part.At("type").text]).text <= text
      && PartsSay(parts[1..], types, text[|part.At(types[part.At("type").text]).text|..])
  }

  predicate ChannelSays(item: Json, channel: string, types: map<string, string>, text: string) {
    if Has(item, channel) then item.At(channel).Arr? && PartsSay(item.At(channel).items, types, text) else text == ""
  }

  /** A completed item agrees with everything that was streamed for its block. */
  predicate ItemAgrees(block: Block, item: Json) {
    match block.kind
    case FunctionCall =>
      && R.Typed(item, "function_call") && item.At("call_id") == Str(block.id) && item.At("name") == Str(block.name)
      && item.At("arguments") == Str(block.arguments)
    case MessageItem =>
      && R.Typed(item, "message")
      && ChannelSays(item, "content", map["output_text" := "text", "refusal" := "refusal"], block.text)
    case ReasoningItem =>
      && R.Typed(item, "reasoning") && item.At("id") == Str(block.id)
      && ChannelSays(item, "summary", map["summary_text" := "text"], block.text)
      && ChannelSays(item, "content", map["reasoning_text" := "text"], block.reasoning)
    case _ => false
  }

  function TypesOf(kind: BlockKind, channel: string): map<string, string> {
    if kind.MessageItem? && channel == "content" then map["output_text" := "text", "refusal" := "refusal"]
    else if kind.ReasoningItem? && channel == "summary" then map["summary_text" := "text"]
    else if kind.ReasoningItem? && channel == "content" then map["reasoning_text" := "text"]
    else map[]
  }

  lemma FieldDecided(kind: BlockKind, channel: string, part: string)
    ensures ResponsesEvents.PartField(kind, channel, part) ==
            if part in TypesOf(kind, channel) then Ok(TypesOf(kind, channel)[part]) else Err(ResponseInvalid)
  {
    assert "content"[0] == 'c' && "summary"[0] == 's' && "output_text"[0] == 'o' && "refusal"[0] == 'r';
  }

  lemma {:induction false} PartsDecided(kind: BlockKind, channel: string, parts: seq<Json>, text: string)
    ensures ResponsesEvents.PartsText(kind, channel, parts) == Ok(text) <==>
            PartsSay(parts, TypesOf(kind, channel), text)
    decreases |parts|
  {
    if parts != [] {
      var part := parts[0];
      if part.At("type").Str? {
        FieldDecided(kind, channel, part.At("type").text);
        var types := TypesOf(kind, channel);
        if part.At("type").text in types && part.At(types[part.At("type").text]).Str? {
          var first := part.At(types[part.At("type").text]).text;
          if first <= text {
            PartsDecided(kind, channel, parts[1..], text[|first|..]);
            assert text == first + text[|first|..];
          }
          var rest := ResponsesEvents.PartsText(kind, channel, parts[1..]);
          if rest.Ok? && first + rest.value == text {
            assert text[|first|..] == rest.value;
          }
        }
      }
      hide ResponsesEvents.PartField;
      hide TypesOf;
    }
  }

  lemma ChannelDecided(kind: BlockKind, channel: string, item: Json, text: string)
    ensures ResponsesEvents.CompletedText(kind, item, channel) == Ok(text) <==>
            ChannelSays(item, channel, TypesOf(kind, channel), text)
  {
    if Has(item, channel) && item.At(channel).Arr? {
      PartsDecided(kind, channel, item.At(channel).items, text);
    }
    hide ResponsesEvents.PartsText;
    hide PartsSay;
    hide TypesOf;
  }

  lemma ItemDecided(index: nat, item: Json)
    ensures ResponsesEvents.OpenItem(index, item).Ok? <==> ItemOk(item)
    ensures ResponsesEvents.OpenItem(index, item).Err? ==>
              ResponsesEvents.OpenItem(index, item).error == ResponseInvalid
  {
    assert "message"[0] == 'm' && "reasoning"[0] == 'r' && "function_call"[0] == 'f';
  }

  lemma {:induction false} PartsError(kind: BlockKind, channel: string, parts: seq<Json>)
    ensures ResponsesEvents.PartsText(kind, channel, parts).Err? ==>
              ResponsesEvents.PartsText(kind, channel, parts).error == ResponseInvalid
  {
    if parts != [] {
      PartsError(kind, channel, parts[1..]);
    }
  }

  lemma AgreesDecided(block: Block, item: Json)
    requires block.kind.FunctionCall? || block.kind.MessageItem? || block.kind.ReasoningItem?
    ensures item.At("type") == Str(block.kind.Name()) && ResponsesEvents.Agrees(block, item).Ok? <==>
            ItemAgrees(block, item)
    ensures ResponsesEvents.Agrees(block, item).Err? ==> ResponsesEvents.Agrees(block, item).error == ResponseInvalid
  {
    ChannelDecided(block.kind, "content", item, if block.kind.ReasoningItem? then block.reasoning else block.text);
    ChannelDecided(block.kind, "summary", item, block.text);
    if item.At("content").Arr? {
      PartsError(block.kind, "content", item.At("content").items);
    }
    if item.At("summary").Arr? {
      PartsError(block.kind, "summary", item.At("summary").items);
    }
    assert "content"[0] == 'c' && "summary"[0] == 's';
    hide ChannelSays;
    hide ResponsesEvents.PartsText;
  }

  /** The only blocks that a Responses stream opens. */
  predicate ResponsesBlocks(core: Core) {
    forall i :: i in core.blocks ==>
      core.blocks[i].kind.FunctionCall? || core.blocks[i].kind.MessageItem? || core.blocks[i].kind.ReasoningItem?
  }

  lemma DoneDecided(core: Core, value: Json)
    requires ResponsesBlocks(core)
    ensures Decides(ResponsesEvents.ItemDoneEvent(core, value),
                    OpenAt(core, value, "output_index") && ItemAgrees(BlockIn(core, value), value.At("item")),
                    ResponseInvalid)
  {
    if OpenAt(core, value, "output_index") {
      AgreesDecided(BlockIn(core, value), value.At("item"));
    }
    hide ResponsesEvents.Agrees;
    hide ItemAgrees;
    hide ResponsesEvents.ReplayItem;
  }

  lemma TextDeltaDecided(core: Core, kind: ResponsesEvents.Kind, value: Json)
    requires kind.OutputTextDelta? || kind.RefusalDelta? || kind.SummaryTextDelta? || kind.ReasoningTextDelta?
    ensures Decides(ResponsesEvents.TextDelta(core, kind, value),
                    OpenAt(core, value, "output_index") && value.At("delta").Str? &&
                    if kind.OutputTextDelta? || kind.RefusalDelta? then BlockIn(core, value).kind.MessageItem?
                    else BlockIn(core, value).kind.ReasoningItem?,
                    ResponseInvalid)
  {
  }

  lemma ResponseUsageDecided(response: Json)
    ensures ResponsesEvents.TerminalUsage(response).Ok? <==>
            (response.At("usage") != Null ==> ResponseUsageOk(response.At("usage")))
    ensures ResponsesEvents.TerminalUsage(response).Err? ==>
              ResponsesEvents.TerminalUsage(response).error == ResponseInvalid
  {
  }

  lemma TerminalDecided(core: Core, status: string, value: Json)
    requires status == "completed" || status == "incomplete"
    ensures var response := value.At("response");
            Decides(ResponsesEvents.TerminalEvent(core, status, value),
                    && !SomeOpen(core) && response.At("status") == Str(status)
                    && (response.At("usage") != Null ==> ResponseUsageOk(response.At("usage")))
                    && (status == "incomplete" ==> response.At("incomplete_details").At("reason").Str?),
                    if SomeOpen(core) then ResponseIncomplete else ResponseInvalid)
  {
    ResponseUsageDecided(value.At("response"));
    assert "completed"[0] == 'c' && "incomplete"[0] == 'i';
    hide ResponsesEvents.TerminalUsage;
    hide ResponseUsageOk;
  }

  lemma ArgumentsDecided(core: Core, value: Json)
    requires core.started
    ensures Decides(ResponsesEvents.ResponsesEvent(core, ResponsesEvents.ArgumentsDelta, value),
                    OpenAt(core, value, "output_index") && BlockIn(core, value).kind.FunctionCall? &&
                    value.At("delta").Str?, ResponseInvalid)
    ensures Decides(ResponsesEvents.ResponsesEvent(core, ResponsesEvents.ArgumentsDone, value),
                    OpenAt(core, value, "output_index") && BlockIn(core, value).kind.FunctionCall? &&
                    value.At("arguments") == Str(BlockIn(core, value).arguments), ResponseInvalid)
    ensures Decides(ResponsesEvents.ResponsesEvent(core, ResponsesEvents.Redundant, value),
                    OpenAt(core, value, "output_index"), ResponseInvalid)
  {
  }

  lemma AddedDecided(core: Core, value: Json)
    requires core.started
    ensures Decides(ResponsesEvents.ResponsesEvent(core, ResponsesEvents.ItemAdded, value),
                    IndexOk(value, "output_index") && value.At("output_index").number !in core.blocks &&
                    ItemOk(value.At("item")), ResponseInvalid)
  {
    if IndexOk(value, "output_index") {
      ItemDecided(value.At("output_index").number, value.At("item"));
    }
    hide ResponsesEvents.OpenItem;
    hide ItemOk;
  }

  /** What each kind of event asks for. */
  ghost predicate KindAccepts(core: Core, kind: ResponsesEvents.Kind, value: Json) {
    var block := BlockIn(core, value);
    && core.started == !kind.Created?
    && match kind
       case Created => true
       case InProgress => true
       case ItemAdded =>
         IndexOk(value, "output_index") && value.At("output_index").number !in core.blocks && ItemOk(value.At("item"))
       case ArgumentsDelta => OpenAt(core, value, "output_index") && block.kind.FunctionCall? && value.At("delta").Str?
       case ArgumentsDone =>
         OpenAt(core, value, "output_index") && block.kind.FunctionCall? &&
         value.At("arguments") == Str(block.arguments)
       case ItemDone => OpenAt(core, value, "output_index") && ItemAgrees(block, value.At("item"))
       case Terminated(status) =>
         var response := value.At("response");
         && !SomeOpen(core) && response.At("status") == Str(status)
         && (response.At("usage") != Null ==> ResponseUsageOk(response.At("usage")))
         && (status == "incomplete" ==> response.At("incomplete_details").At("reason").Str?)
       case Redundant => OpenAt(core, value, "output_index")
       case Unknown => false
       case _ =>
         OpenAt(core, value, "output_index") && value.At("delta").Str? &&
         if kind.OutputTextDelta? || kind.RefusalDelta? then block.kind.MessageItem? else block.kind.ReasoningItem?
  }

  lemma KindDecided(core: Core, kind: ResponsesEvents.Kind, value: Json)
    requires ResponsesBlocks(core)
    requires kind.Terminated? ==> kind.status == "completed" || kind.status == "incomplete"
    ensures Decides(ResponsesEvents.ResponsesEvent(core, kind, value), KindAccepts(core, kind, value),
                    if kind.Terminated? && core.started && SomeOpen(core) then ResponseIncomplete else ResponseInvalid)
  {
    hide ItemOk;
    hide ItemAgrees;
    hide ResponseUsageOk;
    hide SomeOpen;
    hide OpenAt;
    hide BlockIn;
    hide ResponsesEvents.TextDelta;
    hide ResponsesEvents.ItemDoneEvent;
    hide ResponsesEvents.TerminalEvent;
    if core.started {
      match kind {
        case ItemAdded => AddedDecided(core, value);
        case ArgumentsDelta => ArgumentsDecided(core, value);
        case ArgumentsDone => ArgumentsDecided(core, value);
        case Redundant => ArgumentsDecided(core, value);
        case ItemDone => DoneDecided(core, value);
        case Terminated(status) => TerminalDecided(core, status, value);
        case Created =>
        case InProgress =>
        case Unknown =>
        case _ => TextDeltaDecided(core, kind, value);
      }
    }
  }

  lemma AcceptsByKind(core: Core, value: Json)
    requires value.At("type").Str?
    ensures ResponsesAccepts(core, value) <==>
            KindAccepts(core, ResponsesEvents.KindOf(value.At("type").text), value)
  {
    hide ItemOk;
    hide ItemAgrees;
    hide ResponseUsageOk;
    hide SomeOpen;
    hide OpenAt;
    hide BlockIn;
    hide R.Repeats;
    R.EventTypes(value);
    hide ResponsesEvents.KindOf;
  }

  lemma ResponsesDecided(core: Core, value: Json)
    requires ResponsesBlocks(core) && value.At("type").Str?
    ensures var event := ResponsesEvents.ResponsesEvent(core, ResponsesEvents.KindOf(value.At("type").text), value);
            && Decides(event, ResponsesAccepts(core, value),
                       if (R.Typed(value, "response.completed") || R.Typed(value, "response.incomplete")) &&
                          core.started && SomeOpen(core)
                       then ResponseIncomplete else ResponseInvalid)
            && (event.Ok? ==>
                  ResponsesBlocks(event.value.0) &&
                  (event.value.0.started <==> core.started || R.Typed(value, "response.created")))
  {
    var kind := ResponsesEvents.KindOf(value.At("type").text);
    R.EventTypes(value);
    AcceptsByKind(core, value);
    KindDecided(core, kind, value);
    if ResponsesEvents.ResponsesEvent(core, kind, value).Ok? {
      BlocksKept(core, kind, value);
    }
    hide ResponsesEvents.ResponsesEvent;
    hide ResponsesEvents.KindOf;
    hide ResponsesAccepts;
    hide KindAccepts;
    hide ResponsesBlocks;
    hide SomeOpen;
  }

  lemma BlocksKept(core: Core, kind: ResponsesEvents.Kind, value: Json)
    requires ResponsesBlocks(core) && ResponsesEvents.ResponsesEvent(core, kind, value).Ok?
    ensures var next := ResponsesEvents.ResponsesEvent(core, kind, value).value.0;
            ResponsesBlocks(next) && (next.started <==> core.started || kind.Created?)
  {
    hide ResponsesEvents.ItemDoneEvent;
    hide ResponsesEvents.TerminalEvent;
    hide ResponsesEvents.TextDelta;
    if kind.ItemDone? {
      DoneKeepsBlocks(core, value);
    } else if kind.Terminated? {
      TerminalKeepsBlocks(core, kind.status, value);
    } else if kind.OutputTextDelta? || kind.RefusalDelta? || kind.SummaryTextDelta? || kind.ReasoningTextDelta? {
      TextKeepsBlocks(core, kind, value);
    }
  }

  lemma DoneKeepsBlocks(core: Core, value: Json)
    requires ResponsesBlocks(core) && ResponsesEvents.ItemDoneEvent(core, value).Ok?
    ensures var next := ResponsesEvents.ItemDoneEvent(core, value).value.0;
            ResponsesBlocks(next) && next.started == core.started
  {
    hide ResponsesEvents.Agrees;
    hide ResponsesEvents.ReplayItem;
  }

  lemma TerminalKeepsBlocks(core: Core, status: string, value: Json)
    requires ResponsesBlocks(core) && ResponsesEvents.TerminalEvent(core, status, value).Ok?
    ensures var next := ResponsesEvents.TerminalEvent(core, status, value).value.0;
            ResponsesBlocks(next) && next.started == core.started
  {
    hide ResponsesEvents.TerminalReason;
    hide ResponsesEvents.TerminalUsage;
  }

  lemma TextKeepsBlocks(core: Core, kind: ResponsesEvents.Kind, value: Json)
    requires ResponsesBlocks(core) && ResponsesEvents.TextDelta(core, kind, value).Ok?
    ensures var next := ResponsesEvents.TextDelta(core, kind, value).value.0;
            ResponsesBlocks(next) && next.started == core.started
  {
  }

  /** Exactly which Responses payloads are accepted, in a decoder whose blocks are those of such a stream. */
  lemma ResponsesStepDecided(codec: Codec, core: Core, payload: Payload)
    requires ResponsesBlocks(core)
    ensures var step := Step(Responses, codec, core, payload);
            && (step.Ok? <==>
                  && !core.terminal && codec.parse(payload.data).Some?
                  && TypeOk(codec, payload, codec.parse(payload.data).value)
                  && ResponsesAccepts(core, codec.parse(payload.data).value))
            && (step.Err? ==>
                  step.error == ResponseInvalid || (step.error == ResponseIncomplete && SomeOpen(core)))
            && (step.Ok? ==> ResponsesBlocks(step.value.0))
  {
    hide ResponsesEvents.ResponsesEvent;
    hide ResponsesEvents.KindOf;
    hide ResponsesAccepts;
    hide SomeOpen;
    hide ResponsesBlocks;
    if codec.parse(payload.data).Some? && codec.parse(payload.data).value.At("type").Str? {
      ResponsesDecided(core, codec.parse(payload.data).value);
    }
  }
}
