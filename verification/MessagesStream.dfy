/** What a Messages stream says: the fragments of every successful run, read off the JSON of its payloads. */
module MessagesStream {
  import opened Wrappers
  import opened Json
  import opened History
  import opened Sequences
  import opened Sse
  import opened Provider
  import opened Dispatch
  import opened StreamText
  import opened ResponseContents
  import opened StreamReading
  import opened MessagesEvents
  import DecoderProperties

  function Parsed(codec: Codec, payload: Payload): Json {
    codec.parse(payload.data).GetOr(Null)
  }

  predicate Typed(value: Json, name: string) {
    value.At("type") == Str(name)
  }

  /** A `content_block_start` with a block of that type. */
  predicate Starts(value: Json, block: string) {
    Typed(value, "content_block_start") && Typed(value.At("content_block"), block)
  }

  /** A `content_block_delta` with a delta of that type. */
  predicate Continues(value: Json, delta: string) {
    Typed(value, "content_block_delta") && Typed(value.At("delta"), delta)
  }

  predicate At(value: Json, index: nat) {
    value.At("index") == Int(index)
  }

  /** The event types differ from each other. */
  lemma EventTypes(value: Json)
    requires value.At("type").Str?
    ensures var kind := KindOf(value.At("type").text);
            && (kind.Ping? <==> Typed(value, "ping"))
            && (kind.MessageStart? <==> Typed(value, "message_start"))
            && (kind.BlockStart? <==> Typed(value, "content_block_start"))
            && (kind.BlockDelta? <==> Typed(value, "content_block_delta"))
            && (kind.BlockStop? <==> Typed(value, "content_block_stop"))
            && (kind.MessageDelta? <==> Typed(value, "message_delta"))
            && (kind.MessageStop? <==> Typed(value, "message_stop"))
  {
    assert |"ping"| == 4 && |"message_start"| == 13 && |"message_delta"| == 13 && |"message_stop"| == 12;
    assert "message_start"[8] == 's' && "message_delta"[8] == 'd';
    assert |"content_block_start"| == 19 && |"content_block_delta"| == 19 && |"content_block_stop"| == 18;
    assert "content_block_start"[14] == 's' && "content_block_delta"[14] == 'd';
  }

  // ---------------------------------------------------------------- what one payload says

  function Answer(value: Json): string {
    if Starts(value, "text") then TextAt(value.At("content_block"), "text")
    else if Continues(value, "text_delta") then TextAt(value.At("delta"), "text")
    else ""
  }

  function Thought(value: Json): string {
    if Starts(value, "thinking") then TextAt(value.At("content_block"), "thinking")
    else if Continues(value, "thinking_delta") then TextAt(value.At("delta"), "thinking")
    else ""
  }

  function Signature(value: Json): string {
    if Starts(value, "thinking") then TextAt(value.At("content_block"), "signature")
    else if Continues(value, "signature_delta") then TextAt(value.At("delta"), "signature")
    else ""
  }

  /** The id or name that a tool use at an index starts with. */
  function Opening(value: Json, index: nat, key: string): string {
    if Starts(value, "tool_use") && At(value, index) then TextAt(value.At("content_block"), key) else ""
  }

  /** What is known of the arguments at an index: no tool use there, or whether any arguments came. */
  datatype Known = NoTool | HasTool(hasArguments: bool)

  /** The arguments a payload adds at an index: the rendered input, a delta, or `{}` when the block stops without. */
  function Arguments(codec: Codec, value: Json, index: nat, known: Known): string {
    if !At(value, index) then ""
    else if Starts(value, "tool_use") then
      var input := value.At("content_block").At("input");
      if input == Obj(map[]) then "" else codec.render(input)
    else if Continues(value, "input_json_delta") then TextAt(value.At("delta"), "partial_json")
    else if Typed(value, "content_block_stop") && known == HasTool(false) then "{}"
    else ""
  }

  function KnownAfter(value: Json, index: nat, known: Known): Known {
    if !At(value, index) then known
    else if Starts(value, "tool_use") then HasTool(value.At("content_block").At("input") != Obj(map[]))
    else if Continues(value, "input_json_delta") then HasTool(true)
    else known
  }

  function Answers(codec: Codec, payloads: seq<Payload>): string {
    if payloads == [] then "" else Answer(Parsed(codec, payloads[0])) + Answers(codec, payloads[1..])
  }

  function Thoughts(codec: Codec, payloads: seq<Payload>): string {
    if payloads == [] then "" else Thought(Parsed(codec, payloads[0])) + Thoughts(codec, payloads[1..])
  }

  function Openings(codec: Codec, payloads: seq<Payload>, index: nat, key: string): string {
    if payloads == [] then ""
    else Opening(Parsed(codec, payloads[0]), index, key) + Openings(codec, payloads[1..], index, key)
  }

  function AllArguments(codec: Codec, payloads: seq<Payload>, index: nat, known: Known): string {
    if payloads == [] then ""
    else
      var value := Parsed(codec, payloads[0]);
      Arguments(codec, value, index, known) +
      AllArguments(codec, payloads[1..], index, KnownAfter(value, index, known))
  }

  function KnownIn(core: Core, index: nat): Known {
    if index in core.blocks && core.blocks[index].kind.ToolUse? then HasTool(core.blocks[index].hasArguments)
    else NoTool
  }

  // ---------------------------------------------------------------- what a block opens and continues with

  function ThinkingItem(thinking: string, signature: string): Json {
    Obj(map["type" := Str("thinking"), "thinking" := Str(thinking), "signature" := Str(signature)])
  }

  function RedactedItem(data: string): Json {
    Obj(map["type" := Str("redacted_thinking"), "data" := Str(data)])
  }

  lemma NamesDistinct()
    ensures TextBlock.Name() == "text" && Thinking.Name() == "thinking"
    ensures RedactedThinking.Name() == "redacted_thinking" && ToolUse.Name() == "tool_use"
    ensures "text" != "thinking" && "text" != "redacted_thinking" && "text" != "tool_use"
    ensures "thinking" != "redacted_thinking" && "thinking" != "tool_use" && "redacted_thinking" != "tool_use"
  {
    assert |"text"| == 4 && |"thinking"| == 8 && |"redacted_thinking"| == 17 && |"tool_use"| == 8;
    assert "thinking"[1] == 'h' && "tool_use"[1] == 'o';
  }

  lemma OpenBlockForm(codec: Codec, index: nat, block: Json)
    requires OpenBlock(codec, index, block).Ok?
    ensures var (begun, output) := OpenBlock(codec, index, block).value;
            var thinking, signature := TextAt(block, "thinking"), TextAt(block, "signature");
            match begun.kind
            case TextBlock => Typed(block, "text") && |output| == 1 && output[0].Content?
            case Thinking =>
              Typed(block, "thinking") &&
              output == [Reasoning(thinking), Replay(Messages, index, StartItem(ThinkingItem(thinking, signature)))]
            case RedactedThinking =>
              Typed(block, "redacted_thinking") &&
              output == [Replay(Messages, index, StartItem(RedactedItem(TextAt(block, "data"))))]
            case ToolUse =>
              Typed(block, "tool_use") && |output| == 1 && output[0].ToolCallDelta? && output[0].index == index
            case _ => false
  {
  }

  lemma DeltaForm(block: Block, index: nat, delta: Json)
    requires DeltaEvent(block, index, delta).Ok?
    ensures var (next, output) := DeltaEvent(block, index, delta).value;
            var thinking, signature := TextAt(delta, "thinking"), TextAt(delta, "signature");
            && next.kind == block.kind && output != []
            && (Typed(delta, "thinking_delta") ==>
                  block.kind.Thinking? &&
                  output == [Reasoning(thinking), Replay(Messages, index, AppendField("thinking", thinking))])
            && (Typed(delta, "signature_delta") ==>
                  block.kind.Thinking? && output == [Replay(Messages, index, AppendField("signature", signature))])
            && (!Typed(delta, "thinking_delta") && !Typed(delta, "signature_delta") ==>
                  |output| == 1 && !output[0].Replay?)
            && (output[0].ToolCallDelta? <==> block.kind.ToolUse?)
            && (output[0].ToolCallDelta? ==> output[0].index == index)
            && forall k :: 0 < k < |output| ==> output[k].Replay?
  {
    assert "thinking_delta"[0] == 't' && "signature_delta"[0] == 's' && "text_delta"[1] == 'e';
    assert "thinking_delta"[1] == 'h' && "input_json_delta"[0] == 'i';
  }

  // ---------------------------------------------------------------- one event

  ghost predicate Says(codec: Codec, core: Core, value: Json, next: Core, output: seq<Fragment>) {
    && ContentOf(output) == Answer(value)
    && ReasoningOf(output) == Thought(value)
    && forall index: nat :: SaysAt(codec, core, value, next, output, index)
  }

  ghost predicate SaysAt(codec: Codec, core: Core, value: Json, next: Core, output: seq<Fragment>, index: nat) {
    && CallText(output, index, IdField) == Opening(value, index, "id")
    && CallText(output, index, NameField) == Opening(value, index, "name")
    && CallText(output, index, ArgumentsField) == Arguments(codec, value, index, KnownIn(core, index))
    && KnownIn(next, index) == KnownAfter(value, index, KnownIn(core, index))
  }

  ghost predicate Quiet(value: Json) {
    && !Typed(value, "content_block_start") && !Typed(value, "content_block_delta")
    && !Typed(value, "content_block_stop")
  }

  /** An event that neither starts, continues nor stops a block says nothing. */
  lemma QuietSays(codec: Codec, core: Core, value: Json, next: Core, output: seq<Fragment>)
    requires Quiet(value) && next.blocks == core.blocks
    requires forall k :: 0 <= k < |output| ==> output[k].UsageUpdate? || output[k].Finished?
    ensures Says(codec, core, value, next, output)
  {
    hide ContentOf;
    hide ReasoningOf;
    hide CallText;
    NoText(output);
    NoCallPieces(output);
    hide CallIndices;
    forall i: nat ensures SaysAt(codec, core, value, next, output, i) {
      hide Typed;
    }
  }

  lemma OneType(value: Json)
    ensures Typed(value, "content_block_start") ==> !Typed(value, "content_block_delta")
    ensures Typed(value, "content_block_start") || Typed(value, "content_block_delta") ==>
              !Typed(value, "content_block_stop")
  {
    assert |"content_block_start"| == 19 && |"content_block_delta"| == 19 && |"content_block_stop"| == 18;
    assert "content_block_start"[14] == 's' && "content_block_delta"[14] == 'd';
  }

  lemma StartSays(codec: Codec, core: Core, value: Json)
    requires Typed(value, "content_block_start") && StartedEvent(codec, core, BlockStart, value).Ok?
    ensures var (next, output) := StartedEvent(codec, core, BlockStart, value).value;
            Says(codec, core, value, next, output)
  {
    hide OpenBlock;
    hide ContentOf;
    hide ReasoningOf;
    hide CallText;
    var index, block := EventIndex(value, "index").value, value.At("content_block");
    var (next, output) := StartedEvent(codec, core, BlockStart, value).value;
    OpenBlockSays(codec, index, block);
    OneType(value);
    hide Typed;
    forall i: nat ensures SaysAt(codec, core, value, next, output, i) {
    }
  }

  lemma OpenBlockSays(codec: Codec, index: nat, block: Json)
    requires OpenBlock(codec, index, block).Ok?
    ensures var (begun, output) := OpenBlock(codec, index, block).value;
            var input := block.At("input");
            && ContentOf(output) == (if Typed(block, "text") then TextAt(block, "text") else "")
            && ReasoningOf(output) == (if Typed(block, "thinking") then TextAt(block, "thinking") else "")
            && (forall i: nat ::
                  && CallText(output, i, IdField) ==
                     (if Typed(block, "tool_use") && i == index then TextAt(block, "id") else "")
                  && CallText(output, i, NameField) ==
                     (if Typed(block, "tool_use") && i == index then TextAt(block, "name") else "")
                  && CallText(output, i, ArgumentsField) ==
                     (if Typed(block, "tool_use") && i == index && input != Obj(map[]) then codec.render(input)
                      else ""))
            && (begun.kind.ToolUse? <==> Typed(block, "tool_use"))
            && (begun.kind.ToolUse? ==> begun.hasArguments == (input != Obj(map[])))
  {
    hide ContentOf;
    hide ReasoningOf;
    hide CallText;
    FirstSays(OpenBlock(codec, index, block).value.1);
  }

  /** Of some fragments of which all but the first are replay edits, the first says everything. */
  lemma FirstSays(output: seq<Fragment>)
    requires output != [] && forall k :: 0 < k < |output| ==> output[k].Replay?
    ensures ContentOf(output) == if output[0].Content? then output[0].text else ""
    ensures ReasoningOf(output) == if output[0].Reasoning? then output[0].text else ""
    ensures forall i: nat, field :: CallText(output, i, field) == CallPiece(output[0], i, field)
  {
    hide ContentOf;
    hide ReasoningOf;
    hide CallText;
    hide CallIndices;
    hide CallPiece;
    var first, rest := [output[0]], output[1..];
    assert output == first + rest;
    OneOf(output[0], 0, IdField);
    TextConcat(first, rest);
    NoText(rest);
    NoCallPieces(rest);
    Unit(ContentOf(first));
    Unit(ReasoningOf(first));
    forall i: nat, field ensures CallText(output, i, field) == CallPiece(output[0], i, field) {
      OneOf(output[0], i, field);
      CallTextConcat(first, rest, i, field);
      Unit(CallPiece(output[0], i, field));
    }
  }

  lemma DeltaSays(codec: Codec, core: Core, value: Json)
    requires Typed(value, "content_block_delta") && StartedEvent(codec, core, BlockDelta, value).Ok?
    ensures var (next, output) := StartedEvent(codec, core, BlockDelta, value).value;
            Says(codec, core, value, next, output)
  {
    hide ContentOf;
    hide ReasoningOf;
    hide CallText;
    var (next, output) := StartedEvent(codec, core, BlockDelta, value).value;
    FirstSays(output);
    OneType(value);
    forall i: nat ensures SaysAt(codec, core, value, next, output, i) {
    }
  }

  lemma StopSays(codec: Codec, core: Core, value: Json)
    requires Typed(value, "content_block_stop") && StartedEvent(codec, core, BlockStop, value).Ok?
    ensures var (next, output) := StartedEvent(codec, core, BlockStop, value).value;
            Says(codec, core, value, next, output)
  {
    hide ContentOf;
    hide ReasoningOf;
    hide CallText;
    var (next, output) := StartedEvent(codec, core, BlockStop, value).value;
    NoText(output);
    if output == [] {
      NoCallPieces(output);
    } else {
      FirstSays(output);
    }
    OneType(value);
    hide Typed;
    forall i: nat ensures SaysAt(codec, core, value, next, output, i) {
    }
  }

  lemma EventSays(codec: Codec, core: Core, value: Json)
    requires value.At("type").Str? && MessagesEvent(codec, core, KindOf(value.At("type").text), value).Ok?
    ensures var (next, output) := MessagesEvent(codec, core, KindOf(value.At("type").text), value).value;
            Says(codec, core, value, next, output)
  {
    hide Says;
    hide StartedEvent;
    hide UsageEvent;
    var kind := KindOf(value.At("type").text);
    if kind.BlockStart? {
      StartSays(codec, core, value);
    } else if kind.BlockDelta? {
      DeltaSays(codec, core, value);
    } else if kind.BlockStop? {
      StopSays(codec, core, value);
    } else {
      QuietEvent(codec, core, kind, value);
      QuietSays(codec, core, value, MessagesEvent(codec, core, kind, value).value.0,
                MessagesEvent(codec, core, kind, value).value.1);
    }
  }

  lemma QuietEvent(codec: Codec, core: Core, kind: Kind, value: Json)
    requires !kind.BlockStart? && !kind.BlockDelta? && !kind.BlockStop?
    requires MessagesEvent(codec, core, kind, value).Ok?
    ensures var (next, output) := MessagesEvent(codec, core, kind, value).value;
            && next.blocks == core.blocks
            && forall k :: 0 <= k < |output| ==> output[k].UsageUpdate? || output[k].Finished?
  {
    hide UsageEvent;
  }

  lemma StepSays(codec: Codec, core: Core, payload: Payload)
    requires Step(Messages, codec, core, payload).Ok?
    ensures var (next, output) := Step(Messages, codec, core, payload).value;
            Says(codec, core, Parsed(codec, payload), next, output)
  {
    hide MessagesEvent;
    hide Says;
    EventSays(codec, core, codec.parse(payload.data).value);
  }

  /**
   Every successful Messages run: its answer and its reasoning are the concatenations of these texts over its
   payloads, and at each index the id, name and arguments of its call are what the tool use there started with, its
   deltas, and `{}` when it stopped without any.
   */
  lemma {:induction false} MessagesRunSays(codec: Codec, core: Core, payloads: seq<Payload>)
    requires Run(DecoderMachine(Messages, codec), core, payloads).Ok?
    ensures var output := Run(DecoderMachine(Messages, codec), core, payloads).value.1;
            && ContentOf(output) == Answers(codec, payloads)
            && ReasoningOf(output) == Thoughts(codec, payloads)
            && forall index: nat ::
                 && CallText(output, index, IdField) == Openings(codec, payloads, index, "id")
                 && CallText(output, index, NameField) == Openings(codec, payloads, index, "name")
                 && CallText(output, index, ArgumentsField) ==
                    AllArguments(codec, payloads, index, KnownIn(core, index))
    decreases |payloads|
  {
    hide Step;
    hide Answer;
    hide Thought;
    hide Opening;
    hide Arguments;
    hide KnownAfter;
    hide KnownIn;
    hide Parsed;
    if payloads != [] {
      StepSays(codec, core, payloads[0]);
      var (next, output) := Step(Messages, codec, core, payloads[0]).value;
      MessagesRunSays(codec, next, payloads[1..]);
      var more := Run(DecoderMachine(Messages, codec), next, payloads[1..]).value.1;
      TextConcat(output, more);
      forall index: nat
        ensures && CallText(output + more, index, IdField) == Openings(codec, payloads, index, "id")
                && CallText(output + more, index, NameField) == Openings(codec, payloads, index, "name")
                && CallText(output + more, index, ArgumentsField) ==
                   AllArguments(codec, payloads, index, KnownIn(core, index))
      {
        CallTextConcat(output, more, index, IdField);
        CallTextConcat(output, more, index, NameField);
        CallTextConcat(output, more, index, ArgumentsField);
        assert SaysAt(codec, core, Parsed(codec, payloads[0]), next, output, index);
      }
    }
  }

  // ---------------------------------------------------------------- which indices have calls

  lemma StepIndices(codec: Codec, core: Core, payload: Payload, index: nat)
    requires Step(Messages, codec, core, payload).Ok?
    ensures var (next, output) := Step(Messages, codec, core, payload).value;
            KnownIn(next, index).HasTool? <==> KnownIn(core, index).HasTool? || index in CallIndices(output)
  {
    var value := codec.parse(payload.data).value;
    EventIndices(codec, core, KindOf(EventString(value, "type").value), value, index);
    hide MessagesEvent;
  }

  lemma EventIndices(codec: Codec, core: Core, kind: Kind, value: Json, index: nat)
    requires MessagesEvent(codec, core, kind, value).Ok?
    ensures var (next, output) := MessagesEvent(codec, core, kind, value).value;
            KnownIn(next, index).HasTool? <==> KnownIn(core, index).HasTool? || index in CallIndices(output)
  {
    hide UsageEvent;
    hide OpenBlock;
    hide DeltaEvent;
    hide CallIndices;
    hide CallText;
    hide ThinkingItem;
    hide RedactedItem;
    var output := MessagesEvent(codec, core, kind, value).value.1;
    if kind.BlockStart? {
      OpenBlockForm(codec, EventIndex(value, "index").value, value.At("content_block"));
      FirstIndices(output);
    } else if kind.BlockDelta? {
      var (i, block) := OpenBlockAt(core, value).value;
      DeltaForm(block, i, value.At("delta"));
      FirstIndices(output);
    } else if kind.BlockStop? && output != [] {
      FirstIndices(output);
    } else {
      NoCallPieces(output);
    }
  }

  lemma FirstIndices(output: seq<Fragment>)
    requires output != [] && forall k :: 0 < k < |output| ==> output[k].Replay?
    ensures CallIndices(output) == if output[0].ToolCallDelta? then {output[0].index} else {}
  {
    assert output[0] in output;
    forall f | f in output ensures f == output[0] || f.Replay? {
      var k :| 0 <= k < |output| && output[k] == f;
    }
  }

  /** The calls of a run from the beginning are at the indices where tool uses started. */
  lemma {:induction false} MessagesCallIndices(codec: Codec, core: Core, payloads: seq<Payload>, index: nat)
    requires Run(DecoderMachine(Messages, codec), core, payloads).Ok?
    ensures var (last, output) := Run(DecoderMachine(Messages, codec), core, payloads).value;
            && (KnownIn(last, index).HasTool? <==> KnownIn(core, index).HasTool? || index in CallIndices(output))
            && (KnownIn(last, index).HasTool? <==>
                  KnownIn(core, index).HasTool? ||
                  exists k :: 0 <= k < |payloads| && ToolStartsAt(Parsed(codec, payloads[k]), index))
    decreases |payloads|
  {
    hide Step;
    hide KnownIn;
    hide Parsed;
    if payloads != [] {
      StepIndices(codec, core, payloads[0], index);
      StepKnown(codec, core, payloads[0], index);
      var (next, output) := Step(Messages, codec, core, payloads[0]).value;
      MessagesCallIndices(codec, next, payloads[1..], index);
      IndicesConcat(output, Run(DecoderMachine(Messages, codec), next, payloads[1..]).value.1);
      hide ToolStartsAt;
      if k :| 0 <= k < |payloads| && ToolStartsAt(Parsed(codec, payloads[k]), index) {
        assert k > 0 ==> payloads[1..][k - 1] == payloads[k];
      }
      if k :| 0 <= k < |payloads[1..]| && ToolStartsAt(Parsed(codec, payloads[1..][k]), index) {
        assert payloads[k + 1] == payloads[1..][k];
      }
    }
  }

  predicate ToolStartsAt(value: Json, index: nat) {
    Starts(value, "tool_use") && At(value, index)
  }

  lemma StepKnown(codec: Codec, core: Core, payload: Payload, index: nat)
    requires Step(Messages, codec, core, payload).Ok?
    ensures KnownIn(Step(Messages, codec, core, payload).value.0, index).HasTool? <==>
            KnownIn(core, index).HasTool? || ToolStartsAt(Parsed(codec, payload), index)
  {
    hide MessagesEvent;
    EventKnown(codec, core, codec.parse(payload.data).value, index);
    hide KnownIn;
    hide ToolStartsAt;
  }

  lemma EventKnown(codec: Codec, core: Core, value: Json, index: nat)
    requires value.At("type").Str? && MessagesEvent(codec, core, KindOf(value.At("type").text), value).Ok?
    ensures var next := MessagesEvent(codec, core, KindOf(value.At("type").text), value).value.0;
            KnownIn(next, index).HasTool? <==> KnownIn(core, index).HasTool? || ToolStartsAt(value, index)
  {
    hide UsageEvent;
    hide OpenBlock;
    hide DeltaEvent;
    hide ContentOf;
    hide ReasoningOf;
    hide CallText;
    hide ThinkingItem;
    hide RedactedItem;
    var kind := KindOf(value.At("type").text);
    if kind.BlockStart? {
      OpenBlockSays(codec, EventIndex(value, "index").value, value.At("content_block"));
    } else if kind.BlockDelta? {
      var (i, block) := OpenBlockAt(core, value).value;
      DeltaForm(block, i, value.At("delta"));
    }
  }

  // ---------------------------------------------------------------- the stop reason

  /** The text of the first `message_delta`'s stop reason. */
  function StopText(codec: Codec, payloads: seq<Payload>): Option<string> {
    if payloads == [] then None
    else
      var value := Parsed(codec, payloads[0]);
      if Typed(value, "message_delta") then Some(TextAt(value.At("delta"), "stop_reason"))
      else StopText(codec, payloads[1..])
  }

  lemma EventReason(codec: Codec, core: Core, kind: Kind, value: Json)
    requires MessagesEvent(codec, core, kind, value).Ok? && (kind.MessageDelta? <==> Typed(value, "message_delta"))
    ensures var (next, output) := MessagesEvent(codec, core, kind, value).value;
            && (Typed(value, "message_delta") ==>
                  core.reason.None? && next.reason.Some? &&
                  Means(TextAt(value.At("delta"), "stop_reason"), next.reason.value))
            && (!Typed(value, "message_delta") ==> next.reason == core.reason)
            && (next.terminal && !core.terminal ==> next.reason.Some? && output == [Finished(next.reason.value)])
  {
    hide OpenBlock;
    hide DeltaEvent;
    ReasonMeans(TextAt(value.At("delta"), "stop_reason"));
    hide ToStopReason;
    hide Means;
  }

  lemma StepReason(codec: Codec, core: Core, payload: Payload)
    requires Step(Messages, codec, core, payload).Ok?
    ensures var (next, output) := Step(Messages, codec, core, payload).value;
            var value := Parsed(codec, payload);
            && !core.terminal
            && (Typed(value, "message_delta") ==>
                  core.reason.None? && next.reason.Some? &&
                  Means(TextAt(value.At("delta"), "stop_reason"), next.reason.value))
            && (!Typed(value, "message_delta") ==> next.reason == core.reason)
            && (next.terminal ==> next.reason.Some? && output == [Finished(next.reason.value)])
  {
    hide MessagesEvent;
    hide Means;
    var value := codec.parse(payload.data).value;
    EventReason(codec, core, KindOf(EventString(value, "type").value), value);
  }

  /** The stop reason of a run is what its `message_delta` says, and a run that reached its end emitted it last. */
  lemma {:induction false} MessagesRunStops(codec: Codec, core: Core, payloads: seq<Payload>)
    requires !core.terminal && Run(DecoderMachine(Messages, codec), core, payloads).Ok?
    ensures var (last, output) := Run(DecoderMachine(Messages, codec), core, payloads).value;
            && (match StopText(codec, payloads)
                case None => last.reason == core.reason
                case Some(text) => last.reason.Some? && Means(text, last.reason.value))
            && (last.terminal ==>
                  last.reason.Some? && output != [] && output[|output| - 1] == Finished(last.reason.value))
    decreases |payloads|
  {
    hide Step;
    hide Means;
    hide Parsed;
    if payloads != [] {
      StepReason(codec, core, payloads[0]);
      var (next, output) := Step(Messages, codec, core, payloads[0]).value;
      if next.terminal {
        DecoderProperties.TerminalEndsRun(Messages, codec, next, payloads[1..]);
        Unit(output);
      } else {
        MessagesRunStops(codec, next, payloads[1..]);
        if Typed(Parsed(codec, payloads[0]), "message_delta") {
          ReasonStays(codec, next, payloads[1..]);
        }
      }
    }
  }

  lemma {:induction false} ReasonStays(codec: Codec, core: Core, payloads: seq<Payload>)
    requires core.reason.Some? && Run(DecoderMachine(Messages, codec), core, payloads).Ok?
    ensures Run(DecoderMachine(Messages, codec), core, payloads).value.0.reason == core.reason
    decreases |payloads|
  {
    hide Step;
    if payloads != [] {
      StepReason(codec, core, payloads[0]);
      ReasonStays(codec, Step(Messages, codec, core, payloads[0]).value.0, payloads[1..]);
    }
  }

  // ---------------------------------------------------------------- the usage

  /** The usage object of a payload: the message's at the start, the event's own at the end. */
  function Report(value: Json): seq<Json> {
    if Typed(value, "message_start") then [value.At("message").At("usage")]
    else if Typed(value, "message_delta") then [value.At("usage")]
    else []
  }

  function Reports(codec: Codec, payloads: seq<Payload>): seq<Json> {
    if payloads == [] then [] else Report(Parsed(codec, payloads[0])) + Reports(codec, payloads[1..])
  }

  /** The last count of that name. */
  function LastCount(reports: seq<Json>, key: string): Option<int> {
    if reports == [] then None
    else
      var last := reports[|reports| - 1];
      if Has(last, key) then CountAt(last, key) else LastCount(reports[..|reports| - 1], key)
  }

  function OrZero(count: Option<int>): int {
    if count.Some? then count.value else 0
  }

  /** The last input count, with the cache counts known when it came. */
  function InputCount(reports: seq<Json>): int {
    if reports == [] then 0
    else
      var last := reports[|reports| - 1];
      if Has(last, "input_tokens") then
        OrZero(CountAt(last, "input_tokens")) + OrZero(LastCount(reports, "cache_read_input_tokens")) +
        OrZero(CountAt(last, "cache_creation_input_tokens"))
      else InputCount(reports[..|reports| - 1])
  }

  /** A usage that some reports add up to. */
  predicate AddsUp(usage: Usage, reports: seq<Json>) {
    && usage.inputTokens as int == InputCount(reports)
    && usage.outputTokens as int == OrZero(LastCount(reports, "output_tokens"))
    && (usage.cacheHitTokens.Some? <==> LastCount(reports, "cache_read_input_tokens").Some?)
    && OrZero(LastCount(reports, "cache_read_input_tokens")) ==
       if usage.cacheHitTokens.Some? then usage.cacheHitTokens.value else 0
  }

  lemma UsageEventAddsUp(core: Core, report: Json, before: seq<Json>)
    requires UsageEvent(core, report).Ok? && AddsUp(core.usage, before)
    ensures AddsUp(UsageEvent(core, report).value.0.usage, before + [report])
  {
    var reports := before + [report];
    assert reports[..|before|] == before && reports[|before|] == report;
    hide AddsUp;
    UsageFields(core, report);
    assert AddsUp(core.usage, before);
    AddsUpMore(core.usage, UsageEvent(core, report).value.0.usage, before, report);
    hide UsageEvent;
  }

  /** What one report changes, count by count. */
  ghost predicate Updates(usage: Usage, next: Usage, report: Json) {
    var hits := if Has(report, "cache_read_input_tokens") then CountAt(report, "cache_read_input_tokens")
                else if usage.cacheHitTokens.Some? then Some(usage.cacheHitTokens.value) else None;
    && (Has(report, "cache_read_input_tokens") ==> hits.Some?)
    && (next.cacheHitTokens.Some? <==> hits.Some?)
    && (hits.Some? ==> next.cacheHitTokens.value as int == hits.value)
    && next.outputTokens as int ==
       (if Has(report, "output_tokens") then OrZero(CountAt(report, "output_tokens")) else usage.outputTokens)
    && next.inputTokens as int ==
       if Has(report, "input_tokens")
       then OrZero(CountAt(report, "input_tokens")) + OrZero(hits) +
            OrZero(CountAt(report, "cache_creation_input_tokens"))
       else usage.inputTokens
  }

  lemma UsageFields(core: Core, report: Json)
    requires UsageEvent(core, report).Ok?
    ensures Updates(core.usage, UsageEvent(core, report).value.0.usage, report)
  {
  }

  lemma AddsUpMore(usage: Usage, next: Usage, before: seq<Json>, report: Json)
    requires AddsUp(usage, before) && Updates(usage, next, report)
    ensures AddsUp(next, before + [report])
  {
    var reports := before + [report];
    assert reports[..|before|] == before && reports[|before|] == report;
  }

  lemma StepUsage(codec: Codec, core: Core, payload: Payload, before: seq<Json>)
    requires Step(Messages, codec, core, payload).Ok? && AddsUp(core.usage, before)
    ensures var (next, output) := Step(Messages, codec, core, payload).value;
            var report := Report(Parsed(codec, payload));
            && AddsUp(next.usage, before + report)
            && LastUsage(output) == if report == [] then None else Some(next.usage)
  {
    hide AddsUp;
    hide MessagesEvent;
    var value := codec.parse(payload.data).value;
    EventUsage(codec, core, KindOf(EventString(value, "type").value), value, before);
  }

  lemma EventUsage(codec: Codec, core: Core, kind: Kind, value: Json, before: seq<Json>)
    requires MessagesEvent(codec, core, kind, value).Ok? && AddsUp(core.usage, before)
    requires kind.MessageDelta? <==> Typed(value, "message_delta")
    requires kind.MessageStart? <==> Typed(value, "message_start")
    ensures var (next, output) := MessagesEvent(codec, core, kind, value).value;
            var report := Report(value);
            && AddsUp(next.usage, before + report)
            && LastUsage(output) == if report == [] then None else Some(next.usage)
  {
    hide AddsUp;
    var (next, output) := MessagesEvent(codec, core, kind, value).value;
    Unit(before);
    if kind.MessageStart? {
      UsageEventAddsUp(core.(started := true), value.At("message").At("usage"), before);
      OneOf(output[0], 0, IdField);
    } else if kind.MessageDelta? {
      var reason := EventString(value.At("delta"), "stop_reason").value;
      UsageEventAddsUp(core.(reason := Some(ToStopReason(reason))), value.At("usage"), before);
      OneOf(output[0], 0, IdField);
    } else {
      NoUsage(output);
    }
    hide UsageEvent;
  }

  /** The usage of a run is what its reports add up to, and the last usage it emitted is that. */
  lemma {:induction false} MessagesRunUses(codec: Codec, core: Core, payloads: seq<Payload>, before: seq<Json>)
    requires Run(DecoderMachine(Messages, codec), core, payloads).Ok? && AddsUp(core.usage, before)
    ensures var (last, output) := Run(DecoderMachine(Messages, codec), core, payloads).value;
            && AddsUp(last.usage, before + Reports(codec, payloads))
            && LastUsage(output) == if Reports(codec, payloads) == [] then None else Some(last.usage)
    decreases |payloads|
  {
    hide Step;
    hide AddsUp;
    hide Report;
    hide Parsed;
    Unit(before);
    if payloads != [] {
      var report := Report(Parsed(codec, payloads[0]));
      StepUsage(codec, core, payloads[0], before);
      var (next, output) := Step(Messages, codec, core, payloads[0]).value;
      MessagesRunUses(codec, next, payloads[1..], before + report);
      Assoc(before, report, Reports(codec, payloads[1..]));
      UsageConcat(output, Run(DecoderMachine(Messages, codec), next, payloads[1..]).value.1);
      if Reports(codec, payloads[1..]) == [] {
        UsageStays(codec, next, payloads[1..]);
      }
    }
  }

  lemma {:induction false} UsageStays(codec: Codec, core: Core, payloads: seq<Payload>)
    requires Run(DecoderMachine(Messages, codec), core, payloads).Ok? && Reports(codec, payloads) == []
    ensures Run(DecoderMachine(Messages, codec), core, payloads).value.0.usage == core.usage
    decreases |payloads|
  {
    hide Step;
    hide Report;
    hide Parsed;
    if payloads != [] {
      QuietStep(codec, core, payloads[0]);
      UsageStays(codec, Step(Messages, codec, core, payloads[0]).value.0, payloads[1..]);
    }
  }

  lemma QuietStep(codec: Codec, core: Core, payload: Payload)
    requires Step(Messages, codec, core, payload).Ok? && Report(Parsed(codec, payload)) == []
    ensures Step(Messages, codec, core, payload).value.0.usage == core.usage
  {
    hide UsageEvent;
    hide OpenBlock;
    hide DeltaEvent;
  }
}
