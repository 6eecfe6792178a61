/** In a successful Responses decoding, completed items agree with everything streamed for them. */
module ResponsesProperties {
  import opened Wrappers
  import opened Json
  import opened History
  import opened Sequences
  import opened Sse
  import opened Provider
  import opened Dispatch
  import opened ResponsesEvents
  import opened Accumulator

  datatype Channel = TextChannel | ReasoningChannel | ArgumentsChannel

  predicate InChannel(kind: Kind, channel: Channel) {
    match channel
    case TextChannel => kind.OutputTextDelta? || kind.RefusalDelta? || kind.SummaryTextDelta?
    case ReasoningChannel => kind.ReasoningTextDelta?
    case ArgumentsChannel => kind.ArgumentsDelta?
  }

  /** What an event streams to a channel of the item at an index. */
  function Delta(kind: Kind, value: Json, index: nat, channel: Channel): string {
    if InChannel(kind, channel) && EventIndex(value, "output_index") == Ok(index) && value.At("delta").Str?
    then value.At("delta").text else ""
  }

  function ChannelText(block: Block, channel: Channel): string {
    match channel
    case TextChannel => block.text
    case ReasoningChannel => block.reasoning
    case ArgumentsChannel => block.arguments
  }

  predicate SameItem(a: Block, b: Block) {
    a.kind == b.kind && a.id == b.id && a.name == b.name
  }

  predicate IsTextDelta(kind: Kind) {
    kind.OutputTextDelta? || kind.RefusalDelta? || kind.SummaryTextDelta? || kind.ReasoningTextDelta?
  }

  /** A block after an event: text is appended while it is open, and nothing once it is closed. */
  ghost predicate Follows(core: Core, next: Core, index: nat, channel: Channel, delta: string)
    requires index in core.blocks
  {
    && index in next.blocks
    && SameItem(core.blocks[index], next.blocks[index])
    && ChannelText(next.blocks[index], channel) == ChannelText(core.blocks[index], channel) + delta
    && (core.blocks[index].closed ==> next.blocks[index] == core.blocks[index])
  }

  lemma TextAtBlock(core: Core, kind: Kind, value: Json, index: nat, channel: Channel)
    requires IsTextDelta(kind) && ResponsesEvent(core, kind, value).Ok? && index in core.blocks
    ensures Follows(core, ResponsesEvent(core, kind, value).value.0, index, channel, Delta(kind, value, index, channel))
  {
    assert ResponsesEvent(core, kind, value) == TextDelta(core, kind, value);
    hide ResponsesEvent;
    Unit(ChannelText(core.blocks[index], channel));
  }

  lemma ArgumentsAtBlock(core: Core, value: Json, index: nat, channel: Channel)
    requires ResponsesEvent(core, ArgumentsDelta, value).Ok? && index in core.blocks
    ensures Follows(core, ResponsesEvent(core, ArgumentsDelta, value).value.0, index, channel,
                    Delta(ArgumentsDelta, value, index, channel))
  {
    Unit(ChannelText(core.blocks[index], channel));
  }

  lemma OtherAtBlock(core: Core, kind: Kind, value: Json, index: nat, channel: Channel)
    requires !IsTextDelta(kind) && !kind.ArgumentsDelta? && ResponsesEvent(core, kind, value).Ok? &&
             index in core.blocks
    ensures Follows(core, ResponsesEvent(core, kind, value).value.0, index, channel, "")
  {
    hide TextDelta;
    Unit(ChannelText(core.blocks[index], channel));
  }

  lemma EventAtBlock(core: Core, kind: Kind, value: Json, index: nat, channel: Channel)
    requires ResponsesEvent(core, kind, value).Ok? && index in core.blocks
    ensures Follows(core, ResponsesEvent(core, kind, value).value.0, index, channel, Delta(kind, value, index, channel))
  {
    hide ResponsesEvent;
    hide Follows;
    if IsTextDelta(kind) {
      TextAtBlock(core, kind, value, index, channel);
    } else if kind.ArgumentsDelta? {
      ArgumentsAtBlock(core, value, index, channel);
    } else {
      OtherAtBlock(core, kind, value, index, channel);
    }
  }

  /** An event streams nothing to an index that it does not find open. */
  lemma EventAtNewBlock(core: Core, kind: Kind, value: Json, index: nat, channel: Channel)
    requires ResponsesEvent(core, kind, value).Ok? && index !in core.blocks
    ensures Delta(kind, value, index, channel) == ""
    ensures var next := ResponsesEvent(core, kind, value).value.0;
            index in next.blocks ==>
              && kind.ItemAdded? && EventIndex(value, "output_index") == Ok(index)
              && !next.blocks[index].closed
              && (!channel.ArgumentsChannel? ==> ChannelText(next.blocks[index], channel) == "")
  {
  }

  /** What an `output_item.done` proves about the block it closes. */
  lemma EventAtCompletion(core: Core, value: Json, index: nat)
    requires ResponsesEvent(core, ItemDone, value).Ok? && EventIndex(value, "output_index") == Ok(index)
    ensures index in core.blocks && !core.blocks[index].closed
    ensures var next := ResponsesEvent(core, ItemDone, value).value.0;
            index in next.blocks && next.blocks[index].closed && Completes(next.blocks[index], value.At("item"))
  {
  }

  /** A completed item spells out a block: the call's parts, or the text of its parts in each channel. */
  predicate Completes(block: Block, item: Json) {
    && item.At("type") == Str(block.kind.Name())
    && match block.kind
       case FunctionCall =>
         item.At("call_id") == Str(block.id) && item.At("name") == Str(block.name) &&
             item.At("arguments") == Str(block.arguments)
       case MessageItem => CompletedText(block.kind, item, "content") == Ok(block.text)
       case ReasoningItem =>
         && CompletedText(block.kind, item, "summary") == Ok(block.text)
         && CompletedText(block.kind, item, "content") == Ok(block.reasoning)
         && item.At("id") == Str(block.id)
       case _ => true
  }

  // ---------------------------------------------------------------- over whole runs

  /** A payload as the Responses machine reads it. */
  function Read(codec: Codec, payload: Payload): Option<(Kind, Json)> {
    match codec.parse(payload.data)
    case None => None
    case Some(value) => if value.At("type").Str? then Some((KindOf(value.At("type").text), value)) else None
  }

  lemma StepIsEvent(codec: Codec, core: Core, payload: Payload)
    requires Step(Responses, codec, core, payload).Ok?
    ensures Read(codec, payload).Some?
    ensures var (kind, value) := Read(codec, payload).value;
            Step(Responses, codec, core, payload) == ResponsesEvent(core, kind, value)
  {
  }

  /** Everything a list of events streams to a channel of the item at an index. */
  function Streamed(codec: Codec, payloads: seq<Payload>, index: nat, channel: Channel): string {
    if payloads == [] then ""
    else
      (match Read(codec, payloads[0])
       case None => ""
       case Some((kind, value)) => Delta(kind, value, index, channel)) +
      Streamed(codec, payloads[1..], index, channel)
  }

  /** Whether an event completes the item at an index, and with what. */
  function CompletedItem(codec: Codec, payload: Payload, index: nat): Option<Json> {
    match Read(codec, payload)
    case None => None
    case Some((kind, value)) =>
      if kind.ItemDone? && EventIndex(value, "output_index") == Ok(index) then Some(value.At("item")) else None
  }

  lemma {:induction false} RunAtBlock(codec: Codec, core: Core, payloads: seq<Payload>, index: nat, channel: Channel)
    requires Run(DecoderMachine(Responses, codec), core, payloads).Ok? && index in core.blocks
    ensures var last := Run(DecoderMachine(Responses, codec), core, payloads).value.0;
            && index in last.blocks
            && SameItem(core.blocks[index], last.blocks[index])
            && ChannelText(last.blocks[index], channel)
               == ChannelText(core.blocks[index], channel) + Streamed(codec, payloads, index, channel)
            && (core.blocks[index].closed ==> last.blocks[index] == core.blocks[index])
    decreases |payloads|
  {
    if payloads == [] {
      Unit(ChannelText(core.blocks[index], channel));
    } else {
      StepIsEvent(codec, core, payloads[0]);
      var (kind, value) := Read(codec, payloads[0]).value;
      hide Step;
      hide ResponsesEvent;
      EventAtBlock(core, kind, value, index, channel);
      var next := ResponsesEvent(core, kind, value).value.0;
      RunAtBlock(codec, next, payloads[1..], index, channel);
      Assoc(ChannelText(core.blocks[index], channel), Delta(kind, value, index, channel),
            Streamed(codec, payloads[1..], index, channel));
    }
  }

  /** The text channels of an item hold exactly what was streamed to its index. */
  lemma {:induction false} RunFromNothing(codec: Codec, core: Core, payloads: seq<Payload>, index: nat,
      channel: Channel)
    requires Run(DecoderMachine(Responses, codec), core, payloads).Ok? && index !in core.blocks
    requires !channel.ArgumentsChannel?
    ensures var last := Run(DecoderMachine(Responses, codec), core, payloads).value.0;
            Streamed(codec, payloads, index, channel) ==
            (if index in last.blocks then ChannelText(last.blocks[index], channel) else "")
    decreases |payloads|
  {
    if payloads != [] {
      StepIsEvent(codec, core, payloads[0]);
      var (kind, value) := Read(codec, payloads[0]).value;
      hide Step;
      hide ResponsesEvent;
      EventAtNewBlock(core, kind, value, index, channel);
      var next := ResponsesEvent(core, kind, value).value.0;
      Unit(Streamed(codec, payloads[1..], index, channel));
      if index in next.blocks {
        RunAtBlock(codec, next, payloads[1..], index, channel);
      } else {
        RunFromNothing(codec, next, payloads[1..], index, channel);
      }
    }
  }

  /** A completion anywhere in a run still describes the block at its end. */
  lemma {:induction false} RunCompletes(codec: Codec, core: Core, payloads: seq<Payload>, n: nat, index: nat)
    requires Run(DecoderMachine(Responses, codec), core, payloads).Ok?
    requires n < |payloads| && CompletedItem(codec, payloads[n], index).Some?
    ensures var last := Run(DecoderMachine(Responses, codec), core, payloads).value.0;
            index in last.blocks && last.blocks[index].closed &&
            Completes(last.blocks[index], CompletedItem(codec, payloads[n], index).value)
    decreases n
  {
    StepIsEvent(codec, core, payloads[0]);
    var (kind, value) := Read(codec, payloads[0]).value;
    hide Step;
    hide ResponsesEvent;
    hide Completes;
    var next := ResponsesEvent(core, kind, value).value.0;
    if n == 0 {
      EventAtCompletion(core, value, index);
      RunAtBlock(codec, next, payloads[1..], index, TextChannel);
    } else {
      RunCompletes(codec, next, payloads[1..], n - 1, index);
    }
  }

  /**
   In every successful Responses run, the text streamed for a completed message or reasoning item, in
   each channel, is the concatenation of the item's completed parts, however items interleave.
   */
  lemma StreamedTextIsCompleted(codec: Codec, payloads: seq<Payload>, n: nat, index: nat)
    requires Run(DecoderMachine(Responses, codec), EMPTY_CORE, payloads).Ok?
    requires n < |payloads| && CompletedItem(codec, payloads[n], index).Some?
    ensures var item := CompletedItem(codec, payloads[n], index).value;
            && (item.At("type") == Str(MessageItem.Name()) ==>
                  CompletedText(MessageItem, item, "content") == Ok(Streamed(codec, payloads, index, TextChannel)))
            && (item.At("type") == Str(ReasoningItem.Name()) ==>
                  && CompletedText(ReasoningItem, item, "summary") == Ok(Streamed(codec, payloads, index, TextChannel))
                  && CompletedText(ReasoningItem, item, "content") ==
                     Ok(Streamed(codec, payloads, index, ReasoningChannel)))
  {
    RunCompletes(codec, EMPTY_CORE, payloads, n, index);
    RunFromNothing(codec, EMPTY_CORE, payloads, index, TextChannel);
    RunFromNothing(codec, EMPTY_CORE, payloads, index, ReasoningChannel);
    hide Run;
    hide Streamed;
    hide CompletedText;
    NamesDiffer();
  }

  lemma NamesDiffer()
    ensures forall a: BlockKind, b: BlockKind :: a.Name() == b.Name() ==> a == b
  {
    assert |TextBlock.Name()| == 4 && |Thinking.Name()| == 8 && |RedactedThinking.Name()| == 17;
    assert ToolUse.Name()[0] == 't' && MessageItem.Name()[0] == 'm' && |ToolUse.Name()| == 8;
    assert Thinking.Name()[1] == 'h' && ToolUse.Name()[1] == 'o';
    assert |ReasoningItem.Name()| == 9 && |FunctionCall.Name()| == 13 && |MessageItem.Name()| == 7;
  }

  /** Every delta is emitted at once, as exactly its own text. */
  lemma DeltaIsEmitted(codec: Codec, core: Core, payload: Payload, index: nat)
    requires Step(Responses, codec, core, payload).Ok?
    requires Read(codec, payload).value.0.OutputTextDelta? || Read(codec, payload).value.0.RefusalDelta? ||
             Read(codec, payload).value.0.SummaryTextDelta? || Read(codec, payload).value.0.ReasoningTextDelta?
    requires EventIndex(Read(codec, payload).value.1, "output_index") == Ok(index)
    ensures var (kind, value) := Read(codec, payload).value;
            var text := Delta(kind, value, index, TextChannel) + Delta(kind, value, index, ReasoningChannel);
            && index in core.blocks
            && Step(Responses, codec, core, payload).value.1 ==
               [if core.blocks[index].kind.ReasoningItem? then Reasoning(text) else Content(text)]
  {
    StepIsEvent(codec, core, payload);
    var (kind, value) := Read(codec, payload).value;
    Unit(value.At("delta").text);
  }

  // ---------------------------------------------------------------- the accumulated calls

  /** The accumulator holds exactly the function calls of the decoder, as streamed so far. */
  ghost predicate Linked(core: Core, calls: map<nat, CallBuilder>) {
    && (forall i :: i in calls <==> i in core.blocks && core.blocks[i].kind.FunctionCall?)
    && (forall i :: i in calls ==>
          calls[i] == CallBuilder(core.blocks[i].id, core.blocks[i].name, core.blocks[i].arguments))
  }

  /** The calls after some fragments, when all of them are accepted. */
  function CallsAfter(calls: map<nat, CallBuilder>, fragments: seq<Fragment>): map<nat, CallBuilder>
    decreases |fragments|
  {
    if fragments == [] then calls
    else
      match fragments[0]
      case ToolCallDelta(index, id, name, arguments) =>
        CallsAfter(calls[index := Extend(CallAt(calls, index), id, name, arguments)], fragments[1..])
      case _ => CallsAfter(calls, fragments[1..])
  }

  lemma {:induction false} AcceptedCalls(a: Accumulated, fragments: seq<Fragment>, replaySize: ReplaySize)
    requires AcceptedAll(a, fragments, replaySize).Ok?
    ensures AcceptedAll(a, fragments, replaySize).value.calls == CallsAfter(a.calls, fragments)
    decreases |fragments|
  {
    if fragments != [] {
      AcceptedCalls(Accepted(a, fragments[0], replaySize).value, fragments[1..], replaySize);
    }
  }

  lemma {:induction false} CallsAfterConcat(calls: map<nat, CallBuilder>, a: seq<Fragment>, b: seq<Fragment>)
    ensures CallsAfter(calls, a + b) == CallsAfter(CallsAfter(calls, a), b)
    decreases |a|
  {
    if a == [] {
      Unit(b);
    } else {
      assert (a + b)[1..] == a[1..] + b;
      match a[0] {
        case ToolCallDelta(index, id, name, arguments) =>
          CallsAfterConcat(calls[index := Extend(CallAt(calls, index), id, name, arguments)], a[1..], b);
        case _ => CallsAfterConcat(calls, a[1..], b);
      }
    }
  }

  lemma {:induction false} NoCalls(calls: map<nat, CallBuilder>, fragments: seq<Fragment>)
    requires forall k :: 0 <= k < |fragments| ==> !fragments[k].ToolCallDelta?
    ensures CallsAfter(calls, fragments) == calls
    decreases |fragments|
  {
    if fragments != [] {
      NoCalls(calls, fragments[1..]);
    }
  }

  lemma OneFragment(calls: map<nat, CallBuilder>, index: nat, id: Option<string>, name: Option<string>,
      arguments: string)
    ensures CallsAfter(calls, [ToolCallDelta(index, id, name, arguments)])
         == calls[index := Extend(CallAt(calls, index), id, name, arguments)]
  {
    var one := [ToolCallDelta(index, id, name, arguments)];
    assert one[1..] == [];
  }

  lemma ItemAddedLinked(core: Core, value: Json, calls: map<nat, CallBuilder>)
    requires ResponsesEvent(core, ItemAdded, value).Ok? && Linked(core, calls)
    ensures var (next, output) := ResponsesEvent(core, ItemAdded, value).value;
            Linked(next, CallsAfter(calls, output))
  {
    var index := EventIndex(value, "output_index").value;
    ItemAddedOpens(core, value);
    var (next, output) := ResponsesEvent(core, ItemAdded, value).value;
    hide ResponsesEvent;
    hide EventIndex;
    var block := next.blocks[index];
    if block.kind.FunctionCall? {
      OneFragment(calls, index, Some(block.id), Some(block.name), block.arguments);
      hide CallsAfter;
      Unit(block.id);
      Unit(block.name);
      Unit(block.arguments);
    }
  }

  function Announced(index: nat, block: Block): seq<Fragment> {
    if block.kind.FunctionCall? then [ToolCallDelta(index, Some(block.id), Some(block.name), block.arguments)] else []
  }

  /** A new item is one new block, announced when it is a function call. */
  lemma ItemAddedOpens(core: Core, value: Json)
    requires ResponsesEvent(core, ItemAdded, value).Ok?
    ensures EventIndex(value, "output_index").Ok?
    ensures var (next, output) := ResponsesEvent(core, ItemAdded, value).value;
            var index := EventIndex(value, "output_index").value;
            && index !in core.blocks && index in next.blocks && next.blocks == core.blocks[index := next.blocks[index]]
            && output == Announced(index, next.blocks[index])
  {
  }

  lemma ArgumentsLinked(core: Core, value: Json, calls: map<nat, CallBuilder>)
    requires ResponsesEvent(core, ArgumentsDelta, value).Ok? && Linked(core, calls)
    ensures var (next, output) := ResponsesEvent(core, ArgumentsDelta, value).value;
            Linked(next, CallsAfter(calls, output))
  {
    var index := EventIndex(value, "output_index").value;
    OneFragment(calls, index, None, None, value.At("delta").text);
    Unit(core.blocks[index].id);
    Unit(core.blocks[index].name);
  }

  /** Events other than an addition and an arguments delta change no call and announce none. */
  ghost predicate SameCall(core: Core, next: Core, i: nat) {
    && (i in next.blocks <==> i in core.blocks)
    && (i in core.blocks ==>
          SameItem(core.blocks[i], next.blocks[i]) && next.blocks[i].arguments == core.blocks[i].arguments)
  }

  lemma TextKeepsCall(core: Core, kind: Kind, value: Json, i: nat)
    requires TextDelta(core, kind, value).Ok?
    ensures SameCall(core, TextDelta(core, kind, value).value.0, i)
  {
  }

  lemma OtherAt(core: Core, kind: Kind, value: Json, i: nat)
    requires ResponsesEvent(core, kind, value).Ok? && !kind.ItemAdded? && !kind.ArgumentsDelta?
    ensures SameCall(core, ResponsesEvent(core, kind, value).value.0, i)
  {
    if IsTextDelta(kind) {
      TextKeepsCall(core, kind, value, i);
    }
    hide TextDelta;
  }

  lemma OtherOutput(core: Core, kind: Kind, value: Json)
    requires ResponsesEvent(core, kind, value).Ok? && !kind.ItemAdded? && !kind.ArgumentsDelta?
    ensures var output := ResponsesEvent(core, kind, value).value.1;
            forall k :: 0 <= k < |output| ==> !output[k].ToolCallDelta?
  {
  }

  lemma OtherLinked(core: Core, kind: Kind, value: Json, calls: map<nat, CallBuilder>)
    requires ResponsesEvent(core, kind, value).Ok? && Linked(core, calls)
    requires !kind.ItemAdded? && !kind.ArgumentsDelta?
    ensures Linked(ResponsesEvent(core, kind, value).value.0, calls)
  {
    hide ResponsesEvent;
    var next := ResponsesEvent(core, kind, value).value.0;
    forall i: nat
      ensures (i in next.blocks <==> i in core.blocks) &&
              (i in core.blocks ==>
                 SameItem(core.blocks[i], next.blocks[i]) && next.blocks[i].arguments == core.blocks[i].arguments)
    {
      OtherAt(core, kind, value, i);
    }
  }

  /** One event changes the accumulated calls exactly as it changes the decoder's blocks. */
  lemma EventLinked(core: Core, kind: Kind, value: Json, calls: map<nat, CallBuilder>)
    requires ResponsesEvent(core, kind, value).Ok? && Linked(core, calls)
    ensures var (next, output) := ResponsesEvent(core, kind, value).value;
            Linked(next, CallsAfter(calls, output))
  {
    if kind.ItemAdded? {
      ItemAddedLinked(core, value, calls);
    } else if kind.ArgumentsDelta? {
      ArgumentsLinked(core, value, calls);
    } else {
      OtherLinked(core, kind, value, calls);
      OtherOutput(core, kind, value);
      NoCalls(calls, ResponsesEvent(core, kind, value).value.1);
    }
  }

  lemma {:induction false} RunLinked(codec: Codec, core: Core, payloads: seq<Payload>, calls: map<nat, CallBuilder>)
    requires Run(DecoderMachine(Responses, codec), core, payloads).Ok? && Linked(core, calls)
    ensures var (last, output) := Run(DecoderMachine(Responses, codec), core, payloads).value;
            Linked(last, CallsAfter(calls, output))
    decreases |payloads|
  {
    if payloads != [] {
      StepIsEvent(codec, core, payloads[0]);
      var (kind, value) := Read(codec, payloads[0]).value;
      hide Step;
      hide ResponsesEvent;
      hide Linked;
      EventLinked(core, kind, value, calls);
      var (next, output) := ResponsesEvent(core, kind, value).value;
      RunLinked(codec, next, payloads[1..], CallsAfter(calls, output));
      CallsAfterConcat(calls, output, Run(DecoderMachine(Responses, codec), next, payloads[1..]).value.1);
    }
  }

  /**
   In every successful Responses run whose fragments are all accepted, the accumulated id, name and
   arguments at the index of a completed function call are those of the completed item.
   */
  lemma AccumulatedCallIsCompleted(codec: Codec, payloads: seq<Payload>, replaySize: ReplaySize, n: nat, index: nat)
    requires Run(DecoderMachine(Responses, codec), EMPTY_CORE, payloads).Ok?
    requires AcceptedAll(EMPTY, Run(DecoderMachine(Responses, codec), EMPTY_CORE, payloads).value.1, replaySize).Ok?
    requires n < |payloads| && CompletedItem(codec, payloads[n], index).Some?
    requires CompletedItem(codec, payloads[n], index).value.At("type") == Str(FunctionCall.Name())
    ensures var item := CompletedItem(codec, payloads[n], index).value;
            var output := Run(DecoderMachine(Responses, codec), EMPTY_CORE, payloads).value.1;
            var calls := AcceptedAll(EMPTY, output, replaySize).value.calls;
            && index in calls
            && item.At("call_id") == Str(calls[index].id)
            && item.At("name") == Str(calls[index].name)
            && item.At("arguments") == Str(calls[index].arguments)
  {
    hide Run;
    hide AcceptedAll;
    hide CallsAfter;
    hide CompletedText;
    NamesDiffer();
    RunCompletes(codec, EMPTY_CORE, payloads, n, index);
    hide CompletedItem;
    RunLinked(codec, EMPTY_CORE, payloads, map[]);
    AcceptedCalls(EMPTY, Run(DecoderMachine(Responses, codec), EMPTY_CORE, payloads).value.1, replaySize);
  }
}
