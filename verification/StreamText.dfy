/** The text that a stream emits: what the fragments say, what the accumulator keeps of it, and for which item. */
module StreamText {
  import opened Wrappers
  import opened Json
  import opened History
  import opened Sequences
  import opened Sse
  import opened Provider
  import opened Dispatch
  import opened ResponsesEvents
  import opened Accumulator
  import opened ResponsesProperties

  /** The answer text and the reasoning text of some fragments, in order. */
  function ContentOf(fragments: seq<Fragment>): string {
    if fragments == [] then ""
    else (if fragments[0].Content? then fragments[0].text else "") + ContentOf(fragments[1..])
  }

  function ReasoningOf(fragments: seq<Fragment>): string {
    if fragments == [] then ""
    else (if fragments[0].Reasoning? then fragments[0].text else "") + ReasoningOf(fragments[1..])
  }

  lemma {:induction false} TextConcat(a: seq<Fragment>, b: seq<Fragment>)
    ensures ContentOf(a + b) == ContentOf(a) + ContentOf(b)
    ensures ReasoningOf(a + b) == ReasoningOf(a) + ReasoningOf(b)
  {
    if a == [] {
      Unit(b);
      Unit(ContentOf(b));
      Unit(ReasoningOf(b));
    } else {
      assert (a + b)[1..] == a[1..] + b;
      TextConcat(a[1..], b);
      Assoc(if a[0].Content? then a[0].text else "", ContentOf(a[1..]), ContentOf(b));
      Assoc(if a[0].Reasoning? then a[0].text else "", ReasoningOf(a[1..]), ReasoningOf(b));
    }
  }

  lemma {:induction false} NoText(fragments: seq<Fragment>)
    requires forall k :: 0 <= k < |fragments| ==> !fragments[k].Content? && !fragments[k].Reasoning?
    ensures ContentOf(fragments) == "" && ReasoningOf(fragments) == ""
  {
    if fragments != [] {
      NoText(fragments[1..]);
    }
  }

  lemma OneText(text: string)
    ensures ContentOf([Content(text)]) == text && ReasoningOf([Content(text)]) == ""
    ensures ReasoningOf([Reasoning(text)]) == text && ContentOf([Reasoning(text)]) == ""
  {
    assert [Content(text)][1..] == [] && [Reasoning(text)][1..] == [];
    Unit(text);
  }

  // ---------------------------------------------------------------- what the accumulator keeps

  lemma OneAccumulated(a: Accumulated, fragment: Fragment, replaySize: ReplaySize)
    requires Accepted(a, fragment, replaySize).Ok?
    ensures var next := Accepted(a, fragment, replaySize).value;
            && next.content == a.content + (if fragment.Content? then fragment.text else "")
            && next.reasoning == a.reasoning + (if fragment.Reasoning? then fragment.text else "")
  {
    Unit(a.content);
    Unit(a.reasoning);
  }

  /** For every format, an accepted run of fragments accumulates exactly their texts, in order. */
  lemma {:induction false} AccumulatedText(a: Accumulated, fragments: seq<Fragment>, replaySize: ReplaySize)
    requires AcceptedAll(a, fragments, replaySize).Ok?
    ensures var last := AcceptedAll(a, fragments, replaySize).value;
            last.content == a.content + ContentOf(fragments) && last.reasoning == a.reasoning + ReasoningOf(fragments)
    decreases |fragments|
  {
    if fragments == [] {
      Unit(a.content);
      Unit(a.reasoning);
    } else {
      OneAccumulated(a, fragments[0], replaySize);
      hide Accepted;
      AccumulatedText(Accepted(a, fragments[0], replaySize).value, fragments[1..], replaySize);
      Assoc(a.content, if fragments[0].Content? then fragments[0].text else "", ContentOf(fragments[1..]));
      Assoc(a.reasoning, if fragments[0].Reasoning? then fragments[0].text else "", ReasoningOf(fragments[1..]));
    }
  }

  // ---------------------------------------------------------------- the text of one event

  /** Only the four text deltas emit text. */
  lemma OthersEmitNoText(core: Core, kind: Kind, value: Json)
    requires !IsTextDelta(kind) && ResponsesEvent(core, kind, value).Ok?
    ensures var output := ResponsesEvent(core, kind, value).value.1;
            ContentOf(output) == "" && ReasoningOf(output) == ""
  {
    hide Agrees;
    hide ReplayItem;
    hide TerminalReason;
    hide ContentOf;
    hide ReasoningOf;
    NoText(ResponsesEvent(core, kind, value).value.1);
  }

  predicate Names(value: Json, index: nat) {
    EventIndex(value, "output_index") == Ok(index)
  }

  /** A text delta emits its text, as an answer of a message item or as reasoning of a reasoning item. */
  lemma DeltaText(core: Core, kind: Kind, value: Json, index: nat)
    requires IsTextDelta(kind) && ResponsesEvent(core, kind, value).Ok? && Names(value, index)
    ensures value.At("delta").Str? && index in core.blocks
    ensures var output, text := ResponsesEvent(core, kind, value).value.1, value.At("delta").text;
            if kind.OutputTextDelta? || kind.RefusalDelta? then
              core.blocks[index].kind.MessageItem? && ContentOf(output) == text && ReasoningOf(output) == ""
            else
              core.blocks[index].kind.ReasoningItem? && ContentOf(output) == "" && ReasoningOf(output) == text
  {
    assert ResponsesEvent(core, kind, value) == TextDelta(core, kind, value);
    hide ResponsesEvent;
    OneText(value.At("delta").text);
    hide ContentOf;
    hide ReasoningOf;
  }

  /** An event that names an item emits exactly what it streams to the item's two text channels. */
  lemma EventText(core: Core, kind: Kind, value: Json, index: nat)
    requires ResponsesEvent(core, kind, value).Ok? && Names(value, index)
    ensures var output := ResponsesEvent(core, kind, value).value.1;
            ContentOf(output) + ReasoningOf(output) ==
            Delta(kind, value, index, TextChannel) + Delta(kind, value, index, ReasoningChannel)
  {
    hide ResponsesEvent;
    if IsTextDelta(kind) {
      DeltaText(core, kind, value, index);
      Unit(value.At("delta").text);
    } else {
      OthersEmitNoText(core, kind, value);
    }
  }

  // ---------------------------------------------------------------- the text of a whole run

  /** What each event of a run emits. */
  function Outputs(codec: Codec, core: Core, payloads: seq<Payload>): seq<seq<Fragment>>
    decreases |payloads|
  {
    if payloads == [] then []
    else
      match Step(Responses, codec, core, payloads[0])
      case Err(_) => []
      case Ok((next, output)) => [output] + Outputs(codec, next, payloads[1..])
  }

  function Flat(outputs: seq<seq<Fragment>>): seq<Fragment> {
    if outputs == [] then [] else outputs[0] + Flat(outputs[1..])
  }

  /** Event by event, these are all the fragments of the run. */
  lemma {:induction false} OutputsOfRun(codec: Codec, core: Core, payloads: seq<Payload>)
    requires Run(DecoderMachine(Responses, codec), core, payloads).Ok?
    ensures |Outputs(codec, core, payloads)| == |payloads|
    ensures Flat(Outputs(codec, core, payloads)) == Run(DecoderMachine(Responses, codec), core, payloads).value.1
    decreases |payloads|
  {
    if payloads != [] {
      hide Step;
      var (next, output) := Step(Responses, codec, core, payloads[0]).value;
      OutputsOfRun(codec, next, payloads[1..]);
      var outputs := Outputs(codec, core, payloads);
      assert outputs[1..] == Outputs(codec, next, payloads[1..]);
    }
  }

  /** Whether an event belongs to an item, leaving out the deltas of one channel, if any. */
  predicate Counts(codec: Codec, payload: Payload, index: nat, without: Option<Channel>) {
    match Read(codec, payload)
    case None => false
    case Some((kind, value)) => Names(value, index) && (without.Some? ==> !InChannel(kind, without.value))
  }

  /** What the events of an item emit. */
  function ItemOutput(codec: Codec, payloads: seq<Payload>, outputs: seq<seq<Fragment>>, index: nat,
                      without: Option<Channel>): seq<Fragment>
    requires |payloads| == |outputs|
  {
    if payloads == [] then []
    else
      (if Counts(codec, payloads[0], index, without) then outputs[0] else []) +
      ItemOutput(codec, payloads[1..], outputs[1..], index, without)
  }

  /** What an event of a message item emits is what it streams to the item's text, as an answer. */
  lemma MessageEventText(core: Core, kind: Kind, value: Json, index: nat)
    requires ResponsesEvent(core, kind, value).Ok? && Names(value, index)
    requires index in core.blocks ==> core.blocks[index].kind.MessageItem?
    ensures var output := ResponsesEvent(core, kind, value).value.1;
            ContentOf(output) == Delta(kind, value, index, TextChannel) && ReasoningOf(output) == ""
  {
    hide ResponsesEvent;
    if IsTextDelta(kind) {
      DeltaText(core, kind, value, index);
    } else {
      OthersEmitNoText(core, kind, value);
    }
  }

  /** What an event of a reasoning item emits is reasoning, and outside the other channel it is what it streams. */
  lemma ReasoningEventText(core: Core, kind: Kind, value: Json, index: nat, channel: Channel, other: Channel)
    requires ResponsesEvent(core, kind, value).Ok? && Names(value, index)
    requires index in core.blocks ==> core.blocks[index].kind.ReasoningItem?
    requires {channel, other} == {TextChannel, ReasoningChannel}
    ensures var output := ResponsesEvent(core, kind, value).value.1;
            && ContentOf(output) == ""
            && Delta(kind, value, index, channel) == (if InChannel(kind, other) then "" else ReasoningOf(output))
  {
    hide ResponsesEvent;
    assert channel != other;
    if IsTextDelta(kind) {
      DeltaText(core, kind, value, index);
    } else {
      OthersEmitNoText(core, kind, value);
    }
  }

  /** The kind of a block that is there at the end of a run was its kind all along. */
  lemma KindAllAlong(codec: Codec, core: Core, payloads: seq<Payload>, index: nat)
    requires Run(DecoderMachine(Responses, codec), core, payloads).Ok? && index in core.blocks
    ensures var last := Run(DecoderMachine(Responses, codec), core, payloads).value.0;
            index in last.blocks && last.blocks[index].kind == core.blocks[index].kind
  {
    RunAtBlock(codec, core, payloads, index, TextChannel);
  }

  lemma {:induction false} MessageEmits(codec: Codec, core: Core, payloads: seq<Payload>, index: nat)
    requires Run(DecoderMachine(Responses, codec), core, payloads).Ok?
    requires var last := Run(DecoderMachine(Responses, codec), core, payloads).value.0;
             index in last.blocks && last.blocks[index].kind.MessageItem?
    requires |Outputs(codec, core, payloads)| == |payloads|
    ensures var text := ItemOutput(codec, payloads, Outputs(codec, core, payloads), index, None);
            ContentOf(text) == Streamed(codec, payloads, index, TextChannel) && ReasoningOf(text) == ""
    decreases |payloads|
  {
    if payloads != [] {
      StepIsEvent(codec, core, payloads[0]);
      var (kind, value) := Read(codec, payloads[0]).value;
      var (next, output) := Step(Responses, codec, core, payloads[0]).value;
      hide Step;
      hide ResponsesEvent;
      var outputs := Outputs(codec, core, payloads);
      assert outputs[1..] == Outputs(codec, next, payloads[1..]);
      if index in core.blocks {
        KindAllAlong(codec, core, payloads, index);
      }
      if Names(value, index) {
        MessageEventText(core, kind, value, index);
      }
      MessageEmits(codec, next, payloads[1..], index);
      var rest := ItemOutput(codec, payloads[1..], outputs[1..], index, None);
      TextConcat(if Names(value, index) then output else [], rest);
    }
  }

  lemma {:induction false} ReasoningEmits(codec: Codec, core: Core, payloads: seq<Payload>, index: nat,
                                          channel: Channel, other: Channel)
    requires Run(DecoderMachine(Responses, codec), core, payloads).Ok?
    requires {channel, other} == {TextChannel, ReasoningChannel}
    requires var last := Run(DecoderMachine(Responses, codec), core, payloads).value.0;
             index in last.blocks && last.blocks[index].kind.ReasoningItem?
    requires |Outputs(codec, core, payloads)| == |payloads|
    ensures var outputs := Outputs(codec, core, payloads);
            && ReasoningOf(ItemOutput(codec, payloads, outputs, index, Some(other))) ==
               Streamed(codec, payloads, index, channel)
            && ContentOf(ItemOutput(codec, payloads, outputs, index, None)) == ""
    decreases |payloads|
  {
    if payloads != [] {
      StepIsEvent(codec, core, payloads[0]);
      var (kind, value) := Read(codec, payloads[0]).value;
      var (next, output) := Step(Responses, codec, core, payloads[0]).value;
      hide Step;
      hide ResponsesEvent;
      var outputs := Outputs(codec, core, payloads);
      assert outputs[1..] == Outputs(codec, next, payloads[1..]);
      if index in core.blocks {
        KindAllAlong(codec, core, payloads, index);
      }
      if Names(value, index) {
        ReasoningEventText(core, kind, value, index, channel, other);
      }
      ReasoningEmits(codec, next, payloads[1..], index, channel, other);
      var now := Names(value, index);
      TextConcat(if now then output else [], ItemOutput(codec, payloads[1..], outputs[1..], index, None));
      TextConcat(if now && !InChannel(kind, other) then output else [],
                 ItemOutput(codec, payloads[1..], outputs[1..], index, Some(other)));
    }
  }

  /**
   In every successful Responses run, whatever the interleaving: the events of a completed message item
   emit exactly its completed parts, as answers; those of a completed reasoning item emit no answer, and
   exactly the completed parts of each channel outside the deltas of the other.
   */
  lemma EmittedTextIsCompleted(codec: Codec, payloads: seq<Payload>, n: nat, index: nat)
    requires Run(DecoderMachine(Responses, codec), EMPTY_CORE, payloads).Ok?
    requires n < |payloads| && CompletedItem(codec, payloads[n], index).Some?
    ensures |Outputs(codec, EMPTY_CORE, payloads)| == |payloads|
    ensures var item := CompletedItem(codec, payloads[n], index).value;
            var outputs := Outputs(codec, EMPTY_CORE, payloads);
            var all := ItemOutput(codec, payloads, outputs, index, None);
            var summary := ItemOutput(codec, payloads, outputs, index, Some(ReasoningChannel));
            var content := ItemOutput(codec, payloads, outputs, index, Some(TextChannel));
            && (item.At("type") == Str(MessageItem.Name()) ==>
                  CompletedText(MessageItem, item, "content") == Ok(ContentOf(all)) && ReasoningOf(all) == "")
            && (item.At("type") == Str(ReasoningItem.Name()) ==>
                  && ContentOf(all) == ""
                  && CompletedText(ReasoningItem, item, "summary") == Ok(ReasoningOf(summary))
                  && CompletedText(ReasoningItem, item, "content") == Ok(ReasoningOf(content)))
  {
    OutputsOfRun(codec, EMPTY_CORE, payloads);
    StreamedTextIsCompleted(codec, payloads, n, index);
    CompletedKind(codec, payloads, n, index);
    var last := Run(DecoderMachine(Responses, codec), EMPTY_CORE, payloads).value.0;
    hide Run;
    hide Outputs;
    hide ItemOutput;
    hide Streamed;
    hide CompletedText;
    hide CompletedItem;
    if last.blocks[index].kind.MessageItem? {
      MessageEmits(codec, EMPTY_CORE, payloads, index);
    } else if last.blocks[index].kind.ReasoningItem? {
      ReasoningEmits(codec, EMPTY_CORE, payloads, index, TextChannel, ReasoningChannel);
      ReasoningEmits(codec, EMPTY_CORE, payloads, index, ReasoningChannel, TextChannel);
    }
  }

  lemma CompletedKind(codec: Codec, payloads: seq<Payload>, n: nat, index: nat)
    requires Run(DecoderMachine(Responses, codec), EMPTY_CORE, payloads).Ok?
    requires n < |payloads| && CompletedItem(codec, payloads[n], index).Some?
    ensures var item := CompletedItem(codec, payloads[n], index).value;
            var last := Run(DecoderMachine(Responses, codec), EMPTY_CORE, payloads).value.0;
            && index in last.blocks
            && (item.At("type") == Str(MessageItem.Name()) ==> last.blocks[index].kind.MessageItem?)
            && (item.At("type") == Str(ReasoningItem.Name()) ==> last.blocks[index].kind.ReasoningItem?)
  {
    hide Run;
    hide CompletedText;
    RunCompletes(codec, EMPTY_CORE, payloads, n, index);
    NamesDiffer();
  }

  // ---------------------------------------------------------------- the accumulated text of a run

  /** The text of every answer delta, and of every reasoning delta, in event order. */
  function AllAnswers(codec: Codec, payloads: seq<Payload>): string {
    if payloads == [] then ""
    else
      (match Read(codec, payloads[0])
       case None => ""
       case Some((kind, value)) =>
         if (kind.OutputTextDelta? || kind.RefusalDelta?) && value.At("delta").Str? then value.At("delta").text
         else "") +
      AllAnswers(codec, payloads[1..])
  }

  function AllReasoning(codec: Codec, payloads: seq<Payload>): string {
    if payloads == [] then ""
    else
      (match Read(codec, payloads[0])
       case None => ""
       case Some((kind, value)) =>
         if (kind.SummaryTextDelta? || kind.ReasoningTextDelta?) && value.At("delta").Str? then value.At("delta").text
         else "") +
      AllReasoning(codec, payloads[1..])
  }

  lemma {:induction false} RunText(codec: Codec, core: Core, payloads: seq<Payload>)
    requires Run(DecoderMachine(Responses, codec), core, payloads).Ok?
    ensures var output := Run(DecoderMachine(Responses, codec), core, payloads).value.1;
            ContentOf(output) == AllAnswers(codec, payloads) && ReasoningOf(output) == AllReasoning(codec, payloads)
    decreases |payloads|
  {
    if payloads != [] {
      StepIsEvent(codec, core, payloads[0]);
      var (kind, value) := Read(codec, payloads[0]).value;
      var (next, output) := Step(Responses, codec, core, payloads[0]).value;
      hide Step;
      if IsTextDelta(kind) {
        DeltaNamesItem(core, kind, value);
        DeltaText(core, kind, value, EventIndex(value, "output_index").value);
      } else {
        OthersEmitNoText(core, kind, value);
      }
      hide ResponsesEvent;
      RunText(codec, next, payloads[1..]);
      TextConcat(output, Run(DecoderMachine(Responses, codec), next, payloads[1..]).value.1);
    }
  }

  lemma DeltaNamesItem(core: Core, kind: Kind, value: Json)
    requires IsTextDelta(kind) && ResponsesEvent(core, kind, value).Ok?
    ensures EventIndex(value, "output_index").Ok?
  {
    assert ResponsesEvent(core, kind, value) == TextDelta(core, kind, value);
    hide ResponsesEvent;
  }

  /** Over an accepted Responses run, content and reasoning are exactly the streamed texts, in event order. */
  lemma AccumulatedTextIsStreamed(codec: Codec, payloads: seq<Payload>, replaySize: ReplaySize)
    requires Run(DecoderMachine(Responses, codec), EMPTY_CORE, payloads).Ok?
    requires AcceptedAll(EMPTY, Run(DecoderMachine(Responses, codec), EMPTY_CORE, payloads).value.1, replaySize).Ok?
    ensures var output := Run(DecoderMachine(Responses, codec), EMPTY_CORE, payloads).value.1;
            var last := AcceptedAll(EMPTY, output, replaySize).value;
            last.content == AllAnswers(codec, payloads) && last.reasoning == AllReasoning(codec, payloads)
  {
    hide Run;
    hide AcceptedAll;
    RunText(codec, EMPTY_CORE, payloads);
    AccumulatedText(EMPTY, Run(DecoderMachine(Responses, codec), EMPTY_CORE, payloads).value.1, replaySize);
    Unit(AllAnswers(codec, payloads));
    Unit(AllReasoning(codec, payloads));
  }
}
