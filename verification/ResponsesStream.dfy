/** What a Responses stream says: the fragments of every successful run, read off the JSON of its payloads. */
module ResponsesStream {
  import opened Wrappers
  import opened Json
  import opened History
  import opened Sequences
  import opened Sse
  import opened Provider
  import opened Dispatch
  import opened StreamText
  import opened ResponseContents
  import opened StreamReading
  import opened ResponsesEvents
  import DecoderProperties

  function Parsed(codec: Codec, payload: Payload): Json {
    codec.parse(payload.data).GetOr(Null)
  }

  predicate Typed(value: Json, name: string) {
    value.At("type") == Str(name)
  }

  predicate At(value: Json, index: nat) {
    value.At("output_index") == Int(index)
  }

  predicate Adds(value: Json, item: string) {
    Typed(value, "response.output_item.added") && Typed(value.At("item"), item)
  }

  // ---------------------------------------------------------------- the event types

  predicate Repeats(value: Json) {
    value.At("type").Str? && value.At("type").text in {
      "response.content_part.added", "response.content_part.done", "response.output_text.done",
      "response.reasoning_summary_part.added", "response.reasoning_summary_part.done",
      "response.reasoning_summary_text.done", "response.reasoning_text.done", "response.refusal.done"
    }
  }

  lemma FirstTypes()
    ensures KindOf("response.created") == Created
    ensures KindOf("response.in_progress") == InProgress
    ensures KindOf("response.output_item.added") == ItemAdded
    ensures KindOf("response.output_text.delta") == OutputTextDelta
  {
    assert |"response.output_item.added"| == 26 && "response.output_item.added"[16] == 'i';
    assert |"response.output_text.delta"| == 26 && "response.output_text.delta"[16] == 't';
    assert "response.function_call_arguments.done"[9] == 'f' && "response.reasoning_summary_text.delta"[9] == 'r';
  }

  lemma SecondTypes()
    ensures KindOf("response.refusal.delta") == RefusalDelta
    ensures KindOf("response.reasoning_summary_text.delta") == SummaryTextDelta
    ensures KindOf("response.reasoning_text.delta") == ReasoningTextDelta
    ensures KindOf("response.function_call_arguments.delta") == ArgumentsDelta
  {
    assert |"response.output_item.added"| == 26 && "response.output_item.added"[16] == 'i';
    assert |"response.output_text.delta"| == 26 && "response.output_text.delta"[16] == 't';
    assert "response.function_call_arguments.done"[9] == 'f' && "response.reasoning_summary_text.delta"[9] == 'r';
  }

  lemma ThirdTypes()
    ensures KindOf("response.function_call_arguments.done") == ArgumentsDone
    ensures KindOf("response.output_item.done") == ItemDone
    ensures KindOf("response.completed") == Terminated("completed")
    ensures KindOf("response.incomplete") == Terminated("incomplete")
  {
    assert |"response.output_item.added"| == 26 && "response.output_item.added"[16] == 'i';
    assert |"response.output_text.delta"| == 26 && "response.output_text.delta"[16] == 't';
    assert "response.function_call_arguments.done"[9] == 'f' && "response.reasoning_summary_text.delta"[9] == 'r';
  }

  lemma RedundantTypes(text: string)
    requires text in {
      "response.content_part.added", "response.content_part.done", "response.output_text.done",
      "response.reasoning_summary_part.added", "response.reasoning_summary_part.done",
      "response.reasoning_summary_text.done", "response.reasoning_text.done", "response.refusal.done"
    }
    ensures KindOf(text).Redundant?
  {
    assert "response.content_part.done"[9] == 'c' && "response.output_item.added"[9] == 'o';
    assert "response.output_text.delta"[9] == 'o' && "response.output_text.done"[16] == 't';
    assert "response.output_item.done"[16] == 'i' && "response.reasoning_summary_part.added"[27] == 'p';
    assert "response.reasoning_summary_text.delta"[27] == 't' && "response.function_call_arguments.done"[9] == 'f';
    assert "response.reasoning_summary_part.added"[9] == 'r';
  }

  /** The event types differ from each other. */
  lemma EventTypes(value: Json)
    requires value.At("type").Str?
    ensures var kind := KindOf(value.At("type").text);
            && (kind.Created? <==> Typed(value, "response.created"))
            && (kind.InProgress? <==> Typed(value, "response.in_progress"))
            && (kind.ItemAdded? <==> Typed(value, "response.output_item.added"))
            && (kind.OutputTextDelta? <==> Typed(value, "response.output_text.delta"))
            && (kind.RefusalDelta? <==> Typed(value, "response.refusal.delta"))
            && (kind.SummaryTextDelta? <==> Typed(value, "response.reasoning_summary_text.delta"))
            && (kind.ReasoningTextDelta? <==> Typed(value, "response.reasoning_text.delta"))
            && (kind.ArgumentsDelta? <==> Typed(value, "response.function_call_arguments.delta"))
            && (kind.ArgumentsDone? <==> Typed(value, "response.function_call_arguments.done"))
            && (kind.ItemDone? <==> Typed(value, "response.output_item.done"))
            && (kind == Terminated("completed") <==> Typed(value, "response.completed"))
            && (kind == Terminated("incomplete") <==> Typed(value, "response.incomplete"))
            && (kind.Terminated? ==> kind.status == "completed" || kind.status == "incomplete")
            && (kind.Redundant? <==> Repeats(value))
  {
    var text := value.At("type").text;
    FirstTypes();
    SecondTypes();
    ThirdTypes();
    if Repeats(value) {
      RedundantTypes(text);
    }
    KindComesFrom(text);
    assert "completed"[0] == 'c' && "incomplete"[0] == 'i';
    hide KindOf;
  }

  lemma KindComesFrom(text: string)
    ensures var kind := KindOf(text);
            && (kind.Created? ==> text == "response.created")
            && (kind.InProgress? ==> text == "response.in_progress")
            && (kind.ItemAdded? ==> text == "response.output_item.added")
            && (kind.OutputTextDelta? ==> text == "response.output_text.delta")
            && (kind.RefusalDelta? ==> text == "response.refusal.delta")
            && (kind.SummaryTextDelta? ==> text == "response.reasoning_summary_text.delta")
            && (kind.ReasoningTextDelta? ==> text == "response.reasoning_text.delta")
            && (kind.ArgumentsDelta? ==> text == "response.function_call_arguments.delta")
            && (kind.ArgumentsDone? ==> text == "response.function_call_arguments.done")
            && (kind.ItemDone? ==> text == "response.output_item.done")
            && (kind.Terminated? ==>
                  (kind.status == "completed" && text == "response.completed") ||
                  (kind.status == "incomplete" && text == "response.incomplete"))
            && (kind.Redundant? ==> text in {
                  "response.content_part.added", "response.content_part.done", "response.output_text.done",
                  "response.reasoning_summary_part.added", "response.reasoning_summary_part.done",
                  "response.reasoning_summary_text.done", "response.reasoning_text.done", "response.refusal.done"
                })
  {
  }

  // ---------------------------------------------------------------- what one payload says

  function Answer(value: Json): string {
    if Typed(value, "response.output_text.delta") || Typed(value, "response.refusal.delta") then TextAt(value, "delta")
    else ""
  }

  function Thought(value: Json): string {
    if Typed(value, "response.reasoning_summary_text.delta") || Typed(value, "response.reasoning_text.delta")
    then TextAt(value, "delta") else ""
  }

  function CallPart(value: Json, index: nat, field: CallField): string {
    if !At(value, index) then ""
    else if Adds(value, "function_call") then
      TextAt(value.At("item"), match field
                               case IdField => "call_id"
                               case NameField => "name"
                               case ArgumentsField => "arguments")
    else if Typed(value, "response.function_call_arguments.delta") && field.ArgumentsField? then TextAt(value, "delta")
    else ""
  }

  function Answers(codec: Codec, payloads: seq<Payload>): string {
    if payloads == [] then "" else Answer(Parsed(codec, payloads[0])) + Answers(codec, payloads[1..])
  }

  function Thoughts(codec: Codec, payloads: seq<Payload>): string {
    if payloads == [] then "" else Thought(Parsed(codec, payloads[0])) + Thoughts(codec, payloads[1..])
  }

  function CallParts(codec: Codec, payloads: seq<Payload>, index: nat, field: CallField): string {
    if payloads == [] then ""
    else CallPart(Parsed(codec, payloads[0]), index, field) + CallParts(codec, payloads[1..], index, field)
  }

  predicate CallStartsAt(value: Json, index: nat) {
    Adds(value, "function_call") && At(value, index)
  }

  predicate AnyCallAt(codec: Codec, payloads: seq<Payload>, index: nat) {
    exists k :: 0 <= k < |payloads| && CallStartsAt(Parsed(codec, payloads[k]), index)
  }

  // ---------------------------------------------------------------- one event

  predicate CallAt(core: Core, index: nat) {
    index in core.blocks && core.blocks[index].kind.FunctionCall?
  }

  ghost predicate Says(core: Core, value: Json, next: Core, output: seq<Fragment>) {
    && ContentOf(output) == Answer(value)
    && ReasoningOf(output) == Thought(value)
    && (forall index: nat, field :: CallText(output, index, field) == CallPart(value, index, field))
    && (forall index: nat :: CallAt(next, index) <==> CallAt(core, index) || CallStartsAt(value, index))
    && (forall index: nat :: index in CallIndices(output) ==> CallAt(next, index))
    && (forall index: nat :: CallStartsAt(value, index) ==> index in CallIndices(output))
  }

  /** The types that say something. */
  predicate Speaks(value: Json) {
    || Typed(value, "response.output_item.added")
    || Typed(value, "response.output_text.delta") || Typed(value, "response.refusal.delta")
    || Typed(value, "response.reasoning_summary_text.delta") || Typed(value, "response.reasoning_text.delta")
    || Typed(value, "response.function_call_arguments.delta")
  }

  lemma OneSays(f: Fragment)
    ensures ContentOf([f]) == if f.Content? then f.text else ""
    ensures ReasoningOf([f]) == if f.Reasoning? then f.text else ""
    ensures forall index: nat, field :: CallText([f], index, field) == CallPiece(f, index, field)
    ensures CallIndices([f]) == if f.ToolCallDelta? then {f.index} else {}
  {
    OneOf(f, 0, IdField);
    forall index: nat, field ensures CallText([f], index, field) == CallPiece(f, index, field) {
      OneOf(f, index, field);
    }
  }

  lemma NothingSaid(output: seq<Fragment>)
    requires forall k :: 0 <= k < |output| ==> output[k].UsageUpdate? || output[k].Finished? || output[k].Replay?
    ensures ContentOf(output) == "" && ReasoningOf(output) == "" && CallIndices(output) == {}
    ensures forall index: nat, field :: CallText(output, index, field) == ""
  {
    NoText(output);
    NoCallPieces(output);
  }

  lemma OpenItemForm(index: nat, item: Json)
    requires OpenItem(index, item).Ok?
    ensures var (block, output) := OpenItem(index, item).value;
            if block.kind.FunctionCall? then
              && Typed(item, "function_call")
              && output == [ToolCallDelta(index, Some(TextAt(item, "call_id")), Some(TextAt(item, "name")),
                                          TextAt(item, "arguments"))]
            else !Typed(item, "function_call") && output == []
  {
    assert "function_call"[0] == 'f' && "message"[0] == 'm' && "reasoning"[0] == 'r';
  }

  lemma AddedOnly(value: Json)
    requires Typed(value, "response.output_item.added")
    ensures !Typed(value, "response.output_text.delta") && !Typed(value, "response.refusal.delta")
    ensures !Typed(value, "response.reasoning_summary_text.delta") && !Typed(value, "response.reasoning_text.delta")
    ensures !Typed(value, "response.function_call_arguments.delta")
  {
    hide KindOf;
    EventTypes(value);
  }

  lemma AddedSays(core: Core, value: Json)
    requires Typed(value, "response.output_item.added") && ResponsesEvent(core, ItemAdded, value).Ok?
    ensures var (next, output) := ResponsesEvent(core, ItemAdded, value).value;
            Says(core, value, next, output)
  {
    hide OpenItem;
    hide ContentOf;
    hide ReasoningOf;
    hide CallText;
    hide CallIndices;
    AddedOnly(value);
    hide Typed;
    var (next, output) := ResponsesEvent(core, ItemAdded, value).value;
    OpenItemForm(EventIndex(value, "output_index").value, value.At("item"));
    NothingSaid([]);
    if output != [] {
      OneSays(output[0]);
    }
  }

  lemma TextDeltaForm(core: Core, kind: Kind, value: Json)
    requires TextDelta(core, kind, value).Ok?
    ensures var (next, output) := TextDelta(core, kind, value).value;
            var text := TextAt(value, "delta");
            && output == [if kind.SummaryTextDelta? || kind.ReasoningTextDelta? then Reasoning(text) else Content(text)]
            && forall index: nat :: CallAt(next, index) <==> CallAt(core, index)
  {
  }

  lemma TextRead(kind: Kind, value: Json)
    requires value.At("type").Str? && kind == KindOf(value.At("type").text)
    requires kind.OutputTextDelta? || kind.RefusalDelta? || kind.SummaryTextDelta? || kind.ReasoningTextDelta?
    ensures var thinks := kind.SummaryTextDelta? || kind.ReasoningTextDelta?;
            && Answer(value) == (if thinks then "" else TextAt(value, "delta"))
            && Thought(value) == (if thinks then TextAt(value, "delta") else "")
    ensures forall index: nat, field :: CallPart(value, index, field) == ""
    ensures forall index: nat :: !CallStartsAt(value, index)
  {
    hide KindOf;
    EventTypes(value);
    hide Typed;
  }

  lemma TextSays(core: Core, kind: Kind, value: Json)
    requires ResponsesEvent(core, kind, value).Ok? && value.At("type").Str? && kind == KindOf(value.At("type").text)
    requires kind.OutputTextDelta? || kind.RefusalDelta? || kind.SummaryTextDelta? || kind.ReasoningTextDelta?
    ensures var (next, output) := ResponsesEvent(core, kind, value).value;
            Says(core, value, next, output)
  {
    hide KindOf;
    hide ContentOf;
    hide ReasoningOf;
    hide CallText;
    hide CallIndices;
    hide CallAt;
    hide CallPart;
    hide CallStartsAt;
    hide Answer;
    hide Thought;
    hide Typed;
    hide TextDelta;
    assert ResponsesEvent(core, kind, value) == TextDelta(core, kind, value);
    hide ResponsesEvent;
    TextRead(kind, value);
    TextDeltaForm(core, kind, value);
    OneSays(TextDelta(core, kind, value).value.1[0]);
  }

  lemma ArgumentsSay(core: Core, value: Json)
    requires Typed(value, "response.function_call_arguments.delta") && ResponsesEvent(core, ArgumentsDelta, value).Ok?
    ensures var (next, output) := ResponsesEvent(core, ArgumentsDelta, value).value;
            Says(core, value, next, output)
  {
    hide ContentOf;
    hide ReasoningOf;
    hide CallText;
    hide CallIndices;
    var (next, output) := ResponsesEvent(core, ArgumentsDelta, value).value;
    OneSays(output[0]);
    assert output == [output[0]];
    EventTypes(value);
    hide Typed;
  }

  lemma OthersSay(core: Core, kind: Kind, value: Json)
    requires !Speaks(value) && ResponsesEvent(core, kind, value).Ok?
    requires !kind.ItemAdded? && !kind.ArgumentsDelta?
    requires !kind.OutputTextDelta? && !kind.RefusalDelta? && !kind.SummaryTextDelta? && !kind.ReasoningTextDelta?
    ensures var (next, output) := ResponsesEvent(core, kind, value).value;
            Says(core, value, next, output)
  {
    hide ResponsesEvent;
    hide ContentOf;
    hide ReasoningOf;
    hide CallText;
    hide CallIndices;
    hide CallAt;
    hide Typed;
    OthersEmit(core, kind, value);
    NothingSaid(ResponsesEvent(core, kind, value).value.1);
  }

  lemma OthersEmit(core: Core, kind: Kind, value: Json)
    requires ResponsesEvent(core, kind, value).Ok?
    requires !kind.ItemAdded? && !kind.ArgumentsDelta?
    requires !kind.OutputTextDelta? && !kind.RefusalDelta? && !kind.SummaryTextDelta? && !kind.ReasoningTextDelta?
    ensures var (next, output) := ResponsesEvent(core, kind, value).value;
            && (forall k :: 0 <= k < |output| ==> output[k].UsageUpdate? || output[k].Finished? || output[k].Replay?)
            && (forall index: nat :: CallAt(next, index) <==> CallAt(core, index))
  {
    hide ItemDoneEvent;
    hide TerminalEvent;
    if kind.ItemDone? {
      DoneEmits(core, value);
    } else if kind.Terminated? {
      TerminalEmits(core, kind.status, value);
    }
  }

  lemma DoneEmits(core: Core, value: Json)
    requires ItemDoneEvent(core, value).Ok?
    ensures var (next, output) := ItemDoneEvent(core, value).value;
            && (forall k :: 0 <= k < |output| ==> output[k].Replay?)
            && (forall index: nat :: CallAt(next, index) <==> CallAt(core, index))
  {
    hide Agrees;
    hide ReplayItem;
  }

  lemma TerminalEmits(core: Core, status: string, value: Json)
    requires TerminalEvent(core, status, value).Ok?
    ensures var (next, output) := TerminalEvent(core, status, value).value;
            && (forall k :: 0 <= k < |output| ==> output[k].UsageUpdate? || output[k].Finished?)
            && next.blocks == core.blocks
  {
    hide TerminalReason;
  }

  lemma EventSays(core: Core, value: Json)
    requires value.At("type").Str? && ResponsesEvent(core, KindOf(value.At("type").text), value).Ok?
    ensures var (next, output) := ResponsesEvent(core, KindOf(value.At("type").text), value).value;
            Says(core, value, next, output)
  {
    hide ResponsesEvent;
    hide Says;
    hide KindOf;
    EventTypes(value);
    var kind := KindOf(value.At("type").text);
    if kind.ItemAdded? {
      AddedSays(core, value);
    } else if kind.ArgumentsDelta? {
      ArgumentsSay(core, value);
    } else if kind.OutputTextDelta? || kind.RefusalDelta? || kind.SummaryTextDelta? || kind.ReasoningTextDelta? {
      TextSays(core, kind, value);
    } else {
      OthersSay(core, kind, value);
    }
  }

  lemma StepSays(codec: Codec, core: Core, payload: Payload)
    requires Step(Responses, codec, core, payload).Ok?
    ensures var (next, output) := Step(Responses, codec, core, payload).value;
            Says(core, Parsed(codec, payload), next, output)
  {
    hide ResponsesEvent;
    hide Says;
    EventSays(core, codec.parse(payload.data).value);
  }

  /**
   Every successful Responses run: its answer and its reasoning are the concatenations of their deltas, and the id,
   name and arguments of the call at an index are those of the function call added there and of its argument deltas.
   */
  lemma {:induction false} ResponsesRunSays(codec: Codec, core: Core, payloads: seq<Payload>)
    requires Run(DecoderMachine(Responses, codec), core, payloads).Ok?
    ensures var (last, output) := Run(DecoderMachine(Responses, codec), core, payloads).value;
            && ContentOf(output) == Answers(codec, payloads)
            && ReasoningOf(output) == Thoughts(codec, payloads)
            && (forall index: nat, field :: CallText(output, index, field) == CallParts(codec, payloads, index, field))
            && (forall index: nat :: CallAt(last, index) <==> CallAt(core, index) || AnyCallAt(codec, payloads, index))
            && (forall index: nat :: index in CallIndices(output) ==> CallAt(last, index))
            && (forall index: nat :: AnyCallAt(codec, payloads, index) ==> index in CallIndices(output))
    decreases |payloads|
  {
    hide Step;
    hide Answer;
    hide Thought;
    hide CallPart;
    hide CallAt;
    hide Parsed;
    hide CallStartsAt;
    if payloads == [] {
      NothingSaid([]);
    } else {
      StepSays(codec, core, payloads[0]);
      var (next, output) := Step(Responses, codec, core, payloads[0]).value;
      ResponsesRunSays(codec, next, payloads[1..]);
      var more := Run(DecoderMachine(Responses, codec), next, payloads[1..]).value.1;
      TextConcat(output, more);
      IndicesConcat(output, more);
      forall index: nat, field
        ensures CallText(output + more, index, field) == CallParts(codec, payloads, index, field)
      {
        CallTextConcat(output, more, index, field);
      }
      forall index: nat
        ensures AnyCallAt(codec, payloads, index) <==>
                CallStartsAt(Parsed(codec, payloads[0]), index) || AnyCallAt(codec, payloads[1..], index)
      {
        AnyCallFirst(codec, payloads, index);
      }
      hide AnyCallAt;
      hide CallIndices;
    }
  }

  lemma AnyCallFirst(codec: Codec, payloads: seq<Payload>, index: nat)
    requires payloads != []
    ensures AnyCallAt(codec, payloads, index) <==>
            CallStartsAt(Parsed(codec, payloads[0]), index) || AnyCallAt(codec, payloads[1..], index)
  {
    hide CallStartsAt;
    hide Parsed;
    if k :| 0 <= k < |payloads| && CallStartsAt(Parsed(codec, payloads[k]), index) {
      assert k > 0 ==> payloads[1..][k - 1] == payloads[k];
    }
    if k :| 0 <= k < |payloads[1..]| && CallStartsAt(Parsed(codec, payloads[1..][k]), index) {
      assert payloads[k + 1] == payloads[1..][k];
    }
  }

  // ---------------------------------------------------------------- the end of a run

  predicate AnyRefusal(codec: Codec, payloads: seq<Payload>) {
    exists k :: 0 <= k < |payloads| && Typed(Parsed(codec, payloads[k]), "response.refusal.delta")
  }

  /** The usage in a response. */
  function Reported(response: Json): Option<Usage> {
    var usage := response.At("usage");
    if usage == Null then None
    else
      var input, output := CountAt(usage, "input_tokens"), CountAt(usage, "output_tokens");
      var cached := CountAt(usage.At("input_tokens_details"), "cached_tokens");
      if input.Some? && output.Some? && input.value >= 0 && output.value >= 0 && (cached.Some? ==> cached.value >= 0)
      then Some(Usage(input.value, output.value, if cached.Some? then Some(cached.value) else None))
      else None
  }

  /** What a terminal event says: its own reason when cut off, else what the items were, and its usage. */
  ghost predicate Ends(output: seq<Fragment>, value: Json, refused: bool, called: bool) {
    && output != [] && output[|output| - 1].Finished?
    && var reason := output[|output| - 1].reason;
       && (Typed(value, "response.completed") || Typed(value, "response.incomplete"))
       && (if Typed(value, "response.incomplete")
           then Means(TextAt(value.At("response").At("incomplete_details"), "reason"), reason)
           else reason == if refused then ContentFilter else if called then ToolCalls else Completed)
       && LastUsage(output) == Reported(value.At("response"))
  }

  lemma ReasonRead(core: Core, status: string, response: Json)
    requires TerminalReason(core, status, response).Ok?
    ensures var reason := TerminalReason(core, status, response).value;
            if status == "incomplete" then Means(TextAt(response.At("incomplete_details"), "reason"), reason)
            else reason == if core.refused then ContentFilter
                           else if exists i :: CallAt(core, i) then ToolCalls else Completed
  {
    hide Means;
    hide ToStopReason;
    if status == "incomplete" {
      ReasonMeans(TextAt(response.At("incomplete_details"), "reason"));
    } else if i :| i in core.blocks && core.blocks[i].kind.FunctionCall? {
      assert CallAt(core, i);
    }
  }

  lemma StatusTypes(value: Json, status: string)
    requires status == "completed" || status == "incomplete"
    requires Typed(value, if status == "completed" then "response.completed" else "response.incomplete")
    ensures Typed(value, "response.incomplete") <==> status == "incomplete"
  {
    assert "completed"[0] == 'c' && "incomplete"[0] == 'i';
    assert "response.completed"[9] == 'c' && "response.incomplete"[9] == 'i';
  }

  lemma TerminalEnds(core: Core, value: Json, status: string)
    requires TerminalEvent(core, status, value).Ok? && (status == "completed" || status == "incomplete")
    requires Typed(value, if status == "completed" then "response.completed" else "response.incomplete")
    ensures Ends(TerminalEvent(core, status, value).value.1, value, core.refused, exists i :: CallAt(core, i))
  {
    hide Means;
    hide TerminalReason;
    hide TerminalUsage;
    hide LastUsage;
    hide Reported;
    hide CallAt;
    var response := value.At("response");
    var usage := TerminalUsage(response).value;
    var reason := TerminalReason(core, status, response).value;
    assert TerminalEvent(core, status, value).value.1 == usage + [Finished(reason)];
    hide TerminalEvent;
    UsageConcat(usage, [Finished(reason)]);
    OneOf(Finished(reason), 0, IdField);
    StatusTypes(value, status);
    hide Typed;
    ReasonRead(core, status, response);
    UsageReported(response);
  }

  lemma UsageReported(response: Json)
    requires TerminalUsage(response).Ok?
    ensures LastUsage(TerminalUsage(response).value) == Reported(response)
  {
    var usage := TerminalUsage(response).value;
    if usage != [] {
      OneOf(usage[0], 0, IdField);
      assert usage == [usage[0]];
    }
  }

  lemma StepTerminal(codec: Codec, core: Core, payload: Payload)
    requires Step(Responses, codec, core, payload).Ok?
    ensures var (next, output) := Step(Responses, codec, core, payload).value;
            var value := Parsed(codec, payload);
            && !core.terminal
            && (next.terminal ==>
                  Ends(output, value, core.refused, exists i :: CallAt(core, i)) &&
                  next.refused == core.refused && next.blocks == core.blocks)
            && (!next.terminal ==> LastUsage(output).None?)
            && (next.refused <==> core.refused || Typed(value, "response.refusal.delta"))
  {
    hide ResponsesEvent;
    hide Ends;
    var value := codec.parse(payload.data).value;
    var kind := KindOf(value.At("type").text);
    if kind.Terminated? {
      KnownStatus(value.At("type").text);
      TerminatedIs(core, kind, value);
      TerminalEnds(core, value, kind.status);
      StillRefused(core, kind.status, value);
    } else {
      NotTerminal(core, kind, value);
    }
  }

  lemma KnownStatus(text: string)
    requires KindOf(text).Terminated?
    ensures (KindOf(text).status == "completed" && text == "response.completed") ||
            (KindOf(text).status == "incomplete" && text == "response.incomplete")
    ensures text != "response.refusal.delta"
  {
  }

  lemma TerminatedIs(core: Core, kind: Kind, value: Json)
    requires kind.Terminated? && ResponsesEvent(core, kind, value).Ok?
    ensures ResponsesEvent(core, kind, value) == TerminalEvent(core, kind.status, value)
  {
  }

  lemma StillRefused(core: Core, status: string, value: Json)
    requires TerminalEvent(core, status, value).Ok?
    ensures TerminalEvent(core, status, value).value.0.refused == core.refused
    ensures TerminalEvent(core, status, value).value.0.terminal
    ensures TerminalEvent(core, status, value).value.0.blocks == core.blocks
  {
    hide TerminalReason;
    hide TerminalUsage;
  }

  lemma TextNotTerminal(core: Core, kind: Kind, value: Json)
    requires !core.terminal && TextDelta(core, kind, value).Ok?
    ensures var (next, output) := TextDelta(core, kind, value).value;
            && !next.terminal && (next.refused <==> core.refused || kind.RefusalDelta?)
            && forall k :: 0 <= k < |output| ==> !output[k].UsageUpdate?
  {
  }

  lemma DoneNotTerminal(core: Core, value: Json)
    requires !core.terminal && ItemDoneEvent(core, value).Ok?
    ensures var (next, output) := ItemDoneEvent(core, value).value;
            && !next.terminal && next.refused == core.refused
            && forall k :: 0 <= k < |output| ==> !output[k].UsageUpdate?
  {
    hide Agrees;
    hide ReplayItem;
  }

  lemma NotTerminal(core: Core, kind: Kind, value: Json)
    requires !core.terminal && !kind.Terminated? && ResponsesEvent(core, kind, value).Ok?
    requires value.At("type").Str? && kind == KindOf(value.At("type").text)
    ensures var (next, output) := ResponsesEvent(core, kind, value).value;
            && !next.terminal && LastUsage(output).None?
            && (next.refused <==> core.refused || Typed(value, "response.refusal.delta"))
  {
    hide KindOf;
    hide LastUsage;
    hide TextDelta;
    hide ItemDoneEvent;
    hide OpenItem;
    EventTypes(value);
    if kind.OutputTextDelta? || kind.RefusalDelta? || kind.SummaryTextDelta? || kind.ReasoningTextDelta? {
      TextNotTerminal(core, kind, value);
    } else if kind.ItemDone? {
      DoneNotTerminal(core, value);
    } else if kind.ItemAdded? {
      OpenItemForm(EventIndex(value, "output_index").value, value.At("item"));
    }
    NoUsage(ResponsesEvent(core, kind, value).value.1);
  }

  /** A run that reached its end ended with its last payload. */
  lemma {:induction false} LastPayloadEnds(codec: Codec, core: Core, payloads: seq<Payload>)
    requires !core.terminal && Run(DecoderMachine(Responses, codec), core, payloads).Ok?
    ensures var (last, output) := Run(DecoderMachine(Responses, codec), core, payloads).value;
            && (last.refused <==> core.refused || AnyRefusal(codec, payloads))
            && (last.terminal ==>
                  payloads != [] &&
                  Ends(output, Parsed(codec, payloads[|payloads| - 1]), last.refused, exists i :: CallAt(last, i)))
    decreases |payloads|
  {
    hide Step;
    hide Parsed;
    hide Typed;
    hide CallAt;
    hide Ends;
    if payloads != [] {
      StepTerminal(codec, core, payloads[0]);
      RefusalFirst(codec, payloads);
      var (next, output) := Step(Responses, codec, core, payloads[0]).value;
      if next.terminal {
        DecoderProperties.TerminalEndsRun(Responses, codec, next, payloads[1..]);
        Unit(output);
        assert (exists i :: CallAt(next, i)) <==> (exists i :: CallAt(core, i)) by {
          SameCalls(core, next);
        }
      } else {
        LastPayloadEnds(codec, next, payloads[1..]);
        var (last, more) := Run(DecoderMachine(Responses, codec), next, payloads[1..]).value;
        if last.terminal {
          EndsLater(output, more, Parsed(codec, payloads[|payloads| - 1]), last.refused, exists i :: CallAt(last, i));
        }
      }
    }
  }

  lemma SameCalls(core: Core, next: Core)
    requires next.blocks == core.blocks
    ensures forall i :: CallAt(next, i) <==> CallAt(core, i)
  {
  }

  lemma EndsLater(output: seq<Fragment>, more: seq<Fragment>, value: Json, refused: bool, called: bool)
    requires LastUsage(output).None? && Ends(more, value, refused, called)
    ensures Ends(output + more, value, refused, called)
  {
    UsageConcat(output, more);
  }

  lemma RefusalFirst(codec: Codec, payloads: seq<Payload>)
    requires payloads != []
    ensures AnyRefusal(codec, payloads) <==>
            Typed(Parsed(codec, payloads[0]), "response.refusal.delta") || AnyRefusal(codec, payloads[1..])
  {
    hide Typed;
    hide Parsed;
    if k :| 0 <= k < |payloads| && Typed(Parsed(codec, payloads[k]), "response.refusal.delta") {
      assert k > 0 ==> payloads[1..][k - 1] == payloads[k];
    }
    if k :| 0 <= k < |payloads[1..]| && Typed(Parsed(codec, payloads[1..][k]), "response.refusal.delta") {
      assert payloads[k + 1] == payloads[1..][k];
    }
  }

  /**
   The end of every Responses run that reached one: the stop reason and the usage are those of the last payload,
   and a run that was not cut off stopped for a refusal, else for its calls, else because it was complete.
   */
  lemma ResponsesRunEnds(codec: Codec, payloads: seq<Payload>)
    requires Run(DecoderMachine(Responses, codec), EMPTY_CORE, payloads).Ok?
    requires Run(DecoderMachine(Responses, codec), EMPTY_CORE, payloads).value.0.terminal
    ensures payloads != []
    ensures Ends(Run(DecoderMachine(Responses, codec), EMPTY_CORE, payloads).value.1,
                 Parsed(codec, payloads[|payloads| - 1]), AnyRefusal(codec, payloads),
                 exists i :: AnyCallAt(codec, payloads, i))
  {
    hide Run;
    hide Ends;
    hide AnyRefusal;
    hide AnyCallAt;
    LastPayloadEnds(codec, EMPTY_CORE, payloads);
    ResponsesRunSays(codec, EMPTY_CORE, payloads);
    var last := Run(DecoderMachine(Responses, codec), EMPTY_CORE, payloads).value.0;
    assert forall i: nat :: !CallAt(EMPTY_CORE, i);
    assert (exists i :: CallAt(last, i)) <==> (exists i :: AnyCallAt(codec, payloads, i)) by {
      hide CallAt;
      if i :| CallAt(last, i) {
        assert AnyCallAt(codec, payloads, i);
      }
      if i :| AnyCallAt(codec, payloads, i) {
        assert CallAt(last, i);
      }
    }
  }
}
