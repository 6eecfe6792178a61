/** What a Chat Completions stream says: the fragments of every successful run, read off the JSON of its payloads. */
module ChatStream {
  import opened Wrappers
  import opened Json
  import opened History
  import opened Sequences
  import opened Sse
  import opened Provider
  import opened Dispatch
  import opened StreamText
  import opened ResponseContents
  import opened StreamReading
  import opened ChatEvents
  import DecoderProperties

  /** The object in a payload; the final `[DONE]` has none. */
  function Parsed(codec: Codec, payload: Payload): Json {
    if payload.data == [91, 68, 79, 78, 69, 93] then Null else codec.parse(payload.data).GetOr(Null)
  }

  /** The one choice of an object, if any. */
  function Choice(value: Json): Json {
    var choices := value.At("choices");
    if choices.Arr? && choices.items != [] then choices.items[0] else Null
  }

  /** Its `delta`, or else its `message`. */
  function Delta(value: Json): Json {
    if Has(Choice(value), "delta") then Choice(value).At("delta") else Choice(value).At("message")
  }

  function Answer(value: Json): string {
    TextAt(Delta(value), "content")
  }

  /** `reasoning_content`, or else `reasoning`. */
  function Thought(value: Json): string {
    if Has(Delta(value), "reasoning_content") then TextAt(Delta(value), "reasoning_content")
    else TextAt(Delta(value), "reasoning")
  }

  function Calls(value: Json): seq<Json> {
    if Delta(value).At("tool_calls").Arr? then Delta(value).At("tool_calls").items else []
  }

  /** What one entry of `tool_calls` adds to a field of the call at an index. */
  function EntryText(call: Json, index: nat, field: CallField): string {
    if call.At("index") != Int(index) then ""
    else
      match field
      case IdField => TextAt(call, "id")
      case NameField => TextAt(call.At("function"), "name")
      case ArgumentsField => TextAt(call.At("function"), "arguments")
  }

  function EntriesText(calls: seq<Json>, index: nat, field: CallField): string {
    if calls == [] then "" else EntryText(calls[0], index, field) + EntriesText(calls[1..], index, field)
  }

  predicate Named(calls: seq<Json>, index: nat) {
    exists k :: 0 <= k < |calls| && calls[k].At("index") == Int(index)
  }

  function Answers(codec: Codec, payloads: seq<Payload>): string {
    if payloads == [] then "" else Answer(Parsed(codec, payloads[0])) + Answers(codec, payloads[1..])
  }

  function Thoughts(codec: Codec, payloads: seq<Payload>): string {
    if payloads == [] then "" else Thought(Parsed(codec, payloads[0])) + Thoughts(codec, payloads[1..])
  }

  function CallTexts(codec: Codec, payloads: seq<Payload>, index: nat, field: CallField): string {
    if payloads == [] then ""
    else EntriesText(Calls(Parsed(codec, payloads[0])), index, field) + CallTexts(codec, payloads[1..], index, field)
  }

  predicate AnyNamed(codec: Codec, payloads: seq<Payload>, index: nat) {
    exists k :: 0 <= k < |payloads| && Named(Calls(Parsed(codec, payloads[k])), index)
  }

  // ---------------------------------------------------------------- the text and calls of one event

  ghost predicate SaysCalls(output: seq<Fragment>, calls: seq<Json>) {
    && (forall index: nat, field :: CallText(output, index, field) == EntriesText(calls, index, field))
    && (forall index: nat :: index in CallIndices(output) <==> Named(calls, index))
  }

  lemma {:induction false} CallDeltasSay(calls: seq<Json>)
    requires CallDeltas(calls).Ok?
    ensures SaysCalls(CallDeltas(calls).value, calls)
  {
    if calls != [] {
      var first, rest := CallDelta(calls[0]).value, CallDeltas(calls[1..]).value;
      CallDeltasSay(calls[1..]);
      CallDeltaSays(calls[0]);
      hide CallDelta;
      forall index: nat, field ensures CallText([first] + rest, index, field) == EntriesText(calls, index, field) {
        CallTextConcat([first], rest, index, field);
        OneOf(first, index, field);
      }
      IndicesConcat([first], rest);
      OneOf(first, 0, IdField);
      forall index: nat ensures index in CallIndices([first] + rest) <==> Named(calls, index) {
        NamedFirst(calls, index);
      }
    }
  }

  lemma NamedFirst(calls: seq<Json>, index: nat)
    requires calls != []
    ensures Named(calls, index) <==> calls[0].At("index") == Int(index) || Named(calls[1..], index)
  {
    if k :| 0 <= k < |calls| && calls[k].At("index") == Int(index) {
      assert k > 0 ==> calls[1..][k - 1] == calls[k];
    }
    if k :| 0 <= k < |calls[1..]| && calls[1..][k].At("index") == Int(index) {
      assert calls[k + 1].At("index") == Int(index);
    }
  }

  lemma CallDeltaSays(call: Json)
    requires CallDelta(call).Ok?
    ensures var f := CallDelta(call).value;
            && f.ToolCallDelta?
            && (forall index: nat :: f.index == index <==> call.At("index") == Int(index))
            && forall index: nat, field :: CallPiece(f, index, field) == EntryText(call, index, field)
  {
  }

  /** What the fragments of an object say of its delta. */
  ghost predicate Says(output: seq<Fragment>, value: Json) {
    && ContentOf(output) == Answer(value)
    && ReasoningOf(output) == Thought(value)
    && SaysCalls(output, Calls(value))
  }

  lemma DeltaSays(delta: Json)
    requires DeltaFragments(delta).Ok?
    ensures var output := DeltaFragments(delta).value;
            var calls := if delta.At("tool_calls").Arr? then delta.At("tool_calls").items else [];
            && ContentOf(output) == TextAt(delta, "content")
            && ReasoningOf(output) == (if Has(delta, "reasoning_content") then TextAt(delta, "reasoning_content")
                                       else TextAt(delta, "reasoning"))
            && SaysCalls(output, calls)
  {
    var reasoning := OptionalString(NonNull(OrElse(delta.Get("reasoning_content"), delta.Get("reasoning")))).value;
    var content := OptionalString(NonNull(delta.Get("content"))).value;
    var items := if delta.At("tool_calls").Arr? then delta.At("tool_calls").items else [];
    var calls := if items == [] then [] else CallDeltas(items).value;
    var thought := if reasoning.Some? then [Reasoning(reasoning.value)] else [];
    var answer := if content.Some? then [Content(content.value)] else [];
    assert DeltaFragments(delta).value == thought + answer + calls;
    assert CallDeltas([]) == Ok([]);
    CallDeltasSay(items);
    assert CallDeltas(items) == Ok(calls);
    hide CallDeltas;
    hide DeltaFragments;
    TextsSay(thought, answer, calls);
    CallsSay(thought + answer, calls, items);
  }

  lemma TextsSay(thought: seq<Fragment>, answer: seq<Fragment>, calls: seq<Fragment>)
    requires thought == [] || (|thought| == 1 && thought[0].Reasoning?)
    requires answer == [] || (|answer| == 1 && answer[0].Content?)
    requires forall k :: 0 <= k < |calls| ==> calls[k].ToolCallDelta?
    ensures ContentOf(thought + answer + calls) == if answer == [] then "" else answer[0].text
    ensures ReasoningOf(thought + answer + calls) == if thought == [] then "" else thought[0].text
  {
    TextConcat(thought + answer, calls);
    TextConcat(thought, answer);
    NoText(calls);
    if thought != [] {
      assert thought == [Reasoning(thought[0].text)];
      OneText(thought[0].text);
    }
    if answer != [] {
      assert answer == [Content(answer[0].text)];
      OneText(answer[0].text);
    }
  }

  lemma CallsSay(texts: seq<Fragment>, calls: seq<Fragment>, items: seq<Json>)
    requires forall k :: 0 <= k < |texts| ==> !texts[k].ToolCallDelta?
    requires SaysCalls(calls, items)
    ensures SaysCalls(texts + calls, items)
  {
    NoCallPieces(texts);
    IndicesConcat(texts, calls);
    forall index: nat, field ensures CallText(texts + calls, index, field) == EntriesText(items, index, field) {
      CallTextConcat(texts, calls, index, field);
      Unit(CallText(calls, index, field));
    }
  }

  /** After the finish reason a delta is empty and says nothing. */
  lemma EmptyDeltaSays(delta: Json)
    requires EmptyDelta(Some(delta))
    ensures TextAt(delta, "content") == ""
    ensures TextAt(delta, "reasoning_content") == "" && TextAt(delta, "reasoning") == ""
    ensures !delta.At("tool_calls").Arr? || delta.At("tool_calls").items == []
  {
  }

  lemma NothingSays()
    ensures ContentOf([]) == "" && ReasoningOf([]) == "" && SaysCalls([], [])
  {
  }

  lemma UsageSaysNothing(usage: seq<Fragment>, output: seq<Fragment>, items: seq<Json>)
    requires forall k :: 0 <= k < |usage| ==> usage[k].UsageUpdate?
    requires SaysCalls(output, items)
    ensures ContentOf(usage + output) == ContentOf(output) && ReasoningOf(usage + output) == ReasoningOf(output)
    ensures SaysCalls(usage + output, items)
  {
    TextConcat(usage, output);
    NoText(usage);
    Unit(ContentOf(output));
    Unit(ReasoningOf(output));
    CallsSay(usage, output, items);
  }

  lemma ChoiceSays(core: Core, value: Json)
    requires value.At("choices").Arr? && value.At("choices").items != []
    requires ChoiceEvent(core, Choice(value)).Ok?
    ensures Says(ChoiceEvent(core, Choice(value)).value.1, value)
  {
    hide SaysCalls;
    hide DeltaFragments;
    if core.reason.Some? {
      EmptyDeltaSays(Delta(value));
      NothingSays();
    } else {
      DeltaSays(Delta(value));
    }
  }

  /** One Chat event says exactly what its delta does. */
  lemma EventSays(core: Core, value: Json)
    requires ChatEvent(core, value).Ok?
    ensures Says(ChatEvent(core, value).value.1, value)
  {
    hide SaysCalls;
    hide ChoiceEvent;
    hide ChatUsage;
    var choices := value.At("choices").items;
    var output := ChatEvent(core, value).value.1;
    if choices == [] {
      NothingSays();
      UsageSaysNothing(output, [], []);
      Unit(output);
      assert Delta(value) == Null;
    } else {
      ChoiceSays(core, value);
      var said := ChoiceEvent(core, choices[0]).value.1;
      var usage := output[..|output| - |said|];
      assert output == usage + said;
      UsageSaysNothing(usage, said, Calls(value));
    }
  }

  lemma StepSays(codec: Codec, core: Core, payload: Payload)
    requires Step(ChatCompletions, codec, core, payload).Ok?
    ensures Says(Step(ChatCompletions, codec, core, payload).value.1, Parsed(codec, payload))
  {
    hide ChatEvent;
    hide SaysCalls;
    if payload.data == DONE {
      DoneSays(core);
    } else {
      EventSays(core, codec.parse(payload.data).value);
    }
  }

  lemma DoneSays(core: Core)
    requires ChatDone(core).Ok?
    ensures Says(ChatDone(core).value.1, Null)
  {
    var output := ChatDone(core).value.1;
    NoText(output);
    NoCallPieces(output);
  }

  /**
   Every successful Chat run: its answer, its reasoning and, at each index, the id, name and arguments of its calls
   are the concatenations of these fields over its payloads, in order.
   */
  lemma {:induction false} ChatRunSays(codec: Codec, core: Core, payloads: seq<Payload>)
    requires Run(DecoderMachine(ChatCompletions, codec), core, payloads).Ok?
    ensures var output := Run(DecoderMachine(ChatCompletions, codec), core, payloads).value.1;
            && ContentOf(output) == Answers(codec, payloads)
            && ReasoningOf(output) == Thoughts(codec, payloads)
            && (forall index: nat, field :: CallText(output, index, field) == CallTexts(codec, payloads, index, field))
            && (forall index: nat :: index in CallIndices(output) <==> AnyNamed(codec, payloads, index))
    decreases |payloads|
  {
    hide Step;
    hide Answer;
    hide Thought;
    hide Calls;
    hide Parsed;
    if payloads == [] {
      NothingSays();
    } else {
      StepSays(codec, core, payloads[0]);
      var (next, output) := Step(ChatCompletions, codec, core, payloads[0]).value;
      ChatRunSays(codec, next, payloads[1..]);
      var more := Run(DecoderMachine(ChatCompletions, codec), next, payloads[1..]).value.1;
      TextConcat(output, more);
      IndicesConcat(output, more);
      forall index: nat, field
        ensures CallText(output + more, index, field) == CallTexts(codec, payloads, index, field)
      {
        CallTextConcat(output, more, index, field);
      }
      forall index: nat ensures index in CallIndices(output + more) <==> AnyNamed(codec, payloads, index) {
        AnyNamedFirst(codec, payloads, index);
      }
    }
  }

  lemma AnyNamedFirst(codec: Codec, payloads: seq<Payload>, index: nat)
    requires payloads != []
    ensures AnyNamed(codec, payloads, index) <==>
            Named(Calls(Parsed(codec, payloads[0])), index) || AnyNamed(codec, payloads[1..], index)
  {
    hide Named;
    hide Calls;
    hide Parsed;
    if k :| 0 <= k < |payloads| && Named(Calls(Parsed(codec, payloads[k])), index) {
      assert k > 0 ==> payloads[1..][k - 1] == payloads[k];
    }
    if k :| 0 <= k < |payloads[1..]| && Named(Calls(Parsed(codec, payloads[1..][k])), index) {
      assert payloads[k + 1] == payloads[1..][k];
    }
  }

  // ---------------------------------------------------------------- the stop reason and the usage

  /** The text of the first `finish_reason`. */
  function StopText(codec: Codec, payloads: seq<Payload>): Option<string> {
    if payloads == [] then None
    else
      var reason := Choice(Parsed(codec, payloads[0])).At("finish_reason");
      if reason.Str? then Some(reason.text) else StopText(codec, payloads[1..])
  }

  lemma StepReason(codec: Codec, core: Core, payload: Payload)
    requires Step(ChatCompletions, codec, core, payload).Ok?
    ensures var next := Step(ChatCompletions, codec, core, payload).value.0;
            var reason := Choice(Parsed(codec, payload)).At("finish_reason");
            && (core.reason.Some? ==> next.reason == core.reason)
            && (core.reason.None? && reason.Str? ==> next.reason.Some? && Means(reason.text, next.reason.value))
            && (core.reason.None? && !reason.Str? ==> next.reason.None?)
  {
    hide DeltaFragments;
    hide EmptyDelta;
    hide ChatUsage;
    var reason := Choice(Parsed(codec, payload)).At("finish_reason");
    if reason.Str? {
      ReasonMeans(reason.text);
    }
    hide ToStopReason;
    hide Means;
  }

  /** The stop reason of a run is what its first `finish_reason` means. */
  lemma {:induction false} ChatRunStops(codec: Codec, core: Core, payloads: seq<Payload>)
    requires Run(DecoderMachine(ChatCompletions, codec), core, payloads).Ok?
    ensures var last := Run(DecoderMachine(ChatCompletions, codec), core, payloads).value.0;
            if core.reason.Some? then last.reason == core.reason
            else match StopText(codec, payloads)
                 case None => last.reason.None?
                 case Some(text) => last.reason.Some? && Means(text, last.reason.value)
    decreases |payloads|
  {
    hide Step;
    hide Means;
    hide Parsed;
    hide Choice;
    if payloads != [] {
      StepReason(codec, core, payloads[0]);
      ChatRunStops(codec, Step(ChatCompletions, codec, core, payloads[0]).value.0, payloads[1..]);
    }
  }

  lemma StepTerminal(codec: Codec, core: Core, payload: Payload)
    requires Step(ChatCompletions, codec, core, payload).Ok?
    ensures var (next, output) := Step(ChatCompletions, codec, core, payload).value;
            && !core.terminal
            && (next.terminal ==> next.reason.Some? && output == [Finished(next.reason.value)])
  {
    hide ChatUsage;
    hide DeltaFragments;
    hide EmptyDelta;
  }

  /** A run that reached its end emitted its stop reason last. */
  lemma {:induction false} ChatRunFinishes(codec: Codec, core: Core, payloads: seq<Payload>)
    requires !core.terminal && Run(DecoderMachine(ChatCompletions, codec), core, payloads).Ok?
    ensures var (last, output) := Run(DecoderMachine(ChatCompletions, codec), core, payloads).value;
            last.terminal ==>
              last.reason.Some? && output != [] && output[|output| - 1] == Finished(last.reason.value)
    decreases |payloads|
  {
    hide Step;
    if payloads != [] {
      StepTerminal(codec, core, payloads[0]);
      var (next, output) := Step(ChatCompletions, codec, core, payloads[0]).value;
      if next.terminal {
        DecoderProperties.TerminalEndsRun(ChatCompletions, codec, next, payloads[1..]);
        Unit(output);
      } else {
        ChatRunFinishes(codec, next, payloads[1..]);
      }
    }
  }

  /** The usage that an object reports, if any: the first of the known names of each count. */
  function Reported(value: Json): Option<Usage> {
    var usage := value.At("usage");
    if usage == Null then None
    else
      var input := if Has(usage, "prompt_tokens") then CountAt(usage, "prompt_tokens")
                   else CountAt(usage, "input_tokens");
      var output := if Has(usage, "completion_tokens") then CountAt(usage, "completion_tokens")
                    else CountAt(usage, "output_tokens");
      var cached := if Has(usage.At("prompt_tokens_details"), "cached_tokens")
                    then CountAt(usage.At("prompt_tokens_details"), "cached_tokens")
                    else if Has(usage.At("input_tokens_details"), "cached_tokens")
                    then CountAt(usage.At("input_tokens_details"), "cached_tokens")
                    else CountAt(usage, "prompt_cache_hit_tokens");
      if input.Some? && output.Some? && input.value >= 0 && output.value >= 0 && (cached.Some? ==> cached.value >= 0)
      then Some(Usage(input.value, output.value, if cached.Some? then Some(cached.value) else None))
      else None
  }

  function LastReported(codec: Codec, payloads: seq<Payload>): Option<Usage> {
    if payloads == [] then None
    else
      var later := LastReported(codec, payloads[1..]);
      if later.Some? then later else Reported(Parsed(codec, payloads[0]))
  }

  lemma StepUsage(codec: Codec, core: Core, payload: Payload)
    requires Step(ChatCompletions, codec, core, payload).Ok?
    ensures LastUsage(Step(ChatCompletions, codec, core, payload).value.1) == Reported(Parsed(codec, payload))
  {
    var output := Step(ChatCompletions, codec, core, payload).value.1;
    if payload.data == DONE {
      NoUsage(output);
    } else {
      EventUsage(core, codec.parse(payload.data).value);
    }
  }

  lemma EventUsage(core: Core, value: Json)
    requires ChatEvent(core, value).Ok?
    ensures LastUsage(ChatEvent(core, value).value.1) == Reported(value)
  {
    var usage := NonNull(value.Get("usage"));
    var first := if usage.None? then [] else [UsageUpdate(ChatUsage(usage.value).value)];
    var choices := value.At("choices").items;
    var output := if choices == [] then [] else ChoiceEvent(core, choices[0]).value.1;
    Unit(first);
    assert ChatEvent(core, value).value.1 == first + output;
    if choices != [] {
      ChoiceHasNoUsage(core, choices[0]);
    }
    hide ChoiceEvent;
    NoUsage(output);
    UsageConcat(first, output);
    assert first != [] ==> first[..0] == [];
    if usage.Some? {
      UsageRead(usage.value);
    }
    hide ChatUsage;
  }

  lemma ChoiceHasNoUsage(core: Core, choice: Json)
    requires ChoiceEvent(core, choice).Ok?
    ensures var output := ChoiceEvent(core, choice).value.1;
            forall k :: 0 <= k < |output| ==> !output[k].UsageUpdate?
  {
    hide EmptyDelta;
  }

  lemma UsageRead(usage: Json)
    requires usage != Null && ChatUsage(usage).Ok?
    ensures Reported(Obj(map["usage" := usage])) == Some(ChatUsage(usage).value)
  {
  }

  /** The usage of a run is the last that its payloads report. */
  lemma {:induction false} ChatRunUses(codec: Codec, core: Core, payloads: seq<Payload>)
    requires Run(DecoderMachine(ChatCompletions, codec), core, payloads).Ok?
    ensures LastUsage(Run(DecoderMachine(ChatCompletions, codec), core, payloads).value.1) ==
            LastReported(codec, payloads)
    decreases |payloads|
  {
    hide Step;
    hide Reported;
    hide Parsed;
    if payloads != [] {
      StepUsage(codec, core, payloads[0]);
      var (next, output) := Step(ChatCompletions, codec, core, payloads[0]).value;
      ChatRunUses(codec, next, payloads[1..]);
      UsageConcat(output, Run(DecoderMachine(ChatCompletions, codec), next, payloads[1..]).value.1);
    }
  }
}
