/** The Chat Completions event machine. */
module ChatEvents {
  import opened Wrappers
  import opened Json
  import opened History
  import opened Provider

  function ChatUsage(usage: Json): Result<Usage, ErrorKind> {
    var input :- OptionalCount(OrElse(usage.Get("prompt_tokens"), usage.Get("input_tokens")));
    var output :- OptionalCount(OrElse(usage.Get("completion_tokens"), usage.Get("output_tokens")));
    var cached :- OptionalCount(
      OrElse(usage.At("prompt_tokens_details").Get("cached_tokens"),
             OrElse(usage.At("input_tokens_details").Get("cached_tokens"), usage.Get("prompt_cache_hit_tokens"))));
    if input.None? || output.None? then Err(ResponseInvalid)
    else Ok(Usage(input.value, output.value, cached))
  }

  function CallDelta(call: Json): Result<Fragment, ErrorKind> {
    var index :- EventIndex(call, "index");
    var id :- OptionalString(call.Get("id"));
    var name :- OptionalString(call.At("function").Get("name"));
    var arguments :- OptionalString(call.At("function").Get("arguments"));
    Ok(ToolCallDelta(index, id, name, arguments.GetOr("")))
  }

  function CallDeltas(calls: seq<Json>): (r: Result<seq<Fragment>, ErrorKind>)
    ensures r.Ok? ==> |r.value| == |calls| && forall k :: 0 <= k < |r.value| ==> r.value[k].ToolCallDelta?
  {
    if calls == [] then Ok([])
    else
      var first :- CallDelta(calls[0]);
      var rest :- CallDeltas(calls[1..]);
      Ok([first] + rest)
  }

  /** A field that a delta may still carry after `finish_reason`. */
  predicate EmptyField(key: string, value: Json) {
    if key in {"content", "reasoning", "reasoning_content"} then value == Null || value == Str("")
    else if key == "role" then value == Null || value == Str("assistant")
    else if key == "tool_calls" then value == Null || value == Arr([])
    else value == Null
  }

  predicate EmptyDelta(delta: Option<Json>) {
    && delta.Some?
    && delta.value.Obj?
    && forall key :: key in delta.value.fields ==> EmptyField(key, delta.value.fields[key])
  }

  function FinishReason(choice: Json): Result<Option<StopReason>, ErrorKind> {
    match NonNull(choice.Get("finish_reason"))
    case None => Ok(None)
    case Some(Str(text)) => Ok(Some(ToStopReason(text)))
    case Some(_) => Err(ResponseInvalid)
  }

  /** The deltas of a choice, each present and non-null field in turn. */
  function DeltaFragments(delta: Json): Result<seq<Fragment>, ErrorKind> {
    var reasoning :- OptionalString(NonNull(OrElse(delta.Get("reasoning_content"), delta.Get("reasoning"))));
    var content :- OptionalString(NonNull(delta.Get("content")));
    var calls :- match NonNull(delta.Get("tool_calls"))
                 case None => Ok([])
                 case Some(Arr(items)) => CallDeltas(items)
                 case Some(_) => Err(ResponseInvalid);
    Ok((if reasoning.Some? then [Reasoning(reasoning.value)] else []) +
       (if content.Some? then [Content(content.value)] else []) + calls)
  }

  function ChoiceEvent(core: Core, choice: Json): StepResult {
    if choice.Get("index").Some? && choice.Get("index").value.AsU64() != Some(0) then Err(ResponseInvalid)
    else
      var delta := OrElse(choice.Get("delta"), choice.Get("message"));
      var reason :- FinishReason(choice);
      var begun := core.(started := true);
      if core.reason.Some? then
        if !EmptyDelta(delta) || (reason.Some? && reason != core.reason) then Err(ResponseInvalid)
        else Ok((begun, []))
      else if delta.None? then Err(ResponseInvalid)
      else
        var output :- DeltaFragments(delta.value);
        Ok((begun.(reason := reason), output))
  }

  function ChatEvent(core: Core, value: Json): StepResult {
    if value.Get("error").Some? then Err(ResponseInvalid)
    else
      var usage :- match NonNull(value.Get("usage"))
                   case None => Ok([])
                   case Some(found) => (var usage :- ChatUsage(found); Ok([UsageUpdate(usage)]));
      var choices :- OrInvalid(value.At("choices").AsArray());
      if |choices| > 1 then Err(ResponseInvalid)
      else if choices == [] then Ok((core, usage))
      else
        var (next, output) :- ChoiceEvent(core, choices[0]);
        Ok((next, usage + output))
  }
}
