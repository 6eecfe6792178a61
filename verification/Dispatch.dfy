/** The decoder's dispatch: one machine for each of the three formats. */
module Dispatch {
  import opened Wrappers
  import opened Json
  import opened History
  import opened Sse
  import opened Provider
  import ChatEvents
  import MessagesEvents
  import ResponsesEvents

  const DONE: seq<byte> := [91, 68, 79, 78, 69, 93]

  function ChatDone(core: Core): StepResult {
    if !core.started || core.reason.None? then Err(ResponseIncomplete)
    else Ok((core.(terminal := true), [Finished(core.reason.value)]))
  }

  /** An event of a format whose payloads carry their type. */
  function TypedEvent(format: ApiFormat, codec: Codec, core: Core, event: seq<byte>, value: Json): StepResult {
    var kind :- EventString(value, "type");
    if (event != [] && codec.text(event) != Some(kind)) || kind == "error" || kind == "response.failed" then
      Err(ResponseInvalid)
    else if format.Messages? then MessagesEvents.MessagesEvent(codec, core, MessagesEvents.KindOf(kind), value)
    else ResponsesEvents.ResponsesEvent(core, ResponsesEvents.KindOf(kind), value)
  }

  function Step(format: ApiFormat, codec: Codec, core: Core, payload: Payload): StepResult {
    if core.terminal then Err(ResponseInvalid)
    else if format.ChatCompletions? && payload.data == DONE then ChatDone(core)
    else
      var value :- OrInvalid(codec.parse(payload.data));
      if format.ChatCompletions? then ChatEvents.ChatEvent(core, value)
      else TypedEvent(format, codec, core, payload.event, value)
  }

  function DecoderMachine(format: ApiFormat, codec: Codec): Machine<Core, Fragment> {
    Machine((core, payload) => Step(format, codec, core, payload),
            (core: Core) => core.terminal,
            name => codec.text(name).Some?)
  }
}
