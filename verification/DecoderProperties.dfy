/** What every successful decoding emits, whatever the format. */
module DecoderProperties {
  import opened Wrappers
  import opened Json
  import opened History
  import opened Sse
  import opened Provider
  import opened Dispatch
  import ChatEvents
  import MessagesEvents
  import ResponsesEvents

  // ---------------------------------------------------------------- one `Finished`, and last

  ghost predicate NoFinished(fragments: seq<Fragment>) {
    forall k :: 0 <= k < |fragments| ==> !fragments[k].Finished?
  }

  /** Exactly one `Finished`, as the last fragment. */
  ghost predicate EndsFinished(fragments: seq<Fragment>) {
    && fragments != []
    && fragments[|fragments| - 1].Finished?
    && NoFinished(fragments[..|fragments| - 1])
  }

  ghost predicate FinishedIff(terminal: bool, fragments: seq<Fragment>) {
    if terminal then EndsFinished(fragments) else NoFinished(fragments)
  }

  lemma ChatFinished(core: Core, value: Json)
    requires !core.terminal && ChatEvents.ChatEvent(core, value).Ok?
    ensures !ChatEvents.ChatEvent(core, value).value.0.terminal
    ensures NoFinished(ChatEvents.ChatEvent(core, value).value.1)
  {
  }

  lemma MessagesFinished(codec: Codec, core: Core, kind: MessagesEvents.Kind, value: Json)
    requires !core.terminal && MessagesEvents.MessagesEvent(codec, core, kind, value).Ok?
    ensures var (next, output) := MessagesEvents.MessagesEvent(codec, core, kind, value).value;
            FinishedIff(next.terminal, output)
  {
    hide MessagesEvents.UsageEvent;
    if kind.BlockStart? {
      var index := EventIndex(value, "index").value;
      OpeningEmitsNoFinished(codec, index, value.At("content_block"));
    } else if kind.BlockDelta? {
      var (index, block) := MessagesEvents.OpenBlockAt(core, value).value;
      DeltaEmitsNoFinished(block, index, value.At("delta"));
    }
    hide MessagesEvents.OpenBlock;
    hide MessagesEvents.DeltaEvent;
  }

  lemma OpeningEmitsNoFinished(codec: Codec, index: nat, block: Json)
    requires MessagesEvents.OpenBlock(codec, index, block).Ok?
    ensures NoFinished(MessagesEvents.OpenBlock(codec, index, block).value.1)
  {
  }

  lemma DeltaEmitsNoFinished(block: Block, index: nat, delta: Json)
    requires MessagesEvents.DeltaEvent(block, index, delta).Ok?
    ensures NoFinished(MessagesEvents.DeltaEvent(block, index, delta).value.1)
  {
  }

  lemma ResponsesFinished(core: Core, kind: ResponsesEvents.Kind, value: Json)
    requires !core.terminal && ResponsesEvents.ResponsesEvent(core, kind, value).Ok?
    ensures var (next, output) := ResponsesEvents.ResponsesEvent(core, kind, value).value;
            FinishedIff(next.terminal, output)
  {
    if kind.Terminated? {
      ResponsesTerminated(core, kind, value);
    } else {
      ResponsesGoesOn(core, kind, value);
    }
  }

  lemma ResponsesTerminated(core: Core, kind: ResponsesEvents.Kind, value: Json)
    requires kind.Terminated? && ResponsesEvents.ResponsesEvent(core, kind, value).Ok?
    ensures var (next, output) := ResponsesEvents.ResponsesEvent(core, kind, value).value;
            next.terminal && EndsFinished(output)
  {
    var usage := ResponsesEvents.TerminalUsage(value.At("response")).value;
    var output := ResponsesEvents.ResponsesEvent(core, kind, value).value.1;
    assert output[..|output| - 1] == usage;
  }

  lemma ResponsesGoesOn(core: Core, kind: ResponsesEvents.Kind, value: Json)
    requires !core.terminal && !kind.Terminated? && ResponsesEvents.ResponsesEvent(core, kind, value).Ok?
    ensures var (next, output) := ResponsesEvents.ResponsesEvent(core, kind, value).value;
            !next.terminal && NoFinished(output)
  {
    hide ResponsesEvents.Agrees;
    hide ResponsesEvents.ReplayItem;
    hide ResponsesEvents.TerminalReason;
    hide ResponsesEvents.TerminalUsage;
    if kind.ItemAdded? {
      var index := EventIndex(value, "output_index").value;
      ItemEmitsNoFinished(index, value.At("item"));
    }
    hide ResponsesEvents.OpenItem;
  }

  lemma ItemEmitsNoFinished(index: nat, item: Json)
    requires ResponsesEvents.OpenItem(index, item).Ok?
    ensures NoFinished(ResponsesEvents.OpenItem(index, item).value.1)
  {
  }

  lemma StepFinished(format: ApiFormat, codec: Codec, core: Core, payload: Payload)
    requires Step(format, codec, core, payload).Ok?
    ensures !core.terminal
    ensures FinishedIff(Step(format, codec, core, payload).value.0.terminal, Step(format, codec, core, payload).value.1)
  {
    if format.ChatCompletions? {
      if payload.data != DONE {
        ChatFinished(core, codec.parse(payload.data).value);
      }
    } else {
      var value := codec.parse(payload.data).value;
      var kind := EventString(value, "type").value;
      if format.Messages? {
        MessagesFinished(codec, core, MessagesEvents.KindOf(kind), value);
      } else {
        ResponsesFinished(core, ResponsesEvents.KindOf(kind), value);
      }
    }
  }

  lemma FinishedAfter(output: seq<Fragment>, terminal: bool, more: seq<Fragment>)
    requires NoFinished(output) && FinishedIff(terminal, more)
    ensures FinishedIff(terminal, output + more)
  {
    if terminal {
      assert (output + more)[..|output + more| - 1] == output + more[..|more| - 1];
    }
  }

  /** Nothing may follow a terminal event. */
  lemma TerminalEndsRun(format: ApiFormat, codec: Codec, core: Core, payloads: seq<Payload>)
    requires core.terminal && Run(DecoderMachine(format, codec), core, payloads).Ok?
    ensures payloads == []
  {
  }

  lemma {:induction false} RunFinished(format: ApiFormat, codec: Codec, core: Core, payloads: seq<Payload>)
    requires !core.terminal && Run(DecoderMachine(format, codec), core, payloads).Ok?
    ensures var (last, output) := Run(DecoderMachine(format, codec), core, payloads).value;
            FinishedIff(last.terminal, output)
    decreases |payloads|
  {
    if payloads != [] {
      hide Step;
      StepFinished(format, codec, core, payloads[0]);
      var (next, output) := Step(format, codec, core, payloads[0]).value;
      var rest := Run(DecoderMachine(format, codec), next, payloads[1..]).value;
      if next.terminal {
        TerminalEndsRun(format, codec, next, payloads[1..]);
        assert output + rest.1 == output;
      } else {
        RunFinished(format, codec, next, payloads[1..]);
        FinishedAfter(output, rest.0.terminal, rest.1);
      }
    }
  }

  /** Every successful decoding emits exactly one `Finished`, as its last fragment. */
  lemma DecodingEndsFinished(format: ApiFormat, codec: Codec, chunks: seq<seq<byte>>)
    requires Decode(DecoderMachine(format, codec), EMPTY_CORE, chunks).Ok?
    ensures EndsFinished(Decode(DecoderMachine(format, codec), EMPTY_CORE, chunks).value)
  {
    var last := DecodeIsRun(DecoderMachine(format, codec), EMPTY_CORE, chunks);
    RunFinished(format, codec, EMPTY_CORE, StreamPayloads(DecoderMachine(format, codec), EMPTY_CORE, Joined(chunks)));
  }

  // ---------------------------------------------------------------- nothing after the stop reason

  predicate OnlyAccounting(fragments: seq<Fragment>) {
    forall k :: 0 <= k < |fragments| ==> fragments[k].UsageUpdate? || fragments[k].Finished?
  }

  /** In the Messages format a stop reason is only recorded once every block is closed. */
  ghost predicate Settled(format: ApiFormat, core: Core) {
    format.Messages? && core.reason.Some? ==> AllClosed(core)
  }

  lemma MessagesSettled(codec: Codec, core: Core, kind: MessagesEvents.Kind, value: Json)
    requires Settled(Messages, core) && MessagesEvents.MessagesEvent(codec, core, kind, value).Ok?
    ensures var (next, output) := MessagesEvents.MessagesEvent(codec, core, kind, value).value;
            && Settled(Messages, next)
            && (core.reason.Some? ==> next.reason == core.reason && OnlyAccounting(output))
  {
  }

  lemma StepSettled(format: ApiFormat, codec: Codec, core: Core, payload: Payload)
    requires Settled(format, core) && Step(format, codec, core, payload).Ok? && !format.Responses?
    ensures var (next, output) := Step(format, codec, core, payload).value;
            && Settled(format, next)
            && (core.reason.Some? ==> next.reason == core.reason && OnlyAccounting(output))
  {
    if format.Messages? {
      var value := codec.parse(payload.data).value;
      MessagesSettled(codec, core, MessagesEvents.KindOf(EventString(value, "type").value), value);
    }
  }

  lemma {:induction false} RunSettled(format: ApiFormat, codec: Codec, core: Core, payloads: seq<Payload>)
    requires Settled(format, core) && !format.Responses?
    requires Run(DecoderMachine(format, codec), core, payloads).Ok?
    ensures var (last, output) := Run(DecoderMachine(format, codec), core, payloads).value;
            && Settled(format, last)
            && (core.reason.Some? ==> last.reason == core.reason && OnlyAccounting(output))
    decreases |payloads|
  {
    if payloads != [] {
      hide Step;
      StepSettled(format, codec, core, payloads[0]);
      RunSettled(format, codec, Step(format, codec, core, payloads[0]).value.0, payloads[1..]);
    }
  }

  /**
   Once a Chat `finish_reason` or a Messages `message_delta` has given the stop reason, every later
   fragment is usage or the final `Finished`, and the reason never changes.
   */
  lemma NothingAfterReason(format: ApiFormat, codec: Codec, before: seq<Payload>, after: seq<Payload>)
    requires !format.Responses?
    requires Run(DecoderMachine(format, codec), EMPTY_CORE, before + after).Ok?
    requires Run(DecoderMachine(format, codec), EMPTY_CORE, before).Ok?
    requires Run(DecoderMachine(format, codec), EMPTY_CORE, before).value.0.reason.Some?
    ensures var m := DecoderMachine(format, codec);
            var sent, all := Run(m, EMPTY_CORE, before).value, Run(m, EMPTY_CORE, before + after).value;
            && sent.1 <= all.1
            && OnlyAccounting(all.1[|sent.1|..])
            && all.0.reason == sent.0.reason
  {
    var m := DecoderMachine(format, codec);
    RunConcat(m, EMPTY_CORE, before, after);
    RunSettled(format, codec, EMPTY_CORE, before);
    RunSettled(format, codec, Run(m, EMPTY_CORE, before).value.0, after);
  }

  // ---------------------------------------------------------------- every block is closed once

  /** Whether an event opens (or closes) the block at an index. */
  predicate Opens(format: ApiFormat, codec: Codec, payload: Payload, index: nat) {
    match codec.parse(payload.data)
    case None => false
    case Some(value) =>
      value.At("type").Str? &&
      match format
      case ChatCompletions => false
      case Messages =>
        MessagesEvents.KindOf(value.At("type").text).BlockStart? && EventIndex(value, "index") == Ok(index)
      case Responses =>
        ResponsesEvents.KindOf(value.At("type").text).ItemAdded? && EventIndex(value, "output_index") == Ok(index)
  }

  predicate Closes(format: ApiFormat, codec: Codec, payload: Payload, index: nat) {
    match codec.parse(payload.data)
    case None => false
    case Some(value) =>
      value.At("type").Str? &&
      match format
      case ChatCompletions => false
      case Messages =>
        MessagesEvents.KindOf(value.At("type").text).BlockStop? && EventIndex(value, "index") == Ok(index)
      case Responses =>
        ResponsesEvents.KindOf(value.At("type").text).ItemDone? && EventIndex(value, "output_index") == Ok(index)
  }

  function OpenCount(format: ApiFormat, codec: Codec, payloads: seq<Payload>, index: nat): nat {
    if payloads == [] then 0
    else (if Opens(format, codec, payloads[0], index) then 1 else 0) + OpenCount(format, codec, payloads[1..], index)
  }

  function CloseCount(format: ApiFormat, codec: Codec, payloads: seq<Payload>, index: nat): nat {
    if payloads == [] then 0
    else (if Closes(format, codec, payloads[0], index) then 1 else 0) + CloseCount(format, codec, payloads[1..], index)
  }

  predicate IsClosed(core: Core, index: nat) {
    index in core.blocks && core.blocks[index].closed
  }

  /** One event changes at most the block it names: opening a new one or closing an open one. */
  ghost predicate Tracks(core: Core, next: Core, index: nat, opens: bool, closes: bool) {
    && (opens ==> index !in core.blocks)
    && (closes ==> index in core.blocks && !IsClosed(core, index))
    && (index in next.blocks <==> index in core.blocks || opens)
    && (IsClosed(next, index) <==> IsClosed(core, index) || closes)
  }

  lemma MessagesTracks(codec: Codec, core: Core, kind: MessagesEvents.Kind, value: Json, index: nat)
    requires MessagesEvents.MessagesEvent(codec, core, kind, value).Ok?
    ensures Tracks(core, MessagesEvents.MessagesEvent(codec, core, kind, value).value.0, index,
                   kind.BlockStart? && EventIndex(value, "index") == Ok(index),
                   kind.BlockStop? && EventIndex(value, "index") == Ok(index))
  {
  }

  lemma ResponsesTracks(core: Core, kind: ResponsesEvents.Kind, value: Json, index: nat)
    requires ResponsesEvents.ResponsesEvent(core, kind, value).Ok?
    ensures Tracks(core, ResponsesEvents.ResponsesEvent(core, kind, value).value.0, index,
                   kind.ItemAdded? && EventIndex(value, "output_index") == Ok(index),
                   kind.ItemDone? && EventIndex(value, "output_index") == Ok(index))
  {
    hide ResponsesEvents.Agrees;
    hide ResponsesEvents.ReplayItem;
    hide ResponsesEvents.TerminalReason;
    hide ResponsesEvents.TerminalUsage;
  }

  lemma StepTracks(format: ApiFormat, codec: Codec, core: Core, payload: Payload, index: nat)
    requires Step(format, codec, core, payload).Ok? && !format.ChatCompletions?
    ensures Tracks(core, Step(format, codec, core, payload).value.0, index,
                   Opens(format, codec, payload, index), Closes(format, codec, payload, index))
  {
    var value := codec.parse(payload.data).value;
    var kind := EventString(value, "type").value;
    if format.Messages? {
      MessagesTracks(codec, core, MessagesEvents.KindOf(kind), value, index);
    } else {
      ResponsesTracks(core, ResponsesEvents.KindOf(kind), value, index);
    }
  }

  lemma {:induction false} RunTracks(format: ApiFormat, codec: Codec, core: Core, payloads: seq<Payload>, index: nat)
    requires !format.ChatCompletions? && Run(DecoderMachine(format, codec), core, payloads).Ok?
    ensures var last := Run(DecoderMachine(format, codec), core, payloads).value.0;
            && (if index in core.blocks then 1 else 0) + OpenCount(format, codec, payloads, index)
               == (if index in last.blocks then 1 else 0)
            && (if IsClosed(core, index) then 1 else 0) + CloseCount(format, codec, payloads, index)
               == (if IsClosed(last, index) then 1 else 0)
    decreases |payloads|
  {
    if payloads != [] {
      hide Step;
      hide Opens;
      hide Closes;
      StepTracks(format, codec, core, payloads[0], index);
      RunTracks(format, codec, Step(format, codec, core, payloads[0]).value.0, payloads[1..], index);
    }
  }

  ghost predicate TerminalClosed(format: ApiFormat, core: Core) {
    core.terminal && !format.ChatCompletions? ==> AllClosed(core)
  }

  lemma MessagesTerminalClosed(codec: Codec, core: Core, kind: MessagesEvents.Kind, value: Json)
    requires !core.terminal && MessagesEvents.MessagesEvent(codec, core, kind, value).Ok?
    ensures TerminalClosed(Messages, MessagesEvents.MessagesEvent(codec, core, kind, value).value.0)
  {
  }

  lemma ResponsesTerminalClosed(core: Core, kind: ResponsesEvents.Kind, value: Json)
    requires !core.terminal && ResponsesEvents.ResponsesEvent(core, kind, value).Ok?
    ensures TerminalClosed(Responses, ResponsesEvents.ResponsesEvent(core, kind, value).value.0)
  {
    hide ResponsesEvents.Agrees;
    hide ResponsesEvents.ReplayItem;
    hide ResponsesEvents.TerminalReason;
    hide ResponsesEvents.TerminalUsage;
  }

  lemma StepTerminalClosed(format: ApiFormat, codec: Codec, core: Core, payload: Payload)
    requires Step(format, codec, core, payload).Ok?
    ensures TerminalClosed(format, Step(format, codec, core, payload).value.0)
  {
    if !format.ChatCompletions? {
      var value := codec.parse(payload.data).value;
      var kind := EventString(value, "type").value;
      if format.Messages? {
        MessagesTerminalClosed(codec, core, MessagesEvents.KindOf(kind), value);
      } else {
        ResponsesTerminalClosed(core, ResponsesEvents.KindOf(kind), value);
      }
    }
  }

  lemma {:induction false} RunTerminalClosed(format: ApiFormat, codec: Codec, core: Core, payloads: seq<Payload>)
    requires TerminalClosed(format, core) && Run(DecoderMachine(format, codec), core, payloads).Ok?
    ensures TerminalClosed(format, Run(DecoderMachine(format, codec), core, payloads).value.0)
    decreases |payloads|
  {
    if payloads != [] {
      hide Step;
      StepTerminalClosed(format, codec, core, payloads[0]);
      RunTerminalClosed(format, codec, Step(format, codec, core, payloads[0]).value.0, payloads[1..]);
    }
  }

  /**
   In every successful Messages or Responses decoding each index is opened at most once, and closed
   exactly as often as it was opened.
   */
  lemma EveryBlockClosedOnce(format: ApiFormat, codec: Codec, chunks: seq<seq<byte>>, index: nat)
    requires !format.ChatCompletions?
    requires Decode(DecoderMachine(format, codec), EMPTY_CORE, chunks).Ok?
    ensures var payloads := StreamPayloads(DecoderMachine(format, codec), EMPTY_CORE, Joined(chunks));
            CloseCount(format, codec, payloads, index) == OpenCount(format, codec, payloads, index) <= 1
  {
    var payloads := StreamPayloads(DecoderMachine(format, codec), EMPTY_CORE, Joined(chunks));
    var last := DecodeIsRun(DecoderMachine(format, codec), EMPTY_CORE, chunks);
    RunTerminalClosed(format, codec, EMPTY_CORE, payloads);
    RunTracks(format, codec, EMPTY_CORE, payloads, index);
  }
}
