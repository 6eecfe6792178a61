/** The replay items of a Responses stream: what its reasoning items were done with. */
module ResponsesReplay {
  import opened Wrappers
  import opened Json
  import opened History
  import opened Sequences
  import opened Sse
  import opened Provider
  import opened Dispatch
  import opened ResponseContents
  import opened StreamReading
  import opened ResponsesEvents
  import opened ResponsesStream
  import ResponsesProperties

  /** The item that is replayed for a reasoning item: what it said when done, with the encryption it had before. */
  function ReasoningReplay(added: Json, item: Json): Json {
    var base := map["type" := Str("reasoning"), "id" := item.At("id"),
                    "summary" := if Has(item, "summary") then item.At("summary") else Arr([])];
    var shown := if Has(item, "content") then base["content" := item.At("content")] else base;
    Obj(if Has(item, "encrypted_content") then shown["encrypted_content" := item.At("encrypted_content")]
        else if Has(added, "encrypted_content") then shown["encrypted_content" := added.At("encrypted_content")]
        else shown)
  }

  /** The item that was added at an index, and the one that was done there. */
  function AddedAt(codec: Codec, payloads: seq<Payload>, index: nat): Json {
    if payloads == [] then Null
    else
      var value := Parsed(codec, payloads[0]);
      if Typed(value, "response.output_item.added") && At(value, index) then value.At("item")
      else AddedAt(codec, payloads[1..], index)
  }

  function DoneAt(codec: Codec, payloads: seq<Payload>, index: nat): Json {
    if payloads == [] then Null
    else
      var value := Parsed(codec, payloads[0]);
      if Typed(value, "response.output_item.done") && At(value, index) then value.At("item")
      else DoneAt(codec, payloads[1..], index)
  }

  predicate AddsAt(value: Json, index: nat) {
    Typed(value, "response.output_item.added") && At(value, index)
  }

  predicate DoesAt(value: Json, index: nat) {
    Typed(value, "response.output_item.done") && At(value, index)
  }

  lemma ReplayItemIs(block: Block, item: Json, added: Json)
    requires block.kind.ReasoningItem? && block.encrypted == added.Get("encrypted_content")
    requires Agrees(block, item).Ok?
    ensures ReplayItem(block, item) == ReasoningReplay(added, item)
  {
    AgreesOnId(block, item);
    hide Agrees;
    var base := map["type" := Str("reasoning"), "id" := Str(block.id), "summary" := item.Get("summary").GetOr(Arr([]))];
    var content := item.Get("content");
    var encrypted := OrElse(item.Get("encrypted_content"), added.Get("encrypted_content"));
    MapsAdd(base, content, encrypted);
  }

  lemma AgreesOnId(block: Block, item: Json)
    requires block.kind.ReasoningItem? && Agrees(block, item).Ok?
    ensures item.At("id") == Str(block.id)
  {
    hide CompletedText;
  }

  lemma MapsAdd(base: map<string, Json>, content: Option<Json>, encrypted: Option<Json>)
    ensures var shown := if content.Some? then base["content" := content.value] else base;
            base + (if content.Some? then map["content" := content.value] else map[])
                 + (if encrypted.Some? then map["encrypted_content" := encrypted.value] else map[]) ==
            if encrypted.Some? then shown["encrypted_content" := encrypted.value] else shown
  {
  }

  lemma AddedBlock(core: Core, value: Json, i: nat)
    requires ResponsesEvent(core, ItemAdded, value).Ok? && At(value, i)
    ensures i !in core.blocks
    ensures var (next, output) := ResponsesEvent(core, ItemAdded, value).value;
            && i in next.blocks && !next.blocks[i].closed
            && (next.blocks[i].kind.ReasoningItem? ==>
                  next.blocks[i].encrypted == value.At("item").Get("encrypted_content"))
            && forall k :: 0 <= k < |output| ==> !output[k].Replay?
  {
  }

  lemma DoneBlock(core: Core, value: Json, i: nat, added: Json)
    requires ResponsesEvent(core, ItemDone, value).Ok? && At(value, i)
    requires i in core.blocks && core.blocks[i].kind.ReasoningItem? ==>
               core.blocks[i].encrypted == added.Get("encrypted_content")
    ensures i in core.blocks && !core.blocks[i].closed
    ensures var (next, output) := ResponsesEvent(core, ItemDone, value).value;
            && i in next.blocks && next.blocks[i].closed
            && output == if Typed(value.At("item"), "reasoning")
                         then [Replay(Responses, i, ReplaceItem(ReasoningReplay(added, value.At("item"))))] else []
  {
    assert ResponsesEvent(core, ItemDone, value) == ItemDoneEvent(core, value);
    hide ResponsesEvent;
    var block, item := core.blocks[i], value.At("item");
    assert Agrees(block, item).Ok?;
    if block.kind.ReasoningItem? {
      ReplayItemIs(block, item, added);
    }
    NameIsReasoning(block.kind);
    hide Agrees;
    hide ReplayItem;
    hide ReasoningReplay;
  }

  lemma NameIsReasoning(kind: BlockKind)
    ensures kind.Name() == "reasoning" <==> kind.ReasoningItem?
  {
    assert "reasoning"[0] == 'r' && "redacted_thinking"[2] == 'd' && "reasoning"[2] == 'a';
    assert "text"[0] == 't' && "thinking"[0] == 't' && "tool_use"[0] == 't' && "message"[0] == 'm';
    assert "function_call"[0] == 'f';
  }

  /** The block at an index stays open or closed as it was, and nothing is replayed for it. */
  ghost predicate Untouched(core: Core, next: Core, output: seq<Fragment>, i: nat) {
    && (i in next.blocks <==> i in core.blocks)
    && (i in core.blocks ==>
          && next.blocks[i].closed == core.blocks[i].closed && next.blocks[i].kind == core.blocks[i].kind
          && next.blocks[i].encrypted == core.blocks[i].encrypted)
    && forall k :: 0 <= k < |output| ==> !output[k].Replay? || output[k].index != i
  }

  lemma TextUntouched(core: Core, kind: Kind, value: Json, i: nat)
    requires TextDelta(core, kind, value).Ok?
    ensures Untouched(core, TextDelta(core, kind, value).value.0, TextDelta(core, kind, value).value.1, i)
  {
  }

  lemma AddedElsewhere(core: Core, value: Json, i: nat)
    requires ResponsesEvent(core, ItemAdded, value).Ok? && !At(value, i)
    ensures var (next, output) := ResponsesEvent(core, ItemAdded, value).value; Untouched(core, next, output, i)
  {
    hide OpenItem;
    OpenItemForm(EventIndex(value, "output_index").value, value.At("item"));
  }

  lemma DoneElsewhere(core: Core, value: Json, i: nat)
    requires ItemDoneEvent(core, value).Ok? && !At(value, i)
    ensures var (next, output) := ItemDoneEvent(core, value).value; Untouched(core, next, output, i)
  {
    hide Agrees;
    hide ReplayItem;
  }

  lemma TerminalUntouched(core: Core, status: string, value: Json, i: nat)
    requires TerminalEvent(core, status, value).Ok?
    ensures var (next, output) := TerminalEvent(core, status, value).value; Untouched(core, next, output, i)
  {
    hide TerminalReason;
  }

  lemma OtherBlock(core: Core, kind: Kind, value: Json, i: nat)
    requires ResponsesEvent(core, kind, value).Ok? && !((kind.ItemAdded? || kind.ItemDone?) && At(value, i))
    ensures var (next, output) := ResponsesEvent(core, kind, value).value; Untouched(core, next, output, i)
  {
    hide TextDelta;
    hide ItemDoneEvent;
    hide TerminalEvent;
    hide OpenItem;
    if kind.ItemAdded? {
      AddedElsewhere(core, value, i);
    } else if kind.ItemDone? {
      DoneElsewhere(core, value, i);
    } else if kind.Terminated? {
      TerminalUntouched(core, kind.status, value, i);
    } else if kind.OutputTextDelta? || kind.RefusalDelta? || kind.SummaryTextDelta? || kind.ReasoningTextDelta? {
      assert ResponsesEvent(core, kind, value) == TextDelta(core, kind, value);
      TextUntouched(core, kind, value, i);
    }
  }

  /** How the block at an index stands: its encryption is that of the item that was added. */
  ghost predicate Stands(core: Core, i: nat, added: Json) {
    i in core.blocks && core.blocks[i].kind.ReasoningItem? ==>
      core.blocks[i].encrypted == added.Get("encrypted_content")
  }

  /** One step, as the block at an index sees it. */
  ghost predicate Sees(core: Core, value: Json, next: Core, before: Option<Json>, after: Option<Json>, i: nat,
                       added: Json)
  {
    if AddsAt(value, i) then
      && i !in core.blocks && i in next.blocks && !next.blocks[i].closed
      && Stands(next, i, value.At("item"))
      && after == before
    else if DoesAt(value, i) then
      && i in core.blocks && !core.blocks[i].closed && i in next.blocks && next.blocks[i].closed
      && after == if Typed(value.At("item"), "reasoning") then Some(ReasoningReplay(added, value.At("item")))
                  else before
    else
      && (i in next.blocks <==> i in core.blocks)
      && (i in core.blocks ==> next.blocks[i].closed == core.blocks[i].closed)
      && Stands(next, i, added)
      && after == before
  }

  lemma KindAt(value: Json, i: nat)
    requires value.At("type").Str?
    ensures AddsAt(value, i) <==> KindOf(value.At("type").text).ItemAdded? && At(value, i)
    ensures DoesAt(value, i) <==> KindOf(value.At("type").text).ItemDone? && At(value, i)
  {
    hide KindOf;
    EventTypes(value);
  }

  lemma EventAt(core: Core, value: Json, done: seq<Fragment>, i: nat, added: Json)
    requires value.At("type").Str? && ResponsesEvent(core, KindOf(value.At("type").text), value).Ok?
    requires Stands(core, i, added)
    ensures var (next, output) := ResponsesEvent(core, KindOf(value.At("type").text), value).value;
            Sees(core, value, next, ReplayAt(done, i), ReplayAt(done + output, i), i, added)
  {
    hide ResponsesEvent;
    hide ReasoningReplay;
    hide ReplayAt;
    hide KindOf;
    hide AddsAt;
    hide DoesAt;
    hide At;
    var kind := KindOf(value.At("type").text);
    var output := ResponsesEvent(core, kind, value).value.1;
    AddsOrDoes(value, i);
    KindAt(value, i);
    if kind.ItemAdded? && At(value, i) {
      AddedBlock(core, value, i);
      OthersKeep(done, output, i);
    } else if kind.ItemDone? && At(value, i) {
      DoneBlock(core, value, i, added);
      if output == [] {
        Unit(done);
      } else {
        Replaced(done, output[0], i);
      }
    } else {
      OtherBlock(core, kind, value, i);
      OthersKeep(done, output, i);
    }
  }

  lemma StepAt(codec: Codec, core: Core, payload: Payload, done: seq<Fragment>, i: nat, added: Json)
    requires Step(Responses, codec, core, payload).Ok? && Stands(core, i, added)
    ensures var (next, output) := Step(Responses, codec, core, payload).value;
            Sees(core, Parsed(codec, payload), next, ReplayAt(done, i), ReplayAt(done + output, i), i, added)
  {
    hide ResponsesEvent;
    hide ReplayAt;
    hide Sees;
    hide Stands;
    EventAt(core, codec.parse(payload.data).value, done, i, added);
  }

  lemma Replaced(done: seq<Fragment>, f: Fragment, i: nat)
    requires f.Replay? && f.index == i && f.edit.ReplaceItem?
    ensures ReplayAt(done + [f], i) == Some(f.edit.item)
  {
    LastOf(done, f);
  }

  lemma {:induction false} OthersKeep(done: seq<Fragment>, output: seq<Fragment>, index: nat)
    requires forall k :: 0 <= k < |output| ==> !output[k].Replay? || output[k].index != index
    ensures ReplayAt(done + output, index) == ReplayAt(done, index)
  {
    if output == [] {
      Unit(done);
    } else {
      var init, last := output[..|output| - 1], output[|output| - 1];
      OthersKeep(done, init, index);
      assert done + output == (done + init) + [last];
      LastOf(done + init, last);
    }
  }

  lemma {:induction false} ClosedStays(codec: Codec, core: Core, payloads: seq<Payload>, done: seq<Fragment>, i: nat,
                                       added: Json)
    requires Run(DecoderMachine(Responses, codec), core, payloads).Ok? && Stands(core, i, added)
    requires i in core.blocks && core.blocks[i].closed
    ensures ReplayAt(done + Run(DecoderMachine(Responses, codec), core, payloads).value.1, i) == ReplayAt(done, i)
    decreases |payloads|
  {
    hide Step;
    hide ReplayAt;
    hide ReasoningReplay;
    hide Stands;
    hide Parsed;
    if payloads == [] {
      Unit(done);
    } else {
      StepAt(codec, core, payloads[0], done, i, added);
      var (next, output) := Step(Responses, codec, core, payloads[0]).value;
      ClosedStays(codec, next, payloads[1..], done + output, i, added);
      Assoc(done, output, Run(DecoderMachine(Responses, codec), next, payloads[1..]).value.1);
    }
  }

  lemma {:induction false} OpenReplays(codec: Codec, core: Core, payloads: seq<Payload>, done: seq<Fragment>, i: nat,
                                       added: Json)
    requires Run(DecoderMachine(Responses, codec), core, payloads).Ok? && Stands(core, i, added)
    requires i in core.blocks && !core.blocks[i].closed && ReplayAt(done, i).None?
    ensures var output := Run(DecoderMachine(Responses, codec), core, payloads).value.1;
            var item := DoneAt(codec, payloads, i);
            ReplayAt(done + output, i) ==
            if Typed(item, "reasoning") then Some(ReasoningReplay(added, item)) else None
    decreases |payloads|
  {
    hide Step;
    hide ReplayAt;
    hide ReasoningReplay;
    hide Stands;
    hide Parsed;
    if payloads == [] {
      Unit(done);
    } else {
      StepAt(codec, core, payloads[0], done, i, added);
      var (next, output) := Step(Responses, codec, core, payloads[0]).value;
      Assoc(done, output, Run(DecoderMachine(Responses, codec), next, payloads[1..]).value.1);
      if DoesAt(Parsed(codec, payloads[0]), i) {
        StandsKept(codec, core, payloads[0], i, added);
        ClosedStays(codec, next, payloads[1..], done + output, i, added);
      } else {
        OpenReplays(codec, next, payloads[1..], done + output, i, added);
      }
    }
  }

  lemma StandsKept(codec: Codec, core: Core, payload: Payload, i: nat, added: Json)
    requires Step(Responses, codec, core, payload).Ok? && Stands(core, i, added) && i in core.blocks
    requires DoesAt(Parsed(codec, payload), i)
    ensures Stands(Step(Responses, codec, core, payload).value.0, i, added)
  {
    hide KindOf;
    hide ItemDoneEvent;
    var value := codec.parse(payload.data).value;
    EventTypes(value);
    assert Step(Responses, codec, core, payload) == ItemDoneEvent(core, value);
    hide ResponsesEvent;
    DoneStands(core, value, i, added);
  }

  lemma DoneStands(core: Core, value: Json, i: nat, added: Json)
    requires ItemDoneEvent(core, value).Ok? && Stands(core, i, added) && i in core.blocks
    ensures Stands(ItemDoneEvent(core, value).value.0, i, added)
  {
    hide Agrees;
    hide ReplayItem;
  }

  lemma {:induction false} AbsentReplays(codec: Codec, core: Core, payloads: seq<Payload>, done: seq<Fragment>, i: nat)
    requires Run(DecoderMachine(Responses, codec), core, payloads).Ok?
    requires i !in core.blocks && ReplayAt(done, i).None?
    ensures var output := Run(DecoderMachine(Responses, codec), core, payloads).value.1;
            var item := DoneAt(codec, payloads, i);
            ReplayAt(done + output, i) ==
            if Typed(item, "reasoning") then Some(ReasoningReplay(AddedAt(codec, payloads, i), item)) else None
    decreases |payloads|
  {
    hide Step;
    hide ReplayAt;
    hide ReasoningReplay;
    hide Parsed;
    if payloads == [] {
      Unit(done);
    } else {
      var value := Parsed(codec, payloads[0]);
      StepAt(codec, core, payloads[0], done, i, Null);
      hide Stands;
      var (next, output) := Step(Responses, codec, core, payloads[0]).value;
      Assoc(done, output, Run(DecoderMachine(Responses, codec), next, payloads[1..]).value.1);
      AddsOrDoes(value, i);
      if AddsAt(value, i) {
        OpenReplays(codec, next, payloads[1..], done + output, i, value.At("item"));
      } else {
        AbsentReplays(codec, next, payloads[1..], done + output, i);
      }
    }
  }

  lemma AddsOrDoes(value: Json, i: nat)
    ensures !(AddsAt(value, i) && DoesAt(value, i))
  {
    assert "response.output_item.added"[21] == 'a' && "response.output_item.done"[21] == 'd';
  }

  /**
   The replay of every successful Responses run: at the index of a reasoning item that was done the item it was done
   with, under the encryption announced before if it has none itself, and nothing elsewhere.
   */
  lemma ResponsesRunReplays(codec: Codec, payloads: seq<Payload>, i: nat)
    requires Run(DecoderMachine(Responses, codec), EMPTY_CORE, payloads).Ok?
    ensures var output := Run(DecoderMachine(Responses, codec), EMPTY_CORE, payloads).value.1;
            var item := DoneAt(codec, payloads, i);
            ReplayAt(output, i) ==
            if Typed(item, "reasoning") then Some(ReasoningReplay(AddedAt(codec, payloads, i), item)) else None
  {
    hide Run;
    hide DoneAt;
    hide AddedAt;
    hide ReasoningReplay;
    AbsentReplays(codec, EMPTY_CORE, payloads, [], i);
    Unit(Run(DecoderMachine(Responses, codec), EMPTY_CORE, payloads).value.1);
  }

  // ---------------------------------------------------------------- the items a run knows

  /** A block is the one that an added item opens: its type, and the ids and name it announced. */
  predicate Opened(item: Json, block: Block) {
    match block.kind
    case MessageItem => Typed(item, "message")
    case ReasoningItem => Typed(item, "reasoning") && item.At("id") == Str(block.id)
    case FunctionCall =>
      Typed(item, "function_call") && item.At("call_id") == Str(block.id) && item.At("name") == Str(block.name)
    case _ => false
  }

  lemma AddedOpens(core: Core, value: Json, i: nat)
    requires ResponsesEvent(core, ItemAdded, value).Ok? && At(value, i)
    ensures var next := ResponsesEvent(core, ItemAdded, value).value.0;
            i !in core.blocks && i in next.blocks && Opened(value.At("item"), next.blocks[i])
  {
  }

  lemma EventOpens(core: Core, value: Json, i: nat, added: Json)
    requires value.At("type").Str? && ResponsesEvent(core, KindOf(value.At("type").text), value).Ok?
    requires i in core.blocks ==> Opened(added, core.blocks[i])
    ensures var next := ResponsesEvent(core, KindOf(value.At("type").text), value).value.0;
            && (i in next.blocks <==> i in core.blocks || AddsAt(value, i))
            && (i in core.blocks ==> !AddsAt(value, i))
            && (i in next.blocks ==> Opened(if AddsAt(value, i) then value.At("item") else added, next.blocks[i]))
  {
    hide ResponsesEvent;
    hide KindOf;
    hide AddsAt;
    hide DoesAt;
    hide At;
    var kind := KindOf(value.At("type").text);
    KindAt(value, i);
    if kind.ItemAdded? && At(value, i) {
      AddedOpens(core, value, i);
    } else if i in core.blocks {
      ResponsesProperties.EventAtBlock(core, kind, value, i, ResponsesProperties.TextChannel);
    } else {
      AbsentStays(core, kind, value, i);
    }
  }

  lemma AbsentStays(core: Core, kind: Kind, value: Json, i: nat)
    requires ResponsesEvent(core, kind, value).Ok? && i !in core.blocks && !(kind.ItemAdded? && At(value, i))
    ensures i !in ResponsesEvent(core, kind, value).value.0.blocks
  {
    ResponsesProperties.EventAtNewBlock(core, kind, value, i, ResponsesProperties.TextChannel);
    hide ResponsesEvent;
  }

  lemma StepOpens(codec: Codec, core: Core, payload: Payload, i: nat, added: Json)
    requires Step(Responses, codec, core, payload).Ok? && (i in core.blocks ==> Opened(added, core.blocks[i]))
    ensures var next, value := Step(Responses, codec, core, payload).value.0, Parsed(codec, payload);
            && (i in next.blocks <==> i in core.blocks || AddsAt(value, i))
            && (i in core.blocks ==> !AddsAt(value, i))
            && (i in next.blocks ==> Opened(if AddsAt(value, i) then value.At("item") else added, next.blocks[i]))
  {
    hide ResponsesEvent;
    hide AddsAt;
    hide Opened;
    EventOpens(core, codec.parse(payload.data).value, i, added);
  }

  lemma {:induction false} RunOpens(codec: Codec, core: Core, payloads: seq<Payload>, i: nat, added: Json)
    requires Run(DecoderMachine(Responses, codec), core, payloads).Ok?
    requires i in core.blocks ==> Opened(added, core.blocks[i])
    ensures var last := Run(DecoderMachine(Responses, codec), core, payloads).value.0;
            && (i in last.blocks <==> i in core.blocks || exists k :: 0 <= k < |payloads| &&
                                                                AddsAt(Parsed(codec, payloads[k]), i))
            && (i in last.blocks ==>
                  Opened(if i in core.blocks then added else AddedAt(codec, payloads, i), last.blocks[i]))
    decreases |payloads|
  {
    hide Step;
    hide Opened;
    hide Parsed;
    if payloads != [] {
      StepOpens(codec, core, payloads[0], i, added);
      var next, value := Step(Responses, codec, core, payloads[0]).value.0, Parsed(codec, payloads[0]);
      RunOpens(codec, next, payloads[1..], i, if AddsAt(value, i) then value.At("item") else added);
      hide AddsAt;
      FirstOrLater(codec, payloads, i);
    }
  }

  lemma FirstOrLater(codec: Codec, payloads: seq<Payload>, i: nat)
    requires payloads != []
    ensures (exists k :: 0 <= k < |payloads| && AddsAt(Parsed(codec, payloads[k]), i)) <==>
            AddsAt(Parsed(codec, payloads[0]), i) ||
            exists k :: 0 <= k < |payloads[1..]| && AddsAt(Parsed(codec, payloads[1..][k]), i)
  {
    hide AddsAt;
    hide Parsed;
    if k :| 0 <= k < |payloads| && AddsAt(Parsed(codec, payloads[k]), i) {
      assert k > 0 ==> payloads[1..][k - 1] == payloads[k];
    }
    if k :| 0 <= k < |payloads[1..]| && AddsAt(Parsed(codec, payloads[1..][k]), i) {
      assert payloads[k + 1] == payloads[1..][k];
    }
  }

  /**
   The items that a successful Responses run knows are exactly those that were added, each under the type, ids and
   name that it was added with; these are what later events of the item must agree with.
   */
  lemma ResponsesRunOpens(codec: Codec, payloads: seq<Payload>, i: nat)
    requires Run(DecoderMachine(Responses, codec), EMPTY_CORE, payloads).Ok?
    ensures var last := Run(DecoderMachine(Responses, codec), EMPTY_CORE, payloads).value.0;
            && (i in last.blocks <==> exists k :: 0 <= k < |payloads| && AddsAt(Parsed(codec, payloads[k]), i))
            && (i in last.blocks ==> Opened(AddedAt(codec, payloads, i), last.blocks[i]))
  {
    hide Run;
    RunOpens(codec, EMPTY_CORE, payloads, i, Null);
  }
}
