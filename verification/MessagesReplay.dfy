/** The replay items of a Messages stream: what its thinking blocks add up to. */
module MessagesReplay {
  import opened Wrappers
  import opened Json
  import opened History
  import opened Sequences
  import opened Sse
  import opened Provider
  import opened Dispatch
  import opened ResponseContents
  import opened StreamReading
  import opened MessagesEvents
  import opened MessagesStream

  function Data(value: Json): string {
    if Starts(value, "redacted_thinking") then TextAt(value.At("content_block"), "data") else ""
  }

  /** The texts at one index, joined over some payloads. */
  function ThoughtsAt(codec: Codec, payloads: seq<Payload>, index: nat): string {
    if payloads == [] then ""
    else
      var value := Parsed(codec, payloads[0]);
      (if At(value, index) then Thought(value) else "") + ThoughtsAt(codec, payloads[1..], index)
  }

  function SignaturesAt(codec: Codec, payloads: seq<Payload>, index: nat): string {
    if payloads == [] then ""
    else
      var value := Parsed(codec, payloads[0]);
      (if At(value, index) then Signature(value) else "") + SignaturesAt(codec, payloads[1..], index)
  }

  function DataAt(codec: Codec, payloads: seq<Payload>, index: nat): string {
    if payloads == [] then ""
    else
      var value := Parsed(codec, payloads[0]);
      (if At(value, index) then Data(value) else "") + DataAt(codec, payloads[1..], index)
  }

  /** The replay item of the block at an index: only thinking has one, and it holds these texts. */
  function StoredItem(core: Core, index: nat, thought: string, signature: string, data: string): Option<Json> {
    if index !in core.blocks then None
    else
      match core.blocks[index].kind
      case Thinking => Some(ThinkingItem(thought, signature))
      case RedactedThinking => Some(RedactedItem(data))
      case _ => None
  }

  lemma ReplayMore(done: seq<Fragment>, f: Fragment, index: nat)
    ensures !f.Replay? || f.index != index ==> ReplayAt(done + [f], index) == ReplayAt(done, index)
    ensures f.Replay? && f.index == index && f.edit.StartItem? ==> ReplayAt(done + [f], index) == Some(f.edit.item)
    ensures f.Replay? && f.index == index && f.edit.AppendField? && Extensible(ReplayAt(done, index), f.edit.field) ==>
              var item := ReplayAt(done, index).value;
              ReplayAt(done + [f], index) ==
              Some(Obj(item.fields[f.edit.field := Str(item.fields[f.edit.field].text + f.edit.value)]))
  {
    LastOf(done, f);
  }

  lemma {:induction false} OthersKeepReplay(done: seq<Fragment>, output: seq<Fragment>, index: nat)
    requires forall k :: 0 <= k < |output| ==> !output[k].Replay? || output[k].index != index
    ensures ReplayAt(done + output, index) == ReplayAt(done, index)
  {
    if output == [] {
      Unit(done);
    } else {
      var init, last := output[..|output| - 1], output[|output| - 1];
      OthersKeepReplay(done, init, index);
      assert done + output == (done + init) + [last];
      ReplayMore(done + init, last, index);
    }
  }

  lemma ThinkingExtends(thinking: string, signature: string, more: string)
    ensures ThinkingItem(thinking, signature).fields["thinking" := Str(thinking + more)] ==
            ThinkingItem(thinking + more, signature).fields
    ensures ThinkingItem(thinking, signature).fields["signature" := Str(signature + more)] ==
            ThinkingItem(thinking, signature + more).fields
    ensures Extensible(Some(ThinkingItem(thinking, signature)), "thinking")
    ensures Extensible(Some(ThinkingItem(thinking, signature)), "signature")
    ensures ThinkingItem(thinking, signature).fields["thinking"] == Str(thinking)
    ensures ThinkingItem(thinking, signature).fields["signature"] == Str(signature)
  {
    assert "thinking"[0] == 't' && "signature"[0] == 's' && |"type"| == 4;
  }

  lemma OneReplays(done: seq<Fragment>, f: Fragment, index: nat)
    requires f.Replay? ==> f.edit.StartItem?
    ensures ReplayAt(done + [f], index) ==
            if f.Replay? && f.index == index then Some(f.edit.item) else ReplayAt(done, index)
  {
    ReplayMore(done, f, index);
  }

  lemma TwoReplay(done: seq<Fragment>, text: Fragment, f: Fragment, index: nat)
    requires !text.Replay?
    ensures ReplayAt(done + [text, f], index) == ReplayAt(done + [f], index)
  {
    assert done + [text, f] == (done + [text]) + [f];
    ReplayMore(done, text, index);
    LastOf(done + [text], f);
    LastOf(done, f);
  }

  lemma StartReplays(codec: Codec, core: Core, value: Json, done: seq<Fragment>, i: nat)
    requires Typed(value, "content_block_start") && StartedEvent(codec, core, BlockStart, value).Ok?
    requires At(value, i) && ReplayAt(done, i).None?
    ensures i !in core.blocks
    ensures var (next, output) := StartedEvent(codec, core, BlockStart, value).value;
            ReplayAt(done + output, i) == StoredItem(next, i, Thought(value), Signature(value), Data(value))
  {
    hide OpenBlock;
    hide ReplayAt;
    hide ThinkingItem;
    hide RedactedItem;
    var block := value.At("content_block");
    var (begun, output) := OpenBlock(codec, i, block).value;
    OpenBlockForm(codec, i, block);
    NamesDistinct();
    if begun.kind.Thinking? {
      TwoReplay(done, output[0], output[1], i);
      OneReplays(done, output[1], i);
    } else {
      assert output == [output[0]];
      OneReplays(done, output[0], i);
    }
  }

  lemma DeltaReplays(codec: Codec, core: Core, value: Json, done: seq<Fragment>, i: nat, thought: string,
      signature: string, data: string)
    requires Typed(value, "content_block_delta") && StartedEvent(codec, core, BlockDelta, value).Ok?
    requires At(value, i) && ReplayAt(done, i) == StoredItem(core, i, thought, signature, data)
    ensures var (next, output) := StartedEvent(codec, core, BlockDelta, value).value;
            ReplayAt(done + output, i) ==
            StoredItem(next, i, thought + Thought(value), signature + Signature(value), data + Data(value))
  {
    hide DeltaEvent;
    hide ReplayAt;
    var (i', block) := OpenBlockAt(core, value).value;
    var delta := value.At("delta");
    var output := DeltaEvent(block, i, delta).value.1;
    DeltaForm(block, i, delta);
    Unit(thought);
    Unit(signature);
    Unit(data);
    ThinkingExtends(thought, signature, TextAt(delta, "thinking"));
    ThinkingExtends(thought, signature, TextAt(delta, "signature"));
    assert "content_block_delta" != "content_block_start" by {
      assert "content_block_delta"[14] == 'd' && "content_block_start"[14] == 's';
    }
    assert "thinking_delta" != "signature_delta" by {
      assert "thinking_delta"[0] == 't' && "signature_delta"[0] == 's';
    }
    hide ThinkingItem;
    hide RedactedItem;
    hide Extensible;
    if Typed(delta, "thinking_delta") {
      TwoReplay(done, output[0], output[1], i);
      ReplayMore(done, output[1], i);
    } else {
      assert output == [output[0]];
      ReplayMore(done, output[0], i);
    }
  }

  /** What `done` says at an index, after the texts so far. */
  ghost predicate Stored(core: Core, done: seq<Fragment>, i: nat, thought: string, signature: string, data: string) {
    && ReplayAt(done, i) == StoredItem(core, i, thought, signature, data)
    && (i !in core.blocks ==> thought == "" && signature == "" && data == "")
  }

  lemma ElsewhereStored(codec: Codec, core: Core, kind: Kind, value: Json, done: seq<Fragment>, i: nat,
      thought: string, signature: string, data: string)
    requires MessagesEvent(codec, core, kind, value).Ok? && Stored(core, done, i, thought, signature, data)
    requires (kind.BlockStart? || kind.BlockDelta?) ==> !At(value, i)
    ensures var (next, output) := MessagesEvent(codec, core, kind, value).value;
            Stored(next, done + output, i, thought, signature, data)
  {
    var (next, output) := MessagesEvent(codec, core, kind, value).value;
    NoReplayAt(codec, core, kind, value, i);
    OthersKeepReplay(done, output, i);
    hide ReplayAt;
    hide MessagesEvent;
    hide ThinkingItem;
    hide RedactedItem;
  }

  /** An event that does not start or continue the block at an index edits no item there and keeps its kind. */
  lemma NoReplayAt(codec: Codec, core: Core, kind: Kind, value: Json, i: nat)
    requires MessagesEvent(codec, core, kind, value).Ok?
    requires (kind.BlockStart? || kind.BlockDelta?) ==> !At(value, i)
    ensures var (next, output) := MessagesEvent(codec, core, kind, value).value;
            && (i in next.blocks <==> i in core.blocks)
            && (i in core.blocks ==> next.blocks[i].kind == core.blocks[i].kind)
            && forall k :: 0 <= k < |output| ==> !output[k].Replay? || output[k].index != i
  {
    hide UsageEvent;
    if kind.BlockStart? {
      OpenBlockForm(codec, EventIndex(value, "index").value, value.At("content_block"));
    } else if kind.BlockDelta? {
      var (index, block) := OpenBlockAt(core, value).value;
      DeltaForm(block, index, value.At("delta"));
    }
    hide OpenBlock;
    hide DeltaEvent;
    hide ThinkingItem;
    hide RedactedItem;
  }

  lemma QuietTexts(value: Json)
    requires !Typed(value, "content_block_start") && !Typed(value, "content_block_delta")
    ensures Thought(value) == "" && Signature(value) == "" && Data(value) == ""
  {
  }

  lemma EventStores(codec: Codec, core: Core, value: Json, done: seq<Fragment>, i: nat, thought: string,
      signature: string, data: string)
    requires value.At("type").Str? && MessagesEvent(codec, core, KindOf(value.At("type").text), value).Ok?
    requires Stored(core, done, i, thought, signature, data)
    ensures var (next, output) := MessagesEvent(codec, core, KindOf(value.At("type").text), value).value;
            Stored(next, done + output, i,
                   thought + (if At(value, i) then Thought(value) else ""),
                   signature + (if At(value, i) then Signature(value) else ""),
                   data + (if At(value, i) then Data(value) else ""))
  {
    hide StartedEvent;
    hide ReplayAt;
    hide ThinkingItem;
    hide RedactedItem;
    hide Thought;
    hide Signature;
    hide Data;
    var kind := KindOf(value.At("type").text);
    Unit(thought);
    Unit(signature);
    Unit(data);
    if kind.BlockStart? && At(value, i) {
      StartsAbsent(codec, core, value, i);
      StartReplays(codec, core, value, done, i);
      Unit(Thought(value));
      Unit(Signature(value));
      Unit(Data(value));
      StartedThere(codec, core, value, i);
    } else if kind.BlockDelta? && At(value, i) {
      DeltaReplays(codec, core, value, done, i, thought, signature, data);
      StartedThere(codec, core, value, i);
    } else {
      ElsewhereStored(codec, core, kind, value, done, i, thought, signature, data);
      if At(value, i) {
        QuietTexts(value);
      }
    }
  }

  lemma StartsAbsent(codec: Codec, core: Core, value: Json, i: nat)
    requires Typed(value, "content_block_start") && StartedEvent(codec, core, BlockStart, value).Ok? && At(value, i)
    ensures i !in core.blocks
  {
    hide OpenBlock;
  }

  lemma StartedThere(codec: Codec, core: Core, value: Json, i: nat)
    requires At(value, i)
    ensures Typed(value, "content_block_start") && StartedEvent(codec, core, BlockStart, value).Ok? ==>
              i in StartedEvent(codec, core, BlockStart, value).value.0.blocks
    ensures Typed(value, "content_block_delta") && StartedEvent(codec, core, BlockDelta, value).Ok? ==>
              i in StartedEvent(codec, core, BlockDelta, value).value.0.blocks
  {
    hide OpenBlock;
    hide DeltaEvent;
  }

  lemma StepStores(codec: Codec, core: Core, payload: Payload, done: seq<Fragment>, i: nat, thought: string,
      signature: string, data: string)
    requires Step(Messages, codec, core, payload).Ok? && Stored(core, done, i, thought, signature, data)
    ensures var (next, output) := Step(Messages, codec, core, payload).value;
            var value := Parsed(codec, payload);
            Stored(next, done + output, i,
                   thought + (if At(value, i) then Thought(value) else ""),
                   signature + (if At(value, i) then Signature(value) else ""),
                   data + (if At(value, i) then Data(value) else ""))
  {
    hide MessagesEvent;
    hide Stored;
    hide Thought;
    hide Signature;
    hide Data;
    EventStores(codec, core, codec.parse(payload.data).value, done, i, thought, signature, data);
  }

  lemma {:induction false} RunStores(codec: Codec, core: Core, payloads: seq<Payload>, done: seq<Fragment>, i: nat,
      thought: string, signature: string, data: string)
    requires Run(DecoderMachine(Messages, codec), core, payloads).Ok? && Stored(core, done, i, thought, signature, data)
    ensures var (last, output) := Run(DecoderMachine(Messages, codec), core, payloads).value;
            Stored(last, done + output, i, thought + ThoughtsAt(codec, payloads, i),
                   signature + SignaturesAt(codec, payloads, i), data + DataAt(codec, payloads, i))
    decreases |payloads|
  {
    hide Step;
    hide Stored;
    hide Thought;
    hide Signature;
    hide Data;
    hide At;
    hide Parsed;
    if payloads == [] {
      Unit(done);
      Unit(thought);
      Unit(signature);
      Unit(data);
    } else {
      var value := Parsed(codec, payloads[0]);
      StepStores(codec, core, payloads[0], done, i, thought, signature, data);
      var (next, output) := Step(Messages, codec, core, payloads[0]).value;
      var t, s, d := if At(value, i) then Thought(value) else "", if At(value, i) then Signature(value) else "",
                     if At(value, i) then Data(value) else "";
      RunStores(codec, next, payloads[1..], done + output, i, thought + t, signature + s, data + d);
      Assoc(done, output, Run(DecoderMachine(Messages, codec), next, payloads[1..]).value.1);
      Assoc(thought, t, ThoughtsAt(codec, payloads[1..], i));
      Assoc(signature, s, SignaturesAt(codec, payloads[1..], i));
      Assoc(data, d, DataAt(codec, payloads[1..], i));
    }
  }

  /**
   The replay of every successful Messages run: at the index of a thinking block the item with all of its thinking
   and all of its signature, at the index of a redacted one the item with its data, and nothing elsewhere.
   */
  lemma MessagesRunReplays(codec: Codec, payloads: seq<Payload>, i: nat)
    requires Run(DecoderMachine(Messages, codec), EMPTY_CORE, payloads).Ok?
    ensures var (last, output) := Run(DecoderMachine(Messages, codec), EMPTY_CORE, payloads).value;
            ReplayAt(output, i) ==
            StoredItem(last, i, ThoughtsAt(codec, payloads, i), SignaturesAt(codec, payloads, i),
                       DataAt(codec, payloads, i))
  {
    hide Run;
    RunStores(codec, EMPTY_CORE, payloads, [], i, "", "", "");
    Unit(Run(DecoderMachine(Messages, codec), EMPTY_CORE, payloads).value.1);
    Unit(ThoughtsAt(codec, payloads, i));
    Unit(SignaturesAt(codec, payloads, i));
    Unit(DataAt(codec, payloads, i));
  }

  /** The kind of a block is the type that it started with. */
  lemma {:induction false} KindIsType(codec: Codec, core: Core, payloads: seq<Payload>, i: nat)
    requires Run(DecoderMachine(Messages, codec), core, payloads).Ok?
    requires i !in core.blocks
    ensures var last := Run(DecoderMachine(Messages, codec), core, payloads).value.0;
            i in last.blocks ==>
              exists k :: 0 <= k < |payloads| && At(Parsed(codec, payloads[k]), i) &&
                          Starts(Parsed(codec, payloads[k]), last.blocks[i].kind.Name())
    decreases |payloads|
  {
    hide Step;
    hide At;
    hide Starts;
    hide Parsed;
    if payloads != [] {
      var next := Step(Messages, codec, core, payloads[0]).value.0;
      var last := Run(DecoderMachine(Messages, codec), core, payloads).value.0;
      StepKind(codec, core, payloads[0], i);
      if i in next.blocks {
        KindStays(codec, next, payloads[1..], i);
      } else {
        KindIsType(codec, next, payloads[1..], i);
        if i in last.blocks {
          var k :| 0 <= k < |payloads[1..]| && At(Parsed(codec, payloads[1..][k]), i) &&
                   Starts(Parsed(codec, payloads[1..][k]), last.blocks[i].kind.Name());
          assert payloads[k + 1] == payloads[1..][k];
        }
      }
    }
  }

  lemma StepKind(codec: Codec, core: Core, payload: Payload, i: nat)
    requires Step(Messages, codec, core, payload).Ok?
    ensures var next := Step(Messages, codec, core, payload).value.0;
            && (i in core.blocks ==> i in next.blocks && next.blocks[i].kind == core.blocks[i].kind)
            && (i !in core.blocks && i in next.blocks ==>
                  At(Parsed(codec, payload), i) && Starts(Parsed(codec, payload), next.blocks[i].kind.Name()))
  {
    var value := codec.parse(payload.data).value;
    EventKind(codec, core, KindOf(EventString(value, "type").value), value, i);
    hide MessagesEvent;
  }

  lemma EventKind(codec: Codec, core: Core, kind: Kind, value: Json, i: nat)
    requires MessagesEvent(codec, core, kind, value).Ok? && (kind.BlockStart? ==> Typed(value, "content_block_start"))
    ensures var next := MessagesEvent(codec, core, kind, value).value.0;
            && (i in core.blocks ==> i in next.blocks && next.blocks[i].kind == core.blocks[i].kind)
            && (i !in core.blocks && i in next.blocks ==>
                  At(value, i) && Starts(value, next.blocks[i].kind.Name()))
  {
    hide UsageEvent;
    if kind.BlockStart? {
      OpenBlockForm(codec, EventIndex(value, "index").value, value.At("content_block"));
    } else if kind.BlockDelta? {
      var (index, block) := OpenBlockAt(core, value).value;
      DeltaForm(block, index, value.At("delta"));
    }
    hide OpenBlock;
    hide DeltaEvent;
    hide ThinkingItem;
    hide RedactedItem;
  }

  lemma {:induction false} KindStays(codec: Codec, core: Core, payloads: seq<Payload>, i: nat)
    requires Run(DecoderMachine(Messages, codec), core, payloads).Ok? && i in core.blocks
    ensures var last := Run(DecoderMachine(Messages, codec), core, payloads).value.0;
            i in last.blocks && last.blocks[i].kind == core.blocks[i].kind
    decreases |payloads|
  {
    hide Step;
    if payloads != [] {
      StepKind(codec, core, payloads[0], i);
      KindStays(codec, Step(Messages, codec, core, payloads[0]).value.0, payloads[1..], i);
    }
  }
}
