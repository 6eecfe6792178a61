/** What the three request shapes say, message by message, in terms of the fields of the history. */
module EncodedContents {
  import opened Wrappers
  import opened Json
  import opened History
  import opened Replay
  import opened Sequences
  import M = MessagesEncoder
  import R = ResponsesEncoder
  import C = ChatEncoder

  // ---------------------------------------------------------------- user content and replay

  /** The text, unless it is empty and there are images, and then the images in order. */
  predicate ShowsParts(parts: seq<Part>, text: string, images: seq<Image>) {
    var t := if text != "" || images == [] then 1 else 0;
    && |parts| == t + |images|
    && (t == 1 ==> parts[0] == TextPart(text))
    && forall k :: 0 <= k < |images| ==> parts[t + k] == ImagePart(images[k])
  }

  /** Plain text where that is enough, parts otherwise. */
  predicate Shows(content: Content, text: string, images: seq<Image>, alwaysParts: bool) {
    if images == [] && !alwaysParts then content == Plain(text)
    else content.Parts? && ShowsParts(content.parts, text, images)
  }

  lemma UserContentShows(text: string, images: seq<Image>, format: ApiFormat)
    ensures Shows(UserContent(text, images, format), text, images, format.Messages?)
  {
  }

  /** A replay comes back to the format that is named in it, item for item, and to no other. */
  predicate Replays(items: seq<Json>, replay: Option<Json>, name: string) {
    if replay.Some? && replay.value.At("api_format") == Str(name) then replay.value.At("items") == Arr(items)
    else items == []
  }

  lemma ReplayItemsReplay(replay: Option<Json>, format: ApiFormat)
    requires ReplayItems(replay, format).Ok?
    ensures format.Messages? ==> Replays(ReplayItems(replay, format).value, replay, "messages")
    ensures format.Responses? ==> Replays(ReplayItems(replay, format).value, replay, "responses")
  {
    assert "messages"[0] == 'm' && "responses"[0] == 'r' && "chat_completions"[0] == 'c';
  }

  /** A replay item that is complete for the format of that name. */
  predicate CompleteItem(item: Json, name: string) {
    if name == "messages" then
      || (item.At("type") == Str("thinking") && item.At("thinking").Str?
          && item.At("signature").Str? && item.At("signature").text != "")
      || (item.At("type") == Str("redacted_thinking") && item.At("data").Str? && item.At("data").text != "")
    else
      && name == "responses" && item.At("type") == Str("reasoning")
      && item.At("id").Str? && item.At("id").text != "" && item.At("summary").Arr?
      && (item.Get("content").Some? ==> item.At("content").Arr?)
      && (item.At("encrypted_content") == Null || item.At("encrypted_content").Str?)
  }

  /** A replay names one of the two formats that have one, and holds complete items of it, at least one. */
  predicate CompleteReplay(replay: Json) {
    && replay.At("api_format").Str? && replay.At("api_format").text in ["messages", "responses"]
    && replay.At("items").Arr? && replay.At("items").items != []
    && forall k :: 0 <= k < |replay.At("items").items| ==>
         CompleteItem(replay.At("items").items[k], replay.At("api_format").text)
  }

  /** Whatever format asks, exactly the complete replays are accepted. */
  lemma ReplayDecided(replay: Option<Json>, format: ApiFormat)
    ensures ReplayItems(replay, format).Ok? <==> replay.None? || CompleteReplay(replay.value)
    ensures ReplayItems(replay, format).Err? ==> ReplayItems(replay, format).error == InvalidParameters
  {
    hide ReplayItemOk;
    hide CompleteItem;
    if replay.Some? && ParseFormat(replay.value.At("api_format")).Some? {
      var f := ParseFormat(replay.value.At("api_format")).value;
      FormatDecided(replay.value.At("api_format"));
      ItemsDecided(replay.value, f);
    } else if replay.Some? {
      FormatDecided(replay.value.At("api_format"));
    }
    hide ParseFormat;
    hide StrictReplayItems;
  }

  lemma FormatDecided(name: Json)
    ensures ParseFormat(name).Some? <==>
            name in [Str("chat_completions"), Str("messages"), Str("responses")]
    ensures ParseFormat(name).Some? ==> name == Str(ParseFormat(name).value.AsStr())
  {
  }

  lemma ItemDecided(item: Json, format: ApiFormat)
    ensures ReplayItemOk(item, format) <==> CompleteItem(item, format.AsStr())
  {
    assert "messages"[0] == 'm' && "responses"[0] == 'r' && "chat_completions"[0] == 'c';
    assert "thinking"[0] == 't' && "redacted_thinking"[0] == 'r';
  }

  lemma ItemsDecided(replay: Json, format: ApiFormat)
    requires replay.At("api_format") == Str(format.AsStr())
    ensures StrictReplayItems(replay, format).Ok? <==> CompleteReplay(replay)
    ensures StrictReplayItems(replay, format).Err? ==> StrictReplayItems(replay, format).error == InvalidParameters
  {
    hide ReplayItemOk;
    assert "messages"[0] == 'm' && "responses"[0] == 'r' && "chat_completions"[0] == 'c';
    if replay.At("items").Arr? {
      var items := replay.At("items").items;
      forall k | 0 <= k < |items|
        ensures ReplayItemOk(items[k], format) <==> CompleteItem(items[k], format.AsStr())
      {
        ItemDecided(items[k], format);
      }
      if items != [] && format.ChatCompletions? {
        assert !CompleteItem(items[0], format.AsStr());
      }
    }
    hide CompleteItem;
  }

  // ---------------------------------------------------------------- Messages

  /** The number of reasoning items that a message replays. */
  function Replayed(replay: Option<Json>, name: string): nat {
    if replay.Some? && replay.value.At("api_format") == Str(name) && replay.value.At("items").Arr?
    then |replay.value.At("items").items| else 0
  }

  function TurnSize(message: Message): nat {
    match message
    case System(_) => 0
    case User(content, images) => (if content != "" || images == [] then 1 else 0) + |images|
    case Assistant(_, answer, calls, replay) =>
      Replayed(replay, "messages") + (if answer.Some? then 1 else 0) + |calls|
    case Tool(_, _, _, _) => 1
  }

  /** Some blocks, with their roles, say exactly what a message holds. */
  predicate Carries(part: seq<(M.Role, M.Block)>, message: Message) {
    && |part| == TurnSize(message)
    && match message
       case System(_) => true
       case User(content, images) =>
         var t := if content != "" || images == [] then 1 else 0;
         && (t == 1 ==> part[0] == (M.UserRole, M.Piece(TextPart(content))))
         && forall k :: 0 <= k < |images| ==> part[t + k] == (M.UserRole, M.Piece(ImagePart(images[k])))
       case Assistant(_, answer, calls, replay) =>
         var r := Replayed(replay, "messages");
         var a := if answer.Some? then 1 else 0;
         && (forall k :: 0 <= k < r ==> part[k] == (M.AssistantRole, M.Reasoning(replay.value.At("items").items[k])))
         && (a == 1 ==> part[r] == (M.AssistantRole, M.Piece(TextPart(answer.value))))
         && forall k :: 0 <= k < |calls| ==>
              part[r + a + k] == (M.AssistantRole, M.ToolUse(calls[k].id, calls[k].name, calls[k].arguments))
       case Tool(callId, content, images, failed) =>
         && part[0].0 == M.UserRole && part[0].1.ToolResult?
         && part[0].1.callId == callId && part[0].1.isError == failed
         && Shows(part[0].1.content, content, images, images != [])
  }

  /** The blocks say the messages of a history, one after the other, and nothing else. */
  predicate CarriesAll(flat: seq<(M.Role, M.Block)>, history: seq<Message>)
    decreases |history|
  {
    if history == [] then flat == []
    else
      var n := TurnSize(history[0]);
      n <= |flat| && Carries(flat[..n], history[0]) && CarriesAll(flat[n..], history[1..])
  }

  lemma BlocksCarry(message: Message)
    requires M.BlocksOf(message).Ok?
    ensures Carries(M.WithRole(M.RoleOf(message), M.BlocksOf(message).value), message)
  {
    match message {
      case Assistant(_, answer, calls, replay) =>
        AssistantBlocksCarry(message);
      case _ =>
    }
  }

  lemma AssistantBlocksCarry(message: Message)
    requires message.Assistant? && M.BlocksOf(message).Ok?
    ensures Carries(M.WithRole(M.RoleOf(message), M.BlocksOf(message).value), message)
  {
    ReplayItemsReplay(message.replay, Messages);
    hide ReplayItems;
  }

  /** However turns are merged, the Messages request says the history, message by message. */
  lemma {:induction false} RetainedSaysHistory(history: seq<Message>)
    requires M.Encodable(history)
    ensures CarriesAll(M.RetainedBlocks(history), history)
    decreases |history|
  {
    if history != [] {
      var now := M.WithRole(M.RoleOf(history[0]), M.BlocksOf(history[0]).value);
      BlocksCarry(history[0]);
      RetainedSaysHistory(history[1..]);
      hide Carries;
      hide M.BlocksOf;
      assert |now| == TurnSize(history[0]) by {
        CarriesSize(now, history[0]);
      }
      var flat := M.RetainedBlocks(history);
      assert flat[..|now|] == now && flat[|now|..] == M.RetainedBlocks(history[1..]);
    }
  }

  lemma CarriesSize(part: seq<(M.Role, M.Block)>, message: Message)
    requires Carries(part, message)
    ensures |part| == TurnSize(message)
  {
  }

  lemma TurnsSayHistory(history: seq<Message>)
    requires M.Encodable(history)
    ensures CarriesAll(M.Flatten(M.AbsorbAll([], history)), history)
  {
    M.AbsorbedShape([], history);
    RetainedSaysHistory(history);
    Unit(M.RetainedBlocks(history));
  }

  // ---------------------------------------------------------------- Responses

  function ItemCount(message: Message): nat {
    match message
    case Assistant(_, answer, calls, replay) =>
      Replayed(replay, "responses") + (if answer.Some? then 1 else 0) + |calls|
    case _ => 1
  }

  predicate Lists(part: seq<R.Item>, message: Message) {
    && |part| == ItemCount(message)
    && match message
       case System(content) => part[0] == R.SystemItem(content)
       case User(content, images) => part[0].UserItem? && Shows(part[0].message, content, images, false)
       case Assistant(_, answer, calls, replay) =>
         var r := Replayed(replay, "responses");
         var a := if answer.Some? then 1 else 0;
         && (forall k :: 0 <= k < r ==> part[k] == R.ReasoningEntry(replay.value.At("items").items[k]))
         && (a == 1 ==> part[r] == R.AnswerItem(answer.value))
         && forall k :: 0 <= k < |calls| ==> part[r + a + k] == R.CallItem(calls[k])
       case Tool(callId, content, images, _) =>
         part[0].OutputItem? && part[0].callId == callId && Shows(part[0].output, content, images, false)
  }

  predicate ListsAll(items: seq<R.Item>, history: seq<Message>)
    decreases |history|
  {
    if history == [] then items == []
    else
      var n := ItemCount(history[0]);
      n <= |items| && Lists(items[..n], history[0]) && ListsAll(items[n..], history[1..])
  }

  lemma ItemsList(message: Message)
    requires R.ItemsOf(message).Ok?
    ensures Lists(R.ItemsOf(message).value, message)
  {
    if message.Assistant? {
      ReplayItemsReplay(message.replay, Responses);
      hide ReplayItems;
    }
  }

  lemma ListsCount(part: seq<R.Item>, message: Message)
    requires Lists(part, message)
    ensures |part| == ItemCount(message)
  {
  }

  /** The Responses input says the history, message by message. */
  lemma {:induction false} ItemsSayHistory(history: seq<Message>)
    requires R.Encodable(history)
    ensures ListsAll(R.Items(history), history)
    decreases |history|
  {
    if history != [] {
      var now := R.ItemsOf(history[0]).value;
      ItemsList(history[0]);
      ListsCount(now, history[0]);
      ItemsSayHistory(history[1..]);
      hide Lists;
      hide R.ItemsOf;
      var items := R.Items(history);
      assert items[..|now|] == now && items[|now|..] == R.Items(history[1..]);
    }
  }

  // ---------------------------------------------------------------- Chat

  /** Nothing of this message is sent: there is neither answer nor call, and reasoning is left out. */
  predicate Dropped(message: Message, mode: C.ChatReasoning) {
    && message.Assistant? && mode.Omit?
    && message.calls == [] && (message.answer.None? || message.answer.value == "")
  }

  predicate Conveys(sent: C.ChatMessage, message: Message, mode: C.ChatReasoning) {
    match message
    case System(content) => sent == C.ChatSystem(content)
    case User(content, images) => sent.ChatUser? && Shows(sent.content, content, images, false)
    case Tool(callId, content, _, _) => sent == C.ChatTool(callId, content)
    case Assistant(reasoning, answer, calls, _) =>
      && sent.ChatAssistant? && sent.answer == answer && sent.calls == calls
      && match mode
         case Omit => sent.reasoning.None?
         case Preserve => sent.reasoning == reasoning
         case DeepSeek(disabled) =>
           if disabled && calls == [] then sent.reasoning.None?
           else sent.reasoning == Some(if reasoning.Some? then reasoning.value else "")
  }

  /** The images of some tool results, each with the id of its call. */
  function Pictures(results: seq<Message>): seq<(string, Image)> {
    if results == [] then []
    else
      var last := results[|results| - 1];
      Pictures(results[..|results| - 1]) +
      if last.Tool? then seq(|last.images|, k requires 0 <= k < |last.images| => (last.callId, last.images[k])) else []
  }

  /** A label and the image, for each of them. */
  predicate Labels(parts: seq<Part>, pictures: seq<(string, Image)>) {
    && |parts| == 2 * |pictures|
    && forall k :: 0 <= k < |pictures| ==>
         parts[2 * k] == TextPart("tool_call_id: " + pictures[k].0) && parts[2 * k + 1] == ImagePart(pictures[k].1)
  }

  function BatchSize(head: Message, results: seq<Message>, mode: C.ChatReasoning): nat {
    (if Dropped(head, mode) then 0 else 1) + |results| + if Pictures(results) == [] then 0 else 1
  }

  /** A message, its results, and then, if these hold images, one message with all of them. */
  predicate ConveysBatch(sent: seq<C.ChatMessage>, head: Message, results: seq<Message>, mode: C.ChatReasoning) {
    var s := if Dropped(head, mode) then 0 else 1;
    var n, pictures := |results|, Pictures(results);
    && |sent| == BatchSize(head, results, mode)
    && (s == 1 ==> Conveys(sent[0], head, mode))
    && (forall k :: 0 <= k < n ==> Conveys(sent[s + k], results[k], mode))
    && (pictures != [] ==>
          sent[s + n].ChatUser? && sent[s + n].content.Parts? && Labels(sent[s + n].content.parts, pictures))
  }

  predicate ConveysAll(sent: seq<C.ChatMessage>, history: seq<Message>, mode: C.ChatReasoning)
    requires Answered(history)
    decreases |history|
  {
    if history == [] then sent == []
    else
      var n := |CallsOf(history[0])|;
      var size := BatchSize(history[0], history[1..n + 1], mode);
      && size <= |sent|
      && ConveysBatch(sent[..size], history[0], history[1..n + 1], mode)
      && ConveysAll(sent[size..], history[n + 1..], mode)
  }

  lemma TranslateConveys(message: Message, mode: C.ChatReasoning)
    ensures Conveys(C.Translate(message, mode), message, mode)
  {
  }

  lemma LabelsConcat(a: seq<Part>, b: seq<Part>, p: seq<(string, Image)>, q: seq<(string, Image)>)
    requires Labels(a, p) && Labels(b, q)
    ensures Labels(a + b, p + q)
  {
    var parts, pictures := a + b, p + q;
    forall k | 0 <= k < |pictures|
      ensures parts[2 * k] == TextPart("tool_call_id: " + pictures[k].0) &&
              parts[2 * k + 1] == ImagePart(pictures[k].1)
    {
      if k >= |p| {
        assert pictures[k] == q[k - |p|];
        assert parts[2 * k] == b[2 * (k - |p|)] && parts[2 * k + 1] == b[2 * (k - |p|) + 1];
      } else {
        assert pictures[k] == p[k];
      }
    }
  }

  lemma {:induction false} LabelledLabels(callId: string, images: seq<Image>)
    ensures Labels(C.Labelled(callId, images), seq(|images|, k requires 0 <= k < |images| => (callId, images[k])))
  {
    if images != [] {
      var n := |images| - 1;
      LabelledLabels(callId, images[..n]);
      LabelsConcat(C.Labelled(callId, images[..n]), [C.CallLabel(callId), ImagePart(images[n])],
                   seq(n, k requires 0 <= k < n => (callId, images[..n][k])), [(callId, images[n])]);
      assert seq(|images|, k requires 0 <= k < |images| => (callId, images[k])) ==
             seq(n, k requires 0 <= k < n => (callId, images[..n][k])) + [(callId, images[n])];
    }
  }

  lemma {:induction false} ImagesLabelled(before: seq<Message>, results: seq<Message>, parts: seq<Part>)
    requires Labels(parts, Pictures(before))
    ensures Labels(parts + C.LabelledImages(results), Pictures(before + results))
    decreases |results|
  {
    if results == [] {
      Unit(parts);
      Unit(before);
    } else {
      var first := results[0];
      assert (before + [first])[..|before|] == before;
      if first.Tool? {
        LabelledLabels(first.callId, first.images);
        LabelsConcat(parts, C.ToolImages(first), Pictures(before),
                     seq(|first.images|, k requires 0 <= k < |first.images| => (first.callId, first.images[k])));
      } else {
        Unit(parts);
        Unit(Pictures(before));
      }
      hide Labels;
      hide C.Labelled;
      ImagesLabelled(before + [first], results[1..], parts + C.ToolImages(first));
      assert before + [first] + results[1..] == before + results;
      Assoc(parts, C.ToolImages(first), C.LabelledImages(results[1..]));
    }
  }

  lemma {:induction false} ResultsConveyed(results: seq<Message>, mode: C.ChatReasoning)
    ensures forall k :: 0 <= k < |results| ==> Conveys(C.TranslateAll(results, mode)[k], results[k], mode)
  {
    hide Conveys;
    if results != [] {
      TranslateConveys(results[0], mode);
      ResultsConveyed(results[1..], mode);
      var sent := C.TranslateAll(results, mode);
      forall k | 0 <= k < |results| ensures Conveys(sent[k], results[k], mode) {
        if k > 0 {
          assert sent[k] == C.TranslateAll(results[1..], mode)[k - 1] && results[k] == results[1..][k - 1];
        }
      }
    }
  }

  ghost predicate Spread<T>(sent: seq<T>, a: seq<T>, b: seq<T>, c: seq<T>) {
    && |sent| == |a| + |b| + |c|
    && (a != [] ==> sent[0] == a[0])
    && (forall k :: 0 <= k < |b| ==> sent[|a| + k] == b[k])
    && (c != [] ==> sent[|a| + |b|] == c[0])
  }

  lemma Spreads<T>(a: seq<T>, b: seq<T>, c: seq<T>)
    ensures Spread(a + b + c, a, b, c)
  {
  }

  lemma Batched(sent: seq<C.ChatMessage>, first: seq<C.ChatMessage>, tools: seq<C.ChatMessage>, parts: seq<Part>,
                head: Message, results: seq<Message>, mode: C.ChatReasoning)
    requires Spread(sent, first, tools, C.ImageMessage(parts))
    requires |first| == (if Dropped(head, mode) then 0 else 1) && (first != [] ==> Conveys(first[0], head, mode))
    requires |tools| == |results| && forall k :: 0 <= k < |results| ==> Conveys(tools[k], results[k], mode)
    requires Labels(parts, Pictures(results)) && (parts == [] <==> Pictures(results) == [])
    ensures ConveysBatch(sent, head, results, mode)
  {
    hide Conveys;
    hide Pictures;
    hide Labels;
    hide Dropped;
  }

  lemma BatchConveyed(head: Message, results: seq<Message>, mode: C.ChatReasoning)
    ensures ConveysBatch(C.TranslateBatch(head, results, mode), head, results, mode)
  {
    hide ConveysBatch;
    hide Conveys;
    hide Pictures;
    hide Labels;
    hide Spread;
    hide C.LabelledImages;
    hide C.TranslateAll;
    hide C.Translate;
    TranslateConveys(head, mode);
    ResultsConveyed(results, mode);
    AllLabelled(results);
    var first := if C.Skipped(head, mode) then [] else [C.Translate(head, mode)];
    var tools, parts := C.TranslateAll(results, mode), C.LabelledImages(results);
    Spreads(first, tools, C.ImageMessage(parts));
    hide C.ImageMessage;
    Batched(C.TranslateBatch(head, results, mode), first, tools, parts, head, results, mode);
  }

  lemma AllLabelled(results: seq<Message>)
    ensures Labels(C.LabelledImages(results), Pictures(results))
    ensures C.LabelledImages(results) == [] <==> Pictures(results) == []
  {
    ImagesLabelled([], results, []);
    Unit(results);
    Unit(C.LabelledImages(results));
    hide Pictures;
    hide C.LabelledImages;
  }

  lemma ConveysSize(sent: seq<C.ChatMessage>, head: Message, results: seq<Message>, mode: C.ChatReasoning)
    requires ConveysBatch(sent, head, results, mode)
    ensures |sent| == BatchSize(head, results, mode)
  {
  }

  /** The Chat messages say the history, batch by batch. */
  lemma {:induction false} MessagesSayHistory(history: seq<Message>, mode: C.ChatReasoning)
    requires Answered(history)
    ensures ConveysAll(C.ChatMessages(history, mode), history, mode)
    decreases |history|
  {
    hide ConveysBatch;
    hide C.TranslateBatch;
    hide IsBatch;
    hide BatchSize;
    if history != [] {
      var n := |CallsOf(history[0])|;
      var results, rest := history[1..n + 1], history[n + 1..];
      BatchConveyed(history[0], results, mode);
      ConveysSize(C.TranslateBatch(history[0], results, mode), history[0], results, mode);
      MessagesSayHistory(rest, mode);
      var batch := C.TranslateBatch(history[0], results, mode);
      var sent := C.ChatMessages(history, mode);
      assert sent[..|batch|] == batch && sent[|batch|..] == C.ChatMessages(rest, mode);
    }
  }
}
