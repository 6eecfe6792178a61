/** The Chat Completions encoder: tool images move to a user message after their batch. */
module ChatEncoder {
  import opened Wrappers
  import opened History
  import opened Replay
  import opened Normalize
  import opened Sequences

  datatype ChatReasoning = Omit | Preserve | DeepSeek(disabled: bool)

  datatype ChatMessage =
    | ChatSystem(text: string)
    | ChatUser(content: Content)
    | ChatAssistant(answer: Option<string>, reasoning: Option<string>, calls: seq<ToolCall>)
    | ChatTool(callId: string, text: string)

  predicate Skipped(message: Message, mode: ChatReasoning) {
    message.Assistant? && mode.Omit? && EmptyText(message.answer) && message.calls == []
  }

  function SentReasoning(message: Message, mode: ChatReasoning): Option<string>
    requires message.Assistant?
  {
    match mode
    case Omit => None
    case Preserve => message.reasoning
    case DeepSeek(disabled) =>
      if !disabled || message.calls != [] then Some(message.reasoning.GetOr("")) else None
  }

  /** The chat message that a history message becomes, apart from a tool result's images. */
  function Translate(message: Message, mode: ChatReasoning): ChatMessage {
    match message
    case System(content) => ChatSystem(content)
    case User(content, images) => ChatUser(UserContent(content, images, ChatCompletions))
    case Assistant(_, answer, calls, _) => ChatAssistant(answer, SentReasoning(message, mode), calls)
    case Tool(callId, content, _, _) => ChatTool(callId, content)
  }

  function CallLabel(callId: string): Part {
    TextPart("tool_call_id: " + callId)
  }

  /** Each image preceded by the label of its call. */
  function Labelled(callId: string, images: seq<Image>): seq<Part> {
    if images == [] then []
    else Labelled(callId, images[..|images| - 1]) + [CallLabel(callId), ImagePart(images[|images| - 1])]
  }

  function ToolImages(message: Message): seq<Part> {
    if message.Tool? then Labelled(message.callId, message.images) else []
  }

  function LabelledImages(results: seq<Message>): seq<Part> {
    if results == [] then [] else ToolImages(results[0]) + LabelledImages(results[1..])
  }

  /** At most one user message: none when there are no images. */
  function ImageMessage(parts: seq<Part>): seq<ChatMessage> {
    if parts == [] then [] else [ChatUser(Parts(parts))]
  }

  function TranslateAll(messages: seq<Message>, mode: ChatReasoning): (sent: seq<ChatMessage>)
    ensures |sent| == |messages|
  {
    if messages == [] then [] else [Translate(messages[0], mode)] + TranslateAll(messages[1..], mode)
  }

  /** A message, then directly its tool results, then one user message with their labelled images. */
  function TranslateBatch(head: Message, results: seq<Message>, mode: ChatReasoning): seq<ChatMessage> {
    (if Skipped(head, mode) then [] else [Translate(head, mode)]) +
    TranslateAll(results, mode) + ImageMessage(LabelledImages(results))
  }

  /** The translation, batch by batch. */
  function ChatMessages(history: seq<Message>, mode: ChatReasoning): seq<ChatMessage>
    requires Answered(history)
    decreases |history|
  {
    if history == [] then []
    else
      var n := |CallsOf(history[0])|;
      TranslateBatch(history[0], history[1..n + 1], mode) + ChatMessages(history[n + 1..], mode)
  }

  predicate ReplaysOk(history: seq<Message>) {
    forall k :: 0 <= k < |history| && history[k].Assistant? ==> ReplayItems(history[k].replay, ChatCompletions).Ok?
  }

  // ---------------------------------------------------------------- properties of the translation

  lemma {:induction false} AnsweredConcat(a: seq<Message>, b: seq<Message>)
    requires Answered(a) && Answered(b)
    ensures Answered(a + b)
    decreases |a|
  {
    hide IsBatch;
    if a == [] {
      Unit(b);
    } else {
      RunOfConcat(a, b, |CallsOf(a[0])|);
      AnsweredConcat(a[|CallsOf(a[0])| + 1..], b);
    }
  }

  /** Batches translate independently of what surrounds them. */
  lemma {:induction false} TranslationSplits(a: seq<Message>, b: seq<Message>, mode: ChatReasoning)
    requires Answered(a) && Answered(b)
    ensures Answered(a + b)
    ensures ChatMessages(a + b, mode) == ChatMessages(a, mode) + ChatMessages(b, mode)
    decreases |a|
  {
    hide IsBatch;
    hide TranslateBatch;
    AnsweredConcat(a, b);
    if a == [] {
      Unit(b);
      Unit(ChatMessages(b, mode));
    } else {
      var n := |CallsOf(a[0])|;
      RunOfConcat(a, b, n);
      TranslationSplits(a[n + 1..], b, mode);
      Assoc(TranslateBatch(a[0], a[1..n + 1], mode), ChatMessages(a[n + 1..], mode), ChatMessages(b, mode));
    }
  }

  predicate AllChatTools(messages: seq<ChatMessage>) {
    messages == [] || (messages[0].ChatTool? && AllChatTools(messages[1..]))
  }

  function ChatAnswers(messages: seq<ChatMessage>): seq<string>
    requires AllChatTools(messages)
  {
    if messages == [] then [] else [messages[0].callId] + ChatAnswers(messages[1..])
  }

  function ChatCalls(message: ChatMessage): seq<ToolCall> {
    if message.ChatAssistant? then message.calls else []
  }

  predicate IsChatBatch(head: ChatMessage, results: seq<ChatMessage>) {
    && !head.ChatTool?
    && AllChatTools(results)
    && multiset(Ids(ChatCalls(head))) == multiset(ChatAnswers(results))
  }

  /** The shape providers require: each batch of calls is followed directly by exactly its results. */
  predicate ChatAnswered(messages: seq<ChatMessage>) {
    messages == [] ||
    ( var n := |ChatCalls(messages[0])|;
      n < |messages| && IsChatBatch(messages[0], messages[1..n + 1]) && ChatAnswered(messages[n + 1..]))
  }

  lemma ChatBatch(head: ChatMessage, results: seq<ChatMessage>, rest: seq<ChatMessage>)
    requires |ChatCalls(head)| == |results| && IsChatBatch(head, results) && ChatAnswered(rest)
    ensures ChatAnswered([head] + results + rest)
  {
    var all := [head] + results + rest;
    assert all[1..|results| + 1] == results && all[|results| + 1..] == rest;
  }

  lemma {:induction false} AnswersTranslated(results: seq<Message>, mode: ChatReasoning)
    requires AllTools(results)
    ensures AllChatTools(TranslateAll(results, mode)) && ChatAnswers(TranslateAll(results, mode)) == Answers(results)
  {
    if results != [] {
      AnswersTranslated(results[1..], mode);
      var tools := TranslateAll(results, mode);
      assert tools[1..] == TranslateAll(results[1..], mode);
    }
  }

  lemma BatchStaysTogether(head: Message, results: seq<Message>, mode: ChatReasoning, rest: seq<ChatMessage>)
    requires IsBatch(head, results) && |CallsOf(head)| == |results| && ChatAnswered(rest)
    ensures ChatAnswered(TranslateBatch(head, results, mode) + rest)
  {
    var tools, images := TranslateAll(results, mode), ImageMessage(LabelledImages(results));
    ImagesAlone(images, rest);
    if Skipped(head, mode) {
      Unit(images);
    } else {
      AnswersTranslated(results, mode);
      ChatBatch(Translate(head, mode), tools, images + rest);
      Assoc4([Translate(head, mode)], tools, images, rest);
    }
  }

  lemma ImagesAlone(images: seq<ChatMessage>, rest: seq<ChatMessage>)
    requires ChatAnswered(rest) && (images == [] || (|images| == 1 && images[0].ChatUser?))
    ensures ChatAnswered(images + rest)
  {
    Unit(rest);
    if images != [] {
      ChatBatch(images[0], [], rest);
      Unit(images);
    }
  }

  lemma {:induction false} BatchesStayTogether(history: seq<Message>, mode: ChatReasoning)
    requires Answered(history)
    ensures ChatAnswered(ChatMessages(history, mode))
    decreases |history|
  {
    if history != [] {
      var n := |CallsOf(history[0])|;
      BatchesStayTogether(history[n + 1..], mode);
      BatchStaysTogether(history[0], history[1..n + 1], mode, ChatMessages(history[n + 1..], mode));
    }
  }

  // Every image of the history is sent once, in order.

  function PartPictures(parts: seq<Part>): seq<Image> {
    if parts == [] then []
    else PartPictures(parts[..|parts| - 1]) +
         (if parts[|parts| - 1].ImagePart? then [parts[|parts| - 1].image] else [])
  }

  function SentPictures(messages: seq<ChatMessage>): seq<Image> {
    if messages == [] then []
    else SentPictures(messages[..|messages| - 1]) + MessagePictures(messages[|messages| - 1])
  }

  function MessagePictures(message: ChatMessage): seq<Image> {
    if message.ChatUser? && message.content.Parts? then PartPictures(message.content.parts) else []
  }

  function ImagesOf(message: Message): seq<Image> {
    match message
    case User(_, images) => images
    case Tool(_, _, images, _) => images
    case _ => []
  }

  function HistoryPictures(history: seq<Message>): seq<Image> {
    if history == [] then [] else ImagesOf(history[0]) + HistoryPictures(history[1..])
  }

  lemma {:induction false} SentPicturesConcat(a: seq<ChatMessage>, b: seq<ChatMessage>)
    ensures SentPictures(a + b) == SentPictures(a) + SentPictures(b)
  {
    hide MessagePictures;
    if b == [] {
      assert a + b == a;
    } else {
      var last := b[|b| - 1];
      assert (a + b)[..|a + b| - 1] == a + b[..|b| - 1] && (a + b)[|a + b| - 1] == last;
      SentPicturesConcat(a, b[..|b| - 1]);
      Assoc(SentPictures(a), SentPictures(b[..|b| - 1]), MessagePictures(last));
    }
  }

  lemma {:induction false} PartPicturesConcat(a: seq<Part>, b: seq<Part>)
    ensures PartPictures(a + b) == PartPictures(a) + PartPictures(b)
  {
    if b == [] {
      assert a + b == a;
    } else {
      assert (a + b)[..|a + b| - 1] == a + b[..|b| - 1];
      PartPicturesConcat(a, b[..|b| - 1]);
    }
  }

  lemma {:induction false} HistoryPicturesConcat(a: seq<Message>, b: seq<Message>)
    ensures HistoryPictures(a + b) == HistoryPictures(a) + HistoryPictures(b)
  {
    if a == [] {
      assert a + b == b;
    } else {
      assert (a + b)[1..] == a[1..] + b;
      HistoryPicturesConcat(a[1..], b);
    }
  }

  lemma {:induction false} ImagePartsPictures(images: seq<Image>)
    ensures PartPictures(ImageParts(images)) == images
  {
    if images != [] {
      var init := images[..|images| - 1];
      assert ImageParts(images)[..|images| - 1] == ImageParts(init);
      ImagePartsPictures(init);
    }
  }

  lemma {:induction false} LabelledPictures(callId: string, images: seq<Image>)
    ensures PartPictures(Labelled(callId, images)) == images
  {
    if images != [] {
      var init, last := images[..|images| - 1], images[|images| - 1];
      var pair := [CallLabel(callId), ImagePart(last)];
      LabelledPictures(callId, init);
      PartPicturesConcat(Labelled(callId, init), pair);
      assert pair[..1] == [CallLabel(callId)] && pair[..1][..0] == [];
      assert PartPictures(pair[..1]) == [];
      assert PartPictures(pair) == [last];
    }
  }

  lemma {:induction false} LabelledImagesPictures(results: seq<Message>)
    requires AllTools(results)
    ensures PartPictures(LabelledImages(results)) == HistoryPictures(results)
  {
    if results != [] {
      LabelledPictures(results[0].callId, results[0].images);
      LabelledImagesPictures(results[1..]);
      PartPicturesConcat(Labelled(results[0].callId, results[0].images), LabelledImages(results[1..]));
    }
  }

  lemma HeadPictures(message: Message, mode: ChatReasoning)
    requires !message.Tool?
    ensures SentPictures([Translate(message, mode)]) == ImagesOf(message)
  {
    var sent := [Translate(message, mode)];
    assert sent[..0] == [];
    if message.User? && message.images != [] {
      var text := if message.content != "" then [TextPart(message.content)] else [];
      PartPicturesConcat(text, ImageParts(message.images));
      ImagePartsPictures(message.images);
      assert text != [] ==> text[..0] == [];
      assert PartPictures(text) == [];
    }
  }

  lemma {:induction false} ToolsSendNoPictures(messages: seq<ChatMessage>)
    requires AllChatTools(messages)
    ensures SentPictures(messages) == []
  {
    if messages != [] {
      ToolsSendNoPictures(messages[1..]);
      SentPicturesConcat([messages[0]], messages[1..]);
      assert [messages[0]][..0] == [] && messages == [messages[0]] + messages[1..];
    }
  }

  lemma BatchPicturesKept(head: Message, results: seq<Message>, mode: ChatReasoning)
    requires IsBatch(head, results)
    ensures SentPictures(TranslateBatch(head, results, mode)) == ImagesOf(head) + HistoryPictures(results)
  {
    var sent := if Skipped(head, mode) then [] else [Translate(head, mode)];
    var tools, images := TranslateAll(results, mode), ImageMessage(LabelledImages(results));
    HeadPictures(head, mode);
    assert SentPictures(sent) == ImagesOf(head);
    AnswersTranslated(results, mode);
    ToolsSendNoPictures(tools);
    ImageMessagePictures(results);
    hide SentPictures;
    hide HistoryPictures;
    hide ImageMessage;
    SentPicturesConcat(sent, tools);
    SentPicturesConcat(sent + tools, images);
    Unit(ImagesOf(head));
  }

  lemma ImageMessagePictures(results: seq<Message>)
    requires AllTools(results)
    ensures SentPictures(ImageMessage(LabelledImages(results))) == HistoryPictures(results)
  {
    LabelledImagesPictures(results);
    var images := ImageMessage(LabelledImages(results));
    assert images != [] ==> images[..0] == [];
  }

  lemma {:induction false} PicturesKept(history: seq<Message>, mode: ChatReasoning)
    requires Answered(history)
    ensures SentPictures(ChatMessages(history, mode)) == HistoryPictures(history)
    decreases |history|
  {
    if history != [] {
      var n := |CallsOf(history[0])|;
      var results, rest := history[1..n + 1], history[n + 1..];
      BatchPicturesKept(history[0], results, mode);
      PicturesKept(rest, mode);
      HeadAndRun(history, n);
      hide IsBatch;
      hide TranslateBatch;
      SentPicturesConcat(TranslateBatch(history[0], results, mode), ChatMessages(rest, mode));
      HistoryPicturesConcat(results, rest);
      Assoc(ImagesOf(history[0]), HistoryPictures(results), HistoryPictures(rest));
    }
  }

  // ---------------------------------------------------------------- the encoder

  /** What is still to be sent when `pending` results and the collected `images` are outstanding. */
  ghost function Remaining(pending: set<string>, images: seq<Part>, rest: seq<Message>,
      mode: ChatReasoning): seq<ChatMessage>
    requires |pending| <= |rest| && AllTools(rest[..|pending|]) && Answered(rest[|pending|..])
  {
    var n := |pending|;
    TranslateAll(rest[..n], mode) + ImageMessage(images + LabelledImages(rest[..n])) + ChatMessages(rest[n..], mode)
  }

  lemma RemainingAtRest(rest: seq<Message>, mode: ChatReasoning)
    requires Answered(rest)
    ensures rest[0..] == rest && Remaining({}, [], rest, mode) == ChatMessages(rest, mode)
  {
    assert rest[0..] == rest;
  }

  lemma RemainingAfterHead(batch: set<string>, rest: seq<Message>, mode: ChatReasoning)
    requires rest != [] && Answered(rest) && |batch| == |CallsOf(rest[0])|
    ensures |batch| < |rest| && AllTools(rest[1..][..|batch|]) && Answered(rest[1..][|batch|..])
    ensures ChatMessages(rest, mode) ==
            (if Skipped(rest[0], mode) then [] else [Translate(rest[0], mode)]) + Remaining(batch, [], rest[1..], mode)
  {
    var n := |batch|;
    assert rest[1..][..n] == rest[1..n + 1] && rest[1..][n..] == rest[n + 1..];
    var results, later := rest[1..n + 1], ChatMessages(rest[n + 1..], mode);
    var sent := if Skipped(rest[0], mode) then [] else [Translate(rest[0], mode)];
    var tools, pictures := TranslateAll(results, mode), ImageMessage(LabelledImages(results));
    Unit(LabelledImages(results));
    hide IsBatch;
    assert ChatMessages(rest, mode) == sent + tools + pictures + later;
    Rotate(sent, tools, pictures, later);
  }

  lemma Rotate<T>(a: seq<T>, b: seq<T>, c: seq<T>, d: seq<T>)
    ensures a + b + c + d == a + (b + c + d)
  {
  }

  lemma RemainingAfterResult(pending: set<string>, images: seq<Part>, rest: seq<Message>, mode: ChatReasoning)
    requires 0 < |pending| <= |rest| && AllTools(rest[..|pending|]) && Answered(rest[|pending|..])
    requires rest[0].Tool? && rest[0].callId in pending
    ensures var later := pending - {rest[0].callId};
            var collected := images + Labelled(rest[0].callId, rest[0].images);
            && |later| == |pending| - 1
            && AllTools(rest[1..][..|later|]) && Answered(rest[1..][|later|..])
            && Remaining(pending, images, rest, mode) == [Translate(rest[0], mode)] +
                 (if later == {} then ImageMessage(collected) + Remaining({}, [], rest[1..], mode)
                  else Remaining(later, collected, rest[1..], mode))
  {
    var n := |pending|;
    var head, run, after := rest[0], rest[1..][..n - 1], rest[n..];
    assert |pending - {head.callId}| == n - 1;
    RunHead(rest, n);
    HeadOfRun(rest, n);
    var collected := Labelled(head.callId, head.images);
    assert LabelledImages(rest[..n]) == collected + LabelledImages(run);
    Assoc(images, collected, LabelledImages(run));
    var pictures := ImageMessage(images + collected + LabelledImages(run));
    var tools, later := TranslateAll(run, mode), ChatMessages(after, mode);
    assert TranslateAll(rest[..n], mode) == [Translate(head, mode)] + tools;
    Rotate([Translate(head, mode)], tools, pictures, later);
    if pending - {head.callId} == {} {
      assert run == [];
      Unit(images + collected);
      RemainingAtRest(rest[1..], mode);
      Unit(pictures);
    }
  }

  lemma HeadOfRun<T>(s: seq<T>, n: nat)
    requires 0 < n <= |s|
    ensures s[..n][0] == s[0] && s[..n][1..] == s[1..][..n - 1]
  {
  }

  /**
   Encoding succeeds exactly when the history is accepted and its replays are well formed, and then
   sends it batch by batch.
   */
  method Encode(request: DomainRequest, mode: ChatReasoning, sizes: Sizes)
      returns (r: Result<seq<ChatMessage>, ErrorKind>)
    ensures r.Ok? <==> WithinLimits(request, sizes) && WellPaired(request.messages) && ReplaysOk(request.messages)
    ensures r.Ok? ==> r.value == ChatMessages(request.messages, mode)
  {
    var normalized := Normalize.Normalize(request, sizes);
    if normalized.Err? {
      return Err(normalized.error);
    }
    r := EncodeMessages(request.messages, mode);
  }

  /** The loop invariant: what was sent and what is still owed make up the whole translation. */
  ghost predicate Balanced(sent: seq<ChatMessage>, pending: set<string>, seen: set<string>, images: seq<Part>,
                           rest: seq<Message>, mode: ChatReasoning, whole: seq<ChatMessage>)
  {
    && Resumable(pending, seen, rest)
    && (pending == {} ==> images == [])
    && sent + Remaining(pending, images, rest, mode) == whole
  }

  lemma BalancedAfterHead(sent: seq<ChatMessage>, pending: set<string>, seen: set<string>, images: seq<Part>,
                          rest: seq<Message>, mode: ChatReasoning, whole: seq<ChatMessage>)
    requires Balanced(sent, pending, seen, images, rest, mode, whole)
    requires rest != [] && !rest[0].Tool?
    ensures var batch := set id | id in Ids(CallsOf(rest[0]));
            var sent' := if Skipped(rest[0], mode) then sent else sent + [Translate(rest[0], mode)];
            pending == {} && images == [] && Balanced(sent', batch, seen + batch, [], rest[1..], mode, whole)
  {
    var batch := set id | id in Ids(CallsOf(rest[0]));
    ResumeStep(pending, seen, rest);
    IdsAreASet(Ids(CallsOf(rest[0])));
    RemainingAtRest(rest, mode);
    RemainingAfterHead(batch, rest, mode);
    hide Resumable;
    hide Remaining;
    hide ChatMessages;
    var now := if Skipped(rest[0], mode) then [] else [Translate(rest[0], mode)];
    Assoc(sent, now, Remaining(batch, [], rest[1..], mode));
    Unit(sent);
  }

  lemma BalancedAfterResult(sent: seq<ChatMessage>, pending: set<string>, seen: set<string>, images: seq<Part>,
                            rest: seq<Message>, mode: ChatReasoning, whole: seq<ChatMessage>)
    requires Balanced(sent, pending, seen, images, rest, mode, whole)
    requires rest != [] && rest[0].Tool?
    ensures var later := pending - {rest[0].callId};
            var sent' := sent + [Translate(rest[0], mode)];
            var collected := images + Labelled(rest[0].callId, rest[0].images);
            if later == {} then Balanced(sent' + ImageMessage(collected), later, seen, [], rest[1..], mode, whole)
            else Balanced(sent', later, seen, collected, rest[1..], mode, whole)
  {
    var later, now := pending - {rest[0].callId}, [Translate(rest[0], mode)];
    var collected := images + Labelled(rest[0].callId, rest[0].images);
    ResumeStep(pending, seen, rest);
    RemainingAfterResult(pending, images, rest, mode);
    if later == {} {
      Assoc(sent + now, ImageMessage(collected), Remaining({}, [], rest[1..], mode));
      Assoc(sent, now, ImageMessage(collected) + Remaining({}, [], rest[1..], mode));
    } else {
      Assoc(sent, now, Remaining(later, collected, rest[1..], mode));
    }
  }

  lemma ReplaysGrow(history: seq<Message>, i: nat)
    requires i < |history|
    ensures ReplaysOk(history[..i + 1]) <==>
            ReplaysOk(history[..i]) && (history[i].Assistant? ==> ReplayItems(history[i].replay, ChatCompletions).Ok?)
    ensures ReplaysOk(history) ==> ReplaysOk(history[..i + 1])
  {
    assert forall k :: 0 <= k < i ==> history[..i + 1][k] == history[..i][k];
    assert history[..i + 1][i] == history[i];
  }

  /** The body of the encoder's loop, once the replay of `message` was checked. */
  method Send(message: Message, mode: ChatReasoning, sent: seq<ChatMessage>, pending: set<string>, images: seq<Part>,
              ghost seen: set<string>, ghost rest: seq<Message>, ghost whole: seq<ChatMessage>)
    returns (sent': seq<ChatMessage>, pending': set<string>, images': seq<Part>, ghost seen': set<string>)
    requires rest != [] && rest[0] == message
    requires Balanced(sent, pending, seen, images, rest, mode, whole)
    ensures Balanced(sent', pending', seen', images', rest[1..], mode, whole)
  {
    hide Balanced;
    sent', pending', images', seen' := sent, pending, images, seen;
    if message.Tool? {
      BalancedAfterResult(sent, pending, seen, images, rest, mode, whole);
      images' := images + Labelled(message.callId, message.images);
      pending' := pending - {message.callId};
    } else {
      BalancedAfterHead(sent, pending, seen, images, rest, mode, whole);
      var ids := Ids(CallsOf(message));
      pending' := pending + set id | id in ids;
      assert pending' == set id | id in ids;
      seen' := seen + pending';
    }
    if Skipped(message, mode) {
      return;
    }
    sent' := sent + [Translate(message, mode)];
    Unit(sent');
    if pending' == {} && images' != [] {
      sent' := sent' + [ChatUser(Parts(images'))];
      images' := [];
    }
  }

  method EncodeMessages(history: seq<Message>, mode: ChatReasoning) returns (r: Result<seq<ChatMessage>, ErrorKind>)
    requires WellPaired(history)
    ensures r.Ok? <==> ReplaysOk(history)
    ensures r.Ok? ==> r.value == ChatMessages(history, mode)
  {
    hide Balanced;
    hide ReplaysOk;
    hide ReplayItems;
    NothingSent(history, mode);
    ghost var whole := ChatMessages(history, mode);
    hide WellPaired;
    hide ChatMessages;
    var messages, images := [], [];
    var pending := {};
    ghost var seen := {};
    for i := 0 to |history|
      invariant ReplaysOk(history[..i])
      invariant Balanced(messages, pending, seen, images, history[i..], mode, whole)
    {
      assert history[i..][0] == history[i] && history[i..][1..] == history[i + 1..];
      ReplaysGrow(history, i);
      if history[i].Assistant? {
        var checked := ReplayItems(history[i].replay, ChatCompletions);
        if checked.Err? {
          return Err(checked.error);
        }
      }
      messages, pending, images, seen := Send(history[i], mode, messages, pending, images, seen, history[i..], whole);
    }
    assert history[..|history|] == history && history[|history|..] == [];
    AllSent(messages, pending, seen, images, mode, whole);
    return Ok(messages);
  }

  lemma NothingSent(history: seq<Message>, mode: ChatReasoning)
    requires WellPaired(history)
    ensures Balanced([], {}, {}, [], history[0..], mode, ChatMessages(history, mode)) && ReplaysOk(history[..0])
  {
    assert history[0..] == history && history[..0] == [];
    RemainingAtRest(history, mode);
    Unit(ChatMessages(history, mode));
  }

  lemma AllSent(sent: seq<ChatMessage>, pending: set<string>, seen: set<string>, images: seq<Part>,
                mode: ChatReasoning, whole: seq<ChatMessage>)
    requires Balanced(sent, pending, seen, images, [], mode, whole)
    ensures sent == whole
  {
    EndOfHistory(pending, seen);
    RemainingAtRest([], mode);
    Unit(sent);
  }
}
