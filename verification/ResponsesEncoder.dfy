/** The Responses encoder: one list of input items for a whole history. */
module ResponsesEncoder {
  import opened Wrappers
  import opened Json
  import opened History
  import opened Replay
  import opened Sequences
  import opened Normalize

  datatype Item =
    | SystemItem(content: string)
    | UserItem(message: Content)
    | ReasoningEntry(item: Json)
    | AnswerItem(text: string)
    | CallItem(call: ToolCall)
    | OutputItem(callId: string, output: Content)

  function Entries(items: seq<Json>): seq<Item> {
    seq(|items|, k requires 0 <= k < |items| => ReasoningEntry(items[k]))
  }

  function CallItems(calls: seq<ToolCall>): seq<Item> {
    seq(|calls|, k requires 0 <= k < |calls| => CallItem(calls[k]))
  }

  function AnswerItems(answer: Option<string>): seq<Item> {
    if answer.Some? then [AnswerItem(answer.value)] else []
  }

  function ItemsOf(message: Message): Result<seq<Item>, ErrorKind> {
    match message
    case System(content) => Ok([SystemItem(content)])
    case User(content, images) => Ok([UserItem(UserContent(content, images, Responses))])
    case Assistant(_, answer, calls, replay) =>
      var items :- ReplayItems(replay, Responses);
      Ok(Entries(items) + AnswerItems(answer) + CallItems(calls))
    case Tool(callId, content, images, _) => Ok([OutputItem(callId, UserContent(content, images, Responses))])
  }

  predicate Encodable(history: seq<Message>) {
    forall k :: 0 <= k < |history| ==> ItemsOf(history[k]).Ok?
  }

  function Items(history: seq<Message>): seq<Item>
    requires Encodable(history)
  {
    if history == [] then [] else ItemsOf(history[0]).value + Items(history[1..])
  }

  // ---------------------------------------------------------------- the shape of the input

  predicate AllOutputs(items: seq<Item>) {
    forall k :: 0 <= k < |items| ==> items[k].OutputItem?
  }

  function OutputIds(items: seq<Item>): (ids: seq<string>)
    requires AllOutputs(items)
  {
    if items == [] then [] else [items[0].callId] + OutputIds(items[1..])
  }

  /** The calls at the front. */
  function LeadingCalls(items: seq<Item>): seq<ToolCall> {
    if items != [] && items[0].CallItem? then [items[0].call] + LeadingCalls(items[1..]) else []
  }

  /** Every run of calls is followed directly by exactly one output for each, in any order; there is no other. */
  predicate ItemsAnswered(items: seq<Item>)
    decreases |items|
  {
    var n := |LeadingCalls(items)|;
    if items == [] then true
    else if n == 0 then !items[0].OutputItem? && ItemsAnswered(items[1..])
    else
      && 2 * n <= |items|
      && AllOutputs(items[n..2 * n])
      && multiset(Ids(LeadingCalls(items))) == multiset(OutputIds(items[n..2 * n]))
      && ItemsAnswered(items[2 * n..])
  }

  /** Items that are neither calls nor outputs change nothing. */
  lemma {:induction false} OthersAhead(others: seq<Item>, rest: seq<Item>)
    requires forall k :: 0 <= k < |others| ==> !others[k].CallItem? && !others[k].OutputItem?
    requires ItemsAnswered(rest)
    ensures ItemsAnswered(others + rest)
  {
    if others == [] {
      Unit(rest);
    } else {
      assert (others + rest)[1..] == others[1..] + rest;
      OthersAhead(others[1..], rest);
    }
  }

  lemma {:induction false} CallsLead(calls: seq<ToolCall>, rest: seq<Item>)
    requires rest != [] && !rest[0].CallItem?
    ensures LeadingCalls(CallItems(calls) + rest) == calls
  {
    if calls == [] {
      Unit(rest);
    } else {
      var items := CallItems(calls) + rest;
      assert items[1..] == CallItems(calls[1..]) + rest;
      CallsLead(calls[1..], rest);
    }
  }

  lemma {:induction false} OutputsOf(results: seq<Message>)
    requires AllTools(results)
    ensures Encodable(results) && |Items(results)| == |results| && AllOutputs(Items(results))
    ensures OutputIds(Items(results)) == Answers(results)
  {
    if results != [] {
      OutputsOf(results[1..]);
      var items := Items(results);
      assert items[1..] == Items(results[1..]);
    }
  }

  /** A batch of calls with its outputs. */
  lemma BatchAhead(calls: seq<ToolCall>, outputs: seq<Item>, rest: seq<Item>)
    requires calls != [] && |outputs| == |calls| && AllOutputs(outputs)
    requires multiset(Ids(calls)) == multiset(OutputIds(outputs)) && ItemsAnswered(rest)
    ensures ItemsAnswered(CallItems(calls) + (outputs + rest))
  {
    BatchSlices(calls, outputs, rest);
    hide CallItems;
    hide LeadingCalls;
    hide OutputIds;
    hide Ids;
    hide AllOutputs;
  }

  lemma BatchSlices(calls: seq<ToolCall>, outputs: seq<Item>, rest: seq<Item>)
    requires calls != [] && |outputs| == |calls| && AllOutputs(outputs)
    ensures var items, n := CallItems(calls) + (outputs + rest), |calls|;
            && LeadingCalls(items) == calls && 2 * n <= |items|
            && items[n..2 * n] == outputs && items[2 * n..] == rest
  {
    CallsLead(calls, outputs + rest);
  }

  lemma {:induction false} ItemsConcat(a: seq<Message>, b: seq<Message>)
    requires Encodable(a) && Encodable(b)
    ensures Encodable(a + b) && Items(a + b) == Items(a) + Items(b)
  {
    hide ItemsOf;
    if a == [] {
      Unit(b);
      Unit(Items(b));
    } else {
      assert (a + b)[1..] == a[1..] + b;
      ItemsConcat(a[1..], b);
      Assoc(ItemsOf(a[0]).value, Items(a[1..]), Items(b));
    }
  }

  /** In the input of an answered history every run of calls is followed directly by its outputs. */
  lemma {:induction false} BatchesStayTogether(history: seq<Message>)
    requires Answered(history) && Encodable(history)
    ensures ItemsAnswered(Items(history))
    decreases |history|
  {
    hide ItemsAnswered;
    if history == [] {
      NothingAnswered();
    } else {
      var n := |CallsOf(history[0])|;
      var results, rest := history[1..n + 1], history[n + 1..];
      HeadAndRun(history, n);
      BatchesStayTogether(rest);
      ItemsConcat(results, rest);
      OutputsOf(results);
      HeadAhead(history[0], Items(results), Items(rest));
    }
  }

  lemma NothingAnswered()
    ensures ItemsAnswered([])
  {
  }

  lemma HeadAhead(head: Message, outputs: seq<Item>, rest: seq<Item>)
    requires !head.Tool? && ItemsOf(head).Ok? && |outputs| == |CallsOf(head)| && AllOutputs(outputs)
    requires multiset(Ids(CallsOf(head))) == multiset(OutputIds(outputs)) && ItemsAnswered(rest)
    ensures ItemsAnswered(ItemsOf(head).value + (outputs + rest))
  {
    hide ItemsAnswered;
    if head.Assistant? {
      var others := Entries(ReplayItems(head.replay, Responses).value) + AnswerItems(head.answer);
      hide ReplayItems;
      AssistantAhead(others, head.calls, outputs, rest);
    } else {
      Unit(rest);
      OthersAhead(ItemsOf(head).value, rest);
    }
  }

  lemma AssistantAhead(others: seq<Item>, calls: seq<ToolCall>, outputs: seq<Item>, rest: seq<Item>)
    requires forall k :: 0 <= k < |others| ==> !others[k].CallItem? && !others[k].OutputItem?
    requires |outputs| == |calls| && AllOutputs(outputs)
    requires multiset(Ids(calls)) == multiset(OutputIds(outputs)) && ItemsAnswered(rest)
    ensures ItemsAnswered(others + CallItems(calls) + (outputs + rest))
  {
    hide ItemsAnswered;
    if calls == [] {
      assert CallItems(calls) == [] && outputs == [];
      Unit(rest);
      Unit(others);
      OthersAhead(others, rest);
    } else {
      BatchAhead(calls, outputs, rest);
      OthersAhead(others, CallItems(calls) + (outputs + rest));
      Assoc(others, CallItems(calls), outputs + rest);
    }
  }

  // ---------------------------------------------------------------- nothing is lost

  /** What the input says back: each call, each output and each answer, in order. */
  function Spoken(items: seq<Item>): seq<Item> {
    if items == [] then [] else (if items[0].ReasoningEntry? then [] else [items[0]]) + Spoken(items[1..])
  }

  /** What a history says, apart from reasoning: the part of it that does not depend on any replay. */
  function Said(history: seq<Message>): seq<Item> {
    if history == [] then []
    else
      (match history[0]
       case System(content) => [SystemItem(content)]
       case User(content, images) => [UserItem(UserContent(content, images, Responses))]
       case Assistant(_, answer, calls, _) => AnswerItems(answer) + CallItems(calls)
       case Tool(callId, content, images, _) => [OutputItem(callId, UserContent(content, images, Responses))]) +
      Said(history[1..])
  }

  lemma {:induction false} SpokenConcat(a: seq<Item>, b: seq<Item>)
    ensures Spoken(a + b) == Spoken(a) + Spoken(b)
  {
    if a == [] {
      Unit(b);
      Unit(Spoken(b));
    } else {
      assert (a + b)[1..] == a[1..] + b;
      SpokenConcat(a[1..], b);
    }
  }

  lemma {:induction false} EntriesSilent(items: seq<Item>)
    requires forall k :: 0 <= k < |items| ==> items[k].ReasoningEntry?
    ensures Spoken(items) == []
  {
    if items != [] {
      EntriesSilent(items[1..]);
    }
  }

  lemma {:induction false} OthersSpoken(items: seq<Item>)
    requires forall k :: 0 <= k < |items| ==> !items[k].ReasoningEntry?
    ensures Spoken(items) == items
  {
    if items != [] {
      OthersSpoken(items[1..]);
    }
  }

  /** Replay items aside, the input says exactly what the history says, in order. */
  lemma {:induction false} NothingIsLost(history: seq<Message>)
    requires Encodable(history)
    ensures Spoken(Items(history)) == Said(history)
  {
    if history != [] {
      var message := history[0];
      NothingIsLost(history[1..]);
      SpokenConcat(ItemsOf(message).value, Items(history[1..]));
      if message.Assistant? {
        var entries := Entries(ReplayItems(message.replay, Responses).value);
        var others := AnswerItems(message.answer) + CallItems(message.calls);
        EntriesSilent(entries);
        OthersSpoken(others);
        SpokenConcat(entries, others);
        Assoc(entries, AnswerItems(message.answer), CallItems(message.calls));
      } else {
        OthersSpoken(ItemsOf(message).value);
      }
    }
  }

  // ---------------------------------------------------------------- the encoder

  method Encode(request: DomainRequest, sizes: Sizes) returns (r: Result<seq<Item>, ErrorKind>)
    ensures r.Ok? <==>
            && WithinLimits(request, sizes) && WellPaired(request.messages)
            && request.config.stop == []
            && Encodable(request.messages)
    ensures r.Ok? ==> r.value == Items(request.messages)
  {
    hide WithinLimits;
    hide WellPaired;
    hide ItemsOf;
    var normalized := Normalize.Normalize(request, sizes);
    if normalized.Err? {
      return Err(normalized.error);
    }
    if request.config.stop != [] {
      return Err(InvalidParameters);
    }
    var history, input := request.messages, [];
    for i := 0 to |history|
      invariant Encodable(history[..i]) && input == Items(history[..i])
    {
      var items := ItemsOf(history[i]);
      assert history[..i + 1] == history[..i] + [history[i]];
      if items.Err? {
        return Err(items.error);
      }
      OneMessage(history[i]);
      ItemsConcat(history[..i], [history[i]]);
      input := input + items.value;
    }
    assert history[..|history|] == history;
    return Ok(input);
  }

  lemma OneMessage(message: Message)
    requires ItemsOf(message).Ok?
    ensures Encodable([message]) && Items([message]) == ItemsOf(message).value
  {
    hide ItemsOf;
    assert [message][1..] == [];
    Unit(ItemsOf(message).value);
  }
}
