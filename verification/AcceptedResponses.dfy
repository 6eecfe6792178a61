/** A response that the accumulator returns can be sent back: it fits into the next request's history. */
module AcceptedResponses {
  import opened Wrappers
  import opened Json
  import opened Text
  import opened History
  import opened Replay
  import opened Normalize
  import opened Provider
  import opened Accumulator
  import Ordered

  /** Every call stays within the limits of a request, and replay items know their format. */
  ghost predicate Bounded(a: Accumulated) {
    && (forall i :: i in a.calls ==> i < 256 && CallFits(a.calls[i]))
    && (a.replay != map[] ==> a.replayFormat.Some?)
  }

  lemma {:induction false} StaysBounded(a: Accumulated, fragments: seq<Fragment>, replaySize: ReplaySize)
    requires Bounded(a) && AcceptedAll(a, fragments, replaySize).Ok?
    ensures Bounded(AcceptedAll(a, fragments, replaySize).value)
    decreases |fragments|
  {
    if fragments != [] {
      OneStaysBounded(a, fragments[0], replaySize);
      hide Accepted;
      hide Bounded;
      StaysBounded(Accepted(a, fragments[0], replaySize).value, fragments[1..], replaySize);
    }
  }

  lemma OneStaysBounded(a: Accumulated, fragment: Fragment, replaySize: ReplaySize)
    requires Bounded(a) && Accepted(a, fragment, replaySize).Ok?
    ensures Bounded(Accepted(a, fragment, replaySize).value)
  {
    hide CallFits;
    hide SizeOf;
    hide Extend;
  }

  /** The message that carries a response in a later request. */
  function AsMessage(response: InferenceResponse): Message {
    Assistant(response.reasoning, response.content, response.calls, response.replay)
  }

  lemma NonemptyBytes(text: string)
    requires text != ""
    ensures ByteLen(text) > 0
  {
  }

  lemma ParsedCallOk(call: CallBuilder, parse: string -> Option<Json>)
    requires ParseCall(call, parse).Some? && CallFits(call)
    ensures CallOk(ParseCall(call, parse).value)
  {
    NonemptyBytes(call.id);
    NonemptyBytes(call.name);
  }

  /** A response can bring exactly the calls that a request may hold, under any text of their arguments. */
  lemma CallLimitsAgree(call: ToolCall, text: string, parse: string -> Option<Json>)
    requires parse(text) == Some(call.arguments) && ByteLen(text) <= MAX_MESSAGE_BYTES
    ensures var builder := CallBuilder(call.id, call.name, text);
            CallOk(call) <==> CallFits(builder) && ParseCall(builder, parse) == Some(call)
  {
    if call.id != "" {
      NonemptyBytes(call.id);
    }
    if call.name != "" {
      NonemptyBytes(call.name);
    }
  }

  lemma CallsOk(a: Accumulated, parse: string -> Option<Json>)
    requires Bounded(a) && CallsComplete(Ordered.Values(a.calls), parse)
    ensures var calls := ParsedCalls(Ordered.Values(a.calls), parse);
            |calls| <= 256 && forall k :: 0 <= k < |calls| ==> CallOk(calls[k])
  {
    var builders := Ordered.Values(a.calls);
    Ordered.BelowBound(a.calls.Keys, 256);
    forall k | 0 <= k < |builders| ensures CallOk(ParseCall(builders[k], parse).value) {
      ParsedCallOk(builders[k], parse);
    }
  }

  lemma {:induction false} DistinctParsed(calls: seq<CallBuilder>, parse: string -> Option<Json>)
    requires CallsComplete(calls, parse) && DistinctIds(calls)
    ensures Distinct(Ids(ParsedCalls(calls, parse)))
  {
    IdsByIndex(ParsedCalls(calls, parse));
  }

  /**
   A returned response is valid as the next assistant message unless it is entirely empty, which only
   a cut-off or filtered response can be; its call ids are distinct, and every encoder accepts its replay.
   */
  lemma ResponseCanBeSentBack(fragments: seq<Fragment>, replaySize: ReplaySize, parse: string -> Option<Json>,
      format: ApiFormat)
    requires AcceptedAll(EMPTY, fragments, replaySize).Ok?
    requires ResponseOk(AcceptedAll(EMPTY, fragments, replaySize).value, parse)
    ensures var a := AcceptedAll(EMPTY, fragments, replaySize).value;
            var response := ResponseOf(a, parse);
            && (MessageOk(AsMessage(response)) <==>
                  a.content != "" || a.reasoning != "" || a.calls != map[] || a.replay != map[])
            && (!response.reason.Length? && !response.reason.ContentFilter? ==> MessageOk(AsMessage(response)))
            && Distinct(Ids(response.calls))
            && ReplayItems(response.replay, format).Ok?
  {
    var a := AcceptedAll(EMPTY, fragments, replaySize).value;
    assert Bounded(EMPTY);
    StaysBounded(EMPTY, fragments, replaySize);
    hide AcceptedAll;
    CallsOk(a, parse);
    DistinctParsed(Ordered.Values(a.calls), parse);
    ReplayAccepted(a, format);
    hide ReplayItems;
    hide CallOk;
    hide ReplayComplete;
    hide Bounded;
    hide CallsComplete;
    hide DistinctIds;
  }

  lemma ReplayAccepted(a: Accumulated, format: ApiFormat)
    requires Bounded(a) && ReplayComplete(a.replay, a.replayFormat)
    ensures ReplayItems(ReplayOf(a.replay, a.replayFormat), format).Ok?
  {
    if a.replay != map[] {
      var value := ReplayOf(a.replay, a.replayFormat).value;
      assert value.At("api_format") == Str(a.replayFormat.value.AsStr());
      FormatRead(a.replayFormat.value);
      hide StrictReplayItems;
    }
  }

  lemma FormatRead(format: ApiFormat)
    ensures ParseFormat(Str(format.AsStr())) == Some(format)
  {
    assert ChatCompletions.AsStr()[0] == 'c' && Messages.AsStr()[0] == 'm' && Responses.AsStr()[0] == 'r';
  }
}
