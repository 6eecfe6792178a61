/** The response accumulator: fragments become one response. */
module Accumulator {
  import opened Wrappers
  import opened Json
  import opened Text
  import opened History
  import opened Provider
  import opened Replay
  import Ordered

  datatype CallBuilder = CallBuilder(id: string, name: string, arguments: string)

  datatype Accumulated = Accumulated(
    content: string, reasoning: string, calls: map<nat, CallBuilder>, replay: map<nat, Json>,
    replayFormat: Option<ApiFormat>, usage: Option<Usage>, reason: Option<StopReason>, bytes: nat)

  const EMPTY := Accumulated("", "", map[], map[], None, None, None, 0)

  /** The encoded size of a replay fragment; serialisation is not modelled. */
  type ReplaySize = Fragment -> nat

  function SizeOf(fragment: Fragment, replaySize: ReplaySize): nat {
    match fragment
    case Content(text) => ByteLen(text)
    case Reasoning(text) => ByteLen(text)
    case ToolCallDelta(_, id, name, arguments) =>
      SaturatingAdd(SaturatingAdd(ByteLen(id.GetOr("")), ByteLen(name.GetOr(""))), ByteLen(arguments))
    case Replay(_, _, _) => replaySize(fragment)
    case _ => 0
  }

  function Extend(call: CallBuilder, id: Option<string>, name: Option<string>, arguments: string): CallBuilder {
    CallBuilder(call.id + id.GetOr(""), call.name + name.GetOr(""), call.arguments + arguments)
  }

  function CallAt(calls: map<nat, CallBuilder>, index: nat): CallBuilder {
    if index in calls then calls[index] else CallBuilder("", "", "")
  }

  predicate CallFits(call: CallBuilder) {
    ByteLen(call.id) <= 256 && ByteLen(call.name) <= 64 && ByteLen(call.arguments) <= MAX_MESSAGE_BYTES
  }

  function EditItem(replay: map<nat, Json>, index: nat, edit: ReplayEdit): Result<map<nat, Json>, ErrorKind> {
    match edit
    case StartItem(item) => Ok(replay[index := item])
    case ReplaceItem(item) => Ok(replay[index := item])
    case AppendField(field, value) =>
      if index in replay && replay[index].At(field).Str? then
        Ok(replay[index := Obj(replay[index].fields[field := Str(replay[index].At(field).text + value)])])
      else Err(ResponseInvalid)
  }

  function Accepted(a: Accumulated, fragment: Fragment, replaySize: ReplaySize): Result<Accumulated, ErrorKind> {
    if a.bytes + SizeOf(fragment, replaySize) > MAX_REQUEST_BYTES then Err(ResponseTooLarge)
    else
      var b := a.(bytes := a.bytes + SizeOf(fragment, replaySize));
      match fragment
      case Content(text) => Ok(b.(content := a.content + text))
      case Reasoning(text) => Ok(b.(reasoning := a.reasoning + text))
      case ToolCallDelta(index, id, name, arguments) =>
        var call := Extend(CallAt(a.calls, index), id, name, arguments);
        if index >= 256 then Err(ResponseInvalid)
        else if CallFits(call) then Ok(b.(calls := a.calls[index := call]))
        else Err(ResponseTooLarge)
      case Replay(format, index, edit) =>
        if a.replayFormat.Some? && a.replayFormat != Some(format) then Err(ResponseInvalid)
        else
          var replay :- EditItem(a.replay, index, edit);
          Ok(b.(replayFormat := Some(format), replay := replay))
      case UsageUpdate(usage) => Ok(b.(usage := Some(usage)))
      case Finished(reason) => if a.reason.Some? then Err(ResponseInvalid) else Ok(b.(reason := Some(reason)))
  }

  function AcceptedAll(a: Accumulated, fragments: seq<Fragment>, replaySize: ReplaySize): Result<Accumulated, ErrorKind>
    decreases |fragments|
  {
    if fragments == [] then Ok(a)
    else
      var next :- Accepted(a, fragments[0], replaySize);
      AcceptedAll(next, fragments[1..], replaySize)
  }

  // ---------------------------------------------------------------- the response

  datatype InferenceResponse = InferenceResponse(
    content: Option<string>, reasoning: Option<string>, calls: seq<ToolCall>, replay: Option<Json>,
    usage: Option<Usage>, reason: StopReason)

  function NonEmpty(text: string): Option<string> {
    if text == "" then None else Some(text)
  }

  /** A complete call: arguments that parse to an object, and neither an empty id nor an empty name. */
  function ParseCall(call: CallBuilder, parse: string -> Option<Json>): Option<ToolCall> {
    match parse(call.arguments)
    case Some(Obj(fields)) =>
      if call.id == "" || call.name == "" then None else Some(ToolCall(call.id, call.name, Obj(fields)))
    case _ => None
  }

  predicate CallsComplete(calls: seq<CallBuilder>, parse: string -> Option<Json>) {
    forall k :: 0 <= k < |calls| ==> ParseCall(calls[k], parse).Some?
  }

  function ParsedCalls(calls: seq<CallBuilder>, parse: string -> Option<Json>): seq<ToolCall>
    requires CallsComplete(calls, parse)
  {
    seq(|calls|, k requires 0 <= k < |calls| => ParseCall(calls[k], parse).value)
  }

  ghost predicate DistinctIds(calls: seq<CallBuilder>) {
    forall j, k :: 0 <= j < k < |calls| ==> calls[j].id != calls[k].id
  }

  function FormatName(format: Option<ApiFormat>): Json {
    if format.Some? then Str(format.value.AsStr()) else Null
  }

  /** The replay items in index order, with the format that produced them. */
  function ReplayOf(replay: map<nat, Json>, format: Option<ApiFormat>): Option<Json> {
    if replay == map[] then None
    else Some(Obj(map["api_format" := FormatName(format), "items" := Arr(Ordered.Values(replay))]))
  }

  predicate ReplayComplete(replay: map<nat, Json>, format: Option<ApiFormat>) {
    format.Some? ==>
      !format.value.ChatCompletions? && replay != map[] &&
          StrictReplayItems(ReplayOf(replay, format).value, format.value).Ok?
  }

  /** The terminal was accepted and there is something to return for it. */
  predicate TerminalOk(a: Accumulated) {
    && a.reason.Some?
    && (a.reason.value.ToolCalls? ==> a.calls != map[])
    && (a.content != "" || a.calls != map[] || a.reason.value.Length? || a.reason.value.ContentFilter?)
  }

  ghost predicate ResponseOk(a: Accumulated, parse: string -> Option<Json>) {
    && TerminalOk(a)
    && CallsComplete(Ordered.Values(a.calls), parse) && DistinctIds(Ordered.Values(a.calls))
    && ReplayComplete(a.replay, a.replayFormat)
  }

  function ResponseOf(a: Accumulated, parse: string -> Option<Json>): InferenceResponse
    requires a.reason.Some? && CallsComplete(Ordered.Values(a.calls), parse)
  {
    InferenceResponse(NonEmpty(a.content), NonEmpty(a.reasoning), ParsedCalls(Ordered.Values(a.calls), parse),
                      ReplayOf(a.replay, a.replayFormat), a.usage, a.reason.value)
  }

  class ResponseAccumulator {
    const replaySize: ReplaySize
    var content: string
    var reasoning: string
    var calls: map<nat, CallBuilder>
    var replay: map<nat, Json>
    var replayFormat: Option<ApiFormat>
    var usage: Option<Usage>
    var reason: Option<StopReason>
    var bytes: nat

    constructor (replaySize: ReplaySize)
      ensures State() == EMPTY && this.replaySize == replaySize
    {
      this.replaySize := replaySize;
      content, reasoning, calls, replay := "", "", map[], map[];
      replayFormat, usage, reason, bytes := None, None, None, 0;
    }

    function State(): Accumulated
      reads this
    {
      Accumulated(content, reasoning, calls, replay, replayFormat, usage, reason, bytes)
    }

    /** Accept one fragment; text is echoed with whether it is reasoning. */
    method Accept(fragment: Fragment) returns (r: Result<Option<(bool, string)>, ErrorKind>)
      modifies this
      ensures match Accepted(old(State()), fragment, replaySize)
              case Err(e) => r == Err(e)
              case Ok(next) =>
                State() == next && r == Ok(match fragment
                                           case Content(text) => Some((false, text))
                                           case Reasoning(text) => Some((true, text))
                                           case _ => None)
    {
      var size := SizeOf(fragment, replaySize);
      if bytes + size > MAX_REQUEST_BYTES {
        return Err(ResponseTooLarge);
      }
      bytes := bytes + size;
      match fragment {
        case Content(text) =>
          content := content + text;
          return Ok(Some((false, text)));
        case Reasoning(text) =>
          reasoning := reasoning + text;
          return Ok(Some((true, text)));
        case ToolCallDelta(index, id, name, arguments) =>
          if index >= 256 {
            return Err(ResponseInvalid);
          }
          calls := calls[index := Extend(CallAt(calls, index), id, name, arguments)];
          if !CallFits(calls[index]) {
            return Err(ResponseTooLarge);
          }
        case Replay(format, index, edit) =>
          if replayFormat.Some? && replayFormat.value != format {
            return Err(ResponseInvalid);
          }
          replayFormat := Some(format);
          var edited := EditItem(replay, index, edit);
          if edited.Err? {
            return Err(edited.error);
          }
          replay := edited.value;
        case UsageUpdate(found) =>
          usage := Some(found);
        case Finished(found) =>
          if reason.Some? {
            return Err(ResponseInvalid);
          }
          reason := Some(found);
      }
      return Ok(None);
    }

    /** The finished response, refused when any part of it is incomplete. */
    method Response(parse: string -> Option<Json>) returns (r: Result<InferenceResponse, ErrorKind>)
      ensures r.Ok? <==> ResponseOk(State(), parse)
      ensures r.Ok? ==> r.value == ResponseOf(State(), parse)
    {
      if reason.None? {
        return Err(ResponseIncomplete);
      }
      var parsed := CollectCalls(parse);
      if parsed.Err? {
        return Err(parsed.error);
      }
      if reason.value.ToolCalls? && parsed.value == [] {
        return Err(ResponseIncomplete);
      }
      if content == "" && parsed.value == [] && !reason.value.Length? && !reason.value.ContentFilter? {
        return Err(ResponseIncomplete);
      }
      var items := ReplayOf(replay, replayFormat);
      if replayFormat.Some? {
        if replayFormat.value.ChatCompletions? || items.None? ||
            StrictReplayItems(items.value, replayFormat.value).Err? {
          return Err(ResponseInvalid);
        }
      }
      return Ok(InferenceResponse(NonEmpty(content), NonEmpty(reasoning), parsed.value, items, usage, reason.value));
    }

    method CollectCalls(parse: string -> Option<Json>) returns (r: Result<seq<ToolCall>, ErrorKind>)
      ensures var builders := Ordered.Values(calls);
              && (r.Ok? <==> CallsComplete(builders, parse) && DistinctIds(builders))
              && (r.Ok? ==> r.value == ParsedCalls(builders, parse) && |r.value| == |calls|)
    {
      hide ParseCall;
      var builders := Ordered.Values(calls);
      var collected: seq<ToolCall>, seen: set<string> := [], {};
      for k := 0 to |builders|
        invariant CallsComplete(builders[..k], parse) && collected == ParsedCalls(builders[..k], parse)
        invariant forall id :: id in seen <==> exists j :: 0 <= j < k && builders[j].id == id
        invariant forall i, j :: 0 <= i < j < k ==> builders[i].id != builders[j].id
      {
        var call := ParseCall(builders[k], parse);
        if call.None? || builders[k].id in seen {
          return Err(ResponseIncomplete);
        }
        seen := seen + {builders[k].id};
        collected := collected + [call.value];
        assert builders[..k + 1] == builders[..k] + [builders[k]];
      }
      assert builders[..|builders|] == builders;
      return Ok(collected);
    }
  }
}
