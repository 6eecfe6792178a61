/** Which fragments are accepted, and what a returned response says of them. */
module ResponseContents {
  import opened Wrappers
  import opened Json
  import opened Text
  import opened History
  import opened Sequences
  import opened Provider
  import opened Accumulator
  import opened StreamText
  import Ordered

  // ---------------------------------------------------------------- what fragments say

  datatype CallField = IdField | NameField | ArgumentsField

  /** What one fragment adds to a field of the call at an index. */
  function CallPiece(fragment: Fragment, index: nat, field: CallField): string {
    if !fragment.ToolCallDelta? || fragment.index != index then ""
    else
      match field
      case IdField => if fragment.id.Some? then fragment.id.value else ""
      case NameField => if fragment.name.Some? then fragment.name.value else ""
      case ArgumentsField => fragment.arguments
  }

  function CallText(fragments: seq<Fragment>, index: nat, field: CallField): string {
    if fragments == [] then ""
    else CallText(fragments[..|fragments| - 1], index, field) + CallPiece(fragments[|fragments| - 1], index, field)
  }

  function CallIndices(fragments: seq<Fragment>): set<nat> {
    set f | f in fragments && f.ToolCallDelta? :: f.index
  }

  function ReplayIndices(fragments: seq<Fragment>): set<nat> {
    set f | f in fragments && f.Replay? :: f.index
  }

  /** The replay item that the edits at an index build. */
  function ReplayAt(fragments: seq<Fragment>, index: nat): Option<Json> {
    if fragments == [] then None
    else
      var before, last := ReplayAt(fragments[..|fragments| - 1], index), fragments[|fragments| - 1];
      if !last.Replay? || last.index != index then before
      else
        match last.edit
        case StartItem(item) => Some(item)
        case ReplaceItem(item) => Some(item)
        case AppendField(field, value) =>
          if Extensible(before, field) then
            Some(Obj(before.value.fields[field := Str(before.value.fields[field].text + value)]))
          else None
  }

  /** An object with a text in that field. */
  predicate Extensible(item: Option<Json>, field: string) {
    item.Some? && item.value.Obj? && field in item.value.fields && item.value.fields[field].Str?
  }

  function LastUsage(fragments: seq<Fragment>): Option<Usage> {
    if fragments == [] then None
    else
      var last := fragments[|fragments| - 1];
      if last.UsageUpdate? then Some(last.usage) else LastUsage(fragments[..|fragments| - 1])
  }

  /** The encoded size of everything a fragment carries. */
  function Size(fragment: Fragment, replaySize: ReplaySize): nat {
    match fragment
    case Content(text) => ByteLen(text)
    case Reasoning(text) => ByteLen(text)
    case ToolCallDelta(index, _, _, arguments) =>
      ByteLen(CallPiece(fragment, index, IdField)) + ByteLen(CallPiece(fragment, index, NameField)) + ByteLen(arguments)
    case Replay(_, _, _) => replaySize(fragment)
    case UsageUpdate(_) => 0
    case Finished(_) => 0
  }

  function TotalSize(fragments: seq<Fragment>, replaySize: ReplaySize): nat {
    if fragments == [] then 0
    else TotalSize(fragments[..|fragments| - 1], replaySize) + Size(fragments[|fragments| - 1], replaySize)
  }

  // ---------------------------------------------------------------- which fragments are accepted

  /** A call at an index in range, each of its texts within its limit. */
  predicate CallWithin(fragments: seq<Fragment>, index: nat) {
    && index < 256
    && ByteLen(CallText(fragments, index, IdField)) <= 256
    && ByteLen(CallText(fragments, index, NameField)) <= 64
    && ByteLen(CallText(fragments, index, ArgumentsField)) <= MAX_MESSAGE_BYTES
  }

  ghost predicate CallsWithin(fragments: seq<Fragment>) {
    forall i :: i in CallIndices(fragments) ==> CallWithin(fragments, i)
  }

  ghost predicate OneFinish(fragments: seq<Fragment>) {
    forall j, k :: 0 <= j < k < |fragments| ==> !fragments[j].Finished? || !fragments[k].Finished?
  }

  ghost predicate OneFormat(fragments: seq<Fragment>) {
    forall j, k :: 0 <= j < k < |fragments| && fragments[j].Replay? && fragments[k].Replay? ==>
      fragments[j].format == fragments[k].format
  }

  /** Every text is appended to an item that has one. */
  ghost predicate AppendsFound(fragments: seq<Fragment>) {
    forall k :: 0 <= k < |fragments| && fragments[k].Replay? && fragments[k].edit.AppendField? ==>
      Extensible(ReplayAt(fragments[..k], fragments[k].index), fragments[k].edit.field)
  }

  ghost predicate Acceptable(fragments: seq<Fragment>, replaySize: ReplaySize) {
    && TotalSize(fragments, replaySize) <= MAX_REQUEST_BYTES
    && CallsWithin(fragments)
    && OneFinish(fragments)
    && OneFormat(fragments)
    && AppendsFound(fragments)
  }

  /** An accumulator that holds exactly what some fragments say. */
  ghost predicate Tells(a: Accumulated, fragments: seq<Fragment>, replaySize: ReplaySize) {
    && a.content == ContentOf(fragments) && a.reasoning == ReasoningOf(fragments)
    && TellsCalls(a.calls, fragments)
    && TellsReplay(a.replay, a.replayFormat, fragments)
    && a.usage == LastUsage(fragments)
    && TellsReason(a.reason, fragments)
    && a.bytes == TotalSize(fragments, replaySize)
  }

  ghost predicate TellsCalls(calls: map<nat, CallBuilder>, fragments: seq<Fragment>) {
    && calls.Keys == CallIndices(fragments)
    && forall i :: i in calls ==>
         calls[i] == CallBuilder(CallText(fragments, i, IdField), CallText(fragments, i, NameField),
                                 CallText(fragments, i, ArgumentsField))
  }

  ghost predicate TellsReplay(replay: map<nat, Json>, format: Option<ApiFormat>, fragments: seq<Fragment>) {
    && replay.Keys == ReplayIndices(fragments)
    && (forall i :: i in replay ==> ReplayAt(fragments, i) == Some(replay[i]))
    && (forall i :: i !in replay ==> ReplayAt(fragments, i) == None)
    && (format.None? ==> forall f :: f in fragments ==> !f.Replay?)
    && (format.Some? ==> (exists f :: f in fragments && f.Replay?) &&
                         forall f :: f in fragments && f.Replay? ==> f.format == format.value)
  }

  ghost predicate TellsReason(reason: Option<StopReason>, fragments: seq<Fragment>) {
    && (reason.None? ==> forall f :: f in fragments ==> !f.Finished?)
    && (reason.Some? ==> Finished(reason.value) in fragments && forall f :: f in fragments && f.Finished? ==>
                           f.reason == reason.value)
  }

  // ---------------------------------------------------------------- one more fragment

  lemma LastOf(done: seq<Fragment>, f: Fragment)
    ensures (done + [f])[..|done|] == done && (done + [f])[|done|] == f
    ensures forall g :: g in done + [f] <==> g in done || g == f
  {
  }

  lemma CallTold(calls: map<nat, CallBuilder>, done: seq<Fragment>, f: Fragment)
    requires TellsCalls(calls, done) && f.ToolCallDelta?
    ensures TellsCalls(calls[f.index := Extend(CallAt(calls, f.index), f.id, f.name, f.arguments)], done + [f])
  {
    LastOf(done, f);
    var next := calls[f.index := Extend(CallAt(calls, f.index), f.id, f.name, f.arguments)];
    if f.index !in calls {
      NoCallText(done, f.index);
    }
    forall i | i in next
      ensures next[i] == CallBuilder(CallText(done + [f], i, IdField), CallText(done + [f], i, NameField),
                                     CallText(done + [f], i, ArgumentsField))
    {
      if i != f.index {
        Unit(CallText(done, i, IdField));
        Unit(CallText(done, i, NameField));
        Unit(CallText(done, i, ArgumentsField));
      }
    }
    IndicesGrow(done, f);
  }

  lemma IndicesGrow(done: seq<Fragment>, f: Fragment)
    ensures CallIndices(done + [f]) == CallIndices(done) + if f.ToolCallDelta? then {f.index} else {}
    ensures ReplayIndices(done + [f]) == ReplayIndices(done) + if f.Replay? then {f.index} else {}
  {
    LastOf(done, f);
  }

  lemma {:induction false} NoCallText(fragments: seq<Fragment>, index: nat)
    requires index !in CallIndices(fragments)
    ensures forall field :: CallText(fragments, index, field) == ""
  {
    if fragments != [] {
      var init, last := fragments[..|fragments| - 1], fragments[|fragments| - 1];
      assert fragments == init + [last];
      IndicesGrow(init, last);
      NoCallText(init, index);
    }
  }

  lemma OtherCallsTold(calls: map<nat, CallBuilder>, done: seq<Fragment>, f: Fragment)
    requires TellsCalls(calls, done) && !f.ToolCallDelta?
    ensures TellsCalls(calls, done + [f])
  {
    LastOf(done, f);
    IndicesGrow(done, f);
    forall i | i in calls
      ensures calls[i] == CallBuilder(CallText(done + [f], i, IdField), CallText(done + [f], i, NameField),
                                      CallText(done + [f], i, ArgumentsField))
    {
      Unit(CallText(done, i, IdField));
      Unit(CallText(done, i, NameField));
      Unit(CallText(done, i, ArgumentsField));
    }
  }

  lemma ReplayTold(replay: map<nat, Json>, format: Option<ApiFormat>, done: seq<Fragment>, f: Fragment)
    requires TellsReplay(replay, format, done) && f.Replay? && EditItem(replay, f.index, f.edit).Ok?
    requires format.Some? ==> format.value == f.format
    ensures TellsReplay(EditItem(replay, f.index, f.edit).value, Some(f.format), done + [f])
  {
    LastOf(done, f);
    IndicesGrow(done, f);
  }

  lemma OtherReplayTold(replay: map<nat, Json>, format: Option<ApiFormat>, done: seq<Fragment>, f: Fragment)
    requires TellsReplay(replay, format, done) && !f.Replay?
    ensures TellsReplay(replay, format, done + [f])
  {
    LastOf(done, f);
    IndicesGrow(done, f);
  }

  lemma TextTold(done: seq<Fragment>, f: Fragment)
    ensures ContentOf(done + [f]) == ContentOf(done) + if f.Content? then f.text else ""
    ensures ReasoningOf(done + [f]) == ReasoningOf(done) + if f.Reasoning? then f.text else ""
  {
    TextConcat(done, [f]);
    assert [f][1..] == [];
    Unit(if f.Content? then f.text else "");
    Unit(if f.Reasoning? then f.text else "");
  }

  lemma SizeTold(f: Fragment, replaySize: ReplaySize, bytes: nat)
    ensures bytes + SizeOf(f, replaySize) <= MAX_REQUEST_BYTES <==> bytes + Size(f, replaySize) <= MAX_REQUEST_BYTES
    ensures bytes + SizeOf(f, replaySize) <= MAX_REQUEST_BYTES ==> SizeOf(f, replaySize) == Size(f, replaySize)
  {
  }

  lemma UsageTold(done: seq<Fragment>, f: Fragment)
    ensures LastUsage(done + [f]) == if f.UsageUpdate? then Some(f.usage) else LastUsage(done)
  {
    LastOf(done, f);
  }

  lemma ReasonTold(reason: Option<StopReason>, done: seq<Fragment>, f: Fragment)
    requires TellsReason(reason, done)
    ensures !f.Finished? ==> TellsReason(reason, done + [f])
    ensures f.Finished? && reason.None? ==> TellsReason(Some(f.reason), done + [f])
  {
    LastOf(done, f);
  }

  /** An accumulator that holds what the fragments before said holds what they say after one more. */
  lemma OneTold(a: Accumulated, done: seq<Fragment>, f: Fragment, replaySize: ReplaySize)
    requires Tells(a, done, replaySize) && Accepted(a, f, replaySize).Ok?
    ensures Tells(Accepted(a, f, replaySize).value, done + [f], replaySize)
  {
    hide TellsCalls;
    hide TellsReplay;
    hide TellsReason;
    hide SizeOf;
    hide Size;
    hide CallFits;
    hide EditItem;
    hide Extend;
    TextTold(done, f);
    hide ContentOf;
    hide ReasoningOf;
    LastOf(done, f);
    SizeTold(f, replaySize, a.bytes);
    UsageTold(done, f);
    hide LastUsage;
    ReasonTold(a.reason, done, f);
    Unit(a.content);
    Unit(a.reasoning);
    if f.ToolCallDelta? {
      CallTold(a.calls, done, f);
    } else {
      OtherCallsTold(a.calls, done, f);
    }
    if f.Replay? {
      ReplayTold(a.replay, a.replayFormat, done, f);
    } else {
      OtherReplayTold(a.replay, a.replayFormat, done, f);
    }
  }

  lemma NothingTold(replaySize: ReplaySize)
    ensures Tells(EMPTY, [], replaySize) && Acceptable([], replaySize)
  {
  }

  // ---------------------------------------------------------------- exactly when the next one is accepted

  lemma {:induction false} ByteLenConcat(a: string, b: string)
    ensures ByteLen(a + b) == ByteLen(a) + ByteLen(b)
  {
    if a == "" {
      Unit(b);
    } else {
      assert (a + b)[1..] == a[1..] + b;
      ByteLenConcat(a[1..], b);
    }
  }

  lemma CallTextGrows(done: seq<Fragment>, f: Fragment, index: nat, field: CallField)
    ensures CallText(done + [f], index, field) == CallText(done, index, field) + CallPiece(f, index, field)
    ensures ByteLen(CallText(done, index, field)) <= ByteLen(CallText(done + [f], index, field))
  {
    LastOf(done, f);
    ByteLenConcat(CallText(done, index, field), CallPiece(f, index, field));
    hide ByteLen;
  }

  lemma WithinShrinks(done: seq<Fragment>, f: Fragment, index: nat)
    requires CallWithin(done + [f], index)
    ensures CallWithin(done, index)
  {
    CallTextGrows(done, f, index, IdField);
    CallTextGrows(done, f, index, NameField);
    CallTextGrows(done, f, index, ArgumentsField);
  }

  /** Only the call that a delta names can leave its limits. */
  lemma CallsWithinGrows(done: seq<Fragment>, f: Fragment)
    ensures CallsWithin(done + [f]) <==> CallsWithin(done) && (f.ToolCallDelta? ==> CallWithin(done + [f], f.index))
  {
    hide CallWithin;
    IndicesGrow(done, f);
    hide CallIndices;
    forall i | CallsWithin(done + [f]) && i in CallIndices(done) ensures CallWithin(done, i) {
      assert CallWithin(done + [f], i);
      WithinShrinks(done, f, i);
    }
    forall i | CallsWithin(done) && i in CallIndices(done) && !(f.ToolCallDelta? && f.index == i)
      ensures CallWithin(done + [f], i)
    {
      SameCall(done, f, i);
    }
  }

  lemma SameCall(done: seq<Fragment>, f: Fragment, index: nat)
    requires CallWithin(done, index) && !(f.ToolCallDelta? && f.index == index)
    ensures CallWithin(done + [f], index)
  {
    CallTextGrows(done, f, index, IdField);
    CallTextGrows(done, f, index, NameField);
    CallTextGrows(done, f, index, ArgumentsField);
    Unit(CallText(done, index, IdField));
    Unit(CallText(done, index, NameField));
    Unit(CallText(done, index, ArgumentsField));
    hide ByteLen;
  }

  lemma OneFinishGrows(reason: Option<StopReason>, done: seq<Fragment>, f: Fragment)
    requires TellsReason(reason, done)
    ensures OneFinish(done + [f]) <==> OneFinish(done) && !(f.Finished? && reason.Some?)
  {
    var all := done + [f];
    LastOf(done, f);
    assert forall k :: 0 <= k < |done| ==> all[k] == done[k];
    if f.Finished? && reason.Some? {
      var j :| 0 <= j < |done| && done[j] == Finished(reason.value);
      assert all[j].Finished? && all[|done|].Finished?;
    }
    if OneFinish(all) {
      forall j, k | 0 <= j < k < |done| ensures !done[j].Finished? || !done[k].Finished? {
        assert !all[j].Finished? || !all[k].Finished?;
      }
    }
  }

  lemma OneFormatGrows(replay: map<nat, Json>, format: Option<ApiFormat>, done: seq<Fragment>, f: Fragment)
    requires TellsReplay(replay, format, done)
    ensures OneFormat(done + [f]) <==> OneFormat(done) && !(f.Replay? && format.Some? && format.value != f.format)
  {
    var all := done + [f];
    LastOf(done, f);
    assert forall k :: 0 <= k < |done| ==> all[k] == done[k];
    if f.Replay? && format.Some? && format.value != f.format {
      var g :| g in done && g.Replay?;
      var j :| 0 <= j < |done| && done[j] == g;
      assert all[j].format != all[|done|].format;
    }
    if OneFormat(all) {
      forall j, k | 0 <= j < k < |done| && done[j].Replay? && done[k].Replay? ensures done[j].format == done[k].format {
        assert all[j].format == all[k].format;
      }
    }
  }

  lemma AppendsGrow(replay: map<nat, Json>, format: Option<ApiFormat>, done: seq<Fragment>, f: Fragment)
    requires TellsReplay(replay, format, done)
    ensures AppendsFound(done + [f]) <==> AppendsFound(done) && (f.Replay? ==> EditItem(replay, f.index, f.edit).Ok?)
  {
    var all := done + [f];
    LastOf(done, f);
    forall k | 0 <= k < |done| ensures all[..k] == done[..k] && all[k] == done[k] {
    }
    assert f.Replay? ==> (EditItem(replay, f.index, f.edit).Ok? <==>
                            (f.edit.AppendField? ==> Extensible(ReplayAt(done, f.index), f.edit.field)));
    hide ReplayAt;
    hide Extensible;
    hide EditItem;
    if AppendsFound(all) {
      forall k | 0 <= k < |done| && done[k].Replay? && done[k].edit.AppendField?
        ensures Extensible(ReplayAt(done[..k], done[k].index), done[k].edit.field)
      {
        assert Extensible(ReplayAt(all[..k], all[k].index), all[k].edit.field);
      }
    }
  }

  lemma FitsIsWithin(calls: map<nat, CallBuilder>, done: seq<Fragment>, f: Fragment)
    requires TellsCalls(calls, done) && f.ToolCallDelta?
    ensures f.index < 256 && CallFits(Extend(CallAt(calls, f.index), f.id, f.name, f.arguments)) <==>
            CallWithin(done + [f], f.index)
  {
    CallTold(calls, done, f);
  }

  /** The next fragment is accepted exactly when all of them together are acceptable. */
  lemma NextAccepted(a: Accumulated, done: seq<Fragment>, f: Fragment, replaySize: ReplaySize)
    requires Tells(a, done, replaySize)
    ensures Acceptable(done + [f], replaySize) <==>
            Acceptable(done, replaySize) && Accepted(a, f, replaySize).Ok?
  {
    hide CallWithin;
    hide CallFits;
    hide Extend;
    hide SizeOf;
    hide Size;
    hide EditItem;
    LastOf(done, f);
    SizeTold(f, replaySize, a.bytes);
    CallsWithinGrows(done, f);
    if f.ToolCallDelta? {
      FitsIsWithin(a.calls, done, f);
    }
    OneFinishGrows(a.reason, done, f);
    OneFormatGrows(a.replay, a.replayFormat, done, f);
    AppendsGrow(a.replay, a.replayFormat, done, f);
    hide CallsWithin;
    hide OneFinish;
    hide OneFormat;
    hide AppendsFound;
    hide TellsCalls;
    hide TellsReplay;
    ReasonKnown(a.reason, done);
  }

  lemma ReasonKnown(reason: Option<StopReason>, done: seq<Fragment>)
    requires TellsReason(reason, done)
    ensures reason.Some? <==> exists f :: f in done && f.Finished?
  {
  }

  lemma {:induction false} AllTold(a: Accumulated, done: seq<Fragment>, rest: seq<Fragment>, replaySize: ReplaySize)
    requires Tells(a, done, replaySize) && Acceptable(done, replaySize)
    ensures AcceptedAll(a, rest, replaySize).Ok? <==> Acceptable(done + rest, replaySize)
    ensures AcceptedAll(a, rest, replaySize).Ok? ==>
              Tells(AcceptedAll(a, rest, replaySize).value, done + rest, replaySize)
    decreases |rest|
  {
    hide Tells;
    hide Acceptable;
    hide Accepted;
    if rest == [] {
      Unit(done);
    } else {
      NextAccepted(a, done, rest[0], replaySize);
      assert done + [rest[0]] + rest[1..] == done + rest;
      if Accepted(a, rest[0], replaySize).Ok? {
        OneTold(a, done, rest[0], replaySize);
        AllTold(Accepted(a, rest[0], replaySize).value, done + [rest[0]], rest[1..], replaySize);
      } else {
        NotAcceptable(done + [rest[0]], rest[1..], replaySize);
      }
    }
  }

  /** Nothing that follows makes fragments acceptable. */
  lemma {:induction false} NotAcceptable(done: seq<Fragment>, rest: seq<Fragment>, replaySize: ReplaySize)
    requires !Acceptable(done, replaySize)
    ensures !Acceptable(done + rest, replaySize)
    decreases |rest|
  {
    if rest == [] {
      Unit(done);
    } else {
      if Acceptable(done + [rest[0]], replaySize) {
        Shrinks(done, rest[0], replaySize);
      }
      hide Acceptable;
      NotAcceptable(done + [rest[0]], rest[1..], replaySize);
      assert done + [rest[0]] + rest[1..] == done + rest;
    }
  }

  lemma Shrinks(done: seq<Fragment>, f: Fragment, replaySize: ReplaySize)
    requires Acceptable(done + [f], replaySize)
    ensures Acceptable(done, replaySize)
  {
    var all := done + [f];
    LastOf(done, f);
    CallsWithinGrows(done, f);
    hide CallsWithin;
    assert forall k :: 0 <= k < |done| ==> all[k] == done[k] && all[..k] == done[..k];
    assert OneFinish(done) by {
      forall j, k | 0 <= j < k < |done| ensures !done[j].Finished? || !done[k].Finished? {
        assert !all[j].Finished? || !all[k].Finished?;
      }
    }
    assert OneFormat(done) by {
      forall j, k | 0 <= j < k < |done| && done[j].Replay? && done[k].Replay? ensures done[j].format == done[k].format {
        assert all[j].format == all[k].format;
      }
    }
    assert AppendsFound(done) by {
      forall k | 0 <= k < |done| && done[k].Replay? && done[k].edit.AppendField?
        ensures Extensible(ReplayAt(done[..k], done[k].index), done[k].edit.field)
      {
        assert Extensible(ReplayAt(all[..k], all[k].index), all[k].edit.field);
      }
    }
  }

  /** All fragments are accepted exactly when they are acceptable together, and then the accumulator tells them. */
  lemma AcceptedExactly(fragments: seq<Fragment>, replaySize: ReplaySize)
    ensures AcceptedAll(EMPTY, fragments, replaySize).Ok? <==> Acceptable(fragments, replaySize)
    ensures AcceptedAll(EMPTY, fragments, replaySize).Ok? ==>
              Tells(AcceptedAll(EMPTY, fragments, replaySize).value, fragments, replaySize)
  {
    hide Tells;
    hide Acceptable;
    NothingTold(replaySize);
    Unit(fragments);
    AllTold(EMPTY, [], fragments, replaySize);
  }

  // ---------------------------------------------------------------- the response

  /** The keys in ascending order. */
  ghost predicate Ascending(indices: seq<nat>, keys: set<nat>) {
    Ordered.Ascending(indices) && forall i :: i in keys <==> i in indices
  }

  /** The calls of a response: for each index with deltas, in ascending order, what its deltas add up to. */
  ghost predicate DescribesCalls(calls: seq<ToolCall>, fragments: seq<Fragment>, parse: string -> Option<Json>) {
    exists indices: seq<nat> :: Ascending(indices, CallIndices(fragments)) && CallsAt(indices, calls, fragments, parse)
  }

  ghost predicate CallsAt(indices: seq<nat>, calls: seq<ToolCall>, fragments: seq<Fragment>,
                          parse: string -> Option<Json>)
  {
    && |indices| == |calls|
    && forall k :: 0 <= k < |calls| ==> CallIs(Some(calls[k]), fragments, indices[k], parse)
  }

  function Name(format: ApiFormat): string {
    match format
    case ChatCompletions => "chat_completions"
    case Messages => "messages"
    case Responses => "responses"
  }

  /** The replay of a response: for each index with edits, in ascending order, the item that they build. */
  ghost predicate DescribesReplay(replay: Option<Json>, fragments: seq<Fragment>) {
    if ReplayIndices(fragments) == {} then replay.None?
    else
      exists f, indices: seq<nat>, items: seq<Json> ::
        && f in fragments && f.Replay?
        && Ascending(indices, ReplayIndices(fragments)) && ItemsAt(indices, items, fragments)
        && replay == Some(Obj(map["api_format" := Str(Name(f.format)), "items" := Arr(items)]))
  }

  ghost predicate ItemsAt(indices: seq<nat>, items: seq<Json>, fragments: seq<Fragment>) {
    && |indices| == |items|
    && forall k :: 0 <= k < |items| ==> ReplayAt(fragments, indices[k]) == Some(items[k])
  }

  /** A response says exactly what its fragments say. */
  ghost predicate Describes(r: InferenceResponse, fragments: seq<Fragment>, parse: string -> Option<Json>) {
    && r.content == (if ContentOf(fragments) == "" then None else Some(ContentOf(fragments)))
    && r.reasoning == (if ReasoningOf(fragments) == "" then None else Some(ReasoningOf(fragments)))
    && r.usage == LastUsage(fragments)
    && Finished(r.reason) in fragments && (forall f :: f in fragments && f.Finished? ==> f.reason == r.reason)
    && DescribesCalls(r.calls, fragments, parse)
    && DescribesReplay(r.replay, fragments)
  }

  lemma ParsedCallIs(builder: CallBuilder, parse: string -> Option<Json>)
    requires ParseCall(builder, parse).Some?
    ensures var call := ParseCall(builder, parse).value;
            call.id == builder.id && call.name == builder.name && parse(builder.arguments) == Some(call.arguments)
  {
  }

  lemma OneCallDescribed(a: Accumulated, fragments: seq<Fragment>, parse: string -> Option<Json>, i: nat)
    requires TellsCalls(a.calls, fragments) && i in a.calls && ParseCall(a.calls[i], parse).Some?
    ensures var call := ParseCall(a.calls[i], parse).value;
            && call.id == CallText(fragments, i, IdField)
            && call.name == CallText(fragments, i, NameField)
            && parse(CallText(fragments, i, ArgumentsField)) == Some(call.arguments)
  {
    hide CallText;
    hide CallIndices;
    ParsedCallIs(a.calls[i], parse);
    hide ParseCall;
  }

  lemma CallsDescribed(a: Accumulated, fragments: seq<Fragment>, parse: string -> Option<Json>)
    requires TellsCalls(a.calls, fragments) && CallsComplete(Ordered.Values(a.calls), parse)
    ensures DescribesCalls(ParsedCalls(Ordered.Values(a.calls), parse), fragments, parse)
  {
    hide Ordered.Values;
    hide Ordered.Keys;
    hide Ordered.Ascending;
    hide CallText;
    hide CallIndices;
    hide ParseCall;
    hide CallsComplete;
    hide ParsedCalls;
    hide CallIs;
    Ordered.KeysAscend(a.calls);
    var indices, builders := Ordered.Keys(a.calls), Ordered.Values(a.calls);
    assert Ascending(indices, CallIndices(fragments));
    CallsFollow(a, fragments, indices, builders, parse);
    hide TellsCalls;
  }

  lemma CallsFollow(a: Accumulated, fragments: seq<Fragment>, indices: seq<nat>, builders: seq<CallBuilder>,
                    parse: string -> Option<Json>)
    requires TellsCalls(a.calls, fragments) && CallsComplete(builders, parse) && |indices| == |builders|
    requires forall k :: 0 <= k < |indices| ==> indices[k] in a.calls && builders[k] == a.calls[indices[k]]
    ensures CallsAt(indices, ParsedCalls(builders, parse), fragments, parse)
  {
    hide CallText;
    hide CallIndices;
    hide ParseCall;
    hide TellsCalls;
    forall k | 0 <= k < |builders| ensures CallIs(ParseCall(builders[k], parse), fragments, indices[k], parse) {
      assert ParseCall(builders[k], parse).Some?;
      OneCallDescribed(a, fragments, parse, indices[k]);
    }
    hide CallIs;
  }

  ghost predicate CallIs(call: Option<ToolCall>, fragments: seq<Fragment>, index: nat, parse: string -> Option<Json>) {
    && call.Some?
    && call.value.id == CallText(fragments, index, IdField)
    && call.value.name == CallText(fragments, index, NameField)
    && parse(CallText(fragments, index, ArgumentsField)) == Some(call.value.arguments)
  }

  lemma ReplayDescribed(replay: map<nat, Json>, format: Option<ApiFormat>, fragments: seq<Fragment>)
    requires TellsReplay(replay, format, fragments)
    ensures DescribesReplay(ReplayOf(replay, format), fragments)
  {
    hide Ordered.Values;
    hide Ordered.Keys;
    hide Ordered.Ascending;
    hide ReplayAt;
    if replay == map[] {
      assert ReplayIndices(fragments) == {};
    } else {
      Ordered.KeysAscend(replay);
      var indices, items := Ordered.Keys(replay), Ordered.Values(replay);
      var i :| i in ReplayIndices(fragments);
      var f :| f in fragments && f.Replay? && f.index == i;
      assert format == Some(f.format);
      ItemsTold(replay, format, fragments);
      assert Ascending(indices, ReplayIndices(fragments));
      assert ReplayOf(replay, format) == Some(Obj(map["api_format" := Str(Name(f.format)), "items" := Arr(items)]));
      hide ReplayOf;
    }
  }

  lemma ItemsTold(replay: map<nat, Json>, format: Option<ApiFormat>, fragments: seq<Fragment>)
    requires TellsReplay(replay, format, fragments)
    ensures ItemsAt(Ordered.Keys(replay), Ordered.Values(replay), fragments)
  {
    hide Ordered.Values;
    hide Ordered.Keys;
    hide ReplayAt;
    Ordered.KeysAscend(replay);
  }

  /** The response of some accepted fragments says what they say. */
  lemma ResponseDescribes(fragments: seq<Fragment>, replaySize: ReplaySize, parse: string -> Option<Json>)
    requires AcceptedAll(EMPTY, fragments, replaySize).Ok?
    requires ResponseOk(AcceptedAll(EMPTY, fragments, replaySize).value, parse)
    ensures Describes(ResponseOf(AcceptedAll(EMPTY, fragments, replaySize).value, parse), fragments, parse)
  {
    hide AcceptedAll;
    hide Acceptable;
    hide TellsCalls;
    hide TellsReplay;
    hide DescribesCalls;
    hide DescribesReplay;
    hide CallsComplete;
    hide DistinctIds;
    hide ReplayComplete;
    AcceptedExactly(fragments, replaySize);
    var a := AcceptedAll(EMPTY, fragments, replaySize).value;
    CallsDescribed(a, fragments, parse);
    ReplayDescribed(a.replay, a.replayFormat, fragments);
    hide ReplayOf;
    hide ParsedCalls;
  }

  /** A client: all fragments, then the response. */
  method Collect(fragments: seq<Fragment>, replaySize: ReplaySize, parse: string -> Option<Json>)
      returns (r: Result<InferenceResponse, ErrorKind>)
    ensures r.Ok? ==> Acceptable(fragments, replaySize)
    ensures Acceptable(fragments, replaySize) ==>
              AcceptedAll(EMPTY, fragments, replaySize).Ok? &&
              (r.Ok? <==> ResponseOk(AcceptedAll(EMPTY, fragments, replaySize).value, parse))
    ensures r.Ok? ==> Describes(r.value, fragments, parse)
  {
    hide Describes;
    hide Acceptable;
    hide Accepted;
    hide ResponseOk;
    hide ResponseOf;
    hide Tells;
    AcceptedExactly(fragments, replaySize);
    var accumulator := new ResponseAccumulator(replaySize);
    assert fragments[0..] == fragments;
    for k := 0 to |fragments|
      invariant accumulator.replaySize == replaySize
      invariant AcceptedAll(EMPTY, fragments, replaySize) ==
                AcceptedAll(accumulator.State(), fragments[k..], replaySize)
    {
      assert fragments[k..][0] == fragments[k] && fragments[k..][1..] == fragments[k + 1..];
      var accepted := accumulator.Accept(fragments[k]);
      if accepted.Err? {
        return Err(accepted.error);
      }
    }
    assert fragments[|fragments|..] == [];
    r := accumulator.Response(parse);
    if r.Ok? {
      ResponseDescribes(fragments, replaySize, parse);
    }
  }
}
