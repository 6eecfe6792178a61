/** Request validation: which histories every encoder accepts. */
module Normalize {
  import opened Wrappers
  import opened Json
  import opened Text
  import opened History

  datatype F32 = Finite(value: real) | NonFinite {
    predicate Within(hi: real) {
      Finite? && 0.0 <= value <= hi
    }
  }

  datatype Parameters = Parameters(
    model: string, temperature: Option<F32>, maxOutputTokens: Option<nat>, topP: Option<F32>, stop: seq<string>)

  datatype ToolDefinition = ToolDefinition(name: string, description: string, inputSchema: Json)

  datatype DomainRequest = DomainRequest(messages: seq<Message>, tools: seq<ToolDefinition>, config: Parameters)

  /**
   The encoded sizes of a message, without and with its images, or `None` when an image or the
   encoding is invalid.  Serialisation and image decoding are not modelled, so this is a parameter.
   */
  type Sizes = Message -> Option<(nat, nat)>

  predicate ParametersOk(p: Parameters) {
    && !IsBlank(p.model)
    && ByteLen(p.model) <= 256
    && (forall i :: 0 <= i < |p.model| ==> !IsControl(p.model[i]))
    && (p.temperature.Some? ==> p.temperature.value.Within(2.0))
    && (p.topP.Some? ==> p.topP.value.Within(1.0))
    && p.maxOutputTokens != Some(0)
    && |p.stop| <= 64
    && (forall i :: 0 <= i < |p.stop| ==> 0 < ByteLen(p.stop[i]) <= 256)
  }

  predicate CountOk(messages: seq<Message>) {
    0 < |messages| <= 4096
  }

  predicate ToolOk(tool: ToolDefinition) {
    && 0 < |tool.name| <= 64
    && (forall i :: 0 <= i < |tool.name| ==> IsAsciiAlphanumeric(tool.name[i]) || tool.name[i] in "_-")
    && tool.inputSchema.Obj?
    && !IsBlank(tool.description)
  }

  ghost predicate ToolsOk(tools: seq<ToolDefinition>) {
    && (forall i :: 0 <= i < |tools| ==> ToolOk(tools[i]))
    && (forall i, j :: 0 <= i < j < |tools| ==> tools[i].name != tools[j].name)
  }

  function EmptyText(text: Option<string>): bool {
    text.None? || text.value == ""
  }

  predicate CallOk(call: ToolCall) {
    0 < ByteLen(call.id) <= 256 && 0 < ByteLen(call.name) <= 64 && call.arguments.Obj?
  }

  /** What each message must satisfy on its own, apart from its size. */
  predicate MessageOk(message: Message) {
    message.Assistant? ==>
      && !(EmptyText(message.answer) && EmptyText(message.reasoning) && message.calls == [] && message.replay.None?)
      && |message.calls| <= 256
      && forall k :: 0 <= k < |message.calls| ==> CallOk(message.calls[k])
  }

  function TotalText(messages: seq<Message>, sizes: Sizes): nat
    requires forall k :: 0 <= k < |messages| ==> sizes(messages[k]).Some?
  {
    if messages == [] then 0 else TotalText(messages[..|messages| - 1], sizes) + sizes(messages[|messages| - 1]).value.0
  }

  function TotalEncoded(messages: seq<Message>, sizes: Sizes): nat
    requires forall k :: 0 <= k < |messages| ==> sizes(messages[k]).Some?
  {
    if messages == [] then 0
    else TotalEncoded(messages[..|messages| - 1], sizes) + sizes(messages[|messages| - 1]).value.1
  }

  ghost predicate SizesOk(messages: seq<Message>, sizes: Sizes) {
    && (forall k :: 0 <= k < |messages| ==> sizes(messages[k]).Some? && sizes(messages[k]).value.0 <= MAX_MESSAGE_BYTES)
    && TotalText(messages, sizes) <= MAX_MESSAGES_BYTES
    && TotalEncoded(messages, sizes) <= MAX_REQUEST_BYTES
  }

  /** The size, format and parameter limits: everything except how calls and results pair up. */
  ghost predicate WithinLimits(request: DomainRequest, sizes: Sizes) {
    && ParametersOk(request.config)
    && CountOk(request.messages)
    && ToolsOk(request.tools)
    && SizesOk(request.messages, sizes)
    && forall k :: 0 <= k < |request.messages| ==> MessageOk(request.messages[k])
  }

  /** Call ids are globally distinct and every batch is answered at once. */
  ghost predicate WellPaired(history: seq<Message>) {
    Distinct(AllCallIds(history)) && Answered(history)
  }

  /**
   The pairing condition part of the way through a history: `pending` calls still await results and
   the ids in `seen` may not be used again.
   */
  ghost predicate Resumable(pending: set<string>, seen: set<string>, rest: seq<Message>) {
    var n := |pending|;
    && n <= |rest|
    && AllTools(rest[..n])
    && multiset(Answers(rest[..n])) == multiset(pending)
    && Answered(rest[n..])
    && Distinct(AllCallIds(rest[n..]))
    && Unused(AllCallIds(rest[n..]), seen)
  }

  lemma RunHead(rest: seq<Message>, n: nat)
    requires 0 < n <= |rest| && rest[0].Tool?
    ensures rest[n..] == rest[1..][n - 1..]
    ensures AllTools(rest[..n]) <==> AllTools(rest[1..][..n - 1])
    ensures AllTools(rest[..n]) ==> Answers(rest[..n]) == [rest[0].callId] + Answers(rest[1..][..n - 1])
  {
    assert rest[..n][1..] == rest[1..][..n - 1];
  }

  lemma AnswerOne(pending: set<string>, id: string, others: seq<string>)
    requires id in pending
    ensures multiset([id] + others) == multiset(pending) <==> multiset(others) == multiset(pending - {id})
  {
    assert multiset([id] + others) - multiset{id} == multiset(others);
    assert multiset(pending) == multiset{id} + multiset(pending - {id});
    assert multiset{id} + multiset(pending - {id}) - multiset{id} == multiset(pending - {id});
  }

  lemma ResumeWithResult(pending: set<string>, seen: set<string>, rest: seq<Message>)
    requires rest != [] && rest[0].Tool?
    ensures Resumable(pending, seen, rest) <==>
            rest[0].callId in pending && Resumable(pending - {rest[0].callId}, seen, rest[1..])
  {
    var id := rest[0].callId;
    var n := |pending|;
    if pending == {} {
      assert rest[0..] == rest;
    } else if n <= |rest| {
      RunHead(rest, n);
      if id in pending {
        assert |pending - {id}| == n - 1;
        if AllTools(rest[..n]) {
          AnswerOne(pending, id, Answers(rest[1..][..n - 1]));
        }
      } else if AllTools(rest[..n]) {
        assert Answers(rest[..n])[0] in multiset(Answers(rest[..n]));
      }
    }
  }

  lemma IdsAreASet(ids: seq<string>)
    ensures Distinct(ids) ==> multiset(ids) == multiset(set id | id in ids)
    ensures Distinct(ids) ==> |set id | id in ids| == |ids|
  {
    if ids != [] {
      var last := |ids| - 1;
      var init := ids[..last];
      assert ids == init + [ids[last]];
      IdsAreASet(init);
      assert (set id | id in ids) == (set id | id in init) + {ids[last]};
      if Distinct(ids) {
        assert ids[last] !in init;
      }
    }
  }

  lemma DistinctConcat<T>(a: seq<T>, b: seq<T>)
    ensures Distinct(a + b) <==> Distinct(a) && Distinct(b) && forall x :: x in a ==> x !in b
  {
    var c := a + b;
    if Distinct(c) {
      assert Distinct(a) by {
        assert a == c[..|a|];
      }
      forall i, j | 0 <= i < j < |b| ensures b[i] != b[j] {
        assert c[|a| + i] != c[|a| + j];
      }
    }
    if Distinct(a) && Distinct(b) && forall x :: x in a ==> x !in b {
      forall i, j | 0 <= i < j < |c| ensures c[i] != c[j] {
        assert i < |a| ==> c[i] == a[i] && c[i] in a;
        assert j >= |a| ==> c[j] == b[j - |a|] && c[j] in b;
        assert i >= |a| ==> c[i] == b[i - |a|];
      }
    }
  }

  /** A pending batch cannot be interrupted. */
  lemma NoResumption(pending: set<string>, seen: set<string>, rest: seq<Message>)
    requires pending != {} && (rest == [] || !rest[0].Tool?)
    ensures !Resumable(pending, seen, rest)
  {
  }

  lemma EndOfHistory(pending: set<string>, seen: set<string>)
    ensures Resumable(pending, seen, []) <==> pending == {}
  {
    assert Answers([]) == [];
  }

  ghost predicate Unused(ids: seq<string>, seen: set<string>) {
    forall id :: id in ids ==> id !in seen
  }

  lemma OpeningBatch(rest: seq<Message>)
    requires rest != [] && !rest[0].Tool?
    ensures var n := |CallsOf(rest[0])|;
            AllCallIds(rest) == Ids(CallsOf(rest[0])) + AllCallIds(rest[1..]) &&
            (Answered(rest) <==>
             && n <= |rest[1..]|
             && AllTools(rest[1..][..n])
             && multiset(Ids(CallsOf(rest[0]))) == multiset(Answers(rest[1..][..n]))
             && Answered(rest[1..][n..])) &&
            (n <= |rest[1..]| && AllTools(rest[1..][..n]) ==> AllCallIds(rest[1..]) == AllCallIds(rest[1..][n..]))
  {
    var n := |CallsOf(rest[0])|;
    if n < |rest| {
      assert rest[1..n + 1] == rest[1..][..n] && rest[n + 1..] == rest[1..][n..];
      if AllTools(rest[1..][..n]) {
        NoIdsInTools(rest[1..], n);
      }
    }
  }

  /** An assistant opens a batch exactly when none of its ids was used before. */
  lemma ResumeWithMessage(seen: set<string>, rest: seq<Message>)
    requires rest != [] && !rest[0].Tool?
    ensures var ids := Ids(CallsOf(rest[0]));
            var batch := set id | id in ids;
            Resumable({}, seen, rest) <==>
            Distinct(ids) && Unused(ids, seen) && Resumable(batch, seen + batch, rest[1..])
  {
    var ids := Ids(CallsOf(rest[0]));
    var batch := set id | id in ids;
    var later := AllCallIds(rest[1..]);
    ResumeFromNothing(seen, rest);
    IdsAreASet(ids);
    OpeningBatch(rest);
    DistinctConcat(ids, later);
    UnusedSplits(ids, later, seen);
    hide Unused;
    hide AllCallIds;
    hide Answered;
    hide Distinct;
    hide AllTools;
    hide Answers;
    hide Ids;
  }

  lemma ResumeFromNothing(seen: set<string>, rest: seq<Message>)
    ensures Resumable({}, seen, rest) <==>
            Answered(rest) && Distinct(AllCallIds(rest)) && Unused(AllCallIds(rest), seen)
  {
    assert rest[..0] == [] && rest[0..] == rest;
  }

  lemma UnusedSplits(ids: seq<string>, later: seq<string>, seen: set<string>)
    ensures Unused(ids + later, seen) <==> Unused(ids, seen) && Unused(later, seen)
    ensures Unused(later, seen + set id | id in ids) <==> Unused(later, seen) && forall id :: id in ids ==> id !in later
  {
    assert forall id :: id in ids + later <==> id in ids || id in later;
  }

  /** Tool messages make no calls. */
  lemma NoIdsInTools(rest: seq<Message>, n: nat)
    requires n <= |rest| && AllTools(rest[..n])
    ensures AllCallIds(rest) == AllCallIds(rest[n..])
  {
    if n == 0 {
      assert rest[0..] == rest;
    } else {
      assert rest[..n][0].Tool?;
      RunHead(rest, n);
      NoIdsInTools(rest[1..], n - 1);
    }
  }

  lemma TotalsGrow(messages: seq<Message>, i: nat, sizes: Sizes)
    requires forall k :: 0 <= k < |messages| ==> sizes(messages[k]).Some?
    requires i <= |messages|
    ensures TotalText(messages[..i], sizes) <= TotalText(messages, sizes)
    ensures TotalEncoded(messages[..i], sizes) <= TotalEncoded(messages, sizes)
    decreases |messages|
  {
    if i < |messages| {
      var init := messages[..|messages| - 1];
      assert init[..i] == messages[..i];
      TotalsGrow(init, i, sizes);
    } else {
      assert messages[..i] == messages;
    }
  }

  method CheckParameters(p: Parameters) returns (ok: bool)
    ensures ok <==> ParametersOk(p)
  {
    if IsBlank(p.model) || ByteLen(p.model) > 256 || (exists i :: 0 <= i < |p.model| && IsControl(p.model[i])) {
      return false;
    }
    if (p.temperature.Some? && (p.temperature.value.NonFinite? || !(0.0 <= p.temperature.value.value <= 2.0))) ||
        (p.topP.Some? && (p.topP.value.NonFinite? || !(0.0 <= p.topP.value.value <= 1.0))) {
      return false;
    }
    if p.maxOutputTokens == Some(0) || |p.stop| > 64 ||
        (exists i :: 0 <= i < |p.stop| && (p.stop[i] == "" || ByteLen(p.stop[i]) > 256)) {
      return false;
    }
    return true;
  }

  /** The loop over the tools: each is well formed and its name new. */
  method CheckTools(tools: seq<ToolDefinition>) returns (ok: bool)
    ensures ok <==> ToolsOk(tools)
  {
    var names := {};
    for i := 0 to |tools|
      invariant ToolsOk(tools[..i])
      invariant names == set k | 0 <= k < i :: tools[k].name
    {
      var tool := tools[i];
      if tool.name == "" || |tool.name| > 64 ||
          (exists k :: 0 <= k < |tool.name| && !IsAsciiAlphanumeric(tool.name[k]) && tool.name[k] !in "_-") ||
          tool.name in names || !tool.inputSchema.Obj? || IsBlank(tool.description) {
        return false;
      }
      names := names + {tools[i].name};
      assert forall k :: 0 <= k < i ==> tools[..i][k].name == tools[k].name;
      assert tools[..i + 1] == tools[..i] + [tools[i]];
    }
    assert tools[..|tools|] == tools;
    return true;
  }

  /** A history is accepted exactly when it is within the limits and its calls and results pair up. */
  method Normalize(request: DomainRequest, sizes: Sizes) returns (r: Result<(), ErrorKind>)
    ensures r.Ok? <==> WithinLimits(request, sizes) && WellPaired(request.messages)
    ensures !ParametersOk(request.config) || !CountOk(request.messages) ==> r == Err(InvalidParameters)
    ensures r == Err(InvalidToolDefinition) <==>
            ParametersOk(request.config) && CountOk(request.messages) && !ToolsOk(request.tools)
  {
    var valid := CheckParameters(request.config);
    if !valid {
      return Err(InvalidParameters);
    }
    if request.messages == [] || |request.messages| > 4096 {
      return Err(InvalidParameters);
    }
    var defined := CheckTools(request.tools);
    if !defined {
      return Err(InvalidToolDefinition);
    }
    r := NormalizeMessages(request.messages, sizes);
  }

  /** The pairing state after one message, or `None` when the message may not come next. */
  ghost function PairStep(message: Message, pending: set<string>, seen: set<string>): Option<(set<string>,
      set<string>)> {
    if message.Tool? then
      if message.callId in pending then Some((pending - {message.callId}, seen)) else None
    else
      var ids := Ids(CallsOf(message));
      var batch := set id | id in ids;
      if pending == {} && Distinct(ids) && Unused(ids, seen) then Some((batch, seen + batch)) else None
  }

  lemma ResumeStep(pending: set<string>, seen: set<string>, rest: seq<Message>)
    requires rest != []
    ensures var next := PairStep(rest[0], pending, seen);
            Resumable(pending, seen, rest) <==>
            next.Some? && Resumable(next.value.0, next.value.1, rest[1..])
  {
    if rest[0].Tool? {
      ResumeWithResult(pending, seen, rest);
    } else if pending != {} {
      NoResumption(pending, seen, rest);
    } else {
      ResumeWithMessage(seen, rest);
    }
  }

  /** The loop over one assistant's calls: it marks them pending and their ids used. */
  method RecordCalls(calls: seq<ToolCall>, used: set<string>)
      returns (ok: bool, seen: set<string>, pending: set<string>)
    ensures ok <==>
            && (forall k :: 0 <= k < |calls| ==> CallOk(calls[k]))
            && Distinct(Ids(calls))
            && Unused(Ids(calls), used)
    ensures ok ==> pending == (set id | id in Ids(calls)) && seen == used + pending
  {
    seen, pending := used, {};
    for j := 0 to |calls|
      invariant forall k :: 0 <= k < j ==> CallOk(calls[k])
      invariant pending == set k | 0 <= k < j :: calls[k].id
      invariant seen == used + pending
      invariant forall k :: 0 <= k < j ==> calls[k].id !in used
      invariant forall k, l :: 0 <= k < l < j ==> calls[k].id != calls[l].id
    {
      var call := calls[j];
      if call.id == "" || ByteLen(call.id) > 256 || call.name == "" || ByteLen(call.name) > 64 || call.id in seen ||
          !call.arguments.Obj? {
        RepeatedId(calls, j, used);
        return false, seen, pending;
      }
      seen := seen + {calls[j].id};
      pending := pending + {calls[j].id};
    }
    IdsByIndex(calls);
    return true, seen, pending;
  }

  lemma RepeatedId(calls: seq<ToolCall>, j: nat, used: set<string>)
    requires j < |calls|
    ensures (exists k :: 0 <= k < j && calls[k].id == calls[j].id) ==> !Distinct(Ids(calls))
    ensures calls[j].id in used ==> !Unused(Ids(calls), used)
  {
    var ids := Ids(calls);
    IdsByIndex(calls);
    if k :| 0 <= k < j && calls[k].id == calls[j].id {
      assert ids[k] == ids[j];
    }
  }

  /** One message of the loop below, after its sizes were checked. */
  method CheckMessage(message: Message, pending: set<string>, seen: set<string>)
    returns (failure: Option<ErrorKind>, pending': set<string>, seen': set<string>)
    ensures failure.None? <==> MessageOk(message) && PairStep(message, pending, seen).Some?
    ensures failure.None? ==> PairStep(message, pending, seen).value.0 == pending'
    ensures failure.None? ==> PairStep(message, pending, seen).value.1 == seen'
    ensures failure != Some(InvalidToolDefinition)
  {
    pending', seen' := pending, seen;
    match message {
      case Assistant(reasoning, answer, calls, replay) =>
        if pending != {} || (EmptyText(answer) && EmptyText(reasoning) && calls == [] && replay.None?) {
          return Some(InvalidMessages), pending', seen';
        }
        if |calls| > 256 {
          return Some(InvalidParameters), pending', seen';
        }
        var ok;
        ok, seen', pending' := RecordCalls(calls, seen);
        failure := if ok then None else Some(InvalidMessages);
      case Tool(callId, _, _, _) =>
        failure := if callId in pending then None else Some(InvalidMessages);
        pending' := pending - {callId};
      case _ =>
        assert Ids(CallsOf(message)) == [] && (set id | id in Ids(CallsOf(message))) == {};
        failure := if pending == {} then None else Some(InvalidMessages);
    }
  }

  /** The running totals of the loop below, one message further. */
  method MeasureMessage(messages: seq<Message>, i: nat, textBytes: nat, encodedBytes: nat, sizes: Sizes)
    returns (ok: bool, textBytes': nat, encodedBytes': nat)
    requires i < |messages|
    requires SizesOk(messages[..i], sizes)
    requires textBytes == TotalText(messages[..i], sizes) && encodedBytes == TotalEncoded(messages[..i], sizes)
    ensures ok ==> SizesOk(messages[..i + 1], sizes)
    ensures ok ==>
              && textBytes' == TotalText(messages[..i + 1], sizes)
              && encodedBytes' == TotalEncoded(messages[..i + 1], sizes)
    ensures !ok ==> !SizesOk(messages, sizes)
  {
    textBytes', encodedBytes' := textBytes, encodedBytes;
    var measured := sizes(messages[i]);
    if measured.None? {
      return false, textBytes', encodedBytes';
    }
    var (text, encoded) := measured.value;
    var upTo := messages[..i + 1];
    assert upTo[..i] == messages[..i];
    assert forall k :: 0 <= k < i ==> upTo[k] == messages[..i][k];
    textBytes' := SaturatingAdd(textBytes, text);
    encodedBytes' := SaturatingAdd(encodedBytes, encoded);
    ok := text <= MAX_MESSAGE_BYTES && textBytes' <= MAX_MESSAGES_BYTES && encodedBytes' <= MAX_REQUEST_BYTES;
    if !ok && forall k :: 0 <= k < |messages| ==> sizes(messages[k]).Some? {
      TotalsGrow(messages, i + 1, sizes);
    }
  }

  method NormalizeMessages(messages: seq<Message>, sizes: Sizes) returns (r: Result<(), ErrorKind>)
    ensures r.Ok? <==>
            && SizesOk(messages, sizes)
            && (forall k :: 0 <= k < |messages| ==> MessageOk(messages[k]))
            && WellPaired(messages)
    ensures r != Err(InvalidToolDefinition)
  {
    var pending, seen := {}, {};
    var textBytes, encodedBytes := 0, 0;
    assert messages[0..] == messages;
    assert WellPaired(messages) <==> Resumable(pending, seen, messages[0..]);
    for i := 0 to |messages|
      invariant forall k :: 0 <= k < i ==> MessageOk(messages[k])
      invariant SizesOk(messages[..i], sizes)
      invariant textBytes == TotalText(messages[..i], sizes) && encodedBytes == TotalEncoded(messages[..i], sizes)
      invariant WellPaired(messages) <==> Resumable(pending, seen, messages[i..])
    {
      var ok;
      ok, textBytes, encodedBytes := MeasureMessage(messages, i, textBytes, encodedBytes, sizes);
      if !ok {
        return Err(InvalidMessages);
      }
      assert messages[i..][1..] == messages[i + 1..];
      ResumeStep(pending, seen, messages[i..]);
      var failure;
      failure, pending, seen := CheckMessage(messages[i], pending, seen);
      if failure.Some? {
        return Err(failure.value);
      }
    }
    assert messages[..|messages|] == messages && messages[|messages|..] == [];
    EndOfHistory(pending, seen);
    r := if pending == {} then Ok(()) else Err(InvalidMessages);
  }
}
