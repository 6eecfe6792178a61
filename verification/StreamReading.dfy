/** How the laws of the three event streams read payloads and fragments. */
module StreamReading {
  import opened Wrappers
  import opened Json
  import opened History
  import opened Sequences
  import opened Sse
  import opened Provider
  import opened StreamText
  import opened ResponseContents

  /** The text of a field: nothing when the field is absent or no text. */
  function TextAt(value: Json, key: string): string {
    if value.At(key).Str? then value.At(key).text else ""
  }

  /** The number of a field, if it is there. */
  function CountAt(value: Json, key: string): Option<int> {
    if value.Obj? && key in value.fields && value.fields[key].Int? then Some(value.fields[key].number) else None
  }

  function Has(value: Json, key: string): bool {
    value.Obj? && key in value.fields
  }

  /** What the providers' stop reasons mean. */
  predicate Means(text: string, reason: StopReason) {
    match reason
    case Completed => text in ["stop", "end_turn", "stop_sequence"]
    case ToolCalls => text in ["tool_calls", "tool_use"]
    case Length => text in ["length", "max_tokens", "max_output_tokens", "model_context_window_exceeded"]
    case ContentFilter => text in ["content_filter", "refusal"]
    case Other(value) =>
      && value == text
      && text !in ["stop", "end_turn", "stop_sequence", "tool_calls", "tool_use", "length", "max_tokens",
                   "max_output_tokens", "model_context_window_exceeded", "content_filter", "refusal"]
  }

  lemma ReasonMeans(text: string)
    ensures Means(text, ToStopReason(text))
  {
  }

  // ---------------------------------------------------------------- fragments in a row

  lemma {:induction false} CallTextConcat(a: seq<Fragment>, b: seq<Fragment>, index: nat, field: CallField)
    ensures CallText(a + b, index, field) == CallText(a, index, field) + CallText(b, index, field)
  {
    if b == [] {
      Unit(a);
      Unit(CallText(a, index, field));
    } else {
      var init, last := b[..|b| - 1], b[|b| - 1];
      assert (a + b)[..|a + b| - 1] == a + init && (a + b)[|a + b| - 1] == last;
      CallTextConcat(a, init, index, field);
      Assoc(CallText(a, index, field), CallText(init, index, field), CallPiece(last, index, field));
    }
  }

  lemma IndicesConcat(a: seq<Fragment>, b: seq<Fragment>)
    ensures CallIndices(a + b) == CallIndices(a) + CallIndices(b)
    ensures ReplayIndices(a + b) == ReplayIndices(a) + ReplayIndices(b)
  {
    assert forall f :: f in a + b <==> f in a || f in b;
  }

  lemma {:induction false} UsageConcat(a: seq<Fragment>, b: seq<Fragment>)
    ensures LastUsage(a + b) == if LastUsage(b).Some? then LastUsage(b) else LastUsage(a)
  {
    if b == [] {
      Unit(a);
    } else {
      var init, last := b[..|b| - 1], b[|b| - 1];
      assert (a + b)[..|a + b| - 1] == a + init && (a + b)[|a + b| - 1] == last;
      UsageConcat(a, init);
    }
  }

  /** Fragments other than call deltas say nothing of calls. */
  lemma {:induction false} NoCallPieces(fragments: seq<Fragment>)
    requires forall k :: 0 <= k < |fragments| ==> !fragments[k].ToolCallDelta?
    ensures CallIndices(fragments) == {}
    ensures forall index, field :: CallText(fragments, index, field) == ""
  {
    if fragments != [] {
      NoCallPieces(fragments[..|fragments| - 1]);
    }
  }

  lemma {:induction false} NoUsage(fragments: seq<Fragment>)
    requires forall k :: 0 <= k < |fragments| ==> !fragments[k].UsageUpdate?
    ensures LastUsage(fragments).None?
  {
    if fragments != [] {
      NoUsage(fragments[..|fragments| - 1]);
    }
  }

  lemma OneOf(f: Fragment, index: nat, field: CallField)
    ensures CallText([f], index, field) == CallPiece(f, index, field)
    ensures CallIndices([f]) == if f.ToolCallDelta? then {f.index} else {}
    ensures LastUsage([f]) == if f.UsageUpdate? then Some(f.usage) else None
    ensures ContentOf([f]) == (if f.Content? then f.text else "")
    ensures ReasoningOf([f]) == if f.Reasoning? then f.text else ""
  {
    assert [f][..0] == [] && [f][1..] == [];
    Unit(CallPiece(f, index, field));
    Unit(if f.Content? then f.text else "");
    Unit(if f.Reasoning? then f.text else "");
  }
}
