/**
 Event streams as documents: what a stream of lines means, and that the framing of its bytes finds exactly that,
 for any machine that consumes the events.
 */
module SseDocuments {
  import opened Wrappers
  import opened History
  import opened Sequences
  import opened Sse

  /** A line as it is written: a field with or without the optional space, or something that is ignored. */
  datatype Line =
    | DataLine(part: seq<byte>, spaced: bool)
    | EventLine(name: seq<byte>, spaced: bool)
    | Ignored(text: seq<byte>)

  /** A line and whether it ends with CRLF rather than LF. */
  datatype Written = Written(line: Line, crlf: bool)

  /** The lines of one event and the line end of the blank line after them. */
  datatype Block = Block(lines: seq<Written>, crlf: bool)

  function Body(line: Line): seq<byte> {
    match line
    case DataLine(part, spaced) => [100, 97, 116, 97, 58] + (if spaced then [32] else []) + part
    case EventLine(name, spaced) => [101, 118, 101, 110, 116, 58] + (if spaced then [32] else []) + name
    case Ignored(text) => text
  }

  function LineEnd(crlf: bool): seq<byte> {
    if crlf then [13, 10] else [10]
  }

  function LineText(w: Written): seq<byte> {
    Body(w.line) + LineEnd(w.crlf)
  }

  function LinesText(lines: seq<Written>): seq<byte> {
    if lines == [] then [] else LinesText(lines[..|lines| - 1]) + LineText(lines[|lines| - 1])
  }

  function BlockText(block: Block): seq<byte> {
    LinesText(block.lines) + LineEnd(block.crlf)
  }

  function DocumentText(document: seq<Block>): seq<byte> {
    if document == [] then [] else BlockText(document[0]) + DocumentText(document[1..])
  }

  /** A value that reads back: it holds no LF, does not start with an unprotected space nor end in an unprotected CR. */
  predicate ValueOk(value: seq<byte>, spaced: bool, crlf: bool) {
    && 10 !in value
    && (!spaced && value != [] ==> value[0] != 32)
    && (!crlf && value != [] ==> value[|value| - 1] != 13)
  }

  predicate WrittenOk(w: Written, utf8: seq<byte> -> bool) {
    match w.line
    case DataLine(part, spaced) => ValueOk(part, spaced, w.crlf)
    case EventLine(name, spaced) => ValueOk(name, spaced, w.crlf) && utf8(name)
    case Ignored(text) =>
      && text != [] && 10 !in text && (w.crlf || text[|text| - 1] != 13)
      && !([100, 97, 116, 97, 58] <= text) && !([101, 118, 101, 110, 116, 58] <= text)
  }

  ghost predicate LinesOk(lines: seq<Written>, utf8: seq<byte> -> bool) {
    forall k :: 0 <= k < |lines| ==> WrittenOk(lines[k], utf8)
  }

  /** The lines of each event read back, and none of the events is over the budget. */
  ghost predicate DocumentOk(document: seq<Block>, utf8: seq<byte> -> bool) {
    forall k :: 0 <= k < |document| ==> LinesOk(document[k].lines, utf8) && Within(document[k].lines)
  }

  // ---------------------------------------------------------------- what a document means

  /** The data parts of some lines, in order. */
  function Parts(lines: seq<Written>): seq<seq<byte>> {
    if lines == [] then []
    else
      var last := lines[|lines| - 1].line;
      Parts(lines[..|lines| - 1]) + if last.DataLine? then [last.part] else []
  }

  /** The name in the last event line, if any. */
  function NameIn(lines: seq<Written>): seq<byte> {
    if lines == [] then []
    else
      var last := lines[|lines| - 1].line;
      if last.EventLine? then last.name else NameIn(lines[..|lines| - 1])
  }

  /** The parts with LF between them. */
  function JoinLines(parts: seq<seq<byte>>): seq<byte> {
    if parts == [] then []
    else if |parts| == 1 then parts[0]
    else JoinLines(parts[..|parts| - 1]) + [10] + parts[|parts| - 1]
  }

  /** Empty parts before the first nonempty one leave no trace, unlike in the standard. */
  function WithoutLeading(parts: seq<seq<byte>>): seq<seq<byte>> {
    if parts != [] && parts[0] == [] then WithoutLeading(parts[1..]) else parts
  }

  function DataIn(lines: seq<Written>): seq<byte> {
    JoinLines(WithoutLeading(Parts(lines)))
  }

  /** The data and the name stay within the budget after every line. */
  predicate Within(lines: seq<Written>) {
    lines == [] || (Within(lines[..|lines| - 1]) && |DataIn(lines)| + |NameIn(lines)| <= MAX_MESSAGE_BYTES)
  }

  /** The event of a block: none without data. */
  function EventsIn(lines: seq<Written>): seq<Payload> {
    if DataIn(lines) == [] then [] else [Payload(NameIn(lines), DataIn(lines))]
  }

  function Events(document: seq<Block>): seq<Payload> {
    if document == [] then [] else EventsIn(document[0].lines) + Events(document[1..])
  }

  // ---------------------------------------------------------------- one line

  lemma Stripped(body: seq<byte>, crlf: bool)
    requires crlf || body == [] || body[|body| - 1] != 13
    ensures StripCr(body + if crlf then [13] else []) == body
  {
    Unit(body);
    if crlf {
      assert (body + [13])[..|body|] == body;
    }
  }

  lemma {:induction false} LeadingGrows(parts: seq<seq<byte>>, part: seq<byte>)
    ensures WithoutLeading(parts + [part]) ==
            if WithoutLeading(parts) == [] && part == [] then [] else WithoutLeading(parts) + [part]
  {
    if parts == [] {
      assert parts + [part] == [part] && [part][1..] == [];
    } else if parts[0] == [] {
      assert (parts + [part])[1..] == parts[1..] + [part];
      LeadingGrows(parts[1..], part);
    }
  }

  lemma {:induction false} LeadingIsNonempty(parts: seq<seq<byte>>)
    ensures WithoutLeading(parts) != [] ==> WithoutLeading(parts)[0] != []
  {
    if parts != [] && parts[0] == [] {
      LeadingIsNonempty(parts[1..]);
    }
  }

  lemma {:induction false} JoinedNonempty(parts: seq<seq<byte>>)
    requires parts != [] ==> parts[0] != []
    ensures JoinLines(parts) == [] <==> parts == []
  {
    if |parts| > 1 {
      JoinedNonempty(parts[..|parts| - 1]);
    }
  }

  /** Appending a data line to the data so far. */
  lemma DataGrows(parts: seq<seq<byte>>, part: seq<byte>, value: seq<byte>)
    requires StripSpace(value) == part
    ensures JoinLines(WithoutLeading(parts + [part])) == AppendData(JoinLines(WithoutLeading(parts)), value)
  {
    var kept := WithoutLeading(parts);
    LeadingGrows(parts, part);
    LeadingIsNonempty(parts);
    JoinedNonempty(kept);
    if kept != [] {
      assert (kept + [part])[..|kept|] == kept;
    } else {
      Unit(part);
    }
  }

  lemma SpaceStripped(value: seq<byte>, spaced: bool)
    requires !spaced && value != [] ==> value[0] != 32
    ensures StripSpace((if spaced then [32] else []) + value) == value
  {
    Unit(value);
    if spaced {
      assert ([32] + value)[1..] == value;
    }
  }

  /** The state that the lines of an open event leave. */
  function Open<C>(s: Frame<C>, lines: seq<Written>): Frame<C> {
    s.(data := DataIn(lines), event := NameIn(lines))
  }

  lemma DataLineRead<C, F>(m: Machine<C, F>, s: Frame<C>, lines: seq<Written>, w: Written)
    requires WrittenOk(w, m.utf8) && w.line.DataLine?
    ensures FieldStep(m, Open(s, lines), Body(w.line)) == Ok(Open(s, lines + [w]))
  {
    var value := (if w.line.spaced then [32] else []) + w.line.part;
    assert Body(w.line) == DATA_FIELD + value;
    assert Body(w.line)[|DATA_FIELD|..] == value;
    SpaceStripped(w.line.part, w.line.spaced);
    DataGrows(Parts(lines), w.line.part, value);
    assert (lines + [w])[..|lines|] == lines;
    hide AppendData;
    hide WithoutLeading;
    hide JoinLines;
  }

  lemma EventLineRead<C, F>(m: Machine<C, F>, s: Frame<C>, lines: seq<Written>, w: Written)
    requires WrittenOk(w, m.utf8) && w.line.EventLine?
    ensures FieldStep(m, Open(s, lines), Body(w.line)) == Ok(Open(s, lines + [w]))
  {
    var value := (if w.line.spaced then [32] else []) + w.line.name;
    assert Body(w.line) == EVENT_FIELD + value;
    assert Body(w.line)[|EVENT_FIELD|..] == value;
    assert Body(w.line)[0] == 101 && DATA_FIELD[0] == 100;
    SpaceStripped(w.line.name, w.line.spaced);
    assert (lines + [w])[..|lines|] == lines;
    Unit(Parts(lines));
    hide WithoutLeading;
    hide JoinLines;
  }

  lemma IgnoredRead<C, F>(m: Machine<C, F>, s: Frame<C>, lines: seq<Written>, w: Written)
    requires WrittenOk(w, m.utf8) && w.line.Ignored?
    ensures Open(s, lines + [w]) == Open(s, lines)
    ensures FieldStep(m, Open(s, lines), Body(w.line)) == Ok(Open(s, lines))
  {
    assert (lines + [w])[..|lines|] == lines;
    Unit(Parts(lines));
  }

  function Raw(w: Written): seq<byte> {
    Body(w.line) + if w.crlf then [13] else []
  }

  lemma LineRead<C, F>(m: Machine<C, F>, s: Frame<C>, lines: seq<Written>, w: Written)
    requires WrittenOk(w, m.utf8) && |DataIn(lines)| + |NameIn(lines)| <= MAX_MESSAGE_BYTES
    ensures LineStep(m, Open(s, lines), Raw(w)) ==
            if |DataIn(lines + [w])| + |NameIn(lines + [w])| <= MAX_MESSAGE_BYTES then Ok((Open(s, lines + [w]), []))
            else Err(ResponseTooLarge)
  {
    EndsClean(w, m.utf8);
    Stripped(Body(w.line), w.crlf);
    if w.line.DataLine? {
      DataLineRead(m, s, lines, w);
    } else if w.line.EventLine? {
      EventLineRead(m, s, lines, w);
    } else {
      IgnoredRead(m, s, lines, w);
    }
    hide FieldStep;
    hide DataIn;
    hide NameIn;
    hide LinesText;
  }

  lemma EndsClean(w: Written, utf8: seq<byte> -> bool)
    requires WrittenOk(w, utf8)
    ensures Body(w.line) != [] && 10 !in Body(w.line)
    ensures w.crlf || Body(w.line)[|Body(w.line)| - 1] != 13
    ensures !w.line.Ignored? ==> Body(w.line)[0] != COLON
  {
  }

  // ---------------------------------------------------------------- lines, blocks, documents

  lemma DrainedLine<C, F>(m: Machine<C, F>, s: Frame<C>, raw: seq<byte>)
    requires s.buffer == raw + [10] && 10 !in raw
    ensures Drain(m, s) == LineStep(m, s.(buffer := []), raw)
  {
    hide LineStep;
    assert s.buffer[..|raw|] == raw && s.buffer[|raw| + 1..] == [];
    FirstLf(s.buffer, |raw|);
    DrainLine(m, s, |raw|);
    var stepped := LineStep(m, s.(buffer := []), raw);
    if stepped.Ok? {
      assert Drain(m, stepped.value.0) == Ok((stepped.value.0, []));
      Unit(stepped.value.1);
    }
  }

  /** The LF that completes a line makes the framing read it. */
  lemma LineCompleted<C, F>(m: Machine<C, F>, s: Frame<C>, more: seq<byte>)
    requires 10 !in s.buffer && 10 !in more
    ensures Process(m, s, more + [10]) == LineStep(m, s.(bytes := s.bytes + |more| + 1, buffer := []), s.buffer + more)
  {
    hide LineStep;
    hide Drain;
    Assoc(s.buffer, more, [10]);
    DrainedLine(m, s.(bytes := s.bytes + |more + [10]|, buffer := s.buffer + (more + [10])), s.buffer + more);
  }

  lemma LineProcessed<C, F>(m: Machine<C, F>, s: Frame<C>, raw: seq<byte>)
    requires s.buffer == [] && 10 !in raw
    ensures Process(m, s, raw + [10]) == LineStep(m, s.(bytes := s.bytes + |raw| + 1), raw)
  {
    hide LineStep;
    hide Process;
    LineCompleted(m, s, raw);
    Unit(raw);
    assert s.(bytes := s.bytes + |raw| + 1, buffer := []) == s.(bytes := s.bytes + |raw| + 1);
  }

  lemma ThenQuietly<C, F>(m: Machine<C, F>, s: Frame<C>, input: seq<byte>)
    ensures Then(m, Ok((s, [])), input) == Process(m, s, input)
  {
    hide Process;
    PrependNothing(Process(m, s, input));
  }

  lemma WrittenProcessed<C, F>(m: Machine<C, F>, s: Frame<C>, lines: seq<Written>, w: Written)
    requires s.buffer == [] && WrittenOk(w, m.utf8) && |DataIn(lines)| + |NameIn(lines)| <= MAX_MESSAGE_BYTES
    ensures Process(m, Open(s, lines), LineText(w)) ==
            if |DataIn(lines + [w])| + |NameIn(lines + [w])| <= MAX_MESSAGE_BYTES
            then Ok((Open(s.(bytes := s.bytes + |LineText(w)|), lines + [w]), []))
            else Err(ResponseTooLarge)
  {
    hide Process;
    hide LineStep;
    hide DataIn;
    hide NameIn;
    hide WrittenOk;
    hide Body;
    hide LinesText;
    EndsClean(w, m.utf8);
    assert LineText(w) == Raw(w) + [10];
    LineProcessed(m, Open(s, lines), Raw(w));
    LineRead(m, s.(bytes := s.bytes + |LineText(w)|), lines, w);
  }

  /**
   The lines of an event, from a state without data, leave their data and name open, and are refused exactly when
   these outgrow the budget.
   */
  lemma {:induction false} LinesProcessed<C, F>(m: Machine<C, F>, s: Frame<C>, lines: seq<Written>)
    requires s.buffer == [] && s.data == [] && s.event == [] && LinesOk(lines, m.utf8)
    ensures Process(m, s, LinesText(lines)) ==
            if Within(lines) then Ok((Open(s.(bytes := s.bytes + |LinesText(lines)|), lines), []))
            else Err(ResponseTooLarge)
  {
    hide Process;
    hide DataIn;
    hide NameIn;
    hide WrittenOk;
    hide LineText;
    if lines == [] {
      NothingProcessed(m, s);
    } else {
      var init, w := lines[..|lines| - 1], lines[|lines| - 1];
      LinesProcessed(m, s, init);
      assert lines == init + [w];
      ProcessSplits(m, s, LinesText(init), LineText(w));
      if Within(init) {
        var after := s.(bytes := s.bytes + |LinesText(init)|);
        ThenQuietly(m, Open(after, init), LineText(w));
        WithinNow(init);
        WrittenProcessed(m, after, init, w);
        hide Then;
      }
    }
  }

  lemma WithinNow(lines: seq<Written>)
    requires Within(lines)
    ensures |DataIn(lines)| + |NameIn(lines)| <= MAX_MESSAGE_BYTES
  {
  }

  lemma NothingProcessed<C, F>(m: Machine<C, F>, s: Frame<C>)
    requires s.buffer == []
    ensures Process(m, s, []) == Ok((s, []))
    ensures s.data == [] && s.event == [] ==> Open(s, []) == s
  {
    Unit(s.buffer);
  }

  /** The outcome of a run of the machine, as a state of the framing with nothing open. */
  function Ran<C, F>(s: Frame<C>, bytes: nat, run: Result<(C, seq<F>), ErrorKind>): Outcome<C, F> {
    match run
    case Err(e) => Err(e)
    case Ok((core, output)) => Ok((Frame([], [], [], s.bytes + bytes, core), output))
  }

  lemma BlankProcessed<C, F>(m: Machine<C, F>, s: Frame<C>, crlf: bool)
    requires s.buffer == []
    ensures Process(m, s, LineEnd(crlf)) == DispatchStep(m, s.(bytes := s.bytes + |LineEnd(crlf)|))
  {
    hide Process;
    hide DispatchStep;
    var raw: seq<byte> := if crlf then [13] else [];
    assert LineEnd(crlf) == raw + [10];
    BlankStripped(crlf);
    LineProcessed(m, s, raw);
    hide StripCr;
    assert |LineEnd(crlf)| == |raw| + 1;
  }

  lemma BlankStripped(crlf: bool)
    ensures StripCr(if crlf then [13] else []) == []
  {
    if crlf {
      var raw: seq<byte> := [13];
      assert raw[..0] == [];
    }
  }

  lemma DispatchRuns<C, F>(m: Machine<C, F>, s: Frame<C>, lines: seq<Written>)
    requires s.buffer == []
    ensures DispatchStep(m, Open(s, lines)) == Ran(s, 0, Run(m, s.core, EventsIn(lines)))
  {
    if DataIn(lines) != [] {
      var events := EventsIn(lines);
      assert events[1..] == [];
      var stepped := m.step(s.core, events[0]);
      if stepped.Ok? {
        Unit(stepped.value.1);
      }
    }
  }

  /** An event and its blank line: the machine consumes exactly its meaning. */
  lemma BlockProcessed<C, F>(m: Machine<C, F>, s: Frame<C>, block: Block)
    requires s.buffer == [] && s.data == [] && s.event == []
    requires LinesOk(block.lines, m.utf8) && Within(block.lines)
    ensures Process(m, s, BlockText(block)) == Ran(s, |BlockText(block)|, Run(m, s.core, EventsIn(block.lines)))
  {
    hide Process;
    hide DispatchStep;
    hide EventsIn;
    hide DataIn;
    hide NameIn;
    hide LinesOk;
    hide LinesText;
    hide LineEnd;
    hide Run;
    var after := s.(bytes := s.bytes + |LinesText(block.lines)|);
    LinesProcessed(m, s, block.lines);
    ProcessSplits(m, s, LinesText(block.lines), LineEnd(block.crlf));
    ThenQuietly(m, Open(after, block.lines), LineEnd(block.crlf));
    BlankProcessed(m, Open(after, block.lines), block.crlf);
    DispatchRuns(m, after.(bytes := after.bytes + |LineEnd(block.crlf)|), block.lines);
    hide Then;
  }

  lemma RunSplits<C, F>(m: Machine<C, F>, core: C, a: seq<Payload>, b: seq<Payload>)
    ensures Run(m, core, a + b) ==
            match Run(m, core, a)
            case Err(e) => Err(e)
            case Ok((next, output)) =>
              match Run(m, next, b)
              case Err(e) => Err(e)
              case Ok((last, more)) => Ok((last, output + more))
    decreases |a|
  {
    if Run(m, core, a).Ok? {
      RunConcat(m, core, a, b);
    } else {
      assert (a + b)[0] == a[0] && (a + b)[1..] == a[1..] + b;
      if m.step(core, a[0]).Ok? {
        RunSplits(m, m.step(core, a[0]).value.0, a[1..], b);
      }
    }
  }

  /**
   Whatever the machine: processing the text of a document is running the machine on the document's events,
   up to the first error.
   */
  lemma {:induction false} DocumentProcessed<C, F>(m: Machine<C, F>, s: Frame<C>, document: seq<Block>)
    requires s.buffer == [] && s.data == [] && s.event == [] && DocumentOk(document, m.utf8)
    ensures Process(m, s, DocumentText(document)) ==
            Ran(s, |DocumentText(document)|, Run(m, s.core, Events(document)))
    decreases |document|
  {
    hide Within;
    hide Process;
    hide EventsIn;
    hide BlockText;
    hide LinesOk;
    hide LinesText;
    hide Run;
    if document == [] {
      NothingProcessed(m, s);
      NothingRuns(m, s.core);
    } else {
      var first, rest := document[0], document[1..];
      assert forall k :: 0 <= k < |rest| ==> rest[k] == document[k + 1];
      BlockProcessed(m, s, first);
      ProcessSplits(m, s, BlockText(first), DocumentText(rest));
      RunSplits(m, s.core, EventsIn(first.lines), Events(rest));
      if Run(m, s.core, EventsIn(first.lines)).Ok? {
        var (core, output) := Run(m, s.core, EventsIn(first.lines)).value;
        DocumentProcessed(m, Frame([], [], [], s.bytes + |BlockText(first)|, core), rest);
      }
    }
  }

  lemma NothingRuns<C, F>(m: Machine<C, F>, core: C)
    ensures Run(m, core, []) == Ok((core, []))
  {
  }

  /** The end of a stream acts as the line ends that are missing: of an unfinished line, then of an open event. */
  lemma EndCompletes<C, F>(m: Machine<C, F>, s: Frame<C>)
    requires 10 !in s.buffer
    ensures FinishStep(m, s) ==
            match Process(m, s, if s.buffer == [] then [10] else [10, 10])
            case Err(e) => Err(e)
            case Ok((last, output)) => if m.terminal(last.core) then Ok(output) else Err(ResponseIncomplete)
  {
    if s.buffer == [] {
      BlankProcessed(m, s, false);
      DispatchIgnoresBytes(m, s, s.bytes + 1);
      var last := DispatchStep(m, s);
      if last.Ok? {
        Unit(last.value.1);
      }
    } else {
      UnfinishedLine(m, s);
    }
  }

  lemma DispatchIgnoresBytes<C, F>(m: Machine<C, F>, s: Frame<C>, bytes: nat)
    ensures DispatchStep(m, s.(bytes := bytes)) ==
            match DispatchStep(m, s)
            case Err(e) => Err(e)
            case Ok((next, output)) => Ok((next.(bytes := bytes), output))
  {
  }

  lemma UnfinishedLine<C, F>(m: Machine<C, F>, s: Frame<C>)
    requires s.buffer != [] && 10 !in s.buffer
    ensures FinishStep(m, s) ==
            match Process(m, s, [10, 10])
            case Err(e) => Err(e)
            case Ok((last, output)) => if m.terminal(last.core) then Ok(output) else Err(ResponseIncomplete)
  {
    hide Process;
    hide LineStep;
    var tail := s.(buffer := []);
    LineCompleted(m, s, []);
    Unit(s.buffer);
    assert [] + [10] == [10];
    LineIgnoresBuffer(m, tail, s.bytes + 1, [], s.buffer);
    assert [10, 10] == [10] + [10];
    ProcessSplits(m, s, [10], [10]);
    var stepped := LineStep(m, tail, s.buffer);
    if stepped.Ok? {
      var next := stepped.value.0;
      BlankProcessed(m, next.(bytes := s.bytes + 1), false);
      DispatchIgnoresBytes(m, next, s.bytes + 2);
    }
    hide DispatchStep;
  }

  // ---------------------------------------------------------------- whole streams

  /** Lines that outgrow the budget are refused, once all events before them were consumed. */
  lemma OversizedRefused<C, F>(m: Machine<C, F>, core: C, document: seq<Block>, lines: seq<Written>)
    requires DocumentOk(document, m.utf8) && LinesOk(lines, m.utf8) && !Within(lines)
    ensures Process(m, Start(core), DocumentText(document) + LinesText(lines)) ==
            match Run(m, core, Events(document))
            case Err(e) => Err(e)
            case Ok(_) => Err(ResponseTooLarge)
  {
    hide Process;
    hide Run;
    hide LinesOk;
    hide DocumentText;
    hide LinesText;
    hide Within;
    DocumentProcessed(m, Start(core), document);
    ProcessSplits(m, Start(core), DocumentText(document), LinesText(lines));
    var run := Run(m, core, Events(document));
    if run.Ok? {
      LinesProcessed(m, Frame([], [], [], |DocumentText(document)|, run.value.0), lines);
    }
  }

  /** How a decoding of some events ends. */
  function Ended<C, F>(m: Machine<C, F>, run: Result<(C, seq<F>), ErrorKind>): Result<seq<F>, ErrorKind> {
    match run
    case Err(e) => Err(e)
    case Ok((last, output)) => if m.terminal(last) then Ok(output) else Err(ResponseIncomplete)
  }

  function StillOpen<C, F>(run: Result<(C, seq<F>), ErrorKind>, bytes: nat, tail: seq<Written>): Outcome<C, F> {
    match run
    case Err(e) => Err(e)
    case Ok((last, output)) => Ok((Open(Frame([], [], [], bytes, last), tail), output))
  }

  lemma TailProcessed<C, F>(m: Machine<C, F>, core: C, document: seq<Block>, tail: seq<Written>)
    requires DocumentOk(document, m.utf8) && LinesOk(tail, m.utf8) && Within(tail)
    ensures var input := DocumentText(document) + LinesText(tail);
            Process(m, Start(core), input) == StillOpen(Run(m, core, Events(document)), |input|, tail)
  {
    hide Process;
    hide Run;
    hide LinesOk;
    hide DocumentText;
    hide LinesText;
    hide DataIn;
    hide NameIn;
    DocumentProcessed(m, Start(core), document);
    ProcessSplits(m, Start(core), DocumentText(document), LinesText(tail));
    var run := Run(m, core, Events(document));
    if run.Ok? {
      LinesProcessed(m, Frame([], [], [], |DocumentText(document)|, run.value.0), tail);
      Unit(run.value.1);
    }
  }

  /** No chunking of a text within the budget is refused for where it cuts; one of a longer text may be. */
  predicate NotRefused<C, F>(m: Machine<C, F>, core: C, chunks: seq<seq<byte>>) {
    |Joined(chunks)| <= MAX_MESSAGE_BYTES || Feed(m, Start(core), chunks).Ok?
  }

  lemma ChunksProcessed<C, F>(m: Machine<C, F>, core: C, chunks: seq<seq<byte>>)
    requires NotRefused(m, core, chunks)
    ensures Feed(m, Start(core), chunks) == Process(m, Start(core), Joined(chunks))
  {
    hide Process;
    hide Feed;
    if |Joined(chunks)| <= MAX_MESSAGE_BYTES {
      FeedWithinBudget(m, Start(core), chunks);
    } else {
      FeedIsProcess(m, Start(core), chunks);
    }
  }

  /**
   Any chunking of the text of a document, perhaps with an event still open at its end, is decoded as running the
   machine on its events, the open one included.
   */
  lemma DocumentDecoded<C, F>(m: Machine<C, F>, core: C, document: seq<Block>, tail: seq<Written>,
      chunks: seq<seq<byte>>)
    requires DocumentOk(document, m.utf8) && LinesOk(tail, m.utf8) && Within(tail)
    requires Joined(chunks) == DocumentText(document) + LinesText(tail) && NotRefused(m, core, chunks)
    ensures Decode(m, core, chunks) == Ended(m, Run(m, core, Events(document) + EventsIn(tail)))
  {
    hide Process;
    hide Feed;
    hide Run;
    hide LinesOk;
    hide DocumentText;
    hide LinesText;
    hide EventsIn;
    hide Events;
    hide FinishStep;
    TailProcessed(m, core, document, tail);
    ChunksProcessed(m, core, chunks);
    RunSplits(m, core, Events(document), EventsIn(tail));
    if Run(m, core, Events(document)).Ok? {
      var last := Run(m, core, Events(document)).value.0;
      OpenEnd(m, Frame([], [], [], |Joined(chunks)|, last), tail);
    }
  }

  lemma OpenEnd<C, F>(m: Machine<C, F>, s: Frame<C>, tail: seq<Written>)
    requires s.buffer == []
    ensures FinishStep(m, Open(s, tail)) == Ended(m, Run(m, s.core, EventsIn(tail)))
  {
    hide Process;
    hide Run;
    hide EventsIn;
    hide DataIn;
    hide NameIn;
    DispatchRuns(m, s, tail);
    hide DispatchStep;
    if DispatchStep(m, Open(s, tail)).Ok? {
      Unit(DispatchStep(m, Open(s, tail)).value.1);
    }
  }

  // ---------------------------------------------------------------- the dispatched events themselves

  function Fed<C, F>(m: Machine<C, F>, s: Frame<C>, input: seq<byte>): seq<Payload> {
    DrainDispatches(m, s.(bytes := s.bytes + |input|, buffer := s.buffer + input))
  }

  lemma FedLine<C, F>(m: Machine<C, F>, s: Frame<C>, raw: seq<byte>)
    requires 10 !in s.buffer && 10 !in raw
    ensures Fed(m, s, raw + [10]) ==
            if LineStep(m, s.(buffer := []), s.buffer + raw).Err? then []
            else LineDispatches(s.(buffer := []), s.buffer + raw)
  {
    hide LineStep;
    hide LineDispatches;
    hide DrainDispatches;
    hide FindLf;
    var line := s.buffer + raw;
    Assoc(s.buffer, raw, [10]);
    var whole := s.(bytes := s.bytes + |raw + [10]|, buffer := line + [10]);
    assert whole.buffer[..|line|] == line && whole.buffer[|line| + 1..] == [];
    FirstLf(whole.buffer, |line|);
    DispatchesAt(m, whole, |line|);
    var rest := whole.(buffer := []);
    LineIgnoresBuffer(m, s.(buffer := []), whole.bytes, [], line);
    LineDispatchesAlike(rest, s.(buffer := []), line);
    var stepped := LineStep(m, rest, line);
    if stepped.Ok? {
      EmptyBuffer(m, stepped.value.0);
      Unit(LineDispatches(rest, line));
    }
  }

  lemma EmptyBuffer<C, F>(m: Machine<C, F>, s: Frame<C>)
    requires s.buffer == []
    ensures DrainDispatches(m, s) == []
  {
  }

  function DispatchedBy<C, F>(m: Machine<C, F>, s: Frame<C>, line: seq<byte>, stepped: Outcome<C, F>): seq<Payload> {
    if stepped.Err? then [] else LineDispatches(s, line) + DrainDispatches(m, stepped.value.0)
  }

  lemma DispatchesAt<C, F>(m: Machine<C, F>, s: Frame<C>, k: nat)
    requires FindLf(s.buffer) == Some(k)
    ensures k < |s.buffer|
    ensures var rest := s.(buffer := s.buffer[k + 1..]);
            DrainDispatches(m, s) == DispatchedBy(m, rest, s.buffer[..k], LineStep(m, rest, s.buffer[..k]))
  {
    hide LineStep;
    hide FindLf;
    hide LineDispatches;
  }

  /** Feeding two inputs in turn dispatches what their concatenation does. */
  lemma {:induction false} FedSplits<C, F>(m: Machine<C, F>, s: Frame<C>, b: seq<byte>)
    requires Drain(m, s).Ok?
    ensures Fed(m, s, b) == DrainDispatches(m, s) + Fed(m, Drain(m, s).value.0, b)
    decreases |s.buffer|
  {
    hide LineStep;
    hide FindLf;
    hide DrainDispatches;
    hide Drain;
    hide LineDispatches;
    var whole := s.(bytes := s.bytes + |b|, buffer := s.buffer + b);
    match FindLf(s.buffer) {
      case None =>
        NoLine(m, s);
        Unit(Fed(m, s, b));
      case Some(k) =>
        var line, after := s.buffer[..k], s.buffer[k + 1..];
        FindLfGrows(s.buffer, b, k);
        LineIgnoresBuffer(m, s.(buffer := after), whole.bytes, after + b, line);
        DrainLine(m, s, k);
        DispatchesAt(m, s, k);
        DispatchesAt(m, whole, k);
        LineDispatchesAlike(s.(buffer := after), whole.(buffer := after + b), line);
        var next := LineStep(m, s.(buffer := after), line).value.0;
        FedSplits(m, next, b);
        Assoc(LineDispatches(s.(buffer := after), line), DrainDispatches(m, next), Fed(m, Drain(m, next).value.0, b));
    }
  }

  lemma NoLine<C, F>(m: Machine<C, F>, s: Frame<C>)
    requires FindLf(s.buffer).None?
    ensures Drain(m, s) == Ok((s, [])) && DrainDispatches(m, s) == []
  {
  }

  lemma LineDispatchesAlike<C>(s: Frame<C>, t: Frame<C>, line: seq<byte>)
    requires s.data == t.data && s.event == t.event
    ensures LineDispatches(s, line) == LineDispatches(t, line)
  {
  }

  lemma FedConcat<C, F>(m: Machine<C, F>, s: Frame<C>, a: seq<byte>, b: seq<byte>)
    requires Process(m, s, a).Ok?
    ensures Fed(m, s, a + b) == Fed(m, s, a) + Fed(m, Process(m, s, a).value.0, b)
  {
    hide Drain;
    hide DrainDispatches;
    Assoc(s.buffer, a, b);
    FedSplits(m, s.(bytes := s.bytes + |a|, buffer := s.buffer + a), b);
  }

  lemma {:induction false} LinesDispatchNothing<C, F>(m: Machine<C, F>, s: Frame<C>, lines: seq<Written>)
    requires s.buffer == [] && s.data == [] && s.event == []
    requires LinesOk(lines, m.utf8) && Within(lines)
    ensures Fed(m, s, LinesText(lines)) == []
  {
    hide Process;
    hide Fed;
    hide DataIn;
    hide NameIn;
    hide LineText;
    hide WrittenOk;
    if lines == [] {
      FedNothing(m, s);
    } else {
      var init, w := lines[..|lines| - 1], lines[|lines| - 1];
      LinesDispatchNothing(m, s, init);
      LinesProcessed(m, s, init);
      FedConcat(m, s, LinesText(init), LineText(w));
      WrittenDispatchesNothing(m, Open(s.(bytes := s.bytes + |LinesText(init)|), init), w);
    }
  }

  lemma FedNothing<C, F>(m: Machine<C, F>, s: Frame<C>)
    requires s.buffer == []
    ensures Fed(m, s, []) == []
  {
    Unit(s.buffer);
  }

  lemma WrittenDispatchesNothing<C, F>(m: Machine<C, F>, s: Frame<C>, w: Written)
    requires s.buffer == [] && WrittenOk(w, m.utf8)
    ensures Fed(m, s, LineText(w)) == []
  {
    hide Fed;
    hide LineStep;
    EndsClean(w, m.utf8);
    Stripped(Body(w.line), w.crlf);
    hide WrittenOk;
    hide Body;
    assert LineText(w) == Raw(w) + [10];
    Unit(Raw(w));
    FedLine(m, s, Raw(w));
  }

  lemma BlankDispatches<C, F>(m: Machine<C, F>, s: Frame<C>, lines: seq<Written>, crlf: bool)
    requires s.buffer == [] && DispatchStep(m, Open(s, lines)).Ok?
    ensures Fed(m, Open(s, lines), LineEnd(crlf)) == EventsIn(lines)
  {
    hide Fed;
    hide DataIn;
    hide NameIn;
    var raw: seq<byte> := if crlf then [13] else [];
    assert LineEnd(crlf) == raw + [10];
    Unit(raw);
    FedLine(m, Open(s, lines), raw);
    assert StripCr(raw) == [] by {
      assert crlf ==> raw[..0] == [];
    }
    assert Open(s, lines).(buffer := []) == Open(s, lines);
  }

  lemma BlockDispatches<C, F>(m: Machine<C, F>, s: Frame<C>, block: Block)
    requires s.buffer == [] && s.data == [] && s.event == []
    requires LinesOk(block.lines, m.utf8) && Within(block.lines)
    requires Run(m, s.core, EventsIn(block.lines)).Ok?
    ensures Fed(m, s, BlockText(block)) == EventsIn(block.lines)
  {
    hide Process;
    hide Fed;
    hide DataIn;
    hide NameIn;
    hide LinesOk;
    hide LinesText;
    hide LineEnd;
    hide Run;
    hide EventsIn;
    hide DispatchStep;
    var after := s.(bytes := s.bytes + |LinesText(block.lines)|);
    LinesDispatchNothing(m, s, block.lines);
    LinesProcessed(m, s, block.lines);
    FedConcat(m, s, LinesText(block.lines), LineEnd(block.crlf));
    DispatchRuns(m, after, block.lines);
    BlankDispatches(m, after, block.lines, block.crlf);
    Unit(EventsIn(block.lines));
  }

  lemma {:induction false} DocumentDispatches<C, F>(m: Machine<C, F>, s: Frame<C>, document: seq<Block>)
    requires s.buffer == [] && s.data == [] && s.event == [] && DocumentOk(document, m.utf8)
    requires Run(m, s.core, Events(document)).Ok?
    ensures Fed(m, s, DocumentText(document)) == Events(document)
    decreases |document|
  {
    hide Process;
    hide Fed;
    hide EventsIn;
    hide BlockText;
    hide LinesOk;
    hide LinesText;
    hide Run;
    if document == [] {
      FedNothing(m, s);
    } else {
      var first, rest := document[0], document[1..];
      assert forall k :: 0 <= k < |rest| ==> rest[k] == document[k + 1];
      RunSplits(m, s.core, EventsIn(first.lines), Events(rest));
      BlockProcessed(m, s, first);
      BlockDispatches(m, s, first);
      FedConcat(m, s, BlockText(first), DocumentText(rest));
      var (core, output) := Run(m, s.core, EventsIn(first.lines)).value;
      DocumentDispatches(m, Frame([], [], [], s.bytes + |BlockText(first)|, core), rest);
    }
  }

  /** The events that the framing of a document dispatches are exactly its events, in order. */
  lemma StreamOfDocument<C, F>(m: Machine<C, F>, core: C, document: seq<Block>, tail: seq<Written>)
    requires DocumentOk(document, m.utf8) && LinesOk(tail, m.utf8) && Within(tail)
    requires Run(m, core, Events(document)).Ok?
    ensures StreamPayloads(m, core, DocumentText(document) + LinesText(tail)) == Events(document) + EventsIn(tail)
  {
    hide Process;
    hide DrainDispatches;
    hide EventsIn;
    hide Events;
    hide DocumentText;
    hide LinesText;
    hide LinesOk;
    hide DocumentOk;
    hide Run;
    var text, more := DocumentText(document), LinesText(tail);
    var (last, output) := Run(m, core, Events(document)).value;
    DocumentDispatches(m, Start(core), document);
    DocumentProcessed(m, Start(core), document);
    FedConcat(m, Start(core), text, more);
    LinesDispatchNothing(m, Frame([], [], [], |text|, last), tail);
    TailProcessed(m, core, document, tail);
    Unit(text + more);
    Unit(Events(document));
    assert FinishPayloads(m, Open(Frame([], [], [], |text + more|, last), tail)) == EventsIn(tail) by {
      EndDispatches(m, Frame([], [], [], |text + more|, last), tail);
    }
  }

  lemma EndDispatches<C, F>(m: Machine<C, F>, s: Frame<C>, tail: seq<Written>)
    requires s.buffer == []
    ensures FinishPayloads(m, Open(s, tail)) == EventsIn(tail)
  {
  }

  // ---------------------------------------------------------------- one event, printed

  /** The parts of some data between its line feeds: at least one. */
  function SplitLines(data: seq<byte>): (parts: seq<seq<byte>>)
    ensures parts != []
  {
    if data == [] then [[]]
    else
      var parts, last := SplitLines(data[..|data| - 1]), data[|data| - 1];
      if last == 10 then parts + [[]] else parts[..|parts| - 1] + [parts[|parts| - 1] + [last]]
  }

  function DropLeading(data: seq<byte>): seq<byte> {
    if data != [] && data[0] == 10 then DropLeading(data[1..]) else data
  }

  lemma {:induction false} DropGrows(data: seq<byte>, c: byte)
    ensures DropLeading(data + [c]) == if DropLeading(data) == [] && c == 10 then [] else DropLeading(data) + [c]
  {
    if data == [] {
      assert data + [c] == [c] && [c][1..] == [];
    } else if data[0] == 10 {
      assert (data + [c])[1..] == data[1..] + [c];
      DropGrows(data[1..], c);
    }
  }

  /** Splitting and joining again loses the leading line feeds and nothing else. */
  lemma {:induction false} SplitJoins(data: seq<byte>)
    ensures JoinLines(WithoutLeading(SplitLines(data))) == DropLeading(data)
  {
    if data == [] {
      var empty: seq<seq<byte>> := [[]];
      assert empty[1..] == [] && WithoutLeading(empty) == [];
    } else {
      var init, c := data[..|data| - 1], data[|data| - 1];
      assert data == init + [c];
      var parts := SplitLines(init);
      SplitJoins(init);
      DropGrows(init, c);
      if c == 10 {
        LeadingGrows(parts, []);
        NewPart(WithoutLeading(parts));
        LeadingIsNonempty(parts);
        JoinedNonempty(WithoutLeading(parts));
      } else {
        var before, part := parts[..|parts| - 1], parts[|parts| - 1];
        assert parts == before + [part];
        LeadingGrows(before, part);
        LeadingGrows(before, part + [c]);
        LongerPart(WithoutLeading(before), part, c);
      }
      hide WithoutLeading;
      hide JoinLines;
      hide DropLeading;
    }
  }

  lemma NewPart(parts: seq<seq<byte>>)
    ensures parts != [] ==> JoinLines(parts + [[]]) == JoinLines(parts) + [10]
  {
    assert (parts + [[]])[..|parts|] == parts;
    Unit(JoinLines(parts) + [10]);
  }

  lemma LongerPart(before: seq<seq<byte>>, part: seq<byte>, c: byte)
    ensures JoinLines(before + [part + [c]]) ==
            (if before == [] && part == [] then [] else JoinLines(before + [part])) + [c]
  {
    assert (before + [part + [c]])[..|before|] == before && (before + [part])[..|before|] == before;
    Unit([c]);
    if before != [] {
      Assoc(JoinLines(before) + [10], part, [c]);
    }
  }

  function DataLines(parts: seq<seq<byte>>, crlf: bool): seq<Written> {
    seq(|parts|, k requires 0 <= k < |parts| => Written(DataLine(parts[k], true), crlf))
  }

  /** An event as a provider writes it: its name, if any, and one line for each part of its data. */
  function PrintedLines(event: Payload, crlf: bool): seq<Written> {
    var parts := SplitLines(event.data);
    (if event.event == [] then [] else [Written(EventLine(event.event, true), crlf)]) + DataLines(parts, crlf)
  }

  function Printed(event: Payload, crlf: bool): Block {
    Block(PrintedLines(event, crlf), crlf)
  }

  lemma {:induction false} DataLinesMean(before: seq<Written>, parts: seq<seq<byte>>, crlf: bool)
    ensures Parts(before + DataLines(parts, crlf)) == Parts(before) + parts
    ensures NameIn(before + DataLines(parts, crlf)) == NameIn(before)
  {
    if parts == [] {
      Unit(before);
      Unit(Parts(before));
    } else {
      var n := |parts| - 1;
      var w := Written(DataLine(parts[n], true), crlf);
      DataLinesMean(before, parts[..n], crlf);
      assert DataLines(parts, crlf) == DataLines(parts[..n], crlf) + [w];
      Assoc(before, DataLines(parts[..n], crlf), [w]);
      LineAdds(before + DataLines(parts[..n], crlf), w);
      assert parts == parts[..n] + [parts[n]];
      Assoc(Parts(before), parts[..n], [parts[n]]);
    }
  }

  lemma LineAdds(lines: seq<Written>, w: Written)
    ensures Parts(lines + [w]) == Parts(lines) + if w.line.DataLine? then [w.line.part] else []
    ensures NameIn(lines + [w]) == if w.line.EventLine? then w.line.name else NameIn(lines)
  {
    assert (lines + [w])[..|lines|] == lines;
  }

  /** A printed event means itself exactly when its data does not start with a line feed. */
  lemma PrintedMeansItself(event: Payload, crlf: bool)
    ensures EventsIn(PrintedLines(event, crlf)) ==
            if DropLeading(event.data) == [] then [] else [Payload(event.event, DropLeading(event.data))]
    ensures event.data != [] ==> (EventsIn(PrintedLines(event, crlf)) == [event] <==> event.data[0] != 10)
  {
    var name := if event.event == [] then [] else [Written(EventLine(event.event, true), crlf)];
    DataLinesMean(name, SplitLines(event.data), crlf);
    assert name != [] ==> name[..0] == [];
    assert Parts(name) == [] && NameIn(name) == event.event;
    Unit(SplitLines(event.data));
    SplitJoins(event.data);
    DropShorter(event.data);
  }

  lemma {:induction false} DropShorter(data: seq<byte>)
    ensures |DropLeading(data)| <= |data|
    ensures data != [] ==> (|DropLeading(data)| == |data| <==> data[0] != 10)
    ensures DropLeading(data) == [] || DropLeading(data)[0] != 10
  {
    if data != [] && data[0] == 10 {
      DropShorter(data[1..]);
    }
  }

  predicate PrintableEvent(event: Payload, utf8: seq<byte> -> bool) {
    && 13 !in event.data && 13 !in event.event && 10 !in event.event && utf8(event.event)
    && event.data != [] && event.data[0] != 10 && |event.data| + |event.event| <= MAX_MESSAGE_BYTES
  }

  lemma InitJoinsShorter(parts: seq<seq<byte>>)
    requires parts != []
    ensures |JoinLines(WithoutLeading(parts[..|parts| - 1]))| <= |JoinLines(WithoutLeading(parts))|
  {
    var init, last := parts[..|parts| - 1], parts[|parts| - 1];
    assert parts == init + [last];
    LeadingGrows(init, last);
    var before := WithoutLeading(init);
    hide WithoutLeading;
    assert (before + [last])[..|before|] == before;
  }

  lemma WithinAdds(lines: seq<Written>, w: Written)
    requires Within(lines) && |DataIn(lines + [w])| + |NameIn(lines + [w])| <= MAX_MESSAGE_BYTES
    ensures Within(lines + [w])
  {
    hide DataIn;
    hide NameIn;
    assert (lines + [w])[..|lines|] == lines;
  }

  /** Data lines are within the budget as soon as what all of them mean is. */
  lemma {:induction false} DataLinesWithin(before: seq<Written>, parts: seq<seq<byte>>, crlf: bool)
    requires Within(before) && Parts(before) == []
    requires |JoinLines(WithoutLeading(parts))| + |NameIn(before)| <= MAX_MESSAGE_BYTES
    ensures Within(before + DataLines(parts, crlf))
  {
    hide WithoutLeading;
    hide JoinLines;
    hide NameIn;
    hide Within;
    hide Parts;
    if parts == [] {
      Unit(before);
    } else {
      var n := |parts| - 1;
      InitJoinsShorter(parts);
      DataLinesWithin(before, parts[..n], crlf);
      var w := Written(DataLine(parts[n], true), crlf);
      assert DataLines(parts, crlf) == DataLines(parts[..n], crlf) + [w];
      Assoc(before, DataLines(parts[..n], crlf), [w]);
      DataLinesMean(before, parts, crlf);
      Unit(parts);
      hide DataLines;
      WithinAdds(before + DataLines(parts[..n], crlf), w);
    }
  }

  lemma {:induction false} PartsClean(data: seq<byte>, k: nat)
    requires 13 !in data && k < |SplitLines(data)|
    ensures 10 !in SplitLines(data)[k] && 13 !in SplitLines(data)[k]
  {
    if data != [] {
      var init, c := data[..|data| - 1], data[|data| - 1];
      assert 13 !in init && c != 13;
      var parts := SplitLines(init);
      if c == 10 {
        if k < |parts| {
          PartsClean(init, k);
        }
      } else {
        PartsClean(init, k);
      }
    }
  }

  lemma PrintedOk(event: Payload, crlf: bool, utf8: seq<byte> -> bool)
    requires PrintableEvent(event, utf8)
    ensures LinesOk(PrintedLines(event, crlf), utf8)
  {
    var lines, parts := PrintedLines(event, crlf), SplitLines(event.data);
    forall k | 0 <= k < |parts| ensures ValueOk(parts[k], true, crlf) {
      PartsClean(event.data, k);
    }
    assert ValueOk(event.event, true, crlf);
    hide SplitLines;
    hide ValueOk;
  }

  function PrintedAll(events: seq<Payload>, crlf: bool): seq<Block> {
    seq(|events|, k requires 0 <= k < |events| => Printed(events[k], crlf))
  }

  lemma {:induction false} PrintedEvents(events: seq<Payload>, crlf: bool, utf8: seq<byte> -> bool)
    requires forall k :: 0 <= k < |events| ==> PrintableEvent(events[k], utf8)
    ensures DocumentOk(PrintedAll(events, crlf), utf8) && Events(PrintedAll(events, crlf)) == events
  {
    hide PrintedLines;
    hide PrintableEvent;
    hide LinesOk;
    hide LinesText;
    hide EventsIn;
    if events != [] {
      PrintedEvents(events[1..], crlf, utf8);
      var first, rest := Printed(events[0], crlf), PrintedAll(events[1..], crlf);
      assert PrintedAll(events, crlf) == [first] + rest;
      PrintedOk(events[0], crlf, utf8);
      Printable(events[0], crlf, utf8);
      hide PrintedAll;
      DocumentGrows(first, rest, utf8);
    }
  }

  lemma DocumentGrows(first: Block, rest: seq<Block>, utf8: seq<byte> -> bool)
    requires LinesOk(first.lines, utf8) && Within(first.lines) && DocumentOk(rest, utf8)
    ensures DocumentOk([first] + rest, utf8) && Events([first] + rest) == EventsIn(first.lines) + Events(rest)
  {
    assert ([first] + rest)[1..] == rest;
  }

  lemma Printable(event: Payload, crlf: bool, utf8: seq<byte> -> bool)
    requires PrintableEvent(event, utf8)
    ensures EventsIn(PrintedLines(event, crlf)) == [event] && Within(PrintedLines(event, crlf))
  {
    PrintedMeansItself(event, crlf);
    hide PrintedLines;
    hide EventsIn;
    PrintedWithin(event, crlf);
  }

  lemma PrintedWithin(event: Payload, crlf: bool)
    requires |event.data| + |event.event| <= MAX_MESSAGE_BYTES
    ensures Within(PrintedLines(event, crlf))
  {
    var name := if event.event == [] then [] else [Written(EventLine(event.event, true), crlf)];
    if name != [] {
      LineAdds([], name[0]);
      Unit(name);
      assert Within([]) && Within(name);
    }
    assert Parts(name) == [];
    assert NameIn(name) == event.event;
    assert Within(name);
    hide Within;
    hide Parts;
    hide NameIn;
    SplitJoins(event.data);
    DropShorter(event.data);
    hide JoinLines;
    hide WithoutLeading;
    hide DropLeading;
    DataLinesWithin(name, SplitLines(event.data), crlf);
  }

  lemma NoLinesMean()
    ensures LinesText([]) == [] && EventsIn([]) == []
  {
  }

  /**
   Round trip: events printed one after the other are dispatched as exactly these events, whatever the machine and
   the line ends, and any chunking of them is decoded as running the machine on them.
   */
  lemma PrintedRoundTrip<C, F>(m: Machine<C, F>, core: C, events: seq<Payload>, crlf: bool, chunks: seq<seq<byte>>)
    requires forall k :: 0 <= k < |events| ==> PrintableEvent(events[k], m.utf8)
    requires Joined(chunks) == DocumentText(PrintedAll(events, crlf)) && NotRefused(m, core, chunks)
    ensures Decode(m, core, chunks) == Ended(m, Run(m, core, events))
    ensures Run(m, core, events).Ok? ==> StreamPayloads(m, core, Joined(chunks)) == events
  {
    hide Decode;
    hide Run;
    hide StreamPayloads;
    hide DocumentOk;
    hide PrintableEvent;
    var document := PrintedAll(events, crlf);
    PrintedEvents(events, crlf, m.utf8);
    Unit(DocumentText(document));
    Unit(events);
    NoLinesMean();
    DocumentDecoded(m, core, document, [], chunks);
    if Run(m, core, events).Ok? {
      StreamOfDocument(m, core, document, []);
    }
  }
}
