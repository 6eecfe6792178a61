/**
 Event-stream framing (section 9.2.6 of the WHATWG HTML Standard, as the decoder implements it: only
 LF or CRLF ends a line, and an event still open at the end of the stream is dispatched), over any
 machine that consumes the dispatched events.
 */
module Sse {
  import opened Wrappers
  import opened History
  import opened Sequences

  newtype byte = x: int | 0 <= x < 256

  const LF: byte := 10
  const CR: byte := 13
  const SPACE: byte := 32
  const COLON: byte := 58
  const DATA_FIELD: seq<byte> := [100, 97, 116, 97, 58]
  const EVENT_FIELD: seq<byte> := [101, 118, 101, 110, 116, 58]

  /** One dispatched event: its name, possibly empty, and its nonempty data. */
  datatype Payload = Payload(event: seq<byte>, data: seq<byte>)

  /** What consumes the events; `utf8` says which byte strings are valid UTF-8. */
  datatype Machine<!C, !F> = Machine(
    step: (C, Payload) -> Result<(C, seq<F>), ErrorKind>,
    terminal: C -> bool,
    utf8: seq<byte> -> bool)

  datatype Frame<C> = Frame(buffer: seq<byte>, data: seq<byte>, event: seq<byte>, bytes: nat, core: C)

  type Outcome<C, F> = Result<(Frame<C>, seq<F>), ErrorKind>

  /** Emit `output` before everything that `r` emits. */
  function Prepend<C, F>(output: seq<F>, r: Outcome<C, F>): Outcome<C, F> {
    match r
    case Err(e) => Err(e)
    case Ok((s, more)) => Ok((s, output + more))
  }

  function Start<C>(core: C): Frame<C> {
    Frame([], [], [], 0, core)
  }

  function StripCr(line: seq<byte>): seq<byte> {
    if line != [] && line[|line| - 1] == CR then line[..|line| - 1] else line
  }

  function StripSpace(value: seq<byte>): seq<byte> {
    if value != [] && value[0] == SPACE then value[1..] else value
  }

  function AppendData(data: seq<byte>, value: seq<byte>): seq<byte> {
    (if data != [] then data + [LF] else data) + StripSpace(value)
  }

  function DispatchStep<C, F>(m: Machine<C, F>, s: Frame<C>): (r: Outcome<C, F>)
    ensures r.Ok? ==> r.value.0.buffer == s.buffer && r.value.0.bytes == s.bytes && r.value.0.data == []
  {
    var cleared := s.(data := [], event := []);
    if s.data == [] then Ok((cleared, []))
    else
      var (core, output) :- m.step(s.core, Payload(s.event, s.data));
      Ok((cleared.(core := core), output))
  }

  /** The state after a field line, before its size is checked. */
  function FieldStep<C, F>(m: Machine<C, F>, s: Frame<C>, line: seq<byte>): Result<Frame<C>, ErrorKind> {
    if DATA_FIELD <= line then Ok(s.(data := AppendData(s.data, line[|DATA_FIELD|..])))
    else if EVENT_FIELD <= line then
      var name := StripSpace(line[|EVENT_FIELD|..]);
      if m.utf8(name) then Ok(s.(event := name)) else Err(ResponseInvalid)
    else Ok(s)
  }

  function LineStep<C, F>(m: Machine<C, F>, s: Frame<C>, raw: seq<byte>): (r: Outcome<C, F>)
    ensures r.Ok? ==> r.value.0.buffer == s.buffer && r.value.0.bytes == s.bytes
    ensures r.Ok? ==> |r.value.0.data| <= |s.data| + |raw|
  {
    var line := StripCr(raw);
    if line == [] then DispatchStep(m, s)
    else if line[0] == COLON then Ok((s, []))
    else
      var next :- FieldStep(m, s, line);
      if |next.data| + |next.event| > MAX_MESSAGE_BYTES then Err(ResponseTooLarge) else Ok((next, []))
  }

  /** The position of the first line feed. */
  function FindLf(buffer: seq<byte>): (position: Option<nat>)
    ensures position.Some? ==>
              position.value < |buffer| && buffer[position.value] == LF && LF !in buffer[..position.value]
    ensures position.None? ==> LF !in buffer
  {
    if buffer == [] then None
    else if buffer[0] == LF then Some(0)
    else
      match FindLf(buffer[1..])
      case None => None
      case Some(k) => assert buffer[..k + 1] == [buffer[0]] + buffer[1..][..k]; Some(k + 1)
  }

  /** Consume every complete line of the buffer. */
  function Drain<C, F>(m: Machine<C, F>, s: Frame<C>): (r: Outcome<C, F>)
    ensures r.Ok? ==> LF !in r.value.0.buffer && r.value.0.bytes == s.bytes
    decreases |s.buffer|
  {
    match FindLf(s.buffer)
    case None => Ok((s, []))
    case Some(k) =>
      var (next, output) :- LineStep(m, s.(buffer := s.buffer[k + 1..]), s.buffer[..k]);
      Prepend(output, Drain(m, next))
  }

  predicate Fits<C>(s: Frame<C>) {
    s.bytes <= MAX_REQUEST_BYTES && |s.buffer| + |s.data| <= MAX_MESSAGE_BYTES
  }

  function PushStep<C, F>(m: Machine<C, F>, s: Frame<C>, chunk: seq<byte>): Outcome<C, F> {
    var bytes := SaturatingAdd(s.bytes, |chunk|);
    if bytes > MAX_REQUEST_BYTES then Err(ResponseTooLarge)
    else
      var (next, output) :- Drain(m, s.(bytes := bytes, buffer := s.buffer + chunk));
      if |next.buffer| + |next.data| > MAX_MESSAGE_BYTES then Err(ResponseTooLarge) else Ok((next, output))
  }

  function FinishStep<C, F>(m: Machine<C, F>, s: Frame<C>): Result<seq<F>, ErrorKind> {
    var (next, output) :- if s.buffer == [] then Ok((s, [])) else LineStep(m, s.(buffer := []), s.buffer);
    var (last, more) :- DispatchStep(m, next);
    if m.terminal(last.core) then Ok(output + more) else Err(ResponseIncomplete)
  }

  /** A run of pushes. */
  function Feed<C, F>(m: Machine<C, F>, s: Frame<C>, chunks: seq<seq<byte>>): Outcome<C, F>
    decreases |chunks|
  {
    if chunks == [] then Ok((s, []))
    else
      var (next, output) :- PushStep(m, s, chunks[0]);
      Prepend(output, Feed(m, next, chunks[1..]))
  }

  /** A run of pushes and the final `finish`. */
  function Decode<C, F>(m: Machine<C, F>, core: C, chunks: seq<seq<byte>>): Result<seq<F>, ErrorKind> {
    var (s, output) :- Feed(m, Start(core), chunks);
    var more :- FinishStep(m, s);
    Ok(output + more)
  }

  function Joined(chunks: seq<seq<byte>>): seq<byte> {
    if chunks == [] then [] else chunks[0] + Joined(chunks[1..])
  }

  // ---------------------------------------------------------------- independence of chunking

  /** The same bytes without any check at chunk boundaries. */
  function Process<C, F>(m: Machine<C, F>, s: Frame<C>, input: seq<byte>): Outcome<C, F> {
    Drain(m, s.(bytes := s.bytes + |input|, buffer := s.buffer + input))
  }

  function Then<C, F>(m: Machine<C, F>, first: Outcome<C, F>, input: seq<byte>): Outcome<C, F> {
    var (s, output) :- first;
    Prepend(output, Process(m, s, input))
  }

  lemma {:induction false} FirstLf(buffer: seq<byte>, k: nat)
    requires k < |buffer| && buffer[k] == LF && LF !in buffer[..k]
    ensures FindLf(buffer) == Some(k)
  {
    if k > 0 {
      assert buffer[0] == buffer[..k][0];
      assert buffer[1..][..k - 1] == buffer[..k][1..];
      FirstLf(buffer[1..], k - 1);
    }
  }

  lemma PrependTwice<C, F>(a: seq<F>, b: seq<F>, r: Outcome<C, F>)
    ensures Prepend(a, Prepend(b, r)) == Prepend(a + b, r)
  {
    if r.Ok? {
      Assoc(a, b, r.value.1);
    }
  }

  lemma PrependNothing<C, F>(r: Outcome<C, F>)
    ensures Prepend([], r) == r
  {
    if r.Ok? {
      Unit(r.value.1);
    }
  }

  lemma ThenPrepended<C, F>(m: Machine<C, F>, output: seq<F>, r: Outcome<C, F>, input: seq<byte>)
    ensures Then(m, Prepend(output, r), input) == Prepend(output, Then(m, r, input))
  {
    if r.Ok? {
      PrependTwice(output, r.value.1, Process(m, r.value.0, input));
    }
  }

  lemma LineIgnoresBuffer<C, F>(m: Machine<C, F>, s: Frame<C>, bytes: nat, buffer: seq<byte>, line: seq<byte>)
    ensures LineStep(m, s.(bytes := bytes, buffer := buffer), line) ==
            match LineStep(m, s, line)
            case Err(e) => Err(e)
            case Ok((next, output)) => Ok((next.(bytes := bytes, buffer := buffer), output))
  {
  }

  lemma FindLfGrows(buffer: seq<byte>, input: seq<byte>, k: nat)
    requires FindLf(buffer) == Some(k)
    ensures k < |buffer| && FindLf(buffer + input) == Some(k)
    ensures (buffer + input)[..k] == buffer[..k] && (buffer + input)[k + 1..] == buffer[k + 1..] + input
  {
    assert (buffer + input)[..k] == buffer[..k];
    FirstLf(buffer + input, k);
  }

  function DrainAfter<C, F>(m: Machine<C, F>, line: Outcome<C, F>): Outcome<C, F> {
    if line.Err? then line else Prepend(line.value.1, Drain(m, line.value.0))
  }

  lemma DrainLine<C, F>(m: Machine<C, F>, s: Frame<C>, k: nat)
    requires FindLf(s.buffer) == Some(k)
    ensures k < |s.buffer|
    ensures Drain(m, s) == DrainAfter(m, LineStep(m, s.(buffer := s.buffer[k + 1..]), s.buffer[..k]))
  {
    hide LineStep;
    hide FindLf;
  }

  /** Draining more input continues from the drained state. */
  lemma {:induction false} DrainSplits<C, F>(m: Machine<C, F>, s: Frame<C>, input: seq<byte>)
    ensures Process(m, s, input) == Then(m, Drain(m, s), input)
    decreases |s.buffer|, 1
  {
    hide LineStep;
    hide FindLf;
    match FindLf(s.buffer) {
      case None =>
        PrependNothing(Process(m, s, input));
      case Some(k) =>
        DrainSplitsAt(m, s, input, k);
    }
  }

  lemma DrainSplitsAt<C, F>(m: Machine<C, F>, s: Frame<C>, input: seq<byte>, k: nat)
    requires FindLf(s.buffer) == Some(k)
    ensures Process(m, s, input) == Then(m, Drain(m, s), input)
    decreases |s.buffer|, 0
  {
    hide LineStep;
    hide FindLf;
    hide Drain;
    var whole := s.(bytes := s.bytes + |input|, buffer := s.buffer + input);
    var line, after := s.buffer[..k], s.buffer[k + 1..];
    FindLfGrows(s.buffer, input, k);
    LineIgnoresBuffer(m, s.(buffer := after), whole.bytes, after + input, line);
    DrainLine(m, s, k);
    DrainLine(m, whole, k);
    var stepped := LineStep(m, s.(buffer := after), line);
    if stepped.Ok? {
      DrainSplits(m, stepped.value.0, input);
      ThenPrepended(m, stepped.value.1, Drain(m, stepped.value.0), input);
    }
  }

  /** Processing two inputs in turn is processing their concatenation. */
  lemma ProcessSplits<C, F>(m: Machine<C, F>, s: Frame<C>, a: seq<byte>, b: seq<byte>)
    ensures Process(m, s, a + b) == Then(m, Process(m, s, a), b)
  {
    hide Drain;
    hide Then;
    Assoc(s.buffer, a, b);
    var after := s.(bytes := s.bytes + |a|, buffer := s.buffer + a);
    DrainSplits(m, after, b);
  }

  /** The checks made at a chunk boundary after `input`. */
  ghost predicate BoundaryOk<C, F>(m: Machine<C, F>, s: Frame<C>, input: seq<byte>) {
    var r := Process(m, s, input);
    r.Ok? && Fits(r.value.0)
  }

  lemma PushIsProcess<C, F>(m: Machine<C, F>, s: Frame<C>, chunk: seq<byte>)
    ensures PushStep(m, s, chunk).Ok? <==> BoundaryOk(m, s, chunk)
    ensures PushStep(m, s, chunk).Ok? ==> PushStep(m, s, chunk) == Process(m, s, chunk)
  {
  }

  lemma BoundaryShifts<C, F>(m: Machine<C, F>, s: Frame<C>, chunk: seq<byte>, input: seq<byte>)
    requires Process(m, s, chunk).Ok?
    ensures BoundaryOk(m, s, chunk + input) <==> BoundaryOk(m, Process(m, s, chunk).value.0, input)
  {
    ProcessSplits(m, s, chunk, input);
  }

  ghost predicate AllBoundariesOk<C, F>(m: Machine<C, F>, s: Frame<C>, chunks: seq<seq<byte>>) {
    forall i :: 0 <= i <= |chunks| ==> BoundaryOk(m, s, Joined(chunks[..i]))
  }

  lemma BoundariesShift<C, F>(m: Machine<C, F>, s: Frame<C>, chunks: seq<seq<byte>>)
    requires chunks != [] && BoundaryOk(m, s, []) && BoundaryOk(m, s, chunks[0])
    ensures AllBoundariesOk(m, s, chunks) <==>
            AllBoundariesOk(m, Process(m, s, chunks[0]).value.0, chunks[1..])
  {
    var next := Process(m, s, chunks[0]).value.0;
    forall i | 0 <= i < |chunks|
      ensures BoundaryOk(m, s, Joined(chunks[..i + 1])) <==> BoundaryOk(m, next, Joined(chunks[1..][..i]))
    {
      assert chunks[..i + 1][1..] == chunks[1..][..i];
      BoundaryShifts(m, s, chunks[0], Joined(chunks[1..][..i]));
    }
    assert chunks[..0] == [];
    if AllBoundariesOk(m, s, chunks) {
      forall i | 0 <= i <= |chunks[1..]| ensures BoundaryOk(m, next, Joined(chunks[1..][..i])) {
        assert BoundaryOk(m, s, Joined(chunks[..i + 1]));
      }
    }
    if AllBoundariesOk(m, next, chunks[1..]) {
      forall i | 0 <= i <= |chunks| ensures BoundaryOk(m, s, Joined(chunks[..i])) {
        if i > 0 {
          assert BoundaryOk(m, next, Joined(chunks[1..][..i - 1]));
        }
      }
    }
  }

  /**
   Exactly when a run of pushes succeeds: the bytes decode without error, and at every chunk boundary
   the unfinished event and the total fit.  Then the outcome depends on the bytes alone.
   */
  lemma {:induction false} FeedIsProcess<C, F>(m: Machine<C, F>, s: Frame<C>, chunks: seq<seq<byte>>)
    requires LF !in s.buffer && Fits(s)
    ensures Feed(m, s, chunks).Ok? <==> AllBoundariesOk(m, s, chunks)
    ensures Feed(m, s, chunks).Ok? ==> Feed(m, s, chunks) == Process(m, s, Joined(chunks))
    decreases |chunks|
  {
    Unit(s.buffer);
    assert Process(m, s, []) == Ok((s, []));
    if chunks == [] {
      assert chunks[..0] == [];
    } else {
      PushIsProcess(m, s, chunks[0]);
      assert chunks[..1] == [chunks[0]] && chunks[..1][1..] == [];
      Unit(chunks[0]);
      assert Joined(chunks[..1]) == chunks[0];
      if BoundaryOk(m, s, chunks[0]) {
        var next := Process(m, s, chunks[0]).value.0;
        BoundariesShift(m, s, chunks);
        FeedIsProcess(m, next, chunks[1..]);
        ProcessSplits(m, s, chunks[0], Joined(chunks[1..]));
      }
    }
  }

  /** Any two splittings of the same bytes that both succeed agree on the state and on the output. */
  lemma ChunkingIndependent<C, F>(m: Machine<C, F>, core: C, a: seq<seq<byte>>, b: seq<seq<byte>>)
    requires Joined(a) == Joined(b)
    requires Feed(m, Start(core), a).Ok? && Feed(m, Start(core), b).Ok?
    ensures Feed(m, Start(core), a) == Feed(m, Start(core), b)
    ensures Decode(m, core, a) == Decode(m, core, b)
  {
    FeedIsProcess(m, Start(core), a);
    FeedIsProcess(m, Start(core), b);
  }

  lemma {:induction false} JoinedSplits(chunks: seq<seq<byte>>, i: nat)
    requires i <= |chunks|
    ensures Joined(chunks) == Joined(chunks[..i]) + Joined(chunks[i..])
  {
    if i == 0 {
      assert chunks[..i] == [] && chunks[i..] == chunks;
      assert [] + Joined(chunks) == Joined(chunks);
    } else {
      var rest := chunks[1..];
      JoinedSplits(rest, i - 1);
      assert chunks[..i][1..] == rest[..i - 1] && rest[i - 1..] == chunks[i..];
      assert Joined(chunks[..i]) == chunks[0] + Joined(rest[..i - 1]);
      assert chunks[0] + (Joined(rest[..i - 1]) + Joined(chunks[i..])) ==
             (chunks[0] + Joined(rest[..i - 1])) + Joined(chunks[i..]);
    }
  }

  lemma JoinedOne(chunk: seq<byte>)
    ensures Joined([chunk]) == chunk
  {
    assert [chunk][1..] == [];
    Unit(chunk);
  }

  lemma SplitInTwo(input: seq<byte>, n: nat)
    requires n <= |input|
    ensures Joined([input[..n], input[n..]]) == input
    ensures Joined([input[..n], input[n..]][..1]) == input[..n]
  {
    var chunks := [input[..n], input[n..]];
    JoinedSplits(chunks, 1);
    assert chunks[..1] == [input[..n]] && chunks[1..] == [input[n..]];
    JoinedOne(input[..n]);
    JoinedOne(input[n..]);
  }

  lemma BoundariesSuffice<C, F>(m: Machine<C, F>, s: Frame<C>, chunks: seq<seq<byte>>)
    requires LF !in s.buffer && Fits(s)
    requires forall n :: 0 <= n <= |Joined(chunks)| ==> BoundaryOk(m, s, Joined(chunks)[..n])
    ensures Feed(m, s, chunks).Ok?
  {
    hide BoundaryOk;
    hide Feed;
    forall i | 0 <= i <= |chunks| ensures BoundaryOk(m, s, Joined(chunks[..i])) {
      JoinedSplits(chunks, i);
      assert Joined(chunks[..i]) == Joined(chunks)[..|Joined(chunks[..i])|];
    }
    FeedIsProcess(m, s, chunks);
  }

  lemma BoundaryNeeded<C, F>(m: Machine<C, F>, s: Frame<C>, input: seq<byte>, n: nat)
    requires LF !in s.buffer && Fits(s) && n <= |input|
    requires Feed(m, s, [input[..n], input[n..]]).Ok?
    ensures BoundaryOk(m, s, input[..n])
  {
    hide BoundaryOk;
    hide Feed;
    var chunks := [input[..n], input[n..]];
    SplitInTwo(input, n);
    FeedIsProcess(m, s, chunks);
    assert BoundaryOk(m, s, Joined(chunks[..1]));
  }

  /** For which bytes chunking can never matter: exactly those of which every prefix could end a chunk. */
  lemma EverySplittingSucceeds<C, F>(m: Machine<C, F>, s: Frame<C>, input: seq<byte>)
    requires LF !in s.buffer && Fits(s)
    ensures (forall chunks :: Joined(chunks) == input ==> Feed(m, s, chunks).Ok?) <==>
            (forall n :: 0 <= n <= |input| ==> BoundaryOk(m, s, input[..n]))
  {
    hide BoundaryOk;
    hide Feed;
    if forall n :: 0 <= n <= |input| ==> BoundaryOk(m, s, input[..n]) {
      forall chunks | Joined(chunks) == input ensures Feed(m, s, chunks).Ok? {
        BoundariesSuffice(m, s, chunks);
      }
    } else {
      var n :| 0 <= n <= |input| && !BoundaryOk(m, s, input[..n]);
      SplitInTwo(input, n);
      if Feed(m, s, [input[..n], input[n..]]).Ok? {
        BoundaryNeeded(m, s, input, n);
      }
    }
  }

  // Within the event budget the boundary checks never fail.

  lemma {:induction false} DrainKeepsSize<C, F>(m: Machine<C, F>, s: Frame<C>)
    requires |s.buffer| + |s.data| <= s.bytes && Drain(m, s).Ok?
    ensures |Drain(m, s).value.0.buffer| + |Drain(m, s).value.0.data| <= s.bytes
    decreases |s.buffer|
  {
    match FindLf(s.buffer) {
      case None =>
      case Some(k) =>
        var next := LineStep(m, s.(buffer := s.buffer[k + 1..]), s.buffer[..k]).value.0;
        hide LineStep;
        DrainKeepsSize(m, next);
    }
  }

  lemma PushWithinBudget<C, F>(m: Machine<C, F>, s: Frame<C>, chunk: seq<byte>)
    requires |s.buffer| + |s.data| <= s.bytes && s.bytes + |chunk| <= MAX_MESSAGE_BYTES
    ensures PushStep(m, s, chunk) == Process(m, s, chunk)
    ensures Process(m, s, chunk).Ok? ==>
              var next := Process(m, s, chunk).value.0;
              LF !in next.buffer && next.bytes == s.bytes + |chunk| && |next.buffer| + |next.data| <= next.bytes
  {
    hide Drain;
    var grown := s.(bytes := s.bytes + |chunk|, buffer := s.buffer + chunk);
    if Drain(m, grown).Ok? {
      DrainKeepsSize(m, grown);
    }
  }

  lemma {:induction false} FeedWithinBudget<C, F>(m: Machine<C, F>, s: Frame<C>, chunks: seq<seq<byte>>)
    requires LF !in s.buffer && |s.buffer| + |s.data| <= s.bytes
    requires s.bytes + |Joined(chunks)| <= MAX_MESSAGE_BYTES
    ensures Feed(m, s, chunks) == Process(m, s, Joined(chunks))
    decreases |chunks|
  {
    if chunks == [] {
      Unit(s.buffer);
    } else {
      PushWithinBudget(m, s, chunks[0]);
      ProcessSplits(m, s, chunks[0], Joined(chunks[1..]));
      hide PushStep;
      hide Process;
      if PushStep(m, s, chunks[0]).Ok? {
        FeedWithinBudget(m, PushStep(m, s, chunks[0]).value.0, chunks[1..]);
      }
    }
  }

  /** Within `MAX_MESSAGE_BYTES` chunking changes nothing at all, errors included. */
  lemma ChunkingIndependentWithinBudget<C, F>(m: Machine<C, F>, core: C, a: seq<seq<byte>>, b: seq<seq<byte>>)
    requires Joined(a) == Joined(b) && |Joined(a)| <= MAX_MESSAGE_BYTES
    ensures Feed(m, Start(core), a) == Feed(m, Start(core), b)
    ensures Decode(m, core, a) == Decode(m, core, b)
  {
    FeedWithinBudget(m, Start(core), a);
    FeedWithinBudget(m, Start(core), b);
  }

  lemma CommentIgnored<C, F>(m: Machine<C, F>, s: Frame<C>, comment: seq<byte>)
    requires 1 < |comment| && comment[0] == COLON
    ensures LineStep(m, s, comment) == Ok((s, []))
  {
  }

  lemma CommentDrained<C, F>(m: Machine<C, F>, s: Frame<C>, comment: seq<byte>)
    requires 1 < |comment| && comment[0] == COLON && LF !in comment && s.buffer == comment + [LF]
    ensures Drain(m, s) == Ok((s.(buffer := []), []))
  {
    var after := s.(buffer := []);
    assert s.buffer[..|comment|] == comment && s.buffer[|comment| + 1..] == [];
    FirstLf(s.buffer, |comment|);
    CommentIgnored(m, after, comment);
    assert Drain(m, after) == Ok((after, []));
    hide LineStep;
    PrependNothing(Drain(m, after));
  }

  lemma CommentLine<C, F>(m: Machine<C, F>, core: C, comment: seq<byte>)
    requires 1 < |comment| < MAX_REQUEST_BYTES && comment[0] == COLON && LF !in comment
    ensures PushStep(m, Start(core), comment + [LF]).Ok?
  {
    var line := comment + [LF];
    assert Start(core).buffer + line == line;
    CommentDrained(m, Start(core).(bytes := |line|, buffer := line), comment);
  }

  lemma OverlongTail<C, F>(m: Machine<C, F>, core: C, tail: seq<byte>)
    requires MAX_MESSAGE_BYTES < |tail| && LF !in tail
    ensures PushStep(m, Start(core), tail) == Err(ResponseTooLarge)
  {
    assert Start(core).buffer + tail == tail;
    assert FindLf(tail).None?;
  }

  /** Beyond it, chunking matters: a long comment is accepted whole but not without its line end. */
  lemma ChunkingMattersBeyondBudget<C, F>(m: Machine<C, F>, core: C, comment: seq<byte>)
    requires MAX_MESSAGE_BYTES < |comment| < MAX_REQUEST_BYTES
    requires comment[0] == COLON && LF !in comment
    ensures Joined([comment + [LF]]) == Joined([comment, [LF]])
    ensures Feed(m, Start(core), [comment + [LF]]).Ok?
    ensures Feed(m, Start(core), [comment, [LF]]) == Err(ResponseTooLarge)
  {
    CommentLine(m, core, comment);
    OverlongTail(m, core, comment);
    var whole, split := [comment + [LF]], [comment, [LF]];
    assert whole[1..] == [] && split[1..] == [[LF]] && split[1..][1..] == [];
    Unit(comment + [LF]);
    Unit([LF]);
    hide PushStep;
    assert Feed(m, Start(core), split).Err?;
  }

  // ---------------------------------------------------------------- framing, then the machine

  /** The machine alone, on a list of dispatched events. */
  function Run<C, F>(m: Machine<C, F>, core: C, payloads: seq<Payload>): Result<(C, seq<F>), ErrorKind>
    decreases |payloads|
  {
    if payloads == [] then Ok((core, []))
    else
      var (next, output) :- m.step(core, payloads[0]);
      var (last, more) :- Run(m, next, payloads[1..]);
      Ok((last, output + more))
  }

  lemma {:induction false} RunConcat<C, F>(m: Machine<C, F>, core: C, a: seq<Payload>, b: seq<Payload>)
    requires Run(m, core, a).Ok?
    ensures Run(m, core, a + b) ==
            match Run(m, Run(m, core, a).value.0, b)
            case Err(e) => Err(e)
            case Ok((last, output)) => Ok((last, Run(m, core, a).value.1 + output))
    decreases |a|
  {
    if a == [] {
      Unit(b);
      var rest := Run(m, core, b);
      if rest.Ok? {
        Unit(rest.value.1);
      }
    } else {
      var (next, output) := m.step(core, a[0]).value;
      assert (a + b)[1..] == a[1..] + b;
      RunConcat(m, next, a[1..], b);
      var rest := Run(m, Run(m, core, a).value.0, b);
      if rest.Ok? {
        Assoc(output, Run(m, next, a[1..]).value.1, rest.value.1);
      }
    }
  }

  function Dispatched<C>(s: Frame<C>): seq<Payload> {
    if s.data == [] then [] else [Payload(s.event, s.data)]
  }

  function LineDispatches<C>(s: Frame<C>, raw: seq<byte>): seq<Payload> {
    if StripCr(raw) == [] then Dispatched(s) else []
  }

  function DrainDispatches<C, F>(m: Machine<C, F>, s: Frame<C>): seq<Payload>
    decreases |s.buffer|
  {
    match FindLf(s.buffer)
    case None => []
    case Some(k) =>
      var rest := s.(buffer := s.buffer[k + 1..]);
      match LineStep(m, rest, s.buffer[..k])
      case Err(_) => []
      case Ok((next, _)) => LineDispatches(rest, s.buffer[..k]) + DrainDispatches(m, next)
  }

  lemma DispatchIsRun<C, F>(m: Machine<C, F>, s: Frame<C>)
    requires DispatchStep(m, s).Ok?
    ensures Run(m, s.core, Dispatched(s)) == Ok((DispatchStep(m, s).value.0.core, DispatchStep(m, s).value.1))
  {
    if s.data != [] {
      var payloads := [Payload(s.event, s.data)];
      assert payloads[1..] == [];
      Unit(DispatchStep(m, s).value.1);
    }
  }

  lemma LineIsRun<C, F>(m: Machine<C, F>, s: Frame<C>, raw: seq<byte>)
    requires LineStep(m, s, raw).Ok?
    ensures Run(m, s.core, LineDispatches(s, raw)) == Ok((LineStep(m, s, raw).value.0.core,
            LineStep(m, s, raw).value.1))
  {
    if StripCr(raw) == [] {
      DispatchIsRun(m, s);
    }
  }

  lemma {:induction false} DrainIsRun<C, F>(m: Machine<C, F>, s: Frame<C>)
    requires Drain(m, s).Ok?
    ensures Run(m, s.core, DrainDispatches(m, s)) == Ok((Drain(m, s).value.0.core, Drain(m, s).value.1))
    decreases |s.buffer|
  {
    match FindLf(s.buffer) {
      case None =>
      case Some(k) =>
        var rest := s.(buffer := s.buffer[k + 1..]);
        var next := LineStep(m, rest, s.buffer[..k]).value.0;
        LineIsRun(m, rest, s.buffer[..k]);
        DrainIsRun(m, next);
        RunConcat(m, s.core, LineDispatches(rest, s.buffer[..k]), DrainDispatches(m, next));
    }
  }

  /** The events dispatched while all of `input` is pushed, and then by `finish`. */
  function FedPayloads<C, F>(m: Machine<C, F>, core: C, input: seq<byte>): seq<Payload> {
    DrainDispatches(m, Start(core).(bytes := |input|, buffer := input))
  }

  function FinishPayloads<C, F>(m: Machine<C, F>, s: Frame<C>): seq<Payload> {
    if s.buffer == [] then Dispatched(s)
    else
      match LineStep(m, s.(buffer := []), s.buffer)
      case Err(_) => []
      case Ok((next, _)) => LineDispatches(s.(buffer := []), s.buffer) + Dispatched(next)
  }

  /** The events of a whole stream. */
  function StreamPayloads<C, F>(m: Machine<C, F>, core: C, input: seq<byte>): seq<Payload> {
    FedPayloads(m, core, input) +
    match Process(m, Start(core), input)
    case Err(_) => []
    case Ok((s, _)) => FinishPayloads(m, s)
  }

  lemma FeedIsRun<C, F>(m: Machine<C, F>, core: C, chunks: seq<seq<byte>>)
    requires Feed(m, Start(core), chunks).Ok?
    ensures var (s, output) := Feed(m, Start(core), chunks).value;
            Run(m, core, FedPayloads(m, core, Joined(chunks))) == Ok((s.core, output))
    ensures Feed(m, Start(core), chunks) == Process(m, Start(core), Joined(chunks))
  {
    hide Feed;
    hide Drain;
    hide DrainDispatches;
    hide Run;
    FeedIsProcess(m, Start(core), chunks);
    Unit(Joined(chunks));
    DrainIsRun(m, Start(core).(bytes := |Joined(chunks)|, buffer := Joined(chunks)));
  }

  lemma FinishIsRun<C, F>(m: Machine<C, F>, s: Frame<C>) returns (last: C)
    requires FinishStep(m, s).Ok?
    ensures Run(m, s.core, FinishPayloads(m, s)) == Ok((last, FinishStep(m, s).value))
    ensures m.terminal(last)
  {
    var tail := s.(buffer := []);
    if s.buffer == [] {
      DispatchIsRun(m, s);
      Unit(DispatchStep(m, s).value.1);
      last := DispatchStep(m, s).value.0.core;
    } else {
      var next := LineStep(m, tail, s.buffer).value.0;
      LineIsRun(m, tail, s.buffer);
      DispatchIsRun(m, next);
      RunConcat(m, s.core, LineDispatches(tail, s.buffer), Dispatched(next));
      last := DispatchStep(m, next).value.0.core;
    }
  }

  /** A successful decoding is framing followed by a run of the machine that ends in a terminal state. */
  lemma DecodeIsRun<C, F>(m: Machine<C, F>, core: C, chunks: seq<seq<byte>>) returns (last: C)
    requires Decode(m, core, chunks).Ok?
    ensures Run(m, core, StreamPayloads(m, core, Joined(chunks))) == Ok((last, Decode(m, core, chunks).value))
    ensures m.terminal(last)
  {
    var (s, output) := Feed(m, Start(core), chunks).value;
    FeedIsRun(m, core, chunks);
    last := FinishIsRun(m, s);
    hide FinishStep;
    hide Feed;
    hide FedPayloads;
    hide FinishPayloads;
    RunConcat(m, core, FedPayloads(m, core, Joined(chunks)), FinishPayloads(m, s));
  }
}
