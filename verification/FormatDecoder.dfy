/** The streaming decoder object: its methods compute the framing functions on its fields. */
module FormatDecoder {
  import opened Wrappers
  import opened History
  import opened Sequences
  import opened Sse
  import opened Provider
  import opened Dispatch

  class FormatDecoder {
    const format: ApiFormat
    const codec: Codec
    var buffer: seq<byte>
    var data: seq<byte>
    var event: seq<byte>
    var bytes: nat
    var core: Core

    constructor (format: ApiFormat, codec: Codec)
      ensures this.format == format && this.codec == codec && State() == Start(EMPTY_CORE)
    {
      this.format, this.codec := format, codec;
      buffer, data, event, bytes, core := [], [], [], 0, EMPTY_CORE;
    }

    function State(): Frame<Core>
      reads this
    {
      Frame(buffer, data, event, bytes, core)
    }

    function Rules(): Machine<Core, Fragment> {
      DecoderMachine(format, codec)
    }

    /** Whether a call that ended with `r` did what the framing function says; after an error the object is dropped. */
    ghost predicate Did(expected: Outcome<Core, Fragment>, r: Result<seq<Fragment>, ErrorKind>)
      reads this
    {
      match expected
      case Err(e) => r == Err(e)
      case Ok((s, output)) => r == Ok(output) && State() == s
    }

    method Dispatch() returns (r: Result<seq<Fragment>, ErrorKind>)
      modifies this
      ensures Did(DispatchStep(Rules(), old(State())), r)
    {
      var payload := Payload(event, data);
      data, event := [], [];
      if payload.data == [] {
        return Ok([]);
      }
      var step := Step(format, codec, core, payload);
      if step.Err? {
        return Err(step.error);
      }
      core := step.value.0;
      return Ok(step.value.1);
    }

    method Line(raw: seq<byte>) returns (r: Result<seq<Fragment>, ErrorKind>)
      modifies this
      ensures Did(LineStep(Rules(), old(State()), raw), r)
    {
      var line := StripCr(raw);
      if line == [] {
        r := Dispatch();
        return;
      }
      if line[0] == COLON {
        return Ok([]);
      }
      if DATA_FIELD <= line {
        if data != [] {
          data := data + [LF];
        }
        data := data + StripSpace(line[|DATA_FIELD|..]);
      } else if EVENT_FIELD <= line {
        var name := StripSpace(line[|EVENT_FIELD|..]);
        if codec.text(name).None? {
          return Err(ResponseInvalid);
        }
        event := name;
      }
      if |data| + |event| > MAX_MESSAGE_BYTES {
        return Err(ResponseTooLarge);
      }
      return Ok([]);
    }

    method Push(chunk: seq<byte>) returns (r: Result<seq<Fragment>, ErrorKind>)
      modifies this
      ensures Did(PushStep(Rules(), old(State()), chunk), r)
    {
      bytes := SaturatingAdd(bytes, |chunk|);
      if bytes > MAX_REQUEST_BYTES {
        return Err(ResponseTooLarge);
      }
      buffer := buffer + chunk;
      var output: seq<Fragment> := [];
      ghost var pushed := State();
      PrependNothing(Drain(Rules(), pushed));
      while true
        invariant Prepend(output, Drain(Rules(), State())) == Drain(Rules(), pushed)
        decreases |buffer|
      {
        var index := FindLf(buffer);
        if index.None? {
          break;
        }
        var line := buffer[..index.value];
        buffer := buffer[index.value + 1..];
        ghost var before := State();
        var emitted := Line(line);
        if emitted.Err? {
          return emitted;
        }
        PrependTwice(output, emitted.value, Drain(Rules(), State()));
        output := output + emitted.value;
      }
      Unit(output);
      if |buffer| + |data| > MAX_MESSAGE_BYTES {
        return Err(ResponseTooLarge);
      }
      return Ok(output);
    }

    method Finish() returns (r: Result<seq<Fragment>, ErrorKind>)
      modifies this
      ensures r == FinishStep(Rules(), old(State()))
    {
      var output: seq<Fragment> := [];
      if buffer != [] {
        var line := buffer;
        buffer := [];
        var emitted := Line(line);
        if emitted.Err? {
          return emitted;
        }
        output := emitted.value;
      }
      var last := Dispatch();
      if last.Err? {
        return last;
      }
      if !core.terminal {
        return Err(ResponseIncomplete);
      }
      return Ok(output + last.value);
    }
  }
}
