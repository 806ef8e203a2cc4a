/**
 The bridge's line-delimited framing: one message per LF-terminated line, at most
 `MAX_FRAME_BYTES` of payload, decoded from a byte stream that arrives in arbitrary chunks.
 */
module FrameDecoder {
  import opened Outcomes

  type Byte = b: int | 0 <= b < 256

  const LF: Byte := 10
  const CR: Byte := 13
  const MAX_FRAME_BYTES: nat := 16 * 1024 * 1024

  datatype FrameError = EmptyFrame | FrameTooLarge | MultipleFrames | InvalidFrame | TruncatedFrame

  /** Parsing and schema validation of one payload; any partial function will do. */
  type Parser<!M> = seq<Byte> -> Option<M>

  // ---------------------------------------------------------------- one frame

  function StripLineTerminator(frame: seq<Byte>): seq<Byte> {
    if frame == [] || frame[|frame| - 1] != LF then frame else
    var line := frame[..|frame| - 1];
    if line != [] && line[|line| - 1] == CR then line[..|line| - 1] else line
  }

  function DecodeFrame<M>(parse: Parser<M>, frame: seq<Byte>): Result<M, FrameError> {
    var payload := StripLineTerminator(frame);
    if payload == [] then Err(EmptyFrame)
    else if |payload| > MAX_FRAME_BYTES then Err(FrameTooLarge)
    else if LF in payload || CR in payload then Err(MultipleFrames)
    else match parse(payload)
      case None => Err(InvalidFrame)
      case Some(message) => Ok(message)
  }

  /** Both encoders of the protocol: the serialised payload, bounded, and one LF. */
  function EncodeFrame(payload: seq<Byte>): Result<seq<Byte>, FrameError> {
    if |payload| > MAX_FRAME_BYTES then Err(FrameTooLarge) else Ok(payload + [LF])
  }

  /** The buffering limit: one byte more than a payload is allowed when that byte is a CR. */
  predicate TooLong(buffer: seq<Byte>) {
    |buffer| > MAX_FRAME_BYTES && !(|buffer| == MAX_FRAME_BYTES + 1 && buffer[|buffer| - 1] == CR)
  }

  lemma StripTerminated(line: seq<Byte>)
    ensures StripLineTerminator(line + [LF]) ==
            if line != [] && line[|line| - 1] == CR then line[..|line| - 1] else line
  {
    assert (line + [LF])[..|line|] == line;
  }

  /** The buffering limit never rejects a line that the frame decoder would have accepted. */
  lemma TooLongLineFails<M>(parse: Parser<M>, line: seq<Byte>)
    requires TooLong(line)
    ensures DecodeFrame(parse, line + [LF]) == Err(FrameTooLarge)
  {
    StripTerminated(line);
  }

  // ---------------------------------------------------------------- the stream, byte by byte

  /** Messages completed so far and the bytes after the last LF. */
  datatype Fed<M> = Fed(messages: seq<M>, tail: seq<Byte>)

  function AfterMessages<M>(messages: seq<M>, rest: Result<Fed<M>, FrameError>): Result<Fed<M>, FrameError> {
    match rest
    case Err(e) => Err(e)
    case Ok(fed) => Ok(Fed(messages + fed.messages, fed.tail))
  }

  function Feed<M>(parse: Parser<M>, buffer: seq<Byte>, bytes: seq<Byte>): Result<Fed<M>, FrameError>
    decreases |bytes|
  {
    if bytes == [] then Ok(Fed([], buffer))
    else if bytes[0] != LF then Feed(parse, buffer + [bytes[0]], bytes[1..])
    else match DecodeFrame(parse, buffer + [LF])
      case Err(e) => Err(e)
      case Ok(message) => AfterMessages([message], Feed(parse, [], bytes[1..]))
  }

  /** One chunk: every completed line is decoded, and what is left over is checked against the limit. */
  function PushSpec<M>(parse: Parser<M>, buffer: seq<Byte>, chunk: seq<Byte>): Result<Fed<M>, FrameError> {
    var fed := Feed(parse, buffer, chunk);
    if fed.Ok? && TooLong(fed.value.tail) then Err(FrameTooLarge) else fed
  }

  /** A stream delivered in chunks; the first rejection ends it. */
  function Run<M>(parse: Parser<M>, buffer: seq<Byte>, chunks: seq<seq<Byte>>): Result<Fed<M>, FrameError>
    decreases |chunks|
  {
    if chunks == [] then Ok(Fed([], buffer))
    else match PushSpec(parse, buffer, chunks[0])
      case Err(e) => Err(e)
      case Ok(fed) => AfterMessages(fed.messages, Run(parse, fed.tail, chunks[1..]))
  }

  function Flatten(chunks: seq<seq<Byte>>): seq<Byte> {
    if chunks == [] then [] else chunks[0] + Flatten(chunks[1..])
  }

  lemma {:induction false} FlattenAppend(chunks: seq<seq<Byte>>, part: seq<Byte>)
    ensures Flatten(chunks + [part]) == Flatten(chunks) + part
  {
    if chunks == [] {
      assert [] + [part] == [part] && Flatten([part]) == part + Flatten([]);
    } else {
      assert (chunks + [part])[1..] == chunks[1..] + [part];
      FlattenAppend(chunks[1..], part);
    }
  }

  lemma AfterMessagesTwice<M>(first: seq<M>, second: seq<M>, rest: Result<Fed<M>, FrameError>)
    ensures AfterMessages(first, AfterMessages(second, rest)) == AfterMessages(first + second, rest)
    ensures AfterMessages([], rest) == rest
  {
    if rest.Ok? {
      assert first + (second + rest.value.messages) == first + second + rest.value.messages;
      assert [] + rest.value.messages == rest.value.messages;
    }
  }

  lemma {:induction false} FeedAppend<M>(parse: Parser<M>, buffer: seq<Byte>, first: seq<Byte>, second: seq<Byte>)
    ensures Feed(parse, buffer, first + second) ==
            match Feed(parse, buffer, first)
              case Err(e) => Err(e)
              case Ok(fed) => AfterMessages(fed.messages, Feed(parse, fed.tail, second))
    decreases |first|
  {
    if first == [] {
      assert first + second == second;
      AfterMessagesTwice([], [], Feed(parse, buffer, second));
    } else {
      assert (first + second)[1..] == first[1..] + second;
      if first[0] != LF {
        FeedAppend(parse, buffer + [first[0]], first[1..], second);
      } else {
        FeedAppend(parse, [], first[1..], second);
        var decoded, rest := DecodeFrame(parse, buffer + [LF]), Feed(parse, [], first[1..]);
        if decoded.Ok? && rest.Ok? {
          AfterMessagesTwice([decoded.value], rest.value.messages, Feed(parse, rest.value.tail, second));
        }
      }
    }
  }

  /** Once a buffer is over the limit, nothing that follows rescues it. */
  lemma {:induction false} TooLongStays<M>(parse: Parser<M>, buffer: seq<Byte>, bytes: seq<Byte>)
    requires TooLong(buffer)
    ensures PushSpec(parse, buffer, bytes) == Err(FrameTooLarge)
    decreases |bytes|
  {
    if bytes != [] {
      if bytes[0] == LF {
        TooLongLineFails(parse, buffer);
      } else {
        TooLongStays(parse, buffer + [bytes[0]], bytes[1..]);
      }
    }
  }

  /**
   Chunking does not matter: delivering a stream in any pieces gives what delivering it whole gives,
   the same messages and the same buffered tail, or the same error.
   */
  lemma {:induction false} ChunkingIrrelevant<M>(parse: Parser<M>, buffer: seq<Byte>, chunks: seq<seq<Byte>>)
    requires !TooLong(buffer)
    ensures Run(parse, buffer, chunks) == PushSpec(parse, buffer, Flatten(chunks))
    decreases |chunks|
  {
    if chunks != [] {
      var rest := Flatten(chunks[1..]);
      FeedAppend(parse, buffer, chunks[0], rest);
      var fed := Feed(parse, buffer, chunks[0]);
      if fed.Ok? {
        if TooLong(fed.value.tail) {
          TooLongStays(parse, fed.value.tail, rest);
        } else {
          ChunkingIrrelevant(parse, fed.value.tail, chunks[1..]);
        }
      }
    }
  }

  // ---------------------------------------------------------------- the stream, line by line

  /** The stream cut at every LF; the last piece is what follows the last LF. */
  function Lines(stream: seq<Byte>): (lines: seq<seq<Byte>>)
    ensures |lines| >= 1
  {
    if stream == [] then [[]]
    else if stream[0] == LF then [[]] + Lines(stream[1..])
    else var rest := Lines(stream[1..]); [[stream[0]] + rest[0]] + rest[1..]
  }

  function Unlines(lines: seq<seq<Byte>>): seq<Byte>
    requires |lines| >= 1
  {
    if |lines| == 1 then lines[0] else lines[0] + [LF] + Unlines(lines[1..])
  }

  lemma {:induction false} LinesCutTheStream(stream: seq<Byte>)
    ensures Unlines(Lines(stream)) == stream
    ensures forall i | 0 <= i < |Lines(stream)| :: LF !in Lines(stream)[i]
  {
    if stream != [] {
      var rest := Lines(stream[1..]);
      LinesCutTheStream(stream[1..]);
      if stream[0] == LF {
        assert ([[]] + rest)[1..] == rest;
        assert [] + [LF] + Unlines(rest) == stream;
      } else {
        var all := [[stream[0]] + rest[0]] + rest[1..];
        assert all[1..] == rest[1..];
        assert Unlines(all) == [stream[0]] + Unlines(rest);
        assert forall i | 0 < i < |all| :: all[i] == rest[i];
      }
    }
  }

  /** The pieces with the buffered bytes put in front of the first. */
  function WithBuffer(buffer: seq<Byte>, lines: seq<seq<Byte>>): seq<seq<Byte>>
    requires |lines| >= 1
  {
    [buffer + lines[0]] + lines[1..]
  }

  /** Decoding line after line, stopping at the first that fails. */
  function DecodeLines<M>(parse: Parser<M>, lines: seq<seq<Byte>>): Result<Fed<M>, FrameError>
    requires |lines| >= 1
  {
    if |lines| == 1 then Ok(Fed([], lines[0]))
    else match DecodeFrame(parse, lines[0] + [LF])
      case Err(e) => Err(e)
      case Ok(message) => AfterMessages([message], DecodeLines(parse, lines[1..]))
  }

  /** Feeding bytes is decoding lines. */
  lemma {:induction false} FeedDecodesLines<M>(parse: Parser<M>, buffer: seq<Byte>, bytes: seq<Byte>)
    ensures Feed(parse, buffer, bytes) == DecodeLines(parse, WithBuffer(buffer, Lines(bytes)))
    decreases |bytes|
  {
    if bytes == [] {
      assert buffer + [] == buffer;
    } else if bytes[0] == LF {
      FeedDecodesLines(parse, [], bytes[1..]);
      WithEmptyBuffer(buffer, Lines(bytes[1..]));
    } else {
      FeedDecodesLines(parse, buffer + [bytes[0]], bytes[1..]);
      WithLongerBuffer(buffer, bytes[0], Lines(bytes[1..]));
    }
  }

  lemma WithEmptyBuffer(buffer: seq<Byte>, lines: seq<seq<Byte>>)
    requires |lines| >= 1
    ensures WithBuffer([], lines) == lines
    ensures WithBuffer(buffer, [[]] + lines) == [buffer] + lines
    ensures ([buffer] + lines)[1..] == lines
  {
    assert [] + lines[0] == lines[0] && buffer + [] == buffer;
    assert ([[]] + lines)[1..] == lines;
  }

  lemma WithLongerBuffer(buffer: seq<Byte>, byte: Byte, lines: seq<seq<Byte>>)
    requires |lines| >= 1
    ensures WithBuffer(buffer, [[byte] + lines[0]] + lines[1..]) == WithBuffer(buffer + [byte], lines)
  {
    assert buffer + ([byte] + lines[0]) == buffer + [byte] + lines[0];
    assert ([[byte] + lines[0]] + lines[1..])[1..] == lines[1..];
  }

  /** Every line that ended in LF decodes. */
  ghost predicate TerminatedLinesDecode<M>(parse: Parser<M>, lines: seq<seq<Byte>>) {
    forall i | 0 <= i < |lines| - 1 :: DecodeFrame(parse, lines[i] + [LF]).Ok?
  }

  ghost predicate DecodedFrom<M>(parse: Parser<M>, lines: seq<seq<Byte>>, messages: seq<M>) {
    && |messages| == |lines| - 1
    && forall i | 0 <= i < |messages| :: DecodeFrame(parse, lines[i] + [LF]) == Ok(messages[i])
  }

  lemma {:induction false} DecodeLinesVerdict<M>(parse: Parser<M>, lines: seq<seq<Byte>>)
    requires |lines| >= 1
    ensures DecodeLines(parse, lines).Ok? <==> TerminatedLinesDecode(parse, lines)
    ensures DecodeLines(parse, lines).Ok? ==>
              var fed := DecodeLines(parse, lines).value;
              fed.tail == lines[|lines| - 1] && DecodedFrom(parse, lines, fed.messages)
  {
    if |lines| > 1 {
      var rest := lines[1..];
      DecodeLinesVerdict(parse, rest);
      assert forall i | 0 <= i < |rest| :: rest[i] == lines[i + 1];
      assert forall i | 0 < i < |lines| :: lines[i] == rest[i - 1];
    }
  }

  /**
   A stream, however it is chunked, is accepted exactly when every terminated line decodes and the
   unterminated rest is within the limit. Its output is then the lines' messages in order, and the
   rest stays buffered.
   */
  lemma StreamVerdict<M>(parse: Parser<M>, chunks: seq<seq<Byte>>)
    ensures var lines := Lines(Flatten(chunks));
            && (Run(parse, [], chunks).Ok? <==>
                TerminatedLinesDecode(parse, lines) && !TooLong(lines[|lines| - 1]))
            && (Run(parse, [], chunks).Ok? ==>
                var fed := Run(parse, [], chunks).value;
                && DecodedFrom(parse, lines, fed.messages)
                && fed.tail == lines[|lines| - 1] && |fed.tail| <= MAX_FRAME_BYTES + 1)
  {
    var stream := Flatten(chunks);
    ChunkingIrrelevant(parse, [], chunks);
    FeedDecodesLines(parse, [], stream);
    WithEmptyBuffer([], Lines(stream));
    DecodeLinesVerdict(parse, Lines(stream));
  }

  /** An accepted stream can be finished exactly when it is empty or ends in LF. */
  lemma FinishVerdict<M>(parse: Parser<M>, chunks: seq<seq<Byte>>)
    requires Run(parse, [], chunks).Ok?
    ensures var stream := Flatten(chunks);
            Run(parse, [], chunks).value.tail == [] <==> stream == [] || stream[|stream| - 1] == LF
  {
    StreamVerdict(parse, chunks);
    LastLineBlank(Flatten(chunks));
  }

  lemma {:induction false} LastLineBlank(stream: seq<Byte>)
    ensures Lines(stream)[|Lines(stream)| - 1] == [] <==> stream == [] || stream[|stream| - 1] == LF
  {
    if stream != [] {
      LastLineBlank(stream[1..]);
    }
  }

  // ---------------------------------------------------------------- round trip

  /** What a JSON serialiser guarantees: RFC 8259, section 7, escapes control characters in strings. */
  ghost predicate Encodable<M(!new)>(parse: Parser<M>, serialize: M -> seq<Byte>, message: M) {
    var payload := serialize(message);
    && 0 < |payload| <= MAX_FRAME_BYTES
    && LF !in payload && CR !in payload
    && parse(payload) == Some(message)
  }

  function EncodeAll<M>(serialize: M -> seq<Byte>, messages: seq<M>): seq<Byte> {
    if messages == [] then []
    else
      var frame := EncodeFrame(serialize(messages[0]));
      (if frame.Ok? then frame.value else []) + EncodeAll(serialize, messages[1..])
  }

  lemma EncodedDecodes<M(!new)>(parse: Parser<M>, serialize: M -> seq<Byte>, message: M)
    requires Encodable(parse, serialize, message)
    ensures EncodeFrame(serialize(message)).Ok?
    ensures DecodeFrame(parse, EncodeFrame(serialize(message)).value) == Ok(message)
  {
    var payload := serialize(message);
    StripTerminated(payload);
    assert payload[|payload| - 1] in payload;
  }

  lemma {:induction false} FeedPlainLine<M>(parse: Parser<M>, buffer: seq<Byte>, line: seq<Byte>, rest: seq<Byte>)
    requires LF !in line
    ensures Feed(parse, buffer, line + rest) == Feed(parse, buffer + line, rest)
    decreases |line|
  {
    if line == [] {
      assert line + rest == rest && buffer + line == buffer;
    } else {
      assert (line + rest)[1..] == line[1..] + rest;
      FeedPlainLine(parse, buffer + [line[0]], line[1..], rest);
      assert buffer + [line[0]] + line[1..] == buffer + line;
    }
  }

  lemma {:induction false} FeedEncoded<M(!new)>(parse: Parser<M>, serialize: M -> seq<Byte>, messages: seq<M>)
    requires forall m | m in messages :: Encodable(parse, serialize, m)
    ensures Feed(parse, [], EncodeAll(serialize, messages)) == Ok(Fed(messages, []))
  {
    if messages != [] {
      var payload, rest := serialize(messages[0]), EncodeAll(serialize, messages[1..]);
      EncodedDecodes(parse, serialize, messages[0]);
      FeedEncoded(parse, serialize, messages[1..]);
      FeedFrame(parse, payload, rest);
      FeedLineEnd(parse, payload, Ok(messages[0]), rest);
      assert EncodeAll(serialize, messages) == payload + [LF] + rest;
      assert [messages[0]] + messages[1..] == messages;
    }
  }

  lemma FeedFrame<M>(parse: Parser<M>, payload: seq<Byte>, rest: seq<Byte>)
    requires LF !in payload
    ensures Feed(parse, [], payload + [LF] + rest) == Feed(parse, payload, [LF] + rest)
  {
    FeedPlainLine(parse, [], payload, [LF] + rest);
    assert payload + [LF] + rest == payload + ([LF] + rest) && [] + payload == payload;
  }

  lemma FeedLineEnd<M>(parse: Parser<M>, buffer: seq<Byte>, decoded: Result<M, FrameError>, rest: seq<Byte>)
    requires decoded == DecodeFrame(parse, buffer + [LF])
    ensures decoded.Ok? ==>
              Feed(parse, buffer, [LF] + rest) == AfterMessages([decoded.value], Feed(parse, [], rest))
    ensures decoded.Err? ==> Feed(parse, buffer, [LF] + rest) == Err(decoded.error)
  {
    assert ([LF] + rest)[1..] == rest;
  }

  /** Encoding messages, concatenating the frames and cutting the bytes anywhere gives the messages back. */
  lemma RoundTrip<M(!new)>(
      parse: Parser<M>, serialize: M -> seq<Byte>, messages: seq<M>, chunks: seq<seq<Byte>>)
    requires forall m | m in messages :: Encodable(parse, serialize, m)
    requires Flatten(chunks) == EncodeAll(serialize, messages)
    ensures Run(parse, [], chunks) == Ok(Fed(messages, []))
  {
    ChunkingIrrelevant(parse, [], chunks);
    FeedEncoded(parse, serialize, messages);
  }

  // ---------------------------------------------------------------- the decoder object

  class ServerFrameDecoder<M> {
    const parse: Parser<M>
    var chunks: seq<seq<Byte>>
    var pendingBytes: nat

    ghost function Contents(): seq<Byte>
      reads this
    {
      Flatten(chunks)
    }

    ghost predicate Valid()
      reads this
    {
      pendingBytes == |Contents()| && !TooLong(Contents())
    }

    constructor (parse: Parser<M>)
      ensures Valid() && Contents() == [] && this.parse == parse
    {
      this.parse := parse;
      chunks := [];
      pendingBytes := 0;
    }

    method Push(chunk: seq<Byte>) returns (result: Result<seq<M>, FrameError>)
      requires Valid()
      modifies this
      ensures Valid()
      ensures match PushSpec(parse, old(Contents()), chunk)
              case Ok(fed) => result == Ok(fed.messages) && Contents() == fed.tail
              case Err(e) => result == Err(e) && Contents() == []
    {
      var messages: seq<M> := [];
      var offset := 0;
      ghost var whole := Feed(parse, Contents(), chunk);
      assert chunk[0..] == chunk;
      AfterMessagesTwice([], [], whole);
      for index := 0 to |chunk|
        invariant offset <= index && LF !in chunk[offset..index]
        invariant Valid()
        invariant whole == AfterMessages(messages, Feed(parse, Contents(), chunk[offset..]))
      {
        if chunk[index] != LF {
          PlainGrows(chunk, offset, index);
          continue;
        }
        ghost var buffer := Contents();
        var decoded := CompleteLine(chunk[offset..index]);
        LineStep(parse, messages, buffer, chunk, offset, index, decoded);
        if decoded.Err? {
          return Err(decoded.error);
        }
        messages := messages + [decoded.value];
        offset := index + 1;
      }
      TailStep(parse, messages, Contents(), chunk, offset);
      var appended := Append(chunk[offset..]);
      if !appended {
        return Err(FrameTooLarge);
      }
      return Ok(messages);
    }

    /** A line is complete: what is buffered, the part before the LF, and the LF make one frame. */
    method CompleteLine(part: seq<Byte>) returns (decoded: Result<M, FrameError>)
      requires Valid()
      modifies this
      ensures Valid() && Contents() == []
      ensures decoded == DecodeFrame(parse, old(Contents()) + part + [LF])
    {
      var appended := Append(part);
      if !appended {
        TooLongLineFails(parse, old(Contents()) + part);
        return Err(FrameTooLarge);
      }
      var frame := TakeFrame();
      decoded := DecodeFrame(parse, frame);
    }

    method Finish() returns (result: Result<(), FrameError>)
      requires Valid()
      modifies this
      ensures Valid() && Contents() == []
      ensures result == if old(Contents()) == [] then Ok(()) else Err(TruncatedFrame)
    {
      if pendingBytes != 0 {
        Reset();
        return Err(TruncatedFrame);
      }
      return Ok(());
    }

    /** Buffers a part and applies the limit to what is buffered then. */
    method Append(part: seq<Byte>) returns (ok: bool)
      requires Valid()
      modifies this
      ensures Valid()
      ensures ok <==> !TooLong(old(Contents()) + part)
      ensures Contents() == if ok then old(Contents()) + part else []
    {
      if |part| == 0 {
        assert Contents() + part == Contents();
        return true;
      }
      FlattenAppend(chunks, part);
      chunks := chunks + [part];
      pendingBytes := pendingBytes + |part|;
      var permitsTrailingCarriageReturn := pendingBytes == MAX_FRAME_BYTES + 1 && part[|part| - 1] == CR;
      if pendingBytes > MAX_FRAME_BYTES && !permitsTrailingCarriageReturn {
        Reset();
        return false;
      }
      return true;
    }

    /** Copies the buffered parts into one frame, adds the LF and empties the buffer. */
    method TakeFrame() returns (frame: seq<Byte>)
      requires Valid()
      modifies this
      ensures Valid() && Contents() == []
      ensures frame == old(Contents()) + [LF]
    {
      var bytes := new Byte[pendingBytes + 1](_ => 0);
      var frameOffset := 0;
      assert chunks[..0] == [];
      for i := 0 to |chunks|
        invariant unchanged(this)
        invariant frameOffset == |Flatten(chunks[..i])| <= pendingBytes
        invariant bytes[..frameOffset] == Flatten(chunks[..i])
      {
        var part := chunks[i];
        assert chunks[..i + 1] == chunks[..i] + [part];
        FlattenAppend(chunks[..i], part);
        FlattenPrefix(chunks, i + 1);
        ghost var before := bytes[..frameOffset];
        forall k | 0 <= k < |part| {
          bytes[frameOffset + k] := part[k];
        }
        assert bytes[..frameOffset + |part|] == before + part;
        frameOffset := frameOffset + |part|;
      }
      assert chunks[..|chunks|] == chunks;
      bytes[pendingBytes] := LF;
      frame := bytes[..];
      Reset();
    }

    method Reset()
      modifies this
      ensures Valid() && Contents() == []
    {
      chunks := [];
      pendingBytes := 0;
    }
  }

  /** What one LF at `index` contributes to a chunk that has been consumed up to `offset`. */
  lemma LineStep<M>(parse: Parser<M>, messages: seq<M>, buffer: seq<Byte>, chunk: seq<Byte>, offset: nat, index: nat,
                    decoded: Result<M, FrameError>)
    requires offset <= index < |chunk| && chunk[index] == LF && LF !in chunk[offset..index]
    requires decoded == DecodeFrame(parse, buffer + chunk[offset..index] + [LF])
    ensures decoded.Ok? ==>
              AfterMessages(messages, Feed(parse, buffer, chunk[offset..])) ==
              AfterMessages(messages + [decoded.value], Feed(parse, [], chunk[index + 1..]))
    ensures decoded.Err? ==>
              AfterMessages(messages, Feed(parse, buffer, chunk[offset..])) == Err(decoded.error)
  {
    var line, rest := chunk[offset..index], chunk[index + 1..];
    assert chunk[offset..] == line + ([LF] + rest);
    FeedLine(parse, buffer, line, rest, decoded);
    if decoded.Ok? {
      AfterMessagesTwice(messages, [decoded.value], Feed(parse, [], rest));
    }
  }

  lemma FeedLine<M>(parse: Parser<M>, buffer: seq<Byte>, line: seq<Byte>, rest: seq<Byte>, decoded: Result<M, FrameError>)
    requires LF !in line && decoded == DecodeFrame(parse, buffer + line + [LF])
    ensures decoded.Ok? ==>
              Feed(parse, buffer, line + ([LF] + rest)) == AfterMessages([decoded.value], Feed(parse, [], rest))
    ensures decoded.Err? ==> Feed(parse, buffer, line + ([LF] + rest)) == Err(decoded.error)
  {
    FeedPlainLine(parse, buffer, line, [LF] + rest);
    FeedLineEnd(parse, buffer + line, decoded, rest);
  }

  lemma PlainGrows(chunk: seq<Byte>, offset: nat, index: nat)
    requires offset <= index < |chunk| && chunk[index] != LF && LF !in chunk[offset..index]
    ensures LF !in chunk[offset..index + 1]
  {
    assert chunk[offset..index + 1] == chunk[offset..index] + [chunk[index]];
  }

  lemma TailStep<M>(parse: Parser<M>, messages: seq<M>, buffer: seq<Byte>, chunk: seq<Byte>, offset: nat)
    requires offset <= |chunk| && LF !in chunk[offset..|chunk|]
    ensures AfterMessages(messages, Feed(parse, buffer, chunk[offset..])) == Ok(Fed(messages, buffer + chunk[offset..]))
  {
    var tail := chunk[offset..];
    assert tail == chunk[offset..|chunk|] && tail + [] == tail;
    FeedPlainLine(parse, buffer, tail, []);
    assert messages + [] == messages;
  }

  lemma {:induction false} FlattenPrefix(chunks: seq<seq<Byte>>, n: nat)
    requires n <= |chunks|
    ensures |Flatten(chunks[..n])| <= |Flatten(chunks)|
  {
    if n > 0 {
      assert chunks[..n][1..] == chunks[1..][..n - 1];
      FlattenPrefix(chunks[1..], n - 1);
    }
  }
}
