/**
  * Cutting a byte stream into lines. A line is the bytes before an LF, less one
  * trailing CR, and is not reported when that leaves nothing. Lines are given
  * as bytes: how invalid UTF-8 in them is replaced is not modelled.
  */
module LineFraming {
  import opened Units
  import opened Utf8

  const LF_BYTE: Byte := 0x0a
  const CR_BYTE: Byte := 0x0d

  const MAX_LINE_BYTES: nat := 16_384

  datatype PushResult = Lines(lines: seq<Bytes>) | LineTooLong

  // ---------- The one-pass meaning of a stream ----------

  /** The bytes after the last LF. */
  function Pending(stream: Bytes): Bytes {
    if stream == [] then []
    else if stream[|stream| - 1] == LF_BYTE then []
    else Pending(stream[..|stream| - 1]) + [stream[|stream| - 1]]
  }

  function Chopped(line: Bytes): Bytes {
    if line != [] && line[|line| - 1] == CR_BYTE then line[..|line| - 1] else line
  }

  function Reported(line: Bytes): seq<Bytes> {
    if Chopped(line) == [] then [] else [Chopped(line)]
  }

  /** Every complete line of the stream, in order. */
  function LinesOf(stream: Bytes): seq<Bytes> {
    if stream == [] then []
    else
      var before := stream[..|stream| - 1];
      LinesOf(before) + if stream[|stream| - 1] == LF_BYTE then Reported(Pending(before)) else []
  }

  lemma OneByte(stream: Bytes, byte: Byte)
    ensures Pending(stream + [byte]) == if byte == LF_BYTE then [] else Pending(stream) + [byte]
    ensures LinesOf(stream + [byte]) == LinesOf(stream) + if byte == LF_BYTE then Reported(Pending(stream)) else []
  {
    assert (stream + [byte])[..|stream|] == stream;
  }

  /** What is pending holds no line of its own and is pending by itself. */
  lemma {:induction false} UnfinishedIsPending(bytes: Bytes)
    requires LF_BYTE !in bytes
    ensures Pending(bytes) == bytes && LinesOf(bytes) == []
  {
    if bytes == [] {
    } else {
      UnfinishedIsPending(bytes[..|bytes| - 1]);
    }
  }

  lemma {:induction false} PendingIsUnfinished(stream: Bytes)
    ensures LF_BYTE !in Pending(stream)
  {
    if stream == [] {
    } else {
      PendingIsUnfinished(stream[..|stream| - 1]);
    }
  }

  // ---------- The decoder ----------

  /** One push from a given buffer: the new buffer and the answer. */
  function PushOn(buffer: Bytes, chunk: Bytes): (Bytes, PushResult) {
    var all := buffer + chunk;
    if |Pending(all)| > MAX_LINE_BYTES then ([], LineTooLong)
    else (Pending(all), Lines(LinesOf(all)))
  }

  lemma NextSlice(chunk: Bytes, start: nat, index: nat)
    requires start <= index < |chunk|
    ensures chunk[start..index + 1] == chunk[start..index] + [chunk[index]]
  {
  }

  class LineDecoder {
    var buffer: Bytes

    ghost predicate Valid()
      reads this
    {
      LF_BYTE !in buffer && |buffer| <= MAX_LINE_BYTES
    }

    constructor ()
      ensures Valid() && buffer == []
    {
      buffer := [];
    }

    /** Completes the line in the buffer. */
    method EndLine() returns (reported: seq<Bytes>)
      modifies this
      ensures buffer == [] && reported == Reported(old(buffer))
    {
      if buffer != [] && buffer[|buffer| - 1] == CR_BYTE {
        buffer := buffer[..|buffer| - 1];
      }
      reported := if buffer == [] then [] else [buffer];
      buffer := [];
    }

    /**
      * Feeds a chunk and answers with the lines it completes, unless more than
      * the limit would be left waiting. Then everything is dropped, the lines
      * that this very chunk completed included.
      */
    method Push(chunk: Bytes) returns (r: PushResult)
      requires Valid()
      modifies this
      ensures Valid() && (buffer, r) == PushOn(old(buffer), chunk)
    {
      hide Pending;
      hide LinesOf;
      hide Reported;
      var lines: seq<Bytes> := [];
      var start := 0;
      ghost var seen := buffer;
      UnfinishedIsPending(buffer);
      for index := 0 to |chunk|
        invariant 0 <= start <= index && seen == old(buffer) + chunk[..index]
        invariant Pending(seen) == buffer + chunk[start..index] && LinesOf(seen) == lines
      {
        OneByte(seen, chunk[index]);
        NextSlice(chunk, 0, index);
        Regroup(old(buffer), chunk[..index], [chunk[index]]);
        seen := seen + [chunk[index]];
        if chunk[index] == LF_BYTE {
          buffer := buffer + chunk[start..index];
          start := index + 1;
          var reported := EndLine();
          lines := lines + reported;
        } else {
          NextSlice(chunk, start, index);
          Regroup(buffer, chunk[start..index], [chunk[index]]);
        }
      }
      PendingIsUnfinished(old(buffer) + chunk);
      assert chunk[..|chunk|] == chunk;
      buffer := buffer + chunk[start..];
      if |buffer| > MAX_LINE_BYTES {
        buffer := [];
        return LineTooLong;
      }
      r := Lines(lines);
    }
  }

  // ---------- Chunking does not matter ----------

  lemma {:induction false} PendingAppend(stream: Bytes, more: Bytes)
    ensures Pending(stream + more) == Pending(Pending(stream) + more)
    ensures LinesOf(stream + more) == LinesOf(stream) + LinesOf(Pending(stream) + more)
    decreases |more|
  {
    hide Pending;
    hide LinesOf;
    hide Reported;
    if more == [] {
      assert stream + more == stream && Pending(stream) + more == Pending(stream);
      PendingIsUnfinished(stream);
      UnfinishedIsPending(Pending(stream));
    } else {
      var head, last := more[..|more| - 1], more[|more| - 1];
      assert stream + more == stream + head + [last];
      assert Pending(stream) + more == Pending(stream) + head + [last];
      PendingAppend(stream, head);
      OneByte(stream + head, last);
      OneByte(Pending(stream) + head, last);
      if last == LF_BYTE {
        Regroup(LinesOf(stream), LinesOf(Pending(stream) + head), Reported(Pending(stream + head)));
      }
    }
  }

  datatype Run = Run(buffer: Bytes, lines: seq<Bytes>, failed: bool)

  /** A whole connection: every chunk pushed in turn into one decoder. */
  function PushAll(buffer: Bytes, chunks: seq<Bytes>): Run
    decreases |chunks|
  {
    if chunks == [] then Run(buffer, [], false)
    else
      var (next, result) := PushOn(buffer, chunks[0]);
      var rest := PushAll(next, chunks[1..]);
      Run(rest.buffer,
          (if result.Lines? then result.lines else []) + rest.lines,
          result.LineTooLong? || rest.failed)
  }

  function Flatten(chunks: seq<Bytes>): Bytes {
    if chunks == [] then [] else chunks[0] + Flatten(chunks[1..])
  }

  lemma {:induction false} PushAllFrom(stream: Bytes, chunks: seq<Bytes>)
    requires !PushAll(Pending(stream), chunks).failed
    ensures var run := PushAll(Pending(stream), chunks);
            var all := stream + Flatten(chunks);
            run.buffer == Pending(all) && LinesOf(all) == LinesOf(stream) + run.lines
    decreases |chunks|
  {
    hide Pending;
    hide LinesOf;
    if chunks == [] {
      assert stream + Flatten(chunks) == stream;
    } else {
      var next := stream + chunks[0];
      PendingAppend(stream, chunks[0]);
      assert PushOn(Pending(stream), chunks[0]).0 == Pending(next);
      PushAllFrom(next, chunks[1..]);
      Regroup(stream, chunks[0], Flatten(chunks[1..]));
      Regroup(LinesOf(stream), LinesOf(Pending(stream) + chunks[0]), PushAll(Pending(next), chunks[1..]).lines);
    }
  }

  /**
    * However a byte stream is divided into chunks, if no push fails the lines
    * are those of the whole stream and what is held is its unfinished tail.
    */
  lemma FramingIgnoresChunking(chunks: seq<Bytes>)
    requires !PushAll([], chunks).failed
    ensures PushAll([], chunks).lines == LinesOf(Flatten(chunks))
    ensures PushAll([], chunks).buffer == Pending(Flatten(chunks))
  {
    PushAllFrom([], chunks);
    assert [] + Flatten(chunks) == Flatten(chunks);
  }

  /** Two divisions of one stream that both go through give the same lines. */
  lemma SameStreamSameLines(chunks: seq<Bytes>, others: seq<Bytes>)
    requires Flatten(chunks) == Flatten(others)
    requires !PushAll([], chunks).failed && !PushAll([], others).failed
    ensures PushAll([], chunks) == PushAll([], others)
  {
    FramingIgnoresChunking(chunks);
    FramingIgnoresChunking(others);
  }

  /** After every push, failed or not, no more than the limit is held. */
  lemma {:induction false} HeldIsBounded(buffer: Bytes, chunks: seq<Bytes>)
    requires |buffer| <= MAX_LINE_BYTES
    ensures |PushAll(buffer, chunks).buffer| <= MAX_LINE_BYTES
    decreases |chunks|
  {
    if chunks == [] {
    } else {
      HeldIsBounded(PushOn(buffer, chunks[0]).0, chunks[1..]);
    }
  }

  /**
    * Whether a push fails does depend on the chunking only through the bytes
    * left waiting: the pushes all succeed exactly when no prefix of the stream
    * that ends a chunk leaves more than the limit unterminated.
    */
  lemma {:induction false} FailsExactlyOnLongTails(stream: Bytes, chunks: seq<Bytes>)
    ensures PushAll(Pending(stream), chunks).failed
      <==> exists k :: 0 < k <= |chunks| && TooLongAfter(stream, chunks, k)
    decreases |chunks|
  {
    if chunks == [] {
    } else {
      var next := stream + chunks[0];
      PendingAppend(stream, chunks[0]);
      assert TooLongAfter(stream, chunks, 1) <==> |Pending(next)| > MAX_LINE_BYTES by {
        assert chunks[..1] == [chunks[0]] && Flatten(chunks[..1]) == chunks[0] + Flatten([]);
        assert stream + Flatten(chunks[..1]) == next;
      }
      if |Pending(next)| <= MAX_LINE_BYTES {
        FailsExactlyOnLongTails(next, chunks[1..]);
        forall k | 0 < k < |chunks|
          ensures TooLongAfter(next, chunks[1..], k) <==> TooLongAfter(stream, chunks, k + 1)
        {
          LaterTail(stream, chunks, k);
        }
        assert PushAll(Pending(stream), chunks).failed <==> PushAll(Pending(next), chunks[1..]).failed;
        if k :| 0 < k <= |chunks| && TooLongAfter(stream, chunks, k) {
          assert TooLongAfter(next, chunks[1..], k - 1);
        }
        if k :| 0 < k < |chunks| && TooLongAfter(next, chunks[1..], k) {
          assert TooLongAfter(stream, chunks, k + 1);
        }
      }
    }
  }

  /** More than the limit is unterminated after the first `k` chunks. */
  ghost predicate TooLongAfter(stream: Bytes, chunks: seq<Bytes>, k: nat)
    requires k <= |chunks|
  {
    |Pending(stream + Flatten(chunks[..k]))| > MAX_LINE_BYTES
  }

  lemma LaterTail(stream: Bytes, chunks: seq<Bytes>, k: nat)
    requires k < |chunks|
    ensures TooLongAfter(stream + chunks[0], chunks[1..], k) <==> TooLongAfter(stream, chunks, k + 1)
  {
    assert chunks[..k + 1][1..] == chunks[1..][..k];
    assert stream + chunks[0] + Flatten(chunks[1..][..k]) == stream + Flatten(chunks[..k + 1]);
  }

  // ---------- What goes in line by line comes out line by line ----------

  /** A line as a server sends it: ended by CR and LF, or by LF alone. */
  datatype SentLine = SentLine(content: Bytes, crlf: bool)

  predicate IsSentLine(line: SentLine) {
    && 0x0a !in line.content
    && (!line.crlf && line.content != [] ==> line.content[|line.content| - 1] != 0x0d)
  }

  function OnTheWire(lines: seq<SentLine>): Bytes {
    if lines == [] then []
    else
      var last := lines[|lines| - 1];
      OnTheWire(lines[..|lines| - 1]) + (last.content + if last.crlf then [0x0d, 0x0a] else [0x0a])
  }

  function Contents(lines: seq<SentLine>): seq<Bytes> {
    if lines == [] then []
    else
      var last := lines[|lines| - 1];
      Contents(lines[..|lines| - 1]) + if last.content == [] then [] else [last.content]
  }

  /** Bytes without an LF only add to what is pending. */
  lemma {:induction false} NothingEnds(stream: Bytes, bytes: Bytes)
    requires 0x0a !in bytes
    ensures LinesOf(stream + bytes) == LinesOf(stream) && Pending(stream + bytes) == Pending(stream) + bytes
  {
    if bytes == [] {
      assert stream + bytes == stream && Pending(stream) + bytes == Pending(stream);
    } else {
      var before, last := bytes[..|bytes| - 1], bytes[|bytes| - 1];
      NothingEnds(stream, before);
      OneByte(stream + before, last);
      assert bytes == before + [last];
      Regroup(stream, before, [last]);
      Regroup(Pending(stream), before, [last]);
    }
  }

  lemma OneLineEnds(stream: Bytes, line: SentLine)
    requires Pending(stream) == [] && IsSentLine(line)
    ensures var next := stream + (line.content + if line.crlf then [0x0d, 0x0a] else [0x0a]);
            && Pending(next) == []
            && LinesOf(next) == LinesOf(stream) + if line.content == [] then [] else [line.content]
  {
    hide Pending;
    hide LinesOf;
    hide Chopped;
    var body := line.content + if line.crlf then [0x0d] else [];
    BodyChops(line);
    NothingEnds(stream, body);
    OneByte(stream + body, 0x0a);
    Regroup(stream, body, [0x0a]);
    assert Pending(stream) + body == body;
  }

  lemma BodyChops(line: SentLine)
    requires IsSentLine(line)
    ensures var body := line.content + if line.crlf then [0x0d] else [];
            && 0x0a !in body && Chopped(body) == line.content
            && line.content + (if line.crlf then [0x0d, 0x0a] else [0x0a]) == body + [0x0a]
  {
    if line.crlf {
      assert line.content + [0x0d, 0x0a] == line.content + [0x0d] + [0x0a];
      assert (line.content + [0x0d])[..|line.content|] == line.content;
    } else {
      assert line.content + [] == line.content;
    }
  }

  /**
    * Lines sent one after another come out as those lines, the empty ones left
    * out, and what follows the last of them is kept for later.
    */
  lemma {:induction false} SentLinesComeOut(lines: seq<SentLine>, rest: Bytes)
    requires (forall line | line in lines :: IsSentLine(line)) && 0x0a !in rest
    ensures LinesOf(OnTheWire(lines) + rest) == Contents(lines) && Pending(OnTheWire(lines) + rest) == rest
    decreases |lines|, |rest|
  {
    if rest != [] {
      SentLinesComeOut(lines, []);
      assert OnTheWire(lines) + [] == OnTheWire(lines);
      NothingEnds(OnTheWire(lines), rest);
    } else if lines == [] {
      assert OnTheWire(lines) + rest == [];
    } else {
      var before, last := lines[..|lines| - 1], lines[|lines| - 1];
      SentLinesComeOut(before, []);
      assert OnTheWire(before) + [] == OnTheWire(before);
      OneLineEnds(OnTheWire(before), last);
      assert OnTheWire(lines) + rest == OnTheWire(lines);
    }
  }
}
